/** Template names are not unique at the source, so the importer writes the source id into them and then uses
    them as natural key. */
module EmailTemplates {
  import opened Wrappers

  const MAX_NAME := 255

  function Suffix(id: string): string {
    " #" + id
  }

  predicate EndsWith(s: string, suffix: string) {
    |suffix| <= |s| && s[|s| - |suffix|..] == suffix
  }

  /** `s.slice(0, end)`: a negative end counts from the back. */
  function Slice(s: string, end: int): (r: string)
    ensures |r| <= |s|
    ensures end >= 0 ==> |r| <= end
  {
    if end >= |s| then s
    else if end >= 0 then s[..end]
    else if |s| + end >= 0 then s[..|s| + end]
    else ""
  }

  /** How much of a name of length `n` is kept where `room` characters are left; too long an id takes from its end. */
  function Room(n: nat, room: int): (k: nat)
    ensures k <= n
  {
    if room >= n then n else if room >= 0 then room else if n + room >= 0 then n + room else 0
  }

  function StableName(name: string, id: string): string {
    if EndsWith(name, Suffix(id)) then name else Slice(name, MAX_NAME - |Suffix(id)|) + Suffix(id)
  }

  /** The source record and the mapped row are rewritten together: the natural key is read from the former. */
  class TemplateRow {
    const id: Option<string>
    var srcName: Option<string>
    var mappedName: Option<string>

    constructor (id: Option<string>, srcName: Option<string>, mappedName: Option<string>)
      ensures this.id == id && this.srcName == srcName && this.mappedName == mappedName
    {
      this.id, this.srcName, this.mappedName := id, srcName, mappedName;
    }

    /** The natural key the page upsert reads. */
    function Key(): string
      reads this
    {
      if srcName.Some? then srcName.value else if mappedName.Some? then mappedName.value else ""
    }

    /** A record without id cannot be told apart and stays as it is; any other ends up with one name in both places,
        which ends with its id and is left alone if it already did. */
    method Customize()
      modifies this
      ensures id.None? ==> srcName == old(srcName) && mappedName == old(mappedName)
      ensures id.Some? ==>
                && srcName == mappedName == Some(Key()) && Key() == StableName(old(Key()), id.value)
                && EndsWith(Key(), Suffix(id.value)) && (EndsWith(old(Key()), Suffix(id.value)) ==> Key() == old(Key()))
      ensures id.Some? ==>
                var was := if old(srcName).Some? then old(srcName).value
                           else if old(mappedName).Some? then old(mappedName).value else "";
                srcName == Some(if EndsWith(was, " #" + id.value) then was
                                else was[..Room(|was|, 253 - |id.value|)] + (" #" + id.value))
    {
      if id.None? { return; }
      var suffix, base := Suffix(id.value), Key();
      var stable := if EndsWith(base, suffix) then base else Slice(base, MAX_NAME - |suffix|) + suffix;
      StableNameEnds(base, id.value);
      StableNameIs(base, id.value);
      srcName, mappedName := Some(stable), Some(stable);
    }
  }

  lemma {:induction false} SliceIs(s: string, end: int)
    ensures Slice(s, end) == s[..Room(|s|, end)]
  {
    assert s[..|s|] == s && s[..0] == "";
  }

  lemma {:induction false} StableNameIs(name: string, id: string)
    ensures StableName(name, id) == if EndsWith(name, " #" + id) then name
                                    else name[..Room(|name|, 253 - |id|)] + (" #" + id)
  {
    assert |Suffix(id)| == |id| + 2;
    SliceIs(name, 253 - |id|);
  }

  lemma {:induction false} StableNameEnds(name: string, id: string)
    ensures EndsWith(StableName(name, id), Suffix(id))
  {
    if !EndsWith(name, Suffix(id)) {
      var head := Slice(name, MAX_NAME - |Suffix(id)|);
      assert (head + Suffix(id))[|head|..] == Suffix(id);
    }
  }

  /** Importing a page again does not lengthen names. */
  lemma {:induction false} StableNameIdempotent(name: string, id: string)
    ensures StableName(StableName(name, id), id) == StableName(name, id)
  {
    StableNameEnds(name, id);
  }

  /** A name fits the column exactly when the source's name already did or was cut. */
  lemma {:induction false} StableNameFits(name: string, id: string)
    requires |Suffix(id)| <= MAX_NAME
    ensures |StableName(name, id)| <= MAX_NAME <==> |name| <= MAX_NAME || !EndsWith(name, Suffix(id))
  {
  }

  /** Of two suffixes of one name, the longer one's id contains the shorter one's hash sign. */
  lemma {:induction false} HashInside(s: string, a: string, b: string)
    requires EndsWith(s, Suffix(a)) && EndsWith(s, Suffix(b)) && |a| < |b|
    ensures b[|b| - |a| - 1] == '#'
  {
    var i := |s| - |a| - 1;
    assert s[i] == s[|s| - |Suffix(a)|..][1] == '#';
    assert s[i] == s[|s| - |Suffix(b)|..][|b| - |a| + 1] == b[|b| - |a| - 1];
  }

  /** Whatever the names at the source were, different ids give different keys. */
  lemma {:induction false} StableNamesDistinct(nameA: string, a: string, nameB: string, b: string)
    requires '#' !in a && '#' !in b && a != b
    ensures StableName(nameA, a) != StableName(nameB, b)
  {
    StableNameEnds(nameA, a);
    StableNameEnds(nameB, b);
    assert a == Suffix(a)[2..] && b == Suffix(b)[2..];
    if StableName(nameA, a) == StableName(nameB, b) {
      if |a| < |b| {
        HashInside(StableName(nameA, a), a, b);
      } else if |b| < |a| {
        HashInside(StableName(nameA, a), b, a);
      }
    }
  }
}
