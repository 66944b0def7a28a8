/** From a source record to the columns of a row. */
module RowMapping {
  import opened Wrappers
  import opened ImportSource
  import opened Upserts

  /** One property of a source record; null and undefined are `None`. */
  datatype Property = Property(name: string, value: Option<string>)

  /** The entity's columns: property name to database name. */
  type Meta = map<string, string>

  ghost predicate Injective(meta: Meta) {
    forall p, q :: p in meta && q in meta && meta[p] == meta[q] ==> p == q
  }

  /** A record has each property at most once. */
  ghost predicate Record(src: seq<Property>) {
    forall i, j | 0 <= i < j < |src| :: src[i].name != src[j].name
  }

  /** The value a record holds under `name`. */
  function Pick(src: seq<Property>, name: string): Option<string> {
    if src == [] then None
    else if src[|src| - 1].name == name then src[|src| - 1].value
    else Pick(src[..|src| - 1], name)
  }

  lemma {:induction false} PickNone(src: seq<Property>, name: string)
    requires forall i | 0 <= i < |src| :: src[i].name != name
    ensures Pick(src, name).None?
  {
    if src != [] {
      PickNone(src[..|src| - 1], name);
    }
  }

  /** The record holds value `v` under `name`. */
  ghost predicate Has(src: seq<Property>, name: string, v: string) {
    Property(name, Some(v)) in src
  }

  lemma {:induction false} PickHas(src: seq<Property>, name: string, v: string)
    requires Record(src)
    ensures Pick(src, name) == Some(v) <==> Has(src, name, v)
  {
    if src != [] {
      var before, last := src[..|src| - 1], src[|src| - 1];
      assert src == before + [last];
      if last.name == name {
        PickNone(before, name);
        forall q <- before ensures q.name != name {
          var i :| 0 <= i < |before| && before[i] == q;
          assert src[i].name != last.name;
        }
      } else {
        PickHas(before, name, v);
      }
    }
  }

  /** The column a key stands for: its own, or the one whose database name it is. */
  function PropOf(meta: Meta, key: string): Option<string>
    requires Injective(meta)
  {
    if key in meta then Some(key)
    else if exists p :: p in meta && meta[p] == key then
      var p :| p in meta && meta[p] == key;
      Some(p)
    else None
  }

  /** What column `prop` receives: the value under its property name, failing that the one under its database name,
      unless that is the property name of another column. */
  function Wanted(src: seq<Property>, meta: Meta, prop: string): Option<string>
    requires prop in meta
  {
    if Pick(src, prop).Some? then Pick(src, prop)
    else if meta[prop] in meta then None
    else Pick(src, meta[prop])
  }

  /** Only what the loop has seen of the record counts. */
  ghost predicate Filled(row: Columns, src: seq<Property>, meta: Meta) {
    && row.Keys <= meta.Keys
    && forall p :: p in meta ==> Wanted(src, meta, p) == if p in row then Some(row[p]) else None
  }

  lemma {:induction false} SeenOne(row: Columns, src: seq<Property>, n: nat, meta: Meta, p: string)
    requires Record(src) && Injective(meta) && n < |src| && p in meta
    requires Filled(row, src[..n], meta)
    ensures Pick(src[..n + 1], p) == if src[n].name == p then src[n].value else Pick(src[..n], p)
    ensures Pick(src[..n + 1], meta[p]) == if src[n].name == meta[p] then src[n].value else Pick(src[..n], meta[p])
    ensures src[n].name == p ==> Pick(src[..n], p).None?
    ensures src[n].name == meta[p] ==> Pick(src[..n], meta[p]).None?
  {
    assert src[..n + 1][..n] == src[..n];
    if src[n].name == p {
      PickNone(src[..n], p);
    }
    if src[n].name == meta[p] {
      PickNone(src[..n], meta[p]);
    }
  }

  /** Column `p` takes the record's value under its property name, failing that the one under its database name. */
  ghost predicate Takes(src: seq<Property>, meta: Meta, p: string, v: string)
    requires p in meta
  {
    || Has(src, p, v)
    || (Has(src, meta[p], v) && meta[p] !in meta && forall u :: !Has(src, p, u))
  }

  lemma {:induction false} WantedTakes(src: seq<Property>, meta: Meta, p: string, v: string)
    requires Record(src) && p in meta
    ensures Wanted(src, meta, p) == Some(v) <==> Takes(src, meta, p, v)
  {
    PickHas(src, p, v);
    PickHas(src, meta[p], v);
    if Pick(src, p).Some? {
      PickHas(src, p, Pick(src, p).value);
    } else {
      forall u ensures !Has(src, p, u) {
        PickHas(src, p, u);
      }
    }
  }

  /** The order of the record's properties does not matter. Null values are dropped, so that defaults can fill them
      on insert and a refresh keeps what is there; the primary key is left to the sequence. */
  method BuildRow(src: seq<Property>, meta: Meta, pk: string, account: string) returns (row: Columns)
    requires Record(src) && Injective(meta)
    ensures row.Keys <= meta.Keys - {pk} + {"accountId"}
    ensures forall p | p in meta && p != pk && p != "accountId" ::
              Wanted(src, meta, p) == if p in row then Some(row[p]) else None
    ensures forall p, v | p in meta && p != pk && p != "accountId" ::
              (p in row && row[p] == v) <==> Takes(src, meta, p, v)
    ensures "accountId" in meta ==> "accountId" in row && row["accountId"] == account
    ensures "accountId" !in meta ==> "accountId" !in row
  {
    row := map[];
    for i := 0 to |src|
      invariant Filled(row, src[..i], meta)
    {
      var before := row;
      var key, prop := src[i].name, PropOf(meta, src[i].name);
      if prop.Some? && !(key != prop.value && prop.value in row) && src[i].value.Some? {
        row := row[prop.value := src[i].value.value];
      }
      forall p | p in meta ensures Wanted(src[..i + 1], meta, p) == if p in row then Some(row[p]) else None {
        SeenOne(before, src, i, meta, p);
      }
    }
    assert src[..|src|] == src;
    forall p, v | p in meta ensures (p in row && row[p] == v) <==> Takes(src, meta, p, v) {
      WantedTakes(src, meta, p, v);
    }
    row := row - {pk};
    if "accountId" in meta {
      row := row["accountId" := account];
    }
  }
}
