/** The rewriting of time placeholders in external queries, character by character. */
module Placeholders {
  import opened Wrappers

  /** A placeholder: a hash sign and a name, a group of allowed characters, a suffix and a hash sign. */
  datatype Pattern = Pattern(name: string, allowed: char -> bool, suffix: string)

  const SUFFIX := "_EVENTS_LOGS"

  /** `#REPLACE_TIME_<digits>_EVENTS_LOGS#` */
  const TIME := Pattern("REPLACE_TIME_", c => '0' <= c <= '9', SUFFIX)

  /** `#BETWEEN_REPLACE_<letters, digits, _ and ,>_EVENTS_LOGS#` */
  const BETWEEN :=
    Pattern("BETWEEN_REPLACE_",
            c => '0' <= c <= '9' || 'a' <= c <= 'z' || 'A' <= c <= 'Z' || c == '_' || c == ',', SUFFIX)

  function Head(p: Pattern): (s: string)
    ensures s != "" && s[0] == '#'
  {
    ['#'] + p.name
  }

  /** What a date starts with. */
  predicate Opens(c: char) {
    c == '\'' || c == ' '
  }

  /** No part of a placeholder starts a date. */
  ghost predicate Sane(p: Pattern) {
    && (forall i | 0 <= i < |p.name| :: !Opens(p.name[i]))
    && (forall i | 0 <= i < |p.suffix| :: !Opens(p.suffix[i]))
    && forall c :: p.allowed(c) ==> !Opens(c)
  }

  lemma {:induction false} BothSane()
    ensures Sane(TIME) && Sane(BETWEEN)
  {
  }

  function FirstHash(s: string): (h: nat)
    ensures h <= |s| && (h < |s| ==> s[h] == '#') && forall i | 0 <= i < h :: s[i] != '#'
  {
    if s == "" || s[0] == '#' then 0 else 1 + FirstHash(s[1..])
  }

  /** The captured group, if `body` is one followed by the suffix. */
  function GroupOf(p: Pattern, body: string): Option<string> {
    if |body| <= |p.suffix| then None
    else
      var n := |body| - |p.suffix|;
      if body[n..] == p.suffix && forall i | 0 <= i < n :: p.allowed(body[i]) then Some(body[..n]) else None
  }

  /** A placeholder at the very start: its group and what follows it. */
  function MatchHere(p: Pattern, q: string): (r: Option<(string, string)>)
    ensures r.Some? ==> q != "" && q[0] == '#' && |r.value.1| < |q|
  {
    var n := |Head(p)|;
    if |q| < n || q[..n] != Head(p) then None
    else
      var s := q[n..];
      var h := FirstHash(s);
      if h == |s| || GroupOf(p, s[..h]).None? then None
      else
        assert q[0] == q[..n][0];
        Some((GroupOf(p, s[..h]).value, s[h + 1..]))
  }

  /** `q` starts with a placeholder: hash sign, name, group, suffix, hash sign; `rest` follows. */
  ghost predicate Placeholder(p: Pattern, q: string, group: string, rest: string) {
    && q == ['#'] + p.name + group + p.suffix + ['#'] + rest
    && group != "" && forall i | 0 <= i < |group| :: p.allowed(group[i])
  }

  /** Neither groups nor suffixes hold the closing hash sign. */
  ghost predicate Closes(p: Pattern) {
    '#' !in p.suffix && !p.allowed('#')
  }

  lemma {:induction false} GroupIs(p: Pattern, body: string, group: string)
    ensures GroupOf(p, body) == Some(group) <==>
            body == group + p.suffix && group != "" && forall i | 0 <= i < |group| :: p.allowed(group[i])
  {
    if body == group + p.suffix {
      assert body[|group|..] == p.suffix && body[..|group|] == group;
    } else if |body| > |p.suffix| {
      assert body == body[..|body| - |p.suffix|] + body[|body| - |p.suffix|..];
    }
  }

  lemma {:induction false} UpToHash(body: string, rest: string)
    requires '#' !in body
    ensures var s := body + ['#'] + rest;
            FirstHash(s) == |body| && s[..|body|] == body && s[|body| + 1..] == rest
  {
    FirstHashIs(body + ['#'] + rest, |body|);
  }

  lemma {:induction false} BehindHead(p: Pattern, s: string)
    ensures var q, n := Head(p) + s, |Head(p)|; q[..n] == Head(p) && q[n..] == s
  {
  }

  lemma {:induction false} Pieces(p: Pattern, group: string, rest: string)
    ensures ['#'] + p.name + group + p.suffix + ['#'] + rest == Head(p) + ((group + p.suffix) + ['#'] + rest)
  {
  }

  lemma {:induction false} MatchesPlaceholder(p: Pattern, group: string, rest: string)
    requires Closes(p) && group != "" && forall i | 0 <= i < |group| :: p.allowed(group[i])
    ensures MatchHere(p, Head(p) + ((group + p.suffix) + ['#'] + rest)) == Some((group, rest))
  {
    BehindHead(p, (group + p.suffix) + ['#'] + rest);
    UpToHash(group + p.suffix, rest);
    GroupIs(p, group + p.suffix, group);
  }

  lemma {:induction false} MatchedText(p: Pattern, q: string)
    requires MatchHere(p, q).Some?
    ensures var (group, rest) := MatchHere(p, q).value;
            && q == Head(p) + ((group + p.suffix) + ['#'] + rest)
            && group != "" && forall i | 0 <= i < |group| :: p.allowed(group[i])
  {
    var n := |Head(p)|;
    var s := q[n..];
    var h := FirstHash(s);
    GroupIs(p, s[..h], MatchHere(p, q).value.0);
    assert q == q[..n] + s;
    assert s == s[..h] + ['#'] + s[h + 1..];
  }

  /** What is matched is exactly that. */
  lemma {:induction false} MatchIff(p: Pattern, q: string, group: string, rest: string)
    requires Closes(p)
    ensures MatchHere(p, q) == Some((group, rest)) <==> Placeholder(p, q, group, rest)
  {
    Pieces(p, group, rest);
    if Placeholder(p, q, group, rest) {
      MatchesPlaceholder(p, group, rest);
    } else if MatchHere(p, q).Some? {
      MatchedText(p, q);
    }
  }

  lemma {:induction false} BothClose()
    ensures Closes(TIME) && Closes(BETWEEN)
  {
  }

  lemma {:induction false} NamedMatches(p: Pattern, name: string, suffix: string, group: string, rest: string)
    requires Closes(p) && p.name == name && p.suffix == suffix
    ensures MatchHere(p, ['#'] + name + group + suffix + ['#'] + rest) == Some((group, rest)) <==>
            group != "" && forall i | 0 <= i < |group| :: p.allowed(group[i])
  {
    MatchIff(p, ['#'] + name + group + suffix + ['#'] + rest, group, rest);
  }

  /** The two kinds of placeholders, spelled out. */
  lemma {:induction false} TimeMatches(group: string, rest: string)
    ensures MatchHere(TIME, ['#'] + "REPLACE_TIME_" + group + "_EVENTS_LOGS" + ['#'] + rest) == Some((group, rest)) <==>
            group != "" && forall i | 0 <= i < |group| :: '0' <= group[i] <= '9'
  {
    BothClose();
    NamedMatches(TIME, "REPLACE_TIME_", "_EVENTS_LOGS", group, rest);
  }

  lemma {:induction false} BetweenMatches(group: string, rest: string)
    ensures MatchHere(BETWEEN, ['#'] + "BETWEEN_REPLACE_" + group + "_EVENTS_LOGS" + ['#'] + rest) ==
            Some((group, rest)) <==>
                 group != "" && forall i | 0 <= i < |group| ::
                   var c := group[i]; '0' <= c <= '9' || 'a' <= c <= 'z' || 'A' <= c <= 'Z' || c == '_' || c == ','
  {
    BothClose();
    NamedMatches(BETWEEN, "BETWEEN_REPLACE_", "_EVENTS_LOGS", group, rest);
  }

  predicate HasMatch(p: Pattern, q: string) {
    q != "" && (MatchHere(p, q).Some? || HasMatch(p, q[1..]))
  }

  /** `query.replace(regex, r)` without the global flag: the leftmost placeholder. */
  function ReplaceFirst(p: Pattern, q: string, r: string -> string): string {
    if q == "" then ""
    else
      var m := MatchHere(p, q);
      if m.Some? then r(m.value.0) + m.value.1 else [q[0]] + ReplaceFirst(p, q[1..], r)
  }

  /** One pass from left to right: placeholders become dates, everything else stays. */
  function Expand(p: Pattern, q: string, r: string -> string): string
    decreases |q|
  {
    if q == "" then ""
    else
      var m := MatchHere(p, q);
      if m.Some? then r(m.value.0) + Expand(p, m.value.1, r) else [q[0]] + Expand(p, q[1..], r)
  }

  /** Dates come in quotes, perhaps behind a blank, and hold no hash sign. */
  ghost predicate Harmless(r: string -> string) {
    forall g :: r(g) != "" && Opens(r(g)[0]) && '#' !in r(g)
  }

  /** What the two loops put in: a day in quotes, or the first and the last day of a week. */
  lemma {:induction false} DatesHarmless(day: string -> string, first: string -> string, last: string -> string)
    requires forall g :: '#' !in day(g) && '#' !in first(g) && '#' !in last(g)
    ensures Harmless(g => "'" + day(g) + "'")
    ensures Harmless(g => " '" + first(g) + "' AND '" + last(g) + "'")
  {
  }

  function Hashes(s: string): nat {
    if s == "" then 0 else (if s[0] == '#' then 1 else 0) + Hashes(s[1..])
  }

  lemma {:induction false} HashesAppend(a: string, b: string)
    ensures Hashes(a + b) == Hashes(a) + Hashes(b)
  {
    if a == "" {
      assert a + b == b;
    } else {
      assert (a + b)[1..] == a[1..] + b;
      HashesAppend(a[1..], b);
    }
  }

  lemma {:induction false} NoHashes(s: string)
    requires '#' !in s
    ensures Hashes(s) == 0
  {
    if s != "" {
      NoHashes(s[1..]);
    }
  }

  /** Every replacement takes hash signs away, so the loops end. */
  lemma {:induction false} FewerHashes(p: Pattern, q: string, r: string -> string)
    requires HasMatch(p, q) && Harmless(r)
    ensures Hashes(ReplaceFirst(p, q, r)) < Hashes(q)
  {
    var m := MatchHere(p, q);
    if m.Some? {
      var rest := m.value.1;
      HashesAppend(r(m.value.0), rest);
      NoHashes(r(m.value.0));
      HashesAppend(q[..|q| - |rest|], rest);
      assert q == q[..|q| - |rest|] + rest;
      assert Hashes(q[..|q| - |rest|]) >= 1;
    } else {
      FewerHashes(p, q[1..], r);
    }
  }

  /** The leftmost placeholder: what precedes it, its group and what follows. */
  function Leftmost(p: Pattern, q: string): (string, string, string)
    requires HasMatch(p, q)
  {
    var m := MatchHere(p, q);
    if m.Some? then ("", m.value.0, m.value.1)
    else
      var t := Leftmost(p, q[1..]);
      ([q[0]] + t.0, t.1, t.2)
  }

  lemma {:induction false} LeftmostReplaced(p: Pattern, q: string, r: string -> string)
    requires HasMatch(p, q)
    ensures var t := Leftmost(p, q); ReplaceFirst(p, q, r) == t.0 + r(t.1) + t.2
  {
    if MatchHere(p, q).Some? {
      NothingBefore(r(Leftmost(p, q).1), Leftmost(p, q).2);
    } else {
      LeftmostReplaced(p, q[1..], r);
      var t := Leftmost(p, q[1..]);
      FirstThenRest(q[0], t.0, r(t.1), t.2);
    }
  }

  lemma {:induction false} NothingBefore(date: string, rest: string)
    ensures date + rest == "" + date + rest
  {
  }

  lemma {:induction false} LeftmostBefore(p: Pattern, q: string) returns (tail: string)
    requires HasMatch(p, q)
    ensures q == Leftmost(p, q).0 + tail
  {
    if MatchHere(p, q).Some? {
      tail := q;
    } else {
      tail := LeftmostBefore(p, q[1..]);
      assert q == [q[0]] + q[1..];
    }
  }

  lemma {:induction false} RestIsTail(p: Pattern, q: string)
    requires MatchHere(p, q).Some?
    ensures var rest := MatchHere(p, q).value.1; |rest| < |q| && rest == q[|q| - |rest|..]
  {
  }

  lemma {:induction false} FirstThenRest(c: char, before: string, date: string, rest: string)
    ensures [c] + (before + date + rest) == [c] + before + date + rest
  {
  }

  /** The prefix of a placeholder does not reach into a date. */
  lemma {:induction false} PrefixInside(p: Pattern, start: string, date: string, rest: string)
    requires Sane(p) && date != "" && Opens(date[0])
    requires var q, n := start + date + rest, |Head(p)|; n <= |q| && q[..n] == Head(p)
    ensures |Head(p)| <= |start| && start[..|Head(p)|] == Head(p)
  {
    var q, n := start + date + rest, |Head(p)|;
    if n > |start| {
      assert q[..n][|start|] == date[0];
      PrefixPlain(p, |start|);
    } else {
      assert start[..n] == q[..n];
    }
  }

  /** A hash sign behind the prefix, still in front of the replacement, closed the placeholder before as well. */
  lemma {:induction false} ClosedBefore(p: Pattern, start: string, date: string, rest: string, replaced: string, h: nat)
    requires |Head(p)| <= |start| && start[..|Head(p)|] == Head(p)
    requires var n := |Head(p)|; h == FirstHash((start + date + rest)[n..]) && h < |start| - n
    requires GroupOf(p, start[|Head(p)|..][..h]).Some?
    ensures MatchHere(p, start + replaced).Some?
  {
    var n, q, was := |Head(p)|, start + date + rest, start + replaced;
    var s, t := q[n..], was[n..];
    assert was[..n] == start[..n];
    assert forall i | 0 <= i < |start| - n :: s[i] == start[n..][i] == t[i];
    FirstHashIs(t, h);
    assert t[..h] == start[n..][..h];
  }

  /** Text that does not start with a placeholder of `p` does not come to start with one when a placeholder behind is
      replaced: the quote or blank of the date would have to be part of it. */
  lemma {:induction false} NoNewMatch(p: Pattern, start: string, date: string, rest: string, replaced: string)
    requires Sane(p) && date != "" && Opens(date[0]) && '#' !in date
    requires MatchHere(p, start + replaced).None?
    ensures MatchHere(p, start + date + rest).None?
  {
    if MatchHere(p, start + date + rest).Some? {
      PrefixInside(p, start, date, rest);
      ClosedOrOpen(p, start, date, rest, replaced);
    }
  }

  lemma {:induction false} ClosedOrOpen(p: Pattern, start: string, date: string, rest: string, replaced: string)
    requires Sane(p) && date != "" && Opens(date[0]) && '#' !in date
    requires |Head(p)| <= |start| && start[..|Head(p)|] == Head(p)
    requires MatchHere(p, start + date + rest).Some?
    ensures MatchHere(p, start + replaced).Some?
  {
    var n := |Head(p)|;
    var head, s := start[n..], (start + date + rest)[n..];
    assert s == head + (date + rest);
    if FirstHash(s) < |head| {
      assert s[..FirstHash(s)] == head[..FirstHash(s)];
      ClosedBefore(p, start, date, rest, replaced, FirstHash(s));
    } else {
      OpenBefore(p, head, date, rest);
    }
  }

  /** Without one, the date would be part of the group. */
  lemma {:induction false} OpenBefore(p: Pattern, head: string, date: string, rest: string)
    requires Sane(p) && date != "" && Opens(date[0]) && '#' !in date
    requires FirstHash(head + (date + rest)) >= |head|
    ensures var s := head + (date + rest); GroupOf(p, s[..FirstHash(s)]).None?
  {
    var s := head + (date + rest);
    HashBehind(s, |head|, date, rest);
    var body := s[..FirstHash(s)];
    assert body[|head|] == date[0];
    if GroupOf(p, body).Some? {
      GroupPlain(p, body, |head|);
    }
  }

  lemma {:induction false} PrefixPlain(p: Pattern, i: nat)
    requires Sane(p) && i < |Head(p)|
    ensures !Opens(Head(p)[i])
  {
  }

  lemma {:induction false} FirstHashIs(s: string, h: nat)
    requires h < |s| && s[h] == '#' && forall i | 0 <= i < h :: s[i] != '#'
    ensures FirstHash(s) == h
  {
  }

  /** Without a hash sign before `k`, the first one lies behind the text at `k`. */
  lemma {:induction false} HashBehind(s: string, k: nat, date: string, rest: string)
    requires k <= |s| && s[k..] == date + rest && date != "" && '#' !in date && FirstHash(s) >= k
    ensures FirstHash(s) > k
  {
    assert s[k] == date[0];
  }

  lemma {:induction false} GroupPlain(p: Pattern, body: string, k: nat)
    requires Sane(p) && k < |body| && GroupOf(p, body).Some?
    ensures !Opens(body[k])
  {
    var n := |body| - |p.suffix|;
    if k >= n {
      assert body[k] == p.suffix[k - n];
    }
  }

  // ---- the loops ----

  /** Replacing the leftmost placeholder of `p` creates none of `other`. */
  lemma {:induction false} ReplaceCreatesNone(p: Pattern, other: Pattern, q: string, r: string -> string)
    requires HasMatch(p, q) && Harmless(r) && !HasMatch(other, q) && Sane(other)
    ensures !HasMatch(other, ReplaceFirst(p, q, r))
    decreases |q|
  {
    if MatchHere(p, q).Some? {
      DateCreatesNone(p, other, q, r);
    } else {
      ReplaceCreatesNone(p, other, q[1..], r);
      HeadStaysPlain(p, other, q, r);
      HeadAndTail(other, ReplaceFirst(p, q, r), ReplaceFirst(p, q[1..], r));
    }
  }

  lemma {:induction false} DateCreatesNone(p: Pattern, other: Pattern, q: string, r: string -> string)
    requires MatchHere(p, q).Some? && Harmless(r) && !HasMatch(other, q)
    ensures !HasMatch(other, ReplaceFirst(p, q, r))
  {
    var m := MatchHere(p, q).value;
    RestIsTail(p, q);
    DateThenTail(other, q, |q| - |m.1|, r(m.0), m.1);
  }

  lemma {:induction false} DateThenTail(p: Pattern, q: string, i: nat, date: string, rest: string)
    requires !HasMatch(p, q) && i <= |q| && '#' !in date && rest == q[i..]
    ensures !HasMatch(p, date + rest)
  {
    NoMatchInRest(p, q, i);
    NoMatchInDate(p, date, rest);
  }

  lemma {:induction false} HeadAndTail(p: Pattern, q: string, tail: string)
    requires q != "" && q[1..] == tail && MatchHere(p, q).None? && !HasMatch(p, tail)
    ensures !HasMatch(p, q)
  {
  }

  lemma {:induction false} HeadStaysPlain(p: Pattern, other: Pattern, q: string, r: string -> string)
    requires HasMatch(p, q) && Harmless(r) && MatchHere(other, q).None? && Sane(other)
    ensures MatchHere(other, ReplaceFirst(p, q, r)).None?
  {
    var t := Leftmost(p, q);
    var tail := LeftmostBefore(p, q);
    LeftmostReplaced(p, q, r);
    NoNewMatch(other, t.0, r(t.1), t.2, tail);
  }

  lemma {:induction false} NoMatchInRest(p: Pattern, q: string, i: nat)
    requires !HasMatch(p, q) && i <= |q|
    ensures !HasMatch(p, q[i..])
  {
    if i > 0 {
      NoMatchInRest(p, q[1..], i - 1);
      assert q[1..][i - 1..] == q[i..];
    }
  }

  lemma {:induction false} NoMatchInDate(p: Pattern, date: string, rest: string)
    requires '#' !in date && !HasMatch(p, rest)
    ensures !HasMatch(p, date + rest)
  {
    if date == "" {
      assert date + rest == rest;
    } else {
      assert (date + rest)[0] == date[0] && (date + rest)[1..] == date[1..] + rest;
      NoMatchInDate(p, date[1..], rest);
    }
  }

  lemma {:induction false} ExpandDate(p: Pattern, date: string, rest: string, r: string -> string)
    requires '#' !in date
    ensures Expand(p, date + rest, r) == date + Expand(p, rest, r)
  {
    if date == "" {
      assert date + rest == rest;
    } else {
      var q := date + rest;
      assert q[0] == date[0] && q[1..] == date[1..] + rest;
      ExpandDate(p, date[1..], rest, r);
      ExpandPlain(p, q, r);
      HeadTail(date, Expand(p, rest, r));
    }
  }

  lemma {:induction false} HeadTail(date: string, rest: string)
    requires date != ""
    ensures [date[0]] + (date[1..] + rest) == date + rest
  {
  }

  lemma {:induction false} ExpandPlain(p: Pattern, q: string, r: string -> string)
    requires q != "" && q[0] != '#'
    ensures Expand(p, q, r) == [q[0]] + Expand(p, q[1..], r)
  {
  }

  /** Replacing the leftmost placeholder is one step of the single pass. */
  lemma {:induction false} ExpandStep(p: Pattern, q: string, r: string -> string)
    requires HasMatch(p, q) && Harmless(r) && Sane(p)
    ensures Expand(p, ReplaceFirst(p, q, r), r) == Expand(p, q, r)
  {
    var m := MatchHere(p, q);
    if m.Some? {
      ExpandDate(p, r(m.value.0), m.value.1, r);
    } else {
      ExpandStep(p, q[1..], r);
      HeadStaysPlain(p, p, q, r);
      var after := ReplaceFirst(p, q, r);
      assert after[0] == q[0] && after[1..] == ReplaceFirst(p, q[1..], r);
    }
  }

  lemma {:induction false} ExpandNothing(p: Pattern, q: string, r: string -> string)
    requires !HasMatch(p, q)
    ensures Expand(p, q, r) == q
  {
    if q != "" {
      ExpandNothing(p, q[1..], r);
    }
  }

  /** Up to the first placeholder the pass changes nothing; in its place it puts the date of its group, and goes on
      behind it. */
  lemma {:induction false} ExpandFirst(p: Pattern, q: string, k: nat, group: string, rest: string, r: string -> string)
    requires Closes(p) && k <= |q| && Placeholder(p, q[k..], group, rest)
    requires forall i | 0 <= i < k :: MatchHere(p, q[i..]).None?
    ensures Expand(p, q, r) == q[..k] + r(group) + Expand(p, rest, r)
    decreases k
  {
    if k == 0 {
      assert q[0..] == q && q[..0] + r(group) == r(group);
      MatchIff(p, q, group, rest);
    } else {
      var tail := q[1..];
      assert tail[k - 1..] == q[k..] && q[0..] == q;
      forall i | 0 <= i < k - 1 ensures MatchHere(p, tail[i..]).None? {
        assert tail[i..] == q[i + 1..];
      }
      ExpandFirst(p, tail, k - 1, group, rest, r);
      assert MatchHere(p, q).None?;
      ExpandOn(p, q, k, r(group), Expand(p, rest, r), r);
    }
  }

  lemma {:induction false} ExpandOn(p: Pattern, q: string, k: nat, date: string, after: string, r: string -> string)
    requires 1 <= k <= |q| && MatchHere(p, q).None? && Expand(p, q[1..], r) == q[1..][..k - 1] + date + after
    ensures Expand(p, q, r) == q[..k] + date + after
  {
    assert [q[0]] + q[1..][..k - 1] == q[..k];
  }

  method ReplaceAll(p: Pattern, query: string, r: string -> string) returns (q: string)
    requires Harmless(r) && Sane(p)
    ensures q == Expand(p, query, r) && !HasMatch(p, q)
    ensures forall other | Sane(other) :: !HasMatch(other, query) ==> !HasMatch(other, q)
  {
    q := query;
    while HasMatch(p, q)
      invariant Expand(p, q, r) == Expand(p, query, r)
      invariant forall other | Sane(other) :: !HasMatch(other, query) ==> !HasMatch(other, q)
      decreases Hashes(q)
    {
      FewerHashes(p, q, r);
      ExpandStep(p, q, r);
      forall other | Sane(other) && !HasMatch(other, q) ensures !HasMatch(other, ReplaceFirst(p, q, r)) {
        ReplaceCreatesNone(p, other, q, r);
      }
      q := ReplaceFirst(p, q, r);
    }
    ExpandNothing(p, q, r);
  }

  /** Both loops end; they turn every placeholder into its dates, leave none and change no other character. */
  method FormattedTimeQuery(query: string, time: string -> string, between: string -> string) returns (q: string)
    requires Harmless(time) && Harmless(between)
    ensures q == Expand(BETWEEN, Expand(TIME, query, time), between)
    ensures !HasMatch(TIME, q) && !HasMatch(BETWEEN, q)
  {
    BothSane();
    q := ReplaceAll(TIME, query, time);
    q := ReplaceAll(BETWEEN, q, between);
  }
}
