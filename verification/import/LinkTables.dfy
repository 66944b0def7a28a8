/** Join tables of the target account. They carry no unique constraint, so only the importers' own lookups keep
    a pair from being stored twice. */
module LinkTables {
  import opened Wrappers
  import opened Upserts
  import opened ImportSource
  import opened RowTables
  import opened IdMapping

  datatype Link = Link(left: nat, right: nat, payload: Columns) {
    function Ids(): (nat, nat) {
      (left, right)
    }
  }

  ghost predicate SamePair(l: Link, l': Link) {
    l.Ids() == l'.Ids()
  }

  ghost predicate Distinct(ls: seq<Link>) {
    forall i, j {:trigger SamePair(ls[i], ls[j])} | 0 <= i < j < |ls| :: !SamePair(ls[i], ls[j])
  }

  ghost predicate Refers(l: Link, left: Table, right: Table) {
    l.left in left && l.right in right
  }

  /** The cell of join table `e` that row `l` is. */
  ghost function CellAt(e: string, l: Link, left: Table, right: Table): Cell
    requires Refers(l, left, right)
  {
    LinkCell(e, left[l.left].key, right[l.right].key)
  }

  /** `l` joins existing rows and is what `s` says about their keys. */
  ghost predicate Mirrored(e: string, l: Link, left: Table, right: Table, s: View) {
    && Refers(l, left, right)
    && CellAt(e, l, left, right) in s
    && s[CellAt(e, l, left, right)] == l.payload
  }

  ghost predicate Stored(c: Cell, e: string, ls: seq<Link>, left: Table, right: Table) {
    exists i | 0 <= i < |ls| :: Refers(ls[i], left, right) && CellAt(e, ls[i], left, right) == c
  }

  /** `ls` stores each pair of `s` exactly once, between existing rows, and nothing else. */
  ghost predicate Mirrors(e: string, ls: seq<Link>, left: Table, right: Table, s: View) {
    && Distinct(ls)
    && (forall i | 0 <= i < |ls| :: Mirrored(e, ls[i], left, right, s))
    && (forall c <- s :: Stored(c, e, ls, left, right))
  }

  ghost function LinksIn(v: View, e: string): View {
    map c | c in v && c.LinkCell? && c.entity == e :: v[c]
  }

  ghost predicate OnlyLinks(s: View, e: string) {
    forall c <- s :: c.LinkCell? && c.entity == e
  }

  lemma {:induction false} LinksInCommit(v: View, e: string, p: View, refresh: bool)
    requires OnlyLinks(p, e)
    ensures LinksIn(Commit(LinkWrites(p, refresh), v), e) == Commit(LinkWrites(p, refresh), LinksIn(v, e))
  {
    var w := LinkWrites(p, refresh);
    assert LinksIn(Commit(w, v), e).Keys == Commit(w, LinksIn(v, e)).Keys;
  }

  lemma {:induction false} LinksInOther(v: View, e: string, w: Writes)
    requires forall c <- w :: !(c.LinkCell? && c.entity == e)
    ensures LinksIn(Commit(w, v), e) == LinksIn(v, e)
  {
    assert LinksIn(Commit(w, v), e).Keys == LinksIn(v, e).Keys;
  }

  /** Rows keep their id and key for good. */
  ghost predicate Grows(t: Table, t': Table) {
    forall id :: id in t ==> id in t' && t'[id].key == t[id].key
  }

  /** So a stored pair keeps its meaning. */
  lemma {:induction false} MirrorsAfterRows(e: string, ls: seq<Link>, left: Table, right: Table, left': Table,
                                            right': Table, s: View)
    requires Mirrors(e, ls, left, right, s) && Grows(left, left') && Grows(right, right')
    ensures Mirrors(e, ls, left', right', s)
  {
    forall i | 0 <= i < |ls| ensures Mirrored(e, ls[i], left', right', s) {
      assert Mirrored(e, ls[i], left, right, s);
      assert CellAt(e, ls[i], left', right') == CellAt(e, ls[i], left, right);
    }
    forall q <- s ensures Stored(q, e, ls, left', right') {
      var i :| 0 <= i < |ls| && Refers(ls[i], left, right) && CellAt(e, ls[i], left, right) == q;
      assert CellAt(e, ls[i], left', right') == q;
    }
  }

  // ---- resolving a page of links ----

  /** `m` maps exactly the source ids step `s` imports, each to the row of its natural key. */
  ghost predicate Resolves(m: Mappings, s: Step, t: Table)
    requires s.HasRows()
  {
    && (forall id, k :: Importable(s, id, k) ==> MapKey(s.name, id) in m)
    && (forall id :: MapKey(s.name, id) in m ==>
          m[MapKey(s.name, id)] in t && Importable(s, id, t[m[MapKey(s.name, id)]].key))
  }

  lemma {:induction false} LookupIsKeyOf(m: Mappings, s: Step, t: Table, id: Option<nat>)
    requires s.HasRows() && IdsConsistent(s) && Resolves(m, s, t)
    ensures Lookup(m, s.name, id).Some? <==> KeyOf(s, id).Some?
    ensures Lookup(m, s.name, id).Some? ==>
              Lookup(m, s.name, id).value in t && KeyOf(s, id) == Some(t[Lookup(m, s.name, id).value].key)
  {
    if Lookup(m, s.name, id).Some? {
      assert Importable(s, id.value, t[m[MapKey(s.name, id.value)]].key);
    }
  }

  lemma {:induction false} LinkCellsNext(e: string, left: Step, right: Step, links: seq<SourceLink>, i: nat)
    requires left.HasRows() && right.HasRows() && i < |links|
    ensures var d := LinkCells(e, left, right, links[..i]);
            var a, b := KeyOf(left, links[i].left), KeyOf(right, links[i].right);
            LinkCells(e, left, right, links[..i + 1]) ==
            if a.None? || b.None? || LinkCell(e, a.value, b.value) in d then d
            else d[LinkCell(e, a.value, b.value) := links[i].payload]
  {
    assert links[..i + 1][..i] == links[..i];
  }

  predicate ResolvesTo(m: Mappings, leftName: string, rightName: string, l: SourceLink, q: (nat, nat)) {
    Lookup(m, leftName, l.left) == Some(q.0) && Lookup(m, rightName, l.right) == Some(q.1)
  }

  /** Link `i` is the first one to resolve to these ids. */
  ghost predicate ResolvesFirst(m: Mappings, leftName: string, rightName: string, links: seq<SourceLink>, i: nat,
                                q: (nat, nat))
    requires i < |links|
  {
    && ResolvesTo(m, leftName, rightName, links[i], q)
    && forall j | 0 <= j < i :: !ResolvesTo(m, leftName, rightName, links[j], q)
  }

  /** `pairs` are the pairs of ids the first `n` links resolve to, each with the columns of its first link. */
  ghost predicate FirstPairs(m: Mappings, leftName: string, rightName: string, links: seq<SourceLink>, n: nat,
                             pairs: seq<Link>)
    requires n <= |links|
  {
    && (forall p <- pairs :: exists i ::
          0 <= i < n && ResolvesFirst(m, leftName, rightName, links, i, p.Ids()) && p.payload == links[i].payload)
    && (forall i, q | 0 <= i < n && ResolvesTo(m, leftName, rightName, links[i], q) :: Among(q, pairs))
  }

  /** A link that does not resolve, or resolves to ids that are listed, adds nothing. */
  lemma {:induction false} NoFurtherPair(m: Mappings, leftName: string, rightName: string, links: seq<SourceLink>,
                                         n: nat, pairs: seq<Link>)
    requires n < |links| && FirstPairs(m, leftName, rightName, links, n, pairs)
    requires forall q | ResolvesTo(m, leftName, rightName, links[n], q) :: Among(q, pairs)
    ensures FirstPairs(m, leftName, rightName, links, n + 1, pairs)
  {
  }

  lemma {:induction false} FurtherPair(m: Mappings, leftName: string, rightName: string, links: seq<SourceLink>,
                                       n: nat, pairs: seq<Link>, p: Link)
    requires n < |links| && FirstPairs(m, leftName, rightName, links, n, pairs) && !Among(p.Ids(), pairs)
    requires ResolvesTo(m, leftName, rightName, links[n], p.Ids()) && p.payload == links[n].payload
    ensures FirstPairs(m, leftName, rightName, links, n + 1, pairs + [p])
  {
    AmongAppend(pairs, p);
    assert ResolvesFirst(m, leftName, rightName, links, n, p.Ids());
  }

  /** A link resolves exactly if both its sides were imported, and then to the rows of their keys. */
  ghost predicate ResolvedTo(leftStep: Step, rightStep: Step, left: Table, right: Table, l: SourceLink,
                             q: Option<(nat, nat)>)
    requires leftStep.HasRows() && rightStep.HasRows()
  {
    var a, b := KeyOf(leftStep, l.left), KeyOf(rightStep, l.right);
    && (q.Some? <==> a.Some? && b.Some?)
    && (q.Some? ==> q.value.0 in left && q.value.1 in right
                    && a == Some(left[q.value.0].key) && b == Some(right[q.value.1].key))
  }

  method ResolvePair(l: SourceLink, mapper: IdMapper, leftName: string, rightName: string, ghost leftStep: Step,
                     ghost rightStep: Step, ghost left: Table, ghost right: Table)
    returns (q: Option<(nat, nat)>)
    requires leftStep.HasRows() && leftStep.name == leftName && IdsConsistent(leftStep)
    requires rightStep.HasRows() && rightStep.name == rightName && IdsConsistent(rightStep)
    requires Resolves(mapper.cache, leftStep, left) && Resolves(mapper.cache, rightStep, right)
    ensures forall p :: ResolvesTo(mapper.cache, leftName, rightName, l, p) <==> q == Some(p)
    ensures ResolvedTo(leftStep, rightStep, left, right, l, q)
  {
    LookupIsKeyOf(mapper.cache, leftStep, left, l.left);
    LookupIsKeyOf(mapper.cache, rightStep, right, l.right);
    var a := mapper.Resolve(leftName, l.left);
    if a.None? { return None; }
    var b := mapper.Resolve(rightName, l.right);
    if b.None? { return None; }
    q := Some((a.value, b.value));
  }

  method CollectPairs(ghost e: string, links: seq<SourceLink>, mapper: IdMapper, leftName: string, rightName: string,
                      ghost leftStep: Step, ghost rightStep: Step, ghost left: Table, ghost right: Table)
    returns (pairs: seq<Link>)
    requires leftStep.HasRows() && leftStep.name == leftName && IdsConsistent(leftStep)
    requires rightStep.HasRows() && rightStep.name == rightName && IdsConsistent(rightStep)
    requires Resolves(mapper.cache, leftStep, left) && Resolves(mapper.cache, rightStep, right)
    requires NoDuplicates(left) && NoDuplicates(right)
    ensures Mirrors(e, pairs, left, right, LinkCells(e, leftStep, rightStep, links))
    ensures FirstPairs(mapper.cache, leftName, rightName, links, |links|, pairs)
  {
    pairs := [];
    var seen: set<(nat, nat)> := {};
    ghost var s: View := map[];
    for i := 0 to |links|
      invariant s == LinkCells(e, leftStep, rightStep, links[..i])
      invariant Mirrors(e, pairs, left, right, s)
      invariant forall q :: q in seen <==> Among(q, pairs)
      invariant FirstPairs(mapper.cache, leftName, rightName, links, i, pairs)
    {
      LinkCellsNext(e, leftStep, rightStep, links, i);
      var q := ResolvePair(links[i], mapper, leftName, rightName, leftStep, rightStep, left, right);
      if q.None? {
        NoFurtherPair(mapper.cache, leftName, rightName, links, i, pairs);
        continue;
      }
      var link := Link(q.value.0, q.value.1, links[i].payload);
      if q.value in seen {
        AlreadyMirrored(e, pairs, left, right, s, link);
        NoFurtherPair(mapper.cache, leftName, rightName, links, i, pairs);
        continue;
      }
      AmongAppend(pairs, link);
      FurtherPair(mapper.cache, leftName, rightName, links, i, pairs, link);
      MirrorsAppend(e, pairs, left, right, s, link);
      seen := seen + {q.value};
      pairs, s := pairs + [link], s[CellAt(e, link, left, right) := link.payload];
    }
    assert links[..|links|] == links;
  }

  lemma {:induction false} AlreadyMirrored(e: string, ls: seq<Link>, left: Table, right: Table, s: View, l: Link)
    requires Mirrors(e, ls, left, right, s) && Among(l.Ids(), ls)
    ensures Refers(l, left, right) && CellAt(e, l, left, right) in s
  {
    var j :| 0 <= j < |ls| && ls[j].Ids() == l.Ids();
    assert Mirrored(e, ls[j], left, right, s);
  }

  ghost predicate Among(q: (nat, nat), ls: seq<Link>) {
    exists i | 0 <= i < |ls| :: ls[i].Ids() == q
  }

  lemma {:induction false} AmongAppend(ls: seq<Link>, l: Link)
    ensures forall q :: Among(q, ls + [l]) <==> Among(q, ls) || q == l.Ids()
  {
    var ls' := ls + [l];
    forall q ensures Among(q, ls') <==> Among(q, ls) || q == l.Ids() {
      if i :| 0 <= i < |ls| && ls[i].Ids() == q {
        assert ls'[i].Ids() == q;
      } else if q == l.Ids() {
        assert ls'[|ls|].Ids() == q;
      }
    }
  }

  lemma {:induction false} SameKeysSameIds(e: string, l: Link, l': Link, left: Table, right: Table)
    requires NoDuplicates(left) && NoDuplicates(right) && Refers(l, left, right) && Refers(l', left, right)
    ensures CellAt(e, l, left, right) == CellAt(e, l', left, right) <==> l.Ids() == l'.Ids()
  {
    if CellAt(e, l, left, right) == CellAt(e, l', left, right) {
      assert SameKey(left, l.left, l'.left) && SameKey(right, l.right, l'.right);
    }
  }

  /** Two different pairs of ids never stand for the same pair of natural keys. */
  lemma {:induction false} MirrorsAppend(e: string, ls: seq<Link>, left: Table, right: Table, s: View, l: Link)
    requires Mirrors(e, ls, left, right, s) && NoDuplicates(left) && NoDuplicates(right)
    requires Refers(l, left, right) && forall j | 0 <= j < |ls| :: ls[j].Ids() != l.Ids()
    ensures CellAt(e, l, left, right) !in s
    ensures Mirrors(e, ls + [l], left, right, s[CellAt(e, l, left, right) := l.payload])
  {
    var q, ls', s' := CellAt(e, l, left, right), ls + [l], s[CellAt(e, l, left, right) := l.payload];
    forall i | 0 <= i < |ls| && Refers(ls[i], left, right) ensures CellAt(e, ls[i], left, right) != q {
      SameKeysSameIds(e, ls[i], l, left, right);
    }
    assert !Stored(q, e, ls, left, right);
    forall i | 0 <= i < |ls'| ensures Mirrored(e, ls'[i], left, right, s') {
      if i < |ls| {
        assert ls'[i] == ls[i] && Mirrored(e, ls[i], left, right, s);
      }
    }
    forall r <- s' ensures Stored(r, e, ls', left, right) {
      if r == q {
        assert CellAt(e, ls'[|ls|], left, right) == r;
      } else {
        var i :| 0 <= i < |ls| && Refers(ls[i], left, right) && CellAt(e, ls[i], left, right) == r;
        assert ls'[i] == ls[i];
      }
    }
  }

  // ---- storing a page of links ----

  /** Row `l` after the updates of the first `n` pairs. */
  ghost function Overlaid(l: Link, pairs: seq<Link>, n: nat): Link
    requires n <= |pairs|
  {
    if n == 0 then l
    else
      var m, p := Overlaid(l, pairs, n - 1), pairs[n - 1];
      if SamePair(m, p) then m.(payload := m.payload + p.payload) else m
  }

  /** A page's pairs are distinct, so at most one of them touches a row. */
  lemma {:induction false} OverlaidOnce(l: Link, pairs: seq<Link>, n: nat)
    requires n <= |pairs| && Distinct(pairs)
    ensures SamePair(Overlaid(l, pairs, n), l)
    ensures (forall j | 0 <= j < n :: !SamePair(l, pairs[j])) ==> Overlaid(l, pairs, n) == l
    ensures forall j | 0 <= j < n && SamePair(l, pairs[j]) ::
              Overlaid(l, pairs, n).payload == l.payload + pairs[j].payload
  {
    if n > 0 {
      OverlaidOnce(l, pairs, n - 1);
      forall j | 0 <= j < n && SamePair(l, pairs[j])
        ensures Overlaid(l, pairs, n).payload == l.payload + pairs[j].payload
      {
        if j < n - 1 {
          assert !SamePair(pairs[j], pairs[n - 1]);
        } else {
          assert forall i | 0 <= i < n - 1 :: !SamePair(pairs[i], pairs[n - 1]);
        }
      }
    }
  }

  /** Stored rows are refreshed if asked and otherwise untouched; unknown pairs are appended once. */
  ghost predicate StoreEffect(ls: seq<Link>, ls': seq<Link>, pairs: seq<Link>, refresh: bool) {
    && |ls| <= |ls'|
    && Distinct(ls')
    && (forall i | 0 <= i < |ls| :: ls'[i] == if refresh then Overlaid(ls[i], pairs, |pairs|) else ls[i])
    && (forall i | |ls| <= i < |ls'| :: ls'[i] in pairs && !Among(ls'[i].Ids(), ls))
    && (forall j | 0 <= j < |pairs| :: Among(pairs[j].Ids(), ls'))
  }

  /** The pairs already stored for the left rows of this page. */
  method ExistingPairs(ls: seq<Link>, pairs: seq<Link>) returns (existing: set<(nat, nat)>)
    ensures forall j | 0 <= j < |pairs| :: pairs[j].Ids() in existing <==> Among(pairs[j].Ids(), ls)
  {
    var leftIds := set i | 0 <= i < |pairs| :: pairs[i].left;
    existing := {};
    for i := 0 to |ls|
      invariant forall q :: q in existing ==> Among(q, ls[..i])
      invariant forall k | 0 <= k < i && ls[k].left in leftIds :: ls[k].Ids() in existing
    {
      assert forall q :: Among(q, ls[..i]) ==> Among(q, ls[..i + 1]) by {
        forall q | Among(q, ls[..i]) ensures Among(q, ls[..i + 1]) {
          var k :| 0 <= k < i && ls[..i][k].Ids() == q;
          assert ls[..i + 1][k].Ids() == q;
        }
      }
      assert ls[..i + 1][i] == ls[i];
      if ls[i].left in leftIds {
        existing := existing + {ls[i].Ids()};
      }
    }
    assert ls[..|ls|] == ls;
  }

  method InsertLinks(ls: seq<Link>, pairs: seq<Link>, existing: set<(nat, nat)>) returns (ls': seq<Link>)
    requires Distinct(ls) && Distinct(pairs)
    requires forall j | 0 <= j < |pairs| :: pairs[j].Ids() in existing <==> Among(pairs[j].Ids(), ls)
    ensures StoreEffect(ls, ls', pairs, false)
  {
    ls' := ls;
    for j := 0 to |pairs|
      invariant |ls| <= |ls'| && ls'[..|ls|] == ls
      invariant Distinct(ls')
      invariant forall i | |ls| <= i < |ls'| :: ls'[i] in pairs[..j] && !Among(ls'[i].Ids(), ls)
      invariant forall k | 0 <= k < j :: Among(pairs[k].Ids(), ls')
    {
      ghost var before := ls';
      assert pairs[..j + 1][..j] == pairs[..j] && pairs[..j + 1][j] == pairs[j];
      if pairs[j].Ids() !in existing {
        ls' := ls' + [pairs[j]];
        assert ls'[|before|].Ids() == pairs[j].Ids();
        assert ls'[..|ls|] == before[..|ls|];
        DistinctAppend(ls, before, pairs, j);
      } else {
        AmongLonger(pairs[j].Ids(), ls, ls');
      }
      forall k | 0 <= k < j + 1 ensures Among(pairs[k].Ids(), ls') {
        if k < j {
          AmongLonger(pairs[k].Ids(), before, ls');
        }
      }
    }
    assert pairs[..|pairs|] == pairs;
    assert forall i | 0 <= i < |ls| :: ls'[i] == ls'[..|ls|][i];
  }

  lemma {:induction false} AmongLonger(q: (nat, nat), ls: seq<Link>, ls': seq<Link>)
    requires Among(q, ls) && |ls| <= |ls'| && ls'[..|ls|] == ls
    ensures Among(q, ls')
  {
    var i :| 0 <= i < |ls| && ls[i].Ids() == q;
    assert ls'[i] == ls'[..|ls|][i];
  }

  /** Neither an old row nor one inserted for an earlier pair has the ids of pair `j`. */
  lemma {:induction false} DistinctAppend(ls: seq<Link>, before: seq<Link>, pairs: seq<Link>, j: nat)
    requires |ls| <= |before| && before[..|ls|] == ls && Distinct(before) && Distinct(pairs) && j < |pairs|
    requires !Among(pairs[j].Ids(), ls)
    requires forall i | |ls| <= i < |before| :: before[i] in pairs[..j]
    ensures Distinct(before + [pairs[j]])
  {
    var ls' := before + [pairs[j]];
    forall i | 0 <= i < |before| ensures !SamePair(before[i], pairs[j]) {
      if i < |ls| {
        assert before[i] == ls[i];
      } else {
        var k :| 0 <= k < j && pairs[..j][k] == before[i];
        assert !SamePair(pairs[k], pairs[j]);
      }
    }
    forall i, k | 0 <= i < k < |ls'| ensures !SamePair(ls'[i], ls'[k]) {
      if k < |before| {
        assert !SamePair(before[i], before[k]);
      }
    }
  }

  /** One UPDATE ... WHERE pair. */
  function UpdateWhere(ls: seq<Link>, p: Link): (r: seq<Link>)
    ensures |r| == |ls|
    ensures forall i | 0 <= i < |ls| ::
              r[i] == if ls[i].Ids() == p.Ids() then ls[i].(payload := ls[i].payload + p.payload) else ls[i]
  {
    seq(|ls|, i requires 0 <= i < |ls| =>
      if ls[i].Ids() == p.Ids() then ls[i].(payload := ls[i].payload + p.payload) else ls[i])
  }

  method RefreshLinks(ls: seq<Link>, ls1: seq<Link>, pairs: seq<Link>, existing: set<(nat, nat)>)
    returns (ls': seq<Link>)
    requires Distinct(pairs)
    requires forall j | 0 <= j < |pairs| :: pairs[j].Ids() in existing <==> Among(pairs[j].Ids(), ls)
    requires StoreEffect(ls, ls1, pairs, false)
    ensures StoreEffect(ls, ls', pairs, true)
  {
    ls' := ls1;
    for j := 0 to |pairs|
      invariant |ls'| == |ls1|
      invariant forall i | |ls| <= i < |ls1| :: ls'[i] == ls1[i]
      invariant forall i | 0 <= i < |ls| :: ls'[i] == Overlaid(ls[i], pairs, j)
    {
      if pairs[j].Ids() in existing {
        ls' := UpdateWhere(ls', pairs[j]);
      } else {
        forall i | 0 <= i < |ls| ensures !SamePair(Overlaid(ls[i], pairs, j), pairs[j]) {
          OverlaidOnce(ls[i], pairs, j);
          assert ls[i].Ids() != pairs[j].Ids();
        }
      }
    }
    forall i | 0 <= i < |ls1| ensures ls'[i].Ids() == ls1[i].Ids() {
      if i < |ls| {
        OverlaidOnce(ls[i], pairs, |pairs|);
      }
    }
    SamePairs(ls1, ls', pairs);
  }

  lemma {:induction false} SamePairs(ls1: seq<Link>, ls': seq<Link>, pairs: seq<Link>)
    requires |ls1| == |ls'| && forall i | 0 <= i < |ls1| :: ls'[i].Ids() == ls1[i].Ids()
    ensures Distinct(ls1) ==> Distinct(ls')
    ensures forall j | 0 <= j < |pairs| && Among(pairs[j].Ids(), ls1) :: Among(pairs[j].Ids(), ls')
  {
    if Distinct(ls1) {
      forall i, j | 0 <= i < j < |ls'| ensures !SamePair(ls'[i], ls'[j]) {
        assert !SamePair(ls1[i], ls1[j]);
      }
    }
    forall j | 0 <= j < |pairs| && Among(pairs[j].Ids(), ls1) ensures Among(pairs[j].Ids(), ls') {
      var i :| 0 <= i < |ls1| && ls1[i].Ids() == pairs[j].Ids();
      assert ls'[i].Ids() == pairs[j].Ids();
    }
  }

  /** Column by column: a stored row takes the page's values if the step refreshes and the page has its pair. */
  ghost predicate PayloadOf(l: Link, l': Link, pairs: seq<Link>, refresh: bool) {
    && l'.Ids() == l.Ids()
    && (!refresh || !Among(l.Ids(), pairs) ==> l'.payload == l.payload)
    && forall p <- pairs | refresh && p.Ids() == l.Ids() ::
         && l'.payload.Keys == l.payload.Keys + p.payload.Keys
         && forall c <- l'.payload :: l'.payload[c] == if c in p.payload then p.payload[c] else l.payload[c]
  }

  lemma {:induction false} StoredPayload(ls: seq<Link>, ls': seq<Link>, pairs: seq<Link>, refresh: bool, i: nat)
    requires Distinct(pairs) && StoreEffect(ls, ls', pairs, refresh) && i < |ls|
    ensures PayloadOf(ls[i], ls'[i], pairs, refresh)
  {
    OverlaidOnce(ls[i], pairs, |pairs|);
    forall p <- pairs | refresh && p.Ids() == ls[i].Ids() ensures ls'[i].payload == ls[i].payload + p.payload {
      var j :| 0 <= j < |pairs| && pairs[j] == p;
      assert SamePair(ls[i], pairs[j]);
    }
  }

  /** The transaction of one page of links. */
  method StorePage(ls: seq<Link>, pairs: seq<Link>, refresh: bool) returns (ls': seq<Link>)
    requires Distinct(ls) && Distinct(pairs)
    ensures StoreEffect(ls, ls', pairs, refresh)
    ensures forall i | 0 <= i < |ls| :: PayloadOf(ls[i], ls'[i], pairs, refresh)
  {
    var existing := ExistingPairs(ls, pairs);
    ls' := InsertLinks(ls, pairs, existing);
    if refresh {
      ls' := RefreshLinks(ls, ls', pairs, existing);
    }
    forall i | 0 <= i < |ls| ensures PayloadOf(ls[i], ls'[i], pairs, refresh) {
      StoredPayload(ls, ls', pairs, refresh, i);
    }
  }

  /** Up to ids, storing a page of pairs merges the pairs of natural keys it stands for. */
  lemma {:induction false} StoreMirrors(e: string, ls: seq<Link>, ls': seq<Link>, pairs: seq<Link>, refresh: bool,
                                        left: Table, right: Table, s: View, p: View)
    requires Mirrors(e, ls, left, right, s) && Mirrors(e, pairs, left, right, p)
    requires NoDuplicates(left) && NoDuplicates(right)
    requires StoreEffect(ls, ls', pairs, refresh)
    ensures Mirrors(e, ls', left, right, Commit(LinkWrites(p, refresh), s))
  {
    var m := Commit(LinkWrites(p, refresh), s);
    forall i | 0 <= i < |ls'| ensures Mirrored(e, ls'[i], left, right, m) {
      if i < |ls| {
        KeptLinkMirrored(e, ls, ls', pairs, refresh, left, right, s, p, i);
      } else {
        NewLinkMirrored(e, ls, ls'[i], pairs, refresh, left, right, s, p);
      }
    }
    forall q <- m ensures Stored(q, e, ls', left, right) {
      if q in s {
        var i :| 0 <= i < |ls| && Refers(ls[i], left, right) && CellAt(e, ls[i], left, right) == q;
        OverlaidOnce(ls[i], pairs, |pairs|);
        assert CellAt(e, ls'[i], left, right) == q;
      } else {
        var j :| 0 <= j < |pairs| && Refers(pairs[j], left, right) && CellAt(e, pairs[j], left, right) == q;
        assert Among(pairs[j].Ids(), ls');
        var i :| 0 <= i < |ls'| && ls'[i].Ids() == pairs[j].Ids();
        assert CellAt(e, ls'[i], left, right) == q;
      }
    }
  }

  /** What a merged page says about a cell that was there: unchanged, or overlaid if the page has it too. */
  lemma {:induction false} MergedAt(s: View, p: View, refresh: bool, q: Cell)
    requires q in s
    ensures var m := Commit(LinkWrites(p, refresh), s);
            q in m && m[q] == if q in p && refresh then s[q] + p[q] else s[q]
  {
    assert s[q] + map[] == s[q];
  }

  /** The pair of a page that stands for the cell of row `l`. */
  lemma {:induction false} PairFor(e: string, l: Link, pairs: seq<Link>, left: Table, right: Table, p: View)
    returns (j: nat)
    requires Mirrors(e, pairs, left, right, p) && NoDuplicates(left) && NoDuplicates(right)
    requires Refers(l, left, right) && CellAt(e, l, left, right) in p
    ensures j < |pairs| && SamePair(l, pairs[j]) && pairs[j].payload == p[CellAt(e, l, left, right)]
  {
    var q := CellAt(e, l, left, right);
    j :| 0 <= j < |pairs| && Refers(pairs[j], left, right) && CellAt(e, pairs[j], left, right) == q;
    SameKeysSameIds(e, l, pairs[j], left, right);
    assert Mirrored(e, pairs[j], left, right, p);
  }

  lemma {:induction false} NoPairFor(e: string, l: Link, pairs: seq<Link>, left: Table, right: Table, p: View)
    requires Mirrors(e, pairs, left, right, p) && Refers(l, left, right) && CellAt(e, l, left, right) !in p
    ensures forall j | 0 <= j < |pairs| :: !SamePair(l, pairs[j])
  {
    forall j | 0 <= j < |pairs| ensures !SamePair(l, pairs[j]) {
      assert Mirrored(e, pairs[j], left, right, p);
    }
  }

  lemma {:induction false} KeptLinkMirrored(e: string, ls: seq<Link>, ls': seq<Link>, pairs: seq<Link>, refresh: bool,
                                            left: Table, right: Table, s: View, p: View, i: nat)
    requires Mirrors(e, ls, left, right, s) && Mirrors(e, pairs, left, right, p)
    requires NoDuplicates(left) && NoDuplicates(right)
    requires StoreEffect(ls, ls', pairs, refresh) && i < |ls|
    ensures Mirrored(e, ls'[i], left, right, Commit(LinkWrites(p, refresh), s))
  {
    assert Mirrored(e, ls[i], left, right, s);
    OverlaidOnce(ls[i], pairs, |pairs|);
    var q := CellAt(e, ls[i], left, right);
    MergedAt(s, p, refresh, q);
    if q in p {
      var j := PairFor(e, ls[i], pairs, left, right, p);
      assert refresh ==> ls'[i].payload == ls[i].payload + pairs[j].payload;
    } else {
      NoPairFor(e, ls[i], pairs, left, right, p);
    }
  }

  lemma {:induction false} NewLinkMirrored(e: string, ls: seq<Link>, l: Link, pairs: seq<Link>, refresh: bool,
                                           left: Table, right: Table, s: View, p: View)
    requires Mirrors(e, ls, left, right, s) && Mirrors(e, pairs, left, right, p)
    requires NoDuplicates(left) && NoDuplicates(right)
    requires l in pairs && !Among(l.Ids(), ls)
    ensures Mirrored(e, l, left, right, Commit(LinkWrites(p, refresh), s))
  {
    var j :| 0 <= j < |pairs| && pairs[j] == l;
    assert Mirrored(e, pairs[j], left, right, p);
    var q := CellAt(e, l, left, right);
    if q in s {
      var i :| 0 <= i < |ls| && Refers(ls[i], left, right) && CellAt(e, ls[i], left, right) == q;
      SameKeysSameIds(e, ls[i], l, left, right);
    }
  }

  /** Two join tables that mirror the same view join the same natural keys with the same columns, whatever the ids. */
  lemma {:induction false} SameLinksUpToIds(e: string, ls: seq<Link>, left: Table, right: Table, ls': seq<Link>,
                                            left': Table, right': Table, s: View, i: nat)
    requires Mirrors(e, ls, left, right, s) && Mirrors(e, ls', left', right', s) && i < |ls|
    ensures Refers(ls[i], left, right)
    ensures exists j :: 0 <= j < |ls'| && Refers(ls'[j], left', right') && ls'[j].payload == ls[i].payload
                        && CellAt(e, ls'[j], left', right') == CellAt(e, ls[i], left, right)
  {
    assert Mirrored(e, ls[i], left, right, s);
    var q := CellAt(e, ls[i], left, right);
    assert Stored(q, e, ls', left', right');
    var j :| 0 <= j < |ls'| && Refers(ls'[j], left', right') && CellAt(e, ls'[j], left', right') == q;
    assert Mirrored(e, ls'[j], left', right', s);
  }
}
