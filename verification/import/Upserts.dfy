/** The effect of an import on the target account, with database ids left out.

    Every row the importers write is addressed by its natural key (a `Cell`), and every committed page is a
    finite set of upserts: insert `full` if the cell is empty, otherwise overlay `patch` on what is there.
    A worker that dies resumes at an earlier page and commits pages again. This module proves that such
    repetitions, however many and however far back, leave no trace once the last page has been committed. */
module Upserts {

  type Columns = map<string, string>

  datatype Cell =
    | EntityCell(entity: string, key: string)
    | LinkCell(entity: string, left: string, right: string)

  datatype Upsert = Upsert(full: Columns, patch: Columns)

  type Writes = map<Cell, Upsert>

  type View = map<Cell, Columns>

  /** What is patched is also what is inserted. */
  ghost predicate Consistent(w: Writes) {
    forall c <- w :: w[c].full + w[c].patch == w[c].full
  }

  ghost predicate AllConsistent(ops: seq<Writes>) {
    forall i | 0 <= i < |ops| :: Consistent(ops[i])
  }

  function Commit(w: Writes, v: View): View {
    map c | c in v.Keys + w.Keys ::
      if c !in w then v[c] else if c in v then v[c] + w[c].patch else w[c].full
  }

  /** The uninterrupted run: every page once, in order. */
  function CommitAll(ops: seq<Writes>, v: View): View {
    if ops == [] then v else CommitAll(ops[1..], Commit(ops[0], v))
  }

  // ---- one cell at a time ----

  /** What the pages of `ops` overlay on cell `c`, the last page winning column by column. */
  ghost function Overlay(ops: seq<Writes>, c: Cell): Columns {
    if ops == [] then map[]
    else (if c in ops[0] then ops[0][c].patch else map[]) + Overlay(ops[1..], c)
  }

  lemma {:induction false} OverlayCovers(ops: seq<Writes>, p: nat, c: Cell)
    requires p < |ops| && c in ops[p]
    ensures ops[p][c].patch.Keys <= Overlay(ops, c).Keys
  {
    if p > 0 {
      OverlayCovers(ops[1..], p - 1, c);
    }
  }

  ghost predicate SameAt(v: View, w: View, c: Cell) {
    (c in v <==> c in w) && (c in v ==> v[c] == w[c])
  }

  lemma {:induction false} OverlayTwice(a: Columns, b: Columns, c: Columns)
    ensures (a + b) + c == a + (b + c) && a + map[] == a
  {
  }

  lemma {:induction false} CommitAllPresent(ops: seq<Writes>, v: View, c: Cell)
    requires c in v
    ensures c in CommitAll(ops, v) && CommitAll(ops, v)[c] == v[c] + Overlay(ops, c)
  {
    if ops != [] {
      CommitAllPresent(ops[1..], Commit(ops[0], v), c);
      OverlayTwice(v[c], if c in ops[0] then ops[0][c].patch else map[], Overlay(ops[1..], c));
    } else {
      OverlayTwice(v[c], map[], map[]);
    }
  }

  /** A cell that was empty holds what the first page to touch it inserted, overlaid by the pages after that one. */
  lemma {:induction false} CommitAllAbsent(ops: seq<Writes>, p: nat, v: View, c: Cell)
    requires c !in v && p < |ops| && c in ops[p] && forall i | 0 <= i < p :: c !in ops[i]
    ensures c in CommitAll(ops, v) && CommitAll(ops, v)[c] == ops[p][c].full + Overlay(ops[p + 1..], c)
  {
    var v1 := Commit(ops[0], v);
    if p == 0 {
      CommitAllPresent(ops[1..], v1, c);
    } else {
      CommitAllAbsent(ops[1..], p - 1, v1, c);
      assert ops[1..][p..] == ops[p + 1..];
    }
  }

  /** A cell no page touches stays as it was. */
  lemma {:induction false} CommitAllUntouched(ops: seq<Writes>, v: View, c: Cell)
    requires forall i | 0 <= i < |ops| :: c !in ops[i]
    ensures SameAt(CommitAll(ops, v), v, c)
  {
    if ops != [] {
      assert c !in ops[0];
      CommitAllUntouched(ops[1..], Commit(ops[0], v), c);
    }
  }

  /** The cells an uninterrupted run leaves depend, each, on that cell alone. */
  lemma {:induction false} CommitAllCellwise(ops: seq<Writes>, v: View, w: View, c: Cell)
    requires SameAt(v, w, c)
    ensures SameAt(CommitAll(ops, v), CommitAll(ops, w), c)
  {
    if ops != [] {
      CommitAllCellwise(ops[1..], Commit(ops[0], v), Commit(ops[0], w), c);
    }
  }

  lemma {:induction false} AbsorbCell(ops: seq<Writes>, p: nat, v: View, c: Cell)
    requires p < |ops|
    requires AllConsistent(ops)
    requires forall i | 0 <= i < p :: ops[i].Keys <= v.Keys
    ensures SameAt(CommitAll(ops, Commit(ops[p], v)), CommitAll(ops, v), c)
    decreases |ops|, p, 1
  {
    var v' := Commit(ops[p], v);
    if c !in ops[p] {
      CommitAllCellwise(ops, v', v, c);
    } else if c in v {
      AbsorbPresentCell(ops, p, v, c);
    } else if p == 0 {
      CommitAllCellwise(ops[1..], Commit(ops[0], v'), Commit(ops[0], v), c);
    } else {
      AbsorbEmptyCell(ops, p, v, c);
    }
  }

  lemma {:induction false} OverlayAbsorbs(row: Columns, patch: Columns, rest: Columns)
    requires patch.Keys <= rest.Keys
    ensures (row + patch) + rest == row + rest
  {
    var l, r := (row + patch) + rest, row + rest;
    assert l.Keys == r.Keys;
    forall k | k in l ensures l[k] == r[k] {
    }
  }

  lemma {:induction false} AbsorbPresentCell(ops: seq<Writes>, p: nat, v: View, c: Cell)
    requires p < |ops| && c in ops[p] && c in v
    ensures SameAt(CommitAll(ops, Commit(ops[p], v)), CommitAll(ops, v), c)
  {
    CommitAllPresent(ops, Commit(ops[p], v), c);
    CommitAllPresent(ops, v, c);
    OverlayCovers(ops, p, c);
    OverlayAbsorbs(v[c], ops[p][c].patch, Overlay(ops, c));
  }

  /** No page before `p` touches a cell that is still empty, so the first of them can be peeled off. */
  lemma {:induction false} AbsorbEmptyCell(ops: seq<Writes>, p: nat, v: View, c: Cell)
    requires 0 < p < |ops| && c in ops[p] && c !in v
    requires AllConsistent(ops)
    requires forall i | 0 <= i < p :: ops[i].Keys <= v.Keys
    ensures SameAt(CommitAll(ops, Commit(ops[p], v)), CommitAll(ops, v), c)
    decreases |ops|, p, 0
  {
    assert ops[0].Keys <= v.Keys;
    var rest, v1 := ops[1..], Commit(ops[0], v);
    assert rest[p - 1] == ops[p] && c !in v1;
    forall i | 0 <= i < |rest| ensures Consistent(rest[i]) && (i < p - 1 ==> rest[i].Keys <= v1.Keys) {
      assert rest[i] == ops[i + 1];
    }
    AbsorbCell(rest, p - 1, v1, c);
    CommitAllCellwise(rest, Commit(ops[0], Commit(ops[p], v)), Commit(rest[p - 1], v1), c);
  }

  /** Committing page `p` once more before a run over all of `ops` changes nothing, provided the pages before
      `p` have already been committed at least once. */
  lemma {:induction false} Absorb(ops: seq<Writes>, p: nat, v: View)
    requires p < |ops|
    requires AllConsistent(ops)
    requires forall i | 0 <= i < p :: ops[i].Keys <= v.Keys
    ensures CommitAll(ops, Commit(ops[p], v)) == CommitAll(ops, v)
  {
    var again, once := CommitAll(ops, Commit(ops[p], v)), CommitAll(ops, v);
    forall c ensures (c in again <==> c in once) && (c in again ==> again[c] == once[c]) {
      AbsorbCell(ops, p, v, c);
    }
    assert again.Keys == once.Keys;
  }

  // ---- positions in a run that may be rewound ----

  /** `v` is a state in which the pages before `p` have been committed, and from which going over the pages
      from any `r <= p` to the end leads where the uninterrupted run from `start` leads. */
  ghost predicate AtPosition(ops: seq<Writes>, start: View, v: View, p: nat) {
    && p <= |ops|
    && (forall i | 0 <= i < p :: ops[i].Keys <= v.Keys)
    && (forall r | 0 <= r <= p :: CommitAll(ops[r..], v) == CommitAll(ops, start))
  }

  lemma {:induction false} StartPosition(ops: seq<Writes>, start: View)
    ensures AtPosition(ops, start, start, 0)
  {
    assert ops[0..] == ops;
  }

  lemma {:induction false} AdvancePosition(ops: seq<Writes>, start: View, v: View, p: nat)
    requires AllConsistent(ops) && AtPosition(ops, start, v, p) && p < |ops|
    ensures AtPosition(ops, start, Commit(ops[p], v), p + 1)
  {
    var v' := Commit(ops[p], v);
    forall r | 0 <= r <= p + 1 ensures CommitAll(ops[r..], v') == CommitAll(ops, start) {
      if r <= p {
        var tail := ops[r..];
        assert tail[p - r] == ops[p];
        forall i | 0 <= i < p - r ensures tail[i].Keys <= v.Keys {
          assert tail[i] == ops[r + i];
        }
        forall i | 0 <= i < |tail| ensures Consistent(tail[i]) {
          assert tail[i] == ops[r + i];
        }
        Absorb(tail, p - r, v);
      } else {
        assert ops[p..][0] == ops[p] && ops[p..][1..] == ops[p + 1..];
        assert CommitAll(ops[p..], v) == CommitAll(ops[p + 1..], v');
      }
    }
  }

  lemma {:induction false} AdvanceBy(ops: seq<Writes>, start: View, v: View, p: nat, w: Writes)
    requires AllConsistent(ops) && AtPosition(ops, start, v, p) && p < |ops| && w == ops[p]
    ensures AtPosition(ops, start, Commit(w, v), p + 1)
  {
    AdvancePosition(ops, start, v, p);
  }

  lemma {:induction false} FinalPosition(ops: seq<Writes>, start: View, v: View)
    requires AtPosition(ops, start, v, |ops|)
    ensures v == CommitAll(ops, start)
  {
    assert ops[|ops|..] == [];
  }

  // ---- every possible history of crashes ----

  /** One move of a worker: commit the page it is at, or restart at a page no later than that one. */
  datatype Move = CommitPage | RestartAt(page: nat)

  ghost predicate Legal(ops: seq<Writes>, p: nat, moves: seq<Move>)
    decreases moves
  {
    moves == [] ||
    match moves[0]
    case CommitPage => p < |ops| && Legal(ops, p + 1, moves[1..])
    case RestartAt(r) => r <= p && Legal(ops, r, moves[1..])
  }

  ghost function Replay(ops: seq<Writes>, v: View, p: nat, moves: seq<Move>): (r: (View, nat))
    requires Legal(ops, p, moves)
    decreases moves
  {
    if moves == [] then (v, p)
    else match moves[0]
      case CommitPage => Replay(ops, Commit(ops[p], v), p + 1, moves[1..])
      case RestartAt(r) => Replay(ops, v, r, moves[1..])
  }

  lemma {:induction false} ReplayKeepsPosition(ops: seq<Writes>, start: View, v: View, p: nat, moves: seq<Move>)
    requires AllConsistent(ops) && AtPosition(ops, start, v, p) && Legal(ops, p, moves)
    ensures var (v', p') := Replay(ops, v, p, moves); AtPosition(ops, start, v', p')
    decreases moves
  {
    if moves != [] {
      match moves[0]
      case CommitPage =>
        AdvancePosition(ops, start, v, p);
        ReplayKeepsPosition(ops, start, Commit(ops[p], v), p + 1, moves[1..]);
      case RestartAt(r) =>
        ReplayKeepsPosition(ops, start, v, r, moves[1..]);
    }
  }

  /** Convergence: whatever the crashes and restarts, once the last page is behind the worker the target
      holds exactly what one uninterrupted run over the same source would have left. */
  lemma {:induction false} CrashResumeConverges(ops: seq<Writes>, start: View, moves: seq<Move>)
    requires AllConsistent(ops)
    requires Legal(ops, 0, moves)
    requires Replay(ops, start, 0, moves).1 == |ops|
    ensures Replay(ops, start, 0, moves).0 == CommitAll(ops, start)
  {
    StartPosition(ops, start);
    ReplayKeepsPosition(ops, start, start, 0, moves);
    FinalPosition(ops, start, Replay(ops, start, 0, moves).0);
  }
}
