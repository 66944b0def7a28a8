/** What a completed import leaves, row by row and column by column, said without the page writes. */
module ImportOutcome {
  import opened Wrappers
  import opened Upserts
  import opened ImportSource
  import opened ImportTarget

  // ---- one cell over a run ----

  /** From write `n` on nothing overwrites column `col` of the cell. */
  ghost predicate Unpatched(ops: seq<Writes>, n: nat, c: Cell, col: string) {
    forall i | n <= i < |ops| && c in ops[i] :: col !in ops[i][c].patch
  }

  lemma {:induction false} UnpatchedTail(ops: seq<Writes>, n: nat, c: Cell, col: string)
    requires ops != [] && Unpatched(ops, n, c, col)
    ensures Unpatched(ops[1..], if n > 0 then n - 1 else 0, c, col)
  {
    assert forall i | 0 <= i < |ops| - 1 :: ops[1..][i] == ops[i + 1];
  }

  ghost predicate Column(cols: Columns, col: string, value: Option<string>) {
    if col in cols then value == Some(cols[col]) else value == None
  }

  /** The value of column `col` is settled, and no page of `ops` overwrites it. */
  lemma {:induction false} ColumnStays(ops: seq<Writes>, v: View, c: Cell, col: string, value: Option<string>)
    requires c in v && Unpatched(ops, 0, c, col) && Column(v[c], col, value)
    ensures c in CommitAll(ops, v) && Column(CommitAll(ops, v)[c], col, value)
  {
    if ops != [] {
      assert c in ops[0] ==> col !in ops[0][c].patch;
      UnpatchedTail(ops, 0, c, col);
      ColumnStays(ops[1..], Commit(ops[0], v), c, col, value);
    }
  }

  lemma {:induction false} LastWriteWins(ops: seq<Writes>, n: nat, v: View, c: Cell, col: string)
    requires n < |ops| && AllConsistent(ops) && c in ops[n] && col in ops[n][c].patch && Unpatched(ops, n + 1, c, col)
    ensures c in CommitAll(ops, v) && Column(CommitAll(ops, v)[c], col, Some(ops[n][c].patch[col]))
  {
    UnpatchedTail(ops, n + 1, c, col);
    if n == 0 {
      assert Consistent(ops[0]);
      assert (ops[0][c].full + ops[0][c].patch)[col] == ops[0][c].patch[col];
      ColumnStays(ops[1..], Commit(ops[0], v), c, col, Some(ops[0][c].patch[col]));
    } else {
      assert forall i | 0 <= i < |ops| - 1 :: ops[1..][i] == ops[i + 1];
      LastWriteWins(ops[1..], n - 1, Commit(ops[0], v), c, col);
    }
  }

  /** The page that inserts the row settles a column no page gives later. */
  lemma {:induction false} FirstWriteStays(ops: seq<Writes>, n: nat, v: View, c: Cell, col: string,
                                           value: Option<string>)
    requires c !in v && n < |ops| && c in ops[n] && forall i | 0 <= i < n :: c !in ops[i]
    requires Unpatched(ops, n + 1, c, col) && Column(ops[n][c].full, col, value)
    ensures c in CommitAll(ops, v) && Column(CommitAll(ops, v)[c], col, value)
  {
    UnpatchedTail(ops, n + 1, c, col);
    if n == 0 {
      ColumnStays(ops[1..], Commit(ops[0], v), c, col, value);
    } else {
      assert forall i | 0 <= i < |ops| - 1 :: ops[1..][i] == ops[i + 1];
      FirstWriteStays(ops[1..], n - 1, Commit(ops[0], v), c, col, value);
    }
  }

  lemma {:induction false} OnceThere(ops: seq<Writes>, n: nat, v: View, c: Cell)
    requires n < |ops| && c in ops[n]
    ensures c in CommitAll(ops, v)
  {
    if n == 0 {
      CommitAllPresent(ops[1..], Commit(ops[0], v), c);
    } else {
      OnceThere(ops[1..], n - 1, Commit(ops[0], v), c);
    }
  }

  // ---- where a write of the run comes from ----

  /** Write number `m` of the run is page `i` of step `j`. */
  lemma {:induction false} WriteOf(plan: seq<seq<Writes>>, m: nat) returns (j: nat, i: nat)
    requires m < |Concat(plan)|
    ensures j < |plan| && i < |plan[j]| && m == |Concat(plan[..j])| + i && Concat(plan)[m] == plan[j][i]
  {
    var n := |plan| - 1;
    if m < |Concat(plan[..n])| {
      j, i := WriteOf(plan[..n], m);
      assert plan[..n][..j] == plan[..j];
    } else {
      j, i := n, m - |Concat(plan[..n])|;
    }
  }

  ghost function RunOf(job: Job): seq<Writes>
    requires job.Ok()
  {
    Concat(Plan(job.steps, job.selected))
  }

  ghost predicate Chosen(job: Job, name: string) {
    job.selected.None? || name in job.selected.value
  }

  /** Write `m` is page `i` of a chosen step. */
  lemma {:induction false} WriteIs(job: Job, m: nat) returns (j: nat, i: nat)
    requires job.Ok() && m < |RunOf(job)|
    ensures j < |job.steps| && Chosen(job, job.steps[j].name) && i < StepSize(job.steps[j])
    ensures m == Offset(job.steps, job.selected, j) + i
    ensures IsOp(job.steps, job.selected, j, i, RunOf(job)[m])
  {
    var plan := Plan(job.steps, job.selected);
    PlanIsPlan(job.steps, job.selected);
    j, i := WriteOf(plan, m);
    RunSize(job.steps, job.selected, plan, j);
    assert IsStep(job.steps, job.selected, j, plan[j]);
    assert IsOp(job.steps, job.selected, j, i, plan[j][i]);
  }

  lemma {:induction false} PageWrite(job: Job, k: nat, i: nat) returns (m: nat)
    requires job.Ok() && k < |job.steps| && Chosen(job, job.steps[k].name) && i < StepSize(job.steps[k])
    ensures m < |RunOf(job)| && m == Offset(job.steps, job.selected, k) + i
    ensures IsOp(job.steps, job.selected, k, i, RunOf(job)[m])
  {
    PlanIsPlan(job.steps, job.selected);
    m := PlanWrite(job.steps, job.selected, Plan(job.steps, job.selected), k, i);
  }

  lemma {:induction false} PlanWrite(steps: seq<Step>, selected: Option<set<string>>, plan: seq<seq<Writes>>, k: nat,
                                     i: nat) returns (m: nat)
    requires IsPlan(steps, selected, plan) && k < |steps| && Selected(selected, steps[k].name)
    requires i < StepSize(steps[k])
    ensures m < |Concat(plan)| && m == Offset(steps, selected, k) + i
    ensures IsOp(steps, selected, k, i, Concat(plan)[m])
  {
    PlanAt(steps, selected, plan, k, i);
    OpAt(steps, selected, plan, k, i);
    m := Offset(steps, selected, k) + i;
  }

  /** A page writes cells of its own step's tables only. */
  lemma {:induction false} OwnTable(job: Job, j: nat, i: nat, c: Cell, w: Writes)
    requires job.Ok() && j < |job.steps| && i < StepSize(job.steps[j])
    requires IsOp(job.steps, job.selected, j, i, w) && c in w
    ensures c.EntityCell? ==> job.steps[j].HasRows() && c.entity == job.steps[j].name && i < RowPart(job.steps[j])
    ensures c.LinkCell? ==> job.steps[j].HasLinks() && c.entity == job.steps[j].LinkTable()
  {
    var s := job.steps[j];
    if i >= RowPart(s) {
      ParentSteps(job.steps, job.selected, j);
      CellsOfTable(s.LinkTable(), StepNamed(job.steps, s.LeftName()), StepNamed(job.steps, s.RightName()),
                   s.linkPages[i - RowPart(s)].links);
    }
  }

  lemma {:induction false} CellsOfTable(e: string, left: Step, right: Step, links: seq<SourceLink>)
    requires left.HasRows() && right.HasRows()
    ensures forall c <- LinkCells(e, left, right, links) :: c.LinkCell? && c.entity == e
  {
    if links != [] {
      CellsOfTable(e, left, right, links[..|links| - 1]);
    }
  }

  // ---- steps that were not chosen ----

  /** `c` is a cell of a table that step `s` fills. */
  ghost predicate CellOf(s: Step, c: Cell) {
    if c.EntityCell? then c.entity == s.name else s.HasLinks() && c.entity == s.LinkTable()
  }

  lemma {:induction false} NoWriteUntouched(job: Job, k: nat, c: Cell)
    requires job.Ok() && k < |job.steps| && CellOf(job.steps[k], c)
    requires !Chosen(job, job.steps[k].name) || StepSize(job.steps[k]) == 0
    ensures SameAt(job.Expected(), job.start, c)
  {
    forall m | 0 <= m < |RunOf(job)| ensures c !in RunOf(job)[m] {
      if c in RunOf(job)[m] {
        var j, i := WriteIs(job, m);
        OwnTable(job, j, i, c, RunOf(job)[m]);
        TablesDiffer(job.steps, job.selected, j, k);
      }
    }
    CommitAllUntouched(RunOf(job), job.start, c);
  }

  /** A step that was not chosen leaves its tables as they were. */
  lemma {:induction false} NotChosenUntouched(job: Job, k: nat, c: Cell)
    requires job.Ok() && k < |job.steps| && !Chosen(job, job.steps[k].name) && CellOf(job.steps[k], c)
    ensures c in job.Expected() <==> c in job.start
    ensures c in job.start ==> job.Expected()[c] == job.start[c]
  {
    NoWriteUntouched(job, k, c);
  }

  /** So does the step of a source without messages: it links no campaigns either. */
  lemma {:induction false} NoMessagesUntouched(job: Job, k: nat, c: Cell)
    requires job.Ok() && k < |job.steps| && job.steps[k].Messages? && CellOf(job.steps[k], c)
    requires job.steps[k].pages == [] || job.steps[k].pages[0] == []
    ensures c in job.Expected() <==> c in job.start
    ensures c in job.start ==> job.Expected()[c] == job.start[c]
  {
    var s := job.steps[k];
    assert s.pages != [] ==> RowSizes(s.pages)[0] == |s.pages[0]|;
    assert RowPages(s) == 0;
    NoWriteUntouched(job, k, c);
  }

  // ---- rows of a chosen step ----

  /** Page `p` of step `s` has a row with this key that can be imported. */
  ghost predicate Carries(s: Step, p: nat, key: string)
    requires s.HasRows()
  {
    p < RowPages(s) && key in PageCandidates(s, p) && key !in s.hidden
  }

  ghost predicate Gives(s: Step, p: nat, key: string, col: string)
    requires s.HasRows()
  {
    Carries(s, p, key) && col in PageCandidates(s, p)[key].cols
  }

  ghost function RowUpsert(s: Step, p: nat, key: string): Upsert
    requires s.HasRows() && Carries(s, p, key)
  {
    var r := PageCandidates(s, p)[key];
    Upsert(Full(r, s.defaults), if s.Entity? then Patch(r) else map[])
  }

  lemma {:induction false} PageUpserts(job: Job, k: nat, s: Step, p: nat, key: string, w: Writes)
    requires job.Ok() && k < |job.steps| && s == job.steps[k] && s.HasRows() && p < RowPages(s)
    requires IsOp(job.steps, job.selected, k, p, w)
    ensures EntityCell(s.name, key) in w <==> Carries(s, p, key)
    ensures Carries(s, p, key) ==> w[EntityCell(s.name, key)] == RowUpsert(s, p, key)
  {
    assert w == RowOp(s, p);
  }

  /** What write `m` does to the row `key` of step `k`. */
  lemma {:induction false} RowWrite(job: Job, k: nat, s: Step, key: string, m: nat) returns (p: nat)
    requires job.Ok() && k < |job.steps| && s == job.steps[k] && s.HasRows() && m < |RunOf(job)|
    requires EntityCell(s.name, key) in RunOf(job)[m]
    ensures Carries(s, p, key) && m == Offset(job.steps, job.selected, k) + p
    ensures RunOf(job)[m][EntityCell(s.name, key)] == RowUpsert(s, p, key)
  {
    var j, i := WriteIs(job, m);
    OwnTable(job, j, i, EntityCell(s.name, key), RunOf(job)[m]);
    if j != k {
      TablesDiffer(job.steps, job.selected, j, k);
    }
    p := i;
    PageUpserts(job, k, s, p, key, RunOf(job)[m]);
  }

  lemma {:induction false} RowWriteOf(job: Job, k: nat, s: Step, key: string, p: nat) returns (m: nat)
    requires job.Ok() && k < |job.steps| && s == job.steps[k] && s.HasRows() && Chosen(job, s.name)
    requires Carries(s, p, key)
    ensures m < |RunOf(job)| && m == Offset(job.steps, job.selected, k) + p
    ensures EntityCell(s.name, key) in RunOf(job)[m] && RunOf(job)[m][EntityCell(s.name, key)] == RowUpsert(s, p, key)
  {
    m := PageWrite(job, k, p);
    PageUpserts(job, k, s, p, key, RunOf(job)[m]);
  }

  /** No refresh from page `p` touches this column of the row: messages are not refreshed, times never are. */
  ghost predicate Spared(s: Step, p: nat, key: string, col: string)
    requires s.HasRows()
  {
    s.Messages? || col == "createdAt" || col == "updatedAt" || !Gives(s, p, key, col)
  }

  lemma {:induction false} SparedUnpatched(job: Job, k: nat, s: Step, key: string, col: string, n: nat)
    requires job.Ok() && k < |job.steps| && s == job.steps[k] && s.HasRows()
    requires forall p: nat | Offset(job.steps, job.selected, k) + p >= n :: Spared(s, p, key, col)
    ensures Unpatched(RunOf(job), n, EntityCell(s.name, key), col)
  {
    var ops: seq<Writes>, c: Cell := RunOf(job), EntityCell(s.name, key);
    forall i | n <= i < |ops| && c in ops[i] ensures col !in ops[i][c].patch {
      var q := RowWrite(job, k, s, key, i);
      SparedColumn(s, q, key, col);
    }
  }

  lemma {:induction false} ConsistentRun(job: Job)
    requires job.Ok()
    ensures AllConsistent(RunOf(job))
  {
    PlanIsPlan(job.steps, job.selected);
    RunConsistent(job.steps, job.selected, Plan(job.steps, job.selected));
  }

  lemma {:induction false} PatchColumn(s: Step, p: nat, key: string, col: string)
    requires s.Entity? && Gives(s, p, key, col) && col != "createdAt" && col != "updatedAt"
    ensures Column(RowUpsert(s, p, key).patch, col, Some(PageCandidates(s, p)[key].cols[col]))
  {
  }

  lemma {:induction false} FullColumn(s: Step, p: nat, key: string, col: string)
    requires s.HasRows() && Carries(s, p, key) && col != "updatedAt"
    ensures var page := PageCandidates(s, p)[key].cols;
            Column(RowUpsert(s, p, key).full, col, if col in page then Some(page[col])
                                                   else if col in s.defaults then Some(s.defaults[col]) else None)
  {
  }

  lemma {:induction false} SparedColumn(s: Step, p: nat, key: string, col: string)
    requires s.HasRows() && Carries(s, p, key) && Spared(s, p, key, col)
    ensures col !in RowUpsert(s, p, key).patch
  {
  }

  /** The last page that has a value for a column of an entity's row wins, whatever was there before. */
  lemma {:induction false} LastPageWins(job: Job, k: nat, s: Step, p: nat, key: string, col: string)
    requires job.Ok() && k < |job.steps| && s == job.steps[k] && s.Entity? && Chosen(job, s.name)
    requires Gives(s, p, key, col) && col != "createdAt" && col != "updatedAt"
    requires forall q | q > p :: !Gives(s, q, key, col)
    ensures var c := EntityCell(s.name, key);
            c in job.Expected() && Column(job.Expected()[c], col, Some(PageCandidates(s, p)[key].cols[col]))
  {
    var n := RowWriteOf(job, k, s, key, p);
    PatchColumn(s, p, key, col);
    SparedUnpatched(job, k, s, key, col, n + 1);
    ConsistentRun(job);
    LastWriteWins(RunOf(job), n, job.start, EntityCell(s.name, key), col);
  }

  /** A row that was there keeps a column no page has a value for, and its times; a message keeps them all. */
  lemma {:induction false} OldColumnStays(job: Job, k: nat, s: Step, key: string, col: string, value: Option<string>)
    requires job.Ok() && k < |job.steps| && s == job.steps[k] && s.HasRows()
    requires EntityCell(s.name, key) in job.start && Column(job.start[EntityCell(s.name, key)], col, value)
    requires forall p: nat :: Spared(s, p, key, col)
    ensures var c := EntityCell(s.name, key); c in job.Expected() && Column(job.Expected()[c], col, value)
  {
    SparedUnpatched(job, k, s, key, col, 0);
    ColumnStays(RunOf(job), job.start, EntityCell(s.name, key), col, value);
  }

  /** A new row takes what only its first page can set, its creation time or any column of a message, from there, and a
      column no page has a value for from the defaults. */
  lemma {:induction false} NewColumn(job: Job, k: nat, s: Step, p: nat, key: string, col: string)
    requires job.Ok() && k < |job.steps| && s == job.steps[k] && s.HasRows() && Chosen(job, s.name)
    requires EntityCell(s.name, key) !in job.start && col != "updatedAt"
    requires Carries(s, p, key) && forall q: nat | q < p :: !Carries(s, q, key)
    requires forall q | q > p :: Spared(s, q, key, col)
    ensures var c, page := EntityCell(s.name, key), PageCandidates(s, p)[key].cols;
            && c in job.Expected()
            && Column(job.Expected()[c], col, if col in page then Some(page[col])
                                              else if col in s.defaults then Some(s.defaults[col]) else None)
  {
    var page, c := PageCandidates(s, p)[key].cols, EntityCell(s.name, key);
    var n := RowWriteOf(job, k, s, key, p);
    FullColumn(s, p, key, col);
    SparedUnpatched(job, k, s, key, col, n + 1);
    FirstOfRow(job, k, s, p, key, n);
    FirstWriteStays(RunOf(job), n, job.start, c, col, if col in page then Some(page[col])
                                                      else if col in s.defaults then Some(s.defaults[col]) else None);
  }

  lemma {:induction false} FirstOfRow(job: Job, k: nat, s: Step, p: nat, key: string, n: nat)
    requires job.Ok() && k < |job.steps| && s == job.steps[k] && s.HasRows() && n <= |RunOf(job)|
    requires n == Offset(job.steps, job.selected, k) + p && forall q: nat | q < p :: !Carries(s, q, key)
    ensures forall i | 0 <= i < n :: EntityCell(s.name, key) !in RunOf(job)[i]
  {
    forall i | 0 <= i < n ensures EntityCell(s.name, key) !in RunOf(job)[i] {
      if EntityCell(s.name, key) in RunOf(job)[i] {
        var q := RowWrite(job, k, s, key, i);
      }
    }
  }

  // ---- links of a chosen step ----

  lemma {:induction false} LinkOnPage(e: string, left: Step, right: Step, links: seq<SourceLink>, i: nat, a: string,
                                      b: string)
    requires left.HasRows() && right.HasRows() && i < |links|
    requires KeyOf(left, links[i].left) == Some(a) && KeyOf(right, links[i].right) == Some(b)
    ensures LinkCell(e, a, b) in LinkCells(e, left, right, links)
  {
    if i < |links| - 1 {
      LinkOnPage(e, left, right, links[..|links| - 1], i, a, b);
    }
  }

  /** A link on a page, both sides of which are imported, joins their rows; messages have links only if there are
      messages. */
  lemma {:induction false} LinkJoined(job: Job, k: nat, q: nat, i: nat, left: Step, right: Step, a: string, b: string)
    requires job.Ok() && k < |job.steps| && job.steps[k].HasLinks() && Chosen(job, job.steps[k].name)
    requires q < LinkPageCount(job.steps[k]) && i < |job.steps[k].linkPages[q].links|
    requires job.steps[k].Messages? ==> RowPages(job.steps[k]) > 0
    requires left in job.steps && left.HasRows() && left.name == job.steps[k].LeftName()
    requires right in job.steps && right.HasRows() && right.name == job.steps[k].RightName()
    requires var l := job.steps[k].linkPages[q].links[i];
             KeyOf(left, l.left) == Some(a) && KeyOf(right, l.right) == Some(b)
    ensures LinkCell(job.steps[k].LinkTable(), a, b) in job.Expected()
  {
    var s := job.steps[k];
    ParentSteps(job.steps, job.selected, k);
    OneNamed(job, left, StepNamed(job.steps, s.LeftName()));
    OneNamed(job, right, StepNamed(job.steps, s.RightName()));
    LinkOnPage(s.LinkTable(), left, right, s.linkPages[q].links, i, a, b);
    var m := PageWrite(job, k, RowPart(s) + q);
    OnceThere(RunOf(job), m, job.start, LinkCell(s.LinkTable(), a, b));
  }

  lemma {:induction false} OneNamed(job: Job, s: Step, s': Step)
    requires job.Ok() && s in job.steps && s' in job.steps && s.name == s'.name
    ensures s == s'
  {
    var i :| 0 <= i < |job.steps| && job.steps[i] == s;
    var j :| 0 <= j < |job.steps| && job.steps[j] == s';
    if i != j {
      TablesDiffer(job.steps, job.selected, i, j);
    }
  }
}
