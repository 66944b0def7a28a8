/** The Enterprise source as the importers read it: pages of rows and of links, and the pipeline's steps. */
module ImportSource {
  import opened Wrappers
  import opened Upserts

  /** A row after column mapping: its source id (if it has one), its natural key and its columns. */
  datatype SourceRow = SourceRow(id: Option<nat>, key: string, cols: Columns)

  /** A relation between two source ids, with the columns of the join row. */
  datatype SourceLink = SourceLink(left: Option<nat>, right: Option<nat>, payload: Columns)

  /** A page of `size` results, which together embed `links`. */
  datatype LinkPage = LinkPage(size: nat, links: seq<SourceLink>)

  /** A pipeline step. `hidden` are the natural keys held by soft-deleted rows: a lookup does not see such a
      row, and the table's unique constraint makes an insert of its key a no-op. */
  datatype Step =
    | Entity(name: string, pages: seq<seq<SourceRow>>, batch: nat, defaults: Columns, hidden: set<string>)
    | Links(name: string, left: string, right: string, linkPages: seq<LinkPage>, batch: nat, refresh: bool)
    | Messages(name: string, pages: seq<seq<SourceRow>>, batch: nat, defaults: Columns, hidden: set<string>,
               parent: string, linkName: string, linkPages: seq<LinkPage>)
  {
    predicate HasRows() {
      Entity? || Messages?
    }

    predicate HasLinks() {
      Links? || Messages?
    }

    function LinkTable(): string
      requires HasLinks()
    {
      if Links? then name else linkName
    }

    function LeftName(): string
      requires HasLinks()
    {
      if Links? then left else parent
    }

    function RightName(): string
      requires HasLinks()
    {
      if Links? then right else name
    }
  }

  // ---- which pages a step reads ----

  function RowSizes(pages: seq<seq<SourceRow>>): seq<nat> {
    seq(|pages|, i requires 0 <= i < |pages| => |pages[i]|)
  }

  function LinkSizes(pages: seq<LinkPage>): seq<nat> {
    seq(|pages|, i requires 0 <= i < |pages| => pages[i].size)
  }

  /** An importer stops before the first empty page and after the first page shorter than its batch size. */
  function PagesRead(sizes: seq<nat>, batch: nat): (n: nat)
    ensures n <= |sizes|
    ensures forall i | 0 <= i < n :: sizes[i] > 0
    ensures forall i | 0 <= i < n - 1 :: sizes[i] >= batch
    ensures n < |sizes| ==> sizes[n] == 0 || (n > 0 && sizes[n - 1] < batch)
  {
    if sizes == [] || sizes[0] == 0 then 0
    else if sizes[0] < batch then 1
    else 1 + PagesRead(sizes[1..], batch)
  }

  function RowPages(s: Step): nat
    requires s.HasRows()
  {
    PagesRead(RowSizes(s.pages), s.batch)
  }

  /** The source has no rows on page `p`. */
  predicate RowsEnd(s: Step, p: nat)
    requires s.HasRows()
  {
    p < |s.pages| ==> s.pages[p] == []
  }

  lemma {:induction false} FirstRowPage(s: Step)
    requires s.HasRows() && RowPages(s) == 0
    ensures RowsEnd(s, 0)
  {
    if s.pages != [] {
      assert RowSizes(s.pages)[0] == |s.pages[0]|;
    }
  }

  /** What the loop finds on a page it reads: rows, and a short page exactly when it is to stop. */
  lemma {:induction false} RowPageRead(s: Step, p: nat)
    requires s.HasRows() && p < RowPages(s)
    ensures p < |s.pages| && s.pages[p] != []
    ensures |s.pages[p]| < s.batch ==> p + 1 == RowPages(s)
    ensures |s.pages[p]| >= s.batch && p + 1 == RowPages(s) ==> RowsEnd(s, p + 1)
  {
    var sizes := RowSizes(s.pages);
    assert sizes[p] == |s.pages[p]|;
    if p + 1 < |s.pages| {
      assert sizes[p + 1] == |s.pages[p + 1]|;
    }
  }

  const CAMPAIGN_PAGE: nat := 500

  function LinkBatch(s: Step): nat
    requires s.HasLinks()
  {
    if s.Links? then s.batch else CAMPAIGN_PAGE
  }

  function LinkPageCount(s: Step): nat
    requires s.HasLinks()
  {
    PagesRead(LinkSizes(s.linkPages), LinkBatch(s))
  }

  predicate LinksEnd(s: Step, q: nat)
    requires s.HasLinks()
  {
    q < |s.linkPages| ==> s.linkPages[q].size == 0
  }

  lemma {:induction false} FirstLinkPage(s: Step)
    requires s.HasLinks() && LinkPageCount(s) == 0
    ensures LinksEnd(s, 0)
  {
    if s.linkPages != [] {
      assert LinkSizes(s.linkPages)[0] == s.linkPages[0].size;
    }
  }

  lemma {:induction false} LinkPageRead(s: Step, q: nat)
    requires s.HasLinks() && q < LinkPageCount(s)
    ensures q < |s.linkPages| && s.linkPages[q].size > 0
    ensures s.linkPages[q].size < LinkBatch(s) ==> q + 1 == LinkPageCount(s)
    ensures s.linkPages[q].size >= LinkBatch(s) && q + 1 == LinkPageCount(s) ==> LinksEnd(s, q + 1)
  {
    var sizes := LinkSizes(s.linkPages);
    assert sizes[q] == s.linkPages[q].size;
    if q + 1 < |s.linkPages| {
      assert sizes[q + 1] == s.linkPages[q + 1].size;
    }
  }

  /** Of the link pages that are read, those before the last one hold a batch, 500 campaigns for messages; the last one
      holds less, or nothing follows it. */
  lemma {:induction false} FullLinkPages(s: Step, q: nat)
    requires s.HasLinks() && q < LinkPageCount(s)
    ensures q + 1 < LinkPageCount(s) ==> s.linkPages[q].size >= if s.Messages? then 500 else s.batch
    ensures q + 1 == LinkPageCount(s) && q + 1 < |s.linkPages| && s.linkPages[q + 1].size > 0 ==>
              s.linkPages[q].size < if s.Messages? then 500 else s.batch
  {
    LinkPageRead(s, q);
    var sizes := LinkSizes(s.linkPages);
    assert sizes[q] == s.linkPages[q].size;
  }

  // ---- rows ----

  /** The first row of a page for each natural key. Entity importers drop rows with an empty key. */
  function Candidates(rows: seq<SourceRow>, keepEmpty: bool): (d: map<string, SourceRow>)
    ensures forall k <- d :: d[k].key == k
    ensures !keepEmpty ==> "" !in d
  {
    if rows == [] then map[]
    else
      var d, r := Candidates(rows[..|rows| - 1], keepEmpty), rows[|rows| - 1];
      if (r.key == "" && !keepEmpty) || r.key in d then d else d[r.key := r]
  }

  /** What an insert stores: declared defaults fill the columns the source left out. */
  function Full(r: SourceRow, defaults: Columns): Columns {
    (defaults + r.cols) - {"updatedAt"}
  }

  /** What a refresh overwrites: never the creation time; `updatedAt` is the database's own. */
  function Patch(r: SourceRow): Columns {
    r.cols - {"createdAt", "updatedAt"}
  }

  function RowWrites(name: string, d: map<string, SourceRow>, defaults: Columns, hidden: set<string>, refresh: bool)
    : (w: Writes)
    ensures forall c <- w :: c.EntityCell? && c.entity == name
  {
    map k | k in d && k !in hidden ::
      EntityCell(name, k) := Upsert(Full(d[k], defaults), if refresh then Patch(d[k]) else map[])
  }

  lemma {:induction false} RowWritesConsistent(name: string, d: map<string, SourceRow>, defaults: Columns,
                                               hidden: set<string>, refresh: bool)
    ensures Consistent(RowWrites(name, d, defaults, hidden, refresh))
  {
    assert forall k | k in d :: Full(d[k], defaults) + Patch(d[k]) == Full(d[k], defaults);
  }

  /** Page `p` of a step's rows. */
  function PageCandidates(s: Step, p: nat): map<string, SourceRow>
    requires s.HasRows() && p < |s.pages|
  {
    Candidates(s.pages[p], s.Messages?)
  }

  /** Source id `id` belongs to a row the step imports under natural key `key` in one of its first `n` pages. */
  ghost predicate ImportedBy(s: Step, n: nat, id: nat, key: string)
    requires s.HasRows() && n <= RowPages(s)
  {
    exists p | 0 <= p < n :: OnPage(s, p, id, key)
  }

  ghost predicate OnPage(s: Step, p: nat, id: nat, key: string)
    requires s.HasRows() && p < |s.pages|
  {
    var d := PageCandidates(s, p);
    key in d && key !in s.hidden && d[key].id == Some(id)
  }

  ghost predicate Importable(s: Step, id: nat, key: string)
    requires s.HasRows()
  {
    ImportedBy(s, RowPages(s), id, key)
  }

  /** Source ids are primary keys: no id stands for two natural keys. */
  ghost predicate IdsConsistent(s: Step)
    requires s.HasRows()
  {
    forall id, k, k' :: Importable(s, id, k) && Importable(s, id, k') ==> k == k'
  }

  // ---- links ----

  ghost function KeyOf(s: Step, id: Option<nat>): (r: Option<string>)
    requires s.HasRows()
    ensures r.Some? ==> id.Some? && Importable(s, id.value, r.value)
    ensures r.None? && id.Some? ==> forall k :: !Importable(s, id.value, k)
  {
    if id.Some? && exists k :: Importable(s, id.value, k) then
      var k :| Importable(s, id.value, k);
      Some(k)
    else None
  }

  /** The cells of join table `e` a page of links stands for; links with an unimported side are dropped, and the
      first link of a pair wins. */
  ghost function LinkCells(e: string, left: Step, right: Step, links: seq<SourceLink>): View
    requires left.HasRows() && right.HasRows()
  {
    if links == [] then map[]
    else
      var d, l := LinkCells(e, left, right, links[..|links| - 1]), links[|links| - 1];
      match (KeyOf(left, l.left), KeyOf(right, l.right))
      case (Some(a), Some(b)) => if LinkCell(e, a, b) in d then d else d[LinkCell(e, a, b) := l.payload]
      case _ => d
  }

  ghost function LinkWrites(cells: View, refresh: bool): (w: Writes) {
    map c | c in cells :: Upsert(cells[c], if refresh then cells[c] else map[])
  }

  // ---- the pipeline as one sequence of page writes ----

  predicate Selected(selected: Option<set<string>>, name: string) {
    selected.None? || name in selected.value
  }

  /** An entity step before step `k` is called `name`. */
  ghost predicate EntityBefore(steps: seq<Step>, k: nat, name: string)
    requires k <= |steps|
  {
    exists i | 0 <= i < k :: steps[i].Entity? && steps[i].name == name
  }

  ghost predicate ParentsBefore(steps: seq<Step>, k: nat)
    requires k < |steps|
  {
    && (steps[k].HasLinks() ==> EntityBefore(steps, k, steps[k].LeftName()))
    && (steps[k].Links? ==> EntityBefore(steps, k, steps[k].RightName()))
  }

  ghost predicate ParentsSelected(s: Step, selected: Option<set<string>>) {
    s.HasLinks() && Selected(selected, s.name) ==>
      Selected(selected, s.LeftName()) && Selected(selected, s.RightName())
  }

  ghost predicate SameTable(steps: seq<Step>, i: nat, j: nat)
    requires i < |steps| && j < |steps|
  {
    || steps[i].name == steps[j].name
    || (steps[i].HasLinks() && steps[j].HasLinks() && steps[i].LinkTable() == steps[j].LinkTable())
  }

  /** Step and table names are unique, parents precede their children and are selected with them, and source
      ids are primary keys. */
  ghost predicate WellFormed(steps: seq<Step>, selected: Option<set<string>>) {
    && (forall i, j {:trigger SameTable(steps, i, j)} | 0 <= i < j < |steps| :: !SameTable(steps, i, j))
    && (forall k {:trigger ParentsBefore(steps, k)} | 0 <= k < |steps| :: ParentsBefore(steps, k))
    && (forall k {:trigger ParentsSelected(steps[k], selected)} | 0 <= k < |steps| ::
          ParentsSelected(steps[k], selected))
    && (forall k {:trigger IdsConsistent(steps[k])} | 0 <= k < |steps| && steps[k].HasRows() ::
          IdsConsistent(steps[k]))
  }

  lemma {:induction false} TablesDiffer(steps: seq<Step>, selected: Option<set<string>>, i: nat, j: nat)
    requires WellFormed(steps, selected) && i < |steps| && j < |steps| && i != j
    ensures steps[i].name != steps[j].name
    ensures steps[i].HasLinks() && steps[j].HasLinks() ==> steps[i].LinkTable() != steps[j].LinkTable()
  {
    assert !SameTable(steps, if i < j then i else j, if i < j then j else i);
  }

  /** The step that fills table `name`. */
  ghost function StepNamed(steps: seq<Step>, name: string): (s: Step)
    requires exists i | 0 <= i < |steps| :: steps[i].HasRows() && steps[i].name == name
    ensures s.HasRows() && s.name == name && s in steps
  {
    var i :| 0 <= i < |steps| && steps[i].HasRows() && steps[i].name == name;
    steps[i]
  }

  lemma {:induction false} ParentSteps(steps: seq<Step>, selected: Option<set<string>>, k: nat)
    requires WellFormed(steps, selected) && k < |steps| && steps[k].HasLinks()
    ensures exists i | 0 <= i < |steps| :: steps[i].HasRows() && steps[i].name == steps[k].LeftName()
    ensures exists i | 0 <= i < |steps| :: steps[i].HasRows() && steps[i].name == steps[k].RightName()
  {
    assert ParentsBefore(steps, k);
    if steps[k].Messages? {
      assert steps[k].HasRows() && steps[k].name == steps[k].RightName();
    }
  }

  /** What page `p` of a step's rows writes. */
  ghost function RowOp(s: Step, p: nat): Writes
    requires s.HasRows() && p < |s.pages|
  {
    RowWrites(s.name, PageCandidates(s, p), s.defaults, s.hidden, s.Entity?)
  }

  /** What page `q` of a step's links writes. */
  ghost function LinkOp(steps: seq<Step>, selected: Option<set<string>>, k: nat, q: nat): Writes
    requires WellFormed(steps, selected) && k < |steps| && steps[k].HasLinks() && q < |steps[k].linkPages|
  {
    LinkWrites(PageCells(steps, selected, k, q), steps[k].Links? && steps[k].refresh)
  }

  ghost function PageCells(steps: seq<Step>, selected: Option<set<string>>, k: nat, q: nat): View
    requires WellFormed(steps, selected) && k < |steps| && steps[k].HasLinks() && q < |steps[k].linkPages|
  {
    ParentSteps(steps, selected, k);
    LinkCells(steps[k].LinkTable(), StepNamed(steps, steps[k].LeftName()), StepNamed(steps, steps[k].RightName()),
              steps[k].linkPages[q].links)
  }

  /** The row pages of a step come first, then its link pages; without any message the messages step returns
      before it looks at campaigns. */
  function RowPart(s: Step): nat {
    if s.HasRows() then RowPages(s) else 0
  }

  function LinkPart(s: Step): nat {
    if s.Entity? || (s.Messages? && RowPages(s) == 0) then 0 else LinkPageCount(s)
  }

  function StepSize(s: Step): nat {
    RowPart(s) + LinkPart(s)
  }

  ghost function StepOp(steps: seq<Step>, selected: Option<set<string>>, k: nat, i: nat): Writes
    requires WellFormed(steps, selected) && k < |steps| && i < StepSize(steps[k])
  {
    if i < RowPart(steps[k]) then RowOp(steps[k], i) else LinkOp(steps, selected, k, i - RowPart(steps[k]))
  }

  lemma {:induction false} LinkPageWrites(steps: seq<Step>, selected: Option<set<string>>, k: nat, i: nat, q: nat)
    requires WellFormed(steps, selected) && k < |steps| && i < StepSize(steps[k]) && i == RowPart(steps[k]) + q
    ensures steps[k].HasLinks() && q < |steps[k].linkPages|
    ensures StepOp(steps, selected, k, i) == LinkOp(steps, selected, k, q)
  {
  }

  /** The page writes of one uninterrupted run, step by step; a step that is not selected writes nothing. */
  ghost predicate IsPlan(steps: seq<Step>, selected: Option<set<string>>, plan: seq<seq<Writes>>) {
    && WellFormed(steps, selected) && |plan| == |steps|
    && forall k {:trigger IsStep(steps, selected, k, plan[k])} | 0 <= k < |plan| :: IsStep(steps, selected, k, plan[k])
  }

  ghost predicate IsStep(steps: seq<Step>, selected: Option<set<string>>, k: nat, ops: seq<Writes>)
    requires WellFormed(steps, selected) && k < |steps|
  {
    && |ops| == (if Selected(selected, steps[k].name) then StepSize(steps[k]) else 0)
    && forall i {:trigger IsOp(steps, selected, k, i, ops[i])} | 0 <= i < |ops| :: IsOp(steps, selected, k, i, ops[i])
  }

  ghost predicate IsOp(steps: seq<Step>, selected: Option<set<string>>, k: nat, i: nat, w: Writes)
    requires WellFormed(steps, selected) && k < |steps| && i < StepSize(steps[k])
  {
    w == StepOp(steps, selected, k, i)
  }

  ghost function Plan(steps: seq<Step>, selected: Option<set<string>>): seq<seq<Writes>>
    requires WellFormed(steps, selected)
  {
    seq(|steps|, k requires 0 <= k < |steps| =>
      if Selected(selected, steps[k].name) then
        seq(StepSize(steps[k]), i requires 0 <= i < StepSize(steps[k]) => StepOp(steps, selected, k, i))
      else [])
  }

  lemma {:induction false} PlanIsPlan(steps: seq<Step>, selected: Option<set<string>>)
    requires WellFormed(steps, selected)
    ensures IsPlan(steps, selected, Plan(steps, selected))
  {
  }

  ghost function Concat(plan: seq<seq<Writes>>): seq<Writes> {
    if plan == [] then [] else Concat(plan[..|plan| - 1]) + plan[|plan| - 1]
  }

  /** How many pages the selected steps before step `k` write. */
  function Offset(steps: seq<Step>, selected: Option<set<string>>, k: nat): nat
    requires k <= |steps|
  {
    if k == 0 then 0
    else Offset(steps, selected, k - 1) + if Selected(selected, steps[k - 1].name) then StepSize(steps[k - 1]) else 0
  }

  lemma {:induction false} OffsetNext(steps: seq<Step>, selected: Option<set<string>>, k: nat, next: nat)
    requires k < |steps| && next == k + 1
    ensures Offset(steps, selected, k) <= Offset(steps, selected, next)
  {
  }

  lemma {:induction false} OffsetMonotone(steps: seq<Step>, selected: Option<set<string>>, k: nat, n: nat)
    requires k <= n <= |steps|
    ensures Offset(steps, selected, k) <= Offset(steps, selected, n)
  {
    for i := k to n
      invariant Offset(steps, selected, k) <= Offset(steps, selected, i)
    {
      OffsetNext(steps, selected, i, i + 1);
    }
  }

  lemma {:induction false} RunSize(steps: seq<Step>, selected: Option<set<string>>, plan: seq<seq<Writes>>, n: nat)
    requires IsPlan(steps, selected, plan) && n <= |steps|
    ensures |Concat(plan[..n])| == Offset(steps, selected, n)
  {
    if n > 0 {
      assert plan[..n][..n - 1] == plan[..n - 1];
      assert IsStep(steps, selected, n - 1, plan[n - 1]);
      RunSize(steps, selected, plan, n - 1);
    }
  }

  lemma {:induction false} ConcatAt(plan: seq<seq<Writes>>, k: nat, i: nat)
    requires k < |plan| && i < |plan[k]|
    ensures |Concat(plan[..k])| + i < |Concat(plan)|
    ensures Concat(plan)[|Concat(plan[..k])| + i] == plan[k][i]
  {
    var n := |plan| - 1;
    if k < n {
      ConcatAt(plan[..n], k, i);
      assert plan[..n][..k] == plan[..k];
    }
  }

  lemma {:induction false} PlanAt(steps: seq<Step>, selected: Option<set<string>>, plan: seq<seq<Writes>>, k: nat,
                                  i: nat)
    requires IsPlan(steps, selected, plan) && k < |steps| && Selected(selected, steps[k].name)
    requires i < StepSize(steps[k])
    ensures |plan[k]| == StepSize(steps[k]) && IsOp(steps, selected, k, i, plan[k][i])
  {
    assert IsStep(steps, selected, k, plan[k]);
    assert IsOp(steps, selected, k, i, plan[k][i]);
  }

  lemma {:induction false} SameOp(steps: seq<Step>, selected: Option<set<string>>, k: nat, i: nat, w: Writes,
                                  w': Writes)
    requires WellFormed(steps, selected) && k < |steps| && i < StepSize(steps[k])
    requires IsOp(steps, selected, k, i, w) && IsOp(steps, selected, k, i, w')
    ensures w == w'
  {
  }

  /** Page `i` of step `k` sits at its offset in the whole run. */
  lemma {:induction false} OpAt(steps: seq<Step>, selected: Option<set<string>>, plan: seq<seq<Writes>>, k: nat, i: nat)
    requires IsPlan(steps, selected, plan) && k < |steps| && i < |plan[k]|
    ensures Offset(steps, selected, k) + i < |Concat(plan)|
    ensures Concat(plan)[Offset(steps, selected, k) + i] == plan[k][i]
  {
    RunSize(steps, selected, plan, k);
    ConcatAt(plan, k, i);
  }

  lemma {:induction false} ConcatConsistent(plan: seq<seq<Writes>>)
    requires forall k | 0 <= k < |plan| :: AllConsistent(plan[k])
    ensures AllConsistent(Concat(plan))
  {
    if plan != [] {
      ConcatConsistent(plan[..|plan| - 1]);
    }
  }

  lemma {:induction false} RunConsistent(steps: seq<Step>, selected: Option<set<string>>, plan: seq<seq<Writes>>)
    requires IsPlan(steps, selected, plan)
    ensures AllConsistent(Concat(plan))
  {
    forall k | 0 <= k < |plan| ensures AllConsistent(plan[k]) {
      assert IsStep(steps, selected, k, plan[k]);
      StepConsistent(steps, selected, k, plan[k]);
    }
    ConcatConsistent(plan);
  }

  lemma {:induction false} StepConsistent(steps: seq<Step>, selected: Option<set<string>>, k: nat, ops: seq<Writes>)
    requires WellFormed(steps, selected) && k < |steps| && IsStep(steps, selected, k, ops)
    ensures AllConsistent(ops)
  {
    forall i | 0 <= i < |ops| ensures Consistent(ops[i]) {
      assert IsOp(steps, selected, k, i, ops[i]);
      StepOpConsistent(steps, selected, k, i);
    }
  }

  lemma {:induction false} StepOpConsistent(steps: seq<Step>, selected: Option<set<string>>, k: nat, i: nat)
    requires WellFormed(steps, selected) && k < |steps| && i < StepSize(steps[k])
    ensures Consistent(StepOp(steps, selected, k, i))
  {
    var s := steps[k];
    if i < RowPart(s) {
      RowWritesConsistent(s.name, PageCandidates(s, i), s.defaults, s.hidden, s.Entity?);
    } else {
      LinkWritesConsistent(PageCells(steps, selected, k, i - RowPart(s)), s.Links? && s.refresh);
    }
  }

  lemma {:induction false} LinkWritesConsistent(cells: View, refresh: bool)
    ensures Consistent(LinkWrites(cells, refresh))
  {
  }
}
