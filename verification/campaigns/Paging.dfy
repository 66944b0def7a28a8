/** How a campaign's audience is cut into pages. */
module Paging {
  import opened Audience
  import opened Arithmetic

  datatype CampaignType = Simple | Recurring | Split | TestAb

  /** A page of the queue: its number and the range of order numbers it sends to. */
  datatype Page = Page(number: nat, from: int, to: int)

  datatype Outcome = Duplicated | NotFound | Queued(pages: seq<Page>)

  // ---- the page size ----

  function CeilDiv(a: nat, b: nat): nat
    requires b > 0
  {
    (a + b - 1) / b
  }

  lemma {:induction false} CeilDivBounds(a: nat, b: nat)
    requires b > 0
    ensures CeilDiv(a, b) * b >= a && (a > 0 ==> CeilDiv(a, b) > 0 && (CeilDiv(a, b) - 1) * b < a)
    ensures CeilDiv(a, b) == 0 <==> a == 0
  {
    var q := CeilDiv(a, b);
    DivMod(a + b - 1, b);
    Distribute(b, q, 1);
    if a == 0 {
      Quotient(b - 1, b, 0, b - 1);
    }
  }

  /** Spread over `spreadSending` minutes, an audience gets the smallest pages that send it all in that time, one a
      minute, if they are smaller than a batch; otherwise batches. */
  function GetLimit(contacts: nat, spreadSending: int, batch: nat): (limit: nat)
    requires batch > 0
    ensures 0 < limit <= batch
    ensures limit < batch ==>
              spreadSending > 0 && contacts > 0 && limit * spreadSending >= contacts > (limit - 1) * spreadSending
    ensures limit == batch ==> spreadSending <= 0 || contacts == 0 || contacts > (batch - 1) * spreadSending
  {
    var spread := if spreadSending > 0 then CeilDiv(contacts, spreadSending) else 0;
    SpreadIsSmallest(contacts, spreadSending, batch);
    if 0 < spread < batch then spread else batch
  }

  lemma {:induction false} SpreadIsSmallest(contacts: nat, spreadSending: int, batch: nat)
    requires batch > 0
    ensures spreadSending > 0 ==>
              var spread := CeilDiv(contacts, spreadSending);
              && (spread == 0 <==> contacts == 0)
              && (spread > 0 ==> spread * spreadSending >= contacts > (spread - 1) * spreadSending)
              && (spread >= batch ==> contacts > (batch - 1) * spreadSending || contacts == 0)
  {
    if spreadSending > 0 {
      CeilDivBounds(contacts, spreadSending);
      var spread := CeilDiv(contacts, spreadSending);
      if spread >= batch {
        NonNegative(spread - batch, spreadSending);
        Distribute(spreadSending, spread - 1, batch - 1);
      }
    }
  }

  // ---- the pages, given the boundaries ----

  /** Where the last page starts. */
  function Start(kind: CampaignType, lastId: nat, pages: nat): int {
    if pages == 1 then
      match kind
      case Split => lastId + 1
      case TestAb => lastId
      case _ => 0
    else if lastId > 0 then lastId + 1 else 0
  }

  /** Page by page from the last boundary down; each page starts where the next lower one ends. */
  function PagesOf(bs: seq<int>, start: int): (r: seq<Page>)
    ensures |r| == |bs|
    ensures forall k | 0 <= k < |r| ::
              r[k] == Page(k + 1, if k + 1 < |bs| then bs[k + 1] + 1 else start, bs[k])
  {
    seq(|bs|, k requires 0 <= k < |bs| => Page(k + 1, if k + 1 < |bs| then bs[k + 1] + 1 else start, bs[k]))
  }

  // ---- the service ----

  class Campaign {
    const kind: CampaignType
    var testabMode: bool
    /** Zero stands for null. */
    var testabLastId: nat
    var testabInitialPageId: nat

    constructor (kind: CampaignType, testabMode: bool, testabLastId: nat, testabInitialPageId: nat)
      ensures this.kind == kind && this.testabMode == testabMode
      ensures this.testabLastId == testabLastId && this.testabInitialPageId == testabInitialPageId
    {
      this.kind, this.testabMode := kind, testabMode;
      this.testabLastId, this.testabInitialPageId := testabLastId, testabInitialPageId;
    }

    /** `duplicate`: the campaign's key is still in Redis. */
    method CreateBatches(orders: seq<int>, limit: nat, duplicate: bool) returns (r: Outcome)
      requires limit > 0 && Ascending(orders)
      modifies this
      ensures duplicate ==> r == Duplicated
      ensures !duplicate ==>
                && testabLastId == (if kind in {Split, TestAb} then old(testabLastId) else 0)
                && testabInitialPageId == (if kind in {Split, TestAb} then old(testabInitialPageId) else 0)
                && var bs := CountByTags(orders, testabLastId, testabInitialPageId, limit);
                   r == if bs == [] then NotFound else Queued(PagesOf(bs, Start(kind, testabLastId, |bs|)))
    {
      if duplicate { return Duplicated; }
      var testMode := testabMode;
      if kind !in {Split, TestAb} {
        testabLastId, testabInitialPageId := 0, 0;
      }
      var total := CountByTags(orders, testabLastId, testabInitialPageId, limit);
      BoundariesCount(orders, testabLastId, testabInitialPageId, limit);
      if |total| < 1 { return NotFound; }
      var first := if |total| > 1 then total[1] + 1 else 0;
      if kind == Split {
        first := if first == 0 then testabLastId + 1 else first;
        testabMode := false;
      }
      if kind == TestAb && |total| == 1 {
        first := testabLastId;
      }
      var pages := [Page(1, first, total[0])];
      var rest: seq<Page> := [];
      if |total| > 1 {
        rest := QueueRest(total, testMode, testabLastId);
      }
      r := Queued(pages + rest);
      PagesAre(pages[0], rest, total, Start(kind, testabLastId, |total|));
    }
  }

  lemma {:induction false} PagesAre(first: Page, rest: seq<Page>, bs: seq<int>, start: int)
    requires bs != [] && |rest| == |bs| - 1
    requires first == Page(1, if |bs| > 1 then bs[1] + 1 else start, bs[0])
    requires forall k | 0 <= k < |rest| ::
               rest[k] == Page(k + 2, if k + 2 < |bs| then bs[k + 2] + 1 else start, bs[k + 1])
    ensures [first] + rest == PagesOf(bs, start)
  {
  }

  /** Where the page that ends with the boundary before number `next` starts. */
  function RestFrom(total: seq<int>, next: nat, lastId: nat): int {
    if next < |total| then total[next] + 1 else if lastId > 0 then lastId + 1 else 0
  }

  /** The pages behind the first one. In test mode the loop covers them all; otherwise the last one is queued after
      the loop. */
  method QueueRest(total: seq<int>, testMode: bool, lastId: nat) returns (pages: seq<Page>)
    requires |total| > 1 && forall k | 0 <= k < |total| :: total[k] >= 0
    ensures |pages| == |total| - 1
    ensures forall k | 0 <= k < |pages| ::
              pages[k] == Page(k + 2, RestFrom(total, k + 2, lastId), total[k + 1])
  {
    pages := [];
    var contacts := total[1..];
    var finalPageFinalId := contacts[|contacts| - 1];
    if !testMode {
      contacts := contacts[..|contacts| - 1];
    }
    var countPages := 1;
    for j := 0 to |contacts|
      invariant countPages == j + 1 && |pages| == j
      invariant forall k | 0 <= k < j ::
                  pages[k] == Page(k + 2, RestFrom(total, k + 2, lastId), total[k + 1])
    {
      var arrayPage := countPages;
      var current := if |contacts| > arrayPage then contacts[arrayPage] + 1 else 0;
      if testMode && current == 0 && lastId > 0 {
        current := lastId + 1;
      }
      if !testMode && current == 0 {
        current := finalPageFinalId + 1;
      }
      pages := pages + [Page(countPages + 1, current, contacts[j])];
      countPages := countPages + 1;
    }
    if !testMode {
      pages := pages + [Page(|total|, if lastId > 0 then lastId + 1 else 0, finalPageFinalId)];
    }
  }

  // ---- the pages partition the audience ----

  /** What a page sends to. */
  function Contents(orders: seq<int>, p: Page): seq<int> {
    Between(orders, p.from, p.to)
  }

  /** The contents of the pages from number `k + 1` on, last page first. */
  function Gathered(orders: seq<int>, pages: seq<Page>, k: nat): seq<int>
    requires k <= |pages|
    decreases |pages| - k
  {
    if k == |pages| then [] else Gathered(orders, pages, k + 1) + Contents(orders, pages[k])
  }

  /** Read from the last page to the first, the pages hold every selected contact exactly once and nobody else; no
      page holds more than `limit` contacts; pages are numbered from 1. */
  ghost predicate Partition(orders: seq<int>, pages: seq<Page>, selected: seq<int>, limit: nat) {
    && Gathered(orders, pages, 0) == selected
    && (forall k | 0 <= k < |pages| :: |Contents(orders, pages[k])| <= limit && pages[k].number == k + 1)
  }

  ghost predicate Descending(bs: seq<int>) {
    forall k | 0 <= k < |bs| - 1 :: bs[k] > bs[k + 1]
  }

  lemma {:induction false} GatheredFrom(orders: seq<int>, bs: seq<int>, start: int, k: nat)
    requires Ascending(orders) && Descending(bs) && k < |bs| && start <= bs[|bs| - 1] + 1
    ensures Gathered(orders, PagesOf(bs, start), k) == Between(orders, start, bs[k]) && start <= bs[k] + 1
    decreases |bs| - k
  {
    if k + 1 < |bs| {
      GatheredFrom(orders, bs, start, k + 1);
      BetweenSplit(orders, start, bs[k + 1], bs[k]);
    }
  }

  /** The boundaries of an audience, as rows of it. */
  lemma {:induction false} BoundaryRows(orders: seq<int>, lastId: nat, finalId: nat, limit: nat, sel: seq<int>)
    returns (rows: seq<nat>)
    requires limit > 0 && sel == Selected(orders, lastId, finalId) && sel != []
    ensures rows != [] && rows[0] == |sel| && Spaced(rows, limit)
    ensures var bs := CountByTags(orders, lastId, finalId, limit);
            |bs| == |rows| && forall k | 0 <= k < |bs| :: 1 <= rows[k] <= |sel| && bs[k] == sel[rows[k] - 1]
  {
    rows := PickedRows(|sel|, |sel|, limit);
    PickedSpaced(|sel|, limit);
    forall k | 0 <= k < |rows| ensures rows[k] <= |sel| {
      RowsBelow(rows, limit, k);
    }
  }

  lemma {:induction false} RowsBelow(rows: seq<nat>, limit: nat, k: nat)
    requires Spaced(rows, limit) && k < |rows|
    ensures rows[k] <= rows[0]
  {
    if k > 0 {
      RowsBelow(rows, limit, k - 1);
      assert 0 < Gap(rows, k - 1);
    }
  }

  /** Selected contacts are those between `lastId` and the first boundary. */
  lemma {:induction false} SelectedUpTo(orders: seq<int>, lastId: nat, finalId: nat)
    requires Ascending(orders) && Selected(orders, lastId, finalId) != []
    ensures var sel := Selected(orders, lastId, finalId);
            && Ascending(sel) && sel == Between(orders, lastId + 1, sel[|sel| - 1]) && lastId + 1 <= sel[0]
  {
    var top := if finalId == 0 then orders[|orders| - 1] else finalId;
    SelectedNonempty(orders, lastId, finalId);
    SelectedIsBetween(orders, lastId, finalId, top);
    var sel := Selected(orders, lastId, finalId);
    BetweenAscending(orders, lastId + 1, top);
    BetweenIn(orders, lastId + 1, top);
    forall i | 0 <= i < |orders|
      ensures lastId + 1 <= orders[i] <= top <==> lastId + 1 <= orders[i] <= sel[|sel| - 1]
    {
      if lastId + 1 <= orders[i] <= top {
        assert orders[i] in sel;
      }
      assert sel[|sel| - 1] in sel;
    }
    BetweenSame(orders, lastId + 1, top, lastId + 1, sel[|sel| - 1]);
    assert sel[0] in sel;
  }

  lemma {:induction false} SelectedNonempty(orders: seq<int>, lastId: nat, finalId: nat)
    requires Selected(orders, lastId, finalId) != []
    ensures orders != []
  {
  }

  /** A range that starts anywhere between 0 and `lastId + 1` without reaching a contact up to `lastId` starts at the
      audience. */
  lemma {:induction false} StartsAtAudience(orders: seq<int>, lastId: nat, start: int, to: int)
    requires Ascending(orders) && start <= lastId + 1
    requires forall i | 0 <= i < |orders| :: orders[i] < start || orders[i] > lastId
    ensures Between(orders, start, to) == Between(orders, lastId + 1, to)
  {
    BetweenSame(orders, start, to, lastId + 1, to);
  }

  lemma {:induction false} BoundariesDescend(sel: seq<int>, rows: seq<nat>, bs: seq<int>, limit: nat)
    requires Ascending(sel) && Spaced(rows, limit) && |bs| == |rows|
    requires forall k | 0 <= k < |bs| :: 1 <= rows[k] <= |sel| && bs[k] == sel[rows[k] - 1]
    ensures Descending(bs)
  {
    forall k | 0 <= k < |bs| - 1 ensures bs[k] > bs[k + 1] {
      assert 0 < Gap(rows, k);
    }
  }

  /** A page between two boundaries. */
  lemma {:induction false} InnerPage(orders: seq<int>, lastId: nat, top: int, sel: seq<int>, low: nat, high: nat)
    requires Ascending(sel) && sel == Between(orders, lastId + 1, top)
    requires 1 <= low <= high <= |sel|
    ensures Between(orders, sel[low - 1] + 1, sel[high - 1]) == sel[low..high]
  {
    var from, to := sel[low - 1] + 1, sel[high - 1];
    RangeWithin(orders, lastId, top, sel, low - 1, high - 1, from, to);
    BetweenRows(sel, low, high);
    Narrowed(orders, lastId + 1, top, sel, from, to);
  }

  lemma {:induction false} RangeWithin(orders: seq<int>, lastId: nat, top: int, sel: seq<int>, i: nat, j: nat,
                                       from: int, to: int)
    requires sel == Between(orders, lastId + 1, top) && i < |sel| && j < |sel| && from == sel[i] + 1 && to == sel[j]
    ensures lastId + 1 <= from && to <= top
  {
    InRange(orders, lastId + 1, top, sel, i);
    InRange(orders, lastId + 1, top, sel, j);
  }

  lemma {:induction false} Narrowed(orders: seq<int>, from: int, to: int, sel: seq<int>, a: int, b: int)
    requires sel == Between(orders, from, to) && from <= a && b <= to
    ensures Between(orders, a, b) == Between(sel, a, b)
  {
    BetweenTwice(orders, from, to, a, b);
  }

  lemma {:induction false} InRange(orders: seq<int>, from: int, to: int, sel: seq<int>, i: nat)
    requires sel == Between(orders, from, to) && i < |sel|
    ensures from <= sel[i] <= to
  {
    BetweenIn(orders, from, to);
    assert sel[i] in sel;
  }

  /** The page that starts at the audience. */
  lemma {:induction false} LastPage(orders: seq<int>, lastId: nat, top: int, sel: seq<int>, high: nat)
    requires Ascending(sel) && sel == Between(orders, lastId + 1, top)
    requires 1 <= high <= |sel| && lastId + 1 <= sel[0]
    ensures Between(orders, lastId + 1, sel[high - 1]) == sel[..high]
  {
    InRange(orders, lastId + 1, top, sel, high - 1);
    Narrowed(orders, lastId + 1, top, sel, lastId + 1, sel[high - 1]);
    BetweenFirstRows(sel, lastId + 1, high);
  }

  /** Pages that start at the audience partition it. */
  lemma {:induction false} CleanStartPartitions(orders: seq<int>, lastId: nat, finalId: nat, limit: nat, start: int)
    requires limit > 0 && Ascending(orders) && Selected(orders, lastId, finalId) != []
    requires start <= lastId + 1 && forall i | 0 <= i < |orders| :: orders[i] < start || orders[i] > lastId
    ensures var bs := CountByTags(orders, lastId, finalId, limit);
            bs != [] && Partition(orders, PagesOf(bs, start), Selected(orders, lastId, finalId), limit)
  {
    var sel, bs := Selected(orders, lastId, finalId), CountByTags(orders, lastId, finalId, limit);
    var rows := BoundaryRows(orders, lastId, finalId, limit, sel);
    var n, top := |bs|, sel[|sel| - 1];
    SelectedUpTo(orders, lastId, finalId);
    BoundariesDescend(sel, rows, bs, limit);
    var pages := PagesOf(bs, start);
    GatheredFrom(orders, bs, start, 0);
    StartsAtAudience(orders, lastId, start, top);
    forall k | 0 <= k < n ensures |Contents(orders, pages[k])| <= limit {
      PageSize(orders, lastId, limit, start, top, sel, rows, bs, k);
    }
  }

  lemma {:induction false} PageSize(orders: seq<int>, lastId: nat, limit: nat, start: int, top: int, sel: seq<int>,
                                    rows: seq<nat>, bs: seq<int>, k: nat)
    requires Ascending(orders) && Ascending(sel) && sel == Between(orders, lastId + 1, top) && sel != []
    requires lastId + 1 <= sel[0] && Spaced(rows, limit) && |bs| == |rows| && k < |bs|
    requires forall j | 0 <= j < |bs| :: 1 <= rows[j] <= |sel| && bs[j] == sel[rows[j] - 1]
    requires start <= lastId + 1 && forall i | 0 <= i < |orders| :: orders[i] < start || orders[i] > lastId
    ensures |Contents(orders, PagesOf(bs, start)[k])| <= limit
  {
    if k + 1 < |bs| {
      assert 0 < Gap(rows, k) <= limit;
      InnerPage(orders, lastId, top, sel, rows[k + 1], rows[k]);
    } else {
      StartsAtAudience(orders, lastId, start, bs[k]);
      LastPage(orders, lastId, top, sel, rows[k]);
    }
  }

  /** Simple and recurring campaigns have no test behind them. */
  ghost predicate Consistent(kind: CampaignType, lastId: nat, finalId: nat) {
    kind !in {Split, TestAb} ==> lastId == 0 && finalId == 0
  }

  /** The pages of a batch partition its audience, unless it is a test campaign whose audience fits one page: that
      page starts at the contact the arm below ends with, and sends to it again. */
  lemma {:induction false} PagesPartition(orders: seq<int>, kind: CampaignType, lastId: nat, finalId: nat, limit: nat)
    requires limit > 0 && Ascending(orders) && Selected(orders, lastId, finalId) != []
    requires Consistent(kind, lastId, finalId)
    ensures var bs := CountByTags(orders, lastId, finalId, limit);
            bs != [] &&
            (Partition(orders, PagesOf(bs, Start(kind, lastId, |bs|)), Selected(orders, lastId, finalId), limit)
             <==> !(kind == TestAb && |bs| == 1 && lastId in orders))
  {
    var bs := CountByTags(orders, lastId, finalId, limit);
    CleanStartPartitions(orders, lastId, finalId, limit, lastId + 1);
    var start := Start(kind, lastId, |bs|);
    if kind == TestAb && |bs| == 1 && lastId in orders {
      OnePageTest(orders, lastId, finalId, limit);
    } else {
      CleanStartPartitions(orders, lastId, finalId, limit, start);
    }
  }

  /** There are as few pages as the size allows, and all but the first, which holds the last contacts, are full. */
  lemma {:induction false} PagesFull(orders: seq<int>, kind: CampaignType, lastId: nat, finalId: nat, limit: nat)
    requires limit > 0 && Ascending(orders) && Selected(orders, lastId, finalId) != []
    requires Consistent(kind, lastId, finalId)
    ensures var bs, n := CountByTags(orders, lastId, finalId, limit), |Selected(orders, lastId, finalId)|;
            && |bs| * limit >= n > (|bs| - 1) * limit
            && forall k | 1 <= k < |bs| :: |Contents(orders, PagesOf(bs, Start(kind, lastId, |bs|))[k])| == limit
  {
    var sel, bs := Selected(orders, lastId, finalId), CountByTags(orders, lastId, finalId, limit);
    var start := Start(kind, lastId, |bs|);
    PageCount(|sel|, limit);
    forall k | 1 <= k < |bs| ensures |Contents(orders, PagesOf(bs, start)[k])| == limit {
      FullPage(orders, lastId, finalId, limit, start, sel, bs, k);
    }
  }

  lemma {:induction false} PageCount(n: nat, limit: nat)
    requires limit > 0 && n > 0
    ensures var pages := |PickedRows(n, n, limit)|; pages * limit >= n > (pages - 1) * limit
  {
    PickedExactly(n, limit);
    DivMod(n - 1, limit);
    Distribute(limit, (n - 1) / limit, 1);
  }

  lemma {:induction false} FullPage(orders: seq<int>, lastId: nat, finalId: nat, limit: nat, start: int, sel: seq<int>,
                                    bs: seq<int>, k: nat)
    requires limit > 0 && Ascending(orders) && sel == Selected(orders, lastId, finalId) && sel != []
    requires bs == CountByTags(orders, lastId, finalId, limit) && 1 <= k < |bs|
    requires start <= lastId + 1 && forall i | 0 <= i < |orders| :: orders[i] < start || orders[i] > lastId
    ensures |Contents(orders, PagesOf(bs, start)[k])| == limit
  {
    var high := PageRange(sel, bs, limit, start, k, |bs| - k);
    FullRange(orders, lastId, finalId, limit, sel, high, start, PagesOf(bs, start)[k]);
  }

  lemma {:induction false} PageRange(sel: seq<int>, bs: seq<int>, limit: nat, start: int, k: nat, m: nat)
    returns (high: nat)
    requires limit > 0 && sel != [] && bs == At(sel, PickedRows(|sel|, |sel|, limit)) && 1 <= k < |bs| && k + m == |bs|
    ensures limit <= high <= |sel|
    ensures var p := PagesOf(bs, start)[k];
            p.to == sel[high - 1] && p.from == if high == limit then start else sel[high - limit - 1] + 1
  {
    high := m * limit;
    BoundaryAt(sel, bs, limit, k, m);
    if m > 1 {
      BoundaryAt(sel, bs, limit, k + 1, m - 1);
      assert (m - 1) * limit == high - limit;
    }
  }

  lemma {:induction false} FullRange(orders: seq<int>, lastId: nat, finalId: nat, limit: nat, sel: seq<int>, high: nat,
                                     start: int, p: Page)
    requires limit > 0 && Ascending(orders) && sel == Selected(orders, lastId, finalId) && limit <= high <= |sel|
    requires p.to == sel[high - 1]
    requires if high == limit then p.from == start else p.from == sel[high - limit - 1] + 1
    requires start <= lastId + 1 && forall i | 0 <= i < |orders| :: orders[i] < start || orders[i] > lastId
    ensures |Contents(orders, p)| == limit
  {
    SelectedUpTo(orders, lastId, finalId);
    if high == limit {
      StartsAtAudience(orders, lastId, start, p.to);
      LastPage(orders, lastId, sel[|sel| - 1], sel, high);
    } else {
      InnerPage(orders, lastId, sel[|sel| - 1], sel, high - limit, high);
    }
  }

  /** Boundary `k` ends the `m`-th page from the start. */
  lemma {:induction false} BoundaryAt(sel: seq<int>, bs: seq<int>, limit: nat, k: nat, m: nat)
    requires limit > 0 && sel != [] && bs == At(sel, PickedRows(|sel|, |sel|, limit)) && 1 <= k < |bs| && k + m == |bs|
    ensures limit <= m * limit <= |sel| && bs[k] == sel[m * limit - 1]
  {
    var n := |sel|;
    PickedExactly(n, limit);
    AtLeastOne(limit, m);
    DivMod(n - 1, limit);
    NonNegative(limit, (n - 1) / limit - m);
    Distribute(limit, (n - 1) / limit, m);
  }

  /** The exception, exactly: the one contact more, in front of the audience. */
  lemma {:induction false} OnePageTest(orders: seq<int>, lastId: nat, finalId: nat, limit: nat)
    requires limit > 0 && Ascending(orders) && Selected(orders, lastId, finalId) != [] && lastId in orders
    requires |CountByTags(orders, lastId, finalId, limit)| == 1
    ensures var bs := CountByTags(orders, lastId, finalId, limit);
            Gathered(orders, PagesOf(bs, Start(TestAb, lastId, 1)), 0) == [lastId] + Selected(orders, lastId, finalId)
  {
    var sel, bs := Selected(orders, lastId, finalId), CountByTags(orders, lastId, finalId, limit);
    var rows := BoundaryRows(orders, lastId, finalId, limit, sel);
    SelectedUpTo(orders, lastId, finalId);
    var pages := PagesOf(bs, lastId);
    assert Gathered(orders, pages, 1) == [];
    BetweenSplit(orders, lastId, lastId, bs[0]);
    OnlyOne(orders, lastId);
  }

  lemma {:induction false} OnlyOne(orders: seq<int>, x: int)
    requires Ascending(orders) && x in orders
    ensures Between(orders, x, x) == [x]
  {
    var before, last := orders[..|orders| - 1], orders[|orders| - 1];
    if last == x {
      BetweenNone(before, x, x);
    } else {
      assert orders == before + [last];
      OnlyOne(before, x);
    }
  }
}
