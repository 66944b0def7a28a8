/** What the arms of a test send, as opposed to the audiences they are meant for. */
module QueuedArms {
  import opened Wrappers
  import opened Arithmetic
  import opened Audience
  import opened Paging
  import opened TestArms

  /** Whom queued pages send to, last page first. */
  function SentBy(orders: seq<int>, outcome: Outcome): seq<int> {
    match outcome
    case Queued(pages) => Gathered(orders, pages, 0)
    case _ => []
  }

  function Sent(orders: seq<int>, a: Arm): seq<int> {
    SentBy(orders, a.outcome)
  }

  /** Whom the arms from number `i` on send to, last arm first. */
  function AllSent(orders: seq<int>, arms: seq<Arm>, i: nat): seq<int>
    requires i <= |arms|
    decreases |arms| - i
  {
    if i == |arms| then [] else AllSent(orders, arms, i + 1) + Sent(orders, arms[i])
  }

  /** Arm `i` of a TESTAB campaign fits one page and is not the last one: its page starts at the contact the arm below
      ends with. */
  predicate Overlaps(kind: CampaignType, orders: seq<int>, bs: seq<int>, limit: nat, i: nat)
    requires i < |bs|
  {
    kind == TestAb && i + 1 < |bs| && |ArmAudience(orders, bs, i)| <= limit
  }

  // ---- boundaries of one page ----

  lemma {:induction false} OnePageRows(n: nat, limit: nat)
    requires limit > 0 && n > 0
    ensures |PickedRows(n, n, limit)| == 1 <==> n <= limit
  {
    MultiplesPicked(n - 1, n, limit);
    assert PickedRows(n, n, limit) == [n] + PickedRows(n - 1, n, limit);
  }

  // ---- the rows at which arms end ----

  /** For every number of messages and every percentage the boundaries are falling rows, the first of them the last row
      of the test. */
  lemma {:induction false} BoundariesFall(orders: seq<int>, messages: nat, percent: nat) returns (rows: seq<nat>)
    requires messages > 0 && orders != [] && StartedTestAB(orders, messages, percent).Some?
    ensures StartedTestAB(orders, messages, percent) == Some(At(orders, rows))
    ensures rows != [] && Falling(orders, rows) && rows[0] == TestRows(|orders|, |orders|, percent)
  {
    var c := TestRows(|orders|, |orders|, percent);
    TestIsPrefix(|orders|, |orders|, percent);
    rows := ArmRows(c, c, messages, Round(c, messages));
    ArmRowsAreEnds(orders, c, messages, Round(c, messages));
  }

  lemma {:induction false} ArmRowsAreEnds(orders: seq<int>, c: nat, k: nat, q: nat)
    requires 0 < c <= |orders| && k > 0 && q > 0
    ensures var rows := ArmRows(c, c, k, q); rows != [] && rows[0] == c && Falling(orders, rows)
  {
    var m := Less((c - 1) / q, k - 1);
    ArmRowsBelow(c - 1, c, k, q);
    assert ArmRows(c, c, k, q) == ArmEnds(c, m + 1, q);
    QuotientAtLeast(c - 1, q, m);
    ArmEndsFall(orders, c, m + 1, q);
  }

  lemma {:induction false} RowNumbers(orders: seq<int>, rows: seq<nat>, i: nat)
    requires Ascending(orders) && Falling(orders, rows) && i < |rows|
    ensures 1 <= rows[i] <= |orders| && At(orders, rows)[i] == orders[rows[i] - 1] >= 1
    ensures At(orders, rows)[i] in orders
  {
    assert RowAfter(rows, i) < rows[i] <= |orders|;
  }

  // ---- one arm ----

  /** What an arm sends: its audience, and in the one-page case the last contact of the arm below as well. */
  lemma {:induction false} SentIs(orders: seq<int>, rows: seq<nat>, kind: CampaignType, limit: nat, i: nat, a: Arm)
    requires kind in {Split, TestAb} && limit > 0 && Ascending(orders) && Falling(orders, rows) && i < |rows|
    requires IsArm(a, i, kind, orders, At(orders, rows), limit)
    ensures a.outcome.Queued?
    ensures var bs := At(orders, rows);
            && (Partition(orders, a.outcome.pages, ArmAudience(orders, bs, i), limit)
                <==> !Overlaps(kind, orders, bs, limit, i))
            && Sent(orders, a) ==
               (if Overlaps(kind, orders, bs, limit, i) then [bs[i + 1]] else []) + ArmAudience(orders, bs, i)
  {
    var bs := At(orders, rows);
    RowNumbers(orders, rows, i);
    AudienceOfRows(orders, rows, i);
    assert RowAfter(rows, i) < rows[i];
    var sel := ArmAudience(orders, bs, i);
    assert sel != [] && sel == Selected(orders, a.lastId, a.finalId) by {
      if i + 1 < |rows| { RowNumbers(orders, rows, i + 1); }
    }
    assert a.lastId in orders <==> i + 1 < |rows| by {
      if i + 1 < |rows| { RowNumbers(orders, rows, i + 1); }
    }
    ArmSends(orders, kind, a, limit, sel);
  }

  lemma {:induction false} ArmSends(orders: seq<int>, kind: CampaignType, a: Arm, limit: nat, sel: seq<int>)
    requires kind in {Split, TestAb} && limit > 0 && Ascending(orders)
    requires sel == Selected(orders, a.lastId, a.finalId) && sel != []
    requires var cut := CountByTags(orders, a.lastId, a.finalId, limit);
             a.outcome == if cut == [] then NotFound else Queued(PagesOf(cut, Start(kind, a.lastId, |cut|)))
    ensures a.outcome.Queued?
    ensures var over := kind == TestAb && |sel| <= limit && a.lastId in orders;
            && (Partition(orders, a.outcome.pages, sel, limit) <==> !over)
            && Sent(orders, a) == (if over then [a.lastId] else []) + sel
  {
    var cut := CountByTags(orders, a.lastId, a.finalId, limit);
    OnePageRows(|sel|, limit);
    assert |cut| == |PickedRows(|sel|, |sel|, limit)|;
    PagesPartition(orders, kind, a.lastId, a.finalId, limit);
    if kind == TestAb && |sel| <= limit && a.lastId in orders {
      OnePageTest(orders, a.lastId, a.finalId, limit);
    } else {
      assert [] + sel == sel;
    }
  }

  // ---- all arms ----

  ghost predicate AreArms(arms: seq<Arm>, kind: CampaignType, orders: seq<int>, bs: seq<int>, limit: nat)
    requires limit > 0
  {
    |arms| == |bs| && forall i | 0 <= i < |bs| :: IsArm(arms[i], i, kind, orders, bs, limit)
  }

  function OverlapsFrom(kind: CampaignType, orders: seq<int>, bs: seq<int>, limit: nat, i: nat): nat
    requires i <= |bs|
    decreases |bs| - i
  {
    if i == |bs| then 0
    else OverlapsFrom(kind, orders, bs, limit, i + 1) + if Overlaps(kind, orders, bs, limit, i) then 1 else 0
  }

  lemma {:induction false} NoOverlapsFrom(kind: CampaignType, orders: seq<int>, bs: seq<int>, limit: nat, i: nat)
    requires i <= |bs|
    ensures OverlapsFrom(kind, orders, bs, limit, i) == 0 <==>
              forall j | i <= j < |bs| :: !Overlaps(kind, orders, bs, limit, j)
    decreases |bs| - i
  {
    if i < |bs| {
      NoOverlapsFrom(kind, orders, bs, limit, i + 1);
    }
  }

  /** Every overlap makes one send too many; without overlaps the arms send to their audiences. */
  ghost predicate SentAgrees(orders: seq<int>, bs: seq<int>, kind: CampaignType, limit: nat, arms: seq<Arm>, i: nat)
    requires i <= |arms| == |bs|
  {
    && |AllSent(orders, arms, i)| == |ArmAudiences(orders, bs, i)| + OverlapsFrom(kind, orders, bs, limit, i)
    && (OverlapsFrom(kind, orders, bs, limit, i) == 0 ==>
          AllSent(orders, arms, i) == ArmAudiences(orders, bs, i))
  }

  lemma {:induction false} OneMoreSent(orders: seq<int>, bs: seq<int>, kind: CampaignType, limit: nat, arms: seq<Arm>,
                                       i: nat, next: nat)
    requires i < |arms| == |bs| && next == i + 1 && SentAgrees(orders, bs, kind, limit, arms, next)
    requires Sent(orders, arms[i]) ==
             (if Overlaps(kind, orders, bs, limit, i) then [bs[i + 1]] else []) + ArmAudience(orders, bs, i)
    ensures SentAgrees(orders, bs, kind, limit, arms, i)
  {
  }

  lemma {:induction false} NoneSent(orders: seq<int>, bs: seq<int>, kind: CampaignType, limit: nat, arms: seq<Arm>)
    requires |arms| == |bs|
    ensures SentAgrees(orders, bs, kind, limit, arms, |arms|)
  {
  }

  lemma {:induction false} SentOf(orders: seq<int>, rows: seq<nat>, bs: seq<int>, kind: CampaignType, limit: nat,
                                  i: nat, a: Arm)
    requires kind in {Split, TestAb} && limit > 0 && Ascending(orders) && Falling(orders, rows) && i < |rows|
    requires bs == At(orders, rows) && IsArm(a, i, kind, orders, bs, limit)
    ensures Sent(orders, a) ==
            (if Overlaps(kind, orders, bs, limit, i) then [bs[i + 1]] else []) + ArmAudience(orders, bs, i)
  {
    SentIs(orders, rows, kind, limit, i, a);
  }

  lemma {:induction false} SentByAll(orders: seq<int>, rows: seq<nat>, bs: seq<int>, kind: CampaignType, limit: nat,
                                     arms: seq<Arm>)
    requires kind in {Split, TestAb} && limit > 0 && Ascending(orders) && Falling(orders, rows)
    requires bs == At(orders, rows) && AreArms(arms, kind, orders, bs, limit)
    ensures SentAgrees(orders, bs, kind, limit, arms, 0)
  {
    NoneSent(orders, bs, kind, limit, arms);
    for i := |arms| downto 0
      invariant SentAgrees(orders, bs, kind, limit, arms, i)
    {
      SentOf(orders, rows, bs, kind, limit, i, arms[i]);
      OneMoreSent(orders, bs, kind, limit, arms, i, i + 1);
    }
  }

  /** Every arm but the last has more contacts than a page holds, or the campaign is SPLIT. */
  predicate ArmsApart(kind: CampaignType, orders: seq<int>, bs: seq<int>, limit: nat) {
    kind == Split || forall i | 0 <= i < |bs| - 1 :: |ArmAudience(orders, bs, i)| > limit
  }

  lemma {:induction false} ApartIff(kind: CampaignType, orders: seq<int>, bs: seq<int>, limit: nat)
    requires kind in {Split, TestAb}
    ensures OverlapsFrom(kind, orders, bs, limit, 0) == 0 <==> ArmsApart(kind, orders, bs, limit)
  {
    NoOverlapsFrom(kind, orders, bs, limit, 0);
    if kind == TestAb && forall j | 0 <= j < |bs| :: !Overlaps(kind, orders, bs, limit, j) {
      forall i | 0 <= i < |bs| - 1 ensures |ArmAudience(orders, bs, i)| > limit {
        assert !Overlaps(kind, orders, bs, limit, i);
      }
    }
  }

  /** The test sends to its `c` contacts, and `over` times once too often. */
  ghost predicate TestSends(orders: seq<int>, sent: seq<int>, c: nat, over: nat) {
    1 <= c <= |orders| && |sent| == c + over && (over == 0 ==> sent == orders[..c])
  }

  lemma {:induction false} TestOverlaps(orders: seq<int>, kind: CampaignType, messages: nat, percent: nat, limit: nat,
                                        arms: seq<Arm>, bs: seq<int>, c: nat)
    requires kind in {Split, TestAb} && messages > 0 && limit > 0 && Ascending(orders) && orders != []
    requires StartedTestAB(orders, messages, percent) == Some(bs) && c == TestRows(|orders|, |orders|, percent)
    requires AreArms(arms, kind, orders, bs, limit)
    ensures TestSends(orders, AllSent(orders, arms, 0), c, OverlapsFrom(kind, orders, bs, limit, 0))
    ensures bs != [] && bs[0] == orders[c - 1]
  {
    var rows := BoundariesFall(orders, messages, percent);
    FirstBoundary(orders, rows, bs, c);
    SentByAll(orders, rows, bs, kind, limit, arms);
    AgreedSends(orders, bs, kind, limit, arms, c);
  }

  lemma {:induction false} FirstBoundary(orders: seq<int>, rows: seq<nat>, bs: seq<int>, c: nat)
    requires Ascending(orders) && rows != [] && Falling(orders, rows) && bs == At(orders, rows) && rows[0] == c
    ensures 1 <= c <= |orders| && bs != [] && bs[0] == orders[c - 1]
    ensures ArmAudiences(orders, bs, 0) == orders[..c]
  {
    RowNumbers(orders, rows, 0);
    AudiencesFrom(orders, rows, 0);
  }

  lemma {:induction false} AgreedSends(orders: seq<int>, bs: seq<int>, kind: CampaignType, limit: nat, arms: seq<Arm>,
                                       c: nat)
    requires |arms| == |bs| && SentAgrees(orders, bs, kind, limit, arms, 0) && 1 <= c <= |orders|
    requires ArmAudiences(orders, bs, 0) == orders[..c]
    ensures TestSends(orders, AllSent(orders, arms, 0), c, OverlapsFrom(kind, orders, bs, limit, 0))
  {
  }

  /** The arms as queued split the test audience, each contact getting one message, exactly for SPLIT campaigns and for
      TESTAB campaigns all of whose arms but the last have more contacts than a page holds. */
  lemma {:induction false} ArmsAsQueued(orders: seq<int>, kind: CampaignType, messages: nat, percent: nat, limit: nat,
                                        arms: seq<Arm>)
    requires kind in {Split, TestAb} && messages > 0 && limit > 0 && Ascending(orders) && orders != []
    requires StartedTestAB(orders, messages, percent).Some?
    requires AreArms(arms, kind, orders, StartedTestAB(orders, messages, percent).value, limit)
    ensures var bs, c := StartedTestAB(orders, messages, percent).value, TestRows(|orders|, |orders|, percent);
            AllSent(orders, arms, 0) == orders[..c] <==> ArmsApart(kind, orders, bs, limit)
  {
    var bs, c := StartedTestAB(orders, messages, percent).value, TestRows(|orders|, |orders|, percent);
    TestOverlaps(orders, kind, messages, percent, limit, arms, bs, c);
    ApartIff(kind, orders, bs, limit);
    SliceSize(orders, 0, c);
  }

  /** Each arm's send list, overlap included, and whether its pages partition its audience. */
  lemma {:induction false} ArmAsQueued(orders: seq<int>, kind: CampaignType, messages: nat, percent: nat, limit: nat,
                                       arms: seq<Arm>, i: nat)
    requires kind in {Split, TestAb} && messages > 0 && limit > 0 && Ascending(orders) && orders != []
    requires StartedTestAB(orders, messages, percent).Some?
    requires AreArms(arms, kind, orders, StartedTestAB(orders, messages, percent).value, limit) && i < |arms|
    ensures var bs := StartedTestAB(orders, messages, percent).value;
            && arms[i].outcome.Queued?
            && (Partition(orders, arms[i].outcome.pages, ArmAudience(orders, bs, i), limit)
                <==> !Overlaps(kind, orders, bs, limit, i))
            && Sent(orders, arms[i]) ==
               (if Overlaps(kind, orders, bs, limit, i) then [bs[i + 1]] else []) + ArmAudience(orders, bs, i)
  {
    var rows := BoundariesFall(orders, messages, percent);
    SentIs(orders, rows, kind, limit, i, arms[i]);
  }

  /** With a contact count that gives every message an arm, that is a condition on numbers: the first arm and, from
      three messages on, the rounded arm size must exceed a page. */
  lemma {:induction false} EvenArmsAsQueued(orders: seq<int>, kind: CampaignType, k: nat, percent: nat, limit: nat,
                                            arms: seq<Arm>, c: nat, q: nat)
    requires kind in {Split, TestAb} && k > 0 && limit > 0 && Ascending(orders) && orders != []
    requires c == TestRows(|orders|, |orders|, percent) && q == Round(c, k) && 2 * c > k * (k - 1)
    requires StartedTestAB(orders, k, percent).Some?
    requires AreArms(arms, kind, orders, StartedTestAB(orders, k, percent).value, limit)
    ensures AllSent(orders, arms, 0) == orders[..c] <==>
              kind == Split || k == 1 || (c - (k - 1) * q > limit && (k == 2 || q > limit))
  {
    ArmsSplitEvenly(orders, k, percent, c, q);
    ArmsAsQueued(orders, kind, k, percent, limit, arms);
    var bs := StartedTestAB(orders, k, percent).value;
    if k > 1 {
      assert |ArmAudience(orders, bs, 0)| == c - (k - 1) * q;
    }
    if k > 2 {
      assert |ArmAudience(orders, bs, 1)| == q;
    }
  }

  /** A TESTAB test whose audience fits one page, the ordinary small test, never reaches each contact once. */
  lemma {:induction false} SmallTestOverlaps(orders: seq<int>, k: nat, percent: nat, limit: nat, arms: seq<Arm>, c: nat)
    requires k > 1 && limit > 0 && Ascending(orders) && orders != []
    requires c == TestRows(|orders|, |orders|, percent) && 2 * c > k * (k - 1) && c <= limit
    requires StartedTestAB(orders, k, percent).Some?
    requires AreArms(arms, TestAb, orders, StartedTestAB(orders, k, percent).value, limit)
    ensures AllSent(orders, arms, 0) != orders[..c]
  {
    NonNegative(k - 1, Round(c, k));
    EvenArmsAsQueued(orders, TestAb, k, percent, limit, arms, c, Round(c, k));
  }

  // ---- the test and the rest ----

  /** The batch behind the test: it resumes behind `lastId` and has no end of its own. */
  predicate IsRest(rest: Outcome, kind: CampaignType, orders: seq<int>, lastId: nat, limit: nat)
    requires limit > 0
  {
    var cut := CountByTags(orders, lastId, 0, limit);
    rest == if cut == [] then NotFound else Queued(PagesOf(cut, Start(kind, lastId, |cut|)))
  }

  lemma {:induction false} SelectedBehind(orders: seq<int>, c: nat)
    requires Ascending(orders) && 1 <= c <= |orders|
    ensures orders[c - 1] >= 1 && Selected(orders, orders[c - 1], 0) == orders[c..]
  {
    var top := orders[|orders| - 1];
    SelectedIsBetween(orders, orders[c - 1], 0, top);
    BetweenRange(orders, orders[c - 1] + 1, top, c, |orders|);
  }

  /** What the rest sends: everyone behind the test, and in the one-page case the last contact of the test again. */
  lemma {:induction false} RestSends(orders: seq<int>, kind: CampaignType, c: nat, limit: nat, lastId: nat,
                                     rest: Outcome)
    requires kind in {Split, TestAb} && limit > 0 && Ascending(orders) && 1 <= c <= |orders|
    requires lastId == orders[c - 1] && IsRest(rest, kind, orders, lastId, limit)
    ensures SentBy(orders, rest) ==
            (if kind == TestAb && 0 < |orders| - c <= limit then [lastId] else []) + orders[c..]
  {
    SelectedBehind(orders, c);
    if c < |orders| {
      ArmSends(orders, kind, Arm(0, lastId, 0, rest), limit, orders[c..]);
    } else {
      assert PickedRows(0, 0, limit) == [];
      assert rest == NotFound;
    }
  }

  lemma {:induction false} WholeAudience(orders: seq<int>, c: nat, test: seq<int>, over: nat, more: seq<int>)
    requires TestSends(orders, test, c, over)
    ensures test + (more + orders[c..]) == orders <==> over == 0 && more == []
  {
    if over == 0 && more == [] {
      assert orders[..c] + orders[c..] == orders;
    } else {
      assert |test + (more + orders[c..])| > |orders|;
    }
  }

  /** The arms are apart, and the rest, if there is one, has more contacts than a page holds as well. */
  predicate ReachesAllOnce(orders: seq<int>, kind: CampaignType, messages: nat, percent: nat, limit: nat,
                           restLimit: nat)
    requires messages > 0 && StartedTestAB(orders, messages, percent).Some?
  {
    var bs, c := StartedTestAB(orders, messages, percent).value, TestRows(|orders|, |orders|, percent);
    ArmsApart(kind, orders, bs, limit) && (kind == Split || c == |orders| || |orders| - c > restLimit)
  }

  /** The whole campaign, test and rest, reaches each contact exactly once if and only if that holds. */
  lemma {:induction false} CampaignAsQueued(orders: seq<int>, kind: CampaignType, messages: nat, percent: nat,
                                            limit: nat, arms: seq<Arm>, restLimit: nat, rest: Outcome)
    requires kind in {Split, TestAb} && messages > 0 && limit > 0 && restLimit > 0
    requires Ascending(orders) && orders != [] && StartedTestAB(orders, messages, percent).Some?
    requires AreArms(arms, kind, orders, StartedTestAB(orders, messages, percent).value, limit)
    requires var bs := StartedTestAB(orders, messages, percent).value;
             bs != [] && IsRest(rest, kind, orders, ToNat(bs[0]), restLimit)
    ensures AllSent(orders, arms, 0) + SentBy(orders, rest) == orders <==>
              ReachesAllOnce(orders, kind, messages, percent, limit, restLimit)
  {
    var bs, c := StartedTestAB(orders, messages, percent).value, TestRows(|orders|, |orders|, percent);
    TestOverlaps(orders, kind, messages, percent, limit, arms, bs, c);
    ApartIff(kind, orders, bs, limit);
    RestSends(orders, kind, c, restLimit, ToNat(bs[0]), rest);
    var more := if kind == TestAb && 0 < |orders| - c <= restLimit then [ToNat(bs[0])] else [];
    WholeAudience(orders, c, AllSent(orders, arms, 0), OverlapsFrom(kind, orders, bs, limit, 0), more);
  }

  /** The test is queued first; the rest is queued later, from where the test said to resume, without test mode. */
  method TestThenRest(kind: CampaignType, orders: seq<int>, messages: nat, percent: nat, limit: nat, restLimit: nat)
    returns (arms: Option<seq<Arm>>, rest: Outcome)
    requires kind in {Split, TestAb} && messages > 0 && limit > 0 && restLimit > 0 && Ascending(orders)
    ensures arms.None? <==> StartedTestAB(orders, messages, percent).None? || orders == []
    ensures arms.Some? ==>
              (AllSent(orders, arms.value, 0) + SentBy(orders, rest) == orders <==>
                ReachesAllOnce(orders, kind, messages, percent, limit, restLimit))
  {
    rest := NotFound;
    var resumeAfter;
    arms, resumeAfter := CreateTest(kind, orders, messages, percent, limit);
    if arms.Some? {
      var campaign := new Campaign(kind, false, resumeAfter, 0);
      rest := campaign.CreateBatches(orders, restLimit, false);
      CampaignAsQueued(orders, kind, messages, percent, limit, arms.value, restLimit, rest);
    }
  }
}
