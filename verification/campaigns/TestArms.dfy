/** The test phase of a campaign: part of the audience, split evenly among the messages. */
module TestArms {
  import opened Wrappers
  import opened Arithmetic
  import opened Audience
  import opened Paging

  // ---- who is in the test ----

  /** `percent_rank` of a row is `(row - 1) / (rows - 1)`, and 0 for a single row. */
  predicate InTest(row: nat, rows: nat, percent: nat) {
    (row - 1) * 100 <= percent * (rows - 1)
  }

  function TestRows(n: nat, rows: nat, percent: nat): (c: nat)
    ensures c <= n
  {
    if n == 0 then 0 else TestRows(n - 1, rows, percent) + if InTest(n, rows, percent) then 1 else 0
  }

  /** The test takes the first rows of the audience, and at least one. */
  lemma {:induction false} TestIsPrefix(n: nat, rows: nat, percent: nat)
    requires 1 <= n <= rows
    ensures TestRows(n, rows, percent) >= 1
    ensures forall row | 1 <= row <= n :: InTest(row, rows, percent) <==> row <= TestRows(n, rows, percent)
  {
    if n > 1 {
      TestIsPrefix(n - 1, rows, percent);
    } else {
      NonNegative(percent, rows - 1);
      assert TestRows(0, rows, percent) == 0;
    }
  }

  lemma {:induction false} InTestIff(row: nat, rows: nat, percent: nat)
    requires 1 <= row <= rows
    ensures InTest(row, rows, percent) <==> row <= percent * (rows - 1) / 100 + 1
  {
    NonNegative(percent, rows - 1);
    var x: nat := percent * (rows - 1);
    DivMod(x, 100);
  }

  /** The test takes the first row and `percent` of the others, rounded down. */
  lemma {:induction false} TestTakes(n: nat, rows: nat, percent: nat)
    requires 1 <= n <= rows
    ensures TestRows(n, rows, percent) == Less(n, percent * (rows - 1) / 100 + 1)
  {
    NonNegative(percent, rows - 1);
    InTestIff(n, rows, percent);
    if n > 1 {
      TestTakes(n - 1, rows, percent);
    } else {
      assert TestRows(0, rows, percent) == 0;
    }
  }

  // ---- where its arms end ----

  /** ROUND of a quotient: half away from zero. */
  function Round(c: nat, k: nat): nat
    requires k > 0
  {
    (2 * c + k) / (2 * k)
  }

  lemma {:induction false} RoundBounds(c: nat, k: nat)
    requires k > 0
    ensures -(k as int) <= 2 * (c - k * Round(c, k)) < k
  {
    var q := Round(c, k);
    DivMod(2 * c + k, 2 * k);
    assert (2 * k) * q == 2 * (k * q);
  }

  predicate ArmPicked(row: nat, c: nat, k: nat, q: nat)
    requires q > 0
  {
    (row % q == 0 && row / q < k) || row == c
  }

  function ArmRows(n: nat, c: nat, k: nat, q: nat): seq<nat>
    requires q > 0
  {
    if n == 0 then [] else (if ArmPicked(n, c, k, q) then [n] else []) + ArmRows(n - 1, c, k, q)
  }

  lemma {:induction false} ArmRowsBelow(n: nat, c: nat, k: nat, q: nat)
    requires q > 0 && k > 0 && n < c
    ensures ArmRows(n, c, k, q) == MultiplesDown(Less(n / q, k - 1), q)
  {
    if n == 0 {
      SmallRemainder(0, q);
      Quotient(0, q, 0, 0);
    } else {
      ArmRowsBelow(n - 1, c, k, q);
      QuotientSteps(n, q);
      if n % q == 0 && n / q < k {
        assert ArmRows(n, c, k, q) == [n] + MultiplesDown(n / q - 1, q);
      }
    }
  }

  /** There are as many arms as messages exactly when `k - 1` arms of the rounded size leave somebody for the last one;
      they then end at `c`, `(k-1)q`, ..., `q`. */
  lemma {:induction false} ArmsExactly(c: nat, k: nat, q: nat)
    requires q > 0 && k > 0 && c > 0
    ensures |ArmRows(c, c, k, q)| <= k
    ensures |ArmRows(c, c, k, q)| == k <==> (k - 1) * q < c
    ensures (k - 1) * q < c ==> ArmRows(c, c, k, q) == [c] + MultiplesDown(k - 1, q)
  {
    ArmRowsBelow(c - 1, c, k, q);
    assert ArmRows(c, c, k, q) == [c] + ArmRows(c - 1, c, k, q);
    QuotientAtLeast(c - 1, q, k - 1);
  }

  lemma {:induction false} QuotientAtLeast(n: nat, q: nat, m: nat)
    requires q > 0
    ensures n / q >= m <==> m * q <= n
  {
    DivMod(n, q);
    Distribute(q, n / q, m);
    if n / q >= m {
      NonNegative(q, n / q - m);
    } else {
      AtLeastOne(q, m - n / q);
      Negated(q, n / q - m);
    }
  }

  /** That is the case for every test audience of more than `k(k-1)/2` contacts. */
  lemma {:induction false} EnoughForAllArms(c: nat, k: nat)
    requires k > 0 && 2 * c > k * (k - 1)
    ensures 0 < Round(c, k) && (k - 1) * Round(c, k) < c
  {
    var q := Round(c, k);
    RoundBounds(c, k);
    if k > 1 {
      ScaledBound(c, k, q);
      TimesMonotone(k, 1, k - 1);
    }
  }

  /** From `2kq <= 2c + k` and `k(k-1) < 2c`, multiplied by `k - 1`. */
  lemma {:induction false} ScaledBound(c: nat, k: nat, q: nat)
    requires k > 1 && 2 * (k * q) <= 2 * c + k && 2 * c > k * (k - 1)
    ensures (k - 1) * q < c
  {
    if (k - 1) * q >= c {
      assert k * q == (k - 1) * q + q;
      assert 2 * q <= k;
      TimesMonotone(k - 1, 2 * q, k);
    }
  }

  lemma {:induction false} TimesMonotone(k: nat, a: nat, b: nat)
    requires a <= b
    ensures k * a <= k * b
  {
    NonNegative(k, b - a);
    Distribute(k, b, a);
  }

  // ---- the test itself ----

  /** The order numbers the arms end with, largest first; a rounded size of zero makes the query divide by zero. */
  function StartedTestAB(orders: seq<int>, messages: nat, percent: nat): Option<seq<int>>
    requires messages > 0
  {
    var c := TestRows(|orders|, |orders|, percent);
    if c > 0 && Round(c, messages) == 0 then None
    else if c == 0 then Some([])
    else Some(At(orders, ArmRows(c, c, messages, Round(c, messages))))
  }

  /** One arm: message number `message` goes to the contacts behind `lastId` up to `finalId`. */
  datatype Arm = Arm(message: nat, lastId: nat, finalId: nat, outcome: Outcome)

  function ToNat(x: int): nat {
    if x < 0 then 0 else x
  }

  /** Arm `i` goes from the boundary behind it to its own. */
  function ArmStart(bs: seq<int>, i: nat): nat {
    if i + 1 < |bs| then ToNat(bs[i + 1]) else 0
  }

  function ArmAudience(orders: seq<int>, bs: seq<int>, i: nat): seq<int>
    requires i < |bs|
  {
    Selected(orders, ArmStart(bs, i), ToNat(bs[i]))
  }

  /** Every arm is a batch of its own; the boundary of the first one is where the rest of the campaign resumes. */
  method CreateTest(kind: CampaignType, orders: seq<int>, messages: nat, percent: nat, limit: nat)
    returns (r: Option<seq<Arm>>, resumeAfter: nat)
    requires kind in {Split, TestAb} && messages > 0 && limit > 0 && Ascending(orders)
    ensures r.None? <==> StartedTestAB(orders, messages, percent).None? || orders == []
    ensures r.None? <==> orders == [] || 2 * Less(|orders|, percent * (|orders| - 1) / 100 + 1) < messages
    ensures r.Some? ==>
              resumeAfter as int == orders[Less(|orders|, percent * (|orders| - 1) / 100 + 1) - 1]
    ensures r.Some? ==>
              var bs := StartedTestAB(orders, messages, percent).value;
              && |r.value| == |bs| > 0 && resumeAfter as int == bs[0]
              && forall i | 0 <= i < |bs| :: IsArm(r.value[i], i, kind, orders, bs, limit)
  {
    r, resumeAfter := None, 0;
    var pages := StartedTestAB(orders, messages, percent);
    TestFails(orders, messages, percent);
    if pages.None? || pages.value == [] {
      TestNonempty(orders, messages, percent);
      return;
    }
    var bs := pages.value;
    ArmsInAudience(orders, messages, percent);
    FirstEnds(orders, messages, percent);
    var arms: seq<Arm> := [];
    for i := 0 to |bs|
      invariant |arms| == i && forall j | 0 <= j < i :: IsArm(arms[j], j, kind, orders, bs, limit)
    {
      var nextId := if |bs| - 1 >= i + 1 then bs[i + 1] else 0;
      var campaign := new Campaign(kind, true, nextId, bs[i]);
      var outcome := campaign.CreateBatches(orders, limit, false);
      arms := arms + [Arm(i, nextId, bs[i], outcome)];
    }
    r, resumeAfter := Some(arms), bs[0];
    TestNonempty(orders, messages, percent);
  }

  lemma {:induction false} RoundIsZero(c: nat, k: nat)
    requires k > 0
    ensures Round(c, k) == 0 <==> 2 * c < k
  {
    QuotientAtLeast(2 * c + k, 2 * k, 1);
  }

  /** There is no test without contacts, nor if the arms would round to nothing. */
  lemma {:induction false} TestFails(orders: seq<int>, messages: nat, percent: nat)
    requires messages > 0
    ensures StartedTestAB(orders, messages, percent).None? || orders == [] <==>
            orders == [] || 2 * Less(|orders|, percent * (|orders| - 1) / 100 + 1) < messages
  {
    if orders != [] {
      TestTakes(|orders|, |orders|, percent);
      TestIsPrefix(|orders|, |orders|, percent);
      RoundIsZero(TestRows(|orders|, |orders|, percent), messages);
    }
  }

  /** The first boundary is the last contact of the test. */
  lemma {:induction false} FirstEnds(orders: seq<int>, messages: nat, percent: nat)
    requires messages > 0 && StartedTestAB(orders, messages, percent).Some? && orders != []
    ensures var bs, c := StartedTestAB(orders, messages, percent).value, percent * (|orders| - 1) / 100 + 1;
            bs != [] && 1 <= Less(|orders|, c) <= |orders| && bs[0] == orders[Less(|orders|, c) - 1]
  {
    TestTakes(|orders|, |orders|, percent);
    TestIsPrefix(|orders|, |orders|, percent);
    var c := TestRows(|orders|, |orders|, percent);
    assert ArmRows(c, c, messages, Round(c, messages)) == [c] + ArmRows(c - 1, c, messages, Round(c, messages));
  }

  predicate IsArm(a: Arm, i: nat, kind: CampaignType, orders: seq<int>, bs: seq<int>, limit: nat)
    requires i < |bs| && limit > 0
  {
    && a.message == i && a.finalId as int == bs[i] && a.lastId as int == (if i + 1 < |bs| then bs[i + 1] else 0)
    && var cut := CountByTags(orders, a.lastId, a.finalId, limit);
       a.outcome == if cut == [] then NotFound else Queued(PagesOf(cut, Start(kind, a.lastId, |cut|)))
  }

  lemma {:induction false} TestNonempty(orders: seq<int>, messages: nat, percent: nat)
    requires messages > 0
    ensures StartedTestAB(orders, messages, percent) == Some([]) <==> orders == []
  {
    if orders != [] {
      TestIsPrefix(|orders|, |orders|, percent);
      var c := TestRows(|orders|, |orders|, percent);
      assert Round(c, messages) > 0 ==> ArmRows(c, c, messages, Round(c, messages)) != [];
    }
  }

  lemma {:induction false} RowsInAudience(n: nat, c: nat, k: nat, q: nat)
    requires q > 0
    ensures forall i | 0 <= i < |ArmRows(n, c, k, q)| :: 1 <= ArmRows(n, c, k, q)[i] <= n
  {
    if n > 0 {
      RowsInAudience(n - 1, c, k, q);
    }
  }

  lemma {:induction false} ArmsInAudience(orders: seq<int>, messages: nat, percent: nat)
    requires messages > 0 && Ascending(orders) && StartedTestAB(orders, messages, percent).Some?
    ensures var bs := StartedTestAB(orders, messages, percent).value;
            forall i | 0 <= i < |bs| :: bs[i] in orders && bs[i] >= 1
  {
    var c := TestRows(|orders|, |orders|, percent);
    if c > 0 {
      RowsInAudience(c, c, messages, Round(c, messages));
    }
  }

  // ---- what the arms cover ----

  /** The audiences of the arms from number `i` on, last arm first. */
  function ArmAudiences(orders: seq<int>, bs: seq<int>, i: nat): seq<int>
    requires i <= |bs|
    decreases |bs| - i
  {
    if i == |bs| then [] else ArmAudiences(orders, bs, i + 1) + ArmAudience(orders, bs, i)
  }

  function RowAfter(rows: seq<nat>, i: nat): nat {
    if i + 1 < |rows| then rows[i + 1] else 0
  }

  ghost predicate Falling(orders: seq<int>, rows: seq<nat>) {
    forall i {:trigger RowAfter(rows, i)} | 0 <= i < |rows| :: RowAfter(rows, i) < rows[i] <= |orders|
  }

  lemma {:induction false} AudienceOfRows(orders: seq<int>, rows: seq<nat>, i: nat)
    requires Ascending(orders) && Falling(orders, rows) && i < |rows|
    ensures ArmAudience(orders, At(orders, rows), i) == orders[RowAfter(rows, i)..rows[i]]
  {
    assert RowAfter(rows, i) < rows[i] && (i + 1 < |rows| ==> RowAfter(rows, i + 1) < rows[i + 1]);
    if i + 1 < |rows| {
      SelectedBetweenRows(orders, rows[i + 1], rows[i]);
    } else {
      SelectedFirstRows(orders, rows[i]);
    }
  }

  lemma {:induction false} SelectedBetweenRows(orders: seq<int>, low: nat, high: nat)
    requires Ascending(orders) && 1 <= low < high <= |orders|
    ensures Selected(orders, ToNat(orders[low - 1]), ToNat(orders[high - 1])) == orders[low..high]
  {
    var from, to := orders[low - 1], orders[high - 1];
    assert from >= 1 && to >= 1;
    SelectedIsBetween(orders, from, to, to);
    BetweenRows(orders, low, high);
  }

  lemma {:induction false} SelectedFirstRows(orders: seq<int>, high: nat)
    requires Ascending(orders) && 1 <= high <= |orders|
    ensures Selected(orders, 0, ToNat(orders[high - 1])) == orders[0..high]
  {
    SelectedIsBetween(orders, 0, orders[high - 1], orders[high - 1]);
    BetweenFirstRows(orders, 1, high);
  }

  lemma {:induction false} AudiencesFrom(orders: seq<int>, rows: seq<nat>, i: nat)
    requires Ascending(orders) && Falling(orders, rows) && i < |rows|
    ensures rows[i] <= |orders| && ArmAudiences(orders, At(orders, rows), i) == orders[..rows[i]]
    decreases |rows| - i
  {
    AudienceOfRows(orders, rows, i);
    assert RowAfter(rows, i) < rows[i];
    if i + 1 < |rows| {
      AudiencesFrom(orders, rows, i + 1);
    }
  }

  /** The rows at which `k` arms end. */
  function ArmEnds(c: nat, k: nat, q: nat): (rows: seq<nat>)
    requires k > 0
    ensures |rows| == k
  {
    [c] + MultiplesDown(k - 1, q)
  }

  lemma {:induction false} ArmEndsAt(c: nat, k: nat, q: nat, i: nat)
    requires k > 0 && i < k
    ensures ArmEnds(c, k, q)[i] == if i == 0 then c else (k - i) * q
    ensures RowAfter(ArmEnds(c, k, q), i) == (k - 1 - i) * q
  {
    if i > 0 {
      DownAt(k - 1, q, i - 1);
    }
    if i + 1 < k {
      DownAt(k - 1, q, i);
    }
  }

  lemma {:induction false} ArmEndsFall(orders: seq<int>, c: nat, k: nat, q: nat)
    requires k > 0 && q > 0 && (k - 1) * q < c <= |orders|
    ensures Falling(orders, ArmEnds(c, k, q))
  {
    var rows := ArmEnds(c, k, q);
    forall i | 0 <= i < |rows| ensures RowAfter(rows, i) < rows[i] <= |orders| {
      ArmEndsAt(c, k, q, i);
      if i > 0 {
        Distribute(q, k - i, 1);
        TimesMonotone(q, k - i, k - 1);
      }
    }
  }

  /** With enough contacts every message gets an arm: the arms cover the test audience, each contact in one of them;
      all but the first have `q` contacts, and the first is within `k/2` of that. */
  lemma {:induction false} ArmsSplitEvenly(orders: seq<int>, k: nat, percent: nat, c: nat, q: nat)
    requires k > 0 && Ascending(orders) && c == TestRows(|orders|, |orders|, percent) && q == Round(c, k)
    requires 2 * c > k * (k - 1)
    ensures var r := StartedTestAB(orders, k, percent);
            && r.Some? && |r.value| == k
            && ArmAudiences(orders, r.value, 0) == orders[..c]
            && (forall i | 0 < i < k :: |ArmAudience(orders, r.value, i)| == q)
            && |ArmAudience(orders, r.value, 0)| == c - (k - 1) * q
            && -(k as int) <= 2 * (|ArmAudience(orders, r.value, 0)| - q) < k
  {
    EnoughForAllArms(c, k);
    NonNegative(k - 1, q);
    ArmsExactly(c, k, q);
    var rows := ArmEnds(c, k, q);
    ArmEndsFall(orders, c, k, q);
    AudiencesFrom(orders, rows, 0);
    forall i | 0 <= i < k
      ensures |ArmAudience(orders, At(orders, rows), i)| == if i == 0 then c - (k - 1) * q else q
    {
      ArmSize(orders, c, k, q, i);
    }
    FirstArmFits(c, k, q);
  }

  lemma {:induction false} ArmSize(orders: seq<int>, c: nat, k: nat, q: nat, i: nat)
    requires k > 0 && q > 0 && i < k && Ascending(orders) && Falling(orders, ArmEnds(c, k, q))
    ensures |ArmAudience(orders, At(orders, ArmEnds(c, k, q)), i)| == if i == 0 then c - (k - 1) * q else q
  {
    var rows := ArmEnds(c, k, q);
    AudienceOfRows(orders, rows, i);
    assert RowAfter(rows, i) < rows[i] <= |orders|;
    SliceSize(orders, RowAfter(rows, i), rows[i]);
    ArmEndsAt(c, k, q, i);
    OneStepApart(k, i, q);
  }

  lemma {:induction false} SliceSize(s: seq<int>, low: nat, high: nat)
    requires low <= high <= |s|
    ensures |s[low..high]| == high - low
  {
  }

  lemma {:induction false} OneStepApart(k: nat, i: nat, q: nat)
    requires i < k
    ensures (k - i) * q - (k - 1 - i) * q == q
    ensures i == 0 ==> (k - 1 - i) * q == (k - 1) * q
  {
  }

  lemma {:induction false} FirstArmFits(c: nat, k: nat, q: nat)
    requires k > 0 && q == Round(c, k)
    ensures -(k as int) <= 2 * (c - (k - 1) * q - q) < k
  {
    RoundBounds(c, k);
    Distribute(q, k, 1);
  }
}
