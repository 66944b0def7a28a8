/** The contacts of a campaign, known by their order numbers, and the boundaries at which pages end. */
module Audience {
  import opened Arithmetic

  /** Order numbers count from 1 and no two contacts share one. */
  ghost predicate Ascending(s: seq<int>) {
    && (forall i | 0 <= i < |s| :: s[i] >= 1)
    && forall i, j | 0 <= i < j < |s| :: s[i] < s[j]
  }

  /** The order numbers in a range, in order. */
  function Between(s: seq<int>, from: int, to: int): seq<int> {
    if s == [] then []
    else
      var x := s[|s| - 1];
      Between(s[..|s| - 1], from, to) + if from <= x <= to then [x] else []
  }

  lemma {:induction false} BetweenNone(s: seq<int>, from: int, to: int)
    requires forall i | 0 <= i < |s| :: s[i] < from || s[i] > to
    ensures Between(s, from, to) == []
  {
    if s != [] {
      BetweenNone(s[..|s| - 1], from, to);
    }
  }

  lemma {:induction false} BetweenAll(s: seq<int>, from: int, to: int)
    requires forall i | 0 <= i < |s| :: from <= s[i] <= to
    ensures Between(s, from, to) == s
  {
    if s != [] {
      BetweenAll(s[..|s| - 1], from, to);
    }
  }

  /** Adjacent ranges lie side by side. */
  lemma {:induction false} BetweenSplit(s: seq<int>, a: int, b: int, c: int)
    requires Ascending(s) && a <= b + 1 && b <= c
    ensures Between(s, a, b) + Between(s, b + 1, c) == Between(s, a, c)
  {
    if s != [] {
      var before, x := s[..|s| - 1], s[|s| - 1];
      BetweenSplit(before, a, b, c);
      if x <= b {
        BetweenNone(before, b + 1, c);
        BetweenNone(s, b + 1, c);
      } else {
        assert Between(s, a, b) == Between(before, a, b);
      }
    }
  }

  /** Numbers that do not occur move no bound. */
  lemma {:induction false} BetweenSame(s: seq<int>, a: int, b: int, a': int, b': int)
    requires forall i | 0 <= i < |s| :: a <= s[i] <= b <==> a' <= s[i] <= b'
    ensures Between(s, a, b) == Between(s, a', b')
  {
    if s != [] {
      BetweenSame(s[..|s| - 1], a, b, a', b');
    }
  }

  lemma {:induction false} BetweenIn(s: seq<int>, a: int, b: int)
    ensures forall x <- Between(s, a, b) :: x in s && a <= x <= b
    ensures forall x <- s | a <= x <= b :: x in Between(s, a, b)
  {
    if s != [] {
      BetweenIn(s[..|s| - 1], a, b);
      assert s == s[..|s| - 1] + [s[|s| - 1]];
    }
  }

  lemma {:induction false} BetweenAscending(s: seq<int>, a: int, b: int)
    requires Ascending(s)
    ensures Ascending(Between(s, a, b))
  {
    if s != [] {
      var before := s[..|s| - 1];
      BetweenAscending(before, a, b);
      BetweenIn(before, a, b);
      var r := Between(before, a, b);
      forall i | 0 <= i < |r| ensures r[i] < s[|s| - 1] {
        assert r[i] in before;
      }
    }
  }

  /** A narrower range of a range. */
  lemma {:induction false} BetweenTwice(s: seq<int>, a: int, b: int, c: int, d: int)
    requires a <= c && d <= b
    ensures Between(Between(s, a, b), c, d) == Between(s, c, d)
  {
    if s != [] {
      var before, x := s[..|s| - 1], s[|s| - 1];
      BetweenTwice(before, a, b, c, d);
      if a <= x <= b {
        var r := Between(before, a, b) + [x];
        assert Between(s, a, b) == r && r[..|r| - 1] == Between(before, a, b) && r[|r| - 1] == x;
        assert Between(r, c, d) == Between(Between(before, a, b), c, d) + if c <= x <= d then [x] else [];
      } else {
        assert Between(s, a, b) == Between(before, a, b);
      }
    }
  }

  function Less(a: nat, b: nat): nat {
    if a < b then a else b
  }

  /** A range that covers the rows from `low` up to `high`. */
  lemma {:induction false} BetweenRange(s: seq<int>, from: int, to: int, low: nat, high: nat)
    requires low <= high <= |s| && forall k | 0 <= k < |s| :: from <= s[k] <= to <==> low <= k < high
    ensures Between(s, from, to) == s[low..high]
  {
    if low == high {
      BetweenNone(s, from, to);
    } else {
      var n := |s| - 1;
      var before, x := s[..n], s[n];
      if high == |s| {
        BetweenRange(before, from, to, low, n);
        assert s[low..high] == before[low..n] + [x];
      } else {
        BetweenRange(before, from, to, low, high);
        assert s[low..high] == before[low..high];
      }
    }
  }

  /** From behind row number `low` up to row number `high`. */
  lemma {:induction false} BetweenRows(s: seq<int>, low: nat, high: nat)
    requires Ascending(s) && 1 <= low <= high <= |s|
    ensures Between(s, s[low - 1] + 1, s[high - 1]) == s[low..high]
  {
    BetweenRange(s, s[low - 1] + 1, s[high - 1], low, high);
  }

  lemma {:induction false} BetweenFirstRows(s: seq<int>, from: int, high: nat)
    requires Ascending(s) && 1 <= high <= |s| && from <= s[0]
    ensures Between(s, from, s[high - 1]) == s[..high]
  {
    BetweenRange(s, from, s[high - 1], 0, high);
  }

  // ---- boundaries ----

  /** The audience of one run: beyond what was sent, up to the end of the arm. Zero means no bound. */
  function Selected(orders: seq<int>, lastSentId: nat, finalId: nat): seq<int> {
    if orders == [] then []
    else
      var x := orders[|orders| - 1];
      Selected(orders[..|orders| - 1], lastSentId, finalId)
      + if (lastSentId == 0 || x > lastSentId) && (finalId == 0 || x <= finalId) then [x] else []
  }

  lemma {:induction false} SelectedIsBetween(orders: seq<int>, lastSentId: nat, finalId: nat, to: int)
    requires Ascending(orders)
    requires forall i | 0 <= i < |orders| :: orders[i] <= to <==> finalId == 0 || orders[i] <= finalId
    ensures Selected(orders, lastSentId, finalId) == Between(orders, lastSentId + 1, to)
  {
    if orders != [] {
      SelectedIsBetween(orders[..|orders| - 1], lastSentId, finalId, to);
    }
  }

  /** The query numbers the rows and keeps every `limit`-th and the last one. */
  predicate Picked(row: nat, rows: nat, limit: nat)
    requires limit > 0
  {
    row % limit == 0 || row == rows || (rows < limit && row == rows)
  }

  /** The picked rows among the first `n`, last one first. */
  function PickedRows(n: nat, rows: nat, limit: nat): seq<nat>
    requires limit > 0
  {
    if n == 0 then [] else (if Picked(n, rows, limit) then [n] else []) + PickedRows(n - 1, rows, limit)
  }

  function CountByTags(orders: seq<int>, lastSentId: nat, finalId: nat, limit: nat): (bs: seq<int>)
    requires limit > 0
  {
    var sel := Selected(orders, lastSentId, finalId);
    At(sel, PickedRows(|sel|, |sel|, limit))
  }

  function At(sel: seq<int>, rows: seq<nat>): (bs: seq<int>)
    ensures |bs| == |rows|
  {
    seq(|rows|, k requires 0 <= k < |rows| => if 1 <= rows[k] <= |sel| then sel[rows[k] - 1] else 0)
  }

  /** Boundary rows: each at most `limit` behind the next, the last at most `limit` from the start. */
  ghost predicate Spaced(rows: seq<nat>, limit: nat) {
    && (forall k | 0 <= k < |rows| :: rows[k] >= 1)
    && (forall k {:trigger Gap(rows, k)} | 0 <= k < |rows| - 1 :: 0 < Gap(rows, k) <= limit)
    && (rows != [] ==> rows[|rows| - 1] <= limit)
  }

  function Gap(rows: seq<nat>, k: nat): int
    requires k + 1 < |rows|
  {
    rows[k] as int - rows[k + 1] as int
  }

  /** `ps` holds the multiples of `limit` up to `n`, largest first; `r` is what `n` lies above the largest. */
  ghost predicate Multiples(ps: seq<nat>, n: nat, limit: nat, r: nat) {
    && Spaced(ps, limit)
    && (if n < limit then ps == [] else ps != [] && ps[0] == n - r)
  }

  lemma {:induction false} MultiplesGrow(ps: seq<nat>, n: nat, limit: nat, before: nat, r: nat)
    requires limit > 0 && n > 0 && Multiples(ps, n - 1, limit, before)
    requires r == 0 ==> before == limit - 1 && n >= limit
    requires r != 0 ==> before == r - 1
    requires n < limit ==> r == n
    requires n >= limit && ps == [] ==> n == limit && r == 0
    ensures Multiples((if r == 0 then [n] else []) + ps, n, limit, r)
  {
    if r == 0 {
      SpacedCons(n, ps, limit);
    } else {
      assert [] + ps == ps;
    }
  }

  /** Below the last row exactly the multiples of `limit` are picked. */
  lemma {:induction false} MultiplesPicked(n: nat, rows: nat, limit: nat)
    requires limit > 0 && n < rows
    ensures Multiples(PickedRows(n, rows, limit), n, limit, n % limit)
  {
    if n > 0 {
      MultiplesPicked(n - 1, rows, limit);
      NextRemainder(n, limit);
      MultiplesGrow(PickedRows(n - 1, rows, limit), n, limit, (n - 1) % limit, n % limit);
    }
  }

  lemma {:induction false} SmallRemainder(n: nat, k: nat)
    requires n < k
    ensures n % k == n
  {
    Quotient(n, k, 0, n);
  }

  lemma {:induction false} NextRemainder(n: nat, k: nat)
    requires k > 0 && n > 0
    ensures n % k == 0 ==> (n - 1) % k == k - 1 && n >= k
    ensures n % k != 0 ==> (n - 1) % k == n % k - 1
    ensures n < k ==> n % k == n
    ensures n == k ==> n % k == 0
  {
    var q, r := n / k, n % k;
    DivMod(n, k);
    if r == 0 {
      Distribute(k, q, 1);
      if q <= 0 {
        NonNegative(k, -q);
        Negated(k, q);
      } else {
        AtLeastOne(k, q);
        Quotient(n - 1, k, q - 1, k - 1);
      }
    } else {
      Quotient(n - 1, k, q, r - 1);
    }
    if n < k {
      SmallRemainder(n, k);
    } else if n == k {
      Quotient(n, k, 1, 0);
    }
  }

  lemma {:induction false} SpacedCons(n: nat, ps: seq<nat>, limit: nat)
    requires n >= 1 && Spaced(ps, limit) && (if ps == [] then n <= limit else 0 < n - ps[0] <= limit)
    ensures Spaced([n] + ps, limit)
  {
    var rows := [n] + ps;
    forall k | 0 <= k < |rows| - 1 ensures 0 < Gap(rows, k) <= limit {
      if k > 0 {
        assert Gap(rows, k) == Gap(ps, k - 1);
      }
    }
  }

  /** The whole query: the last row comes first, and no two boundaries are further apart than a page. */
  lemma {:induction false} PickedSpaced(n: nat, limit: nat)
    requires limit > 0 && n > 0
    ensures var ps := PickedRows(n, n, limit); ps != [] && ps[0] == n && Spaced(ps, limit)
  {
    MultiplesPicked(n - 1, n, limit);
    DivMod(n - 1, limit);
    var ps := PickedRows(n - 1, n, limit);
    assert PickedRows(n, n, limit) == [n] + ps;
    SpacedCons(n, ps, limit);
  }

  /** The multiples of `q` from the `m`-th down. */
  function MultiplesDown(m: nat, q: nat): (r: seq<nat>)
    ensures |r| == m
  {
    if m == 0 then [] else [m * q] + MultiplesDown(m - 1, q)
  }

  lemma {:induction false} DownAt(m: nat, q: nat, i: nat)
    requires i < m
    ensures MultiplesDown(m, q)[i] == (m - i) * q
  {
    if i > 0 {
      DownAt(m - 1, q, i - 1);
    }
  }

  lemma {:induction false} QuotientSteps(n: nat, q: nat)
    requires q > 0 && n > 0
    ensures n % q == 0 ==> (n / q) * q == n && n / q >= 1 && (n - 1) / q == n / q - 1
    ensures n % q != 0 ==> (n - 1) / q == n / q
  {
    DivMod(n, q);
    DivMod(n - 1, q);
    NextRemainder(n, q);
    if n % q == 0 {
      Distribute(q, n / q, 1);
      Positive(q, n / q);
      Quotient(n - 1, q, n / q - 1, q - 1);
    } else {
      Quotient(n - 1, q, n / q, n % q - 1);
    }
  }

  lemma {:induction false} Positive(q: nat, m: int)
    requires q * m > 0
    ensures m >= 1
  {
    if m <= 0 {
      NonNegative(q, -m);
      Negated(q, m);
    }
  }

  lemma {:induction false} PickedBelow(n: nat, rows: nat, limit: nat)
    requires limit > 0 && n < rows
    ensures PickedRows(n, rows, limit) == MultiplesDown(n / limit, limit)
  {
    if n == 0 {
      Quotient(0, limit, 0, 0);
    } else {
      PickedBelow(n - 1, rows, limit);
      QuotientSteps(n, limit);
    }
  }

  /** The boundaries exactly: the last row and, below it, every multiple of a page. */
  lemma {:induction false} PickedExactly(n: nat, limit: nat)
    requires limit > 0 && n > 0
    ensures var ps, m := PickedRows(n, n, limit), (n - 1) / limit;
            |ps| == m + 1 && ps[0] == n && forall k | 1 <= k <= m :: ps[k] == (m + 1 - k) * limit
  {
    var m := (n - 1) / limit;
    PickedBelow(n - 1, n, limit);
    assert PickedRows(n, n, limit) == [n] + MultiplesDown(m, limit);
    forall k | 1 <= k <= m ensures PickedRows(n, n, limit)[k] == (m + 1 - k) * limit {
      DownAt(m, limit, k - 1);
    }
  }

  lemma {:induction false} SelectedIn(orders: seq<int>, lastSentId: nat, finalId: nat)
    ensures forall x <- Selected(orders, lastSentId, finalId) :: x in orders
  {
    if orders != [] {
      SelectedIn(orders[..|orders| - 1], lastSentId, finalId);
    }
  }

  lemma {:induction false} BoundariesCount(orders: seq<int>, lastSentId: nat, finalId: nat, limit: nat)
    requires limit > 0 && Ascending(orders)
    ensures forall k | 0 <= k < |CountByTags(orders, lastSentId, finalId, limit)| ::
              CountByTags(orders, lastSentId, finalId, limit)[k] >= 0
  {
    SelectedIn(orders, lastSentId, finalId);
    var sel := Selected(orders, lastSentId, finalId);
    var rows := PickedRows(|sel|, |sel|, limit);
    forall k | 0 <= k < |rows| ensures At(sel, rows)[k] >= 0 {
      if 1 <= rows[k] <= |sel| {
        assert sel[rows[k] - 1] in sel;
      }
    }
  }
}
