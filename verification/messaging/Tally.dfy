/** Counting the copies of one message over the places that hold messages. */
module Tally {
  import opened Lineage

  /** What `f` counts of message `id` in each element, added up. */
  ghost function Sum<T(!new)>(xs: seq<T>, f: (T, nat) -> nat, id: nat): nat {
    if xs == [] then 0 else Sum(xs[..|xs| - 1], f, id) + f(xs[|xs| - 1], id)
  }

  function Without<T>(xs: seq<T>, i: nat): (r: seq<T>)
    requires i < |xs|
    ensures |r| == |xs| - 1
    ensures forall j | 0 <= j < |r| :: r[j] in xs
  {
    xs[..i] + xs[i + 1..]
  }

  lemma {:induction false} SumAppend<T(!new)>(xs: seq<T>, ys: seq<T>, f: (T, nat) -> nat, id: nat)
    ensures Sum(xs + ys, f, id) == Sum(xs, f, id) + Sum(ys, f, id)
  {
    if ys == [] {
      assert xs + ys == xs;
    } else {
      var rest := ys[..|ys| - 1];
      SumAppend(xs, rest, f, id);
      assert (xs + ys)[..|xs + ys| - 1] == xs + rest;
    }
  }

  lemma {:induction false} SumOne<T(!new)>(xs: seq<T>, x: T, f: (T, nat) -> nat, id: nat)
    ensures Sum(xs + [x], f, id) == Sum(xs, f, id) + f(x, id)
  {
    assert (xs + [x])[..|xs + [x]| - 1] == xs;
  }

  lemma {:induction false} SumSplit<T(!new)>(xs: seq<T>, i: nat, f: (T, nat) -> nat, id: nat)
    requires i < |xs|
    ensures Sum(xs, f, id) == Sum(xs[..i], f, id) + f(xs[i], id) + Sum(xs[i + 1..], f, id)
  {
    assert xs == xs[..i] + [xs[i]] + xs[i + 1..];
    SumAppend(xs[..i] + [xs[i]], xs[i + 1..], f, id);
    SumOne(xs[..i], xs[i], f, id);
  }

  lemma {:induction false} SumWithout<T(!new)>(xs: seq<T>, i: nat, f: (T, nat) -> nat, id: nat)
    requires i < |xs|
    ensures Sum(xs, f, id) == Sum(Without(xs, i), f, id) + f(xs[i], id)
  {
    SumSplit(xs, i, f, id);
    SumAppend(xs[..i], xs[i + 1..], f, id);
  }

  lemma {:induction false} SumUpdate<T(!new)>(xs: seq<T>, i: nat, x: T, f: (T, nat) -> nat, id: nat)
    requires i < |xs|
    ensures Sum(xs[i := x], f, id) + f(xs[i], id) == Sum(xs, f, id) + f(x, id)
  {
    SumSplit(xs, i, f, id);
    SumSplit(xs[i := x], i, f, id);
    assert xs[i := x][..i] == xs[..i] && xs[i := x][i + 1..] == xs[i + 1..];
  }

  function One(m: Message, id: nat): nat {
    if m.id == id then 1 else 0
  }
}
