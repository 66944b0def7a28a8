/** The automation walk: every message carries the rest of a contact's automation and hands it on. */
module Walk {
  import opened Wrappers

  /** `ConditionalTrue`, `ConditionalFalse` and `Bucket` only hold the branches of a conditional or a split. */
  datatype Kind =
    | Email | WebPush | MobilePush | Sms | Whatsapp | Wait(minutes: Option<nat>) | AddTag | RemoveTag | ConditionalTime
    | RandomMessage | RandomPush | RemoveAutomation | ContactTransfer | UpdateCustomField | HttpRequest
    | Conditional | Split | TestAb(messages: nat) | End
    | ConditionalTrue | ConditionalFalse | Bucket(value: nat) | Unknown

  datatype Step = Step(id: nat, kind: Kind, child: seq<Step>)

  /** What the world decides while one message is handled: the draw of a split (0 to 100), the outcome of a condition,
      the message a test picks (its winner's may be gone), and whether something the step calls fails. */
  datatype Choice = Choice(draw: nat, holds: bool, pick: Option<nat>, fails: bool)

  datatype Publication =
    | Trigger(next: seq<Step>) | Send(next: seq<Step>) | Delay(minutes: nat, next: seq<Step>) | Tag | Http

  datatype Outcome = Handled(sent: seq<Publication>) | Finished | Ignored | Threw

  // ---- which branch ----

  /** The bucket a draw falls into: the first whose running total reaches it. */
  function PickSplit(buckets: seq<Step>, draw: nat, total: nat, i: nat): Option<nat>
    requires i <= |buckets|
    decreases |buckets| - i
  {
    if i == |buckets| then None
    else
      var total' := total + Value(buckets[i]);
      if draw <= total' then Some(i) else PickSplit(buckets, draw, total', i + 1)
  }

  function Value(s: Step): nat {
    if s.kind.Bucket? then s.kind.value else 0
  }

  function Find(steps: seq<Step>, kind: Kind): Option<Step> {
    if steps == [] then None
    else if steps[0].kind == kind then Some(steps[0])
    else Find(steps[1..], kind)
  }

  function ChildOf(s: Option<Step>): seq<Step> {
    if s.Some? then s.value.child else []
  }

  /** The step with its child list replaced by the branch taken. */
  function Defined(s: Step, c: Choice): Step {
    match s.kind
    case Split =>
      var i := PickSplit(s.child, c.draw, 0, 0);
      if i.Some? && i.value < |s.child| then s.(child := s.child[i.value].child) else s
    case Conditional => s.(child := ChildOf(Find(s.child, if c.holds then ConditionalTrue else ConditionalFalse)))
    case TestAb(messages) =>
      if c.pick.Some? && c.pick.value < messages then s.(child := [Step(s.id, Email, s.child)]) else s
    case _ => s
  }

  function NextSteps(s: Step): (next: seq<Step>)
    ensures next != []
  {
    if s.child != [] then s.child else [Step(0, End, [])]
  }

  /** `child` is the list behind the first entry of `branches` that is of `kind`, if there is one. */
  ghost predicate FirstOf(branches: seq<Step>, kind: Kind, child: seq<Step>) {
    && (forall i | 0 <= i < |branches| && branches[i].kind == kind
                   && (forall j | 0 <= j < i :: branches[j].kind != kind) :: child == branches[i].child)
    && ((forall i | 0 <= i < |branches| :: branches[i].kind != kind) ==> child == [])
  }

  /** `child` is the list behind the first bucket at which the running total reaches the draw. */
  ghost predicate Drawn(s: Step, draw: nat, child: seq<Step>) {
    && (forall i | 0 < i <= |s.child| && draw <= Total(s.child, i) && (forall j | 0 < j < i :: Total(s.child, j) < draw)
          :: child == s.child[i - 1].child)
    && ((forall i | 0 < i <= |s.child| :: Total(s.child, i) < draw) ==> child == s.child)
  }

  /** The branch that is taken: the draw's bucket, the side of the condition, the picked message in front of what
      follows the test, and otherwise whatever follows. */
  ghost predicate Taken(s: Step, c: Choice, child: seq<Step>) {
    match s.kind
    case Split => Drawn(s, c.draw, child)
    case Conditional => FirstOf(s.child, if c.holds then ConditionalTrue else ConditionalFalse, child)
    case TestAb(messages) =>
      child == if c.pick.Some? && c.pick.value < messages then [Step(s.id, Email, s.child)] else s.child
    case _ => child == s.child
  }

  lemma {:induction false} FindsFirst(steps: seq<Step>, kind: Kind)
    ensures FirstOf(steps, kind, ChildOf(Find(steps, kind)))
  {
    if steps != [] && steps[0].kind != kind {
      var child := ChildOf(Find(steps[1..], kind));
      FindsFirst(steps[1..], kind);
      forall i | 0 <= i < |steps| && steps[i].kind == kind && (forall j | 0 <= j < i :: steps[j].kind != kind)
        ensures child == steps[i].child
      {
        assert steps[1..][i - 1] == steps[i];
        assert forall j | 0 <= j < i - 1 :: steps[1..][j] == steps[j + 1];
      }
      assert forall i | 0 <= i < |steps| - 1 :: steps[1..][i] == steps[i + 1];
    }
  }

  lemma {:induction false} DefinedTaken(s: Step, c: Choice)
    ensures Taken(s, c, Defined(s, c).child) && Defined(s, c) == s.(child := Defined(s, c).child)
  {
    if s.kind == Conditional {
      FindsFirst(s.child, if c.holds then ConditionalTrue else ConditionalFalse);
    } else if s.kind == Split {
      DrawnIs(s, c);
    }
  }

  lemma {:induction false} DrawnIs(s: Step, c: Choice)
    requires s.kind == Split
    ensures Drawn(s, c.draw, Defined(s, c).child)
  {
    var r, child := PickSplit(s.child, c.draw, 0, 0), Defined(s, c).child;
    assert Total(s.child, 0) == 0;
    PickFrom(s.child, c.draw, 0);
    forall i | 0 < i <= |s.child| && c.draw <= Total(s.child, i)
               && (forall j | 0 < j < i :: Total(s.child, j) < c.draw)
      ensures child == s.child[i - 1].child
    {
      TotalMonotone(s.child, i, |s.child|);
      assert r.value + 1 >= i;
    }
  }

  method DefinedStep(s: Step, c: Choice) returns (r: Step)
    ensures r == Defined(s, c)
    ensures Taken(s, c, r.child) && r == s.(child := r.child)
  {
    r := s;
    DefinedTaken(s, c);
    match s.kind
    case Split =>
      var percentage: nat, i: nat := 0, 0;
      while i < |s.child|
        invariant i <= |s.child| && r == s
        invariant PickSplit(s.child, c.draw, 0, 0) == PickSplit(s.child, c.draw, percentage, i)
      {
        percentage := percentage + Value(s.child[i]);
        if c.draw <= percentage {
          r := s.(child := s.child[i].child);
          return;
        }
        i := i + 1;
      }
    case Conditional => r := s.(child := ChildOf(Find(s.child, if c.holds then ConditionalTrue else ConditionalFalse)));
    case TestAb(messages) =>
      if c.pick.Some? && c.pick.value < messages {
        r := s.(child := [Step(s.id, Email, s.child)]);
      }
    case _ =>
  }

  /** One message, from the steps it carries to what is published. */
  method ProcessMessage(steps: seq<Step>, c: Choice) returns (r: Outcome)
    ensures r == Processed(steps, c)
    ensures r.Threw? <==> steps == [] || c.fails || steps[0].kind == Wait(None)
    ensures r.Finished? ==> steps[0].kind == End
    ensures r.Ignored? ==> !Runnable(steps[0])
    ensures r.Handled? ==>
              && Runnable(steps[0]) && steps[0].kind != End
              && Continuations(r.sent) == [NextSteps(Defined(steps[0], c))]
    ensures r.Handled? ==>
              var k, child := steps[0].kind, Defined(steps[0], c).child;
              var next := if child != [] then child else [Step(0, End, [])];
              && Taken(steps[0], c, child)
              && r.sent == if k in {Email, WebPush, MobilePush, Sms, Whatsapp, RandomMessage, RandomPush}
                           then [Send(next)]
                           else if k.Wait? then [Delay(k.minutes.value, next)]
                           else if k in {AddTag, RemoveTag} then [Tag, Trigger(next)]
                           else if k == HttpRequest then [Trigger(next), Http]
                           else [Trigger(next)]
  {
    if steps != [] { OneContinuation(steps, c); }
    if steps == [] { return Threw; }
    var step := DefinedStep(steps[0], c);
    if c.fails { return Threw; }
    var next := NextSteps(step);
    match step.kind
    case Email => r := Handled([Send(next)]);
    case RandomMessage => r := Handled([Send(next)]);
    case WebPush => r := Handled([Send(next)]);
    case MobilePush => r := Handled([Send(next)]);
    case RandomPush => r := Handled([Send(next)]);
    case Sms => r := Handled([Send(next)]);
    case Whatsapp => r := Handled([Send(next)]);
    case Wait(minutes) =>
      if minutes.None? { return Threw; }
      r := Handled([Delay(minutes.value, next)]);
    case AddTag => r := Handled([Tag, Trigger(next)]);
    case RemoveTag => r := Handled([Tag, Trigger(next)]);
    case HttpRequest => r := Handled([Trigger(next), Http]);
    case ConditionalTime => r := Handled([Trigger(next)]);
    case Conditional => r := Handled([Trigger(next)]);
    case Split => r := Handled([Trigger(next)]);
    case TestAb(_) => r := Handled([Trigger(next)]);
    case RemoveAutomation => r := Handled([Trigger(next)]);
    case ContactTransfer => r := Handled([Trigger(next)]);
    case UpdateCustomField => r := Handled([Trigger(next)]);
    case End => r := Finished;
    case _ => r := Ignored;
  }

  function Processed(steps: seq<Step>, c: Choice): Outcome {
    if steps == [] || c.fails then Threw
    else
      var step := Defined(steps[0], c);
      var next := NextSteps(step);
      match step.kind
      case Wait(minutes) => if minutes.None? then Threw else Handled([Delay(minutes.value, next)])
      case End => Finished
      case ConditionalTrue => Ignored
      case ConditionalFalse => Ignored
      case Bucket(_) => Ignored
      case Unknown => Ignored
      case AddTag => Handled([Tag, Trigger(next)])
      case RemoveTag => Handled([Tag, Trigger(next)])
      case HttpRequest => Handled([Trigger(next), Http])
      case ConditionalTime => Handled([Trigger(next)])
      case Conditional => Handled([Trigger(next)])
      case Split => Handled([Trigger(next)])
      case TestAb(_) => Handled([Trigger(next)])
      case RemoveAutomation => Handled([Trigger(next)])
      case ContactTransfer => Handled([Trigger(next)])
      case UpdateCustomField => Handled([Trigger(next)])
      case _ => Handled([Send(next)])
  }

  // ---- continuations ----

  function Continues(p: Publication): bool {
    p.Trigger? || p.Send? || p.Delay?
  }

  function Continuations(sent: seq<Publication>): seq<seq<Step>> {
    if sent == [] then []
    else (if Continues(sent[0]) then [sent[0].next] else []) + Continuations(sent[1..])
  }

  /** A step that a message may be at. */
  predicate Runnable(s: Step) {
    s.kind !in {ConditionalTrue, ConditionalFalse, Unknown} && !s.kind.Bucket?
  }

  /** A message that is handled hands on exactly one continuation, the branch taken or END; only END and steps of no
      known type hand on none. */
  lemma {:induction false} OneContinuation(steps: seq<Step>, c: Choice)
    requires steps != []
    ensures match Processed(steps, c)
            case Handled(sent) =>
              Continuations(sent) == [NextSteps(Defined(steps[0], c))] && Runnable(steps[0]) && steps[0].kind != End
            case Finished => steps[0].kind == End
            case Ignored => !Runnable(steps[0])
            case Threw => c.fails || steps[0].kind == Wait(None)
  {
    var next := NextSteps(Defined(steps[0], c));
    OnePublication(Send(next));
    OnePublication(Trigger(next));
    OnePublication(Http);
    if steps[0].kind.Wait? && steps[0].kind.minutes.Some? {
      OnePublication(Delay(steps[0].kind.minutes.value, next));
    }
    FirstPublication(Tag, [Trigger(next)]);
    FirstPublication(Trigger(next), [Http]);
  }

  lemma {:induction false} FirstPublication(p: Publication, rest: seq<Publication>)
    ensures Continuations([p] + rest) == (if Continues(p) then [p.next] else []) + Continuations(rest)
  {
    assert ([p] + rest)[1..] == rest;
  }

  lemma {:induction false} OnePublication(p: Publication)
    ensures Continuations([p]) == if Continues(p) then [p.next] else []
  {
    assert [p][1..] == [] && Continuations([]) == [];
  }

  // ---- splits ----

  function Total(buckets: seq<Step>, i: nat): nat
    requires i <= |buckets|
  {
    if i == 0 then 0 else Total(buckets, i - 1) + Value(buckets[i - 1])
  }

  lemma {:induction false} TotalMonotone(buckets: seq<Step>, i: nat, n: nat)
    requires i <= n <= |buckets|
    ensures Total(buckets, i) <= Total(buckets, n)
  {
    if i < n {
      TotalMonotone(buckets, i, n - 1);
    }
  }

  lemma {:induction false} PickFrom(buckets: seq<Step>, draw: nat, i: nat)
    requires i <= |buckets|
    ensures var r := PickSplit(buckets, draw, Total(buckets, i), i);
            && (r.Some? <==> i < |buckets| && draw <= Total(buckets, |buckets|))
            && (r.Some? ==> i <= r.value < |buckets| && draw <= Total(buckets, r.value + 1)
                            && (forall j | i < j <= r.value :: Total(buckets, j) < draw))
    decreases |buckets| - i
  {
    if i < |buckets| {
      TotalMonotone(buckets, i + 1, |buckets|);
      PickFrom(buckets, draw, i + 1);
      if draw > Total(buckets, i + 1) && i + 1 == |buckets| {
        assert PickSplit(buckets, draw, Total(buckets, i + 1), i + 1) == None;
      }
    }
  }

  predicate Picks(buckets: seq<Step>, draw: nat) {
    PickSplit(buckets, draw, 0, 0).Some?
  }

  lemma {:induction false} PicksIff(buckets: seq<Step>, draw: nat)
    ensures Picks(buckets, draw) <==> buckets != [] && draw <= Total(buckets, |buckets|)
  {
    assert Total(buckets, 0) == 0;
    PickFrom(buckets, draw, 0);
  }

  /** Every draw from 0 to 100 takes a branch exactly when there is one and the values add up to at least 100. */
  lemma {:induction false} SplitAlwaysPicks(buckets: seq<Step>)
    ensures (forall draw: nat | draw <= 100 :: Picks(buckets, draw)) <==>
              buckets != [] && Total(buckets, |buckets|) >= 100
  {
    forall draw: nat | draw <= 100
      ensures Picks(buckets, draw) <==> buckets != [] && draw <= Total(buckets, |buckets|)
    {
      PicksIff(buckets, draw);
    }
    var all := Picks(buckets, 100);
  }

  /** A draw no branch takes leaves the message with a bucket, which no handler knows: the contact is stuck. */
  lemma {:induction false} ShortSplitSticks(s: Step, c: Choice, then': Choice)
    requires s.kind == Split && s.child != [] && s.child[0].kind.Bucket? && !c.fails && !then'.fails
    requires Total(s.child, |s.child|) < c.draw
    ensures Processed([s], c) == Handled([Trigger(s.child)]) && Processed(s.child, then') == Ignored
  {
    PickFrom(s.child, c.draw, 0);
  }

  // ---- the whole walk ----

  /** A tree of known step types: buckets below splits, whose values add up to 100 at least, branches below
      conditionals, and waits with a time. */
  ghost predicate Good(s: Step)
    decreases s
  {
    && Runnable(s) && s.kind != Wait(None)
    && (if s.kind == Split then
          && (s.child != [] ==> Total(s.child, |s.child|) >= 100)
          && forall i | 0 <= i < |s.child| :: s.child[i].kind.Bucket? && AllGood(s.child[i].child)
        else if s.kind == Conditional then forall i | 0 <= i < |s.child| :: AllGood(s.child[i].child)
        else AllGood(s.child))
  }

  ghost predicate AllGood(ss: seq<Step>)
    decreases ss
  {
    forall i | 0 <= i < |ss| :: Good(ss[i])
  }

  /** The height of a tree of steps, a test counted twice because it becomes a test and an email. An END is due behind
      every leaf. */
  function Height(s: Step): nat
    decreases s
  {
    if s.kind == End then 1 else (if s.kind.TestAb? then 2 else 1) + Tallest(s.child, |s.child|)
  }

  function Tallest(ss: seq<Step>, n: nat): (h: nat)
    requires n <= |ss|
    ensures h >= 1
    decreases ss, n
  {
    if n == 0 then 1
    else
      var h, t := Height(ss[n - 1]), Tallest(ss, n - 1);
      if h > t then h else t
  }

  lemma {:induction false} TallestAt(ss: seq<Step>, i: nat, n: nat)
    requires i < n <= |ss|
    ensures Height(ss[i]) <= Tallest(ss, n)
  {
    if i < n - 1 {
      TallestAt(ss, i, n - 1);
    }
  }

  /** How many messages a walk from here takes at most. */
  function Bound(steps: seq<Step>): nat {
    Tallest(steps, |steps|)
  }

  lemma {:induction false} FindIn(ss: seq<Step>, kind: Kind) returns (i: nat)
    requires Find(ss, kind).Some?
    ensures i < |ss| && Find(ss, kind) == Some(ss[i]) && ss[i].kind == kind
  {
    if ss[0].kind == kind {
      i := 0;
    } else {
      i := FindIn(ss[1..], kind);
      i := i + 1;
    }
  }

  ghost predicate Fair(c: Choice) {
    c.draw <= 100 && !c.fails
  }

  ghost predicate Shorter(s: Step, c: Choice) {
    AllGood(NextSteps(Defined(s, c))) && Bound(NextSteps(Defined(s, c))) < Height(s)
  }

  lemma {:induction false} SplitShorter(s: Step, c: Choice)
    requires Good(s) && Fair(c) && s.kind == Split
    ensures Shorter(s, c)
  {
    if s.child != [] {
      PicksIff(s.child, c.draw);
      PickFrom(s.child, c.draw, 0);
      assert Total(s.child, 0) == 0;
      var i := PickSplit(s.child, c.draw, 0, 0).value;
      TallestAt(s.child, i, |s.child|);
      NextBound(s.child[i].child);
    } else {
      NextBound([]);
    }
  }

  lemma {:induction false} ConditionalShorter(s: Step, c: Choice)
    requires Good(s) && s.kind == Conditional
    ensures Shorter(s, c)
  {
    var kind := if c.holds then ConditionalTrue else ConditionalFalse;
    if Find(s.child, kind).Some? {
      var i := FindIn(s.child, kind);
      TallestAt(s.child, i, |s.child|);
      NextBound(s.child[i].child);
    } else {
      NextBound([]);
    }
  }

  lemma {:induction false} TestShorter(s: Step, c: Choice)
    requires Good(s) && s.kind.TestAb?
    ensures Shorter(s, c)
  {
    var email := Step(s.id, Email, s.child);
    NextBound(s.child);
    OneTallest(email);
    assert Good(email) && AllGood([email]);
  }

  /** The continuation of a good step is good and shorter. */
  lemma {:induction false} BranchShorter(s: Step, c: Choice)
    requires Good(s) && Fair(c) && s.kind != End
    ensures Shorter(s, c)
  {
    if s.kind == Split {
      SplitShorter(s, c);
    } else if s.kind == Conditional {
      ConditionalShorter(s, c);
    } else if s.kind.TestAb? {
      TestShorter(s, c);
    } else {
      NextBound(s.child);
    }
  }

  /** Behind a leaf comes END. */
  lemma {:induction false} NextBound(child: seq<Step>)
    requires AllGood(child)
    ensures var next := if child != [] then child else [Step(0, End, [])];
            AllGood(next) && Bound(next) == Bound(child)
  {
    var end := Step(0, End, []);
    assert AllGood([]) && Good(end);
    OneTallest(end);
  }

  lemma {:induction false} OneTallest(s: Step)
    ensures Bound([s]) == Height(s)
  {
    assert Height(s) >= 1 && Tallest([s], 0) == 1;
  }

  datatype Progress = Done | Pending(steps: seq<Step>) | Stopped

  /** The messages of one contact, one after the other. */
  function Run(steps: seq<Step>, cs: seq<Choice>): Progress
    decreases cs
  {
    if cs == [] then Pending(steps)
    else match Processed(steps, cs[0])
      case Handled(_) => Run(NextSteps(Defined(steps[0], cs[0])), cs[1..])
      case Finished => Done
      case _ => Stopped
  }

  /** Whatever is drawn, tested and picked on the way, a contact walks a good tree to its END, within as many messages
      as the tree is high. */
  lemma {:induction false} ReachesEnd(steps: seq<Step>, cs: seq<Choice>)
    requires steps != [] && AllGood(steps) && forall i | 0 <= i < |cs| :: Fair(cs[i])
    ensures !Run(steps, cs).Stopped?
    ensures |cs| >= Bound(steps) ==> Run(steps, cs) == Done
    decreases cs
  {
    if cs != [] {
      var s, c := steps[0], cs[0];
      assert Good(s);
      TallestAt(steps, 0, |steps|);
      OneContinuation(steps, c);
      if s.kind != End {
        var next := NextSteps(Defined(s, c));
        BranchShorter(s, c);
        ReachesEnd(next, cs[1..]);
      }
    }
  }

  /** The lists of steps a contact's messages carry, one after the other: each hands on the branch taken, or END. */
  ghost predicate Trail(trail: seq<seq<Step>>, cs: seq<Choice>) {
    && 0 < |trail| <= |cs| && (forall i | 0 <= i < |trail| :: trail[i] != [])
    && forall i | 0 <= i < |trail| - 1 :: HandsOn(trail[i][0], cs[i], trail[i + 1])
  }

  ghost predicate HandsOn(s: Step, c: Choice, next: seq<Step>) {
    && Runnable(s) && s.kind != End && !c.fails
    && if next == [Step(0, End, [])] then Taken(s, c, []) || Taken(s, c, next) else Taken(s, c, next)
  }

  /** A walk that is done has gone that way, step by step, to an END. */
  lemma {:induction false} DoneAtEnd(steps: seq<Step>, cs: seq<Choice>) returns (trail: seq<seq<Step>>)
    requires steps != [] && Run(steps, cs) == Done
    ensures Trail(trail, cs) && trail[0] == steps && trail[|trail| - 1][0].kind == End
    decreases cs
  {
    var s, c := steps[0], cs[0];
    OneContinuation(steps, c);
    if s.kind == End {
      trail := [steps];
    } else {
      var rest := DoneAtEnd(NextSteps(Defined(s, c)), cs[1..]);
      trail := [steps] + rest;
      DefinedTaken(s, c);
      assert HandsOn(s, c, rest[0]);
      forall i | 0 <= i < |trail| - 1 ensures HandsOn(trail[i][0], cs[i], trail[i + 1]) {
        if i > 0 {
          assert HandsOn(rest[i - 1][0], cs[1..][i - 1], rest[i]);
        }
      }
    }
  }
}
