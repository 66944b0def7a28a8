/** What copies and dead letters say about handlings is what the handlings were. */
module History {
  import opened Wrappers
  import opened Lineage
  import opened Tally
  import opened Protocol
  import opened Conservation

  // ---- one handling ----

  /** The error a handler that fails with this outcome leaves. */
  predicate FailsWith(outcome: Outcome, error: string) {
    outcome == Throws(error) || (outcome == Nack && error == "handler returned nack")
  }

  /** `r` is `m` after one more failure. */
  predicate Tells(m: Message, r: Message, attempt: int, error: string) {
    && r.id == m.id && r.parses == m.parses && r.origin == m.origin && r.errors == m.errors + [error]
    && r.headers.attempt == Some(attempt)
    && r.headers.firstError == (if m.headers.firstError.Some? then m.headers.firstError else Some(error))
    && r.headers.lastError == Some(error) && r.headers.parseError == m.headers.parseError
  }

  function AttemptOf(m: Message): int {
    if m.headers.attempt.None? || m.headers.attempt.value < 1 then 1 else m.headers.attempt.value
  }

  /** After a failure the message waits for its retry or is on its way to the dead-letter queue, and says so. */
  ghost predicate FailureShown(cfg: Config, s: State, s': State, i: nat, error: string)
    requires i < |s.deliveries|
  {
    var m := s.deliveries[i].msg;
    if AttemptOf(m) < cfg.maxRetries then
      && s'.deliveries == s.deliveries[..i] + s.deliveries[i + 1..]
      && |s'.timers| == |s.timers| + 1 && s'.timers[..|s.timers|] == s.timers
      && s'.timers[|s.timers|].acked == s.channel
      && Tells(m, s'.timers[|s.timers|].next, AttemptOf(m) + 1, error)
    else if s.publishChannel then
      && s'.timers == s.timers && |s'.deliveries| == |s.deliveries|
      && (forall j | 0 <= j < |s.deliveries| && j != i :: s'.deliveries[j] == s.deliveries[j])
      && s'.deliveries[i].msg == m && s'.deliveries[i].phase.Publishing?
      && Tells(m, s'.deliveries[i].phase.letter, AttemptOf(m), error)
    else s'.timers == s.timers && s'.deliveries == s.deliveries[..i] + s.deliveries[i + 1..]
  }

  lemma {:induction false} FailureTold(cfg: Config, s: State, i: nat, outcome: Outcome, error: string)
    requires Enabled(s, HandlerEnds(i, outcome)) && FailsWith(outcome, error)
    ensures FailureShown(cfg, s, Next(cfg, s, HandlerEnds(i, outcome)), i, error)
  {
  }

  /** A handler that is done settles its delivery, which the broker hears of as long as there is a channel. */
  ghost predicate SettledShown(s: State, s': State, i: nat, outcome: Outcome)
    requires i < |s.deliveries|
  {
    var m := s.deliveries[i].msg;
    && s'.deliveries == s.deliveries[..i] + s.deliveries[i + 1..] && s'.timers == s.timers
    && s'.done == s.done + (if s.channel && outcome.Ack? then [m] else [])
    && s'.queue == s.queue + (if s.channel && outcome.Requeue? then [m] else [])
  }

  lemma {:induction false} SettlingTold(cfg: Config, s: State, i: nat, outcome: Outcome)
    requires Enabled(s, HandlerEnds(i, outcome)) && outcome in {Ack, Requeue}
    ensures SettledShown(s, Next(cfg, s, HandlerEnds(i, outcome)), i, outcome)
  {
    assert s.done + [] == s.done && s.queue + [] == s.queue;
  }

  lemma {:induction false} OutcomeTold(cfg: Config, s: State, i: nat, outcome: Outcome)
    requires Enabled(s, HandlerEnds(i, outcome))
    ensures var s' := Next(cfg, s, HandlerEnds(i, outcome));
            && (forall error | FailsWith(outcome, error) :: FailureShown(cfg, s, s', i, error))
            && (outcome in {Ack, Requeue} ==> SettledShown(s, s', i, outcome))
  {
    forall error | FailsWith(outcome, error)
      ensures FailureShown(cfg, s, Next(cfg, s, HandlerEnds(i, outcome)), i, error)
    {
      FailureTold(cfg, s, i, outcome, error);
    }
    if outcome in {Ack, Requeue} {
      SettlingTold(cfg, s, i, outcome);
    }
  }

  /** A message that arrives is handed to the handler or, if it does not parse, on its way to the dead-letter queue
      with nothing but its parse error added. */
  ghost predicate ReceiptShown(s: State, s': State, i: nat, parseError: string)
    requires i < |s.queue|
  {
    var m := s.queue[i];
    && s'.queue == s.queue[..i] + s.queue[i + 1..] && s'.timers == s.timers
    && (m.parses ==> s'.deliveries == s.deliveries + [Delivery(m, Handling)])
    && (!m.parses && s.publishChannel ==>
          |s'.deliveries| == |s.deliveries| + 1 && s'.deliveries[..|s.deliveries|] == s.deliveries
          && s'.deliveries[|s.deliveries|].msg == m && s'.deliveries[|s.deliveries|].phase.Publishing?
          && var letter := s'.deliveries[|s.deliveries|].phase.letter;
             letter.id == m.id && letter.errors == m.errors && letter.headers.parseError == Some(parseError)
             && letter.headers.attempt == m.headers.attempt && letter.headers.firstError == m.headers.firstError
             && letter.headers.lastError == m.headers.lastError)
  }

  lemma {:induction false} ReceiptTold(cfg: Config, s: State, i: nat, parseError: string)
    requires Enabled(s, Deliver(i, parseError))
    ensures ReceiptShown(s, Next(cfg, s, Deliver(i, parseError)), i, parseError)
  {
  }

  // ---- whole runs ----

  /** What event `e` adds to the failures of message `id`. Without a channel the broker has taken the message back, and
      nobody hears how its handling ends. */
  function Failure(s: State, e: Event, id: nat): seq<string>
    requires Enabled(s, e)
  {
    if !s.channel || !e.HandlerEnds? || s.deliveries[e.i].msg.id != id then []
    else match e.outcome
      case Throws(error) => [error]
      case Nack => ["handler returned nack"]
      case _ => []
  }

  ghost function Failures(cfg: Config, s: State, es: seq<Event>, id: nat): seq<string>
    requires Legal(cfg, s, es)
    decreases es
  {
    if es == [] then [] else Failure(s, es[0], id) + Failures(cfg, Next(cfg, s, es[0]), es[1..], id)
  }

  /** Every copy of `id` among `ms` has these errors. */
  ghost predicate Say(ms: seq<Message>, id: nat, errors: seq<string>) {
    forall m <- ms | m.id == id :: m.errors == errors
  }

  ghost predicate DeliverySays(d: Delivery, errors: seq<string>) {
    match d.phase
    case Handling => d.msg.errors == errors
    case Publishing(letter) => letter.errors == errors
    case Stored(letter) => letter.errors == errors
    case Abandoned(_) => true
  }

  ghost predicate Open(s: State) {
    s.channel || s.stage == Idle
  }

  /** Every copy of message `id` that counts has these errors. */
  ghost predicate Told(s: State, id: nat, errors: seq<string>) {
    && Say(s.dlq, id, errors) && Say(s.done, id, errors)
    && (Open(s) ==>
          && Say(s.queue, id, errors) && Say(s.republishing, id, errors)
          && (forall t <- s.timers | t.next.id == id :: t.next.errors == errors)
          && (forall d <- s.deliveries | d.msg.id == id :: DeliverySays(d, errors)))
    && (Sum(s.published, One, id) == 0 ==> errors == [])
  }

  ghost predicate Single(s: State, id: nat) {
    Sum(s.published, One, id) <= 1 && Sum(s.duplicated, One, id) == 0
  }

  lemma {:induction false} NoneCounted<T(!new)>(xs: seq<T>, f: (T, nat) -> nat, id: nat)
    requires Sum(xs, f, id) == 0
    ensures forall x <- xs :: f(x, id) == 0
  {
    if xs != [] {
      NoneCounted(xs[..|xs| - 1], f, id);
      assert xs == xs[..|xs| - 1] + [xs[|xs| - 1]];
    }
  }

  /** The one place of a message that is being handled is its delivery. */
  lemma {:induction false} Alone(s: State, i: nat, id: nat)
    requires s.channel && i < |s.deliveries| && s.deliveries[i].msg.id == id && s.deliveries[i].phase.Handling?
    requires Channels(s) && LettersOk(s) && ConservedFor(s, id) && Single(s, id)
    ensures OnlyHandled(s, i, id)
  {
    SumWithout(s.deliveries, i, Held, id);
    NoneCounted(s.queue, One, id);
    NoneCounted(s.republishing, One, id);
    NoneCounted(s.dlq, One, id);
    NoneCounted(s.done, One, id);
    NoneCounted(s.timers, Waiting, id);
    NoneCounted(Without(s.deliveries, i), Held, id);
    forall d | d in Without(s.deliveries, i) && d.msg.id == id ensures d.phase.Abandoned? {
      assert LetterOk(s, d) && Held(d, id) == 0;
    }
  }

  lemma {:induction false} FailureKeeps(cfg: Config, s: State, i: nat, outcome: Outcome, error: string, id: nat,
                                        errors: seq<string>)
    requires s.channel && Enabled(s, HandlerEnds(i, outcome)) && FailsWith(outcome, error)
    requires s.deliveries[i].msg.id == id && Told(s, id, errors)
    requires Channels(s) && LettersOk(s) && ConservedFor(s, id) && Single(s, id)
    ensures Told(Next(cfg, s, HandlerEnds(i, outcome)), id, errors + [error])
  {
    var m := s.deliveries[i].msg;
    Alone(s, i, id);
    Counted(s, i, id);
    if Gives(cfg, m) {
      LetterTold(s, i, Exhausted(m, error), id, errors + [error]);
    } else {
      RetryTold(s, i, Timer(Retried(cfg, m, error), s.channel), id, errors + [error]);
    }
  }

  /** No copy of `id` but the delivery that is being handled. */
  ghost predicate OnlyHandled(s: State, i: nat, id: nat)
    requires i < |s.deliveries|
  {
    && (forall m | m in s.queue || m in s.republishing || m in s.dlq || m in s.done :: m.id != id)
    && (forall t <- s.timers :: t.next.id != id)
    && forall d | d in Without(s.deliveries, i) && d.msg.id == id :: d.phase.Abandoned?
  }

  lemma {:induction false} LetterTold(s: State, i: nat, letter: Message, id: nat, more: seq<string>)
    requires i < |s.deliveries| && OnlyHandled(s, i, id) && letter.errors == more && s.channel && s.publishChannel
    requires Sum(s.published, One, id) == 1
    ensures Told(StartDlq(s, i, letter), id, more)
  {
    var s' := StartDlq(s, i, letter);
    forall d | d in s'.deliveries && d.msg.id == id ensures DeliverySays(d, more) {
      var j :| 0 <= j < |s'.deliveries| && s'.deliveries[j] == d;
      if j != i {
        OthersWithout(s.deliveries, i, j);
      }
    }
  }

  lemma {:induction false} OthersWithout(ds: seq<Delivery>, i: nat, j: nat)
    requires i < |ds| && j < |ds| && i != j
    ensures ds[j] in Without(ds, i)
  {
    if j < i {
      assert Without(ds, i)[j] == ds[j];
    } else {
      assert Without(ds, i)[j - 1] == ds[j];
    }
  }

  lemma {:induction false} RetryTold(s: State, i: nat, t: Timer, id: nat, more: seq<string>)
    requires i < |s.deliveries| && OnlyHandled(s, i, id) && t.next.errors == more
    requires Sum(s.published, One, id) == 1
    ensures Told(SafeAck(s, i).(timers := s.timers + [t]), id, more)
  {
  }

  /** A message that is being handled has been published. */
  lemma {:induction false} Counted(s: State, i: nat, id: nat)
    requires s.channel && i < |s.deliveries| && s.deliveries[i].msg.id == id && s.deliveries[i].phase.Handling?
    requires ConservedFor(s, id) && Single(s, id)
    ensures Sum(s.published, One, id) == 1
  {
    SumWithout(s.deliveries, i, Held, id);
  }

  lemma {:induction false} HandlerKeepsTold(cfg: Config, s: State, i: nat, outcome: Outcome, id: nat,
                                            errors: seq<string>)
    requires Enabled(s, HandlerEnds(i, outcome)) && Told(s, id, errors)
    requires Channels(s) && LettersOk(s) && ConservedFor(s, id) && Single(s, id)
    ensures Told(Next(cfg, s, HandlerEnds(i, outcome)), id, errors + Failure(s, HandlerEnds(i, outcome), id))
  {
    assert s.deliveries[i] in s.deliveries;
    if s.channel && s.deliveries[i].msg.id == id && outcome.Throws? {
      FailureKeeps(cfg, s, i, outcome, outcome.error, id, errors);
    } else if s.channel && s.deliveries[i].msg.id == id && outcome.Nack? {
      FailureKeeps(cfg, s, i, outcome, "handler returned nack", id, errors);
    } else {
      assert errors + [] == errors;
      OthersKeepTold(cfg, s, i, outcome, id, errors);
    }
  }

  lemma {:induction false} OthersKeepTold(cfg: Config, s: State, i: nat, outcome: Outcome, id: nat,
                                          errors: seq<string>)
    requires Enabled(s, HandlerEnds(i, outcome)) && Told(s, id, errors) && Channels(s)
    requires !s.channel || s.deliveries[i].msg.id != id || outcome in {Ack, Requeue}
    ensures Told(Next(cfg, s, HandlerEnds(i, outcome)), id, errors)
  {
    var s', d := Next(cfg, s, HandlerEnds(i, outcome)), s.deliveries[i];
    assert d in s.deliveries;
    if s.channel {
      forall e <- s'.deliveries | e.msg.id == id ensures DeliverySays(e, errors) {
        assert e in s.deliveries || e.msg == d.msg;
      }
    }
  }

  lemma {:induction false} PublishKeepsTold(cfg: Config, s: State, m: Message, id: nat, errors: seq<string>)
    requires Enabled(s, Publish(m)) && Told(s, id, errors) && Single(Next(cfg, s, Publish(m)), id)
    ensures Told(Next(cfg, s, Publish(m)), id, errors)
  {
    SumOne(s.published, m, One, id);
  }

  lemma {:induction false} LetterKeepsTold(cfg: Config, s: State, e: Event, id: nat, errors: seq<string>)
    requires e.DlqAccepts? || e.DlqConfirms? || e.DlqFails?
    requires Enabled(s, e) && LettersOk(s) && Told(s, id, errors) && Single(Next(cfg, s, e), id)
    ensures Told(Next(cfg, s, e), id, errors)
  {
    var d := s.deliveries[e.i];
    assert d in s.deliveries && LetterOk(s, d);
    if e.DlqAccepts? {
      SumOne(s.duplicated, d.msg, One, id);
    }
  }

  lemma {:induction false} DeliverKeepsTold(cfg: Config, s: State, i: nat, parseError: string, id: nat,
                                            errors: seq<string>)
    requires Enabled(s, Deliver(i, parseError)) && Told(s, id, errors) && Channels(s)
    ensures Told(Next(cfg, s, Deliver(i, parseError)), id, errors)
  {
    var m, s' := s.queue[i], Next(cfg, s, Deliver(i, parseError));
    forall d <- s'.deliveries | d.msg.id == id ensures DeliverySays(d, errors) {
      assert d in s.deliveries || d == s'.deliveries[|s.deliveries|];
    }
  }

  lemma {:induction false} OtherEventKeepsTold(cfg: Config, s: State, e: Event, id: nat, errors: seq<string>)
    requires !e.HandlerEnds? && Channels(s) && LettersOk(s) && Enabled(s, e) && Told(s, id, errors)
    requires Single(Next(cfg, s, e), id)
    ensures Told(Next(cfg, s, e), id, errors)
  {
    if e.Publish? {
      PublishKeepsTold(cfg, s, e.m, id, errors);
    } else if e.Deliver? {
      DeliverKeepsTold(cfg, s, e.i, e.parseError, id, errors);
    } else if e.DlqAccepts? || e.DlqConfirms? || e.DlqFails? {
      LetterKeepsTold(cfg, s, e, id, errors);
    } else {
      RestKeepsTold(cfg, s, e, id, errors);
    }
  }

  lemma {:induction false} StepKeepsTold(cfg: Config, s: State, e: Event, id: nat, errors: seq<string>)
    requires Channels(s) && LettersOk(s) && ConservedFor(s, id) && Enabled(s, e) && Told(s, id, errors)
    requires Single(s, id) && Single(Next(cfg, s, e), id)
    ensures Told(Next(cfg, s, e), id, errors + Failure(s, e, id))
  {
    if e.HandlerEnds? {
      HandlerKeepsTold(cfg, s, e.i, e.outcome, id, errors);
    } else {
      OtherEventKeepsTold(cfg, s, e, id, errors);
      assert errors + [] == errors;
    }
  }

  lemma {:induction false} RestKeepsTold(cfg: Config, s: State, e: Event, id: nat, errors: seq<string>)
    requires !e.HandlerEnds? && !e.Publish? && !e.Deliver? && !e.DlqAccepts? && !e.DlqConfirms? && !e.DlqFails?
    requires Channels(s) && Enabled(s, e) && Told(s, id, errors)
    ensures Told(Next(cfg, s, e), id, errors)
  {
  }

  /** What is published or duplicated stays on the record. */
  lemma {:induction false} StepGrows(cfg: Config, s: State, e: Event, id: nat)
    requires Enabled(s, e)
    ensures Sum(s.published, One, id) <= Sum(Next(cfg, s, e).published, One, id)
    ensures Sum(s.duplicated, One, id) <= Sum(Next(cfg, s, e).duplicated, One, id)
  {
    match e
    case Publish(m) => SumOne(s.published, m, One, id);
    case DlqAccepts(i) => SumOne(s.duplicated, s.deliveries[i].msg, One, id);
    case CloseChannel => SumAppend(s.duplicated, Letters(s.deliveries), One, id);
    case _ => BooksKept(cfg, s, e);
  }

  lemma {:induction false} BooksKept(cfg: Config, s: State, e: Event)
    requires Enabled(s, e) && !e.Publish? && !e.DlqAccepts? && !e.CloseChannel?
    ensures Next(cfg, s, e).published == s.published && Next(cfg, s, e).duplicated == s.duplicated
  {
  }

  lemma {:induction false} SingleBefore(cfg: Config, s: State, es: seq<Event>, id: nat)
    requires Legal(cfg, s, es) && Single(Run(cfg, s, es), id)
    ensures Single(s, id)
    decreases es
  {
    if es != [] {
      SingleBefore(cfg, Next(cfg, s, es[0]), es[1..], id);
      StepGrows(cfg, s, es[0], id);
    }
  }

  lemma {:induction false} MoreFailures(errors: seq<string>, first: seq<string>, later: seq<string>)
    ensures errors + (first + later) == errors + first + later
  {
  }

  lemma {:induction false} RunKeepsTold(cfg: Config, s: State, es: seq<Event>, id: nat, errors: seq<string>)
    requires Invariant(cfg, s) && Legal(cfg, s, es) && Told(s, id, errors) && Single(Run(cfg, s, es), id)
    ensures Told(Run(cfg, s, es), id, errors + Failures(cfg, s, es, id))
    decreases es
  {
    if es == [] {
      assert errors + [] == errors;
    } else {
      var next, first := Next(cfg, s, es[0]), Failure(s, es[0], id);
      SingleBefore(cfg, s, es, id);
      SingleBefore(cfg, next, es[1..], id);
      StepKeepsInvariant(cfg, s, es[0]);
      assert ConservedFor(s, id);
      StepKeepsTold(cfg, s, es[0], id, errors);
      RunKeepsTold(cfg, next, es[1..], id, errors + first);
      MoreFailures(errors, first, Failures(cfg, next, es[1..], id));
    }
  }

  /** A dead letter of a message published once and never duplicated lists the failures of its handlings, in the order
      of the events; its headers carry the first of them, unless it was published with one, and the last. */
  lemma {:induction false} DeadLetterHistory(cfg: Config, es: seq<Event>, m: Message)
    requires Legal(cfg, Init(), es) && m in Run(cfg, Init(), es).dlq
    requires Single(Run(cfg, Init(), es), m.id)
    ensures var errors := Failures(cfg, Init(), es, m.id);
            && m.errors == errors
            && (errors != [] ==>
                  && m.headers.firstError ==
                     (if m.origin.firstError.Some? then m.origin.firstError else Some(errors[0]))
                  && m.headers.lastError == Some(errors[|errors| - 1]))
  {
    var errors := Failures(cfg, Init(), es, m.id);
    InvariantInitially(cfg);
    RunKeepsTold(cfg, Init(), es, m.id, []);
    assert [] + errors == errors;
    DeadLettersTell(cfg, es, m);
    RunKeepsInvariant(cfg, Init(), es);
    assert DeadLetter(cfg, m);
  }
}
