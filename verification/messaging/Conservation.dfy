/** No run of the consumer loses or duplicates a message unnoticed. */
module Conservation {
  import opened Wrappers
  import opened Backoff
  import opened Lineage
  import opened Tally
  import opened Protocol

  // ---- channels ----

  lemma {:induction false} StepKeepsChannels(cfg: Config, s: State, e: Event)
    requires Channels(s) && Enabled(s, e)
    ensures Channels(Next(cfg, s, e))
  {
  }

  // ---- letters ----

  ghost predicate LetterOk(s: State, d: Delivery) {
    && (d.phase.Publishing? || d.phase.Stored? ==> d.phase.letter.id == d.msg.id)
    && (d.phase.Stored? ==> d.phase.letter in s.dlq)
  }

  ghost predicate LettersOk(s: State) {
    forall d <- s.deliveries :: LetterOk(s, d)
  }

  lemma {:induction false} StepKeepsLetters(cfg: Config, s: State, e: Event)
    requires LettersOk(s) && Enabled(s, e)
    ensures LettersOk(Next(cfg, s, e))
  {
    var s' := Next(cfg, s, e);
    forall d <- s'.deliveries ensures LetterOk(s', d) {
      if d in s.deliveries {
        assert LetterOk(s, d);
        DlqGrows(cfg, s, e, d);
      } else if e.DlqFails? || e.DlqAccepts? {
        assert LetterOk(s, s.deliveries[e.i]);
      } else {
        NewDeliveries(cfg, s, e, d);
      }
    }
  }

  lemma {:induction false} DlqGrows(cfg: Config, s: State, e: Event, d: Delivery)
    requires Enabled(s, e) && LetterOk(s, d)
    ensures LetterOk(Next(cfg, s, e), d)
  {
    assert forall m :: m in s.dlq ==> m in Next(cfg, s, e).dlq;
  }

  /** Only a message just received, or one just sent to the dead-letter queue, is a delivery that was not there. */
  ghost predicate JustStarted(d: Delivery) {
    d.phase.Handling? || (d.phase.Publishing? && d.phase.letter.id == d.msg.id)
  }

  lemma {:induction false} NewFromDlq(s: State, i: nat, letter: Message, d: Delivery)
    requires i < |s.deliveries| && letter.id == s.deliveries[i].msg.id
    requires d in StartDlq(s, i, letter).deliveries && d !in s.deliveries
    ensures JustStarted(d)
  {
  }

  lemma {:induction false} NewFromReceive(s: State, i: nat, parseError: string, d: Delivery)
    requires i < |s.queue| && d in Receive(s, i, parseError).deliveries && d !in s.deliveries
    ensures JustStarted(d)
  {
    var m := s.queue[i];
    var s' := s.(queue := Without(s.queue, i), deliveries := s.deliveries + [Delivery(m, Handling)]);
    if !m.parses && d !in s'.deliveries {
      NewFromDlq(s', |s.deliveries|, Unparsable(m, parseError), d);
    }
  }

  lemma {:induction false} NewFromHandler(cfg: Config, s: State, i: nat, error: string, d: Delivery)
    requires i < |s.deliveries| && d in RetryOrDlq(cfg, s, i, error).deliveries && d !in s.deliveries
    ensures JustStarted(d)
  {
    var m := s.deliveries[i].msg;
    if Gives(cfg, m) {
      NewFromDlq(s, i, Exhausted(m, error), d);
    }
  }

  lemma {:induction false} NewDeliveries(cfg: Config, s: State, e: Event, d: Delivery)
    requires Enabled(s, e) && !e.DlqFails? && !e.DlqAccepts?
    requires d in Next(cfg, s, e).deliveries && d !in s.deliveries
    ensures JustStarted(d)
  {
    match e
    case Deliver(i, parseError) => NewFromReceive(s, i, parseError, d);
    case HandlerEnds(i, Throws(error)) => NewFromHandler(cfg, s, i, error, d);
    case HandlerEnds(i, Nack) => NewFromHandler(cfg, s, i, "handler returned nack", d);
    case _ =>
  }

  // ---- conservation ----

  lemma {:induction false} DeliveryEnds(s: State, i: nat, id: nat)
    requires i < |s.deliveries|
    ensures Sum(s.deliveries, Held, id) == Sum(SafeAck(s, i).deliveries, Held, id) + Held(s.deliveries[i], id)
  {
    SumWithout(s.deliveries, i, Held, id);
  }

  lemma {:induction false} DeliveryMoves(s: State, i: nat, phase: Phase, id: nat)
    requires i < |s.deliveries|
    ensures var d := s.deliveries[i].(phase := phase);
            Sum(s.deliveries[i := d], Held, id) + Held(s.deliveries[i], id) == Sum(s.deliveries, Held, id) + Held(d, id)
  {
    SumUpdate(s.deliveries, i, s.deliveries[i].(phase := phase), Held, id);
  }

  /** A dead-letter publish moves nothing yet. */
  lemma {:induction false} StartDlqConserves(s: State, i: nat, letter: Message, id: nat)
    requires Channels(s) && i < |s.deliveries| && !s.deliveries[i].InDlq()
    ensures Places(StartDlq(s, i, letter), id) == Places(s, id) && StartDlq(s, i, letter).duplicated == s.duplicated
    ensures StartDlq(s, i, letter).published == s.published
  {
    if s.publishChannel {
      DeliveryMoves(s, i, Publishing(letter), id);
    } else {
      DeliveryEnds(s, i, id);
    }
  }

  lemma {:induction false} SettleConserves(s: State, i: nat, outcome: Outcome, id: nat)
    requires i < |s.deliveries| && outcome in {Ack, Requeue} && s.deliveries[i].phase.Handling?
    ensures Places(Settle(s, i, outcome), id) == Places(s, id)
  {
    DeliveryEnds(s, i, id);
    SumOne(s.done, s.deliveries[i].msg, One, id);
    SumOne(s.queue, s.deliveries[i].msg, One, id);
  }

  lemma {:induction false} RetryConserves(cfg: Config, s: State, i: nat, error: string, id: nat)
    requires Channels(s) && i < |s.deliveries| && s.deliveries[i].phase.Handling?
    ensures Places(RetryOrDlq(cfg, s, i, error), id) == Places(s, id)
  {
    var m := s.deliveries[i].msg;
    if Gives(cfg, m) {
      StartDlqConserves(s, i, Exhausted(m, error), id);
    } else {
      DeliveryEnds(s, i, id);
      SumOne(s.timers, Timer(Retried(cfg, m, error), s.channel), Waiting, id);
    }
  }

  lemma {:induction false} ReceiveConserves(s: State, i: nat, parseError: string, id: nat)
    requires Channels(s) && s.channel && i < |s.queue|
    ensures Places(Receive(s, i, parseError), id) == Places(s, id)
  {
    var m := s.queue[i];
    var s' := s.(queue := Without(s.queue, i), deliveries := s.deliveries + [Delivery(m, Handling)]);
    SumWithout(s.queue, i, One, id);
    SumOne(s.deliveries, Delivery(m, Handling), Held, id);
    if !m.parses {
      StartDlqConserves(s', |s.deliveries|, Unparsable(m, parseError), id);
    }
  }

  lemma {:induction false} StoreConserves(s: State, i: nat, id: nat)
    requires i < |s.deliveries| && s.deliveries[i].phase.Publishing? && LetterOk(s, s.deliveries[i])
    requires ConservedFor(s, id)
    ensures ConservedFor(StoreLetter(s, i), id)
  {
    var d := s.deliveries[i];
    SumOne(s.dlq, d.phase.letter, One, id);
    SumOne(s.duplicated, d.msg, One, id);
    DeliveryMoves(s, i, Stored(d.phase.letter), id);
  }

  lemma {:induction false} AckedSum(ts: seq<Timer>, id: nat)
    ensures Sum(Acked(ts), One, id) == Sum(ts, Waiting, id)
  {
    if ts != [] {
      var rest, t := ts[..|ts| - 1], ts[|ts| - 1];
      AckedSum(rest, id);
      SumOne(Acked(rest), t.next, One, id);
      assert Acked(rest) + [] == Acked(rest);
    }
  }

  lemma {:induction false} MessagesSum(ds: seq<Delivery>, id: nat)
    ensures Sum(Messages(ds), One, id) == Sum(ds, Held, id) + Sum(Letters(ds), One, id)
  {
    if ds != [] {
      var rest, d := ds[..|ds| - 1], ds[|ds| - 1];
      MessagesSum(rest, id);
      SumOne(Messages(rest), d.msg, One, id);
      SumOne(Letters(rest), d.msg, One, id);
      assert Letters(rest) + [] == Letters(rest);
    }
  }

  lemma {:induction false} DropConserves(s: State, id: nat)
    requires s.channel && ConservedFor(s, id)
    ensures ConservedFor(DropChannel(s), id)
  {
    SumAppend(s.queue, Messages(s.deliveries), One, id);
    SumAppend(s.duplicated, Letters(s.deliveries), One, id);
    MessagesSum(s.deliveries, id);
  }

  lemma {:induction false} FireConserves(s: State, i: nat, id: nat)
    requires Channels(s) && i < |s.timers| && (s.timers[i].acked || ShuttingDown(s))
    ensures Places(FireTimer(s, i), id) == Places(s, id)
  {
    SumWithout(s.timers, i, Waiting, id);
    SumOne(s.lost, s.timers[i].next, One, id);
    SumOne(s.republishing, s.timers[i].next, One, id);
  }

  lemma {:induction false} RepublishConserves(cfg: Config, s: State, e: Event, id: nat)
    requires e.RepublishAccepted? || e.RepublishFails?
    requires Enabled(s, e)
    ensures Places(Next(cfg, s, e), id) == Places(s, id)
  {
    SumWithout(s.republishing, e.i, One, id);
    SumOne(s.queue, s.republishing[e.i], One, id);
    SumOne(s.lost, s.republishing[e.i], One, id);
  }

  lemma {:induction false} LetterConserves(cfg: Config, s: State, e: Event, id: nat)
    requires e.DlqAccepts? || e.DlqConfirms? || e.DlqFails?
    requires LettersOk(s) && ConservedFor(s, id) && Enabled(s, e)
    ensures ConservedFor(Next(cfg, s, e), id)
  {
    match e
    case DlqAccepts(i) => StoreConserves(s, i, id);
    case DlqConfirms(i) => DeliveryEnds(s, i, id);
    case DlqFails(i) => DeliveryMoves(s, i, Abandoned(s.deliveries[i].phase.Stored?), id);
  }

  lemma {:induction false} HandlerConserves(cfg: Config, s: State, i: nat, outcome: Outcome, id: nat)
    requires Channels(s) && i < |s.deliveries| && s.deliveries[i].phase.Handling?
    ensures Places(EndHandler(cfg, s, i, outcome), id) == Places(s, id)
  {
    match outcome
    case Throws(error) => RetryConserves(cfg, s, i, error, id);
    case Nack => RetryConserves(cfg, s, i, "handler returned nack", id);
    case _ => SettleConserves(s, i, outcome, id);
  }

  lemma {:induction false} ShutdownConserves(cfg: Config, s: State, e: Event, id: nat)
    requires e in {Shutdown, Cancelled, DrainEnds, DrainTimeout, CloseChannel, ClosePublishChannel, CloseConnection}
    requires ConservedFor(s, id) && Enabled(s, e)
    ensures ConservedFor(Next(cfg, s, e), id)
  {
    if e.DrainTimeout? {
      AckedSum(s.timers, id);
      SumAppend(s.lost, Acked(s.timers), One, id);
    } else if e.CloseChannel? {
      DropConserves(s, id);
    }
  }

  lemma {:induction false} StartConserves(cfg: Config, s: State, e: Event, id: nat)
    requires e.Publish? || e.Consume?
    requires Channels(s) && ConservedFor(s, id) && Enabled(s, e)
    ensures ConservedFor(Next(cfg, s, e), id)
  {
    if e.Publish? {
      SumOne(s.queue, e.m, One, id);
      SumOne(s.published, e.m, One, id);
    }
  }

  predicate Moves(e: Event) {
    e.Deliver? || e.HandlerEnds? || e.TimerFires? || e.RepublishAccepted? || e.RepublishFails?
  }

  lemma {:induction false} MovesConserve(cfg: Config, s: State, e: Event, id: nat)
    requires Moves(e) && Channels(s) && Enabled(s, e)
    ensures Places(Next(cfg, s, e), id) == Places(s, id)
  {
    match e
    case Deliver(i, parseError) => ReceiveConserves(s, i, parseError, id);
    case HandlerEnds(i, outcome) => HandlerConserves(cfg, s, i, outcome, id);
    case TimerFires(i) => FireConserves(s, i, id);
    case _ => RepublishConserves(cfg, s, e, id);
  }

  lemma {:induction false} MovesKeepBooks(cfg: Config, s: State, e: Event)
    requires Moves(e) && Enabled(s, e)
    ensures Next(cfg, s, e).published == s.published && Next(cfg, s, e).duplicated == s.duplicated
  {
  }

  /** Every step keeps the books. */
  lemma {:induction false} StepConserves(cfg: Config, s: State, e: Event, id: nat)
    requires Channels(s) && LettersOk(s) && ConservedFor(s, id) && Enabled(s, e)
    ensures ConservedFor(Next(cfg, s, e), id)
  {
    if Moves(e) {
      MovesConserve(cfg, s, e, id);
      MovesKeepBooks(cfg, s, e);
    } else if e.DlqAccepts? || e.DlqConfirms? || e.DlqFails? {
      LetterConserves(cfg, s, e, id);
    } else if e.Publish? || e.Consume? {
      StartConserves(cfg, s, e, id);
    } else {
      ShutdownConserves(cfg, s, e, id);
    }
  }

  // ---- what headers say ----

  ghost predicate AllCirculate(cfg: Config, ms: seq<Message>) {
    forall m <- ms :: Circulating(cfg, m)
  }

  ghost predicate DeliveryOk(cfg: Config, d: Delivery) {
    && Circulating(cfg, d.msg)
    && (d.phase.Handling? ==> d.msg.parses)
    && (d.phase.Publishing? || d.phase.Stored? ==> DeadLetter(cfg, d.phase.letter))
  }

  ghost predicate Retries(cfg: Config, s: State) {
    && AllCirculate(cfg, s.queue) && AllCirculate(cfg, s.republishing) && AllCirculate(cfg, s.done)
    && (forall d <- s.deliveries :: DeliveryOk(cfg, d))
    && (forall t <- s.timers :: Circulating(cfg, t.next))
    && (forall m <- s.dlq :: DeadLetter(cfg, m))
  }

  lemma {:induction false} OriginalCirculates(cfg: Config, m: Message)
    requires Original(m)
    ensures Circulating(cfg, m)
  {
  }

  lemma {:induction false} MessagesCirculate(cfg: Config, ds: seq<Delivery>)
    requires forall d <- ds :: DeliveryOk(cfg, d)
    ensures AllCirculate(cfg, Messages(ds))
  {
    if ds != [] {
      MessagesCirculate(cfg, ds[..|ds| - 1]);
      assert DeliveryOk(cfg, ds[|ds| - 1]);
    }
  }

  lemma {:induction false} StepKeepsRetries(cfg: Config, s: State, e: Event)
    requires Retries(cfg, s) && Enabled(s, e)
    ensures Retries(cfg, Next(cfg, s, e))
  {
    match e
    case Publish(m) => OriginalCirculates(cfg, m);
    case Deliver(i, parseError) => ReceiveKeepsRetries(cfg, s, i, parseError);
    case HandlerEnds(i, outcome) =>
      assert DeliveryOk(cfg, s.deliveries[i]);
      match outcome {
        case Throws(error) => RetryKeepsRetries(cfg, s, i, error);
        case Nack => RetryKeepsRetries(cfg, s, i, "handler returned nack");
        case _ =>
      }
    case DlqAccepts(i) => assert DeliveryOk(cfg, s.deliveries[i]);
    case DlqFails(i) => assert DeliveryOk(cfg, s.deliveries[i]);
    case TimerFires(i) => assert Circulating(cfg, s.timers[i].next);
    case RepublishAccepted(i) => assert Circulating(cfg, s.republishing[i]);
    case CloseChannel => MessagesCirculate(cfg, s.deliveries);
    case _ =>
  }

  lemma {:induction false} ReceiveKeepsRetries(cfg: Config, s: State, i: nat, parseError: string)
    requires Retries(cfg, s) && i < |s.queue|
    ensures Retries(cfg, Receive(s, i, parseError))
  {
    assert Circulating(cfg, s.queue[i]);
    assert !s.queue[i].parses ==> DeadLetter(cfg, Unparsable(s.queue[i], parseError));
  }

  lemma {:induction false} RetryKeepsRetries(cfg: Config, s: State, i: nat, error: string)
    requires Retries(cfg, s) && i < |s.deliveries| && s.deliveries[i].phase.Handling?
    ensures Retries(cfg, RetryOrDlq(cfg, s, i, error))
  {
    var m := s.deliveries[i].msg;
    assert DeliveryOk(cfg, s.deliveries[i]);
    if Gives(cfg, m) {
      ExhaustedIsDead(cfg, m, error);
    } else {
      RetriedCirculates(cfg, m, error);
    }
  }

  // ---- over whole runs ----

  ghost predicate Invariant(cfg: Config, s: State) {
    Channels(s) && LettersOk(s) && Conserved(s) && Retries(cfg, s)
  }

  lemma {:induction false} InvariantInitially(cfg: Config)
    ensures Invariant(cfg, Init())
  {
  }

  lemma {:induction false} StepKeepsInvariant(cfg: Config, s: State, e: Event)
    requires Invariant(cfg, s) && Enabled(s, e)
    ensures Invariant(cfg, Next(cfg, s, e))
  {
    StepKeepsChannels(cfg, s, e);
    StepKeepsLetters(cfg, s, e);
    forall id ensures ConservedFor(Next(cfg, s, e), id) {
      assert ConservedFor(s, id);
      StepConserves(cfg, s, e, id);
    }
    StepKeepsRetries(cfg, s, e);
  }

  /** In every reachable state each message is where it should be, and its headers tell its story. */
  lemma {:induction false} RunKeepsInvariant(cfg: Config, s: State, es: seq<Event>)
    requires Invariant(cfg, s) && Legal(cfg, s, es)
    ensures Invariant(cfg, Run(cfg, s, es))
    decreases es
  {
    if es != [] {
      StepKeepsInvariant(cfg, s, es[0]);
      RunKeepsInvariant(cfg, Next(cfg, s, es[0]), es[1..]);
    }
  }

  /** A message published once is in exactly one place, unless it was duplicated on the record. */
  lemma {:induction false} ExactlyOnePlace(cfg: Config, es: seq<Event>, id: nat)
    requires Legal(cfg, Init(), es)
    requires var s := Run(cfg, Init(), es); Sum(s.published, One, id) == 1 && Sum(s.duplicated, One, id) == 0
    ensures Places(Run(cfg, Init(), es), id) == 1
  {
    InvariantInitially(cfg);
    RunKeepsInvariant(cfg, Init(), es);
    assert ConservedFor(Run(cfg, Init(), es), id);
  }

  /** A message is lost exactly when shutdown drops its retry timer or when its republish fails. */
  lemma {:induction false} LossesIff(cfg: Config, s: State, e: Event)
    requires Invariant(cfg, s) && Enabled(s, e)
    ensures Next(cfg, s, e).lost != s.lost <==>
            || (e.TimerFires? && ShuttingDown(s) && s.timers[e.i].acked)
            || (e == DrainTimeout && exists t <- s.timers :: t.acked)
            || e.RepublishFails?
  {
    if e == DrainTimeout {
      AckedEmpty(s.timers);
    }
  }

  lemma {:induction false} AckedEmpty(ts: seq<Timer>)
    ensures Acked(ts) == [] <==> forall t <- ts :: !t.acked
  {
    if ts != [] {
      AckedEmpty(ts[..|ts| - 1]);
      assert ts == ts[..|ts| - 1] + [ts[|ts| - 1]];
    }
  }

  /** The republish and the dead-letter publish always find their channel when it matters: their guards against a
      missing one never drop a message. */
  lemma {:induction false} ChannelAlwaysThere(cfg: Config, s: State, e: Event)
    requires Invariant(cfg, s) && Enabled(s, e)
    ensures e.TimerFires? && !ShuttingDown(s) ==> s.publishChannel
    ensures e.HandlerEnds? && s.channel ==> s.publishChannel
  {
  }

  /** A message gets a second copy exactly when the channel closes on a letter that is stored but not yet acked, or when
      a letter is stored after the channel is gone. */
  lemma {:induction false} DuplicatesIff(cfg: Config, s: State, e: Event)
    requires Enabled(s, e)
    ensures Next(cfg, s, e).duplicated != s.duplicated <==>
            || (e == CloseChannel && exists d <- s.deliveries :: d.InDlq())
            || (e.DlqAccepts? && !s.channel)
  {
    if e == CloseChannel {
      LettersEmpty(s.deliveries);
    }
  }

  lemma {:induction false} LettersEmpty(ds: seq<Delivery>)
    ensures Letters(ds) == [] <==> forall d <- ds :: !d.InDlq()
  {
    if ds != [] {
      LettersEmpty(ds[..|ds| - 1]);
      assert ds == ds[..|ds| - 1] + [ds[|ds| - 1]];
    }
  }

  /** While the channel is up a delivery is settled only by an outcome of its handler that leaves the message handled,
      requeued or in a retry timer, or once its letter is in the dead-letter queue. */
  lemma {:induction false} AckedOnlyWhenSafe(cfg: Config, s: State, e: Event)
    requires Invariant(cfg, s) && Enabled(s, e) && s.channel
    requires |Next(cfg, s, e).deliveries| < |s.deliveries|
    ensures match e
            case DlqConfirms(i) => s.deliveries[i].phase.letter in s.dlq
            case HandlerEnds(i, outcome) =>
              var m, s' := s.deliveries[i].msg, Next(cfg, s, e);
              (outcome.Ack? && s'.done == s.done + [m]) || (outcome.Requeue? && s'.queue == s.queue + [m])
              || (!Gives(cfg, m) && |s'.timers| == |s.timers| + 1 && s'.timers[|s.timers|].next.id == m.id)
            case _ => false
  {
    if e.DlqConfirms? {
      assert LetterOk(s, s.deliveries[e.i]);
    }
  }

  /** What a dead letter tells: it was handled exactly as often as allowed and carries its first error. */
  lemma {:induction false} DeadLettersTell(cfg: Config, es: seq<Event>, m: Message)
    requires Legal(cfg, Init(), es) && m in Run(cfg, Init(), es).dlq
    ensures m.parses <==> m.errors != []
    ensures m.parses ==>
              var a := if m.origin.attempt.None? || m.origin.attempt.value < 1 then 1 else m.origin.attempt.value;
              |m.errors| == if a < cfg.maxRetries then cfg.maxRetries - a + 1 else 1
    ensures m.parses ==>
              && |m.errors| == Handlings(cfg, m)
              && m.headers.firstError == Some(Or(m.origin.firstError, m.errors[0]))
    ensures !m.parses ==> m.headers.parseError.Some?
  {
    InvariantInitially(cfg);
    RunKeepsInvariant(cfg, Init(), es);
    assert DeadLetter(cfg, m);
  }

  /** A message handed to its handler has failed fewer times than it may be handled, and its attempt number counts
      those failures. */
  lemma {:induction false} HandledAtMost(cfg: Config, es: seq<Event>, d: Delivery)
    requires Legal(cfg, Init(), es) && d in Run(cfg, Init(), es).deliveries
    ensures |d.msg.errors| < Handlings(cfg, d.msg)
    ensures ParseAttempt(d.msg.headers) == ParseAttempt(d.msg.origin) + |d.msg.errors|
  {
    InvariantInitially(cfg);
    RunKeepsInvariant(cfg, Init(), es);
    assert DeliveryOk(cfg, d);
  }

  /** Every copy of a message there is. */
  ghost predicate Somewhere(s: State, m: Message) {
    || m in s.queue || m in s.republishing || m in s.done || m in s.dlq
    || (exists t <- s.timers :: t.next == m)
    || (exists d <- s.deliveries :: d.msg == m)
  }

  /** In every reachable state the delays behind each message never shrink and never exceed the cap. */
  lemma {:induction false} ReachableDelaysRise(cfg: Config, es: seq<Event>, m: Message, i: nat, j: nat)
    requires Legal(cfg, Init(), es) && Somewhere(Run(cfg, Init(), es), m) && i <= j < |m.delays|
    requires cfg.maxMs >= 0 ==> Finite(cfg.maxMs)
    ensures m.delays[i] <= m.delays[j]
    ensures cfg.baseMs > 0 || cfg.maxMs >= 0 ==> m.delays[j] <= cfg.maxMs
  {
    var s := Run(cfg, Init(), es);
    InvariantInitially(cfg);
    RunKeepsInvariant(cfg, Init(), es);
    if m in s.dlq {
      assert DeadLetter(cfg, m);
    } else if t :| t in s.timers && t.next == m {
      assert Circulating(cfg, t.next);
    } else if d :| d in s.deliveries && d.msg == m {
      assert DeliveryOk(cfg, d);
    } else {
      assert Circulating(cfg, m);
    }
    DelaysRise(cfg, m, i, j);
  }
}
