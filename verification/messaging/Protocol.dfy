/** The consumer, its broker and everything that can happen between them, one step at a time.

    One queue per routing key; no reconnect between a delivery and its settlement. Deliveries still handled after
    the channel is gone are kept in the state, because their handlers go on, but hold no message: the broker has
    put their messages back. */
module Protocol {
  import opened Lineage
  import opened Tally

  /** What a delivery is waiting for. `Abandoned`: its dead-letter publish failed, the message stays unacked. */
  datatype Phase = Handling | Publishing(letter: Message) | Stored(letter: Message) | Abandoned(stored: bool)

  datatype Delivery = Delivery(msg: Message, phase: Phase) {
    predicate InDlq() {
      phase.Stored? || phase == Abandoned(true)
    }

    predicate InFlight() {
      !phase.Abandoned?
    }
  }

  /** A scheduled retry. `acked` is false for a timer set after the channel was gone. */
  datatype Timer = Timer(next: Message, acked: bool)

  /** Where `shutdown` has got to. */
  datatype Stage = Idle | Consuming | Cancelling | Draining | Drained | Closed

  datatype State = State(
    queue: seq<Message>, dlq: seq<Message>, done: seq<Message>, lost: seq<Message>, published: seq<Message>,
    duplicated: seq<Message>, channel: bool, publishChannel: bool, stage: Stage, deliveries: seq<Delivery>,
    timers: seq<Timer>, republishing: seq<Message>)

  datatype Outcome = Ack | Requeue | Nack | Throws(error: string)

  datatype Event =
    | Publish(m: Message)
    | Consume
    | Deliver(i: nat, parseError: string)
    | HandlerEnds(i: nat, outcome: Outcome)
    | DlqAccepts(i: nat)
    | DlqConfirms(i: nat)
    | DlqFails(i: nat)
    | TimerFires(i: nat)
    | RepublishAccepted(i: nat)
    | RepublishFails(i: nat)
    | Shutdown
    | Cancelled
    | DrainEnds
    | DrainTimeout
    | CloseChannel
    | ClosePublishChannel
    | CloseConnection

  function Init(): State {
    State([], [], [], [], [], [], false, false, Idle, [], [], [])
  }

  predicate ShuttingDown(s: State) {
    s.stage !in {Idle, Consuming}
  }

  /** A message as its producer publishes it. */
  predicate Original(m: Message) {
    m.errors == [] && m.delays == [] && m.headers == m.origin
  }

  predicate Enabled(s: State, e: Event) {
    match e
    case Publish(m) => Original(m)
    case Consume => s.stage == Idle
    case Deliver(i, _) => s.channel && s.stage in {Consuming, Cancelling} && i < |s.queue|
    case HandlerEnds(i, _) => i < |s.deliveries| && s.deliveries[i].phase.Handling?
    case DlqAccepts(i) => i < |s.deliveries| && s.deliveries[i].phase.Publishing?
    case DlqConfirms(i) => i < |s.deliveries| && s.deliveries[i].phase.Stored?
    case DlqFails(i) => i < |s.deliveries| && (s.deliveries[i].phase.Publishing? || s.deliveries[i].phase.Stored?)
    case TimerFires(i) => i < |s.timers|
    case RepublishAccepted(i) => i < |s.republishing|
    case RepublishFails(i) => i < |s.republishing|
    case Shutdown => s.stage in {Idle, Consuming}
    case Cancelled => s.stage == Cancelling
    case DrainEnds => s.stage == Draining && s.timers == [] && forall d <- s.deliveries :: !d.InFlight()
    case DrainTimeout => s.stage == Draining
    case CloseChannel => s.stage == Drained && s.channel
    case ClosePublishChannel => s.stage == Drained && !s.channel && s.publishChannel
    case CloseConnection => s.stage == Drained && !s.channel && !s.publishChannel
  }

  // ---- the consumer's own operations ----

  /** `safeAck`: without a channel nothing reaches the broker. The handling of delivery `i` is over. */
  function SafeAck(s: State, i: nat): State
    requires i < |s.deliveries|
  {
    s.(deliveries := Without(s.deliveries, i))
  }

  function Settle(s: State, i: nat, outcome: Outcome): State
    requires i < |s.deliveries| && outcome in {Ack, Requeue}
  {
    var m := s.deliveries[i].msg;
    var s' := SafeAck(s, i);
    if !s.channel then s'
    else if outcome.Ack? then s'.(done := s.done + [m])
    else s'.(queue := s.queue + [m])
  }

  /** Start a dead-letter publish; without a publish channel the code goes straight on to the ack. */
  function StartDlq(s: State, i: nat, letter: Message): State
    requires i < |s.deliveries|
  {
    if s.publishChannel then s.(deliveries := s.deliveries[i := s.deliveries[i].(phase := Publishing(letter))])
    else SafeAck(s, i).(lost := if s.channel then s.lost + [s.deliveries[i].msg] else s.lost)
  }

  function RetryOrDlq(cfg: Config, s: State, i: nat, error: string): State
    requires i < |s.deliveries|
  {
    var m := s.deliveries[i].msg;
    if Gives(cfg, m) then StartDlq(s, i, Exhausted(m, error))
    else SafeAck(s, i).(timers := s.timers + [Timer(Retried(cfg, m, error), s.channel)])
  }

  function EndHandler(cfg: Config, s: State, i: nat, outcome: Outcome): State
    requires i < |s.deliveries|
  {
    match outcome
    case Throws(error) => RetryOrDlq(cfg, s, i, error)
    case Nack => RetryOrDlq(cfg, s, i, "handler returned nack")
    case _ => Settle(s, i, outcome)
  }

  function Receive(s: State, i: nat, parseError: string): State
    requires i < |s.queue|
  {
    var m := s.queue[i];
    var s' := s.(queue := Without(s.queue, i), deliveries := s.deliveries + [Delivery(m, Handling)]);
    if m.parses then s' else StartDlq(s', |s.deliveries|, Unparsable(m, parseError))
  }

  /** The broker stores the letter. If it has already taken the original back, there are two copies now. */
  function StoreLetter(s: State, i: nat): State
    requires i < |s.deliveries| && s.deliveries[i].phase.Publishing?
  {
    var d := s.deliveries[i];
    s.(dlq := s.dlq + [d.phase.letter], deliveries := s.deliveries[i := d.(phase := Stored(d.phase.letter))],
       duplicated := if s.channel then s.duplicated else s.duplicated + [d.msg])
  }

  function FailLetter(s: State, i: nat): State
    requires i < |s.deliveries|
  {
    var d := s.deliveries[i];
    s.(deliveries := s.deliveries[i := d.(phase := Abandoned(d.phase.Stored?))])
  }

  function Acked(ts: seq<Timer>): seq<Message> {
    if ts == [] then []
    else Acked(ts[..|ts| - 1]) + if ts[|ts| - 1].acked then [ts[|ts| - 1].next] else []
  }

  function FireTimer(s: State, i: nat): State
    requires i < |s.timers|
  {
    var t := s.timers[i];
    var s' := s.(timers := Without(s.timers, i));
    if ShuttingDown(s) || !s.publishChannel then s'.(lost := if t.acked then s.lost + [t.next] else s.lost)
    else s'.(republishing := s.republishing + [t.next])
  }

  function Messages(ds: seq<Delivery>): seq<Message> {
    if ds == [] then [] else Messages(ds[..|ds| - 1]) + [ds[|ds| - 1].msg]
  }

  function Letters(ds: seq<Delivery>): seq<Message> {
    if ds == [] then []
    else Letters(ds[..|ds| - 1]) + if ds[|ds| - 1].InDlq() then [ds[|ds| - 1].msg] else []
  }

  /** The broker takes back everything unacked, including what sits in the dead-letter queue already. */
  function DropChannel(s: State): State {
    s.(channel := false, queue := s.queue + Messages(s.deliveries), duplicated := s.duplicated + Letters(s.deliveries))
  }

  function Next(cfg: Config, s: State, e: Event): State
    requires Enabled(s, e)
  {
    match e
    case Publish(m) => s.(queue := s.queue + [m], published := s.published + [m])
    case Consume => s.(channel := true, publishChannel := true, stage := Consuming)
    case Deliver(i, parseError) => Receive(s, i, parseError)
    case HandlerEnds(i, outcome) => EndHandler(cfg, s, i, outcome)
    case DlqAccepts(i) => StoreLetter(s, i)
    case DlqConfirms(i) => SafeAck(s, i)
    case DlqFails(i) => FailLetter(s, i)
    case TimerFires(i) => FireTimer(s, i)
    case RepublishAccepted(i) =>
      s.(republishing := Without(s.republishing, i), queue := s.queue + [s.republishing[i]])
    case RepublishFails(i) =>
      s.(republishing := Without(s.republishing, i), lost := s.lost + [s.republishing[i]])
    case Shutdown => s.(stage := Cancelling)
    case Cancelled => s.(stage := Draining)
    case DrainEnds => s.(stage := Drained)
    case DrainTimeout => s.(stage := Drained, timers := [], lost := s.lost + Acked(s.timers))
    case CloseChannel => DropChannel(s)
    case ClosePublishChannel => s.(publishChannel := false)
    case CloseConnection => s.(stage := Closed)
  }

  // ---- runs ----

  ghost predicate Legal(cfg: Config, s: State, es: seq<Event>)
    decreases es
  {
    es == [] || (Enabled(s, es[0]) && Legal(cfg, Next(cfg, s, es[0]), es[1..]))
  }

  ghost function Run(cfg: Config, s: State, es: seq<Event>): State
    requires Legal(cfg, s, es)
    decreases es
  {
    if es == [] then s else Run(cfg, Next(cfg, s, es[0]), es[1..])
  }

  // ---- where each message is ----

  function Held(d: Delivery, id: nat): nat {
    if d.InDlq() then 0 else One(d.msg, id)
  }

  function Waiting(t: Timer, id: nat): nat {
    if t.acked then One(t.next, id) else 0
  }

  /** How often message `id` is found in all the places a message can be: queued, unacked (unless its letter is
      stored), waiting for a retry, on its way back, dead-lettered, handled, or lost. */
  ghost function Places(s: State, id: nat): nat {
    Sum(s.queue, One, id) + (if s.channel then Sum(s.deliveries, Held, id) else 0) + Sum(s.timers, Waiting, id)
    + Sum(s.republishing, One, id) + Sum(s.dlq, One, id) + Sum(s.done, One, id) + Sum(s.lost, One, id)
  }

  ghost predicate ConservedFor(s: State, id: nat) {
    Places(s, id) == Sum(s.published, One, id) + Sum(s.duplicated, One, id)
  }

  ghost predicate Conserved(s: State) {
    forall id :: ConservedFor(s, id)
  }

  /** The channels and the stages of a shutdown. */
  ghost predicate Channels(s: State) {
    && (s.channel ==> s.publishChannel)
    && (s.stage == Idle ==> !s.publishChannel)
    && (s.stage == Consuming ==> s.channel)
    && (s.stage == Closed ==> !s.publishChannel)
    && (!s.channel && s.publishChannel ==> s.stage == Drained)
    && (s.stage == Idle ==> s.timers == [] && s.deliveries == [])
    && (s.channel ==> forall t <- s.timers :: t.acked)
  }
}
