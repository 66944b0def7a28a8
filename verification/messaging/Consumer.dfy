/** The consumer as it is written, callback by callback; each of them is one step of the protocol. */
module Consumer {
  import opened Lineage
  import opened Tally
  import opened Protocol
  import opened Conservation
  import opened History

  /** The broker's side, and a record of what happened to messages. */
  class Broker {
    var queue: seq<Message>
    var dlq: seq<Message>
    var done: seq<Message>
    var lost: seq<Message>
    var published: seq<Message>
    var duplicated: seq<Message>

    constructor ()
      ensures queue == dlq == done == lost == published == duplicated == []
    {
      queue, dlq, done, lost, published, duplicated := [], [], [], [], [], [];
    }
  }

  class AmqpConsumer {
    const cfg: Config
    const broker: Broker
    var channel: bool
    var publishChannel: bool
    var stage: Stage
    var deliveries: seq<Delivery>
    var timers: seq<Timer>
    var republishing: seq<Message>

    ghost function Now(): State
      reads this, broker
    {
      State(broker.queue, broker.dlq, broker.done, broker.lost, broker.published, broker.duplicated, channel,
            publishChannel, stage, deliveries, timers, republishing)
    }

    ghost predicate Valid()
      reads this, broker
    {
      Invariant(cfg, Now())
    }

    constructor (cfg: Config)
      ensures this.cfg == cfg && fresh(broker) && Now() == Init() && Valid()
    {
      this.cfg := cfg;
      broker := new Broker();
      channel, publishChannel, stage := false, false, Idle;
      deliveries, timers, republishing := [], [], [];
      new;
      InvariantInitially(cfg);
    }

    method Consume() returns (ok: bool)
      requires Valid()
      modifies this
      ensures ok == Enabled(old(Now()), Event.Consume)
      ensures Now() == if ok then Next(cfg, old(Now()), Event.Consume) else old(Now())
      ensures Valid()
    {
      if stage != Idle { return false; }
      StepKeepsInvariant(cfg, Now(), Event.Consume);
      channel, publishChannel, stage := true, true, Consuming;
      ok := true;
    }

    // ---- handling one message ----

    /** A delivery whose content does not parse goes to the dead-letter queue at once. */
    method HandleMessage(i: nat, parseError: string)
      requires Valid() && Enabled(Now(), Deliver(i, parseError))
      modifies this, broker
      ensures Now() == Next(cfg, old(Now()), Deliver(i, parseError)) && Valid()
      ensures ReceiptShown(old(Now()), Now(), i, parseError)
    {
      ReceiptTold(cfg, Now(), i, parseError);
      StepKeepsInvariant(cfg, Now(), Deliver(i, parseError));
      var m := broker.queue[i];
      broker.queue := Without(broker.queue, i);
      deliveries := deliveries + [Delivery(m, Handling)];
      if !m.parses {
        PublishToDlq(|deliveries| - 1, Unparsable(m, parseError));
      }
    }

    method HandlerEnded(i: nat, outcome: Outcome)
      requires Valid() && Enabled(Now(), HandlerEnds(i, outcome))
      modifies this, broker
      ensures Now() == Next(cfg, old(Now()), HandlerEnds(i, outcome)) && Valid()
      ensures forall error | FailsWith(outcome, error) :: FailureShown(cfg, old(Now()), Now(), i, error)
      ensures outcome in {Ack, Requeue} ==> SettledShown(old(Now()), Now(), i, outcome)
    {
      StepKeepsInvariant(cfg, Now(), HandlerEnds(i, outcome));
      OutcomeTold(cfg, Now(), i, outcome);
      match outcome
      case Throws(error) => RetryOrDlq(i, error);
      case Requeue => SafeNack(i);
      case Nack => RetryOrDlq(i, "handler returned nack");
      case Ack => SafeAck(i);
    }

    method RetryOrDlq(i: nat, error: string)
      requires i < |deliveries|
      modifies this, broker
      ensures Now() == Protocol.RetryOrDlq(cfg, old(Now()), i, error)
    {
      var m := deliveries[i].msg;
      var attempt := ParseAttempt(m.headers);
      if attempt >= cfg.maxRetries {
        PublishToDlq(i, Exhausted(m, error));
        return;
      }
      deliveries := Without(deliveries, i);
      timers := timers + [Timer(Retried(cfg, m, error), channel)];
    }

    /** The ack has to wait for the confirm. Without a publish channel there is nothing to wait for. */
    method PublishToDlq(i: nat, letter: Message)
      requires i < |deliveries|
      modifies this`deliveries, broker`lost
      ensures Now() == StartDlq(old(Now()), i, letter)
    {
      if publishChannel {
        deliveries := deliveries[i := deliveries[i].(phase := Publishing(letter))];
        return;
      }
      if channel {
        broker.lost := broker.lost + [deliveries[i].msg];
      }
      deliveries := Without(deliveries, i);
    }

    method SafeAck(i: nat)
      requires i < |deliveries|
      modifies this`deliveries, broker`done
      ensures Now() == Settle(old(Now()), i, Ack)
    {
      if channel {
        broker.done := broker.done + [deliveries[i].msg];
      }
      deliveries := Without(deliveries, i);
    }

    method SafeNack(i: nat)
      requires i < |deliveries|
      modifies this`deliveries, broker`queue
      ensures Now() == Settle(old(Now()), i, Requeue)
    {
      if channel {
        broker.queue := broker.queue + [deliveries[i].msg];
      }
      deliveries := Without(deliveries, i);
    }

    // ---- confirms ----

    method LetterAccepted(i: nat)
      requires Valid() && Enabled(Now(), DlqAccepts(i))
      modifies this, broker
      ensures Now() == Next(cfg, old(Now()), DlqAccepts(i)) && Valid()
    {
      StepKeepsInvariant(cfg, Now(), DlqAccepts(i));
      var d := deliveries[i];
      broker.dlq := broker.dlq + [d.phase.letter];
      if !channel {
        broker.duplicated := broker.duplicated + [d.msg];
      }
      deliveries := deliveries[i := d.(phase := Stored(d.phase.letter))];
    }

    method LetterConfirmed(i: nat)
      requires Valid() && Enabled(Now(), DlqConfirms(i))
      modifies this
      ensures Now() == Next(cfg, old(Now()), DlqConfirms(i)) && Valid()
    {
      StepKeepsInvariant(cfg, Now(), DlqConfirms(i));
      deliveries := Without(deliveries, i);
    }

    /** The confirm rejects; nobody acks the message any more. */
    method LetterFailed(i: nat)
      requires Valid() && Enabled(Now(), DlqFails(i))
      modifies this
      ensures Now() == Next(cfg, old(Now()), DlqFails(i)) && Valid()
    {
      StepKeepsInvariant(cfg, Now(), DlqFails(i));
      deliveries := deliveries[i := deliveries[i].(phase := Abandoned(deliveries[i].phase.Stored?))];
    }

    // ---- retries ----

    method TimerFired(i: nat)
      requires Valid() && Enabled(Now(), TimerFires(i))
      modifies this, broker
      ensures Now() == Next(cfg, old(Now()), TimerFires(i)) && Valid()
    {
      StepKeepsInvariant(cfg, Now(), TimerFires(i));
      var t := timers[i];
      timers := Without(timers, i);
      if stage !in {Idle, Consuming} || !publishChannel {
        if t.acked {
          broker.lost := broker.lost + [t.next];
        }
        return;
      }
      republishing := republishing + [t.next];
    }

    method Republished(i: nat, accepted: bool)
      requires Valid() && i < |republishing|
      modifies this, broker
      ensures Now() == Next(cfg, old(Now()), if accepted then RepublishAccepted(i) else RepublishFails(i)) && Valid()
    {
      StepKeepsInvariant(cfg, Now(), if accepted then RepublishAccepted(i) else RepublishFails(i));
      var m := republishing[i];
      republishing := Without(republishing, i);
      if accepted {
        broker.queue := broker.queue + [m];
      } else {
        broker.lost := broker.lost + [m];
      }
    }

    // ---- shutdown ----

    /** A second call only waits for the first. */
    method BeginShutdown()
      requires Valid()
      modifies this
      ensures Now() == if ShuttingDown(old(Now())) then old(Now()) else Next(cfg, old(Now()), Event.Shutdown)
      ensures Valid()
    {
      if stage in {Idle, Consuming} {
        StepKeepsInvariant(cfg, Now(), Event.Shutdown);
        stage := Cancelling;
      }
    }

    method ConsumerCancelled()
      requires Valid() && Enabled(Now(), Cancelled)
      modifies this
      ensures Now() == Next(cfg, old(Now()), Cancelled) && Valid()
    {
      StepKeepsInvariant(cfg, Now(), Cancelled);
      stage := Draining;
    }

    /** Handlers and timers that end look whether they were the last. */
    method DrainCheck() returns (drained: bool)
      requires Valid() && stage == Draining
      modifies this
      ensures drained == Enabled(old(Now()), DrainEnds)
      ensures Now() == if drained then Next(cfg, old(Now()), DrainEnds) else old(Now())
      ensures Valid()
    {
      drained := timers == [];
      for i := 0 to |deliveries|
        invariant drained == (timers == [] && forall j | 0 <= j < i :: !deliveries[j].InFlight())
      {
        drained := drained && deliveries[i].phase.Abandoned?;
      }
      if drained {
        StepKeepsInvariant(cfg, Now(), DrainEnds);
        stage := Drained;
      }
    }

    /** Pending retries are dropped with their timers. */
    method DrainTimedOut()
      requires Valid() && Enabled(Now(), DrainTimeout)
      modifies this, broker
      ensures Now() == Next(cfg, old(Now()), DrainTimeout) && Valid()
    {
      StepKeepsInvariant(cfg, Now(), DrainTimeout);
      var dropped := [];
      for n := 0 to |timers|
        invariant dropped == Acked(timers[..n])
      {
        assert timers[..n + 1][..n] == timers[..n];
        if timers[n].acked {
          dropped := dropped + [timers[n].next];
        }
      }
      assert timers[..|timers|] == timers;
      broker.lost := broker.lost + dropped;
      timers, stage := [], Drained;
    }

    /** The broker requeues whatever is unacked. */
    method ChannelClosed()
      requires Valid() && Enabled(Now(), CloseChannel)
      modifies this, broker
      ensures Now() == Next(cfg, old(Now()), CloseChannel) && Valid()
    {
      StepKeepsInvariant(cfg, Now(), CloseChannel);
      var back, again := [], [];
      for i := 0 to |deliveries|
        invariant back == Messages(deliveries[..i]) && again == Letters(deliveries[..i])
      {
        assert deliveries[..i + 1][..i] == deliveries[..i];
        back := back + [deliveries[i].msg];
        if deliveries[i].InDlq() {
          again := again + [deliveries[i].msg];
        }
      }
      assert deliveries[..|deliveries|] == deliveries;
      broker.queue, broker.duplicated := broker.queue + back, broker.duplicated + again;
      channel := false;
    }

    method PublishChannelClosed()
      requires Valid() && Enabled(Now(), ClosePublishChannel)
      modifies this
      ensures Now() == Next(cfg, old(Now()), ClosePublishChannel) && Valid()
    {
      StepKeepsInvariant(cfg, Now(), ClosePublishChannel);
      publishChannel := false;
    }

    method ConnectionClosed()
      requires Valid() && Enabled(Now(), CloseConnection)
      modifies this
      ensures Now() == Next(cfg, old(Now()), CloseConnection) && Valid()
    {
      StepKeepsInvariant(cfg, Now(), CloseConnection);
      stage := Closed;
    }
  }
}
