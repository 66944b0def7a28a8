/** One step: its tokens render a conjunction of factors that holds exactly when the step does. */
module StepMeaning {
  import opened Wrappers
  import opened Sql
  import opened Segments
  import opened Generator

  // ---- conditions as groups of factors ----

  function ConjOf(fs: seq<Factor>): Conj
    requires fs != []
  {
    if |fs| == 1 then Just(fs[0]) else Both(fs[0], ConjOf(fs[1..]))
  }

  ghost predicate Groups(gs: seq<seq<Factor>>) {
    gs != [] && forall i | 0 <= i < |gs| :: gs[i] != []
  }

  ghost function CondOf(gs: seq<seq<Factor>>): Cond
    requires Groups(gs)
  {
    if |gs| == 1 then Only(ConjOf(gs[0])) else Either(ConjOf(gs[0]), CondOf(gs[1..]))
  }

  lemma {:induction false} ConjOfAppend(fs: seq<Factor>, hs: seq<Factor>)
    requires fs != [] && hs != []
    ensures RenderConj(ConjOf(fs + hs)) == RenderConj(ConjOf(fs)) + [And] + RenderConj(ConjOf(hs))
  {
    assert (fs + hs)[1..] == fs[1..] + hs;
    if |fs| > 1 {
      ConjOfAppend(fs[1..], hs);
    } else {
      assert fs[1..] + hs == hs;
    }
  }

  lemma {:induction false} CondOfOr(gs: seq<seq<Factor>>, g: seq<Factor>)
    requires Groups(gs) && g != []
    ensures Groups(gs + [g])
    ensures RenderCond(CondOf(gs + [g])) == RenderCond(CondOf(gs)) + [Or] + RenderConj(ConjOf(g))
  {
    assert (gs + [g])[1..] == gs[1..] + [g];
    if |gs| > 1 {
      CondOfOr(gs[1..], g);
    } else {
      assert gs[1..] + [g] == [g];
    }
  }

  function Extended(gs: seq<seq<Factor>>, hs: seq<Factor>): seq<seq<Factor>>
    requires gs != []
  {
    gs[..|gs| - 1] + [gs[|gs| - 1] + hs]
  }

  lemma {:induction false} CondOfAnd(gs: seq<seq<Factor>>, hs: seq<Factor>)
    requires Groups(gs) && hs != []
    ensures Groups(Extended(gs, hs))
    ensures RenderCond(CondOf(Extended(gs, hs))) == RenderCond(CondOf(gs)) + [And] + RenderConj(ConjOf(hs))
  {
    if |gs| > 1 {
      assert Extended(gs, hs)[1..] == Extended(gs[1..], hs);
      CondOfAnd(gs[1..], hs);
    } else {
      ConjOfAppend(gs[0], hs);
    }
  }

  ghost predicate AllHold(fs: seq<Factor>, w: World, c: nat, d: Option<nat>) {
    forall i | 0 <= i < |fs| :: FactorHolds(fs[i], w, c, d)
  }

  lemma {:induction false} ConjOfHolds(fs: seq<Factor>, w: World, c: nat, d: Option<nat>)
    requires fs != []
    ensures ConjHolds(ConjOf(fs), w, c, d) == AllHold(fs, w, c, d)
  {
    if |fs| > 1 {
      ConjOfHolds(fs[1..], w, c, d);
      assert AllHold(fs, w, c, d) == (FactorHolds(fs[0], w, c, d) && AllHold(fs[1..], w, c, d)) by {
        assert forall i | 1 <= i < |fs| :: fs[i] == fs[1..][i - 1];
      }
    }
  }

  lemma {:induction false} CondOfHolds(gs: seq<seq<Factor>>, w: World, c: nat, d: Option<nat>)
    requires Groups(gs)
    ensures CondHolds(CondOf(gs), w, c, d) <==> exists i :: 0 <= i < |gs| && AllHold(gs[i], w, c, d)
  {
    ConjOfHolds(gs[0], w, c, d);
    if |gs| > 1 {
      CondOfHolds(gs[1..], w, c, d);
      if i :| 0 <= i < |gs| && AllHold(gs[i], w, c, d) && i > 0 {
        assert AllHold(gs[1..][i - 1], w, c, d);
      }
      if i :| 0 <= i < |gs[1..]| && AllHold(gs[1..][i], w, c, d) {
        assert AllHold(gs[i + 1], w, c, d);
      }
    }
  }

  // ---- one step ----

  function EventFactor(body: Body): Factor
    requires body.Interaction?
  {
    var column := (if body.channel.Push? then "ctd." else "ct.") + body.event;
    Group(
      if body.timed then
        if body.yes then Only(EventConj(body, Since(column, body.time)))
        else Either(EventConj(body, Before(column, body.time)), Only(EventConj(body, IsNull(column))))
      else Only(EventConj(body, if body.yes then NotNull(column) else IsNull(column))))
  }

  const BOUNCED := Leaf(Flag("has_bounced"))
  const VALID := Leaf(Flag("is_valid"))
  const UNSUBSCRIBED := Leaf(Flag("is_unsubscribed"))

  function FieldFactors(t: FieldTest, o: Options): (fs: seq<Factor>)
    ensures fs != []
  {
    match t
    case Nothing => [Leaf(True)]
    case Within(key, days) => [Leaf(Since(key, days))]
    case Compare(key, operator, value) => [Leaf(Field(key, operator, value))]
    case Deliverable(yes) =>
      if yes then [VALID, Neg(UNSUBSCRIBED), Neg(BOUNCED)]
      else [Group(Either(Just(Neg(VALID)), Either(Just(UNSUBSCRIBED), Only(Just(BOUNCED)))))]
    case HasChannel(channel, operator) =>
      [Leaf(Field("ct." + channel, "=", operator))] + if channel == "has_email" then EmailFactors(o) else []
  }

  function EmailFactors(o: Options): seq<Factor> {
    (if o.addBounced then [] else [Neg(BOUNCED)]) + (if o.addInvalid then [] else [VALID])
    + (if o.addUnsubscribed then [] else [Neg(UNSUBSCRIBED)])
  }

  function DateAtoms(time: string): seq<Atom> {
    [Since("ct.last_open_date", time), Since("ct.last_click_date", time), Since("ct.sms_last_click", time),
     Since("ct.whatsapp_last_open", time), Since("ct.whatsapp_last_click", time), Since("ctd.last_click_date", time)]
  }

  function AnyChannelFactor(time: string): Factor {
    Group(AnyOf(DateAtoms(time)))
  }

  /** A step is a conjunction, often of one factor. */
  function StepFactors(b: Backend, o: Options, body: Body, n: nat): (fs: seq<Factor>)
    ensures fs != []
  {
    match body
    case Interaction(AnyChannel, _, _, _, _, time, _, _) => [AnyChannelFactor(time)]
    case Interaction(_, yes, _, _, _, _, _, _) =>
      var kind := TableKind(b, body);
      if kind.Some? then [Leaf(Member(Table(kind.value, n), yes, ByEmail(b, body)))] else [EventFactor(body)]
    case CustomField(text) => [Leaf(Custom(text))]
    case UserField(key, operator, value) => FieldFactors(TestOf(key, operator, value), o)
    case CustomEvent(isIn, _) => [Leaf(Member(Table(CustomEvents, n), isIn, false))]
    case AutomationState(yesterday, text) =>
      [Leaf(if b.V1? && yesterday then AutomationOn(text) else AutomationSince(text))]
    case _ => [Leaf(True)]
  }

  lemma {:induction false} ConjOfOne(f: Factor)
    ensures RenderConj(ConjOf([f])) == RenderFactor(f)
  {
  }

  function EventConj(body: Body, a: Atom): Conj
    requires body.Interaction?
  {
    if body.channel.Push? then Both(Leaf(DeviceType(body.channel.name)), Just(Leaf(a))) else Just(Leaf(a))
  }

  lemma {:induction false} EventConjRenders(body: Body, a: Atom)
    requires body.Interaction?
    ensures RenderConj(EventConj(body, a)) == DevicePrefix(body.channel) + [A(a)]
  {
    if body.channel.Push? {
      assert RenderConj(Just(Leaf(a))) == [A(a)];
    }
  }

  lemma {:induction false} EventRenders(body: Body)
    requires body.Interaction?
    ensures RenderFactor(EventFactor(body)) == EventTokens(body)
  {
    var column := (if body.channel.Push? then "ctd." else "ct.") + body.event;
    if body.timed && !body.yes {
      EventConjRenders(body, Before(column, body.time));
      EventConjRenders(body, IsNull(column));
      assert RenderCond(Only(EventConj(body, IsNull(column)))) == DevicePrefix(body.channel) + [A(IsNull(column))];
    } else {
      EventConjRenders(body, if body.timed then Since(column, body.time)
                             else if body.yes then NotNull(column) else IsNull(column));
    }
  }

  lemma {:induction false} EmailRenders(f: Factor, o: Options)
    ensures RenderConj(ConjOf([f] + EmailFactors(o))) ==
            RenderFactor(f) + (if o.addBounced then [] else [And, Not, A(Flag("has_bounced"))])
                            + (if o.addInvalid then [] else [And, A(Flag("is_valid"))])
                            + (if o.addUnsubscribed then [] else [And, Not, A(Flag("is_unsubscribed"))])
  {
    ConjOfOne(f);
    var f1 := MaybeAnd([f], o.addBounced, Neg(BOUNCED), [Not, A(Flag("has_bounced"))]);
    var f2 := MaybeAnd(f1, o.addInvalid, VALID, [A(Flag("is_valid"))]);
    var f3 := MaybeAnd(f2, o.addUnsubscribed, Neg(UNSUBSCRIBED), [Not, A(Flag("is_unsubscribed"))]);
    assert [f] + EmailFactors(o) == f3;
  }

  lemma {:induction false} MaybeAnd(fs: seq<Factor>, skip: bool, f: Factor, ts: seq<Token>) returns (r: seq<Factor>)
    requires fs != [] && RenderFactor(f) == ts
    ensures r == fs + if skip then [] else [f]
    ensures RenderConj(ConjOf(r)) == RenderConj(ConjOf(fs)) + if skip then [] else [And] + ts
  {
    r := fs;
    if !skip {
      ConjOfAppend(fs, [f]);
      ConjOfOne(f);
      r := fs + [f];
    }
  }

  lemma {:induction false} DeliverableRenders(yes: bool, o: Options)
    ensures RenderConj(ConjOf(FieldFactors(Deliverable(yes), o))) == FieldTokens(Deliverable(yes), o)
  {
    if yes {
      var f2 := MaybeAnd([VALID], false, Neg(UNSUBSCRIBED), [Not, A(Flag("is_unsubscribed"))]);
      var f3 := MaybeAnd(f2, false, Neg(BOUNCED), [Not, A(Flag("has_bounced"))]);
      ConjOfOne(VALID);
      assert f3 == FieldFactors(Deliverable(yes), o);
    } else {
      var last, middle := Only(Just(BOUNCED)), Either(Just(UNSUBSCRIBED), Only(Just(BOUNCED)));
      assert RenderCond(last) == [A(Flag("has_bounced"))];
      assert RenderCond(middle) == [A(Flag("is_unsubscribed"))] + [Or] + RenderCond(last);
      assert RenderConj(Just(Neg(VALID))) == [Not] + [A(Flag("is_valid"))];
    }
  }

  lemma {:induction false} FieldRenders(t: FieldTest, o: Options)
    ensures RenderConj(ConjOf(FieldFactors(t, o))) == FieldTokens(t, o)
  {
    if t.Deliverable? {
      DeliverableRenders(t.yes, o);
    } else if t.HasChannel? && t.channel == "has_email" {
      EmailRenders(Leaf(Field("ct." + t.channel, "=", t.operator)), o);
    } else {
      assert |FieldFactors(t, o)| == 1;
      ConjOfOne(FieldFactors(t, o)[0]);
    }
  }

  /** A chain of alternatives, each one atom. */
  function AnyOf(atoms: seq<Atom>): Cond
    requires atoms != []
  {
    if |atoms| == 1 then Only(Just(Leaf(atoms[0]))) else Either(Just(Leaf(atoms[0])), AnyOf(atoms[1..]))
  }

  function Ored(atoms: seq<Atom>): seq<Token>
    requires atoms != []
  {
    if |atoms| == 1 then [A(atoms[0])] else [A(atoms[0]), Or] + Ored(atoms[1..])
  }

  lemma {:induction false} AnyOfRenders(atoms: seq<Atom>)
    requires atoms != []
    ensures RenderCond(AnyOf(atoms)) == Ored(atoms)
  {
    assert RenderFactor(Leaf(atoms[0])) == [A(atoms[0])];
    assert RenderConj(Just(Leaf(atoms[0]))) == [A(atoms[0])];
    if |atoms| > 1 {
      AnyOfRenders(atoms[1..]);
      assert RenderCond(AnyOf(atoms)) == [A(atoms[0])] + [Or] + Ored(atoms[1..]);
    }
  }

  lemma {:induction false} AnyChannelRenders(time: string, b: Backend, o: Options, body: Body, n: nat)
    requires body.Interaction? && body.channel.AnyChannel? && body.time == time
    ensures RenderFactor(AnyChannelFactor(time)) == StepTokens(b, o, body, n)
  {
    var a := DateAtoms(time);
    AnyOfRenders(a);
    assert Ored(a[4..]) == [A(a[4]), Or, A(a[5])];
    assert a[2..][2..] == a[4..] && a[2..][1..] == a[3..] && a[1..][1..] == a[2..] && a[3..][1..] == a[4..];
    assert Ored(a[2..]) == [A(a[2]), Or, A(a[3]), Or] + Ored(a[4..]);
    assert Ored(a) == [A(a[0]), Or, A(a[1]), Or] + Ored(a[2..]);
  }

  lemma {:induction false} StepRenders(b: Backend, o: Options, s: Step, n: nat)
    requires Filters(s) && !s.body.Unknown?
    ensures RenderConj(ConjOf(StepFactors(b, o, s.body, n))) == StepTokens(b, o, s.body, n)
  {
    if s.body.UserField? {
      FieldRenders(TestOf(s.body.key, s.body.operator, s.body.value), o);
    } else if s.body.Interaction? {
      if s.body.channel.AnyChannel? {
        AnyChannelRenders(s.body.time, b, o, s.body, n);
      } else if TableKind(b, s.body).None? {
        EventRenders(s.body);
      }
    }
  }

  // ---- what one step means ----

  lemma {:induction false} AtomHolds(a: Atom, w: World, c: nat, d: Option<nat>)
    requires a != True
    ensures FactorHolds(Leaf(a), w, c, d) == w.holds(a, c, d)
    ensures FactorHolds(Neg(Leaf(a)), w, c, d) == !w.holds(a, c, d)
    ensures ConjHolds(Just(Leaf(a)), w, c, d) == w.holds(a, c, d)
    ensures ConjHolds(Just(Neg(Leaf(a))), w, c, d) == !w.holds(a, c, d)
  {
    assert FactorHolds(Leaf(a), w, c, d) == w.holds(a, c, d);
    assert FactorHolds(Neg(Leaf(a)), w, c, d) == !FactorHolds(Leaf(a), w, c, d);
  }

  lemma {:induction false} OneHolds(fs: seq<Factor>, w: World, c: nat, d: Option<nat>)
    requires |fs| == 1
    ensures AllHold(fs, w, c, d) == FactorHolds(fs[0], w, c, d)
  {
  }

  lemma {:induction false} EventConjHolds(body: Body, a: Atom, w: World, c: nat, d: Option<nat>)
    requires body.Interaction? && a != True
    ensures ConjHolds(EventConj(body, a), w, c, d) ==
            ((body.channel.Push? ==> w.holds(DeviceType(body.channel.name), c, d)) && w.holds(a, c, d))
  {
    AtomHolds(a, w, c, d);
    if body.channel.Push? {
      AtomHolds(DeviceType(body.channel.name), w, c, d);
    }
  }

  lemma {:induction false} EventHolds(body: Body, w: World, c: nat, d: Option<nat>)
    requires body.Interaction?
    ensures FactorHolds(EventFactor(body), w, c, d) == EventMeans(body, w, c, d)
  {
    var column := (if body.channel.Push? then "ctd." else "ct.") + body.event;
    EventConjHolds(body, Since(column, body.time), w, c, d);
    EventConjHolds(body, Before(column, body.time), w, c, d);
    EventConjHolds(body, IsNull(column), w, c, d);
    EventConjHolds(body, NotNull(column), w, c, d);
    assert CondHolds(Only(EventConj(body, IsNull(column))), w, c, d) ==
           ConjHolds(EventConj(body, IsNull(column)), w, c, d);
  }

  lemma {:induction false} AnyOfHolds(atoms: seq<Atom>, w: World, c: nat, d: Option<nat>)
    requires atoms != [] && True !in atoms
    ensures CondHolds(AnyOf(atoms), w, c, d) <==> exists a <- atoms :: w.holds(a, c, d)
  {
    AtomHolds(atoms[0], w, c, d);
    if |atoms| > 1 {
      AnyOfHolds(atoms[1..], w, c, d);
      assert atoms == [atoms[0]] + atoms[1..];
    }
  }

  lemma {:induction false} AnyChannelHolds(time: string, w: World, c: nat, d: Option<nat>)
    ensures FactorHolds(AnyChannelFactor(time), w, c, d) == AnyChannelMeans(time, w, c, d)
  {
    var columns := ["ct.last_open_date", "ct.last_click_date", "ct.sms_last_click", "ct.whatsapp_last_open",
                    "ct.whatsapp_last_click", "ctd.last_click_date"];
    var atoms := DateAtoms(time);
    AnyOfHolds(atoms, w, c, d);
    if column :| column in columns && w.holds(Since(column, time), c, d) {
      assert Since(column, time) in atoms;
    }
    if a :| a in atoms && w.holds(a, c, d) {
      assert a.column in columns && a == Since(a.column, time);
    }
  }

  lemma {:induction false} FieldHolds(t: FieldTest, o: Options, w: World, c: nat, d: Option<nat>)
    ensures AllHold(FieldFactors(t, o), w, c, d) == FieldMeans(t, o, w, c, d)
  {
    var fs := FieldFactors(t, o);
    if t.Deliverable? {
      DeliverableHolds(t.yes, o, w, c, d);
    } else if t.HasChannel? && t.channel == "has_email" {
      EmailHolds(fs[0], o, w, c, d);
    } else {
      OneHolds(fs, w, c, d);
    }
  }

  lemma {:induction false} DeliverableHolds(yes: bool, o: Options, w: World, c: nat, d: Option<nat>)
    ensures AllHold(FieldFactors(Deliverable(yes), o), w, c, d) == FieldMeans(Deliverable(yes), o, w, c, d)
  {
    var fs := FieldFactors(Deliverable(yes), o);
    AtomHolds(VALID.atom, w, c, d);
    AtomHolds(UNSUBSCRIBED.atom, w, c, d);
    AtomHolds(BOUNCED.atom, w, c, d);
    if yes {
      AllHoldAppend([fs[0]], [fs[1]], w, c, d);
      AllHoldAppend([fs[0]] + [fs[1]], [fs[2]], w, c, d);
      assert fs == [fs[0]] + [fs[1]] + [fs[2]];
      OneHolds([fs[0]], w, c, d);
      OneHolds([fs[1]], w, c, d);
      OneHolds([fs[2]], w, c, d);
    } else {
      OneHolds(fs, w, c, d);
      var two := Either(Just(UNSUBSCRIBED), Only(Just(BOUNCED)));
      assert CondHolds(Only(Just(BOUNCED)), w, c, d) == ConjHolds(Just(BOUNCED), w, c, d);
      assert CondHolds(two, w, c, d) == (ConjHolds(Just(UNSUBSCRIBED), w, c, d) || ConjHolds(Just(BOUNCED), w, c, d));
      assert fs[0] == Group(Either(Just(Neg(VALID)), two));
      assert FactorHolds(fs[0], w, c, d) == (ConjHolds(Just(Neg(VALID)), w, c, d) || CondHolds(two, w, c, d));
    }
  }

  lemma {:induction false} EmailHolds(f: Factor, o: Options, w: World, c: nat, d: Option<nat>)
    ensures AllHold([f] + EmailFactors(o), w, c, d) ==
            (FactorHolds(f, w, c, d) && (o.addBounced || !w.holds(Flag("has_bounced"), c, d))
             && (o.addInvalid || w.holds(Flag("is_valid"), c, d))
             && (o.addUnsubscribed || !w.holds(Flag("is_unsubscribed"), c, d)))
  {
    var f1 := [f] + if o.addBounced then [] else [Neg(BOUNCED)];
    var f2 := f1 + if o.addInvalid then [] else [VALID];
    var f3 := f2 + if o.addUnsubscribed then [] else [Neg(UNSUBSCRIBED)];
    AllHoldMaybe([f], o.addBounced, Neg(BOUNCED), w, c, d);
    AllHoldMaybe(f1, o.addInvalid, VALID, w, c, d);
    AllHoldMaybe(f2, o.addUnsubscribed, Neg(UNSUBSCRIBED), w, c, d);
    assert [f] + EmailFactors(o) == f3;
    AtomHolds(VALID.atom, w, c, d);
    AtomHolds(UNSUBSCRIBED.atom, w, c, d);
    AtomHolds(BOUNCED.atom, w, c, d);
    OneHolds([f], w, c, d);
  }

  lemma {:induction false} AllHoldMaybe(fs: seq<Factor>, skip: bool, f: Factor, w: World, c: nat, d: Option<nat>)
    ensures AllHold(fs + (if skip then [] else [f]), w, c, d) ==
            (AllHold(fs, w, c, d) && (skip || FactorHolds(f, w, c, d)))
  {
    AllHoldAppend(fs, if skip then [] else [f], w, c, d);
    OneHolds([f], w, c, d);
  }

  lemma {:induction false} AllHoldAppend(fs: seq<Factor>, hs: seq<Factor>, w: World, c: nat, d: Option<nat>)
    ensures AllHold(fs + hs, w, c, d) == (AllHold(fs, w, c, d) && AllHold(hs, w, c, d))
  {
    var all := fs + hs;
    assert forall i | 0 <= i < |fs| :: all[i] == fs[i];
    assert forall i | 0 <= i < |hs| :: all[|fs| + i] == hs[i];
  }

  /** A step's factors hold together exactly when the step does. */
  lemma {:induction false} StepHolds(b: Backend, o: Options, body: Body, n: nat, w: World, c: nat, d: Option<nat>)
    requires !body.Tag? && !body.ConditionalCard? && !body.Unknown?
    ensures AllHold(StepFactors(b, o, body, n), w, c, d) == Means(b, o, body, n, w, c, d)
  {
    var fs := StepFactors(b, o, body, n);
    if body.UserField? {
      FieldHolds(TestOf(body.key, body.operator, body.value), o, w, c, d);
    } else {
      OneHolds(fs, w, c, d);
      if fs[0].Leaf? {
        AtomHolds(fs[0].atom, w, c, d);
      } else if body.channel.AnyChannel? {
        AnyChannelHolds(body.time, w, c, d);
      } else {
        EventHolds(body, w, c, d);
      }
    }
  }
}
