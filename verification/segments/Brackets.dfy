/** Brackets of the emitted tokens balance. */
module Brackets {
  import opened Wrappers
  import opened Sql
  import opened Segments
  import opened Generator

  /** The bracket depth behind `ts` if it starts at `d`; none if a bracket closes that was never opened. */
  function Nest(d: nat, ts: seq<Token>): Option<nat> {
    if ts == [] then Some(d)
    else
      var before, t := Nest(d, ts[..|ts| - 1]), ts[|ts| - 1];
      if before.None? then None
      else if t == Open then Some(before.value + 1)
      else if t != Close then before
      else if before.value == 0 then None else Some(before.value - 1)
  }

  lemma {:induction false} NestAppend(d: nat, a: seq<Token>, z: seq<Token>)
    ensures Nest(d, a + z) == if Nest(d, a).Some? then Nest(Nest(d, a).value, z) else None
  {
    if z == [] {
      assert a + z == a;
    } else {
      assert (a + z)[..|a + z| - 1] == a + z[..|z| - 1];
      NestAppend(d, a, z[..|z| - 1]);
    }
  }

  ghost predicate Flat(ts: seq<Token>) {
    forall i | 0 <= i < |ts| :: ts[i] != Open && ts[i] != Close
  }

  /** Depth `d` before, depth `d + up` after. */
  ghost predicate Lifts(ts: seq<Token>, up: nat) {
    forall d: nat {:trigger Nest(d, ts)} :: Nest(d, ts) == Some(d + up)
  }

  lemma {:induction false} FlatLifts(ts: seq<Token>)
    requires Flat(ts)
    ensures Lifts(ts, 0)
  {
    forall d: nat ensures Nest(d, ts) == Some(d) {
      FlatNests(d, ts);
    }
  }

  lemma {:induction false} FlatNests(d: nat, ts: seq<Token>)
    requires Flat(ts)
    ensures Nest(d, ts) == Some(d)
  {
    if ts != [] {
      FlatNests(d, ts[..|ts| - 1]);
    }
  }

  lemma {:induction false} LiftsAppend(a: seq<Token>, up: nat, z: seq<Token>, more: nat)
    requires Lifts(a, up) && Lifts(z, more)
    ensures Lifts(a + z, up + more)
  {
    forall d: nat ensures Nest(d, a + z) == Some(d + (up + more)) {
      NestAppend(d, a, z);
    }
  }

  lemma {:induction false} OpenLifts()
    ensures Lifts([Open], 1)
  {
    forall d: nat ensures Nest(d, [Open]) == Some(d + 1) {
      assert [Open][..|[Open]| - 1] == [];
    }
  }

  lemma {:induction false} ClosesBracket(a: seq<Token>, up: nat)
    requires Lifts(a, up + 1)
    ensures Lifts(a + [Close], up)
  {
    forall d: nat ensures Nest(d, a + [Close]) == Some(d + up) {
      NestAppend(d, a, [Close]);
      assert Nest(d, a) == Some(d + up + 1);
      assert [Close][..|[Close]| - 1] == [];
    }
  }

  lemma {:induction false} BracketedLifts(ts: seq<Token>, inner: seq<Token>)
    requires ts == [Open] + inner + [Close] && Flat(inner)
    ensures Lifts(ts, 0)
  {
    OpenLifts();
    FlatLifts(inner);
    LiftsAppend([Open], 1, inner, 0);
    ClosesBracket([Open] + inner, 0);
  }

  lemma {:induction false} EventLifts(body: Body)
    requires body.Interaction?
    ensures Lifts(EventTokens(body), 0)
  {
    var ts, filter := EventTokens(body), DevicePrefix(body.channel);
    var column := (if body.channel.Push? then "ctd." else "ct.") + body.event;
    assert Flat(filter);
    if body.timed && !body.yes {
      BracketedLifts(ts, filter + [A(Before(column, body.time)), Or] + filter + [A(IsNull(column))]);
    } else {
      BracketedLifts(ts, filter + [A(if body.timed then Since(column, body.time)
                                     else if body.yes then NotNull(column) else IsNull(column))]);
    }
  }

  lemma {:induction false} FieldLifts(t: FieldTest, o: Options)
    ensures Lifts(FieldTokens(t, o), 0)
  {
    var ts := FieldTokens(t, o);
    if t.Deliverable? && !t.yes {
      BracketedLifts(ts, [Not, A(Flag("is_valid")), Or, A(Flag("is_unsubscribed")), Or, A(Flag("has_bounced"))]);
    } else {
      FlatLifts(ts);
    }
  }

  lemma {:induction false} AnyChannelLifts(b: Backend, o: Options, body: Body, n: nat)
    requires body.Interaction? && body.channel.AnyChannel?
    ensures Lifts(StepTokens(b, o, body, n), 0)
  {
    var t := body.time;
    var first := [A(Since("ct.last_open_date", t)), Or, A(Since("ct.last_click_date", t)), Or,
                  A(Since("ct.sms_last_click", t)), Or];
    var second := [A(Since("ct.whatsapp_last_open", t)), Or, A(Since("ct.whatsapp_last_click", t)), Or,
                   A(Since("ctd.last_click_date", t))];
    assert Flat(first) && Flat(second);
    assert StepTokens(b, o, body, n) == [Open] + (first + second) + [Close];
    BracketedLifts(StepTokens(b, o, body, n), first + second);
  }

  lemma {:induction false} StepLifts(b: Backend, o: Options, body: Body, n: nat)
    ensures Lifts(StepTokens(b, o, body, n), 0)
  {
    var ts := StepTokens(b, o, body, n);
    if body.UserField? {
      FieldLifts(TestOf(body.key, body.operator, body.value), o);
    } else if body.Interaction? && body.channel.AnyChannel? {
      AnyChannelLifts(b, o, body, n);
    } else if body.Interaction? && TableKind(b, body).None? {
      EventLifts(body);
    } else {
      FlatLifts(ts);
    }
  }

  function Up(g: Gathered): nat {
    if g.inBody then 1 else 0
  }

  lemma {:induction false} LeadLifts(s: Step, inBody: bool)
    requires !s.body.Tag?
    ensures Lifts(Lead(s, inBody), if !inBody && Filters(s) then 1 else 0)
  {
    var lead := Lead(s, inBody);
    if !inBody && Filters(s) {
      FlatLifts(lead[..1]);
      OpenLifts();
      LiftsAppend(lead[..1], 0, [Open], 1);
      assert lead == lead[..1] + [Open];
    } else {
      FlatLifts(lead);
    }
  }

  lemma {:induction false} GatherLifts(b: Backend, o: Options, steps: seq<Step>, n: nat)
    ensures var g := Gather(b, o, steps, n); Lifts(g.tokens, Up(g))
  {
    if steps == [] {
      FlatLifts([]);
    } else {
      var s, g := steps[|steps| - 1], Gather(b, o, steps[..|steps| - 1], n);
      GatherLifts(b, o, steps[..|steps| - 1], n);
      StepLiftsOn(b, o, g, s);
    }
  }

  lemma {:induction false} StepLiftsOn(b: Backend, o: Options, g: Gathered, s: Step)
    requires Lifts(g.tokens, Up(g))
    ensures var g' := GatherStep(b, o, g, s); Lifts(g'.tokens, Up(g'))
  {
    if !s.body.Tag? {
      LeadLifts(s, g.inBody);
      StepLifts(b, o, s.body, g.n);
      LiftsThree(g.tokens, Up(g), Lead(s, g.inBody), if !g.inBody && Filters(s) then 1 else 0,
                 StepTokens(b, o, s.body, g.n));
    }
  }

  lemma {:induction false} LiftsThree(a: seq<Token>, up: nat, lead: seq<Token>, more: nat, z: seq<Token>)
    requires Lifts(a, up) && Lifts(lead, more) && Lifts(z, 0)
    ensures Lifts(a + lead + z, up + more)
  {
    LiftsAppend(a, up, lead, more);
    LiftsAppend(a + lead, up + more, z, 0);
  }

  lemma {:induction false} TagsLift(ts: seq<Body>)
    requires Tags(ts)
    ensures Lifts(TagTokens(ts), 0)
  {
    if ts == [] {
      FlatLifts([]);
    } else {
      var t := ts[|ts| - 1];
      var op, rest := if t.isIn then Intersect else Except, [Open, SelectTagged(t.tag), Close];
      TagsLift(ts[..|ts| - 1]);
      BracketedLifts(rest, [SelectTagged(t.tag)]);
      FlatLifts([op]);
      LiftsAppend([op], 0, rest, 0);
      LiftsAppend(TagTokens(ts[..|ts| - 1]), 0, [op] + rest, 0);
      assert [op] + rest == [op, Open, SelectTagged(t.tag), Close];
    }
  }

  lemma {:induction false} HeadLifts(card: Card, join: seq<Token>)
    requires Flat(join)
    ensures Lifts(CardHead(card, join), 1)
  {
    var op, rest := OpTokens(card), [Select] + join + [Where, A(InAccount), And, A(IsActive)];
    FlatLifts(op);
    OpenLifts();
    FlatLifts(rest);
    LiftsAppend(op, 0, [Open], 1);
    LiftsAppend(op + [Open], 1, rest, 0);
    assert CardHead(card, join) == op + [Open] + rest;
  }

  lemma {:induction false} PiecesLift(head: seq<Token>, ts: seq<Token>, inBody: bool, tags: seq<Token>)
    requires Lifts(head, 1) && Lifts(ts, if inBody then 1 else 0) && Lifts(tags, 0)
    ensures Lifts(head + ts + (if inBody then [Close] else []) + tags + [Close], 0)
  {
    var close := if inBody then [Close] else [];
    LiftsAppend(head, 1, ts, if inBody then 1 else 0);
    if inBody {
      ClosesBracket(head + ts, 1);
    } else {
      assert head + ts + [] == head + ts;
    }
    LiftsAppend(head + ts + close, 1, tags, 0);
    ClosesBracket(head + ts + close + tags, 0);
  }

  lemma {:induction false} CardLifts(b: Backend, o: Options, card: Card, n: nat)
    requires card != []
    ensures Lifts(CardTokens(b, o, card, n), 0)
  {
    var g := Gather(b, o, card, n);
    GatherLifts(b, o, card, n);
    TagsLift(TagsOf(card));
    HeadLifts(card, if g.asked then [Join] else []);
    PiecesLift(CardHead(card, if g.asked then [Join] else []), g.tokens, g.inBody, TagTokens(TagsOf(card)));
  }

  lemma {:induction false} CardsLift(b: Backend, o: Options, cards: seq<Card>, k: nat)
    requires k <= |cards| && forall i | 0 <= i < |cards| :: cards[i] != []
    ensures CardsLifted(b, o, cards, k)
  {
    if k == 0 {
      NoCardsLift(b, o, cards);
    } else {
      CardsLift(b, o, cards, k - 1);
      NextCardLifts(b, o, cards, k - 1, k);
    }
  }

  ghost predicate CardsLifted(b: Backend, o: Options, cards: seq<Card>, k: nat)
    requires k <= |cards|
  {
    Lifts(CardsTokens(b, o, cards[..k]), 0)
  }

  lemma {:induction false} NoCardsLift(b: Backend, o: Options, cards: seq<Card>)
    ensures CardsLifted(b, o, cards, 0)
  {
    FlatLifts([]);
    assert cards[..0] == [];
  }

  lemma {:induction false} NextCardLifts(b: Backend, o: Options, cards: seq<Card>, k: nat, next: nat)
    requires k < |cards| && next == k + 1 && cards[k] != [] && CardsLifted(b, o, cards, k)
    ensures CardsLifted(b, o, cards, next)
  {
    var more := NextTokens(b, o, cards, k);
    LiftsJoin(CardsTokens(b, o, cards[..next]), CardsTokens(b, o, cards[..k]), more);
  }

  lemma {:induction false} LiftsJoin(all: seq<Token>, a: seq<Token>, z: seq<Token>)
    requires all == a + z && Lifts(a, 0) && Lifts(z, 0)
    ensures Lifts(all, 0)
  {
    LiftsAppend(a, 0, z, 0);
  }

  lemma {:induction false} NextTokens(b: Backend, o: Options, cards: seq<Card>, k: nat) returns (more: seq<Token>)
    requires k < |cards| && cards[k] != []
    ensures CardsTokens(b, o, cards[..k + 1]) == CardsTokens(b, o, cards[..k]) + more && Lifts(more, 0)
  {
    more := CardTokens(b, o, cards[k], TablesBefore(b, cards, k));
    CardsNext(b, o, cards, k);
    CardLifts(b, o, cards[k], TablesBefore(b, cards, k));
  }

  lemma {:induction false} DropsFlat(b: Backend, o: Options, cards: seq<Card>)
    ensures Flat(CardsDrops(b, o, cards))
  {
    if cards != [] {
      var k := |cards| - 1;
      DropsFlat(b, o, cards[..k]);
      CardDropsFlat(b, o, cards[k], TablesBefore(b, cards, k));
    }
  }

  lemma {:induction false} CardDropsFlat(b: Backend, o: Options, steps: seq<Step>, n: nat)
    ensures Flat(Gather(b, o, steps, n).drops)
  {
    if steps != [] {
      CardDropsFlat(b, o, steps[..|steps| - 1], n);
    }
  }

  lemma {:induction false} WholeLifts(cards: seq<Token>, limit: seq<Token>, drops: seq<Token>)
    requires Lifts(cards, 0) && Flat(limit) && Flat(drops)
    ensures Lifts([Insert, Open] + cards + limit + [Close, Semicolon] + drops, 0)
  {
    var end := [Semicolon] + drops;
    FlatLifts([Insert]);
    OpenLifts();
    LiftsAppend([Insert], 0, [Open], 1);
    LiftsAppend([Insert] + [Open], 1, cards, 0);
    FlatLifts(limit);
    LiftsAppend([Insert] + [Open] + cards, 1, limit, 0);
    ClosesBracket([Insert] + [Open] + cards + limit, 0);
    FlatLifts(end);
    LiftsAppend([Insert] + [Open] + cards + limit + [Close], 0, end, 0);
    assert [Insert, Open] + cards + limit + [Close, Semicolon] + drops ==
           [Insert] + [Open] + cards + limit + [Close] + end;
  }

  /** Whatever the connectives, brackets balance as soon as no card is empty. */
  lemma {:induction false} BracketsBalance(b: Backend, s: Segment)
    requires forall i | 0 <= i < |s.cards| :: s.cards[i] != []
    ensures Nest(0, Emitted(b, s)) == Some(0)
  {
    CardsLift(b, s.options, s.cards, |s.cards|);
    assert s.cards[..|s.cards|] == s.cards;
    DropsFlat(b, s.options, s.cards);
    WholeLifts(CardsTokens(b, s.options, s.cards), if s.limit > 0 then [Limit(s.limit)] else [],
               CardsDrops(b, s.options, s.cards));
  }
}
