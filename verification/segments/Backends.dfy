/** The second generator is the compiler of the other modules with V2's steps, and agrees with the first one exactly on
    the steps they share. */
module Backends {
  import opened Wrappers
  import opened Sql
  import opened Segments
  import opened Generator
  import opened GeneratorV2
  import opened Correctness

  // ---- one step ----

  lemma {:induction false} UserFieldIs(key: string, operator: Option<string>, value: Option<string>, o: Options)
    ensures UserFieldText(key, operator, value, o) == FieldTokens(TestOf(key, operator, value), o)
  {
  }

  lemma {:induction false} StepIs(o: Options, body: Body, n: nat)
    ensures StepText(o, body, n) == StepTokens(V2, o, body, n)
    ensures ExternalSteps(body, n) == Externals(V2, body, n) && DroppedTables(body, n) == Drops(V2, body, n)
  {
    if body.UserField? {
      UserFieldIs(body.key, body.operator, body.value, o);
    }
  }

  /** The query of an open card, split at its placeholder. */
  lemma {:induction false} JoinPushed(query: seq<Token>, before: seq<Token>, asked: bool, after: seq<Token>)
    requires Hole !in before && Hole !in after
    requires query == before + (if asked then [Join] else [Hole]) + after
    ensures ReplaceFirst(query, [Join]) == before + [Join] + after
  {
    if asked {
      ReplaceNothing(query, [Join]);
    } else {
      ReplaceHole(before, after, [Join]);
    }
  }

  const WHERE_BASE: seq<Token> := [Where, A(InAccount), And, A(IsActive)]

  lemma {:induction false} TextBehindHole(before: seq<Token>, hole: seq<Token>, where: seq<Token>, done: seq<Token>,
                                 lead: seq<Token>, text: seq<Token>)
    ensures before + hole + where + done + lead == before + hole + (where + done + lead)
    ensures before + hole + where + done + lead + text == before + hole + (where + done + lead + text)
    ensures before + hole + (where + done + lead) + text == before + hole + where + (done + lead + text)
    ensures before + hole + (where + done + lead + text) == before + hole + where + (done + lead + text)
  {
  }

  /** Wherever the join request stands, the predicate ends up behind the query with the placeholder replaced. */
  lemma {:induction false} Appended(o: Options, body: Body, n: nat, query: seq<Token>, before: seq<Token>, asked: bool,
                                    done: seq<Token>, lead: seq<Token>, text: seq<Token>)
    requires Hole !in before && Hole !in done && Hole !in lead && Hole !in text
    requires query == before + (if asked then [Join] else [Hole]) + WHERE_BASE + done + lead
    requires text == StepText(o, body, n)
    ensures Append(o, query, body, n) ==
            before + (if asked || Asks(V2, body) then [Join] else [Hole]) + WHERE_BASE + (done + lead + text)
  {
    var hole := if asked then [Join] else [Hole];
    TextBehindHole(before, hole, WHERE_BASE, done, lead, text);
    TextBehindHole(before, [Join], WHERE_BASE, done, lead, text);
    if body.Interaction? && body.channel.AnyChannel? {
      JoinPushed(query, before, asked, WHERE_BASE + done + lead);
    } else if Asks(V2, body) {
      JoinPushed(query + text, before, asked, WHERE_BASE + done + lead + text);
    }
  }

  // ---- a card ----

  /** What the loop over a card's steps has done so far. */
  ghost predicate CardIs(o: Options, all: State, card: Card, i: nat, c: CardState, g: Gathered)
    requires i <= |card|
  {
    && c.all.subQueries == g.n && c.all.external == all.external + g.external
    && c.all.endQuery == all.endQuery + g.drops
    && (if i == 0 then c.all.query == all.query && c.status == 0 && !g.asked && !g.inBody && g.tokens == []
        else
          && c.all.query == OpenCard(all.query + OpTokens(card) + [Open, Select], g)
          && c.status == if g.inBody then 2 else 1)
  }

  lemma {:induction false} CardStarts(o: Options, all: State, card: Card, c: CardState, g: Gathered)
    requires card != [] && CardIs(o, all, card, 0, c, g)
    ensures StartCard(c, card[0]).all.query == OpenCard(all.query + OpTokens(card) + [Open, Select], g)
    ensures StartCard(c, card[0]).status == 1
  {
  }

  lemma {:induction false} ConnectIsLead(query: seq<Token>, status: nat, s: Step, inBody: bool)
    requires status == (if inBody then 2 else 1) && !s.body.Tag?
    ensures Connect(query, status, s) == query + Lead(s, inBody)
    ensures (if status == 1 && !s.body.ConditionalCard? then 2 else status) == if inBody || Filters(s) then 2 else 1
  {
  }

  lemma {:induction false} NextStepIs(o: Options, all: State, card: Card, i: nat, c: CardState, g: Gathered)
    requires i < |card| && Hole !in all.query && Hole !in g.tokens && CardIs(o, all, card, i, c, g)
    ensures CardIs(o, all, card, i + 1, OnStep(o, c, card[i]), GatherStep(V2, o, g, card[i]))
  {
    var s, before := card[i], all.query + OpTokens(card) + [Open, Select];
    if i == 0 {
      CardStarts(o, all, card, c, g);
    }
    var c' := StartCard(c, s);
    if !s.body.Tag? {
      StepIs(o, s.body, g.n);
      StepHasNoHole(V2, o, s, g.n, g.inBody);
      ConnectIsLead(c'.all.query, c'.status, s, g.inBody);
      Appended(o, s.body, g.n, Connect(c'.all.query, c'.status, s), before, g.asked, g.tokens, Lead(s, g.inBody),
               StepTokens(V2, o, s.body, g.n));
    }
  }

  lemma {:induction false} StepsAre(o: Options, all: State, card: Card, i: nat)
    requires i <= |card| && Hole !in all.query
    ensures CardIs(o, all, card, i, OnSteps(o, all, card, i), Gather(V2, o, card[..i], all.subQueries))
  {
    if i > 0 {
      StepsAre(o, all, card, i - 1);
      GatherNext(V2, o, card, i - 1, all.subQueries);
      NextStepIs(o, all, card, i - 1, OnSteps(o, all, card, i - 1), Gather(V2, o, card[..i - 1], all.subQueries));
    }
  }

  lemma {:induction false} OnCardIs(o: Options, all: State, card: Card)
    requires Hole !in all.query
    ensures Tags(OnSteps(o, all, card, |card|).tagsCard)
    ensures var next, g := OnCard(o, all, card), Gather(V2, o, card, all.subQueries);
            && next.query == all.query + CardTokens(V2, o, card, all.subQueries)
            && next.subQueries == g.n && next.external == all.external + g.external
            && next.endQuery == all.endQuery + g.drops
  {
    var c, g := OnSteps(o, all, card, |card|), Gather(V2, o, card, all.subQueries);
    assert card[..|card|] == card;
    StepsAre(o, all, card, |card|);
    OnlyTags(o, all, card, |card|);
    StepsHaveNoHole(V2, o, card, all.subQueries);
    TagTextIs(c.tagsCard);
    var body := if card == [] then [] else CardHead(card, if g.asked then [Join] else []) + g.tokens;
    HoleDropped(all, card, c, g);
    CardBehindStart(all.query, body, if g.inBody then [Close] else [], TagTokens(c.tagsCard));
  }

  lemma {:induction false} HoleDropped(all: State, card: Card, c: CardState, g: Gathered)
    requires Hole !in all.query && Hole !in g.tokens
    requires if card == [] then c.all.query == all.query
             else c.all.query == OpenCard(all.query + OpTokens(card) + [Open, Select], g)
    ensures ReplaceFirst(c.all.query, []) ==
            all.query + if card == [] then [] else CardHead(card, if g.asked then [Join] else []) + g.tokens
  {
    if card == [] {
      ReplaceNothing(all.query, []);
    } else {
      HoleGone(OpTokens(card), all.query, g);
    }
  }

  // ---- a segment ----

  ghost predicate CardsAre(all: State, o: Options, cards: seq<Card>, k: nat)
    requires k <= |cards|
  {
    && all.query == [Insert, Open] + CardsTokens(V2, o, cards[..k])
    && all.subQueries == TablesBefore(V2, cards, k)
    && all.external == CardsExternal(V2, o, cards[..k])
    && all.endQuery == CardsDrops(V2, o, cards[..k])
  }

  lemma {:induction false} NoCards(o: Options, cards: seq<Card>)
    ensures CardsAre(State([Insert, Open], 0, [], []), o, cards, 0)
  {
    assert cards[..0] == [];
  }

  lemma {:induction false} OnCardsAre(o: Options, cards: seq<Card>, k: nat)
    requires k <= |cards|
    ensures CardsAre(OnCards(o, cards, k), o, cards, k)
  {
    NoCards(o, cards);
    for i := 0 to k
      invariant CardsAre(OnCards(o, cards, i), o, cards, i)
    {
      NextCardIs(OnCards(o, cards, i), OnCards(o, cards, i + 1), o, cards, i, i + 1);
    }
  }

  /** What one more card adds, on both sides. */
  lemma {:induction false} CardAdds(all: State, next: State, o: Options, cards: seq<Card>, k: nat)
    returns (ts: seq<Token>, es: seq<External>, ds: seq<Token>)
    requires k < |cards| && Hole !in all.query && all.subQueries == TablesBefore(V2, cards, k)
    requires Tags(OnSteps(o, all, cards[k], |cards[k]|).tagsCard) && next == OnCard(o, all, cards[k])
    ensures next == State(all.query + ts, TablesBefore(V2, cards, k + 1), all.external + es, all.endQuery + ds)
    ensures CardsTokens(V2, o, cards[..k + 1]) == CardsTokens(V2, o, cards[..k]) + ts
    ensures CardsExternal(V2, o, cards[..k + 1]) == CardsExternal(V2, o, cards[..k]) + es
    ensures CardsDrops(V2, o, cards[..k + 1]) == CardsDrops(V2, o, cards[..k]) + ds
  {
    var g := Gather(V2, o, cards[k], all.subQueries);
    ts, es, ds := CardTokens(V2, o, cards[k], all.subQueries), g.external, g.drops;
    OnCardIs(o, all, cards[k]);
    CardsNext(V2, o, cards, k);
  }

  lemma {:induction false} NextCardIs(all: State, next: State, o: Options, cards: seq<Card>, k: nat, m: nat)
    requires k < |cards| && m == k + 1 && CardsAre(all, o, cards, k)
    requires all == OnCards(o, cards, k) && next == OnCards(o, cards, m)
    ensures CardsAre(next, o, cards, m)
  {
    OnlyTags(o, all, cards[k], |cards[k]|);
    CardsHaveNoHole(V2, o, cards[..k]);
    var ts, es, ds := CardAdds(all, next, o, cards, k);
    CardBehindCards([Insert, Open], CardsTokens(V2, o, cards[..k]), ts);
  }

  /** The second generator emits what the compiler emits with V2's steps, for every segment. */
  lemma {:induction false} SecondIsV2(s: Segment)
    ensures EmittedV2(s) == Emitted(V2, s) && ExternalV2(s) == CardsExternal(V2, s.options, s.cards)
  {
    OnCardsAre(s.options, s.cards, |s.cards|);
    assert s.cards[..|s.cards|] == s.cards;
  }

  /** The tokens are a statement that inserts exactly the contacts the segment means, in all data. */
  ghost predicate CompilesTo(b: Backend, s: Segment, tokens: seq<Token>) {
    var r := ParseStatement(tokens);
    && r.Some? && r.value.limit == (if s.limit > 0 then Some(s.limit) else None)
    && forall w: World, c: nat :: InQuery(r.value.query, w, c) <==> SegmentMeans(b, s, w, c)
  }

  /** So it is correct as well. */
  lemma {:induction false} SecondCorrect(s: Segment)
    requires WellFormed(s) && AllScoped(s)
    ensures CompilesTo(V2, s, EmittedV2(s))
  {
    SecondIsV2(s);
    EmittedParses(V2, s);
    forall w: World, c: nat ensures InQuery(SegmentQuery(V2, s), w, c) <==> SegmentMeans(V2, s, w, c) {
      QueryMeans(V2, s, w, c);
    }
  }

  /** The second generator's loops: what they emit is the compiler's output, and so parses to what is meant. */
  method GenerateV2(s: Segment) returns (query: seq<Token>, external: seq<External>)
    ensures query == Emitted(V2, s) && external == CardsExternal(V2, s.options, s.cards)
    ensures WellFormed(s) && AllScoped(s) ==> CompilesTo(V2, s, query)
  {
    var all := State([Insert, Open], 0, [], []);
    for k := 0 to |s.cards|
      invariant all == OnCards(s.options, s.cards, k)
    {
      all := EmitCardV2(s.options, all, s.cards[k]);
    }
    query := Finish(all.query, s.limit, all.endQuery);
    external := all.external;
    SecondIsV2(s);
    if WellFormed(s) && AllScoped(s) {
      SecondCorrect(s);
    }
  }

  method EmitCardV2(o: Options, all: State, card: Card) returns (r: State)
    ensures Tags(OnSteps(o, all, card, |card|).tagsCard) && r == OnCard(o, all, card)
  {
    var c := CardState(all, 0, []);
    for i := 0 to |card|
      invariant c == OnSteps(o, all, card, i)
    {
      c := OnStep(o, c, card[i]);
    }
    OnlyTags(o, all, card, |card|);
    var query := ReplaceFirst(c.all.query, []) + if c.status == 2 then [Close] else [];
    TagTextIs(c.tagsCard);
    query := EmitTags(query, c.tagsCard);
    r := c.all.(query := query + [Close]);
  }

  // ---- where the two generators agree ----

  /** The events of single messages come from other tables, and yesterday's automations are asked for differently. */
  predicate Shared(body: Body) {
    match body
    case Interaction(channel, _, _, _, _, _, _, _) => channel.AnyChannel? || channel.PageView?
    case AutomationState(yesterday, _) => !yesterday
    case _ => true
  }

  /** A step compiles the same way in both exactly if it is shared. */
  lemma {:induction false} StepsAgreeIff(o: Options, body: Body, n: nat)
    ensures StepText(o, body, n) == StepTokens(V1, o, body, n) && ExternalSteps(body, n) == Externals(V1, body, n)
            <==> Shared(body)
    ensures Shared(body) ==> DroppedTables(body, n) == Drops(V1, body, n) && (Asks(V1, body) <==> Asks(V2, body))
  {
    if body.UserField? {
      UserFieldIs(body.key, body.operator, body.value, o);
    } else if body.Interaction? && TableKind(V1, body).None? && !body.channel.AnyChannel? {
      assert StepTokens(V1, o, body, n)[0] == Open && StepText(o, body, n)[0].A?;
    } else if !Shared(body) {
      assert StepTokens(V1, o, body, n)[0] != StepText(o, body, n)[0];
    }
  }

  ghost predicate AllShared(cards: seq<Card>) {
    forall i | 0 <= i < |cards| :: CardShared(cards[i])
  }

  ghost predicate CardShared(card: Card) {
    forall s <- card :: Shared(s.body)
  }

  lemma {:induction false} CardAgrees(o: Options, steps: seq<Step>, n: nat)
    requires CardShared(steps)
    ensures Gather(V1, o, steps, n) == Gather(V2, o, steps, n) && TablesUsed(V1, steps) == TablesUsed(V2, steps)
  {
    if steps != [] {
      var before, s := steps[..|steps| - 1], steps[|steps| - 1];
      assert s in steps && forall t <- before :: t in steps;
      CardAgrees(o, before, n);
      SharedStep(o, s.body, Gather(V1, o, before, n).n);
      SharedStep(o, s.body, 0);
    }
  }

  lemma {:induction false} SharedStep(o: Options, body: Body, n: nat)
    requires Shared(body)
    ensures StepTokens(V1, o, body, n) == StepTokens(V2, o, body, n)
    ensures Externals(V1, body, n) == Externals(V2, body, n)
    ensures Drops(V1, body, n) == Drops(V2, body, n) && (Asks(V1, body) <==> Asks(V2, body))
  {
    StepIs(o, body, n);
    StepsAgreeIff(o, body, n);
  }

  lemma {:induction false} TablesAgree(cards: seq<Card>, i: nat)
    requires AllShared(cards) && i <= |cards|
    ensures TablesBefore(V1, cards, i) == TablesBefore(V2, cards, i)
  {
    if i > 0 {
      TablesAgree(cards, i - 1);
      CardAgrees(Options(true, true, true), cards[i - 1], 0);
    }
  }

  lemma {:induction false} CardsAgree(o: Options, cards: seq<Card>)
    requires AllShared(cards)
    ensures CardsTokens(V1, o, cards) == CardsTokens(V2, o, cards)
    ensures CardsExternal(V1, o, cards) == CardsExternal(V2, o, cards)
    ensures CardsDrops(V1, o, cards) == CardsDrops(V2, o, cards)
  {
    if cards != [] {
      var k := |cards| - 1;
      CardsAgree(o, cards[..k]);
      TablesAgree(cards, k);
      CardAgrees(o, cards[k], TablesBefore(V1, cards, k));
    }
  }

  // ---- what gives a step that is not shared away ----

  predicate ByMessage(body: Body) {
    body.Interaction? && !body.channel.AnyChannel? && !body.channel.PageView?
  }

  predicate OfYesterday(body: Body) {
    body.AutomationState? && body.yesterday
  }

  ghost predicate SomeStep(cards: seq<Card>, p: Body -> bool) {
    exists i :: 0 <= i < |cards| && Among(cards[i], p)
  }

  ghost predicate Among(steps: seq<Step>, p: Body -> bool) {
    exists s <- steps :: p(s.body)
  }

  lemma {:induction false} AmongLast(steps: seq<Step>, p: Body -> bool)
    requires steps != []
    ensures Among(steps, p) <==> Among(steps[..|steps| - 1], p) || p(steps[|steps| - 1].body)
  {
    assert steps == steps[..|steps| - 1] + [steps[|steps| - 1]];
  }

  lemma {:induction false} SomeLast(cards: seq<Card>, p: Body -> bool)
    requires cards != []
    ensures SomeStep(cards, p) <==> SomeStep(cards[..|cards| - 1], p) || Among(cards[|cards| - 1], p)
  {
    var k := |cards| - 1;
    assert forall i | 0 <= i < k :: cards[..k][i] == cards[i];
    if SomeStep(cards[..k], p) {
      var i :| 0 <= i < k && Among(cards[..k][i], p);
      assert Among(cards[i], p);
    }
  }

  ghost predicate ByEmailAmong(es: seq<External>) {
    exists e <- es :: e.byEmail
  }

  lemma {:induction false} CardByEmail(b: Backend, o: Options, steps: seq<Step>, n: nat)
    ensures ByEmailAmong(Gather(b, o, steps, n).external) <==> b.V2? && Among(steps, ByMessage)
  {
    if steps != [] {
      var k := |steps| - 1;
      var g, body := Gather(b, o, steps[..k], n), steps[k].body;
      CardByEmail(b, o, steps[..k], n);
      AmongLast(steps, ByMessage);
      assert ByEmailAmong(Externals(b, body, g.n)) <==> b.V2? && ByMessage(body);
      ByEmailCat(g.external, Externals(b, body, g.n));
    }
  }

  lemma {:induction false} ByEmailCat(es: seq<External>, fs: seq<External>)
    ensures ByEmailAmong(es + fs) <==> ByEmailAmong(es) || ByEmailAmong(fs)
  {
  }

  lemma {:induction false} ExternalByEmail(b: Backend, o: Options, cards: seq<Card>)
    ensures ByEmailAmong(CardsExternal(b, o, cards)) <==> b.V2? && SomeStep(cards, ByMessage)
  {
    if cards != [] {
      var k := |cards| - 1;
      ExternalByEmail(b, o, cards[..k]);
      CardByEmail(b, o, cards[k], TablesBefore(b, cards, k));
      SomeLast(cards, ByMessage);
      ByEmailCat(CardsExternal(b, o, cards[..k]), Gather(b, o, cards[k], TablesBefore(b, cards, k)).external);
    }
  }

  ghost predicate Dated(ts: seq<Token>) {
    exists t <- ts :: t.A? && t.atom.AutomationOn?
  }

  lemma {:induction false} DatedCat(ts: seq<Token>, us: seq<Token>)
    ensures Dated(ts + us) <==> Dated(ts) || Dated(us)
  {
  }

  lemma {:induction false} FieldUndated(t: FieldTest, o: Options)
    ensures !Dated(FieldTokens(t, o))
  {
  }

  lemma {:induction false} EventUndated(body: Body)
    requires body.Interaction?
    ensures !Dated(EventTokens(body))
  {
  }

  lemma {:induction false} StepDated(b: Backend, o: Options, s: Step, n: nat, inBody: bool)
    ensures Dated(StepTokens(b, o, s.body, n)) <==> b.V1? && OfYesterday(s.body)
    ensures !Dated(Lead(s, inBody))
  {
    if s.body.UserField? {
      FieldUndated(TestOf(s.body.key, s.body.operator, s.body.value), o);
    } else if s.body.Interaction? {
      EventUndated(s.body);
    } else if s.body.AutomationState? {
      assert StepTokens(b, o, s.body, n)[0].A?;
    }
  }

  lemma {:induction false} StepsDated(b: Backend, o: Options, steps: seq<Step>, n: nat)
    ensures Dated(Gather(b, o, steps, n).tokens) <==> b.V1? && Among(steps, OfYesterday)
  {
    if steps != [] {
      var k := |steps| - 1;
      var g, s := Gather(b, o, steps[..k], n), steps[k];
      StepsDated(b, o, steps[..k], n);
      AmongLast(steps, OfYesterday);
      StepDated(b, o, s, g.n, g.inBody);
      DatedCat(g.tokens, Lead(s, g.inBody));
      DatedCat(g.tokens + Lead(s, g.inBody), StepTokens(b, o, s.body, g.n));
    }
  }

  lemma {:induction false} TagsUndated(ts: seq<Body>)
    requires Tags(ts)
    ensures !Dated(TagTokens(ts))
  {
    if ts != [] {
      TagsUndated(ts[..|ts| - 1]);
    }
  }

  lemma {:induction false} PiecesDated(head: seq<Token>, tokens: seq<Token>, close: seq<Token>, tags: seq<Token>)
    requires !Dated(head) && !Dated(close) && !Dated(tags)
    ensures Dated(head + tokens + close + tags + [Close]) <==> Dated(tokens)
  {
    DatedCat(head, tokens);
    DatedCat(head + tokens, close);
    DatedCat(head + tokens + close, tags);
    DatedCat(head + tokens + close + tags, [Close]);
  }

  lemma {:induction false} HeadUndated(card: Card, join: seq<Token>)
    requires join == [] || join == [Join]
    ensures !Dated(CardHead(card, join))
  {
  }

  lemma {:induction false} CardDated(b: Backend, o: Options, card: Card, n: nat)
    ensures Dated(CardTokens(b, o, card, n)) <==> b.V1? && Among(card, OfYesterday)
  {
    var g := Gather(b, o, card, n);
    var join, close := if g.asked then [Join] else [], if g.inBody then [Close] else [];
    StepsDated(b, o, card, n);
    TagsUndated(TagsOf(card));
    HeadUndated(card, join);
    var head := if card == [] then [] else CardHead(card, join);
    assert card == [] ==> [] + g.tokens == [];
    PiecesDated(head, g.tokens, close, TagTokens(TagsOf(card)));
  }

  lemma {:induction false} CardsDated(b: Backend, o: Options, cards: seq<Card>)
    ensures Dated(CardsTokens(b, o, cards)) <==> b.V1? && SomeStep(cards, OfYesterday)
  {
    if cards != [] {
      var k := |cards| - 1;
      CardsDated(b, o, cards[..k]);
      CardDated(b, o, cards[k], TablesBefore(b, cards, k));
      SomeLast(cards, OfYesterday);
      DatedCat(CardsTokens(b, o, cards[..k]), CardTokens(b, o, cards[k], TablesBefore(b, cards, k)));
    }
  }

  lemma {:induction false} EmittedDated(b: Backend, s: Segment)
    ensures Dated(Emitted(b, s)) <==> b.V1? && SomeStep(s.cards, OfYesterday)
  {
    var limit, drops := if s.limit > 0 then [Limit(s.limit)] else [], CardsDrops(b, s.options, s.cards);
    CardsDated(b, s.options, s.cards);
    DropsAreDrops(b, s.options, s.cards);
    DatedCat([Insert, Open], CardsTokens(b, s.options, s.cards));
    DatedCat([Insert, Open] + CardsTokens(b, s.options, s.cards), limit);
    DatedCat([Insert, Open] + CardsTokens(b, s.options, s.cards) + limit, [Close, Semicolon]);
    DatedCat([Insert, Open] + CardsTokens(b, s.options, s.cards) + limit + [Close, Semicolon], drops);
  }

  /** The two generators emit the same statement and the same external steps exactly for segments of shared steps. */
  lemma {:induction false} BackendsAgreeIff(s: Segment)
    ensures EmittedV2(s) == Emitted(V1, s) && ExternalV2(s) == CardsExternal(V1, s.options, s.cards)
            <==> AllShared(s.cards)
  {
    SecondIsV2(s);
    if AllShared(s.cards) {
      CardsAgree(s.options, s.cards);
    } else {
      EmittedDated(V1, s);
      EmittedDated(V2, s);
      ExternalByEmail(V1, s.options, s.cards);
      ExternalByEmail(V2, s.options, s.cards);
      NotShared(s.cards);
    }
  }

  lemma {:induction false} NotShared(cards: seq<Card>)
    requires !AllShared(cards)
    ensures SomeStep(cards, ByMessage) || SomeStep(cards, OfYesterday)
  {
    var i :| 0 <= i < |cards| && !CardShared(cards[i]);
    var s :| s in cards[i] && !Shared(s.body);
    if ByMessage(s.body) {
      assert Among(cards[i], ByMessage);
    } else {
      assert Among(cards[i], OfYesterday);
    }
  }
}
