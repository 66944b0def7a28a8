/** The compiler from segments to SQL. */
module Generator {
  import opened Wrappers
  import opened Sql
  import opened Segments

  // ---- the tokens of one step ----

  function DevicePrefix(channel: Channel): seq<Token> {
    if channel.Push? then [A(DeviceType(channel.name)), And] else []
  }

  function EventTokens(body: Body): seq<Token>
    requires body.Interaction?
  {
    var column := (if body.channel.Push? then "ctd." else "ct.") + body.event;
    var filter := DevicePrefix(body.channel);
    if body.timed then
      if body.yes then [Open] + filter + [A(Since(column, body.time)), Close]
      else [Open] + filter + [A(Before(column, body.time)), Or] + filter + [A(IsNull(column)), Close]
    else [Open] + filter + [A(if body.yes then NotNull(column) else IsNull(column)), Close]
  }

  function FieldTokens(t: FieldTest, o: Options): seq<Token> {
    match t
    case Nothing => [A(True)]
    case Within(key, days) => [A(Since(key, days))]
    case Compare(key, operator, value) => [A(Field(key, operator, value))]
    case Deliverable(yes) =>
      if yes then [A(Flag("is_valid")), And, Not, A(Flag("is_unsubscribed")), And, Not, A(Flag("has_bounced"))]
      else [Open, Not, A(Flag("is_valid")), Or, A(Flag("is_unsubscribed")), Or,
            A(Flag("has_bounced")), Close]
    case HasChannel(channel, operator) =>
      [A(Field("ct." + channel, "=", operator))]
      + if channel != "has_email" then []
        else
          (if o.addBounced then [] else [And, Not, A(Flag("has_bounced"))])
          + (if o.addInvalid then [] else [And, A(Flag("is_valid"))])
          + (if o.addUnsubscribed then [] else [And, Not, A(Flag("is_unsubscribed"))])
  }

  function StepTokens(b: Backend, o: Options, body: Body, n: nat): seq<Token> {
    match body
    case Interaction(AnyChannel, _, _, _, _, time, _, _) =>
      [Open, A(Since("ct.last_open_date", time)), Or, A(Since("ct.last_click_date", time)), Or,
       A(Since("ct.sms_last_click", time)), Or, A(Since("ct.whatsapp_last_open", time)), Or,
       A(Since("ct.whatsapp_last_click", time)), Or, A(Since("ctd.last_click_date", time)), Close]
    case Interaction(_, yes, _, _, _, _, _, _) =>
      var kind := TableKind(b, body);
      if kind.Some? then [A(Member(Table(kind.value, n), yes, ByEmail(b, body)))] else EventTokens(body)
    case CustomField(text) => [A(Custom(text))]
    case UserField(key, operator, value) => FieldTokens(TestOf(key, operator, value), o)
    case CustomEvent(isIn, _) => [A(Member(Table(CustomEvents, n), isIn, false))]
    case AutomationState(yesterday, text) =>
      [A(if b.V1? && yesterday then AutomationOn(text) else AutomationSince(text))]
    case _ => []
  }

  function ConnToken(c: Connective): Token {
    if c.AndAlso? then And else Or
  }

  /** What precedes a step: the first filter opens the bracket around all of them. */
  function Lead(s: Step, inBody: bool): seq<Token> {
    var connective := if s.conditional.Some? then [ConnToken(s.conditional.value)] else [];
    if !inBody && !s.body.ConditionalCard? then (if s.conditional.Some? then connective else [And]) + [Open]
    else connective
  }

  // ---- a card ----

  /** What the inner loop has gathered after some steps of a card. */
  datatype Gathered = Gathered(tokens: seq<Token>, n: nat, inBody: bool, asked: bool, external: seq<External>,
                               drops: seq<Token>)

  function Gather(b: Backend, o: Options, steps: seq<Step>, n: nat): Gathered {
    if steps == [] then Gathered([], n, false, false, [], [])
    else
      GatherStep(b, o, Gather(b, o, steps[..|steps| - 1], n), steps[|steps| - 1])
  }

  function GatherStep(b: Backend, o: Options, g: Gathered, s: Step): Gathered {
    if s.body.Tag? then g
    else Gathered(
      g.tokens + Lead(s, g.inBody) + StepTokens(b, o, s.body, g.n),
      g.n + |Externals(b, s.body, g.n)|,
      g.inBody || Filters(s),
      g.asked || Asks(b, s.body),
      g.external + Externals(b, s.body, g.n),
      g.drops + Drops(b, s.body, g.n))
  }

  function OpTokens(card: Card): seq<Token> {
    match OpOf(card)
    case Some(UnionWith) => [Union]
    case Some(IntersectWith) => [Intersect]
    case None => []
  }

  function CardHead(card: Card, join: seq<Token>): seq<Token> {
    OpTokens(card) + [Open, Select] + join + [Where, A(InAccount), And, A(IsActive)]
  }

  function TagTokens(ts: seq<Body>): seq<Token>
    requires Tags(ts)
  {
    if ts == [] then []
    else
      var t := ts[|ts| - 1];
      TagTokens(ts[..|ts| - 1]) + [if t.isIn then Intersect else Except, Open, SelectTagged(t.tag), Close]
  }

  function TagToken(t: Body): seq<Token>
    requires t.Tag?
  {
    [if t.isIn then Intersect else Except, Open, SelectTagged(t.tag), Close]
  }

  lemma {:induction false} TagTokensFirst(ts: seq<Body>)
    requires Tags(ts) && ts != []
    ensures TagTokens(ts) == TagToken(ts[0]) + TagTokens(ts[1..])
  {
    if |ts| > 1 {
      var rest, before := ts[1..], ts[..|ts| - 1];
      TagTokensFirst(before);
      assert before[1..] == rest[..|rest| - 1] && before[0] == ts[0];
      TagTokensLast(rest);
      TagTokensLast(ts);
      TagBetween(TagToken(ts[0]), TagTokens(before[1..]), TagToken(ts[|ts| - 1]));
    } else {
      TagTokensLast(ts);
      assert ts[..0] == [] && ts[1..] == [];
    }
  }

  lemma {:induction false} TagTokensLast(ts: seq<Body>)
    requires Tags(ts) && ts != []
    ensures TagTokens(ts) == TagTokens(ts[..|ts| - 1]) + TagToken(ts[|ts| - 1])
  {
  }

  lemma {:induction false} TagBetween(a: seq<Token>, b: seq<Token>, c: seq<Token>)
    ensures a + b + c == a + (b + c)
  {
  }

  function CardTokens(b: Backend, o: Options, card: Card, n: nat): seq<Token> {
    var g := Gather(b, o, card, n);
    (if card == [] then [] else CardHead(card, if g.asked then [Join] else []) + g.tokens)
    + (if g.inBody then [Close] else []) + TagTokens(TagsOf(card)) + [Close]
  }

  // ---- a segment ----

  function CardsTokens(b: Backend, o: Options, cards: seq<Card>): seq<Token> {
    if cards == [] then []
    else
      var k := |cards| - 1;
      CardsTokens(b, o, cards[..k]) + CardTokens(b, o, cards[k], TablesBefore(b, cards, k))
  }

  function CardsExternal(b: Backend, o: Options, cards: seq<Card>): seq<External> {
    if cards == [] then []
    else
      var k := |cards| - 1;
      CardsExternal(b, o, cards[..k]) + Gather(b, o, cards[k], TablesBefore(b, cards, k)).external
  }

  function CardsDrops(b: Backend, o: Options, cards: seq<Card>): seq<Token> {
    if cards == [] then []
    else
      var k := |cards| - 1;
      CardsDrops(b, o, cards[..k]) + Gather(b, o, cards[k], TablesBefore(b, cards, k)).drops
  }

  function Emitted(b: Backend, s: Segment): seq<Token> {
    [Insert, Open] + CardsTokens(b, s.options, s.cards) + (if s.limit > 0 then [Limit(s.limit)] else [])
    + [Close, Semicolon] + CardsDrops(b, s.options, s.cards)
  }

  // ---- the join placeholder ----

  /** `query.replace(hole, r)`: the first occurrence only. */
  function ReplaceFirst(ts: seq<Token>, r: seq<Token>): seq<Token> {
    if ts == [] then []
    else if ts[0] == Hole then r + ts[1..]
    else [ts[0]] + ReplaceFirst(ts[1..], r)
  }

  lemma {:induction false} ReplaceHole(a: seq<Token>, z: seq<Token>, r: seq<Token>)
    requires Hole !in a
    ensures ReplaceFirst(a + [Hole] + z, r) == a + r + z
  {
    var ts := a + [Hole] + z;
    if a == [] {
      assert ts == [Hole] + z;
    } else {
      assert ts[1..] == a[1..] + [Hole] + z;
      ReplaceHole(a[1..], z, r);
    }
  }

  lemma {:induction false} ReplaceNothing(ts: seq<Token>, r: seq<Token>)
    requires Hole !in ts
    ensures ReplaceFirst(ts, r) == ts
  {
    if ts != [] {
      ReplaceNothing(ts[1..], r);
    }
  }

  lemma {:induction false} StepHasNoHole(b: Backend, o: Options, s: Step, n: nat, inBody: bool)
    ensures Hole !in StepTokens(b, o, s.body, n) && Hole !in Lead(s, inBody)
  {
    if s.body.UserField? {
      FieldHasNoHole(TestOf(s.body.key, s.body.operator, s.body.value), o);
    } else if s.body.Interaction? {
      EventHasNoHole(s.body);
    }
  }

  lemma {:induction false} FieldHasNoHole(t: FieldTest, o: Options)
    ensures Hole !in FieldTokens(t, o)
  {
  }

  lemma {:induction false} EventHasNoHole(body: Body)
    requires body.Interaction?
    ensures Hole !in EventTokens(body)
  {
  }

  lemma {:induction false} StepsHaveNoHole(b: Backend, o: Options, steps: seq<Step>, n: nat)
    ensures Hole !in Gather(b, o, steps, n).tokens
  {
    if steps != [] {
      var before := Gather(b, o, steps[..|steps| - 1], n);
      StepsHaveNoHole(b, o, steps[..|steps| - 1], n);
      StepHasNoHole(b, o, steps[|steps| - 1], before.n, before.inBody);
    }
  }

  lemma {:induction false} TagsHaveNoHole(ts: seq<Body>)
    requires Tags(ts)
    ensures Hole !in TagTokens(ts)
  {
    if ts != [] {
      TagsHaveNoHole(ts[..|ts| - 1]);
    }
  }

  lemma {:induction false} CardHasNoHole(b: Backend, o: Options, card: Card, n: nat)
    ensures Hole !in CardTokens(b, o, card, n)
  {
    StepsHaveNoHole(b, o, card, n);
    TagsHaveNoHole(TagsOf(card));
    HeadHasNoHole(card);
    var g := Gather(b, o, card, n);
    CatHasNoHole(CardHead(card, if g.asked then [Join] else []), g.tokens);
    CatHasNoHole(if card == [] then [] else CardHead(card, if g.asked then [Join] else []) + g.tokens,
                 if g.inBody then [Close] else []);
  }

  lemma {:induction false} HeadHasNoHole(card: Card)
    ensures Hole !in CardHead(card, [Join]) && Hole !in CardHead(card, [])
  {
  }

  lemma {:induction false} CatHasNoHole(a: seq<Token>, z: seq<Token>)
    requires Hole !in a && Hole !in z
    ensures Hole !in a + z
  {
  }

  /** No placeholder is left over. */
  lemma {:induction false} CardsHaveNoHole(b: Backend, o: Options, cards: seq<Card>)
    ensures Hole !in CardsTokens(b, o, cards)
  {
    if cards != [] {
      var k := |cards| - 1;
      CardsHaveNoHole(b, o, cards[..k]);
      CardHasNoHole(b, o, cards[k], TablesBefore(b, cards, k));
    }
  }

  // ---- the generator ----

  /** The join a step asks for replaces the card's placeholder; a second request finds none and changes nothing. */
  method PushJoin(query: seq<Token>, ghost before: seq<Token>, ghost asked: bool, ghost after: seq<Token>)
    returns (r: seq<Token>)
    requires Hole !in before && Hole !in after
    requires query == before + (if asked then [Join] else [Hole]) + after
    ensures r == before + [Join] + after
  {
    r := ReplaceFirst(query, [Join]);
    if asked {
      ReplaceNothing(query, [Join]);
    } else {
      ReplaceHole(before, after, [Join]);
    }
  }

  method EmitLead(s: Step, query: seq<Token>, status: nat, ghost inBody: bool) returns (r: seq<Token>, status': nat)
    requires !s.body.Tag? && status == if inBody then 2 else 1
    ensures r == query + Lead(s, inBody)
    ensures status' == if inBody || Filters(s) then 2 else 1
  {
    r, status' := query, status;
    if status == 1 && !s.body.ConditionalCard? {
      r := r + ((if s.conditional.Some? then [ConnToken(s.conditional.value)] else [And]) + [Open]);
      status' := 2;
    } else if s.conditional.Some? {
      r := r + [ConnToken(s.conditional.value)];
    }
  }

  lemma {:induction false} StepBehindHole(before: seq<Token>, hole: seq<Token>, where: seq<Token>, a: seq<Token>,
                                   b: seq<Token>, c: seq<Token>)
    ensures before + hole + where + a + b + c == before + hole + (where + (a + b + c))
    ensures before + hole + where + (a + b + c) == before + hole + (where + (a + b + c))
  {
  }

  /** One step of the inner loop, after the card's head has been written. */
  method EmitStep(b: Backend, o: Options, s: Step, query: seq<Token>, subQueries: nat, status: nat,
                  ghost before: seq<Token>, ghost where: seq<Token>, ghost g: Gathered)
    returns (r: seq<Token>, status': nat)
    requires !s.body.Tag? && Hole !in before && Hole !in where && Hole !in g.tokens
    requires query == before + (if g.asked then [Join] else [Hole]) + where + g.tokens
    requires subQueries == g.n && status == if g.inBody then 2 else 1
    ensures r == before + (if g.asked || Asks(b, s.body) then [Join] else [Hole]) + where
                 + (g.tokens + Lead(s, g.inBody) + StepTokens(b, o, s.body, g.n))
    ensures status' == if g.inBody || Filters(s) then 2 else 1
  {
    r, status' := EmitLead(s, query, status, g.inBody);
    StepHasNoHole(b, o, s, subQueries, g.inBody);
    r := Extend(r, StepTokens(b, o, s.body, subQueries), Asks(b, s.body), before, where, g.tokens, Lead(s, g.inBody),
                g.asked);
  }

  method Extend(query: seq<Token>, tokens: seq<Token>, asks: bool, ghost before: seq<Token>, ghost where: seq<Token>,
                ghost done: seq<Token>, ghost lead: seq<Token>, ghost asked: bool) returns (r: seq<Token>)
    requires Hole !in before && Hole !in where && Hole !in done && Hole !in lead && Hole !in tokens
    requires query == before + (if asked then [Join] else [Hole]) + where + done + lead
    ensures r == before + (if asked || asks then [Join] else [Hole]) + where + (done + lead + tokens)
  {
    r := query + tokens;
    StepBehindHole(before, if asked then [Join] else [Hole], where, done, lead, tokens);
    StepBehindHole(before, [Join], where, done, lead, tokens);
    if asks {
      r := PushJoin(r, before, asked, where + (done + lead + tokens));
    }
  }

  // ---- counting tables ----

  lemma {:induction false} GatherCounts(b: Backend, o: Options, steps: seq<Step>, n: nat)
    ensures Gather(b, o, steps, n).n == n + TablesUsed(b, steps)
  {
    if steps != [] {
      GatherCounts(b, o, steps[..|steps| - 1], n);
    }
  }

  lemma {:induction false} TablesBeforePrefix(b: Backend, cards: seq<Card>, m: nat, i: nat)
    requires i <= m <= |cards|
    ensures TablesBefore(b, cards[..m], i) == TablesBefore(b, cards, i)
  {
    if i > 0 {
      TablesBeforePrefix(b, cards, m, i - 1);
    }
  }

  // ---- the loops ----

  /** The query while a card is open. */
  function OpenCard(before: seq<Token>, g: Gathered): seq<Token> {
    before + (if g.asked then [Join] else [Hole]) + [Where, A(InAccount), And, A(IsActive)] + g.tokens
  }

  method EmitFilter(b: Backend, o: Options, step: Step, query: seq<Token>, subQueries: nat, status: nat,
                    ghost before: seq<Token>, ghost g: Gathered)
    returns (r: seq<Token>, status': nat)
    requires subQueries == g.n
    requires !step.body.Tag? && Hole !in before && Hole !in g.tokens
    requires query == OpenCard(before, g) && status == if g.inBody then 2 else 1
    ensures r == OpenCard(before, GatherStep(b, o, g, step))
    ensures status' == if GatherStep(b, o, g, step).inBody then 2 else 1
  {
    r, status' := EmitStep(b, o, step, query, subQueries, status, before, [Where, A(InAccount), And, A(IsActive)], g);
  }

  lemma {:induction false} GatherNext(b: Backend, o: Options, card: Card, i: nat, n: nat)
    requires i < |card|
    ensures Gather(b, o, card[..i + 1], n) == GatherStep(b, o, Gather(b, o, card[..i], n), card[i])
    ensures TagsOf(card[..i + 1]) == TagsOf(card[..i]) + if card[i].body.Tag? then [card[i].body] else []
    ensures Hole !in Gather(b, o, card[..i], n).tokens
  {
    assert card[..i + 1][..i] == card[..i];
    StepsHaveNoHole(b, o, card[..i], n);
  }

  /** The body of the inner loop for a step that is not a tag. */
  method Advance(b: Backend, o: Options, step: Step, query: seq<Token>, subQueries: nat, status: nat,
                 external: seq<External>, drops: seq<Token>, ghost before: seq<Token>, ghost g: Gathered,
                 ghost g': Gathered)
    returns (r: seq<Token>, subQueries': nat, status': nat, external': seq<External>, drops': seq<Token>)
    requires !step.body.Tag? && Hole !in before && Hole !in g.tokens && g' == GatherStep(b, o, g, step)
    requires query == OpenCard(before, g) && status == (if g.inBody then 2 else 1)
    requires external == g.external && drops == g.drops && subQueries == g.n
    ensures r == OpenCard(before, g') && status' == (if g'.inBody then 2 else 1)
    ensures external' == g'.external && drops' == g'.drops && subQueries' == g'.n
  {
    r, status' := EmitFilter(b, o, step, query, subQueries, status, before, g);
    external', drops' := external + Externals(b, step.body, subQueries), drops + Drops(b, step.body, subQueries);
    subQueries' := subQueries + |Externals(b, step.body, subQueries)|;
  }

  method EmitCard(b: Backend, o: Options, card: Card, query: seq<Token>, subQueries: nat)
    returns (r: seq<Token>, subQueries': nat, external: seq<External>, drops: seq<Token>)
    requires Hole !in query
    ensures r == query + CardTokens(b, o, card, subQueries)
    ensures var g := Gather(b, o, card, subQueries); external == g.external && drops == g.drops && subQueries' == g.n
  {
    ghost var g;
    var status, tagsCard;
    r, subQueries', external, drops, status, tagsCard, g := EmitSteps(b, o, card, query, subQueries);
    StepsHaveNoHole(b, o, card, subQueries);
    r := EndCard(b, o, card, r, status, tagsCard, query, g);
  }

  method EmitSteps(b: Backend, o: Options, card: Card, query: seq<Token>, subQueries: nat)
    returns (r: seq<Token>, subQueries': nat, external: seq<External>, drops: seq<Token>, status: nat,
             tagsCard: seq<Body>, ghost g: Gathered)
    requires Hole !in query
    ensures g == Gather(b, o, card, subQueries) && tagsCard == TagsOf(card)
    ensures external == g.external && drops == g.drops && subQueries' == g.n
    ensures card == [] ==> r == query && status == 0
    ensures card != [] ==>
              r == OpenCard(query + OpTokens(card) + [Open, Select], g) && status == if g.inBody then 2 else 1
  {
    r, subQueries', external, drops, status, tagsCard := query, subQueries, [], [], 0, [];
    var isConditionalCard := false;
    ghost var before := query + OpTokens(card) + [Open, Select];
    g := Gather(b, o, [], subQueries);
    for i := 0 to |card|
      invariant isConditionalCard == (i > 0) && tagsCard == TagsOf(card[..i])
      invariant g == Gather(b, o, card[..i], subQueries) && (i == 0 ==> !g.asked && g.tokens == [] && !g.inBody)
      invariant external == g.external && drops == g.drops && subQueries' == g.n
      invariant i == 0 ==> r == query && status == 0
      invariant i > 0 ==> r == OpenCard(before, g) && status == if g.inBody then 2 else 1
    {
      GatherNext(b, o, card, i, subQueries);
      var step := card[i];
      if !isConditionalCard {
        r := r + OpTokens(card) + [Open, Select] + [Hole] + [Where, A(InAccount), And, A(IsActive)];
        isConditionalCard, status := true, 1;
        assert r == OpenCard(before, g);
      }
      if step.body.Tag? {
        tagsCard := tagsCard + [step.body];
        continue;
      }
      ghost var g' := Gather(b, o, card[..i + 1], subQueries);
      r, subQueries', status, external, drops :=
        Advance(b, o, step, r, subQueries', status, external, drops, before, g, g');
      g := g';
    }
    assert card[..|card|] == card;
  }

  /** Behind the inner loop: the unused placeholder goes, the bracket closes, the tags follow. */
  method EndCard(b: Backend, o: Options, card: Card, query: seq<Token>, status: nat, tagsCard: seq<Body>,
                 ghost start: seq<Token>, ghost g: Gathered)
    returns (r: seq<Token>)
    requires Hole !in start && Hole !in g.tokens && Tags(tagsCard)
    requires card == [] ==> query == start && status == 0 && !g.inBody
    requires card != [] ==>
               query == OpenCard(start + OpTokens(card) + [Open, Select], g) && status == if g.inBody then 2 else 1
    ensures r == start + ((if card == [] then [] else CardHead(card, if g.asked then [Join] else []) + g.tokens)
                          + (if g.inBody then [Close] else []) + TagTokens(tagsCard) + [Close])
  {
    r := DropHole(card, query, start, g);
    if status == 2 {
      r := r + [Close];
    }
    r := EmitTags(r, tagsCard);
    r := r + [Close];
    ghost var body := if card == [] then [] else CardHead(card, if g.asked then [Join] else []) + g.tokens;
    CardBehindStart(start, body, if g.inBody then [Close] else [], TagTokens(tagsCard));
  }

  lemma {:induction false} CardBehindStart(start: seq<Token>, body: seq<Token>, close: seq<Token>, tags: seq<Token>)
    ensures start + body + close + tags + [Close] == start + (body + close + tags + [Close])
    ensures start + body + [] == start + body
  {
  }

  method EmitTags(query: seq<Token>, tagsCard: seq<Body>) returns (r: seq<Token>)
    requires Tags(tagsCard)
    ensures r == query + TagTokens(tagsCard)
  {
    r := query;
    for i := 0 to |tagsCard|
      invariant r == query + TagTokens(tagsCard[..i])
    {
      assert tagsCard[..i + 1][..i] == tagsCard[..i];
      var t := tagsCard[i];
      r := r + [if t.isIn then Intersect else Except, Open, SelectTagged(t.tag), Close];
    }
    assert tagsCard[..|tagsCard|] == tagsCard;
  }

  method DropHole(card: Card, query: seq<Token>, ghost start: seq<Token>, ghost g: Gathered)
    returns (r: seq<Token>)
    requires Hole !in start && Hole !in g.tokens
    requires card == [] ==> query == start
    requires card != [] ==> query == OpenCard(start + OpTokens(card) + [Open, Select], g)
    ensures r == start + if card == [] then [] else CardHead(card, if g.asked then [Join] else []) + g.tokens
  {
    r := ReplaceFirst(query, []);
    if card == [] {
      ReplaceNothing(query, []);
    } else {
      HoleGone(OpTokens(card), start, g);
    }
  }

  lemma {:induction false} HoleGone(op: seq<Token>, start: seq<Token>, g: Gathered)
    requires Hole !in start && Hole !in op && Hole !in g.tokens
    ensures ReplaceFirst(OpenCard(start + op + [Open, Select], g), []) ==
            start + (op + [Open, Select] + (if g.asked then [Join] else []) + [Where, A(InAccount), And, A(IsActive)]
                     + g.tokens)
  {
    var before, after := start + op + [Open, Select], [Where, A(InAccount), And, A(IsActive)] + g.tokens;
    var query := OpenCard(before, g);
    assert query == before + (if g.asked then [Join] else [Hole]) + after;
    if g.asked {
      ReplaceNothing(query, []);
    } else {
      ReplaceHole(before, after, []);
    }
  }

  lemma {:induction false} CardsNext(b: Backend, o: Options, cards: seq<Card>, k: nat)
    requires k < |cards|
    ensures var n := TablesBefore(b, cards, k);
            && CardsTokens(b, o, cards[..k + 1]) == CardsTokens(b, o, cards[..k]) + CardTokens(b, o, cards[k], n)
            && CardsExternal(b, o, cards[..k + 1]) ==
               CardsExternal(b, o, cards[..k]) + Gather(b, o, cards[k], n).external
            && CardsDrops(b, o, cards[..k + 1]) == CardsDrops(b, o, cards[..k]) + Gather(b, o, cards[k], n).drops
            && TablesBefore(b, cards, k + 1) == Gather(b, o, cards[k], n).n
    ensures Hole !in CardsTokens(b, o, cards[..k])
  {
    assert cards[..k + 1][..k] == cards[..k];
    CardsHaveNoHole(b, o, cards[..k]);
    TablesBeforePrefix(b, cards, k + 1, k);
    GatherCounts(b, o, cards[k], TablesBefore(b, cards, k));
  }

  lemma {:induction false} CardBehindCards(a: seq<Token>, b: seq<Token>, c: seq<Token>)
    ensures a + b + c == a + (b + c)
    ensures Hole !in a && Hole !in b ==> Hole !in a + b
  {
  }

  method EmitCards(b: Backend, o: Options, cards: seq<Card>)
    returns (query: seq<Token>, external: seq<External>, endQuery: seq<Token>)
    ensures query == [Insert, Open] + CardsTokens(b, o, cards)
    ensures external == CardsExternal(b, o, cards) && endQuery == CardsDrops(b, o, cards)
  {
    query, external, endQuery := [Insert, Open], [], [];
    var subQueries := 0;
    for k := 0 to |cards|
      invariant query == [Insert, Open] + CardsTokens(b, o, cards[..k])
      invariant external == CardsExternal(b, o, cards[..k]) && endQuery == CardsDrops(b, o, cards[..k])
      invariant subQueries == TablesBefore(b, cards, k)
    {
      CardsNext(b, o, cards, k);
      var more, drops;
      CardBehindCards([Insert, Open], CardsTokens(b, o, cards[..k]), CardTokens(b, o, cards[k], subQueries));
      query, subQueries, more, drops := EmitCard(b, o, cards[k], query, subQueries);
      external, endQuery := external + more, endQuery + drops;
    }
    assert cards[..|cards|] == cards;
  }

  method Generate(b: Backend, s: Segment) returns (query: seq<Token>, external: seq<External>)
    ensures query == Emitted(b, s) && external == CardsExternal(b, s.options, s.cards)
  {
    var endQuery;
    query, external, endQuery := EmitCards(b, s.options, s.cards);
    query := Finish(query, s.limit, endQuery);
  }

  method Finish(query: seq<Token>, limit: nat, endQuery: seq<Token>) returns (r: seq<Token>)
    ensures r == query + (if limit > 0 then [Limit(limit)] else []) + [Close, Semicolon] + endQuery
  {
    r := query;
    if limit > 0 {
      r := r + [Limit(limit)];
    }
    r := r + [Close, Semicolon];
    if endQuery != [] {
      r := r + endQuery;
    }
  }
}
