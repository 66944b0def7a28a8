/** The second generator: events come from a daily rollup and are joined by email, everything else as in the first.
    Its loops carry the whole query, placeholder included, from step to step. */
module GeneratorV2 {
  import opened Wrappers
  import opened Sql
  import opened Segments
  import opened Generator

  // ---- one step ----

  function InteractionText(body: Body, n: nat): seq<Token>
    requires body.Interaction?
  {
    if body.channel.AnyChannel? then
      [Open, A(Since("ct.last_open_date", body.time)), Or, A(Since("ct.last_click_date", body.time)), Or,
       A(Since("ct.sms_last_click", body.time)), Or, A(Since("ct.whatsapp_last_open", body.time)), Or,
       A(Since("ct.whatsapp_last_click", body.time)), Or, A(Since("ctd.last_click_date", body.time)), Close]
    else if body.channel.PageView? then [A(Member(Table(PageViews, n), body.yes, false))]
    else if body.once then [A(Member(Table(Views, n), body.yes, true))]
    else [A(Member(Table(Counts, n), body.yes, true))]
  }

  function GenericFieldText(key: string, operator: Option<string>, value: Option<string>): seq<Token> {
    if value.None? || operator.None? || operator.value == "" then [A(True)]
    else [A(Field(key, operator.value, value.value))]
  }

  function UserFieldText(key: string, operator: Option<string>, value: Option<string>, o: Options): seq<Token> {
    if key == "" then [A(True)]
    else if key in ["created_at_date", "last_automation_date"] then
      if operator == Some("-") then [A(Since("ct." + key, Value(value)))]
      else [A(Field(key, if operator.None? then "=" else operator.value, Value(value)))]
    else if key == "email_provider" then
      [A(Field(key, if operator == Some("=") || operator == Some("!=") then operator.value else "=", Value(value)))]
    else if key == "is_email_deliverable" then
      var deliverable := if operator.None? then "true" else operator.value;
      if deliverable == "true" then
        [A(Flag("is_valid")), And, Not, A(Flag("is_unsubscribed")), And, Not, A(Flag("has_bounced"))]
      else if deliverable == "false" then
        [Open, Not, A(Flag("is_valid")), Or, A(Flag("is_unsubscribed")), Or, A(Flag("has_bounced")), Close]
      else GenericFieldText(key, operator, value)
    else if key == "communication_channels" then
      if Missing(value) then [A(True)]
      else
        [A(Field("ct." + value.value, "=", if operator == Some("false") then "false" else "true"))]
        + if value.value == "has_email" then
            (if o.addBounced then [] else [And, Not, A(Flag("has_bounced"))])
            + (if o.addInvalid then [] else [And, A(Flag("is_valid"))])
            + (if o.addUnsubscribed then [] else [And, Not, A(Flag("is_unsubscribed"))])
          else []
    else GenericFieldText(key, operator, value)
  }

  function StepText(o: Options, body: Body, n: nat): seq<Token> {
    match body
    case Interaction(_, _, _, _, _, _, _, _) => InteractionText(body, n)
    case CustomField(text) => [A(Custom(text))]
    case UserField(key, operator, value) => UserFieldText(key, operator, value, o)
    case CustomEvent(isIn, _) => [A(Member(Table(CustomEvents, n), isIn, false))]
    case AutomationState(_, text) => [A(AutomationSince(text))]
    case ConditionalCard(_) => []
    case Tag(_, _) => []
    case Unknown => []
  }

  function ExternalSteps(body: Body, n: nat): seq<External> {
    match body
    case Interaction(channel, _, _, once, _, _, _, query) =>
      if channel.AnyChannel? then []
      else if channel.PageView? then [External(Table(PageViews, n), query, false)]
      else [External(Table(if once then Views else Counts, n), query, true)]
    case CustomEvent(_, query) => [External(Table(CustomEvents, n), query, false)]
    case _ => []
  }

  function DroppedTables(body: Body, n: nat): seq<Token> {
    if body.Interaction? && body.channel !in {AnyChannel, PageView} && !body.once then [Drop(Table(Counts, n))] else []
  }

  // ---- the loops ----

  datatype State = State(query: seq<Token>, subQueries: nat, external: seq<External>, endQuery: seq<Token>)

  /** While the steps of a card are read; `status` is 0 before its first step, 1 before its first filter, then 2. */
  datatype CardState = CardState(all: State, status: nat, tagsCard: seq<Body>)

  function OpText(s: Step): seq<Token> {
    if s.body == ConditionalCard(Some(UnionWith)) then [Union]
    else if s.body == ConditionalCard(Some(IntersectWith)) then [Intersect]
    else []
  }

  function StartCard(st: CardState, s: Step): CardState {
    if st.status > 0 then st
    else
      var head := OpText(s) + [Open, Select] + [Hole] + [Where, A(InAccount), And, A(IsActive)];
      st.(all := st.all.(query := st.all.query + head), status := 1)
  }

  function Connect(query: seq<Token>, status: nat, s: Step): seq<Token> {
    if status == 1 && !s.body.ConditionalCard? then
      query + ((if s.conditional.Some? then [ConnToken(s.conditional.value)] else [And]) + [Open])
    else if s.conditional.Some? then query + [ConnToken(s.conditional.value)] else query
  }

  /** The join request of a step, in front of its predicate or behind it. */
  function Append(o: Options, query: seq<Token>, body: Body, n: nat): seq<Token> {
    var text := StepText(o, body, n);
    if body.Interaction? && body.channel.AnyChannel? then ReplaceFirst(query, [Join]) + text
    else if body.UserField? && body.key == "communication_channels" && body.value == Some("has_web_push") then
      ReplaceFirst(query + text, [Join])
    else query + text
  }

  function OnStep(o: Options, st: CardState, s: Step): CardState {
    var c := StartCard(st, s);
    if s.body.Tag? then c.(tagsCard := c.tagsCard + [s.body])
    else
      var n := c.all.subQueries;
      CardState(
        State(Append(o, Connect(c.all.query, c.status, s), s.body, n),
              n + |ExternalSteps(s.body, n)|,
              c.all.external + ExternalSteps(s.body, n),
              c.all.endQuery + DroppedTables(s.body, n)),
        if c.status == 1 && !s.body.ConditionalCard? then 2 else c.status,
        c.tagsCard)
  }

  function OnSteps(o: Options, all: State, card: Card, i: nat): CardState
    requires i <= |card|
  {
    if i == 0 then CardState(all, 0, []) else OnStep(o, OnSteps(o, all, card, i - 1), card[i - 1])
  }

  function TagText(ts: seq<Body>): seq<Token>
    requires Tags(ts)
  {
    if ts == [] then []
    else [if ts[0].isIn then Intersect else Except, Open, SelectTagged(ts[0].tag), Close] + TagText(ts[1..])
  }

  function OnCard(o: Options, all: State, card: Card): State
    requires Tags(OnSteps(o, all, card, |card|).tagsCard)
  {
    var c := OnSteps(o, all, card, |card|);
    var query := ReplaceFirst(c.all.query, []) + if c.status == 2 then [Close] else [];
    c.all.(query := query + TagText(c.tagsCard) + [Close])
  }

  lemma {:induction false} OneTag(o: Options, c: CardState, s: Step)
    ensures OnStep(o, c, s).tagsCard == c.tagsCard + if s.body.Tag? then [s.body] else []
  {
  }

  lemma {:induction false} OnlyTags(o: Options, all: State, card: Card, i: nat)
    requires i <= |card|
    ensures OnSteps(o, all, card, i).tagsCard == TagsOf(card[..i])
  {
    for j := 0 to i
      invariant OnSteps(o, all, card, j).tagsCard == TagsOf(card[..j])
    {
      assert card[..j + 1][..j] == card[..j];
      OneTag(o, OnSteps(o, all, card, j), card[j]);
    }
  }

  function OnCards(o: Options, cards: seq<Card>, k: nat): State
    requires k <= |cards|
  {
    if k == 0 then State([Insert, Open], 0, [], [])
    else
      var all := OnCards(o, cards, k - 1);
      OnlyTags(o, all, cards[k - 1], |cards[k - 1]|);
      OnCard(o, all, cards[k - 1])
  }

  function EmittedV2(s: Segment): seq<Token> {
    var all := OnCards(s.options, s.cards, |s.cards|);
    all.query + (if s.limit > 0 then [Limit(s.limit)] else []) + [Close, Semicolon] + all.endQuery
  }

  function ExternalV2(s: Segment): seq<External> {
    OnCards(s.options, s.cards, |s.cards|).external
  }

  lemma {:induction false} TagTextIs(ts: seq<Body>)
    requires Tags(ts)
    ensures TagText(ts) == TagTokens(ts)
  {
    if ts != [] {
      TagTextIs(ts[1..]);
      TagTokensFirst(ts);
    }
  }
}
