/** Segments as users build them, and what they mean. */
module Segments {
  import opened Wrappers
  import opened Sql

  datatype Backend = V1 | V2

  datatype Connective = AndAlso | OrElse

  datatype CardOp = UnionWith | IntersectWith

  datatype Channel = AnyChannel | PageView | Push(name: string) | Message(name: string)

  /** `once` stands for a times value that is missing or 1, `timed` for a time that is set and not `all`; `query`
      stands for the ClickHouse text of an external step. */
  datatype Body =
    | ConditionalCard(op: Option<CardOp>)
    | Tag(tag: string, isIn: bool)
    | Interaction(channel: Channel, yes: bool, anyMessage: bool, once: bool, event: string, time: string, timed: bool,
                  query: string)
    | CustomField(text: string)
    | UserField(key: string, operator: Option<string>, value: Option<string>)
    | CustomEvent(isIn: bool, query: string)
    | AutomationState(yesterday: bool, text: string)
    | Unknown

  datatype Step = Step(conditional: Option<Connective>, body: Body)

  datatype Options = Options(addBounced: bool, addInvalid: bool, addUnsubscribed: bool)

  type Card = seq<Step>

  datatype Segment = Segment(cards: seq<Card>, options: Options, limit: nat)

  datatype External = External(table: Table, query: string, byEmail: bool)

  /** Tags are handled after the other steps of their card; a card's opening entry emits no predicate. */
  predicate Filters(s: Step) {
    !s.body.Tag? && !s.body.ConditionalCard?
  }

  // ---- steps that need a result table of their own ----

  function TableKind(b: Backend, body: Body): Option<Kind> {
    match body
    case Interaction(AnyChannel, _, _, _, _, _, _, _) => None
    case Interaction(PageView, _, _, _, _, _, _, _) => Some(PageViews)
    case Interaction(_, _, anyMessage, once, _, _, _, _) =>
      if b.V1? && anyMessage && once then None else if once then Some(Views) else Some(Counts)
    case CustomEvent(_, _) => Some(CustomEvents)
    case _ => None
  }

  function ByEmail(b: Backend, body: Body): bool {
    b.V2? && body.Interaction? && !body.channel.PageView?
  }

  function Externals(b: Backend, body: Body, n: nat): seq<External> {
    match TableKind(b, body)
    case Some(kind) => [External(Table(kind, n), if body.Interaction? || body.CustomEvent? then body.query else "",
                                 ByEmail(b, body))]
    case None => []
  }

  /** Only the counting tables are dropped again. */
  function Drops(b: Backend, body: Body, n: nat): seq<Token> {
    if TableKind(b, body) == Some(Counts) then [Drop(Table(Counts, n))] else []
  }

  /** The step needs the contact's devices. */
  predicate Asks(b: Backend, body: Body) {
    match body
    case Interaction(AnyChannel, _, _, _, _, _, _, _) => true
    case Interaction(Push(_), _, anyMessage, once, _, _, _, _) => b.V1? && anyMessage && once
    case UserField(key, _, value) => key == "communication_channels" && value == Some("has_web_push")
    case _ => false
  }

  // ---- user fields ----

  /** How a user field is tested; steps that were never completed degrade to TRUE. */
  datatype FieldTest =
    | Nothing
    | Within(key: string, days: string)
    | Compare(key: string, operator: string, value: string)
    | Deliverable(yes: bool)
    | HasChannel(channel: string, operator: string)

  function Value(value: Option<string>): string {
    if value.Some? then value.value else "undefined"
  }

  predicate Missing(value: Option<string>) {
    value.None? || value.value == ""
  }

  function TestOf(key: string, operator: Option<string>, value: Option<string>): FieldTest {
    if key == "" then Nothing
    else if key == "created_at_date" || key == "last_automation_date" then
      if operator == Some("-") then Within("ct." + key, Value(value))
      else Compare(key, if operator.Some? then operator.value else "=", Value(value))
    else if key == "email_provider" then
      Compare(key, if operator in {Some("="), Some("!=")} then operator.value else "=", Value(value))
    else if key == "is_email_deliverable" && operator in {None, Some("true")} then Deliverable(true)
    else if key == "is_email_deliverable" && operator == Some("false") then Deliverable(false)
    else if key == "communication_channels" then
      if Missing(value) then Nothing
      else HasChannel(value.value, if operator == Some("false") then "false" else "true")
    else if value.None? || Missing(operator) then Nothing
    else Compare(key, operator.value, value.value)
  }

  // ---- what a step means ----

  predicate AnyChannelMeans(days: string, w: World, c: nat, d: Option<nat>) {
    exists column | column in ["ct.last_open_date", "ct.last_click_date", "ct.sms_last_click", "ct.whatsapp_last_open",
                               "ct.whatsapp_last_click", "ctd.last_click_date"] :: w.holds(Since(column, days), c, d)
  }

  /** Interaction with any message: `event` happened (within the time, if one is set), or it did not. For a push channel
      it is the device that has the dates. */
  predicate EventMeans(b: Body, w: World, c: nat, d: Option<nat>)
    requires b.Interaction?
  {
    var column := (if b.channel.Push? then "ctd." else "ct.") + b.event;
    && (b.channel.Push? ==> w.holds(DeviceType(b.channel.name), c, d))
    && (if b.timed then
          if b.yes then w.holds(Since(column, b.time), c, d)
          else w.holds(Before(column, b.time), c, d) || w.holds(IsNull(column), c, d)
        else
          if b.yes then w.holds(NotNull(column), c, d) else w.holds(IsNull(column), c, d))
  }

  predicate FieldMeans(t: FieldTest, o: Options, w: World, c: nat, d: Option<nat>) {
    var valid, unsubscribed, bounced :=
      w.holds(Flag("is_valid"), c, d), w.holds(Flag("is_unsubscribed"), c, d), w.holds(Flag("has_bounced"), c, d);
    match t
    case Nothing => true
    case Within(key, days) => w.holds(Since(key, days), c, d)
    case Compare(key, operator, value) => w.holds(Field(key, operator, value), c, d)
    case Deliverable(yes) => yes == (valid && !unsubscribed && !bounced)
    case HasChannel(channel, operator) =>
      && w.holds(Field("ct." + channel, "=", operator), c, d)
      && (channel == "has_email" ==>
            (o.addBounced || !bounced) && (o.addInvalid || valid) && (o.addUnsubscribed || !unsubscribed))
  }

  /** Step `body`, its table being number `n`. */
  predicate Means(b: Backend, o: Options, body: Body, n: nat, w: World, c: nat, d: Option<nat>) {
    match body
    case Interaction(AnyChannel, _, _, _, _, time, _, _) => AnyChannelMeans(time, w, c, d)
    case Interaction(_, yes, _, _, _, _, _, _) =>
      var kind := TableKind(b, body);
      if kind.Some? then w.holds(Member(Table(kind.value, n), yes, ByEmail(b, body)), c, d)
      else EventMeans(body, w, c, d)
    case CustomField(text) => w.holds(Custom(text), c, d)
    case UserField(key, operator, value) => FieldMeans(TestOf(key, operator, value), o, w, c, d)
    case CustomEvent(isIn, _) => w.holds(Member(Table(CustomEvents, n), isIn, false), c, d)
    case AutomationState(yesterday, text) =>
      w.holds(if b.V1? && yesterday then AutomationOn(text) else AutomationSince(text), c, d)
    case _ => true
  }

  // ---- what a card means ----

  /** How many tables the steps use. */
  function TablesUsed(b: Backend, steps: seq<Step>): nat {
    if steps == [] then 0
    else TablesUsed(b, steps[..|steps| - 1]) + |Externals(b, steps[|steps| - 1].body, 0)|
  }

  /** A filter and the number its table gets, if it needs one. */
  datatype Placed = Placed(body: Body, n: nat)

  /** The filters of a card, grouped: OR separates alternatives, AND extends the current one. */
  function Alternatives(b: Backend, steps: seq<Step>, n: nat): (r: seq<seq<Placed>>)
    ensures forall i | 0 <= i < |r| :: r[i] != []
    ensures r == [] <==> forall s <- steps :: !Filters(s)
  {
    if steps == [] then []
    else
      var before, s := steps[..|steps| - 1], steps[|steps| - 1];
      var gs := Alternatives(b, before, n);
      assert steps == before + [s];
      if !Filters(s) then gs else Grown(gs, s.conditional, Placed(s.body, n + TablesUsed(b, before)))
  }

  /** A filter that is the first one or comes with OR starts a group, any other joins the last one. */
  function Grown(gs: seq<seq<Placed>>, conditional: Option<Connective>, p: Placed): seq<seq<Placed>> {
    if gs == [] || conditional == Some(OrElse) then gs + [[p]] else gs[..|gs| - 1] + [gs[|gs| - 1] + [p]]
  }

  predicate AllMean(b: Backend, o: Options, g: seq<Placed>, w: World, c: nat, d: Option<nat>) {
    forall i | 0 <= i < |g| :: Means(b, o, g[i].body, g[i].n, w, c, d)
  }

  /** The OR of the ANDs. A card without filters filters nothing. */
  predicate FiltersMean(b: Backend, o: Options, steps: seq<Step>, n: nat, w: World, c: nat, d: Option<nat>) {
    var gs := Alternatives(b, steps, n);
    gs == [] || exists i :: 0 <= i < |gs| && AllMean(b, o, gs[i], w, c, d)
  }

  predicate Joined(b: Backend, steps: seq<Step>) {
    exists s <- steps :: Asks(b, s.body)
  }

  /** Active contacts of the account that pass the filters; if a step looks at devices, with one and the same device
      in all of them. */
  predicate ContactMeans(b: Backend, o: Options, steps: seq<Step>, n: nat, w: World, c: nat, d: Option<nat>) {
    w.holds(InAccount, c, d) && w.holds(IsActive, c, d) && FiltersMean(b, o, steps, n, w, c, d)
  }

  predicate SelectMeans(b: Backend, o: Options, steps: seq<Step>, n: nat, w: World, c: nat) {
    if Joined(b, steps) then exists d :: d in w.devices(c) && ContactMeans(b, o, steps, n, w, c, Some(d))
    else ContactMeans(b, o, steps, n, w, c, None)
  }

  // ---- tags ----

  function TagsOf(steps: seq<Step>): (r: seq<Body>)
    ensures forall t <- r :: t.Tag?
  {
    if steps == [] then []
    else
      var s := steps[|steps| - 1];
      TagsOf(steps[..|steps| - 1]) + if s.body.Tag? then [s.body] else []
  }

  predicate Tags(ts: seq<Body>) {
    forall t <- ts :: t.Tag?
  }

  /** The contact has the tags of the `in` entries up to the first `not in` entry. */
  predicate HasLeading(ts: seq<Body>, w: World, c: nat)
    requires Tags(ts)
  {
    ts == [] || !ts[0].isIn || (w.tagged(ts[0].tag, c) && HasLeading(ts[1..], w, c))
  }

  /** No `not in` entry removes the contact. Since INTERSECT binds first, such an entry removes only contacts that also
      have the tags of the `in` entries right behind it. */
  predicate Kept(ts: seq<Body>, w: World, c: nat)
    requires Tags(ts)
  {
    ts == [] ||
    ((!ts[0].isIn ==> !(w.tagged(ts[0].tag, c) && HasLeading(ts[1..], w, c))) && Kept(ts[1..], w, c))
  }

  predicate CardMeans(b: Backend, o: Options, steps: seq<Step>, n: nat, w: World, c: nat) {
    var ts := TagsOf(steps);
    SelectMeans(b, o, steps, n, w, c) && HasLeading(ts, w, c) && Kept(ts, w, c)
  }

  // ---- segments ----

  function TablesBefore(b: Backend, cards: seq<Card>, i: nat): nat
    requires i <= |cards|
  {
    if i == 0 then 0 else TablesBefore(b, cards, i - 1) + TablesUsed(b, cards[i - 1])
  }

  function OpOf(card: Card): Option<CardOp> {
    if card != [] && card[0].body.ConditionalCard? then card[0].body.op else None
  }

  function Ops(cards: seq<Card>): (ops: seq<Option<CardOp>>)
    ensures |ops| == |cards|
  {
    seq(|cards|, i requires 0 <= i < |cards| => OpOf(cards[i]))
  }

  /** For each card whether it means the contact. */
  function Meanings(b: Backend, o: Options, cards: seq<Card>, w: World, c: nat): (m: seq<bool>)
    ensures |m| == |cards|
  {
    seq(|cards|, i requires 0 <= i < |cards| => CardMeans(b, o, cards[i], TablesBefore(b, cards, i), w, c))
  }

  /** Card `i` and all cards tied to it by INTERSECT mean the contact. */
  predicate RunMeans(ops: seq<Option<CardOp>>, m: seq<bool>, i: nat)
    requires |ops| == |m| && i < |m|
    decreases |m| - i
  {
    m[i] && (i + 1 < |m| && ops[i + 1] == Some(IntersectWith) ==> RunMeans(ops, m, i + 1))
  }

  /** A segment is the union of its runs. */
  predicate SegmentMeans(b: Backend, s: Segment, w: World, c: nat) {
    var ops, m := Ops(s.cards), Meanings(b, s.options, s.cards, w, c);
    exists i :: 0 <= i < |m| && (i == 0 || ops[i] == Some(UnionWith)) && RunMeans(ops, m, i)
  }

  // ---- well-formed input ----

  /** What the segment builder sends: the first filter of a card may carry a connective, AND; every later one carries
      AND or OR. */
  ghost predicate Connected(steps: seq<Step>) {
    && (forall s <- steps :: !s.body.Unknown? && (s.body.ConditionalCard? ==> s.conditional.None?))
    && forall i | 0 <= i < |steps| && Filters(steps[i]) ::
         steps[i].conditional.Some? || forall j | 0 <= j < i :: !Filters(steps[j])
  }

  /** The first filter does not carry OR. */
  ghost predicate Scoped(steps: seq<Step>) {
    forall i | 0 <= i < |steps| && Filters(steps[i]) && (forall j | 0 <= j < i :: !Filters(steps[j])) ::
      steps[i].conditional != Some(OrElse)
  }

  ghost predicate WellFormed(s: Segment) {
    && s.cards != []
    && (forall i {:trigger Connected(s.cards[i])} | 0 <= i < |s.cards| :: s.cards[i] != [] && Connected(s.cards[i]))
    && (forall i | 0 <= i < |s.cards| :: OpOf(s.cards[i]).None? <==> i == 0)
  }
}
