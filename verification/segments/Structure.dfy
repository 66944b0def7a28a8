/** What holds of the emitted tokens for every segment of non-empty cards, well-formed or not. */
module Structure {
  import opened Wrappers
  import opened Sql
  import opened Segments
  import opened Generator

  // ---- the join ----

  function Count(ts: seq<Token>, t: Token): nat {
    if ts == [] then 0 else Count(ts[..|ts| - 1], t) + if ts[|ts| - 1] == t then 1 else 0
  }

  lemma {:induction false} CountAppend(a: seq<Token>, z: seq<Token>, t: Token)
    ensures Count(a + z, t) == Count(a, t) + Count(z, t)
  {
    if z == [] {
      assert a + z == a;
    } else {
      assert (a + z)[..|a + z| - 1] == a + z[..|z| - 1];
      CountAppend(a, z[..|z| - 1], t);
    }
  }

  lemma {:induction false} CountNone(ts: seq<Token>, t: Token)
    requires t !in ts
    ensures Count(ts, t) == 0
  {
    if ts != [] {
      assert forall u <- ts[..|ts| - 1] :: u in ts;
      CountNone(ts[..|ts| - 1], t);
    }
  }

  lemma {:induction false} CountOne(t: Token, u: Token)
    ensures Count([t], u) == if t == u then 1 else 0
  {
    assert [t][..|[t]| - 1] == [];
  }

  // ---- tables ----

  /** The tables a stretch of SQL looks into, in order. */
  function Refs(ts: seq<Token>): seq<Table> {
    if ts == [] then []
    else
      var t := ts[|ts| - 1];
      Refs(ts[..|ts| - 1]) + if t.A? && t.atom.Member? then [t.atom.table] else []
  }

  lemma {:induction false} RefsAppend(a: seq<Token>, z: seq<Token>)
    ensures Refs(a + z) == Refs(a) + Refs(z)
  {
    if z == [] {
      assert a + z == a;
    } else {
      assert (a + z)[..|a + z| - 1] == a + z[..|z| - 1];
      RefsAppend(a, z[..|z| - 1]);
    }
  }

  predicate Plain(t: Token) {
    !(t.A? && t.atom.Member?) && t != Join && t != Hole
  }

  predicate AllPlain(ts: seq<Token>) {
    forall i | 0 <= i < |ts| :: Plain(ts[i])
  }

  lemma {:induction false} PlainRefs(ts: seq<Token>)
    requires AllPlain(ts)
    ensures Refs(ts) == []
  {
    if ts != [] {
      PlainRefs(ts[..|ts| - 1]);
    }
  }

  function TablesOf(es: seq<External>): seq<Table> {
    seq(|es|, i requires 0 <= i < |es| => es[i].table)
  }

  lemma {:induction false} FieldPlain(t: FieldTest, o: Options)
    ensures AllPlain(FieldTokens(t, o))
  {
  }

  lemma {:induction false} EventPlain(body: Body)
    requires body.Interaction?
    ensures AllPlain(EventTokens(body))
  {
  }

  lemma {:induction false} StepPlain(b: Backend, o: Options, body: Body, n: nat)
    requires TableKind(b, body).None?
    ensures AllPlain(StepTokens(b, o, body, n))
  {
    if body.UserField? {
      FieldPlain(TestOf(body.key, body.operator, body.value), o);
    } else if body.Interaction? && !body.channel.AnyChannel? {
      EventPlain(body);
    }
  }

  /** A step looks into its own table and no other. */
  lemma {:induction false} StepRefs(b: Backend, o: Options, body: Body, n: nat)
    ensures Refs(StepTokens(b, o, body, n)) == TablesOf(Externals(b, body, n))
  {
    if TableKind(b, body).None? {
      StepPlain(b, o, body, n);
      PlainRefs(StepTokens(b, o, body, n));
    } else {
      var ts := StepTokens(b, o, body, n);
      assert |ts| == 1 && ts[..0] == [];
      assert Refs(ts[..0]) == [];
    }
  }

  lemma {:induction false} LeadRefs(s: Step, inBody: bool)
    ensures Refs(Lead(s, inBody)) == []
  {
    PlainRefs(Lead(s, inBody));
  }

  lemma {:induction false} TagRefs(ts: seq<Body>)
    requires Tags(ts)
    ensures Refs(TagTokens(ts)) == []
  {
    TagsPlain(ts);
    PlainRefs(TagTokens(ts));
  }

  lemma {:induction false} TagsPlain(ts: seq<Body>)
    requires Tags(ts)
    ensures AllPlain(TagTokens(ts))
  {
    if ts != [] {
      TagsPlain(ts[..|ts| - 1]);
    }
  }

  /** Tables are numbered one after the other. */
  ghost predicate Numbered(es: seq<External>, n: nat) {
    forall i | 0 <= i < |es| :: es[i].table.n == n + i
  }

  lemma {:induction false} GatherTables(b: Backend, o: Options, steps: seq<Step>, n: nat)
    ensures var g := Gather(b, o, steps, n);
            Refs(g.tokens) == TablesOf(g.external) && Numbered(g.external, n) && g.n == n + |g.external|
  {
    if steps != [] {
      var s, g := steps[|steps| - 1], Gather(b, o, steps[..|steps| - 1], n);
      GatherTables(b, o, steps[..|steps| - 1], n);
      StepTables(b, o, g, s, n);
    }
  }

  lemma {:induction false} StepTables(b: Backend, o: Options, g: Gathered, s: Step, n: nat)
    requires Refs(g.tokens) == TablesOf(g.external) && Numbered(g.external, n) && g.n == n + |g.external|
    ensures var g' := GatherStep(b, o, g, s);
            Refs(g'.tokens) == TablesOf(g'.external) && Numbered(g'.external, n) && g'.n == n + |g'.external|
  {
    if !s.body.Tag? {
      LeadRefs(s, g.inBody);
      StepRefs(b, o, s.body, g.n);
      StepNumbered(b, s.body, g.n);
      TablesGrow(g.tokens, g.external, Lead(s, g.inBody), StepTokens(b, o, s.body, g.n), Externals(b, s.body, g.n), n);
    }
  }

  lemma {:induction false} StepNumbered(b: Backend, body: Body, n: nat)
    ensures Numbered(Externals(b, body, n), n)
  {
  }

  lemma {:induction false} TablesGrow(ts: seq<Token>, es: seq<External>, lead: seq<Token>, us: seq<Token>,
                                      fs: seq<External>, n: nat)
    requires Refs(ts) == TablesOf(es) && Numbered(es, n) && Refs(lead) == []
    requires Refs(us) == TablesOf(fs) && Numbered(fs, n + |es|)
    ensures Refs(ts + lead + us) == TablesOf(es + fs) && Numbered(es + fs, n)
  {
    RefsAppend(ts + lead, us);
    RefsAppend(ts, lead);
    assert TablesOf(es + fs) == TablesOf(es) + TablesOf(fs);
  }

  lemma {:induction false} PiecesRefs(head: seq<Token>, ts: seq<Token>, close: seq<Token>, tags: seq<Token>)
    requires Refs(head) == [] && Refs(close) == [] && Refs(tags) == []
    ensures Refs(head + ts + close + tags + [Close]) == Refs(ts)
  {
    RefsAppend(head, ts);
    RefsAppend(head + ts, close);
    RefsAppend(head + ts + close, tags);
    RefsAppend(head + ts + close + tags, [Close]);
    PlainRefs([Close]);
  }

  lemma {:induction false} CardTables(b: Backend, o: Options, card: Card, n: nat)
    ensures Refs(CardTokens(b, o, card, n)) == TablesOf(Gather(b, o, card, n).external)
    ensures var g := Gather(b, o, card, n); Numbered(g.external, n) && g.n == n + |g.external|
  {
    var g := Gather(b, o, card, n);
    GatherTables(b, o, card, n);
    HeadRefs(card, g.asked);
    PlainRefs([Close]);
    TagRefs(TagsOf(card));
    if card == [] {
      PiecesRefs([], [], [], TagTokens(TagsOf(card)));
    } else {
      PiecesRefs(CardHead(card, if g.asked then [Join] else []), g.tokens, if g.inBody then [Close] else [],
                 TagTokens(TagsOf(card)));
    }
  }

  lemma {:induction false} HeadRefs(card: Card, asked: bool)
    ensures Refs(CardHead(card, if asked then [Join] else [])) == []
  {
    var join := if asked then [Join] else [];
    var a, z := OpTokens(card) + [Open, Select], [Where, A(InAccount), And, A(IsActive)];
    OpsPlain(card);
    PlainRefs(a);
    PlainRefs(z);
    JoinRefs();
    RefsAppend(a, join);
    RefsAppend(a + join, z);
  }

  lemma {:induction false} OpsPlain(card: Card)
    ensures AllPlain(OpTokens(card) + [Open, Select])
  {
  }

  lemma {:induction false} JoinRefs()
    ensures Refs([Join]) == []
  {
    assert [Join][..|[Join]| - 1] == [];
  }

  lemma {:induction false} MoreTables(a: seq<Token>, z: seq<Token>, es: seq<External>, fs: seq<External>)
    requires Refs(a) == TablesOf(es) && Refs(z) == TablesOf(fs) && Numbered(es, 0) && Numbered(fs, |es|)
    ensures Refs(a + z) == TablesOf(es + fs) && Numbered(es + fs, 0)
  {
    RefsAppend(a, z);
    assert TablesOf(es + fs) == TablesOf(es) + TablesOf(fs);
  }

  /** The first `k` cards look into their external tables, in order, and these are numbered from zero. */
  ghost predicate TablesMatch(b: Backend, o: Options, cards: seq<Card>, k: nat)
    requires k <= |cards|
  {
    && Refs(CardsTokens(b, o, cards[..k])) == TablesOf(CardsExternal(b, o, cards[..k]))
    && Numbered(CardsExternal(b, o, cards[..k]), 0)
    && |CardsExternal(b, o, cards[..k])| == TablesBefore(b, cards, k)
  }

  lemma {:induction false} CardsTables(b: Backend, o: Options, cards: seq<Card>, k: nat)
    requires k <= |cards|
    ensures TablesMatch(b, o, cards, k)
  {
    if k == 0 {
      NoTables(b, o, cards);
    } else {
      CardsTables(b, o, cards, k - 1);
      NextCardTables(b, o, cards, k - 1, k);
    }
  }

  lemma {:induction false} NoTables(b: Backend, o: Options, cards: seq<Card>)
    ensures TablesMatch(b, o, cards, 0)
  {
    assert cards[..0] == [];
  }

  lemma {:induction false} NextCardTables(b: Backend, o: Options, cards: seq<Card>, k: nat, next: nat)
    requires k < |cards| && next == k + 1 && TablesMatch(b, o, cards, k)
    ensures TablesMatch(b, o, cards, next)
  {
    var n := TablesBefore(b, cards, k);
    CardsNext(b, o, cards, k);
    CardTables(b, o, cards[k], n);
    MoreTables(CardsTokens(b, o, cards[..k]), CardTokens(b, o, cards[k], n), CardsExternal(b, o, cards[..k]),
               Gather(b, o, cards[k], n).external);
  }

  /** The main query looks into each external table exactly once, in the order of the external steps, and no two of
      these tables are the same. */
  lemma {:induction false} TablesInOrder(b: Backend, s: Segment)
    ensures Refs(CardsTokens(b, s.options, s.cards)) == TablesOf(CardsExternal(b, s.options, s.cards))
    ensures var es := CardsExternal(b, s.options, s.cards);
            forall i, j | 0 <= i < j < |es| :: es[i].table != es[j].table
  {
    CardsTables(b, s.options, s.cards, |s.cards|);
    assert s.cards[..|s.cards|] == s.cards;
  }

  /** An event of messages costs the first generator no table if any message will do and once is enough; every other one
      costs one table, of views for once and of counts, dropped in the end, for more often. */
  lemma {:induction false} EventTables(b: Backend, body: Body, n: nat)
    requires body.Interaction? && !body.channel.AnyChannel? && !body.channel.PageView?
    ensures Externals(b, body, n) ==
            if b.V1? && body.anyMessage && body.once then []
            else [External(Table(if body.once then Views else Counts, n), body.query, b.V2?)]
    ensures Drops(b, body, n) == if body.once then [] else [Drop(Table(Counts, n))]
  {
  }

  // ---- the placeholder and the join, step by step ----

  lemma {:induction false} PlainCount(ts: seq<Token>)
    requires AllPlain(ts)
    ensures Count(ts, Join) == 0 && Count(ts, Hole) == 0
  {
    if ts != [] {
      PlainCount(ts[..|ts| - 1]);
    }
  }

  /** Neither a join nor a placeholder. */
  predicate Joinless(ts: seq<Token>) {
    Join !in ts && Hole !in ts
  }

  lemma {:induction false} StepJoinless(b: Backend, o: Options, body: Body, n: nat)
    ensures Joinless(StepTokens(b, o, body, n))
  {
    if TableKind(b, body).None? {
      StepPlain(b, o, body, n);
    }
  }

  lemma {:induction false} GatherJoinless(b: Backend, o: Options, steps: seq<Step>, n: nat)
    ensures Joinless(Gather(b, o, steps, n).tokens)
  {
    if steps != [] {
      var s, g := steps[|steps| - 1], Gather(b, o, steps[..|steps| - 1], n);
      GatherJoinless(b, o, steps[..|steps| - 1], n);
      StepJoinless(b, o, s.body, g.n);
      assert s.body.Tag? ||
             g.tokens + Lead(s, g.inBody) + StepTokens(b, o, s.body, g.n) == Gather(b, o, steps, n).tokens;
    }
  }

  /** While a card is written the query holds one placeholder, until a step asks for the join; never more than one. */
  lemma {:induction false} OnePlaceholder(b: Backend, o: Options, before: seq<Token>, steps: seq<Step>, n: nat)
    requires Hole !in before
    ensures var g := Gather(b, o, steps, n); Count(OpenCard(before, g), Hole) == if g.asked then 0 else 1
  {
    var g := Gather(b, o, steps, n);
    var join, where := if g.asked then [Join] else [Hole], [Where, A(InAccount), And, A(IsActive)];
    GatherJoinless(b, o, steps, n);
    CountAppend(before + join + where, g.tokens, Hole);
    CountAppend(before + join, where, Hole);
    CountAppend(before, join, Hole);
    CountNone(before, Hole);
    CountNone(where, Hole);
    CountNone(g.tokens, Hole);
    CountOne(join[0], Hole);
  }

  lemma {:induction false} JoinPieces(head: seq<Token>, join: seq<Token>, rest: seq<Token>)
    requires Joinless(head) && Joinless(rest) && (join == [] || join == [Join])
    ensures Count(head + join + rest, Join) == |join|
  {
    CountAppend(head + join, rest, Join);
    CountAppend(head, join, Join);
    CountNone(head, Join);
    CountNone(rest, Join);
    if join != [] {
      CountOne(Join, Join);
    }
  }

  /** A card gets the devices join exactly once if one of its steps asks for it, and not at all otherwise. */
  lemma {:induction false} JoinOnceIffAsked(b: Backend, o: Options, card: Card, n: nat)
    requires card != []
    ensures Count(CardTokens(b, o, card, n), Join) == if Joined(b, card) then 1 else 0
  {
    var g := Gather(b, o, card, n);
    var join, tags := if g.asked then [Join] else [], TagTokens(TagsOf(card));
    AskedIsJoined(b, o, card, n);
    GatherJoinless(b, o, card, n);
    TagsPlain(TagsOf(card));
    var head := OpTokens(card) + [Open, Select];
    var close := if g.inBody then [Close] else [];
    var rest := [Where, A(InAccount), And, A(IsActive)] + g.tokens + close + tags + [Close];
    JoinlessRest(g.tokens, if g.inBody then [Close] else [], tags);
    JoinPieces(head, join, rest);
    SplitAtJoin(OpTokens(card), join, g.tokens, if g.inBody then [Close] else [], tags);
  }

  lemma {:induction false} SplitAtJoin(op: seq<Token>, join: seq<Token>, ts: seq<Token>, close: seq<Token>,
                                       tags: seq<Token>)
    ensures (op + [Open, Select] + join + [Where, A(InAccount), And, A(IsActive)] + ts) + close + tags + [Close] ==
            (op + [Open, Select]) + join
            + ([Where, A(InAccount), And, A(IsActive)] + ts + close + tags + [Close])
  {
  }

  lemma {:induction false} JoinlessRest(ts: seq<Token>, close: seq<Token>, tags: seq<Token>)
    requires Joinless(ts) && AllPlain(tags) && (close == [] || close == [Close])
    ensures Joinless([Where, A(InAccount), And, A(IsActive)] + ts + close + tags + [Close])
  {
  }

  lemma {:induction false} AskedIsJoined(b: Backend, o: Options, steps: seq<Step>, n: nat)
    ensures Gather(b, o, steps, n).asked <==> Joined(b, steps)
  {
    if steps != [] {
      var before, s := steps[..|steps| - 1], steps[|steps| - 1];
      AskedIsJoined(b, o, before, n);
      assert steps == before + [s];
    }
  }

  // ---- who needs the devices ----

  predicate OnDevices(column: string) {
    |column| >= 4 && column[..4] == "ctd."
  }

  /** Reads the devices' alias. */
  predicate ReadsDevice(t: Token) {
    && t.A?
    && match t.atom
       case DeviceType(_) => true
       case Since(column, _) => OnDevices(column)
       case Before(column, _) => OnDevices(column)
       case IsNull(column) => OnDevices(column)
       case NotNull(column) => OnDevices(column)
       case _ => false
  }

  predicate WantsDevice(t: Token) {
    ReadsDevice(t) || (t.A? && t.atom.Field? && t.atom.key == "ct.has_web_push" && t.atom.operator == "=")
  }

  ghost predicate Having(ts: seq<Token>, p: Token -> bool) {
    exists t <- ts :: p(t)
  }

  lemma {:induction false} HavingCat(ts: seq<Token>, us: seq<Token>, p: Token -> bool)
    ensures Having(ts + us, p) <==> Having(ts, p) || Having(us, p)
  {
  }

  lemma {:induction false} Columns(event: string)
    ensures !OnDevices("ct." + event) && OnDevices("ctd." + event)
  {
    var c := "ct." + event;
    assert "ctd."[2] == 'd';
    if |c| >= 4 {
      assert c[..4][2] == '.';
    }
  }

  lemma {:induction false} EventReads(body: Body)
    requires body.Interaction?
    ensures Having(EventTokens(body), ReadsDevice) <==> body.channel.Push?
    ensures Having(EventTokens(body), WantsDevice) <==> body.channel.Push?
  {
    Columns(body.event);
    var ts := EventTokens(body);
    if body.channel.Push? {
      assert ts[1] == A(DeviceType(body.channel.name));
      assert ts[1] in ts && ReadsDevice(ts[1]) && WantsDevice(ts[1]);
    }
  }

  lemma {:induction false} FieldReads(t: FieldTest, o: Options)
    requires t.Within? ==> exists key :: t.key == "ct." + key
    ensures !Having(FieldTokens(t, o), ReadsDevice)
    ensures t.HasChannel? && t.channel == "has_web_push" ==> Having(FieldTokens(t, o), WantsDevice)
  {
    if t.Within? {
      var key :| t.key == "ct." + key;
      Columns(key);
    } else if t.HasChannel? {
      assert FieldTokens(t, o)[0] == A(Field("ct." + t.channel, "=", t.operator));
      if t.channel == "has_web_push" {
        assert "ct." + t.channel == "ct.has_web_push" && WantsDevice(FieldTokens(t, o)[0]);
      }
    }
  }

  lemma {:induction false} AnyChannelReads(b: Backend, o: Options, body: Body, n: nat)
    requires body.Interaction? && body.channel.AnyChannel?
    ensures Having(StepTokens(b, o, body, n), ReadsDevice)
  {
    var ts := StepTokens(b, o, body, n);
    assert "ctd.last_click_date"[..4] == "ctd.";
    assert ReadsDevice(ts[11]);
  }

  /** A step asks for the join if it reads the devices, and only if it reads them or wants those with web push. */
  lemma {:induction false} StepReads(b: Backend, o: Options, body: Body, n: nat)
    ensures Having(StepTokens(b, o, body, n), ReadsDevice) ==> Asks(b, body)
    ensures Asks(b, body) ==> Having(StepTokens(b, o, body, n), WantsDevice)
  {
    match body
    case Interaction(channel, _, _, _, _, _, _, _) =>
      if channel.AnyChannel? {
        AnyChannelReads(b, o, body, n);
      } else {
        EventReads(body);
      }
    case UserField(key, operator, value) =>
      assert TestOf(key, operator, value).Within? ==> TestOf(key, operator, value).key == "ct." + key;
      FieldReads(TestOf(key, operator, value), o);
    case _ =>
  }

  lemma {:induction false} LeadReads(s: Step, inBody: bool)
    ensures !Having(Lead(s, inBody), ReadsDevice) && !Having(Lead(s, inBody), WantsDevice)
  {
  }

  lemma {:induction false} StepsRead(b: Backend, o: Options, steps: seq<Step>, n: nat)
    ensures var g := Gather(b, o, steps, n);
            (Having(g.tokens, ReadsDevice) ==> g.asked) && (g.asked ==> Having(g.tokens, WantsDevice))
  {
    if steps != [] {
      var s, g := steps[|steps| - 1], Gather(b, o, steps[..|steps| - 1], n);
      StepsRead(b, o, steps[..|steps| - 1], n);
      StepReads(b, o, s.body, g.n);
      LeadReads(s, g.inBody);
      HavingThree(g.tokens, Lead(s, g.inBody), StepTokens(b, o, s.body, g.n), ReadsDevice);
      HavingThree(g.tokens, Lead(s, g.inBody), StepTokens(b, o, s.body, g.n), WantsDevice);
    }
  }

  lemma {:induction false} HavingThree(ts: seq<Token>, lead: seq<Token>, us: seq<Token>, p: Token -> bool)
    requires !Having(lead, p)
    ensures Having(ts + lead + us, p) <==> Having(ts, p) || Having(us, p)
  {
    HavingCat(ts, lead, p);
    HavingCat(ts + lead, us, p);
  }

  lemma {:induction false} TagsRead(ts: seq<Body>)
    requires Tags(ts)
    ensures !Having(TagTokens(ts), ReadsDevice) && !Having(TagTokens(ts), WantsDevice)
  {
    if ts != [] {
      TagsRead(ts[..|ts| - 1]);
    }
  }

  lemma {:induction false} HeadReads(card: Card, join: seq<Token>)
    requires join == [] || join == [Join]
    ensures !Having(CardHead(card, join), ReadsDevice) && !Having(CardHead(card, join), WantsDevice)
  {
  }

  lemma {:induction false} CardReads(head: seq<Token>, ts: seq<Token>, close: seq<Token>, tags: seq<Token>,
                                     p: Token -> bool)
    requires !Having(head, p) && !Having(close, p) && !Having(tags, p) && !p(Close)
    ensures Having(head + ts + close + tags + [Close], p) <==> Having(ts, p)
  {
    HavingCat(head, ts, p);
    HavingCat(head + ts, close, p);
    HavingCat(head + ts + close, tags, p);
    HavingCat(head + ts + close + tags, [Close], p);
  }

  /** A card that reads the devices joins them, exactly once; one that joins them reads them or wants those with web
      push. */
  lemma {:induction false} JoinForDevices(b: Backend, o: Options, card: Card, n: nat)
    requires card != []
    ensures Having(CardTokens(b, o, card, n), ReadsDevice) ==> Count(CardTokens(b, o, card, n), Join) == 1
    ensures Count(CardTokens(b, o, card, n), Join) > 0 ==> Having(CardTokens(b, o, card, n), WantsDevice)
  {
    var g := Gather(b, o, card, n);
    var join, close := if g.asked then [Join] else [], if g.inBody then [Close] else [];
    StepsRead(b, o, card, n);
    TagsRead(TagsOf(card));
    HeadReads(card, join);
    CardReads(CardHead(card, join), g.tokens, close, TagTokens(TagsOf(card)), ReadsDevice);
    CardReads(CardHead(card, join), g.tokens, close, TagTokens(TagsOf(card)), WantsDevice);
    AskedIsJoined(b, o, card, n);
    JoinOnceIffAsked(b, o, card, n);
  }
}
