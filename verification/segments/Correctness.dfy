/** Compiler correctness: on well-formed segments the emitted statement parses, and the contacts it inserts are the
    contacts the segment means. */
module Correctness {
  import opened Wrappers
  import opened Sql
  import opened Segments
  import opened Generator
  import opened StepMeaning
  import opened Compilation

  // ---- the WHERE clause ----

  const ACCOUNT := Leaf(InAccount)
  const ACTIVE := Leaf(IsActive)

  ghost function WhereOf(steps: seq<Step>, body: Cond): Cond {
    if Opening(steps) == Or then Either(Both(ACCOUNT, Just(ACTIVE)), Only(Just(Group(body))))
    else Only(Both(ACCOUNT, Both(ACTIVE, Just(Group(body)))))
  }

  ghost function WhereCond(b: Backend, o: Options, steps: seq<Step>, n: nat): Cond {
    var fs := AllFactors(Factoring(b, o), Alternatives(b, steps, n));
    if !Groups(fs) then Only(Both(ACCOUNT, Just(ACTIVE))) else WhereOf(steps, CondOf(fs))
  }

  lemma {:induction false} OpeningToken(steps: seq<Step>)
    ensures Opening(steps) == And || Opening(steps) == Or
  {
    if steps != [] {
      OpeningToken(steps[..|steps| - 1]);
    }
  }

  lemma {:induction false} WhereOfRenders(steps: seq<Step>, body: Cond)
    ensures RenderCond(WhereOf(steps, body)) ==
            [A(InAccount), And, A(IsActive)] + ([Opening(steps), Open] + RenderCond(body)) + [Close]
  {
    OpeningToken(steps);
    var g := Group(body);
    assert RenderConj(Just(g)) == [Open] + RenderCond(body) + [Close];
    assert RenderConj(Just(ACTIVE)) == [A(IsActive)];
    assert RenderConj(Both(ACCOUNT, Just(ACTIVE))) == [A(InAccount)] + [And] + [A(IsActive)];
    assert RenderConj(Both(ACTIVE, Just(g))) == [A(IsActive)] + [And] + RenderConj(Just(g));
    assert RenderConj(Both(ACCOUNT, Both(ACTIVE, Just(g)))) ==
           [A(InAccount)] + [And] + RenderConj(Both(ACTIVE, Just(g)));
    assert RenderCond(Only(Just(g))) == RenderConj(Just(g));
  }

  /** The tokens between WHERE and the tags. */
  lemma {:induction false} WhereRenders(b: Backend, o: Options, steps: seq<Step>, n: nat)
    requires Connected(steps)
    ensures var g := Gather(b, o, steps, n);
            [A(InAccount), And, A(IsActive)] + g.tokens + (if g.inBody then [Close] else []) ==
            RenderCond(WhereCond(b, o, steps, n))
  {
    var t, f := Tokening(b, o), Factoring(b, o);
    StepsRender(b, o);
    BodyRenders(b, t, f, steps, n);
    GatherIsBody(b, o, steps, n);
    GatherFlags(b, o, steps, n);
    var fs := AllFactors(f, Alternatives(b, steps, n));
    if Groups(fs) {
      WhereOfRenders(steps, CondOf(fs));
    } else {
      NoBody();
    }
  }

  lemma {:induction false} NoBody()
    ensures RenderCond(Only(Both(ACCOUNT, Just(ACTIVE)))) == [A(InAccount), And, A(IsActive)]
  {
    assert RenderConj(Just(ACTIVE)) == [A(IsActive)];
    assert RenderConj(Both(ACCOUNT, Just(ACTIVE))) == [A(InAccount)] + [And] + [A(IsActive)];
  }

  lemma {:induction false} OpeningScoped(steps: seq<Step>)
    ensures Opening(steps) == Or <==> !Scoped(steps)
  {
    if steps != [] {
      var before, s := steps[..|steps| - 1], steps[|steps| - 1];
      OpeningScoped(before);
      assert forall i | 0 <= i < |before| :: steps[i] == before[i];
      if Filters(s) && (forall t <- before :: !Filters(t)) {
        NoOpening(before);
      }
    }
  }

  lemma {:induction false} WhereOfHolds(steps: seq<Step>, body: Cond, w: World, c: nat, d: Option<nat>)
    ensures var base := w.holds(InAccount, c, d) && w.holds(IsActive, c, d);
            CondHolds(WhereOf(steps, body), w, c, d) ==
            if Scoped(steps) then base && CondHolds(body, w, c, d) else base || CondHolds(body, w, c, d)
  {
    OpeningScoped(steps);
    AtomHolds(InAccount, w, c, d);
    AtomHolds(IsActive, w, c, d);
    var g := Group(body);
    assert FactorHolds(g, w, c, d) == CondHolds(body, w, c, d);
    assert ConjHolds(Just(g), w, c, d) == FactorHolds(g, w, c, d);
    assert ConjHolds(Both(ACTIVE, Just(g)), w, c, d) == (FactorHolds(ACTIVE, w, c, d) && ConjHolds(Just(g), w, c, d));
    assert ConjHolds(Both(ACCOUNT, Just(ACTIVE)), w, c, d) ==
           (FactorHolds(ACCOUNT, w, c, d) && ConjHolds(Just(ACTIVE), w, c, d));
    assert CondHolds(Only(Just(g)), w, c, d) == ConjHolds(Just(g), w, c, d);
  }

  /** What a card's WHERE clause says about a contact (and a device): the filters restrict the active contacts of the
      account, unless the first of them came with OR, which makes them an alternative to that restriction. */
  lemma {:induction false} WhereMeans(b: Backend, o: Options, steps: seq<Step>, n: nat, w: World, c: nat,
                                      d: Option<nat>)
    requires Connected(steps)
    ensures CondHolds(WhereCond(b, o, steps, n), w, c, d) <==>
              if Scoped(steps) then ContactMeans(b, o, steps, n, w, c, d)
              else (w.holds(InAccount, c, d) && w.holds(IsActive, c, d)) || FiltersMean(b, o, steps, n, w, c, d)
  {
    var f := Factoring(b, o);
    var gs := Alternatives(b, steps, n);
    if gs == [] {
      AtomHolds(InAccount, w, c, d);
      AtomHolds(IsActive, w, c, d);
      assert ConjHolds(Both(ACCOUNT, Just(ACTIVE)), w, c, d) ==
             (FactorHolds(ACCOUNT, w, c, d) && ConjHolds(Just(ACTIVE), w, c, d));
      assert Scoped(steps);
    } else {
      StepsRender(b, o);
      AllFactorsGroups(f, gs);
      BodyHolds(b, o, steps, n, w, c, d);
      WhereOfHolds(steps, CondOf(AllFactors(f, gs)), w, c, d);
    }
  }

  /** What a step, a group or all filters mean does not depend on the account or on whether the contact is active. */
  ghost predicate SameElsewhere(w: World, v: World) {
    forall a: Atom, c: nat, d: Option<nat> {:trigger w.holds(a, c, d)} {:trigger v.holds(a, c, d)} ::
      a != InAccount && a != IsActive ==> w.holds(a, c, d) == v.holds(a, c, d)
  }

  lemma {:induction false} FieldElsewhere(t: FieldTest, o: Options, w: World, v: World, c: nat, d: Option<nat>)
    requires SameElsewhere(w, v)
    ensures FieldMeans(t, o, w, c, d) == FieldMeans(t, o, v, c, d)
  {
  }

  lemma {:induction false} EventElsewhere(body: Body, w: World, v: World, c: nat, d: Option<nat>)
    requires body.Interaction? && SameElsewhere(w, v)
    ensures EventMeans(body, w, c, d) == EventMeans(body, v, c, d)
    ensures AnyChannelMeans(body.time, w, c, d) == AnyChannelMeans(body.time, v, c, d)
  {
    assert forall column: string :: w.holds(Since(column, body.time), c, d) == v.holds(Since(column, body.time), c, d);
  }

  lemma {:induction false} MeansElsewhere(b: Backend, o: Options, body: Body, n: nat, w: World, v: World, c: nat,
                                          d: Option<nat>)
    requires SameElsewhere(w, v)
    ensures Means(b, o, body, n, w, c, d) == Means(b, o, body, n, v, c, d)
  {
    if body.Interaction? {
      EventElsewhere(body, w, v, c, d);
    } else if body.UserField? {
      FieldElsewhere(TestOf(body.key, body.operator, body.value), o, w, v, c, d);
    }
  }

  lemma {:induction false} FiltersElsewhere(b: Backend, o: Options, steps: seq<Step>, n: nat, w: World, v: World,
                                            c: nat, d: Option<nat>)
    requires SameElsewhere(w, v)
    ensures FiltersMean(b, o, steps, n, w, c, d) == FiltersMean(b, o, steps, n, v, c, d)
  {
    var gs := Alternatives(b, steps, n);
    forall i | 0 <= i < |gs| ensures AllMean(b, o, gs[i], w, c, d) == AllMean(b, o, gs[i], v, c, d) {
      GroupElsewhere(b, o, gs[i], w, v, c, d);
    }
  }

  lemma {:induction false} GroupElsewhere(b: Backend, o: Options, g: seq<Placed>, w: World, v: World, c: nat,
                                          d: Option<nat>)
    requires SameElsewhere(w, v)
    ensures AllMean(b, o, g, w, c, d) == AllMean(b, o, g, v, c, d)
  {
    if g != [] {
      var p := g[|g| - 1];
      GroupElsewhere(b, o, g[..|g| - 1], w, v, c, d);
      MeansElsewhere(b, o, p.body, p.n, w, v, c, d);
      AllMeanLast(b, o, g, w, c, d);
      AllMeanLast(b, o, g, v, c, d);
    }
  }

  /** Data in which the contact passes the filters and is foreign, or is the account's own and does not pass them. */
  lemma {:induction false} FiltersAgainstScope(b: Backend, o: Options, steps: seq<Step>, n: nat, c: nat, d: Option<nat>)
    returns (w: World)
    ensures w.holds(InAccount, c, d) == w.holds(IsActive, c, d) == !FiltersMean(b, o, steps, n, w, c, d)
  {
    var none := World((a: Atom, c: nat, d: Option<nat>) => false, (c: nat) => {}, (t: string, c: nat) => false);
    var own := !FiltersMean(b, o, steps, n, none, c, d);
    w := World((a: Atom, c: nat, d: Option<nat>) => (a == InAccount || a == IsActive) && own, (c: nat) => {},
               (t: string, c: nat) => false);
    FiltersElsewhere(b, o, steps, n, none, w, c, d);
  }

  /** So the clause says what it should, whatever the data, exactly when the first filter does not carry OR. */
  lemma {:induction false} WhereCorrectIff(b: Backend, o: Options, steps: seq<Step>, n: nat)
    requires Connected(steps)
    ensures (forall w: World, c: nat, d: Option<nat> ::
               CondHolds(WhereCond(b, o, steps, n), w, c, d) <==> ContactMeans(b, o, steps, n, w, c, d))
            <==> Scoped(steps)
  {
    if Scoped(steps) {
      forall w: World, c: nat, d: Option<nat>
        ensures CondHolds(WhereCond(b, o, steps, n), w, c, d) <==> ContactMeans(b, o, steps, n, w, c, d)
      {
        WhereMeans(b, o, steps, n, w, c, d);
      }
    } else {
      var w := FiltersAgainstScope(b, o, steps, n, 0, None);
      WhereMeans(b, o, steps, n, w, 0, None);
      assert CondHolds(WhereCond(b, o, steps, n), w, 0, None) != ContactMeans(b, o, steps, n, w, 0, None);
    }
  }

  // ---- user fields that were never completed ----

  predicate Blank(body: Body) {
    body.UserField? && TestOf(body.key, body.operator, body.value) == Nothing
  }

  lemma {:induction false} AlternativesLast(b: Backend, all: seq<Step>, n: nat)
    requires all != []
    ensures Alternatives(b, all, n) == AlternativesWith(b, all[..|all| - 1], all[|all| - 1], n)
  {
  }

  function AlternativesWith(b: Backend, steps: seq<Step>, s: Step, n: nat): seq<seq<Placed>> {
    var gs := Alternatives(b, steps, n);
    if Filters(s) then Grown(gs, s.conditional, Placed(s.body, n + TablesUsed(b, steps))) else gs
  }

  lemma {:induction false} StepBehind(b: Backend, steps: seq<Step>, s: Step, n: nat)
    ensures Alternatives(b, steps + [s], n) == AlternativesWith(b, steps, s, n)
  {
    var all := steps + [s];
    AlternativesLast(b, all, n);
    assert all[..|all| - 1] == steps;
  }

  lemma {:induction false} BlankLast(b: Backend, o: Options, g: seq<Placed>, p: Placed, w: World, c: nat,
                                     d: Option<nat>)
    requires Blank(p.body)
    ensures AllMean(b, o, g + [p], w, c, d) == AllMean(b, o, g, w, c, d)
  {
    var all := g + [p];
    assert all[..|g|] == g;
    AllMeanLast(b, o, all, w, c, d);
  }

  ghost predicate SomeMean(b: Backend, o: Options, gs: seq<seq<Placed>>, w: World, c: nat, d: Option<nat>) {
    gs == [] || exists i :: 0 <= i < |gs| && AllMean(b, o, gs[i], w, c, d)
  }

  lemma {:induction false} BlankGrown(b: Backend, o: Options, gs: seq<seq<Placed>>, conditional: Option<Connective>,
                                      p: Placed, w: World, c: nat, d: Option<nat>)
    requires Blank(p.body) && conditional != Some(OrElse)
    ensures SomeMean(b, o, Grown(gs, conditional, p), w, c, d) == SomeMean(b, o, gs, w, c, d)
  {
    var hs := Grown(gs, conditional, p);
    if gs == [] {
      BlankLast(b, o, [], p, w, c, d);
      assert hs[0] == [] + [p];
    } else {
      var k := |gs| - 1;
      BlankLast(b, o, gs[k], p, w, c, d);
      assert forall i | 0 <= i < k :: hs[i] == gs[i];
      assert hs[k] == gs[k] + [p];
    }
  }

  /** Joined by AND such a step filters nothing. */
  lemma {:induction false} BlankAnd(b: Backend, o: Options, steps: seq<Step>, s: Step, n: nat, w: World, c: nat,
                                    d: Option<nat>)
    requires Blank(s.body) && s.conditional != Some(OrElse)
    ensures FiltersMean(b, o, steps + [s], n, w, c, d) == FiltersMean(b, o, steps, n, w, c, d)
  {
    StepBehind(b, steps, s, n);
    BlankGrown(b, o, Alternatives(b, steps, n), s.conditional, Placed(s.body, n + TablesUsed(b, steps)), w, c, d);
  }

  predicate Filterless(steps: seq<Step>) {
    forall s <- steps :: !Filters(s)
  }

  /** Further steps, the first filter among them coming with OR, leave the alternatives before them as they are. */
  lemma {:induction false} OthersStay(b: Backend, before: seq<Step>, more: seq<Step>, n: nat)
    requires Alternatives(b, before, n) != [] && (Filterless(more) || !Scoped(more))
    ensures Extends(Alternatives(b, before, n), Alternatives(b, before + more, n), Filterless(more))
  {
    if more == [] {
      assert before + more == before;
    } else {
      var k := |more| - 1;
      ScopedPrefix(more, k);
      OthersStay(b, before, more[..k], n);
      OneMoreStays(b, Alternatives(b, before, n), before + more[..k], more[k], n, Filterless(more[..k]));
      assert before + more == before + more[..k] + [more[k]];
    }
  }

  lemma {:induction false} OneMoreStays(b: Backend, gs: seq<seq<Placed>>, steps: seq<Step>, s: Step, n: nat, same: bool)
    requires gs != [] && Extends(gs, Alternatives(b, steps, n), same)
    requires same && Filters(s) ==> s.conditional == Some(OrElse)
    ensures Extends(gs, Alternatives(b, steps + [s], n), same && !Filters(s))
  {
    StepBehind(b, steps, s, n);
    if Filters(s) {
      GrownStays(gs, Alternatives(b, steps, n), s.conditional, Placed(s.body, n + TablesUsed(b, steps)), same);
    }
  }

  lemma {:induction false} GrownStays(gs: seq<seq<Placed>>, hs: seq<seq<Placed>>, conditional: Option<Connective>,
                                      p: Placed, same: bool)
    requires gs != [] && Extends(gs, hs, same) && (same ==> conditional == Some(OrElse))
    ensures Extends(gs, Grown(hs, conditional, p), false)
  {
  }

  ghost predicate Extends(gs: seq<seq<Placed>>, hs: seq<seq<Placed>>, same: bool) {
    gs <= hs && (gs == hs <==> same)
  }

  /** The first filter stays the first one while filters are left. */
  lemma {:induction false} ScopedPrefix(steps: seq<Step>, k: nat)
    requires k + 1 == |steps| && (Filterless(steps) || !Scoped(steps))
    ensures Filterless(steps[..k]) || !Scoped(steps[..k])
    ensures Filterless(steps[..k]) && Filters(steps[k]) ==> steps[k].conditional == Some(OrElse)
    ensures Filterless(steps) <==> Filterless(steps[..k]) && !Filters(steps[k])
  {
    assert steps == steps[..k] + [steps[k]];
    if !Filterless(steps) {
      assert forall i | 0 <= i < k :: steps[..k][i] == steps[i];
    }
  }

  /** Joined by OR on both sides it lets every contact pass, whatever the other filters are. */
  lemma {:induction false} BlankOr(b: Backend, o: Options, before: seq<Step>, s: Step, more: seq<Step>, n: nat,
                                   w: World, c: nat, d: Option<nat>)
    requires Blank(s.body) && (s.conditional == Some(OrElse) || Filterless(before))
    requires Filterless(more) || !Scoped(more)
    ensures FiltersMean(b, o, before + [s] + more, n, w, c, d)
  {
    var gs, p := Alternatives(b, before, n), Placed(s.body, n + TablesUsed(b, before));
    StepBehind(b, before, s, n);
    BlankLast(b, o, [], p, w, c, d);
    OthersStay(b, before + [s], more, n);
    assert (gs + [[p]])[|gs|] == [] + [p];
    assert AllMean(b, o, Alternatives(b, before + [s] + more, n)[|gs|], w, c, d);
  }

  // ---- tags ----

  function TagTerm(t: Body): Primary
    requires t.Tag?
  {
    Sub(Query(Single(Tagged(t.tag)), End))
  }

  function TermOf(p: Primary, ts: seq<Body>): Term
    requires Tags(ts)
    decreases |ts|
  {
    if ts == [] || !ts[0].isIn then Single(p) else Meet(p, TermOf(TagTerm(ts[0]), ts[1..]))
  }

  function TailOf(ts: seq<Body>): Tail
    requires Tags(ts)
  {
    if ts == [] then End
    else if ts[0].isIn then TailOf(ts[1..])
    else More(Minus, TermOf(TagTerm(ts[0]), ts[1..]), TailOf(ts[1..]))
  }

  lemma {:induction false} TagTermRenders(t: Body)
    requires t.Tag?
    ensures RenderPrimary(TagTerm(t)) == [Open, SelectTagged(t.tag), Close]
  {
    assert RenderTerm(Single(Tagged(t.tag))) == [SelectTagged(t.tag)];
    assert RenderQuery(Query(Single(Tagged(t.tag)), End)) == [SelectTagged(t.tag)] + [];
  }

  lemma {:induction false} TagSplits(p: Primary, ts: seq<Body>)
    requires Tags(ts) && ts != []
    ensures RenderTerm(TermOf(p, ts)) + RenderTail(TailOf(ts)) ==
            RenderPrimary(p) + [if ts[0].isIn then Intersect else Except]
            + (RenderTerm(TermOf(TagTerm(ts[0]), ts[1..])) + RenderTail(TailOf(ts[1..])))
  {
    var term, tail := TermOf(TagTerm(ts[0]), ts[1..]), TailOf(ts[1..]);
    if ts[0].isIn {
      assert RenderTerm(Meet(p, term)) == RenderPrimary(p) + [Intersect] + RenderTerm(term);
    } else {
      assert RenderTerm(Single(p)) == RenderPrimary(p);
      assert RenderTail(More(Minus, term, tail)) == [Except] + RenderTerm(term) + RenderTail(tail);
    }
  }

  lemma {:induction false} OperatorThenTag(a: seq<Token>, t: Token, b: seq<Token>, c: seq<Token>)
    ensures a + [t] + (b + c) == a + (([t] + b) + c)
  {
  }

  /** A select followed by the tags is one query; INTERSECT binds first in it. */
  lemma {:induction false} TagsRender(p: Primary, ts: seq<Body>)
    requires Tags(ts)
    ensures RenderTerm(TermOf(p, ts)) + RenderTail(TailOf(ts)) == RenderPrimary(p) + TagTokens(ts)
    decreases |ts|
  {
    if ts != [] {
      var t, rest := ts[0], ts[1..];
      TagTokensFirst(ts);
      TagTermRenders(t);
      TagsRender(TagTerm(t), rest);
      TagSplits(p, ts);
      OperatorThenTag(RenderPrimary(p), if t.isIn then Intersect else Except, RenderPrimary(TagTerm(t)),
                      TagTokens(rest));
    }
  }

  lemma {:induction false} TagTermHolds(t: Body, w: World, c: nat)
    requires t.Tag?
    ensures InPrimary(TagTerm(t), w, c) == w.tagged(t.tag, c)
  {
    var q := Query(Single(Tagged(t.tag)), End);
    assert InTerm(Single(Tagged(t.tag)), w, c) == w.tagged(t.tag, c);
    assert InQuery(q, w, c) == w.tagged(t.tag, c);
  }

  lemma {:induction false} TermOfHolds(p: Primary, ts: seq<Body>, w: World, c: nat)
    requires Tags(ts)
    ensures InTerm(TermOf(p, ts), w, c) == (InPrimary(p, w, c) && HasLeading(ts, w, c))
    decreases |ts|
  {
    if ts != [] && ts[0].isIn {
      TagTermHolds(ts[0], w, c);
      TermOfHolds(TagTerm(ts[0]), ts[1..], w, c);
    }
  }

  lemma {:induction false} TailOfHolds(so: bool, ts: seq<Body>, w: World, c: nat)
    requires Tags(ts)
    ensures InTail(so, TailOf(ts), w, c) == (so && Kept(ts, w, c))
    decreases |ts|
  {
    if ts != [] {
      TagTermHolds(ts[0], w, c);
      TermOfHolds(TagTerm(ts[0]), ts[1..], w, c);
      TailOfHolds(if ts[0].isIn then so else so && !InTerm(TermOf(TagTerm(ts[0]), ts[1..]), w, c), ts[1..], w, c);
    }
  }

  // ---- when the tags are the left-to-right chain ----

  predicate Chain(ts: seq<Body>, w: World, c: nat)
    requires Tags(ts)
  {
    forall i | 0 <= i < |ts| :: w.tagged(ts[i].tag, c) == ts[i].isIn
  }

  /** The tags of the `in` entries up to the first `not in` entry. */
  function Leading(ts: seq<Body>): set<string>
    requires Tags(ts)
  {
    if ts == [] || !ts[0].isIn then {} else {ts[0].tag} + Leading(ts[1..])
  }

  predicate AllInAmong(ts: seq<Body>, tags: set<string>)
    requires Tags(ts)
  {
    forall i | 0 <= i < |ts| && ts[i].isIn :: ts[i].tag in tags
  }

  /** Some `not in` entry removes every contact that has `tags`. */
  predicate Contradicts(ts: seq<Body>, tags: set<string>)
    requires Tags(ts)
  {
    ts != [] &&
    ((!ts[0].isIn && ts[0].tag in tags && Leading(ts[1..]) <= tags) || Contradicts(ts[1..], tags))
  }

  /** Something to check on the list itself, before anything is compiled. */
  predicate Chains(ts: seq<Body>)
    requires Tags(ts)
  {
    AllInAmong(ts, Leading(ts)) || Contradicts(ts, Leading(ts))
  }

  ghost predicate HasTags(tags: set<string>, w: World, c: nat) {
    forall t <- tags :: w.tagged(t, c)
  }

  lemma {:induction false} LeadingHeld(ts: seq<Body>, w: World, c: nat)
    requires Tags(ts)
    ensures HasLeading(ts, w, c) <==> HasTags(Leading(ts), w, c)
  {
    if ts != [] {
      LeadingHeld(ts[1..], w, c);
    }
  }

  lemma {:induction false} ChainFirst(ts: seq<Body>, w: World, c: nat)
    requires Tags(ts) && ts != []
    ensures Chain(ts, w, c) == (w.tagged(ts[0].tag, c) == ts[0].isIn && Chain(ts[1..], w, c))
  {
    assert forall i | 1 <= i < |ts| :: ts[i] == ts[1..][i - 1];
  }

  lemma {:induction false} ChainPasses(ts: seq<Body>, w: World, c: nat)
    requires Tags(ts) && Chain(ts, w, c)
    ensures HasLeading(ts, w, c) && Kept(ts, w, c)
  {
    if ts != [] {
      ChainFirst(ts, w, c);
      ChainPasses(ts[1..], w, c);
    }
  }

  lemma {:induction false} KeptIsChain(ts: seq<Body>, tags: set<string>, w: World, c: nat)
    requires Tags(ts) && AllInAmong(ts, tags) && HasTags(tags, w, c) && Kept(ts, w, c)
    ensures HasLeading(ts, w, c) && Chain(ts, w, c)
  {
    if ts != [] {
      KeptIsChain(ts[1..], tags, w, c);
      ChainFirst(ts, w, c);
    }
  }

  lemma {:induction false} ContradictionRemoves(ts: seq<Body>, tags: set<string>, w: World, c: nat)
    requires Tags(ts) && Contradicts(ts, tags) && HasTags(tags, w, c)
    ensures !Kept(ts, w, c)
  {
    LeadingHeld(ts[1..], w, c);
    if Contradicts(ts[1..], tags) {
      ContradictionRemoves(ts[1..], tags, w, c);
    }
  }

  ghost predicate TagsAre(tags: set<string>, w: World, c: nat) {
    forall t :: w.tagged(t, c) <==> t in tags
  }

  lemma {:induction false} ExactlyHas(some: set<string>, tags: set<string>, w: World, c: nat)
    requires TagsAre(tags, w, c)
    ensures HasTags(some, w, c) <==> some <= tags
  {
  }

  lemma {:induction false} ExactlyKept(ts: seq<Body>, tags: set<string>, w: World, c: nat)
    requires Tags(ts) && !Contradicts(ts, tags) && TagsAre(tags, w, c)
    ensures Kept(ts, w, c)
  {
    if ts != [] {
      LeadingHeld(ts[1..], w, c);
      ExactlyHas(Leading(ts[1..]), tags, w, c);
      assert !ts[0].isIn ==> !(w.tagged(ts[0].tag, c) && HasLeading(ts[1..], w, c));
      ExactlyKept(ts[1..], tags, w, c);
    }
  }

  lemma {:induction false} ChainWhen(ts: seq<Body>, w: World, c: nat)
    requires Tags(ts) && Chains(ts)
    ensures (HasLeading(ts, w, c) && Kept(ts, w, c)) == Chain(ts, w, c)
  {
    var tags := Leading(ts);
    LeadingHeld(ts, w, c);
    if Chain(ts, w, c) {
      ChainPasses(ts, w, c);
    } else if HasTags(tags, w, c) && Kept(ts, w, c) {
      if Contradicts(ts, tags) {
        ContradictionRemoves(ts, tags, w, c);
      } else {
        KeptIsChain(ts, tags, w, c);
      }
    }
  }

  /** Of any other list, the contact with exactly the leading tags is kept although the chain drops it. */
  lemma {:induction false} OutOfChainKeeps(ts: seq<Body>, w: World, c: nat)
    requires Tags(ts) && !Chains(ts) && TagsAre(Leading(ts), w, c)
    ensures HasLeading(ts, w, c) && Kept(ts, w, c) && !Chain(ts, w, c)
  {
    LeadingHeld(ts, w, c);
    ExactlyKept(ts, Leading(ts), w, c);
    var i :| 0 <= i < |ts| && ts[i].isIn && ts[i].tag !in Leading(ts);
    assert w.tagged(ts[i].tag, c) != ts[i].isIn;
  }

  /** The tags of a card are the left-to-right chain, whatever the data, exactly when every `in` entry repeats a leading
      tag or the leading tags alone already leave nobody. */
  lemma {:induction false} ChainIff(ts: seq<Body>)
    requires Tags(ts)
    ensures (forall w: World, c: nat :: (HasLeading(ts, w, c) && Kept(ts, w, c)) == Chain(ts, w, c)) <==> Chains(ts)
  {
    if Chains(ts) {
      forall w: World, c: nat ensures (HasLeading(ts, w, c) && Kept(ts, w, c)) == Chain(ts, w, c) {
        ChainWhen(ts, w, c);
      }
    } else {
      var w := World((a: Atom, c: nat, d: Option<nat>) => false, (c: nat) => {},
                     (t: string, c: nat) => t in Leading(ts));
      OutOfChainKeeps(ts, w, 0);
    }
  }

  /** In order: no `in` entry behind a `not in` entry. */
  predicate InOrder(ts: seq<Body>)
    requires Tags(ts)
  {
    forall i, j | 0 <= i < j < |ts| && ts[j].isIn :: ts[i].isIn
  }

  lemma {:induction false} OrderLeads(ts: seq<Body>)
    requires Tags(ts) && InOrder(ts)
    ensures AllInAmong(ts, Leading(ts))
  {
    if ts != [] && ts[0].isIn {
      assert InOrder(ts[1..]);
      OrderLeads(ts[1..]);
      assert forall i | 1 <= i < |ts| :: ts[i] == ts[1..][i - 1];
    }
  }

  /** So a list in order is the chain. */
  lemma {:induction false} ChainWhenInOrder(ts: seq<Body>, w: World, c: nat)
    requires Tags(ts) && InOrder(ts)
    ensures (HasLeading(ts, w, c) && Kept(ts, w, c)) == Chain(ts, w, c)
  {
    OrderLeads(ts);
    ChainWhen(ts, w, c);
  }

  // ---- a card ----

  ghost function CardQuery(b: Backend, o: Options, steps: seq<Step>, n: nat): Query {
    var ts := TagsOf(steps);
    Query(TermOf(Contacts(Joined(b, steps), WhereCond(b, o, steps, n)), ts), TailOf(ts))
  }

  lemma {:induction false} CardPieces(op: seq<Token>, join: seq<Token>, g: seq<Token>, close: seq<Token>,
                                      tags: seq<Token>)
    ensures (op + [Open, Select] + join + [Where, A(InAccount), And, A(IsActive)] + g) + close + tags + [Close] ==
            op + ([Open] + ([Select] + join + [Where] + ([A(InAccount), And, A(IsActive)] + g + close) + tags)
                  + [Close])
  {
  }

  lemma {:induction false} CardRenders(b: Backend, o: Options, card: Card, n: nat)
    requires card != [] && Connected(card)
    ensures CardTokens(b, o, card, n) == OpTokens(card) + RenderPrimary(Sub(CardQuery(b, o, card, n)))
  {
    var g, ts := Gather(b, o, card, n), TagsOf(card);
    var join, close := if g.asked then [Join] else [], if g.inBody then [Close] else [];
    GatherFlags(b, o, card, n);
    WhereRenders(b, o, card, n);
    TagsRender(Contacts(Joined(b, card), WhereCond(b, o, card, n)), ts);
    CardPieces(OpTokens(card), join, g.tokens, close, TagTokens(ts));
  }

  lemma {:induction false} CardHolds(b: Backend, o: Options, card: Card, n: nat, w: World, c: nat)
    requires Connected(card) && Scoped(card)
    ensures InQuery(CardQuery(b, o, card, n), w, c) == CardMeans(b, o, card, n, w, c)
  {
    var ts, cond := TagsOf(card), WhereCond(b, o, card, n);
    var p := Contacts(Joined(b, card), cond);
    SelectHolds(b, o, card, n, w, c);
    TermOfHolds(p, ts, w, c);
    TailOfHolds(InTerm(TermOf(p, ts), w, c), ts, w, c);
  }

  lemma {:induction false} SelectHolds(b: Backend, o: Options, card: Card, n: nat, w: World, c: nat)
    requires Connected(card) && Scoped(card)
    ensures InPrimary(Contacts(Joined(b, card), WhereCond(b, o, card, n)), w, c) == SelectMeans(b, o, card, n, w, c)
  {
    var cond := WhereCond(b, o, card, n);
    forall d ensures CondHolds(cond, w, c, d) == ContactMeans(b, o, card, n, w, c, d) {
      WhereMeans(b, o, card, n, w, c, d);
    }
  }

  // ---- cards joined by UNION and INTERSECT ----

  function MeetFrom(ops: seq<Option<CardOp>>, qs: seq<Query>, i: nat): Term
    requires |ops| == |qs| && i < |qs|
    decreases |qs| - i
  {
    if i + 1 < |qs| && ops[i + 1] == Some(IntersectWith) then Meet(Sub(qs[i]), MeetFrom(ops, qs, i + 1))
    else Single(Sub(qs[i]))
  }

  /** What follows the run that covers the cards before `i`. */
  function PlusFrom(ops: seq<Option<CardOp>>, qs: seq<Query>, i: nat): Tail
    requires |ops| == |qs| && i <= |qs|
    decreases |qs| - i
  {
    if i == |qs| then End
    else if ops[i] == Some(IntersectWith) then PlusFrom(ops, qs, i + 1)
    else More(Plus, MeetFrom(ops, qs, i), PlusFrom(ops, qs, i + 1))
  }

  function JoinToken(op: Option<CardOp>): seq<Token> {
    match op
    case Some(UnionWith) => [Union]
    case Some(IntersectWith) => [Intersect]
    case None => []
  }

  function QueriesFrom(ops: seq<Option<CardOp>>, qs: seq<Query>, i: nat): seq<Token>
    requires |ops| == |qs| && i <= |qs|
    decreases |qs| - i
  {
    if i == |qs| then [] else JoinToken(ops[i]) + RenderPrimary(Sub(qs[i])) + QueriesFrom(ops, qs, i + 1)
  }

  ghost predicate Operated(ops: seq<Option<CardOp>>) {
    forall i | 0 <= i < |ops| :: ops[i].None? <==> i == 0
  }

  lemma {:induction false} RunRenders(ops: seq<Option<CardOp>>, qs: seq<Query>, i: nat)
    requires |ops| == |qs| && i < |qs| && Operated(ops)
    ensures RenderTerm(MeetFrom(ops, qs, i)) + RenderTail(PlusFrom(ops, qs, i + 1)) ==
            RenderPrimary(Sub(qs[i])) + QueriesFrom(ops, qs, i + 1)
    decreases |qs| - i
  {
    if i + 1 < |qs| {
      RunRenders(ops, qs, i + 1);
      assert ops[i + 1].Some?;
      RunSplits(RenderPrimary(Sub(qs[i])), ops[i + 1].value, Sub(qs[i]), MeetFrom(ops, qs, i + 1),
                PlusFrom(ops, qs, i + 2));
      OperatorThenCard(RenderPrimary(Sub(qs[i])), JoinToken(ops[i + 1]), RenderPrimary(Sub(qs[i + 1])),
               QueriesFrom(ops, qs, i + 2));
    }
  }

  lemma {:induction false} OperatorThenCard(a: seq<Token>, b: seq<Token>, c: seq<Token>, d: seq<Token>)
    ensures a + b + (c + d) == a + (b + c + d)
  {
  }

  lemma {:induction false} RunSplits(p: seq<Token>, op: CardOp, primary: Primary, term: Term, tail: Tail)
    requires p == RenderPrimary(primary)
    ensures (if op.IntersectWith? then RenderTerm(Meet(primary, term)) + RenderTail(tail)
             else RenderTerm(Single(primary)) + RenderTail(More(Plus, term, tail))) ==
            p + JoinToken(Some(op)) + (RenderTerm(term) + RenderTail(tail))
  {
    assert RenderTerm(Meet(primary, term)) == p + [Intersect] + RenderTerm(term);
    assert RenderTail(More(Plus, term, tail)) == [Union] + RenderTerm(term) + RenderTail(tail);
  }

  // ---- what joined cards mean, `m` giving what one card means ----

  lemma {:induction false} MeetHolds(ops: seq<Option<CardOp>>, qs: seq<Query>, m: seq<bool>, i: nat, w: World, c: nat)
    requires |ops| == |qs| == |m| && i < |qs|
    requires forall j | 0 <= j < |qs| :: InQuery(qs[j], w, c) == m[j]
    ensures InTerm(MeetFrom(ops, qs, i), w, c) == RunMeans(ops, m, i)
    decreases |qs| - i
  {
    assert InPrimary(Sub(qs[i]), w, c) == m[i];
    if i + 1 < |qs| {
      MeetHolds(ops, qs, m, i + 1, w, c);
    }
  }

  lemma {:induction false} PlusHolds(so: bool, ops: seq<Option<CardOp>>, qs: seq<Query>, m: seq<bool>, i: nat, w: World,
                                     c: nat)
    requires |ops| == |qs| == |m| && 0 < i <= |qs| && Operated(ops)
    requires forall j | 0 <= j < |qs| :: InQuery(qs[j], w, c) == m[j]
    ensures InTail(so, PlusFrom(ops, qs, i), w, c) <==>
              so || exists j :: i <= j < |qs| && ops[j] == Some(UnionWith) && RunMeans(ops, m, j)
    decreases |qs| - i
  {
    if i < |qs| {
      assert ops[i].Some?;
      if ops[i] == Some(IntersectWith) {
        PlusHolds(so, ops, qs, m, i + 1, w, c);
      } else {
        MeetHolds(ops, qs, m, i, w, c);
        PlusHolds(so || RunMeans(ops, m, i), ops, qs, m, i + 1, w, c);
        assert ops[i].value == UnionWith;
        assert InTail(so, PlusFrom(ops, qs, i), w, c) ==
               InTail(so || InTerm(MeetFrom(ops, qs, i), w, c), PlusFrom(ops, qs, i + 1), w, c);
      }
    }
  }

  // ---- a segment ----

  ghost function Queries(b: Backend, o: Options, cards: seq<Card>): seq<Query> {
    seq(|cards|, i requires 0 <= i < |cards| => CardQuery(b, o, cards[i], TablesBefore(b, cards, i)))
  }

  ghost function SegmentQuery(b: Backend, s: Segment): Query
    requires s.cards != []
  {
    var ops, qs := Ops(s.cards), Queries(b, s.options, s.cards);
    Query(MeetFrom(ops, qs, 0), PlusFrom(ops, qs, 1))
  }

  lemma {:induction false} CardIs(b: Backend, s: Segment, k: nat)
    requires WellFormed(s) && k < |s.cards|
    ensures CardTokens(b, s.options, s.cards[k], TablesBefore(b, s.cards, k)) ==
            JoinToken(Ops(s.cards)[k]) + RenderPrimary(Sub(Queries(b, s.options, s.cards)[k]))
  {
    assert Connected(s.cards[k]);
    CardRenders(b, s.options, s.cards[k], TablesBefore(b, s.cards, k));
  }

  lemma {:induction false} CardInFront(a: seq<Token>, b: seq<Token>, c: seq<Token>, d: seq<Token>)
    ensures a + (b + c) + d == a + (b + c + d)
  {
  }

  lemma {:induction false} OneCard(b: Backend, s: Segment, k: nat, rest: seq<Token>)
    requires WellFormed(s) && k < |s.cards|
    ensures CardsTokens(b, s.options, s.cards[..k + 1]) + rest ==
            CardsTokens(b, s.options, s.cards[..k])
            + (JoinToken(Ops(s.cards)[k]) + RenderPrimary(Sub(Queries(b, s.options, s.cards)[k])) + rest)
  {
    CardsNext(b, s.options, s.cards, k);
    CardIs(b, s, k);
    CardInFront(CardsTokens(b, s.options, s.cards[..k]), JoinToken(Ops(s.cards)[k]),
             RenderPrimary(Sub(Queries(b, s.options, s.cards)[k])), rest);
  }

  lemma {:induction false} CardsFrom(b: Backend, s: Segment, k: nat)
    requires WellFormed(s) && k <= |s.cards|
    ensures CardsTokens(b, s.options, s.cards) ==
            CardsTokens(b, s.options, s.cards[..k]) + QueriesFrom(Ops(s.cards), Queries(b, s.options, s.cards), k)
    decreases |s.cards| - k
  {
    if k < |s.cards| {
      CardsFrom(b, s, k + 1);
      OneCard(b, s, k, QueriesFrom(Ops(s.cards), Queries(b, s.options, s.cards), k + 1));
    } else {
      assert s.cards[..k] == s.cards;
    }
  }

  lemma {:induction false} QueryRenders(ops: seq<Option<CardOp>>, qs: seq<Query>)
    requires |ops| == |qs| > 0 && Operated(ops)
    ensures RenderQuery(Query(MeetFrom(ops, qs, 0), PlusFrom(ops, qs, 1))) == QueriesFrom(ops, qs, 0)
  {
    RunRenders(ops, qs, 0);
    assert JoinToken(ops[0]) == [];
  }

  lemma {:induction false} CardsRender(b: Backend, s: Segment)
    requires WellFormed(s)
    ensures CardsTokens(b, s.options, s.cards) == RenderQuery(SegmentQuery(b, s))
  {
    CardsFrom(b, s, 0);
    QueryRenders(Ops(s.cards), Queries(b, s.options, s.cards));
    assert s.cards[..0] == [];
  }

  ghost predicate AllDrops(ts: seq<Token>) {
    forall t <- ts :: t.Drop?
  }

  function TablesIn(ts: seq<Token>): seq<Table>
    requires AllDrops(ts)
  {
    if ts == [] then [] else TablesIn(ts[..|ts| - 1]) + [ts[|ts| - 1].table]
  }

  lemma {:induction false} DropsRender(ts: seq<Token>)
    requires AllDrops(ts)
    ensures RenderDrops(TablesIn(ts)) == ts
  {
    if ts != [] {
      DropsRender(ts[..|ts| - 1]);
      var r := TablesIn(ts);
      assert ts[|ts| - 1] in ts;
      assert r[..|r| - 1] == TablesIn(ts[..|ts| - 1]) && Drop(r[|r| - 1]) == ts[|ts| - 1];
    }
  }

  lemma {:induction false} CardDropsAreDrops(b: Backend, o: Options, steps: seq<Step>, n: nat)
    ensures AllDrops(Gather(b, o, steps, n).drops)
  {
    if steps != [] {
      CardDropsAreDrops(b, o, steps[..|steps| - 1], n);
    }
  }

  lemma {:induction false} DropsAreDrops(b: Backend, o: Options, cards: seq<Card>)
    ensures AllDrops(CardsDrops(b, o, cards))
  {
    if cards != [] {
      var k := |cards| - 1;
      DropsAreDrops(b, o, cards[..k]);
      CardDropsAreDrops(b, o, cards[k], TablesBefore(b, cards, k));
    }
  }

  ghost function Compiled(b: Backend, s: Segment): Statement
    requires WellFormed(s)
  {
    DropsAreDrops(b, s.options, s.cards);
    Statement(SegmentQuery(b, s), if s.limit > 0 then Some(s.limit) else None,
              TablesIn(CardsDrops(b, s.options, s.cards)))
  }

  /** What is emitted is a statement, and has exactly one reading. */
  lemma {:induction false} EmittedParses(b: Backend, s: Segment)
    requires WellFormed(s)
    ensures ParseStatement(Emitted(b, s)) == Some(Compiled(b, s))
  {
    CardsRender(b, s);
    DropsAreDrops(b, s.options, s.cards);
    DropsRender(CardsDrops(b, s.options, s.cards));
    StatementRoundTrip(Compiled(b, s));
    EmittedPieces(RenderQuery(SegmentQuery(b, s)), if s.limit > 0 then [Limit(s.limit)] else [],
                  CardsDrops(b, s.options, s.cards));
  }

  lemma {:induction false} EmittedPieces(q: seq<Token>, limit: seq<Token>, drops: seq<Token>)
    ensures [Insert, Open] + q + limit + [Close, Semicolon] + drops ==
            [Insert, Open] + q + (limit + [Close, Semicolon] + drops)
  {
  }

  ghost predicate AllScoped(s: Segment) {
    forall i {:trigger Scoped(s.cards[i])} | 0 <= i < |s.cards| :: Scoped(s.cards[i])
  }

  lemma {:induction false} QueryMeans(b: Backend, s: Segment, w: World, c: nat)
    requires WellFormed(s) && AllScoped(s)
    ensures InQuery(SegmentQuery(b, s), w, c) <==> SegmentMeans(b, s, w, c)
  {
    var ops, qs, m := Ops(s.cards), Queries(b, s.options, s.cards), Meanings(b, s.options, s.cards, w, c);
    forall i | 0 <= i < |qs| ensures InQuery(qs[i], w, c) == m[i] {
      assert Connected(s.cards[i]) && Scoped(s.cards[i]);
      CardHolds(b, s.options, s.cards[i], TablesBefore(b, s.cards, i), w, c);
    }
    MeetHolds(ops, qs, m, 0, w, c);
    PlusHolds(RunMeans(ops, m, 0), ops, qs, m, 1, w, c);
  }

  /** The emitted statement inserts exactly the contacts the segment means. */
  lemma {:induction false} CompilerCorrect(b: Backend, s: Segment, w: World, c: nat)
    requires WellFormed(s) && AllScoped(s)
    ensures var r := ParseStatement(Emitted(b, s));
            && r.Some? && r.value.limit == (if s.limit > 0 then Some(s.limit) else None)
            && (InQuery(r.value.query, w, c) <==> SegmentMeans(b, s, w, c))
  {
    EmittedParses(b, s);
    QueryMeans(b, s, w, c);
  }

  /** A first filter that comes with OR leaks: the card's select returns every contact of any account, active or not,
      that passes the filters. */
  lemma {:induction false} OrLeaks(b: Backend, o: Options, steps: seq<Step>, n: nat, w: World, c: nat)
    requires Connected(steps) && !Scoped(steps)
    requires if Joined(b, steps) then exists d :: d in w.devices(c) && FiltersMean(b, o, steps, n, w, c, Some(d))
             else FiltersMean(b, o, steps, n, w, c, None)
    ensures InPrimary(Contacts(Joined(b, steps), WhereCond(b, o, steps, n)), w, c)
  {
    if Joined(b, steps) {
      var d :| d in w.devices(c) && FiltersMean(b, o, steps, n, w, c, Some(d));
      WhereMeans(b, o, steps, n, w, c, Some(d));
    } else {
      WhereMeans(b, o, steps, n, w, c, None);
    }
  }
}
