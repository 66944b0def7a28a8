/** What the generator emits parses to what the segment means. */
module Compilation {
  import opened Wrappers
  import opened Sql
  import opened Segments
  import opened Generator
  import opened StepMeaning

  // ---- the filters of a card, whatever a filter is rendered as ----

  /** The factors of a group, `f` giving those of one filter. */
  ghost function GroupFactors(f: Placed -> seq<Factor>, g: seq<Placed>): seq<Factor> {
    if g == [] then [] else GroupFactors(f, g[..|g| - 1]) + f(g[|g| - 1])
  }

  ghost function AllFactors(f: Placed -> seq<Factor>, gs: seq<seq<Placed>>): seq<seq<Factor>> {
    seq(|gs|, i requires 0 <= i < |gs| => GroupFactors(f, gs[i]))
  }

  ghost predicate Nonempty(f: Placed -> seq<Factor>) {
    forall p :: f(p) != []
  }

  lemma {:induction false} AllFactorsGroups(f: Placed -> seq<Factor>, gs: seq<seq<Placed>>)
    requires Nonempty(f) && gs != [] && forall i | 0 <= i < |gs| :: gs[i] != []
    ensures Groups(AllFactors(f, gs))
  {
  }

  /** A further filter opens a new group, or joins the last one. */
  lemma {:induction false} AllFactorsOr(f: Placed -> seq<Factor>, gs: seq<seq<Placed>>, p: Placed)
    ensures AllFactors(f, gs + [[p]]) == AllFactors(f, gs) + [f(p)]
  {
    assert [p][..|[p]| - 1] == [] && [p][|[p]| - 1] == p;
    assert GroupFactors(f, [p]) == f(p);
  }

  lemma {:induction false} AllFactorsAnd(f: Placed -> seq<Factor>, gs: seq<seq<Placed>>, p: Placed)
    requires gs != []
    ensures AllFactors(f, gs[..|gs| - 1] + [gs[|gs| - 1] + [p]]) == Extended(AllFactors(f, gs), f(p))
  {
    var g := gs[|gs| - 1];
    assert (g + [p])[..|g|] == g;
    assert GroupFactors(f, g + [p]) == GroupFactors(f, g) + f(p);
  }

  /** The connective in front of the bracket: the first filter's own, or AND. */
  function Opening(steps: seq<Step>): Token {
    if steps == [] then And
    else
      var before, s := steps[..|steps| - 1], steps[|steps| - 1];
      if Filters(s) && (forall t <- before :: !Filters(t)) && s.conditional == Some(OrElse) then Or else Opening(before)
  }

  lemma {:induction false} NoOpening(steps: seq<Step>)
    requires forall s <- steps :: !Filters(s)
    ensures Opening(steps) == And
  {
    if steps != [] {
      NoOpening(steps[..|steps| - 1]);
    }
  }

  lemma {:induction false} ConnectedPrefix(steps: seq<Step>)
    requires Connected(steps) && steps != []
    ensures Connected(steps[..|steps| - 1])
    ensures steps[|steps| - 1] in steps && !steps[|steps| - 1].body.Unknown?
    ensures steps[|steps| - 1].body.ConditionalCard? ==> steps[|steps| - 1].conditional.None?
    ensures Filters(steps[|steps| - 1]) ==>
              steps[|steps| - 1].conditional.Some? || forall s <- steps[..|steps| - 1] :: !Filters(s)
  {
    var before := steps[..|steps| - 1];
    forall i | 0 <= i < |before| && Filters(before[i])
      ensures before[i].conditional.Some? || forall j | 0 <= j < i :: !Filters(before[j])
    {
      assert before[i] == steps[i];
    }
    forall s <- before ensures !s.body.Unknown? && (s.body.ConditionalCard? ==> s.conditional.None?) {
      assert s in steps;
    }
  }

  /** The tokens of the filters and what connects them, `t` giving those of one filter. */
  ghost function BodyTokens(b: Backend, t: Placed -> seq<Token>, steps: seq<Step>, n: nat): seq<Token> {
    if steps == [] then []
    else
      var before, s := steps[..|steps| - 1], steps[|steps| - 1];
      if !Filters(s) then BodyTokens(b, t, before, n)
      else BodyTokens(b, t, before, n) + Lead(s, exists r <- before :: Filters(r))
           + t(Placed(s.body, n + TablesUsed(b, before)))
  }

  ghost predicate Known(p: Placed) {
    !p.body.Tag? && !p.body.ConditionalCard? && !p.body.Unknown?
  }

  ghost predicate Renders(t: Placed -> seq<Token>, f: Placed -> seq<Factor>) {
    && Nonempty(f)
    && forall p: Placed {:trigger t(p)} :: Known(p) ==> t(p) == RenderConj(ConjOf(f(p)))
  }

  /** Nothing is emitted, or the bracket is open and holds the groups of factors so far. */
  ghost predicate BodyIs(b: Backend, f: Placed -> seq<Factor>, steps: seq<Step>, n: nat, ts: seq<Token>) {
    var gs := Alternatives(b, steps, n);
    if gs == [] then ts == [] else Written(AllFactors(f, gs), [Opening(steps), Open], ts)
  }

  ghost predicate Written(fs: seq<seq<Factor>>, start: seq<Token>, ts: seq<Token>) {
    Groups(fs) && ts == start + RenderCond(CondOf(fs))
  }

  lemma {:induction false} BodyRenders(b: Backend, t: Placed -> seq<Token>, f: Placed -> seq<Factor>, steps: seq<Step>,
                                       n: nat)
    requires Connected(steps) && Renders(t, f)
    ensures BodyIs(b, f, steps, n, BodyTokens(b, t, steps, n))
  {
    if steps != [] {
      ConnectedPrefix(steps);
      BodyRenders(b, t, f, steps[..|steps| - 1], n);
      BodyNext(b, t, f, steps, n);
    }
  }

  lemma {:induction false} BodyNext(b: Backend, t: Placed -> seq<Token>, f: Placed -> seq<Factor>, steps: seq<Step>,
                                    n: nat)
    requires steps != [] && !steps[|steps| - 1].body.Unknown? && Renders(t, f)
    requires Filters(steps[|steps| - 1]) ==>
               steps[|steps| - 1].conditional.Some? || forall s <- steps[..|steps| - 1] :: !Filters(s)
    requires BodyIs(b, f, steps[..|steps| - 1], n, BodyTokens(b, t, steps[..|steps| - 1], n))
    ensures BodyIs(b, f, steps, n, BodyTokens(b, t, steps, n))
  {
    if Filters(steps[|steps| - 1]) {
      if Alternatives(b, steps[..|steps| - 1], n) == [] {
        BodyStarts(b, t, f, steps, n, BodyTokens(b, t, steps, n));
      } else {
        BodyContinues(b, t, f, steps, n);
      }
    }
  }

  lemma {:induction false} BodyContinues(b: Backend, t: Placed -> seq<Token>, f: Placed -> seq<Factor>,
                                         steps: seq<Step>, n: nat)
    requires steps != [] && !steps[|steps| - 1].body.Unknown? && Renders(t, f)
    requires Filters(steps[|steps| - 1]) && steps[|steps| - 1].conditional.Some?
    requires Alternatives(b, steps[..|steps| - 1], n) != []
    requires BodyIs(b, f, steps[..|steps| - 1], n, BodyTokens(b, t, steps[..|steps| - 1], n))
    ensures BodyIs(b, f, steps, n, BodyTokens(b, t, steps, n))
  {
    var before, s := steps[..|steps| - 1], steps[|steps| - 1];
    FurtherFilter(b, steps, n);
    FurtherTokens(b, t, steps, n);
    BodyGrows(t, f, Alternatives(b, before, n), s, Placed(s.body, n + TablesUsed(b, before)), [Opening(steps), Open],
              BodyTokens(b, t, before, n), BodyTokens(b, t, steps, n));
  }

  lemma {:induction false} FurtherTokens(b: Backend, t: Placed -> seq<Token>, steps: seq<Step>, n: nat)
    requires steps != [] && Filters(steps[|steps| - 1]) && exists r <- steps[..|steps| - 1] :: Filters(r)
    ensures var before, s := steps[..|steps| - 1], steps[|steps| - 1];
            BodyTokens(b, t, steps, n) ==
            BodyTokens(b, t, before, n) + Lead(s, true) + t(Placed(s.body, n + TablesUsed(b, before)))
  {
  }

  lemma {:induction false} FurtherFilter(b: Backend, steps: seq<Step>, n: nat)
    requires steps != [] && Filters(steps[|steps| - 1]) && Alternatives(b, steps[..|steps| - 1], n) != []
    ensures var before, s := steps[..|steps| - 1], steps[|steps| - 1];
            && Opening(steps) == Opening(before)
            && (exists r <- before :: Filters(r))
            && Alternatives(b, steps, n) ==
               Grown(Alternatives(b, before, n), s.conditional, Placed(s.body, n + TablesUsed(b, before)))
  {
  }

  /** A further filter extends the tokens as it extends the groups. */
  lemma {:induction false} BodyGrows(t: Placed -> seq<Token>, f: Placed -> seq<Factor>, gs: seq<seq<Placed>>, s: Step,
                                     p: Placed, start: seq<Token>, ts: seq<Token>, out: seq<Token>)
    requires Renders(t, f) && s.conditional.Some? && Filters(s) && p.body == s.body && !s.body.Unknown?
    requires gs != [] && Written(AllFactors(f, gs), start, ts) && out == ts + Lead(s, true) + t(p)
    ensures Written(AllFactors(f, Grown(gs, s.conditional, p)), start, out)
  {
    FurtherRenders(t, f, gs, p, s);
    FilterBehindStart(start, RenderCond(CondOf(AllFactors(f, gs))), Lead(s, true), t(p));
  }

  lemma {:induction false} BodyStarts(b: Backend, t: Placed -> seq<Token>, f: Placed -> seq<Factor>, steps: seq<Step>,
                                      n: nat, out: seq<Token>)
    requires steps != [] && Filters(steps[|steps| - 1]) && !steps[|steps| - 1].body.Unknown? && Renders(t, f)
    requires Alternatives(b, steps[..|steps| - 1], n) == []
    requires var before, s := steps[..|steps| - 1], steps[|steps| - 1];
             out == [] + Lead(s, false) + t(Placed(s.body, n + TablesUsed(b, before)))
    ensures BodyIs(b, f, steps, n, out)
  {
    var before, s := steps[..|steps| - 1], steps[|steps| - 1];
    var p := Placed(s.body, n + TablesUsed(b, before));
    NoOpening(before);
    FirstRenders(f, p);
    assert Alternatives(b, steps, n) == [[p]];
    LeadOpens(steps);
    assert t(p) == RenderCond(CondOf(AllFactors(f, [[p]])));
    assert out == Lead(s, false) + t(p);
  }

  lemma {:induction false} LeadOpens(steps: seq<Step>)
    requires steps != [] && Filters(steps[|steps| - 1]) && forall s <- steps[..|steps| - 1] :: !Filters(s)
    ensures Lead(steps[|steps| - 1], false) == [Opening(steps), Open]
  {
    NoOpening(steps[..|steps| - 1]);
  }

  lemma {:induction false} FilterBehindStart(a: seq<Token>, b: seq<Token>, c: seq<Token>, d: seq<Token>)
    ensures a + b + c + d == a + (b + c + d)
  {
  }

  lemma {:induction false} FirstRenders(f: Placed -> seq<Factor>, p: Placed)
    requires Nonempty(f)
    ensures AllFactors(f, [[p]]) == [f(p)] && Groups(AllFactors(f, [[p]]))
    ensures CondOf(AllFactors(f, [[p]])) == Only(ConjOf(f(p)))
  {
    AllFactorsOr(f, [], p);
    assert [] + [[p]] == [[p]];
  }

  lemma {:induction false} FurtherRenders(t: Placed -> seq<Token>, f: Placed -> seq<Factor>, gs: seq<seq<Placed>>,
                                          p: Placed, s: Step)
    requires Renders(t, f) && s.conditional.Some? && Filters(s) && p.body == s.body && !s.body.Unknown?
    requires gs != [] && Groups(AllFactors(f, gs))
    ensures var gs' := Grown(gs, s.conditional, p);
            && Groups(AllFactors(f, gs'))
            && RenderCond(CondOf(AllFactors(f, gs'))) == RenderCond(CondOf(AllFactors(f, gs))) + Lead(s, true) + t(p)
  {
    if s.conditional == Some(OrElse) {
      AllFactorsOr(f, gs, p);
      CondOfOr(AllFactors(f, gs), f(p));
    } else {
      AllFactorsAnd(f, gs, p);
      CondOfAnd(AllFactors(f, gs), f(p));
    }
  }

  // ---- the filters of a card, as the generator renders them ----

  function Tokening(b: Backend, o: Options): Placed -> seq<Token> {
    (p: Placed) => StepTokens(b, o, p.body, p.n)
  }

  function Factoring(b: Backend, o: Options): Placed -> seq<Factor> {
    (p: Placed) => StepFactors(b, o, p.body, p.n)
  }

  lemma {:induction false} StepsRender(b: Backend, o: Options)
    ensures Renders(Tokening(b, o), Factoring(b, o))
  {
    forall p: Placed | Known(p)
      ensures Tokening(b, o)(p) == RenderConj(ConjOf(Factoring(b, o)(p)))
    {
      StepRenders(b, o, Step(None, p.body), p.n);
    }
  }

  lemma {:induction false} GatherFlags(b: Backend, o: Options, steps: seq<Step>, n: nat)
    ensures Gather(b, o, steps, n).inBody <==> exists s <- steps :: Filters(s)
    ensures Gather(b, o, steps, n).asked <==> Joined(b, steps)
  {
    if steps != [] {
      var before, s := steps[..|steps| - 1], steps[|steps| - 1];
      GatherFlags(b, o, before, n);
      assert steps == before + [s];
    }
  }

  lemma {:induction false} GatherIsBody(b: Backend, o: Options, steps: seq<Step>, n: nat)
    requires Connected(steps)
    ensures Gather(b, o, steps, n).tokens == BodyTokens(b, Tokening(b, o), steps, n)
  {
    if steps != [] {
      var before := steps[..|steps| - 1];
      ConnectedPrefix(steps);
      GatherIsBody(b, o, before, n);
      GatherCounts(b, o, before, n);
      GatherFlags(b, o, before, n);
      GatherLast(b, o, steps, n, Gather(b, o, before, n));
    }
  }

  lemma {:induction false} GatherLast(b: Backend, o: Options, steps: seq<Step>, n: nat, g: Gathered)
    requires steps != [] && g == Gather(b, o, steps[..|steps| - 1], n)
    requires steps[|steps| - 1].body.ConditionalCard? ==> steps[|steps| - 1].conditional.None?
    requires g.tokens == BodyTokens(b, Tokening(b, o), steps[..|steps| - 1], n)
    requires g.n == n + TablesUsed(b, steps[..|steps| - 1])
    requires g.inBody <==> exists s <- steps[..|steps| - 1] :: Filters(s)
    ensures Gather(b, o, steps, n).tokens == BodyTokens(b, Tokening(b, o), steps, n)
  {
    GatherOne(b, o, g, steps[|steps| - 1]);
  }

  lemma {:induction false} GatherOne(b: Backend, o: Options, g: Gathered, s: Step)
    requires s.body.ConditionalCard? ==> s.conditional.None?
    ensures GatherStep(b, o, g, s).tokens ==
            if Filters(s) then g.tokens + Lead(s, g.inBody) + Tokening(b, o)(Placed(s.body, g.n)) else g.tokens
  {
  }

  // ---- what they mean ----

  ghost predicate AllKnown(g: seq<Placed>) {
    forall i | 0 <= i < |g| :: Known(g[i])
  }

  ghost predicate GroupsKnown(gs: seq<seq<Placed>>) {
    forall i {:trigger AllKnown(gs[i])} | 0 <= i < |gs| :: AllKnown(gs[i])
  }

  lemma {:induction false} GroupsKnownGrow(gs: seq<seq<Placed>>, p: Placed)
    requires GroupsKnown(gs) && Known(p)
    ensures GroupsKnown(gs + [[p]])
    ensures gs != [] ==> GroupsKnown(gs[..|gs| - 1] + [gs[|gs| - 1] + [p]])
  {
    forall i | 0 <= i < |gs| ensures AllKnown((gs + [[p]])[i]) {
      assert AllKnown(gs[i]);
    }
    if gs != [] {
      var last := gs[|gs| - 1];
      assert AllKnown(last);
      assert AllKnown(last + [p]);
      var longer := gs[..|gs| - 1] + [last + [p]];
      forall i | 0 <= i < |longer| ensures AllKnown(longer[i]) {
        assert AllKnown(gs[i]);
      }
    }
  }

  lemma {:induction false} AlternativesKnown(b: Backend, steps: seq<Step>, n: nat)
    requires Connected(steps)
    ensures GroupsKnown(Alternatives(b, steps, n))
  {
    if steps != [] {
      var before, s := steps[..|steps| - 1], steps[|steps| - 1];
      ConnectedPrefix(steps);
      AlternativesKnown(b, before, n);
      if Filters(s) {
        GroupsKnownGrow(Alternatives(b, before, n), Placed(s.body, n + TablesUsed(b, before)));
      }
    }
  }

  lemma {:induction false} PlacedHolds(b: Backend, o: Options, p: Placed, w: World, c: nat, d: Option<nat>)
    requires Known(p)
    ensures AllHold(Factoring(b, o)(p), w, c, d) == Means(b, o, p.body, p.n, w, c, d)
  {
    StepHolds(b, o, p.body, p.n, w, c, d);
  }

  lemma {:induction false} GroupHolds(b: Backend, o: Options, g: seq<Placed>, w: World, c: nat, d: Option<nat>)
    requires AllKnown(g)
    ensures AllHold(GroupFactors(Factoring(b, o), g), w, c, d) == AllMean(b, o, g, w, c, d)
  {
    if g != [] {
      var rest, p := g[..|g| - 1], g[|g| - 1];
      GroupHolds(b, o, rest, w, c, d);
      PlacedHolds(b, o, p, w, c, d);
      AllHoldAppend(GroupFactors(Factoring(b, o), rest), Factoring(b, o)(p), w, c, d);
      AllMeanLast(b, o, g, w, c, d);
    }
  }

  lemma {:induction false} AllMeanLast(b: Backend, o: Options, g: seq<Placed>, w: World, c: nat, d: Option<nat>)
    requires g != []
    ensures AllMean(b, o, g, w, c, d) ==
            (AllMean(b, o, g[..|g| - 1], w, c, d) && Means(b, o, g[|g| - 1].body, g[|g| - 1].n, w, c, d))
  {
    var rest := g[..|g| - 1];
    if AllMean(b, o, rest, w, c, d) && Means(b, o, g[|g| - 1].body, g[|g| - 1].n, w, c, d) {
      forall i | 0 <= i < |g| ensures Means(b, o, g[i].body, g[i].n, w, c, d) {
        assert i < |rest| ==> g[i] == rest[i];
      }
    }
  }

  /** The bracket means the OR of the ANDs of the card's filters. */
  lemma {:induction false} BodyHolds(b: Backend, o: Options, steps: seq<Step>, n: nat, w: World, c: nat, d: Option<nat>)
    requires Connected(steps) && Groups(AllFactors(Factoring(b, o), Alternatives(b, steps, n)))
    ensures CondHolds(CondOf(AllFactors(Factoring(b, o), Alternatives(b, steps, n))), w, c, d) ==
            FiltersMean(b, o, steps, n, w, c, d)
  {
    var gs := Alternatives(b, steps, n);
    var fs := AllFactors(Factoring(b, o), gs);
    CondOfHolds(fs, w, c, d);
    AlternativesKnown(b, steps, n);
    forall i | 0 <= i < |gs| ensures AllHold(fs[i], w, c, d) == AllMean(b, o, gs[i], w, c, d) {
      assert AllKnown(gs[i]);
      GroupHolds(b, o, gs[i], w, c, d);
    }
  }
}
