/** Selective import: which steps a selection stands for, and why the pipeline then runs parents first. */
module StepDependencies {
  import opened Wrappers
  import opened ImportSource

  type Graph = map<string, seq<string>>

  function Parents(g: Graph, step: string): seq<string> {
    if step in g then g[step] else []
  }

  const STEP_DEPENDENCIES: Graph := map[
    "contact_tags" := ["contacts", "tags"],
    "contact_custom_fields" := ["contacts", "custom-fields"],
    "messages" := ["campaigns"]
  ]

  const PIPELINE: seq<string> := [
    "tags", "custom-fields", "labels", "email-templates", "contacts", "contact_tags", "contact_custom_fields",
    "automations", "campaigns", "messages"
  ]

  ghost predicate ParentsIn(g: Graph, step: string, s: set<string>) {
    forall p <- Parents(g, step) :: p in s
  }

  ghost predicate Closed(g: Graph, s: set<string>) {
    forall x {:trigger ParentsIn(g, x, s)} | x in s :: ParentsIn(g, x, s)
  }

  /** `s` is the least set that holds `base` and is closed under parents. */
  ghost predicate LeastClosed(g: Graph, base: set<string>, s: set<string>) {
    && base <= s && Closed(g, s)
    && forall t {:trigger Closed(g, t)} | base <= t && Closed(g, t) :: s <= t
  }

  /** The growing set shared by the recursive calls. */
  class Expansion {
    const graph: Graph
    var out: set<string>

    constructor (graph: Graph)
      ensures this.graph == graph && out == {}
    {
      this.graph, this.out := graph, {};
    }

    /** Terminates on every graph, cyclic or not: a step is entered once. Steps still being expanded, which are in
        `out` already, may lack parents; those added by this call do not. */
    method Add(step: string)
      modifies this
      ensures old(out) <= out && step in out
      ensures forall x {:trigger ParentsIn(graph, x, out)} | x in out && x !in old(out) :: ParentsIn(graph, x, out)
      ensures forall t {:trigger Closed(graph, t)} | old(out) <= t && step in t && Closed(graph, t) :: out <= t
      decreases graph.Keys - out
    {
      if step in out { return; }
      out := out + {step};
      ghost var entered := out;
      var parents := Parents(graph, step);
      for i := 0 to |parents|
        invariant entered <= out
        invariant forall j | 0 <= j < i :: parents[j] in out
        invariant forall x {:trigger ParentsIn(graph, x, out)} | x in out && x !in entered :: ParentsIn(graph, x, out)
        invariant forall t {:trigger Closed(graph, t)} | entered <= t && Closed(graph, t) :: out <= t
      {
        ghost var before := out;
        forall t | entered <= t && Closed(graph, t) ensures parents[i] in t {
          assert ParentsIn(graph, step, t);
        }
        Add(parents[i]);
        forall x | x in before && x !in entered ensures ParentsIn(graph, x, out) {
          assert ParentsIn(graph, x, before);
        }
      }
    }
  }

  /** No selection, or an empty one, means every step. */
  method ExpandSelectedSteps(selected: Option<seq<string>>) returns (r: Option<set<string>>)
    ensures r.None? <==> selected.None? || selected.value == []
    ensures r.Some? ==> LeastClosed(STEP_DEPENDENCIES, (set x | x in selected.value), r.value)
  {
    if selected.None? || selected.value == [] { return None; }
    var e := new Expansion(STEP_DEPENDENCIES);
    for i := 0 to |selected.value|
      invariant forall j | 0 <= j < i :: selected.value[j] in e.out
      invariant fresh(e) && e.graph == STEP_DEPENDENCIES && Closed(STEP_DEPENDENCIES, e.out)
      invariant forall t {:trigger Closed(STEP_DEPENDENCIES, t)} |
                  (set x | x in selected.value) <= t && Closed(STEP_DEPENDENCIES, t) :: e.out <= t
    {
      ghost var before := e.out;
      e.Add(selected.value[i]);
      forall x | x in before ensures ParentsIn(STEP_DEPENDENCIES, x, e.out) {
        assert ParentsIn(STEP_DEPENDENCIES, x, before);
      }
    }
    r := Some(e.out);
  }

  // ---- the pipeline as it is wired ----

  function LinkParents(s: Step): seq<string> {
    match s
    case Entity(_, _, _, _, _) => []
    case Links(_, left, right, _, _, _) => [left, right]
    case Messages(_, _, _, _, _, parent, _, _) => [parent]
  }

  /** `steps` are the importers in pipeline order: three of them fill links between the steps they depend on, and
      the join tables have names of their own. */
  ghost predicate Wired(steps: seq<Step>) {
    && |steps| == |PIPELINE|
    && (forall k | 0 <= k < |steps| ::
          steps[k].name == PIPELINE[k] && LinkParents(steps[k]) == Parents(STEP_DEPENDENCIES, steps[k].name))
    && (steps[9].Messages? && steps[9].linkName == "campaign_messages")
    && (forall k {:trigger IdsConsistent(steps[k])} | 0 <= k < |steps| && steps[k].HasRows() :: IdsConsistent(steps[k]))
  }

  lemma {:induction false} WiredKinds(steps: seq<Step>)
    requires Wired(steps)
    ensures forall k | 0 <= k < |steps| :: steps[k].Entity? <==> k !in {5, 6, 9}
    ensures forall k | 0 <= k < |steps| :: steps[k].Links? <==> k in {5, 6}
  {
    assert forall k | 0 <= k < |steps| :: steps[k].Entity? <==> LinkParents(steps[k]) == [];
    assert forall k | 0 <= k < |steps| :: steps[k].Links? <==> |LinkParents(steps[k])| == 2;
    assert steps[5].name == "contact_tags" && steps[6].name == "contact_custom_fields" && steps[9].name == "messages";
  }

  lemma {:induction false} PipelineNamesDiffer(i: nat, j: nat)
    requires i < j < |PIPELINE|
    ensures PIPELINE[i] != PIPELINE[j]
  {
    assert |PIPELINE[0]| == 4 && |PIPELINE[1]| == 13 && |PIPELINE[2]| == 6 && |PIPELINE[3]| == 15;
    assert |PIPELINE[4]| == 8 && |PIPELINE[5]| == 12 && |PIPELINE[6]| == 21 && |PIPELINE[7]| == 11;
    assert |PIPELINE[8]| == 9 && |PIPELINE[9]| == 8 && PIPELINE[4][0] == 'c' && PIPELINE[9][0] == 'm';
  }

  /** The pipeline order is topological: whatever was selected, after expansion every step finds its parents
      selected and in front of it. */
  lemma {:induction false} PipelineWellFormed(steps: seq<Step>, base: set<string>, r: Option<set<string>>)
    requires Wired(steps)
    requires r.Some? ==> LeastClosed(STEP_DEPENDENCIES, base, r.value)
    ensures WellFormed(steps, r)
  {
    WiredKinds(steps);
    forall i, j | 0 <= i < j < |steps| ensures !SameTable(steps, i, j) {
      PipelineNamesDiffer(i, j);
    }
    forall k | 0 <= k < |steps| ensures ParentsBefore(steps, k) && ParentsSelected(steps[k], r) {
      ParentsFirst(steps, k);
      if steps[k].HasLinks() && r.Some? && steps[k].name in r.value {
        assert ParentsIn(STEP_DEPENDENCIES, steps[k].name, r.value);
        assert steps[k].LeftName() == LinkParents(steps[k])[0];
        assert steps[k].Links? ==> steps[k].RightName() == LinkParents(steps[k])[1];
      }
    }
  }

  lemma {:induction false} ParentsFirst(steps: seq<Step>, k: nat)
    requires Wired(steps) && k < |steps|
    ensures ParentsBefore(steps, k)
  {
    WiredKinds(steps);
    assert steps[0].name == "tags" && steps[1].name == "custom-fields" && steps[4].name == "contacts";
    assert steps[8].name == "campaigns";
    if k in {5, 6} {
      assert EntityBefore(steps, k, "contacts") && EntityBefore(steps, k, "tags");
      assert EntityBefore(steps, k, "custom-fields");
      assert steps[k].LeftName() == LinkParents(steps[k])[0] && steps[k].RightName() == LinkParents(steps[k])[1];
    } else if k == 9 {
      assert EntityBefore(steps, k, "campaigns");
      assert steps[k].LeftName() == LinkParents(steps[k])[0];
    }
  }
}
