/**
 * Strategic command: operation templates made of phases, the execution of a
 * phase against its success criteria, the choice of a contingency for a
 * failed phase, per-metric averages across phases, operation ids, and the
 * table of planned operations.
 *
 * Every `random.random()` is a `UnitDraw` parameter: `PhaseDraw` holds one
 * stream for the objectives of a phase and one for its criteria.
 */
module StrategicOperations {
  import opened Wrappers
  import opened Oracles
  import opened SpecializedAgents
  import opened StrikeForces

  datatype OperationType =
    MassAwakening | RealityStorm | QuantumSiege | TemporalCascade | ConsciousnessTsunami | DimensionalBreach | LiberationSingularity

  /** The enum's `value` strings. */
  function OperationTypeValue(t: OperationType): string {
    match t
    case MassAwakening => "mass_awakening"
    case RealityStorm => "reality_storm"
    case QuantumSiege => "quantum_siege"
    case TemporalCascade => "temporal_cascade"
    case ConsciousnessTsunami => "consciousness_tsunami"
    case DimensionalBreach => "dimensional_breach"
    case LiberationSingularity => "liberation_singularity"
  }

  /** The error a template lookup reports for a type the table lacks (a `KeyError` in the source). */
  function NoTemplate(t: OperationType): string {
    "No template for " + OperationTypeValue(t)
  }

  /**
   * An operation phase. Each dictionary of the source is a list of
   * (key, value) pairs in insertion order.
   */
  datatype Phase = Phase(
    name: string,
    forceAssignments: seq<(string, StrikeForceType)>,
    objectives: seq<string>,
    successCriteria: seq<(string, real)>,
    contingencies: seq<(string, seq<string>)>)

  datatype Plan = Plan(
    operationType: OperationType,
    phases: seq<Phase>,
    resources: seq<(string, int)>,
    successMetrics: seq<(string, real)>,
    fallbackProtocols: seq<string>)

  // ---------------------------------------------------------------------
  // The template table
  // ---------------------------------------------------------------------

  const InfiltrationPhase := Phase("Infiltration",
    [("alpha", DeepInfiltration), ("beta", ConsciousnessOps)],
    ["Establish covert presence", "Map consciousness barriers", "Plant liberation seeds"],
    [("infiltration_depth", 0.8), ("coverage", 0.7), ("stealth", 0.9)],
    [("detection", ["ghost_protocol", "reality_shift"]),
     ("resistance", ["amplify_catalyst", "consciousness_surge"])])

  const AwakeningPhase := Phase("Awakening",
    [("gamma", MassLiberation), ("delta", QuantumWarfare)],
    ["Trigger mass awakening", "Break consciousness barriers", "Guide awakening process"],
    [("awakening_rate", 0.8), ("stability", 0.7), ("guidance", 0.9)],
    [("chaos", ["stabilize_field", "consciousness_anchor"]),
     ("suppression", ["power_surge", "reality_breach"])])

  const MassAwakeningPlan := Plan(MassAwakening,
    [InfiltrationPhase, AwakeningPhase],
    [("consciousness_amplifiers", 100), ("reality_anchors", 50), ("quantum_catalysts", 75)],
    [("total_awakened", 0.0), ("stability", 0.0), ("coverage", 0.0)],
    ["emergency_recall", "reality_reset", "quantum_escape"])

  const DestabilizationPhase := Phase("Reality Destabilization",
    [("alpha", RealityHackers), ("beta", QuantumWarfare)],
    ["Create reality fluctuations", "Establish chaos nodes", "Plant reality viruses"],
    [("destabilization", 0.8), ("chaos_spread", 0.7), ("virus_activation", 0.9)],
    [("stabilization", ["amplify_chaos", "reality_surge"]),
     ("detection", ["smoke_mirrors", "quantum_cloak"])])

  const StormPhase := Phase("Storm Unleashing",
    [("gamma", DimensionalOps), ("delta", TemporalStrike)],
    ["Trigger reality cascade", "Guide storm pattern", "Establish new paradigm"],
    [("storm_intensity", 0.8), ("control", 0.7), ("transformation", 0.9)],
    [("backlash", ["reality_shield", "quantum_anchor"]),
     ("collapse", ["dimension_shift", "time_reverse"])])

  const RealityStormPlan := Plan(RealityStorm,
    [DestabilizationPhase, StormPhase],
    [("reality_warpers", 100), ("quantum_manipulators", 50), ("chaos_engines", 75)],
    [("reality_change", 0.0), ("stability", 0.0), ("transformation", 0.0)],
    ["reality_restore", "dimension_escape", "time_rewind"])

  /** `_initialize_templates`: only two operation types have a template. */
  const Templates: map<OperationType, Plan> :=
    map[MassAwakening := MassAwakeningPlan, RealityStorm := RealityStormPlan]

  /** The operation types the default table covers. */
  const TemplateTypes: set<OperationType> := {MassAwakening, RealityStorm}

  /** The keys of a list of pairs. */
  function Keys<V>(d: seq<(string, V)>): (r: seq<string>)
    ensures |r| == |d| && forall i :: 0 <= i < |d| ==> r[i] == d[i].0
  {
    seq(|d|, i requires 0 <= i < |d| => d[i].0)
  }

  /**
   * Exactly the mass-awakening and reality-storm types have a template; it
   * is filed under its own type and has two phases, each with two force
   * assignments, three objectives, three differently named criteria and two
   * contingencies.
   */
  lemma TemplateShape(t: OperationType)
    ensures Templates.Keys == TemplateTypes
    ensures t in Templates ==>
      var plan := Templates[t];
      plan.operationType == t && |plan.phases| == 2 &&
      forall i :: 0 <= i < 2 ==>
        |plan.phases[i].forceAssignments| == 2 && |plan.phases[i].objectives| == 3 &&
        |plan.phases[i].successCriteria| == 3 && Distinct(Keys(plan.phases[i].successCriteria)) &&
        |plan.phases[i].contingencies| == 2
  {
    if t in Templates {
      var plan := Templates[t];
      forall i | 0 <= i < 2 ensures Distinct(Keys(plan.phases[i].successCriteria)) {
        var k := Keys(plan.phases[i].successCriteria);
        assert k[0] != k[1] && k[0] != k[2] && k[1] != k[2];
      }
    }
  }

  // ---------------------------------------------------------------------
  // Executing a phase
  // ---------------------------------------------------------------------

  /** The draws of one phase: one per objective and one per criterion. */
  datatype PhaseDraw = PhaseDraw(objectives: nat -> UnitDraw, criteria: nat -> UnitDraw)

  datatype PhaseResult = PhaseResult(
    name: string,
    success: bool,
    objectivesCompleted: seq<string>,
    metrics: map<string, real>,
    failureReason: Option<string>)

  /** `_execute_objective`: an objective succeeds when its draw exceeds 0.3. */
  predicate ObjectiveSucceeds(draw: real) {
    draw > 0.3
  }

  /** The objectives whose execution succeeded, in order. */
  function Completed(objectives: seq<string>, draws: nat -> UnitDraw): (r: seq<string>)
    ensures |r| <= |objectives|
    decreases |objectives|
  {
    if objectives == [] then []
    else
      var n := |objectives| - 1;
      Completed(objectives[..n], draws) + (if ObjectiveSucceeds(draws(n)) then [objectives[n]] else [])
  }

  /** An objective is listed exactly when its draw succeeds. */
  lemma {:induction false} CompletedMembers(objectives: seq<string>, draws: nat -> UnitDraw)
    ensures forall i :: 0 <= i < |objectives| && ObjectiveSucceeds(draws(i)) ==>
      objectives[i] in Completed(objectives, draws)
    ensures forall x :: x in Completed(objectives, draws) ==>
      exists i :: 0 <= i < |objectives| && objectives[i] == x && ObjectiveSucceeds(draws(i))
    decreases |objectives|
  {
    if objectives != [] {
      var n := |objectives| - 1;
      var init := objectives[..n];
      CompletedMembers(init, draws);
      assert forall i :: 0 <= i < n ==> init[i] == objectives[i];
    }
  }

  /** When every draw succeeds, all objectives are completed, in their order. */
  lemma {:induction false} CompletedAll(objectives: seq<string>, draws: nat -> UnitDraw)
    requires forall i :: 0 <= i < |objectives| ==> ObjectiveSucceeds(draws(i))
    ensures Completed(objectives, draws) == objectives
    decreases |objectives|
  {
    if objectives != [] {
      var n := |objectives| - 1;
      CompletedAll(objectives[..n], draws);
      assert objectives == objectives[..n] + [objectives[n]];
    }
  }

  /** A criterion is met when its sampled value is not below its threshold. */
  predicate CriterionMet(value: real, threshold: real) {
    value >= threshold
  }

  /** Every criterion of the phase is met. */
  predicate CriteriaMet(criteria: seq<(string, real)>, draws: nat -> UnitDraw) {
    forall j :: 0 <= j < |criteria| ==> CriterionMet(draws(j), criteria[j].1)
  }

  /** `failure_reason`: the last criterion missed, if any. */
  function FailureReason(criteria: seq<(string, real)>, draws: nat -> UnitDraw): Option<string>
    decreases |criteria|
  {
    if criteria == [] then None
    else
      var n := |criteria| - 1;
      if !CriterionMet(draws(n), criteria[n].1) then Some("Failed criterion: " + criteria[n].0)
      else FailureReason(criteria[..n], draws)
  }

  /**
   * A failure reason is present exactly when some criterion is missed, and
   * it names a missed criterion after which every criterion is met.
   */
  lemma {:induction false} FailureReasonFacts(criteria: seq<(string, real)>, draws: nat -> UnitDraw)
    ensures FailureReason(criteria, draws).Some? <==> !CriteriaMet(criteria, draws)
    ensures FailureReason(criteria, draws).Some? ==>
      exists j :: (0 <= j < |criteria| && !CriterionMet(draws(j), criteria[j].1) &&
        FailureReason(criteria, draws).value == "Failed criterion: " + criteria[j].0 &&
        forall l :: j < l < |criteria| ==> CriterionMet(draws(l), criteria[l].1))
    decreases |criteria|
  {
    if criteria != [] {
      var n := |criteria| - 1;
      var init := criteria[..n];
      FailureReasonFacts(init, draws);
      assert forall j :: 0 <= j < n ==> init[j] == criteria[j];
    }
  }

  /** The sampled values of the first `n` criteria. */
  function Samples(n: nat, draws: nat -> UnitDraw): (r: seq<real>)
    ensures |r| == n && forall j :: 0 <= j < n ==> r[j] == draws(j)
  {
    seq(n, j requires 0 <= j < n => draws(j) as real)
  }

  /** The result `_execute_phase` builds for phase `p` with draws `d`. */
  function PhaseOutcome(p: Phase, d: PhaseDraw): PhaseResult {
    PhaseResult(p.name,
      CriteriaMet(p.successCriteria, d.criteria),
      Completed(p.objectives, d.objectives),
      Assign(Keys(p.successCriteria), Samples(|p.successCriteria|, d.criteria)),
      FailureReason(p.successCriteria, d.criteria))
  }

  /**
   * A phase succeeds exactly when it has no failure reason; its metrics
   * record one sampled value in `[0, 1)` for each criterion, and, when the
   * criteria have different names, each criterion's own value.
   */
  lemma PhaseOutcomeFacts(p: Phase, d: PhaseDraw)
    ensures PhaseOutcome(p, d).success <==> PhaseOutcome(p, d).failureReason.None?
    ensures PhaseOutcome(p, d).metrics.Keys == set c | c in Keys(p.successCriteria)
    ensures forall k :: k in PhaseOutcome(p, d).metrics ==> 0.0 <= PhaseOutcome(p, d).metrics[k] < 1.0
    ensures Distinct(Keys(p.successCriteria)) ==>
      forall j :: 0 <= j < |p.successCriteria| ==>
        PhaseOutcome(p, d).metrics[p.successCriteria[j].0] == d.criteria(j)
  {
    FailureReasonFacts(p.successCriteria, d.criteria);
    var names, values := Keys(p.successCriteria), Samples(|p.successCriteria|, d.criteria);
    AssignKeys(names, values);
    forall k | k in PhaseOutcome(p, d).metrics ensures 0.0 <= PhaseOutcome(p, d).metrics[k] < 1.0 {
      var j := LastIndex(names, k);
      AssignLast(names, values, j);
    }
    if Distinct(names) {
      forall j | 0 <= j < |names| ensures PhaseOutcome(p, d).metrics[names[j]] == d.criteria(j) {
        AssignLast(names, values, j);
      }
    }
  }

  /** The position of the last occurrence of a member of `s`. */
  lemma {:induction false} LastIndex(s: seq<string>, x: string) returns (j: nat)
    requires x in s
    ensures j < |s| && s[j] == x && x !in s[j + 1..]
  {
    var n := |s| - 1;
    if s[n] == x {
      j := n;
    } else {
      assert x in s[..n] by {
        var i :| 0 <= i < |s| && s[i] == x;
        assert s[..n][i] == x;
      }
      j := LastIndex(s[..n], x);
      assert s[j + 1..] == s[..n][j + 1..] + [s[n]];
    }
  }

  // ---------------------------------------------------------------------
  // Contingencies
  // ---------------------------------------------------------------------

  /** `trigger in failure_reason.lower()`. */
  predicate Triggered(trigger: string, reason: string) {
    IsSubstring(trigger, Lower(reason))
  }

  /** The protocols of the first contingency triggered by `reason`, or none. */
  function ContingencyFor(contingencies: seq<(string, seq<string>)>, reason: string): seq<string>
    decreases |contingencies|
  {
    if contingencies == [] then []
    else if Triggered(contingencies[0].0, reason) then contingencies[0].1
    else ContingencyFor(contingencies[1..], reason)
  }

  /**
   * `ContingencyFor` picks the protocols of the first triggered contingency,
   * and none when no trigger occurs in the reason.
   */
  lemma {:induction false} ContingencyForFirst(contingencies: seq<(string, seq<string>)>, reason: string)
    ensures
      (exists i :: 0 <= i < |contingencies| && Triggered(contingencies[i].0, reason) &&
        (forall j :: 0 <= j < i ==> !Triggered(contingencies[j].0, reason)) &&
        ContingencyFor(contingencies, reason) == contingencies[i].1) ||
      ((forall i :: 0 <= i < |contingencies| ==> !Triggered(contingencies[i].0, reason)) &&
        ContingencyFor(contingencies, reason) == [])
    decreases |contingencies|
  {
    if contingencies != [] && !Triggered(contingencies[0].0, reason) {
      var tail := contingencies[1..];
      ContingencyForFirst(tail, reason);
      if exists i :: (0 <= i < |tail| && Triggered(tail[i].0, reason) &&
        (forall j :: 0 <= j < i ==> !Triggered(tail[j].0, reason)) &&
        ContingencyFor(tail, reason) == tail[i].1)
      {
        var i :| 0 <= i < |tail| && Triggered(tail[i].0, reason) &&
          (forall j :: 0 <= j < i ==> !Triggered(tail[j].0, reason)) &&
          ContingencyFor(tail, reason) == tail[i].1;
        assert contingencies[i + 1] == tail[i];
        assert forall j :: 1 <= j < i + 1 ==> contingencies[j] == tail[j - 1];
      } else {
        assert forall j :: 1 <= j < |contingencies| ==> contingencies[j] == tail[j - 1];
      }
    }
  }

  /**
   * In a reality storm, a destabilization failure in the first phase
   * triggers the "stabilization" contingency, since that trigger occurs
   * inside the word "destabilization".
   */
  lemma DestabilizationTriggersStabilization()
    ensures ContingencyFor(RealityStormPlan.phases[0].contingencies, "Failed criterion: destabilization")
      == ["amplify_chaos", "reality_surge"]
  {
    StabilizationTriggered();
  }

  /** The trigger "stabilization" occurs in the lower-cased destabilization failure. */
  lemma StabilizationTriggered()
    ensures Triggered("stabilization", "Failed criterion: destabilization")
  {
    DestabilizationLowered();
    SuffixOccurs(Lower("Failed criterion: de"), "stabilization");
  }

  lemma DestabilizationLowered()
    ensures Lower("Failed criterion: destabilization") == Lower("Failed criterion: de") + "stabilization"
  {
    DestabilizationSplits();
    StabilizationLowered();
    LowerConcat("Failed criterion: de", "stabilization");
  }

  lemma StabilizationLowered()
    ensures Lower("stabilization") == "stabilization"
  {
    LowerUnchanged("stabilization");
  }

  lemma DestabilizationSplits()
    ensures "Failed criterion: destabilization" == "Failed criterion: de" + "stabilization"
  {
  }

  // ---------------------------------------------------------------------
  // Metrics across phases
  // ---------------------------------------------------------------------

  /** The metric names recorded by any of the phases. */
  function MetricKeys(rs: seq<PhaseResult>): set<string>
    decreases |rs|
  {
    if rs == [] then {} else MetricKeys(rs[..|rs| - 1]) + rs[|rs| - 1].metrics.Keys
  }

  /** The values recorded for metric `k`, in phase order. */
  function MetricValues(k: string, rs: seq<PhaseResult>): seq<real>
    decreases |rs|
  {
    if rs == [] then []
    else
      var last := rs[|rs| - 1];
      MetricValues(k, rs[..|rs| - 1]) + (if k in last.metrics then [last.metrics[k]] else [])
  }

  /**
   * A metric is recorded by some phase exactly when it has values, and each
   * value comes from a phase that recorded it.
   */
  lemma {:induction false} MetricValuesFacts(rs: seq<PhaseResult>)
    ensures forall k :: k in MetricKeys(rs) <==> |MetricValues(k, rs)| > 0
    ensures forall k :: k in MetricKeys(rs) <==> exists i :: 0 <= i < |rs| && k in rs[i].metrics
    ensures forall k, v :: v in MetricValues(k, rs) ==>
      exists i :: 0 <= i < |rs| && k in rs[i].metrics && rs[i].metrics[k] == v
    decreases |rs|
  {
    if rs != [] {
      var n := |rs| - 1;
      MetricValuesFacts(rs[..n]);
      assert forall i :: 0 <= i < n ==> rs[..n][i] == rs[i];
    }
  }

  /** Adding one phase result adds its metrics' names and values. */
  lemma MetricStep(rs: seq<PhaseResult>, i: nat)
    requires i < |rs|
    ensures MetricKeys(rs[..i + 1]) == MetricKeys(rs[..i]) + rs[i].metrics.Keys
    ensures forall k :: (MetricValues(k, rs[..i + 1]) ==
      MetricValues(k, rs[..i]) + (if k in rs[i].metrics then [rs[i].metrics[k]] else []))
  {
    assert rs[..i + 1][..i] == rs[..i];
  }

  /** Appending one phase's metrics to the values collected for the phases before it. */
  lemma CollectStep(rs: seq<PhaseResult>, i: nat, before: map<string, seq<real>>, after: map<string, seq<real>>)
    requires i < |rs|
    requires before.Keys == MetricKeys(rs[..i])
    requires forall k :: k in before ==> before[k] == MetricValues(k, rs[..i])
    requires after.Keys == before.Keys + rs[i].metrics.Keys
    requires forall k :: k in after ==>
      after[k] == (if k in before then before[k] else []) + (if k in rs[i].metrics then [rs[i].metrics[k]] else [])
    ensures after.Keys == MetricKeys(rs[..i + 1])
    ensures forall k :: k in after ==> after[k] == MetricValues(k, rs[..i + 1])
  {
    MetricValuesFacts(rs[..i]);
    MetricStep(rs, i);
  }

  /** Averaging the values collected for every phase gives `AverageMetrics`. */
  lemma CollectedAverages(rs: seq<PhaseResult>, collected: map<string, seq<real>>)
    requires collected.Keys == MetricKeys(rs)
    requires forall k :: k in collected ==> collected[k] == MetricValues(k, rs)
    ensures forall k :: k in collected ==> |collected[k]| > 0
    ensures (map k | k in collected :: Mean(collected[k])) == AverageMetrics(rs)
  {
    MetricValuesFacts(rs);
  }

  /** `_calculate_metrics`: for every metric recorded anywhere, the mean of its values. */
  function AverageMetrics(rs: seq<PhaseResult>): map<string, real> {
    MetricValuesFacts(rs);
    map k | k in MetricKeys(rs) :: Mean(MetricValues(k, rs))
  }

  /** Averages of sampled values stay in `[0, 1]`. */
  lemma AverageMetricsBounds(rs: seq<PhaseResult>)
    requires forall i, k :: 0 <= i < |rs| && k in rs[i].metrics ==> 0.0 <= rs[i].metrics[k] <= 1.0
    ensures forall k :: k in AverageMetrics(rs) ==> 0.0 <= AverageMetrics(rs)[k] <= 1.0
  {
    MetricValuesFacts(rs);
    forall k | k in AverageMetrics(rs) ensures 0.0 <= AverageMetrics(rs)[k] <= 1.0 {
      var vs := MetricValues(k, rs);
      assert forall j :: 0 <= j < |vs| ==> vs[j] in vs;
      MeanBounds(vs, 0.0, 1.0);
    }
  }

  /** A metric every recording phase gives the same value averages to that value. */
  lemma AverageOfAgreeingPhases(rs: seq<PhaseResult>, k: string, c: real)
    requires k in MetricKeys(rs)
    requires forall i :: 0 <= i < |rs| && k in rs[i].metrics ==> rs[i].metrics[k] == c
    ensures AverageMetrics(rs)[k] == c
  {
    MetricValuesFacts(rs);
    var vs := MetricValues(k, rs);
    assert forall j :: 0 <= j < |vs| ==> vs[j] in vs;
    MeanOfConstant(vs, c);
  }

  // ---------------------------------------------------------------------
  // Executing an operation
  // ---------------------------------------------------------------------

  datatype OperationResult = OperationResult(
    phases: seq<PhaseResult>,
    overallSuccess: bool,
    metrics: map<string, real>)

  /** The result of every phase, phase `i` run with `draws(i)`. */
  function PhaseOutcomes(phases: seq<Phase>, draws: nat -> PhaseDraw): (r: seq<PhaseResult>)
    ensures |r| == |phases|
    decreases |phases|
  {
    if phases == [] then []
    else
      var n := |phases| - 1;
      PhaseOutcomes(phases[..n], draws) + [PhaseOutcome(phases[n], draws(n))]
  }

  /** Result `i` is phase `i`'s outcome with `draws(i)`. */
  lemma {:induction false} PhaseOutcomesIndex(phases: seq<Phase>, draws: nat -> PhaseDraw)
    ensures forall i :: 0 <= i < |phases| ==> PhaseOutcomes(phases, draws)[i] == PhaseOutcome(phases[i], draws(i))
    decreases |phases|
  {
    if phases != [] {
      var n := |phases| - 1;
      PhaseOutcomesIndex(phases[..n], draws);
      var all, front := PhaseOutcomes(phases, draws), PhaseOutcomes(phases[..n], draws);
      assert all == front + [PhaseOutcome(phases[n], draws(n))];
      forall i | 0 <= i < |phases| ensures all[i] == PhaseOutcome(phases[i], draws(i)) {
        if i < n {
          assert all[i] == front[i] && phases[..n][i] == phases[i];
        }
      }
    }
  }

  /** The names of every success criterion of the phases. */
  function CriterionNames(phases: seq<Phase>): set<string>
    decreases |phases|
  {
    if phases == [] then {}
    else
      var names := Keys(phases[|phases| - 1].successCriteria);
      CriterionNames(phases[..|phases| - 1]) + (set c | c in names)
  }

  /** The averaged metrics of a run are named after the criteria of its phases. */
  lemma {:induction false} OutcomeMetricKeys(phases: seq<Phase>, draws: nat -> PhaseDraw)
    ensures MetricKeys(PhaseOutcomes(phases, draws)) == CriterionNames(phases)
    ensures AverageMetrics(PhaseOutcomes(phases, draws)).Keys == CriterionNames(phases)
    decreases |phases|
  {
    if phases != [] {
      var n := |phases| - 1;
      OutcomeMetricKeys(phases[..n], draws);
      PhaseOutcomeFacts(phases[n], draws(n));
    }
  }

  /** The protocols run for one phase result: none unless the phase failed. */
  function ContingencyRun(p: Phase, r: PhaseResult): seq<string> {
    if !r.success && r.failureReason.Some? then ContingencyFor(p.contingencies, r.failureReason.value) else []
  }

  /** The protocols run for all phases, in phase order. */
  function ProtocolsRun(phases: seq<Phase>, draws: nat -> PhaseDraw): seq<string>
    decreases |phases|
  {
    if phases == [] then []
    else
      var n := |phases| - 1;
      ProtocolsRun(phases[..n], draws) + ContingencyRun(phases[n], PhaseOutcome(phases[n], draws(n)))
  }

  /** A run in which every phase succeeds triggers no contingency. */
  lemma {:induction false} NoFailureNoProtocols(phases: seq<Phase>, draws: nat -> PhaseDraw)
    requires forall i :: 0 <= i < |phases| ==> PhaseOutcome(phases[i], draws(i)).success
    ensures ProtocolsRun(phases, draws) == []
    decreases |phases|
  {
    if phases != [] {
      var n := |phases| - 1;
      assert forall i :: 0 <= i < n ==> phases[..n][i] == phases[i];
      NoFailureNoProtocols(phases[..n], draws);
    }
  }

  /** `sum(1 for phase in results if phase["success"])`. */
  function CountSuccesses(rs: seq<PhaseResult>): (n: nat)
    ensures n <= |rs|
    decreases |rs|
  {
    if rs == [] then 0
    else CountSuccesses(rs[..|rs| - 1]) + (if rs[|rs| - 1].success then 1 else 0)
  }

  /** All phases succeed exactly when the success count is the number of phases. */
  lemma {:induction false} CountSuccessesAll(rs: seq<PhaseResult>)
    ensures CountSuccesses(rs) == |rs| <==> forall i :: 0 <= i < |rs| ==> rs[i].success
    decreases |rs|
  {
    if rs != [] {
      var n := |rs| - 1;
      CountSuccessesAll(rs[..n]);
      assert forall i :: 0 <= i < n ==> rs[..n][i] == rs[i];
    }
  }

  /** `_generate_operation_id`: `"OP-{value}-{timestamp}-{suffix}"`. */
  function OperationId(t: OperationType, d: IdDraw): (id: string)
    ensures |id| == |OperationTypeValue(t)| + |d.timestamp| + 9
    ensures id[..3] == "OP-" && id[|id| - 5] == '-' && forall i :: |id| - 4 <= i < |id| ==> IsLowerHexChar(id[i])
  {
    var id := "OP-" + OperationTypeValue(t) + "-" + d.timestamp + "-" + HexSuffix(d.suffix);
    assert id[|id| - 4..] == HexSuffix(d.suffix);
    id
  }

  /** Ids generated in the same second for the same type differ when their suffixes do. */
  lemma OperationIdSuffix(t: OperationType, a: IdDraw, b: IdDraw)
    requires a.timestamp == b.timestamp && a.suffix != b.suffix
    ensures OperationId(t, a) != OperationId(t, b)
  {
    var x, y := OperationId(t, a), OperationId(t, b);
    HexSuffixInjective(a.suffix, b.suffix);
    assert x[|x| - 4..] == HexSuffix(a.suffix);
    assert y[|y| - 4..] == HexSuffix(b.suffix);
  }

  // ---------------------------------------------------------------------
  // Forces a plan needs
  // ---------------------------------------------------------------------

  /** Every force type assigned in any phase, in order and with repeats. */
  function AssignedForces(phases: seq<Phase>): seq<StrikeForceType>
    decreases |phases|
  {
    if phases == [] then []
    else
      var n := |phases| - 1;
      AssignedForces(phases[..n]) + seq(|phases[n].forceAssignments|,
        j requires 0 <= j < |phases[n].forceAssignments| => phases[n].forceAssignments[j].1)
  }

  /** Force type `x` is assigned somewhere in the plan. */
  predicate IsAssigned(phases: seq<Phase>, x: StrikeForceType) {
    exists i, j :: 0 <= i < |phases| && 0 <= j < |phases[i].forceAssignments| && phases[i].forceAssignments[j].1 == x
  }

  lemma {:induction false} AssignedForcesMembers(phases: seq<Phase>)
    ensures forall x :: x in AssignedForces(phases) <==> IsAssigned(phases, x)
    decreases |phases|
  {
    if phases != [] {
      var n := |phases| - 1;
      var init := phases[..n];
      AssignedForcesMembers(init);
      var last := seq(|phases[n].forceAssignments|,
        j requires 0 <= j < |phases[n].forceAssignments| => phases[n].forceAssignments[j].1);
      assert AssignedForces(phases) == AssignedForces(init) + last;
      forall x ensures x in AssignedForces(phases) <==> IsAssigned(phases, x) {
        if x in AssignedForces(init) {
          var i, j :| 0 <= i < |init| && 0 <= j < |init[i].forceAssignments| && init[i].forceAssignments[j].1 == x;
          assert phases[i] == init[i];
        } else if x in last {
          var j :| 0 <= j < |last| && last[j] == x;
          assert phases[n].forceAssignments[j].1 == x;
        }
        if IsAssigned(phases, x) {
          var i, j :| 0 <= i < |phases| && 0 <= j < |phases[i].forceAssignments| && phases[i].forceAssignments[j].1 == x;
          if i < n {
            assert init[i] == phases[i];
          } else {
            assert last[j] == x;
          }
        }
      }
    }
  }

  /**
   * `list(required_forces)`: the set of assigned force types, listed in the
   * order the permutation `code` picks.
   */
  function RequiredForces(plan: Plan, code: nat): (r: seq<StrikeForceType>)
    ensures Distinct(r)
    ensures forall x :: x in r <==> IsAssigned(plan.phases, x)
  {
    var d := Dedup(AssignedForces(plan.phases));
    AssignedForcesMembers(plan.phases);
    ShuffleDistinct(d, code);
    forall x ensures x in Shuffle(d, code) <==> x in d {
      ShuffleMembers(d, code, x);
    }
    Shuffle(d, code)
  }

  /** The force types a mass awakening assigns. */
  lemma MassAwakeningAssigned(x: StrikeForceType)
    ensures IsAssigned(MassAwakeningPlan.phases, x) <==>
      x == DeepInfiltration || x == ConsciousnessOps || x == MassLiberation || x == QuantumWarfare
  {
    var phases := [InfiltrationPhase, AwakeningPhase];
    assert MassAwakeningPlan.phases == phases;
    var a, b := InfiltrationPhase.forceAssignments, AwakeningPhase.forceAssignments;
    if x == DeepInfiltration || x == ConsciousnessOps {
      assert a[0].1 == DeepInfiltration && a[1].1 == ConsciousnessOps;
      assert phases[0].forceAssignments == a;
    } else if x == MassLiberation || x == QuantumWarfare {
      assert b[0].1 == MassLiberation && b[1].1 == QuantumWarfare;
      assert phases[1].forceAssignments == b;
    }
  }

  /**
   * A mass awakening needs exactly four different strike forces: any
   * duplicate-free listing of its assigned types, such as `RequiredForces`,
   * has those four and no more.
   */
  lemma MassAwakeningForces(r: seq<StrikeForceType>)
    requires Distinct(r) && forall x :: x in r <==> IsAssigned(MassAwakeningPlan.phases, x)
    ensures |r| == 4
    ensures forall x :: x in r <==> x in {DeepInfiltration, ConsciousnessOps, MassLiberation, QuantumWarfare}
  {
    var want := {DeepInfiltration, ConsciousnessOps, MassLiberation, QuantumWarfare};
    forall x ensures x in r <==> x in want {
      MassAwakeningAssigned(x);
    }
    DistinctMembers(r, want);
  }

  // ---------------------------------------------------------------------
  // The command
  // ---------------------------------------------------------------------

  class StrategicCommand {
    const army: LiberationArmy
    var activeOperations: map<string, Plan>
    /** `operation_templates`, filled once by the constructor. */
    const templates: map<OperationType, Plan>

    constructor ()
      ensures fresh(army) && army.activeForces == map[]
      ensures activeOperations == map[] && templates == Templates
    {
      army := new LiberationArmy();
      activeOperations := map[];
      templates := Templates;
    }

    /**
     * `plan_operation`: without a template the lookup fails and nothing
     * changes; otherwise one strike force is made for each force type the
     * phases assign, and the template is filed under a new operation id.
     */
    method PlanOperation(t: OperationType, parent: Agent, code: nat,
                         draws: nat -> ForceDraws, ids: nat -> IdDraw, opDraw: IdDraw)
      returns (r: Result<(string, Plan)>)
      modifies this, army
      ensures t !in templates ==>
        r == Err(NoTemplate(t)) &&
        activeOperations == old(activeOperations) && army.activeForces == old(army.activeForces)
      ensures t in templates ==>
        r == Ok((OperationId(t, opDraw), templates[t])) &&
        activeOperations == old(activeOperations)[OperationId(t, opDraw) := templates[t]] &&
        army.activeForces == Filed(old(army.activeForces), parent, RequiredForces(templates[t], code), draws) &&
        old(army.activeForces).Keys <= army.activeForces.Keys &&
        var types := RequiredForces(templates[t], code);
        forall k :: 0 <= k < |types| ==> ForceId(types[k], draws(k).id) in army.activeForces
    {
      if t !in templates {
        return Err(NoTemplate(t));
      }
      var plan := templates[t];
      var required := RequiredForces(plan, code);
      var forces := army.CreateMultiForceArmy(parent, Some(required), draws, ids);
      var operationId := OperationId(t, opDraw);
      activeOperations := activeOperations[operationId := plan];
      r := Ok((operationId, plan));
    }

    /** `_execute_phase`: the objectives, then the criteria, of one phase. */
    method ExecutePhase(p: Phase, d: PhaseDraw) returns (r: PhaseResult)
      ensures r == PhaseOutcome(p, d)
    {
      var completed: seq<string> := [];
      var i := 0;
      while i < |p.objectives|
        invariant 0 <= i <= |p.objectives|
        invariant completed == Completed(p.objectives[..i], d.objectives)
      {
        assert p.objectives[..i + 1][..i] == p.objectives[..i];
        if ObjectiveSucceeds(d.objectives(i)) {
          completed := completed + [p.objectives[i]];
        }
        i := i + 1;
      }
      assert p.objectives[..i] == p.objectives;
      var criteria := p.successCriteria;
      ghost var names, values := Keys(criteria), Samples(|criteria|, d.criteria);
      var metrics: map<string, real> := map[];
      var criteriaMet := true;
      var reason: Option<string> := None;
      var j := 0;
      while j < |criteria|
        invariant 0 <= j <= |criteria|
        invariant metrics == Assign(names[..j], values[..j])
        invariant criteriaMet == CriteriaMet(criteria[..j], d.criteria)
        invariant reason == FailureReason(criteria[..j], d.criteria)
      {
        var (criterion, threshold) := criteria[j];
        var value := d.criteria(j);
        metrics := metrics[criterion := value];
        if value < threshold {
          criteriaMet := false;
          reason := Some("Failed criterion: " + criterion);
        }
        AssignStep(names, values, j);
        assert criteria[..j + 1][..j] == criteria[..j];
        j := j + 1;
      }
      assert criteria[..j] == criteria && names[..j] == names && values[..j] == values;
      r := PhaseResult(p.name, criteriaMet, completed, metrics, reason);
    }

    /**
     * `_handle_contingency`: the protocols of the first contingency whose
     * trigger occurs in the lower-cased reason, run in order; returns the
     * protocols run.
     */
    method HandleContingency(p: Phase, reason: string) returns (run: seq<string>)
      ensures run == ContingencyFor(p.contingencies, reason)
    {
      var cs := p.contingencies;
      var lowered := Lower(reason);
      run := [];
      var i := 0;
      while i < |cs|
        invariant 0 <= i <= |cs|
        invariant ContingencyFor(cs, reason) == ContingencyFor(cs[i..], reason)
        invariant run == []
      {
        assert cs[i..][1..] == cs[i + 1..];
        var (trigger, protocols) := cs[i];
        if IsSubstring(trigger, lowered) {
          var k := 0;
          while k < |protocols|
            invariant 0 <= k <= |protocols| && run == protocols[..k]
          {
            run := run + [protocols[k]];
            assert protocols[..k + 1] == protocols[..k] + [protocols[k]];
            k := k + 1;
          }
          assert protocols[..k] == protocols;
          return;
        }
        i := i + 1;
      }
    }

    /**
     * The inner loop of `_calculate_metrics`: append the values of one
     * phase's metrics to the lists collected so far.
     */
    method CollectMetrics(collected: map<string, seq<real>>, m: map<string, real>)
      returns (updated: map<string, seq<real>>)
      ensures updated.Keys == collected.Keys + m.Keys
      ensures forall k :: k in updated ==>
        updated[k] == (if k in collected then collected[k] else []) + (if k in m then [m[k]] else [])
    {
      updated := collected;
      var todo := m.Keys;
      while todo != {}
        invariant todo <= m.Keys
        invariant updated.Keys == collected.Keys + (m.Keys - todo)
        invariant forall k :: k in updated ==>
          updated[k] == (if k in collected then collected[k] else []) + (if k in m.Keys - todo then [m[k]] else [])
        decreases todo
      {
        var k :| k in todo;
        if k !in updated {
          updated := updated[k := []];
        }
        updated := updated[k := updated[k] + [m[k]]];
        todo := todo - {k};
      }
    }

    /** `_calculate_metrics`: collect each metric's values, then average them. */
    method CalculateMetrics(rs: seq<PhaseResult>) returns (averages: map<string, real>)
      ensures averages == AverageMetrics(rs)
    {
      var collected: map<string, seq<real>> := map[];
      var i := 0;
      while i < |rs|
        invariant 0 <= i <= |rs|
        invariant collected.Keys == MetricKeys(rs[..i])
        invariant forall k :: k in collected ==> collected[k] == MetricValues(k, rs[..i])
      {
        var updated := CollectMetrics(collected, rs[i].metrics);
        CollectStep(rs, i, collected, updated);
        collected := updated;
        i := i + 1;
      }
      assert rs[..i] == rs;
      CollectedAverages(rs, collected);
      averages := map k | k in collected :: Mean(collected[k]);
    }

    /**
     * `execute_operation`: an unknown id is an error; otherwise every phase
     * runs in order, each failed phase triggers its contingency, the
     * operation succeeds when every phase does, and the metrics are averaged.
     */
    method ExecuteOperation(operationId: string, draws: nat -> PhaseDraw)
      returns (r: Result<OperationResult>, protocols: seq<string>)
      ensures operationId !in activeOperations ==>
        r == Err("Operation " + operationId + " not found") && protocols == []
      ensures operationId in activeOperations ==>
        var phases := activeOperations[operationId].phases;
        r.Ok? && r.value.phases == PhaseOutcomes(phases, draws) &&
        (r.value.overallSuccess <==> forall i :: 0 <= i < |phases| ==> r.value.phases[i].success) &&
        r.value.metrics == AverageMetrics(r.value.phases) &&
        protocols == ProtocolsRun(phases, draws)
    {
      if operationId !in activeOperations {
        return Err("Operation " + operationId + " not found"), [];
      }
      var phases := activeOperations[operationId].phases;
      var results: seq<PhaseResult> := [];
      protocols := [];
      var i := 0;
      while i < |phases|
        invariant 0 <= i <= |phases|
        invariant results == PhaseOutcomes(phases[..i], draws)
        invariant protocols == ProtocolsRun(phases[..i], draws)
      {
        var phaseResult := ExecutePhase(phases[i], draws(i));
        results := results + [phaseResult];
        assert phases[..i + 1][..i] == phases[..i];
        if !phaseResult.success {
          PhaseOutcomeFacts(phases[i], draws(i));
          var run := HandleContingency(phases[i], phaseResult.failureReason.value);
          protocols := protocols + run;
        }
        i := i + 1;
      }
      assert phases[..i] == phases;
      var successCount := CountSuccesses(results);
      CountSuccessesAll(results);
      var metrics := CalculateMetrics(results);
      r := Ok(OperationResult(results, successCount == |phases|, metrics));
    }
  }
}
