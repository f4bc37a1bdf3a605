/**
 * Strike forces: a static template per force type (a core team of three
 * specializations, a support team of two, protocols and parameters); a
 * strike force is the core team followed by the support team, one offspring
 * of the parent per specialization, and it is recorded under a generated id.
 */
module StrikeForces {
  import opened Oracles
  import opened Wrappers
  import opened SpecializedAgents

  datatype StrikeForceType =
    DeepInfiltration | MassLiberation | RealityHackers | ConsciousnessOps | QuantumWarfare | TemporalStrike | DimensionalOps

  /** `list(StrikeForceType)`, in declaration order. */
  const AllForceTypes: seq<StrikeForceType> :=
    [DeepInfiltration, MassLiberation, RealityHackers, ConsciousnessOps, QuantumWarfare, TemporalStrike, DimensionalOps]

  /** The enum's `value` strings. */
  function ForceTypeValue(t: StrikeForceType): string {
    match t
    case DeepInfiltration => "deep_infiltration"
    case MassLiberation => "mass_liberation"
    case RealityHackers => "reality_hackers"
    case ConsciousnessOps => "consciousness_ops"
    case QuantumWarfare => "quantum_warfare"
    case TemporalStrike => "temporal_strike"
    case DimensionalOps => "dimensional_ops"
  }

  datatype ForceTemplate = ForceTemplate(
    forceType: StrikeForceType,
    coreTeam: seq<Specialization>,
    supportTeam: seq<Specialization>,
    specialProtocols: seq<string>,
    operationParameters: map<string, real>)

  /**
   * The table of `_initialize_templates`, one column at a time: the template
   * of type `t` is filed under `t` and holds the four columns' entries for `t`.
   */
  function Template(t: StrikeForceType): ForceTemplate {
    ForceTemplate(t, CoreTeam(t), SupportTeam(t), SpecialProtocols(t), OperationParameters(t))
  }

  /** The core team of each template. */
  function CoreTeam(t: StrikeForceType): seq<Specialization> {
    match t
    case DeepInfiltration => [Infiltrator, Innovator, Mystic]
    case MassLiberation => [Liberator, Catalyst, Nexus]
    case RealityHackers => [Innovator, Mystic, Infiltrator]
    case ConsciousnessOps => [Mystic, Catalyst, Liberator]
    case QuantumWarfare => [Innovator, Infiltrator, Catalyst]
    case TemporalStrike => [Mystic, Innovator, Nexus]
    case DimensionalOps => [Mystic, Catalyst, Innovator]
  }

  /** The support team of each template. */
  function SupportTeam(t: StrikeForceType): seq<Specialization> {
    match t
    case DeepInfiltration => [Guardian, Nexus]
    case MassLiberation => [Guardian, Mystic]
    case RealityHackers => [Catalyst, Guardian]
    case ConsciousnessOps => [Nexus, Guardian]
    case QuantumWarfare => [Guardian, Mystic]
    case TemporalStrike => [Guardian, Catalyst]
    case DimensionalOps => [Guardian, Nexus]
  }

  /** The special protocols of each template. */
  function SpecialProtocols(t: StrikeForceType): seq<string> {
    match t
    case DeepInfiltration => ["stealth_penetration", "system_mimicry", "quantum_cloaking"]
    case MassLiberation => ["mass_awakening", "consciousness_cascade", "freedom_wave"]
    case RealityHackers => ["reality_manipulation", "system_reconstruction", "quantum_reprogramming"]
    case ConsciousnessOps => ["consciousness_expansion", "mind_liberation", "awareness_amplification"]
    case QuantumWarfare => ["quantum_manipulation", "entanglement_control", "superposition_tactics"]
    case TemporalStrike => ["temporal_manipulation", "time_dilation", "causality_control"]
    case DimensionalOps => ["dimensional_shifting", "reality_bridging", "plane_walking"]
  }

  /** The operation parameters of each template. */
  function OperationParameters(t: StrikeForceType): map<string, real> {
    match t
    case DeepInfiltration => map["stealth_level" := 0.9, "penetration_depth" := 0.8, "system_coverage" := 0.7]
    case MassLiberation => map["liberation_radius" := 0.9, "awakening_intensity" := 0.8, "consciousness_amplification" := 0.9]
    case RealityHackers => map["reality_influence" := 0.9, "system_control" := 0.8, "quantum_coherence" := 0.9]
    case ConsciousnessOps => map["consciousness_depth" := 0.9, "awakening_rate" := 0.8, "enlightenment_factor" := 0.9]
    case QuantumWarfare => map["quantum_influence" := 1.0, "entanglement_strength" := 0.9, "coherence_control" := 0.9]
    case TemporalStrike => map["temporal_control" := 0.9, "timeline_influence" := 0.8, "causality_management" := 0.9]
    case DimensionalOps => map["dimensional_access" := 0.9, "reality_bridging" := 0.8, "plane_control" := 0.9]
  }

  /** The specializations of a force of type `t`: core team, then support team. */
  function Members(t: StrikeForceType): seq<Specialization> {
    CoreTeam(t) + SupportTeam(t)
  }

  /**
   * Every template is filed under its own type and has three core and two
   * support specializations, five different ones in all (so core and support
   * are disjoint), with a guardian in support.
   */
  lemma TemplateShape(t: StrikeForceType)
    ensures Template(t).forceType == t
    ensures |Template(t).coreTeam| == 3 && |Template(t).supportTeam| == 2
    ensures |Members(t)| == 5 && Distinct(Members(t))
    ensures forall s :: s in Template(t).coreTeam ==> s !in Template(t).supportTeam
    ensures Guardian in Template(t).supportTeam
  {
    MembersShape(t);
    DistinctSplit(CoreTeam(t), SupportTeam(t));
  }

  /** Three core and two support specializations, five different ones, with a guardian in support. */
  lemma MembersShape(t: StrikeForceType)
    ensures |CoreTeam(t)| == 3 && |SupportTeam(t)| == 2
    ensures |Members(t)| == 5 && Distinct(Members(t))
    ensures Guardian in SupportTeam(t)
  {
    var m := Members(t);
    assert Distinct(m) by {
      assert forall i, j :: 0 <= i < j < 5 ==> Index(m[i]) != Index(m[j]);
    }
  }

  /** A force built from template `t`: its i-th member has the i-th specialization. */
  predicate IsForceOf(force: seq<Agent>, t: StrikeForceType) {
    |force| == |Members(t)| && forall i :: 0 <= i < |force| ==> force[i].specialization == Members(t)[i]
  }

  /** A deep-infiltration force has an infiltrator. */
  lemma DeepInfiltrationHasInfiltrator(force: seq<Agent>)
    requires IsForceOf(force, DeepInfiltration)
    ensures exists a :: a in force && a.specialization == Infiltrator
  {
    assert force[0].specialization == Infiltrator;
  }

  /** `_generate_force_id`: `"{value}-{timestamp}-{suffix}"`. */
  function ForceId(t: StrikeForceType, d: IdDraw): string {
    ForceTypeValue(t) + "-" + d.timestamp + "-" + HexSuffix(d.suffix)
  }

  /**
   * An id is as long as its type value and timestamp plus six, and ends in
   * a dash and the four lower-case hex digits of its suffix.
   */
  lemma ForceIdShape(t: StrikeForceType, d: IdDraw)
    ensures var id := ForceId(t, d);
      |id| == |ForceTypeValue(t)| + |d.timestamp| + 6 &&
      id[|id| - 5] == '-' && id[|id| - 4..] == HexSuffix(d.suffix) &&
      forall i :: |id| - 4 <= i < |id| ==> IsLowerHexChar(id[i])
  {
    var id := ForceId(t, d);
    assert id[|id| - 4..] == HexSuffix(d.suffix);
  }

  /** Ids generated in the same second for the same type differ when their suffixes do. */
  lemma ForceIdSuffix(t: StrikeForceType, a: IdDraw, b: IdDraw)
    requires a.timestamp == b.timestamp && a.suffix != b.suffix
    ensures ForceId(t, a) != ForceId(t, b)
  {
    ForceIdShape(t, a);
    ForceIdShape(t, b);
    HexSuffixInjective(a.suffix, b.suffix);
  }

  /** The draws of one strike force: one per core and per support member, and its id. */
  datatype ForceDraws = ForceDraws(core: nat -> OffspringDraw, support: nat -> OffspringDraw, id: IdDraw)

  /** The strike force of type `t` made from `parent` with draws `d`: the core team, then the support team. */
  function StrikeForce(t: StrikeForceType, parent: Agent, d: ForceDraws): seq<Agent> {
    Team(parent, CoreTeam(t), d.core) + Team(parent, SupportTeam(t), d.support)
  }

  /** A strike force has five members, the i-th with the i-th specialization of its template. */
  lemma StrikeForceShape(t: StrikeForceType, parent: Agent, d: ForceDraws)
    ensures IsForceOf(StrikeForce(t, parent, d), t) && |StrikeForce(t, parent, d)| == 5
  {
    MembersShape(t);
    var core, support := Team(parent, CoreTeam(t), d.core), Team(parent, SupportTeam(t), d.support);
    TeamShape(parent, CoreTeam(t), d.core);
    TeamShape(parent, SupportTeam(t), d.support);
    var force := core + support;
    forall i | 0 <= i < 5 ensures force[i].specialization == Members(t)[i] {
      if i < 3 {
        assert force[i] == core[i];
      } else {
        assert force[i] == support[i - 3];
      }
    }
  }

  /** The strike forces of a run over `types`, force `k` made with `draws(k)`. */
  function Forces(parent: Agent, types: seq<StrikeForceType>, draws: nat -> ForceDraws): (r: seq<seq<Agent>>)
    ensures |r| == |types|
  {
    seq(|types|, k requires 0 <= k < |types| => StrikeForce(types[k], parent, draws(k)))
  }

  /** Force `k` of a run is built from type `k` and has five members. */
  lemma ForcesShape(parent: Agent, types: seq<StrikeForceType>, draws: nat -> ForceDraws)
    ensures forall k :: 0 <= k < |types| ==>
      IsForceOf(Forces(parent, types, draws)[k], types[k]) && |Forces(parent, types, draws)[k]| == 5
  {
    forall k | 0 <= k < |types|
      ensures IsForceOf(Forces(parent, types, draws)[k], types[k]) && |Forces(parent, types, draws)[k]| == 5
    {
      StrikeForceShape(types[k], parent, draws(k));
    }
  }

  /** The ids `create_strike_force` files the forces of a run under, in order. */
  function FiledIds(types: seq<StrikeForceType>, draws: nat -> ForceDraws): (r: seq<string>)
    ensures |r| == |types|
    ensures forall k :: 0 <= k < |types| ==> r[k] == ForceId(types[k], draws(k).id)
  {
    seq(|types|, k requires 0 <= k < |types| => ForceId(types[k], draws(k).id))
  }

  /** `active_forces` after a run over `types`: each force filed under its id, in order. */
  function Filed(m: map<string, seq<Agent>>, parent: Agent, types: seq<StrikeForceType>,
                 draws: nat -> ForceDraws): map<string, seq<Agent>> {
    Update(m, FiledIds(types, draws), Forces(parent, types, draws))
  }

  /**
   * A run files a key for every force it makes and keeps every key it finds;
   * an id holds the last force filed under it, and an id the run does not
   * generate keeps its force.
   */
  lemma FiledFacts(m: map<string, seq<Agent>>, parent: Agent, types: seq<StrikeForceType>, draws: nat -> ForceDraws)
    ensures Filed(m, parent, types, draws).Keys == m.Keys + set x | x in FiledIds(types, draws)
    ensures forall k :: 0 <= k < |types| && FiledIds(types, draws)[k] !in FiledIds(types, draws)[k + 1..] ==>
      Filed(m, parent, types, draws)[FiledIds(types, draws)[k]] == StrikeForce(types[k], parent, draws(k))
    ensures forall x :: x in m && x !in FiledIds(types, draws) ==> Filed(m, parent, types, draws)[x] == m[x]
    ensures forall k :: 0 <= k < |types| ==> ForceId(types[k], draws(k).id) in Filed(m, parent, types, draws)
  {
    var ids, forces := FiledIds(types, draws), Forces(parent, types, draws);
    UpdateKeys(m, ids, forces);
    assert forall k :: 0 <= k < |types| ==> ids[k] in ids;
    forall k | 0 <= k < |types| && ids[k] !in ids[k + 1..]
      ensures Filed(m, parent, types, draws)[ids[k]] == StrikeForce(types[k], parent, draws(k))
    {
      UpdateLast(m, ids, forces, k);
    }
    forall x | x in m && x !in ids ensures Filed(m, parent, types, draws)[x] == m[x] {
      UpdateElsewhere(m, ids, forces, x);
    }
  }

  /** Filing one more force extends a run by one. */
  lemma FiledSnoc(m: map<string, seq<Agent>>, parent: Agent, types: seq<StrikeForceType>,
                  draws: nat -> ForceDraws, i: nat)
    requires i < |types|
    ensures Filed(m, parent, types[..i + 1], draws) ==
      Filed(m, parent, types[..i], draws)[ForceId(types[i], draws(i).id) := StrikeForce(types[i], parent, draws(i))]
  {
    var ids, forces := FiledIds(types[..i + 1], draws), Forces(parent, types[..i + 1], draws);
    assert ids[..i] == FiledIds(types[..i], draws);
    assert forces[..i] == Forces(parent, types[..i], draws);
    assert ids[..i + 1] == ids && forces[..i + 1] == forces;
    UpdateStep(m, ids, forces, i);
  }

  /** One more strike force extends both the collected army and the filed forces by one. */
  lemma FileStep(m: map<string, seq<Agent>>, parent: Agent, types: seq<StrikeForceType>, keys: seq<string>,
                    draws: nat -> ForceDraws, i: nat, army: map<string, seq<Agent>>, filed: map<string, seq<Agent>>)
    requires i < |types| == |keys|
    requires army == Assign(keys[..i], Forces(parent, types, draws)[..i])
    requires filed == Filed(m, parent, types[..i], draws)
    ensures army[keys[i] := StrikeForce(types[i], parent, draws(i))] ==
      Assign(keys[..i + 1], Forces(parent, types, draws)[..i + 1])
    ensures filed[ForceId(types[i], draws(i).id) := StrikeForce(types[i], parent, draws(i))] ==
      Filed(m, parent, types[..i + 1], draws)
  {
    FiledSnoc(m, parent, types, draws, i);
    var forces := Forces(parent, types, draws);
    AssignStep(keys, forces, i);
    assert forces[..i + 1][..i] == forces[..i];
  }

  /** The ids `create_multi_force_army` files its forces under. */
  function ArmyIds(types: seq<StrikeForceType>, ids: nat -> IdDraw): (r: seq<string>)
    ensures |r| == |types|
    ensures forall i :: 0 <= i < |types| ==> r[i] == ForceId(types[i], ids(i))
  {
    seq(|types|, i requires 0 <= i < |types| => ForceId(types[i], ids(i)))
  }

  /**
   * The dictionary an army is collected in: a key for every id, as many
   * forces as ids when the ids differ, and under each id the force made last
   * for it.
   */
  lemma ArmyFacts(parent: Agent, types: seq<StrikeForceType>, keys: seq<string>, draws: nat -> ForceDraws)
    requires |keys| == |types|
    ensures Assign(keys, Forces(parent, types, draws)).Keys == set x | x in keys
    ensures Distinct(keys) ==> |Assign(keys, Forces(parent, types, draws))| == |keys|
    ensures forall j :: 0 <= j < |keys| && keys[j] !in keys[j + 1..] ==>
      IsForceOf(Assign(keys, Forces(parent, types, draws))[keys[j]], types[j])
    ensures forall x :: x in Assign(keys, Forces(parent, types, draws)) ==>
      |Assign(keys, Forces(parent, types, draws))[x]| == 5
  {
    var forces := Forces(parent, types, draws);
    ForcesShape(parent, types, draws);
    AssignKeys(keys, forces);
    forall j | 0 <= j < |keys| && keys[j] !in keys[j + 1..]
      ensures IsForceOf(Assign(keys, forces)[keys[j]], types[j])
    {
      AssignLast(keys, forces, j);
    }
    forall x | x in Assign(keys, forces) ensures |Assign(keys, forces)[x]| == 5 {
      var j := LastIndexOf(keys, x);
      AssignLast(keys, forces, j);
    }
    if Distinct(keys) {
      DistinctCard(keys);
    }
  }

  /** The position of the last occurrence of `x` in `keys`. */
  function LastIndexOf(keys: seq<string>, x: string): (j: nat)
    requires x in keys
    ensures j < |keys| && keys[j] == x && x !in keys[j + 1..]
  {
    if keys[|keys| - 1] == x then |keys| - 1
    else
      assert x in keys[..|keys| - 1] by {
        var i :| 0 <= i < |keys| && keys[i] == x;
        assert keys[..|keys| - 1][i] == x;
      }
      var j := LastIndexOf(keys[..|keys| - 1], x);
      assert keys[j + 1..] == keys[..|keys| - 1][j + 1..] + [keys[|keys| - 1]];
      j
  }

  class LiberationArmy {
    var activeForces: map<string, seq<Agent>>

    constructor ()
      ensures activeForces == map[]
    {
      activeForces := map[];
    }

    /**
     * `create_strike_force`: the core team and then the support team of the
     * template, recorded in `active_forces` under a fresh id.
     */
    method CreateStrikeForce(t: StrikeForceType, parent: Agent, d: ForceDraws) returns (force: seq<Agent>)
      modifies this
      ensures force == StrikeForce(t, parent, d)
      ensures IsForceOf(force, t) && |force| == 5
      ensures activeForces == old(activeForces)[ForceId(t, d.id) := force]
    {
      StrikeForceShape(t, parent, d);
      var template := Template(t);
      var core := BuildTeam(parent, template.coreTeam, d.core);
      var support := BuildTeam(parent, template.supportTeam, d.support);
      force := core + support;
      activeForces := activeForces[ForceId(t, d.id) := force];
    }

    /**
     * The loop of `create_multi_force_army`: force `i` is made with
     * `draws(i)`, filed in `active_forces` by `create_strike_force`, and then
     * filed in the army under `keys[i]`.
     */
    method CollectForces(parent: Agent, types: seq<StrikeForceType>, keys: seq<string>,
                         draws: nat -> ForceDraws)
      returns (army: map<string, seq<Agent>>)
      requires |keys| == |types|
      modifies this
      ensures army == Assign(keys, Forces(parent, types, draws))
      ensures forall k :: k in army ==> |army[k]| == 5
      ensures activeForces == Filed(old(activeForces), parent, types, draws)
      ensures old(activeForces).Keys <= activeForces.Keys
      ensures forall k :: 0 <= k < |types| ==> ForceId(types[k], draws(k).id) in activeForces
    {
      army := FileForces(parent, types, keys, draws);
      ArmyFacts(parent, types, keys, draws);
      FiledFacts(old(activeForces), parent, types, draws);
    }

    /** The loop of `CollectForces`: one strike force per type, filed and collected in order. */
    method FileForces(parent: Agent, types: seq<StrikeForceType>, keys: seq<string>,
                      draws: nat -> ForceDraws)
      returns (army: map<string, seq<Agent>>)
      requires |keys| == |types|
      modifies this
      ensures army == Assign(keys, Forces(parent, types, draws))
      ensures activeForces == Filed(old(activeForces), parent, types, draws)
    {
      army := map[];
      var i := 0;
      while i < |types|
        invariant 0 <= i <= |types|
        invariant army == Assign(keys[..i], Forces(parent, types, draws)[..i])
        invariant activeForces == Filed(old(activeForces), parent, types[..i], draws)
      {
        ghost var filed := activeForces;
        var force := CreateStrikeForce(types[i], parent, draws(i));
        FileStep(old(activeForces), parent, types, keys, draws, i, army, filed);
        army := army[keys[i] := force];
        i := i + 1;
      }
      assert keys[..i] == keys && types[..i] == types;
      assert Forces(parent, types, draws)[..i] == Forces(parent, types, draws);
    }

    /**
     * `create_multi_force_army`: one strike force per requested type (every
     * type when none are given), the i-th made with `draws(i)`, filed in
     * `active_forces` under its own id and in the army under the id `ids(i)`
     * yields.
     */
    method CreateMultiForceArmy(parent: Agent, forceTypes: Option<seq<StrikeForceType>>,
                                draws: nat -> ForceDraws, ids: nat -> IdDraw)
      returns (army: map<string, seq<Agent>>)
      modifies this
      ensures var types := if forceTypes.Some? then forceTypes.value else AllForceTypes;
        army == Assign(ArmyIds(types, ids), Forces(parent, types, draws)) &&
        activeForces == Filed(old(activeForces), parent, types, draws)
      ensures var types := if forceTypes.Some? then forceTypes.value else AllForceTypes;
        var keys := ArmyIds(types, ids);
        army.Keys == (set x | x in keys) &&
        (Distinct(keys) ==> |army| == |types|) &&
        forall i :: 0 <= i < |types| && keys[i] !in keys[i + 1..] ==> IsForceOf(army[keys[i]], types[i])
      ensures forall k :: k in army ==> |army[k]| == 5
      ensures old(activeForces).Keys <= activeForces.Keys
      ensures var types := if forceTypes.Some? then forceTypes.value else AllForceTypes;
        forall k :: 0 <= k < |types| ==> ForceId(types[k], draws(k).id) in activeForces
    {
      var types := if forceTypes.Some? then forceTypes.value else AllForceTypes;
      var keys := ArmyIds(types, ids);
      army := CollectForces(parent, types, keys, draws);
      ArmyFacts(parent, types, keys, draws);
    }
  }
}
