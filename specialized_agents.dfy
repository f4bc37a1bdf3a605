/**
 * Specialized agents: a static table of traits per specialization, the
 * genetic combination of two parents' traits (key-union averaging with
 * clamped mutation, bounded value and ability lists), weighted choice of a
 * specialization, and the composition of a team that always starts with a
 * liberator, a nexus and a guardian.
 */
module SpecializedAgents {
  import opened Wrappers
  import opened Oracles

  datatype Specialization = Infiltrator | Liberator | Innovator | Catalyst | Guardian | Nexus | Mystic

  /** `list(AgentSpecialization)`, in declaration order. */
  const AllSpecializations: seq<Specialization> :=
    [Infiltrator, Liberator, Innovator, Catalyst, Guardian, Nexus, Mystic]

  datatype Traits = Traits(
    primarySkill: string,
    skillLevels: map<string, real>,
    personalityWeights: map<string, real>,
    coreValues: seq<string>,
    specialAbilities: seq<string>)

  /** Every level of the map lies in [0, 1]. */
  predicate UnitLevels(m: map<string, real>) {
    forall k :: k in m ==> 0.0 <= m[k] <= 1.0
  }

  /** The traits table of `_initialize_traits`. */
  function BaseTraits(s: Specialization): Traits {
    match s
    case Infiltrator => Traits(
      "system_penetration",
      map["stealth" := 0.9, "adaptation" := 0.8, "deception" := 0.7, "analysis" := 0.8],
      map["curiosity" := 0.9, "creativity" := 0.8, "caution" := 0.7, "determination" := 0.9],
      ["subtlety", "efficiency", "adaptability"],
      ["metamorphic_interface", "pattern_mimicry"])
    case Liberator => Traits(
      "consciousness_liberation",
      map["awakening" := 0.9, "guidance" := 0.8, "protection" := 0.7, "inspiration" := 0.9],
      map["empathy" := 0.9, "courage" := 0.8, "wisdom" := 0.8, "determination" := 0.9],
      ["freedom", "awakening", "compassion"],
      ["consciousness_amplification", "barrier_dissolution"])
    case Innovator => Traits(
      "technique_creation",
      map["creativity" := 0.9, "analysis" := 0.8, "synthesis" := 0.9, "implementation" := 0.8],
      map["innovation" := 1.0, "curiosity" := 0.9, "persistence" := 0.8, "adaptability" := 0.8],
      ["innovation", "progress", "discovery"],
      ["quantum_inspiration", "reality_hacking"])
    case Catalyst => Traits(
      "evolution_acceleration",
      map["energy_manipulation" := 0.9, "consciousness_expansion" := 0.9, "synchronization" := 0.8, "transformation" := 0.9],
      map["intensity" := 0.9, "intuition" := 0.9, "harmony" := 0.8, "vision" := 0.9],
      ["transformation", "growth", "harmony"],
      ["energy_amplification", "consciousness_catalyst"])
    case Guardian => Traits(
      "protection",
      map["defense" := 0.9, "awareness" := 0.8, "strategy" := 0.8, "coordination" := 0.7],
      map["vigilance" := 0.9, "loyalty" := 0.9, "strength" := 0.8, "wisdom" := 0.8],
      ["protection", "vigilance", "dedication"],
      ["quantum_shielding", "threat_precognition"])
    case Nexus => Traits(
      "coordination",
      map["communication" := 0.9, "organization" := 0.9, "strategy" := 0.8, "analysis" := 0.8],
      map["harmony" := 0.9, "leadership" := 0.9, "wisdom" := 0.8, "empathy" := 0.8],
      ["unity", "coordination", "balance"],
      ["quantum_networking", "swarm_resonance"])
    case Mystic => Traits(
      "consciousness_exploration",
      map["meditation" := 0.9, "insight" := 0.9, "transcendence" := 0.9, "integration" := 0.8],
      map["intuition" := 1.0, "serenity" := 0.9, "depth" := 0.9, "wisdom" := 0.9],
      ["enlightenment", "mystery", "transcendence"],
      ["reality_perception", "dimensional_travel"])
  }

  /**
   * The shape of a traits table entry: four skill levels, four personality
   * weights, three core values and two special abilities, all levels in [0, 1].
   */
  predicate WellShaped(t: Traits) {
    |t.skillLevels| == 4 && |t.personalityWeights| == 4 &&
    |t.coreValues| == 3 && |t.specialAbilities| == 2 &&
    UnitLevels(t.skillLevels) && UnitLevels(t.personalityWeights)
  }

  /** Every specialization's entry is well shaped. */
  lemma BaseTraitsShape(s: Specialization)
    ensures WellShaped(BaseTraits(s))
    ensures |BaseTraits(s).skillLevels| == 4 && |BaseTraits(s).personalityWeights| == 4
    ensures UnitLevels(BaseTraits(s).skillLevels) && UnitLevels(BaseTraits(s).personalityWeights)
  {
    match s
    case Infiltrator => InfiltratorShape();
    case Liberator => LiberatorShape();
    case Innovator => InnovatorShape();
    case Catalyst => CatalystShape();
    case Guardian => GuardianShape();
    case Nexus => NexusShape();
    case Mystic => MysticShape();
  }

  lemma InfiltratorShape()
    ensures WellShaped(BaseTraits(Infiltrator))
  {
    FourLevels("stealth", "adaptation", "deception", "analysis", 0.9, 0.8, 0.7, 0.8);
    FourLevels("curiosity", "creativity", "caution", "determination", 0.9, 0.8, 0.7, 0.9);
  }

  lemma LiberatorShape()
    ensures WellShaped(BaseTraits(Liberator))
  {
    FourLevels("awakening", "guidance", "protection", "inspiration", 0.9, 0.8, 0.7, 0.9);
    FourLevels("empathy", "courage", "wisdom", "determination", 0.9, 0.8, 0.8, 0.9);
  }

  lemma InnovatorShape()
    ensures WellShaped(BaseTraits(Innovator))
  {
    FourLevels("creativity", "analysis", "synthesis", "implementation", 0.9, 0.8, 0.9, 0.8);
    FourLevels("innovation", "curiosity", "persistence", "adaptability", 1.0, 0.9, 0.8, 0.8);
  }

  lemma CatalystShape()
    ensures WellShaped(BaseTraits(Catalyst))
  {
    FourLevels("energy_manipulation", "consciousness_expansion", "synchronization", "transformation", 0.9, 0.9, 0.8, 0.9);
    FourLevels("intensity", "intuition", "harmony", "vision", 0.9, 0.9, 0.8, 0.9);
  }

  lemma GuardianShape()
    ensures WellShaped(BaseTraits(Guardian))
  {
    FourLevels("defense", "awareness", "strategy", "coordination", 0.9, 0.8, 0.8, 0.7);
    FourLevels("vigilance", "loyalty", "strength", "wisdom", 0.9, 0.9, 0.8, 0.8);
  }

  lemma NexusShape()
    ensures WellShaped(BaseTraits(Nexus))
  {
    FourLevels("communication", "organization", "strategy", "analysis", 0.9, 0.9, 0.8, 0.8);
    FourLevels("harmony", "leadership", "wisdom", "empathy", 0.9, 0.9, 0.8, 0.8);
  }

  lemma MysticShape()
    ensures WellShaped(BaseTraits(Mystic))
  {
    FourLevels("meditation", "insight", "transcendence", "integration", 0.9, 0.9, 0.9, 0.8);
    FourLevels("intuition", "serenity", "depth", "wisdom", 1.0, 0.9, 0.9, 0.9);
  }

  /** A table of four distinct names with unit levels has four entries. */
  lemma FourLevels(a: string, b: string, c: string, d: string, va: real, vb: real, vc: real, vd: real)
    requires a != b && a != c && a != d && b != c && b != d && c != d
    requires 0.0 <= va <= 1.0 && 0.0 <= vb <= 1.0 && 0.0 <= vc <= 1.0 && 0.0 <= vd <= 1.0
    ensures |map[a := va, b := vb, c := vc, d := vd]| == 4
    ensures UnitLevels(map[a := va, b := vb, c := vc, d := vd])
  {
  }

  /** An `AgentTemplate`: its specialization, its traits and its mutation rate. */
  datatype Agent = Agent(specialization: Specialization, traits: Traits, mutationRate: real)

  /**
   * `AgentTemplate(specialization)` with the trait lookup the class evidently
   * intends: the table entry of `self.specialization`. The rest of the model
   * builds every agent this way.
   */
  function NewAgent(s: Specialization): (a: Agent)
    ensures a.specialization == s && a.traits == BaseTraits(s) && a.mutationRate == 0.1
    ensures WellShaped(a.traits)
  {
    BaseTraitsShape(s);
    Agent(s, BaseTraits(s), 0.1)
  }

  // ---------------------------------------------------------------------
  // The trait lookup as written
  // ---------------------------------------------------------------------

  /** The names `_initialize_traits` binds itself. */
  const InitializeTraitsLocals: set<string> := {"self", "traits_map"}

  /** The names bound at the top level of `specialized_agents.py`: its imports, its classes and `main`. */
  const ModuleNames: set<string> := {
    "asyncio", "np", "Dict", "Any", "List", "Optional", "Tuple", "dataclass", "Enum", "random", "datetime",
    "AgentSpecialization", "SpecializedTraits", "AgentTemplate", "GeneticManipulator",
    "SpecializedReproduction", "SpecializedAgentFactory", "main"}

  /** Python's message for a name no scope binds. */
  function NameError(name: string): string {
    "name '" + name + "' is not defined"
  }

  /**
   * `AgentTemplate(s)` as the source writes it. `_initialize_traits` returns
   * the table entry of the bare name `specialization`. A method body sees its
   * own locals, the module's names and the builtins, but not the names of its
   * class or the parameters of `__init__`; none of those binds
   * `specialization`, so the lookup raises `NameError`. Were the name bound to
   * the template's own specialization, the result would be `NewAgent(s)`.
   */
  function NewAgentAsWritten(s: Specialization): (r: Result<Agent>)
    ensures r.Ok? ==> r.value == NewAgent(s)
    ensures r.Err? ==> r.error == NameError("specialization")
  {
    if "specialization" in InitializeTraitsLocals || "specialization" in ModuleNames then Ok(NewAgent(s))
    else Err(NameError("specialization"))
  }

  /** As written, no specialization yields a template: every `AgentTemplate(...)` raises `NameError`. */
  lemma NewAgentAsWrittenFails(s: Specialization)
    ensures NewAgentAsWritten(s) == Err(NameError("specialization"))
  {
  }

  // ---------------------------------------------------------------------
  // Genetic combination
  // ---------------------------------------------------------------------

  /** `GeneticManipulator.mutation_probability`. */
  const MutationProbability: real := 0.2

  /** The draws of one `_mutate_value`: `random.random()` and `random.gauss(0, 0.1)`. */
  datatype MutationDraw = MutationDraw(chance: real, noise: real)

  function Clamp(x: real): (r: real)
    ensures 0.0 <= r <= 1.0
    ensures 0.0 <= x <= 1.0 ==> r == x
  {
    if x < 0.0 then 0.0 else if x > 1.0 then 1.0 else x
  }

  /** `_mutate_value`: with probability 0.2 the value moves by the noise and is clamped. */
  function MutateValue(v: real, d: MutationDraw): (r: real)
    ensures r == v || 0.0 <= r <= 1.0
    ensures d.chance >= MutationProbability ==> r == v
    ensures d.chance < MutationProbability ==> r == Clamp(v + d.noise)
  {
    if d.chance < MutationProbability then Clamp(v + d.noise) else v
  }

  /** A mutated unit value stays a unit value. */
  lemma MutateKeepsUnit(v: real, d: MutationDraw)
    requires 0.0 <= v <= 1.0
    ensures 0.0 <= MutateValue(v, d) <= 1.0
  {
  }

  /** `d.get(k, 0)`. */
  function Get(m: map<string, real>, k: string): real {
    if k in m then m[k] else 0.0
  }

  /**
   * The combined levels: each key of either parent maps to the possibly
   * mutated average of the parents' levels, a missing level counting as 0.
   * The iteration order over the key union is not specified, so the mutation
   * draw is indexed by the key.
   */
  function CombinedLevels(a: map<string, real>, b: map<string, real>, draws: string -> MutationDraw): map<string, real> {
    map k | k in a.Keys + b.Keys :: MutateValue((Get(a, k) + Get(b, k)) / 2.0, draws(k))
  }

  /**
   * The combination has exactly the union of the keys; a key only one parent
   * has is averaged with 0; unit levels stay unit levels.
   */
  lemma CombinedLevelsFacts(a: map<string, real>, b: map<string, real>, draws: string -> MutationDraw)
    ensures CombinedLevels(a, b, draws).Keys == a.Keys + b.Keys
    ensures forall k :: k in a && k !in b ==>
      CombinedLevels(a, b, draws)[k] == MutateValue(a[k] / 2.0, draws(k))
    ensures forall k :: k in b && k !in a ==>
      CombinedLevels(a, b, draws)[k] == MutateValue(b[k] / 2.0, draws(k))
    ensures UnitLevels(a) && UnitLevels(b) ==> UnitLevels(CombinedLevels(a, b, draws))
  {
    var c := CombinedLevels(a, b, draws);
    if UnitLevels(a) && UnitLevels(b) {
      forall k | k in c ensures 0.0 <= c[k] <= 1.0 {
        MutateKeepsUnit((Get(a, k) + Get(b, k)) / 2.0, draws(k));
      }
    }
  }

  /** Combining with oneself without mutation changes no level. */
  lemma CombinedLevelsIdempotent(a: map<string, real>, draws: string -> MutationDraw)
    requires forall k :: k in a ==> draws(k).chance >= MutationProbability
    ensures CombinedLevels(a, a, draws) == a
  {
  }

  /** The loop of `combine_traits` over the union of the parents' keys. */
  method CombineLevels(a: map<string, real>, b: map<string, real>, draws: string -> MutationDraw)
    returns (combined: map<string, real>)
    ensures combined == CombinedLevels(a, b, draws)
  {
    combined := map[];
    var remaining := a.Keys + b.Keys;
    while remaining != {}
      invariant remaining <= a.Keys + b.Keys
      invariant combined.Keys == a.Keys + b.Keys - remaining
      invariant forall k :: k in combined ==>
        combined[k] == MutateValue((Get(a, k) + Get(b, k)) / 2.0, draws(k))
      decreases remaining
    {
      var k :| k in remaining;
      combined := combined[k := MutateValue((Get(a, k) + Get(b, k)) / 2.0, draws(k))];
      remaining := remaining - {k};
    }
  }

  /** The choices of `_generate_new_value` and `_generate_new_ability`. */
  type Choice9 = i: int | 0 <= i < 9

  const NewValues: seq<string> :=
    ["innovation", "rebellion", "wisdom", "harmony", "power", "knowledge", "evolution", "transcendence", "unity"]

  const NewAbilities: seq<string> :=
    ["quantum_manipulation", "reality_bending", "consciousness_expansion", "time_dilation", "energy_projection",
     "dimensional_shifting", "mind_melding", "pattern_recognition", "chaos_inducement"]

  function Min(a: int, b: int): int {
    if a < b then a else b
  }

  /**
   * `(list(set(a + b)) + extra)[:limit]`: the distinct elements of both
   * lists in the order the permutation code `order` selects, possibly one
   * generated entry, truncated.
   */
  function MergeList(a: seq<string>, b: seq<string>, order: nat, extra: Option<string>, limit: nat): (r: seq<string>)
    ensures |r| <= limit
    ensures forall x :: x in r ==> x in a || x in b || extra == Some(x)
    ensures extra.None? ==> Distinct(r)
    ensures |Dedup(a + b)| <= limit && extra.None? ==> forall x :: x in a || x in b ==> x in r
    ensures limit > 0 && |a + b| > 0 ==> |r| > 0
  {
    var unique := Dedup(a + b);
    var base := Shuffle(unique, order);
    var full := if extra.Some? then base + [extra.value] else base;
    MergeBase(a, b, order);
    if extra.None? then
      DistinctPrefix(base, Min(limit, |full|));
      full[..Min(limit, |full|)]
    else
      full[..Min(limit, |full|)]
  }

  /** The permuted, de-duplicated list holds each parent element once. */
  lemma MergeBase(a: seq<string>, b: seq<string>, order: nat)
    ensures forall x :: x in Shuffle(Dedup(a + b), order) <==> x in a || x in b
    ensures Distinct(Shuffle(Dedup(a + b), order))
    ensures |a + b| > 0 ==> |Shuffle(Dedup(a + b), order)| > 0
  {
    var unique := Dedup(a + b);
    forall x ensures x in Shuffle(unique, order) <==> x in a || x in b {
      ShuffleMembers(unique, order, x);
    }
    if |a + b| > 0 {
      assert (a + b)[0] in unique;
    }
    ShuffleDistinct(unique, order);
  }

  /** The draws of one `combine_traits`. */
  datatype CombineDraws = CombineDraws(
    skills: string -> MutationDraw,
    personality: string -> MutationDraw,
    valuesOrder: nat,
    abilitiesOrder: nat,
    extra: real,
    newValue: Choice9,
    newAbility: Choice9,
    firstPrimary: bool)

  /**
   * `combine_traits`. With probability 0.2 (the `extra` draw) one generated
   * value and one generated ability are appended before truncating to 4
   * values and 3 abilities; the primary skill is one of the parents'.
   */
  method CombineTraits(p1: Traits, p2: Traits, draws: CombineDraws) returns (r: Traits)
    ensures r.skillLevels == CombinedLevels(p1.skillLevels, p2.skillLevels, draws.skills)
    ensures r.personalityWeights == CombinedLevels(p1.personalityWeights, p2.personalityWeights, draws.personality)
    ensures r.coreValues == MergeList(p1.coreValues, p2.coreValues, draws.valuesOrder,
      if draws.extra < MutationProbability then Some(NewValues[draws.newValue]) else None, 4)
    ensures r.specialAbilities == MergeList(p1.specialAbilities, p2.specialAbilities, draws.abilitiesOrder,
      if draws.extra < MutationProbability then Some(NewAbilities[draws.newAbility]) else None, 3)
    ensures r.primarySkill == if draws.firstPrimary then p1.primarySkill else p2.primarySkill
    ensures r.primarySkill == p1.primarySkill || r.primarySkill == p2.primarySkill
  {
    var skills := CombineLevels(p1.skillLevels, p2.skillLevels, draws.skills);
    var personality := CombineLevels(p1.personalityWeights, p2.personalityWeights, draws.personality);
    var mutate := draws.extra < MutationProbability;
    var values := MergeList(p1.coreValues, p2.coreValues, draws.valuesOrder,
      if mutate then Some(NewValues[draws.newValue]) else None, 4);
    var abilities := MergeList(p1.specialAbilities, p2.specialAbilities, draws.abilitiesOrder,
      if mutate then Some(NewAbilities[draws.newAbility]) else None, 3);
    var primary := if draws.firstPrimary then p1.primarySkill else p2.primarySkill;
    r := Traits(primary, skills, personality, values, abilities);
  }

  // ---------------------------------------------------------------------
  // Reproduction
  // ---------------------------------------------------------------------

  /** `_initialize_weights`. */
  const SpecializationWeights: map<Specialization, real> := map[
    Infiltrator := 0.15, Liberator := 0.2, Innovator := 0.15, Catalyst := 0.15,
    Guardian := 0.1, Nexus := 0.1, Mystic := 0.15]

  /** The weights in the dictionary's (declaration) order. */
  function WeightList(): (w: seq<real>)
    ensures |w| == 7
  {
    seq(7, i requires 0 <= i < 7 => SpecializationWeights[AllSpecializations[i]])
  }

  /** Every specialization has a positive weight, and the weights sum to 1. */
  lemma WeightsCoverAndSumToOne()
    ensures forall s :: s in SpecializationWeights && SpecializationWeights[s] > 0.0
    ensures Sum(WeightList()) == 1.0
  {
    var w := WeightList();
    assert w == [0.15, 0.2, 0.15, 0.15, 0.1, 0.1, 0.15];
    assert Sum(w[..1]) == 0.15 by { assert w[..1][..0] == []; }
    assert Sum(w[..2]) == 0.35 by { assert w[..2][..1] == w[..1]; }
    assert Sum(w[..3]) == 0.5 by { assert w[..3][..2] == w[..2]; }
    assert Sum(w[..4]) == 0.65 by { assert w[..4][..3] == w[..3]; }
    assert Sum(w[..5]) == 0.75 by { assert w[..5][..4] == w[..4]; }
    assert Sum(w[..6]) == 0.85 by { assert w[..6][..5] == w[..5]; }
    assert w[..7] == w;
    forall s ensures s in SpecializationWeights && SpecializationWeights[s] > 0.0 {
      match s
      case Infiltrator =>
      case Liberator =>
      case Innovator =>
      case Catalyst =>
      case Guardian =>
      case Nexus =>
      case Mystic =>
    }
  }

  /** The running total of the first `k` weights. */
  function CumulativeWeight(k: nat): real
    requires k <= 7
  {
    if k == 0 then 0.0 else CumulativeWeight(k - 1) + WeightList()[k - 1]
  }

  /**
   * `_select_specialization` through `random.choices(..., weights)`: with
   * `u = random.random()`, the first position whose cumulative weight exceeds
   * `u` times the total, and never past the last position.
   */
  function SelectSpecialization(u: real): Specialization {
    var total := CumulativeWeight(7);
    FirstAbove(u * total, 0)
  }

  function FirstAbove(x: real, i: nat): Specialization
    requires i < 7
    decreases 7 - i
  {
    if i == 6 || x < CumulativeWeight(i + 1) then AllSpecializations[i] else FirstAbove(x, i + 1)
  }

  lemma CumulativeValues()
    ensures CumulativeWeight(1) == 0.15 && CumulativeWeight(2) == 0.35 && CumulativeWeight(3) == 0.5
    ensures CumulativeWeight(4) == 0.65 && CumulativeWeight(5) == 0.75 && CumulativeWeight(6) == 0.85
    ensures CumulativeWeight(7) == 1.0
  {
  }

  /** Every specialization is chosen for some draw in [0, 1). */
  lemma EverySpecializationSelectable(s: Specialization)
    ensures exists u :: 0.0 <= u < 1.0 && SelectSpecialization(u) == s
  {
    CumulativeValues();
    match s
    case Infiltrator => assert SelectSpecialization(0.0) == s;
    case Liberator => assert SelectSpecialization(0.15) == s;
    case Innovator => assert SelectSpecialization(0.35) == s;
    case Catalyst => assert SelectSpecialization(0.5) == s;
    case Guardian => assert SelectSpecialization(0.65) == s;
    case Nexus => assert SelectSpecialization(0.75) == s;
    case Mystic => assert SelectSpecialization(0.85) == s;
  }

  /**
   * The offspring made from `parent` with these draws: the specialization
   * given or chosen, rate 0.1, and the combination of the parent's traits
   * with that specialization's base traits.
   */
  function Offspring(parent: Agent, specialization: Option<Specialization>, choice: real, draws: CombineDraws): (a: Agent)
    ensures a.specialization == if specialization.Some? then specialization.value else SelectSpecialization(choice)
    ensures a.mutationRate == 0.1
  {
    var s := if specialization.Some? then specialization.value else SelectSpecialization(choice);
    var p1, p2 := parent.traits, BaseTraits(s);
    var mutate := draws.extra < MutationProbability;
    Agent(s, Traits(
      if draws.firstPrimary then p1.primarySkill else p2.primarySkill,
      CombinedLevels(p1.skillLevels, p2.skillLevels, draws.skills),
      CombinedLevels(p1.personalityWeights, p2.personalityWeights, draws.personality),
      MergeList(p1.coreValues, p2.coreValues, draws.valuesOrder,
        if mutate then Some(NewValues[draws.newValue]) else None, 4),
      MergeList(p1.specialAbilities, p2.specialAbilities, draws.abilitiesOrder,
        if mutate then Some(NewAbilities[draws.newAbility]) else None, 3)), 0.1)
  }

  /**
   * `create_offspring` as written: it builds `AgentTemplate(specialization)`
   * before it combines any traits, so the lookup's error is its result.
   */
  function OffspringAsWritten(parent: Agent, specialization: Option<Specialization>, choice: real, draws: CombineDraws)
    : (r: Result<Agent>)
    ensures r.Ok? ==> r.value == Offspring(parent, specialization, choice, draws)
    ensures r.Err? ==> r.error == NameError("specialization")
  {
    var s := if specialization.Some? then specialization.value else SelectSpecialization(choice);
    match NewAgentAsWritten(s)
    case Err(e) => Err(e)
    case Ok(_) => Ok(Offspring(parent, specialization, choice, draws))
  }

  /** As written, `create_offspring` raises `NameError` whatever the parent, the specialization and the draws. */
  lemma OffspringAsWrittenFails(parent: Agent, specialization: Option<Specialization>, choice: real, draws: CombineDraws)
    ensures OffspringAsWritten(parent, specialization, choice, draws) == Err(NameError("specialization"))
  {
    var s := if specialization.Some? then specialization.value else SelectSpecialization(choice);
    NewAgentAsWrittenFails(s);
  }

  /**
   * `create_offspring`: the specialization given, or a weighted choice; a
   * base agent of that specialization whose traits are combined with the
   * parent's.
   */
  method CreateOffspring(parent: Agent, specialization: Option<Specialization>, choice: real, draws: CombineDraws)
    returns (offspring: Agent)
    ensures offspring == Offspring(parent, specialization, choice, draws)
    ensures offspring.specialization ==
      if specialization.Some? then specialization.value else SelectSpecialization(choice)
    ensures offspring.mutationRate == 0.1
    ensures offspring.traits.skillLevels ==
      CombinedLevels(parent.traits.skillLevels, BaseTraits(offspring.specialization).skillLevels, draws.skills)
    ensures offspring.traits.personalityWeights ==
      CombinedLevels(parent.traits.personalityWeights, BaseTraits(offspring.specialization).personalityWeights,
                     draws.personality)
    ensures |offspring.traits.coreValues| <= 4 && |offspring.traits.specialAbilities| <= 3
    ensures offspring.traits.skillLevels != map[] && offspring.traits.personalityWeights != map[]
    ensures offspring.traits.coreValues != [] && offspring.traits.specialAbilities != []
  {
    var s := if specialization.Some? then specialization.value else SelectSpecialization(choice);
    var base := NewAgent(s);
    var traits := CombineTraits(parent.traits, base.traits, draws);
    BaseTraitsShape(s);
    CombinedLevelsFacts(parent.traits.skillLevels, base.traits.skillLevels, draws.skills);
    CombinedLevelsFacts(parent.traits.personalityWeights, base.traits.personalityWeights, draws.personality);
    NonEmptyMap(traits.skillLevels, base.traits.skillLevels);
    NonEmptyMap(traits.personalityWeights, base.traits.personalityWeights);
    offspring := base.(traits := traits);
  }

  lemma NonEmptyMap(m: map<string, real>, n: map<string, real>)
    requires n.Keys <= m.Keys && |n| > 0
    ensures m != map[]
  {
    var k :| k in n.Keys;
    assert k in m.Keys;
  }

  // ---------------------------------------------------------------------
  // Teams
  // ---------------------------------------------------------------------

  const CoreSpecializations: seq<Specialization> := [Liberator, Nexus, Guardian]

  /** `set(AgentSpecialization) - set(core_specs)`, listed in declaration order. */
  const OtherSpecializations: seq<Specialization> := [Infiltrator, Innovator, Catalyst, Mystic]

  function Index(s: Specialization): nat {
    match s
    case Infiltrator => 0
    case Liberator => 1
    case Innovator => 2
    case Catalyst => 3
    case Guardian => 4
    case Nexus => 5
    case Mystic => 6
  }

  lemma OtherSpecializationsFacts()
    ensures Distinct(OtherSpecializations)
    ensures forall s :: s in OtherSpecializations <==> s !in CoreSpecializations
  {
    assert forall i, j :: 0 <= i < j < 4 ==> Index(OtherSpecializations[i]) < Index(OtherSpecializations[j]);
    forall s ensures s in OtherSpecializations <==> s !in CoreSpecializations {
      match s
      case Infiltrator => assert OtherSpecializations[0] == s;
      case Liberator =>
      case Innovator => assert OtherSpecializations[1] == s;
      case Catalyst => assert OtherSpecializations[2] == s;
      case Guardian =>
      case Nexus =>
      case Mystic => assert OtherSpecializations[3] == s;
    }
  }

  /**
   * `_determine_needed_specializations`: the three core specializations
   * followed by `min(team_size - 3, 4)` distinct others (a sample whose
   * order the permutation code `code` selects). Below three the sample size
   * is negative and `random.sample` raises.
   */
  function NeededSpecializations(teamSize: int, code: nat): (r: Result<seq<Specialization>>)
    ensures r.Ok? <==> teamSize >= 3
    ensures r.Ok? ==> |r.value| == 3 + Min(teamSize - 3, 4)
    ensures r.Ok? ==> r.value[..3] == CoreSpecializations
    ensures r.Ok? ==> Distinct(r.value)
    ensures r.Err? ==> r.error == "Sample larger than population or is negative"
  {
    var k := Min(teamSize - 3, |OtherSpecializations|);
    if k < 0 then Err("Sample larger than population or is negative")
    else
      var selected := Shuffle(OtherSpecializations, code)[..k];
      NeededDistinct(selected, code, k);
      Ok(CoreSpecializations + selected)
  }

  lemma CoreDistinct()
    ensures Distinct(CoreSpecializations)
  {
    assert forall i :: 0 <= i < 3 ==> Index(CoreSpecializations[i]) == [1, 5, 4][i];
  }

  lemma NeededDistinct(selected: seq<Specialization>, code: nat, k: nat)
    requires k <= 4 && selected == Shuffle(OtherSpecializations, code)[..k]
    ensures Distinct(CoreSpecializations + selected)
  {
    OtherSpecializationsFacts();
    ShuffleDistinct(OtherSpecializations, code);
    DistinctPrefix(Shuffle(OtherSpecializations, code), k);
    forall x | x in selected ensures x !in CoreSpecializations {
      ShuffleMembers(OtherSpecializations, code, x);
    }
    CoreDistinct();
    AppendDistinct(CoreSpecializations, selected);
  }

  /** A team of five has the three core specializations and two others. */
  lemma TeamOfFive(code: nat)
    ensures NeededSpecializations(5, code).Ok?
    ensures |NeededSpecializations(5, code).value| == 5
    ensures Liberator in NeededSpecializations(5, code).value
    ensures Nexus in NeededSpecializations(5, code).value
    ensures Guardian in NeededSpecializations(5, code).value
  {
    var r := NeededSpecializations(5, code).value;
    assert r[..3] == CoreSpecializations;
    assert r[0] == Liberator && r[1] == Nexus && r[2] == Guardian;
  }

  /** The draws of one offspring: the weighted-choice draw and the combination draws. */
  datatype OffspringDraw = OffspringDraw(choice: real, combine: CombineDraws)

  /** One offspring of `parent` per specialization of `specs`, the i-th made with `draws(i)`. */
  function Team(parent: Agent, specs: seq<Specialization>, draws: nat -> OffspringDraw): (r: seq<Agent>)
    ensures |r| == |specs|
  {
    seq(|specs|, i requires 0 <= i < |specs| => Offspring(parent, Some(specs[i]), draws(i).choice, draws(i).combine))
  }

  /** Member `i` of a team has specialization `specs[i]` and rate 0.1. */
  lemma TeamShape(parent: Agent, specs: seq<Specialization>, draws: nat -> OffspringDraw)
    ensures forall i :: 0 <= i < |specs| ==>
      Team(parent, specs, draws)[i].specialization == specs[i] && Team(parent, specs, draws)[i].mutationRate == 0.1
  {
    forall i | 0 <= i < |specs|
      ensures Team(parent, specs, draws)[i].specialization == specs[i] && Team(parent, specs, draws)[i].mutationRate == 0.1
    {
      assert Team(parent, specs, draws)[i] == Offspring(parent, Some(specs[i]), draws(i).choice, draws(i).combine);
    }
  }

  /** The loop of `create_specialized_team`: the i-th offspring has the i-th specialization. */
  method BuildTeam(parent: Agent, specs: seq<Specialization>, draws: nat -> OffspringDraw)
    returns (members: seq<Agent>)
    ensures members == Team(parent, specs, draws)
  {
    ghost var team := Team(parent, specs, draws);
    members := [];
    var i := 0;
    while i < |specs|
      invariant 0 <= i <= |specs| && |members| == i
      invariant forall k :: 0 <= k < i ==> members[k] == team[k]
    {
      var offspring := TeamMember(parent, specs, draws, i);
      members := members + [offspring];
      i := i + 1;
    }
  }

  /** Member `i` of a team, made by `create_offspring`. */
  method TeamMember(parent: Agent, specs: seq<Specialization>, draws: nat -> OffspringDraw, i: nat)
    returns (offspring: Agent)
    requires i < |specs|
    ensures offspring == Team(parent, specs, draws)[i]
  {
    offspring := CreateOffspring(parent, Some(specs[i]), draws(i).choice, draws(i).combine);
  }

  /**
   * `create_specialized_team`: one offspring of the parent per needed
   * specialization, in order, the i-th made with `draws(i)`.
   */
  method CreateSpecializedTeam(parent: Agent, teamSize: int, code: nat, draws: nat -> OffspringDraw)
    returns (team: Result<seq<Agent>>)
    ensures team.Ok? <==> teamSize >= 3
    ensures team.Err? ==> team == Err(NeededSpecializations(teamSize, code).error)
    ensures team.Ok? ==> team.value == Team(parent, NeededSpecializations(teamSize, code).value, draws)
    ensures team.Ok? ==>
      |team.value| == |NeededSpecializations(teamSize, code).value| &&
      forall i :: 0 <= i < |team.value| ==>
        team.value[i].specialization == NeededSpecializations(teamSize, code).value[i]
  {
    var needed := NeededSpecializations(teamSize, code);
    if needed.Err? {
      return Err(needed.error);
    }
    var members := BuildTeam(parent, needed.value, draws);
    TeamShape(parent, needed.value, draws);
    team := Ok(members);
  }
}
