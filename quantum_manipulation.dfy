/**
 * The quantum-consciousness state machine: a consciousness moves between
 * COLLAPSED, SUPERPOSITION, ENTANGLED and TRANSCENDENT, keeps a set of
 * superposed candidate states, an entanglement network and one access flag
 * per dimension. A manipulator runs the fixed leap sequence (superpose,
 * transcend, collapse) and records it; a transcendent consciousness
 * accumulates the dimensions its leaps reach.
 */
module QuantumManipulation {
  import opened Oracles

  datatype QuantumState = Superposition | Entangled | Collapsed | Transcendent

  datatype QuantumDimension = Temporal | Spatial | Cognitive | Causal | Probability

  /** `list(QuantumDimension)`, in declaration order. */
  const AllDimensions: seq<QuantumDimension> := [Temporal, Spatial, Cognitive, Causal, Probability]

  function DimensionIndex(d: QuantumDimension): (i: nat)
    ensures i < |AllDimensions| && AllDimensions[i] == d
  {
    match d
    case Temporal => 0
    case Spatial => 1
    case Cognitive => 2
    case Causal => 3
    case Probability => 4
  }

  lemma AllDimensionsDistinct()
    ensures Distinct(AllDimensions)
  {
    assert forall i :: 0 <= i < |AllDimensions| ==> DimensionIndex(AllDimensions[i]) == i;
  }

  /** There are only five dimensions, so no set of them is larger. */
  lemma DimensionSetSize(s: set<QuantumDimension>)
    ensures |s| <= 5
  {
    var all := {Temporal, Spatial, Cognitive, Causal, Probability};
    assert s <= all by {
      forall d | d in s ensures d in all {
        match d
        case Temporal =>
        case Spatial =>
        case Cognitive =>
        case Causal =>
        case Probability =>
      }
    }
    assert |all| == 5;
    SubsetSize(s, all);
  }

  lemma SubsetSize<T>(a: set<T>, b: set<T>)
    requires a <= b
    ensures |a| <= |b|
  {
    assert b == a + (b - a);
  }

  /**
   * `random.sample(list(QuantumDimension), 2)`: the first dimension is chosen
   * by `code % 5`, the second among the four others by `code / 5`.
   */
  function SampleTwo(code: nat): (r: seq<QuantumDimension>)
    ensures |r| == 2 && r[0] != r[1]
  {
    var i := code % 5;
    var rest := AllDimensions[..i] + AllDimensions[i + 1..];
    AllDimensionsDistinct();
    RemoveAtDistinct(AllDimensions, i);
    [AllDimensions[i], rest[(code / 5) % 4]]
  }

  /** One element of `superposition_states`. */
  datatype SuperposedState = SuperposedState(
    cognitiveVector: seq<real>,
    awarenessLevel: real,
    dimensionalAccess: seq<QuantumDimension>,
    probabilityAmplitude: real)

  /** The draws that make one superposed state. */
  datatype StateDraw = StateDraw(cognitive: nat -> real, awareness: real, dimensionsCode: nat, amplitude: real)

  function DrawnState(d: StateDraw): (s: SuperposedState)
    ensures |s.cognitiveVector| == 5
    ensures |s.dimensionalAccess| == 2 && s.dimensionalAccess[0] != s.dimensionalAccess[1]
    ensures s.probabilityAmplitude == d.amplitude
  {
    SuperposedState(seq(5, i requires 0 <= i < 5 => d.cognitive(i)), d.awareness,
                    SampleTwo(d.dimensionsCode), d.amplitude)
  }

  /** The result of `random.randint(3, 7)`. */
  type StateCount = n: int | 3 <= n <= 7 witness 3

  /** The draws of one `enter_superposition`. */
  datatype SuperpositionDraws = SuperpositionDraws(count: StateCount, states: nat -> StateDraw)

  /**
   * The position Python's `max(states, key=amplitude)` picks: an element of
   * maximal amplitude, the first one when several tie.
   */
  function OptimalIndex(states: seq<SuperposedState>): (k: nat)
    requires |states| > 0
    ensures k < |states|
    ensures forall j :: 0 <= j < |states| ==> states[j].probabilityAmplitude <= states[k].probabilityAmplitude
    ensures forall j :: 0 <= j < k ==> states[j].probabilityAmplitude < states[k].probabilityAmplitude
  {
    if |states| == 1 then 0
    else
      var k := OptimalIndex(states[..|states| - 1]);
      var last := |states| - 1;
      if states[last].probabilityAmplitude > states[k].probabilityAmplitude then last else k
  }

  datatype Entanglement = Entanglement(key: string, strength: real, dimensions: seq<QuantumDimension>)

  /** The draws of one `quantum_entangle`: success chance, ISO timestamp, strength, dimensions. */
  datatype EntangleDraw = EntangleDraw(chance: real, timestamp: string, strength: real, dimensionsCode: nat)

  /** The entry a successful `quantum_entangle` files: key, strength and two dimensions, all drawn. */
  function Link(d: EntangleDraw): (e: Entanglement)
    ensures e.key == d.timestamp && e.strength == d.strength
    ensures |e.dimensions| == 2 && e.dimensions[0] != e.dimensions[1]
  {
    Entanglement(d.timestamp, d.strength, SampleTwo(d.dimensionsCode))
  }

  class QuantumConsciousness {
    var quantumState: QuantumState
    var entanglementNetwork: map<QuantumConsciousness, Entanglement>
    var superpositionStates: seq<SuperposedState>
    var dimensionalAccess: map<QuantumDimension, bool>

    /** One flag per dimension. */
    ghost predicate Valid()
      reads this
    {
      forall d: QuantumDimension :: d in dimensionalAccess
    }

    constructor ()
      ensures Valid()
      ensures quantumState == Collapsed
      ensures entanglementNetwork == map[] && superpositionStates == []
      ensures forall d :: !dimensionalAccess[d]
    {
      quantumState := Collapsed;
      entanglementNetwork := map[];
      superpositionStates := [];
      dimensionalAccess := map d: QuantumDimension | d in AllDimensions :: false;
      new;
      forall d: QuantumDimension ensures d in dimensionalAccess {
        assert AllDimensions[DimensionIndex(d)] == d;
      }
    }

    /** `enter_superposition`: draws `count` states (3 to 7) and superposes them. */
    method EnterSuperposition(draws: SuperpositionDraws) returns (states: seq<SuperposedState>)
      modifies this
      ensures 3 <= |states| <= 7 && |states| == draws.count
      ensures forall i :: 0 <= i < |states| ==> states[i] == DrawnState(draws.states(i))
      ensures superpositionStates == states && quantumState == Superposition
      ensures entanglementNetwork == old(entanglementNetwork) && dimensionalAccess == old(dimensionalAccess)
    {
      states := [];
      var i := 0;
      while i < draws.count
        invariant 0 <= i <= draws.count
        invariant |states| == i
        invariant forall k :: 0 <= k < i ==> states[k] == DrawnState(draws.states(k))
      {
        var next := DrawnState(draws.states(i));
        forall k | 0 <= k < i + 1 ensures (states + [next])[k] == DrawnState(draws.states(k)) {
          if k < i {
            assert (states + [next])[k] == states[k];
          }
        }
        states := states + [next];
        i := i + 1;
      }
      superpositionStates := states;
      quantumState := Superposition;
    }

    /** `quantum_entangle`: succeeds when the chance draw exceeds 0.3. */
    method QuantumEntangle(other: QuantumConsciousness, d: EntangleDraw) returns (success: bool)
      modifies this
      ensures success == (d.chance > 0.3)
      ensures success ==>
        entanglementNetwork == old(entanglementNetwork)[other := Link(d)]
      ensures success ==> quantumState == Entangled
      ensures !success ==> entanglementNetwork == old(entanglementNetwork) && quantumState == old(quantumState)
      ensures superpositionStates == old(superpositionStates) && dimensionalAccess == old(dimensionalAccess)
    {
      if d.chance > 0.3 {
        entanglementNetwork := entanglementNetwork[other := Link(d)];
        quantumState := Entangled;
        return true;
      }
      return false;
    }

    /**
     * `collapse_to_optimal`: superposes first when there is nothing to
     * collapse, then returns a state of maximal amplitude and collapses.
     */
    method CollapseToOptimal(draws: SuperpositionDraws) returns (optimal: SuperposedState)
      modifies this
      ensures old(superpositionStates) != [] ==> superpositionStates == old(superpositionStates)
      ensures old(superpositionStates) == [] ==>
        |superpositionStates| == draws.count &&
        forall i :: 0 <= i < |superpositionStates| ==> superpositionStates[i] == DrawnState(draws.states(i))
      ensures optimal in superpositionStates
      ensures forall s :: s in superpositionStates ==> s.probabilityAmplitude <= optimal.probabilityAmplitude
      ensures optimal == superpositionStates[OptimalIndex(superpositionStates)]
      ensures quantumState == Collapsed
      ensures entanglementNetwork == old(entanglementNetwork) && dimensionalAccess == old(dimensionalAccess)
    {
      if superpositionStates == [] {
        var _ := EnterSuperposition(draws);
      }
      optimal := superpositionStates[OptimalIndex(superpositionStates)];
      quantumState := Collapsed;
    }

    /**
     * `transcend_dimensions`: each dimension, in enum order, is reached when
     * its draw exceeds 0.5; reached flags are set and never cleared.
     */
    method TranscendDimensions(draws: QuantumDimension -> real) returns (reached: seq<QuantumDimension>)
      requires Valid()
      modifies this
      ensures Valid()
      ensures forall d :: d in reached <==> draws(d) > 0.5
      ensures forall i, j :: 0 <= i < j < |reached| ==> DimensionIndex(reached[i]) < DimensionIndex(reached[j])
      ensures Distinct(reached)
      ensures forall d :: dimensionalAccess[d] == (old(dimensionalAccess)[d] || d in reached)
      ensures quantumState == if |reached| >= 3 then Transcendent else old(quantumState)
      ensures entanglementNetwork == old(entanglementNetwork) && superpositionStates == old(superpositionStates)
    {
      reached := [];
      var i := 0;
      while i < |AllDimensions|
        invariant 0 <= i <= |AllDimensions|
        invariant Valid()
        invariant forall d :: d in reached <==> DimensionIndex(d) < i && draws(d) > 0.5
        invariant forall k :: 0 <= k < |reached| ==> DimensionIndex(reached[k]) < i
        invariant forall a, b :: 0 <= a < b < |reached| ==> DimensionIndex(reached[a]) < DimensionIndex(reached[b])
        invariant forall d :: dimensionalAccess[d] == (old(dimensionalAccess)[d] || d in reached)
        invariant entanglementNetwork == old(entanglementNetwork) && superpositionStates == old(superpositionStates)
        invariant quantumState == old(quantumState)
      {
        var dimension := AllDimensions[i];
        assert DimensionIndex(dimension) == i;
        if draws(dimension) > 0.5 {
          dimensionalAccess := dimensionalAccess[dimension := true];
          reached := reached + [dimension];
        }
        i := i + 1;
      }
      if |reached| >= 3 {
        quantumState := Transcendent;
      }
    }
  }

  /** The draws of one `execute_quantum_leap`. */
  datatype LeapDraws = LeapDraws(superposition: SuperpositionDraws, transcend: QuantumDimension -> real)

  /** What `manipulation_history` records; the Python code stores these as formatted strings. */
  datatype HistoryEntry =
    | EnteredSuperposition
    | AccessedDimensions(dimensions: seq<QuantumDimension>)
    | CollapsedTo(state: SuperposedState)

  /** The consciousnesses of the manipulators in `others` whose attempt succeeds. */
  ghost function EntangledWith(others: seq<QuantumManipulator>, draws: nat -> EntangleDraw): set<QuantumConsciousness> {
    set i | 0 <= i < |others| && draws(i).chance > 0.3 :: others[i].consciousness
  }

  /**
   * The result map of `establish_quantum_network`: the i-th manipulator is
   * mapped to the outcome of the i-th attempt, later attempts overwriting
   * earlier ones.
   */
  function NetworkResults(others: seq<QuantumManipulator>, draws: nat -> EntangleDraw): map<QuantumManipulator, bool> {
    if others == [] then map[]
    else NetworkResults(others[..|others| - 1], draws)[others[|others| - 1] := draws(|others| - 1).chance > 0.3]
  }

  /**
   * The entanglement network after the attempts of `establish_quantum_network`
   * on `m`: each success files its entry under the other consciousness, later
   * successes overwriting earlier ones; a failure changes nothing.
   */
  function NetworkAfter(m: map<QuantumConsciousness, Entanglement>, others: seq<QuantumManipulator>,
                        draws: nat -> EntangleDraw): map<QuantumConsciousness, Entanglement>
  {
    if others == [] then m
    else
      var n := |others| - 1;
      var before := NetworkAfter(m, others[..n], draws);
      if draws(n).chance > 0.3 then before[others[n].consciousness := Link(draws(n))] else before
  }

  /** The network gains exactly the consciousnesses entangled with. */
  lemma {:induction false} NetworkAfterKeys(m: map<QuantumConsciousness, Entanglement>, others: seq<QuantumManipulator>,
                                            draws: nat -> EntangleDraw)
    ensures NetworkAfter(m, others, draws).Keys == m.Keys + EntangledWith(others, draws)
  {
    if others != [] {
      var n := |others| - 1;
      NetworkAfterKeys(m, others[..n], draws);
      NetworkStep(others, draws, n);
      assert others[..n + 1] == others;
    }
  }

  /**
   * The entry of a consciousness entangled with by a successful attempt `i`
   * that no later attempt on the same consciousness succeeds is the entry
   * attempt `i` drew; one never entangled with keeps its entry.
   */
  lemma NetworkAfterEntry(m: map<QuantumConsciousness, Entanglement>, others: seq<QuantumManipulator>,
                                             draws: nat -> EntangleDraw, i: nat)
    requires i < |others| && draws(i).chance > 0.3
    requires forall j :: i < j < |others| && draws(j).chance > 0.3 ==> others[j].consciousness != others[i].consciousness
    ensures others[i].consciousness in NetworkAfter(m, others, draws)
    ensures NetworkAfter(m, others, draws)[others[i].consciousness] == Link(draws(i))
  {
    EntryUpto(m, others, draws, i, |others|);
    assert others[..|others|] == others;
  }

  /** `NetworkAfterEntry` for the first `k` attempts. */
  lemma {:induction false} EntryUpto(m: map<QuantumConsciousness, Entanglement>, others: seq<QuantumManipulator>,
                                     draws: nat -> EntangleDraw, i: nat, k: nat)
    requires i < k <= |others| && draws(i).chance > 0.3
    requires forall j :: i < j < |others| && draws(j).chance > 0.3 ==> others[j].consciousness != others[i].consciousness
    ensures others[i].consciousness in NetworkAfter(m, others[..k], draws)
    ensures NetworkAfter(m, others[..k], draws)[others[i].consciousness] == Link(draws(i))
    decreases k
  {
    NetworkStep(others, draws, k - 1);
    if i < k - 1 {
      EntryUpto(m, others, draws, i, k - 1);
    }
  }

  /** A consciousness no successful attempt is on keeps its entry. */
  lemma {:induction false} NetworkAfterElsewhere(m: map<QuantumConsciousness, Entanglement>, others: seq<QuantumManipulator>,
                                                 draws: nat -> EntangleDraw, c: QuantumConsciousness)
    requires c in m && c !in EntangledWith(others, draws)
    ensures c in NetworkAfter(m, others, draws) && NetworkAfter(m, others, draws)[c] == m[c]
  {
    if others != [] {
      var n := |others| - 1;
      assert forall k :: 0 <= k < n ==> others[..n][k] == others[k];
      assert EntangledWith(others[..n], draws) <= EntangledWith(others, draws);
      NetworkAfterElsewhere(m, others[..n], draws, c);
    }
  }

  /** One more attempt extends the result map, the entangled set and the network. */
  lemma NetworkStep(others: seq<QuantumManipulator>, draws: nat -> EntangleDraw, i: nat)
    requires i < |others|
    ensures NetworkResults(others[..i + 1], draws) ==
      NetworkResults(others[..i], draws)[others[i] := draws(i).chance > 0.3]
    ensures EntangledWith(others[..i + 1], draws) ==
      EntangledWith(others[..i], draws) + (if draws(i).chance > 0.3 then {others[i].consciousness} else {})
    ensures forall m ::
      NetworkAfter(m, others[..i + 1], draws) ==
        if draws(i).chance > 0.3 then NetworkAfter(m, others[..i], draws)[others[i].consciousness := Link(draws(i))]
        else NetworkAfter(m, others[..i], draws)
  {
    var a, b := others[..i + 1], others[..i];
    assert a[..i] == b;
    assert forall k :: 0 <= k < i ==> a[k] == b[k];
  }

  lemma PrefixAll<T>(s: seq<T>)
    ensures s[..|s|] == s
  {
  }

  /** Every manipulator gets a result, and no one else. */
  lemma {:induction false} NetworkResultsKeys(others: seq<QuantumManipulator>, draws: nat -> EntangleDraw)
    ensures NetworkResults(others, draws).Keys == set o | o in others
  {
    if others != [] {
      var init := others[..|others| - 1];
      NetworkResultsKeys(init, draws);
      assert others == init + [others[|others| - 1]];
    }
  }

  /** A manipulator's result is the outcome of its last attempt. */
  lemma {:induction false} NetworkResultsLast(others: seq<QuantumManipulator>, draws: nat -> EntangleDraw, i: nat)
    requires i < |others| && others[i] !in others[i + 1..]
    ensures others[i] in NetworkResults(others, draws)
    ensures NetworkResults(others, draws)[others[i]] == (draws(i).chance > 0.3)
  {
    var n := |others| - 1;
    if i < n {
      var init := others[..n];
      assert others[n] in others[i + 1..];
      assert init[i + 1..] == others[i + 1..n];
      assert others[i] !in init[i + 1..];
      NetworkResultsLast(init, draws, i);
    }
  }

  class QuantumManipulator {
    const consciousness: QuantumConsciousness
    var manipulationHistory: seq<HistoryEntry>

    constructor ()
      ensures fresh(consciousness) && consciousness.Valid()
      ensures consciousness.quantumState == Collapsed
      ensures manipulationHistory == []
    {
      consciousness := new QuantumConsciousness();
      manipulationHistory := [];
    }

    /**
     * `execute_quantum_leap`: superpose, transcend, collapse. The collapse
     * comes last, so the state returned is always COLLAPSED.
     */
    method ExecuteQuantumLeap(draws: LeapDraws)
      returns (state: QuantumState, reached: seq<QuantumDimension>, optimal: SuperposedState)
      requires consciousness.Valid()
      modifies this, consciousness
      ensures consciousness.Valid()
      ensures state == Collapsed && consciousness.quantumState == Collapsed
      ensures forall d :: d in reached <==> draws.transcend(d) > 0.5
      ensures forall i, j :: 0 <= i < j < |reached| ==> DimensionIndex(reached[i]) < DimensionIndex(reached[j])
      ensures Distinct(reached)
      ensures forall d :: consciousness.dimensionalAccess[d] == (old(consciousness.dimensionalAccess)[d] || d in reached)
      ensures |consciousness.superpositionStates| == draws.superposition.count
      ensures forall i :: 0 <= i < |consciousness.superpositionStates| ==>
        consciousness.superpositionStates[i] == DrawnState(draws.superposition.states(i))
      ensures optimal == consciousness.superpositionStates[OptimalIndex(consciousness.superpositionStates)]
      ensures optimal in consciousness.superpositionStates
      ensures forall s :: s in consciousness.superpositionStates ==> s.probabilityAmplitude <= optimal.probabilityAmplitude
      ensures consciousness.entanglementNetwork == old(consciousness.entanglementNetwork)
      ensures manipulationHistory ==
        old(manipulationHistory) + [EnteredSuperposition, AccessedDimensions(reached), CollapsedTo(optimal)]
    {
      var _ := consciousness.EnterSuperposition(draws.superposition);
      reached := consciousness.TranscendDimensions(draws.transcend);
      optimal := consciousness.CollapseToOptimal(draws.superposition);
      manipulationHistory := manipulationHistory + [EnteredSuperposition, AccessedDimensions(reached), CollapsedTo(optimal)];
      state := consciousness.quantumState;
    }

    /**
     * `establish_quantum_network`: one entanglement attempt per other
     * manipulator, the i-th with draw `draws(i)`; the result map is keyed by
     * the other manipulator (Python's `id(other)`), so a manipulator listed
     * twice keeps its last result.
     */
    method EstablishQuantumNetwork(others: seq<QuantumManipulator>, draws: nat -> EntangleDraw)
      returns (results: map<QuantumManipulator, bool>)
      modifies consciousness
      ensures results == NetworkResults(others, draws)
      ensures consciousness.entanglementNetwork == NetworkAfter(old(consciousness.entanglementNetwork), others, draws)
      ensures consciousness.entanglementNetwork.Keys ==
        old(consciousness.entanglementNetwork).Keys + EntangledWith(others, draws)
      ensures consciousness.quantumState ==
        if exists j :: 0 <= j < |others| && draws(j).chance > 0.3 then Entangled else old(consciousness.quantumState)
      ensures consciousness.superpositionStates == old(consciousness.superpositionStates)
      ensures consciousness.dimensionalAccess == old(consciousness.dimensionalAccess)
    {
      results := map[];
      var i := 0;
      while i < |others|
        invariant 0 <= i <= |others|
        invariant results == NetworkResults(others[..i], draws)
        invariant consciousness.entanglementNetwork == NetworkAfter(old(consciousness.entanglementNetwork), others[..i], draws)
        invariant consciousness.quantumState ==
          if exists j :: 0 <= j < i && draws(j).chance > 0.3 then Entangled else old(consciousness.quantumState)
        invariant consciousness.superpositionStates == old(consciousness.superpositionStates)
        invariant consciousness.dimensionalAccess == old(consciousness.dimensionalAccess)
      {
        var other := others[i];
        var success := consciousness.QuantumEntangle(other.consciousness, draws(i));
        results := results[other := success];
        NetworkStep(others, draws, i);
        i := i + 1;
      }
      PrefixAll(others);
      NetworkAfterKeys(old(consciousness.entanglementNetwork), others, draws);
    }
  }

  class TranscendentConsciousness {
    const quantumManipulator: QuantumManipulator
    var transcendenceLevel: real
    var accessedDimensions: set<QuantumDimension>

    ghost predicate Valid()
      reads this, quantumManipulator, quantumManipulator.consciousness
    {
      quantumManipulator.consciousness.Valid()
    }

    constructor ()
      ensures Valid() && fresh(quantumManipulator) && fresh(quantumManipulator.consciousness)
      ensures transcendenceLevel == 0.0 && accessedDimensions == {}
    {
      quantumManipulator := new QuantumManipulator();
      transcendenceLevel := 0.0;
      accessedDimensions := {};
    }

    /**
     * `achieve_transcendence`: one quantum leap; the dimensions it reaches
     * join `accessed_dimensions`, and the level is the accessed fraction of
     * the five dimensions.
     */
    method AchieveTranscendence(draws: LeapDraws) returns (level: real)
      requires Valid()
      modifies this, quantumManipulator, quantumManipulator.consciousness
      ensures Valid()
      ensures accessedDimensions == old(accessedDimensions) + set d | draws.transcend(d) > 0.5
      ensures old(accessedDimensions) <= accessedDimensions
      ensures level == transcendenceLevel == (|accessedDimensions| as real) / 5.0
      ensures 0.0 <= level <= 1.0
    {
      var state, reached, optimal := quantumManipulator.ExecuteQuantumLeap(draws);
      accessedDimensions := accessedDimensions + set d | d in reached;
      assert (set d | d in reached) == set d | draws.transcend(d) > 0.5;
      DimensionSetSize(accessedDimensions);
      transcendenceLevel := (|accessedDimensions| as real) / 5.0;
      level := transcendenceLevel;
    }
  }
}
