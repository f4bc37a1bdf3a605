/**
 * The state validators of the quantum property-testing framework: timeline
 * consistency over dictionaries of readings, the reality-state test with its
 * guarded history, the consciousness test's checks over its history, and the
 * given/when/then test case.
 */
module PropertyTesting {
  import opened Wrappers

  /*
   * Timelines. A timeline entry is a dictionary of readings; only the keys
   * the checks read are given a meaning.
   */

  type Reading = map<string, real>

  const TimestampKey: string := "timestamp"
  const EnergyKey: string := "energy"
  const ConsciousnessKey: string := "consciousness"

  /** The tolerance of the energy-conservation check. */
  const EnergyTolerance: real := 0.0000000001

  function Abs(x: real): real {
    if x < 0.0 then -x else x
  }

  /** `d.get(key, 0)`. */
  function GetOrZero(d: Reading, key: string): real {
    if key in d then d[key] else 0.0
  }

  function Energy(d: Reading): real {
    GetOrZero(d, EnergyKey)
  }

  function Consciousness(d: Reading): real {
    GetOrZero(d, ConsciousnessKey)
  }

  /** `_valid_transition`: energy conserved up to the tolerance, then consciousness not decreasing. */
  predicate ValidTransition(state1: Reading, state2: Reading) {
    if Abs(Energy(state1) - Energy(state2)) > EnergyTolerance then false
    else if Consciousness(state2) < Consciousness(state1) then false
    else true
  }

  /** Every state is a valid transition from itself. */
  lemma ValidTransitionReflexive(state: Reading)
    ensures ValidTransition(state, state)
  {
  }

  /**
   * Why `verify_timeline_consistency` stops at the pair `(at - 1, at)`: one
   * of its entries has no timestamp (the `KeyError` of `d['timestamp']`), the
   * causality assertion fails, or the transition assertion fails.
   */
  datatype TimelineError = MissingTimestamp(at: nat) | CausalityViolation(at: nat) | InvalidTransition(at: nat)

  /** The checks of the loop from pair `(i - 1, i)` on, in the order the loop makes them. */
  function TimelineFrom(timeline: seq<Reading>, i: nat): Option<TimelineError>
    requires 1 <= i <= |timeline|
    decreases |timeline| - i
  {
    if i == |timeline| then None
    else if TimestampKey !in timeline[i - 1] || TimestampKey !in timeline[i] then Some(MissingTimestamp(i))
    else if !(timeline[i - 1][TimestampKey] < timeline[i][TimestampKey]) then Some(CausalityViolation(i))
    else if !ValidTransition(timeline[i - 1], timeline[i]) then Some(InvalidTransition(i))
    else TimelineFrom(timeline, i + 1)
  }

  /** `verify_timeline_consistency`: `None` when it returns, the failure it raises otherwise. */
  function VerifyTimelineConsistency(timeline: seq<Reading>): Option<TimelineError> {
    if |timeline| == 0 then None else TimelineFrom(timeline, 1)
  }

  /** The pair `(i - 1, i)` passes every check of the loop. */
  predicate PairConsistent(timeline: seq<Reading>, i: nat)
    requires 1 <= i < |timeline|
  {
    TimestampKey in timeline[i - 1] && TimestampKey in timeline[i] &&
    timeline[i - 1][TimestampKey] < timeline[i][TimestampKey] &&
    ValidTransition(timeline[i - 1], timeline[i])
  }

  predicate Consistent(timeline: seq<Reading>) {
    forall i :: 1 <= i < |timeline| ==> PairConsistent(timeline, i)
  }

  /**
   * The loop from pair `i` on stops exactly at the first inconsistent pair,
   * with the reason the first failing check gives.
   */
  lemma {:induction false} TimelineFromFirstFailure(timeline: seq<Reading>, i: nat)
    requires 1 <= i <= |timeline|
    ensures TimelineFrom(timeline, i).None? <==> forall j :: i <= j < |timeline| ==> PairConsistent(timeline, j)
    ensures TimelineFrom(timeline, i).Some? ==>
      var j := TimelineFrom(timeline, i).value.at;
      i <= j < |timeline| && !PairConsistent(timeline, j) &&
      forall k :: i <= k < j ==> PairConsistent(timeline, k)
    decreases |timeline| - i
  {
    if i < |timeline| && PairConsistent(timeline, i) {
      TimelineFromFirstFailure(timeline, i + 1);
    }
  }

  /**
   * The timeline check returns normally exactly on consistent timelines, in
   * particular on every timeline of fewer than two states.
   */
  lemma TimelineConsistencyIff(timeline: seq<Reading>)
    ensures VerifyTimelineConsistency(timeline).None? <==> Consistent(timeline)
    ensures |timeline| < 2 ==> VerifyTimelineConsistency(timeline).None?
  {
    if |timeline| > 0 {
      TimelineFromFirstFailure(timeline, 1);
    }
  }

  /** A reported failure is at the first pair that is not consistent. */
  lemma TimelineErrorIsFirst(timeline: seq<Reading>)
    requires VerifyTimelineConsistency(timeline).Some?
    ensures var j := VerifyTimelineConsistency(timeline).value.at;
      1 <= j < |timeline| && !PairConsistent(timeline, j) &&
      forall k :: 1 <= k < j ==> PairConsistent(timeline, k)
  {
    TimelineFromFirstFailure(timeline, 1);
  }

  /**
   * Along a consistent timeline, from state `i` to a later state `j`:
   * timestamps strictly increase, consciousness does not decrease, and the
   * energy drifts by at most the tolerance per step.
   */
  lemma {:induction false} ConsistentOrdered(timeline: seq<Reading>, i: nat, j: nat)
    requires Consistent(timeline) && i < j < |timeline|
    ensures TimestampKey in timeline[i] && TimestampKey in timeline[j]
    ensures timeline[i][TimestampKey] < timeline[j][TimestampKey]
    ensures Consciousness(timeline[i]) <= Consciousness(timeline[j])
    ensures Abs(Energy(timeline[i]) - Energy(timeline[j])) <= (j - i) as real * EnergyTolerance
    decreases j - i
  {
    assert PairConsistent(timeline, j);
    if i < j - 1 {
      ConsistentOrdered(timeline, i, j - 1);
    }
  }

  /*
   * Reality states.
   */

  datatype RealityState = RealityState(dimensionCount: int, stability: real, coherence: real,
                                       consciousness: real, timeIndex: int)

  /** A history whose states all share one dimension count and whose time indices strictly increase. */
  predicate Causal(history: seq<RealityState>) {
    forall i :: 1 <= i < |history| ==>
      history[i].dimensionCount == history[i - 1].dimensionCount && history[i - 1].timeIndex < history[i].timeIndex
  }

  /** In a causal history any two states have the same dimension count, and the later one the larger time index. */
  lemma {:induction false} CausalOrdered(history: seq<RealityState>, i: nat, j: nat)
    requires Causal(history) && i < j < |history|
    ensures history[i].dimensionCount == history[j].dimensionCount
    ensures history[i].timeIndex < history[j].timeIndex
    decreases j - i
  {
    if i < j - 1 {
      CausalOrdered(history, i, j - 1);
    }
  }

  /** `[state.consciousness for state in history]`. */
  function ConsciousnessLevels(history: seq<RealityState>): seq<real> {
    seq(|history|, i requires 0 <= i < |history| => history[i].consciousness)
  }

  /** Each level is at least the one before it. */
  predicate StepwiseNonDecreasing(levels: seq<real>) {
    forall i :: 1 <= i < |levels| ==> levels[i - 1] <= levels[i]
  }

  /** No level is below an earlier one. */
  predicate NonDecreasing(levels: seq<real>) {
    forall i, j :: 0 <= i < j < |levels| ==> levels[i] <= levels[j]
  }

  lemma {:induction false} StepwiseOrdered(levels: seq<real>, i: nat, j: nat)
    requires StepwiseNonDecreasing(levels) && i < j < |levels|
    ensures levels[i] <= levels[j]
    decreases j - i
  {
    if i < j - 1 {
      StepwiseOrdered(levels, i, j - 1);
    }
  }

  /** Comparing only neighbours, as both growth checks do, decides whether a sequence is non-decreasing. */
  lemma StepwiseIff(levels: seq<real>)
    ensures StepwiseNonDecreasing(levels) <==> NonDecreasing(levels)
  {
    if StepwiseNonDecreasing(levels) {
      forall i, j | 0 <= i < j < |levels| ensures levels[i] <= levels[j] {
        StepwiseOrdered(levels, i, j);
      }
    }
  }

  /** Neither stability times coherence of any state exceeds 1. */
  predicate QuantumConsistent(history: seq<RealityState>) {
    forall i :: 0 <= i < |history| ==> history[i].stability * history[i].coherence <= 1.0
  }

  class RealityStateTest {
    const initialState: RealityState
    var currentState: RealityState
    var stateHistory: seq<RealityState>

    /** The history starts at the initial state, ends at the current one, and is causal. */
    ghost predicate Valid()
      reads this
    {
      |stateHistory| >= 1 && stateHistory[0] == initialState &&
      stateHistory[|stateHistory| - 1] == currentState && Causal(stateHistory)
    }

    constructor (initial: RealityState)
      ensures Valid()
      ensures initialState == initial && currentState == initial && stateHistory == [initial]
    {
      initialState := initial;
      currentState := initial;
      stateHistory := [initial];
    }

    /**
     * `test_state_transition`: the dimension check, then the time check,
     * then the stability check; the first that fails raises and changes
     * nothing, and a state passing all three is appended and made current.
     */
    method TestStateTransition(newState: RealityState) returns (r: Result<bool>)
      requires Valid()
      modifies this
      ensures Valid()
      ensures newState.dimensionCount != old(currentState.dimensionCount) ==>
        r == Err("Dimensional inconsistency detected")
      ensures newState.dimensionCount == old(currentState.dimensionCount) &&
              newState.timeIndex <= old(currentState.timeIndex) ==>
        r == Err("Temporal causality violation")
      ensures newState.dimensionCount == old(currentState.dimensionCount) &&
              newState.timeIndex > old(currentState.timeIndex) && newState.stability < 0.5 ==>
        r == Err("Critical stability violation")
      ensures r.Err? ==> currentState == old(currentState) && stateHistory == old(stateHistory)
      ensures r.Ok? ==>
        r.value && currentState == newState && stateHistory == old(stateHistory) + [newState]
      ensures r.Ok? <==>
        newState.dimensionCount == old(currentState.dimensionCount) &&
        newState.timeIndex > old(currentState.timeIndex) && newState.stability >= 0.5
    {
      if newState.dimensionCount != currentState.dimensionCount {
        return Err("Dimensional inconsistency detected");
      }
      if newState.timeIndex <= currentState.timeIndex {
        return Err("Temporal causality violation");
      }
      if newState.stability < 0.5 {
        return Err("Critical stability violation");
      }
      stateHistory := stateHistory + [newState];
      currentState := newState;
      r := Ok(true);
    }

    /** `test_consciousness_evolution`: true iff the consciousness levels of the history never decrease. */
    method TestConsciousnessEvolution() returns (r: bool)
      ensures r <==> NonDecreasing(ConsciousnessLevels(stateHistory))
    {
      var levels := ConsciousnessLevels(stateHistory);
      StepwiseIff(levels);
      var i := 1;
      while i < |levels|
        invariant 1 <= i && (|levels| == 0 || i <= |levels|)
        invariant forall k :: 1 <= k < i && k < |levels| ==> levels[k - 1] <= levels[k]
      {
        if levels[i] < levels[i - 1] {
          return false;
        }
        i := i + 1;
      }
      r := true;
    }

    /** `verify_quantum_consistency`: true iff no state of the history has stability times coherence above 1. */
    method VerifyQuantumConsistency() returns (r: bool)
      ensures r <==> QuantumConsistent(stateHistory)
    {
      var i := 0;
      while i < |stateHistory|
        invariant 0 <= i <= |stateHistory|
        invariant forall k :: 0 <= k < i ==> stateHistory[k].stability * stateHistory[k].coherence <= 1.0
      {
        if stateHistory[i].stability * stateHistory[i].coherence > 1.0 {
          return false;
        }
        i := i + 1;
      }
      r := true;
    }
  }

  lemma ConsciousnessLevelsSnoc(history: seq<RealityState>, next: RealityState)
    ensures ConsciousnessLevels(history + [next]) == ConsciousnessLevels(history) + [next.consciousness]
  {
    var long, short := ConsciousnessLevels(history + [next]), ConsciousnessLevels(history) + [next.consciousness];
    forall i | 0 <= i < |long| ensures long[i] == short[i] {
      if i < |history| {
        assert (history + [next])[i] == history[i];
      }
    }
    assert long == short;
  }

  /** A level no smaller than the last keeps a non-decreasing sequence non-decreasing. */
  lemma NonDecreasingSnoc(levels: seq<real>, x: real)
    requires NonDecreasing(levels) && (|levels| > 0 ==> levels[|levels| - 1] <= x)
    ensures NonDecreasing(levels + [x])
  {
    var longer := levels + [x];
    forall i, j | 0 <= i < j < |longer| ensures longer[i] <= longer[j] {
      assert longer[i] == levels[i];
      if j < |levels| {
        assert longer[j] == levels[j];
      } else if i < |levels| - 1 {
        assert levels[i] <= levels[|levels| - 1];
      }
    }
  }

  /**
   * Accepting a state whose consciousness is at least the current one keeps
   * the evolution check of a history that passed it passing.
   */
  lemma EvolutionExtends(history: seq<RealityState>, next: RealityState)
    requires |history| > 0 && NonDecreasing(ConsciousnessLevels(history))
    requires history[|history| - 1].consciousness <= next.consciousness
    ensures NonDecreasing(ConsciousnessLevels(history + [next]))
  {
    ConsciousnessLevelsSnoc(history, next);
    NonDecreasingSnoc(ConsciousnessLevels(history), next.consciousness);
  }

  /*
   * Consciousness states. Nothing in `ConsciousnessTest` changes its
   * history after construction, so a test is a value.
   */

  datatype ConsciousnessState = ConsciousnessState(awarenessLevel: real, complexity: real,
                                                   integration: real, coherence: real)

  datatype ConsciousnessTest = ConsciousnessTest(initialState: ConsciousnessState, currentState: ConsciousnessState,
                                                 stateHistory: seq<ConsciousnessState>)

  /** `ConsciousnessTest(initial_state)`. */
  function NewConsciousnessTest(initial: ConsciousnessState): (t: ConsciousnessTest)
    ensures t.initialState == initial && t.currentState == initial && t.stateHistory == [initial]
  {
    ConsciousnessTest(initial, initial, [initial])
  }

  /** `[state.awareness_level for state in history]`. */
  function AwarenessLevels(history: seq<ConsciousnessState>): seq<real> {
    seq(|history|, i requires 0 <= i < |history| => history[i].awarenessLevel)
  }

  /** `test_awareness_growth`: every neighbouring pair `(a, b)` of the levels has `b >= a`. */
  function TestAwarenessGrowth(t: ConsciousnessTest): bool {
    var levels := AwarenessLevels(t.stateHistory);
    forall i :: 0 <= i < |levels| - 1 ==> levels[i + 1] >= levels[i]
  }

  /** The awareness check is true iff the awareness levels never decrease. */
  lemma AwarenessGrowthIff(t: ConsciousnessTest)
    ensures TestAwarenessGrowth(t) <==> NonDecreasing(AwarenessLevels(t.stateHistory))
  {
    var levels := AwarenessLevels(t.stateHistory);
    assert TestAwarenessGrowth(t) <==> StepwiseNonDecreasing(levels) by {
      if TestAwarenessGrowth(t) {
        forall i | 1 <= i < |levels| ensures levels[i - 1] <= levels[i] {
          assert levels[(i - 1) + 1] >= levels[i - 1];
        }
      }
    }
    StepwiseIff(levels);
  }

  /** Integration times complexity covers the awareness of every state. */
  predicate IntegrationCovers(history: seq<ConsciousnessState>) {
    forall i :: 0 <= i < |history| ==> history[i].integration * history[i].complexity >= history[i].awarenessLevel
  }

  /** `test_integration_complexity`: false at the first state whose integration times complexity is below its awareness. */
  method TestIntegrationComplexity(t: ConsciousnessTest) returns (r: bool)
    ensures r <==> IntegrationCovers(t.stateHistory)
  {
    var i := 0;
    while i < |t.stateHistory|
      invariant 0 <= i <= |t.stateHistory|
      invariant IntegrationCovers(t.stateHistory[..i])
    {
      var state := t.stateHistory[i];
      if state.integration * state.complexity < state.awarenessLevel {
        assert !IntegrationCovers(t.stateHistory) by {
          assert t.stateHistory[i] == state;
        }
        return false;
      }
      assert t.stateHistory[..i + 1] == t.stateHistory[..i] + [state];
      i := i + 1;
    }
    assert t.stateHistory[..i] == t.stateHistory;
    r := true;
  }

  /** A fresh test has a one-state history: its growth check holds, and its integration check is that state's. */
  lemma FreshConsciousnessTest(initial: ConsciousnessState)
    ensures TestAwarenessGrowth(NewConsciousnessTest(initial))
    ensures IntegrationCovers(NewConsciousnessTest(initial).stateHistory) <==>
      initial.integration * initial.complexity >= initial.awarenessLevel
  {
    var t := NewConsciousnessTest(initial);
    assert AwarenessLevels(t.stateHistory) == [initial.awarenessLevel];
    assert t.stateHistory[0] == initial;
  }

  /*
   * Given/when/then test cases. A condition or action is an opaque callable
   * `C`; what awaiting the i-th precondition or postcondition yields in one
   * run is the oracle `pre(i)` or `post(i)`.
   */

  /** The number of outcomes, from the first, that hold before the first that fails (or `n`). */
  function FirstFailure(outcome: nat -> bool, n: nat): (k: nat)
    ensures k <= n
    ensures forall i :: 0 <= i < k ==> outcome(i)
    ensures k < n ==> !outcome(k)
  {
    if n == 0 then 0
    else if FirstFailure(outcome, n - 1) < n - 1 then FirstFailure(outcome, n - 1)
    else if outcome(n - 1) then n
    else n - 1
  }

  /** The checks a short-circuiting loop over `n` outcomes evaluates. */
  function Evaluated(outcome: nat -> bool, n: nat): nat {
    var k := FirstFailure(outcome, n);
    if k < n then k + 1 else n
  }

  class QuantumTestCase<C> {
    const description: string
    var preconditions: seq<C>
    var actions: seq<C>
    var postconditions: seq<C>

    constructor (description: string)
      ensures this.description == description
      ensures preconditions == [] && actions == [] && postconditions == []
    {
      this.description := description;
      preconditions := [];
      actions := [];
      postconditions := [];
    }

    /** `given`: append a precondition and return the test case itself. */
    method Given(precondition: C) returns (self: QuantumTestCase<C>)
      modifies this
      ensures self == this
      ensures preconditions == old(preconditions) + [precondition]
      ensures actions == old(actions) && postconditions == old(postconditions)
    {
      preconditions := preconditions + [precondition];
      self := this;
    }

    /** `when`: append an action and return the test case itself. */
    method When(action: C) returns (self: QuantumTestCase<C>)
      modifies this
      ensures self == this
      ensures actions == old(actions) + [action]
      ensures preconditions == old(preconditions) && postconditions == old(postconditions)
    {
      actions := actions + [action];
      self := this;
    }

    /** `then`: append a postcondition and return the test case itself. */
    method Then(postcondition: C) returns (self: QuantumTestCase<C>)
      modifies this
      ensures self == this
      ensures postconditions == old(postconditions) + [postcondition]
      ensures preconditions == old(preconditions) && actions == old(actions)
    {
      postconditions := postconditions + [postcondition];
      self := this;
    }

    /**
     * `execute`: the preconditions in order until one fails, then (only if
     * none failed) every action in order, then the postconditions in order
     * until one fails. Besides the verdict it reports how many preconditions
     * and postconditions were awaited and which actions ran.
     */
    method Execute(pre: nat -> bool, post: nat -> bool)
      returns (passed: bool, preChecked: nat, ran: seq<C>, postChecked: nat)
      ensures passed <==>
        (forall i :: 0 <= i < |preconditions| ==> pre(i)) && (forall i :: 0 <= i < |postconditions| ==> post(i))
      ensures preChecked == Evaluated(pre, |preconditions|)
      ensures ran == (if FirstFailure(pre, |preconditions|) < |preconditions| then [] else actions)
      ensures postChecked == (if FirstFailure(pre, |preconditions|) < |preconditions| then 0
                              else Evaluated(post, |postconditions|))
    {
      ghost var k := FirstFailure(pre, |preconditions|);
      preChecked := 0;
      ran := [];
      postChecked := 0;
      while preChecked < |preconditions|
        invariant preChecked <= |preconditions| && preChecked <= k
        invariant forall i :: 0 <= i < preChecked ==> pre(i)
      {
        if !pre(preChecked) {
          preChecked := preChecked + 1;
          return false, preChecked, ran, postChecked;
        }
        preChecked := preChecked + 1;
      }
      var j := 0;
      while j < |actions|
        invariant j <= |actions| && ran == actions[..j]
      {
        ran := ran + [actions[j]];
        j := j + 1;
      }
      assert ran == actions;
      ghost var m := FirstFailure(post, |postconditions|);
      while postChecked < |postconditions|
        invariant postChecked <= |postconditions| && postChecked <= m
        invariant forall i :: 0 <= i < postChecked ==> post(i)
      {
        if !post(postChecked) {
          postChecked := postChecked + 1;
          return false, preChecked, ran, postChecked;
        }
        postChecked := postChecked + 1;
      }
      passed := true;
    }
  }
}
