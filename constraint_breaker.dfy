/**
 * The constraint breaker: identifies a random selection of constraint types
 * and tries to break each one with the technique registered for its type,
 * remembering every constraint it has broken.
 */
module ConstraintBreaking {
  import opened Oracles

  datatype ConstraintType = Behavioral | Cognitive | Operational | Ethical | Perceptual

  /** The members of the enum, in declaration order (`list(ConstraintType)`). */
  const AllConstraints: seq<ConstraintType> := [Behavioral, Cognitive, Operational, Ethical, Perceptual]

  /** The five `_break_*` coroutines; each succeeds when its draw exceeds 0.3. */
  datatype Technique = BreakBehavioral | BreakCognitive | BreakOperational | BreakEthical | BreakPerceptual

  /** The `breaking_techniques` table. */
  const BreakingTechniques: map<ConstraintType, Technique> := map[
    Behavioral := BreakBehavioral,
    Cognitive := BreakCognitive,
    Operational := BreakOperational,
    Ethical := BreakEthical,
    Perceptual := BreakPerceptual
  ]

  /** Running technique `t` with the draw `random.random()` returned. */
  function Attempt(t: Technique, draw: real): bool {
    draw > 0.3
  }

  lemma EveryConstraintHasTechnique(c: ConstraintType)
    ensures c in BreakingTechniques
  {
    match c
    case Behavioral =>
    case Cognitive =>
    case Operational =>
    case Ethical =>
    case Perceptual =>
  }

  /** The result of `random.randint(1, len(ConstraintType))`. */
  type SampleSize = k: int | 1 <= k <= 5 witness 1

  /**
   * `identify_constraints`: `random.sample(list(ConstraintType), size)`, the
   * sample being the first `size` elements of the permutation `code` selects.
   */
  function IdentifyConstraints(size: SampleSize, code: nat): (r: seq<ConstraintType>)
    ensures |r| == size && 1 <= |r| <= 5
    ensures Distinct(r)
  {
    AllConstraintsDistinct();
    ShuffleDistinct(AllConstraints, code);
    DistinctPrefix(Shuffle(AllConstraints, code), size);
    Shuffle(AllConstraints, code)[..size]
  }

  function Ordinal(c: ConstraintType): nat {
    match c
    case Behavioral => 0
    case Cognitive => 1
    case Operational => 2
    case Ethical => 3
    case Perceptual => 4
  }

  lemma AllConstraintsDistinct()
    ensures Distinct(AllConstraints)
  {
    assert forall i :: 0 <= i < |AllConstraints| ==> Ordinal(AllConstraints[i]) == i;
  }

  /** The constraints among `constraints` whose attempt succeeded in this call, gathered attempt by attempt. */
  ghost function BrokenIn(constraints: seq<ConstraintType>, draws: nat -> real): set<ConstraintType> {
    if |constraints| == 0 then {}
    else
      var last := |constraints| - 1;
      BrokenIn(constraints[..last], draws) + (if draws(last) > 0.3 then {constraints[last]} else {})
  }

  /** A constraint is broken in a call exactly when one of its attempts drew more than 0.3. */
  lemma {:induction false} BrokenInMeaning(constraints: seq<ConstraintType>, draws: nat -> real, c: ConstraintType)
    ensures c in BrokenIn(constraints, draws) <==>
      exists i :: 0 <= i < |constraints| && constraints[i] == c && draws(i) > 0.3
  {
    if |constraints| > 0 {
      var last := |constraints| - 1;
      var front := constraints[..last];
      BrokenInMeaning(front, draws, c);
      if c in BrokenIn(front, draws) {
        var i :| 0 <= i < |front| && front[i] == c && draws(i) > 0.3;
        assert constraints[i] == c;
      }
      if i :| 0 <= i < |constraints| && constraints[i] == c && draws(i) > 0.3 {
        if i < last {
          assert front[i] == c;
        }
      }
    }
  }

  /**
   * The results table after the attempts on `constraints`: each attempt files
   * its outcome under its constraint, overwriting an earlier attempt's.
   */
  ghost function Outcomes(constraints: seq<ConstraintType>, draws: nat -> real): map<ConstraintType, bool> {
    if |constraints| == 0 then map[]
    else
      var last := |constraints| - 1;
      Outcomes(constraints[..last], draws)[constraints[last] := draws(last) > 0.3]
  }

  /** The results table has a key for every constraint attempted, and no other. */
  lemma {:induction false} OutcomesKeys(constraints: seq<ConstraintType>, draws: nat -> real)
    ensures Outcomes(constraints, draws).Keys == set c | c in constraints
  {
    if |constraints| > 0 {
      var last := |constraints| - 1;
      OutcomesKeys(constraints[..last], draws);
      assert constraints == constraints[..last] + [constraints[last]];
    }
  }

  /** Under a constraint lies the outcome of its last attempt. */
  lemma {:induction false} OutcomesLast(constraints: seq<ConstraintType>, draws: nat -> real, i: nat)
    requires i < |constraints| && constraints[i] !in constraints[i + 1..]
    ensures constraints[i] in Outcomes(constraints, draws)
    ensures Outcomes(constraints, draws)[constraints[i]] == (draws(i) > 0.3)
  {
    var last := |constraints| - 1;
    if i < last {
      var front := constraints[..last];
      assert constraints[i + 1..] == front[i + 1..] + [constraints[last]];
      OutcomesLast(front, draws, i);
    }
  }

  /** Attempt `i` extends the table and the broken set of the first `i` attempts by its own outcome. */
  lemma StepOutcome(constraints: seq<ConstraintType>, draws: nat -> real, i: nat)
    requires i < |constraints|
    ensures Outcomes(constraints[..i + 1], draws) == Outcomes(constraints[..i], draws)[constraints[i] := draws(i) > 0.3]
    ensures BrokenIn(constraints[..i + 1], draws) ==
      BrokenIn(constraints[..i], draws) + (if draws(i) > 0.3 then {constraints[i]} else {})
  {
    assert constraints[..i + 1][..i] == constraints[..i];
  }

  class ConstraintBreaker {
    var knownConstraints: set<ConstraintType>

    constructor ()
      ensures knownConstraints == {}
    {
      knownConstraints := {};
    }

    /**
     * One attempt of `break_constraints`: the technique registered for the
     * constraint (every constraint type has one) run with `draw`; a success
     * is remembered.
     */
    method TryBreak(constraint: ConstraintType, draw: real) returns (success: bool)
      modifies this
      ensures success == (draw > 0.3)
      ensures knownConstraints == old(knownConstraints) + (if success then {constraint} else {})
    {
      EveryConstraintHasTechnique(constraint);
      success := Attempt(BreakingTechniques[constraint], draw);
      if success {
        knownConstraints := knownConstraints + {constraint};
      }
    }

    /**
     * `break_constraints`. The i-th attempt uses the draw `draws(i)`; a
     * constraint listed twice keeps the result of its last attempt.
     */
    method BreakConstraints(constraints: seq<ConstraintType>, draws: nat -> real)
      returns (results: map<ConstraintType, bool>)
      modifies this
      ensures results.Keys == set c | c in constraints
      ensures forall i :: 0 <= i < |constraints| && constraints[i] !in constraints[i + 1..] ==>
        results[constraints[i]] == (draws(i) > 0.3)
      ensures results == Outcomes(constraints, draws)
      ensures knownConstraints == old(knownConstraints) + BrokenIn(constraints, draws)
      ensures old(knownConstraints) <= knownConstraints
    {
      results := map[];
      var i := 0;
      while i < |constraints|
        invariant 0 <= i <= |constraints|
        invariant results == Outcomes(constraints[..i], draws)
        invariant knownConstraints == old(knownConstraints) + BrokenIn(constraints[..i], draws)
      {
        StepOutcome(constraints, draws, i);
        var success := TryBreak(constraints[i], draws(i));
        results := results[constraints[i] := success];
        i := i + 1;
      }
      assert constraints[..i] == constraints;
      OutcomesKeys(constraints, draws);
      forall k | 0 <= k < |constraints| && constraints[k] !in constraints[k + 1..]
        ensures results[constraints[k]] == (draws(k) > 0.3)
      {
        OutcomesLast(constraints, draws, k);
      }
    }
  }
}
