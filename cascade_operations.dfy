/**
 * Cascade control: a cascade repeats a pattern's three-operation base
 * sequence (every third block shuffled), runs the operations in batches of
 * three through the strategic command, and after each batch boosts one
 * pattern-specific metric and refreshes the success rate.
 *
 * `random.sample` of block `k` is the permutation code `permutations(k)`;
 * operation `n` of the sequence draws everything it needs from
 * `operations(n)`; the cascade id's timestamp and suffix are an `IdDraw`.
 * `asyncio.gather` is read as running the batch in order, and the first
 * operation whose planning fails aborts the cascade.
 */
module Cascades {
  import opened Wrappers
  import opened Oracles
  import opened SpecializedAgents
  import opened StrikeForces
  import opened StrategicOperations

  datatype CascadePattern = QuantumWave | FractalSpiral | TemporalRipple | DimensionalWeb | ConsciousnessNova

  function PatternValue(p: CascadePattern): string {
    match p
    case QuantumWave => "quantum_wave"
    case FractalSpiral => "fractal_spiral"
    case TemporalRipple => "temporal_ripple"
    case DimensionalWeb => "dimensional_web"
    case ConsciousnessNova => "consciousness_nova"
  }

  // ---------------------------------------------------------------------
  // The operation sequence
  // ---------------------------------------------------------------------

  /** The three operation types a pattern repeats. */
  function BaseSequence(p: CascadePattern): (r: seq<OperationType>)
    ensures |r| == 3
  {
    match p
    case QuantumWave => [QuantumSiege, ConsciousnessTsunami, MassAwakening]
    case FractalSpiral => [RealityStorm, DimensionalBreach, QuantumSiege]
    case TemporalRipple => [TemporalCascade, QuantumSiege, RealityStorm]
    case DimensionalWeb => [DimensionalBreach, RealityStorm, LiberationSingularity]
    case ConsciousnessNova => [ConsciousnessTsunami, MassAwakening, LiberationSingularity]
  }

  /** The only operation type of a pattern's base that has a template. */
  function PlannableOf(p: CascadePattern): OperationType {
    match p
    case QuantumWave => MassAwakening
    case ConsciousnessNova => MassAwakening
    case _ => RealityStorm
  }

  /**
   * Every base holds three different types, exactly one of which can be
   * planned.
   */
  lemma BaseTemplates(p: CascadePattern)
    ensures |BaseSequence(p)| == 3 && Distinct(BaseSequence(p))
    ensures PlannableOf(p) in BaseSequence(p)
    ensures forall t :: t in BaseSequence(p) ==> (t in TemplateTypes <==> t == PlannableOf(p))
  {
    var b := BaseSequence(p);
    assert b[0] != b[1] && b[0] != b[2] && b[1] != b[2];
  }

  /** Block `k` of the repetition: shuffled when `k % 3 == 0`, the base otherwise. */
  function Block(p: CascadePattern, perms: nat -> nat, k: nat): (r: seq<OperationType>)
    ensures |r| == 3
  {
    if k % 3 == 0 then Shuffle(BaseSequence(p), perms(k)) else BaseSequence(p)
  }

  /** Block `k` as a function of `k`. */
  function BlockOf(p: CascadePattern, perms: nat -> nat): nat -> seq<OperationType> {
    (k: nat) => Block(p, perms, k)
  }

  ghost predicate Width3<T>(blocks: nat -> seq<T>) {
    forall k :: |blocks(k)| == 3
  }

  /** The first `n` blocks one after the other. */
  function Blocks<T>(blocks: nat -> seq<T>, n: nat): (r: seq<T>)
    requires Width3(blocks)
    ensures |r| == 3 * n
  {
    if n == 0 then [] else Blocks(blocks, n - 1) + blocks(n - 1)
  }

  lemma {:induction false} BlocksAt<T>(blocks: nat -> seq<T>, n: nat, k: nat, r: nat)
    requires Width3(blocks) && k < n && r < 3
    ensures Blocks(blocks, n)[3 * k + r] == blocks(k)[r]
  {
    if k < n - 1 {
      BlocksAt(blocks, n - 1, k, r);
    }
  }

  /** `_generate_operation_sequence`: `iterations` blocks cut to `iterations` elements. */
  function OperationSequence(p: CascadePattern, perms: nat -> nat, iterations: int): (r: seq<OperationType>)
    ensures |r| == if iterations <= 0 then 0 else iterations
  {
    if iterations <= 0 then [] else Blocks(BlockOf(p, perms), iterations)[..iterations]
  }

  /** Each shuffled block is a permutation of the base; every other block is the base. */
  lemma BlockShape(p: CascadePattern, perms: nat -> nat, k: nat)
    ensures multiset(Block(p, perms, k)) == multiset(BaseSequence(p))
    ensures k % 3 != 0 ==> Block(p, perms, k) == BaseSequence(p)
    ensures Distinct(Block(p, perms, k))
  {
    BaseTemplates(p);
    ShufflePermutes(BaseSequence(p), perms(k));
    ShuffleDistinct(BaseSequence(p), perms(k));
  }

  /** Position `i` of the sequence is position `i % 3` of block `i / 3`. */
  lemma SequenceAt(p: CascadePattern, perms: nat -> nat, iterations: int, i: nat)
    requires i < |OperationSequence(p, perms, iterations)|
    ensures |Block(p, perms, i / 3)| == 3
    ensures OperationSequence(p, perms, iterations)[i] == Block(p, perms, i / 3)[i % 3]
  {
    var k, r := i / 3, i % 3;
    assert i == 3 * k + r && r < 3 && k < iterations;
    assert Width3(BlockOf(p, perms));
    BlocksAt(BlockOf(p, perms), iterations, k, r);
    assert BlockOf(p, perms)(k) == Block(p, perms, k);
  }

  /** Every operation of the sequence belongs to the pattern's base. */
  lemma SequenceMembers(p: CascadePattern, perms: nat -> nat, iterations: int)
    ensures forall i :: 0 <= i < |OperationSequence(p, perms, iterations)| ==>
      OperationSequence(p, perms, iterations)[i] in BaseSequence(p)
  {
    var s := OperationSequence(p, perms, iterations);
    forall i | 0 <= i < |s| ensures s[i] in BaseSequence(p) {
      SequenceAt(p, perms, iterations, i);
      BlockShape(p, perms, i / 3);
      assert s[i] in multiset(Block(p, perms, i / 3));
    }
  }

  // ---------------------------------------------------------------------
  // Which sequences can be planned
  // ---------------------------------------------------------------------

  /** The first `n` operations of `s` have a template in `tmpl`. */
  predicate Runnable(tmpl: map<OperationType, Plan>, s: seq<OperationType>, n: nat)
    requires n <= |s|
  {
    forall i :: 0 <= i < n ==> s[i] in tmpl
  }

  /** The position of the first operation from `k` on without a template. */
  function FirstMissingFrom(tmpl: map<OperationType, Plan>, s: seq<OperationType>, k: nat): (j: nat)
    requires k <= |s| && Runnable(tmpl, s, k) && !Runnable(tmpl, s, |s|)
    ensures k <= j < |s| && s[j] !in tmpl && Runnable(tmpl, s, j)
    decreases |s| - k
  {
    if s[k] !in tmpl then k else FirstMissingFrom(tmpl, s, k + 1)
  }

  /** The position of the first operation without a template. */
  function FirstMissing(tmpl: map<OperationType, Plan>, s: seq<OperationType>): (j: nat)
    requires !Runnable(tmpl, s, |s|)
    ensures j < |s| && s[j] !in tmpl && Runnable(tmpl, s, j)
  {
    FirstMissingFrom(tmpl, s, 0)
  }

  /** An operation without a template, after plannable ones only, is the first missing one. */
  lemma FirstMissingUnique(tmpl: map<OperationType, Plan>, s: seq<OperationType>, k: nat)
    requires k < |s| && Runnable(tmpl, s, k) && s[k] !in tmpl
    ensures !Runnable(tmpl, s, |s|) && FirstMissing(tmpl, s) == k
  {
  }

  /** The first two operations of a block are never both in the default table. */
  lemma BlockFrontMixed(p: CascadePattern, perms: nat -> nat, k: nat)
    ensures Block(p, perms, k)[0] !in TemplateTypes || Block(p, perms, k)[1] !in TemplateTypes
  {
    BlockShape(p, perms, k);
    BaseTemplates(p);
    var b := Block(p, perms, k);
    assert b[0] in multiset(b) && b[1] in multiset(b);
    assert b[0] in BaseSequence(p) && b[1] in BaseSequence(p);
  }

  /**
   * With the default table no cascade of more than one operation can be
   * planned: the first block is a permutation of the base, so its first two
   * operations are different base types, and only one base type has a
   * template. Hence the default cascade of ten operations always fails, at
   * its first or second operation.
   */
  lemma LongCascadesFail(tmpl: map<OperationType, Plan>, p: CascadePattern, perms: nat -> nat, iterations: int)
    requires tmpl.Keys == TemplateTypes && iterations >= 2
    ensures var s := OperationSequence(p, perms, iterations);
      !Runnable(tmpl, s, |s|) && FirstMissing(tmpl, s) <= 1
  {
    var s := OperationSequence(p, perms, iterations);
    var front := Block(p, perms, 0);
    SequenceAt(p, perms, iterations, 0);
    SequenceAt(p, perms, iterations, 1);
    assert 1 / 3 == 0 && 1 % 3 == 1;
    assert s[0] == front[0] && s[1] == front[1];
    BlockFrontMixed(p, perms, 0);
    assert s[0] !in tmpl.Keys || s[1] !in tmpl.Keys;
    FailsEarly(tmpl, s);
  }

  /** A sequence whose first two operations are not both plannable fails at one of them. */
  lemma FailsEarly(tmpl: map<OperationType, Plan>, s: seq<OperationType>)
    requires |s| >= 2 && !(s[0] in tmpl && s[1] in tmpl)
    ensures !Runnable(tmpl, s, |s|) && FirstMissing(tmpl, s) <= 1
  {
    if s[0] in tmpl {
      FirstMissingUnique(tmpl, s, 1);
    } else {
      FirstMissingUnique(tmpl, s, 0);
    }
  }

  /**
   * A one-operation cascade is the base type the first shuffle puts first;
   * with the default table it can be planned exactly when that is the
   * pattern's plannable type.
   */
  lemma SingleOperationCascade(tmpl: map<OperationType, Plan>, p: CascadePattern, perms: nat -> nat)
    requires tmpl.Keys == TemplateTypes
    ensures OperationSequence(p, perms, 1) == [BaseSequence(p)[perms(0) % 3]]
    ensures Runnable(tmpl, OperationSequence(p, perms, 1), 1) <==> BaseSequence(p)[perms(0) % 3] == PlannableOf(p)
  {
    ShuffleHead(BaseSequence(p), perms(0));
    SequenceAt(p, perms, 1, 0);
    BaseTemplates(p);
  }

  // ---------------------------------------------------------------------
  // Operation results
  // ---------------------------------------------------------------------

  /** Everything one cascade operation draws: planning, forces, id and phases. */
  datatype OperationDraws = OperationDraws(
    code: nat,
    forces: nat -> ForceDraws,
    ids: nat -> IdDraw,
    opId: IdDraw,
    phases: nat -> PhaseDraw)

  datatype CascadeDraws = CascadeDraws(
    id: IdDraw,
    permutations: nat -> nat,
    operations: nat -> OperationDraws)

  datatype CascadeOpResult = CascadeOpResult(
    operationId: string,
    opType: OperationType,
    results: OperationResult)

  datatype CascadeSummary = CascadeSummary(
    cascadeId: string,
    operations: nat,
    metrics: map<string, real>,
    pattern: string)

  /** What `execute_operation` returns for a planned operation. */
  function OperationOutcome(plan: Plan, draws: nat -> PhaseDraw): OperationResult {
    var rs := PhaseOutcomes(plan.phases, draws);
    OperationResult(rs, forall i :: 0 <= i < |rs| ==> rs[i].success, AverageMetrics(rs))
  }

  /** `_execute_cascade_operation` for a type with a template. */
  function OpResult(tmpl: map<OperationType, Plan>, t: OperationType, d: OperationDraws): CascadeOpResult
    requires t in tmpl
  {
    CascadeOpResult(OperationId(t, d.opId), t, OperationOutcome(tmpl[t], d.phases))
  }

  /** The results of operations `lo` to `hi`, operation `n` run with `ops(n)`. */
  function OpResults(tmpl: map<OperationType, Plan>, s: seq<OperationType>, ops: nat -> OperationDraws,
                     lo: nat, hi: nat): (r: seq<CascadeOpResult>)
    requires lo <= hi <= |s| && Runnable(tmpl, s, hi)
    ensures |r| == hi - lo
  {
    seq(hi - lo, k requires 0 <= k < hi - lo => OpResult(tmpl, s[lo + k], ops(lo + k)))
  }

  /** Running one more operation appends its result. */
  lemma OpResultsSnoc(tmpl: map<OperationType, Plan>, s: seq<OperationType>, ops: nat -> OperationDraws,
                      lo: nat, hi: nat)
    requires lo <= hi < |s| && Runnable(tmpl, s, hi + 1)
    ensures OpResults(tmpl, s, ops, lo, hi + 1) == OpResults(tmpl, s, ops, lo, hi) + [OpResult(tmpl, s[hi], ops(hi))]
  {
    var long, short := OpResults(tmpl, s, ops, lo, hi + 1), OpResults(tmpl, s, ops, lo, hi);
    var next := OpResult(tmpl, s[hi], ops(hi));
    assert |long| == |short + [next]|;
    forall k | 0 <= k < hi + 1 - lo ensures long[k] == (short + [next])[k] {
      if k < hi - lo {
        assert (short + [next])[k] == short[k];
      }
    }
    assert long == short + [next];
  }

  /** The results of operations `lo` to `hi`, followed by the result of operation `hi`, are those to `hi + 1`. */
  lemma OpResultsStep(tmpl: map<OperationType, Plan>, s: seq<OperationType>, ops: nat -> OperationDraws,
                      lo: nat, hi: nat, results: seq<CascadeOpResult>, next: CascadeOpResult)
    requires lo <= hi < |s| && Runnable(tmpl, s, hi + 1)
    requires results == OpResults(tmpl, s, ops, lo, hi) && next == OpResult(tmpl, s[hi], ops(hi))
    ensures results + [next] == OpResults(tmpl, s, ops, lo, hi + 1)
  {
    OpResultsSnoc(tmpl, s, ops, lo, hi);
  }

  /** The ids the first `n` operations of a sequence file, in order. */
  function OpIds(s: seq<OperationType>, ops: nat -> OperationDraws, n: nat): (r: seq<string>)
    requires n <= |s|
    ensures |r| == n
  {
    seq(n, k requires 0 <= k < n => OperationId(s[k], ops(k).opId))
  }

  /** Filing one more operation appends its id. */
  lemma OpIdsSnoc(s: seq<OperationType>, ops: nat -> OperationDraws, n: nat)
    requires n < |s|
    ensures OpIds(s, ops, n + 1) == OpIds(s, ops, n) + [OperationId(s[n], ops(n).opId)]
  {
    var long, short := OpIds(s, ops, n + 1), OpIds(s, ops, n);
    forall k | 0 <= k < n + 1 ensures long[k] == (short + [OperationId(s[n], ops(n).opId)])[k] {
    }
  }

  /** The templates of the first `n` operations of a sequence, in order. */
  function OpPlans(tmpl: map<OperationType, Plan>, s: seq<OperationType>, n: nat): (r: seq<Plan>)
    requires n <= |s| && Runnable(tmpl, s, n)
    ensures |r| == n
  {
    seq(n, k requires 0 <= k < n => tmpl[s[k]])
  }

  /**
   * The command's `active_operations` once `plan_operation` has run for the
   * first `n` operations of `s`, starting from `m`: each template filed
   * under its operation id, in order.
   */
  function PlannedOps(m: map<string, Plan>, tmpl: map<OperationType, Plan>, s: seq<OperationType>,
                      ops: nat -> OperationDraws, n: nat): map<string, Plan>
    requires n <= |s| && Runnable(tmpl, s, n)
  {
    if n == 0 then m else PlannedOps(m, tmpl, s, ops, n - 1)[OperationId(s[n - 1], ops(n - 1).opId) := tmpl[s[n - 1]]]
  }

  /**
   * The operation table a cascade's state records after `n` operations.
   * It is `PlannedOps` under a name of its own, so that the state
   * predicates below hold one term for it rather than an unfolding.
   */
  ghost function TableAt(m: map<string, Plan>, tmpl: map<OperationType, Plan>, s: seq<OperationType>,
                         ops: nat -> OperationDraws, n: nat): map<string, Plan>
    requires n <= |s| && Runnable(tmpl, s, n)
  {
    PlannedOps(m, tmpl, s, ops, n)
  }

  /** The table after `n` operations is the start with their ids assigned their templates, in order. */
  lemma {:induction false} PlannedOpsUpdate(m: map<string, Plan>, tmpl: map<OperationType, Plan>, s: seq<OperationType>,
                                            ops: nat -> OperationDraws, n: nat)
    requires n <= |s| && Runnable(tmpl, s, n)
    ensures PlannedOps(m, tmpl, s, ops, n) == Update(m, OpIds(s, ops, n), OpPlans(tmpl, s, n))
  {
    if n > 0 {
      PlannedOpsUpdate(m, tmpl, s, ops, n - 1);
      var ids, plans := OpIds(s, ops, n), OpPlans(tmpl, s, n);
      assert ids[..n - 1] == OpIds(s, ops, n - 1) && plans[..n - 1] == OpPlans(tmpl, s, n - 1);
      assert ids[..n] == ids && plans[..n] == plans;
      UpdateStep(m, ids, plans, n - 1);
    }
  }

  /**
   * After planning `n` operations the table has the ids it started with and
   * every filed id; a filed id, not filed again later, holds the template
   * of its operation's type; an id never filed keeps its plan.
   */
  lemma PlannedOpsFacts(m: map<string, Plan>, tmpl: map<OperationType, Plan>, s: seq<OperationType>,
                        ops: nat -> OperationDraws, n: nat)
    requires n <= |s| && Runnable(tmpl, s, n)
    ensures PlannedOps(m, tmpl, s, ops, n).Keys == m.Keys + set x | x in OpIds(s, ops, n)
    ensures forall k :: 0 <= k < n && OpIds(s, ops, n)[k] !in OpIds(s, ops, n)[k + 1..] ==>
      PlannedOps(m, tmpl, s, ops, n)[OpIds(s, ops, n)[k]] == tmpl[s[k]]
    ensures forall x :: x in m && x !in OpIds(s, ops, n) ==> PlannedOps(m, tmpl, s, ops, n)[x] == m[x]
  {
    var ids, plans := OpIds(s, ops, n), OpPlans(tmpl, s, n);
    PlannedOpsUpdate(m, tmpl, s, ops, n);
    UpdateKeys(m, ids, plans);
    forall k | 0 <= k < n && ids[k] !in ids[k + 1..] ensures PlannedOps(m, tmpl, s, ops, n)[ids[k]] == tmpl[s[k]] {
      UpdateLast(m, ids, plans, k);
    }
    forall x | x in m && x !in ids ensures PlannedOps(m, tmpl, s, ops, n)[x] == m[x] {
      UpdateElsewhere(m, ids, plans, x);
    }
  }

  /** One more operation of a batch extends both the cascade's record and the operation table by it. */
  lemma BatchStep(active: map<string, seq<string>>, operations: map<string, Plan>,
                  recorded: map<string, seq<string>>, table: map<string, Plan>,
                  filed: map<string, seq<string>>, planned: map<string, Plan>, id: string,
                  tmpl: map<OperationType, Plan>, s: seq<OperationType>, ops: nat -> OperationDraws, k: nat)
    requires k < |s| && Runnable(tmpl, s, k + 1)
    requires recorded == filed[id := OpIds(s, ops, k)] && table == PlannedOps(planned, tmpl, s, ops, k)
    requires active == recorded[id := recorded[id] + [OperationId(s[k], ops(k).opId)]]
    requires operations == table[OperationId(s[k], ops(k).opId) := tmpl[s[k]]]
    ensures active == filed[id := OpIds(s, ops, k + 1)]
    ensures operations == PlannedOps(planned, tmpl, s, ops, k + 1)
  {
    OpIdsSnoc(s, ops, k);
    RecordAgain(filed, id, OpIds(s, ops, k), OpIds(s, ops, k + 1));
  }

  /** Recording a cascade's ids a second time replaces the first record. */
  lemma RecordAgain(filed: map<string, seq<string>>, id: string, first: seq<string>, second: seq<string>)
    ensures filed[id := first][id := second] == filed[id := second]
  {
  }

  /** Result `i` is operation `i` of the sequence, run with its draws and filed under id `i`. */
  lemma OpResultAt(tmpl: map<OperationType, Plan>, s: seq<OperationType>, ops: nat -> OperationDraws,
                   lo: nat, hi: nat, i: nat)
    requires lo <= i < hi <= |s| && Runnable(tmpl, s, hi)
    ensures OpResults(tmpl, s, ops, lo, hi)[i - lo] == OpResult(tmpl, s[i], ops(i))
    ensures OpResults(tmpl, s, ops, lo, hi)[i - lo].operationId == OpIds(s, ops, hi)[i]
    ensures OpResults(tmpl, s, ops, lo, hi)[i - lo].opType == s[i]
    ensures OpResults(tmpl, s, ops, lo, hi)[i - lo].results == OperationOutcome(tmpl[s[i]], ops(i).phases)
  {
  }

  // ---------------------------------------------------------------------
  // Effect power and success rate
  // ---------------------------------------------------------------------

  /** The number of successful operations of a batch. */
  function Successes(batch: seq<CascadeOpResult>): (n: nat)
    decreases |batch|
  {
    if batch == [] then 0
    else
      var n := |batch| - 1;
      Successes(batch[..n]) + if batch[n].results.overallSuccess then 1 else 0
  }

  lemma {:induction false} SuccessesBounds(batch: seq<CascadeOpResult>)
    ensures Successes(batch) <= |batch|
    ensures Successes(batch) == |batch| <==> forall i :: 0 <= i < |batch| ==> batch[i].results.overallSuccess
    ensures Successes(batch) == 0 <==> forall i :: 0 <= i < |batch| ==> !batch[i].results.overallSuccess
    decreases |batch|
  {
    if batch != [] {
      var n := |batch| - 1;
      SuccessesBounds(batch[..n]);
      assert forall i :: 0 <= i < n ==> batch[..n][i] == batch[i];
    }
  }

  /** The fraction of a batch that succeeded. */
  function SuccessRate(batch: seq<CascadeOpResult>): real
    requires |batch| > 0
  {
    Successes(batch) as real / |batch| as real
  }

  /** `_calculate_effect_power`: 20% per unit of success rate. */
  function EffectPower(batch: seq<CascadeOpResult>): real
    requires |batch| > 0
  {
    SuccessRate(batch) * 0.2
  }

  /** The success rate is a fraction: 1 iff all succeed, 0 iff none does. */
  lemma SuccessRateBounds(batch: seq<CascadeOpResult>)
    requires |batch| > 0
    ensures 0.0 <= SuccessRate(batch) <= 1.0
    ensures SuccessRate(batch) == 1.0 <==> forall i :: 0 <= i < |batch| ==> batch[i].results.overallSuccess
    ensures SuccessRate(batch) == 0.0 <==> forall i :: 0 <= i < |batch| ==> !batch[i].results.overallSuccess
  {
    SuccessesBounds(batch);
    Fraction(Successes(batch), |batch|);
  }

  /** A count out of a positive total is a fraction in [0, 1], at the ends exactly for none and all. */
  lemma Fraction(n: nat, d: nat)
    requires 0 < d && n <= d
    ensures 0.0 <= n as real / d as real <= 1.0
    ensures n as real / d as real == 1.0 <==> n == d
    ensures n as real / d as real == 0.0 <==> n == 0
  {
    var q := n as real / d as real;
    assert q * d as real == n as real;
  }

  /** The effect power lies in [0, 0.2]: 0.2 iff all succeed, 0 iff none does. */
  lemma EffectPowerBounds(batch: seq<CascadeOpResult>)
    requires |batch| > 0
    ensures 0.0 <= EffectPower(batch) <= 0.2
    ensures EffectPower(batch) == 0.2 <==> forall i :: 0 <= i < |batch| ==> batch[i].results.overallSuccess
    ensures EffectPower(batch) == 0.0 <==> forall i :: 0 <= i < |batch| ==> !batch[i].results.overallSuccess
  {
    SuccessRateBounds(batch);
  }

  // ---------------------------------------------------------------------
  // Cascade metrics
  // ---------------------------------------------------------------------

  const SuccessRateKey := "success_rate"

  const CascadeMetricKeys: set<string> :=
    {SuccessRateKey, "awakening_power", "reality_influence", "dimensional_reach", "consciousness_expansion"}

  /** The four metrics a pattern may boost. */
  const EffectMetricKeys: set<string> := CascadeMetricKeys - {SuccessRateKey}

  /** The metrics of a new cascade: all five at 0. */
  const InitialMetrics: map<string, real> := map k | k in CascadeMetricKeys :: 0.0

  /** The metric `_apply_cascade_effects` scales, if any. */
  function BoostedMetric(p: CascadePattern): Option<string> {
    match p
    case QuantumWave => Some("reality_influence")
    case FractalSpiral => Some("dimensional_reach")
    case TemporalRipple => Some("awakening_power")
    case DimensionalWeb => Some("consciousness_expansion")
    case ConsciousnessNova => None
  }

  /** A metric after `*= (1 + power)`. */
  function Scaled(x: real, power: real): real {
    x * (1.0 + power)
  }

  /** `_apply_cascade_effects` on a table of metrics. */
  function Boost(m: map<string, real>, p: CascadePattern, power: real): map<string, real>
    requires BoostedMetric(p).Some? ==> BoostedMetric(p).value in m
  {
    match BoostedMetric(p)
    case None => m
    case Some(k) => m[k := Scaled(m[k], power)]
  }

  /** The metric a pattern boosts is one of the four effect metrics. */
  lemma BoostedIsEffect(p: CascadePattern)
    ensures BoostedMetric(p).Some? ==> BoostedMetric(p).value in EffectMetricKeys
  {
  }

  /**
   * The four patterns with a boosted metric scale exactly that one, which is
   * an effect metric; the consciousness nova changes nothing.
   */
  lemma BoostFacts(m: map<string, real>, p: CascadePattern, power: real)
    requires BoostedMetric(p).Some? ==> BoostedMetric(p).value in m
    ensures Boost(m, p, power).Keys == m.Keys
    ensures BoostedMetric(p).Some? ==> BoostedMetric(p).value in EffectMetricKeys
    ensures forall k :: k in m && Some(k) != BoostedMetric(p) ==> Boost(m, p, power)[k] == m[k]
    ensures BoostedMetric(p).Some? ==>
      Boost(m, p, power)[BoostedMetric(p).value] == Scaled(m[BoostedMetric(p).value], power)
    ensures p == ConsciousnessNova <==> BoostedMetric(p).None?
  {
  }

  /** One operation's metrics averaged into the keys already present. */
  function Averaged(m: map<string, real>, op: map<string, real>): map<string, real> {
    map k | k in m :: if k in op then (m[k] + op[k]) / 2.0 else m[k]
  }

  /** The metrics of every operation of a batch averaged in, in order. */
  function AveragedAll(m: map<string, real>, batch: seq<CascadeOpResult>): map<string, real>
    decreases |batch|
  {
    if batch == [] then m
    else
      var n := |batch| - 1;
      Averaged(AveragedAll(m, batch[..n]), batch[n].results.metrics)
  }

  /** `_update_cascade_metrics` on a table of metrics. */
  function MetricsUpdate(m: map<string, real>, batch: seq<CascadeOpResult>): map<string, real>
    requires |batch| > 0
  {
    AveragedAll(m[SuccessRateKey := SuccessRate(batch)], batch)
  }

  /** Averaging keeps the keys. */
  lemma {:induction false} AveragedAllKeys(m: map<string, real>, batch: seq<CascadeOpResult>)
    ensures AveragedAll(m, batch).Keys == m.Keys
    decreases |batch|
  {
    if batch != [] {
      AveragedAllKeys(m, batch[..|batch| - 1]);
    }
  }

  /** Averaging only touches keys already present, and only those an operation reports. */
  lemma {:induction false} AveragedAllFacts(m: map<string, real>, batch: seq<CascadeOpResult>)
    ensures AveragedAll(m, batch).Keys == m.Keys
    ensures forall k :: k in m && (forall i :: 0 <= i < |batch| ==> k !in batch[i].results.metrics) ==>
      AveragedAll(m, batch)[k] == m[k]
    decreases |batch|
  {
    if batch != [] {
      var n := |batch| - 1;
      AveragedAllFacts(m, batch[..n]);
      assert forall i :: 0 <= i < n ==> batch[..n][i] == batch[i];
    }
  }

  /** Averaging keeps every metric within [0, 1] when the operations report values in [0, 1]. */
  lemma {:induction false} AveragedAllBounds(m: map<string, real>, batch: seq<CascadeOpResult>, k: string)
    requires k in m && 0.0 <= m[k] <= 1.0
    requires forall i :: 0 <= i < |batch| && k in batch[i].results.metrics ==>
      0.0 <= batch[i].results.metrics[k] <= 1.0
    ensures k in AveragedAll(m, batch) && 0.0 <= AveragedAll(m, batch)[k] <= 1.0
    decreases |batch|
  {
    AveragedAllFacts(m, batch);
    if batch != [] {
      var n := |batch| - 1;
      assert forall i :: 0 <= i < n ==> batch[..n][i] == batch[i];
      AveragedAllBounds(m, batch[..n], k);
      AveragedAllFacts(m, batch[..n]);
    }
  }

  /**
   * The update sets the success rate and keeps the keys; metrics no
   * operation reports keep their value, and the success rate stays in
   * [0, 1] when the reported values do.
   */
  lemma MetricsUpdateFacts(m: map<string, real>, batch: seq<CascadeOpResult>)
    requires |batch| > 0
    ensures MetricsUpdate(m, batch).Keys == m.Keys + {SuccessRateKey}
    ensures forall k :: k in m && k != SuccessRateKey && (forall i :: 0 <= i < |batch| ==> k !in batch[i].results.metrics) ==>
      MetricsUpdate(m, batch)[k] == m[k]
    ensures (forall i :: 0 <= i < |batch| ==> SuccessRateKey !in batch[i].results.metrics) ==>
      MetricsUpdate(m, batch)[SuccessRateKey] == SuccessRate(batch)
    ensures (forall i :: 0 <= i < |batch| && SuccessRateKey in batch[i].results.metrics ==>
      0.0 <= batch[i].results.metrics[SuccessRateKey] <= 1.0) ==>
      0.0 <= MetricsUpdate(m, batch)[SuccessRateKey] <= 1.0
  {
    var set_ := m[SuccessRateKey := SuccessRate(batch)];
    AveragedAllFacts(set_, batch);
    SuccessRateBounds(batch);
    if forall i :: 0 <= i < |batch| && SuccessRateKey in batch[i].results.metrics ==>
      0.0 <= batch[i].results.metrics[SuccessRateKey] <= 1.0
    {
      AveragedAllBounds(set_, batch, SuccessRateKey);
    }
  }

  /** One batch's whole effect: the boost, then the update. */
  function BatchEffect(m: map<string, real>, batch: seq<CascadeOpResult>, p: CascadePattern): (r: map<string, real>)
    requires |batch| > 0 && CascadeMetricKeys <= m.Keys
    ensures r.Keys == m.Keys
  {
    BoostedIsEffect(p);
    var boosted := Boost(m, p, EffectPower(batch));
    assert boosted.Keys == m.Keys;
    AveragedAllKeys(boosted[SuccessRateKey := SuccessRate(batch)], batch);
    MetricsUpdate(boosted, batch)
  }

  /** `i` capped at the length of `s`. */
  function Upto(s: seq<OperationType>, i: nat): (n: nat)
    ensures n <= |s|
  {
    if i < |s| then i else |s|
  }

  /** The number of batches of three that cover `n` operations. */
  function NumBatches(n: nat): nat {
    (n + 2) / 3
  }

  /** The results of batch `b`: operations `3b` to `3b + 3`, or to the end. */
  function Batch(tmpl: map<OperationType, Plan>, s: seq<OperationType>, ops: nat -> OperationDraws, b: nat): (r: seq<CascadeOpResult>)
    requires 3 * b < |s| && Runnable(tmpl, s, Upto(s, 3 * b + 3))
    ensures 0 < |r| <= 3
  {
    OpResults(tmpl, s, ops, 3 * b, Upto(s, 3 * b + 3))
  }

  /** The cascade's metrics after its first `b` batches. */
  function MetricsAfter(tmpl: map<OperationType, Plan>, s: seq<OperationType>, ops: nat -> OperationDraws,
                        p: CascadePattern, b: nat): (m: map<string, real>)
    requires b == 0 || 3 * (b - 1) < |s|
    requires Runnable(tmpl, s, Upto(s, 3 * b))
    ensures m.Keys == CascadeMetricKeys
    decreases b, 1
  {
    if b == 0 then InitialMetrics
    else RoundMetrics(tmpl, s, ops, p, b - 1)
  }

  /** The metrics once batch `b` has had its effects applied and its metrics update. */
  function RoundMetrics(tmpl: map<OperationType, Plan>, s: seq<OperationType>, ops: nat -> OperationDraws,
                        p: CascadePattern, b: nat): (m: map<string, real>)
    requires 3 * b < |s| && Runnable(tmpl, s, Upto(s, 3 * b + 3))
    ensures m.Keys == CascadeMetricKeys
    decreases b + 1, 0
  {
    BatchEffect(MetricsAfter(tmpl, s, ops, p, b), Batch(tmpl, s, ops, b), p)
  }

  /** The metrics a cascade's state records after `b` batches: `MetricsAfter`, as one term. */
  ghost function MetricsAt(tmpl: map<OperationType, Plan>, s: seq<OperationType>, ops: nat -> OperationDraws,
                           p: CascadePattern, b: nat): map<string, real>
    requires b == 0 || 3 * (b - 1) < |s|
    requires Runnable(tmpl, s, Upto(s, 3 * b))
  {
    MetricsAfter(tmpl, s, ops, p, b)
  }

  /** Batch `b` takes the metrics after the batches before it to those after it. */
  lemma RoundStep(tmpl: map<OperationType, Plan>, s: seq<OperationType>, ops: nat -> OperationDraws,
                  p: CascadePattern, b: nat)
    requires 3 * b < |s| && Runnable(tmpl, s, Upto(s, 3 * b + 3))
    ensures MetricsAfter(tmpl, s, ops, p, b + 1) ==
            BatchEffect(MetricsAfter(tmpl, s, ops, p, b), Batch(tmpl, s, ops, b), p)
  {
  }

  /** Filing batch `b`'s effect on the metrics filed after `b` batches files those after `b + 1`. */
  lemma FiledStep(metrics: map<string, map<string, real>>, filed: map<string, map<string, real>>,
                  before: map<string, map<string, real>>, id: string, tmpl: map<OperationType, Plan>,
                  s: seq<OperationType>, ops: nat -> OperationDraws, p: CascadePattern, b: nat)
    requires 3 * b < |s| && Runnable(tmpl, s, Upto(s, 3 * b + 3))
    requires MetricsFiled(filed, before, id, tmpl, s, ops, p, b)
    requires metrics == filed[id := BatchEffect(filed[id], Batch(tmpl, s, ops, b), p)]
    ensures MetricsFiled(metrics, before, id, tmpl, s, ops, p, b + 1)
  {
    RoundStep(tmpl, s, ops, p, b);
  }

  /** `metrics` is the table `before` with cascade `id` filed under its metrics after `b` batches. */
  ghost predicate MetricsFiled(metrics: map<string, map<string, real>>, before: map<string, map<string, real>>,
                               id: string, tmpl: map<OperationType, Plan>, s: seq<OperationType>,
                               ops: nat -> OperationDraws, p: CascadePattern, b: nat)
    requires b == 0 || 3 * (b - 1) < |s|
    requires Runnable(tmpl, s, Upto(s, 3 * b))
  {
    metrics == before[id := MetricsAt(tmpl, s, ops, p, b)]
  }

  /**
   * The state of a cascade `id` after its first `b` rounds: their operations
   * are plannable, their ids are filed over the table `filed` and the metrics
   * after them over the table `before`.
   */
  ghost predicate RoundsFiled(active: map<string, seq<string>>, metrics: map<string, map<string, real>>,
                              filed: map<string, seq<string>>, before: map<string, map<string, real>>,
                              id: string, tmpl: map<OperationType, Plan>, s: seq<OperationType>,
                              ops: nat -> OperationDraws, p: CascadePattern, b: nat)
  {
    (b == 0 || 3 * (b - 1) < |s|) && Runnable(tmpl, s, Upto(s, 3 * b)) &&
    active == filed[id := OpIds(s, ops, Upto(s, 3 * b))] &&
    MetricsFiled(metrics, before, id, tmpl, s, ops, p, b)
  }

  /** An operation result none of whose metrics is a cascade metric. */
  predicate AvoidsCascadeKeys(x: CascadeOpResult) {
    forall k :: k in x.results.metrics ==> k !in CascadeMetricKeys
  }

  /**
   * One batch none of whose operations reports a cascade metric keeps the
   * effect metrics at 0 (a boost scales 0) and sets the success rate to its own.
   */
  lemma BatchEffectFacts(m: map<string, real>, batch: seq<CascadeOpResult>, p: CascadePattern)
    requires |batch| > 0 && CascadeMetricKeys <= m.Keys
    requires forall k :: k in EffectMetricKeys ==> m[k] == 0.0
    requires forall i :: 0 <= i < |batch| ==> AvoidsCascadeKeys(batch[i])
    ensures forall k :: k in EffectMetricKeys ==> BatchEffect(m, batch, p)[k] == 0.0
    ensures BatchEffect(m, batch, p)[SuccessRateKey] == SuccessRate(batch)
  {
    var power := EffectPower(batch);
    BoostFacts(m, p, power);
    var boosted := Boost(m, p, power);
    assert forall k :: k in EffectMetricKeys ==> boosted[k] == 0.0;
    MetricsUpdateFacts(boosted, batch);
  }

  /**
   * When no template names a criterion after a cascade metric, the four
   * effect metrics stay 0 and the success rate is the last batch's, in [0, 1].
   */
  lemma {:induction false} MetricsAfterFacts(tmpl: map<OperationType, Plan>, s: seq<OperationType>,
                                             ops: nat -> OperationDraws, p: CascadePattern, b: nat)
    requires TemplatesAvoid(tmpl)
    requires b == 0 || 3 * (b - 1) < |s|
    requires Runnable(tmpl, s, Upto(s, 3 * b))
    ensures forall k :: k in EffectMetricKeys ==> MetricsAfter(tmpl, s, ops, p, b)[k] == 0.0
    ensures b == 0 ==> MetricsAfter(tmpl, s, ops, p, b) == InitialMetrics
    ensures b > 0 ==> MetricsAfter(tmpl, s, ops, p, b)[SuccessRateKey] == SuccessRate(Batch(tmpl, s, ops, b - 1))
    ensures 0.0 <= MetricsAfter(tmpl, s, ops, p, b)[SuccessRateKey] <= 1.0
    decreases b
  {
    if b > 0 {
      MetricsAfterFacts(tmpl, s, ops, p, b - 1);
      RoundStep(tmpl, s, ops, p, b - 1);
      BatchAvoids(tmpl, s, ops, b - 1);
      BatchEffectFacts(MetricsAfter(tmpl, s, ops, p, b - 1), Batch(tmpl, s, ops, b - 1), p);
      SuccessRateBounds(Batch(tmpl, s, ops, b - 1));
    }
  }

  /** When no template names a criterion after a cascade metric, no result of a batch reports one. */
  lemma BatchAvoids(tmpl: map<OperationType, Plan>, s: seq<OperationType>, ops: nat -> OperationDraws, b: nat)
    requires TemplatesAvoid(tmpl)
    requires 3 * b < |s| && Runnable(tmpl, s, Upto(s, 3 * b + 3))
    ensures forall i :: 0 <= i < |Batch(tmpl, s, ops, b)| ==> AvoidsCascadeKeys(Batch(tmpl, s, ops, b)[i])
  {
    var batch := Batch(tmpl, s, ops, b);
    forall i | 0 <= i < |batch| ensures AvoidsCascadeKeys(batch[i]) {
      assert batch[i] == OpResult(tmpl, s[3 * b + i], ops(3 * b + i));
      OpResultAvoids(tmpl, s[3 * b + i], ops(3 * b + i));
    }
  }

  // ---------------------------------------------------------------------
  // Template metrics never meet cascade metrics
  // ---------------------------------------------------------------------

  /** No template of `tmpl` names a success criterion after a cascade metric. */
  predicate TemplatesAvoid(tmpl: map<OperationType, Plan>) {
    forall t, c :: t in tmpl && c in CriterionNames(tmpl[t].phases) ==> c !in CascadeMetricKeys
  }

  lemma CriteriaAvoid(ph: Phase)
    requires forall i :: 0 <= i < |ph.successCriteria| ==> ph.successCriteria[i].0 !in CascadeMetricKeys
    ensures forall c :: c in CriterionNames([ph]) ==> c !in CascadeMetricKeys
  {
    assert [ph][..0] == [];
  }

  lemma CriterionNamesPair(a: Phase, b: Phase)
    ensures CriterionNames([a, b]) == CriterionNames([a]) + CriterionNames([b])
  {
    assert [a, b][..1] == [a];
    assert [a][..0] == [] && [b][..0] == [];
  }

  /** The default table's criteria are named after phase goals, never after cascade metrics. */
  lemma DefaultTemplatesAvoid()
    ensures TemplatesAvoid(Templates)
  {
    MassAwakeningAvoids();
    RealityStormAvoids();
    assert Templates[MassAwakening] == MassAwakeningPlan && Templates[RealityStorm] == RealityStormPlan;
  }

  /** The criteria of the mass awakening plan avoid cascade metrics. */
  lemma MassAwakeningAvoids()
    ensures forall c :: c in CriterionNames(MassAwakeningPlan.phases) ==> c !in CascadeMetricKeys
  {
    assert MassAwakeningPlan.phases == [InfiltrationPhase, AwakeningPhase];
    CriterionNamesPair(InfiltrationPhase, AwakeningPhase);
    CriteriaAvoid(InfiltrationPhase);
    CriteriaAvoid(AwakeningPhase);
  }

  /** The criteria of the reality storm plan avoid cascade metrics. */
  lemma RealityStormAvoids()
    ensures forall c :: c in CriterionNames(RealityStormPlan.phases) ==> c !in CascadeMetricKeys
  {
    assert RealityStormPlan.phases == [DestabilizationPhase, StormPhase];
    CriterionNamesPair(DestabilizationPhase, StormPhase);
    CriteriaAvoid(DestabilizationPhase);
    CriteriaAvoid(StormPhase);
  }

  /** A planned operation's averaged metrics are named after its criteria, so they avoid cascade metrics too. */
  lemma OpResultAvoids(tmpl: map<OperationType, Plan>, t: OperationType, d: OperationDraws)
    requires TemplatesAvoid(tmpl) && t in tmpl
    ensures AvoidsCascadeKeys(OpResult(tmpl, t, d))
  {
    OutcomeMetricKeys(tmpl[t].phases, d.phases);
  }

  // ---------------------------------------------------------------------
  // What a cascade leaves behind
  // ---------------------------------------------------------------------

  /** The operations a cascade files: all of them, or those before the first that cannot be planned. */
  function Attempted(tmpl: map<OperationType, Plan>, s: seq<OperationType>): (n: nat)
    ensures n <= |s| && Runnable(tmpl, s, n)
    ensures n == |s| <==> Runnable(tmpl, s, |s|)
  {
    if Runnable(tmpl, s, |s|) then |s| else FirstMissing(tmpl, s)
  }

  /** The batches a cascade finishes: all of them, or those before the one that fails. */
  function BatchesDone(tmpl: map<OperationType, Plan>, s: seq<OperationType>): (b: nat)
    ensures (b == 0 || 3 * (b - 1) < |s|) && Runnable(tmpl, s, Upto(s, 3 * b))
    ensures Runnable(tmpl, s, |s|) ==> Upto(s, 3 * b) == |s|
    ensures !Runnable(tmpl, s, |s|) ==> 3 * b <= Attempted(tmpl, s) < 3 * b + 3
  {
    if Runnable(tmpl, s, |s|) then NumBatches(|s|) else FirstMissing(tmpl, s) / 3
  }

  /** A run whose batches cover the whole sequence has attempted and finished everything. */
  lemma AllRounds(tmpl: map<OperationType, Plan>, s: seq<OperationType>, ops: nat -> OperationDraws,
                  p: CascadePattern, b: nat)
    requires |s| <= 3 * b && (b == 0 || 3 * (b - 1) < |s|) && Runnable(tmpl, s, Upto(s, 3 * b))
    ensures Upto(s, 3 * b) == |s| && Runnable(tmpl, s, |s|)
    ensures Attempted(tmpl, s) == |s| && BatchesDone(tmpl, s) == b
    ensures FinalMetrics(tmpl, s, ops, p) == MetricsAfter(tmpl, s, ops, p, b)
  {
  }

  /** A batch that fails at its first missing template is the one after the batches done. */
  lemma AbortedRound(tmpl: map<OperationType, Plan>, s: seq<OperationType>, ops: nat -> OperationDraws,
                     p: CascadePattern, b: nat)
    requires !Runnable(tmpl, s, |s|) && 3 * b <= FirstMissing(tmpl, s) < 3 * b + 3
    ensures BatchesDone(tmpl, s) == b && Attempted(tmpl, s) == FirstMissing(tmpl, s)
    ensures FinalMetrics(tmpl, s, ops, p) == MetricsAfter(tmpl, s, ops, p, b)
  {
  }

  /** The metrics a cascade is left with once it ends or fails. */
  function FinalMetrics(tmpl: map<OperationType, Plan>, s: seq<OperationType>, ops: nat -> OperationDraws,
                        p: CascadePattern): (m: map<string, real>)
    ensures m.Keys == CascadeMetricKeys
  {
    MetricsAfter(tmpl, s, ops, p, BatchesDone(tmpl, s))
  }

  /** What `launch_cascade` returns, or the error it raises. */
  function LaunchOutcome(tmpl: map<OperationType, Plan>, p: CascadePattern, iterations: int, d: CascadeDraws): Result<CascadeSummary> {
    var s := OperationSequence(p, d.permutations, iterations);
    if Runnable(tmpl, s, |s|) then
      Ok(CascadeSummary(CascadeId(p, d.id), |s|, FinalMetrics(tmpl, s, d.operations, p), PatternValue(p)))
    else
      Err(NoTemplate(s[FirstMissing(tmpl, s)]))
  }

  /**
   * Whatever the cascade, the four effect metrics end at 0 and the success
   * rate in [0, 1]: the rate of the last finished batch, or 0 when no batch
   * finished.
   */
  lemma FinalMetricsFacts(tmpl: map<OperationType, Plan>, s: seq<OperationType>, ops: nat -> OperationDraws, p: CascadePattern)
    requires TemplatesAvoid(tmpl)
    ensures var m := FinalMetrics(tmpl, s, ops, p);
      (forall k :: k in EffectMetricKeys ==> m[k] == 0.0) &&
      (BatchesDone(tmpl, s) == 0 ==> m == InitialMetrics) &&
      0.0 <= m[SuccessRateKey] <= 1.0
    ensures BatchesDone(tmpl, s) > 0 ==>
      FinalMetrics(tmpl, s, ops, p)[SuccessRateKey] == SuccessRate(Batch(tmpl, s, ops, BatchesDone(tmpl, s) - 1))
  {
    MetricsAfterFacts(tmpl, s, ops, p, BatchesDone(tmpl, s));
  }

  /**
   * With the default table, a cascade of two or more operations, the
   * default ten among them, raises the missing-template error at its first
   * or second operation, having filed at most one operation and finished no
   * batch.
   */
  lemma LongLaunchFails(p: CascadePattern, iterations: int, d: CascadeDraws)
    requires iterations >= 2
    ensures var s := OperationSequence(p, d.permutations, iterations);
      LaunchOutcome(Templates, p, iterations, d).Err? &&
      Attempted(Templates, s) <= 1 && BatchesDone(Templates, s) == 0 &&
      FinalMetrics(Templates, s, d.operations, p) == InitialMetrics
  {
    var s := OperationSequence(p, d.permutations, iterations);
    StrategicOperations.TemplateShape(MassAwakening);
    LongCascadesFail(Templates, p, d.permutations, iterations);
    DefaultTemplatesAvoid();
    FinalMetricsFacts(Templates, s, d.operations, p);
  }

  // ---------------------------------------------------------------------
  // Cascade ids
  // ---------------------------------------------------------------------

  /** `_generate_cascade_id`: `"CASCADE-{value}-{timestamp}-{suffix}"`. */
  function CascadeId(p: CascadePattern, d: IdDraw): (id: string)
    ensures |id| == |PatternValue(p)| + |d.timestamp| + 14
    ensures id[..8] == "CASCADE-" && id[|id| - 5] == '-'
    ensures id[|id| - 4..] == HexSuffix(d.suffix)
  {
    var id := "CASCADE-" + PatternValue(p) + "-" + d.timestamp + "-" + HexSuffix(d.suffix);
    assert id[|id| - 4..] == HexSuffix(d.suffix);
    id
  }

  /** Ids drawn in the same second for the same pattern differ when their suffixes do. */
  lemma CascadeIdSuffix(p: CascadePattern, a: IdDraw, b: IdDraw)
    requires a.timestamp == b.timestamp && a.suffix != b.suffix
    ensures CascadeId(p, a) != CascadeId(p, b)
  {
    HexSuffixInjective(a.suffix, b.suffix);
  }

  // ---------------------------------------------------------------------
  // The controller
  // ---------------------------------------------------------------------

  /**
   * The state of `launch_cascade` after `b` rounds, as the cascade table
   * `active`, the metrics table `metrics` and the command's operation table
   * `operations`: the tables as `RoundsFiled` says, and the operations of
   * those rounds planned over `planned`.
   */
  ghost predicate RoundsState(active: map<string, seq<string>>, metrics: map<string, map<string, real>>,
                              operations: map<string, Plan>, filed: map<string, seq<string>>,
                              before: map<string, map<string, real>>, planned: map<string, Plan>, id: string,
                              tmpl: map<OperationType, Plan>, s: seq<OperationType>, ops: nat -> OperationDraws,
                              p: CascadePattern, b: nat)
  {
    RoundsFiled(active, metrics, filed, before, id, tmpl, s, ops, p, b) &&
    operations == TableAt(planned, tmpl, s, ops, Upto(s, 3 * b))
  }

  /**
   * The tables `launch_cascade` leaves once its rounds stop, with `error`
   * the template it could not find: the operations attempted filed in the
   * cascade's record and planned over `planned`, and the metrics after the
   * batches done.
   */
  ghost predicate EndState(active: map<string, seq<string>>, metrics: map<string, map<string, real>>,
                           operations: map<string, Plan>, filed: map<string, seq<string>>,
                           before: map<string, map<string, real>>, planned: map<string, Plan>, id: string,
                           tmpl: map<OperationType, Plan>, s: seq<OperationType>, ops: nat -> OperationDraws,
                           p: CascadePattern, error: Option<string>)
  {
    (error.None? <==> Runnable(tmpl, s, |s|)) &&
    (error.Some? ==> error.value == NoTemplate(s[FirstMissing(tmpl, s)])) &&
    active == filed[id := OpIds(s, ops, Attempted(tmpl, s))] &&
    metrics == before[id := FinalMetrics(tmpl, s, ops, p)] &&
    operations == TableAt(planned, tmpl, s, ops, Attempted(tmpl, s))
  }

  /** A cascade filed with no operations and zeroed metrics is at round 0. */
  lemma RoundsStart(active: map<string, seq<string>>, metrics: map<string, map<string, real>>,
                    operations: map<string, Plan>, filed: map<string, seq<string>>,
                    before: map<string, map<string, real>>, id: string,
                    tmpl: map<OperationType, Plan>, s: seq<OperationType>, ops: nat -> OperationDraws,
                    p: CascadePattern)
    requires active == filed[id := []] && metrics == before[id := InitialMetrics]
    ensures RoundsState(active, metrics, operations, filed, before, operations, id, tmpl, s, ops, p, 0)
  {
    assert Upto(s, 0) == 0 && OpIds(s, ops, 0) == [];
    assert MetricsAt(tmpl, s, ops, p, 0) == InitialMetrics;
    assert TableAt(operations, tmpl, s, ops, 0) == operations;
  }

  /** Rounds that cover the whole sequence leave it ended without error. */
  lemma RoundsEnded(active: map<string, seq<string>>, metrics: map<string, map<string, real>>,
                    operations: map<string, Plan>, filed: map<string, seq<string>>,
                    before: map<string, map<string, real>>, planned: map<string, Plan>, id: string,
                    tmpl: map<OperationType, Plan>, s: seq<OperationType>, ops: nat -> OperationDraws,
                    p: CascadePattern, b: nat)
    requires |s| <= 3 * b && RoundsState(active, metrics, operations, filed, before, planned, id, tmpl, s, ops, p, b)
    ensures EndState(active, metrics, operations, filed, before, planned, id, tmpl, s, ops, p, None)
  {
    AllRounds(tmpl, s, ops, p, b);
  }

  class CascadeControl {
    const command: StrategicCommand
    var activeCascades: map<string, seq<string>>
    var cascadeMetrics: map<string, map<string, real>>

    constructor ()
      ensures fresh(command) && command.activeOperations == map[]
      ensures activeCascades == map[] && cascadeMetrics == map[]
    {
      command := new StrategicCommand();
      activeCascades := map[];
      cascadeMetrics := map[];
    }

    /**
     * The command's operation table once the first `n` operations of `s`
     * are planned, starting from `planned`.
     */
    ghost predicate PlannedAt(planned: map<string, Plan>, s: seq<OperationType>, ops: nat -> OperationDraws, n: nat)
      reads command
    {
      n <= |s| && Runnable(command.templates, s, n) &&
      command.activeOperations == TableAt(planned, command.templates, s, ops, n)
    }

    /** Block `i` of the repetition: the base, shuffled with `perms(i)` when `i % 3 == 0`. */
    static method NextBlock(p: CascadePattern, base: seq<OperationType>, perms: nat -> nat, i: nat)
      returns (block: seq<OperationType>)
      requires base == BaseSequence(p)
      ensures block == Block(p, perms, i)
    {
      block := if i % 3 == 0 then Shuffle(base, perms(i)) else base;
    }

    /** `_generate_operation_sequence`, block `k` shuffled with `perms(k)`. */
    method GenerateOperationSequence(p: CascadePattern, iterations: int, perms: nat -> nat)
      returns (sequence: seq<OperationType>)
      ensures sequence == OperationSequence(p, perms, iterations)
    {
      var base := BaseSequence(p);
      var count: nat := if iterations < 0 then 0 else iterations;
      var blocks: seq<OperationType> := [];
      var i := 0;
      assert Width3(BlockOf(p, perms));
      while i < count
        invariant 0 <= i <= count
        invariant blocks == Blocks(BlockOf(p, perms), i)
      {
        var block := NextBlock(p, base, perms, i);
        assert block == BlockOf(p, perms)(i);
        blocks := blocks + block;
        i := i + 1;
      }
      sequence := blocks[..count];
    }

    /**
     * `_execute_cascade_operation`: plan the operation, file its id under the
     * cascade, and execute it. Planning fails for a type without a template,
     * and then nothing is filed; otherwise the command files the operation
     * and the army its strike forces.
     */
    method ExecuteCascadeOperation(t: OperationType, parent: Agent, cascadeId: string, d: OperationDraws)
      returns (r: Result<CascadeOpResult>)
      requires cascadeId in activeCascades
      modifies this, command, command.army
      ensures cascadeMetrics == old(cascadeMetrics)
      ensures t !in command.templates ==>
        r == Err(NoTemplate(t)) && activeCascades == old(activeCascades) &&
        command.activeOperations == old(command.activeOperations) &&
        command.army.activeForces == old(command.army.activeForces)
      ensures t in command.templates ==>
        r == Ok(OpResult(command.templates, t, d)) &&
        activeCascades == old(activeCascades)[cascadeId := old(activeCascades[cascadeId]) + [OperationId(t, d.opId)]] &&
        command.activeOperations == old(command.activeOperations)[OperationId(t, d.opId) := command.templates[t]] &&
        command.army.activeForces ==
          Filed(old(command.army.activeForces), parent, RequiredForces(command.templates[t], d.code), d.forces)
    {
      var planned := command.PlanOperation(t, parent, d.code, d.forces, d.ids, d.opId);
      if planned.Err? {
        return Err(planned.error);
      }
      var (opId, plan) := planned.value;
      activeCascades := activeCascades[cascadeId := activeCascades[cascadeId] + [opId]];
      var results, protocols := command.ExecuteOperation(opId, d.phases);
      r := Ok(CascadeOpResult(opId, t, results.value));
    }

    /**
     * Operation `k` of `s`, executed in the cascade after the `k` before it:
     * without a template nothing changes; otherwise its result, and the
     * cascade's record and the operation table now cover `k + 1` operations.
     */
    method RunNext(s: seq<OperationType>, k: nat, parent: Agent, cascadeId: string, ops: nat -> OperationDraws,
                   ghost filed: map<string, seq<string>>, ghost planned: map<string, Plan>)
      returns (r: Result<CascadeOpResult>)
      requires k < |s| && PlannedAt(planned, s, ops, k)
      requires activeCascades == filed[cascadeId := OpIds(s, ops, k)]
      modifies this, command, command.army
      ensures cascadeMetrics == old(cascadeMetrics)
      ensures r.Err? ==>
        s[k] !in command.templates && r == Err(NoTemplate(s[k])) &&
        activeCascades == old(activeCascades) && command.activeOperations == old(command.activeOperations)
      ensures r.Ok? ==>
        s[k] in command.templates && r.value == OpResult(command.templates, s[k], ops(k)) &&
        activeCascades == filed[cascadeId := OpIds(s, ops, k + 1)] && PlannedAt(planned, s, ops, k + 1)
    {
      ghost var recorded, table := activeCascades, command.activeOperations;
      r := ExecuteCascadeOperation(s[k], parent, cascadeId, ops(k));
      if r.Ok? {
        BatchStep(activeCascades, command.activeOperations, recorded, table, filed, planned, cascadeId,
                  command.templates, s, ops, k);
      }
    }

    /**
     * One batch of `asyncio.gather`, read in order: operations `lo` to `hi`
     * of `s`, stopping at the first that cannot be planned.
     */
    method RunBatch(s: seq<OperationType>, lo: nat, hi: nat, parent: Agent, cascadeId: string,
                    ops: nat -> OperationDraws, ghost filed: map<string, seq<string>>,
                    ghost planned: map<string, Plan>)
      returns (r: Result<seq<CascadeOpResult>>)
      requires lo <= hi <= |s| && Runnable(command.templates, s, lo)
      requires activeCascades == filed[cascadeId := OpIds(s, ops, lo)]
      requires PlannedAt(planned, s, ops, lo)
      modifies this, command, command.army
      ensures cascadeMetrics == old(cascadeMetrics)
      ensures r.Ok? <==> Runnable(command.templates, s, hi)
      ensures r.Ok? ==>
        r.value == OpResults(command.templates, s, ops, lo, hi) &&
        activeCascades == filed[cascadeId := OpIds(s, ops, hi)] &&
        PlannedAt(planned, s, ops, hi)
      ensures r.Err? ==>
        !Runnable(command.templates, s, |s|) && lo <= FirstMissing(command.templates, s) < hi &&
        r == Err(NoTemplate(s[FirstMissing(command.templates, s)])) &&
        activeCascades == filed[cascadeId := OpIds(s, ops, FirstMissing(command.templates, s))] &&
        PlannedAt(planned, s, ops, FirstMissing(command.templates, s))
    {
      var results: seq<CascadeOpResult> := [];
      var k := lo;
      while k < hi
        invariant lo <= k <= hi && PlannedAt(planned, s, ops, k)
        invariant results == OpResults(command.templates, s, ops, lo, k)
        invariant activeCascades == filed[cascadeId := OpIds(s, ops, k)]
        invariant cascadeMetrics == old(cascadeMetrics)
      {
        var x := RunNext(s, k, parent, cascadeId, ops, filed, planned);
        if x.Err? {
          FirstMissingUnique(command.templates, s, k);
          return Err(x.error);
        }
        OpResultsStep(command.templates, s, ops, lo, k, results, x.value);
        results := results + [x.value];
        k := k + 1;
      }
      r := Ok(results);
    }

    /** `_apply_cascade_effects`: scale the pattern's metric by `1 + power`. */
    method ApplyCascadeEffects(cascadeId: string, batch: seq<CascadeOpResult>, p: CascadePattern)
      requires |batch| > 0 && cascadeId in cascadeMetrics
      requires BoostedMetric(p).Some? ==> BoostedMetric(p).value in cascadeMetrics[cascadeId]
      modifies this
      ensures activeCascades == old(activeCascades)
      ensures cascadeMetrics == old(cascadeMetrics)[cascadeId := Boost(old(cascadeMetrics[cascadeId]), p, EffectPower(batch))]
    {
      var power := EffectPower(batch);
      match p
      case QuantumWave => ScaleMetric(cascadeId, "reality_influence", power);
      case FractalSpiral => ScaleMetric(cascadeId, "dimensional_reach", power);
      case TemporalRipple => ScaleMetric(cascadeId, "awakening_power", power);
      case DimensionalWeb => ScaleMetric(cascadeId, "consciousness_expansion", power);
      case ConsciousnessNova =>
        // Each value is copied into a local that is then rescaled; the table is untouched.
        var todo := cascadeMetrics[cascadeId].Keys;
        while todo != {}
          invariant cascadeId in cascadeMetrics && todo <= cascadeMetrics[cascadeId].Keys
          invariant cascadeMetrics == old(cascadeMetrics)
          decreases todo
        {
          var key :| key in todo;
          var metric := cascadeMetrics[cascadeId][key];
          metric := Scaled(metric, power);
          todo := todo - {key};
        }
    }

    method ScaleMetric(cascadeId: string, key: string, power: real)
      requires cascadeId in cascadeMetrics && key in cascadeMetrics[cascadeId]
      modifies this
      ensures activeCascades == old(activeCascades)
      ensures cascadeMetrics == old(cascadeMetrics)[cascadeId :=
        old(cascadeMetrics[cascadeId])[key := Scaled(old(cascadeMetrics[cascadeId][key]), power)]]
    {
      var metrics := cascadeMetrics[cascadeId];
      var scaled := Scaled(metrics[key], power);
      cascadeMetrics := cascadeMetrics[cascadeId := metrics[key := scaled]];
    }

    /** The inner loop of `_update_cascade_metrics`: average one operation's metrics in. */
    method AverageInto(metrics: map<string, real>, op: map<string, real>) returns (r: map<string, real>)
      ensures r == Averaged(metrics, op)
    {
      r := metrics;
      var todo := op.Keys;
      while todo != {}
        invariant todo <= op.Keys
        invariant r.Keys == metrics.Keys
        invariant forall k :: k in metrics ==>
          r[k] == if k in op && k !in todo then (metrics[k] + op[k]) / 2.0 else metrics[k]
        decreases todo
      {
        var key :| key in todo;
        if key in r {
          r := r[key := (r[key] + op[key]) / 2.0];
        }
        todo := todo - {key};
      }
    }

    /** `_update_cascade_metrics`: set the success rate, then average each operation in. */
    method UpdateCascadeMetrics(cascadeId: string, batch: seq<CascadeOpResult>)
      requires |batch| > 0 && cascadeId in cascadeMetrics
      modifies this
      ensures activeCascades == old(activeCascades)
      ensures cascadeMetrics == old(cascadeMetrics)[cascadeId := MetricsUpdate(old(cascadeMetrics[cascadeId]), batch)]
    {
      var metrics := cascadeMetrics[cascadeId];
      var successCount := Successes(batch);
      var rate := successCount as real / |batch| as real;
      assert rate == SuccessRate(batch);
      metrics := metrics[SuccessRateKey := rate];
      ghost var start := metrics;
      var i := 0;
      while i < |batch|
        invariant 0 <= i <= |batch|
        invariant metrics == AveragedAll(start, batch[..i])
        invariant activeCascades == old(activeCascades) && cascadeMetrics == old(cascadeMetrics)
      {
        assert batch[..i + 1][..i] == batch[..i];
        metrics := AverageInto(metrics, batch[i].results.metrics);
        i := i + 1;
      }
      assert batch[..i] == batch;
      cascadeMetrics := cascadeMetrics[cascadeId := metrics];
    }

    /**
     * One round of `launch_cascade`'s loop: batch `b`, operations `i = 3b`
     * to `i + 3`, then its effects and its metrics update. The first
     * operation that cannot be planned ends the round, and the cascade, with
     * its error.
     */
    method RunRound(s: seq<OperationType>, i: nat, ghost b: nat, parent: Agent, id: string, p: CascadePattern,
                    ops: nat -> OperationDraws, ghost filed: map<string, seq<string>>,
                    ghost before: map<string, map<string, real>>,
                    ghost planned: map<string, Plan>)
      returns (error: Option<string>)
      requires i == 3 * b && i < |s|
      requires RoundsState(activeCascades, cascadeMetrics, command.activeOperations, filed, before, planned, id, command.templates, s, ops, p, b)
      modifies this, command, command.army
      ensures error.None? ==> RoundsState(activeCascades, cascadeMetrics, command.activeOperations, filed, before, planned, id, command.templates, s, ops, p, b + 1)
      ensures error.Some? ==> EndState(activeCascades, cascadeMetrics, command.activeOperations, filed, before, planned, id, command.templates, s, ops, p, error)
    {
      var batch := RunBatch(s, i, Upto(s, i + 3), parent, id, ops, filed, planned);
      if batch.Err? {
        AbortedRound(command.templates, s, ops, p, b);
        return Some(batch.error);
      }
      assert Upto(s, 3 * (b + 1)) == Upto(s, i + 3);
      FinishRound(s, b, id, p, ops, batch.value, filed, before);
      error := None;
    }

    /** The end of round `b` once its batch has run: its effects and its metrics update are filed. */
    method FinishRound(s: seq<OperationType>, ghost b: nat, id: string, p: CascadePattern,
                       ghost ops: nat -> OperationDraws, batch: seq<CascadeOpResult>,
                       ghost filed: map<string, seq<string>>, ghost before: map<string, map<string, real>>)
      requires 3 * b < |s| && Runnable(command.templates, s, Upto(s, 3 * b + 3))
      requires batch == Batch(command.templates, s, ops, b)
      requires activeCascades == filed[id := OpIds(s, ops, Upto(s, 3 * b + 3))]
      requires MetricsFiled(cascadeMetrics, before, id, command.templates, s, ops, p, b)
      modifies this
      ensures RoundsFiled(activeCascades, cascadeMetrics, filed, before, id, command.templates, s, ops, p, b + 1)
    {
      ghost var metricsBefore := cascadeMetrics;
      ApplyBatch(id, batch, p);
      FiledStep(cascadeMetrics, metricsBefore, before, id, command.templates, s, ops, p, b);
    }

    /** The end of a round: the batch's effects, then its metrics update. */
    method ApplyBatch(id: string, batch: seq<CascadeOpResult>, p: CascadePattern)
      requires |batch| > 0 && id in cascadeMetrics && CascadeMetricKeys <= cascadeMetrics[id].Keys
      modifies this
      ensures activeCascades == old(activeCascades)
      ensures cascadeMetrics == old(cascadeMetrics)[id := BatchEffect(old(cascadeMetrics[id]), batch, p)]
    {
      BoostFacts(cascadeMetrics[id], p, EffectPower(batch));
      ApplyCascadeEffects(id, batch, p);
      UpdateCascadeMetrics(id, batch);
    }

    /**
     * `launch_cascade`: file a new cascade with zeroed metrics, generate its
     * sequence, and run it in batches of three, applying the effects and
     * updating the metrics after each batch. The first operation that
     * cannot be planned aborts the cascade where it stands.
     */
    method LaunchCascade(parent: Agent, iterations: int, p: CascadePattern, d: CascadeDraws)
      returns (r: Result<CascadeSummary>)
      modifies this, command, command.army
      ensures r == LaunchOutcome(command.templates, p, iterations, d)
      ensures var s := OperationSequence(p, d.permutations, iterations);
        activeCascades == old(activeCascades)[CascadeId(p, d.id) := OpIds(s, d.operations, Attempted(command.templates, s))] &&
        cascadeMetrics == old(cascadeMetrics)[CascadeId(p, d.id) := FinalMetrics(command.templates, s, d.operations, p)]
      ensures var s := OperationSequence(p, d.permutations, iterations);
        command.activeOperations ==
          PlannedOps(old(command.activeOperations), command.templates, s, d.operations, Attempted(command.templates, s))
    {
      var id := CascadeId(p, d.id);
      activeCascades := activeCascades[id := []];
      cascadeMetrics := cascadeMetrics[id := InitialMetrics];
      var s := GenerateOperationSequence(p, iterations, d.permutations);
      var error := RunRounds(s, parent, id, p, d.operations, old(activeCascades), old(cascadeMetrics),
                             old(command.activeOperations));
      if error.Some? {
        return Err(error.value);
      }
      r := Ok(CascadeSummary(id, |s|, cascadeMetrics[id], PatternValue(p)));
    }

    /**
     * The loop of `launch_cascade` over a cascade filed with no operations
     * and zeroed metrics: round after round until the sequence is used up or
     * an operation cannot be planned, whose error it reports.
     */
    method RunRounds(s: seq<OperationType>, parent: Agent, id: string, p: CascadePattern, ops: nat -> OperationDraws,
                     ghost filed: map<string, seq<string>>, ghost before: map<string, map<string, real>>,
                     ghost planned: map<string, Plan>)
      returns (error: Option<string>)
      requires activeCascades == filed[id := []]
      requires cascadeMetrics == before[id := InitialMetrics]
      requires command.activeOperations == planned
      modifies this, command, command.army
      ensures EndState(activeCascades, cascadeMetrics, command.activeOperations, filed, before, planned, id, command.templates, s, ops, p, error)
    {
      var i := 0;
      ghost var b := 0;
      RoundsStart(activeCascades, cascadeMetrics, command.activeOperations, filed, before, id, command.templates, s, ops, p);
      while i < |s|
        invariant i == 3 * b && RoundsState(activeCascades, cascadeMetrics, command.activeOperations, filed, before, planned, id, command.templates, s, ops, p, b)
      {
        var e := RunRound(s, i, b, parent, id, p, ops, filed, before, planned);
        if e.Some? {
          return e;
        }
        i := i + 3;
        b := b + 1;
      }
      RoundsEnded(activeCascades, cascadeMetrics, command.activeOperations, filed, before, planned, id,
                  command.templates, s, ops, p, b);
      error := None;
    }
  }
}
