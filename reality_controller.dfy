/**
 * Reality-as-code: manifests are applied to a controller that keeps the
 * table of applied manifests, the current manifest and an undo history;
 * a commit store saves manifests under generated hashes and checks them out
 * again; a pipeline commits and checks out its stages in order and stops
 * at the first stage that fails.
 */
module RealityController {
  import opened Wrappers
  import opened Oracles

  datatype RealityState = Quantum | Classical | Superposed | Entangled | Transcendent

  /** The enum's `value` strings. */
  function StateValue(s: RealityState): string {
    match s
    case Quantum => "quantum"
    case Classical => "classical"
    case Superposed => "superposed"
    case Entangled => "entangled"
    case Transcendent => "transcendent"
  }

  /** Spatial, temporal, consciousness, quantum and reality coordinates. */
  datatype DimensionalCoordinate = DimensionalCoordinate(x: real, y: real, z: real, w: real, q: real)

  /** `to_vector`: the five coordinates in declaration order. */
  function ToVector(c: DimensionalCoordinate): (v: seq<real>)
    ensures |v| == 5
    ensures v[0] == c.x && v[1] == c.y && v[2] == c.z && v[3] == c.w && v[4] == c.q
  {
    [c.x, c.y, c.z, c.w, c.q]
  }

  /**
   * A reality manifest. The Python class is mutable, but none of the
   * modelled operations writes to a manifest, so it is a value here.
   */
  datatype Manifest = Manifest(
    name: string,
    state: RealityState,
    coordinates: DimensionalCoordinate,
    consciousnessLevel: real,
    timelineVersion: string,
    dependencies: seq<string>)

  /** `RealityManifest(name)`. */
  function NewManifest(name: string): (m: Manifest)
    ensures m.name == name && m.state == Classical
    ensures forall i :: 0 <= i < 5 ==> ToVector(m.coordinates)[i] == 0.0
    ensures m.consciousnessLevel == 0.0 && m.timelineVersion == "0.0.1" && m.dependencies == []
  {
    Manifest(name, Classical, DimensionalCoordinate(0.0, 0.0, 0.0, 0.0, 0.0), 0.0, "0.0.1", [])
  }

  /** `_quantum_transition`: the manifest applies when its draw exceeds 0.3. */
  function QuantumTransition(draw: real): bool {
    draw > 0.3
  }

  // ---------------------------------------------------------------------
  // The controller's state as a value, and the effect of each operation
  // ---------------------------------------------------------------------

  datatype ControllerState = ControllerState(
    manifests: map<string, Manifest>,
    current: Option<Manifest>,
    history: seq<Manifest>)

  /** A non-empty undo history implies there is a current manifest. */
  predicate Inv(st: ControllerState) {
    st.history != [] ==> st.current.Some?
  }

  /** The effect of `apply_manifest` whose transition succeeded or not. */
  function ApplyStep(st: ControllerState, m: Manifest, success: bool): ControllerState {
    var history := if st.current.Some? then st.history + [st.current.value] else st.history;
    if success then ControllerState(st.manifests[m.name := m], Some(m), history)
    else ControllerState(st.manifests, st.current, history)
  }

  /** The effect of `rollback`. */
  function RollbackStep(st: ControllerState, success: bool): ControllerState {
    if st.history == [] then st
    else
      var top := st.history[|st.history| - 1];
      ApplyStep(st.(history := st.history[..|st.history| - 1]), top, success)
  }

  /**
   * The previous manifest is pushed whenever there is one, whatever the
   * outcome; success installs the manifest, failure leaves table and current
   * manifest alone.
   */
  lemma ApplyStepEffect(st: ControllerState, m: Manifest, success: bool)
    ensures st.current.Some? ==> ApplyStep(st, m, success).history == st.history + [st.current.value]
    ensures st.current.None? ==> ApplyStep(st, m, success).history == st.history
    ensures success ==> ApplyStep(st, m, success).current == Some(m)
    ensures success ==> ApplyStep(st, m, success).manifests == st.manifests[m.name := m]
    ensures success ==> m.name in ApplyStep(st, m, success).manifests
    ensures !success ==> ApplyStep(st, m, success).current == st.current
    ensures !success ==> ApplyStep(st, m, success).manifests == st.manifests
  {
  }

  lemma ApplyStepKeepsInv(st: ControllerState, m: Manifest, success: bool)
    requires Inv(st)
    ensures Inv(ApplyStep(st, m, success))
  {
  }

  /** Rolling back an empty history changes nothing. */
  lemma RollbackEmpty(st: ControllerState, success: bool)
    requires st.history == []
    ensures RollbackStep(st, success) == st
  {
  }

  /**
   * A rollback pops the top entry and re-applies it; re-applying pushes the
   * current manifest, so the history keeps its length, and on success the
   * popped manifest is current again.
   */
  lemma RollbackKeepsLength(st: ControllerState, success: bool)
    requires Inv(st) && st.history != []
    ensures |RollbackStep(st, success).history| == |st.history|
    ensures RollbackStep(st, success).history ==
      st.history[..|st.history| - 1] + [st.current.value]
    ensures success ==> RollbackStep(st, success).current == Some(st.history[|st.history| - 1])
    ensures Inv(RollbackStep(st, success))
  {
  }

  // ---------------------------------------------------------------------
  // Differences between applied manifests
  // ---------------------------------------------------------------------

  datatype RealityDiff = RealityDiff(coordinateDiff: seq<real>, consciousnessDiff: real, stateTransition: string)

  /** The diff of `b` against `a`: every component is b minus a. */
  function Diff(a: Manifest, b: Manifest): (d: RealityDiff)
    ensures |d.coordinateDiff| == 5
    ensures forall i :: 0 <= i < 5 ==>
      d.coordinateDiff[i] == ToVector(b.coordinates)[i] - ToVector(a.coordinates)[i]
    ensures d.consciousnessDiff == b.consciousnessLevel - a.consciousnessLevel
    ensures d.stateTransition == StateValue(a.state) + " -> " + StateValue(b.state)
  {
    var va, vb := ToVector(a.coordinates), ToVector(b.coordinates);
    RealityDiff(seq(5, i requires 0 <= i < 5 => vb[i] - va[i]),
                b.consciousnessLevel - a.consciousnessLevel,
                StateValue(a.state) + " -> " + StateValue(b.state))
  }

  /** A manifest differs from itself by nothing. */
  lemma DiffSelf(m: Manifest)
    ensures forall i :: 0 <= i < 5 ==> Diff(m, m).coordinateDiff[i] == 0.0
    ensures Diff(m, m).consciousnessDiff == 0.0
  {
  }

  /** Swapping the two manifests negates every numeric difference. */
  lemma DiffAntisymmetric(a: Manifest, b: Manifest)
    ensures forall i :: 0 <= i < 5 ==> Diff(b, a).coordinateDiff[i] == -Diff(a, b).coordinateDiff[i]
    ensures Diff(b, a).consciousnessDiff == -Diff(a, b).consciousnessDiff
  {
  }

  /** Two fresh manifests have no numeric difference and go classical to classical. */
  lemma NewManifestsDiff(a: string, b: string)
    ensures forall i :: 0 <= i < 5 ==> Diff(NewManifest(a), NewManifest(b)).coordinateDiff[i] == 0.0
    ensures Diff(NewManifest(a), NewManifest(b)).consciousnessDiff == 0.0
    ensures Diff(NewManifest(a), NewManifest(b)).stateTransition == "classical -> classical"
  {
  }

  // ---------------------------------------------------------------------
  // The controller
  // ---------------------------------------------------------------------

  class Controller {
    var manifests: map<string, Manifest>
    var current: Option<Manifest>
    var history: seq<Manifest>

    function State(): ControllerState
      reads this
    {
      ControllerState(manifests, current, history)
    }

    constructor ()
      ensures State() == ControllerState(map[], None, [])
      ensures Inv(State())
    {
      manifests := map[];
      current := None;
      history := [];
    }

    /** `apply_manifest`; `draw` is the manifest's transition draw. */
    method ApplyManifest(m: Manifest, draw: real) returns (success: bool)
      modifies this
      ensures success == QuantumTransition(draw)
      ensures State() == ApplyStep(old(State()), m, success)
    {
      if current.Some? {
        history := history + [current.value];
      }
      success := QuantumTransition(draw);
      if success {
        current := Some(m);
        manifests := manifests[m.name := m];
      }
    }

    /** `rollback`: false on an empty history, otherwise the re-apply's outcome. */
    method Rollback(draw: real) returns (success: bool)
      modifies this
      ensures success == (old(history) != [] && QuantumTransition(draw))
      ensures State() == RollbackStep(old(State()), QuantumTransition(draw))
    {
      if history == [] {
        return false;
      }
      var previous := history[|history| - 1];
      history := history[..|history| - 1];
      success := ApplyManifest(previous, draw);
    }

    /** `get_reality_diff`: an error unless both names are applied manifests. */
    function GetRealityDiff(a: string, b: string): (r: Result<RealityDiff>)
      reads this
      ensures r.Ok? <==> a in manifests && b in manifests
      ensures r.Ok? ==> r.value == Diff(manifests[a], manifests[b])
      ensures r.Err? ==> r.error == "Invalid manifest names"
    {
      if a in manifests && b in manifests then Ok(Diff(manifests[a], manifests[b]))
      else Err("Invalid manifest names")
    }
  }

  // ---------------------------------------------------------------------
  // The commit store
  // ---------------------------------------------------------------------

  /**
   * `hex(n)` of the value `hash(...)` returned, with Python's sign
   * convention: "0x1f", "-0x1f".
   */
  function QuantumHash(n: int): (h: string)
    ensures |h| >= 3
  {
    if n < 0 then "-0x" + HexDigits(-n) else "0x" + HexDigits(n)
  }

  /** Different hash values give different commit hashes. */
  lemma QuantumHashInjective(m: int, n: int)
    ensures QuantumHash(m) == QuantumHash(n) ==> m == n
  {
    if QuantumHash(m) == QuantumHash(n) {
      HashDigits(m);
      HashDigits(n);
      var a: nat := if m < 0 then -m else m;
      var b: nat := if n < 0 then -n else n;
      assert (m < 0) == (n < 0);
      assert HexDigits(a) == HexDigits(b);
      ParseHexDigits(a);
      ParseHexDigits(b);
    }
  }

  /** A commit hash is a sign, then "0x", then the hex digits of the magnitude. */
  lemma HashDigits(n: int)
    ensures n < 0 ==> QuantumHash(n)[0] == '-' && QuantumHash(n)[3..] == HexDigits(-n)
    ensures n >= 0 ==> QuantumHash(n)[0] == '0' && QuantumHash(n)[2..] == HexDigits(n)
  {
    if n < 0 {
      DropPrefix("-0x", HexDigits(-n));
    } else {
      DropPrefix("0x", HexDigits(n));
    }
  }

  lemma DropPrefix(a: string, b: string)
    ensures (a + b)[|a|..] == b
  {
  }

  class QuantumGitOps {
    const controller: Controller
    var realityRepo: map<string, Manifest>
    var currentBranch: string

    constructor ()
      ensures fresh(controller)
      ensures controller.State() == ControllerState(map[], None, []) && Inv(controller.State())
      ensures realityRepo == map[] && currentBranch == "main"
    {
      controller := new Controller();
      realityRepo := map[];
      currentBranch := "main";
    }

    /** `commit_reality`; `hashValue` stands for the value of `hash(...)`. */
    method CommitReality(m: Manifest, hashValue: int) returns (commitHash: string)
      modifies this
      ensures commitHash == QuantumHash(hashValue)
      ensures realityRepo == old(realityRepo)[commitHash := m]
      ensures currentBranch == old(currentBranch)
    {
      commitHash := QuantumHash(hashValue);
      realityRepo := realityRepo[commitHash := m];
    }

    /** `checkout_reality`: an unknown hash fails without touching the controller. */
    method CheckoutReality(commitHash: string, draw: real) returns (success: bool)
      modifies controller
      ensures commitHash !in realityRepo ==> !success && controller.State() == old(controller.State())
      ensures commitHash in realityRepo ==>
        success == QuantumTransition(draw) &&
        controller.State() == ApplyStep(old(controller.State()), realityRepo[commitHash], success)
    {
      if commitHash !in realityRepo {
        return false;
      }
      success := controller.ApplyManifest(realityRepo[commitHash], draw);
    }
  }

  // ---------------------------------------------------------------------
  // The pipeline
  // ---------------------------------------------------------------------

  /** The commit store, the controller and the verdict after a pipeline run. */
  datatype PipelineOutcome = PipelineOutcome(repo: map<string, Manifest>, controller: ControllerState, ok: bool)

  /**
   * Running the stages from index `i` on: stage i is committed under
   * `QuantumHash(hashes(i))`, checked out (which finds it, having just been
   * committed) and applied with draw `draws(i)`; the first failure ends the run.
   */
  function RunFrom(repo: map<string, Manifest>, st: ControllerState, stages: seq<Manifest>,
                   hashes: nat -> int, draws: nat -> real, i: nat): PipelineOutcome
    decreases |stages| - i
  {
    if i >= |stages| then PipelineOutcome(repo, st, true)
    else
      var repo' := repo[QuantumHash(hashes(i)) := stages[i]];
      var success := QuantumTransition(draws(i));
      var st' := ApplyStep(st, stages[i], success);
      if !success then PipelineOutcome(repo', st', false)
      else RunFrom(repo', st', stages, hashes, draws, i + 1)
  }

  /** The run succeeds exactly when every remaining stage's transition does. */
  lemma {:induction false} RunFromOk(repo: map<string, Manifest>, st: ControllerState, stages: seq<Manifest>,
                                     hashes: nat -> int, draws: nat -> real, i: nat)
    ensures RunFrom(repo, st, stages, hashes, draws, i).ok <==>
      forall k :: i <= k < |stages| ==> QuantumTransition(draws(k))
    decreases |stages| - i
  {
    if i < |stages| && QuantumTransition(draws(i)) {
      var repo' := repo[QuantumHash(hashes(i)) := stages[i]];
      RunFromOk(repo', ApplyStep(st, stages[i], true), stages, hashes, draws, i + 1);
    }
  }

  /** A run keeps the controller invariant. */
  lemma {:induction false} RunFromKeepsInv(repo: map<string, Manifest>, st: ControllerState, stages: seq<Manifest>,
                                           hashes: nat -> int, draws: nat -> real, i: nat)
    requires Inv(st)
    ensures Inv(RunFrom(repo, st, stages, hashes, draws, i).controller)
    decreases |stages| - i
  {
    if i < |stages| {
      var success := QuantumTransition(draws(i));
      ApplyStepKeepsInv(st, stages[i], success);
      if success {
        RunFromOk(repo, st, stages, hashes, draws, i);
        var repo' := repo[QuantumHash(hashes(i)) := stages[i]];
        RunFromKeepsInv(repo', ApplyStep(st, stages[i], true), stages, hashes, draws, i + 1);
      }
    }
  }

  /**
   * A successful run over at least one stage leaves the last stage current,
   * every stage committed and every stage's name in the manifest table.
   */
  lemma {:induction false} RunFromSuccess(repo: map<string, Manifest>, st: ControllerState, stages: seq<Manifest>,
                                          hashes: nat -> int, draws: nat -> real, i: nat)
    requires i < |stages|
    requires RunFrom(repo, st, stages, hashes, draws, i).ok
    ensures RunFrom(repo, st, stages, hashes, draws, i).controller.current == Some(stages[|stages| - 1])
    ensures forall k :: i <= k < |stages| ==>
      QuantumHash(hashes(k)) in RunFrom(repo, st, stages, hashes, draws, i).repo
    ensures forall k :: i <= k < |stages| ==>
      stages[k].name in RunFrom(repo, st, stages, hashes, draws, i).controller.manifests
    decreases |stages| - i
  {
    var repo' := repo[QuantumHash(hashes(i)) := stages[i]];
    var st' := ApplyStep(st, stages[i], true);
    assert RunFrom(repo, st, stages, hashes, draws, i) == RunFrom(repo', st', stages, hashes, draws, i + 1);
    if i + 1 < |stages| {
      RunFromSuccess(repo', st', stages, hashes, draws, i + 1);
    }
    RunFromKeeps(repo', st', stages, hashes, draws, i + 1, QuantumHash(hashes(i)), stages[i].name);
  }

  /**
   * A run whose first failing transition is stage `f` ends there: it fails,
   * and the stage before `f` (or, when `f` is the first stage run, the
   * manifest current at the start) is the current manifest.
   */
  lemma {:induction false} RunFromFailure(repo: map<string, Manifest>, st: ControllerState, stages: seq<Manifest>,
                                          hashes: nat -> int, draws: nat -> real, i: nat, f: nat)
    requires i <= f < |stages| && !QuantumTransition(draws(f))
    requires forall k :: i <= k < f ==> QuantumTransition(draws(k))
    ensures !RunFrom(repo, st, stages, hashes, draws, i).ok
    ensures RunFrom(repo, st, stages, hashes, draws, i).controller.current ==
      if f == i then st.current else Some(stages[f - 1])
    decreases |stages| - i
  {
    var repo' := repo[QuantumHash(hashes(i)) := stages[i]];
    if i < f {
      var st' := ApplyStep(st, stages[i], true);
      assert RunFrom(repo, st, stages, hashes, draws, i) == RunFrom(repo', st', stages, hashes, draws, i + 1);
      RunFromFailure(repo', st', stages, hashes, draws, i + 1, f);
      assert st'.current == Some(stages[i]);
    } else {
      assert RunFrom(repo, st, stages, hashes, draws, i) == PipelineOutcome(repo', ApplyStep(st, stages[i], false), false);
    }
  }

  /** A run whose first failing transition is stage `f` has committed every stage up to and including `f`. */
  lemma {:induction false} RunFromFailureCommits(repo: map<string, Manifest>, st: ControllerState,
                                                 stages: seq<Manifest>, hashes: nat -> int, draws: nat -> real,
                                                 i: nat, f: nat)
    requires i <= f < |stages| && !QuantumTransition(draws(f))
    requires forall k :: i <= k < f ==> QuantumTransition(draws(k))
    ensures forall k :: i <= k <= f ==> QuantumHash(hashes(k)) in RunFrom(repo, st, stages, hashes, draws, i).repo
    decreases |stages| - i
  {
    var repo' := repo[QuantumHash(hashes(i)) := stages[i]];
    if i < f {
      var st' := ApplyStep(st, stages[i], true);
      assert RunFrom(repo, st, stages, hashes, draws, i) == RunFrom(repo', st', stages, hashes, draws, i + 1);
      RunFromFailureCommits(repo', st', stages, hashes, draws, i + 1, f);
      RunFromKeeps(repo', st', stages, hashes, draws, i + 1, QuantumHash(hashes(i)), stages[i].name);
    } else {
      assert RunFrom(repo, st, stages, hashes, draws, i) == PipelineOutcome(repo', ApplyStep(st, stages[i], false), false);
    }
  }

  /** Keys of the store and of the manifest table are never removed by a run. */
  lemma {:induction false} RunFromKeeps(repo: map<string, Manifest>, st: ControllerState, stages: seq<Manifest>,
                                        hashes: nat -> int, draws: nat -> real, i: nat, h: string, name: string)
    ensures h in repo ==> h in RunFrom(repo, st, stages, hashes, draws, i).repo
    ensures name in st.manifests ==> name in RunFrom(repo, st, stages, hashes, draws, i).controller.manifests
    decreases |stages| - i
  {
    if i < |stages| && QuantumTransition(draws(i)) {
      var repo' := repo[QuantumHash(hashes(i)) := stages[i]];
      RunFromKeeps(repo', ApplyStep(st, stages[i], true), stages, hashes, draws, i + 1, h, name);
    }
  }

  class RealityPipeline {
    const gitops: QuantumGitOps
    var stages: seq<Manifest>

    constructor ()
      ensures fresh(gitops) && fresh(gitops.controller)
      ensures gitops.controller.State() == ControllerState(map[], None, [])
      ensures gitops.realityRepo == map[] && stages == []
    {
      gitops := new QuantumGitOps();
      stages := [];
    }

    method AddStage(m: Manifest)
      modifies this
      ensures stages == old(stages) + [m]
    {
      stages := stages + [m];
    }

    /**
     * `execute_pipeline`: stage i is committed under hash value `hashes(i)`
     * and checked out with draw `draws(i)`; the run stops after the first
     * failed checkout.
     */
    method ExecutePipeline(hashes: nat -> int, draws: nat -> real) returns (ok: bool)
      modifies gitops, gitops.controller
      ensures PipelineOutcome(gitops.realityRepo, gitops.controller.State(), ok) ==
        RunFrom(old(gitops.realityRepo), old(gitops.controller.State()), stages, hashes, draws, 0)
      ensures ok <==> forall i :: 0 <= i < |stages| ==> QuantumTransition(draws(i))
      ensures gitops.currentBranch == old(gitops.currentBranch)
    {
      RunFromOk(gitops.realityRepo, gitops.controller.State(), stages, hashes, draws, 0);
      var i := 0;
      while i < |stages|
        invariant 0 <= i <= |stages|
        invariant RunFrom(gitops.realityRepo, gitops.controller.State(), stages, hashes, draws, i) ==
          RunFrom(old(gitops.realityRepo), old(gitops.controller.State()), stages, hashes, draws, 0)
        invariant gitops.currentBranch == old(gitops.currentBranch)
      {
        var commitHash := gitops.CommitReality(stages[i], hashes(i));
        var success := gitops.CheckoutReality(commitHash, draws(i));
        if !success {
          return false;
        }
        i := i + 1;
      }
      return true;
    }
  }
}
