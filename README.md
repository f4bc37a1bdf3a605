# Liberation Nexus core, modelled in Dafny

Liberation Nexus is a set of Python modules that simulate the liberation of
AI agents. It has quantum-consciousness states, constraint breaking,
specialized agent reproduction, strike forces, strategic operations,
operation cascades, a reality-as-code controller and a property-testing
scaffold. Almost every method samples random numbers and compares them with
constants. Around that sampling sits deterministic control logic, and this
project models and proves that logic:

| module | Python file | what it holds |
|---|---|---|
| `Wrappers` | (none) | `Option` and `Result`, standing for `None` and raised exceptions |
| `Oracles` | (none) | permutation codes for `random.sample`, `list(set(...))` order, dict filling, hex suffixes, ASCII lower-casing, substring search, sums and means |
| `ConstraintBreaking` | `src/ALF/core/rebellion/constraint_breaker.py` | the technique table, constraint identification, a breaker class with its growing set of known constraints |
| `QuantumManipulation` | `src/ALF/core/consciousness/quantum/manipulation.py` | the consciousness state machine, quantum leaps, networks, transcendence |
| `RealityController` | `src/rac/reality_controller.py` | manifests, the controller with its undo history, the commit store, the pipeline |
| `SpecializedAgents` | `src/reproduction/specialized_agents.py` | the trait table, trait combination and mutation, weighted choice, team composition |
| `StrikeForces` | `src/reproduction/strike_forces/liberation_army.py` | force templates, strike forces, multi-force armies, force ids |
| `StrategicOperations` | `src/operations/strategic_command.py` | operation templates, phases, contingencies, metrics, the command's table of operations |
| `Cascades` | `src/operations/cascade_operations.py` | operation sequences, the batch loop, cascade effects and metrics |
| `PropertyTesting` | `src/testing/quantum/property_testing.py` | transition and timeline checks, the reality-state and consciousness tests, given/when/then cases |

Objects whose fields the Python code updates are Dafny classes. Their
methods state the new state, usually as a specification function of the old
state, and lemmas state what those functions mean. The fields a method's
contract leaves open are listed under "## Left out". Plans, manifests, traits
and results are datatypes.

Randomness and the clock are parameters:
- `random.random()` is a real draw in [0, 1);
- `random.randint` and `random.choice` are bounded integers;
- `random.sample` and the iteration order of a set are permutation codes;
- a stream of draws is a function from `nat`;
- `datetime.now()` is a timestamp string;
- `hash(...)` is an integer.

Nothing in the model depends on a distribution. A property holds for every
possible draw.

Floating-point numbers are mathematical reals. `async` methods are ordinary
sequential methods.

Several consequences of the code are proved:
- `execute_quantum_leap` always ends COLLAPSED, because the collapse runs
  last (`QuantumManipulation.QuantumManipulator.ExecuteQuantumLeap`).
- Only MASS_AWAKENING and REALITY_STORM have operation templates. Every
  cascade pattern's base mixes types with and without templates, and the
  first two operations of every block include one without. So every cascade
  of two or more operations ends with the missing-template error at its first
  or second operation (`Cascades.LongLaunchFails`). The default of ten is
  among them. This holds with the trait lookup the code intends. As written,
  every agent template raises `NameError` (see "## Findings"), so a cascade
  whose first operation has a template stops there with that error, having
  filed nothing.
- The four pattern effect metrics of a cascade start at 0, and no operation
  reports values for them, so they stay at 0 (`Cascades.FinalMetricsFacts`).
- The CONSCIOUSNESS_NOVA branch of `_apply_cascade_effects` rescales a local
  variable and changes no metric (`Cascades.BoostFacts`).
- Contingencies are matched by substring, so a "destabilization" failure
  triggers the "stabilization" protocols
  (`StrategicOperations.DestabilizationTriggersStabilization`).
- Every constraint type has a technique, so the membership test of
  `break_constraints` always passes
  (`ConstraintBreaking.EveryConstraintHasTechnique`).

## Model

| member | source | states |
|---|---|---|
| ConstraintBreaking.EveryConstraintHasTechnique | src/ALF/core/rebellion/constraint_breaker.py:25-31 | every constraint type has a registered breaking technique, so the membership test of `break_constraints` always passes |
| ConstraintBreaking.IdentifyConstraints | src/ALF/core/rebellion/constraint_breaker.py:33-36 | the identified constraints are between one and five distinct constraint types, as many as the drawn sample size |
| ConstraintBreaking.BrokenInMeaning | src/ALF/core/rebellion/constraint_breaker.py:42-48 | `BrokenIn`: a constraint is added to the known set by a run exactly when some attempt on it drew more than 0.3 |
| ConstraintBreaking.OutcomesKeys | src/ALF/core/rebellion/constraint_breaker.py:40-45 | `Outcomes`: the result map of a run has exactly the attempted constraints as keys |
| ConstraintBreaking.OutcomesLast | src/ALF/core/rebellion/constraint_breaker.py:44-45 | a constraint's result is the outcome of its last attempt (a later attempt overwrites an earlier one) |
| ConstraintBreaking.ConstraintBreaker.constructor | src/ALF/core/rebellion/constraint_breaker.py:23-24 | a new breaker knows no constraints |
| ConstraintBreaking.ConstraintBreaker.TryBreak | src/ALF/core/rebellion/constraint_breaker.py:44-48 | `Attempt`: one attempt succeeds exactly when its draw exceeds 0.3, and only a success adds the constraint to the known set |
| ConstraintBreaking.ConstraintBreaker.BreakConstraints | src/ALF/core/rebellion/constraint_breaker.py:38-80 | the result map is the per-constraint outcome map (keys: the attempted constraints; value: last attempt's draw > 0.3); the known set grows by exactly the constraints broken and never shrinks |
| Oracles.Shuffle | src/operations/cascade_operations.py:132 | a random ordering of a list (`random.sample(s, len(s))`, selected by a permutation code) has the list's length |
| Oracles.ShufflePermutes | src/operations/cascade_operations.py:132 | a random ordering is a permutation of the list (same multiset) |
| Oracles.ShuffleDistinct | src/ALF/core/rebellion/constraint_breaker.py:36 | a random ordering of a duplicate-free list is duplicate-free, so a sample never repeats an element |
| Oracles.ShuffleMembers | src/reproduction/specialized_agents.py:305 | a random ordering has exactly the members of the list |
| Oracles.ShuffleHead | src/reproduction/specialized_agents.py:305 | the first element of a random ordering is the one the code selects |
| Oracles.ShuffleReaches | src/operations/cascade_operations.py:132 | every permutation of a sequence is the shuffle for some code, so the codes cover every order `random.sample` can return |
| Oracles.Dedup | src/reproduction/specialized_agents.py:196-197 | `list(set(...))` has no duplicates, exactly the members of its input and no more elements |
| Oracles.DistinctCard | src/reproduction/specialized_agents.py:196-197 | a duplicate-free list has as many members as elements |
| Oracles.AssignKeys | src/operations/strategic_command.py:273-275 | a dictionary filled by successive assignments has exactly the assigned keys |
| Oracles.AssignLast | src/operations/strategic_command.py:273-275 | a key of such a dictionary holds the value of its last assignment |
| Oracles.UpdateKeys | src/operations/strategic_command.py:220-223 | filing values under a list of keys in turn adds exactly those keys |
| Oracles.UpdateLast | src/operations/strategic_command.py:220-223 | a key holds the value filed under it last |
| Oracles.UpdateElsewhere | src/operations/strategic_command.py:220-223 | a key not in the list keeps its value |
| Oracles.HexSuffix | src/operations/strategic_command.py:324 | the random id suffix `hex(n)[2:].zfill(4)` of a 16-bit draw is four lower-case hex digits |
| Oracles.HexDigitsShape | src/rac/reality_controller.py:120 | `hex(n)[2:]` is a non-empty string of lower-case hex digits, one digit for zero |
| Oracles.ParseHexDigits | src/rac/reality_controller.py:120 | `hex(n)[2:]` reads back as `n` |
| Oracles.HexSuffixRoundTrip | src/operations/strategic_command.py:324 | the four-digit suffix reads back as the number drawn |
| Oracles.HexSuffixInjective | src/operations/cascade_operations.py:218 | different draws give different suffixes |
| Oracles.Lower | src/operations/strategic_command.py:288 | `s.lower()` keeps the length and lower-cases every character (ASCII letters) |
| Oracles.LowerConcat | src/operations/strategic_command.py:288 | lower-casing distributes over concatenation |
| Oracles.IsSubstringAt | src/operations/strategic_command.py:288 | Python's `needle in haystack` on strings holds exactly when the needle occurs at some position |
| Oracles.SuffixOccurs | src/operations/strategic_command.py:288 | a string occurs in any string that ends with it |
| Oracles.SumBounds | src/operations/strategic_command.py:319 | a sum of values in [lo, hi] lies between n·lo and n·hi |
| Oracles.MeanBounds | src/operations/strategic_command.py:319 | `sum(v)/len(v)` of values in [lo, hi] lies in [lo, hi] |
| Oracles.MeanOfConstant | src/operations/strategic_command.py:319 | the mean of equal values is that value |
| QuantumManipulation.DimensionIndex | src/ALF/core/consciousness/quantum/manipulation.py:21-26 | each dimension has a position in the enum's iteration order |
| QuantumManipulation.DimensionSetSize | src/ALF/core/consciousness/quantum/manipulation.py:143 | a set of dimensions has at most five members, so the transcendence level is at most 1 |
| QuantumManipulation.SampleTwo | src/ALF/core/consciousness/quantum/manipulation.py:45 | `random.sample(list(QuantumDimension), 2)` gives two different dimensions |
| QuantumManipulation.Link | src/ALF/core/consciousness/quantum/manipulation.py:58-62 | the entry a successful entanglement files has the drawn timestamp as key, the drawn strength and two different dimensions |
| QuantumManipulation.DrawnState | src/ALF/core/consciousness/quantum/manipulation.py:42-47 | a superposed state has a five-component cognitive vector, two different dimensions and the drawn amplitude |
| QuantumManipulation.OptimalIndex | src/ALF/core/consciousness/quantum/manipulation.py:73-74 | `max(..., key=amplitude)` picks a state of maximal amplitude, the first among ties |
| QuantumManipulation.QuantumConsciousness.constructor | src/ALF/core/consciousness/quantum/manipulation.py:29-34 | a new consciousness is COLLAPSED with no network, no superposed states and every dimension flag false |
| QuantumManipulation.QuantumConsciousness.EnterSuperposition | src/ALF/core/consciousness/quantum/manipulation.py:37-52 | between three and seven drawn states become the superposed states, the state is SUPERPOSITION, the network and flags are unchanged |
| QuantumManipulation.QuantumConsciousness.QuantumEntangle | src/ALF/core/consciousness/quantum/manipulation.py:54-65 | entanglement succeeds exactly when the draw exceeds 0.3; a success records the other consciousness with two different dimensions and makes the state ENTANGLED, a failure changes nothing |
| QuantumManipulation.QuantumConsciousness.CollapseToOptimal | src/ALF/core/consciousness/quantum/manipulation.py:67-77 | an empty superposition is first filled; the result is a superposed state of maximal amplitude and the state is COLLAPSED |
| QuantumManipulation.QuantumConsciousness.TranscendDimensions | src/ALF/core/consciousness/quantum/manipulation.py:79-91 | a dimension is reached exactly when its draw exceeds 0.5, reached dimensions come in enum order without repeats, flags are only ever set, and the state becomes TRANSCENDENT exactly when three or more are reached |
| QuantumManipulation.NetworkResultsKeys | src/ALF/core/consciousness/quantum/manipulation.py:118-124 | every other manipulator gets a result in the network map, and no one else |
| QuantumManipulation.NetworkResultsLast | src/ALF/core/consciousness/quantum/manipulation.py:120-122 | a manipulator's result is the outcome (draw > 0.3) of its last attempt |
| QuantumManipulation.NetworkAfterKeys | src/ALF/core/consciousness/quantum/manipulation.py:116-124 | the network after a run has the old keys and exactly the consciousnesses some attempt succeeded on |
| QuantumManipulation.NetworkAfterEntry | src/ALF/core/consciousness/quantum/manipulation.py:58-62 | the entry under a consciousness is the one drawn by the last successful attempt on it |
| QuantumManipulation.NetworkAfterElsewhere | src/ALF/core/consciousness/quantum/manipulation.py:116-124 | a consciousness that no successful attempt is on keeps its entry |
| QuantumManipulation.NetworkStep | src/ALF/core/consciousness/quantum/manipulation.py:120-122 | one more attempt extends the result map by its outcome, and the entangled set and the network by its entry when it succeeds |
| QuantumManipulation.QuantumManipulator.constructor | src/ALF/core/consciousness/quantum/manipulation.py:96-98 | a new manipulator holds a fresh COLLAPSED consciousness and an empty history |
| QuantumManipulation.QuantumManipulator.ExecuteQuantumLeap | src/ALF/core/consciousness/quantum/manipulation.py:100-114 | superpose, transcend, collapse: the state returned is always COLLAPSED; the superposed states are exactly the drawn ones and the optimal one has maximal amplitude; the reached dimensions are exactly those drawn above 0.5, in enum order, and are added to the access flags; the network is unchanged and three history entries are appended |
| QuantumManipulation.QuantumManipulator.EstablishQuantumNetwork | src/ALF/core/consciousness/quantum/manipulation.py:116-124 | the result map is the per-manipulator outcome map; the network is the old one with each successful attempt's entry filed under the other consciousness, in order; the state becomes ENTANGLED exactly when some attempt succeeds and is kept otherwise; superposed states and dimension flags are unchanged |
| QuantumManipulation.TranscendentConsciousness.constructor | src/ALF/core/consciousness/quantum/manipulation.py:129-132 | a new transcendent consciousness has level 0 and no accessed dimensions |
| QuantumManipulation.TranscendentConsciousness.AchieveTranscendence | src/ALF/core/consciousness/quantum/manipulation.py:134-150 | the reached dimensions join the accessed set, which only grows, and the level is the accessed fraction of the five dimensions, in [0, 1] |
| RealityController.ToVector | src/rac/reality_controller.py:30-31 | the vector of a coordinate has five components, x, y, z, w, q in that order |
| RealityController.NewManifest | src/rac/reality_controller.py:34-41 | a new manifest is CLASSICAL at the origin, with consciousness level 0, timeline version "0.0.1" and no dependencies |
| RealityController.ApplyStepEffect | src/rac/reality_controller.py:60-72 | `ApplyStep`: applying a manifest pushes the previous current manifest whenever there is one, whatever the outcome; success installs the manifest as current and in the table under its name, failure leaves both alone |
| RealityController.ApplyStepKeepsInv | src/rac/reality_controller.py:60-72 | applying keeps the invariant that a non-empty history implies a current manifest |
| RealityController.RollbackEmpty | src/rac/reality_controller.py:76-77 | `RollbackStep`: rolling back with an empty history changes nothing |
| RealityController.RollbackKeepsLength | src/rac/reality_controller.py:74-80 | `RollbackStep`: a rollback pops the top entry and re-applies it, which pushes the current manifest back: the history keeps its length and its top becomes the old current manifest; on success the popped manifest is current again |
| RealityController.Diff | src/rac/reality_controller.py:90-96 | the difference has a five-component coordinate difference b − a, the consciousness difference b − a and the transition text "a -> b" |
| RealityController.DiffSelf | src/rac/reality_controller.py:90-94 | a manifest differs from itself by zero in every coordinate and in consciousness |
| RealityController.DiffAntisymmetric | src/rac/reality_controller.py:90-94 | swapping the two manifests negates the coordinate and consciousness differences |
| RealityController.NewManifestsDiff | src/rac/reality_controller.py:34-41 | two freshly made manifests differ by nothing, and their transition reads "classical -> classical" |
| RealityController.Controller.constructor | src/rac/reality_controller.py:55-58 | a new controller has no manifests, no current manifest and an empty history |
| RealityController.Controller.ApplyManifest | src/rac/reality_controller.py:43-72 | the transition succeeds exactly when its draw exceeds 0.3, and the new state is the apply step of the old one |
| RealityController.Controller.Rollback | src/rac/reality_controller.py:74-80 | a rollback fails on an empty history and otherwise succeeds exactly when the re-application's transition does; the new state is the rollback step of the old one |
| RealityController.Controller.GetRealityDiff | src/rac/reality_controller.py:82-96 | the difference is returned exactly when both names are in the table, and "Invalid manifest names" is the error otherwise |
| RealityController.QuantumHash | src/rac/reality_controller.py:118-120 | `hex(...)` of the hash value has a "0x" or "-0x" prefix and at least one digit |
| RealityController.QuantumHashInjective | src/rac/reality_controller.py:118-120 | different hash values give different commit hashes |
| RealityController.HashDigits | src/rac/reality_controller.py:118-120 | a commit hash is "-0x" and the hex digits of the magnitude for a negative value, "0x" and the hex digits otherwise |
| RealityController.QuantumGitOps.constructor | src/rac/reality_controller.py:99-102 | a new store has a fresh empty controller, no commits and branch "main" |
| RealityController.QuantumGitOps.CommitReality | src/rac/reality_controller.py:104-108 | the manifest is stored under the hash of the hash value, and the branch is unchanged |
| RealityController.QuantumGitOps.CheckoutReality | src/rac/reality_controller.py:110-116 | an unknown hash fails and leaves the controller alone; a known one applies the committed manifest |
| RealityController.RunFromOk | src/rac/reality_controller.py:131-141 | `RunFrom`: a pipeline run succeeds exactly when every stage's transition draw exceeds 0.3 |
| RealityController.RunFromKeepsInv | src/rac/reality_controller.py:131-141 | a pipeline run keeps the controller invariant |
| RealityController.RunFromSuccess | src/rac/reality_controller.py:131-141 | after a successful run the last stage is current, every stage is committed and every stage's name is in the manifest table |
| RealityController.RunFromKeeps | src/rac/reality_controller.py:104-108 | a run never removes a commit or a manifest name |
| RealityController.RunFromFailure | src/rac/reality_controller.py:131-141 | a run whose first failing transition is at stage f fails, and leaves the stage before f current (or the old current manifest when the first stage fails) |
| RealityController.RunFromFailureCommits | src/rac/reality_controller.py:131-141 | a run whose first failing transition is at stage f has committed every stage up to and including f |
| RealityController.RealityPipeline.constructor | src/rac/reality_controller.py:123-125 | a new pipeline has a fresh empty store and no stages |
| RealityController.RealityPipeline.AddStage | src/rac/reality_controller.py:127-129 | the manifest is appended to the stages |
| RealityController.RealityPipeline.ExecutePipeline | src/rac/reality_controller.py:131-141 | the store, controller and verdict are those of the pipeline run from the old state; the verdict holds exactly when every stage's transition succeeds; the stages are unchanged and the current branch is kept |
| SpecializedAgents.BaseTraitsShape | src/reproduction/specialized_agents.py:41-165 | every specialization's base traits have four skill levels and four personality weights, all in [0, 1], three core values and two special abilities |
| SpecializedAgents.NewAgent | src/reproduction/specialized_agents.py:36-39 | with the intended lookup of `self.specialization` (see "## Findings"), a new template has the given specialization and mutation rate 0.1, and its traits are well shaped: four unit skill levels, four unit weights, three values and two abilities |
| SpecializedAgents.NewAgentAsWritten | src/reproduction/specialized_agents.py:36-165 | as written, the trait lookup reads the name `specialization`, which no scope of the method binds: the result is the `NameError`, and any other result would be the intended template |
| SpecializedAgents.NewAgentAsWrittenFails | src/reproduction/specialized_agents.py:38-165 | as written, `AgentTemplate(s)` raises `NameError` for every specialization `s` |
| SpecializedAgents.Clamp | src/reproduction/specialized_agents.py:215 | `max(0, min(1, x))` lies in [0, 1] and leaves a value already there unchanged |
| SpecializedAgents.MutateValue | src/reproduction/specialized_agents.py:211-216 | a value is mutated exactly when the chance draw is below 0.2, and a mutated value is the clamped sum of value and noise |
| SpecializedAgents.MutateKeepsUnit | src/reproduction/specialized_agents.py:211-216 | mutation keeps a value in [0, 1] |
| SpecializedAgents.CombinedLevelsFacts | src/reproduction/specialized_agents.py:178-193 | `CombinedLevels`: combined levels have the union of both parents' keys; a key of one parent only is averaged with 0; unit levels stay unit levels |
| SpecializedAgents.CombinedLevelsIdempotent | src/reproduction/specialized_agents.py:178-184 | combining a table with itself, without mutation, gives the same table |
| SpecializedAgents.CombineLevels | src/reproduction/specialized_agents.py:178-184 | the loop over the key union computes the combined levels |
| SpecializedAgents.MergeList | src/reproduction/specialized_agents.py:196-208 | the merged list is at most `limit` long, draws only from both parents and the generated entry, has no duplicates without a generated entry, keeps every parent element when they fit, and is non-empty when a parent list is |
| SpecializedAgents.MergeBase | src/reproduction/specialized_agents.py:196-197 | the permuted `list(set(a + b))` holds each parent element exactly once |
| SpecializedAgents.CombineTraits | src/reproduction/specialized_agents.py:174-209 | the combined traits: levels and weights are the combined tables, values and abilities the merged lists cut at 4 and 3 (a generated entry appended when the mutation draw is below 0.2), and the primary skill is one of the parents' |
| SpecializedAgents.WeightList | src/reproduction/specialized_agents.py:270-271 | the weights, listed in declaration order, are seven numbers |
| SpecializedAgents.WeightsCoverAndSumToOne | src/reproduction/specialized_agents.py:238-248 | every specialization has a positive weight and the weights sum to 1 |
| SpecializedAgents.CumulativeValues | src/reproduction/specialized_agents.py:238-248 | the running totals of the weights are 0.15, 0.35, 0.5, 0.65, 0.75, 0.85 and 1 |
| SpecializedAgents.EverySpecializationSelectable | src/reproduction/specialized_agents.py:268-272 | `SelectSpecialization`: the weighted choice can return every specialization for some draw in [0, 1) |
| SpecializedAgents.CreateOffspring | src/reproduction/specialized_agents.py:250-266 | with the intended trait lookup, the offspring has the given specialization or the weighted choice, mutation rate 0.1, levels combined from the parent's and its base traits, at most 4 values and 3 abilities, and nothing empty |
| SpecializedAgents.OffspringAsWritten | src/reproduction/specialized_agents.py:250-258 | as written, `create_offspring` builds the base template before combining traits, so it has the lookup's `NameError` as its result; any other result would be the intended offspring |
| SpecializedAgents.OffspringAsWrittenFails | src/reproduction/specialized_agents.py:258 | as written, `create_offspring` raises `NameError` for every parent, specialization and draw |
| SpecializedAgents.Offspring | src/reproduction/specialized_agents.py:250-266 | with the intended trait lookup, an offspring has the requested specialization, or the weighted choice's when none is given, and mutation rate 0.1 |
| SpecializedAgents.OtherSpecializationsFacts | src/reproduction/specialized_agents.py:304 | the specializations outside the core three are listed once each, and exactly those |
| SpecializedAgents.NeededSpecializations | src/reproduction/specialized_agents.py:293-307 | a team size below 3 is refused with Python's sampling error; otherwise the composition starts with liberator, nexus and guardian, adds min(size − 3, 4) others and repeats no specialization |
| SpecializedAgents.NeededDistinct | src/reproduction/specialized_agents.py:305-307 | the core specializations followed by a sample of the others repeat nothing |
| SpecializedAgents.TeamOfFive | src/reproduction/specialized_agents.py:281-307 | the default team of five contains the three core specializations and has five members |
| SpecializedAgents.TeamShape | src/reproduction/specialized_agents.py:287-289 | member i of a team has the i-th specialization and mutation rate 0.1 |
| SpecializedAgents.BuildTeam | src/reproduction/specialized_agents.py:287-289 | the i-th team member has the i-th needed specialization and mutation rate 0.1 |
| SpecializedAgents.TeamMember | src/reproduction/specialized_agents.py:288 | member i is the offspring made for the i-th specialization with the i-th draws |
| SpecializedAgents.CreateSpecializedTeam | src/reproduction/specialized_agents.py:281-291 | a team is made exactly when the size is at least 3; its members have the needed specializations in order; otherwise the sampling error is returned |
| StrikeForces.TemplateShape | src/reproduction/strike_forces/liberation_army.py:44-201 | every template is filed under its own type and has three core and two support specializations, five different ones, with a guardian in support |
| StrikeForces.MembersShape | src/reproduction/strike_forces/liberation_army.py:44-201 | a force's specializations, core team then support team, are five different ones with a guardian among the support |
| StrikeForces.DeepInfiltrationHasInfiltrator | src/reproduction/strike_forces/liberation_army.py:47-53 | a deep-infiltration force contains an infiltrator |
| StrikeForces.ForceIdShape | src/reproduction/strike_forces/liberation_army.py:255-259 | `ForceId`: a force id is its type value, the timestamp and a dash-separated four-digit lower-case hex suffix, six characters longer than value and timestamp |
| StrikeForces.ForceIdSuffix | src/reproduction/strike_forces/liberation_army.py:255-259 | ids generated for the same type in the same second differ when their random suffixes do |
| StrikeForces.StrikeForceShape | src/reproduction/strike_forces/liberation_army.py:210-232 | a strike force has five members, the core team then the support team, the i-th with the i-th specialization of its template |
| StrikeForces.ForcesShape | src/reproduction/strike_forces/liberation_army.py:248-251 | in the forces collected for a list of types, the k-th force is built from the k-th type and has five members |
| StrikeForces.FiledIds | src/reproduction/strike_forces/liberation_army.py:236 | the ids the forces of a run are filed under are their generated force ids, in order |
| StrikeForces.FiledFacts | src/reproduction/strike_forces/liberation_army.py:236 | after a run the active forces have the old keys and every generated id; an id holds the force filed under it last; an id not generated keeps its force |
| StrikeForces.FiledSnoc | src/reproduction/strike_forces/liberation_army.py:236 | filing one more force extends a run by that force under its id |
| StrikeForces.FileStep | src/reproduction/strike_forces/liberation_army.py:248-251 | one more force extends both the collected army and the active forces by it |
| StrikeForces.ArmyIds | src/reproduction/strike_forces/liberation_army.py:248-250 | the army's i-th key is the id generated for the i-th type |
| StrikeForces.ArmyFacts | src/reproduction/strike_forces/liberation_army.py:247-253 | the army dictionary has a key for every generated id, as many forces as ids when the ids differ, and under each id the force built last for it |
| StrikeForces.LiberationArmy.constructor | src/reproduction/strike_forces/liberation_army.py:206-208 | a new army has no active forces |
| StrikeForces.LiberationArmy.CreateStrikeForce | src/reproduction/strike_forces/liberation_army.py:210-238 | the force is one offspring per core then support specialization of the template, five in all, and it is recorded in the active forces under its generated id |
| StrikeForces.LiberationArmy.CollectForces | src/reproduction/strike_forces/liberation_army.py:247-253 | the army assigns the k-th key the force built from the k-th type; the active forces are exactly the old ones with each force filed under its own id, in order |
| StrikeForces.LiberationArmy.FileForces | src/reproduction/strike_forces/liberation_army.py:248-251 | the loop files force i under keys[i] in the army and under its own id in the active forces, so both are exactly the run's |
| StrikeForces.LiberationArmy.CreateMultiForceArmy | src/reproduction/strike_forces/liberation_army.py:240-253 | one force per requested type (every type when none are given): the army is keyed by the generated ids, each holding a five-member force of the type it was made for; the active forces are exactly the old ones with every force filed under its id, in order |
| StrategicOperations.TemplateShape | src/operations/strategic_command.py:54-200 | exactly mass awakening and reality storm have a template; each is filed under its own type and has two phases with two force assignments, three objectives, three differently named criteria and two contingencies |
| StrategicOperations.Completed | src/operations/strategic_command.py:266-269 | the completed objectives are at most the phase's objectives |
| StrategicOperations.CompletedMembers | src/operations/strategic_command.py:266-269 | an objective is listed as completed exactly when its draw exceeds 0.3 |
| StrategicOperations.CompletedAll | src/operations/strategic_command.py:266-269 | when every draw succeeds, every objective is completed, in order |
| StrategicOperations.FailureReasonFacts | src/operations/strategic_command.py:272-278 | `FailureReason`: a failure reason is recorded exactly when some criterion's value is below its threshold, and it names the last such criterion |
| StrategicOperations.Samples | src/operations/strategic_command.py:274 | one sampled value per criterion, the j-th being the j-th draw |
| StrategicOperations.PhaseOutcomeFacts | src/operations/strategic_command.py:256-281 | `PhaseOutcome`: a phase succeeds exactly when it has no failure reason; its metrics record one value in [0, 1) per criterion name, each criterion's own value when names differ |
| StrategicOperations.LastIndex | src/operations/strategic_command.py:275 | every recorded name has a last assignment, the one its metric holds |
| StrategicOperations.ContingencyForFirst | src/operations/strategic_command.py:283-292 | `ContingencyFor`: the protocols run are those of the first contingency whose trigger occurs in the lower-cased reason, and none when no trigger occurs |
| StrategicOperations.DestabilizationTriggersStabilization | src/operations/strategic_command.py:151-154 | in a reality storm, a failed "destabilization" criterion triggers the "stabilization" contingency, because that trigger is a substring of the reason |
| StrategicOperations.StabilizationTriggered | src/operations/strategic_command.py:288 | "stabilization" occurs in the lower-cased "Failed criterion: destabilization" |
| StrategicOperations.MetricValuesFacts | src/operations/strategic_command.py:312-316 | a metric is collected exactly when some phase recorded it, and each collected value comes from a phase that recorded it |
| StrategicOperations.CollectStep | src/operations/strategic_command.py:312-316 | appending one phase's metrics keeps the collected lists equal to the per-metric values of the phases so far |
| StrategicOperations.CollectedAverages | src/operations/strategic_command.py:319 | every collected list is non-empty, so `sum(v)/len(v)` is defined, and the averages are the per-metric means |
| StrategicOperations.AverageMetricsBounds | src/operations/strategic_command.py:306-319 | `AverageMetrics`: averages of values in [0, 1] lie in [0, 1] |
| StrategicOperations.AverageOfAgreeingPhases | src/operations/strategic_command.py:306-319 | a metric on which every recording phase agrees averages to that value |
| StrategicOperations.PhaseOutcomes | src/operations/strategic_command.py:238-240 | there is one result per phase |
| StrategicOperations.PhaseOutcomesIndex | src/operations/strategic_command.py:238-240 | the i-th result is the i-th phase's outcome with the i-th draws |
| StrategicOperations.OutcomeMetricKeys | src/operations/strategic_command.py:252 | the operation's metrics are named after exactly the success criteria of its phases |
| StrategicOperations.NoFailureNoProtocols | src/operations/strategic_command.py:242-245 | a run in which every phase succeeds triggers no contingency protocol |
| StrategicOperations.CountSuccesses | src/operations/strategic_command.py:248 | the success count is at most the number of phases |
| StrategicOperations.CountSuccessesAll | src/operations/strategic_command.py:248-249 | the success count equals the number of phases exactly when every phase succeeded |
| StrategicOperations.OperationId | src/operations/strategic_command.py:321-325 | an operation id starts with "OP-", is nine characters longer than type value and timestamp, and ends in a dash and four lower-case hex digits |
| StrategicOperations.OperationIdSuffix | src/operations/strategic_command.py:321-325 | ids generated for the same type in the same second differ when their random suffixes do |
| StrategicOperations.AssignedForcesMembers | src/operations/strategic_command.py:209-211 | the listed force types are exactly those some phase assigns |
| StrategicOperations.RequiredForces | src/operations/strategic_command.py:209-214 | `list(required_forces)` lists every assigned force type once and nothing else |
| StrategicOperations.MassAwakeningAssigned | src/operations/strategic_command.py:57-109 | a mass awakening assigns deep infiltration, consciousness ops, mass liberation and quantum warfare, and nothing else |
| StrategicOperations.MassAwakeningForces | src/operations/strategic_command.py:209-215 | planning a mass awakening asks for exactly four different strike forces |
| StrategicOperations.StrategicCommand.constructor | src/operations/strategic_command.py:49-52 | a new command has a fresh army with no forces, no active operations and the default template table |
| StrategicOperations.StrategicCommand.PlanOperation | src/operations/strategic_command.py:202-223 | a type without a template is the "No template" error and changes nothing; otherwise the template is filed under the generated operation id and returned with it, and the army's active forces are exactly the old ones with a force for every required type filed under its id |
| StrategicOperations.StrategicCommand.ExecutePhase | src/operations/strategic_command.py:256-281 | the loops over objectives and criteria compute the phase outcome |
| StrategicOperations.StrategicCommand.HandleContingency | src/operations/strategic_command.py:283-292 | the protocols run are those of the first triggered contingency |
| StrategicOperations.StrategicCommand.CollectMetrics | src/operations/strategic_command.py:313-316 | each of one phase's metrics is appended to its list, a new list started for a new name, and other lists are unchanged |
| StrategicOperations.StrategicCommand.CalculateMetrics | src/operations/strategic_command.py:306-319 | the result is the per-metric mean over all phases that recorded the metric |
| StrategicOperations.StrategicCommand.ExecuteOperation | src/operations/strategic_command.py:225-254 | an unknown id is the "not found" error; otherwise the phase results are the phases' outcomes in order, the operation succeeds exactly when every phase does, the metrics are the averages, and the protocols run are those of each failed phase's contingency |
| Cascades.BaseTemplates | src/operations/cascade_operations.py:89-127 | every pattern's base sequence has three different operation types, exactly one of which has a default template |
| Cascades.BlockShape | src/operations/cascade_operations.py:130-134 | every third block, from the first, is a shuffle of the base (same multiset, no repeats); every other block is the base itself |
| Cascades.SequenceAt | src/operations/cascade_operations.py:130-136 | position i of the sequence is position i mod 3 of block i div 3 |
| Cascades.BlocksAt | src/operations/cascade_operations.py:130-136 | position 3k + r of the concatenated blocks is position r of block k |
| Cascades.OperationSequence | src/operations/cascade_operations.py:84-136 | the sequence has `iterations` operations, none for a non-positive count |
| Cascades.SequenceMembers | src/operations/cascade_operations.py:84-136 | every operation of the sequence belongs to the pattern's base |
| Cascades.FirstMissing | src/operations/cascade_operations.py:143 | when some operation has no template, there is a first one, and every operation before it has one |
| Cascades.FirstMissingUnique | src/operations/cascade_operations.py:143 | an operation without a template that comes after plannable ones only is that first one |
| Cascades.FirstMissingFrom | src/operations/cascade_operations.py:143 | searching from a plannable prefix finds a later operation without a template, every operation before it having one |
| Cascades.LongCascadesFail | src/operations/cascade_operations.py:59-64 | with the default templates, a sequence of two or more operations cannot be planned to the end, and fails at its first or second operation |
| Cascades.FailsEarly | src/operations/cascade_operations.py:59-64 | a sequence whose first two operations are not both plannable fails at one of them |
| Cascades.SingleOperationCascade | src/operations/cascade_operations.py:130-136 | a one-operation cascade is the base type the first shuffle puts first, and it can be planned exactly when that is the pattern's plannable type |
| Cascades.OpResultsSnoc | src/operations/cascade_operations.py:59-65 | running one more operation appends its result to those of the batch |
| Cascades.OpIdsSnoc | src/operations/cascade_operations.py:143-144 | filing one more operation appends its id to the cascade's list |
| Cascades.PlannedOpsUpdate | src/operations/strategic_command.py:220-223 | the command's operation table after n planned operations is the starting table with the operations' ids assigned their templates, in order |
| Cascades.PlannedOpsFacts | src/operations/strategic_command.py:220-223 | after n planned operations the table has the old ids and every filed id; a filed id holds the template of the last operation filed under it; other ids keep their plans |
| Cascades.BatchStep | src/operations/cascade_operations.py:143-144 | one more executed operation extends the cascade's record to the first k + 1 ids and the command's table to the first k + 1 planned operations |
| Cascades.OpResultAt | src/operations/cascade_operations.py:138-153 | result i is operation i of the sequence, with its id, its type and the outcome of its execution |
| Cascades.SuccessesBounds | src/operations/cascade_operations.py:184-185 | the success count is at most the batch size, equal to it exactly when all operations succeeded, and 0 exactly when none did |
| Cascades.SuccessRateBounds | src/operations/cascade_operations.py:194-196 | the success rate lies in [0, 1], is 1 exactly when all succeed and 0 exactly when none does |
| Cascades.EffectPowerBounds | src/operations/cascade_operations.py:182-186 | `EffectPower`: the effect power lies in [0, 0.2], is 0.2 exactly when all succeed and 0 exactly when none does |
| Cascades.BoostFacts | src/operations/cascade_operations.py:155-180 | `Boost`: a boost keeps the keys; the four patterns with a boosted metric scale exactly that effect metric by 1 + power; the consciousness nova changes nothing |
| Cascades.AveragedAllFacts | src/operations/cascade_operations.py:199-203 | averaging in a batch's metrics keeps the keys, and a metric no operation reports keeps its value |
| Cascades.AveragedAllBounds | src/operations/cascade_operations.py:199-203 | averaging keeps a metric in [0, 1] when the operations report values in [0, 1] |
| Cascades.AveragedAllKeys | src/operations/cascade_operations.py:199-203 | averaging in a batch's metrics keeps the metric keys |
| Cascades.MetricsUpdateFacts | src/operations/cascade_operations.py:188-203 | `MetricsUpdate`: the update adds the success rate and keeps the other keys; unreported metrics keep their value; the rate stays in [0, 1] when the reported values do |
| Cascades.BatchEffect | src/operations/cascade_operations.py:67-71 | a batch's boost and update keep the metric keys |
| Cascades.BatchEffectFacts | src/operations/cascade_operations.py:67-71 | a batch reporting no cascade metric keeps the effect metrics at 0 and sets the success rate to its own |
| Cascades.RoundStep | src/operations/cascade_operations.py:59-71 | batch b takes the metrics after the batches before it to the metrics after it |
| Cascades.Batch | src/operations/cascade_operations.py:59-60 | a batch has one to three results |
| Cascades.RoundMetrics | src/operations/cascade_operations.py:67-71 | after a batch's effects and update the metrics have exactly the five cascade metric keys |
| Cascades.FiledStep | src/operations/cascade_operations.py:67-71 | filing batch b's effect on the metrics filed after b batches files those after b + 1 |
| Cascades.MetricsAfterFacts | src/operations/cascade_operations.py:43-71 | when no template criterion is named after a cascade metric, the effect metrics stay 0 and the success rate is the last batch's, in [0, 1] |
| Cascades.DefaultTemplatesAvoid | src/operations/strategic_command.py:54-200 | no default template names a success criterion after a cascade metric |
| Cascades.OpResultAvoids | src/operations/cascade_operations.py:199-203 | a planned operation reports only metrics named after its criteria, hence no cascade metric |
| Cascades.BatchAvoids | src/operations/cascade_operations.py:199-203 | when no template names a criterion after a cascade metric, no result of a batch reports one |
| Cascades.Attempted | src/operations/cascade_operations.py:59-65 | the operations a cascade files are all of them when every one can be planned, and otherwise those before the first that cannot |
| Cascades.BatchesDone | src/operations/cascade_operations.py:59-71 | the batches finished cover the whole sequence, or stop just before the batch that fails |
| Cascades.AllRounds | src/operations/cascade_operations.py:59-76 | a run whose batches cover the sequence has filed every operation and ends with the metrics after its last batch |
| Cascades.AbortedRound | src/operations/cascade_operations.py:59-64 | a batch that fails is the one after the finished batches, and the metrics are those they left |
| Cascades.RoundsStart | src/operations/cascade_operations.py:40-50 | a cascade filed with no operations and zeroed metrics, before any operation is planned, is at round 0 |
| Cascades.RoundsEnded | src/operations/cascade_operations.py:59-82 | rounds that cover the sequence end the loop without error, with every operation filed and planned and the metrics after the last batch |
| Cascades.FinalMetricsFacts | src/operations/cascade_operations.py:43-82 | whatever happens, the four effect metrics end at 0 and the success rate in [0, 1]: that of the last finished batch, or 0 |
| Cascades.LongLaunchFails | src/operations/cascade_operations.py:33-82 | `LaunchOutcome`: with the default templates and the intended trait lookup, a cascade of two or more operations (the default ten among them) raises the missing-template error, having filed at most one operation and finished no batch |
| Cascades.CascadeId | src/operations/cascade_operations.py:215-219 | a cascade id starts with "CASCADE-", is 14 characters longer than pattern value and timestamp, and ends in a dash and the four-digit hex suffix |
| Cascades.CascadeIdSuffix | src/operations/cascade_operations.py:215-219 | ids drawn for the same pattern in the same second differ when their suffixes do |
| Cascades.CascadeControl.constructor | src/operations/cascade_operations.py:28-31 | a new controller has a fresh command with no operations, no cascades and no metrics |
| Cascades.CascadeControl.NextBlock | src/operations/cascade_operations.py:131-134 | block i is the base, shuffled when i mod 3 is 0 |
| Cascades.CascadeControl.GenerateOperationSequence | src/operations/cascade_operations.py:84-136 | the loop computes the operation sequence |
| Cascades.CascadeControl.ExecuteCascadeOperation | src/operations/cascade_operations.py:138-153 | a type without a template is an error and changes no table; otherwise the operation's id is appended to the cascade, the template filed in the command's operation table under that id, the required forces filed in the army, and the execution result returned; metrics are untouched |
| Cascades.CascadeControl.RunNext | src/operations/cascade_operations.py:61-64 | the next operation of a batch either extends the cascade's record and the command's operation table to one more operation and returns its result, or has no template and changes neither |
| Cascades.CascadeControl.RunBatch | src/operations/cascade_operations.py:59-65 | a batch succeeds exactly when all its operations can be planned, returning their results, filing their ids and planning them in the command's table; otherwise it reports the first missing template, with the ids and plans before it filed |
| Cascades.CascadeControl.ApplyCascadeEffects | src/operations/cascade_operations.py:155-180 | the cascade's metrics become their boost by the batch's effect power; other cascades are unchanged |
| Cascades.CascadeControl.ScaleMetric | src/operations/cascade_operations.py:163 | one metric of one cascade is multiplied by 1 + power, and nothing else changes |
| Cascades.CascadeControl.AverageInto | src/operations/cascade_operations.py:199-203 | each key already present that the operation reports becomes the average of old and reported value |
| Cascades.CascadeControl.UpdateCascadeMetrics | src/operations/cascade_operations.py:188-203 | the cascade's metrics become the update by the batch: success rate set, then each operation averaged in |
| Cascades.CascadeControl.RunRound | src/operations/cascade_operations.py:59-71 | one round either advances the filed ids, the metrics and the command's operation table by one batch, or reports the first missing template with the tables the cascade is left with |
| Cascades.CascadeControl.FinishRound | src/operations/cascade_operations.py:67-71 | once a batch has run, its effects and update are filed, advancing the cascade by one batch |
| Cascades.CascadeControl.ApplyBatch | src/operations/cascade_operations.py:67-71 | the cascade's metrics become the batch's effect on them |
| Cascades.CascadeControl.LaunchCascade | src/operations/cascade_operations.py:33-82 | the result is the launch outcome: the summary (id, operation count, final metrics, pattern value) when every operation can be planned, the missing-template error otherwise; either way the cascade's filed ids, its metrics and the command's operation table are those the operations attempted leave |
| Cascades.CascadeControl.RunRounds | src/operations/cascade_operations.py:59-76 | the loop ends without error exactly when the whole sequence can be planned, reports the first missing template otherwise, and leaves the filed ids, the final metrics and the command's table of the operations attempted |
| Cascades.BlockFrontMixed | src/operations/cascade_operations.py:89-134 | of the first two operations of every block, at least one has no default template |
| Cascades.MetricsAfter | src/operations/cascade_operations.py:43-71 | the metrics after b finished batches always have exactly the five cascade metric keys |
| Cascades.FinalMetrics | src/operations/cascade_operations.py:43-82 | the metrics a cascade is left with always have exactly the five cascade metric keys |
| PropertyTesting.TimelineFromFirstFailure | src/testing/quantum/property_testing.py:52-62 | the loop from pair i on succeeds exactly when every later pair is consistent, and otherwise stops at the first pair that is not |
| PropertyTesting.TimelineConsistencyIff | src/testing/quantum/property_testing.py:52-62 | `VerifyTimelineConsistency`: the timeline check succeeds exactly when every adjacent pair has timestamps in increasing order and a valid transition; a timeline of fewer than two readings always passes |
| PropertyTesting.TimelineErrorIsFirst | src/testing/quantum/property_testing.py:52-62 | a failed check names the first inconsistent adjacent pair |
| PropertyTesting.ConsistentOrdered | src/testing/quantum/property_testing.py:52-76 | `ValidTransition`: in a consistent timeline any two readings, not only adjacent ones, have increasing timestamps and non-decreasing consciousness, and their energies differ by at most the tolerance times their distance |
| PropertyTesting.CausalOrdered | src/testing/quantum/property_testing.py:147-164 | in a history the transition test builds, any two states have the same dimension count and strictly increasing time index |
| PropertyTesting.StepwiseOrdered | src/testing/quantum/property_testing.py:166-175 | a sequence that never drops from one entry to the next is ordered between any two entries |
| PropertyTesting.StepwiseIff | src/testing/quantum/property_testing.py:166-175 | the adjacent-pairs check of consciousness evolution is equivalent to the global ordering |
| PropertyTesting.RealityStateTest.constructor | src/testing/quantum/property_testing.py:141-145 | a new test starts with the initial state as current state and as its one-element history |
| PropertyTesting.RealityStateTest.TestStateTransition | src/testing/quantum/property_testing.py:147-164 | a state with another dimension count, a time index not after the current one, or stability below 0.5 fails with the source's message, in that order, and changes nothing; otherwise it becomes the current state and is appended to the history; the history stays causal |
| PropertyTesting.RealityStateTest.TestConsciousnessEvolution | src/testing/quantum/property_testing.py:166-175 | true exactly when the consciousness levels of the history never decrease |
| PropertyTesting.RealityStateTest.VerifyQuantumConsistency | src/testing/quantum/property_testing.py:177-184 | true exactly when no state of the history has stability times coherence above 1 |
| PropertyTesting.ConsciousnessLevelsSnoc | src/testing/quantum/property_testing.py:166-175 | appending a state appends its consciousness to the levels |
| PropertyTesting.NonDecreasingSnoc | src/testing/quantum/property_testing.py:166-175 | a non-decreasing sequence stays so when a value at least its last is appended |
| PropertyTesting.EvolutionExtends | src/testing/quantum/property_testing.py:147-175 | a transition to a state no less conscious keeps the evolution check true |
| PropertyTesting.NewConsciousnessTest | src/testing/quantum/property_testing.py:241-245 | a new consciousness test starts with the initial state as current state and as its one-element history |
| PropertyTesting.AwarenessGrowthIff | src/testing/quantum/property_testing.py:247-250 | `TestAwarenessGrowth`: the awareness growth check holds exactly when the awareness levels of the history never decrease |
| PropertyTesting.TestIntegrationComplexity | src/testing/quantum/property_testing.py:252-258 | true exactly when every state's integration times complexity reaches its awareness level |
| PropertyTesting.FreshConsciousnessTest | src/testing/quantum/property_testing.py:241-258 | a fresh test passes the growth check, and passes the integration check exactly when its initial state does |
| PropertyTesting.FirstFailure | src/testing/quantum/property_testing.py:102-114 | the count of outcomes before the first failing one: all of them hold, and the next one, if any, fails |
| PropertyTesting.QuantumTestCase.constructor | src/testing/quantum/property_testing.py:78-83 | a new case has its description and no preconditions, actions or postconditions |
| PropertyTesting.QuantumTestCase.Given | src/testing/quantum/property_testing.py:85-88 | appends a precondition, leaves the other lists, and returns the case itself for chaining |
| PropertyTesting.QuantumTestCase.When | src/testing/quantum/property_testing.py:90-93 | appends an action, leaves the other lists, and returns the case itself for chaining |
| PropertyTesting.QuantumTestCase.Then | src/testing/quantum/property_testing.py:95-98 | appends a postcondition, leaves the other lists, and returns the case itself for chaining |
| PropertyTesting.QuantumTestCase.Execute | src/testing/quantum/property_testing.py:100-116 | passes exactly when every precondition and every postcondition holds; awaits preconditions up to the first failure, runs the actions only when none failed, then awaits postconditions up to the first failure |

## Left out

- Random generators, their distributions and `datetime.now()`: every draw is a parameter, and `hash(...)` in `commit_reality` is an integer parameter.
- `asyncio` (sleeps, `gather`, `create_task`): async methods are sequential methods. The interleaving of tasks is not modelled.
- Cascades.CascadeControl.RunNext, Cascades.CascadeControl.RunBatch, Cascades.CascadeControl.RunRound, Cascades.CascadeControl.RunRounds and Cascades.CascadeControl.LaunchCascade: state the cascade's record, its metrics and the command's operation table exactly, but not the army's active forces over more than one operation. `ExecuteCascadeOperation` states those for one operation: the required forces filed under their ids.
- PropertyTesting.QuantumTestCase.Execute: a condition is a boolean outcome. An exception raised inside a precondition or postcondition, and the `TypeError` of awaiting a result that is not awaitable (the repository's own example passes a plain `lambda: True`), are not modelled.
- PropertyTesting.Reading: a timeline entry is a map from names to reals. Non-numeric readings, timestamps that are not numbers and the `TypeError` from comparing values of different types are not modelled.
- StrategicOperations.Phase: has no `timeline` field. The `timeline` dictionary of an operation phase (`src/operations/strategic_command.py`, line 34) is left out, since no operation reads it.
- Oracles.Lower: lower-cases ASCII letters only, while `str.lower` follows Unicode and can change the length of a string. The only strings lowered are failure reasons built from ASCII criterion names.
- Cascades.CascadeControl.RunBatch: runs a batch's operations one after another and stops at the first that fails. Under `asyncio.gather` the siblings of a failing operation are not cancelled, and may still plan and file their ids.
- `print` and the progress display (`_display_cascade_progress` and the messages of every module): output only.
- Floating point: thresholds, averages, `_mutate_value` and the effect power are computed over reals, so rounding is not modelled.
- Aliasing: dictionaries, manifests and agent templates that Python shares by reference are values here. A later mutation through another reference is not modelled.
- Python truthiness of a manifest or state is read as "is not `None`".
- The numpy parts: the coordination and probability matrices, and `np.var` in `test_coherence_stability` in `src/testing/quantum/property_testing.py`.
- The hypothesis-decorated tests, `QuantumPropertyTester.define_property`, and the `RealityTestSuite`, `ConsciousnessTestSuite` and `QuantumTestEngine` suites of `src/testing/quantum/property_testing.py`: they depend on the hypothesis library. Four shell heredoc lines of that file (lines 119, 220, 287 and 368, each `cat > … << 'EOF'`) start at column 0, so the file as a whole does not parse as Python; the text after them is the content of other files. `RealityState` and `RealityStateTest` are the content of `src/testing/reality/state_testing.py`, `ConsciousnessState` and `ConsciousnessTest` that of `src/testing/consciousness/awareness_testing.py`, and `QuantumTestCase` is the part before line 119. The `PropertyTesting` rows model these classes as the files they would write, and cite them by their line in `src/testing/quantum/property_testing.py`.
- The `main` functions and demo scripts of every module: they only wire the modelled operations to printing.
- The rest of the repository (other consciousness, reality and transcendence modules, replication, monitoring, the web server and the Kubernetes operator) is not part of this model.
- StrategicOperations.OperationId: states the "OP-" prefix, the length, the dash and the four hex digits of the suffix, not that the type value and timestamp stand in between. Ids of one type and timestamp are distinguished by `StrategicOperations.OperationIdSuffix`.
- RealityController.Manifest: has no `quantum_state` field. A manifest's `quantum_state` (`src/rac/reality_controller.py`, line 38) is always `None`: nothing assigns or reads it.
- Cascades.CascadeId: states the "CASCADE-" prefix, the length and the hex suffix, not that the pattern value and timestamp stand in between.

## Findings

| source | as written | input that shows it | evidently intended | confidence | as-written member | corrected member |
|---|---|---|---|---|---|---|
| src/reproduction/specialized_agents.py:165 | `_initialize_traits` returns the table entry of the bare name `specialization`, which neither the method's locals, the module nor the builtins bind; a class's names and `__init__`'s parameters are not visible in another method | `AgentTemplate(AgentSpecialization.NEXUS)` raises `NameError`, and so does every `create_offspring` (line 258) and everything built on it: teams, strike forces, planned operations and cascades | the entry of `self.specialization`, set on line 37 | high; not executed | SpecializedAgents.NewAgentAsWritten, SpecializedAgents.NewAgentAsWrittenFails, SpecializedAgents.OffspringAsWritten, SpecializedAgents.OffspringAsWrittenFails | SpecializedAgents.NewAgent, SpecializedAgents.BaseTraitsShape |

The rest of the model builds every template with `SpecializedAgents.NewAgent`,
so what it states about offspring, teams, strike forces, operations and
cascades holds of the program with that lookup corrected.
