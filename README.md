# Boids steering and motion core, modelled in Dafny

This project models the per-boid steering step of a Unity flocking demo and the pass that moves every boid's transform. It proves properties of that model.

- `BoidUnit` scans its neighbours. It then decays its speed boost, computes cohesion, alignment and separation over the neighbours, adds a bounds vector and an obstacle vector, and combines the terms with role-dependent weights. An enemy ignores the flocking weights. Finally it smooths the result towards its current forward and moves.
- `BoidUpdater` keeps the list of boid transforms that a position job writes, and snapshots every boid's `MoveData` for that job.

Floats are replaced by `real` 3-vectors. Engine services become inputs:

- The `Physics.OverlapSphere` result is the candidate sequence `colls`.
- `Vector3.Angle` is a parameter `angle`.
- `Physics.Raycast` is an `Option` holding the hit normal.
- `Vector3.normalized` is a parameter `norm`. Where a lemma needs it, `norm` maps zero to zero (`ZeroPreserving`).
- The frame time and the random draws are parameters: the enemy roll, and the first speed and ego vector drawn when a unit is initialised.

Files and modules:

- `wrappers.dfy` (module `Wrappers`): `Option`.
- `vectors.dfy` (module `Vectors`): `Vec3`, Unity's clamped `Lerp`, sums of vectors, and the square-root-free magnitude test.
- `engine.dfy` (module `Engine`): the engine transform, reduced to a position and a forward direction.
- `steering.dfy` (module `Steering`): the steering step as pure functions, and its lemmas.
- `boid.dfy` (module `Boid`): the neighbour scan and class `BoidUnit`. Its aggregate loops, obstacle ray, and `UpdateForSelf`/`UpdateForJob` are proved to compute the `Steering` functions.
- `updater.dfy` (module `Updater`): class `BoidUpdater` and swap-back removal.

## Behaviour of the code that the model keeps

These are read from the code and proved about the model. They are not what the classic boids rules and the field names suggest:

- **Neighbour count.** The scan tests `i > maxNeighbourCount` after it has handled index `i`. So it can collect `maxNeighbourCount + 2` neighbours, not `maxNeighbourCount` (`ScanBound`, `DefaultScanKeepsFiftyTwo`: 52 with the default of 50). A negative setting still examines one candidate.
- **Self as neighbour.** The scan does not exclude the unit itself. If the unit's own collider is among the candidates and passes the angle test, it is collected.
- **Boost can go negative.** The boost has no clamp at zero. A positive boost loses that frame's `Time.deltaTime`, so it can end below zero, by less than the longest frame (`DecayFramesBounded`, `DecayBounded`, `BoostOvershoots`). Effective speed is `speed + additionalSpeed` with no `max(…, 0)`.
- **Separation mirrors cohesion.** Before normalisation, separation is exactly the negated cohesion offset (`SeparationOpposesCohesion`). For the middle of three boids on a line, both are zero (`MiddleOfLine`). Separation does not push that boid away.
- **Alignment includes the unit's own forward.** Alignment adds the unit's own forward to the neighbours' forwards but divides by the neighbour count only (`AlignmentCountsOwnForward`).
- **Enemy role is sticky.** `InitializeUnit` only ever sets `isEnemy` to true; it never clears it.
- **RemoveBoid does not touch the boid list.** `RemoveBoid` swap-back-removes from the transform list only. The snapshot, though, is taken in boid-list order. Slot `i` of the two lists keeps corresponding if the caller removes from the boid list in the same swap-back way (`SwapBackCommutes`). The caller's code is not part of this model.

## Model

| member | source | states |
|---|---|---|
| `Vectors.MagnitudeAtLeastIsLengthTest` | Assets/02.Script/Boids/BoidUnit.cs:303 | for the true length m of a vector, the square-based test used for `magnitude >= spawnRange` holds exactly when m >= spawnRange |
| `Vectors.Lerp` | Assets/02.Script/Boids/BoidUnit.cs:147 | `Vector3.Lerp` clamps its factor: a factor <= 0 gives the start, a factor >= 1 gives the target |
| `Steering.NoNeighbourFallbacks` | Assets/02.Script/Boids/BoidUnit.cs:245-294 | with no neighbours cohesion and separation are zero and alignment is the unit's own forward, unchanged |
| `Steering.SumAway` | Assets/02.Script/Boids/BoidUnit.cs:287-289 | the separation offsets sum to n times the own position minus the sum of neighbour positions |
| `Steering.SeparationOpposesCohesion` | Assets/02.Script/Boids/BoidUnit.cs:245-299 | for any non-empty neighbour set, separation normalises the exact negation of the offset that cohesion normalises |
| `Steering.CentredNeighbours` | Assets/02.Script/Boids/BoidUnit.cs:258-298 | a unit at the mean of its neighbours gets zero cohesion and zero separation |
| `Steering.MiddleOfLine` | Assets/02.Script/Boids/BoidUnit.cs:245-299 | the middle of three units one step apart on a line, with the outer two as neighbours, has zero cohesion and zero separation |
| `Steering.AlignmentCountsOwnForward` | Assets/02.Script/Boids/BoidUnit.cs:265-281 | alignment normalises the sum of the own forward and all neighbour forwards, divided by the neighbour count alone |
| `Steering.AlignedNeighbours` | Assets/02.Script/Boids/BoidUnit.cs:265-281 | when all neighbours face the unit's way, alignment normalises (n+1)/n times the own forward |
| `Steering.BoundsByDistance` | Assets/02.Script/Boids/BoidUnit.cs:301-304 | at a true distance below `spawnRange` from the centre the bounds vector is zero; at or beyond it, it is the normalised offset to the centre |
| `Steering.Cohesion` | Assets/02.Script/Boids/BoidUnit.cs:245-263 | the definition: the normalised offset from the unit to the mean neighbour position, zero with no neighbours. Its properties are stated by `NoNeighbourFallbacks`, `SeparationOpposesCohesion` and `CentredNeighbours` |
| `Steering.Alignment` | Assets/02.Script/Boids/BoidUnit.cs:265-281 | the definition: the own forward plus the neighbour forwards over the neighbour count, normalised; the own forward with no neighbours. Its properties are stated by `AlignmentCountsOwnForward` and `AlignedNeighbours` |
| `Steering.Away` | Assets/02.Script/Boids/BoidUnit.cs:287-289 | there is one offset per neighbour, and offset i is the own position minus neighbour position i |
| `Steering.Separation` | Assets/02.Script/Boids/BoidUnit.cs:283-299 | the definition: the normalised mean of the offsets from `Away`, zero with no neighbours. Its properties are stated by `SumAway`, `SeparationOpposesCohesion` and `MiddleOfLine` |
| `Steering.BoundsVector` | Assets/02.Script/Boids/BoidUnit.cs:301-304 | the bounds vector is either zero or the normalised offset to the centre, and a non-positive `spawnRange` always steers back |
| `Steering.ObstacleVector` | Assets/02.Script/Boids/BoidUnit.cs:306-316 | the definition: the hit normal, or zero on a miss. With `BoostAfterRay` it is what `CalculateObstacleVector` returns |
| `Steering.BoostAfterRay` | Assets/02.Script/Boids/BoidUnit.cs:309-312 | the definition: `ObstacleBoost` on a hit, the boost unchanged on a miss. `BoostAfterStep` states it after a whole step |
| `Steering.DecayBoost` | Assets/02.Script/Boids/BoidUnit.cs:126-127 | for dt >= 0 the boost never rises; a non-positive boost is kept; a positive one stays above -dt |
| `Steering.DecayOver` | Assets/02.Script/Boids/BoidUnit.cs:126-127 | over any number of frames that all last the same dt >= 0, the boost never rises |
| `Steering.Total` | Assets/02.Script/Boids/BoidUnit.cs:126-127 | the total of non-negative frame times is non-negative |
| `Steering.DecayFrames` | Assets/02.Script/Boids/BoidUnit.cs:126-127 | over frames of varying non-negative lengths, each subtracting its own frame time, the boost never rises |
| `Steering.DecayOverIsFrames` | Assets/02.Script/Boids/BoidUnit.cs:126-127 | n frames of one length dt decay the boost exactly as `DecayFrames` over n copies of dt |
| `Steering.DecayFramesStops` | Assets/02.Script/Boids/BoidUnit.cs:126-127 | a boost that is not positive stays fixed, whatever the frame times |
| `Steering.DecayFramesLinear` | Assets/02.Script/Boids/BoidUnit.cs:126-127 | while the frames before the last total less than b, the boost ends at b minus the total frame time |
| `Steering.DecayFramesBounded` | Assets/02.Script/Boids/BoidUnit.cs:126-127 | when every frame lasts between 0 and dmax, the boost never rises and never falls to -dmax or below, though it can become negative |
| `Steering.DecayFramesRunsOut` | Assets/02.Script/Boids/BoidUnit.cs:126-127 | once the frame times add up to at least b seconds, the boost is no longer positive |
| `Steering.RawTarget` | Assets/02.Script/Boids/BoidUnit.cs:138-144 | when the cohesion, alignment and separation terms are zero and the weighted ego term equals the ego vector, both roles get the same sum: bounds + obstacle + ego |
| `Steering.FinalDirection` | Assets/02.Script/Boids/BoidUnit.cs:147-150 | the direction is the normalised lerp or the ego vector, and it is zero only when the ego vector is zero |
| `Steering.Moved` | Assets/02.Script/Boids/BoidUnit.cs:153 | the position is unchanged when dt is zero, the target is zero, or the effective speed `speed + additionalSpeed` is zero |
| `Steering.WeightedTerms` | Assets/02.Script/Boids/BoidUnit.cs:126-136 | the first half of a step keeps the speed, the ego vector and the old target |
| `Steering.Steered` | Assets/02.Script/Boids/BoidUnit.cs:126-150 | a steering step never changes the speed or the ego vector; those are written only by the random re-sampling |
| `Steering.BoostAfterStep` | Assets/02.Script/Boids/BoidUnit.cs:126-135 | after a step the boost is exactly 10 on a ray hit; on a miss it is unchanged when not positive and lower by exactly dt when positive |
| `Steering.DecayStops` | Assets/02.Script/Boids/BoidUnit.cs:126-127 | a boost that is not positive stays fixed over any number of equal frames without a hit |
| `Steering.DecayLinear` | Assets/02.Script/Boids/BoidUnit.cs:126-127 | for frames that all last dt, while it stays positive the boost falls linearly, b - n*dt after n frames |
| `Steering.DecayBounded` | Assets/02.Script/Boids/BoidUnit.cs:126-127 | for frames that all last dt, with no hit the boost never rises and never falls to -dt or below, but it can become negative |
| `Steering.DecayRunsOut` | Assets/02.Script/Boids/BoidUnit.cs:126-127 | for frames that all last dt, once n*dt reaches b seconds the boost is no longer positive |
| `Steering.BoostOvershoots` | Assets/02.Script/Boids/BoidUnit.cs:126-127 | the boost of 10 at dt = 3 is -2 after four frames, so there is no clamp at zero |
| `Steering.EnemyIgnoresFlockWeights` | Assets/02.Script/Boids/BoidUnit.cs:130-144 | changing the cohesion, alignment, separation or ego weight changes neither an enemy's target nor its boost |
| `Steering.EnemyRawTarget` | Assets/02.Script/Boids/BoidUnit.cs:138-139 | an enemy's target before smoothing is weighted bounds + weighted obstacle + the unweighted ego vector |
| `Steering.NormalFeelsCohesionWeight` | Assets/02.Script/Boids/BoidUnit.cs:141-143 | for a normal unit, changing the cohesion weight from w2 to w1 moves the target before smoothing by exactly (w1 - w2) times the cohesion vector |
| `Steering.NormalFeelsAlignmentWeight` | Assets/02.Script/Boids/BoidUnit.cs:141-143 | likewise, changing only the alignment weight moves it by (w1 - w2) times the alignment vector |
| `Steering.NormalFeelsSeparationWeight` | Assets/02.Script/Boids/BoidUnit.cs:141-143 | likewise, changing only the separation weight moves it by (w1 - w2) times the separation vector |
| `Steering.NormalFeelsEgoWeight` | Assets/02.Script/Boids/BoidUnit.cs:141-143 | likewise, changing only the ego weight moves it by (w1 - w2) times the ego vector |
| `Steering.FinalDirectionCases` | Assets/02.Script/Boids/BoidUnit.cs:147-150 | the direction falls back to the ego vector exactly when the normalised lerp is zero; a frame of at least 1 s heads straight along the raw target, and a frame of 0 s or less heads along the normalised forward `norm(forward)`, whenever that vector normalises to non-zero |
| `Steering.MovedSplitFrame` | Assets/02.Script/Boids/BoidUnit.cs:153 | with the record unchanged, frames of d1 and d2 seconds move the unit as far as one frame of d1 + d2 seconds |
| `Boid.Visible` | Assets/02.Script/Boids/BoidUnit.cs:93 | the definition: the field-of-view test `angle(forward, candidate position - position) <= FOVAngle` on a candidate's position. `ScanIsVisibleSubsequence` and `ScanKeepsVisible` state how the scan uses it |
| `Boid.VisibleFlags` | Assets/02.Script/Boids/BoidUnit.cs:93 | one flag per candidate position, and flag i is the angle test of position i |
| `Boid.Kept` | Assets/02.Script/Boids/BoidUnit.cs:92-96 | the elements whose flag is set, never more than the candidates. `KeptStep`, `KeptMembers` and `KeptKeeps` state what is kept |
| `Boid.FirstBreakIndex` | Assets/02.Script/Boids/BoidUnit.cs:97-99 | the break fires at the least whole index strictly above `maxNeighbourCount` |
| `Boid.ScanCount` | Assets/02.Script/Boids/BoidUnit.cs:92-99 | the scan examines every candidate, or stops right after the break index; it stops there whenever more candidates remain |
| `Boid.Scan` | Assets/02.Script/Boids/BoidUnit.cs:89-100 | a scan's result, over the candidates and their positions, is no longer than the examined prefix. `ScanIsVisibleSubsequence` states that every member is a visible candidate |
| `Boid.KeptIsSubsequence` | Assets/02.Script/Boids/BoidUnit.cs:92-96 | the kept candidates keep their candidate order |
| `Boid.KeptStep` | Assets/02.Script/Boids/BoidUnit.cs:93-95 | examining one more candidate appends it to the list exactly when its flag is set, and otherwise leaves the list as it was |
| `Boid.KeptMembers` | Assets/02.Script/Boids/BoidUnit.cs:92-96 | nothing enters the list unless it is a candidate whose flag is set |
| `Boid.KeptKeeps` | Assets/02.Script/Boids/BoidUnit.cs:92-96 | every candidate whose flag is set is among the kept ones |
| `Boid.KeptAll` | Assets/02.Script/Boids/BoidUnit.cs:92-96 | when every flag is set, all candidates are kept |
| `Boid.ScanIsVisibleSubsequence` | Assets/02.Script/Boids/BoidUnit.cs:89-100 | the neighbour list is a subsequence of the candidates in scan order, and every member passed `angle <= FOVAngle` |
| `Boid.ScanBound` | Assets/02.Script/Boids/BoidUnit.cs:92-99 | for whole-number `maxNeighbourCount` at most min(\|colls\|, maxNeighbourCount + 2) neighbours are collected |
| `Boid.ScanAllVisible` | Assets/02.Script/Boids/BoidUnit.cs:92-99 | the bound is reached: with every candidate visible, the list is exactly the examined prefix |
| `Boid.ScanKeepsVisible` | Assets/02.Script/Boids/BoidUnit.cs:89-100 | no visible candidate is dropped: every examined candidate that passes the angle test is among the neighbours |
| `Boid.DefaultScanKeepsFiftyTwo` | Assets/02.Script/Boids/BoidUnit.cs:36 | with the default setting of 50 and 52 or more candidates, all of them visible, 52 neighbours are collected |
| `Boid.BoidUnit.InitializeUnit` | Assets/02.Script/Boids/BoidUnit.cs:47-85 | on return the record is fresh with zero boost and holds the first drawn speed and ego vector, which overwrite the given speed. The neighbour list is one scan of the candidates. The unit becomes an enemy when the roll is below the enemy share, and a role already set stays |
| `Boid.BoidUnit.CalcEgoVector` | Assets/02.Script/Boids/BoidUnit.cs:106-111 | one pass of the ego loop: only speed and `egoVector` change, to the drawn values |
| `Boid.BoidUnit.FindNeighbour` | Assets/02.Script/Boids/BoidUnit.cs:87-104 | the loop with its early break leaves the list equal to `Scan` of the candidates and their positions at the call; nothing from an earlier list survives |
| `Boid.BoidUnit.CalculateCohesionVector` | Assets/02.Script/Boids/BoidUnit.cs:245-263 | the accumulation loop computes `Cohesion` of the neighbours' current positions |
| `Boid.BoidUnit.CalculateAlignmentVector` | Assets/02.Script/Boids/BoidUnit.cs:265-281 | the accumulation loop computes `Alignment` of the own forward and the neighbours' forwards |
| `Boid.BoidUnit.CalculateSeparationVector` | Assets/02.Script/Boids/BoidUnit.cs:283-299 | the accumulation loop computes `Separation` of the neighbours' current positions |
| `Boid.BoidUnit.CalculateObstacleVector` | Assets/02.Script/Boids/BoidUnit.cs:306-316 | on a hit it returns the hit normal and sets the boost to exactly 10; on a miss it returns zero and changes nothing |
| `Boid.BoidUnit.DecayAdditionalSpeed` | Assets/02.Script/Boids/BoidUnit.cs:126-127 | only the boost changes, to its decayed value |
| `Boid.BoidUnit.StoreFlockingTerms` | Assets/02.Script/Boids/BoidUnit.cs:130-132 | exactly the three flocking fields change, to the weighted aggregates |
| `Boid.BoidUnit.StoreEnvironmentTerms` | Assets/02.Script/Boids/BoidUnit.cs:134-136 | exactly the boost and the bounds, obstacle and ego fields change |
| `Boid.BoidUnit.WeighTerms` | Assets/02.Script/Boids/BoidUnit.cs:126-136 | the record becomes `WeightedTerms` of the old record and the unit's surroundings |
| `Boid.BoidUnit.ComposeTarget` | Assets/02.Script/Boids/BoidUnit.cs:138-150 | only the target changes, to the smoothed role-dependent sum or the ego fallback |
| `Boid.BoidUnit.Steer` | Assets/02.Script/Boids/BoidUnit.cs:126-150 | the record becomes `Steered` of the old record |
| `Boid.BoidUnit.Update` | Assets/02.Script/Boids/BoidUnit.cs:116-123 | both modes steer identically; only the self mode moves the transform |
| `Boid.BoidUnit.UpdateForSelf` | Assets/02.Script/Boids/BoidUnit.cs:125-153 | the record is steered and the position advances by target * (speed + boost) * dt |
| `Boid.BoidUnit.UpdateForJob` | Assets/02.Script/Boids/BoidUnit.cs:173-198 | the same record as `UpdateForSelf`, with the transform untouched |
| `Updater.SwapBack` | Assets/02.Script/Boids/BoidUpdater.cs:31-34 | the length drops by one, slot idx holds the former last element, and every other slot is unchanged |
| `Updater.SwapBackLast` | Assets/02.Script/Boids/BoidUpdater.cs:31-34 | removing the last slot just truncates |
| `Updater.SwapBackMultiset` | Assets/02.Script/Boids/BoidUpdater.cs:31-34 | the remaining elements are the old ones minus exactly the removed one |
| `Updater.SwapBackDistinct` | Assets/02.Script/Boids/BoidUpdater.cs:31-34 | removal keeps distinct entries distinct |
| `Updater.SwapBackCommutes` | Assets/02.Script/Boids/BoidUpdater.cs:31-34 | removing a slot from the boid list and then taking transforms equals removing it from the transform list |
| `Updater.RemoveThreeOfTen` | Assets/02.Script/Boids/BoidUpdater.cs:31-34 | of ten distinct entries, removing slot 3 leaves nine distinct ones, with the former last in slot 3 |
| `Updater.MoveDataOf` | Assets/02.Script/Boids/BoidUpdater.cs:38 | the snapshot has one record per boid, and entry i is boid i's current record |
| `Updater.BoidUpdater.Init` | Assets/02.Script/Boids/BoidUpdater.cs:19-25 | the list holds the transform of every boid of the boid list, in order |
| `Updater.BoidUpdater.AddBoid` | Assets/02.Script/Boids/BoidUpdater.cs:27-29 | the unit's transform is appended; earlier entries are unchanged |
| `Updater.BoidUpdater.RemoveBoid` | Assets/02.Script/Boids/BoidUpdater.cs:31-34 | for an index in range, the list becomes its swap-back removal |
| `Updater.BoidUpdater.BoidUpdate` | Assets/02.Script/Boids/BoidUpdater.cs:36-43 | the snapshot is every boid's record in list order, with one entry per boid. Each listed transform moves by its own entry, forwards are untouched, and dt = 0 moves nothing. With the lists aligned, each boid moves exactly as `UpdateForSelf` would move it |
| `Updater.BoidUpdater.RunPositionJob` | Assets/02.Script/Boids/BoidUpdater.cs:50-61 | index i of the transform list moves by snapshot entry i only; no other location changes |
| `Updater.BoidUpdater.Execute` | Assets/02.Script/Boids/BoidUpdater.cs:55-60 | the transform's position advances by entry index's target * (speed + boost) * jobDeltaTime, and nothing else is written |

## Left out

- Engine queries: `Physics.OverlapSphere`, `Vector3.Angle` and `Physics.Raycast` are library code. They become the candidate sequence, the `angle` parameter and the optional hit normal. So `neighbourDistance`, `obstacleDistance` and the layer masks, which only parametrise those queries, are not modelled. For the same reason the move of an enemy to the "Obstacle" layer (BoidUnit.cs line 74) is not modelled. That move does change what the layer-filtered queries of other units return (lines 91, 230 and 309). Depending on the inspector masks, an enemy can drop out of their scan candidates and become a ray obstacle, giving them an obstacle vector and a boost of 10. The model receives this only through the `colls` and `hit` inputs, which it leaves unconstrained. The candidates are taken as `BoidUnit`s, which folds `colls[i].GetComponent<BoidUnit>()` (line 94) into the query result. So the model assumes that every collider on the boid layer carries a `BoidUnit` on the same object. In the source, a collider without one adds `null` to the neighbours, and the aggregate loops then fail at lines 250, 270 and 288.
- `Vector3.normalized` is abstract. Its square root and its small-magnitude cut-off are not modelled, and only `norm(zero) = zero` is assumed where needed. `targetVec == Vector3.zero` is modelled as exact equality; Unity's `==` is approximate.
- Floating-point rounding: all arithmetic is on exact reals.
- Randomness and timers: `Random.Range` and `Random.insideUnitSphere` become the parameters `enemyRoll`, `drawnSpeed` and `drawnEgo`. The model does not state that a draw lies in its range. The endless re-scheduling of both loops is left out: the UniTask delays, the coroutine restarts and every pass after the first. `FindNeighbour` models one pass of the neighbour loop and `CalcEgoVector` one pass of the ego loop. Each stands for both of its variants, because the scan bodies at lines 89-100 and 228-239 and the draws at lines 108-109 and 221-222 are identical. After initialisation, speed and `egoVector` are whatever the record holds.
- Orientation: `Quaternion.LookRotation` writes (BoidUnit.cs line 152, BoidUpdater.cs line 58) are left out, so no transform's forward is ever updated.
- Rendering and debugging: the colour set-up and protective-colour blending, `Debug.DrawLine` and `DrawVectorGizmo` have no effect on steering.
- Jobs machinery: scheduling, Burst, the never-completed `JobHandle` and the never-disposed `TempJob` array are left out. The parallel job is a sequential pass run to completion inside `BoidUpdate`, so data races are not modelled.
- `UpdateJob` only passes `main.boidList` to `BoidUpdate`. The `Boids` owner is not part of this model, so `BoidUpdate` takes the list directly. The capacity hint of `new TransformAccessArray(main.boidCount)` is not modelled.
- `Updater.BoidUpdater.BoidUpdate`: requires the transform list to be no longer than the boid list, because the job reads the snapshot at every transform index and an out-of-range read has no meaning in the model. It also requires the listed transforms to be distinct, because a repeated transform would be written by two job indices.
- `Updater.BoidUpdater.RemoveBoid`: requires an index within the transform list. The source does not check it; `RemoveAtSwapBack` is engine code, and its out-of-range behaviour is not modelled.
- `Boid.BoidUnit.constructor`: stands for the component as the engine creates it, with the inspector values `FOVAngle` and `maxNeighbourCount` (defaults 120 and 50) as parameters.
