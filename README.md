# Splat matter scene core, in Dafny

The scene engine drives a scripted 3-D scene made of "splat" particles of three
materials: glass, smoke and water. This project models its simulation and
scripting core and proves properties of that model:

- **SpatialHash** (module `Spatial`): a uniform grid index. Buckets map a cell key
  to the particles filed in that cell, and a reverse lookup maps each id to its
  particle and cell. `Query` returns exactly the filed particles within a radius
  that pass the material filter.
- **Timeline** (module `Timelines`): a script of events sorted by time. A cursor
  fires every event that falls due, once each and in order. Firing an event runs
  its action's handler, if there is one, and then announces the event; the end of
  the script announces completion. Handler calls and announcements are recorded
  in one log.
- **SplatMatterSolver**: its discrete rules are pure functions on particle
  sequences (module `MatterRules`). Its in-place object is module `MatterSolver`:
  it keeps a particle list and a grid index and updates them pass by pass. The
  rules are the `dt` clamp, gravity, the per-material constraint passes,
  integration (move, smoke fade floor, world floor, glass shatter threshold),
  shatter, explode and the impulse sphere.
- **Engine protocol** (module `Protocol`): the commands, the replies and the
  notifications. The shared transition `Apply` says what one command does to a
  hosted solver.
- **splatWorker** (module `SplatWorker`): the worker's message handler, as a pure
  function and as a method on the worker scope.
- **SplatMatterEngine** (module `MatterEngine`): a ready-gated dispatcher. With
  worker support it posts commands to an outbox. Without it, it runs an inline
  solver and records the notifications it emits.
- **WalkController** (module `Walking`): the path bookkeeping and segment
  location.
- **LipSyncAnimator** (module `LipSync`): loudness to mouth shape.

Worker messages, handler calls and emitted events are modelled as append-only
sequences. The clocks (`performance.now()`) and the random shatter kicks become
parameters.

Where the design and the code disagree, the model follows the code:

- **Water pool height is not an invariant of a step.** The pool clamp runs inside
  the water rule of each pass, and integration runs after it. So water resting on
  the surface sinks below it in the same step (`MatterScenarios.WaterOnSurfaceSinks`).
  The repository's own test starts half a unit underwater, and there the particle
  does end above the surface (`MatterScenarios.SubmergedWaterSurfaces`).
- **The inline engine's `step` emits only `update`, never `shatter`**, even when
  integration breaks glass.
- **The two shatter counts differ.** After `shatter`, the worker counts shattered
  particles of the given material. The inline engine counts shattered particles of
  every material and labels the count with the given material. `Protocol.ModesAgree`
  proves the two are equal exactly when no particle of another material is shattered.
- **`terminate` acts in every state**, ready or not.

## Model

| member | source | states |
|---|---|---|
| Types.MaterialConfigOf | src/core/SplatMatterSolver.ts:68 | a particle's material selects that material's entry of the configuration |
| Types.Resolve | src/core/types.ts:3-12 | an absent optional parameter reads as the default; a present one, even 0, is kept |
| Types.DefaultsWhenAbsent | src/core/SplatMatterSolver.ts:95-196 | an empty material configuration resolves to the defaults the solver hard-codes: cohesion 0.5, shatter velocity 5, restitution 0.2, repulsion 1, fade 1, surface tension 0.2, pool height 0 |
| Spatial.KeyOf | src/core/SpatialHash.ts:24-29 | each coordinate of the cell key is the floor of position / cell size: k <= p / s < k + 1 |
| Spatial.ReachCovers | src/core/SpatialHash.ts:72-84 | every position within `radius` of the origin lies in a cell at most ceil(radius / cellSize) cells from the origin cell on each axis, so the cube scan misses nothing |
| Spatial.Upserted | src/core/SpatialHash.ts:31-55 | an id already filed under the same key leaves the lookup untouched; otherwise the id's entry becomes (particle, key). Every other entry is kept and the id set grows by the id |
| Spatial.Without | src/core/SpatialHash.ts:38-46 | removing an id from a bucket keeps exactly the particles with another id, and keeps ids distinct |
| Spatial.DropKeepsConsistent | src/core/SpatialHash.ts:57-70 | removing an id's entry and filtering it out of its bucket keeps buckets and lookup consistent and leaves no particle with that id |
| Spatial.InsertKeepsConsistent | src/core/SpatialHash.ts:48-54 | appending a new particle to its cell's bucket and filing its entry keeps buckets and lookup consistent |
| Spatial.SpatialHash.constructor | src/core/SpatialHash.ts:20-22 | an empty, consistent index with the given cell size |
| Spatial.SpatialHash.Upsert | src/core/SpatialHash.ts:31-55 | keeps the index consistent; the lookup becomes `Upserted` of the old one; a same-cell upsert changes nothing; afterwards the particle is filed in its own cell, and only there |
| Spatial.SpatialHash.Remove | src/core/SpatialHash.ts:57-70 | keeps the index consistent; the id leaves the lookup and every bucket; an unknown id changes nothing |
| Spatial.SpatialHash.Query | src/core/SpatialHash.ts:72-100 | every result is a filed particle that passes the material filter and is within the radius; for a non-negative radius, every such particle is in the results; no id appears twice |
| Spatial.SpatialHash.ScanRow | src/core/SpatialHash.ts:78-95 | scanning the row of cells (x, y, -range..range) keeps what was found, adds exactly the filed, matching particles of that row, and keeps ids distinct |
| Spatial.SpatialHash.ScanCell | src/core/SpatialHash.ts:85-95 | scanning one cell keeps what was found and adds exactly the filed particles of that cell that pass the filter and are in range; with nothing yet found from that cell, ids stay distinct |
| Spatial.SpatialHash.Values | src/core/SpatialHash.ts:102-104 | every filed particle, each exactly once (in no particular order) |
| Spatial.SpatialHash.Clear | src/core/SpatialHash.ts:106-109 | nothing remains filed |
| Timelines.Insert | src/core/Timeline.ts:23 | inserting into a time-sorted script keeps it sorted and adds exactly one copy of the event |
| Timelines.InsertAtTime | src/core/Timeline.ts:23 | the inserted event goes ahead of every event at its own time, and events at other times keep their order |
| Timelines.SortByTime | src/core/Timeline.ts:19-26 | the constructor's order is sorted by time, a permutation of the script, and stable: the events at any one time keep their script order |
| Timelines.NextCursor | src/core/Timeline.ts:70-80 | the dispatch loop stops at the first event after `t`, or at the end, and every event it passes is due |
| Timelines.NextCursorExact | src/core/Timeline.ts:70-80 | on a sorted script, an unfired event is fired exactly when its time is at most `t` |
| Timelines.FiredAnnouncesEach | src/core/Timeline.ts:70-80 | firing events lo..hi announces exactly those events, once each and in order, with or without handlers |
| Timelines.FiredCalls | src/core/Timeline.ts:82-87 | the handler calls made while firing are one call per fired event whose action has a handler, with its params, in order |
| Timelines.AnnouncedAppend | src/core/Timeline.ts:76-77 | announcements and calls of a concatenated log are those of the parts, in order |
| Timelines.ExecutionSignals | src/core/Timeline.ts:82-87 | running a handler is a call and announces nothing |
| Timelines.Timeline.constructor | src/core/Timeline.ts:19-26 | the kept script is the sorted one; the cursor is 0; the timeline is stopped at time 0 with nothing logged |
| Timelines.Timeline.Start | src/core/Timeline.ts:28-33 | playing from `startAt`: cursor 0, clock origin now - startAt, current time startAt |
| Timelines.Timeline.Stop | src/core/Timeline.ts:35-37 | no longer playing |
| Timelines.Timeline.Reset | src/core/Timeline.ts:39-42 | cursor and current time back to 0; playing is unchanged |
| Timelines.Timeline.UpdateHandlers | src/core/Timeline.ts:44-46 | given handlers replace same-named ones, and the rest are kept |
| Timelines.Timeline.Tick | src/core/Timeline.ts:48-59 | stopped: nothing changes. Playing: the time becomes now - clock origin, every due event fires in order, and reaching the duration stops the timeline and logs completion once |
| Timelines.Timeline.AdvanceTo | src/core/Timeline.ts:61-64 | jumps to `time` and fires what is due, whether or not the timeline plays |
| Timelines.Timeline.GetTime | src/core/Timeline.ts:66-68 | the current time |
| Timelines.Timeline.DispatchEvents | src/core/Timeline.ts:70-80 | the cursor moves to `NextCursor`, and the log grows by the fired events' calls and announcements, in order |
| Timelines.Timeline.Execute | src/core/Timeline.ts:82-87 | calls the action's handler with the event's params, if there is one |
| Timelines.ChronologicalHandlers | tests/core/Timeline.test.ts:13-26 | with events at 1 s and 2 s sharing one handler, starting at 0 and advancing to 2.1 s makes exactly two calls, the first with the earlier event's params |
| MatterRules.BuildIndexSound | src/core/SplatMatterSolver.ts:62-65 | a freshly rebuilt index names, for every id, a slot that holds a particle with that id |
| MatterRules.IndexUpToFresh | src/core/SplatMatterSolver.ts:62-65 | after upserting the first n particles, each of their ids is filed, under a slot holding that id, by that particle's current cell |
| MatterRules.FreshQueryExact | src/core/SpatialHash.ts:72-100 | on a fresh index over distinct ids, a query hits a particle exactly when the brute-force distance and material filter accepts it |
| MatterRules.ClampDt | src/core/SplatMatterSolver.ts:45 | dt = min(delta, 0.033) |
| MatterRules.WithGravity | src/core/SplatMatterSolver.ts:47-51 | gravity times dt is added to the velocity; nothing else changes |
| MatterRules.GravityAll | src/core/SplatMatterSolver.ts:47-51 | every particle gets gravity, and the population keeps its identities |
| MatterRules.PoolClamp | src/core/SplatMatterSolver.ts:197-200 | below the pool surface a particle is lifted onto it and its vertical velocity is damped by -0.2; otherwise it is unchanged; either way it ends on or above the pool |
| MatterRules.MaterialRule | src/core/SplatMatterSolver.ts:67-80 | no rule changes identity, opacity or the shattered flag; smoke keeps its position; water ends on or above its pool |
| MatterRules.RulePass | src/core/SplatMatterSolver.ts:67-80 | every slot gets its material's rule, and the population keeps its identities |
| MatterRules.Falloff | src/core/SplatMatterSolver.ts:230 | max(0, 1 - distance / radius): in [0, 1], 0 at or beyond the radius, linear inside it |
| MatterRules.ImpulseSphere | src/core/SplatMatterSolver.ts:223-235 | every particle the index finds within the radius, of any material, gets its kick; every other particle is unchanged; positions, opacities and flags are kept |
| MatterRules.ImpulsesUpTo | src/core/SplatMatterSolver.ts:82-84 | the influence's impulses, applied in order, keep the population, positions, opacities and flags |
| MatterRules.ImpulsesUpToNext | src/core/SplatMatterSolver.ts:82-84 | applying k + 1 impulses is applying the (k+1)-th, scaled by dt, after the first k |
| MatterRules.Pass | src/core/SplatMatterSolver.ts:62-65 | a pass leaves the index freshly rebuilt from the particles it started with |
| MatterRules.PassShape | src/core/SplatMatterSolver.ts:57-86 | a pass keeps the population and its identities |
| MatterRules.AfterPasses | src/core/SplatMatterSolver.ts:57-86 | zero passes leave the state as it was |
| MatterRules.PassesKeepShape | src/core/SplatMatterSolver.ts:57-86 | any number of passes keeps the population and its identities |
| MatterRules.PassSound | src/core/SplatMatterSolver.ts:57-86 | a pass leaves a sound index behind |
| MatterRules.AfterPassesSound | src/core/SplatMatterSolver.ts:57-86 | any number of passes keeps a sound index sound |
| MatterRules.AfterPassesNext | src/core/SplatMatterSolver.ts:61 | pass n + 1 runs on the state after n passes |
| MatterRules.Faded | src/core/SplatMatterSolver.ts:94-99 | smoke opacity is multiplied by the fade factor and never goes below 0.05; other materials are untouched |
| MatterRules.Floored | src/core/SplatMatterSolver.ts:101-104 | below y = -4 a particle is put on the floor and its vertical velocity is reflected, damped by 0.1; it always ends on or above the floor |
| MatterRules.ThresholdShatter | src/core/SplatMatterSolver.ts:106-117 | unshattered glass faster than the threshold breaks and its velocity is scaled by restitution; anything else is unchanged; a broken particle stays broken |
| MatterRules.IntegrateParticle | src/core/SplatMatterSolver.ts:88-119 | integration keeps identity, ends on or above the floor, keeps smoke at or above 0.05 opacity and other opacities unchanged, changes no non-glass flag, and breaks glass over the threshold |
| MatterRules.IntegrateAll | src/core/SplatMatterSolver.ts:88-119 | every particle is integrated, and the population keeps its identities |
| MatterRules.Step | src/core/SplatMatterSolver.ts:43-55 | a step keeps the population and its identities, never un-shatters a particle, leaves every particle on or above the floor and every smoke particle at or above 0.05 opacity, and leaves the index alone when no passes run |
| MatterRules.StepKeepsSound | src/core/SplatMatterSolver.ts:43-55 | a step keeps a sound index sound |
| MatterRules.Shatter | src/core/SplatMatterSolver.ts:237-245 | every material-m particle the index finds within the radius is flagged and kicked; nothing else changes; only material-m particles within the radius change |
| MatterRules.Explode | src/core/SplatMatterSolver.ts:247-259 | only material-m particles within the fixed radius 2.5 are pushed away from the origin; nothing else changes |
| MatterRules.CountShattered | src/core/SplatMatterEngine.ts:100 | the count of shattered particles is at most the population |
| MatterRules.CountShatteredOf | src/workers/splatWorker.ts:79-82 | the count of shattered particles of one material is at most the population |
| MatterRules.CountShatteredOfAtMost | src/workers/splatWorker.ts:79-82 | the per-material count is at most the all-material count, and the two are equal exactly when every shattered particle has that material |
| MatterRules.CountShatteredOfGrows | src/core/SplatMatterSolver.ts:106-117 | rules that keep identities never lower a per-material shatter count |
| MatterRules.SameShapeKeepsSound | src/core/SplatMatterSolver.ts:237-259 | an index stays sound while every slot keeps its id |
| MatterSolver.SplatMatterSolver.constructor | src/core/SplatMatterSolver.ts:23-29 | the solver keeps the configuration and the initial particles, and files them into a sound index |
| MatterSolver.SplatMatterSolver.SetParticles | src/core/SplatMatterSolver.ts:31-37 | the population is replaced and refiled from an empty index |
| MatterSolver.SplatMatterSolver.Rebuild | src/core/SplatMatterSolver.ts:62-65 | the index becomes the fresh one built by upserting every particle in list order, and is sound |
| MatterSolver.SplatMatterSolver.GetParticles | src/core/SplatMatterSolver.ts:39-41 | the current particles |
| MatterSolver.SplatMatterSolver.UpdateEach | src/core/SplatMatterSolver.ts:47-51 | one pass in place: slot i becomes f(i, old slot i), and the length is kept |
| MatterSolver.SplatMatterSolver.Step | src/core/SplatMatterSolver.ts:43-55 | the new state is `MatterRules.Step` of the old one, and a sound index stays sound |
| MatterSolver.SplatMatterSolver.SolveMaterials | src/core/SplatMatterSolver.ts:57-86 | the new state is the old one after `iterations` passes |
| MatterSolver.SplatMatterSolver.RunPass | src/core/SplatMatterSolver.ts:61-85 | the new state is `MatterRules.Pass` of the old one |
| MatterSolver.SplatMatterSolver.ApplyImpulses | src/core/SplatMatterSolver.ts:82-84 | the particles become the old ones after every impulse, in order, each scaled by dt |
| MatterSolver.SplatMatterSolver.ApplyImpulseSphere | src/core/SplatMatterSolver.ts:223-235 | the particles become `ImpulseSphere` of the old ones |
| MatterSolver.SplatMatterSolver.Shatter | src/core/SplatMatterSolver.ts:237-245 | the particles become `MatterRules.Shatter` of the old ones |
| MatterSolver.SplatMatterSolver.Explode | src/core/SplatMatterSolver.ts:247-259 | the particles become `MatterRules.Explode` of the old ones |
| MatterScenarios.PoolAll | src/core/SplatMatterSolver.ts:197-200 | water particles are lifted to the pool, and every other particle is untouched |
| MatterScenarios.PoolAllIdempotent | src/core/SplatMatterSolver.ts:197-200 | lifting to the pool twice is lifting once |
| MatterScenarios.StillPass | src/core/SplatMatterSolver.ts:57-86 | with no forces and no impulses, a pass only lifts water to the pool |
| MatterScenarios.StillPasses | src/core/SplatMatterSolver.ts:57-86 | any positive number of such passes is a single lift |
| MatterScenarios.StillStep | src/core/SplatMatterSolver.ts:43-55 | a step with no forces is gravity, one lift of water to the pool, then integration |
| MatterScenarios.StillStepSingle | src/core/SplatMatterSolver.ts:43-55 | the same, for a single particle and a dt under the clamp |
| MatterScenarios.TestGlassBreaks | tests/core/SplatMatterSolver.test.ts:56-68 | 10 units/s is past the 5 units/s threshold |
| MatterScenarios.TestGlassFlies | tests/core/SplatMatterSolver.test.ts:56-68 | the test particle does not reach the floor in one 16 ms step, and glass does not fade |
| MatterScenarios.TestGlassRebounds | tests/core/SplatMatterSolver.test.ts:56-68 | the break scales the velocity by the test restitution 0.2 |
| MatterScenarios.FastGlassBreaks | tests/core/SplatMatterSolver.test.ts:56-68 | integration breaks the test glass particle and keeps a fifth of its velocity |
| MatterScenarios.TestConfigFacts | tests/core/SplatMatterSolver.test.ts:5-27 | the test configuration's iterations, gravity, glass threshold, restitution and pool height |
| MatterScenarios.TestGravity | tests/core/SplatMatterSolver.test.ts:56-68 | 16 ms of gravity on the test particle |
| MatterScenarios.LoneGlassShatters | tests/core/SplatMatterSolver.test.ts:56-68 | a lone glass particle at 10 units/s is shattered after one 16 ms step |
| MatterScenarios.SubmergedWaterSurfaces | tests/core/SplatMatterSolver.test.ts:42-54 | water starting at y = -0.5 ends the step at or above the pool height 0 |
| MatterScenarios.WaterOnSurfaceSinks | src/core/SplatMatterSolver.ts:88-92 | water at rest on the pool surface ends the step below it, because integration follows the clamp |
| Protocol.Install | src/workers/splatWorker.ts:60-64 | a new solver holds the configuration and the particles, with a sound index |
| Protocol.Apply | src/workers/splatWorker.ts:65-100 | every command keeps the configuration; reset installs the new particles; the others keep the population; shatter, explode and impulse leave the index alone |
| Protocol.ApplyKeepsSound | src/workers/splatWorker.ts:65-100 | every command keeps a sound index sound |
| Protocol.ShatterCountGrows | src/workers/splatWorker.ts:75-90 | a shatter command never lowers the shatter count of its material |
| Protocol.Posted | src/workers/splatWorker.ts:65-114 | after a command the worker posts the solver's state, and after shatter also the per-material count, which is at most the population |
| Protocol.Relay | src/core/SplatMatterEngine.ts:141-150 | each reply becomes the notification of the same kind and payload |
| Protocol.RelayAll | src/core/SplatMatterEngine.ts:141-150 | every reply is relayed, in order |
| Protocol.Echoed | src/core/SplatMatterEngine.ts:72-130 | the inline engine emits the snapshot, and after shatter the all-material count |
| Protocol.ModesAgree | src/core/SplatMatterEngine.ts:96-101 | worker and inline modes announce the same snapshot; they announce the same shatter count exactly when no particle of another material is shattered |
| Protocol.Cached | src/core/SplatMatterEngine.ts:141-146 | a state reply replaces the cached particles, and a count reply keeps them |
| Protocol.CachedAll | src/core/SplatMatterEngine.ts:141-150 | count replies alone keep the cache; a final state reply decides it |
| Protocol.CacheTracksWorker | src/core/SplatMatterEngine.ts:141-150 | once a command's replies are read, the engine's cache holds exactly the worker's particles |
| SplatWorker.Handle | src/workers/splatWorker.ts:57-104 | init installs a solver and posts its state; any other command before init does nothing and posts nothing; with a solver, the command is applied and its replies are posted; unknown message types are ignored |
| SplatWorker.RepliesDescribeHost | src/workers/splatWorker.ts:57-114 | any reply implies a solver; the first reply is its state; every count reply is that solver's count for its material |
| SplatWorker.HandleKeepsSound | src/workers/splatWorker.ts:57-104 | the hosted solver's index stays sound across every message |
| SplatWorker.BeforeInitSilent | src/workers/splatWorker.ts:65-100 | messages sent before init are lost: nothing is posted and no solver appears |
| SplatWorker.Run | src/workers/splatWorker.ts:57-104 | an installed solver stays installed, and a non-empty reply stream implies one |
| SplatWorker.WorkerScope.constructor | src/workers/splatWorker.ts:9 | the worker starts without a solver |
| SplatWorker.WorkerScope.OnMessage | src/workers/splatWorker.ts:57-104 | the hosted solver and the posted replies are those of `Handle`; only init replaces the solver object |
| SplatWorker.WorkerScope.PostState | src/workers/splatWorker.ts:106-114 | the solver's particles, or nothing without a solver |
| MatterEngine.SplatMatterEngine.constructor | src/core/SplatMatterEngine.ts:22-29 | not ready, no worker, no solver, no configuration, nothing cached, emitted or posted |
| MatterEngine.SplatMatterEngine.Initialize | src/core/SplatMatterEngine.ts:31-48 | ready, with the configuration and particles cached; with worker support `init` is posted, otherwise a fresh inline solver holds `Install` of them |
| MatterEngine.SplatMatterEngine.IsReady | src/core/SplatMatterEngine.ts:50-52 | ready exactly while a worker or a solver is owned |
| MatterEngine.SplatMatterEngine.GetParticles | src/core/SplatMatterEngine.ts:54-59 | the inline solver's particles, otherwise the cache |
| MatterEngine.SplatMatterEngine.Step | src/core/SplatMatterEngine.ts:61-75 | not ready: nothing changes; worker: `step` is posted; inline: the solver takes the `Apply` transition, its particles are cached, and one update is emitted |
| MatterEngine.SplatMatterEngine.ResetParticles | src/core/SplatMatterEngine.ts:77-88 | ready: the cache takes the new particles, and they are posted or installed inline and emitted |
| MatterEngine.SplatMatterEngine.Shatter | src/core/SplatMatterEngine.ts:90-103 | worker: posted; inline: the solver shatters, then the snapshot and the all-material count are emitted; the cache is not reassigned |
| MatterEngine.SplatMatterEngine.Explode | src/core/SplatMatterEngine.ts:105-116 | worker: posted; inline: the solver explodes and the snapshot is emitted; the cache is not reassigned |
| MatterEngine.SplatMatterEngine.ApplyImpulse | src/core/SplatMatterEngine.ts:118-132 | worker: posted; inline: the impulse at the given strength is applied and the snapshot is emitted; the cache is not reassigned |
| MatterEngine.SplatMatterEngine.Terminate | src/core/SplatMatterEngine.ts:134-139 | worker and solver dropped, not ready, everything else kept |
| MatterEngine.SplatMatterEngine.HandleWorkerMessage | src/core/SplatMatterEngine.ts:141-150 | the cache becomes `Cached` of the reply, and the reply is re-emitted as its notification |
| Walking.Min | src/characters/WalkController.ts:33 | the smaller of the two |
| Walking.ElapsedAfter | src/characters/WalkController.ts:33 | elapsed time advances by delta but never past the duration |
| Walking.Locate | src/characters/WalkController.ts:34-41 | a zero duration or a negative position along the path has no placement; otherwise the segment index lies in range, index + fraction is the scaled time, and the fraction is non-negative (at most 1 within the duration) |
| Walking.LocateWithinPath | src/characters/WalkController.ts:34-41 | a positive duration and a time within it always give a placement with its fraction in [0, 1] |
| Walking.FractionOfWhole | src/characters/WalkController.ts:34 | elapsed / duration lies in [0, 1] for a time within a positive duration |
| Walking.ElapsedAfterUpdatesClosed | src/characters/WalkController.ts:33 | k updates of a fixed non-negative delta from a fresh path leave min(k * delta, duration) elapsed |
| Walking.WalkController.constructor | src/characters/WalkController.ts:10-17 | no path and a zero bob clock |
| Walking.WalkController.SetPath | src/characters/WalkController.ts:19-26 | a fresh path over the points with nothing elapsed |
| Walking.WalkController.Update | src/characters/WalkController.ts:28-51 | no path: nothing. Fewer than two points: only the elapsed time advances. Otherwise the character is placed on an existing segment, the bob clock advances by 4 * delta, and the path is dropped once its duration is reached. A zero duration or negative time is a fault |
| Walking.WalkNeverFaults | src/characters/WalkController.ts:28-51 | on a path of at least two points with a positive duration, a non-negative update never faults and its fraction lies in [0, 1] |
| Walking.PathDroppedAtEnd | src/characters/WalkController.ts:48-50 | with fixed non-negative updates the path is dropped exactly once k * delta reaches the duration |
| LipSync.SumBounds | src/characters/LipSyncAnimator.ts:21-24 | a byte spectrum sums to between 0 and 255 per bin |
| LipSync.SumConstant | src/characters/LipSyncAnimator.ts:21-24 | a constant spectrum sums to that constant times its length |
| LipSync.Mean | src/characters/LipSyncAnimator.ts:25 | the mean loudness lies in [0, 255] |
| LipSync.VisemeIndex | src/characters/LipSyncAnimator.ts:26 | the shape index is never past the last shape; it is non-negative for non-negative input; below a raw index of 8 it is floor(average / 255 * 9), and from 8 on it is exactly the last shape (8) |
| LipSync.VisemeIndexMonotone | src/characters/LipSyncAnimator.ts:26 | a louder spectrum never picks an earlier shape |
| LipSync.SilenceRests | src/characters/LipSyncAnimator.ts:3-27 | silence picks `Rest` |
| LipSync.FullScaleIsL | src/characters/LipSyncAnimator.ts:3-27 | a spectrum at full scale picks `L` |
| LipSync.LipSyncAnimator.constructor | src/characters/LipSyncAnimator.ts:9 | the last shape starts at `Rest`, with no calls made |
| LipSync.LipSyncAnimator.Update | src/characters/LipSyncAnimator.ts:19-32 | the remembered shape becomes the spectrum's shape, and the character is told only when it changes, so no two consecutive calls repeat a shape |

## Left out

- Force magnitudes: the glass cohesion correction, the smoke repulsion from
  neighbours and from the character, and the water centroid pull
  (`src/core/SplatMatterSolver.ts:121-221`) are abstract deltas per pass and slot,
  in `MatterRules.Forces`. Their neighbour queries and arithmetic are not modelled.
  So the smoke test, where smoke is repelled away from the character, is not
  modelled either.
- Within one pass, the source's rules see positions already changed by earlier
  particles of the same pass. The model's abstract per-slot deltas stand for
  whatever each rule computes.
- `Math.sqrt` is an abstract function, of which only non-negativity is assumed.
  Floating-point rounding, NaN and Infinity are not modelled: arithmetic is on
  reals.
- The random shatter kicks are a parameter, each assumed in the source's ranges
  (x and z in [-5, 5), y in [0, 8)).
- Aliasing: the source's spatial hash and solver hold references to live particle
  objects. The model keeps particle values. The solver's index records each
  id's slot and the cell it was filed under at the last rebuild, and its queries
  test the particles' current positions, as the references would.
- `MatterSolver.SplatMatterSolver.SetParticles` and `MatterEngine.SplatMatterEngine.Step`,
  `Shatter`, `Explode` and `ApplyImpulse`: the model's particle copies are deep values.
  The source copies particles only shallowly (`src/core/SplatMatterSolver.ts:32`,
  `src/core/SplatMatterEngine.ts:73`) and updates position and velocity arrays in
  place. So its solver shares those vectors with the caller's input, with the
  engine's cached particles and with every `update` snapshot already emitted.
  For example, after an inline `initialize`, `shatter` and `terminate`, the source's
  `getParticles` returns the kicked velocities, with `shattered` still false. The
  model returns the particles as initialised, and earlier snapshots do not move
  with later steps.
- `Spatial.SpatialHash.Values`: the source returns the lookup's values in insertion
  order. The model's set-driven loop promises every filed particle once, in no
  particular order.
- `Protocol.Relay`: a relayed shatter notification from the worker carries the whole
  reply, including its `type` field (`src/core/SplatMatterEngine.ts:147-148`). The
  inline one carries only material and count (line 101). The model gives both the
  same shape.
- `Spatial.SpatialHash`: the cell size is required to be positive. A zero or
  negative cell size is not modelled.
- `MatterSolver.SplatMatterSolver` does not reuse `Spatial.SpatialHash`. It keeps
  only the reverse lookup (slot and cell per id) that its queries need.
- `MatterRules.PassCount`: `iterations` is an integer. A fractional count, which
  the source's `iter < iterations` loop would round up, is not modelled.
- Worker threads, `postMessage` and `Worker.terminate` are not modelled as
  concurrency. Commands go to an outbox, replies are handed to
  `HandleWorkerMessage` one at a time, and `terminate` only drops the worker.
- Whether the platform has workers is a constructor argument of the engine.
- The engine's "Solver not initialized" throw (`src/core/SplatMatterEngine.ts:69-71`)
  cannot happen while the engine is consistent, and is not modelled. The
  redundant configuration guard of `shatter` (line 91) always holds when the
  engine is ready.
- Emitted DOM events, the timeline's "event" and "completed" events, and handler
  calls are entries in a log. Handlers are names, not callbacks.
- `performance.now()` is the `now` parameter of `Start` and `Tick`.
- A missing influence is `Influence([], None)`.
- `Walking.WalkController.Update`: the interpolated position, the sine bob offset
  and the copy onto the character are not modelled. The update reports the
  segment and the fraction along it instead. Where the source would read a
  missing point and throw, the model returns a `Fault` outcome.
- `getPosition` of the walk controller returns the character's position, which
  is outside the model.
- `LipSync.LipSyncAnimator.Update`: the analyser and the audio graph are not
  modelled. The spectrum is a parameter of 256 bytes, as an analyser with an FFT
  size of 512 reports it.
