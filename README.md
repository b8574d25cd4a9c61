# PHARE ghost-filling bookkeeping and utilities, modelled in Dafny

PHARE is a hybrid particle-in-cell code with adaptive mesh refinement built on SAMRAI. This
project models the layer around its ghost-filling machinery and a few of its small utilities:

- `quantity_communicator.dfy`: the schedule cache of a `Communicator` and the rules by which
  `makeRefiner` and `makeSynchronizer` register one SAMRAI operation per vector component. A
  component is skipped when an id does not resolve. The resources manager is a partial map from
  quantity name to patch-data id. A communicator's algorithm is the list of registrations made on it.
- `hybrid_messenger.dfy`: the `HybridMessenger` facade. It holds one strategy, fixed at
  construction, and forwards every call to it.
- `solver_ppc.dfy`: the `SolverPPC` ghost-fill protocol. `advanceLevel` makes ten messenger calls
  over predictor 1, predictor 2 and the corrector. `fillMessengerInfo` appends the predicted
  fields. `moveIons_` sizes temporary particle arrays.
- `tag_strat.dfy`: the test tagging strategy. `initializeLevelData` allocates, registers the level,
  initialises it (by regrid, model initialisation or from the coarser level) and, on the root
  level, fills the ion ghost particles. `fillField` is also here.
- `h5_type_writer.dfy`: the diagnostics type writer. It covers the `finalize` dump counter and
  flush rule, the create-if-absent rule for files, and the per-level padding loops of
  `initDataSets_` and `writeAttributes_`.
- `caliper.dfy`: the indented-text-to-tree parser of the Caliper profile tool.
- `phare_cli.dfy`: `fromCommandLine`'s choice of a data provider.
- `core_types.dfy` and `core_algorithm.dfy`: `arange`, `StrongType`, `max`, `notIn` and `to_str`.
- `amr.dfy` and `wrappers.dfy`: the collaborators and the `Option`/`Result` types.

External collaborators are modelled only through the calls made on them. These are the messenger
strategy, the physical model, its resources manager, the pusher and the interpolator (`amr.dfy`).
Every call is appended to one shared `Log`, so the order of calls across collaborators can be
stated. Each imperative method's `ensures` ties the new log (or the new state) to a specification
function of its inputs. The lemmas then state the protocol those functions fix.

Simulation times are `real`: the source only passes its doubles along. Sizes and levels
(`std::size_t`) are `nat`. The one place where `std::size_t` wraps around matters (`npos + 1` in
`fromCommandLine`) is modelled explicitly, modulo 2^64.

In the tagging strategy's constructor, the info from the finer level is passed to
`registerQuantities` in its from-coarser position, and the info from the coarser level in its
from-finer position (tests/diagnostic/tag_strat.h:42 against
src/amr/messengers/hybrid_messenger.h:100-104). The model keeps that order as written. It is not a
finding, because the strategy that receives the two infos is not part of this model.

## Model

| member | source | states |
|---|---|---|
| QuantityCommunicator.Find | src/samrai_interface/evolution/messengers/quantity_communicator.h:83-93 | the lookup finds a schedule exactly when the level is in the map, and then it is the stored one |
| QuantityCommunicator.FindInEmpty | src/samrai_interface/evolution/messengers/quantity_communicator.h:54 | an empty schedule map finds nothing at any level |
| QuantityCommunicator.FindAfterStore | src/samrai_interface/evolution/messengers/quantity_communicator.h:101-104 | after storing s at a level, that level finds s, and every other level finds what it found before |
| QuantityCommunicator.Communicator.constructor | src/samrai_interface/evolution/messengers/quantity_communicator.h:61-75 | both constructors start with no registration and no schedule |
| QuantityCommunicator.Communicator.FindSchedule | src/samrai_interface/evolution/messengers/quantity_communicator.h:83-93 | findSchedule returns the level's schedule if there is one, else nothing; it reads the state and changes nothing |
| QuantityCommunicator.Communicator.Add | src/samrai_interface/evolution/messengers/quantity_communicator.h:97-104 | add overwrites the level's entry; findSchedule then returns the new schedule there, every other level is unchanged, and the algorithm is untouched |
| QuantityCommunicator.ResourcesManager.GetId | src/samrai_interface/evolution/messengers/quantity_communicator.h:142-144 | getID gives an id exactly for a known name, and it is that name's id |
| QuantityCommunicator.GhostComponent | src/samrai_interface/evolution/messengers/quantity_communicator.h:139-156 | the ghost lambda registers only when all three ids resolve, as (dest = ghost, src = model, old = old model, new = model, scratch = ghost) with the two operators |
| QuantityCommunicator.RegisterGhostComponent | src/samrai_interface/evolution/messengers/quantity_communicator.h:139-156 | one lambda call appends that registration, or nothing, to the algorithm, and leaves the schedules alone |
| QuantityCommunicator.MakeGhostRefiner | src/samrai_interface/evolution/messengers/quantity_communicator.h:130-164 | the ghost refiner is a fresh refiner with no schedule, whose registrations are those of the resolving x, y, z components (intended argument order, see Findings) |
| QuantityCommunicator.GhostRefinerRegistersResolvedComponents | src/samrai_interface/evolution/messengers/quantity_communicator.h:146-161 | at most three registrations, one per resolving component, each with dest = scratch and src = new; in x, y, z order when all resolve |
| QuantityCommunicator.GhostRefinerSkipsUnresolved | src/samrai_interface/evolution/messengers/quantity_communicator.h:142-155 | a component whose ids do not all resolve is skipped without error, so at most two operations are registered |
| QuantityCommunicator.GhostComponentsAsWritten | src/samrai_interface/evolution/messengers/quantity_communicator.h:139-161 | the three lambda calls as written, with ghost.xName in the lambda's model slot and model.xName in its ghost slot |
| QuantityCommunicator.AsWrittenFillsTheModelFromTheGhost | src/samrai_interface/evolution/messengers/quantity_communicator.h:139-161 | as written, a resolving component registers the model's id as dest and scratch and the ghost's id as src and new; this differs from the documented registration whenever the two ids differ |
| QuantityCommunicator.AsWrittenSwapExample | src/samrai_interface/evolution/messengers/quantity_communicator.h:139-161 | a concrete resources manager for which the first registration as written is RefineWithTime(0, 3, 6, 3, 0) while the intended one is RefineWithTime(3, 0, 6, 0, 3) |
| QuantityCommunicator.InitComponent | src/samrai_interface/evolution/messengers/quantity_communicator.h:180-187 | the init lambda registers exactly when the name resolves, with its id in all three slots |
| QuantityCommunicator.RegisterInitComponent | src/samrai_interface/evolution/messengers/quantity_communicator.h:180-187 | one init lambda call appends that registration, or nothing |
| QuantityCommunicator.MakeInitRefiner | src/samrai_interface/evolution/messengers/quantity_communicator.h:173-194 | the vector init refiner is fresh, with no schedule, and registers the resolving x, y, z components in order |
| QuantityCommunicator.InitRegistersResolvedComponents | src/samrai_interface/evolution/messengers/quantity_communicator.h:180-191 | the vector init refiner registers exactly as many operations as names resolve, and an operation is registered iff it is registerRefine(id, id, id) of a resolving component |
| QuantityCommunicator.MakeInitRefinerForName | src/samrai_interface/evolution/messengers/quantity_communicator.h:203-217 | the scalar init refiner is fresh and registers its name's operation only when the name resolves |
| QuantityCommunicator.CoarsenComponent | src/samrai_interface/evolution/messengers/quantity_communicator.h:233-240 | the synchronizer lambda registers exactly when the name resolves, with its id as destination and source |
| QuantityCommunicator.RegisterCoarsenComponent | src/samrai_interface/evolution/messengers/quantity_communicator.h:233-240 | one synchronizer lambda call appends that coarsening, or nothing |
| QuantityCommunicator.MakeSynchronizer | src/samrai_interface/evolution/messengers/quantity_communicator.h:225-247 | the vector synchronizer is fresh, has the given dimension and no schedule, and registers the resolving x, y, z components in order |
| QuantityCommunicator.CoarsenRegistersResolvedComponents | src/samrai_interface/evolution/messengers/quantity_communicator.h:233-244 | the vector synchronizer registers exactly as many coarsenings as names resolve, and a coarsening is registered iff it is registerCoarsen(id, id) of a resolving component |
| QuantityCommunicator.MakeSynchronizerForName | src/samrai_interface/evolution/messengers/quantity_communicator.h:252-264 | the scalar synchronizer is fresh and registers its name's coarsening only when the name resolves |
| QuantityCommunicator.SingleNameRegistersAtMostOne | src/samrai_interface/evolution/messengers/quantity_communicator.h:210-261 | the single-name overloads register one operation when the name resolves and none otherwise |
| QuantityCommunicator.ResolvedFacts | src/samrai_interface/evolution/messengers/quantity_communicator.h:146-155 | registrations made by skipping unresolved candidates: one per resolved candidate, exactly the resolved ones, in candidate order |
| QuantityCommunicator.ResolvedAppend | src/samrai_interface/evolution/messengers/quantity_communicator.h:159-161 | the registrations of successive lambda calls concatenate |
| QuantityCommunicator.ResolvedCountMatchesNames | src/samrai_interface/evolution/messengers/quantity_communicator.h:180-244 | when a candidate exists exactly when its name resolves, as many operations are registered as names resolve |
| QuantityCommunicator.CountResolvedBelow | src/samrai_interface/evolution/messengers/quantity_communicator.h:142-155 | one unresolved candidate makes the registrations fewer than the candidates |
| HybridMessengers.TwoStrategyKinds | src/amr/messengers/hybrid_messenger.h:22 | there are exactly two strategy kinds, HybridHybrid and MHDHybrid |
| HybridMessengers.HybridMessenger.constructor | src/amr/messengers/hybrid_messenger.h:68-71 | the strategy is the one given, held in a const field that is never replaced |
| HybridMessengers.HybridMessenger.Name | src/amr/messengers/hybrid_messenger.h:237-247 | name() succeeds iff a strategy is present, returning the strategy's name, and otherwise throws runtime_error("invalid strat") |
| HybridMessengers.NameIsStrategyName | src/amr/messengers/hybrid_messenger.h:199-247 | a messenger built on a strategy answers name(), fineModelName() and coarseModelName() with the strategy's values |
| HybridMessengers.HybridMessenger.FineModelName | src/amr/messengers/hybrid_messenger.h:199 | fineModelName() is the strategy's |
| HybridMessengers.HybridMessenger.CoarseModelName | src/amr/messengers/hybrid_messenger.h:208 | coarseModelName() is the strategy's |
| HybridMessengers.HybridMessenger.Allocate | src/amr/messengers/hybrid_messenger.h:84-87 | exactly one allocate call reaches the strategy, with the same patch and time |
| HybridMessengers.HybridMessenger.RegisterQuantities | src/amr/messengers/hybrid_messenger.h:100-104 | exactly one registerQuantities call reaches the strategy, with both infos in the same (fromCoarser, fromFiner) order |
| HybridMessengers.HybridMessenger.RegisterLevel | src/amr/messengers/hybrid_messenger.h:112-116 | exactly one registerLevel call, same hierarchy and level number |
| HybridMessengers.HybridMessenger.Regrid | src/amr/messengers/hybrid_messenger.h:123-129 | exactly one regrid call, same arguments |
| HybridMessengers.HybridMessenger.InitLevel | src/amr/messengers/hybrid_messenger.h:139-143 | exactly one initLevel call, same arguments |
| HybridMessengers.HybridMessenger.FirstStep | src/amr/messengers/hybrid_messenger.h:150-155 | exactly one firstStep call, same arguments |
| HybridMessengers.HybridMessenger.LastStep | src/amr/messengers/hybrid_messenger.h:163-166 | exactly one lastStep call, same arguments |
| HybridMessengers.HybridMessenger.PrepareStep | src/amr/messengers/hybrid_messenger.h:173-176 | exactly one prepareStep call, same arguments |
| HybridMessengers.HybridMessenger.FillRootGhosts | src/amr/messengers/hybrid_messenger.h:180-184 | exactly one fillRootGhosts call, same arguments |
| HybridMessengers.HybridMessenger.Synchronize | src/amr/messengers/hybrid_messenger.h:188-191 | exactly one synchronize call, same level |
| HybridMessengers.HybridMessenger.EmptyInfoFromCoarser | src/amr/messengers/hybrid_messenger.h:216-219 | the info returned is the strategy's new empty info, from exactly one call |
| HybridMessengers.HybridMessenger.EmptyInfoFromFiner | src/amr/messengers/hybrid_messenger.h:226-229 | the info returned is the strategy's new empty info, from exactly one call |
| HybridMessengers.HybridMessenger.FillMagneticGhosts | src/amr/messengers/hybrid_messenger.h:265-268 | exactly one fillMagneticGhosts call, same field, level number and time |
| HybridMessengers.HybridMessenger.FillElectricGhosts | src/amr/messengers/hybrid_messenger.h:278-281 | exactly one fillElectricGhosts call, same field, level number and time |
| HybridMessengers.HybridMessenger.FillCurrentGhosts | src/amr/messengers/hybrid_messenger.h:292-295 | exactly one fillCurrentGhosts call, same field, level number and time |
| HybridMessengers.HybridMessenger.FillIonGhostParticles | src/amr/messengers/hybrid_messenger.h:307-311 | exactly one fillIonGhostParticles call, same ions, level and time |
| HybridMessengers.HybridMessenger.FillIonMomentGhosts | src/amr/messengers/hybrid_messenger.h:322-326 | exactly one fillIonMomentGhosts call, same ions, level and both times |
| HybridMessengers.HybridMessenger.SyncMagnetic | src/amr/messengers/hybrid_messenger.h:332 | exactly one syncMagnetic call, same field |
| HybridMessengers.HybridMessenger.SyncElectric | src/amr/messengers/hybrid_messenger.h:333 | exactly one syncElectric call, same field |
| HybridMessengers.HybridMessenger.SyncIonMoments | src/amr/messengers/hybrid_messenger.h:334 | exactly one syncIonMoments call, same ions |
| SolverPpc.SolverPPC.constructor | src/solver/solvers/solver_ppc.h:59-63 | the solver is named "PPC" and keeps the pusher name from its dictionary |
| SolverPpc.SolverPPC.ModelName | src/solver/solvers/solver_ppc.h:68 | modelName() is HybridModel::model_name, "HybridModel" |
| SolverPpc.SolverPPC.FillMessengerInfo | src/solver/solvers/solver_ppc.h:213-224 | exactly EMPred's E is appended to ghostElectric and EMPred's B to ghostMagnetic; the rest of the info is unchanged |
| SolverPpc.SolverPPC.RegisterResources | src/solver/solvers/solver_ppc.h:189-195 | the model's resources manager registers exactly EMPred, then EMAvg |
| SolverPpc.SolverPPC.Allocate | src/solver/solvers/solver_ppc.h:200-208 | the resources manager allocates exactly EMPred, then EMAvg, on the patch at allocateTime |
| SolverPpc.SolverPPC.MoveIons | src/solver/solvers/solver_ppc.h:112-184 | moveIons_ makes the pusher and interpolator calls of MoveIonsCalls, population by population |
| SolverPpc.MoveIonsCallsAppend | src/solver/solvers/solver_ppc.h:118-183 | the calls for one more population follow those of the earlier ones |
| SolverPpc.MoveIonsPredictor1Layout | src/solver/solvers/solver_ppc.h:120-153 | with predictor 1, population k's calls are 4k..4k+4: push the domain particles, deposit, push the patch ghosts, deposit |
| SolverPpc.MoveIonsPredictor1Length | src/solver/solvers/solver_ppc.h:118-163 | with predictor 1, four calls per population |
| SolverPpc.MoveIonsTemporariesMatchSources | src/solver/solvers/solver_ppc.h:127-141 | each temporary array is resized to the size of the particle array pushed into it |
| SolverPpc.MoveIonsPredictor2Empty | src/solver/solvers/solver_ppc.h:164-182 | predictor 2 makes no call |
| SolverPpc.SolverPPC.AdvanceLevel | src/solver/solvers/solver_ppc.h:229-368 | advanceLevel makes exactly the messenger calls of AdvanceLevelCalls, in order |
| SolverPpc.AdvanceLevelShape | src/solver/solvers/solver_ppc.h:255-363 | ten calls: B, E, ion ghost particles, ion moments for each predictor (predictor 2 repeats predictor 1), then B, E for the corrector |
| SolverPpc.AdvanceLevelFieldTargets | src/solver/solvers/solver_ppc.h:255-363 | the predictor fills target EMPred's B and E; only the corrector fills target the model state's B and E |
| SolverPpc.AdvanceLevelTimesAndLevels | src/solver/solvers/solver_ppc.h:256-363 | every field fill gets levelNumber and newTime; the ion fills get the model's ions and that patch level, at newTime, and the moment fills also get currentTime |
| TagStrat.FilledField | tests/diagnostic/tag_strat.h:4-16 | fillField's result: f at the node coordinate on every index from iStart to iEnd inclusive, every other value kept |
| TagStrat.FillField | tests/diagnostic/tag_strat.h:4-16 | the loop leaves the array equal to FilledField of its old contents |
| TagStrat.FilledFieldIdempotent | tests/diagnostic/tag_strat.h:10-15 | filling twice with the same function is filling once |
| TagStrat.FilledFieldForgetsRange | tests/diagnostic/tag_strat.h:10-15 | the result does not depend on the old values inside the range |
| TagStrat.TagStrategy.constructor | tests/diagnostic/tag_strat.h:27-43 | the two empty infos (from finer first); the model fills both, the solver only the one from finer, so its predicted E and B end the info from finer after whatever the model put there; then one registerQuantities(infoFromFiner, infoFromCoarser) |
| TagStrat.TagStrategy.AllocateLevel | tests/diagnostic/tag_strat.h:58-63 | each patch in turn is allocated by the model, then the solver, then the messenger |
| TagStrat.TagStrategy.InitialiseLevel | tests/diagnostic/tag_strat.h:68-84 | one call: regrid with an old level, else model.initialize on level 0, else initLevel |
| TagStrat.TagStrategy.InitializeLevelData | tests/diagnostic/tag_strat.h:46-90 | initializeLevelData makes exactly the calls of InitializeLevelCalls, in order |
| TagStrat.LevelAllocationLength | tests/diagnostic/tag_strat.h:58-63 | four allocation calls per patch |
| TagStrat.LevelAllocationLayout | tests/diagnostic/tag_strat.h:58-63 | patch k is allocated by calls 4k..4k+4, model then solver (EMPred, EMAvg) then messenger, at initDataTime |
| TagStrat.NoAllocationWithoutAllocateData | tests/diagnostic/tag_strat.h:56-66 | without allocateData nothing is allocated: the first call is registerLevel |
| TagStrat.AllocationPrecedesRegistration | tests/diagnostic/tag_strat.h:56-66 | with allocateData every patch is allocated, and registerLevel comes right after the last allocation |
| TagStrat.RegistrationThenInitialisation | tests/diagnostic/tag_strat.h:66-84 | registerLevel comes right after the allocations, and the level's initialisation right after it |
| TagStrat.ExactlyOneInitialisation | tests/diagnostic/tag_strat.h:66-84 | the level is registered exactly once and initialised exactly once |
| TagStrat.CountInitialisationsAppend | tests/diagnostic/tag_strat.h:56-89 | the number of initialisations and of level registrations of successive calls add up |
| TagStrat.LevelAllocationInitialisesNothing | tests/diagnostic/tag_strat.h:58-63 | allocation neither registers nor initialises a level |
| TagStrat.InitialisationKind | tests/diagnostic/tag_strat.h:68-84 | regrid iff an old level is given (with its arguments), model initialize iff none and level 0, initLevel iff none and level above 0 |
| TagStrat.RootLevelEndsWithIonGhostParticles | tests/diagnostic/tag_strat.h:86-89 | the last call is fillIonGhostParticles(model ions, level, initDataTime) iff the level is 0 |
| TagStrat.TagStrategy.ResetHierarchyConfiguration | tests/diagnostic/tag_strat.h:92-96 | resetHierarchyConfiguration makes no call |
| H5TypeWriters.NatToDecimal | src/diagnostic/detail/h5typewriter.h:71 | std::to_string of a level: decimal digits, at least one, no leading zero |
| H5TypeWriters.DecimalRoundTrip | src/diagnostic/detail/h5typewriter.h:71 | reading the digits back gives the level |
| H5TypeWriters.DigitRoundTrip | src/diagnostic/detail/h5typewriter.h:71 | each decimal digit reads back as itself |
| H5TypeWriters.PatchKey | src/diagnostic/detail/h5typewriter.h:71 | the key is the level's digits, '_', then the patch id |
| H5TypeWriters.PatchKeyInjective | src/diagnostic/detail/h5typewriter.h:71 | distinct (level, patch) pairs get distinct keys |
| H5TypeWriters.LevelInitCalls | src/diagnostic/detail/h5typewriter.h:68-74 | one level's initPatch calls: each local patch in order with its key, then maxPatches - patchNbr padding calls |
| H5TypeWriters.H5TypeWriter.InitLevel | src/diagnostic/detail/h5typewriter.h:68-74 | the two inner loops make exactly LevelInitCalls |
| H5TypeWriters.H5TypeWriter.InitDataSets | src/diagnostic/detail/h5typewriter.h:61-76 | initDataSets_ makes the calls of InitDataSetsCalls, from minLevel, and stops at the level patchIDs.at throws for |
| H5TypeWriters.InitDataSetsThrowsAtFirstMissingLevel | src/diagnostic/detail/h5typewriter.h:65-67 | initDataSets_ throws exactly at the first level from minLevel to maxLevel that has no patch ids |
| H5TypeWriters.FirstMissingLevel | src/diagnostic/detail/h5typewriter.h:65-86 | the first level of the range missing from the map, or none when all are present |
| H5TypeWriters.LevelAttributeWrites | src/diagnostic/detail/h5typewriter.h:86-94 | one level's writes: each local patch's dict at its patch path, in order, then the empty patch properties at "" up to maxPatches |
| H5TypeWriters.H5TypeWriter.WriteLevelAttributes | src/diagnostic/detail/h5typewriter.h:86-94 | the two inner loops write exactly LevelAttributeWrites |
| H5TypeWriters.H5TypeWriter.WriteAttributes | src/diagnostic/detail/h5typewriter.h:78-98 | writeAttributes_ makes exactly the writes of WriteAttributesWrites and reports the level patchAttributes.at throws for |
| H5TypeWriters.WriteAttributesThrowsAtFirstMissingLevel | src/diagnostic/detail/h5typewriter.h:84-86 | writeAttributes_ throws exactly at the first level of the range with no patch attributes |
| H5TypeWriters.WriteAttributesEndsAtRoot | src/diagnostic/detail/h5typewriter.h:97 | when no level is missing, the last write is the file attributes at "/" |
| H5TypeWriters.H5TypeWriter.WriteIonPopAttributes | src/diagnostic/detail/h5typewriter.h:100-110 | one {"pop_mass": mass} dict at "/" per population, in order |
| H5TypeWriters.PopMassWrites | src/diagnostic/detail/h5typewriter.h:104-109 | the pop_mass writes are one per mass, in order, at "/" |
| H5TypeWriters.PopMassWritesAppend | src/diagnostic/detail/h5typewriter.h:104-109 | one more population appends its single write after the earlier ones |
| H5TypeWriters.H5TypeWriter.WriteGhostsAttr | src/diagnostic/detail/h5typewriter.h:112-117 | one {"ghosts": ghosts} dict, at path, or at "" when null |
| H5TypeWriters.H5TypeWriter.CheckCreateFileFor | src/diagnostic/detail/h5typewriter.h:119-127 | a file is made (once) exactly when the quantity is tree + some var and has none yet; existing entries are never replaced |
| H5TypeWriters.H5TypeWriter.constructor | src/diagnostic/detail/h5typewriter.h:22-25 | starts at dump 0 with no file |
| H5TypeWriters.H5TypeWriter.Finalize | src/diagnostic/detail/h5typewriter.h:45-57 | dumpIdx goes up by one before it is used; the quantity's file is dropped exactly when the flush rule holds (corrected rule, see Findings); no other file is touched; flush_every must be present |
| H5TypeWriters.AsWrittenStopsFlushing | src/diagnostic/detail/h5typewriter.h:52 | as written, once dumpIdx passes flushEvery the file is never flushed again |
| H5TypeWriters.AsWrittenMissesTheSecondPeriod | src/diagnostic/detail/h5typewriter.h:52 | with flush_every 100, dump 200 does not flush as written but does under the intended rule |
| H5TypeWriters.FlushesOnMultiples | src/diagnostic/detail/h5typewriter.h:51-52 | under the corrected rule, dump k * flushEvery + r flushes iff r == 0 |
| H5TypeWriters.FlushesPeriodic | src/diagnostic/detail/h5typewriter.h:51-52 | under the corrected rule, flushing repeats every flushEvery dumps |
| Caliper.Node.constructor | tools/python3/caliper.py:5-12 | the given key, empty kids, parent None whatever is passed, and kwargs copied item by item |
| Caliper.MapOfFour | tools/python3/caliper.py:10-26 | copying four keyword items gives the dict of those four items |
| Caliper.LeadingWhitespace | tools/python3/caliper.py:35 | the leading run of whitespace characters, followed by a non-whitespace character or the end |
| Caliper.Indent | tools/python3/caliper.py:35 | the indent is the length of the line minus the length of its lstrip() |
| Caliper.LStripCharIsSuffix | tools/python3/caliper.py:20 | lstrip('_') drops exactly the leading underscores: the rest of the string, not starting with '_' |
| Caliper.RStripCharIsPrefix | tools/python3/caliper.py:20 | rstrip('_') drops exactly the trailing underscores |
| Caliper.StripCharEnds | tools/python3/caliper.py:20 | strip('_') neither starts nor ends with '_' |
| Caliper.ParseKeyUnderRoot | tools/python3/caliper.py:19-20 | under the root (key "") a key is its own key with underscores stripped |
| Caliper.ParseKeyUnderNamed | tools/python3/caliper.py:19-20 | under a parent whose key does not start with '_', the key is parent key, '_', own key stripped |
| Caliper.ReplaceDoubleSpaces | tools/python3/caliper.py:23-24 | one replace never lengthens the line and shortens it while "  " occurs, so the loop ends |
| Caliper.ReplaceKeepsSqueeze | tools/python3/caliper.py:23-24 | a replace round keeps what the runs of spaces collapse to |
| Caliper.SqueezeWithoutDoubleSpace | tools/python3/caliper.py:23 | a line without "  " is left as it is |
| Caliper.SqueezeHasNoDoubleSpace | tools/python3/caliper.py:23 | the collapsed line has no "  " |
| Caliper.CollapsedLineHasNoDoubleSpace | tools/python3/caliper.py:23-24 | the loop ends with no "  " left, on the line with its space runs collapsed |
| Caliper.Split | tools/python3/caliper.py:25 | split(' ') gives at least one piece, none containing ' ' |
| Caliper.JoinSplit | tools/python3/caliper.py:25 | joining the pieces with ' ' gives back the line |
| Caliper.LineFields | tools/python3/caliper.py:25-26 | the fields exist iff the collapsed line has at least five tokens; token 0 and min/max/avg/time from tokens 1-4 |
| Caliper.NodeFields | tools/python3/caliper.py:22-26 | parse_node's key is parse_key of token 0 under the parent's key, with min/max/avg/time from tokens 1-4; IndexError below five tokens |
| Caliper.ParseNode | tools/python3/caliper.py:22-26 | parse_node builds a fresh Node with those key and kwargs, empty kids and no parent, or raises IndexError exactly when NodeFields does |
| Caliper.Views | tools/python3/caliper.py:34-35 | the indent and the fields of every line, in order |
| Caliper.Step | tools/python3/caliper.py:31-50 | one line adds exactly one node, keeps the earlier ones, and becomes prev_node with its indent as prev_indent |
| Caliper.StepKeyErrorAt | tools/python3/caliper.py:46-47 | a line neither deeper nor at a recorded indent raises KeyError |
| Caliper.StepIndexErrorAt | tools/python3/caliper.py:37-48 | a line too short for its fields raises IndexError once its parent is found |
| Caliper.StepOk | tools/python3/caliper.py:36-50 | deeper: parent prev_node, recorded for the indent; otherwise parent prev_parents[indent]; the node joins it |
| Caliper.StepRecords | tools/python3/caliper.py:38 | an indent is recorded after a line iff the line opened it or it was recorded before, with the matching parent |
| Caliper.StepKeyError | tools/python3/caliper.py:42-47 | the only KeyError a line raises is its own, for its indent, when not deeper and not recorded |
| Caliper.Run | tools/python3/caliper.py:31-53 | after lines 1..n-1, one node per line |
| Caliper.RunPrev | tools/python3/caliper.py:40-53 | after lines 1..n-1, prev_node is line n-1 and prev_indent its indent (-1 before any line) |
| Caliper.LastOpening | tools/python3/caliper.py:36-38 | the opening line it names is one of lines 1 .. n - 1 (the last one deeper than its predecessor at indent d) |
| Caliper.RunState | tools/python3/caliper.py:36-50 | indent d is recorded iff some earlier line opened it, and the parent recorded is the node before the last such line |
| Caliper.ParentOfLine | tools/python3/caliper.py:36-50 | a deeper line is a kid of the previous line's node; any other line is a kid of the node before the last line that opened its indent |
| Caliper.KeyErrorAtUnopenedIndent | tools/python3/caliper.py:42-47 | a KeyError is raised at the first line that is not deeper and whose indent no earlier line opened |
| Caliper.ErrorPersists | tools/python3/caliper.py:31-53 | once a line raises, the whole parse raises the same error |
| Caliper.OneNodePerLine | tools/python3/caliper.py:29-53 | lines[0] is skipped and every later line gets exactly one node, whose parent comes before it |
| Caliper.StepParentsBefore | tools/python3/caliper.py:36-50 | a line's parent is the root or an earlier line's node |
| Caliper.RunParentsBefore | tools/python3/caliper.py:36-50 | every state of the parse has its parents before their kids |
| Caliper.Kids | tools/python3/caliper.py:39-49 | a node's kids are nodes of later lines |
| Caliper.KidsAreTheNodesWithThatParent | tools/python3/caliper.py:39-49 | node k is a kid of p iff it was made with parent p, and the kids are in line order |
| Caliper.KidsAppend | tools/python3/caliper.py:39-49 | a new node is appended to its parent's kids, at the end, and to no other node's |
| Caliper.NoKidsYet | tools/python3/caliper.py:39-49 | a node has no kids when it is made |
| Caliper.MirroredKeys | tools/python3/caliper.py:19-48 | every node made has the key KeyAt computes from its line's token and its ancestors |
| Caliper.NodesMirrorAppend | tools/python3/caliper.py:37-48 | the new node, with its key under its parent's key, extends the tree built so far |
| Caliper.AddKid | tools/python3/caliper.py:39-49 | appending to the parent's kids keeps the tree a mirror of the lines' nodes, and changes nothing else of the parent |
| Caliper.ChooseParent | tools/python3/caliper.py:36-51 | the parent is prev_node for a deeper line, else prev_parents[indent], and none (KeyError) exactly when that indent was never recorded |
| Caliper.Attach | tools/python3/caliper.py:38-49 | after recording the parent and adding the kid, the tree mirrors the state after the line |
| Caliper.ParseLine | tools/python3/caliper.py:34-50 | one line's work raises exactly the error Step raises; otherwise it adds a fresh node and the tree mirrors the state after the line |
| Caliper.Parse | tools/python3/caliper.py:31-50 | parse from a line raises exactly what Hier raises; on success the tree mirrors Hier's nodes, the root stays the same, and every node is new |
| Caliper.ParseTabHier | tools/python3/caliper.py:29-54 | parse_tab_hier returns the root Node("") whose tree mirrors TabHier's nodes, all fresh, or raises exactly TabHier's error |
| Caliper.StepNext | tools/python3/caliper.py:40-50 | the next line continues the run, and an error there is the result of the whole parse |
| Caliper.HierDone | tools/python3/caliper.py:32-33 | after the last line the run's nodes are the result |
| PhareCli.SizeAdd | src/phare/phare.cpp:16 | std::size_t addition wraps modulo 2^64 |
| PhareCli.FindLastOf | src/phare/phare.cpp:15-16 | find_last_of(".") is the last position of '.', and npos exactly when there is none |
| PhareCli.Substr | src/phare/phare.cpp:15-16 | substr(pos, count) is the piece from pos, at most count long |
| PhareCli.FromCommandLine | src/phare/phare.cpp:6-25 | a provider only for a single argument, and then the argument is the module name followed by ".py" (or is "py" itself) |
| PhareCli.NoArgumentNoProvider | src/phare/phare.cpp:12 | argc == 1 gives no provider |
| PhareCli.OtherArgumentCountsNoProvider | src/phare/phare.cpp:10-24 | any argc other than 2 gives nullptr |
| PhareCli.LastDotBeforeExtension | src/phare/phare.cpp:15 | the last '.' of stem.ext, for an ext without '.', is the one before ext |
| PhareCli.PythonScriptSelectsPythonProvider | src/phare/phare.cpp:14-20 | a single "<module>.py" argument gives the Python provider of <module>, dots in <module> included |
| PhareCli.OtherExtensionGivesNoProvider | src/phare/phare.cpp:16-24 | any other extension gives nullptr |
| PhareCli.NoDotComparesWholeArgument | src/phare/phare.cpp:15-17 | without a '.', npos + 1 wraps to 0, so the whole argument is compared with "py" and is the module name |
| CoreTypes.Arange | src/core/utilities/types.h:25-32 | element i is start + i * step, every element is below stop, the result is maximal (start + length * step >= stop), and it is empty iff start >= stop |
| CoreTypes.ArangeStrictlyIncreasing | src/core/utilities/types.h:29-30 | consecutive elements differ by step, so the sequence increases strictly |
| CoreTypes.StrongType.Value | src/core/utilities/types.h:50-59 | value() gives back the wrapped value |
| CoreTypes.StrongType.AsInt | src/core/utilities/types.h:58 | the conversion to T agrees with value() |
| CoreTypes.DefaultStrongType | src/core/utilities/types.h:54-57 | a default StrongType holds 0 |
| CoreTypes.StrongTypeRoundTrip | src/core/utilities/types.h:50-59 | wrapping then unwrapping gives the value through either accessor |
| CoreAlgorithm.Max | src/core/utilities/algorithm.h:15-26 | max<lhs, rhs>() is one of the two and at least both: the maximum |
| CoreAlgorithm.ToStr | src/core/utilities/algorithm.h:29-33 | to_str(t) is t.to_str() |
| CoreAlgorithm.FindSameName | src/core/utilities/algorithm.h:40-42 | find_if stops at the first item named like obj, or at the end |
| CoreAlgorithm.NotIn | src/core/utilities/algorithm.h:37-45 | notIn is true iff no item's name equals obj's |
| CoreAlgorithm.NotInEmpty | src/core/utilities/algorithm.h:37-45 | nothing is in an empty list |
| CoreAlgorithm.NotInComparesNamesOnly | src/core/utilities/algorithm.h:41 | a distinct object with the same name makes obj count as present |
| CoreAlgorithm.NotInAppend | src/core/utilities/algorithm.h:40-44 | appending an item changes the answer only when it carries obj's name |

## Left out

- SAMRAI internals: executing schedules, box overlap, refine/coarsen and time-interpolation operators, patch data. Schedules and operators are opaque handles; registrations are records.
- The messenger strategies (HybridHybrid, MHDHybrid), the physical model, the resources manager, the pusher and the interpolator are external. They are recorders of the calls made on them (`amr.dfy`, `HybridMessengers.HybridMessengerStrategy`), not implementations.
- HybridMessengers.HybridMessenger.FineModelName: it and every forwarding method require a strategy. Without one the source dereferences a null pointer, which is undefined behaviour, not an error path. Only `name()` has a null check, and it is modelled.
- QuantityCommunicator.MakeGhostRefiner: it models the documented argument order. The order as written is modelled separately (see Findings).
- H5TypeWriters.H5TypeWriter.Finalize: it uses the corrected flush rule. The rule as written is modelled separately (see Findings).
- H5TypeWriters.H5TypeWriter.InitDataSets: the `initPatch` callback is not run. The model returns the list of calls it would receive. The default entry that `patchAttributes[key]` inserts, and the whole-dictionary argument of the padding calls, are not modelled.
- H5TypeWriters.H5TypeWriter.CheckCreateFileFor: the source updates whichever file map it is passed (the `FileMap& fileData` parameter, h5typewriter.h:119-120). The model always updates the writer's own `fileData` field, so a caller passing another map is not modelled.
- H5TypeWriter: `mpi::max` is the parameter `mpiMax` (an MPI collective). HDF5 files are opaque tokens from `makeFile`. A `std::size_t` level loop with maxLevel at its largest value would never end; levels are unbounded here.
- SolverPpc.SolverPPC.constructor: `makePusher` is a factory not shown; only the pusher name is kept.
- SolverPpc.SolverPPC.RegisterResources: this method, Allocate, FillMessengerInfo and AdvanceLevel take a HybridModel, a HybridMessengerInfo and a HybridMessenger by their concrete types. In the source they receive base-class references, and the `dynamic_cast`s at solver_ppc.h:192, 205, 217, 238 and 241 throw `std::bad_cast` for an object of another type. That error path is not modelled.
- SolverPpc.SolverPPC.AdvanceLevel: `hierarchy->getPatchLevel(levelNumber - 1)` (solver_ppc.h:297) is unused and has no recorded effect, so it is not modelled. The Faraday, Ampere, Ohm and time-averaging steps are comments in the source.
- SolverPpc.SolverPPC.MoveIons: the particle selector, the range the pusher returns and the numerics of pushing and depositing are left out. The model records which array is pushed into which temporary, and that temporary's size.
- TagStrat.TagStrategy.constructor: what the model's own `fillMessengerInfo` adds is not part of this model. The contract therefore leaves open the contents of the info from coarser and the model's part of the info from finer. It states only that the solver's EMPred E and B come last in the info from finer.
- TagStrat.FillField: the grid layout is `iStart`, `iEnd` and a coordinate function `coord`. Field values are `real`, and floating-point rounding is not modelled.
- CoreTypes.Arange: it requires `step > 0` unless `start >= stop`. Otherwise the source loop never ends, or relies on signed overflow.
- CoreTypes.Arange: the element type T is an unbounded `int` here, so T's fixed width is not modelled. With a positive step, `value += step` (types.h:29) can pass T's maximum before reaching stop. For an unsigned T it then wraps and the loop never ends, e.g. `arange<uint32_t>(0, 4294967295u, 2)` goes from 4294967294 back to 0. For a signed T it is undefined behaviour. In both cases the model returns a finite sequence instead.
- PhareCli.FromCommandLine: it requires every argument to be shorter than npos (true of any real string). The message printed to std::cout and `main` are left out.
- `Node.print` in caliper.py only prints (and refers to an undefined `node`). `parse_tab_hier_file` only reads a file. Both are left out.
- Caliper.ParseTabHier: Python's recursion limit (one frame per line) is not modelled. The "root" entry of `prev_parents` is kept as the root node itself, since no line looks it up: indents are numbers and the key is a string.
- Caliper.Step: node keys are stated as `parse_key` of the line's first token under the parent node's key. `KeyAt` computes them from the tokens, and `MirroredKeys` ties the two together.
- `norm` in types.h depends on floating-point `sqrt` and is left out.
- The message queues, MPI and threads of the rest of the repository are not part of this model.

## Findings

| source | as written | input that shows it | evidently intended | confidence | as-written member | corrected member |
|---|---|---|---|---|---|---|
| src/diagnostic/detail/h5typewriter.h:52 | the file is flushed when `flushEvery % dumpIdx_ == 0` | flush_every = 100: dumps 1, 2, 4, 5, 10, 20, 25, 50 and 100 flush; dump 200 and every later dump do not | flush on every flushEvery-th dump: `dumpIdx_ % flushEvery == 0` | medium, not executed | H5TypeWriters.AsWrittenMissesTheSecondPeriod | H5TypeWriters.FlushesOnMultiples |
| src/samrai_interface/evolution/messengers/quantity_communicator.h:139-161 | the lambda's parameters are (model, ghost, oldModel) but it is called as `registerRefine(ghost.xName, model.xName, oldModel.xName)` | ghost components Bgx/Bgy/Bgz with ids 3-5, model components Bx/By/Bz with ids 0-2: the registration is dest = 0, src = 3 instead of dest = 3, src = 0 | the ghost field is the destination and scratch, the model field the source (as the function's documentation says) | medium, not executed | QuantityCommunicator.AsWrittenFillsTheModelFromTheGhost | QuantityCommunicator.GhostRefinerRegistersResolvedComponents |
