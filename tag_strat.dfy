/**
 * The tagging-and-initialisation strategy of tests/diagnostic/tag_strat.h, which wires a hybrid
 * model, its PPC solver and a hybrid messenger together and initialises the data of a level, and
 * fillField, which sets a field from a function of position.
 *
 * The model, the PPC solver's resources manager and the messenger strategy all record into one
 * Log, so the order of their calls can be stated.
 */
module TagStrat {
  import opened Amr
  import opened HybridMessengers
  import opened SolverPpc
  import opened Wrappers

  /**
   * fillField's result on the values of a field: every index from iStart to iEnd inclusive gets
   * f at the node's coordinate; every other index keeps its value.
   */
  function FilledField(field: seq<real>, iStart: int, iEnd: int, coord: int -> real, f: real -> real): (r: seq<real>)
    ensures |r| == |field|
    ensures forall i :: 0 <= i < |r| && iStart <= i <= iEnd ==> r[i] == f(coord(i))
    ensures forall i :: 0 <= i < |r| && !(iStart <= i <= iEnd) ==> r[i] == field[i]
  {
    seq(|field|, i requires 0 <= i < |field| => if iStart <= i <= iEnd then f(coord(i)) else field[i])
  }

  /** Filling a field twice from the same function is filling it once. */
  lemma FilledFieldIdempotent(field: seq<real>, iStart: int, iEnd: int, coord: int -> real, f: real -> real)
    ensures FilledField(FilledField(field, iStart, iEnd, coord, f), iStart, iEnd, coord, f)
            == FilledField(field, iStart, iEnd, coord, f)
  {
  }

  /** What fillField writes does not depend on the field's previous values inside the range. */
  lemma FilledFieldForgetsRange(a: seq<real>, b: seq<real>, iStart: int, iEnd: int, coord: int -> real, f: real -> real)
    requires |a| == |b|
    requires forall i :: 0 <= i < |a| && !(iStart <= i <= iEnd) ==> a[i] == b[i]
    ensures FilledField(a, iStart, iEnd, coord, f) == FilledField(b, iStart, iEnd, coord, f)
  {
  }

  /**
   * fillField: the loop over the field's physical indices iStart..iEnd (inclusive). The node
   * coordinate of index ix is coord(ix).
   */
  method FillField(field: array<real>, iStart: int, iEnd: int, coord: int -> real, f: real -> real)
    requires 0 <= iStart && iEnd < field.Length
    modifies field
    ensures field[..] == FilledField(old(field[..]), iStart, iEnd, coord, f)
  {
    var ix := iStart;
    while ix <= iEnd
      invariant iStart <= ix && (ix == iStart || ix <= iEnd + 1)
      invariant forall i :: 0 <= i < field.Length && iStart <= i < ix ==> field[i] == f(coord(i))
      invariant forall i :: 0 <= i < field.Length && !(iStart <= i < ix) ==> field[i] == old(field[i])
    {
      field[ix] := f(coord(ix));
      ix := ix + 1;
    }
    ghost var filled := FilledField(old(field[..]), iStart, iEnd, coord, f);
    assert forall i :: 0 <= i < field.Length ==> field[..][i] == filled[i];
  }

  /** The four allocations initializeLevelData makes for one patch, in order. */
  function PatchAllocation(model: HybridModel, patch: PatchId, time: Time): seq<Event>
  {
    [ ModelAllocate(model.id, patch, time),
      RmAllocate(model.id, EM_PRED, patch, time),
      RmAllocate(model.id, EM_AVG, patch, time),
      AllocateCall(patch, time) ]
  }

  /** The allocations for the patches of a level, patch by patch. */
  function LevelAllocation(model: HybridModel, patches: seq<PatchId>, time: Time): seq<Event>
  {
    if |patches| == 0 then []
    else LevelAllocation(model, patches[..|patches| - 1], time) + PatchAllocation(model, patches[|patches| - 1], time)
  }

  /** How a level's data is initialised: regrid from the old level, model initialisation, or from the coarser level. */
  function LevelInitialisation(hierarchy: Hierarchy, levelNumber: int, model: HybridModel, time: Time,
                               oldLevel: Option<LevelRef>): Event
  {
    var level := hierarchy.PatchLevel(levelNumber);
    match oldLevel
    case Some(o) => RegridCall(hierarchy.id, levelNumber, o, model.id, time)
    case None => if levelNumber == 0 then ModelInitialize(model.id, level) else InitLevelCall(model.id, level, time)
  }

  /** Every call initializeLevelData makes, in order. */
  function InitializeLevelCalls(hierarchy: Hierarchy, levelNumber: int, model: HybridModel, time: Time,
                                oldLevel: Option<LevelRef>, allocateData: bool): seq<Event>
    requires 0 <= levelNumber < |hierarchy.levels|
  {
    (if allocateData then LevelAllocation(model, hierarchy.levels[levelNumber], time) else [])
    + [RegisterLevelCall(hierarchy.id, levelNumber)]
    + [LevelInitialisation(hierarchy, levelNumber, model, time, oldLevel)]
    + (if levelNumber == 0 then [FillIonGhostParticlesCall(model.Ions(), hierarchy.PatchLevel(levelNumber), time)] else [])
  }

  /** A call that initialises a level's data. */
  predicate IsInitialisation(e: Event)
  {
    e.RegridCall? || e.ModelInitialize? || e.InitLevelCall?
  }

  /** The number of level-initialising calls in a sequence of calls. */
  function CountInitialisations(events: seq<Event>): nat
  {
    if |events| == 0 then 0
    else CountInitialisations(events[..|events| - 1]) + (if IsInitialisation(events[|events| - 1]) then 1 else 0)
  }

  /** The number of registerLevel calls in a sequence of calls. */
  function CountRegisterLevels(events: seq<Event>): nat
  {
    if |events| == 0 then 0
    else CountRegisterLevels(events[..|events| - 1]) + (if events[|events| - 1].RegisterLevelCall? then 1 else 0)
  }

  class TagStrategy {
    const model: HybridModel
    const solver: SolverPPC
    const messenger: HybridMessenger
    /** The log the model, its resources manager and the messenger strategy share. */
    const log: Log
    /** The two infos the constructor built and handed to registerQuantities. */
    ghost const infoFromFiner: HybridMessengerInfo
    ghost const infoFromCoarser: HybridMessengerInfo
    /** The electric and magnetic ghost lists of the info from finer as the model left them. */
    ghost const modelGhostElectric: seq<VecFieldRef>
    ghost const modelGhostMagnetic: seq<VecFieldRef>

    predicate Valid()
    {
      messenger.strat != null && messenger.strat.log == log && model.log == log
    }

    /**
     * The constructor: the messenger's two empty infos (from finer first), the model fills both,
     * the solver fills the one from finer, and both go to registerQuantities, the info from finer
     * in its from-coarser position and the info from coarser in its from-finer position, exactly
     * as the source passes them. What the model adds is not known here; the solver's predicted E
     * and B go on the end of the info from finer, after whatever the model put there.
     */
    constructor (model: HybridModel, solver: SolverPPC, messenger: HybridMessenger)
      requires messenger.strat != null && messenger.strat.log == model.log
      modifies model.log
      ensures this.model == model && this.solver == solver && this.messenger == messenger && log == model.log
      ensures Valid()
      ensures fresh(infoFromFiner) && fresh(infoFromCoarser) && infoFromFiner != infoFromCoarser
      ensures log.events == old(model.log.events)
                            + [ EmptyInfoFromFinerCall(infoFromFiner), EmptyInfoFromCoarserCall(infoFromCoarser),
                                ModelFillMessengerInfo(model.id, infoFromFiner),
                                ModelFillMessengerInfo(model.id, infoFromCoarser),
                                RegisterQuantitiesCall(infoFromFiner, infoFromCoarser) ]
      ensures infoFromFiner.ghostElectric == modelGhostElectric + [EPred()]
      ensures infoFromFiner.ghostMagnetic == modelGhostMagnetic + [BPred()]
    {
      var fromFiner := messenger.EmptyInfoFromFiner();
      var fromCoarser := messenger.EmptyInfoFromCoarser();
      model.FillMessengerInfo(fromFiner);
      model.FillMessengerInfo(fromCoarser);
      ghost var electric, magnetic := fromFiner.ghostElectric, fromFiner.ghostMagnetic;
      solver.FillMessengerInfo(fromFiner);
      messenger.RegisterQuantities(fromFiner, fromCoarser);
      this.model := model;
      this.solver := solver;
      this.messenger := messenger;
      this.log := model.log;
      this.infoFromFiner := fromFiner;
      this.infoFromCoarser := fromCoarser;
      this.modelGhostElectric := electric;
      this.modelGhostMagnetic := magnetic;
    }

    /** The allocation loop of initializeLevelData: model, solver and messenger allocate each patch in turn. */
    method AllocateLevel(patches: seq<PatchId>, initDataTime: Time)
      requires Valid()
      modifies log
      ensures log.events == old(log.events) + LevelAllocation(model, patches, initDataTime)
    {
      var i := 0;
      while i < |patches|
        invariant 0 <= i <= |patches|
        invariant log.events == old(log.events) + LevelAllocation(model, patches[..i], initDataTime)
      {
        model.Allocate(patches[i], initDataTime);
        solver.Allocate(model, patches[i], initDataTime);
        messenger.Allocate(patches[i], initDataTime);
        assert patches[..i + 1][..i] == patches[..i];
        i := i + 1;
      }
      assert patches[..i] == patches;
    }

    /** The data initialisation of initializeLevelData: regrid from the old level, or initialise it afresh. */
    method InitialiseLevel(hierarchy: Hierarchy, levelNumber: int, initDataTime: Time, oldLevel: Option<LevelRef>)
      requires Valid()
      requires 0 <= levelNumber < |hierarchy.levels|
      modifies log
      ensures log.events == old(log.events) + [LevelInitialisation(hierarchy, levelNumber, model, initDataTime, oldLevel)]
    {
      var level := hierarchy.PatchLevel(levelNumber);
      match oldLevel {
        case Some(o) =>
          messenger.Regrid(hierarchy, levelNumber, o, model, initDataTime);
        case None =>
          if levelNumber == 0 {
            model.Initialize(level);
          } else {
            messenger.InitLevel(model, level, initDataTime);
          }
      }
    }

    /**
     * initializeLevelData: allocate every patch of the level (when asked), register the level
     * with the messenger, initialise its data, and on the root level fill the ion ghost particles.
     * canBeRefined and initialTime are unused, as in the source.
     */
    method InitializeLevelData(hierarchy: Hierarchy, levelNumber: int, initDataTime: Time,
                               canBeRefined: bool, initialTime: bool,
                               oldLevel: Option<LevelRef>, allocateData: bool)
      requires Valid()
      requires 0 <= levelNumber < |hierarchy.levels|
      modifies log
      ensures log.events
              == old(log.events) + InitializeLevelCalls(hierarchy, levelNumber, model, initDataTime, oldLevel, allocateData)
    {
      var level := hierarchy.PatchLevel(levelNumber);
      if allocateData {
        AllocateLevel(hierarchy.levels[levelNumber], initDataTime);
      }
      messenger.RegisterLevel(hierarchy, levelNumber);
      InitialiseLevel(hierarchy, levelNumber, initDataTime, oldLevel);
      if levelNumber == 0 {
        messenger.FillIonGhostParticles(model.Ions(), level, initDataTime);
      }
    }

    /** resetHierarchyConfiguration does nothing. */
    method ResetHierarchyConfiguration(hierarchy: Hierarchy, coarsestLevel: int, finestLevel: int)
      ensures log.events == old(log.events)
    {
    }
  }

  lemma {:induction false} LevelAllocationLength(model: HybridModel, patches: seq<PatchId>, time: Time)
    ensures |LevelAllocation(model, patches, time)| == 4 * |patches|
  {
    if |patches| > 0 {
      LevelAllocationLength(model, patches[..|patches| - 1], time);
    }
  }

  /**
   * Patch k of the level is allocated by calls 4k..4k+4: the model, the solver's EMPred then
   * EMAvg, then the messenger, all at the same time.
   */
  lemma {:induction false} LevelAllocationLayout(model: HybridModel, patches: seq<PatchId>, time: Time, k: nat)
    requires k < |patches|
    ensures |LevelAllocation(model, patches, time)| == 4 * |patches|
    ensures LevelAllocation(model, patches, time)[4 * k .. 4 * k + 4] == PatchAllocation(model, patches[k], time)
  {
    var n := |patches| - 1;
    LevelAllocationLength(model, patches[..n], time);
    if k < n {
      LevelAllocationLayout(model, patches[..n], time, k);
      var prefix := LevelAllocation(model, patches[..n], time);
      assert LevelAllocation(model, patches, time)[4 * k .. 4 * k + 4] == prefix[4 * k .. 4 * k + 4];
    }
  }

  lemma {:induction false} CountInitialisationsAppend(a: seq<Event>, b: seq<Event>)
    ensures CountInitialisations(a + b) == CountInitialisations(a) + CountInitialisations(b)
    ensures CountRegisterLevels(a + b) == CountRegisterLevels(a) + CountRegisterLevels(b)
  {
    if |b| > 0 {
      var n := |b| - 1;
      assert (a + b)[..|a + b| - 1] == a + b[..n];
      CountInitialisationsAppend(a, b[..n]);
    } else {
      assert a + b == a;
    }
  }

  /** Allocation neither initialises a level nor registers one. */
  lemma {:induction false} LevelAllocationInitialisesNothing(model: HybridModel, patches: seq<PatchId>, time: Time)
    ensures CountInitialisations(LevelAllocation(model, patches, time)) == 0
    ensures CountRegisterLevels(LevelAllocation(model, patches, time)) == 0
  {
    if |patches| > 0 {
      var n := |patches| - 1;
      LevelAllocationInitialisesNothing(model, patches[..n], time);
      var p := PatchAllocation(model, patches[n], time);
      CountInitialisationsAppend(LevelAllocation(model, patches[..n], time), p);
      assert p == [p[0]] + [p[1]] + [p[2]] + [p[3]];
      CountInitialisationsAppend([p[0]] + [p[1]] + [p[2]], [p[3]]);
      CountInitialisationsAppend([p[0]] + [p[1]], [p[2]]);
      CountInitialisationsAppend([p[0]], [p[1]]);
    }
  }

  /** initializeLevelData registers the level exactly once and initialises its data exactly once. */
  lemma ExactlyOneInitialisation(hierarchy: Hierarchy, levelNumber: int, model: HybridModel, time: Time,
                                 oldLevel: Option<LevelRef>, allocateData: bool)
    requires 0 <= levelNumber < |hierarchy.levels|
    ensures CountInitialisations(InitializeLevelCalls(hierarchy, levelNumber, model, time, oldLevel, allocateData)) == 1
    ensures CountRegisterLevels(InitializeLevelCalls(hierarchy, levelNumber, model, time, oldLevel, allocateData)) == 1
  {
    var patches := hierarchy.levels[levelNumber];
    var alloc := if allocateData then LevelAllocation(model, patches, time) else [];
    var init := LevelInitialisation(hierarchy, levelNumber, model, time, oldLevel);
    var tail := if levelNumber == 0 then [FillIonGhostParticlesCall(model.Ions(), hierarchy.PatchLevel(levelNumber), time)] else [];
    if allocateData {
      LevelAllocationInitialisesNothing(model, patches, time);
    }
    LevelCallCounts(alloc, RegisterLevelCall(hierarchy.id, levelNumber), init, tail);
  }

  /** The counts of a sequence laid out as initializeLevelData's calls are. */
  lemma LevelCallCounts(alloc: seq<Event>, reg: Event, init: Event, tail: seq<Event>)
    requires CountInitialisations(alloc) == 0 && CountRegisterLevels(alloc) == 0
    requires reg.RegisterLevelCall? && IsInitialisation(init)
    requires |tail| <= 1 && forall j :: 0 <= j < |tail| ==> tail[j].FillIonGhostParticlesCall?
    ensures CountInitialisations(alloc + [reg] + [init] + tail) == 1
    ensures CountRegisterLevels(alloc + [reg] + [init] + tail) == 1
  {
    CountInitialisationsAppend(alloc + [reg] + [init], tail);
    CountInitialisationsAppend(alloc + [reg], [init]);
    CountInitialisationsAppend(alloc, [reg]);
    CountSingle(reg);
    CountSingle(init);
    if |tail| == 1 {
      CountSingle(tail[0]);
      assert tail == [tail[0]];
    }
  }

  lemma CountSingle(e: Event)
    ensures CountInitialisations([e]) == if IsInitialisation(e) then 1 else 0
    ensures CountRegisterLevels([e]) == if e.RegisterLevelCall? then 1 else 0
  {
    assert [e][..0] == [];
  }

  /**
   * The level is initialised by regrid exactly when there is an old level, by the model exactly
   * when there is none and the level is the root, and from the coarser level otherwise.
   */
  lemma InitialisationKind(hierarchy: Hierarchy, levelNumber: int, model: HybridModel, time: Time,
                           oldLevel: Option<LevelRef>)
    ensures var e := LevelInitialisation(hierarchy, levelNumber, model, time, oldLevel);
      && IsInitialisation(e)
      && (e.RegridCall? <==> oldLevel.Some?)
      && (e.ModelInitialize? <==> oldLevel.None? && levelNumber == 0)
      && (e.InitLevelCall? <==> oldLevel.None? && levelNumber != 0)
      && (oldLevel.Some? ==> e == RegridCall(hierarchy.id, levelNumber, oldLevel.value, model.id, time))
  {
  }

  /** Registration comes right after the allocations, and the initialisation right after it. */
  lemma RegistrationThenInitialisation(hierarchy: Hierarchy, levelNumber: int, model: HybridModel, time: Time,
                                       oldLevel: Option<LevelRef>, allocateData: bool)
    requires 0 <= levelNumber < |hierarchy.levels|
    ensures var c := InitializeLevelCalls(hierarchy, levelNumber, model, time, oldLevel, allocateData);
      var a := if allocateData then 4 * |hierarchy.levels[levelNumber]| else 0;
      && |c| >= a + 2
      && c[a] == RegisterLevelCall(hierarchy.id, levelNumber)
      && c[a + 1] == LevelInitialisation(hierarchy, levelNumber, model, time, oldLevel)
  {
    LevelAllocationLength(model, hierarchy.levels[levelNumber], time);
  }

  /** The last call is the root level's ion ghost-particle fill exactly when the level is the root. */
  lemma RootLevelEndsWithIonGhostParticles(hierarchy: Hierarchy, levelNumber: int, model: HybridModel, time: Time,
                                           oldLevel: Option<LevelRef>, allocateData: bool)
    requires 0 <= levelNumber < |hierarchy.levels|
    ensures var c := InitializeLevelCalls(hierarchy, levelNumber, model, time, oldLevel, allocateData);
      && |c| >= 2
      && c[|c| - 1].FillIonGhostParticlesCall? == (levelNumber == 0)
      && (levelNumber == 0 ==> c[|c| - 1] == FillIonGhostParticlesCall(model.Ions(), hierarchy.PatchLevel(0), time))
  {
  }

  /** Without allocateData, nothing is allocated: the first call is registerLevel. */
  lemma NoAllocationWithoutAllocateData(hierarchy: Hierarchy, levelNumber: int, model: HybridModel, time: Time,
                                        oldLevel: Option<LevelRef>)
    requires 0 <= levelNumber < |hierarchy.levels|
    ensures InitializeLevelCalls(hierarchy, levelNumber, model, time, oldLevel, false)[0]
            == RegisterLevelCall(hierarchy.id, levelNumber)
  {
  }

  /** With allocateData, every patch of the level is allocated before the level is registered. */
  lemma AllocationPrecedesRegistration(hierarchy: Hierarchy, levelNumber: int, model: HybridModel, time: Time,
                                       oldLevel: Option<LevelRef>, k: nat)
    requires 0 <= levelNumber < |hierarchy.levels| && k < |hierarchy.levels[levelNumber]|
    ensures var c := InitializeLevelCalls(hierarchy, levelNumber, model, time, oldLevel, true);
      var patches := hierarchy.levels[levelNumber];
      && |c| > 4 * |patches|
      && c[4 * k .. 4 * k + 4] == PatchAllocation(model, patches[k], time)
      && c[4 * |patches|] == RegisterLevelCall(hierarchy.id, levelNumber)
  {
    var patches := hierarchy.levels[levelNumber];
    LevelAllocationLayout(model, patches, time, k);
    var alloc := LevelAllocation(model, patches, time);
    var c := InitializeLevelCalls(hierarchy, levelNumber, model, time, oldLevel, true);
    assert c[..|alloc|] == alloc;
    assert c[4 * k .. 4 * k + 4] == alloc[4 * k .. 4 * k + 4];
  }
}
