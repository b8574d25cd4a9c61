/**
 * HybridMessenger of src/amr/messengers/hybrid_messenger.h: a facade holding one strategy,
 * fixed at construction, to which every operation is forwarded.
 *
 * The strategies themselves are not part of this model; a strategy is an abstract recorder that
 * answers its name queries from constants and appends each call it receives to a Log.
 */
module HybridMessengers {
  import opened Wrappers
  import opened Amr

  /** The two kinds of strategy a hybrid messenger can hold. */
  datatype HybridMessengerStrategyType = HybridHybrid | MHDHybrid

  /** The message name() throws with when no strategy is installed. */
  const INVALID_STRAT: string := "invalid strat"

  /** A HybridMessengerStrategy, as seen from the messenger. */
  class HybridMessengerStrategy {
    const kind: HybridMessengerStrategyType
    const name: string
    const fineModelName: string
    const coarseModelName: string
    const log: Log

    constructor (kind: HybridMessengerStrategyType, name: string, fineModelName: string,
                 coarseModelName: string, log: Log)
      ensures this.kind == kind && this.name == name && this.log == log
      ensures this.fineModelName == fineModelName && this.coarseModelName == coarseModelName
    {
      this.kind := kind;
      this.name := name;
      this.fineModelName := fineModelName;
      this.coarseModelName := coarseModelName;
      this.log := log;
    }

    method Allocate(patch: PatchId, time: Time)
      modifies log
      ensures log.events == old(log.events) + [AllocateCall(patch, time)]
    {
      log.Record(AllocateCall(patch, time));
    }

    method RegisterQuantities(fromCoarser: HybridMessengerInfo, fromFiner: HybridMessengerInfo)
      modifies log
      ensures log.events == old(log.events) + [RegisterQuantitiesCall(fromCoarser, fromFiner)]
    {
      log.Record(RegisterQuantitiesCall(fromCoarser, fromFiner));
    }

    method RegisterLevel(hierarchy: Hierarchy, levelNumber: int)
      modifies log
      ensures log.events == old(log.events) + [RegisterLevelCall(hierarchy.id, levelNumber)]
    {
      log.Record(RegisterLevelCall(hierarchy.id, levelNumber));
    }

    method Regrid(hierarchy: Hierarchy, levelNumber: int, oldLevel: LevelRef, model: HybridModel, time: Time)
      modifies log
      ensures log.events == old(log.events) + [RegridCall(hierarchy.id, levelNumber, oldLevel, model.id, time)]
    {
      log.Record(RegridCall(hierarchy.id, levelNumber, oldLevel, model.id, time));
    }

    method InitLevel(model: HybridModel, level: LevelRef, time: Time)
      modifies log
      ensures log.events == old(log.events) + [InitLevelCall(model.id, level, time)]
    {
      log.Record(InitLevelCall(model.id, level, time));
    }

    method FirstStep(model: HybridModel, level: LevelRef, hierarchy: Hierarchy, time: Time)
      modifies log
      ensures log.events == old(log.events) + [FirstStepCall(model.id, level, hierarchy.id, time)]
    {
      log.Record(FirstStepCall(model.id, level, hierarchy.id, time));
    }

    method LastStep(model: HybridModel, level: LevelRef)
      modifies log
      ensures log.events == old(log.events) + [LastStepCall(model.id, level)]
    {
      log.Record(LastStepCall(model.id, level));
    }

    method PrepareStep(model: HybridModel, level: LevelRef)
      modifies log
      ensures log.events == old(log.events) + [PrepareStepCall(model.id, level)]
    {
      log.Record(PrepareStepCall(model.id, level));
    }

    method FillRootGhosts(model: HybridModel, level: LevelRef, time: Time)
      modifies log
      ensures log.events == old(log.events) + [FillRootGhostsCall(model.id, level, time)]
    {
      log.Record(FillRootGhostsCall(model.id, level, time));
    }

    method Synchronize(level: LevelRef)
      modifies log
      ensures log.events == old(log.events) + [SynchronizeCall(level)]
    {
      log.Record(SynchronizeCall(level));
    }

    /** emptyInfoFromCoarser(): a new, empty info. */
    method EmptyInfoFromCoarser() returns (info: HybridMessengerInfo)
      modifies log
      ensures fresh(info) && info.ghostElectric == [] && info.ghostMagnetic == [] && info.otherLists == map[]
      ensures log.events == old(log.events) + [EmptyInfoFromCoarserCall(info)]
    {
      info := new HybridMessengerInfo();
      log.Record(EmptyInfoFromCoarserCall(info));
    }

    /** emptyInfoFromFiner(): a new, empty info. */
    method EmptyInfoFromFiner() returns (info: HybridMessengerInfo)
      modifies log
      ensures fresh(info) && info.ghostElectric == [] && info.ghostMagnetic == [] && info.otherLists == map[]
      ensures log.events == old(log.events) + [EmptyInfoFromFinerCall(info)]
    {
      info := new HybridMessengerInfo();
      log.Record(EmptyInfoFromFinerCall(info));
    }

    method FillMagneticGhosts(field: VecFieldRef, levelNumber: int, time: Time)
      modifies log
      ensures log.events == old(log.events) + [FillMagneticGhostsCall(field, levelNumber, time)]
    {
      log.Record(FillMagneticGhostsCall(field, levelNumber, time));
    }

    method FillElectricGhosts(field: VecFieldRef, levelNumber: int, time: Time)
      modifies log
      ensures log.events == old(log.events) + [FillElectricGhostsCall(field, levelNumber, time)]
    {
      log.Record(FillElectricGhostsCall(field, levelNumber, time));
    }

    method FillCurrentGhosts(field: VecFieldRef, levelNumber: int, time: Time)
      modifies log
      ensures log.events == old(log.events) + [FillCurrentGhostsCall(field, levelNumber, time)]
    {
      log.Record(FillCurrentGhostsCall(field, levelNumber, time));
    }

    method FillIonGhostParticles(ions: IonsRef, level: LevelRef, time: Time)
      modifies log
      ensures log.events == old(log.events) + [FillIonGhostParticlesCall(ions, level, time)]
    {
      log.Record(FillIonGhostParticlesCall(ions, level, time));
    }

    method FillIonMomentGhosts(ions: IonsRef, level: LevelRef, currentTime: Time, time: Time)
      modifies log
      ensures log.events == old(log.events) + [FillIonMomentGhostsCall(ions, level, currentTime, time)]
    {
      log.Record(FillIonMomentGhostsCall(ions, level, currentTime, time));
    }

    method SyncMagnetic(field: VecFieldRef)
      modifies log
      ensures log.events == old(log.events) + [SyncMagneticCall(field)]
    {
      log.Record(SyncMagneticCall(field));
    }

    method SyncElectric(field: VecFieldRef)
      modifies log
      ensures log.events == old(log.events) + [SyncElectricCall(field)]
    {
      log.Record(SyncElectricCall(field));
    }

    method SyncIonMoments(ions: IonsRef)
      modifies log
      ensures log.events == old(log.events) + [SyncIonMomentsCall(ions)]
    {
      log.Record(SyncIonMomentsCall(ions));
    }
  }

  /**
   * HybridMessenger: the strategy is fixed at construction (a const field, as the source's
   * const unique_ptr) and may be null, in which case name() throws. Calling any other operation
   * without a strategy dereferences a null pointer in the source, so those require one.
   * Each forwarding method appends exactly one call, with its own arguments, to the strategy's log.
   */
  class HybridMessenger {
    const strat: HybridMessengerStrategy?

    constructor (strat: HybridMessengerStrategy?)
      ensures this.strat == strat
    {
      this.strat := strat;
    }

    /** name(): the strategy's name, or the runtime_error "invalid strat" without a strategy. */
    function Name(): (r: Result<string, string>)
      ensures r.Ok? <==> strat != null
      ensures strat != null ==> r.value == strat.name
      ensures strat == null ==> r.error == INVALID_STRAT
    {
      if strat != null then Ok(strat.name) else Err(INVALID_STRAT)
    }

    function FineModelName(): (r: string)
      requires strat != null
      ensures r == strat.fineModelName
    {
      strat.fineModelName
    }

    function CoarseModelName(): (r: string)
      requires strat != null
      ensures r == strat.coarseModelName
    {
      strat.coarseModelName
    }

    method Allocate(patch: PatchId, time: Time)
      requires strat != null
      modifies strat.log
      ensures strat.log.events == old(strat.log.events) + [AllocateCall(patch, time)]
    {
      strat.Allocate(patch, time);
    }

    /** registerQuantities(fromCoarserInfo, fromFinerInfo): both infos, in the same order. */
    method RegisterQuantities(fromCoarser: HybridMessengerInfo, fromFiner: HybridMessengerInfo)
      requires strat != null
      modifies strat.log
      ensures strat.log.events == old(strat.log.events) + [RegisterQuantitiesCall(fromCoarser, fromFiner)]
    {
      strat.RegisterQuantities(fromCoarser, fromFiner);
    }

    method RegisterLevel(hierarchy: Hierarchy, levelNumber: int)
      requires strat != null
      modifies strat.log
      ensures strat.log.events == old(strat.log.events) + [RegisterLevelCall(hierarchy.id, levelNumber)]
    {
      strat.RegisterLevel(hierarchy, levelNumber);
    }

    method Regrid(hierarchy: Hierarchy, levelNumber: int, oldLevel: LevelRef, model: HybridModel, time: Time)
      requires strat != null
      modifies strat.log
      ensures strat.log.events == old(strat.log.events) + [RegridCall(hierarchy.id, levelNumber, oldLevel, model.id, time)]
    {
      strat.Regrid(hierarchy, levelNumber, oldLevel, model, time);
    }

    method InitLevel(model: HybridModel, level: LevelRef, time: Time)
      requires strat != null
      modifies strat.log
      ensures strat.log.events == old(strat.log.events) + [InitLevelCall(model.id, level, time)]
    {
      strat.InitLevel(model, level, time);
    }

    method FirstStep(model: HybridModel, level: LevelRef, hierarchy: Hierarchy, time: Time)
      requires strat != null
      modifies strat.log
      ensures strat.log.events == old(strat.log.events) + [FirstStepCall(model.id, level, hierarchy.id, time)]
    {
      strat.FirstStep(model, level, hierarchy, time);
    }

    method LastStep(model: HybridModel, level: LevelRef)
      requires strat != null
      modifies strat.log
      ensures strat.log.events == old(strat.log.events) + [LastStepCall(model.id, level)]
    {
      strat.LastStep(model, level);
    }

    method PrepareStep(model: HybridModel, level: LevelRef)
      requires strat != null
      modifies strat.log
      ensures strat.log.events == old(strat.log.events) + [PrepareStepCall(model.id, level)]
    {
      strat.PrepareStep(model, level);
    }

    method FillRootGhosts(model: HybridModel, level: LevelRef, time: Time)
      requires strat != null
      modifies strat.log
      ensures strat.log.events == old(strat.log.events) + [FillRootGhostsCall(model.id, level, time)]
    {
      strat.FillRootGhosts(model, level, time);
    }

    method Synchronize(level: LevelRef)
      requires strat != null
      modifies strat.log
      ensures strat.log.events == old(strat.log.events) + [SynchronizeCall(level)]
    {
      strat.Synchronize(level);
    }

    method EmptyInfoFromCoarser() returns (info: HybridMessengerInfo)
      requires strat != null
      modifies strat.log
      ensures fresh(info) && info.ghostElectric == [] && info.ghostMagnetic == [] && info.otherLists == map[]
      ensures strat.log.events == old(strat.log.events) + [EmptyInfoFromCoarserCall(info)]
    {
      info := strat.EmptyInfoFromCoarser();
    }

    method EmptyInfoFromFiner() returns (info: HybridMessengerInfo)
      requires strat != null
      modifies strat.log
      ensures fresh(info) && info.ghostElectric == [] && info.ghostMagnetic == [] && info.otherLists == map[]
      ensures strat.log.events == old(strat.log.events) + [EmptyInfoFromFinerCall(info)]
    {
      info := strat.EmptyInfoFromFiner();
    }

    method FillMagneticGhosts(field: VecFieldRef, levelNumber: int, time: Time)
      requires strat != null
      modifies strat.log
      ensures strat.log.events == old(strat.log.events) + [FillMagneticGhostsCall(field, levelNumber, time)]
    {
      strat.FillMagneticGhosts(field, levelNumber, time);
    }

    method FillElectricGhosts(field: VecFieldRef, levelNumber: int, time: Time)
      requires strat != null
      modifies strat.log
      ensures strat.log.events == old(strat.log.events) + [FillElectricGhostsCall(field, levelNumber, time)]
    {
      strat.FillElectricGhosts(field, levelNumber, time);
    }

    method FillCurrentGhosts(field: VecFieldRef, levelNumber: int, time: Time)
      requires strat != null
      modifies strat.log
      ensures strat.log.events == old(strat.log.events) + [FillCurrentGhostsCall(field, levelNumber, time)]
    {
      strat.FillCurrentGhosts(field, levelNumber, time);
    }

    method FillIonGhostParticles(ions: IonsRef, level: LevelRef, time: Time)
      requires strat != null
      modifies strat.log
      ensures strat.log.events == old(strat.log.events) + [FillIonGhostParticlesCall(ions, level, time)]
    {
      strat.FillIonGhostParticles(ions, level, time);
    }

    method FillIonMomentGhosts(ions: IonsRef, level: LevelRef, currentTime: Time, time: Time)
      requires strat != null
      modifies strat.log
      ensures strat.log.events == old(strat.log.events) + [FillIonMomentGhostsCall(ions, level, currentTime, time)]
    {
      strat.FillIonMomentGhosts(ions, level, currentTime, time);
    }

    method SyncMagnetic(field: VecFieldRef)
      requires strat != null
      modifies strat.log
      ensures strat.log.events == old(strat.log.events) + [SyncMagneticCall(field)]
    {
      strat.SyncMagnetic(field);
    }

    method SyncElectric(field: VecFieldRef)
      requires strat != null
      modifies strat.log
      ensures strat.log.events == old(strat.log.events) + [SyncElectricCall(field)]
    {
      strat.SyncElectric(field);
    }

    method SyncIonMoments(ions: IonsRef)
      requires strat != null
      modifies strat.log
      ensures strat.log.events == old(strat.log.events) + [SyncIonMomentsCall(ions)]
    {
      strat.SyncIonMoments(ions);
    }
  }

  /** Every strategy kind is one of the two. */
  lemma TwoStrategyKinds(t: HybridMessengerStrategyType)
    ensures t == HybridHybrid || t == MHDHybrid
  {
  }

  /** A messenger built on a strategy answers name() with that strategy's name, and keeps it. */
  lemma NameIsStrategyName(m: HybridMessenger, s: HybridMessengerStrategy)
    requires m.strat == s
    ensures m.Name() == Ok(s.name)
    ensures m.FineModelName() == s.fineModelName && m.CoarseModelName() == s.coarseModelName
  {
  }
}
