/**
 * The collaborators the messenger, the solver and the tagging strategy talk to, seen only
 * through the calls made on them: the messenger strategy, the physical model, its resources
 * manager, the particle pusher and the interpolator. Every such call is appended to one shared
 * Log, so that the order of calls across collaborators can be stated.
 */
module Amr {

  /** A simulation time (a double passed along unchanged). */
  type Time = real

  /** A patch of a level, by identity. */
  type PatchId = nat

  /** A patch hierarchy: its identity and, per level number, the patches of that level. */
  datatype Hierarchy = Hierarchy(id: nat, levels: seq<seq<PatchId>>)
  {
    /** getPatchLevel(levelNumber), by identity. */
    function PatchLevel(levelNumber: int): (l: LevelRef)
      ensures l.hierarchy == id && l.number == levelNumber
    {
      LevelRef(id, levelNumber)
    }
  }

  /** A patch level, by the hierarchy it belongs to and its number. */
  datatype LevelRef = LevelRef(hierarchy: nat, number: int)

  /** Which of the two vector fields of an Electromag. */
  datatype EMComponent = Electric | Magnetic

  /** A vector field of a named Electromag (its E or its B). */
  datatype VecFieldRef = VecFieldRef(electromag: string, component: EMComponent)

  /** The ion populations of a model. */
  datatype IonsRef = IonsOf(model: nat)

  /** The data-holder of quantity names a model or solver hands to a messenger (HybridMessengerInfo). */
  class HybridMessengerInfo {
    var ghostElectric: seq<VecFieldRef>
    var ghostMagnetic: seq<VecFieldRef>
    /** Every other list of the info, by its name. */
    var otherLists: map<string, seq<string>>

    constructor ()
      ensures ghostElectric == [] && ghostMagnetic == [] && otherLists == map[]
    {
      ghostElectric := [];
      ghostMagnetic := [];
      otherLists := map[];
    }
  }

  /** The particle sets moveIons_ hands to the pusher and the interpolator. */
  datatype ParticleSet = DomainParticles | PatchGhostParticles | TmpDomain | TmpPatchGhost

  /** One call into a collaborator. */
  datatype Event =
    // HybridMessengerStrategy
    | AllocateCall(patch: PatchId, time: Time)
    | RegisterQuantitiesCall(fromCoarser: HybridMessengerInfo, fromFiner: HybridMessengerInfo)
    | RegisterLevelCall(hierarchy: nat, levelNumber: int)
    | RegridCall(hierarchy: nat, levelNumber: int, oldLevel: LevelRef, model: nat, time: Time)
    | InitLevelCall(model: nat, level: LevelRef, time: Time)
    | FirstStepCall(model: nat, level: LevelRef, hierarchy: nat, time: Time)
    | LastStepCall(model: nat, level: LevelRef)
    | PrepareStepCall(model: nat, level: LevelRef)
    | FillRootGhostsCall(model: nat, level: LevelRef, time: Time)
    | SynchronizeCall(level: LevelRef)
    | EmptyInfoFromCoarserCall(info: HybridMessengerInfo)
    | EmptyInfoFromFinerCall(info: HybridMessengerInfo)
    | FillMagneticGhostsCall(field: VecFieldRef, levelNumber: int, time: Time)
    | FillElectricGhostsCall(field: VecFieldRef, levelNumber: int, time: Time)
    | FillCurrentGhostsCall(field: VecFieldRef, levelNumber: int, time: Time)
    | FillIonGhostParticlesCall(ions: IonsRef, level: LevelRef, time: Time)
    | FillIonMomentGhostsCall(ions: IonsRef, level: LevelRef, currentTime: Time, time: Time)
    | SyncMagneticCall(field: VecFieldRef)
    | SyncElectricCall(field: VecFieldRef)
    | SyncIonMomentsCall(ions: IonsRef)
    // the physical model
    | ModelAllocate(model: nat, patch: PatchId, time: Time)
    | ModelInitialize(model: nat, level: LevelRef)
    | ModelFillMessengerInfo(model: nat, info: HybridMessengerInfo)
    // the model's resources manager
    | RmRegisterResources(model: nat, electromag: string)
    | RmAllocate(model: nat, electromag: string, patch: PatchId, time: Time)
    // the pusher and the interpolator of the solver
    | PusherMove(population: nat, from: ParticleSet, to: ParticleSet, toSize: nat)
    | InterpolatorDeposit(population: nat, from: ParticleSet)

  /** The shared record of calls into collaborators, in call order. */
  class Log {
    var events: seq<Event>

    constructor ()
      ensures events == []
    {
      events := [];
    }

    method Record(e: Event)
      modifies this
      ensures events == old(events) + [e]
    {
      events := events + [e];
    }
  }

  /**
   * A hybrid physical model: its identity, the name of its state's Electromag and the log its
   * own calls and those of its resources manager go to. Its implementation is not part of this
   * model; only the calls made on it are.
   */
  class HybridModel {
    const id: nat
    const electromagName: string
    const log: Log

    constructor (id: nat, electromagName: string, log: Log)
      ensures this.id == id && this.electromagName == electromagName && this.log == log
    {
      this.id := id;
      this.electromagName := electromagName;
      this.log := log;
    }

    /** state.ions */
    function Ions(): IonsRef
    {
      IonsOf(id)
    }

    /** state.electromag.E and state.electromag.B */
    function StateE(): VecFieldRef
    {
      VecFieldRef(electromagName, Electric)
    }

    function StateB(): VecFieldRef
    {
      VecFieldRef(electromagName, Magnetic)
    }

    method Allocate(patch: PatchId, time: Time)
      modifies log
      ensures log.events == old(log.events) + [ModelAllocate(id, patch, time)]
    {
      log.Record(ModelAllocate(id, patch, time));
    }

    method Initialize(level: LevelRef)
      modifies log
      ensures log.events == old(log.events) + [ModelInitialize(id, level)]
    {
      log.Record(ModelInitialize(id, level));
    }

    /**
     * The model's own fillMessengerInfo: the call is recorded; what it puts into the info is not
     * part of this model, so the info may change in any way.
     */
    method FillMessengerInfo(info: HybridMessengerInfo)
      modifies log, info
      ensures log.events == old(log.events) + [ModelFillMessengerInfo(id, info)]
    {
      log.Record(ModelFillMessengerInfo(id, info));
    }

    /** resourcesManager->registerResources(electromag) */
    method RegisterResources(electromag: string)
      modifies log
      ensures log.events == old(log.events) + [RmRegisterResources(id, electromag)]
    {
      log.Record(RmRegisterResources(id, electromag));
    }

    /** resourcesManager->allocate(electromag, patch, time) */
    method AllocateResources(electromag: string, patch: PatchId, time: Time)
      modifies log
      ensures log.events == old(log.events) + [RmAllocate(id, electromag, patch, time)]
    {
      log.Record(RmAllocate(id, electromag, patch, time));
    }
  }
}
