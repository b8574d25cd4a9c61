/**
 * SolverPPC of src/solver/solvers/solver_ppc.h, the predictor-predictor-corrector hybrid solver.
 *
 * The numerical kernels (Faraday, Ampere, Ohm, time averaging) are still comments in the source;
 * what the solver does is talk to its collaborators: the model's resources manager, the messenger
 * that fills ghost regions from the coarser level, the pusher and the interpolator. The model is
 * the sequence of those calls, tied by each method's ensures to a specification function, and the
 * lemmas below state the call protocol those functions fix.
 */
module SolverPpc {
  import opened Amr
  import opened HybridMessengers

  /** The name the solver gives ISolver. */
  const PPC_NAME: string := "PPC"
  /** The names of the solver's two private Electromag objects. */
  const EM_PRED: string := "EMPred"
  const EM_AVG: string := "EMAvg"
  /** HybridModel::model_name. */
  const HYBRID_MODEL_NAME: string := "HybridModel"

  /** PredictorStep of moveIons_. */
  datatype PredictorStep = Predictor1 | Predictor2

  /** An ion population, as moveIons_ sees it: its identity and the sizes of its two particle arrays. */
  datatype Population = Population(id: nat, domainCount: nat, patchGhostCount: nat)

  /** electromagPred_.E and electromagPred_.B */
  function EPred(): VecFieldRef { VecFieldRef(EM_PRED, Electric) }
  function BPred(): VecFieldRef { VecFieldRef(EM_PRED, Magnetic) }

  /** The pusher and interpolator calls moveIons_ makes for one population. */
  function PopulationCalls(pop: Population, step: PredictorStep): seq<Event>
  {
    match step
    case Predictor1 =>
      [ PusherMove(pop.id, DomainParticles, TmpDomain, pop.domainCount),
        InterpolatorDeposit(pop.id, TmpDomain),
        PusherMove(pop.id, PatchGhostParticles, TmpPatchGhost, pop.patchGhostCount),
        InterpolatorDeposit(pop.id, TmpPatchGhost) ]
    case Predictor2 => []
  }

  /** The calls moveIons_ makes for the populations in order. */
  function MoveIonsCalls(pops: seq<Population>, step: PredictorStep): seq<Event>
  {
    if |pops| == 0 then [] else MoveIonsCalls(pops[..|pops| - 1], step) + PopulationCalls(pops[|pops| - 1], step)
  }

  /** The ghost fills of one predictor or the corrector, on fields b and e. */
  function PhaseCalls(b: VecFieldRef, e: VecFieldRef, levelNumber: int, level: LevelRef, ions: IonsRef,
                      currentTime: Time, newTime: Time): seq<Event>
  {
    [ FillMagneticGhostsCall(b, levelNumber, newTime),
      FillElectricGhostsCall(e, levelNumber, newTime),
      FillIonGhostParticlesCall(ions, level, newTime),
      FillIonMomentGhostsCall(ions, level, currentTime, newTime) ]
  }

  /** The calls advanceLevel makes on the messenger: predictor 1, predictor 2, then the corrector. */
  function AdvanceLevelCalls(hierarchy: Hierarchy, levelNumber: int, model: HybridModel,
                             currentTime: Time, newTime: Time): seq<Event>
  {
    var level := hierarchy.PatchLevel(levelNumber);
    var predictor := PhaseCalls(BPred(), EPred(), levelNumber, level, model.Ions(), currentTime, newTime);
    predictor + predictor
    + [ FillMagneticGhostsCall(model.StateB(), levelNumber, newTime),
        FillElectricGhostsCall(model.StateE(), levelNumber, newTime) ]
  }

  class SolverPPC {
    const name: string
    /** dict["pusher"]["name"], the kind of pusher the solver was built with. */
    const pusherName: string
    /** Where the solver's pusher and interpolator record their calls. */
    const log: Log

    constructor (pusherName: string, log: Log)
      ensures name == PPC_NAME && this.pusherName == pusherName && this.log == log
    {
      name := PPC_NAME;
      this.pusherName := pusherName;
      this.log := log;
    }

    /** modelName(): the model this solver advances. */
    function ModelName(): (r: string)
      ensures r == HYBRID_MODEL_NAME
    {
      HYBRID_MODEL_NAME
    }

    /** fillMessengerInfo: EMPred's E and B are the ghost fields; nothing else in the info changes. */
    method FillMessengerInfo(info: HybridMessengerInfo)
      modifies info
      ensures info.ghostElectric == old(info.ghostElectric) + [EPred()]
      ensures info.ghostMagnetic == old(info.ghostMagnetic) + [BPred()]
      ensures info.otherLists == old(info.otherLists)
    {
      info.ghostElectric := info.ghostElectric + [EPred()];
      info.ghostMagnetic := info.ghostMagnetic + [BPred()];
    }

    /** registerResources: EMPred then EMAvg, with the model's resources manager. */
    method RegisterResources(model: HybridModel)
      modifies model.log
      ensures model.log.events == old(model.log.events)
                                  + [RmRegisterResources(model.id, EM_PRED), RmRegisterResources(model.id, EM_AVG)]
    {
      model.RegisterResources(EM_PRED);
      model.RegisterResources(EM_AVG);
    }

    /** allocate: EMPred then EMAvg on the patch, both at the allocation time. */
    method Allocate(model: HybridModel, patch: PatchId, allocateTime: Time)
      modifies model.log
      ensures model.log.events == old(model.log.events)
                                  + [RmAllocate(model.id, EM_PRED, patch, allocateTime),
                                     RmAllocate(model.id, EM_AVG, patch, allocateTime)]
    {
      model.AllocateResources(EM_PRED, patch, allocateTime);
      model.AllocateResources(EM_AVG, patch, allocateTime);
    }

    /**
     * moveIons_: for each population in turn, with predictor 1, push the domain particles into a
     * temporary array of the same size and deposit them, then the same for the patch-ghost
     * particles; predictor 2 does nothing yet.
     */
    method MoveIons(pops: seq<Population>, step: PredictorStep)
      modifies log
      ensures log.events == old(log.events) + MoveIonsCalls(pops, step)
    {
      var i := 0;
      while i < |pops|
        invariant 0 <= i <= |pops|
        invariant log.events == old(log.events) + MoveIonsCalls(pops[..i], step)
      {
        var pop := pops[i];
        if step == Predictor1 {
          log.Record(PusherMove(pop.id, DomainParticles, TmpDomain, pop.domainCount));
          log.Record(InterpolatorDeposit(pop.id, TmpDomain));
          log.Record(PusherMove(pop.id, PatchGhostParticles, TmpPatchGhost, pop.patchGhostCount));
          log.Record(InterpolatorDeposit(pop.id, TmpPatchGhost));
        }
        assert pops[..i + 1][..i] == pops[..i];
        i := i + 1;
      }
      assert pops[..i] == pops;
    }

    /** advanceLevel: the messenger calls of the two predictors and the corrector, in order. */
    method AdvanceLevel(hierarchy: Hierarchy, levelNumber: int, model: HybridModel,
                        fromCoarser: HybridMessenger, currentTime: Time, newTime: Time)
      requires fromCoarser.strat != null
      modifies fromCoarser.strat.log
      ensures fromCoarser.strat.log.events
              == old(fromCoarser.strat.log.events) + AdvanceLevelCalls(hierarchy, levelNumber, model, currentTime, newTime)
    {
      var level := hierarchy.PatchLevel(levelNumber);
      var ions := model.Ions();
      // predictor 1
      fromCoarser.FillMagneticGhosts(BPred(), levelNumber, newTime);
      fromCoarser.FillElectricGhosts(EPred(), levelNumber, newTime);
      fromCoarser.FillIonGhostParticles(ions, level, newTime);
      fromCoarser.FillIonMomentGhosts(ions, level, currentTime, newTime);
      // predictor 2
      fromCoarser.FillMagneticGhosts(BPred(), levelNumber, newTime);
      fromCoarser.FillElectricGhosts(EPred(), levelNumber, newTime);
      fromCoarser.FillIonGhostParticles(ions, level, newTime);
      fromCoarser.FillIonMomentGhosts(ions, level, currentTime, newTime);
      // corrector
      fromCoarser.FillMagneticGhosts(model.StateB(), levelNumber, newTime);
      fromCoarser.FillElectricGhosts(model.StateE(), levelNumber, newTime);
    }
  }

  /** The calls for a list of populations are those of its prefix followed by those of its last item. */
  lemma {:induction false} MoveIonsCallsAppend(pops: seq<Population>, pop: Population, step: PredictorStep)
    ensures MoveIonsCalls(pops + [pop], step) == MoveIonsCalls(pops, step) + PopulationCalls(pop, step)
  {
    assert (pops + [pop])[..|pops|] == pops;
  }

  /**
   * With predictor 1, moveIons_ makes four calls per population, and the calls of the k-th
   * population are at 4k..4k+4: push domain into a same-size temporary, deposit it, push patch
   * ghosts into a same-size temporary, deposit it.
   */
  lemma {:induction false} MoveIonsPredictor1Layout(pops: seq<Population>, k: nat)
    requires k < |pops|
    ensures |MoveIonsCalls(pops, Predictor1)| == 4 * |pops|
    ensures MoveIonsCalls(pops, Predictor1)[4 * k .. 4 * k + 4] == PopulationCalls(pops[k], Predictor1)
  {
    var n := |pops| - 1;
    MoveIonsPredictor1Length(pops[..n]);
    if k < n {
      MoveIonsPredictor1Layout(pops[..n], k);
      var prefix := MoveIonsCalls(pops[..n], Predictor1);
      assert MoveIonsCalls(pops, Predictor1)[4 * k .. 4 * k + 4] == prefix[4 * k .. 4 * k + 4];
    }
  }

  lemma {:induction false} MoveIonsPredictor1Length(pops: seq<Population>)
    ensures |MoveIonsCalls(pops, Predictor1)| == 4 * |pops|
  {
    if |pops| > 0 {
      MoveIonsPredictor1Length(pops[..|pops| - 1]);
    }
  }

  /** Each temporary array is made as large as the array of particles pushed into it. */
  lemma MoveIonsTemporariesMatchSources(pops: seq<Population>, k: nat)
    requires k < |pops|
    ensures |MoveIonsCalls(pops, Predictor1)| == 4 * |pops|
    ensures MoveIonsCalls(pops, Predictor1)[4 * k] == PusherMove(pops[k].id, DomainParticles, TmpDomain, pops[k].domainCount)
    ensures MoveIonsCalls(pops, Predictor1)[4 * k + 2]
            == PusherMove(pops[k].id, PatchGhostParticles, TmpPatchGhost, pops[k].patchGhostCount)
  {
    MoveIonsPredictor1Layout(pops, k);
    var c := MoveIonsCalls(pops, Predictor1);
    assert c[4 * k] == c[4 * k .. 4 * k + 4][0];
    assert c[4 * k + 2] == c[4 * k .. 4 * k + 4][2];
  }

  /** Predictor 2 pushes nothing and deposits nothing. */
  lemma {:induction false} MoveIonsPredictor2Empty(pops: seq<Population>)
    ensures MoveIonsCalls(pops, Predictor2) == []
  {
    if |pops| > 0 {
      MoveIonsPredictor2Empty(pops[..|pops| - 1]);
    }
  }

  /**
   * advanceLevel makes ten messenger calls; predictor 2 repeats predictor 1 call for call, and
   * each phase fills magnetic ghosts before electric ones.
   */
  lemma AdvanceLevelShape(hierarchy: Hierarchy, levelNumber: int, model: HybridModel, currentTime: Time, newTime: Time)
    ensures var c := AdvanceLevelCalls(hierarchy, levelNumber, model, currentTime, newTime);
      && |c| == 10
      && c[0..4] == c[4..8]
      && c[0].FillMagneticGhostsCall? && c[1].FillElectricGhostsCall?
      && c[2].FillIonGhostParticlesCall? && c[3].FillIonMomentGhostsCall?
      && c[8].FillMagneticGhostsCall? && c[9].FillElectricGhostsCall?
  {
  }

  /** The predictors fill the ghosts of EMPred's fields; only the corrector fills the model's own E and B. */
  lemma AdvanceLevelFieldTargets(hierarchy: Hierarchy, levelNumber: int, model: HybridModel, currentTime: Time, newTime: Time)
    ensures var c := AdvanceLevelCalls(hierarchy, levelNumber, model, currentTime, newTime);
      && (forall i :: 0 <= i < 8 && (c[i].FillMagneticGhostsCall? || c[i].FillElectricGhostsCall?) ==>
            c[i].field.electromag == EM_PRED)
      && c[8].field == model.StateB() && c[9].field == model.StateE()
  {
  }

  /**
   * Every field fill is on the advanced level at the new time; every ion fill is on the patch
   * level of that number at the new time, and the moment fills also carry the current time.
   */
  lemma AdvanceLevelTimesAndLevels(hierarchy: Hierarchy, levelNumber: int, model: HybridModel, currentTime: Time, newTime: Time)
    ensures var c := AdvanceLevelCalls(hierarchy, levelNumber, model, currentTime, newTime);
      forall i :: 0 <= i < |c| ==>
        match c[i]
        case FillMagneticGhostsCall(_, n, t) => n == levelNumber && t == newTime
        case FillElectricGhostsCall(_, n, t) => n == levelNumber && t == newTime
        case FillIonGhostParticlesCall(ions, l, t) =>
          ions == model.Ions() && l == hierarchy.PatchLevel(levelNumber) && t == newTime
        case FillIonMomentGhostsCall(ions, l, ct, t) =>
          ions == model.Ions() && l == hierarchy.PatchLevel(levelNumber) && ct == currentTime && t == newTime
        case _ => false
  {
    var c := AdvanceLevelCalls(hierarchy, levelNumber, model, currentTime, newTime);
    assert |c| == 10;
  }
}
