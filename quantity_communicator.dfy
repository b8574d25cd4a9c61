/**
 * The schedule cache and the registration helpers of
 * src/samrai_interface/evolution/messengers/quantity_communicator.h.
 *
 * The SAMRAI refine/coarsen algorithm a Communicator owns is modelled by the list of operations
 * registered on it, in registration order; schedules and operators are opaque handles.
 */
module QuantityCommunicator {
  import opened Wrappers

  /** The two kinds of communicator: refining (coarse to fine) or synchronizing (fine to coarse). */
  datatype ComType = Refiner | Synchronizer

  /** A patch-data id of the resources manager. */
  type PatchDataId = int

  /** A schedule handle (a shared pointer to a SAMRAI schedule), opaque here. */
  type Schedule(==)

  /** A shared pointer to a SAMRAI spatial or time operator, opaque here. */
  datatype OperatorRef = OperatorRef(handle: nat)

  /** One registerRefine / registerCoarsen call made on a communicator's algorithm. */
  datatype Registration =
    | RefineWithTime(dest: PatchDataId, src: PatchDataId, oldSrc: PatchDataId, newSrc: PatchDataId,
                     scratch: PatchDataId, refineOp: OperatorRef, timeOp: OperatorRef)
    | RefineSameTime(dest: PatchDataId, src: PatchDataId, scratch: PatchDataId, refineOp: OperatorRef)
    | Coarsen(dest: PatchDataId, src: PatchDataId, coarsenOp: OperatorRef)

  /** The names of the three components of a vector field. */
  datatype VecFieldDescriptor = VecFieldDescriptor(xName: string, yName: string, zName: string)
  {
    function Names(): (r: seq<string>)
      ensures |r| == 3 && r[0] == xName && r[1] == yName && r[2] == zName
    {
      [xName, yName, zName]
    }
  }

  /** The resources manager, as far as getID goes: a partial map from quantity name to id. */
  datatype ResourcesManager = ResourcesManager(ids: map<string, PatchDataId>)
  {
    /** getID(name): the id of a registered quantity, nothing for an unknown name. */
    function GetId(name: string): (r: Option<PatchDataId>)
      ensures r.Some? <==> name in ids
      ensures r.Some? ==> r.value == ids[name]
    {
      if name in ids then Some(ids[name]) else None
    }
  }

  /** schedules_.find(levelNumber) as an optional. */
  function Find(schedules: map<int, Schedule>, levelNumber: int): (r: Option<Schedule>)
    ensures r.Some? <==> levelNumber in schedules
    ensures r.Some? ==> r.value == schedules[levelNumber]
  {
    if levelNumber in schedules then Some(schedules[levelNumber]) else None
  }

  /** An empty cache has no schedule at any level. */
  lemma FindInEmpty(levelNumber: int)
    ensures Find(map[], levelNumber) == None
  {
  }

  /** After storing s at a level, that level finds s and every other level finds what it found before. */
  lemma FindAfterStore(schedules: map<int, Schedule>, s: Schedule, levelNumber: int, other: int)
    ensures Find(schedules[levelNumber := s], levelNumber) == Some(s)
    ensures other != levelNumber ==> Find(schedules[levelNumber := s], other) == Find(schedules, other)
  {
  }

  /** Communicator<ComType>: an algorithm (its registrations) and a map from level number to schedule. */
  class Communicator {
    const kind: ComType
    /** The dimension a Synchronizer's coarsen algorithm is built with (0 unless given). */
    const dimension: nat
    var schedules: map<int, Schedule>
    var algo: seq<Registration>

    /** Both constructors: a fresh algorithm with nothing registered and no schedule. */
    constructor (kind: ComType, dimension: nat)
      ensures this.kind == kind && this.dimension == dimension
      ensures schedules == map[] && algo == []
    {
      this.kind := kind;
      this.dimension := dimension;
      schedules := map[];
      algo := [];
    }

    /** findSchedule(levelNumber): the schedule stored for the level, if any; changes nothing. */
    function FindSchedule(levelNumber: int): (r: Option<Schedule>)
      reads this
      ensures r.Some? <==> levelNumber in schedules
      ensures r.Some? ==> r.value == schedules[levelNumber]
    {
      Find(schedules, levelNumber)
    }

    /** add(schedule, levelNumber): stores the schedule, replacing any earlier one at that level. */
    method Add(schedule: Schedule, levelNumber: int)
      modifies this
      ensures schedules == old(schedules)[levelNumber := schedule]
      ensures algo == old(algo)
      ensures FindSchedule(levelNumber) == Some(schedule)
      ensures forall l :: l != levelNumber ==> FindSchedule(l) == old(FindSchedule(l))
    {
      schedules := schedules[levelNumber := schedule];
    }

    /** algo->registerRefine(dest, src, old, new, scratch, refineOp, timeOp). */
    method RegisterRefineWithTime(dest: PatchDataId, src: PatchDataId, oldSrc: PatchDataId, newSrc: PatchDataId,
                                  scratch: PatchDataId, refineOp: OperatorRef, timeOp: OperatorRef)
      requires kind == Refiner
      modifies this
      ensures algo == old(algo) + [RefineWithTime(dest, src, oldSrc, newSrc, scratch, refineOp, timeOp)]
      ensures schedules == old(schedules)
    {
      algo := algo + [RefineWithTime(dest, src, oldSrc, newSrc, scratch, refineOp, timeOp)];
    }

    /** algo->registerRefine(dest, src, scratch, refineOp). */
    method RegisterRefineSameTime(dest: PatchDataId, src: PatchDataId, scratch: PatchDataId, refineOp: OperatorRef)
      requires kind == Refiner
      modifies this
      ensures algo == old(algo) + [RefineSameTime(dest, src, scratch, refineOp)]
      ensures schedules == old(schedules)
    {
      algo := algo + [RefineSameTime(dest, src, scratch, refineOp)];
    }

    /** algo->registerCoarsen(dest, src, coarsenOp). */
    method RegisterCoarsen(dest: PatchDataId, src: PatchDataId, coarsenOp: OperatorRef)
      requires kind == Synchronizer
      modifies this
      ensures algo == old(algo) + [Coarsen(dest, src, coarsenOp)]
      ensures schedules == old(schedules)
    {
      algo := algo + [Coarsen(dest, src, coarsenOp)];
    }
  }

  // ---------------------------------------------------------------------------------------
  // What each registration helper registers, as functions of the resources manager.
  // ---------------------------------------------------------------------------------------

  /** The registrations of the components that resolved, in component order. */
  function Resolved(components: seq<Option<Registration>>): (r: seq<Registration>)
    ensures |r| <= |components|
  {
    if components == [] then []
    else (if components[0].Some? then [components[0].value] else []) + Resolved(components[1..])
  }

  /** What the ghost makeRefiner's lambda registers for one component (model, ghost, oldModel names). */
  function GhostComponent(rm: ResourcesManager, model: string, ghostName: string, oldModel: string,
                          refineOp: OperatorRef, timeOp: OperatorRef): (r: Option<Registration>)
    ensures r.Some? <==> model in rm.ids && ghostName in rm.ids && oldModel in rm.ids
    ensures r.Some? ==> r.value.RefineWithTime? && r.value.refineOp == refineOp && r.value.timeOp == timeOp
    ensures r.Some? ==> r.value.dest == rm.ids[ghostName] && r.value.scratch == rm.ids[ghostName]
    ensures r.Some? ==> r.value.src == rm.ids[model] && r.value.newSrc == rm.ids[model]
    ensures r.Some? ==> r.value.oldSrc == rm.ids[oldModel]
  {
    var src := rm.GetId(model);
    var dest := rm.GetId(ghostName);
    var oldSrc := rm.GetId(oldModel);
    if src.Some? && dest.Some? && oldSrc.Some?
    then Some(RefineWithTime(dest.value, src.value, oldSrc.value, src.value, dest.value, refineOp, timeOp))
    else None
  }

  /** The x, y and z candidates of the ghost makeRefiner. */
  function GhostComponents(rm: ResourcesManager, ghostField: VecFieldDescriptor, model: VecFieldDescriptor,
                           oldModel: VecFieldDescriptor, refineOp: OperatorRef, timeOp: OperatorRef)
    : (cs: seq<Option<Registration>>)
    ensures |cs| == 3
  {
    [GhostComponent(rm, model.xName, ghostField.xName, oldModel.xName, refineOp, timeOp),
     GhostComponent(rm, model.yName, ghostField.yName, oldModel.yName, refineOp, timeOp),
     GhostComponent(rm, model.zName, ghostField.zName, oldModel.zName, refineOp, timeOp)]
  }

  /** What the ghost makeRefiner(ghost, model, oldModel, rm, refineOp, timeOp) registers. */
  function GhostRegistrations(rm: ResourcesManager, ghostField: VecFieldDescriptor, model: VecFieldDescriptor,
                              oldModel: VecFieldDescriptor, refineOp: OperatorRef, timeOp: OperatorRef)
    : seq<Registration>
  {
    Resolved(GhostComponents(rm, ghostField, model, oldModel, refineOp, timeOp))
  }

  /** What the initialisation makeRefiner registers for one quantity name. */
  function InitComponent(rm: ResourcesManager, name: string, refineOp: OperatorRef): (r: Option<Registration>)
    ensures r.Some? <==> name in rm.ids
    ensures r.Some? ==> r.value == RefineSameTime(rm.ids[name], rm.ids[name], rm.ids[name], refineOp)
  {
    var id := rm.GetId(name);
    if id.Some? then Some(RefineSameTime(id.value, id.value, id.value, refineOp)) else None
  }

  /** The x, y and z candidates of the initialisation makeRefiner. */
  function InitComponents(rm: ResourcesManager, descriptor: VecFieldDescriptor, refineOp: OperatorRef)
    : (cs: seq<Option<Registration>>)
    ensures |cs| == 3
  {
    [InitComponent(rm, descriptor.xName, refineOp), InitComponent(rm, descriptor.yName, refineOp),
     InitComponent(rm, descriptor.zName, refineOp)]
  }

  /** What makeSynchronizer registers for one quantity name. */
  function CoarsenComponent(rm: ResourcesManager, name: string, coarsenOp: OperatorRef): (r: Option<Registration>)
    ensures r.Some? <==> name in rm.ids
    ensures r.Some? ==> r.value == Coarsen(rm.ids[name], rm.ids[name], coarsenOp)
  {
    var id := rm.GetId(name);
    if id.Some? then Some(Coarsen(id.value, id.value, coarsenOp)) else None
  }

  /** The x, y and z candidates of makeSynchronizer. */
  function CoarsenComponents(rm: ResourcesManager, descriptor: VecFieldDescriptor, coarsenOp: OperatorRef)
    : (cs: seq<Option<Registration>>)
    ensures |cs| == 3
  {
    [CoarsenComponent(rm, descriptor.xName, coarsenOp), CoarsenComponent(rm, descriptor.yName, coarsenOp),
     CoarsenComponent(rm, descriptor.zName, coarsenOp)]
  }

  /** Registers one ghost component when its three ids resolve (the lambda of the ghost makeRefiner). */
  method RegisterGhostComponent(com: Communicator, rm: ResourcesManager, model: string, ghostName: string,
                                oldModel: string, refineOp: OperatorRef, timeOp: OperatorRef)
    requires com.kind == Refiner
    modifies com
    ensures com.schedules == old(com.schedules)
    ensures com.algo == old(com.algo) + Resolved([GhostComponent(rm, model, ghostName, oldModel, refineOp, timeOp)])
  {
    var srcId := rm.GetId(model);
    var destId := rm.GetId(ghostName);
    var oldId := rm.GetId(oldModel);
    if srcId.Some? && destId.Some? && oldId.Some? {
      // dest, src, old, new, scratch
      com.RegisterRefineWithTime(destId.value, srcId.value, oldId.value, srcId.value, destId.value, refineOp, timeOp);
    }
  }

  /** The splitting of Resolved over a concatenation. */
  lemma {:induction false} ResolvedAppend(a: seq<Option<Registration>>, b: seq<Option<Registration>>)
    ensures Resolved(a + b) == Resolved(a) + Resolved(b)
  {
    if a == [] {
      assert a + b == b;
    } else {
      assert (a + b)[0] == a[0];
      assert (a + b)[1..] == a[1..] + b;
      ResolvedAppend(a[1..], b);
    }
  }

  /** makeRefiner(ghost, model, oldModel, rm, refineOp, timeOp): the ghost refiner, components x, y, z. */
  method MakeGhostRefiner(ghostField: VecFieldDescriptor, model: VecFieldDescriptor, oldModel: VecFieldDescriptor,
                          rm: ResourcesManager, refineOp: OperatorRef, timeOp: OperatorRef)
    returns (com: Communicator)
    ensures fresh(com) && com.kind == Refiner && com.schedules == map[]
    ensures com.algo == GhostRegistrations(rm, ghostField, model, oldModel, refineOp, timeOp)
  {
    com := new Communicator(Refiner, 0);
    var cx := GhostComponent(rm, model.xName, ghostField.xName, oldModel.xName, refineOp, timeOp);
    var cy := GhostComponent(rm, model.yName, ghostField.yName, oldModel.yName, refineOp, timeOp);
    var cz := GhostComponent(rm, model.zName, ghostField.zName, oldModel.zName, refineOp, timeOp);
    RegisterGhostComponent(com, rm, model.xName, ghostField.xName, oldModel.xName, refineOp, timeOp);
    RegisterGhostComponent(com, rm, model.yName, ghostField.yName, oldModel.yName, refineOp, timeOp);
    ResolvedAppend([cx], [cy]);
    RegisterGhostComponent(com, rm, model.zName, ghostField.zName, oldModel.zName, refineOp, timeOp);
    ResolvedAppend([cx, cy], [cz]);
    assert [] + Resolved([cx]) + Resolved([cy]) + Resolved([cz]) == Resolved([cx, cy, cz]);
  }

  /** Registers one initialisation component when its id resolves. */
  method RegisterInitComponent(com: Communicator, rm: ResourcesManager, name: string, refineOp: OperatorRef)
    requires com.kind == Refiner
    modifies com
    ensures com.schedules == old(com.schedules)
    ensures com.algo == old(com.algo) + Resolved([InitComponent(rm, name, refineOp)])
  {
    var id := rm.GetId(name);
    if id.Some? {
      com.RegisterRefineSameTime(id.value, id.value, id.value, refineOp);
    }
  }

  /** Registers one coarsening component when its id resolves. */
  method RegisterCoarsenComponent(com: Communicator, rm: ResourcesManager, name: string, coarsenOp: OperatorRef)
    requires com.kind == Synchronizer
    modifies com
    ensures com.schedules == old(com.schedules)
    ensures com.algo == old(com.algo) + Resolved([CoarsenComponent(rm, name, coarsenOp)])
  {
    var id := rm.GetId(name);
    if id.Some? {
      com.RegisterCoarsen(id.value, id.value, coarsenOp);
    }
  }

  /** makeRefiner(descriptor, rm, refineOp): the initialisation refiner of a vector field. */
  method MakeInitRefiner(descriptor: VecFieldDescriptor, rm: ResourcesManager, refineOp: OperatorRef)
    returns (com: Communicator)
    ensures fresh(com) && com.kind == Refiner && com.schedules == map[]
    ensures com.algo == Resolved(InitComponents(rm, descriptor, refineOp))
  {
    com := new Communicator(Refiner, 0);
    ghost var cs := InitComponents(rm, descriptor, refineOp);
    RegisterInitComponent(com, rm, descriptor.xName, refineOp);
    RegisterInitComponent(com, rm, descriptor.yName, refineOp);
    ResolvedAppend([cs[0]], [cs[1]]);
    RegisterInitComponent(com, rm, descriptor.zName, refineOp);
    ResolvedAppend([cs[0], cs[1]], [cs[2]]);
    assert [cs[0], cs[1], cs[2]] == cs;
    assert [] + Resolved([cs[0]]) + Resolved([cs[1]]) + Resolved([cs[2]]) == Resolved(cs);
  }

  /** makeRefiner(name, rm, refineOp): the initialisation refiner of a scalar field. */
  method MakeInitRefinerForName(name: string, rm: ResourcesManager, refineOp: OperatorRef)
    returns (com: Communicator)
    ensures fresh(com) && com.kind == Refiner && com.schedules == map[]
    ensures com.algo == Resolved([InitComponent(rm, name, refineOp)])
  {
    com := new Communicator(Refiner, 0);
    RegisterInitComponent(com, rm, name, refineOp);
  }

  /** makeSynchronizer(descriptor, rm, coarsenOp): the synchronizer of a vector field. */
  method MakeSynchronizer(descriptor: VecFieldDescriptor, rm: ResourcesManager, coarsenOp: OperatorRef,
                          dimension: nat)
    returns (com: Communicator)
    ensures fresh(com) && com.kind == Synchronizer && com.dimension == dimension && com.schedules == map[]
    ensures com.algo == Resolved(CoarsenComponents(rm, descriptor, coarsenOp))
  {
    com := new Communicator(Synchronizer, dimension);
    ghost var cs := CoarsenComponents(rm, descriptor, coarsenOp);
    RegisterCoarsenComponent(com, rm, descriptor.xName, coarsenOp);
    RegisterCoarsenComponent(com, rm, descriptor.yName, coarsenOp);
    ResolvedAppend([cs[0]], [cs[1]]);
    RegisterCoarsenComponent(com, rm, descriptor.zName, coarsenOp);
    ResolvedAppend([cs[0], cs[1]], [cs[2]]);
    assert [cs[0], cs[1], cs[2]] == cs;
    assert [] + Resolved([cs[0]]) + Resolved([cs[1]]) + Resolved([cs[2]]) == Resolved(cs);
  }

  /** makeSynchronizer(name, rm, coarsenOp): the synchronizer of a scalar field. */
  method MakeSynchronizerForName(name: string, rm: ResourcesManager, coarsenOp: OperatorRef, dimension: nat)
    returns (com: Communicator)
    ensures fresh(com) && com.kind == Synchronizer && com.dimension == dimension && com.schedules == map[]
    ensures com.algo == Resolved([CoarsenComponent(rm, name, coarsenOp)])
  {
    com := new Communicator(Synchronizer, dimension);
    RegisterCoarsenComponent(com, rm, name, coarsenOp);
  }
  // ---------------------------------------------------------------------------------------
  // Properties of the registrations.
  // ---------------------------------------------------------------------------------------

  /** The number of candidates that resolved. */
  function CountResolved(components: seq<Option<Registration>>): nat
  {
    if components == [] then 0
    else (if components[0].Some? then 1 else 0) + CountResolved(components[1..])
  }

  /**
   * Exactly the resolved candidates are registered, one registration each, in candidate order;
   * when every candidate resolves, registration k is candidate k.
   */
  lemma {:induction false} ResolvedFacts(components: seq<Option<Registration>>)
    ensures |Resolved(components)| == CountResolved(components)
    ensures forall r :: r in Resolved(components) <==> Some(r) in components
    ensures (forall k :: 0 <= k < |components| ==> components[k].Some?) ==>
              |Resolved(components)| == |components| &&
              forall k :: 0 <= k < |components| ==> Resolved(components)[k] == components[k].value
  {
    if components != [] {
      ResolvedFacts(components[1..]);
      assert components == [components[0]] + components[1..];
      forall r ensures Some(r) in components <==> Some(r) == components[0] || Some(r) in components[1..] {
      }
    }
  }

  /**
   * The ghost makeRefiner registers at most three operations: one per component whose model,
   * ghost and old-model ids all resolve, each with dest = scratch = ghost and src = new = model,
   * in the order x, y, z.
   */
  lemma GhostRefinerRegistersResolvedComponents(rm: ResourcesManager, ghostField: VecFieldDescriptor,
                                                model: VecFieldDescriptor, oldModel: VecFieldDescriptor,
                                                refineOp: OperatorRef, timeOp: OperatorRef)
    ensures var regs := GhostRegistrations(rm, ghostField, model, oldModel, refineOp, timeOp);
            var cs := GhostComponents(rm, ghostField, model, oldModel, refineOp, timeOp);
            && |regs| <= 3
            && |regs| == CountResolved(cs)
            && (forall r :: r in regs <==> Some(r) in cs)
            && (forall r :: r in regs ==> r.RefineWithTime? && r.dest == r.scratch && r.src == r.newSrc)
            && ((forall k :: 0 <= k < 3 ==> cs[k].Some?) ==> regs == [cs[0].value, cs[1].value, cs[2].value])
  {
    var cs := GhostComponents(rm, ghostField, model, oldModel, refineOp, timeOp);
    ResolvedFacts(cs);
  }

  /** A ghost component whose names do not all resolve is skipped, without error. */
  lemma GhostRefinerSkipsUnresolved(rm: ResourcesManager, ghostField: VecFieldDescriptor,
                                    model: VecFieldDescriptor, oldModel: VecFieldDescriptor,
                                    refineOp: OperatorRef, timeOp: OperatorRef, k: nat)
    requires k < 3
    requires model.Names()[k] !in rm.ids || ghostField.Names()[k] !in rm.ids || oldModel.Names()[k] !in rm.ids
    ensures |GhostRegistrations(rm, ghostField, model, oldModel, refineOp, timeOp)| <= 2
  {
    var cs := GhostComponents(rm, ghostField, model, oldModel, refineOp, timeOp);
    ResolvedFacts(cs);
    assert cs[k].None?;
    CountResolvedBelow(cs, k);
  }

  /**
   * The x, y and z candidates of the ghost makeRefiner as the calls are written:
   * registerRefine(ghost.xName, model.xName, oldModel.xName) hands the ghost name to the
   * lambda's model parameter and the model name to its ghost parameter.
   */
  function GhostComponentsAsWritten(rm: ResourcesManager, ghostField: VecFieldDescriptor, model: VecFieldDescriptor,
                                    oldModel: VecFieldDescriptor, refineOp: OperatorRef, timeOp: OperatorRef)
    : (cs: seq<Option<Registration>>)
    ensures |cs| == 3
  {
    [GhostComponent(rm, ghostField.xName, model.xName, oldModel.xName, refineOp, timeOp),
     GhostComponent(rm, ghostField.yName, model.yName, oldModel.yName, refineOp, timeOp),
     GhostComponent(rm, ghostField.zName, model.zName, oldModel.zName, refineOp, timeOp)]
  }

  /**
   * As written, a resolving component is registered with the model's id as destination and
   * scratch and the ghost's id as source, so it differs from the intended registration
   * whenever the two ids differ.
   */
  lemma AsWrittenFillsTheModelFromTheGhost(rm: ResourcesManager, ghostField: VecFieldDescriptor,
                                           model: VecFieldDescriptor, oldModel: VecFieldDescriptor,
                                           refineOp: OperatorRef, timeOp: OperatorRef, k: nat)
    requires k < 3
    requires ghostField.Names()[k] in rm.ids && model.Names()[k] in rm.ids && oldModel.Names()[k] in rm.ids
    ensures var c := GhostComponentsAsWritten(rm, ghostField, model, oldModel, refineOp, timeOp)[k];
            c.Some? && c.value.dest == c.value.scratch == rm.ids[model.Names()[k]]
            && c.value.src == c.value.newSrc == rm.ids[ghostField.Names()[k]]
    ensures rm.ids[model.Names()[k]] != rm.ids[ghostField.Names()[k]] ==>
            GhostComponentsAsWritten(rm, ghostField, model, oldModel, refineOp, timeOp)[k]
            != GhostComponents(rm, ghostField, model, oldModel, refineOp, timeOp)[k]
  {
  }

  /** Two vector fields whose six components all resolve, to six different ids, show the swap on every component. */
  lemma AsWrittenSwapExample()
    ensures var rm := ResourcesManager(map["Bx" := 0, "By" := 1, "Bz" := 2, "Bgx" := 3, "Bgy" := 4, "Bgz" := 5,
                                           "Box" := 6, "Boy" := 7, "Boz" := 8]);
            var ghostField := VecFieldDescriptor("Bgx", "Bgy", "Bgz");
            var model := VecFieldDescriptor("Bx", "By", "Bz");
            var oldModel := VecFieldDescriptor("Box", "Boy", "Boz");
            var op, timeOp := OperatorRef(0), OperatorRef(1);
            Resolved(GhostComponentsAsWritten(rm, ghostField, model, oldModel, op, timeOp))[0]
              == RefineWithTime(0, 3, 6, 3, 0, op, timeOp)
            && GhostRegistrations(rm, ghostField, model, oldModel, op, timeOp)[0] == RefineWithTime(3, 0, 6, 0, 3, op, timeOp)
  {
  }

  /**
   * The vector makeRefiner for initialisation registers one operation per resolvable component,
   * with that component's id in every slot.
   */
  lemma InitRegistersResolvedComponents(rm: ResourcesManager, descriptor: VecFieldDescriptor, refineOp: OperatorRef)
    ensures var regs := Resolved(InitComponents(rm, descriptor, refineOp));
            && |regs| == KnownNames(rm, descriptor.Names())
            && forall r :: r in regs <==>
                 exists k :: 0 <= k < 3 && descriptor.Names()[k] in rm.ids &&
                   r == RefineSameTime(rm.ids[descriptor.Names()[k]], rm.ids[descriptor.Names()[k]],
                                       rm.ids[descriptor.Names()[k]], refineOp)
  {
    var ics := InitComponents(rm, descriptor, refineOp);
    ResolvedFacts(ics);
    ResolvedCountMatchesNames(rm, descriptor.Names(), ics);
  }

  /** The vector makeSynchronizer registers one coarsening per resolvable component, with its id in both slots. */
  lemma CoarsenRegistersResolvedComponents(rm: ResourcesManager, descriptor: VecFieldDescriptor, coarsenOp: OperatorRef)
    ensures var regs := Resolved(CoarsenComponents(rm, descriptor, coarsenOp));
            && |regs| == KnownNames(rm, descriptor.Names())
            && forall r :: r in regs <==>
                 exists k :: 0 <= k < 3 && descriptor.Names()[k] in rm.ids &&
                   r == Coarsen(rm.ids[descriptor.Names()[k]], rm.ids[descriptor.Names()[k]], coarsenOp)
  {
    var ccs := CoarsenComponents(rm, descriptor, coarsenOp);
    ResolvedFacts(ccs);
    ResolvedCountMatchesNames(rm, descriptor.Names(), ccs);
  }

  /** The number of names the resources manager resolves. */
  function KnownNames(rm: ResourcesManager, names: seq<string>): nat
  {
    if names == [] then 0 else (if names[0] in rm.ids then 1 else 0) + KnownNames(rm, names[1..])
  }

  /** When candidate k exists exactly when name k resolves, as many candidates resolve as names do. */
  lemma {:induction false} ResolvedCountMatchesNames(rm: ResourcesManager, names: seq<string>,
                                                     cs: seq<Option<Registration>>)
    requires |names| == |cs|
    requires forall k :: 0 <= k < |cs| ==> (cs[k].Some? <==> names[k] in rm.ids)
    ensures CountResolved(cs) == KnownNames(rm, names)
  {
    if cs != [] {
      ResolvedCountMatchesNames(rm, names[1..], cs[1..]);
    }
  }

  /** A candidate that did not resolve lowers the count below the number of candidates. */
  lemma {:induction false} CountResolvedBelow(cs: seq<Option<Registration>>, k: nat)
    requires k < |cs| && cs[k].None?
    ensures CountResolved(cs) < |cs|
  {
    if k > 0 {
      CountResolvedBelow(cs[1..], k - 1);
    } else {
      CountResolvedAtMost(cs[1..]);
    }
  }

  lemma {:induction false} CountResolvedAtMost(cs: seq<Option<Registration>>)
    ensures CountResolved(cs) <= |cs|
  {
    if cs != [] {
      CountResolvedAtMost(cs[1..]);
    }
  }

  /** The single-name overloads register at most one operation, and one exactly when the name resolves. */
  lemma SingleNameRegistersAtMostOne(rm: ResourcesManager, name: string, refineOp: OperatorRef,
                                     coarsenOp: OperatorRef)
    ensures |Resolved([InitComponent(rm, name, refineOp)])| == if name in rm.ids then 1 else 0
    ensures |Resolved([CoarsenComponent(rm, name, coarsenOp)])| == if name in rm.ids then 1 else 0
  {
    ResolvedFacts([InitComponent(rm, name, refineOp)]);
    ResolvedFacts([CoarsenComponent(rm, name, coarsenOp)]);
  }
}
