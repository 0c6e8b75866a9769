/** One machine object, the cloud, and any number of reconciles in flight, as a step system.
    A reconcile reads a snapshot, makes its cloud calls one by one, then writes metadata and
    spec, then status. Either write may be lost, a crash loses what is left, and users,
    other machines and the cloud itself move in between. */
module Lifecycle {
  import opened Objects
  import opened ProviderIDs
  import opened Admission
  import opened Cloud
  import opened Resumption
  import Retry

  /** A reconcile in flight; `specDone` once its metadata and spec write is behind it. */
  datatype Worker = Worker(inputs: Inputs, snapshot: Machine, at: Progress, specDone: bool)

  /** What was exchanged, by which worker, and whether on the delete path. */
  datatype Event =
    | Began(w: nat, inputs: Inputs, snapshot: Machine)
    | Answered(w: nat, deleting: bool, call: Call, resp: Response)

  /** `obj` is None once the API server has removed the object. */
  datatype State = State(obj: Option<Machine>, fleet: Fleet, workers: map<nat, Worker>, log: seq<Event>)

  datatype Step =
    | Begin(w: nat, inputs: Inputs)
    | Answer(w: nat, o: Outcome)
    | Resend(w: nat, o: Outcome)              // a throttled launch, about to be sent again
    | PatchSpec(w: nat, lands: bool)
    | PatchStatus(w: nat, lands: bool)
    | Crash(w: nat)
    | DeleteRequest
    | Edit(tags: seq<Tag>, options: Option<MetadataOptions>)
    | Drift(id: string, to: Option<InstanceState>)
    | Foreign(id: string, inst: Instance)

  /** `region` is the region the machine resolves to, fixed for the whole run. */
  datatype World = World(cfg: Config, env: Env, region: string)

  // ---------------------------------------------------------------- writes

  /** A merge patch sends the fields that changed between snapshot and result. */
  function Merge<T(==)>(before: T, after: T, stored: T): T {
    if before == after then stored else after
  }

  function MergedSpec(w: Worker, stored: MachineSpec): MachineSpec {
    var (before, after) := (w.snapshot.spec, w.at.m.spec);
    stored.(providerID := Merge(before.providerID, after.providerID, stored.providerID),
            regionID := Merge(before.regionID, after.regionID, stored.regionID),
            zoneID := Merge(before.zoneID, after.zoneID, stored.zoneID),
            vSwitchID := Merge(before.vSwitchID, after.vSwitchID, stored.vSwitchID))
  }

  /** The metadata and spec write: admission may reject it as a whole, and removing the
      finalizer of a deleting object removes the object. */
  function WriteSpec(w: Worker, stored: Machine): Option<Machine> {
    var merged := MergedSpec(w, stored.spec);
    if !Admits(stored.spec, merged) then Some(stored)
    else
      var m := stored.(finalizer := Merge(w.snapshot.finalizer, w.at.m.finalizer, stored.finalizer),
                       spec := DefaultSpec(merged));
      if m.deleting && !m.finalizer then None else Some(m)
  }

  function WriteStatus(w: Worker, stored: Machine): Machine {
    var (before, after, now) := (w.snapshot.status, w.at.m.status, stored.status);
    stored.(status := MachineStatus(
      Merge(before.ready, after.ready, now.ready),
      Merge(before.provisioned, after.provisioned, now.provisioned),
      Merge(before.instanceID, after.instanceID, now.instanceID),
      Merge(before.instanceState, after.instanceState, now.instanceState),
      Merge(before.metadataHardened, after.metadataHardened, now.metadataHardened),
      Merge(before.failureReason, after.failureReason, now.failureReason)))
  }

  // ---------------------------------------------------------------- steps

  predicate TagsClean(spec: MachineSpec) { !Reserved(spec.tags) }

  function Edited(spec: MachineSpec, tags: seq<Tag>, options: Option<MetadataOptions>): MachineSpec {
    spec.(tags := tags, metadataOptions := options)
  }

  predicate Enabled(wd: World, s: State, step: Step) {
    match step
    case Begin(w, _) => s.obj.Some? && w !in s.workers && (wd.env.serial ==> s.workers == map[])
    case Answer(w, o) =>
      w in s.workers && Calling(s.workers[w].at) && Allowed(wd.env, s.fleet, NextCall(wd.cfg, s.workers[w].at), o)
    case Resend(w, o) =>
      && w in s.workers && s.workers[w].at.pc == AtLaunch && !o.ok && Retry.Throttling(o.error)
      && (wd.env.cleanThrottle ==> !o.effect)
      && Allowed(wd.env, s.fleet, NextCall(wd.cfg, s.workers[w].at), o)
    case PatchSpec(w, _) => w in s.workers && !Calling(s.workers[w].at) && !s.workers[w].specDone
    case PatchStatus(w, _) => w in s.workers && s.workers[w].specDone
    case Crash(w) => w in s.workers
    case DeleteRequest => s.obj.Some?
    case Edit(tags, options) =>
      && s.obj.Some? && Admits(s.obj.value.spec, Edited(s.obj.value.spec, tags, options))
      && !Reserved(tags)
    case Drift(id, to) => id in s.fleet && MoveOk(s.fleet[id].state, to)
    case Foreign(id, inst) =>
      NewID(s.fleet, id) && !Carries(inst, wd.region, wd.cfg.name) && inst.token != wd.cfg.uid
  }

  function Next(wd: World, s: State, step: Step): State
    requires Enabled(wd, s, step)
  {
    match step
    case Begin(w, inputs) =>
      var m := s.obj.value;
      s.(workers := s.workers[w := Worker(inputs, m, Start(wd.cfg, inputs, m), false)],
         log := s.log + [Began(w, inputs, m)])
    case Answer(w, o) =>
      var worker := s.workers[w];
      var call := NextCall(wd.cfg, worker.at);
      var (fleet, resp) := Perform(s.fleet, call, o);
      s.(fleet := fleet,
         workers := s.workers[w := worker.(at := Advance(wd.cfg, worker.inputs, worker.at, resp))],
         log := s.log + [Answered(w, worker.at.m.deleting, call, resp)])
    case Resend(w, o) =>
      s.(fleet := Perform(s.fleet, NextCall(wd.cfg, s.workers[w].at), o).0)
    case PatchSpec(w, lands) =>
      s.(obj := if lands && s.obj.Some? then WriteSpec(s.workers[w], s.obj.value) else s.obj,
         workers := s.workers[w := s.workers[w].(specDone := true)])
    case PatchStatus(w, lands) =>
      s.(obj := if lands && s.obj.Some? then Some(WriteStatus(s.workers[w], s.obj.value)) else s.obj,
         workers := s.workers - {w})
    case Crash(w) => s.(workers := s.workers - {w})
    case DeleteRequest =>
      s.(obj := if s.obj.value.finalizer then Some(s.obj.value.(deleting := true)) else None)
    case Edit(tags, options) =>
      s.(obj := Some(s.obj.value.(spec := DefaultSpec(Edited(s.obj.value.spec, tags, options)))))
    case Drift(id, to) => s.(fleet := s.fleet[id := s.fleet[id].(state := to)])
    case Foreign(id, inst) => s.(fleet := s.fleet[id := inst])
  }

  /** The steps can be taken in order from s. */
  predicate Valid(wd: World, s: State, steps: seq<Step>)
    decreases |steps|
  {
    steps == [] || (Enabled(wd, s, steps[0]) && Valid(wd, Next(wd, s, steps[0]), steps[1..]))
  }

  function Run(wd: World, s: State, steps: seq<Step>): State
    requires Valid(wd, s, steps)
    decreases |steps|
  {
    if steps == [] then s else Run(wd, Next(wd, s, steps[0]), steps[1..])
  }

  lemma NoSteps(wd: World, s: State)
    ensures Valid(wd, s, []) && Run(wd, s, []) == s
  {
  }

  lemma OneStep(wd: World, s: State, step: Step)
    requires Enabled(wd, s, step)
    ensures Valid(wd, s, [step]) && Run(wd, s, [step]) == Next(wd, s, step)
  {
    assert [step][1..] == [];
  }

  lemma TwoSteps(wd: World, s: State, a: Step, b: Step)
    requires Enabled(wd, s, a) && Enabled(wd, Next(wd, s, a), b)
    ensures Valid(wd, s, [a, b]) && Run(wd, s, [a, b]) == Next(wd, Next(wd, s, a), b)
  {
    assert [a, b][1..] == [b];
    OneStep(wd, Next(wd, s, a), b);
  }

  lemma {:induction false} Concat(wd: World, s: State, a: seq<Step>, b: seq<Step>)
    requires Valid(wd, s, a) && Valid(wd, Run(wd, s, a), b)
    ensures Valid(wd, s, a + b) && Run(wd, s, a + b) == Run(wd, Run(wd, s, a), b)
    decreases |a|
  {
    hide Enabled, Next;
    if a == [] {
      assert a + b == b;
    } else {
      Concat(wd, Next(wd, s, a[0]), a[1..], b);
      assert (a + b)[1..] == a[1..] + b;
    }
  }

  // ---------------------------------------------------------------- where runs start

  const FRESH_STATUS := MachineStatus(false, false, None, None, false, None)

  /** The hypotheses on names and regions the code rests on. */
  predicate Sound(wd: World) {
    && wd.cfg.name == wd.cfg.machineName != ""
    && wd.region != "" && SeparatorFree(wd.region)
  }

  predicate Ours(wd: World, fleet: Fleet, id: string) {
    id in fleet && Carries(fleet[id], wd.region, wd.cfg.name)
  }

  /** Identifiers are well formed, and the tag in the region marks exactly the instances
      created under this object's token. */
  predicate FleetOk(wd: World, fleet: Fleet) {
    forall id :: id in fleet ==>
      id != "" && SeparatorFree(id) && (Carries(fleet[id], wd.region, wd.cfg.name) <==> fleet[id].token == wd.cfg.uid)
  }

  /** A freshly admitted object, no instance of ours, nothing in flight. */
  predicate Init(wd: World, s: State) {
    && Sound(wd)
    && s.obj.Some?
    && s.obj.value.status == FRESH_STATUS && !s.obj.value.finalizer && !s.obj.value.deleting
    && Settled(s.obj.value.spec) && TagsClean(s.obj.value.spec) && s.obj.value.spec.providerID.None?
    && ResolveRegion(s.obj.value.spec.regionID, wd.cfg.clusterRegion) == wd.region
    && FleetOk(wd, s.fleet) && (forall id :: id in s.fleet ==> !Ours(wd, s.fleet, id))
    && s.workers == map[] && s.log == []
  }

  // ---------------------------------------------------------------- the base invariant

  predicate RegionOk(wd: World, spec: MachineSpec) {
    spec.regionID == wd.region || (spec.regionID == "" && wd.cfg.clusterRegion == wd.region)
  }

  /** Both handles name instances of ours, whatever writes were lost. */
  predicate MachineOk(wd: World, fleet: Fleet, m: Machine) {
    && RegionOk(wd, m.spec)
    && TagsClean(m.spec)
    && (m.spec.providerID.Some? ==>
          var id := ProviderInstanceID(m.spec.providerID.value);
          Ours(wd, fleet, id) && m.spec.providerID.value == ProviderIDFor(wd.region, id))
    && (m.status.instanceID.Some? ==> Ours(wd, fleet, m.status.instanceID.value))
  }

  predicate PcOk(wd: World, fleet: Fleet, p: Progress) {
    match p.pc
    case AtDescribe => !p.m.deleting && p.m.finalizer && p.m.status.instanceID.Some?
    case AtHarden => !p.m.deleting && p.m.finalizer && p.m.status.instanceID.Some?
    case AtFind => !p.m.deleting && p.m.finalizer && p.m.spec.regionID == wd.region
    case AtLaunch => !p.m.deleting && p.m.finalizer && p.m.spec.regionID == wd.region
    case AtDescribeForDelete(id) => p.m.deleting && Ours(wd, fleet, id) && DeleteRegion(p.m) == Some(wd.region)
    case AtSweep => p.m.deleting && DeleteRegion(p.m) == Some(wd.region)
    case AtStop(id) => p.m.deleting && Ours(wd, fleet, id) && DeleteRegion(p.m) == Some(wd.region)
    case AtRelease(id) => p.m.deleting && Ours(wd, fleet, id) && DeleteRegion(p.m) == Some(wd.region)
    case Returned(_) => true
  }

  function DeleteRegion(m: Machine): Option<string> { RegionFrom(m.spec.regionID, m.spec.providerID) }

  /** What a reconcile may have changed in its copy: the four once-set fields, keeping any
      value they had except that a create rewrites the providerID. */
  predicate KeepsSpec(before: MachineSpec, after: MachineSpec) {
    && after == before.(providerID := after.providerID, regionID := after.regionID,
                        zoneID := after.zoneID, vSwitchID := after.vSwitchID)
    && OnceSet(before.regionID, after.regionID)
    && OnceSet(before.zoneID, after.zoneID)
    && OnceSet(before.vSwitchID, after.vSwitchID)
    && (before.providerID.Some? ==> after.providerID.Some?)
  }

  predicate WorkerOk(wd: World, fleet: Fleet, w: Worker) {
    && MachineOk(wd, fleet, w.snapshot) && MachineOk(wd, fleet, w.at.m)
    && PcOk(wd, fleet, w.at)
    && KeepsSpec(w.snapshot.spec, w.at.m.spec)
    && w.at.m.deleting == w.snapshot.deleting
    && (w.snapshot.status.instanceID.Some? ==> w.at.m.status.instanceID.Some?)
    && (!w.snapshot.deleting && w.snapshot.finalizer ==> w.at.m.finalizer)
    && (!w.snapshot.deleting && w.at.m.spec.providerID != w.snapshot.spec.providerID ==> w.at.m.finalizer)
    && (w.specDone ==> !Calling(w.at))
  }

  predicate Base(wd: World, s: State) {
    && Sound(wd)
    && FleetOk(wd, s.fleet)
    && (s.obj.Some? ==> MachineOk(wd, s.fleet, s.obj.value) && Settled(s.obj.value.spec))
    && (s.obj.Some? && s.obj.value.deleting ==> s.obj.value.finalizer)
    && forall w :: w in s.workers ==> WorkerOk(wd, s.fleet, s.workers[w])
  }

  /** Every record persists, under the same tag, region and token, and nothing revives. */
  predicate Grows(f: Fleet, g: Fleet) {
    forall id :: id in f ==> id in g && g[id] == f[id].(state := g[id].state) && MoveOk(f[id].state, g[id].state)
  }

  lemma MachineOkGrows(wd: World, f: Fleet, g: Fleet, m: Machine)
    requires Grows(f, g) && MachineOk(wd, f, m)
    ensures MachineOk(wd, g, m)
  {
  }

  lemma WorkerOkGrows(wd: World, f: Fleet, g: Fleet, w: Worker)
    requires Grows(f, g) && WorkerOk(wd, f, w)
    ensures WorkerOk(wd, g, w)
  {
  }

  /** A recorded handle reads back to its region and instance. */
  lemma HandleReads(wd: World, id: string)
    requires Sound(wd) && SeparatorFree(id)
    ensures ProviderInstanceID(ProviderIDFor(wd.region, id)) == id
    ensures RegionOfProviderID(ProviderIDFor(wd.region, id)) == Some(wd.region)
  {
    FormsAgree(wd.region, id);
  }

  lemma DeleteRegionOk(wd: World, fleet: Fleet, m: Machine)
    requires Sound(wd) && FleetOk(wd, fleet) && MachineOk(wd, fleet, m)
    ensures DeleteRegion(m) == if m.spec.regionID == "" && m.spec.providerID.None? then None else Some(wd.region)
  {
    if m.spec.regionID == "" && m.spec.providerID.Some? {
      HandleReads(wd, ProviderInstanceID(m.spec.providerID.value));
    }
  }

  lemma StartDeleteOk(wd: World, fleet: Fleet, inputs: Inputs, m: Machine)
    requires Sound(wd) && FleetOk(wd, fleet) && MachineOk(wd, fleet, m) && m.deleting
    ensures WorkerOk(wd, fleet, Worker(inputs, m, StartDelete(inputs, m), false))
  {
    hide ProviderInstanceID, ProviderIDFor, RegionOfProviderID;
    DeleteRegionOk(wd, fleet, m);
  }

  lemma StartCreateOk(wd: World, fleet: Fleet, inputs: Inputs, m: Machine)
    requires Sound(wd) && MachineOk(wd, fleet, m) && !m.deleting && m.finalizer
    ensures var p := StartCreate(wd.cfg, inputs, m);
            && MachineOk(wd, fleet, p.m) && PcOk(wd, fleet, p)
            && p.m.spec == m.spec.(regionID := p.m.spec.regionID) && OnceSet(m.spec.regionID, p.m.spec.regionID)
            && p.m.finalizer && !p.m.deleting && p.m.status.instanceID == m.status.instanceID
  {
    hide ProviderInstanceID, ProviderIDFor, RegionOfProviderID;
  }

  lemma StartOk(wd: World, fleet: Fleet, inputs: Inputs, m: Machine)
    requires Sound(wd) && FleetOk(wd, fleet) && MachineOk(wd, fleet, m)
    ensures WorkerOk(wd, fleet, Worker(inputs, m, Start(wd.cfg, inputs, m), false))
  {
    hide ProviderInstanceID, ProviderIDFor, RegionOfProviderID, FailureDomains.Resolve, StartDelete, StartCreate;
    if m.deleting {
      StartDeleteOk(wd, fleet, inputs, m);
    } else {
      FailureDomains.ResolvedStays(inputs.failureDomain, inputs.zones, m.spec);
      var resolved :=
          m.(finalizer := true, spec := FailureDomains.Resolve(inputs.failureDomain, inputs.zones, m.spec).0);
      assert MachineOk(wd, fleet, resolved);
      StartCreateOk(wd, fleet, inputs, resolved);
    }
  }

  /** The answer fits the call, the fleet only grows, and an answer that names an instance
      names one of ours. */
  lemma PerformOk(wd: World, fleet: Fleet, p: Progress, o: Outcome)
    requires Sound(wd) && FleetOk(wd, fleet) && MachineOk(wd, fleet, p.m) && PcOk(wd, fleet, p) && Calling(p)
    requires Allowed(wd.env, fleet, NextCall(wd.cfg, p), o)
    ensures var (grown, resp) := Perform(fleet, NextCall(wd.cfg, p), o);
            && Answers(p.pc, resp) && Grows(fleet, grown) && FleetOk(wd, grown)
            && (resp.Found? && resp.id != "" ==> Ours(wd, grown, resp.id))
            && (resp.Launched? ==> Ours(wd, grown, resp.id))
            && (resp.Present? && p.pc == AtDescribe ==> p.m.status.instanceID == Some(resp.id))
  {
    hide ProviderInstanceID, ProviderIDFor, RegionOfProviderID, ToSDKTags, KeptTag, MachineTag;
    ReservedTag(p.m.spec.tags, wd.cfg.machineName, wd.cfg.clusterName);
  }

  lemma AfterDescribeOk(wd: World, fleet: Fleet, w: Worker, id: string, state: InstanceState)
    requires Sound(wd) && FleetOk(wd, fleet) && WorkerOk(wd, fleet, w) && w.at.pc == AtDescribe
    requires w.at.m.status.instanceID == Some(id)
    ensures WorkerOk(wd, fleet, w.(at := AfterDescribe(wd.cfg, w.inputs, w.at.m, id, state)))
  {
    hide ProviderInstanceID, ProviderIDFor, RegionOfProviderID;
    HandleReads(wd, id);
  }

  lemma AdvanceOk(wd: World, fleet: Fleet, w: Worker, resp: Response)
    requires Sound(wd) && FleetOk(wd, fleet) && WorkerOk(wd, fleet, w) && Answers(w.at.pc, resp)
    requires resp.Found? && resp.id != "" ==> Ours(wd, fleet, resp.id)
    requires resp.Launched? ==> Ours(wd, fleet, resp.id)
    requires resp.Present? && w.at.pc == AtDescribe ==> w.at.m.status.instanceID == Some(resp.id)
    ensures WorkerOk(wd, fleet, w.(at := Advance(wd.cfg, w.inputs, w.at, resp)))
  {
    hide ProviderInstanceID, ProviderIDFor, RegionOfProviderID, AfterDescribe, ClassifyCreateError;
    if resp.Present? && w.at.pc == AtDescribe {
      AfterDescribeOk(wd, fleet, w, resp.id, resp.state);
    } else if (resp.Found? && resp.id != "") || resp.Launched? {
      HandleReads(wd, resp.id);
    }
  }

  lemma WritesOk(wd: World, fleet: Fleet, w: Worker, stored: Machine)
    requires WorkerOk(wd, fleet, w) && MachineOk(wd, fleet, stored) && Settled(stored.spec)
    requires stored.deleting ==> stored.finalizer
    ensures var m := WriteSpec(w, stored);
            m.Some? ==>
              && MachineOk(wd, fleet, m.value) && Settled(m.value.spec)
              && (m.value.deleting ==> m.value.finalizer)
    ensures var m := WriteStatus(w, stored);
            MachineOk(wd, fleet, m) && m == stored.(status := m.status)
  {
  }

  lemma BaseAnswer(wd: World, s: State, w: nat, o: Outcome)
    requires Base(wd, s) && Enabled(wd, s, Answer(w, o))
    ensures Base(wd, Next(wd, s, Answer(w, o))) && Grows(s.fleet, Next(wd, s, Answer(w, o)).fleet)
  {
    hide Advance, Perform, Allowed, MachineOk, PcOk, KeepsSpec, Settled, NextCall, Sound;
    var t := Next(wd, s, Answer(w, o));
    var resp := Perform(s.fleet, NextCall(wd.cfg, s.workers[w].at), o).1;
    PerformOk(wd, s.fleet, s.workers[w].at, o);
    BaseGrows(wd, s, t.fleet);
    AdvanceOk(wd, t.fleet, s.workers[w], resp);
    assert t.workers[w] == s.workers[w].(at := Advance(wd.cfg, s.workers[w].inputs, s.workers[w].at, resp));
  }

  lemma BaseWrites(wd: World, s: State, step: Step)
    requires Base(wd, s) && Enabled(wd, s, step)
    requires step.PatchSpec? || step.PatchStatus? || step.Crash? || step.DeleteRequest? || step.Edit?
    ensures Base(wd, Next(wd, s, step))
  {
    hide ProviderInstanceID, ProviderIDFor, WriteSpec, WriteStatus, KeepsSpec, PcOk, ValidSpec, Calling;
    var t := Next(wd, s, step);
    if step.PatchSpec? || step.PatchStatus? {
      if s.obj.Some? { WritesOk(wd, s.fleet, s.workers[step.w], s.obj.value); }
    }
  }

  lemma BaseStep(wd: World, s: State, step: Step)
    requires Base(wd, s) && Enabled(wd, s, step)
    ensures Base(wd, Next(wd, s, step)) && Grows(s.fleet, Next(wd, s, step).fleet)
  {
    hide MachineOk, PcOk, KeepsSpec, Settled, NextCall, Start, Advance;
    var t := Next(wd, s, step);
    match step {
      case Begin(w, inputs) =>
        StartOk(wd, s.fleet, inputs, s.obj.value);
      case Answer(w, o) =>
        BaseAnswer(wd, s, w, o);
      case Resend(w, o) =>
        PerformOk(wd, s.fleet, s.workers[w].at, o);
        BaseGrows(wd, s, t.fleet);
      case Drift(id, to) =>
        BaseGrows(wd, s, t.fleet);
      case Foreign(id, inst) =>
        BaseGrows(wd, s, t.fleet);
      case _ =>
        BaseWrites(wd, s, step);
    }
  }

  lemma BaseGrows(wd: World, s: State, fleet: Fleet)
    requires Base(wd, s) && Grows(s.fleet, fleet) && FleetOk(wd, fleet)
    ensures Base(wd, s.(fleet := fleet))
  {
    if s.obj.Some? { MachineOkGrows(wd, s.fleet, fleet, s.obj.value); }
    forall w | w in s.workers ensures WorkerOk(wd, fleet, s.workers[w]) {
      WorkerOkGrows(wd, s.fleet, fleet, s.workers[w]);
    }
  }

  lemma InitBase(wd: World, s: State)
    requires Init(wd, s)
    ensures Base(wd, s)
  {
  }

  /** Base holds in every state of every run, whatever the environment promises. */
  lemma {:induction false} BaseRun(wd: World, s: State, steps: seq<Step>)
    requires Base(wd, s) && Valid(wd, s, steps)
    ensures Base(wd, Run(wd, s, steps))
    decreases |steps|
  {
    if steps != [] {
      BaseStep(wd, s, steps[0]);
      BaseRun(wd, Next(wd, s, steps[0]), steps[1..]);
    }
  }

  // ---------------------------------------------------------------- what stays stored

  /** The once-set and immutable spec fields, a recorded instance and the deletion mark stay. */
  predicate StoredKept(before: Machine, after: Machine) {
    && Immutable(before.spec, after.spec)
    && (before.status.instanceID.Some? ==> after.status.instanceID.Some?)
    && (before.deleting ==> after.deleting)
  }

  lemma SpecWriteKeeps(w: Worker, stored: Machine)
    ensures var m := WriteSpec(w, stored);
            m.Some? ==> m.value.status == stored.status && m.value.deleting == stored.deleting &&
                        (m.value.spec == stored.spec || Immutable(stored.spec, m.value.spec))
  {
    hide ValidSpec;
  }

  lemma StatusWriteRecords(w: Worker, stored: Machine)
    requires w.snapshot.status.instanceID.Some? ==> w.at.m.status.instanceID.Some?
    ensures StoredKept(stored, WriteStatus(w, stored))
  {
  }

  lemma StoredStays(wd: World, s: State, step: Step)
    requires Base(wd, s) && Enabled(wd, s, step) && s.obj.Some?
    ensures var t := Next(wd, s, step); t.obj.Some? ==> StoredKept(s.obj.value, t.obj.value)
  {
    hide Start, Advance, Perform, Allowed, NextCall, PcOk, MachineOk, FleetOk, KeepsSpec, ValidSpec, WriteSpec,
      WriteStatus;
    match step {
      case PatchSpec(w, _) => SpecWriteKeeps(s.workers[w], s.obj.value);
      case PatchStatus(w, _) => StatusWriteRecords(s.workers[w], s.obj.value);
      case _ =>
    }
  }

  /** Over any run the object, while it exists, keeps what was stored of it. */
  lemma {:induction false} StoredStaysRun(wd: World, s: State, steps: seq<Step>)
    requires Base(wd, s) && Valid(wd, s, steps) && Run(wd, s, steps).obj.Some?
    ensures s.obj.Some? && StoredKept(s.obj.value, Run(wd, s, steps).obj.value)
    decreases |steps|
  {
    hide Base, Enabled, Next;
    if steps != [] {
      var t := Next(wd, s, steps[0]);
      BaseStep(wd, s, steps[0]);
      StoredStaysRun(wd, t, steps[1..]);
      if s.obj.None? { GoneStays(wd, s, steps[0]); } else { StoredStays(wd, s, steps[0]); }
    }
  }

  /** Every reconcile in flight read an object the stored one has kept since. */
  predicate SnapshotsKept(s: State) {
    forall w :: w in s.workers && s.obj.Some? ==> StoredKept(s.workers[w].snapshot, s.obj.value)
  }

  lemma SnapshotsKeptStep(wd: World, s: State, step: Step)
    requires Base(wd, s) && SnapshotsKept(s) && Enabled(wd, s, step)
    ensures SnapshotsKept(Next(wd, s, step))
  {
    hide Start, Advance, Perform, Allowed, NextCall, MachineOk, WorkerOk, FleetOk, WriteSpec, WriteStatus, Admits;
    if s.obj.Some? { StoredStays(wd, s, step); } else { GoneStays(wd, s, step); }
  }

  lemma {:induction false} SnapshotsKeptRun(wd: World, s: State, steps: seq<Step>)
    requires Base(wd, s) && SnapshotsKept(s) && Valid(wd, s, steps)
    ensures SnapshotsKept(Run(wd, s, steps))
    decreases |steps|
  {
    hide Base, Enabled, Next, SnapshotsKept;
    if steps != [] {
      BaseStep(wd, s, steps[0]);
      SnapshotsKeptStep(wd, s, steps[0]);
      SnapshotsKeptRun(wd, Next(wd, s, steps[0]), steps[1..]);
    }
  }

  lemma GoneStays(wd: World, s: State, step: Step)
    requires Enabled(wd, s, step) && s.obj.None?
    ensures Next(wd, s, step).obj.None?
  {
  }

  // ---------------------------------------------------------------- serial reconciles

  predicate SameHandles(a: MachineSpec, b: MachineSpec) {
    a.providerID == b.providerID && a.regionID == b.regionID && a.zoneID == b.zoneID && a.vSwitchID == b.vSwitchID
  }

  /** With non-overlapping reconciles the stored object still is the snapshot, up to user edits
      and a delete request, until the reconcile writes. */
  predicate SyncedWith(w: Worker, m: Machine) {
    && (!w.specDone ==> m.finalizer == w.snapshot.finalizer && SameHandles(m.spec, w.snapshot.spec))
    && m.status == w.snapshot.status
    && (w.snapshot.deleting ==> m.deleting)
  }

  predicate Synced(s: State) {
    && (forall v, w :: v in s.workers && w in s.workers ==> v == w)
    && (s.obj.Some? ==> forall w :: w in s.workers ==> SyncedWith(s.workers[w], s.obj.value))
  }

  lemma SettledEdit(spec: MachineSpec, tags: seq<Tag>, options: Option<MetadataOptions>)
    requires Settled(spec)
    ensures DefaultSpec(Edited(spec, tags, options)) == Edited(spec, tags, options)
  {
  }

  lemma SyncedStep(wd: World, s: State, step: Step)
    requires Base(wd, s) && Synced(s) && wd.env.serial && Enabled(wd, s, step)
    ensures Synced(Next(wd, s, step))
  {
    hide MachineOk, PcOk, WorkerOk, FleetOk, Start, Advance, Perform, NextCall, Allowed, Admits;
    if step.Edit? {
      SettledEdit(s.obj.value.spec, step.tags, step.options);
    }
  }

  /** A landing write leaves the stored handles equal to the worker's copy. */
  lemma MergedIsCopy(w: Worker, m: Machine)
    requires SyncedWith(w, m) && !w.specDone
    ensures SameHandles(MergedSpec(w, m.spec), w.at.m.spec)
    ensures Merge(w.snapshot.finalizer, w.at.m.finalizer, m.finalizer) == w.at.m.finalizer
  {
  }

  /** Admission accepts a reconcile's write exactly when it does not rename a set providerID. */
  lemma AdmittedExactly(wd: World, s: State, w: nat)
    requires Base(wd, s) && Synced(s) && w in s.workers && !s.workers[w].specDone && s.obj.Some?
    ensures var worker := s.workers[w];
            Admits(s.obj.value.spec, MergedSpec(worker, s.obj.value.spec)) <==>
              (s.obj.value.spec.providerID.None? || s.obj.value.spec.providerID == worker.at.m.spec.providerID)
  {
    hide MachineOk, PcOk;
    MergedIsCopy(s.workers[w], s.obj.value);
    var merged := MergedSpec(s.workers[w], s.obj.value.spec);
    assert DefaultSpec(merged) == merged;
  }
}
