/** Building runs of the lifecycle step by step: the pieces from which counterexample runs are made. */
module Runs {
  import opened Objects
  import opened ProviderIDs
  import opened Admission
  import opened FailureDomains
  import opened Cloud
  import opened Resumption
  import opened Lifecycle
  import Histories
  import Retry
  import opened Handles
  import opened Orphans

  // ---------------------------------------------------------------- building runs

  /** The steps lead from s0 to s. */
  ghost predicate Reached(wd: World, s0: State, steps: seq<Step>, s: State) {
    Valid(wd, s0, steps) && Run(wd, s0, steps) == s && Base(wd, s)
  }

  lemma {:induction false} Append(wd: World, s: State, steps: seq<Step>, step: Step)
    requires Valid(wd, s, steps) && Enabled(wd, Run(wd, s, steps), step)
    ensures Valid(wd, s, steps + [step]) && Run(wd, s, steps + [step]) == Next(wd, Run(wd, s, steps), step)
    ensures GuardedRun(wd, s, steps) && Guarded(wd, Run(wd, s, steps), step) ==> GuardedRun(wd, s, steps + [step])
    decreases |steps|
  {
    hide Enabled, Next, Guarded;
    if steps == [] {
      OneStep(wd, s, step);
      assert steps + [step] == [step];
    } else {
      Append(wd, Next(wd, s, steps[0]), steps[1..], step);
      assert (steps + [step])[1..] == steps[1..] + [step];
    }
  }

  lemma Go(wd: World, s0: State, steps: seq<Step>, s: State, step: Step)
    requires Reached(wd, s0, steps, s) && Enabled(wd, s, step)
    ensures Reached(wd, s0, steps + [step], Next(wd, s, step))
    ensures GuardedRun(wd, s0, steps) && Guarded(wd, s, step) ==> GuardedRun(wd, s0, steps + [step])
  {
    hide Enabled, Next, Base, Guarded;
    Append(wd, s0, steps, step);
    BaseStep(wd, s, step);
  }

  lemma FreshID(fleet: Fleet) returns (id: string)
    ensures NewID(fleet, id)
  {
    var n := LongestKey(fleet.Keys);
    id := UnusedID(fleet, n);
  }

  lemma ResolvesAgain(wanted: string, zones: seq<Zone>, spec: MachineSpec, region: string)
    requires Resolvable(wanted, zones, spec)
    ensures Resolvable(wanted, zones, Resolve(wanted, zones, spec).0.(regionID := region))
  {
    ResolvesExactly(wanted, zones, spec);
  }

  lemma BeginCreate(wd: World, s: State, w: nat, inputs: Inputs)
    requires Base(wd, s) && s.obj.Some? && Creates(inputs, s.obj.value)
    requires w !in s.workers && (wd.env.serial ==> s.workers == map[])
    ensures Enabled(wd, s, Begin(w, inputs))
    ensures var t := Next(wd, s, Begin(w, inputs)); var (m, p) := (s.obj.value, t.workers[w].at);
            && Creates(inputs, m.(spec := p.m.spec)) && p.m.spec.providerID == m.spec.providerID
            && p.pc == AtFind && p.m == m.(finalizer := true, spec := p.m.spec) && p.m.spec.regionID == wd.region
            && t.obj == s.obj && t.fleet == s.fleet && t.workers == s.workers[w := Worker(inputs, m, p, false)]
  {
    hide ProviderInstanceID, ProviderIDFor, RegionFrom, Resolve, Resolvable, ToSDKTags, MachineTag;
    var m := s.obj.value;
    ResolvedStays(inputs.failureDomain, inputs.zones, m.spec);
    ResolvesExactly(inputs.failureDomain, inputs.zones, m.spec);
    ResolvesAgain(inputs.failureDomain, inputs.zones, m.spec, wd.region);
    ReservedTag(m.spec.tags, wd.cfg.machineName, wd.cfg.clusterName);
    StartOk(wd, s.fleet, inputs, m);
  }

  const EMPTY := Outcome(true, false, Retry.OtherError, "", None)

  /** The lookup may come back empty when nothing is live, and always when listings are stale. */
  lemma LookupEmpty(wd: World, s: State, w: nat)
    requires Base(wd, s) && w in s.workers && s.workers[w].at.pc == AtFind
    requires NoneLive(wd, s.fleet) || !wd.env.current
    ensures Enabled(wd, s, Answer(w, EMPTY))
    ensures var t := Next(wd, s, Answer(w, EMPTY));
            && t.obj == s.obj && t.fleet == s.fleet
            && t.workers == s.workers[w := s.workers[w].(at := s.workers[w].at.(pc := AtLaunch))]
  {
    hide ToSDKTags, KeptTag, MachineTag, MachineOk, KeepsSpec, FleetOk, NoneLive;
    if NoneLive(wd, s.fleet) {
      EmptyAllowed(wd, s, w, EMPTY);
    }
  }

  function Made(wd: World): Instance { Instance(wd.cfg.name, wd.region, wd.cfg.uid, Some(Pending)) }

  const THROTTLED := Retry.ServerError("Throttling", 429)

  /** A launch that takes effect, answered or throttled. */
  function Creating(ok: bool, id: string): Outcome { Outcome(ok, true, THROTTLED, id, None) }

  /** A launch that reaches the cloud creates, unless the token is honoured and used. */
  lemma LaunchCreates(wd: World, s: State, w: nat, id: string, ok: bool)
    requires Base(wd, s) && w in s.workers && s.workers[w].at.pc == AtLaunch
    requires NewID(s.fleet, id) && !(wd.env.tokens && TokenUsed(s.fleet, wd.cfg.uid))
    ensures var call := NextCall(wd.cfg, s.workers[w].at);
            && Allowed(wd.env, s.fleet, call, Creating(ok, id))
            && Perform(s.fleet, call, Creating(ok, id)) ==
                (s.fleet[id := Made(wd)], if ok then Launched(id) else Failed(THROTTLED))
  {
    hide ToSDKTags, KeptTag, MachineTag, KeepsSpec, FleetOk, TokenUsed, ProviderInstanceID, ProviderIDFor;
    ReservedTag(s.workers[w].at.m.spec.tags, wd.cfg.machineName, wd.cfg.clusterName);
  }

  lemma LaunchNew(wd: World, s: State, w: nat, id: string)
    requires Base(wd, s) && w in s.workers && s.workers[w].at.pc == AtLaunch
    requires NewID(s.fleet, id) && !(wd.env.tokens && TokenUsed(s.fleet, wd.cfg.uid))
    ensures Enabled(wd, s, Answer(w, Creating(true, id)))
    ensures var t := Next(wd, s, Answer(w, Creating(true, id))); var worker := s.workers[w];
            && t.obj == s.obj && t.fleet == s.fleet[id := Made(wd)]
            && t.workers ==
                s.workers[w := worker.(at := Progress(Record(worker.at.m, wd.region, id), Returned(Requeue)))]
  {
    hide Allowed, Perform, NextCall, MachineOk, KeepsSpec, FleetOk, TokenUsed, ProviderIDFor;
    LaunchCreates(wd, s, w, id, true);
  }

  lemma NothingYet(wd: World, s0: State)
    requires Init(wd, s0)
    ensures NoneLive(wd, s0.fleet) && !TokenUsed(s0.fleet, wd.cfg.uid)
  {
    forall id ensures !OursLive(wd, s0.fleet, id) {}
    forall id | id in s0.fleet ensures s0.fleet[id].token != wd.cfg.uid {
      assert !Ours(wd, s0.fleet, id);
    }
  }

  /** No instance was ever seen Running. */
  predicate Unseen(log: seq<Event>) { forall e :: e in log ==> !Histories.ShowsRunning(e) }

  lemma UnseenStep(wd: World, s: State, step: Step)
    requires Enabled(wd, s, step) && Unseen(s.log)
    requires step.Answer? ==> s.workers[step.w].at.pc == AtFind || s.workers[step.w].at.pc == AtLaunch
    ensures Unseen(Next(wd, s, step).log)
  {
    hide Perform, Allowed, Advance, Start, ClientRegion, MachineTag, KeptTag, ToSDKTags;
  }

  /** A reconcile of an object that can create, up to the launch. */
  lemma LookPass(wd: World, s0: State, before: seq<Step>, s: State, w: nat, inputs: Inputs)
    returns (steps: seq<Step>, t: State)
    requires Reached(wd, s0, before, s) && s.obj.Some? && Creates(inputs, s.obj.value)
    requires w !in s.workers && (wd.env.serial ==> s.workers == map[])
    requires NoneLive(wd, s.fleet) || !wd.env.current
    ensures Reached(wd, s0, steps, t) && (GuardedRun(wd, s0, before) ==> GuardedRun(wd, s0, steps))
    ensures steps == before + [Begin(w, inputs), Answer(w, EMPTY)]
    ensures t.obj == s.obj && t.fleet == s.fleet && w in t.workers && t.workers == s.workers[w := t.workers[w]]
    ensures var (worker, m) := (t.workers[w], s.obj.value); var spec := worker.at.m.spec;
            && worker == Worker(inputs, m, Progress(m.(finalizer := true, spec := spec), AtLaunch), false)
            && spec.regionID == wd.region && spec.providerID == m.spec.providerID && Creates(inputs, m.(spec := spec))
    ensures Unseen(s.log) ==> Unseen(t.log)
  {
    hide Enabled, Next, Base, Valid, Run, GuardedRun, NoneLive, Resolve, Creates, Unseen;
    BeginCreate(wd, s, w, inputs);
    Go(wd, s0, before, s, Begin(w, inputs));
    var s1 := Next(wd, s, Begin(w, inputs));
    if Unseen(s.log) { UnseenStep(wd, s, Begin(w, inputs)); }
    LookupEmpty(wd, s1, w);
    if Unseen(s1.log) { UnseenStep(wd, s1, Answer(w, EMPTY)); }
    Go(wd, s0, before + [Begin(w, inputs)], s1, Answer(w, EMPTY));
    t := Next(wd, s1, Answer(w, EMPTY));
    steps := before + [Begin(w, inputs), Answer(w, EMPTY)];
    assert steps == before + [Begin(w, inputs)] + [Answer(w, EMPTY)];
  }

  /** The launch that follows it. */
  lemma LaunchPass(wd: World, s0: State, before: seq<Step>, s: State, w: nat, id: string)
    returns (steps: seq<Step>, t: State)
    requires Reached(wd, s0, before, s) && w in s.workers && s.workers[w].at.pc == AtLaunch
    requires NewID(s.fleet, id) && !(wd.env.tokens && TokenUsed(s.fleet, wd.cfg.uid))
    ensures Reached(wd, s0, steps, t) && (GuardedRun(wd, s0, before) ==> GuardedRun(wd, s0, steps))
    ensures steps == before + [Answer(w, Creating(true, id))]
    ensures t.obj == s.obj && t.fleet == s.fleet[id := Made(wd)]
    ensures var worker := s.workers[w];
            t.workers == s.workers[w := worker.(at := Progress(Record(worker.at.m, wd.region, id), Returned(Requeue)))]
    ensures Unseen(s.log) ==> Unseen(t.log)
  {
    hide Enabled, Next, Base, Valid, Run, GuardedRun, NewID, TokenUsed, Unseen, Record;
    LaunchNew(wd, s, w, id);
    if Unseen(s.log) { UnseenStep(wd, s, Answer(w, Creating(true, id))); }
    Go(wd, s0, before, s, Answer(w, Creating(true, id)));
    steps, t := before + [Answer(w, Creating(true, id))], Next(wd, s, Answer(w, Creating(true, id)));
  }

  /** A whole create from a quiet state in which nothing is live, or listings are stale. */
  lemma CreatePass(wd: World, s0: State, before: seq<Step>, s: State, inputs: Inputs, id: string)
    returns (steps: seq<Step>, t: State)
    requires Reached(wd, s0, before, s) && s.workers == map[] && s.obj.Some? && Creates(inputs, s.obj.value)
    requires NoneLive(wd, s.fleet) || !wd.env.current
    requires NewID(s.fleet, id) && !(wd.env.tokens && TokenUsed(s.fleet, wd.cfg.uid))
    ensures Reached(wd, s0, steps, t) && (GuardedRun(wd, s0, before) ==> GuardedRun(wd, s0, steps))
    ensures steps == before + [Begin(0, inputs), Answer(0, EMPTY), Answer(0, Creating(true, id))]
    ensures t.obj == s.obj && t.fleet == s.fleet[id := Made(wd)] && t.workers.Keys == {0}
    ensures var (w, m) := (t.workers[0], s.obj.value);
            && Creates(inputs, m.(spec := w.at.m.spec.(providerID := m.spec.providerID)))
            && w.snapshot == m && !w.specDone && w.at.pc == Returned(Requeue) && w.at.m.finalizer && !w.at.m.deleting
            && w.at.m.spec.providerID == Some(ProviderIDFor(wd.region, id)) && w.at.m.spec.regionID == wd.region
            && w.at.m.status == m.status.(instanceID := Some(id), instanceState := Some(Pending))
  {
    hide Reached, NoneLive, NewID, TokenUsed, ProviderIDFor, Resolve, GuardedRun;
    var s1;
    steps, s1 := LookPass(wd, s0, before, s, 0, inputs);
    steps, t := LaunchPass(wd, s0, steps, s1, 0, id);
    assert t.workers[0].at.m.spec.(providerID := s.obj.value.spec.providerID) == s1.workers[0].at.m.spec;
    assert steps == before + [Begin(0, inputs), Answer(0, EMPTY), Answer(0, Creating(true, id))];
  }

  /** The first create of a fresh object. */
  lemma FirstCreate(wd: World, s0: State, inputs: Inputs) returns (steps: seq<Step>, s: State, id: string)
    requires Init(wd, s0) && Creates(inputs, s0.obj.value)
    ensures Reached(wd, s0, steps, s) && GuardedRun(wd, s0, steps)
    ensures Base(wd, s0) && NoneLive(wd, s0.fleet) && id !in s0.fleet
    ensures steps == [Begin(0, inputs), Answer(0, EMPTY), Answer(0, Creating(true, id))]
    ensures s.obj == s0.obj && s.fleet == s0.fleet[id := Made(wd)] && s.workers.Keys == {0}
    ensures var (w, m) := (s.workers[0], s0.obj.value);
            && Creates(inputs, m.(spec := w.at.m.spec.(providerID := m.spec.providerID)))
            && w.snapshot == m && !w.specDone && w.at.pc == Returned(Requeue) && w.at.m.finalizer && !w.at.m.deleting
            && w.at.m.spec.providerID == Some(ProviderIDFor(wd.region, id)) && w.at.m.spec.regionID == wd.region
            && w.at.m.status == m.status.(instanceID := Some(id), instanceState := Some(Pending))
  {
    hide NoneLive, FleetOk, TokenUsed, Resolve, MachineOk, Settled, ProviderIDFor;
    InitBase(wd, s0);
    NothingYet(wd, s0);
    NoSteps(wd, s0);
    id := FreshID(s0.fleet);
    hide Base, Valid, Run, Creates, Ours;
    steps, s := CreatePass(wd, s0, [], s0, inputs, id);
  }

  lemma MadeIsLive(wd: World, fleet: Fleet, id: string)
    requires id in fleet && fleet[id] == Made(wd)
    ensures OursLive(wd, fleet, id)
  {
  }

  // ---------------------------------------------------------------- which inputs a run draws on

  predicate DrawnFrom(steps: seq<Step>, menu: set<Inputs>) {
    forall k :: 0 <= k < |steps| && steps[k].Begin? ==> steps[k].inputs in menu
  }

  lemma NoneDrawn(menu: set<Inputs>)
    ensures DrawnFrom([], menu)
  {
  }

  lemma DrawnAppend(steps: seq<Step>, step: Step, menu: set<Inputs>)
    requires DrawnFrom(steps, menu) && (step.Begin? ==> step.inputs in menu)
    ensures DrawnFrom(steps + [step], menu)
  {
  }

  lemma DrawnConcat(a: seq<Step>, b: seq<Step>, menu: set<Inputs>)
    requires DrawnFrom(a, menu) && DrawnFrom(b, menu)
    ensures DrawnFrom(a + b, menu)
  {
  }

  // ---------------------------------------------------------------- reconciles that only store

  function Refused(e: Retry.Error): Outcome { Outcome(false, false, e, "", None) }

  /** A lookup may always fail, which ends the reconcile as its error is classified. */
  lemma LookupFails(wd: World, s: State, w: nat, e: Retry.Error)
    requires Base(wd, s) && w in s.workers && s.workers[w].at.pc == AtFind
    ensures Enabled(wd, s, Answer(w, Refused(e)))
    ensures var t := Next(wd, s, Answer(w, Refused(e))); var worker := s.workers[w];
            && t.obj == s.obj && t.fleet == s.fleet
            && t.workers == s.workers[w := worker.(at := CreateFailed(worker.at.m, e))]
  {
    hide ToSDKTags, KeptTag, MachineTag, MachineOk, KeepsSpec, FleetOk, CreateFailed;
  }

  /** By an error that is no server error it ends with its copy as it is. */
  lemma PlainFailure(m: Machine)
    ensures CreateFailed(m, Retry.OtherError) == Progress(m, Returned(Errored))
  {
  }

  /** A reconcile that ran alone: both its writes land and its copy is what is stored. */
  lemma CopyStored(wd: World, s: State)
    requires Base(wd, s) && s.workers.Keys == {0} && s.obj.Some? && !s.obj.value.deleting
    requires s.workers[0].snapshot == s.obj.value && !s.workers[0].specDone
    requires s.obj.value.spec.providerID.None? || s.obj.value.spec.providerID == s.workers[0].at.m.spec.providerID
    ensures var w := s.workers[0]; var m := WriteSpec(w, s.obj.value);
            m.Some? && WriteStatus(w.(specDone := true), m.value) == w.at.m
  {
    hide MachineOk, FleetOk, PcOk, ValidSpec;
    var w := s.workers[0];
    AdmittedExactly(wd, s, 0);
    assert MergedSpec(w, s.obj.value.spec) == w.at.m.spec;
    assert DefaultSpec(w.at.m.spec) == w.at.m.spec;
  }

  lemma PatchBoth(wd: World, s0: State, before: seq<Step>, s: State) returns (steps: seq<Step>, t: State)
    requires Reached(wd, s0, before, s)
    requires s.workers.Keys == {0} && s.obj.Some? && !s.obj.value.deleting && !Calling(s.workers[0].at)
    requires s.workers[0].snapshot == s.obj.value && !s.workers[0].specDone
    requires s.obj.value.spec.providerID.None? || s.obj.value.spec.providerID == s.workers[0].at.m.spec.providerID
    ensures Reached(wd, s0, steps, t) && (GuardedRun(wd, s0, before) ==> GuardedRun(wd, s0, steps))
    ensures t.workers == map[] && t.fleet == s.fleet && t.obj == Some(s.workers[0].at.m) && t.log == s.log
  {
    hide Base, Valid, Run, GuardedRun, WriteSpec, WriteStatus, Start, Advance, Perform, Allowed, NextCall, NoneLive;
    CopyStored(wd, s);
    Go(wd, s0, before, s, PatchSpec(0, true));
    steps, t := before + [PatchSpec(0, true)], Next(wd, s, PatchSpec(0, true));
    Go(wd, s0, steps, t, PatchStatus(0, true));
    steps, t := steps + [PatchStatus(0, true)], Next(wd, t, PatchStatus(0, true));
  }

  /** The spec write of worker w is lost, its status write lands. */
  lemma PatchStatusBy(wd: World, s0: State, before: seq<Step>, s: State, w: nat) returns (steps: seq<Step>, t: State)
    requires Reached(wd, s0, before, s) && w in s.workers && s.obj.Some?
    requires !Calling(s.workers[w].at) && !s.workers[w].specDone
    ensures Reached(wd, s0, steps, t)
    ensures t.workers == s.workers - {w} && t.fleet == s.fleet && t.log == s.log
    ensures t.obj == Some(WriteStatus(s.workers[w], s.obj.value))
  {
    hide Base, Valid, Run, GuardedRun, WriteSpec, WriteStatus, Start, Advance, Perform, Allowed, NextCall, NoneLive;
    Go(wd, s0, before, s, PatchSpec(w, false));
    steps, t := before + [PatchSpec(w, false)], Next(wd, s, PatchSpec(w, false));
    SameWrite(t.workers[w], s.workers[w], s.obj.value);
    Go(wd, s0, steps, t, PatchStatus(w, true));
    steps, t := steps + [PatchStatus(w, true)], Next(wd, t, PatchStatus(w, true));
  }

  lemma SameWrite(v: Worker, w: Worker, stored: Machine)
    requires v.snapshot == w.snapshot && v.at == w.at
    ensures WriteStatus(v, stored) == WriteStatus(w, stored)
  {
  }

  /** Over the very object that was read, the whole status of the copy is stored. */
  lemma PatchStatusOnly(wd: World, s0: State, before: seq<Step>, s: State, w: nat)
    returns (steps: seq<Step>, t: State)
    requires Reached(wd, s0, before, s) && w in s.workers && s.obj.Some?
    requires !Calling(s.workers[w].at) && !s.workers[w].specDone && s.workers[w].snapshot == s.obj.value
    ensures Reached(wd, s0, steps, t)
    ensures t.workers == s.workers - {w} && t.fleet == s.fleet && t.log == s.log
    ensures t.obj == Some(s.obj.value.(status := s.workers[w].at.m.status))
  {
    hide Reached;
    steps, t := PatchStatusBy(wd, s0, before, s, w);
  }

  /** An instance may change its state to any other while it is not deleted. */
  lemma Drifts(wd: World, s0: State, before: seq<Step>, s: State, id: string, to: Option<InstanceState>)
    returns (steps: seq<Step>, t: State)
    requires Reached(wd, s0, before, s) && id in s.fleet && s.fleet[id].state == Some(Pending)
    ensures Reached(wd, s0, steps, t) && t == s.(fleet := s.fleet[id := s.fleet[id].(state := to)])
    ensures steps == before + [Drift(id, to)]
  {
    hide Base, Valid, Run, GuardedRun, Start, Advance, Perform, Allowed, NextCall, NoneLive;
    Go(wd, s0, before, s, Drift(id, to));
    steps, t := before + [Drift(id, to)], Next(wd, s, Drift(id, to));
  }

  lemma NoGuards(wd: World, s: State)
    requires Base(wd, s)
    ensures Reached(wd, s, [], s) && GuardedRun(wd, s, [])
  {
  }

  /** A reconcile before the cluster is ready stores the finalizer and nothing else. */
  lemma StoreFinalizer(wd: World, s0: State, inputs: Inputs) returns (steps: seq<Step>, s: State)
    requires Init(wd, s0) && Creates(inputs, s0.obj.value)
    ensures Reached(wd, s0, steps, s) && GuardedRun(wd, s0, steps)
    ensures s.workers == map[] && s.fleet == s0.fleet && s.obj == Some(s0.obj.value.(finalizer := true))
  {
    hide Base, Valid, Run, GuardedRun, NoneLive, FleetOk, Settled, MachineOk, Resolve;
    var begin := Begin(0, inputs.(clusterReady := false));
    InitBase(wd, s0);
    NoGuards(wd, s0);
    Go(wd, s0, [], s0, begin);
    steps, s := [] + [begin], Next(wd, s0, begin);
    steps, s := PatchBoth(wd, s0, steps, s);
  }

  /** A reconcile whose lookup fails stores the finalizer and the region. */
  lemma RegionPass(wd: World, s0: State, before: seq<Step>, s: State, inputs: Inputs)
    returns (steps: seq<Step>, t: State)
    requires Reached(wd, s0, before, s) && s.workers == map[] && s.obj.Some? && Creates(inputs, s.obj.value)
    requires s.obj.value.spec.providerID.None?
    ensures Reached(wd, s0, steps, t) && (GuardedRun(wd, s0, before) ==> GuardedRun(wd, s0, steps))
    ensures t.workers == map[] && t.fleet == s.fleet
    ensures t.obj.Some? && t.obj.value.finalizer && t.obj.value.spec.regionID == wd.region
    ensures t.obj.value.spec.providerID.None? && Creates(inputs, t.obj.value)
  {
    hide Base, Valid, Run, GuardedRun, Enabled, Next, Resolve, CreateFailed;
    BeginCreate(wd, s, 0, inputs);
    Go(wd, s0, before, s, Begin(0, inputs));
    steps, t := before + [Begin(0, inputs)], Next(wd, s, Begin(0, inputs));
    var fail := Answer(0, Refused(Retry.OtherError));
    LookupFails(wd, t, 0, Retry.OtherError);
    PlainFailure(t.workers[0].at.m);
    Go(wd, s0, steps, t, fail);
    steps, t := steps + [fail], Next(wd, t, fail);
    steps, t := PatchBoth(wd, s0, steps, t);
  }

  lemma StoreRegion(wd: World, s0: State, inputs: Inputs) returns (steps: seq<Step>, s: State)
    requires Init(wd, s0) && Creates(inputs, s0.obj.value)
    ensures Reached(wd, s0, steps, s) && GuardedRun(wd, s0, steps)
    ensures s.workers == map[] && s.fleet == s0.fleet
    ensures s.obj.Some? && s.obj.value.finalizer && s.obj.value.spec.regionID == wd.region != ""
    ensures s.obj.value.spec.providerID.None? && Creates(inputs, s.obj.value)
  {
    InitBase(wd, s0);
    NoGuards(wd, s0);
    hide Reached, GuardedRun, Base, Creates, FleetOk, Settled, TagsClean;
    steps, s := RegionPass(wd, s0, [], s0, inputs);
  }

  // ---------------------------------------------------------------- releasing by an empty sweep

  /** A deleting object that stores a region and no handle. */
  predicate Sweeps(wd: World, m: Machine) {
    && m.deleting && m.finalizer && m.spec.regionID == wd.region != ""
    && m.spec.providerID.None? && m.status.instanceID.None?
  }

  lemma BeginSweep(wd: World, s: State, w: nat, inputs: Inputs)
    requires Base(wd, s) && s.obj.Some? && Sweeps(wd, s.obj.value) && inputs.clientOk
    requires w !in s.workers && (wd.env.serial ==> s.workers == map[])
    ensures Enabled(wd, s, Begin(w, inputs))
    ensures var t := Next(wd, s, Begin(w, inputs)); var m := s.obj.value;
            && t.obj == s.obj && t.fleet == s.fleet
            && t.workers == s.workers[w := Worker(inputs, m, Progress(m, AtSweep), false)]
  {
    hide ProviderInstanceID, ProviderIDFor, RegionOfProviderID, MachineOk, FleetOk, StartNormal;
  }

  lemma SweepEmpty(wd: World, s: State, w: nat)
    requires Base(wd, s) && w in s.workers && s.workers[w].at.pc == AtSweep
    requires NoneLive(wd, s.fleet) || !wd.env.current
    ensures Enabled(wd, s, Answer(w, EMPTY))
    ensures var t := Next(wd, s, Answer(w, EMPTY)); var worker := s.workers[w];
            && t.obj == s.obj && t.fleet == s.fleet
            && t.workers ==
                s.workers[w := worker.(at := Progress(worker.at.m.(finalizer := false), Returned(Finished)))]
  {
    hide MachineOk, KeepsSpec, FleetOk, NoneLive, RegionFrom;
    if NoneLive(wd, s.fleet) {
      NoneFound(wd, s.fleet);
    }
  }

  lemma NoneFound(wd: World, fleet: Fleet)
    requires NoneLive(wd, fleet)
    ensures forall id :: id in fleet ==> !(Carries(fleet[id], wd.region, wd.cfg.name) && Live(fleet[id]))
  {
    forall id | id in fleet ensures !(Carries(fleet[id], wd.region, wd.cfg.name) && Live(fleet[id])) {
      assert !OursLive(wd, fleet, id);
    }
  }

  /** The write that takes the finalizer off removes the object. */
  lemma ReleaseLands(wd: World, s: State, w: nat)
    requires Base(wd, s) && w in s.workers && s.obj.Some? && s.obj.value.deleting
    requires s.workers[w].snapshot == s.obj.value && !s.workers[w].specDone && !Calling(s.workers[w].at)
    requires s.obj.value.finalizer && s.workers[w].at.m == s.obj.value.(finalizer := false)
    ensures Enabled(wd, s, PatchSpec(w, true))
    ensures var t := Next(wd, s, PatchSpec(w, true));
            t.obj.None? && t.fleet == s.fleet && t.workers == s.workers[w := s.workers[w].(specDone := true)]
  {
    hide MachineOk, FleetOk, PcOk, ValidSpec;
    UnchangedAdmitted(s.obj.value.spec);
    assert MergedSpec(s.workers[w], s.obj.value.spec) == s.obj.value.spec;
  }

  /** A delete pass by worker w that sweeps, finds nothing and releases. */
  lemma ReleasePass(wd: World, s0: State, before: seq<Step>, s: State, w: nat, inputs: Inputs)
    returns (steps: seq<Step>, t: State)
    requires Reached(wd, s0, before, s) && GuardedRun(wd, s0, before)
    requires s.obj.Some? && Sweeps(wd, s.obj.value.(deleting := true)) && inputs.clientOk
    requires w !in s.workers && (wd.env.serial ==> s.workers == map[])
    requires NoneLive(wd, s.fleet) || !wd.env.current
    ensures Reached(wd, s0, steps, t) && GuardedRun(wd, s0, steps)
    ensures t.obj.None? && t.fleet == s.fleet
    ensures forall v :: v in s.workers ==> v in t.workers && t.workers[v] == s.workers[v]
  {
    hide Base, Valid, Run, GuardedRun, NoneLive, Start, Advance, Perform, Allowed, NextCall, WriteSpec;
    Go(wd, s0, before, s, DeleteRequest);
    steps, t := before + [DeleteRequest], Next(wd, s, DeleteRequest);
    assert t.obj.value == s.obj.value.(deleting := true) && t.fleet == s.fleet && t.workers == s.workers;
    hide Enabled, Next;
    BeginSweep(wd, t, w, inputs);
    Go(wd, s0, steps, t, Begin(w, inputs));
    steps, t := steps + [Begin(w, inputs)], Next(wd, t, Begin(w, inputs));
    SweepEmpty(wd, t, w);
    Go(wd, s0, steps, t, Answer(w, EMPTY));
    steps, t := steps + [Answer(w, EMPTY)], Next(wd, t, Answer(w, EMPTY));
    ReleaseLands(wd, t, w);
    Go(wd, s0, steps, t, PatchSpec(w, true));
    steps, t := steps + [PatchSpec(w, true)], Next(wd, t, PatchSpec(w, true));
  }

  // ---------------------------------------------------------------- polling a running instance

  /** A stored, running instance named by the status alone, and inputs that get to describing it. */
  predicate Pollable(wd: World, s: State, inputs: Inputs, id: string) {
    && s.obj.Some? && !s.obj.value.deleting
    && s.obj.value.status.instanceID == Some(id) && s.obj.value.spec.providerID.None?
    && id in s.fleet && s.fleet[id].region == wd.region && s.fleet[id].state == Some(Running)
    && inputs.proceed && inputs.clusterReady && inputs.hasBootstrap && inputs.clientOk
    && Resolvable(inputs.failureDomain, inputs.zones, s.obj.value.spec)
  }

  lemma BeginDescribe(wd: World, s: State, w: nat, inputs: Inputs, id: string)
    requires Base(wd, s) && Pollable(wd, s, inputs, id)
    requires w !in s.workers && (wd.env.serial ==> s.workers == map[])
    ensures Enabled(wd, s, Begin(w, inputs))
    ensures var t := Next(wd, s, Begin(w, inputs)); var (m, p) := (s.obj.value, t.workers[w].at);
            && p.pc == AtDescribe && p.m.spec.metadataOptions == m.spec.metadataOptions && p.m.status == m.status
            && t.obj == s.obj && t.fleet == s.fleet && t.workers == s.workers[w := Worker(inputs, m, p, false)]
            && t.log == s.log + [Began(w, inputs, m)]
  {
    hide ProviderInstanceID, ProviderIDFor, RegionFrom, Resolve, StartCreate, MachineOk;
    ResolvedStays(inputs.failureDomain, inputs.zones, s.obj.value.spec);
    ResolvesExactly(inputs.failureDomain, inputs.zones, s.obj.value.spec);
  }

  const RUNNING := Outcome(true, false, Retry.OtherError, "", Some(Running))

  /** The describe answers Running: the reconcile goes on to harden, or ends ready. */
  lemma SeesRunning(wd: World, s: State, w: nat, id: string)
    requires Base(wd, s) && w in s.workers && s.workers[w].at.pc == AtDescribe
    requires s.workers[w].at.m.status.instanceID == Some(id)
    requires id in s.fleet && s.fleet[id].region == wd.region && s.fleet[id].state == Some(Running)
    ensures Enabled(wd, s, Answer(w, RUNNING))
    ensures var t := Next(wd, s, Answer(w, RUNNING)); var (before, p) := (s.workers[w].at, t.workers[w].at);
            && (if WantsHarden(s.workers[w].inputs, before.m) then p.pc == AtHarden
                else p.pc == Returned(Finished) && p.m.status.ready)
            && p.m.status.metadataHardened == before.m.status.metadataHardened
            && p.m.status.instanceID == Some(id)
            && t.obj == s.obj && t.fleet == s.fleet && t.workers == s.workers[w := s.workers[w].(at := p)]
            && |t.log| == |s.log| + 1 && t.log[..|s.log|] == s.log
            && t.log[|s.log|].Answered? && t.log[|s.log|].call == Describe(wd.region, id)
  {
    hide ProviderInstanceID, ProviderIDFor, FleetOk, KeepsSpec;
  }
}
