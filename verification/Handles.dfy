/** What the two create guards buy: the client token alone makes creation idempotent under
    overlap and stale listings, adopt-by-tag alone keeps one live instance when reconciles
    are serial, and the token is what keeps the two handles in agreement. */
module Handles {
  import opened Objects
  import opened ProviderIDs
  import opened Admission
  import opened FailureDomains
  import opened Cloud
  import opened Resumption
  import opened Lifecycle
  import Retry

  // ---------------------------------------------------------------- the token guard

  /** At most one instance was ever created for this object. */
  ghost predicate OneEver(wd: World, fleet: Fleet) {
    forall a, b :: Ours(wd, fleet, a) && Ours(wd, fleet, b) ==> a == b
  }

  /** The two handles, when both are set, name the same instance. */
  predicate Agrees(wd: World, m: Machine) {
    m.spec.providerID.Some? && m.status.instanceID.Some? ==>
      m.spec.providerID.value == ProviderIDFor(wd.region, m.status.instanceID.value)
  }

  const MISMATCH := "ProviderIDInstanceMismatch"

  predicate NoMismatch(s: State) {
    && (s.obj.Some? ==> s.obj.value.status.failureReason != Some(MISMATCH))
    && forall w :: w in s.workers ==>
         Unmismatched(s.workers[w].at)
  }

  lemma OneEverPerform(wd: World, fleet: Fleet, call: Call, o: Outcome)
    requires FleetOk(wd, fleet) && OneEver(wd, fleet) && wd.env.tokens
    requires Allowed(wd.env, fleet, call, o) && (call.Launch? ==> call.token == wd.cfg.uid)
    ensures OneEver(wd, Perform(fleet, call, o).0)
  {
    var grown := Perform(fleet, call, o).0;
    if o.id in fleet || !call.Launch? {
      assert forall id :: Ours(wd, grown, id) ==> Ours(wd, fleet, id);
    } else if o.ok || o.effect {
      forall id | id in fleet ensures !Ours(wd, fleet, id) {
        assert fleet[id].token != wd.cfg.uid;
      }
    }
  }

  lemma OneEverStep(wd: World, s: State, step: Step)
    requires Base(wd, s) && Enabled(wd, s, step) && wd.env.tokens && OneEver(wd, s.fleet)
    ensures OneEver(wd, Next(wd, s, step).fleet)
  {
    hide Perform, Allowed, Advance, Start, WorkerOk, MachineOk, KeptTag, MachineTag, ToSDKTags;
    var t := Next(wd, s, step);
    if step.Answer? || step.Resend? {
      OneEverPerform(wd, s.fleet, NextCall(wd.cfg, s.workers[step.w].at), step.o);
    } else {
      assert forall id :: Ours(wd, t.fleet, id) ==> Ours(wd, s.fleet, id);
    }
  }

  lemma AgreesFrom(wd: World, fleet: Fleet, m: Machine)
    requires OneEver(wd, fleet) && MachineOk(wd, fleet, m)
    ensures Agrees(wd, m)
    ensures m.status.instanceID.Some? ==> !Mismatch(m)
  {
  }

  predicate Unmismatched(p: Progress) {
    p.pc != Returned(Terminal(MISMATCH)) && p.m.status.failureReason != Some(MISMATCH)
  }

  lemma StartUnmismatched(wd: World, fleet: Fleet, inputs: Inputs, m: Machine)
    requires MachineOk(wd, fleet, m) && OneEver(wd, fleet) && m.status.failureReason != Some(MISMATCH)
    ensures Unmismatched(Start(wd.cfg, inputs, m))
  {
    hide ProviderInstanceID, ProviderIDFor, RegionFrom, Resolve, ToSDKTags, MachineTag;
    ResolvedStays(inputs.failureDomain, inputs.zones, m.spec);
    var resolved := m.(finalizer := true, spec := Resolve(inputs.failureDomain, inputs.zones, m.spec).0);
    AgreesFrom(wd, fleet, m);
    assert m.status.instanceID.Some? ==> !Mismatch(resolved);
  }

  lemma AfterDescribeUnmismatched(cfg: Config, inputs: Inputs, m: Machine, id: string, state: InstanceState)
    requires m.status.failureReason != Some(MISMATCH)
    ensures Unmismatched(AfterDescribe(cfg, inputs, m, id, state))
  {
    hide ProviderIDFor, WantsHarden;
  }

  lemma CreateFailedUnmismatched(m: Machine, e: Retry.Error)
    requires m.status.failureReason != Some(MISMATCH)
    ensures Unmismatched(CreateFailed(m, e))
  {
  }

  lemma AdvanceUnmismatched(cfg: Config, inputs: Inputs, p: Progress, resp: Response)
    requires Answers(p.pc, resp) && Unmismatched(p)
    ensures Unmismatched(Advance(cfg, inputs, p, resp))
  {
    hide ProviderIDFor, AfterDescribe, CreateFailed;
    if resp.Present? {
      AfterDescribeUnmismatched(cfg, inputs, p.m, resp.id, resp.state);
    } else if resp.Failed? {
      CreateFailedUnmismatched(p.m, resp.error);
    }
  }

  /** The reason comes only from the mismatch branch, which agreeing handles never take. */
  lemma NoMismatchStep(wd: World, s: State, step: Step)
    requires Base(wd, s) && Enabled(wd, s, step) && OneEver(wd, s.fleet) && NoMismatch(s)
    ensures NoMismatch(Next(wd, s, step))
  {
    hide Start, Advance, Perform, Allowed, NextCall, WriteSpec, MachineOk, PcOk, KeepsSpec, Admits;
    if step.Begin? {
      StartUnmismatched(wd, s.fleet, step.inputs, s.obj.value);
    } else if step.Answer? {
      var w := s.workers[step.w];
      var resp := Perform(s.fleet, NextCall(wd.cfg, w.at), step.o).1;
      PerformOk(wd, s.fleet, w.at, step.o);
      AdvanceUnmismatched(wd.cfg, w.inputs, w.at, resp);
    } else if step.PatchSpec? && s.obj.Some? {
      WriteSpecKeepsStatus(s.workers[step.w], s.obj.value);
    }
  }

  lemma WriteSpecKeepsStatus(w: Worker, m: Machine)
    ensures WriteSpec(w, m).Some? ==> WriteSpec(w, m).value.status == m.status
  {
  }

  lemma {:induction false} TokenRun(wd: World, s: State, steps: seq<Step>)
    requires Base(wd, s) && Valid(wd, s, steps) && wd.env.tokens && OneEver(wd, s.fleet) && NoMismatch(s)
    ensures var t := Run(wd, s, steps); Base(wd, t) && OneEver(wd, t.fleet) && NoMismatch(t)
    decreases |steps|
  {
    if steps != [] {
      var t := Next(wd, s, steps[0]);
      BaseStep(wd, s, steps[0]);
      OneEverStep(wd, s, steps[0]);
      NoMismatchStep(wd, s, steps[0]);
      TokenRun(wd, t, steps[1..]);
    }
  }

  /** With the token contract, in every reachable state, whatever writes were lost, however
      many reconciles overlap and however stale the tag listing: at most one instance was ever
      created, both stored handles name it, and the mismatch failure is never reported. */
  lemma HandleAgreement(wd: World, s0: State, steps: seq<Step>)
    requires Init(wd, s0) && Valid(wd, s0, steps) && wd.env.tokens
    ensures var s := Run(wd, s0, steps);
            && OneEver(wd, s.fleet)
            && NoMismatch(s)
            && (s.obj.Some? ==> Agrees(wd, s.obj.value))
            && (forall w :: w in s.workers ==> Agrees(wd, s.workers[w].at.m))
  {
    InitBase(wd, s0);
    TokenRun(wd, s0, steps);
    var s := Run(wd, s0, steps);
    if s.obj.Some? { AgreesFrom(wd, s.fleet, s.obj.value); }
    forall w | w in s.workers ensures Agrees(wd, s.workers[w].at.m) {
      AgreesFrom(wd, s.fleet, s.workers[w].at.m);
    }
  }

  // ---------------------------------------------------------------- controller against webhook

  lemma {:induction false} SyncedRun(wd: World, s: State, steps: seq<Step>)
    requires Base(wd, s) && Synced(s) && wd.env.serial && Valid(wd, s, steps)
    ensures Base(wd, Run(wd, s, steps)) && Synced(Run(wd, s, steps))
    decreases |steps|
  {
    if steps != [] {
      BaseStep(wd, s, steps[0]);
      SyncedStep(wd, s, steps[0]);
      SyncedRun(wd, Next(wd, s, steps[0]), steps[1..]);
    }
  }

  /** For serial reconciles, whatever their inputs: with the token contract every metadata and
      spec write is admitted and lands with exactly the worker's handles. */
  lemma SerialNeverRejected(wd: World, s0: State, steps: seq<Step>, w: nat)
    requires Init(wd, s0) && Valid(wd, s0, steps) && wd.env.tokens && wd.env.serial
    requires var s := Run(wd, s0, steps);
             s.obj.Some? && w in s.workers && !s.workers[w].specDone
    ensures var s := Run(wd, s0, steps); var merged := MergedSpec(s.workers[w], s.obj.value.spec);
            Admits(s.obj.value.spec, merged) && SameHandles(DefaultSpec(merged), s.workers[w].at.m.spec)
  {
    InitBase(wd, s0);
    TokenRun(wd, s0, steps);
    SyncedRun(wd, s0, steps);
    var s := Run(wd, s0, steps);
    AdmittedExactly(wd, s, w);
    MergedIsCopy(s.workers[w], s.obj.value);
  }

  // ---------------------------------------------------------------- the adopt guard

  predicate OursLive(wd: World, fleet: Fleet, id: string) { Ours(wd, fleet, id) && Live(fleet[id]) }

  ghost predicate OneLive(wd: World, fleet: Fleet) {
    forall a, b :: OursLive(wd, fleet, a) && OursLive(wd, fleet, b) ==> a == b
  }

  /** Between an empty lookup and the launch nothing of ours is live. */
  predicate LaunchClear(wd: World, s: State) {
    forall w :: w in s.workers && s.workers[w].at.pc == AtLaunch ==>
      forall id :: id in s.fleet ==> !OursLive(wd, s.fleet, id)
  }

  ghost predicate NoneLive(wd: World, fleet: Fleet) {
    forall id :: !OursLive(wd, fleet, id)
  }

  /** Only a launch makes an instance of ours live, and a launch that starts from none makes one. */
  lemma LiveAfter(wd: World, fleet: Fleet, call: Call, o: Outcome)
    requires Allowed(wd.env, fleet, call, o)
    ensures var grown := Perform(fleet, call, o).0;
            && (!call.Launch? || o.id in fleet ==>
                  forall id :: OursLive(wd, grown, id) ==> OursLive(wd, fleet, id))
            && (NoneLive(wd, fleet) ==> OneLive(wd, grown))
  {
    var grown := Perform(fleet, call, o).0;
    assert forall id :: id in fleet && !call.Launch? ==>
      grown[id] == fleet[id].(state := grown[id].state) && MoveOk(fleet[id].state, grown[id].state);
    assert forall id :: OursLive(wd, grown, id) ==> OursLive(wd, fleet, id) || (call.Launch? && id == o.id);
  }

  /** A current listing that comes back empty means nothing of ours is live. */
  lemma EmptyListing(wd: World, fleet: Fleet, o: Outcome)
    requires wd.env.current && o.ok && o.id == ""
    requires Allowed(wd.env, fleet, Find(wd.region, wd.cfg.name), o)
    ensures NoneLive(wd, fleet)
  {
  }

  lemma AdoptStep(wd: World, s: State, step: Step)
    requires Base(wd, s) && Synced(s) && OneLive(wd, s.fleet) && LaunchClear(wd, s) && Enabled(wd, s, step)
    requires wd.env.serial && wd.env.current && wd.env.cleanThrottle
    ensures OneLive(wd, Next(wd, s, step).fleet) && LaunchClear(wd, Next(wd, s, step))
  {
    hide Start, Perform, Allowed, MachineOk, KeptTag, MachineTag, ToSDKTags, WriteSpec, WriteStatus, Admits;
    var t := Next(wd, s, step);
    match step {
      case Begin(w, inputs) =>
        StartLooksFirst(wd.cfg, inputs, s.obj.value);
      case Answer(w, o) =>
        AdoptAnswer(wd, s, w, o);
      case Resend(w, o) =>
        assert t.fleet == s.fleet by { NoEffect(s.fleet, NextCall(wd.cfg, s.workers[w].at), o); }
      case _ =>
        assert forall id :: OursLive(wd, t.fleet, id) ==> OursLive(wd, s.fleet, id);
    }
  }

  lemma NoEffect(fleet: Fleet, call: Call, o: Outcome)
    requires !o.ok && !o.effect
    ensures Perform(fleet, call, o).0 == fleet
  {
  }

  lemma AdoptAnswer(wd: World, s: State, w: nat, o: Outcome)
    requires Base(wd, s) && Synced(s) && OneLive(wd, s.fleet) && LaunchClear(wd, s) && Enabled(wd, s, Answer(w, o))
    requires wd.env.serial && wd.env.current && wd.env.cleanThrottle
    ensures var t := Next(wd, s, Answer(w, o)); OneLive(wd, t.fleet) && LaunchClear(wd, t)
  {
    hide MachineOk, KeptTag, MachineTag, ToSDKTags, ProviderIDFor;
    var t := Next(wd, s, Answer(w, o));
    var p := s.workers[w].at;
    LiveAfter(wd, s.fleet, NextCall(wd.cfg, p), o);
    assert p.pc == AtLaunch ==> NoneLive(wd, s.fleet);
    if t.workers[w].at.pc == AtLaunch {
      assert p.pc == AtFind;
      ReservedTag(p.m.spec.tags, wd.cfg.machineName, wd.cfg.clusterName);
      assert NextCall(wd.cfg, p) == Find(wd.region, wd.cfg.name);
      EmptyListing(wd, s.fleet, o);
    }
  }

  /** A create always looks the instance up before it launches. */
  lemma StartLooksFirst(cfg: Config, inputs: Inputs, m: Machine)
    requires cfg.machineName != ""
    ensures Start(cfg, inputs, m).pc != AtLaunch
  {
    hide ProviderInstanceID, ProviderIDFor, KeptTag, MachineTag, ToSDKTags;
    var resolved := m.spec.(regionID := ResolveRegion(m.spec.regionID, cfg.clusterRegion));
    ResolvedStays(inputs.failureDomain, inputs.zones, m.spec);
    ReservedTag(m.spec.tags, cfg.machineName, cfg.clusterName);
  }

  lemma {:induction false} AdoptRun(wd: World, s: State, steps: seq<Step>)
    requires Base(wd, s) && Synced(s) && OneLive(wd, s.fleet) && LaunchClear(wd, s) && Valid(wd, s, steps)
    requires wd.env.serial && wd.env.current && wd.env.cleanThrottle
    ensures OneLive(wd, Run(wd, s, steps).fleet)
    decreases |steps|
  {
    if steps != [] {
      BaseStep(wd, s, steps[0]);
      SyncedStep(wd, s, steps[0]);
      AdoptStep(wd, s, steps[0]);
      AdoptRun(wd, Next(wd, s, steps[0]), steps[1..]);
    }
  }

  /** Adopt-by-tag alone, the client token not honoured: with serial reconciles, a current
      listing and clean throttles no reachable state has two live instances of one machine. */
  lemma AdoptKeepsOneLive(wd: World, s0: State, steps: seq<Step>)
    requires Init(wd, s0) && Valid(wd, s0, steps)
    requires wd.env.serial && wd.env.current && wd.env.cleanThrottle
    ensures OneLive(wd, Run(wd, s0, steps).fleet)
  {
    InitBase(wd, s0);
    AdoptRun(wd, s0, steps);
  }
}
