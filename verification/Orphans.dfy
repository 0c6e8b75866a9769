/** No orphans: when the object is gone, no live instance carries its tag in its region. This
    rests on one write, and the exact set of steps that break it is characterised. */
module Orphans {
  import opened Objects
  import opened ProviderIDs
  import opened Admission
  import opened FailureDomains
  import opened Cloud
  import opened Resumption
  import opened Lifecycle
  import Retry
  import opened Handles

  /** The object is gone while an instance of ours lives on. */
  ghost predicate Orphaned(wd: World, s: State) { s.obj.None? && !NoneLive(wd, s.fleet) }

  /** The stored object can lead the delete path to its instances: the finalizer holds it back,
      and a handle or a region keeps the delete path from concluding nothing was provisioned. */
  predicate Anchored(obj: Option<Machine>) {
    && obj.Some? && obj.value.finalizer
    && (obj.value.spec.regionID != "" || obj.value.spec.providerID.Some? || obj.value.status.instanceID.Some?)
  }

  ghost predicate Exposed(wd: World, s: State) { !NoneLive(wd, s.fleet) && !Anchored(s.obj) }

  /** The pending write of this reconcile anchors the object. */
  predicate Covers(wd: World, w: Worker) {
    !w.specDone && !w.at.m.deleting && w.at.m.finalizer && w.at.m.spec.regionID == wd.region
  }

  predicate CanCreate(wd: World, s: State, w: nat)
    requires w in s.workers
  {
    s.workers[w].at.pc in {AtFind, AtLaunch} && !(wd.env.tokens && TokenUsed(s.fleet, wd.cfg.uid))
  }

  /** The steps that leave the anchoring write alone: it is not lost, by itself or in a crash,
      while an instance depends on it, and an object without a stored finalizer is not deleted
      under a reconcile that has created or may yet create an instance. */
  ghost predicate Guarded(wd: World, s: State, step: Step) {
    match step
    case Crash(_) => !Exposed(wd, s)
    case PatchSpec(_, lands) => lands || !Exposed(wd, s)
    case DeleteRequest =>
      || (s.obj.Some? && s.obj.value.finalizer)
      || s.workers == map[]
      || (NoneLive(wd, s.fleet) && forall w :: w in s.workers ==> !CanCreate(wd, s, w))
    case _ => true
  }

  ghost predicate GuardedRun(wd: World, s: State, steps: seq<Step>)
    requires Valid(wd, s, steps)
    decreases |steps|
  {
    steps == [] || (Guarded(wd, s, steps[0]) && GuardedRun(wd, Next(wd, s, steps[0]), steps[1..]))
  }

  lemma {:induction false} GuardedConcat(wd: World, s: State, a: seq<Step>, b: seq<Step>)
    requires Valid(wd, s, a) && GuardedRun(wd, s, a)
    requires Valid(wd, Run(wd, s, a), b) && GuardedRun(wd, Run(wd, s, a), b)
    ensures Valid(wd, s, a + b) && GuardedRun(wd, s, a + b)
    decreases |a|
  {
    hide Enabled, Next, Guarded;
    if a == [] {
      assert a + b == b;
    } else {
      GuardedConcat(wd, Next(wd, s, a[0]), a[1..], b);
      assert (a + b)[1..] == a[1..] + b;
    }
  }

  ghost predicate Safe(wd: World, s: State) {
    && Base(wd, s) && Synced(s)
    && wd.env.serial && wd.env.current
    && (s.obj.Some? && s.obj.value.spec.providerID.Some? ==> s.obj.value.finalizer)
    && (Exposed(wd, s) ==> s.obj.Some? && exists w :: w in s.workers && Covers(wd, s.workers[w]))
    && (s.obj.None? ==> forall w :: w in s.workers ==> !CanCreate(wd, s, w))
    && forall w :: w in s.workers && ReleasesFinalizer(s.workers[w]) ==> NoneLive(wd, s.fleet)
  }

  predicate ReleasesFinalizer(w: Worker) { w.at.m.deleting && !w.at.m.finalizer }

  // ---------------------------------------------------------------- preservation

  /** Both release branches start clean: with nothing recorded and no region nothing is live. */
  lemma StartReleases(wd: World, s: State, inputs: Inputs)
    requires Safe(wd, s) && s.obj.Some? && s.workers == map[]
    ensures var p := Start(wd.cfg, inputs, s.obj.value);
            p.m.deleting && !p.m.finalizer ==> NoneLive(wd, s.fleet)
  {
    hide ProviderInstanceID, ProviderIDFor, RegionOfProviderID, Resolve, StartCreate, NoneLive;
    var m := s.obj.value;
    StartOk(wd, s.fleet, inputs, m);
    if m.deleting {
      DeleteRegionOk(wd, s.fleet, m);
      if DeleteRegion(m).None? && DeleteHandle(m) == "" {
        assert !Anchored(s.obj);
      }
    }
  }

  lemma SafeBegin(wd: World, s: State, w: nat, inputs: Inputs)
    requires Safe(wd, s) && Enabled(wd, s, Begin(w, inputs))
    ensures Safe(wd, Next(wd, s, Begin(w, inputs)))
  {
    hide Start, MachineOk, FleetOk, NoneLive;
    BaseStep(wd, s, Begin(w, inputs));
    SyncedStep(wd, s, Begin(w, inputs));
    StartReleases(wd, s, inputs);
    assert !Exposed(wd, s);
  }

  /** Only a launch that may create makes anything of ours live. */
  lemma CallEffect(wd: World, s: State, w: nat, o: Outcome)
    requires Base(wd, s) && w in s.workers && Calling(s.workers[w].at)
    requires Allowed(wd.env, s.fleet, NextCall(wd.cfg, s.workers[w].at), o)
    requires NoneLive(wd, s.fleet) && !CanCreate(wd, s, w)
    ensures NoneLive(wd, Perform(s.fleet, NextCall(wd.cfg, s.workers[w].at), o).0)
  {
    hide ToSDKTags, KeptTag, MachineTag, WorkerOk, FleetOk;
    LiveAfter(wd, s.fleet, NextCall(wd.cfg, s.workers[w].at), o);
  }

  /** What one answer does to the copy. */
  lemma CopyEffect(wd: World, fleet: Fleet, w: Worker, o: Outcome)
    requires Sound(wd) && FleetOk(wd, fleet) && WorkerOk(wd, fleet, w) && Calling(w.at) && wd.env.current
    requires Allowed(wd.env, fleet, NextCall(wd.cfg, w.at), o)
    requires Answers(w.at.pc, Perform(fleet, NextCall(wd.cfg, w.at), o).1)
    ensures var p := Advance(wd.cfg, w.inputs, w.at, Perform(fleet, NextCall(wd.cfg, w.at), o).1);
            && (w.at.pc in {AtFind, AtLaunch} ==> Covers(wd, w))
            && p.m.spec.regionID == w.at.m.spec.regionID && p.m.deleting == w.at.m.deleting
            && (p.pc in {AtFind, AtLaunch} ==> w.at.pc in {AtFind, AtLaunch})
            && (w.at.m.finalizer && !p.m.finalizer ==> NoneLive(wd, fleet) && w.at.pc == AtSweep)
            && (p.m.finalizer ==> w.at.m.finalizer)
            && (w.at.m.finalizer && !w.at.m.deleting ==> p.m.finalizer)
  {
    hide ProviderInstanceID, ProviderIDFor, ToSDKTags, KeptTag, MachineTag, MachineOk, KeepsSpec, NoneLive, RegionFrom;
    if w.at.pc == AtSweep && o.ok && o.id == "" {
      assert NextCall(wd.cfg, w.at) == Find(wd.region, wd.cfg.name);
      EmptyListing(wd, fleet, o);
    }
  }

  lemma AnswerEffect(wd: World, s: State, w: nat, o: Outcome)
    requires Safe(wd, s) && Enabled(wd, s, Answer(w, o))
    ensures var t := Next(wd, s, Answer(w, o)); var (before, after) := (s.workers[w], t.workers[w]);
            && (!CanCreate(wd, s, w) && NoneLive(wd, s.fleet) ==> NoneLive(wd, t.fleet))
            && (CanCreate(wd, s, w) ==> Covers(wd, before))
            && (Covers(wd, before) ==> Covers(wd, after))
            && (CanCreate(wd, t, w) ==> CanCreate(wd, s, w))
            && (ReleasesFinalizer(after) ==> ReleasesFinalizer(before) || NoneLive(wd, t.fleet))
            && (ReleasesFinalizer(before) ==> !CanCreate(wd, s, w))
  {
    hide Advance, Perform, Allowed, NextCall, MachineOk, FleetOk, PcOk, KeepsSpec, NoneLive, TokenUsed;
    var t := Next(wd, s, Answer(w, o));
    PerformOk(wd, s.fleet, s.workers[w].at, o);
    CopyEffect(wd, s.fleet, s.workers[w], o);
    if TokenUsed(s.fleet, wd.cfg.uid) { TokenStays(s.fleet, t.fleet, wd.cfg.uid); }
    if NoneLive(wd, s.fleet) && !CanCreate(wd, s, w) {
      CallEffect(wd, s, w, o);
    }
  }

  lemma TokenStays(f: Fleet, g: Fleet, token: string)
    requires Grows(f, g) && TokenUsed(f, token)
    ensures TokenUsed(g, token)
  {
    var id :| id in f && f[id].token == token;
    assert id in g && g[id].token == token;
  }

  lemma SafeAnswer(wd: World, s: State, w: nat, o: Outcome)
    requires Safe(wd, s) && Enabled(wd, s, Answer(w, o))
    ensures Safe(wd, Next(wd, s, Answer(w, o)))
  {
    hide Advance, Perform, Allowed, NextCall, MachineOk, FleetOk, PcOk, KeepsSpec, NoneLive, CanCreate, Covers,
      ReleasesFinalizer;
    var t := Next(wd, s, Answer(w, o));
    BaseStep(wd, s, Answer(w, o));
    SyncedStep(wd, s, Answer(w, o));
    AnswerEffect(wd, s, w, o);
    assert forall v :: v in t.workers ==> v == w;
    if Exposed(wd, t) {
      assert CanCreate(wd, s, w) || Exposed(wd, s);
      assert Covers(wd, t.workers[w]);
    }
  }

  lemma SafeResend(wd: World, s: State, w: nat, o: Outcome)
    requires Safe(wd, s) && Enabled(wd, s, Resend(w, o))
    ensures Safe(wd, Next(wd, s, Resend(w, o)))
  {
    hide Perform, Allowed, NextCall, MachineOk, FleetOk, KeepsSpec, NoneLive, TokenUsed;
    var t := Next(wd, s, Resend(w, o));
    BaseStep(wd, s, Resend(w, o));
    SyncedStep(wd, s, Resend(w, o));
    if TokenUsed(s.fleet, wd.cfg.uid) { TokenStays(s.fleet, t.fleet, wd.cfg.uid); }
    if NoneLive(wd, s.fleet) && !CanCreate(wd, s, w) {
      CallEffect(wd, s, w, o);
    }
    assert Covers(wd, s.workers[w]);
  }

  /** A metadata and spec write that lands anchors, keeps an anchor, or releases for good. */
  lemma SafePatchSpec(wd: World, s: State, w: nat, lands: bool)
    requires Safe(wd, s) && Enabled(wd, s, PatchSpec(w, lands)) && Guarded(wd, s, PatchSpec(w, lands))
    ensures Safe(wd, Next(wd, s, PatchSpec(w, lands)))
  {
    hide MachineOk, FleetOk, PcOk, NoneLive, TokenUsed, Admits, MergedSpec;
    var t := Next(wd, s, PatchSpec(w, lands));
    BaseStep(wd, s, PatchSpec(w, lands));
    SyncedStep(wd, s, PatchSpec(w, lands));
    if lands && s.obj.Some? {
      AdmittedExactly(wd, s, w);
      MergedIsCopy(s.workers[w], s.obj.value);
    }
  }

  lemma SafePatchStatus(wd: World, s: State, w: nat, lands: bool)
    requires Safe(wd, s) && Enabled(wd, s, PatchStatus(w, lands))
    ensures Safe(wd, Next(wd, s, PatchStatus(w, lands)))
  {
    hide MachineOk, FleetOk, PcOk, NoneLive, TokenUsed;
    BaseStep(wd, s, PatchStatus(w, lands));
    SyncedStep(wd, s, PatchStatus(w, lands));
  }

  lemma SafeStep(wd: World, s: State, step: Step)
    requires Safe(wd, s) && Enabled(wd, s, step) && Guarded(wd, s, step)
    ensures Safe(wd, Next(wd, s, step))
  {
    match step {
      case Begin(w, inputs) => SafeBegin(wd, s, w, inputs);
      case Answer(w, o) => SafeAnswer(wd, s, w, o);
      case Resend(w, o) => SafeResend(wd, s, w, o);
      case PatchSpec(w, lands) => SafePatchSpec(wd, s, w, lands);
      case PatchStatus(w, lands) => SafePatchStatus(wd, s, w, lands);
      case _ => SafeOther(wd, s, step);
    }
  }

  lemma SafeOther(wd: World, s: State, step: Step)
    requires Safe(wd, s) && Enabled(wd, s, step) && Guarded(wd, s, step)
    requires step.Crash? || step.DeleteRequest? || step.Edit? || step.Drift? || step.Foreign?
    ensures Safe(wd, Next(wd, s, step))
  {
    hide MachineOk, FleetOk, PcOk, NoneLive, TokenUsed, Admits;
    var t := Next(wd, s, step);
    BaseStep(wd, s, step);
    SyncedStep(wd, s, step);
    if TokenUsed(s.fleet, wd.cfg.uid) { TokenStays(s.fleet, t.fleet, wd.cfg.uid); }
    if step.Edit? { SettledEdit(s.obj.value.spec, step.tags, step.options); }
    if NoneLive(wd, s.fleet) { NoneLiveStays(wd, s, step); }
  }

  lemma NoneLiveStays(wd: World, s: State, step: Step)
    requires Enabled(wd, s, step) && NoneLive(wd, s.fleet)
    requires step.Crash? || step.DeleteRequest? || step.Edit? || step.Drift? || step.Foreign?
    ensures NoneLive(wd, Next(wd, s, step).fleet)
  {
    var t := Next(wd, s, step);
    forall id ensures !OursLive(wd, t.fleet, id) {
      assert !OursLive(wd, s.fleet, id);
    }
  }

  lemma {:induction false} SafeRun(wd: World, s: State, steps: seq<Step>)
    requires Safe(wd, s) && Valid(wd, s, steps) && GuardedRun(wd, s, steps)
    ensures Safe(wd, Run(wd, s, steps))
    decreases |steps|
  {
    if steps != [] {
      SafeStep(wd, s, steps[0]);
      SafeRun(wd, Next(wd, s, steps[0]), steps[1..]);
    }
  }

  lemma InitSafe(wd: World, s: State)
    requires Init(wd, s) && wd.env.serial && wd.env.current
    ensures Safe(wd, s)
  {
    InitBase(wd, s);
  }

  /** No orphan: whatever is interleaved, crashes, is throttled or loses its status write, along
      every guarded run the object is gone only when nothing of ours is live, and a reconcile
      drops the finalizer of its copy only in such a state. */
  lemma NoOrphan(wd: World, s0: State, steps: seq<Step>)
    requires Init(wd, s0) && wd.env.serial && wd.env.current
    requires Valid(wd, s0, steps) && GuardedRun(wd, s0, steps)
    ensures var s := Run(wd, s0, steps);
            && !Orphaned(wd, s)
            && forall w :: w in s.workers && ReleasesFinalizer(s.workers[w]) ==> NoneLive(wd, s.fleet)
  {
    InitSafe(wd, s0);
    SafeRun(wd, s0, steps);
  }

  // ---------------------------------------------------------------- once anchored

  /** The stored object is anchored, or already released with nothing of it live. */
  predicate AnchoredOrGone(obj: Option<Machine>) { obj.Some? ==> Anchored(obj) }

  /** Of a safe state with an anchored object every step is guarded: nothing is left to lose. */
  lemma AnchoredGuarded(wd: World, s: State, step: Step)
    requires Safe(wd, s) && AnchoredOrGone(s.obj) && Enabled(wd, s, step)
    ensures Guarded(wd, s, step)
  {
    hide NoneLive, MachineOk, FleetOk, PcOk, CanCreate, Allowed, NextCall;
  }

  /** A write keeps what anchors the object, or removes the object. */
  lemma WriteAnchored(wd: World, s: State, w: nat)
    requires Base(wd, s) && Synced(s) && w in s.workers && !s.workers[w].specDone && Anchored(s.obj)
    ensures AnchoredOrGone(WriteSpec(s.workers[w], s.obj.value))
    ensures Anchored(Some(WriteStatus(s.workers[w], s.obj.value)))
  {
    hide MachineOk, FleetOk, PcOk, ValidSpec;
    AdmittedExactly(wd, s, w);
    MergedIsCopy(s.workers[w], s.obj.value);
  }

  lemma AnchoredStays(wd: World, s: State, step: Step)
    requires Safe(wd, s) && AnchoredOrGone(s.obj) && Enabled(wd, s, step)
    ensures AnchoredOrGone(Next(wd, s, step).obj)
  {
    hide MachineOk, FleetOk, PcOk, NoneLive, CanCreate, Allowed, NextCall, Perform, Start, Advance, WriteSpec, Admits,
      ReleasesFinalizer, Covers, TokenUsed, KeepsSpec;
    if s.obj.Some? {
      if step.PatchSpec? {
        WriteAnchored(wd, s, step.w);
      } else {
        StoredStays(wd, s, step);
      }
    }
  }

  lemma {:induction false} AnchoredRun(wd: World, s: State, steps: seq<Step>)
    requires Safe(wd, s) && AnchoredOrGone(s.obj) && Valid(wd, s, steps)
    ensures GuardedRun(wd, s, steps)
    decreases |steps|
  {
    hide Safe, Enabled, Next, Guarded, Anchored;
    if steps != [] {
      AnchoredGuarded(wd, s, steps[0]);
      SafeStep(wd, s, steps[0]);
      AnchoredStays(wd, s, steps[0]);
      AnchoredRun(wd, Next(wd, s, steps[0]), steps[1..]);
    }
  }

  /** Once the finalizer and a region or handle are stored, no crash, no lost write and no delete
      request can orphan an instance any more: no run does, guarded or not. */
  lemma AnchoredNeverOrphans(wd: World, s: State, steps: seq<Step>)
    requires Safe(wd, s) && Anchored(s.obj) && Valid(wd, s, steps)
    ensures !Orphaned(wd, Run(wd, s, steps))
  {
    AnchoredRun(wd, s, steps);
    SafeRun(wd, s, steps);
  }

  // ---------------------------------------------------------------- exactness

  /** Some identifier is always unused. */
  lemma UnusedID(fleet: Fleet, n: nat) returns (id: string)
    requires forall k :: k in fleet ==> |k| < n
    ensures NewID(fleet, id)
  {
    id := seq(n + 1, _ => 'i');
  }

  lemma LongestKey(keys: set<string>) returns (n: nat)
    ensures forall k :: k in keys ==> |k| < n
  {
    if keys == {} {
      n := 0;
    } else {
      var k :| k in keys;
      var m := LongestKey(keys - {k});
      n := if |k| < m then m else |k| + 1;
    }
  }

  /** `steps` leads from s to an orphaned instance, losing nothing the guard protects. */
  ghost predicate LeadsToOrphan(wd: World, s: State, steps: seq<Step>) {
    Valid(wd, s, steps) && GuardedRun(wd, s, steps) && Orphaned(wd, Run(wd, s, steps))
  }

  lemma Before(wd: World, s: State, step: Step, rest: seq<Step>)
    requires Enabled(wd, s, step) && Guarded(wd, s, step) && LeadsToOrphan(wd, Next(wd, s, step), rest)
    ensures LeadsToOrphan(wd, s, [step] + rest)
  {
    assert ([step] + rest)[1..] == rest;
  }

  /** From a quiet exposed state an ordinary delete request orphans the instance: at once when
      no finalizer is stored, else by the branch that finds nothing recorded. */
  lemma QuietExposedOrphans(wd: World, s: State, inputs: Inputs) returns (steps: seq<Step>)
    requires Base(wd, s) && wd.env.serial && s.obj.Some? && s.workers == map[] && Exposed(wd, s)
    ensures LeadsToOrphan(wd, s, steps)
  {
    hide NoneLive, FleetOk;
    var s1 := Next(wd, s, DeleteRequest);
    steps := [DeleteRequest];
    if s.obj.value.finalizer {
      var begin, patch := Begin(0, inputs), PatchSpec(0, true);
      var s2 := Next(wd, s1, begin);
      assert s2.workers[0].at.m == s1.obj.value.(finalizer := false);
      assert MergedSpec(s2.workers[0], s2.obj.value.spec) == s.obj.value.spec;
      UnchangedAdmitted(s.obj.value.spec);
      var s3 := Next(wd, s2, patch);
      assert LeadsToOrphan(wd, s3, []);
      Before(wd, s2, patch, []);
      Before(wd, s1, begin, [patch] + []);
      Before(wd, s, DeleteRequest, [begin] + ([patch] + []));
      steps := [DeleteRequest] + ([begin] + ([patch] + []));
    } else {
      assert LeadsToOrphan(wd, s1, []);
      Before(wd, s, DeleteRequest, []);
      steps := [DeleteRequest] + [];
    }
  }

  lemma LaunchOrphans(wd: World, s: State, w: nat) returns (steps: seq<Step>)
    requires Base(wd, s) && s.obj.None? && w in s.workers && CanCreate(wd, s, w) && s.workers[w].at.pc == AtLaunch
    ensures LeadsToOrphan(wd, s, steps)
  {
    hide Base, NoneLive, TokenUsed, LeadsToOrphan, Enabled, Next;
    var n := LongestKey(s.fleet.Keys);
    var id := UnusedID(s.fleet, n);
    var step := Answer(w, Outcome(true, true, Retry.OtherError, id, None));
    LaunchLives(wd, s, w, id);
    Before(wd, s, step, []);
    steps := [step] + [];
  }

  lemma LaunchLives(wd: World, s: State, w: nat, id: string)
    requires Base(wd, s) && s.obj.None? && w in s.workers && CanCreate(wd, s, w) && s.workers[w].at.pc == AtLaunch
    requires NewID(s.fleet, id)
    ensures var step := Answer(w, Outcome(true, true, Retry.OtherError, id, None));
            Enabled(wd, s, step) && Guarded(wd, s, step) && LeadsToOrphan(wd, Next(wd, s, step), [])
  {
    hide ToSDKTags, KeptTag, MachineTag, FleetOk, KeepsSpec, Advance, NoneLive, TokenUsed, ProviderInstanceID,
      ProviderIDFor;
    ReservedTag(s.workers[w].at.m.spec.tags, wd.cfg.machineName, wd.cfg.clusterName);
    var t := Next(wd, s, Answer(w, Outcome(true, true, Retry.OtherError, id, None)));
    SomeLive(wd, t.fleet, id);
  }

  lemma SomeLive(wd: World, fleet: Fleet, id: string)
    requires OursLive(wd, fleet, id)
    ensures !NoneLive(wd, fleet)
  {
  }

  /** A create in flight whose object is gone leaves an orphan once it launches. */
  lemma CreatingOrphans(wd: World, s: State, w: nat) returns (steps: seq<Step>)
    requires Base(wd, s) && s.obj.None? && w in s.workers && CanCreate(wd, s, w) && NoneLive(wd, s.fleet)
    ensures LeadsToOrphan(wd, s, steps)
  {
    hide ToSDKTags, KeptTag, MachineTag, MachineOk, FleetOk, KeepsSpec, Base, LeadsToOrphan;
    if s.workers[w].at.pc == AtLaunch {
      steps := LaunchOrphans(wd, s, w);
    } else {
      ReservedTag(s.workers[w].at.m.spec.tags, wd.cfg.machineName, wd.cfg.clusterName);
      var o := Outcome(true, false, Retry.OtherError, "", None);
      EmptyAllowed(wd, s, w, o);
      var t := Next(wd, s, Answer(w, o));
      BaseStep(wd, s, Answer(w, o));
      var rest := LaunchOrphans(wd, t, w);
      Before(wd, s, Answer(w, o), rest);
      steps := [Answer(w, o)] + rest;
    }
  }

  lemma EmptyAllowed(wd: World, s: State, w: nat, o: Outcome)
    requires Base(wd, s) && w in s.workers && s.workers[w].at.pc == AtFind
    requires NoneLive(wd, s.fleet) && o.ok && o.id == ""
    ensures Enabled(wd, s, Answer(w, o))
  {
    hide ToSDKTags, KeptTag, MachineTag;
    ReservedTag(s.workers[w].at.m.spec.tags, wd.cfg.machineName, wd.cfg.clusterName);
    forall id | id in s.fleet
      ensures !(Carries(s.fleet[id], wd.region, wd.cfg.name) && Live(s.fleet[id]))
    {
      assert !OursLive(wd, s.fleet, id);
    }
  }

  /** The guard is exact: from a safe state a step leads on to an orphan, by steps that lose
      nothing further, if and only if it is unguarded. */
  lemma GuardIsExact(wd: World, s: State, step: Step, inputs: Inputs)
    requires Safe(wd, s) && Enabled(wd, s, step)
    ensures !Guarded(wd, s, step) <==> exists steps :: LeadsToOrphan(wd, Next(wd, s, step), steps)
  {
    var t := Next(wd, s, step);
    if Guarded(wd, s, step) {
      SafeStep(wd, s, step);
      forall steps ensures !LeadsToOrphan(wd, t, steps) {
        if Valid(wd, t, steps) && GuardedRun(wd, t, steps) { SafeRun(wd, t, steps); }
      }
    } else {
      var steps := UnguardedOrphans(wd, s, step, inputs);
      assert LeadsToOrphan(wd, t, steps);
    }
  }

  lemma UnguardedOrphans(wd: World, s: State, step: Step, inputs: Inputs) returns (steps: seq<Step>)
    requires Safe(wd, s) && Enabled(wd, s, step) && !Guarded(wd, s, step)
    ensures LeadsToOrphan(wd, Next(wd, s, step), steps)
  {
    hide NoneLive, MachineOk, FleetOk, PcOk;
    var t := Next(wd, s, step);
    BaseStep(wd, s, step);
    match step {
      case Crash(w) =>
        assert t.workers == map[];
        steps := QuietExposedOrphans(wd, t, inputs);
      case PatchSpec(w, lands) =>
        var drop := PatchStatus(w, false);
        var u := Next(wd, t, drop);
        BaseStep(wd, t, drop);
        assert u.workers == map[];
        steps := QuietExposedOrphans(wd, u, inputs);
        Before(wd, t, drop, steps);
        steps := [drop] + steps;
      case DeleteRequest =>
        if NoneLive(wd, s.fleet) {
          var w :| w in s.workers && CanCreate(wd, s, w);
          steps := CreatingOrphans(wd, t, w);
        } else {
          steps := [];
        }
    }
  }
}
