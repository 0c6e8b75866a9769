/** What the stored status says about the past: readiness, failure and hardening are tied to
    the raw exchanges with the cloud, over every run of every environment. */
module Histories {
  import opened Objects
  import opened ProviderIDs
  import opened FailureDomains
  import opened Cloud
  import opened Resumption
  import opened Lifecycle
  import Admission
  import Handles

  // ---------------------------------------------------------------- evidence

  /** An answer, outside the delete path, that showed the described instance Running. */
  predicate ShowsRunning(e: Event) {
    e.Answered? && !e.deleting && e.call.Describe? && e.resp.Present? && e.resp.state == Running
  }

  predicate HardenCall(e: Event) { e.Answered? && e.call.Modify? }

  predicate ShowsHardened(e: Event) { HardenCall(e) && e.resp.Done? }

  /** The observation each terminal reason stands for. */
  predicate Explains(reason: string, e: Event) {
    if e.Answered? then
      || (reason == "InstanceDisappeared" && e.call.Describe? && e.resp.Absent?)
      || (reason == "InstanceTerminalState" && e.call.Describe? && e.resp.Present? &&
          e.resp.state in {Stopped, Deleted})
      || (reason == "InstanceCapacityExhausted" && (e.call.Launch? || e.call.Find?) && e.resp.Failed? &&
          ErrorCode(e.resp.error) in
            {"Invalid.Zone.NotEnoughResource", "InsufficientCapacity", "OperationDenied.NoStock"})
      || (reason == "SpotConfigurationRejected" && (e.call.Launch? || e.call.Find?) && e.resp.Failed? &&
          ErrorCode(e.resp.error) in {"Invalid.SpotStrategy.NotSupported", "Invalid.SpotPriceLimit.Exceeded"})
    else
      || (reason == "NoBootImage" && e.snapshot.spec.imageID == "" && e.inputs.bootImageID == "")
      || (reason == "UserDataTooLarge" && e.inputs.offload == TooLarge)
      || (reason == "ProviderIDInstanceMismatch" && e.snapshot.status.instanceID.Some? && Mismatch(e.snapshot))
  }

  /** An instance was seen Running; `itself` asks that it be the one the machine records. */
  predicate Seen(itself: bool, log: seq<Event>, m: Machine) {
    && m.status.instanceID.Some?
    && exists e :: e in log && ShowsRunning(e) && (itself ==> m.status.instanceID == Some(e.call.id))
  }

  predicate Witnessed(itself: bool, log: seq<Event>, m: Machine) {
    && (m.status.ready || m.status.provisioned ==> Seen(itself, log, m))
    && (m.status.metadataHardened ==> exists e :: e in log && ShowsHardened(e))
    && (m.status.failureReason.Some? ==> exists e :: e in log && Explains(m.status.failureReason.value, e))
  }

  /** Event j is the latest beginning of worker w before position k. */
  predicate LastBegan(log: seq<Event>, w: nat, j: int, k: nat)
    requires k <= |log|
  {
    && 0 <= j < k && log[j].Began? && log[j].w == w
    && forall i :: j < i < k && log[i].Began? ==> log[i].w != w
  }

  /** The reconcile that issued a hardening call saw the node joined, the field set to exactly
      the value it sent, and no earlier success recorded. */
  predicate Warrants(began: Event, call: Event) {
    && began.Began? && HardenCall(call)
    && began.inputs.nodeRef && !began.snapshot.deleting
    && began.snapshot.spec.metadataOptions.Some?
    && began.snapshot.spec.metadataOptions.value.httpTokensAfterBoot == call.call.tokens != ""
    && !began.snapshot.status.metadataHardened
  }

  /** Every hardening call is warranted by the beginning of its own reconcile. */
  ghost predicate HardensWarranted(log: seq<Event>) {
    forall k :: 0 <= k < |log| && HardenCall(log[k]) ==>
      exists j :: LastBegan(log, log[k].w, j, k) && Warrants(log[j], log[k])
  }

  /** A call made outside the delete path before any hardening. */
  predicate FirstCall(e: Event) {
    e.Answered? && !e.deleting && (e.call.Find? || e.call.Launch? || e.call.Describe?)
  }

  /** The reconcile that looked up or launched was free to create: owner and cluster found and ready,
      bootstrap data there, the failure domain resolvable, a client, the secret, an image, and user
      data that fits. The one that described had a recorded instance behind open gates. */
  predicate Licenses(began: Event, call: Event) {
    && began.Began? && call.Answered?
    && (call.call.Find? || call.call.Launch? ==> Creates(began.inputs, began.snapshot))
    && (call.call.Describe? ==> GatesOpen(began.inputs, began.snapshot) && began.snapshot.status.instanceID.Some?)
  }

  /** Every such call is licensed by the beginning of its own reconcile. */
  ghost predicate CallsLicensed(log: seq<Event>) {
    forall k :: 0 <= k < |log| && FirstCall(log[k]) ==>
      exists j :: LastBegan(log, log[k].w, j, k) && Licenses(log[j], log[k])
  }

  // ---------------------------------------------------------------- the invariant

  /** Status facts a reconcile never takes back in its copy. */
  predicate KeepsStatus(before: MachineStatus, after: MachineStatus) {
    && (before.provisioned ==> after.provisioned)
    && (before.metadataHardened ==> after.metadataHardened)
    && (before.failureReason.Some? ==> after.failureReason.Some?)
  }

  ghost predicate BeganAs(log: seq<Event>, id: nat, inputs: Inputs, snapshot: Machine) {
    exists j :: LastBegan(log, id, j, |log|) && log[j] == Began(id, inputs, snapshot)
  }

  ghost predicate WorkerTold(itself: bool, log: seq<Event>, id: nat, w: Worker) {
    && BeganAs(log, id, w.inputs, w.snapshot)
    && Witnessed(itself, log, w.snapshot) && Witnessed(itself, log, w.at.m)
    && KeepsStatus(w.snapshot.status, w.at.m.status)
    && (Calling(w.at) ==> w.at.m.status.metadataHardened == w.snapshot.status.metadataHardened)
    && (w.at.pc == AtFind || w.at.pc == AtLaunch ==>
          w.at.m.status.instanceID.None? && Creates(w.inputs, w.snapshot))
    && (w.at.pc == AtDescribe ==> GatesOpen(w.inputs, w.snapshot) && w.snapshot.status.instanceID.Some?)
    && (w.at.pc == AtHarden ==> WantsHarden(w.inputs, w.at.m) && Seen(itself, log, w.at.m))
  }

  /** Whatever was seen Running is an instance of ours. */
  predicate SawOurs(wd: World, fleet: Fleet, log: seq<Event>) {
    forall e :: e in log && ShowsRunning(e) ==> Ours(wd, fleet, e.call.id)
  }

  /** With serial reconciles a ready machine's own instance was seen, else some instance of ours. */
  ghost predicate Told(wd: World, s: State) {
    && (wd.env.serial ==> Synced(s))
    && SnapshotsKept(s)
    && SawOurs(wd, s.fleet, s.log)
    && (s.obj.Some? ==> Witnessed(wd.env.serial, s.log, s.obj.value))
    && HardensWarranted(s.log) && CallsLicensed(s.log)
    && forall w :: w in s.workers ==> WorkerTold(wd.env.serial, s.log, w, s.workers[w])
  }

  lemma WitnessedGrows(itself: bool, log: seq<Event>, e: Event, m: Machine)
    requires Witnessed(itself, log, m)
    ensures Witnessed(itself, log + [e], m)
    ensures Seen(itself, log, m) ==> Seen(itself, log + [e], m)
  {
    var more := log + [e];
    assert forall f :: f in log ==> f in more;
  }

  lemma BeganGrows(log: seq<Event>, e: Event, id: nat, inputs: Inputs, snapshot: Machine)
    requires BeganAs(log, id, inputs, snapshot) && !(e.Began? && e.w == id)
    ensures BeganAs(log + [e], id, inputs, snapshot)
  {
    var more := log + [e];
    var j :| LastBegan(log, id, j, |log|) && log[j] == Began(id, inputs, snapshot);
    assert LastBegan(more, id, j, |more|) && more[j] == log[j];
  }

  lemma WarrantedGrows(log: seq<Event>, e: Event)
    requires HardensWarranted(log)
    requires HardenCall(e) ==> exists j :: LastBegan(log, e.w, j, |log|) && Warrants(log[j], e)
    ensures HardensWarranted(log + [e])
  {
    var more := log + [e];
    forall k | 0 <= k < |more| && HardenCall(more[k])
      ensures exists j :: LastBegan(more, more[k].w, j, k) && Warrants(more[j], more[k])
    {
      var j :| LastBegan(log, more[k].w, j, k) && Warrants(log[j], more[k]);
      assert LastBegan(more, more[k].w, j, k) && more[j] == log[j];
    }
  }

  lemma LicensedGrows(log: seq<Event>, e: Event)
    requires CallsLicensed(log)
    requires FirstCall(e) ==> exists j :: LastBegan(log, e.w, j, |log|) && Licenses(log[j], e)
    ensures CallsLicensed(log + [e])
  {
    var more := log + [e];
    forall k | 0 <= k < |more| && FirstCall(more[k])
      ensures exists j :: LastBegan(more, more[k].w, j, k) && Licenses(more[j], more[k])
    {
      var j :| LastBegan(log, more[k].w, j, k) && Licenses(log[j], more[k]);
      assert LastBegan(more, more[k].w, j, k) && more[j] == log[j];
    }
  }

  lemma SawGrows(wd: World, f: Fleet, g: Fleet, log: seq<Event>, e: Event)
    requires Grows(f, g) && SawOurs(wd, f, log) && (ShowsRunning(e) ==> Ours(wd, g, e.call.id))
    ensures SawOurs(wd, g, log + [e]) && SawOurs(wd, g, log)
  {
  }

  lemma StartTold(cfg: Config, itself: bool, log: seq<Event>, id: nat, inputs: Inputs, m: Machine)
    requires Witnessed(itself, log, m) && log != [] && log[|log| - 1] == Began(id, inputs, m)
    ensures WorkerTold(itself, log, id, Worker(inputs, m, Start(cfg, inputs, m), false))
  {
    hide ProviderInstanceID, ProviderIDFor, RegionFrom, Resolve, Resolvable, ToSDKTags, MachineTag, Mismatch,
      ShowsRunning, ShowsHardened;
    var p := Start(cfg, inputs, m);
    assert LastBegan(log, id, |log| - 1, |log|);
    ResolvesExactly(inputs.failureDomain, inputs.zones, m.spec);
    ResolvedStays(inputs.failureDomain, inputs.zones, m.spec);
    if p.pc.Returned? && p.pc.verdict.Terminal? {
      MismatchStays(inputs, m);
      assert Explains(p.pc.verdict.reason, log[|log| - 1]);
    }
  }

  lemma MismatchStays(inputs: Inputs, m: Machine)
    ensures var spec := Resolve(inputs.failureDomain, inputs.zones, m.spec).0;
            m.status.instanceID.Some? ==> Mismatch(m.(finalizer := true, spec := spec)) == Mismatch(m)
  {
    ResolvedStays(inputs.failureDomain, inputs.zones, m.spec);
  }

  /** A step that leaves the status alone, but for the observed state. */
  lemma SameTold(itself: bool, log: seq<Event>, id: nat, w: Worker, p: Progress)
    requires WorkerTold(itself, log, id, w) && Calling(w.at)
    requires p.m.status == w.at.m.status.(instanceState := p.m.status.instanceState)
    requires p.pc != AtHarden && p.pc != AtDescribe
               && (p.pc == AtFind || p.pc == AtLaunch ==> w.at.pc == AtFind || w.at.pc == AtLaunch)
    ensures WorkerTold(itself, log, id, w.(at := p))
  {
    hide BeganAs, WantsHarden, ShowsRunning, ShowsHardened, Explains;
  }

  lemma FailTold(itself: bool, log: seq<Event>, id: nat, w: Worker, m: Machine, reason: string, e: Event)
    requires WorkerTold(itself, log, id, w) && Calling(w.at) && e in log && Explains(reason, e)
    requires m.status == w.at.m.status.(instanceState := m.status.instanceState)
    ensures WorkerTold(itself, log, id, w.(at := Fail(m, reason)))
  {
    hide BeganAs, WantsHarden, ShowsRunning, ShowsHardened, Explains;
  }

  lemma RunningTold(itself: bool, log: seq<Event>, id: nat, w: Worker, p: Progress, e: Event)
    requires WorkerTold(itself, log, id, w) && Calling(w.at) && e in log && ShowsRunning(e)
    requires w.at.m.status.instanceID == Some(e.call.id)
    requires p.m.status == w.at.m.status.(instanceState := p.m.status.instanceState, ready := p.m.status.ready,
                                          provisioned := p.m.status.provisioned)
    requires p.m.status.provisioned || !w.at.m.status.provisioned
    requires p.pc == Returned(Finished) || (p.pc == AtHarden && WantsHarden(w.inputs, p.m))
    ensures WorkerTold(itself, log, id, w.(at := p))
  {
    hide BeganAs, WantsHarden, ShowsRunning, ShowsHardened, Explains;
    assert Seen(itself, log, p.m);
  }

  lemma DescribeTold(cfg: Config, itself: bool, log: seq<Event>, id: nat, w: Worker, resp: Response)
    requires WorkerTold(itself, log, id, w) && w.at.pc == AtDescribe && resp.Present? && !w.at.m.deleting
    requires Answered(id, false, NextCall(cfg, w.at), resp) in log && w.at.m.status.instanceID == Some(resp.id)
    ensures WorkerTold(itself, log, id, w.(at := AfterDescribe(cfg, w.inputs, w.at.m, resp.id, resp.state)))
  {
    hide ProviderIDFor, ClientRegion, WantsHarden, WorkerTold, Fail;
    var p := AfterDescribe(cfg, w.inputs, w.at.m, resp.id, resp.state);
    var e := Answered(id, false, NextCall(cfg, w.at), resp);
    if resp.state == Running {
      RunningTold(itself, log, id, w, p, e);
    } else if resp.state == Stopped || resp.state == Deleted {
      var healed := if w.at.m.spec.providerID.None?
        then w.at.m.(spec := w.at.m.spec.(providerID := Some(ProviderIDFor(
                       ResolveRegion(w.at.m.spec.regionID, cfg.clusterRegion), resp.id))))
        else w.at.m;
      FailTold(itself, log, id, w, SyncStatus(healed, resp.id, resp.state), "InstanceTerminalState", e);
    } else {
      SameTold(itself, log, id, w, p);
    }
  }

  lemma CreateFailedTold(itself: bool, log: seq<Event>, id: nat, w: Worker, e: Event)
    requires WorkerTold(itself, log, id, w) && Calling(w.at) && e in log
    requires e.Answered? && (e.call.Launch? || e.call.Find?) && e.resp.Failed?
    ensures WorkerTold(itself, log, id, w.(at := CreateFailed(w.at.m, e.resp.error)))
  {
    hide BeganAs, WantsHarden, ShowsRunning, ShowsHardened;
    var p := CreateFailed(w.at.m, e.resp.error);
    if p.pc.verdict.Terminal? {
      assert Explains(p.pc.verdict.reason, e);
    }
  }

  lemma HardenedTold(cfg: Config, itself: bool, log: seq<Event>, id: nat, w: Worker, resp: Response)
    requires WorkerTold(itself, log, id, w) && w.at.pc == AtHarden && Answers(w.at.pc, resp)
    requires Answered(id, w.at.m.deleting, NextCall(cfg, w.at), resp) in log
    ensures WorkerTold(itself, log, id, w.(at := Advance(cfg, w.inputs, w.at, resp)))
  {
    hide BeganAs, WantsHarden, ShowsRunning, Explains, ResolveMetadataOptions, ClientRegion;
    assert resp.Done? ==> ShowsHardened(Answered(id, w.at.m.deleting, NextCall(cfg, w.at), resp));
  }

  lemma RecordTold(itself: bool, log: seq<Event>, id: nat, w: Worker, region: string, instance: string)
    requires WorkerTold(itself, log, id, w) && (w.at.pc == AtFind || w.at.pc == AtLaunch)
    ensures WorkerTold(itself, log, id, w.(at := Progress(Record(w.at.m, region, instance), Returned(Requeue))))
  {
    hide BeganAs, WantsHarden, ShowsRunning, ShowsHardened, Explains, ProviderIDFor;
  }

  lemma AdvanceTold(cfg: Config, itself: bool, log: seq<Event>, id: nat, w: Worker, resp: Response)
    requires WorkerTold(itself, log, id, w) && Calling(w.at) && Answers(w.at.pc, resp)
    requires Answered(id, w.at.m.deleting, NextCall(cfg, w.at), resp) in log
    requires w.at.pc == AtDescribe ==> !w.at.m.deleting
    requires resp.Present? && w.at.pc == AtDescribe ==> w.at.m.status.instanceID == Some(resp.id)
    ensures WorkerTold(itself, log, id, w.(at := Advance(cfg, w.inputs, w.at, resp)))
  {
    hide WorkerTold, ProviderIDFor, ClientRegion, ToSDKTags, MachineTag, KeptTag, ResolveMetadataOptions, AfterDescribe,
      CreateFailed, Record, Fail;
    var p := Advance(cfg, w.inputs, w.at, resp);
    var e := Answered(id, w.at.m.deleting, NextCall(cfg, w.at), resp);
    if w.at.pc == AtHarden {
      HardenedTold(cfg, itself, log, id, w, resp);
    } else if w.at.pc == AtDescribe && resp.Present? {
      DescribeTold(cfg, itself, log, id, w, resp);
    } else if w.at.pc == AtDescribe && resp.Absent? {
      FailTold(itself, log, id, w, w.at.m, "InstanceDisappeared", e);
    } else if (w.at.pc == AtFind || w.at.pc == AtLaunch) && resp.Failed? {
      CreateFailedTold(itself, log, id, w, e);
    } else if resp.Launched? || (w.at.pc == AtFind && resp.id != "") {
      RecordTold(itself, log, id, w, w.at.m.spec.regionID, resp.id);
    } else {
      SameTold(itself, log, id, w, p);
    }
  }

  /** A hardening call is warranted by the beginning of the very reconcile that makes it. */
  lemma HardenTold(wd: World, s: State, w: nat, resp: Response)
    requires Base(wd, s) && Told(wd, s) && w in s.workers && s.workers[w].at.pc == AtHarden
    ensures var e := Answered(w, s.workers[w].at.m.deleting, NextCall(wd.cfg, s.workers[w].at), resp);
            HardensWarranted(s.log + [e])
  {
    hide Witnessed, SawOurs, Seen, MachineOk, FleetOk;
    var worker := s.workers[w];
    var e := Answered(w, worker.at.m.deleting, NextCall(wd.cfg, worker.at), resp);
    var j :| LastBegan(s.log, w, j, |s.log|) && s.log[j] == Began(w, worker.inputs, worker.snapshot);
    assert Warrants(s.log[j], e);
    WarrantedGrows(s.log, e);
  }

  /** A lookup, launch or describe is licensed by the beginning of the very reconcile that makes it. */
  lemma LookTold(wd: World, s: State, w: nat, resp: Response)
    requires Base(wd, s) && Told(wd, s) && w in s.workers && Calling(s.workers[w].at)
    ensures var e := Answered(w, s.workers[w].at.m.deleting, NextCall(wd.cfg, s.workers[w].at), resp);
            CallsLicensed(s.log + [e])
  {
    hide Witnessed, SawOurs, Seen, MachineOk, FleetOk, KeepsSpec, KeepsStatus, GatesOpen, ClientRegion, MachineTag,
      KeptTag, ToSDKTags, ResolveMetadataOptions, WantsHarden, Synced, SnapshotsKept, HardensWarranted;
    var worker := s.workers[w];
    var e := Answered(w, worker.at.m.deleting, NextCall(wd.cfg, worker.at), resp);
    var j :| LastBegan(s.log, w, j, |s.log|) && s.log[j] == Began(w, worker.inputs, worker.snapshot);
    assert FirstCall(e) ==> Licenses(s.log[j], e);
    LicensedGrows(s.log, e);
  }

  /** A status write keeps the witnesses: with serial reconciles it writes the whole copy, else the
      record it leaves is some record, and some instance was seen. */
  lemma WritesTold(itself: bool, log: seq<Event>, id: nat, w: Worker, m: Machine)
    requires WorkerTold(itself, log, id, w) && Witnessed(itself, log, m) && StoredKept(w.snapshot, m)
    requires w.snapshot.status.instanceID.Some? ==> w.at.m.status.instanceID.Some?
    requires itself ==> m.status == w.snapshot.status
    ensures WriteSpec(w, m).Some? ==> Witnessed(itself, log, WriteSpec(w, m).value)
    ensures Witnessed(itself, log, WriteStatus(w, m))
  {
    hide ShowsRunning, ShowsHardened, Explains, Admission.Admits, Admission.Immutable, MergedSpec, WantsHarden, BeganAs;
    if itself {
      assert WriteStatus(w, m).status == w.at.m.status;
    }
  }

  lemma BeginTold(wd: World, s: State, w: nat, inputs: Inputs)
    requires Base(wd, s) && Told(wd, s) && Enabled(wd, s, Begin(w, inputs))
    ensures Told(wd, Next(wd, s, Begin(w, inputs)))
  {
    hide Witnessed, Start, MachineOk, FleetOk, WorkerOk, BeganAs, KeepsStatus, WantsHarden, Seen, StoredKept, Synced,
      Ours;
    var m := s.obj.value;
    var e := Began(w, inputs, m);
    var t := Next(wd, s, Begin(w, inputs));
    if wd.env.serial { SyncedStep(wd, s, Begin(w, inputs)); }
    SnapshotsKeptStep(wd, s, Begin(w, inputs));
    SawGrows(wd, s.fleet, t.fleet, s.log, e);
    WarrantedGrows(s.log, e);
    LicensedGrows(s.log, e);
    WitnessedGrows(wd.env.serial, s.log, e, m);
    StartTold(wd.cfg, wd.env.serial, t.log, w, inputs, m);
    forall v | v in s.workers ensures WorkerTold(wd.env.serial, t.log, v, s.workers[v]) {
      WorkerGrows(wd.env.serial, s.log, e, v, s.workers[v]);
    }
  }

  lemma WorkerGrows(itself: bool, log: seq<Event>, e: Event, v: nat, worker: Worker)
    requires WorkerTold(itself, log, v, worker) && !(e.Began? && e.w == v)
    ensures WorkerTold(itself, log + [e], v, worker)
  {
    hide Witnessed, BeganAs, KeepsStatus, WantsHarden, Seen;
    BeganGrows(log, e, v, worker.inputs, worker.snapshot);
    WitnessedGrows(itself, log, e, worker.snapshot);
    WitnessedGrows(itself, log, e, worker.at.m);
  }

  lemma AnswerTold(wd: World, s: State, w: nat, o: Outcome)
    requires Base(wd, s) && Told(wd, s) && Enabled(wd, s, Answer(w, o))
    ensures Told(wd, Next(wd, s, Answer(w, o)))
  {
    hide Witnessed, Advance, Perform, Allowed, NextCall, MachineOk, FleetOk, KeepsSpec, BeganAs, KeepsStatus,
      WantsHarden, Seen, StoredKept, Synced, ShowsRunning, Ours, HardensWarranted, SawOurs;
    var t := Next(wd, s, Answer(w, o));
    var worker := s.workers[w];
    var resp := Perform(s.fleet, NextCall(wd.cfg, worker.at), o).1;
    var e := Answered(w, worker.at.m.deleting, NextCall(wd.cfg, worker.at), resp);
    PerformOk(wd, s.fleet, worker.at, o);
    if wd.env.serial { SyncedStep(wd, s, Answer(w, o)); }
    SnapshotsKeptStep(wd, s, Answer(w, o));
    AnswerSaw(wd, s.fleet, t.fleet, w, worker, resp);
    SawGrows(wd, s.fleet, t.fleet, s.log, e);
    if HardenCall(e) {
      assert worker.at.pc == AtHarden by { HardenPc(wd.cfg, worker.at); }
      HardenTold(wd, s, w, resp);
    } else {
      WarrantedGrows(s.log, e);
    }
    LookTold(wd, s, w, resp);
    if s.obj.Some? { WitnessedGrows(wd.env.serial, s.log, e, s.obj.value); }
    forall v | v in s.workers ensures WorkerTold(wd.env.serial, t.log, v, s.workers[v]) {
      WorkerGrows(wd.env.serial, s.log, e, v, s.workers[v]);
    }
    AdvanceTold(wd.cfg, wd.env.serial, t.log, w, worker, resp);
  }

  /** What the non-deleting path describes is the recorded instance, which is ours. */
  lemma AnswerSaw(wd: World, fleet: Fleet, grown: Fleet, w: nat, worker: Worker, resp: Response)
    requires WorkerOk(wd, fleet, worker) && Grows(fleet, grown) && Calling(worker.at)
    ensures var e := Answered(w, worker.at.m.deleting, NextCall(wd.cfg, worker.at), resp);
            ShowsRunning(e) ==> Ours(wd, grown, e.call.id)
  {
    hide ProviderInstanceID, ProviderIDFor, ToSDKTags, MachineTag, KeptTag, KeepsSpec, ResolveMetadataOptions;
  }

  lemma ToldStep(wd: World, s: State, step: Step)
    requires Base(wd, s) && Told(wd, s) && Enabled(wd, s, step)
    ensures Told(wd, Next(wd, s, step))
  {
    match step {
      case Begin(w, inputs) => BeginTold(wd, s, w, inputs);
      case Answer(w, o) => AnswerTold(wd, s, w, o);
      case _ => WriteTold(wd, s, step);
    }
  }

  lemma WriteTold(wd: World, s: State, step: Step)
    requires Base(wd, s) && Told(wd, s) && Enabled(wd, s, step) && !step.Begin? && !step.Answer?
    ensures Told(wd, Next(wd, s, step))
  {
    hide Witnessed, HardensWarranted, WriteSpec, WriteStatus, Start, Advance, Perform, Allowed, NextCall, MachineOk,
      FleetOk, PcOk, KeepsSpec, Admission.Admits, KeepsStatus, WantsHarden, BeganAs, Seen, ShowsRunning, StoredKept;
    var t := Next(wd, s, step);
    BaseStep(wd, s, step);
    if wd.env.serial { SyncedStep(wd, s, step); }
    SnapshotsKeptStep(wd, s, step);
    assert SawOurs(wd, t.fleet, t.log);
    if s.obj.Some? {
      match step {
        case PatchSpec(w, lands) => WritesTold(wd.env.serial, s.log, w, s.workers[w], s.obj.value);
        case PatchStatus(w, lands) => WritesTold(wd.env.serial, s.log, w, s.workers[w], s.obj.value);
        case DeleteRequest => SameStatus(wd.env.serial, s.log, s.obj.value, s.obj.value.(deleting := true));
        case Edit(tags, options) => SameStatus(wd.env.serial, s.log, s.obj.value, t.obj.value);
        case _ =>
      }
    }
  }

  lemma HardenPc(cfg: Config, p: Progress)
    requires Calling(p) && NextCall(cfg, p).Modify?
    ensures p.pc == AtHarden
  {
  }

  lemma SameStatus(itself: bool, log: seq<Event>, m: Machine, n: Machine)
    requires Witnessed(itself, log, m) && n.status == m.status
    ensures Witnessed(itself, log, n)
  {
  }

  lemma InitTold(wd: World, s0: State)
    requires Init(wd, s0)
    ensures Told(wd, s0)
  {
  }

  lemma {:induction false} ToldRun(wd: World, s: State, steps: seq<Step>)
    requires Base(wd, s) && Told(wd, s) && Valid(wd, s, steps)
    ensures Base(wd, Run(wd, s, steps)) && Told(wd, Run(wd, s, steps))
    decreases |steps|
  {
    hide Base, Told, Enabled, Next;
    if steps != [] {
      BaseStep(wd, s, steps[0]);
      ToldStep(wd, s, steps[0]);
      ToldRun(wd, Next(wd, s, steps[0]), steps[1..]);
    }
  }

  /** What the log says of a stored object: readiness was earned by an answer, outside the delete
      path, that showed an instance of this object Running, with an instance recorded; a failure by
      the observation its reason stands for; a hardening by a successful call. */
  ghost predicate Earned(wd: World, fleet: Fleet, log: seq<Event>, m: Machine) {
    && (m.status.ready || m.status.provisioned ==>
          && m.status.instanceID.Some?
          && exists e :: e in log && ShowsRunning(e) && Ours(wd, fleet, e.call.id))
    && (m.status.metadataHardened ==> exists e :: e in log && ShowsHardened(e))
    && (m.status.failureReason.Some? ==> exists e :: e in log && Explains(m.status.failureReason.value, e))
  }

  /** In every state of every run, under any losses and overlaps, the stored status was earned, no
      hardening call was ever made but by a reconcile that found the node joined and the value
      configured, and no lookup, launch or describe but by one that was free to make it. */
  lemma StatusIsEarned(wd: World, s0: State, steps: seq<Step>)
    requires Init(wd, s0) && Valid(wd, s0, steps)
    ensures var s := Run(wd, s0, steps);
            && (s.obj.Some? ==> Earned(wd, s.fleet, s.log, s.obj.value))
            && HardensWarranted(s.log) && CallsLicensed(s.log)
  {
    hide Valid, Run, HardensWarranted, CallsLicensed, ShowsHardened, Explains, Ours, WorkerTold, ShowsRunning;
    InitBase(wd, s0);
    InitTold(wd, s0);
    ToldRun(wd, s0, steps);
  }

  /** The recorded instance of a ready object is one that was seen Running. */
  predicate SeenItself(s: State) {
    s.obj.Some? && (s.obj.value.status.ready || s.obj.value.status.provisioned) ==> Seen(true, s.log, s.obj.value)
  }

  /** With the token honoured, or with serial reconciles, a stored ready instance was itself seen
      Running, in every reachable state. */
  lemma ReadyWasRunning(wd: World, s0: State, steps: seq<Step>)
    requires Init(wd, s0) && Valid(wd, s0, steps) && (wd.env.tokens || wd.env.serial)
    ensures SeenItself(Run(wd, s0, steps))
  {
    hide Valid, Run, HardensWarranted, CallsLicensed, WorkerTold, ShowsRunning, ShowsHardened, Explains;
    InitBase(wd, s0);
    InitTold(wd, s0);
    ToldRun(wd, s0, steps);
    if wd.env.tokens {
      Handles.TokenRun(wd, s0, steps);
    }
  }

  // ---------------------------------------------------------------- what never reverts

  lemma StatusKept(status: MachineStatus)
    ensures KeepsStatus(status, status)
  {
  }

  lemma StatusWriteKeeps(w: Worker, stored: Machine)
    requires KeepsStatus(w.snapshot.status, w.at.m.status)
    requires w.snapshot.status.instanceID.Some? ==> w.at.m.status.instanceID.Some?
    ensures var m := WriteStatus(w, stored);
            && KeepsStatus(stored.status, m.status) && m.deleting == stored.deleting && m.spec == stored.spec
            && (stored.status.instanceID.Some? ==> m.status.instanceID.Some?)
  {
  }

  /** One step never takes back provisioned, a failure, a hardening or a handle of the stored
      object; only ready goes both ways. */
  lemma StoredNeverReverts(wd: World, s: State, step: Step)
    requires Base(wd, s) && Told(wd, s) && Enabled(wd, s, step) && s.obj.Some?
    ensures var t := Next(wd, s, step);
            t.obj.Some? ==>
              && KeepsStatus(s.obj.value.status, t.obj.value.status)
              && (s.obj.value.status.instanceID.Some? ==> t.obj.value.status.instanceID.Some?)
              && (s.obj.value.deleting ==> t.obj.value.deleting)
              && Admission.Immutable(s.obj.value.spec, t.obj.value.spec)
  {
    hide Start, Advance, Perform, Allowed, NextCall, PcOk, MachineOk, FleetOk, Witnessed, HardensWarranted,
      WriteSpec, WriteStatus, Admission.ValidSpec, KeepsStatus, KeepsSpec, Calling, WantsHarden, BeganAs, Seen, SawOurs,
      SnapshotsKept, Synced;
    var spec := s.obj.value.spec;
    assert Admission.Immutable(spec, spec);
    StatusKept(s.obj.value.status);
    match step {
      case Edit(tags, options) => SettledEdit(spec, tags, options);
      case PatchSpec(w, _) => SpecWriteKeeps(s.workers[w], s.obj.value);
      case PatchStatus(w, _) => StatusWriteKeeps(s.workers[w], s.obj.value);
      case _ =>
    }
  }

  // ---------------------------------------------------------------- hardening once

  /** Hardening is recorded and every reconcile in flight has read the record. */
  predicate HardeningKnown(s: State) {
    && (s.obj.Some? ==> s.obj.value.status.metadataHardened)
    && forall w :: w in s.workers ==> s.workers[w].at.m.status.metadataHardened
  }

  lemma {:induction false} NoMoreHardening(wd: World, s: State, steps: seq<Step>)
    requires Base(wd, s) && Told(wd, s) && HardeningKnown(s) && Valid(wd, s, steps)
    ensures var t := Run(wd, s, steps);
            |s.log| <= |t.log| && forall k :: |s.log| <= k < |t.log| ==> !HardenCall(t.log[k])
    decreases |steps|
  {
    if steps != [] {
      var t := Next(wd, s, steps[0]);
      BaseStep(wd, s, steps[0]);
      ToldStep(wd, s, steps[0]);
      KnownStep(wd, s, steps[0]);
      NoMoreHardening(wd, t, steps[1..]);
      LogGrows(wd, t, steps[1..]);
    }
  }

  lemma KnownStep(wd: World, s: State, step: Step)
    requires Base(wd, s) && Told(wd, s) && HardeningKnown(s) && Enabled(wd, s, step)
    ensures var t := Next(wd, s, step);
            && HardeningKnown(t)
            && (forall k :: |s.log| <= k < |t.log| ==> !HardenCall(t.log[k]))
  {
    hide Start, Advance, Perform, Allowed, NextCall, PcOk, MachineOk, FleetOk, Witnessed, HardensWarranted,
      Admission.Admits, BeganAs, Seen, SawOurs, SnapshotsKept, Synced, KeepsSpec, WantsHarden;
    var t := Next(wd, s, step);
    if step.Begin? || step.Answer? {
      AnswerKeepsHardened(wd, s, step);
    }
  }

  lemma AnswerKeepsHardened(wd: World, s: State, step: Step)
    requires Base(wd, s) && Told(wd, s) && HardeningKnown(s) && Enabled(wd, s, step) && (step.Begin? || step.Answer?)
    ensures var t := Next(wd, s, step);
            t.workers[step.w].at.m.status.metadataHardened && !HardenCall(t.log[|s.log|])
  {
    hide Start, Advance, Perform, Allowed, NextCall, PcOk, MachineOk, FleetOk, HardensWarranted, BeganAs, Seen, SawOurs,
      SnapshotsKept, Synced, KeepsSpec, Witnessed;
    ToldStep(wd, s, step);
    if step.Answer? {
      var p := s.workers[step.w].at;
      if NextCall(wd.cfg, p).Modify? { HardenPc(wd.cfg, p); }
    }
  }

  lemma {:induction false} LogGrows(wd: World, s: State, steps: seq<Step>)
    requires Valid(wd, s, steps)
    ensures s.log <= Run(wd, s, steps).log
    decreases |steps|
  {
    if steps != [] {
      LogGrows(wd, Next(wd, s, steps[0]), steps[1..]);
    }
  }

  /** With serial reconciles, once the hardening is stored no further call is ever made. */
  lemma HardensOnce(wd: World, s0: State, before: seq<Step>, after: seq<Step>)
    requires Init(wd, s0) && wd.env.serial && Valid(wd, s0, before)
    requires var s := Run(wd, s0, before);
             s.obj.Some? && s.obj.value.status.metadataHardened && Valid(wd, s, after)
    ensures var s := Run(wd, s0, before); var t := Run(wd, s, after);
            forall k :: |s.log| <= k < |t.log| ==> !HardenCall(t.log[k])
  {
    InitBase(wd, s0);
    ToldRun(wd, s0, before);
    Handles.SyncedRun(wd, s0, before);
    NoMoreHardening(wd, Run(wd, s0, before), after);
  }
}
