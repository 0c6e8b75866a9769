/** What one reconcile does, told from the outside: from the object it read, its inputs and the
    answers it got, which calls it makes with which arguments, what it leaves in its copy, and
    whether it asks to be run again. Stated in the terms of the ECS API and the object's fields. */
module Conduct {
  import opened Objects
  import opened ProviderIDs
  import opened FailureDomains
  import opened Cloud
  import opened Resumption
  import opened Controller
  import Retry

  /** Starting from m, a reconcile makes these exchanges and ends with this copy and verdict. */
  predicate Reconciled(cfg: Config, inputs: Inputs, m: Machine, xs: seq<Exchange>, copy: Machine, v: Verdict) {
    Follows(cfg, inputs, Start(cfg, inputs, m), xs, copy, v)
  }

  // ---------------------------------------------------------------- vocabulary

  /** The region a machine that is not being deleted lives in. */
  function HomeOf(cfg: Config, m: Machine): string {
    if m.spec.regionID != "" then m.spec.regionID else cfg.clusterRegion
  }

  /** Only the fields resolution fills in and the finalizer differ. */
  predicate Placed(m: Machine, copy: Machine) {
    copy == m.(finalizer := true, spec := m.spec.(zoneID := copy.spec.zoneID, vSwitchID := copy.spec.vSwitchID))
  }

  /** As placed, with the region persisted. */
  predicate Homed(cfg: Config, m: Machine, copy: Machine) {
    copy == m.(finalizer := true,
               spec := m.spec.(zoneID := copy.spec.zoneID, vSwitchID := copy.spec.vSwitchID,
                   regionID := HomeOf(cfg, m)))
  }

  /** The handles name different instances. */
  predicate HandlesDiffer(m: Machine) {
    m.status.instanceID.Some? && m.spec.providerID.Some? &&
    ProviderInstanceID(m.spec.providerID.value) !in {"", m.status.instanceID.value}
  }

  /** The gates are open and an agreeing instance is recorded. */
  predicate Polls(inputs: Inputs, m: Machine) {
    GatesOpen(inputs, m) && m.status.instanceID.Some? && !HandlesDiffer(m)
  }

  function Failing(m: Machine, reason: string): Machine {
    m.(status := m.status.(failureReason := Some(reason), ready := false))
  }

  /** The failure a create ends with for an error, by the code the server sent. */
  function ReasonOf(e: Retry.Error): Option<string> {
    if e.OtherError? then None
    else if e.code == "Invalid.Zone.NotEnoughResource" || e.code == "InsufficientCapacity" ||
            e.code == "OperationDenied.NoStock" then Some("InstanceCapacityExhausted")
    else if e.code == "Invalid.SpotStrategy.NotSupported" || e.code == "Invalid.SpotPriceLimit.Exceeded"
    then Some("SpotConfigurationRejected")
    else None
  }

  // ---------------------------------------------------------------- unfolding

  lemma Ends(cfg: Config, inputs: Inputs, p: Progress, xs: seq<Exchange>, copy: Machine, v: Verdict)
    requires Follows(cfg, inputs, p, xs, copy, v) && !Calling(p)
    ensures xs == [] && p == Progress(copy, Returned(v))
  {
  }

  lemma Calls(cfg: Config, inputs: Inputs, p: Progress, xs: seq<Exchange>, copy: Machine, v: Verdict)
    requires Follows(cfg, inputs, p, xs, copy, v) && Calling(p)
    ensures xs != [] && xs[0].call == NextCall(cfg, p) && Answers(p.pc, xs[0].resp)
    ensures var next := Advance(cfg, inputs, p, xs[0].resp);
            && Follows(cfg, inputs, next, xs[1..], copy, v)
            && (Calling(next) ==> |xs| > 1 && xs[1..][0] == xs[1])
            && (!Calling(next) ==> xs == [xs[0]] && next == Progress(copy, Returned(v)))
  {
    var next := Advance(cfg, inputs, p, xs[0].resp);
    if !Calling(next) {
      Ends(cfg, inputs, next, xs[1..], copy, v);
      assert xs == [xs[0]] + xs[1..];
    }
  }

  // ---------------------------------------------------------------- the gates

  /** A closed gate makes no call. Not proceeding ends the reconcile with the object untouched; a
      cluster not ready or bootstrap data missing asks for another try with only the finalizer
      added; a failure domain that does not resolve, or no client, is an error. */
  lemma ClosedGate(cfg: Config, inputs: Inputs, m: Machine, xs: seq<Exchange>, copy: Machine, v: Verdict)
    requires Reconciled(cfg, inputs, m, xs, copy, v) && !m.deleting
    requires !inputs.proceed || !inputs.clusterReady || !inputs.hasBootstrap || !inputs.clientOk ||
             !Resolvable(inputs.failureDomain, inputs.zones, m.spec)
    ensures xs == []
    ensures if !inputs.proceed then v == Finished && copy == m
            else if !inputs.clusterReady || !inputs.hasBootstrap then v == Requeue && copy == m.(finalizer := true)
            else v == Errored && Placed(m, copy)
  {
    hide Resolve, Resolvable, StartCreate, ProviderInstanceID;
    ResolvesExactly(inputs.failureDomain, inputs.zones, m.spec);
    ResolvedStays(inputs.failureDomain, inputs.zones, m.spec);
    Ends(cfg, inputs, Start(cfg, inputs, m), xs, copy, v);
  }

  /** Behind open gates, handles that differ fail the machine without a call. */
  lemma Mismatched(cfg: Config, inputs: Inputs, m: Machine, xs: seq<Exchange>, copy: Machine, v: Verdict)
    requires Reconciled(cfg, inputs, m, xs, copy, v) && GatesOpen(inputs, m) && HandlesDiffer(m)
    ensures xs == [] && v == Terminal("ProviderIDInstanceMismatch")
    ensures copy.status == Failing(m, "ProviderIDInstanceMismatch").status
  {
    hide Resolve, Resolvable, StartCreate, ProviderInstanceID;
    ResolvesExactly(inputs.failureDomain, inputs.zones, m.spec);
    ResolvedStays(inputs.failureDomain, inputs.zones, m.spec);
    Ends(cfg, inputs, Start(cfg, inputs, m), xs, copy, v);
  }

  /** Behind open gates with no instance recorded, what is missing decides: a secret that cannot be
      read and an offload that failed are errors, no image and user data too large fail the machine. */
  lemma NotCreating(cfg: Config, inputs: Inputs, m: Machine, xs: seq<Exchange>, copy: Machine, v: Verdict)
    requires Reconciled(cfg, inputs, m, xs, copy, v)
    requires GatesOpen(inputs, m) && m.status.instanceID.None? && !Creates(inputs, m)
    ensures xs == []
    ensures if !inputs.secretOk then v == Errored && copy.status == m.status
            else if m.spec.imageID == "" && inputs.bootImageID == "" then
              v == Terminal("NoBootImage") && copy.status == Failing(m, "NoBootImage").status
            else if inputs.offload == TooLarge then
              v == Terminal("UserDataTooLarge") && copy.status == Failing(m, "UserDataTooLarge").status
            else v == Errored && Homed(cfg, m, copy)
  {
    hide Resolve, Resolvable, ProviderInstanceID, ToSDKTags, MachineTag;
    ResolvesExactly(inputs.failureDomain, inputs.zones, m.spec);
    ResolvedStays(inputs.failureDomain, inputs.zones, m.spec);
    Ends(cfg, inputs, Start(cfg, inputs, m), xs, copy, v);
  }

  lemma BeginsToCreate(cfg: Config, inputs: Inputs, m: Machine)
    requires Creates(inputs, m)
    ensures var p := Start(cfg, inputs, m);
            && p.pc == (if cfg.machineName != "" then AtFind else AtLaunch) && Homed(cfg, m, p.m)
  {
    hide Resolve, Resolvable, ProviderInstanceID, ToSDKTags, MachineTag, KeptTag;
    ResolvesExactly(inputs.failureDomain, inputs.zones, m.spec);
    ResolvedStays(inputs.failureDomain, inputs.zones, m.spec);
    ReservedTag(m.spec.tags, cfg.machineName, cfg.clusterName);
  }

  lemma BeginsToPoll(cfg: Config, inputs: Inputs, m: Machine)
    requires Polls(inputs, m)
    ensures var p := Start(cfg, inputs, m); p.pc == AtDescribe && Placed(m, p.m)
  {
    hide Resolve, Resolvable, ProviderInstanceID, StartCreate;
    ResolvesExactly(inputs.failureDomain, inputs.zones, m.spec);
    ResolvedStays(inputs.failureDomain, inputs.zones, m.spec);
  }

  // ---------------------------------------------------------------- creating

  /** The instance's own tag: the user's last value under the reserved key, else the Machine name. */
  function OwnTag(cfg: Config, m: Machine): string {
    if Reserved(m.spec.tags) then KeptTag(m.spec.tags) else cfg.machineName
  }

  /** The create recorded this instance: both handles, in the home region, waiting to be polled. */
  predicate Recorded(cfg: Config, m: Machine, copy: Machine, v: Verdict, id: string) {
    && v == Requeue && copy.finalizer && copy.deleting == m.deleting
    && copy.spec == m.spec.(zoneID := copy.spec.zoneID, vSwitchID := copy.spec.vSwitchID, regionID := HomeOf(cfg, m),
                            providerID := Some("alicloud://" + HomeOf(cfg, m) + "." + id))
    && copy.status == m.status.(instanceID := Some(id), instanceState := Some(Pending))
  }

  /** The create failed with this error: for good by a stock or spot code, else to be retried. */
  predicate FailedBy(cfg: Config, m: Machine, copy: Machine, v: Verdict, e: Retry.Error) {
    && Homed(cfg, m, copy.(status := m.status))
    && match ReasonOf(e)
       case Some(reason) => v == Terminal(reason) && copy.status == Failing(m, reason).status
       case None => v == Errored && copy.status == m.status
  }

  predicate LaunchOutcome(cfg: Config, m: Machine, copy: Machine, v: Verdict, resp: Response) {
    match resp
    case Launched(id) => Recorded(cfg, m, copy, v, id)
    case Failed(e) => FailedBy(cfg, m, copy, v, e)
    case _ => false
  }

  /** A create: look the Machine name up in the home region, adopt what is found; launch under the
      object's UID and tag only after an empty lookup; record the instance or the failure. */
  lemma Creating(cfg: Config, inputs: Inputs, m: Machine, xs: seq<Exchange>, copy: Machine, v: Verdict)
    requires Reconciled(cfg, inputs, m, xs, copy, v) && Creates(inputs, m)
    ensures var launch := Launch(HomeOf(cfg, m), cfg.uid, OwnTag(cfg, m));
            if cfg.machineName == "" then
              |xs| == 1 && xs[0].call == launch && LaunchOutcome(cfg, m, copy, v, xs[0].resp)
            else
              && xs != [] && xs[0].call == Find(HomeOf(cfg, m), cfg.machineName)
              && match xs[0].resp
                 case Failed(e) => |xs| == 1 && FailedBy(cfg, m, copy, v, e)
                 case Found(id) =>
                   if id != "" then |xs| == 1 && Recorded(cfg, m, copy, v, id)
                   else |xs| == 2 && xs[1].call == launch && LaunchOutcome(cfg, m, copy, v, xs[1].resp)
                 case _ => false
  {
    hide ProviderInstanceID, ToSDKTags, MachineTag, KeptTag, Follows, Start, Reserved;
    BeginsToCreate(cfg, inputs, m);
    var p := Start(cfg, inputs, m);
    ReservedTag(m.spec.tags, cfg.machineName, cfg.clusterName);
    Calls(cfg, inputs, p, xs, copy, v);
    var next := Advance(cfg, inputs, p, xs[0].resp);
    if Calling(next) {
      Calls(cfg, inputs, next, xs[1..], copy, v);
    }
  }

  // ---------------------------------------------------------------- polling

  /** What polling records whatever the state: the state, and a providerID where there was none. */
  predicate Synced(cfg: Config, m: Machine, copy: Machine, id: string, state: InstanceState) {
    && copy.finalizer && copy.deleting == m.deleting
    && copy.spec == m.spec.(zoneID := copy.spec.zoneID, vSwitchID := copy.spec.vSwitchID,
         providerID := if m.spec.providerID.Some? then m.spec.providerID
                       else Some("alicloud://" + HomeOf(cfg, m) + "." + m.status.instanceID.GetOr("")))
    && copy.status.instanceID == Some(id) && copy.status.instanceState == Some(state)
  }

  /** The node has joined and the spec asks for a metadata setting not yet made. */
  predicate Hardens(inputs: Inputs, m: Machine) {
    && inputs.nodeRef && m.spec.metadataOptions.Some? && m.spec.metadataOptions.value.httpTokensAfterBoot != ""
    && !m.status.metadataHardened
  }

  /** The one hardening call: the endpoint the spec names, enabled unless it names one, its token
      setting for after boot, and its hop limit. */
  predicate HardeningCall(cfg: Config, m: Machine, call: Call, id: string)
    requires m.spec.metadataOptions.Some?
  {
    var o := m.spec.metadataOptions.value;
    call == Modify(HomeOf(cfg, m), id, if o.httpEndpoint != "" then o.httpEndpoint else "enabled",
                   o.httpTokensAfterBoot, o.hopLimit)
  }

  /** The describe of a recorded instance, answer by answer. */
  lemma Polling(cfg: Config, inputs: Inputs, m: Machine, xs: seq<Exchange>, copy: Machine, v: Verdict)
    requires Reconciled(cfg, inputs, m, xs, copy, v) && Polls(inputs, m)
    ensures xs != [] && xs[0].call == Describe(HomeOf(cfg, m), m.status.instanceID.value)
    ensures match xs[0].resp
            case Failed(_) => |xs| == 1 && v == Errored && Placed(m, copy)
            case Absent =>
              && |xs| == 1 && v == Terminal("InstanceDisappeared")
              && copy.status == Failing(m, "InstanceDisappeared").status
            case Present(id, state) =>
              && Synced(cfg, m, copy, id, state)
              && (match state
                 case Running =>
                   && v == Finished && copy.status.ready && copy.status.provisioned
                   && copy.status.failureReason == m.status.failureReason
                   && (if Hardens(inputs, m) then
                         |xs| == 2 && HardeningCall(cfg, m, xs[1].call, id) &&
                         (copy.status.metadataHardened <==> xs[1].resp.Done?)
                       else |xs| == 1 && copy.status.metadataHardened == m.status.metadataHardened)
                 case Stopped => |xs| == 1 && TerminalState(m, copy, v)
                 case Deleted => |xs| == 1 && TerminalState(m, copy, v)
                 case _ => |xs| == 1 && v == Requeue && Unjudged(m, copy))
            case _ => false
  {
    hide ProviderInstanceID, Follows, Start, StartNormal;
    BeginsToPoll(cfg, inputs, m);
    var p := Start(cfg, inputs, m);
    Calls(cfg, inputs, p, xs, copy, v);
    var next := Advance(cfg, inputs, p, xs[0].resp);
    if Calling(next) {
      Calls(cfg, inputs, next, xs[1..], copy, v);
    }
  }

  /** An instance that stopped or is deleted fails the machine and takes ready back. */
  predicate TerminalState(m: Machine, copy: Machine, v: Verdict) {
    && v == Terminal("InstanceTerminalState") && copy.status.failureReason == Some("InstanceTerminalState")
    && !copy.status.ready && copy.status.provisioned == m.status.provisioned
    && copy.status.metadataHardened == m.status.metadataHardened
  }

  /** While an instance is on its way nothing is decided. */
  predicate Unjudged(m: Machine, copy: Machine) {
    && copy.status.ready == m.status.ready && copy.status.provisioned == m.status.provisioned
    && copy.status.failureReason == m.status.failureReason
    && copy.status.metadataHardened == m.status.metadataHardened
  }

  // ---------------------------------------------------------------- what is called, and what is asked for

  predicate Looks(x: Exchange) { x.call.Find? || x.call.Launch? }

  /** Not deleting, a reconcile looks up and launches only where it may create, describes only a
      recorded instance behind open gates, hardens only where asked to, and never stops or releases. */
  lemma CallsOnlyOpen(cfg: Config, inputs: Inputs, m: Machine, xs: seq<Exchange>, copy: Machine, v: Verdict,
                      x: Exchange)
    requires Reconciled(cfg, inputs, m, xs, copy, v) && !m.deleting && x in xs
    ensures Looks(x) ==> Creates(inputs, m)
    ensures Looks(x) ==>
              && inputs.proceed && inputs.clusterReady && inputs.hasBootstrap && inputs.clientOk && inputs.secretOk
              && Resolvable(inputs.failureDomain, inputs.zones, m.spec) && m.status.instanceID.None?
              && (m.spec.imageID != "" || inputs.bootImageID != "") && inputs.offload in {Fits, Offloaded}
    ensures x.call.Describe? ==> Polls(inputs, m)
    ensures x.call.Modify? ==> Polls(inputs, m) && Hardens(inputs, m)
    ensures !x.call.Stop? && !x.call.Release?
  {
    hide Reconciled, Resolvable, ProviderInstanceID, Recorded, FailedBy, LaunchOutcome, OwnTag, Synced;
    if !GatesOpen(inputs, m) {
      ClosedGate(cfg, inputs, m, xs, copy, v);
    } else if HandlesDiffer(m) {
      Mismatched(cfg, inputs, m, xs, copy, v);
    } else if Creates(inputs, m) {
      Creating(cfg, inputs, m, xs, copy, v);
    } else if Polls(inputs, m) {
      Polling(cfg, inputs, m, xs, copy, v);
    } else {
      NotCreating(cfg, inputs, m, xs, copy, v);
    }
  }

  /** Not deleting, a reconcile is finished exactly when it was not to proceed or found its instance
      Running, which leaves the copy ready; it fails the machine exactly when it says so; and it
      leaves no failure behind otherwise. */
  lemma NormalVerdict(cfg: Config, inputs: Inputs, m: Machine, xs: seq<Exchange>, copy: Machine, v: Verdict)
    requires Reconciled(cfg, inputs, m, xs, copy, v) && !m.deleting
    ensures v == Finished <==>
              !inputs.proceed || (Polls(inputs, m) && xs != [] && xs[0].resp.Present? && xs[0].resp.state == Running)
    ensures v == Finished && inputs.proceed ==> copy.status.ready && copy.status.provisioned
    ensures v.Terminal? ==> copy.status.failureReason == Some(v.reason) && !copy.status.ready
    ensures !v.Terminal? ==> copy.status.failureReason == m.status.failureReason
  {
    hide Reconciled, Resolvable, ProviderInstanceID, OwnTag;
    if !GatesOpen(inputs, m) {
      ClosedGate(cfg, inputs, m, xs, copy, v);
    } else if HandlesDiffer(m) {
      Mismatched(cfg, inputs, m, xs, copy, v);
    } else if Creates(inputs, m) {
      Creating(cfg, inputs, m, xs, copy, v);
    } else if Polls(inputs, m) {
      Polling(cfg, inputs, m, xs, copy, v);
    } else {
      NotCreating(cfg, inputs, m, xs, copy, v);
    }
  }

  // ---------------------------------------------------------------- deleting

  /** The instance a deletion knows by a handle, or "". */
  function HandleOf(m: Machine): string {
    if m.status.instanceID.Some? then m.status.instanceID.value
    else if m.spec.providerID.Some? then ProviderInstanceID(m.spec.providerID.value)
    else ""
  }

  /** The region a deletion finds on the object. */
  function RegionOf(m: Machine): Option<string> {
    if m.spec.regionID != "" then Some(m.spec.regionID)
    else if m.spec.providerID.Some? then RegionOfProviderID(m.spec.providerID.value)
    else None
  }

  /** The status handle restored from the providerID. */
  function Restored(m: Machine): Machine {
    if m.status.instanceID.None? && HandleOf(m) != "" then m.(status := m.status.(instanceID := Some(HandleOf(m))))
    else m
  }

  /** Stop, whatever that answers, then release; the release decides: another pass, or an error. */
  predicate StopsAndReleases(region: string, id: string, xs: seq<Exchange>, v: Verdict) {
    && |xs| == 2 && xs[0].call == Stop(region, id) && xs[1].call == Release(region, id)
    && v == if xs[1].resp.Done? then Requeue else Errored
  }

  /** The sweep: an error if it fails, the finalizer off if it finds nothing, else what it found is
      stopped and released. */
  predicate Sweep(cfg: Config, region: string, m: Machine, xs: seq<Exchange>, copy: Machine, v: Verdict) {
    && xs != [] && xs[0].call == Find(region, cfg.name)
    && match xs[0].resp
       case Failed(_) => |xs| == 1 && v == Errored && copy == m
       case Found(id) =>
         if id == "" then |xs| == 1 && v == Finished && copy == m.(finalizer := false)
         else StopsAndReleases(region, id, xs[1..], v) && copy == m
       case _ => false
  }

  /** A deletion, from the object to the verdict. */
  lemma Deleting(cfg: Config, inputs: Inputs, m: Machine, xs: seq<Exchange>, copy: Machine, v: Verdict)
    requires Reconciled(cfg, inputs, m, xs, copy, v) && m.deleting
    ensures RegionOf(m).None? && HandleOf(m) == "" ==> xs == [] && v == Finished && copy == m.(finalizer := false)
    ensures RegionOf(m).None? && HandleOf(m) != "" ==> xs == [] && v == Errored && copy == m
    ensures RegionOf(m).Some? && !inputs.clientOk ==> xs == [] && v == Errored && copy == Restored(m)
    ensures RegionOf(m).Some? && inputs.clientOk && HandleOf(m) == "" ==>
              Sweep(cfg, RegionOf(m).value, m, xs, copy, v)
    ensures RegionOf(m).Some? && inputs.clientOk && HandleOf(m) != "" ==>
              && xs != [] && xs[0].call == Describe(RegionOf(m).value, HandleOf(m))
              && match xs[0].resp
                 case Failed(_) => |xs| == 1 && v == Errored && copy == Restored(m)
                 case Absent => Sweep(cfg, RegionOf(m).value, Restored(m), xs[1..], copy, v)
                 case Present(_, state) =>
                   && copy == Restored(m).(status := Restored(m).status.(instanceState := Some(state)))
                   && if state == Stopping || state == Deleted then |xs| == 1 && v == Requeue
                      else StopsAndReleases(RegionOf(m).value, HandleOf(m), xs[1..], v)
                 case _ => false
  {
    hide ProviderInstanceID, RegionOfProviderID, StartNormal, Follows;
    var p := Start(cfg, inputs, m);
    if !Calling(p) {
      Ends(cfg, inputs, p, xs, copy, v);
    } else if p.pc == AtSweep {
      Sweeping(cfg, inputs, p, xs, copy, v);
    } else {
      Calls(cfg, inputs, p, xs, copy, v);
      var next := Advance(cfg, inputs, p, xs[0].resp);
      if next.pc == AtSweep {
        Sweeping(cfg, inputs, next, xs[1..], copy, v);
      } else if Calling(next) {
        Releasing(cfg, inputs, next, xs[1..], copy, v);
      }
    }
  }

  lemma Releasing(cfg: Config, inputs: Inputs, p: Progress, xs: seq<Exchange>, copy: Machine, v: Verdict)
    requires Follows(cfg, inputs, p, xs, copy, v) && p.pc.AtStop? && p.m.deleting
    ensures StopsAndReleases(RegionFrom(p.m.spec.regionID, p.m.spec.providerID).GetOr(""), p.pc.id, xs, v)
              && copy == p.m
  {
    hide RegionFrom, Follows;
    Calls(cfg, inputs, p, xs, copy, v);
    Calls(cfg, inputs, Advance(cfg, inputs, p, xs[0].resp), xs[1..], copy, v);
    assert xs == [xs[0]] + xs[1..];
  }

  lemma Sweeping(cfg: Config, inputs: Inputs, p: Progress, xs: seq<Exchange>, copy: Machine, v: Verdict)
    requires Follows(cfg, inputs, p, xs, copy, v) && p.pc == AtSweep && p.m.deleting
    ensures Sweep(cfg, RegionFrom(p.m.spec.regionID, p.m.spec.providerID).GetOr(""), p.m, xs, copy, v)
  {
    hide RegionFrom, Follows;
    Calls(cfg, inputs, p, xs, copy, v);
    var next := Advance(cfg, inputs, p, xs[0].resp);
    if Calling(next) {
      Releasing(cfg, inputs, next, xs[1..], copy, v);
    }
  }

  /** A deletion is finished exactly when it took the finalizer off. It is an error exactly when the
      region of a known instance is unknown, there is no client, or its last call, a describe, a
      sweep or a release, failed. In every other case it asks for another pass. */
  lemma DeletionVerdict(cfg: Config, inputs: Inputs, m: Machine, xs: seq<Exchange>, copy: Machine, v: Verdict)
    requires Reconciled(cfg, inputs, m, xs, copy, v) && m.deleting && m.finalizer
    ensures v == Finished <==> !copy.finalizer
    ensures v == Errored <==>
              || (RegionOf(m).None? && HandleOf(m) != "")
              || (RegionOf(m).Some? && !inputs.clientOk)
              || (xs != [] && !xs[|xs| - 1].call.Stop? && xs[|xs| - 1].resp.Failed?)
    ensures v in {Finished, Errored, Requeue}
  {
    AnsweredRight(cfg, inputs, Start(cfg, inputs, m), xs, copy, v);
    hide Reconciled, RegionOf, HandleOf;
    Deleting(cfg, inputs, m, xs, copy, v);
  }

  /** Every answer fits its call. */
  lemma {:induction false} AnsweredRight(cfg: Config, inputs: Inputs, p: Progress, xs: seq<Exchange>, copy: Machine,
                                         v: Verdict)
    requires Follows(cfg, inputs, p, xs, copy, v)
    ensures forall x :: x in xs
              ==> (x.call.Release? || x.call.Stop? || x.call.Modify? ==> x.resp.Failed? || x.resp.Done?)
    decreases |xs|
  {
    hide Advance, ClientRegion, ToSDKTags, MachineTag, KeptTag, ResolveMetadataOptions;
    if xs != [] {
      AnsweredRight(cfg, inputs, Advance(cfg, inputs, p, xs[0].resp), xs[1..], copy, v);
      assert forall x :: x in xs <==> x == xs[0] || x in xs[1..];
    }
  }
}
