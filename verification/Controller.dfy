/** The machine controller and client wrapper as they run: methods that mutate the in-memory
    object and talk to the API. Each is proved to follow the resumption of module Resumption,
    call by call and answer by answer, whatever the cloud answers. */
module Controller {
  import opened Objects
  import opened MachineObjects
  import opened ProviderIDs
  import opened FailureDomains
  import opened Cloud
  import opened Resumption
  import Retry

  datatype Exchange = Exchange(call: Call, resp: Response)

  /** One entry of a DescribeInstances answer. */
  datatype Item = Item(id: string, state: InstanceState)

  /** The first listed instance that is not Deleted, or "". */
  function FirstLive(items: seq<Item>): string {
    if items == [] then "" else if items[0].state != Deleted then items[0].id else FirstLive(items[1..])
  }

  /** The listing answers the tag query completely: the records of the fleet under that tag in
      that region, with their states. */
  predicate Lists(fleet: Fleet, region: string, tag: string, items: seq<Item>) {
    && (forall i :: 0 <= i < |items| ==>
          && items[i].id in fleet && items[i].id != ""
          && Carries(fleet[items[i].id], region, tag) && fleet[items[i].id].state == Some(items[i].state))
    && (forall id :: id in fleet && Carries(fleet[id], region, tag) && fleet[id].state.Some? ==>
          exists i :: 0 <= i < |items| && items[i].id == id)
  }

  lemma {:induction false} FirstLiveIn(items: seq<Item>)
    ensures FirstLive(items) == "" ||
            exists i :: 0 <= i < |items| && items[i].id == FirstLive(items) && items[i].state != Deleted
    ensures FirstLive(items) == "" && (forall i :: 0 <= i < |items| ==> items[i].id != "") ==>
              forall i :: 0 <= i < |items| ==> items[i].state == Deleted
  {
    if items != [] && items[0].state == Deleted {
      FirstLiveIn(items[1..]);
      if FirstLive(items) != "" {
        var i :| 0 <= i < |items[1..]| && items[1..][i].id == FirstLive(items) && items[1..][i].state != Deleted;
        assert items[i + 1].id == FirstLive(items) && items[i + 1].state != Deleted;
      } else {
        assert forall i :: 0 <= i < |items[1..]| ==> items[1..][i] == items[i + 1];
        assert forall i :: 0 < i < |items| ==> items[i] == items[1..][i - 1];
      }
    }
  }

  /** Scanning a complete listing gives exactly the answers a current environment allows. */
  lemma ScanIsCurrent(env: Env, fleet: Fleet, region: string, tag: string, items: seq<Item>, o: Outcome)
    requires Lists(fleet, region, tag, items) && env.current && o.ok && o.id == FirstLive(items)
    ensures Allowed(env, fleet, Find(region, tag), o)
  {
    FirstLiveIn(items);
    if o.id == "" {
      forall id | id in fleet ensures !(Carries(fleet[id], region, tag) && Live(fleet[id])) {
        if Carries(fleet[id], region, tag) && fleet[id].state.Some? {
          var i :| 0 <= i < |items| && items[i].id == id;
        }
      }
    }
  }

  // ---------------------------------------------------------------- the client

  /** What the cloud answers: to a listing, its items; to any other call, a response. */
  datatype Answer = Listing(ok: bool, items: seq<Item>) | Single(resp: Response)

  /** The successful answers to a call other than a listing. */
  predicate Succeeds(call: Call, resp: Response) {
    match call
    case Describe(_, _) => resp.Absent? || resp.Present?
    case Launch(_, _, _) => resp.Launched?
    case _ => resp.Done?
  }

  /** The ECS client. `answers` scripts the cloud; `log` records the exchanges. */
  class Client {
    var region: string
    const answers: nat -> Answer
    var log: seq<Exchange>

    constructor (answers: nat -> Answer)
      ensures log == []
    {
      this.answers := answers;
      region, log := "", [];
    }

    /** The builder: a client for one region. */
    method Connect(region: string)
      modifies this`region
      ensures this.region == region
    {
      this.region := region;
    }

    method Send(call: Call) returns (resp: Response)
      requires !call.Find?
      modifies this`log
      ensures log == old(log) + [Exchange(call, resp)]
      ensures resp.Failed? || Succeeds(call, resp)
    {
      resp := Failed(Retry.OtherError);
      var answer := answers(|log|);
      if answer.Single? && (answer.resp.Failed? || Succeeds(call, answer.resp)) {
        resp := answer.resp;
      }
      log := log + [Exchange(call, resp)];
    }

    method DescribeInstanceByID(id: string) returns (resp: Response)
      modifies this`log
      ensures log == old(log) + [Exchange(Describe(region, id), resp)]
      ensures resp.Failed? || resp.Absent? || resp.Present?
    {
      resp := Send(Describe(region, id));
    }

    method FindInstanceByTag(tag: string) returns (resp: Response)
      modifies this`log
      ensures log == old(log) + [Exchange(Find(region, tag), resp)]
      ensures match answers(|old(log)|)
              case Listing(true, items) => resp == Found(FirstLive(items))
              case Listing(false, _) => resp == Failed(Retry.OtherError)
              case Single(r) => resp == Failed(if r.Failed? then r.error else Retry.OtherError)
    {
      match answers(|log|) {
        case Single(r) =>
          resp := Failed(if r.Failed? then r.error else Retry.OtherError);
        case Listing(ok, items) =>
          if !ok {
            resp := Failed(Retry.OtherError);
          } else {
            var id := "";
            var i := 0;
            while i < |items|
              invariant i <= |items| && id == ""
              invariant FirstLive(items) == FirstLive(items[i..])
            {
              if items[i].state != Deleted {
                id := items[i].id;
                break;
              }
              i := i + 1;
            }
            assert id == FirstLive(items);
            resp := Found(id);
          }
      }
      log := log + [Exchange(Find(region, tag), resp)];
    }

    method MachineTagOf(tags: seq<Tag>) returns (value: string)
      ensures value == MachineTag(tags)
    {
      for i := 0 to |tags|
        invariant MachineTag(tags) == MachineTag(tags[i..])
      {
        if tags[i].key == MACHINE_TAG_KEY {
          return tags[i].value;
        }
      }
      return "";
    }

    /** Adopt by tag, else launch. */
    method CreateECSInstance(token: string, tags: seq<Tag>) returns (resp: Response)
      modifies this`log
      ensures var find := Find(region, MachineTag(tags));
              var launch := Exchange(Launch(region, token, KeptTag(tags)), resp);
              if MachineTag(tags) == "" then
                log == old(log) + [launch] && (resp.Failed? || resp.Launched?)
              else exists found: Response ::
                && log == old(log) + [Exchange(find, found)] + (if found == Found("") then [launch] else [])
                && match found
                   case Failed(_) => resp == found
                   case Found(id) => if id == "" then resp.Failed? || resp.Launched? else resp == Launched(id)
                   case _ => false
    {
      var tag := MachineTagOf(tags);
      if tag != "" {
        var found := FindInstanceByTag(tag);
        if found.Failed? {
          return found;
        }
        if found.id != "" {
          return Launched(found.id);
        }
      }
      ghost var sent := log;
      resp := Send(Launch(region, token, KeptTag(tags)));
      assert tag != "" ==> sent == old(log) + [Exchange(Find(region, tag), Found(""))];
    }

    /** Stop, whatever that answers, then release. */
    method DeleteECSInstance(id: string) returns (ok: bool)
      modifies this`log
      ensures exists stopped: Response, released: Response ::
                && log == old(log) + [Exchange(Stop(region, id), stopped), Exchange(Release(region, id), released)]
                && (stopped.Failed? || stopped.Done?) && (released.Failed? || released.Done?)
                && (ok <==> released.Done?)
    {
      var stopped := Send(Stop(region, id));
      var released := Send(Release(region, id));
      ok := released.Done?;
    }

    method ModifyInstanceMetadata(id: string, endpoint: string, tokens: string, hopLimit: int) returns (resp: Response)
      modifies this`log
      ensures log == old(log) + [Exchange(Modify(region, id, endpoint, tokens, hopLimit), resp)]
      ensures resp.Failed? || resp.Done?
    {
      resp := Send(Modify(region, id, endpoint, tokens, hopLimit));
    }
  }

  // ---------------------------------------------------------------- following the resumption

  /** Starting from p, the exchanges xs are exactly the calls the reconcile makes, and the
      answers lead it to the copy m and the verdict v. */
  predicate Follows(cfg: Config, inputs: Inputs, p: Progress, xs: seq<Exchange>, m: Machine, v: Verdict)
    decreases |xs|
  {
    if Calling(p) then
      && xs != [] && xs[0].call == NextCall(cfg, p) && Answers(p.pc, xs[0].resp)
      && Follows(cfg, inputs, Advance(cfg, inputs, p, xs[0].resp), xs[1..], m, v)
    else
      xs == [] && p == Progress(m, Returned(v))
  }

  lemma FollowsCall(cfg: Config, inputs: Inputs, p: Progress, x: Exchange, rest: seq<Exchange>, m: Machine, v: Verdict)
    requires Calling(p) && x.call == NextCall(cfg, p) && Answers(p.pc, x.resp)
    requires Follows(cfg, inputs, Advance(cfg, inputs, p, x.resp), rest, m, v)
    ensures Follows(cfg, inputs, p, [x] + rest, m, v)
  {
    assert ([x] + rest)[1..] == rest;
  }

  // ---------------------------------------------------------------- the controller

  /** What findOrCreateInstance reports to reconcileNormal. */
  datatype Result = IsRunning | Waiting | PlainError | TerminalError(reason: string)

  /** What reconcileNormal makes of it. */
  function Conclude(m: Machine, r: Result): Progress {
    match r
    case IsRunning => Progress(SetReady(m), Returned(Finished))
    case Waiting => Progress(m, Returned(Requeue))
    case PlainError => Progress(m, Returned(Errored))
    case TerminalError(reason) => Fail(m, reason)
  }

  method MaybeHardenMetadata(m: AlibabaCloudMachine, api: Client, inputs: Inputs)
    requires m.status.instanceID.Some?
    modifies m`status, api`log
    ensures var before := old(m.View());
            if !WantsHarden(inputs, before) then m.View() == before && api.log == old(api.log)
            else
              var (endpoint, _, hopLimit) := ResolveMetadataOptions(before.spec.metadataOptions);
              var call := Modify(api.region, before.status.instanceID.value, endpoint,
                                 before.spec.metadataOptions.value.httpTokensAfterBoot, hopLimit);
              exists resp: Response ::
                && (resp.Failed? || resp.Done?)
                && api.log == old(api.log) + [Exchange(call, resp)]
                && m.View() == if resp.Done? then before.(status := before.status.(metadataHardened := true))
                    else before
  {
    if m.spec.metadataOptions.None? || m.spec.metadataOptions.value.httpTokensAfterBoot == "" {
      return;
    }
    if m.status.metadataHardened {
      return;
    }
    if !inputs.nodeRef {
      return;
    }
    var (endpoint, _, hopLimit) := ResolveMetadataOptions(m.spec.metadataOptions);
    var resp := api.ModifyInstanceMetadata(m.status.instanceID.value, endpoint,
                                           m.spec.metadataOptions.value.httpTokensAfterBoot, hopLimit);
    if resp.Failed? {
      return;
    }
    m.status := m.status.(metadataHardened := true);
  }

  method SyncInstanceStatus(m: AlibabaCloudMachine, id: string, state: InstanceState)
    modifies m`status
    ensures m.View() == SyncStatus(old(m.View()), id, state)
  {
    m.status := m.status.(instanceID := Some(id));
    m.status := m.status.(instanceState := Some(state));
  }

  /** The exchanges of a create, from the lookup on. */
  ghost predicate CreateExchanges(cfg: Config, p: Progress, xs: seq<Exchange>, resp: Response) {
    var tags := ToSDKTags(p.m.spec.tags, cfg.machineName, cfg.clusterName);
    var region := ClientRegion(cfg, p);
    var launch := Exchange(Launch(region, cfg.uid, KeptTag(tags)), resp);
    if MachineTag(tags) == "" then xs == [launch] && (resp.Failed? || resp.Launched?)
    else
      && xs != [] && xs[0].call == Find(region, MachineTag(tags))
      && xs == [xs[0]] + (if xs[0].resp == Found("") then [launch] else [])
      && match xs[0].resp
         case Failed(_) => resp == xs[0].resp
         case Found(id) => if id == "" then resp.Failed? || resp.Launched? else resp == Launched(id)
         case _ => false
  }

  lemma CreateFollows(cfg: Config, inputs: Inputs, p: Progress, xs: seq<Exchange>, resp: Response)
    requires CreateExchanges(cfg, p, xs, resp)
    requires p.pc == if MachineTag(ToSDKTags(p.m.spec.tags, cfg.machineName, cfg.clusterName)) != "" then AtFind
               else AtLaunch
    ensures var end := if resp.Launched? then Progress(Record(p.m, p.m.spec.regionID, resp.id), Returned(Requeue))
                       else CreateFailed(p.m, resp.error);
            Follows(cfg, inputs, p, xs, end.m, end.pc.verdict)
  {
    hide ToSDKTags, MachineTag, KeptTag, ClassifyCreateError, ProviderIDFor;
    var end := if resp.Launched? then Progress(Record(p.m, p.m.spec.regionID, resp.id), Returned(Requeue))
               else CreateFailed(p.m, resp.error);
    var after := p.(pc := AtLaunch);
    if p.pc == AtLaunch {
      FollowsCall(cfg, inputs, p, xs[0], [], end.m, end.pc.verdict);
    } else if xs[0].resp == Found("") {
      FollowsCall(cfg, inputs, after, xs[1], [], end.m, end.pc.verdict);
      FollowsCall(cfg, inputs, p, xs[0], [xs[1]] + [], end.m, end.pc.verdict);
      assert xs == [xs[0]] + ([xs[1]] + []);
    } else {
      FollowsCall(cfg, inputs, p, xs[0], [], end.m, end.pc.verdict);
      assert xs == [xs[0]] + [];
    }
  }

  /** The tail of createInstance: adopt or launch, then record both handles. */
  method LaunchInstance(m: AlibabaCloudMachine, api: Client, cfg: Config, inputs: Inputs) returns (r: Result)
    requires !m.deleting && m.status.instanceID.None?
    requires api.region == m.spec.regionID == ResolveRegion(m.spec.regionID, cfg.clusterRegion)
    modifies m`spec, m`status, api`log
    ensures r == Waiting ==> m.status.instanceID.Some?
    ensures r != IsRunning
    ensures old(api.log) <= api.log
    ensures var before := old(m.View()); var end := Conclude(m.View(), r);
            var p := Progress(before, if MachineTag(ToSDKTags(before.spec.tags, cfg.machineName, cfg.clusterName)) != ""
                                      then AtFind else AtLaunch);
            Follows(cfg, inputs, p, api.log[|old(api.log)|..], end.m, end.pc.verdict)
  {
    hide ToSDKTags, MachineTag, KeptTag, Follows, ProviderIDFor;
    var tags := ToSDKTags(m.spec.tags, cfg.machineName, cfg.clusterName);
    ghost var before := m.View();
    var resp := api.CreateECSInstance(cfg.uid, tags);
    ghost var p := Progress(before, if MachineTag(tags) != "" then AtFind else AtLaunch);
    ghost var xs := api.log[|old(api.log)|..];
    assert CreateExchanges(cfg, p, xs, resp);
    CreateFollows(cfg, inputs, p, xs, resp);
    if resp.Failed? {
      var verdict := ClassifyCreateError(resp.error);
      r := if verdict.Terminal? then TerminalError(verdict.reason) else PlainError;
    } else {
      m.spec := m.spec.(providerID := Some(ProviderIDFor(m.spec.regionID, resp.id)));
      m.status := m.status.(instanceID := Some(resp.id), instanceState := Some(Pending));
      r := Waiting;
    }
  }

  method CreateInstance(m: AlibabaCloudMachine, api: Client, cfg: Config, inputs: Inputs) returns (r: Result)
    requires !m.deleting && m.status.instanceID.None?
    requires api.region == ResolveRegion(m.spec.regionID, cfg.clusterRegion)
    modifies m`spec, m`status, api`log
    ensures r == Waiting ==> m.status.instanceID.Some?
    ensures r != IsRunning
    ensures old(api.log) <= api.log
    ensures var end := Conclude(m.View(), r);
            Follows(cfg, inputs, StartCreate(cfg, inputs, old(m.View())), api.log[|old(api.log)|..], end.m,
                end.pc.verdict)
  {
    if !inputs.secretOk {
      return PlainError;
    }
    if m.spec.imageID == "" && inputs.bootImageID == "" {
      return TerminalError("NoBootImage");
    }
    var region := ResolveRegion(m.spec.regionID, cfg.clusterRegion);
    if m.spec.regionID == "" {
      m.spec := m.spec.(regionID := region);
    }
    if inputs.offload == OffloadFailed {
      return PlainError;
    }
    if inputs.offload == TooLarge {
      return TerminalError("UserDataTooLarge");
    }
    r := LaunchInstance(m, api, cfg, inputs);
  }

  /** Where findOrCreateInstance stands when it is called. */
  function FindOrCreateFrom(cfg: Config, inputs: Inputs, m: Machine): Progress {
    if m.status.instanceID.None? then StartCreate(cfg, inputs, m)
    else if Mismatch(m) then Fail(m, "ProviderIDInstanceMismatch")
    else Progress(m, AtDescribe)
  }

  method FindOrCreateInstance(m: AlibabaCloudMachine, api: Client, cfg: Config, inputs: Inputs) returns (r: Result)
    requires !m.deleting && api.region == ResolveRegion(m.spec.regionID, cfg.clusterRegion)
    modifies m`spec, m`status, api`log
    ensures old(api.log) <= api.log
    ensures var end := Conclude(m.View(), r);
            Follows(cfg, inputs, FindOrCreateFrom(cfg, inputs, old(m.View())), api.log[|old(api.log)|..], end.m,
                end.pc.verdict)
  {
    hide StartCreate, ProviderInstanceID, ProviderIDFor;
    if m.status.instanceID.None? {
      r := CreateInstance(m, api, cfg, inputs);
      return;
    }
    var id := m.status.instanceID.value;
    if m.spec.providerID.Some? {
      var named := ProviderInstanceID(m.spec.providerID.value);
      if named != "" && named != id {
        return TerminalError("ProviderIDInstanceMismatch");
      }
    }
    r := PollInstance(m, api, cfg, inputs);
  }

  /** The describing half of findOrCreateInstance. */
  method PollInstance(m: AlibabaCloudMachine, api: Client, cfg: Config, inputs: Inputs) returns (r: Result)
    requires !m.deleting && api.region == ResolveRegion(m.spec.regionID, cfg.clusterRegion)
    requires m.status.instanceID.Some?
    modifies m`spec, m`status, api`log
    ensures old(api.log) <= api.log
    ensures var end := Conclude(m.View(), r);
            Follows(cfg, inputs, Progress(old(m.View()), AtDescribe), api.log[|old(api.log)|..], end.m, end.pc.verdict)
  {
    hide ProviderIDFor, Follows, ResolveMetadataOptions;
    var id := m.status.instanceID.value;
    ghost var p := Progress(m.View(), AtDescribe);
    var resp := api.DescribeInstanceByID(id);
    ghost var x := Exchange(Describe(api.region, id), resp);
    ghost var next := Advance(cfg, inputs, p, resp);
    ghost var sent := api.log;
    match resp {
      case Failed(_) =>
        r := PlainError;
      case Absent =>
        r := TerminalError("InstanceDisappeared");
      case Present(found, state) =>
        if m.spec.providerID.None? {
          m.spec := m.spec.(providerID := Some(ProviderIDFor(ResolveRegion(m.spec.regionID, cfg.clusterRegion), id)));
        }
        SyncInstanceStatus(m, found, state);
        match state {
          case Running =>
            MaybeHardenMetadata(m, api, inputs);
            r := IsRunning;
          case Deleted =>
            r := TerminalError("InstanceTerminalState");
          case Stopped =>
            r := TerminalError("InstanceTerminalState");
          case _ =>
            r := Waiting;
        }
    }
    ghost var rest := api.log[|sent|..];
    assert api.log[|old(api.log)|..] == [x] + rest;
    ghost var end := Conclude(m.View(), r);
    if Calling(next) {
      ghost var last := Advance(cfg, inputs, next, rest[0].resp);
      FollowsEnd(cfg, inputs, last);
      FollowsCall(cfg, inputs, next, rest[0], [], last.m, last.pc.verdict);
      assert rest == [rest[0]] + [];
    } else {
      FollowsEnd(cfg, inputs, next);
      assert rest == [];
    }
    FollowsCall(cfg, inputs, p, x, rest, end.m, end.pc.verdict);
  }

  lemma FollowsNothing(cfg: Config, inputs: Inputs, p: Progress, xs: seq<Exchange>, m: Machine, v: Verdict)
    requires p == Progress(m, Returned(v)) && xs == []
    ensures Follows(cfg, inputs, p, xs, m, v)
  {
  }

  lemma FollowsEnd(cfg: Config, inputs: Inputs, p: Progress)
    requires !Calling(p)
    ensures Follows(cfg, inputs, p, [], p.m, p.pc.verdict)
  {
  }

  method SetFailedOn(m: AlibabaCloudMachine, reason: string)
    modifies m`status
    ensures m.View() == SetFailed(old(m.View()), reason)
  {
    m.status := m.status.(failureReason := Some(reason));
    m.status := m.status.(ready := false);
  }

  method ReconcileNormal(m: AlibabaCloudMachine, api: Client, cfg: Config, inputs: Inputs) returns (v: Verdict)
    requires !m.deleting
    modifies m, api
    ensures old(api.log) <= api.log
    ensures Follows(cfg, inputs, StartNormal(cfg, inputs, old(m.View())), api.log[|old(api.log)|..], m.View(), v)
  {
    hide StartCreate, Mismatch, Resolve;
    m.finalizer := true;
    if !inputs.clusterReady {
      return Requeue;
    }
    if !inputs.hasBootstrap {
      return Requeue;
    }
    ResolvedStays(inputs.failureDomain, inputs.zones, m.spec);
    var ok := ResolveFailureDomain(inputs.failureDomain, inputs.zones, m);
    if !ok {
      return Errored;
    }
    var region := ResolveRegion(m.spec.regionID, cfg.clusterRegion);
    if !inputs.clientOk {
      return Errored;
    }
    api.Connect(region);
    var r := FindOrCreateInstance(m, api, cfg, inputs);
    match r {
      case TerminalError(reason) =>
        SetFailedOn(m, reason);
        v := Terminal(reason);
      case PlainError =>
        v := Errored;
      case Waiting =>
        v := Requeue;
      case IsRunning =>
        m.status := m.status.(ready := true);
        m.status := m.status.(provisioned := true);
        v := Finished;
    }
  }

  method ReconcileDelete(m: AlibabaCloudMachine, api: Client, cfg: Config, inputs: Inputs) returns (v: Verdict)
    requires m.deleting
    modifies m, api
    ensures old(api.log) <= api.log
    ensures Follows(cfg, inputs, StartDelete(inputs, old(m.View())), api.log[|old(api.log)|..], m.View(), v)
  {
    hide ProviderInstanceID, RegionFrom, Follows;
    var id := "";
    if m.status.instanceID.Some? {
      id := m.status.instanceID.value;
    } else if m.spec.providerID.Some? {
      id := ProviderInstanceID(m.spec.providerID.value);
    }
    ghost var p := StartDelete(inputs, m.View());
    var region := RegionFrom(m.spec.regionID, m.spec.providerID);
    if id == "" && region.None? {
      m.finalizer := false;
      FollowsNothing(cfg, inputs, p, api.log[|old(api.log)|..], m.View(), Finished);
      return Finished;
    }
    if region.None? {
      FollowsNothing(cfg, inputs, p, api.log[|old(api.log)|..], m.View(), Errored);
      return Errored;
    }
    if m.status.instanceID.None? && id != "" {
      m.status := m.status.(instanceID := Some(id));
    }
    if !inputs.clientOk {
      FollowsNothing(cfg, inputs, p, api.log[|old(api.log)|..], m.View(), Errored);
      return Errored;
    }
    api.Connect(region.value);
    if id == "" {
      v := SweepAndRelease(m, api, cfg, inputs);
      return;
    }
    v := DescribeAndDelete(m, api, cfg, inputs, id);
  }

  /** A recorded instance: poll it, delete it unless it is leaving by itself. */
  method DescribeAndDelete(m: AlibabaCloudMachine, api: Client, cfg: Config, inputs: Inputs, id: string)
    returns (v: Verdict)
    requires m.deleting && RegionFrom(m.spec.regionID, m.spec.providerID) == Some(api.region)
    modifies m`finalizer, m`status, api`log
    ensures old(api.log) <= api.log
    ensures Follows(cfg, inputs, Progress(old(m.View()), AtDescribeForDelete(id)), api.log[|old(api.log)|..],
              m.View(), v)
  {
    hide RegionFrom, Follows;
    ghost var p := Progress(m.View(), AtDescribeForDelete(id));
    var info := api.DescribeInstanceByID(id);
    ghost var x := Exchange(Describe(api.region, id), info);
    ghost var next := Advance(cfg, inputs, p, info);
    ghost var sent := api.log;
    match info {
      case Failed(_) =>
        v := Errored;
      case Absent =>
        v := SweepAndRelease(m, api, cfg, inputs);
      case Present(_, state) =>
        m.status := m.status.(instanceState := Some(state));
        if state == Stopping || state == Deleted {
          v := Requeue;
        } else {
          v := DeleteInstance(m, api, cfg, inputs, id);
        }
    }
    ghost var rest := api.log[|sent|..];
    assert api.log[|old(api.log)|..] == [x] + rest;
    if !Calling(next) {
      FollowsEnd(cfg, inputs, next);
      assert rest == [];
    }
    FollowsCall(cfg, inputs, p, x, rest, m.View(), v);
  }

  /** The whole reconcile: deletion first, since it needs nothing but the object itself. */
  method Reconcile(m: AlibabaCloudMachine, api: Client, cfg: Config, inputs: Inputs) returns (v: Verdict)
    modifies m, api
    ensures old(api.log) <= api.log
    ensures Follows(cfg, inputs, Start(cfg, inputs, old(m.View())), api.log[|old(api.log)|..], m.View(), v)
  {
    hide StartNormal, StartDelete;
    if m.deleting {
      v := ReconcileDelete(m, api, cfg, inputs);
    } else if !inputs.proceed {
      v := Finished;
    } else {
      v := ReconcileNormal(m, api, cfg, inputs);
    }
  }

  /** Nothing recorded is left: sweep by tag before letting go. */
  method SweepAndRelease(m: AlibabaCloudMachine, api: Client, cfg: Config, inputs: Inputs) returns (v: Verdict)
    requires m.deleting && RegionFrom(m.spec.regionID, m.spec.providerID) == Some(api.region)
    modifies m`finalizer, api`log
    ensures old(api.log) <= api.log
    ensures Follows(cfg, inputs, Progress(old(m.View()), AtSweep), api.log[|old(api.log)|..], m.View(), v)
  {
    hide RegionFrom, Follows;
    ghost var p := Progress(m.View(), AtSweep);
    var found := api.FindInstanceByTag(cfg.name);
    ghost var x := Exchange(Find(api.region, cfg.name), found);
    ghost var next := Advance(cfg, inputs, p, found);
    if found.Failed? {
      v := Errored;
    } else if found.id != "" {
      v := DeleteInstance(m, api, cfg, inputs, found.id);
      ghost var rest := api.log[|old(api.log)| + 1..];
      assert api.log[|old(api.log)|..] == [x] + rest;
      FollowsCall(cfg, inputs, p, x, rest, m.View(), v);
      return;
    } else {
      m.finalizer := false;
      v := Finished;
    }
    assert api.log[|old(api.log)|..] == [x] + [];
    FollowsEnd(cfg, inputs, next);
    FollowsCall(cfg, inputs, p, x, [], next.m, next.pc.verdict);
  }

  method DeleteInstance(m: AlibabaCloudMachine, api: Client, cfg: Config, inputs: Inputs, id: string)
    returns (v: Verdict)
    requires m.deleting && RegionFrom(m.spec.regionID, m.spec.providerID) == Some(api.region)
    modifies api`log
    ensures old(api.log) <= api.log
    ensures Follows(cfg, inputs, Progress(m.View(), AtStop(id)), api.log[|old(api.log)|..], m.View(), v)
  {
    hide RegionFrom, Follows;
    ghost var p := Progress(m.View(), AtStop(id));
    var ok := api.DeleteECSInstance(id);
    v := if ok then Requeue else Errored;
    ghost var stopped, released := api.log[|old(api.log)|], api.log[|old(api.log)| + 1];
    ghost var next := Advance(cfg, inputs, p, stopped.resp);
    FollowsEnd(cfg, inputs, Advance(cfg, inputs, next, released.resp));
    FollowsCall(cfg, inputs, next, released, [], m.View(), v);
    FollowsCall(cfg, inputs, p, stopped, [released] + [], m.View(), v);
    assert api.log[|old(api.log)|..] == [stopped] + ([released] + []);
  }
}
