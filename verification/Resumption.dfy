/** The machine controller's reconcile, cut at its cloud calls: `Start` runs up to the first
    call, `Advance` from one answer to the next call, and the verdict ends it. The lifecycle
    interleaves these pieces; the Controller module proves the mutating methods compute them. */
module Resumption {
  import opened Objects
  import opened ProviderIDs
  import opened FailureDomains
  import opened Cloud
  import Retry

  const MACHINE_TAG_KEY := "k8s.io/cluster-api-machine"
  const DEFAULT_HTTP_ENDPOINT := "enabled"
  const DEFAULT_HTTP_TOKENS := "required"

  /** `name` is this object's name, `machineName` the owning Machine's. */
  datatype Config = Config(name: string, machineName: string, clusterName: string, uid: string, clusterRegion: string)

  datatype Offload = Fits | Offloaded | OffloadFailed | TooLarge

  /** Everything one reconcile reads besides the object and the cloud. */
  datatype Inputs = Inputs(
    proceed: bool,          // owner and cluster found, not paused
    clusterReady: bool,
    hasBootstrap: bool,
    failureDomain: string,
    zones: seq<Zone>,
    clientOk: bool,
    secretOk: bool,
    bootImageID: string,
    offload: Offload,
    nodeRef: bool)

  datatype Verdict = Finished | Requeue | Errored | Terminal(reason: string)

  datatype Pc =
    | AtDescribe
    | AtHarden
    | AtFind
    | AtLaunch
    | AtDescribeForDelete(id: string)
    | AtSweep
    | AtStop(id: string)
    | AtRelease(id: string)
    | Returned(verdict: Verdict)

  /** The in-memory object and where its reconcile stands. */
  datatype Progress = Progress(m: Machine, pc: Pc)

  /** The gates before any cloud call stand open for this machine. */
  predicate GatesOpen(inputs: Inputs, m: Machine) {
    && !m.deleting && inputs.proceed && inputs.clusterReady && inputs.hasBootstrap && inputs.clientOk
    && Resolvable(inputs.failureDomain, inputs.zones, m.spec)
  }

  /** And there is something to create an instance from, and none recorded. */
  predicate Creates(inputs: Inputs, m: Machine) {
    && GatesOpen(inputs, m) && m.status.instanceID.None?
    && inputs.secretOk && (m.spec.imageID != "" || inputs.bootImageID != "")
    && (inputs.offload == Fits || inputs.offload == Offloaded)
  }

  // ---------------------------------------------------------------- pure helpers

  function ResolveRegion(regionID: string, clusterRegion: string): string {
    if regionID != "" then regionID else clusterRegion
  }

  function ToSDKTags(tags: seq<Tag>, machineName: string, clusterName: string): seq<Tag> {
    [Tag("kubernetes.io/cluster/" + clusterName, "owned"), Tag(MACHINE_TAG_KEY, machineName)] + tags
  }

  /** The first value under the reserved key: what the create path looks up. */
  function MachineTag(tags: seq<Tag>): string {
    if tags == [] then ""
    else if tags[0].key == MACHINE_TAG_KEY then tags[0].value
    else MachineTag(tags[1..])
  }

  /** The last value under the reserved key: what the cloud keeps when keys repeat. */
  function KeptTag(tags: seq<Tag>): string {
    if tags == [] then ""
    else if tags[|tags| - 1].key == MACHINE_TAG_KEY then tags[|tags| - 1].value
    else KeptTag(tags[..|tags| - 1])
  }

  function ResolveMetadataOptions(o: Option<MetadataOptions>): (string, string, int) {
    match o
    case None => (DEFAULT_HTTP_ENDPOINT, DEFAULT_HTTP_TOKENS, 0)
    case Some(v) =>
      (if v.httpEndpoint != "" then v.httpEndpoint else DEFAULT_HTTP_ENDPOINT,
       if v.httpTokens != "" then v.httpTokens else DEFAULT_HTTP_TOKENS,
       v.hopLimit)
  }

  function SetFailed(m: Machine, reason: string): Machine {
    m.(status := m.status.(failureReason := Some(reason), ready := false))
  }

  function Fail(m: Machine, reason: string): Progress {
    Progress(SetFailed(m, reason), Returned(Terminal(reason)))
  }

  function SetReady(m: Machine): Machine {
    m.(status := m.status.(ready := true, provisioned := true))
  }

  /** The handles createInstance records, for a launched or adopted instance alike. */
  function Record(m: Machine, region: string, id: string): Machine {
    m.(spec := m.spec.(providerID := Some(ProviderIDFor(region, id))),
       status := m.status.(instanceID := Some(id), instanceState := Some(Pending)))
  }

  function SyncStatus(m: Machine, id: string, state: InstanceState): Machine {
    m.(status := m.status.(instanceID := Some(id), instanceState := Some(state)))
  }

  predicate WantsHarden(inputs: Inputs, m: Machine) {
    && m.spec.metadataOptions.Some?
    && m.spec.metadataOptions.value.httpTokensAfterBoot != ""
    && !m.status.metadataHardened
    && inputs.nodeRef
  }

  /** alibabaErrorCode: the code of a server error, or "". */
  function ErrorCode(e: Retry.Error): string { if e.ServerError? then e.code else "" }

  /** By the code alone: the HTTP status, which the retry loop also goes by, plays no part. */
  function ClassifyCreateError(e: Retry.Error): Verdict {
    var code := ErrorCode(e);
    if code == "Invalid.Zone.NotEnoughResource" || code == "InsufficientCapacity" || code == "OperationDenied.NoStock"
    then Terminal("InstanceCapacityExhausted")
    else if code == "Invalid.SpotStrategy.NotSupported" || code == "Invalid.SpotPriceLimit.Exceeded"
    then Terminal("SpotConfigurationRejected")
    else Errored
  }

  /** A failed lookup and a failed launch are classified alike, by the code they carry. */
  function CreateFailed(m: Machine, e: Retry.Error): Progress {
    var verdict := ClassifyCreateError(e);
    if verdict.Terminal? then Fail(m, verdict.reason) else Progress(m, Returned(verdict))
  }

  // ---------------------------------------------------------------- start

  function Start(cfg: Config, inputs: Inputs, m: Machine): Progress {
    if m.deleting then StartDelete(inputs, m)
    else if !inputs.proceed then Progress(m, Returned(Finished))
    else StartNormal(cfg, inputs, m)
  }

  function StartNormal(cfg: Config, inputs: Inputs, m: Machine): Progress {
    var m := m.(finalizer := true);
    if !inputs.clusterReady || !inputs.hasBootstrap then Progress(m, Returned(Requeue))
    else
      var (spec, ok) := Resolve(inputs.failureDomain, inputs.zones, m.spec);
      var m := m.(spec := spec);
      if !ok || !inputs.clientOk then Progress(m, Returned(Errored))
      else if m.status.instanceID.Some? then
        if Mismatch(m) then Fail(m, "ProviderIDInstanceMismatch") else Progress(m, AtDescribe)
      else StartCreate(cfg, inputs, m)
  }

  /** The two handles name different instances. */
  predicate Mismatch(m: Machine)
    requires m.status.instanceID.Some?
  {
    m.spec.providerID.Some? &&
    var named := ProviderInstanceID(m.spec.providerID.value);
    named != "" && named != m.status.instanceID.value
  }

  function StartCreate(cfg: Config, inputs: Inputs, m: Machine): Progress {
    if !inputs.secretOk then Progress(m, Returned(Errored))
    else if m.spec.imageID == "" && inputs.bootImageID == "" then Fail(m, "NoBootImage")
    else
      var m := m.(spec := m.spec.(regionID := ResolveRegion(m.spec.regionID, cfg.clusterRegion)));
      match inputs.offload
      case OffloadFailed => Progress(m, Returned(Errored))
      case TooLarge => Fail(m, "UserDataTooLarge")
      case _ =>
        Progress(m, if MachineTag(ToSDKTags(m.spec.tags, cfg.machineName, cfg.clusterName)) != "" then AtFind
            else AtLaunch)
  }

  /** The instance the delete path acts on; "" when no handle names one. */
  function DeleteHandle(m: Machine): string {
    if m.status.instanceID.Some? then m.status.instanceID.value
    else if m.spec.providerID.Some? then ProviderInstanceID(m.spec.providerID.value)
    else ""
  }

  function StartDelete(inputs: Inputs, m: Machine): Progress {
    var id := DeleteHandle(m);
    var region := RegionFrom(m.spec.regionID, m.spec.providerID);
    if region.None? then
      if id == "" then Progress(m.(finalizer := false), Returned(Finished)) else Progress(m, Returned(Errored))
    else
      var m := if m.status.instanceID.None? && id != "" then m.(status := m.status.(instanceID := Some(id))) else m;
      if !inputs.clientOk then Progress(m, Returned(Errored))
      else Progress(m, if id != "" then AtDescribeForDelete(id) else AtSweep)
  }

  // ---------------------------------------------------------------- calls and answers

  predicate Calling(p: Progress) { !p.pc.Returned? }

  /** The region of the client a reconcile talks to. */
  function ClientRegion(cfg: Config, p: Progress): string {
    if p.m.deleting then RegionFrom(p.m.spec.regionID, p.m.spec.providerID).GetOr("")
    else ResolveRegion(p.m.spec.regionID, cfg.clusterRegion)
  }

  function NextCall(cfg: Config, p: Progress): Call
    requires Calling(p)
  {
    var region := ClientRegion(cfg, p);
    match p.pc
    case AtDescribe => Describe(region, p.m.status.instanceID.GetOr(""))
    case AtHarden =>
      var (endpoint, _, hopLimit) := ResolveMetadataOptions(p.m.spec.metadataOptions);
      Modify(region, p.m.status.instanceID.GetOr(""), endpoint,
             p.m.spec.metadataOptions.GetOr(MetadataOptions("", "", "", 0)).httpTokensAfterBoot, hopLimit)
    case AtFind => Find(region, MachineTag(ToSDKTags(p.m.spec.tags, cfg.machineName, cfg.clusterName)))
    case AtLaunch => Launch(region, cfg.uid, KeptTag(ToSDKTags(p.m.spec.tags, cfg.machineName, cfg.clusterName)))
    case AtDescribeForDelete(id) => Describe(region, id)
    case AtSweep => Find(region, cfg.name)
    case AtStop(id) => Stop(region, id)
    case AtRelease(id) => Release(region, id)
  }

  /** The answers a call can get. */
  predicate Answers(pc: Pc, resp: Response) {
    match pc
    case AtDescribe => resp.Failed? || resp.Absent? || resp.Present?
    case AtHarden => resp.Failed? || resp.Done?
    case AtFind => resp.Failed? || resp.Found?
    case AtLaunch => resp.Failed? || resp.Launched?
    case AtDescribeForDelete(_) => resp.Failed? || resp.Absent? || resp.Present?
    case AtSweep => resp.Failed? || resp.Found?
    case AtStop(_) => resp.Failed? || resp.Done?
    case AtRelease(_) => resp.Failed? || resp.Done?
    case Returned(_) => false
  }

  function Advance(cfg: Config, inputs: Inputs, p: Progress, resp: Response): Progress
    requires Answers(p.pc, resp)
  {
    var m := p.m;
    match p.pc
    case AtDescribe => (
      match resp
      case Failed(_) => Progress(m, Returned(Errored))
      case Absent => Fail(m, "InstanceDisappeared")
      case Present(id, state) => AfterDescribe(cfg, inputs, m, id, state))
    case AtHarden =>
      Progress(SetReady(if resp.Done? then m.(status := m.status.(metadataHardened := true)) else m),
          Returned(Finished))
    case AtFind => (
      match resp
      case Failed(e) => CreateFailed(m, e)
      case Found(id) =>
        if id == "" then Progress(m, AtLaunch) else Progress(Record(m, m.spec.regionID, id), Returned(Requeue)))
    case AtLaunch => (
      match resp
      case Failed(e) => CreateFailed(m, e)
      case Launched(id) => Progress(Record(m, m.spec.regionID, id), Returned(Requeue)))
    case AtDescribeForDelete(id) => (
      match resp
      case Failed(_) => Progress(m, Returned(Errored))
      case Absent => Progress(m, AtSweep)
      case Present(_, state) =>
        var m := m.(status := m.status.(instanceState := Some(state)));
        Progress(m, if state == Stopping || state == Deleted then Returned(Requeue) else AtStop(id)))
    case AtSweep => (
      match resp
      case Failed(_) => Progress(m, Returned(Errored))
      case Found(id) =>
        if id == "" then Progress(m.(finalizer := false), Returned(Finished)) else Progress(m, AtStop(id)))
    case AtStop(id) => Progress(m, AtRelease(id))
    case AtRelease(_) => Progress(m, Returned(if resp.Done? then Requeue else Errored))
  }

  function AfterDescribe(cfg: Config, inputs: Inputs, m: Machine, id: string, state: InstanceState): Progress {
    var healed :=
      if m.spec.providerID.None?
      then m.(spec := m.spec.(providerID := Some(ProviderIDFor(ResolveRegion(m.spec.regionID, cfg.clusterRegion),
                                                                m.status.instanceID.GetOr("")))))
      else m;
    var m := SyncStatus(healed, id, state);
    match state
    case Running => if WantsHarden(inputs, m) then Progress(m, AtHarden) else Progress(SetReady(m), Returned(Finished))
    case Deleted => Fail(m, "InstanceTerminalState")
    case Stopped => Fail(m, "InstanceTerminalState")
    case _ => Progress(m, Returned(Requeue))
  }

  // ---------------------------------------------------------------- the reserved tag

  predicate Reserved(tags: seq<Tag>) { exists t :: t in tags && t.key == MACHINE_TAG_KEY }

  lemma {:induction false} KeptFrom(head: seq<Tag>, tags: seq<Tag>)
    ensures KeptTag(head + tags) == if Reserved(tags) then KeptTag(tags) else KeptTag(head)
  {
    if tags == [] {
      assert head + tags == head;
    } else {
      var n := |tags| - 1;
      assert (head + tags)[..|head| + n] == head + tags[..n];
      assert tags == tags[..n] + [tags[n]];
      KeptFrom(head, tags[..n]);
    }
  }

  /** The lookup uses the machine name whatever the user's tags; the instance itself goes by
      the user's last value under the reserved key, when there is one. */
  lemma ReservedTag(tags: seq<Tag>, machineName: string, clusterName: string)
    ensures MachineTag(ToSDKTags(tags, machineName, clusterName)) == machineName
    ensures KeptTag(ToSDKTags(tags, machineName, clusterName)) ==
              if Reserved(tags) then KeptTag(tags) else machineName
  {
    var sdk := ToSDKTags(tags, machineName, clusterName);
    var cluster := "kubernetes.io/cluster/" + clusterName;
    assert cluster[1] != MACHINE_TAG_KEY[1];
    assert sdk[1..][0] == Tag(MACHINE_TAG_KEY, machineName);
    assert MachineTag(sdk) == MachineTag(sdk[1..]);
    KeptFrom([Tag(cluster, "owned"), Tag(MACHINE_TAG_KEY, machineName)], tags);
  }
}
