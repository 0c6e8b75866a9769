/** The API objects the controller, the webhook and the CSR gate share. */
module Objects {
  datatype Option<+T> = None | Some(value: T) {
    function GetOr(default: T): T { if Some? then value else default }
  }

  /** The states the cloud reports for an instance. */
  datatype InstanceState = Pending | Starting | Running | Stopping | Stopped | Deleted

  datatype SystemDisk = SystemDisk(
    category: string, size: int, performanceLevel: string, encrypted: Option<bool>, kmsKeyID: string)

  datatype DataDisk = DataDisk(
    category: string, size: int, name: string, performanceLevel: string, encrypted: Option<bool>, kmsKeyID: string)

  datatype Tag = Tag(key: string, value: string)

  datatype MetadataOptions = MetadataOptions(
    httpEndpoint: string, httpTokens: string, httpTokensAfterBoot: string, hopLimit: int)

  datatype MachineSpec = MachineSpec(
    providerID: Option<string>,
    instanceType: string,
    imageID: string,
    regionID: string,
    zoneID: string,
    vSwitchID: string,
    systemDisk: Option<SystemDisk>,
    dataDisks: seq<DataDisk>,
    spotStrategy: string,
    spotPriceLimit: Option<real>,
    tags: seq<Tag>,
    metadataOptions: Option<MetadataOptions>)

  datatype MachineStatus = MachineStatus(
    ready: bool,
    provisioned: bool,
    instanceID: Option<string>,
    instanceState: Option<InstanceState>,
    metadataHardened: bool,
    failureReason: Option<string>)

  /** An AlibabaCloudMachine, stored or in memory. */
  datatype Machine = Machine(finalizer: bool, deleting: bool, spec: MachineSpec, status: MachineStatus)

  /** The white space of Unicode, as strings.TrimSpace removes it. */
  predicate Space(c: char) {
    var n := c as int;
    || 9 <= n <= 13 || n == 0x20 || n == 0x85 || n == 0xA0 || n == 0x1680
    || 0x2000 <= n <= 0x200A || n == 0x2028 || n == 0x2029 || n == 0x202F || n == 0x205F || n == 0x3000
  }

  /** strings.TrimSpace(s) == "". */
  predicate Blank(s: string) { forall k :: 0 <= k < |s| ==> Space(s[k]) }
}
