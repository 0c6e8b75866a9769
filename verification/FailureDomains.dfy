/** Failure domains: validated on the cluster spec, projected into the cluster status,
    and looked up by the machine controller. */
module FailureDomains {
  import opened Objects
  import opened MachineObjects

  datatype FailureDomain = FailureDomain(zoneID: string, vSwitchID: string)

  /** A published failure domain; the vSwitch is an attribute and may be absent. */
  datatype Zone = Zone(name: string, vSwitchID: Option<string>)

  class AlibabaCloudCluster {
    var region: string
    var endpointHost: string
    var endpointPort: int
    var failureDomains: seq<FailureDomain>
    var zones: seq<Zone>

    /** reconcileFailureDomains: an empty list leaves the published zones alone. */
    method ReconcileFailureDomains()
      modifies this`zones
      ensures failureDomains == [] ==> zones == old(zones)
      ensures failureDomains != [] ==> zones == Published(failureDomains)
    {
      if |failureDomains| == 0 {
        return;
      }
      var fds: seq<Zone> := [];
      for i := 0 to |failureDomains|
        invariant fds == Published(failureDomains[..i])
      {
        fds := fds + [Zone(failureDomains[i].zoneID, Some(failureDomains[i].vSwitchID))];
        assert failureDomains[..i + 1] == failureDomains[..i] + [failureDomains[i]];
      }
      assert failureDomains[..|failureDomains|] == failureDomains;
      zones := fds;
    }
  }

  function Published(fds: seq<FailureDomain>): (zones: seq<Zone>)
    ensures |zones| == |fds|
    ensures forall i :: 0 <= i < |fds| ==> zones[i] == Zone(fds[i].zoneID, Some(fds[i].vSwitchID))
  {
    seq(|fds|, i requires 0 <= i < |fds| => Zone(fds[i].zoneID, Some(fds[i].vSwitchID)))
  }

  predicate EndpointOk(host: string, port: int) {
    (host == "" && port == 0) || (host != "" && 0 < port <= 65535)
  }

  /** Every zone named, named once, and given a vSwitch. */
  predicate DomainsOk(fds: seq<FailureDomain>) {
    && (forall i :: 0 <= i < |fds| ==> !Blank(fds[i].zoneID) && !Blank(fds[i].vSwitchID))
    && (forall i, j :: 0 <= i < j < |fds| ==> fds[i].zoneID != fds[j].zoneID)
  }

  method ValidateFailureDomains(fds: seq<FailureDomain>) returns (errs: nat)
    ensures errs == 0 <==> DomainsOk(fds)
    ensures errs == 0 <==>
              && (forall fd :: fd in fds ==> !Blank(fd.zoneID) && !Blank(fd.vSwitchID))
              && (forall i, j :: 0 <= i < j < |fds| ==> fds[i].zoneID != fds[j].zoneID)
  {
    hide Blank;
    errs := 0;
    var seen: set<string> := {};
    for i := 0 to |fds|
      invariant forall z :: z in seen ==> !Blank(z) && exists j :: 0 <= j < i && fds[j].zoneID == z
      invariant forall j :: 0 <= j < i && !Blank(fds[j].zoneID) ==> fds[j].zoneID in seen
      invariant errs == 0 <==>
                && (forall j :: 0 <= j < i ==> !Blank(fds[j].zoneID) && !Blank(fds[j].vSwitchID))
                && (forall j, k :: 0 <= j < k < i ==> fds[j].zoneID != fds[k].zoneID)
    {
      if Blank(fds[i].zoneID) {
        errs := errs + 1;
      } else if fds[i].zoneID in seen {
        errs := errs + 1;
      } else {
        seen := seen + {fds[i].zoneID};
      }
      if Blank(fds[i].vSwitchID) {
        errs := errs + 1;
      }
    }
  }

  method ValidateClusterSpec(c: AlibabaCloudCluster) returns (errs: nat)
    ensures errs == 0 <==>
              !Blank(c.region) && EndpointOk(c.endpointHost, c.endpointPort) && DomainsOk(c.failureDomains)
    ensures errs == 0 ==> (c.endpointHost == "" <==> c.endpointPort == 0) && 0 <= c.endpointPort < 65536
  {
    errs := 0;
    if Blank(c.region) {
      errs := errs + 1;
    }
    if c.endpointHost != "" || c.endpointPort != 0 {
      if c.endpointHost == "" {
        errs := errs + 1;
      }
      if c.endpointPort <= 0 || c.endpointPort > 65535 {
        errs := errs + 1;
      }
    }
    var more := ValidateFailureDomains(c.failureDomains);
    errs := errs + more;
  }

  /** The region of a cluster never changes, which is what lets a machine that names none rely on it. */
  method ValidateClusterUpdate(before: AlibabaCloudCluster, after: AlibabaCloudCluster) returns (errs: nat)
    ensures errs == 0 <==>
              && !Blank(after.region) && EndpointOk(after.endpointHost, after.endpointPort)
                  && DomainsOk(after.failureDomains)
              && before.region == after.region
  {
    hide Blank, EndpointOk, DomainsOk;
    errs := ValidateClusterSpec(after);
    if before.region != after.region {
      errs := errs + 1;
    }
  }

  // ---------------------------------------------------------------- resolution

  /** The k-th zone is the first of that name. */
  predicate FirstNamed(zones: seq<Zone>, name: string, k: int) {
    0 <= k < |zones| && zones[k].name == name && forall j :: 0 <= j < k ==> zones[j].name != name
  }

  /** A machine that wants no failure domain can be placed as it is; else a zone of that name must
      be published, and a vSwitch come from the machine or from the first such zone. */
  predicate Resolvable(wanted: string, zones: seq<Zone>, spec: MachineSpec) {
    wanted == "" ||
    exists k :: 0 <= k < |zones| && FirstNamed(zones, wanted, k) &&
      (spec.vSwitchID != "" || (zones[k].vSwitchID.Some? && zones[k].vSwitchID.value != ""))
  }

  /** The first zone with the given name. */
  function FindZone(zones: seq<Zone>, name: string): (r: Option<Zone>)
    ensures r.Some? ==> r.value in zones && r.value.name == name
    ensures r.None? <==> forall z :: z in zones ==> z.name != name
  {
    if zones == [] then None
    else if zones[0].name == name then Some(zones[0])
    else FindZone(zones[1..], name)
  }

  /** resolveFailureDomain: the updated spec and whether it succeeded. The zone is already
      written when a missing vSwitch makes it fail. */
  function Resolve(wanted: string, zones: seq<Zone>, spec: MachineSpec): (MachineSpec, bool) {
    if wanted == "" then (spec, true)
    else match FindZone(zones, wanted)
      case None => (spec, false)
      case Some(zone) =>
        var zoned := if spec.zoneID == "" then spec.(zoneID := wanted) else spec;
        if zoned.vSwitchID != "" then (zoned, true)
        else if zone.vSwitchID.None? || zone.vSwitchID.value == "" then (zoned, false)
        else (zoned.(vSwitchID := zone.vSwitchID.value), true)
  }

  method ResolveFailureDomain(wanted: string, zones: seq<Zone>, m: AlibabaCloudMachine) returns (ok: bool)
    modifies m`spec
    ensures (m.spec, ok) == Resolve(wanted, zones, old(m.spec))
    ensures ok <==> Resolvable(wanted, zones, old(m.spec))
    ensures wanted == "" || (forall z :: z in zones ==> z.name != wanted) ==> m.spec == old(m.spec)
  {
    ResolvesExactly(wanted, zones, m.spec);
    if wanted == "" {
      return true;
    }
    var fd: Option<Zone> := None;
    var i := 0;
    while i < |zones| && fd.None?
      invariant i <= |zones|
      invariant fd.None? ==> FindZone(zones, wanted) == FindZone(zones[i..], wanted)
      invariant fd.Some? ==> FindZone(zones, wanted) == fd
    {
      if zones[i].name == wanted {
        fd := Some(zones[i]);
      }
      i := i + 1;
    }
    if fd.None? {
      return false;
    }
    if m.spec.zoneID == "" {
      m.spec := m.spec.(zoneID := wanted);
    }
    if m.spec.vSwitchID == "" {
      if fd.value.vSwitchID.None? || fd.value.vSwitchID.value == "" {
        return false;
      }
      m.spec := m.spec.(vSwitchID := fd.value.vSwitchID.value);
    }
    return true;
  }

  lemma FirstIsOne(zones: seq<Zone>, name: string, j: int, k: int)
    requires FirstNamed(zones, name, j) && FirstNamed(zones, name, k)
    ensures j == k
  {
    if j != k {
      assert false;
    }
  }

  lemma {:induction false} FindsFirst(zones: seq<Zone>, name: string, k: int)
    requires FirstNamed(zones, name, k)
    ensures FindZone(zones, name) == Some(zones[k])
  {
    if k > 0 {
      assert zones[0].name != name;
      FindsFirst(zones[1..], name, k - 1);
    }
  }

  lemma {:induction false} SomeFirst(zones: seq<Zone>, name: string) returns (k: nat)
    requires exists z :: z in zones && z.name == name
    ensures FirstNamed(zones, name, k)
  {
    k := 0;
    if zones[0].name != name {
      k := SomeFirst(zones[1..], name);
      k := k + 1;
    }
  }

  /** What resolution does to any spec against any published zones: exactly the resolvable succeed,
      without a wanted or a published domain nothing changes, and the first zone of the name fills
      in what is empty, the zone even when its vSwitch is missing. */
  lemma ResolvesExactly(wanted: string, zones: seq<Zone>, spec: MachineSpec)
    ensures var (resolved, ok) := Resolve(wanted, zones, spec);
            && (ok <==> Resolvable(wanted, zones, spec))
            && (wanted == "" || (forall z :: z in zones ==> z.name != wanted) ==> resolved == spec)
            && (forall k :: wanted != "" && FirstNamed(zones, wanted, k) ==>
                  resolved == spec.(
                    zoneID := if spec.zoneID != "" then spec.zoneID else wanted,
                    vSwitchID := if spec.vSwitchID != "" then spec.vSwitchID
                                 else if zones[k].vSwitchID.Some? then zones[k].vSwitchID.value else ""))
  {
    if wanted != "" {
      if z :| z in zones && z.name == wanted {
        var k := SomeFirst(zones, wanted);
        FindsFirst(zones, wanted, k);
        forall j | FirstNamed(zones, wanted, j) ensures j == k {
          FirstIsOne(zones, wanted, j, k);
        }
      }
    }
  }

  lemma {:induction false} FindUnique(zones: seq<Zone>, k: nat)
    requires k < |zones|
    requires forall i, j :: 0 <= i < j < |zones| ==> zones[i].name != zones[j].name
    ensures FindZone(zones, zones[k].name) == Some(zones[k])
  {
    if k > 0 {
      FindUnique(zones[1..], k - 1);
    }
  }

  /** Validation, projection and resolution compose to a lookup in the cluster spec: a listed
      zone resolves to its own vSwitch, set values are kept, and exactly the unlisted zones fail. */
  lemma PipelineIsLookup(fds: seq<FailureDomain>, wanted: string, spec: MachineSpec)
    requires DomainsOk(fds) && wanted != ""
    ensures var (resolved, ok) := Resolve(wanted, Published(fds), spec);
            && (ok <==> exists fd :: fd in fds && fd.zoneID == wanted)
            && (!ok ==> resolved == spec)
            && (ok ==> forall fd :: fd in fds && fd.zoneID == wanted ==>
                  resolved == spec.(zoneID := if spec.zoneID == "" then wanted else spec.zoneID,
                                    vSwitchID := if spec.vSwitchID == "" then fd.vSwitchID else spec.vSwitchID))
  {
    var zones := Published(fds);
    if k :| 0 <= k < |fds| && fds[k].zoneID == wanted {
      FindUnique(zones, k);
      assert !Blank("") ==> false;
      assert fds[k].vSwitchID != "";
      assert fds[k] in fds;
      assert forall fd :: fd in fds && fd.zoneID == wanted ==> fd == fds[k];
    }
  }

  /** Resolving again, against whatever is published then, never moves a resolved value. */
  lemma ResolvedStays(wanted: string, zones: seq<Zone>, spec: MachineSpec)
    ensures var resolved := Resolve(wanted, zones, spec).0;
            && (spec.zoneID != "" ==> resolved.zoneID == spec.zoneID)
            && (spec.vSwitchID != "" ==> resolved.vSwitchID == spec.vSwitchID)
            && resolved == spec.(zoneID := resolved.zoneID, vSwitchID := resolved.vSwitchID)
  {
  }
}
