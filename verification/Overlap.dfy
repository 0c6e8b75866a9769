/** Controller against webhook when reconciles overlap. With the token honoured every copy names
    the same instance and region, so only what resolution fills in, zone and vSwitch, can make a
    write collide with what another reconcile stored meanwhile. */
module Overlap {
  import opened Objects
  import opened ProviderIDs
  import opened Admission
  import opened FailureDomains
  import opened Cloud
  import opened Resumption
  import opened Lifecycle
  import opened Handles
  import opened Orphans
  import opened Runs
  import opened Necessity
  import Retry

  // ---------------------------------------------------------------- what resolution fills in

  /** The reconcile gets as far as resolving the failure domain. */
  predicate Resolves(inputs: Inputs) { inputs.proceed && inputs.clusterReady && inputs.hasBootstrap }

  /** The zone, or "", that these inputs fill an empty field with. */
  function ZoneOf(inputs: Inputs): string {
    if FindZone(inputs.zones, inputs.failureDomain).Some? then inputs.failureDomain else ""
  }

  /** The vSwitch, or "", that these inputs fill an empty field with. */
  function VSwitchOf(inputs: Inputs): string {
    var zone := FindZone(inputs.zones, inputs.failureDomain);
    if inputs.failureDomain != "" && zone.Some? then zone.value.vSwitchID.GetOr("") else ""
  }

  function Fill(field: string, value: string): string { if field != "" then field else value }

  lemma ResolveFills(inputs: Inputs, spec: MachineSpec)
    ensures Resolve(inputs.failureDomain, inputs.zones, spec).0 ==
              spec.(zoneID := Fill(spec.zoneID, ZoneOf(inputs)), vSwitchID := Fill(spec.vSwitchID, VSwitchOf(inputs)))
  {
  }

  /** The field still is what it was at creation or, if that was empty, has the one value. */
  predicate OneValue(field: string, base: string, value: string) {
    if base != "" then field == base else field == "" || field == value
  }

  predicate Placed(spec: MachineSpec, base: MachineSpec, zone: string, vSwitch: string) {
    OneValue(spec.zoneID, base.zoneID, zone) && OneValue(spec.vSwitchID, base.vSwitchID, vSwitch)
  }

  /** These inputs resolve into the one zone and vSwitch, or fill nothing in. */
  predicate Agree(inputs: Inputs, base: MachineSpec, zone: string, vSwitch: string) {
    Resolves(inputs) ==>
      && (base.zoneID == "" ==> ZoneOf(inputs) == "" || ZoneOf(inputs) == zone)
      && (base.vSwitchID == "" ==> VSwitchOf(inputs) == "" || VSwitchOf(inputs) == vSwitch)
  }

  predicate AllAgree(steps: seq<Step>, base: MachineSpec, zone: string, vSwitch: string) {
    forall k :: 0 <= k < |steps| && steps[k].Begin? ==> Agree(steps[k].inputs, base, zone, vSwitch)
  }

  // ---------------------------------------------------------------- the invariant

  predicate AllPlaced(s: State, base: MachineSpec, zone: string, vSwitch: string) {
    && (s.obj.Some? ==> Placed(s.obj.value.spec, base, zone, vSwitch))
    && forall w :: w in s.workers ==>
         && Placed(s.workers[w].snapshot.spec, base, zone, vSwitch)
         && Placed(s.workers[w].at.m.spec, base, zone, vSwitch)
  }

  lemma StartPlaces(cfg: Config, inputs: Inputs, m: Machine, base: MachineSpec, zone: string, vSwitch: string)
    requires Placed(m.spec, base, zone, vSwitch) && Agree(inputs, base, zone, vSwitch)
    ensures Placed(Start(cfg, inputs, m).m.spec, base, zone, vSwitch)
  {
    hide ProviderInstanceID, ProviderIDFor, RegionFrom, Resolve, ToSDKTags, MachineTag, ZoneOf, VSwitchOf, Mismatch;
    ResolveFills(inputs, m.spec);
  }

  lemma AdvanceKeepsPlace(cfg: Config, inputs: Inputs, p: Progress, resp: Response)
    requires Answers(p.pc, resp)
    ensures var spec := Advance(cfg, inputs, p, resp).m.spec;
            spec.zoneID == p.m.spec.zoneID && spec.vSwitchID == p.m.spec.vSwitchID
  {
    hide ProviderIDFor, WantsHarden, ClassifyCreateError;
  }

  lemma WritePlaces(w: Worker, stored: Machine, base: MachineSpec, zone: string, vSwitch: string)
    requires Placed(stored.spec, base, zone, vSwitch) && Placed(w.at.m.spec, base, zone, vSwitch)
    ensures WriteSpec(w, stored).Some? ==> Placed(WriteSpec(w, stored).value.spec, base, zone, vSwitch)
  {
    hide ValidSpec, Immutable;
  }

  lemma PlacedStep(wd: World, s: State, step: Step, base: MachineSpec, zone: string, vSwitch: string)
    requires Base(wd, s) && AllPlaced(s, base, zone, vSwitch) && Enabled(wd, s, step)
    requires step.Begin? ==> Agree(step.inputs, base, zone, vSwitch)
    ensures AllPlaced(Next(wd, s, step), base, zone, vSwitch)
  {
    hide Start, Advance, Perform, Allowed, NextCall, MachineOk, PcOk, KeepsSpec, WriteSpec, Admits, OneValue, Agree;
    match step {
      case Begin(_, inputs) =>
        StartPlaces(wd.cfg, inputs, s.obj.value, base, zone, vSwitch);
      case Answer(w, o) =>
        PerformOk(wd, s.fleet, s.workers[w].at, o);
        AdvanceKeepsPlace(wd.cfg, s.workers[w].inputs, s.workers[w].at,
                          Perform(s.fleet, NextCall(wd.cfg, s.workers[w].at), o).1);
      case PatchSpec(w, _) =>
        if s.obj.Some? { WritePlaces(s.workers[w], s.obj.value, base, zone, vSwitch); }
      case _ =>
    }
  }

  lemma {:induction false} PlacedRun(wd: World, s: State, steps: seq<Step>, base: MachineSpec, zone: string,
                                     vSwitch: string)
    requires Base(wd, s) && AllPlaced(s, base, zone, vSwitch) && Valid(wd, s, steps)
    requires AllAgree(steps, base, zone, vSwitch)
    ensures AllPlaced(Run(wd, s, steps), base, zone, vSwitch)
    decreases |steps|
  {
    hide Base, Enabled, Next, AllPlaced, Agree;
    if steps != [] {
      BaseStep(wd, s, steps[0]);
      PlacedStep(wd, s, steps[0], base, zone, vSwitch);
      PlacedRun(wd, Next(wd, s, steps[0]), steps[1..], base, zone, vSwitch);
    }
  }

  /** A pending write collides with nothing when one instance, region, zone and vSwitch are in play. */
  lemma PlacedAdmitted(wd: World, s: State, w: nat, base: MachineSpec, zone: string, vSwitch: string)
    requires Base(wd, s) && OneEver(wd, s.fleet) && AllPlaced(s, base, zone, vSwitch)
    requires s.obj.Some? && w in s.workers && !s.workers[w].specDone
    ensures Admits(s.obj.value.spec, MergedSpec(s.workers[w], s.obj.value.spec))
  {
    hide FleetOk, PcOk, ProviderIDFor, ProviderInstanceID;
    var stored, worker := s.obj.value.spec, s.workers[w];
    var merged := MergedSpec(worker, stored);
    assert DefaultSpec(merged) == merged;
    assert ValidSpec(merged);
    assert stored.providerID.Some? && merged.providerID.Some? ==> stored.providerID == merged.providerID;
  }

  /** The controller never writes a spec the webhook rejects, however reconciles overlap, writes
      are lost and listings lag: with the token honoured, every pending metadata and spec write of
      every reachable state is admitted, provided all reconciles resolve into one zone and vSwitch. */
  lemma NeverRejected(wd: World, s0: State, steps: seq<Step>, zone: string, vSwitch: string, w: nat)
    requires Init(wd, s0) && Valid(wd, s0, steps) && wd.env.tokens
    requires AllAgree(steps, s0.obj.value.spec, zone, vSwitch)
    requires var s := Run(wd, s0, steps);
             s.obj.Some? && w in s.workers && !s.workers[w].specDone
    ensures var s := Run(wd, s0, steps);
            Admits(s.obj.value.spec, MergedSpec(s.workers[w], s.obj.value.spec))
  {
    hide Valid, Run, AllAgree, Admits, MergedSpec;
    InitBase(wd, s0);
    TokenRun(wd, s0, steps);
    PlacedRun(wd, s0, steps, s0.obj.value.spec, zone, vSwitch);
    PlacedAdmitted(wd, Run(wd, s0, steps), w, s0.obj.value.spec, zone, vSwitch);
  }

  // ---------------------------------------------------------------- exactness

  /** An empty field that two reconciles fill with different values. */
  predicate Collide(base: string, a: string, b: string) { base == "" && a != "" && b != "" && a != b }

  /** No two of the inputs resolve an empty field of the spec to different values. */
  predicate Compatible(menu: set<Inputs>, base: MachineSpec) {
    forall i, j :: i in menu && j in menu && Resolves(i) && Resolves(j) ==>
      && !Collide(base.zoneID, ZoneOf(i), ZoneOf(j))
      && !Collide(base.vSwitchID, VSwitchOf(i), VSwitchOf(j))
  }

  /** Worker w stands before a metadata and spec write that admission rejects. */
  predicate Rejected(s: State, w: nat) {
    && s.obj.Some? && w in s.workers && !Calling(s.workers[w].at) && !s.workers[w].specDone
    && !Admits(s.obj.value.spec, MergedSpec(s.workers[w], s.obj.value.spec))
  }

  lemma CommonPlace(menu: set<Inputs>, base: MachineSpec) returns (zone: string, vSwitch: string)
    requires Compatible(menu, base)
    ensures forall i :: i in menu ==> Agree(i, base, zone, vSwitch)
  {
    hide ZoneOf, VSwitchOf;
    zone, vSwitch := "", "";
    if i :| i in menu && Resolves(i) && ZoneOf(i) != "" {
      zone := ZoneOf(i);
    }
    if i :| i in menu && Resolves(i) && VSwitchOf(i) != "" {
      vSwitch := VSwitchOf(i);
    }
  }

  /** A reconcile of an object without an instance fills in its place, then returns or looks up. */
  lemma BeginFills(wd: World, s: State, w: nat, inputs: Inputs)
    requires Base(wd, s) && s.obj.Some? && !s.obj.value.deleting && s.obj.value.status.instanceID.None?
    requires w !in s.workers && !wd.env.serial && Resolves(inputs)
    ensures Enabled(wd, s, Begin(w, inputs))
    ensures var t := Next(wd, s, Begin(w, inputs)); var (m, p) := (s.obj.value, t.workers[w].at);
            && (p.pc == AtFind || p.pc.Returned?)
            && p.m.spec.zoneID == Fill(m.spec.zoneID, ZoneOf(inputs))
            && p.m.spec.vSwitchID == Fill(m.spec.vSwitchID, VSwitchOf(inputs))
            && t.obj == s.obj && t.fleet == s.fleet && t.workers == s.workers[w := Worker(inputs, m, p, false)]
  {
    hide ProviderInstanceID, ProviderIDFor, RegionFrom, Resolve, ToSDKTags, MachineTag, MachineOk, ZoneOf, VSwitchOf;
    ResolveFills(inputs, s.obj.value.spec);
    StartLooksFirst(wd.cfg, inputs, s.obj.value);
  }

  /** Let worker w, if it looks up, fail to. */
  lemma Finish(wd: World, s0: State, before: seq<Step>, s: State, w: nat, menu: set<Inputs>)
    returns (steps: seq<Step>, t: State)
    requires Reached(wd, s0, before, s) && DrawnFrom(before, menu) && w in s.workers
    requires s.workers[w].at.pc == AtFind || s.workers[w].at.pc.Returned?
    ensures Reached(wd, s0, steps, t) && DrawnFrom(steps, menu)
    ensures t.obj == s.obj && t.workers.Keys == s.workers.Keys
    ensures forall v :: v in s.workers && v != w ==> t.workers[v] == s.workers[v]
    ensures var (a, b) := (s.workers[w], t.workers[w]);
            b == a.(at := b.at) && b.at.m == a.at.m && !Calling(b.at)
  {
    hide Enabled, Next, Base, Valid, Run, GuardedRun, DrawnFrom, CreateFailed;
    steps, t := before, s;
    if s.workers[w].at.pc == AtFind {
      var fail := Answer(w, Refused(Retry.OtherError));
      LookupFails(wd, s, w, Retry.OtherError);
      PlainFailure(s.workers[w].at.m);
      DrawnAppend(before, fail, menu);
      Go(wd, s0, before, s, fail);
      steps, t := before + [fail], Next(wd, s, fail);
    }
  }

  /** A write over the very object it was computed from is admitted and stores the copy's spec. */
  lemma OwnWriteLands(wd: World, s: State, w: nat)
    requires Base(wd, s) && w in s.workers && s.obj.Some? && !s.obj.value.deleting
    requires s.workers[w].snapshot == s.obj.value && s.obj.value.spec.providerID.None?
    ensures var m := WriteSpec(s.workers[w], s.obj.value);
            m.Some? && m.value.spec == s.workers[w].at.m.spec
  {
    hide MachineOk, FleetOk, PcOk;
    var worker := s.workers[w];
    assert MergedSpec(worker, s.obj.value.spec) == worker.at.m.spec;
    assert DefaultSpec(worker.at.m.spec) == worker.at.m.spec;
  }

  /** Two overlapping reconciles that fill an empty field differently: the second write is rejected. */
  lemma CollisionRejected(wd: World, s0: State, i: Inputs, j: Inputs) returns (steps: seq<Step>)
    requires Init(wd, s0) && !wd.env.serial && Resolves(i) && Resolves(j)
    requires Collide(s0.obj.value.spec.zoneID, ZoneOf(i), ZoneOf(j)) ||
             Collide(s0.obj.value.spec.vSwitchID, VSwitchOf(i), VSwitchOf(j))
    ensures Valid(wd, s0, steps) && DrawnFrom(steps, {i, j}) && Rejected(Run(wd, s0, steps), 1)
  {
    var s;
    Fresh(wd, s0);
    steps, s := BothFilled(wd, s0, i, j);
    hide Base, Valid, Run, GuardedRun, ZoneOf, VSwitchOf, Init, Admits, MergedSpec, Start, Advance, Perform, Allowed,
      NextCall, WriteSpec, Resolves, DrawnFrom;
    OwnWriteLands(wd, s, 0);
    Go(wd, s0, steps, s, PatchSpec(0, true));
    DrawnAppend(steps, PatchSpec(0, true), {i, j});
    steps, s := steps + [PatchSpec(0, true)], Next(wd, s, PatchSpec(0, true));
    Differs(s.workers[1], s.obj.value.spec);
  }

  /** Worker w read the stored object and filled in what these inputs resolve to. */
  predicate Filled(s: State, w: nat, inputs: Inputs) {
    && s.obj.Some? && w in s.workers
    && var (m, worker) := (s.obj.value, s.workers[w]);
       && worker.snapshot == m && !worker.specDone
       && worker.at.m.spec.zoneID == Fill(m.spec.zoneID, ZoneOf(inputs))
       && worker.at.m.spec.vSwitchID == Fill(m.spec.vSwitchID, VSwitchOf(inputs))
  }

  lemma BothBegun(wd: World, s0: State, before: seq<Step>, s: State, i: Inputs, j: Inputs)
    returns (steps: seq<Step>, t: State)
    requires Reached(wd, s0, before, s) && DrawnFrom(before, {i, j}) && s.workers == map[]
    requires s.obj.Some? && !s.obj.value.deleting && s.obj.value.status.instanceID.None?
    requires !wd.env.serial && Resolves(i) && Resolves(j)
    ensures Reached(wd, s0, steps, t) && DrawnFrom(steps, {i, j})
    ensures t.obj == s.obj && t.workers.Keys == {0, 1} && Filled(t, 0, i) && Filled(t, 1, j)
    ensures forall w :: w in t.workers ==> t.workers[w].at.pc == AtFind || t.workers[w].at.pc.Returned?
  {
    hide Base, Valid, Run, GuardedRun, ZoneOf, VSwitchOf, Enabled, Next, Resolves, Fill, DrawnFrom;
    BeginFills(wd, s, 0, i);
    DrawnAppend(before, Begin(0, i), {i, j});
    Go(wd, s0, before, s, Begin(0, i));
    steps, t := before + [Begin(0, i)], Next(wd, s, Begin(0, i));
    BeginFills(wd, t, 1, j);
    Go(wd, s0, steps, t, Begin(1, j));
    DrawnAppend(steps, Begin(1, j), {i, j});
    steps, t := steps + [Begin(1, j)], Next(wd, t, Begin(1, j));
  }

  /** Two reconciles of a fresh object, both finished and neither written. */
  lemma BothFilled(wd: World, s0: State, i: Inputs, j: Inputs) returns (steps: seq<Step>, s: State)
    requires Init(wd, s0) && !wd.env.serial && Resolves(i) && Resolves(j)
    ensures Reached(wd, s0, steps, s) && DrawnFrom(steps, {i, j})
    ensures s.obj == s0.obj && s.workers.Keys == {0, 1} && Filled(s, 0, i) && Filled(s, 1, j)
    ensures !Calling(s.workers[0].at) && !Calling(s.workers[1].at)
  {
    Fresh(wd, s0);
    InitBase(wd, s0);
    NoGuards(wd, s0);
    NoneDrawn({i, j});
    hide Reached, Base, ZoneOf, VSwitchOf, Resolves, Fill, DrawnFrom, Init;
    steps, s := BothBegun(wd, s0, [], s0, i, j);
    steps, s := Finish(wd, s0, steps, s, 0, {i, j});
    steps, s := Finish(wd, s0, steps, s, 1, {i, j});
  }

  lemma Fresh(wd: World, s0: State)
    requires Init(wd, s0)
    ensures s0.obj.Some? && !s0.obj.value.deleting && s0.obj.value.spec.providerID.None?
    ensures s0.obj.value.status.instanceID.None? && s0.workers == map[]
  {
  }

  lemma Differs(w: Worker, stored: MachineSpec)
    requires
      || Collide(w.snapshot.spec.zoneID, stored.zoneID, w.at.m.spec.zoneID)
      || Collide(w.snapshot.spec.vSwitchID, stored.vSwitchID, w.at.m.spec.vSwitchID)
    ensures !Admits(stored, MergedSpec(w, stored))
  {
    hide ValidSpec;
  }

  /** Without the token a create repeated after a lost status write names a second instance. */
  lemma TokenlessRejected(wd: World, s0: State, inputs: Inputs) returns (steps: seq<Step>)
    requires Init(wd, s0) && Creates(inputs, s0.obj.value) && !wd.env.tokens
    ensures Valid(wd, s0, steps) && DrawnFrom(steps, {inputs}) && Rejected(Run(wd, s0, steps), 0)
  {
    var a, s;
    steps, s, a := SpecOnly(wd, s0, inputs);
    hide Base, Creates, NoneLive, NewID, TokenUsed, Init, ProviderIDFor, Enabled, Next, Valid, Run, DrawnFrom, Admits,
      MergedSpec;
    var b := FreshID(s.fleet);
    assert a != b by { NewIsNew(s.fleet, b); }
    var more := [Begin(0, inputs), Answer(0, EMPTY), Answer(0, Creating(true, b))];
    PassDrawn(inputs, b);
    DrawnConcat(steps, more, {inputs});
    steps, s := CreatePass(wd, s0, steps, s, inputs, b);
    SecondRefused(wd, s, a, b);
  }

  lemma PassDrawn(inputs: Inputs, id: string)
    ensures DrawnFrom([Begin(0, inputs), Answer(0, EMPTY), Answer(0, Creating(true, id))], {inputs})
  {
  }

  lemma SecondRefused(wd: World, s: State, a: string, b: string)
    requires Base(wd, s) && s.workers.Keys == {0} && s.obj.Some? && !s.workers[0].specDone
    requires s.workers[0].snapshot == s.obj.value && a in s.fleet && b in s.fleet && a != b
    requires s.obj.value.spec.providerID == Some(ProviderIDFor(wd.region, a))
    requires s.workers[0].at.m.spec.providerID == Some(ProviderIDFor(wd.region, b))
    ensures !Admits(s.obj.value.spec, MergedSpec(s.workers[0], s.obj.value.spec))
  {
    hide ProviderIDFor, ProviderInstanceID, PcOk, MachineOk, Admits;
    HandleReads(wd, a);
    HandleReads(wd, b);
    AdmittedExactly(wd, s, 0);
  }

  /** Runs over these inputs, one of which creates, never stand before a rejected write exactly when
      the token is honoured and either reconciles are serial or no two of the inputs resolve an
      empty zone or vSwitch differently. */
  lemma NeverRejectedExactly(wd: World, s0: State, menu: set<Inputs>, inputs: Inputs)
    requires Init(wd, s0) && inputs in menu && Creates(inputs, s0.obj.value)
    ensures wd.env.tokens && (wd.env.serial || Compatible(menu, s0.obj.value.spec)) <==>
              forall steps, w :: Valid(wd, s0, steps) && DrawnFrom(steps, menu) ==> !Rejected(Run(wd, s0, steps), w)
  {
    var base := s0.obj.value.spec;
    hide Valid, Run, Admits, MergedSpec, Init, Creates, Compatible, DrawnFrom;
    if wd.env.tokens && (wd.env.serial || Compatible(menu, base)) {
      forall steps, w | Valid(wd, s0, steps) && DrawnFrom(steps, menu) ensures !Rejected(Run(wd, s0, steps), w) {
        NoneRejected(wd, s0, menu, steps, w);
      }
    } else {
      var steps, w := SomeRejected(wd, s0, menu, inputs);
      assert Rejected(Run(wd, s0, steps), w);
    }
  }

  lemma NoneRejected(wd: World, s0: State, menu: set<Inputs>, steps: seq<Step>, w: nat)
    requires Init(wd, s0) && wd.env.tokens && (wd.env.serial || Compatible(menu, s0.obj.value.spec))
    requires Valid(wd, s0, steps) && DrawnFrom(steps, menu)
    ensures !Rejected(Run(wd, s0, steps), w)
  {
    var base := s0.obj.value.spec;
    hide Valid, Run, Admits, MergedSpec, Init, Agree;
    var s := Run(wd, s0, steps);
    if s.obj.Some? && w in s.workers && !s.workers[w].specDone {
      if wd.env.serial {
        SerialNeverRejected(wd, s0, steps, w);
      } else {
        var zone, vSwitch := CommonPlace(menu, base);
        NeverRejected(wd, s0, steps, zone, vSwitch, w);
      }
    }
  }

  lemma SomeRejected(wd: World, s0: State, menu: set<Inputs>, inputs: Inputs) returns (steps: seq<Step>, w: nat)
    requires Init(wd, s0) && inputs in menu && Creates(inputs, s0.obj.value)
    requires !(wd.env.tokens && (wd.env.serial || Compatible(menu, s0.obj.value.spec)))
    ensures Valid(wd, s0, steps) && DrawnFrom(steps, menu) && Rejected(Run(wd, s0, steps), w)
  {
    var base := s0.obj.value.spec;
    hide Valid, Run, Init, Creates, Collide, ZoneOf, VSwitchOf, Resolves, Rejected;
    if !wd.env.tokens {
      steps := TokenlessRejected(wd, s0, inputs);
      w := 0;
    } else {
      var i, j :| i in menu && j in menu && Resolves(i) && Resolves(j) &&
        (Collide(base.zoneID, ZoneOf(i), ZoneOf(j)) || Collide(base.vSwitchID, VSwitchOf(i), VSwitchOf(j)));
      steps := CollisionRejected(wd, s0, i, j);
      w := 1;
    }
  }
}
