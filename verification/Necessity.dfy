/** Each guarantee over runs holds exactly under its promise: for every promise the runs that
    break the guarantee without it, one live instance, agreeing handles, no orphan, hardening once,
    and the state in which a deletion is stuck. Rejected writes are the subject of Overlap. */
module Necessity {
  import opened Objects
  import opened ProviderIDs
  import opened Admission
  import opened FailureDomains
  import opened Cloud
  import opened Resumption
  import opened Lifecycle
  import opened Handles
  import opened Orphans
  import opened Runs
  import Drain
  import Histories

  // ---------------------------------------------------------------- the anchoring write

  /** No orphan needs its guard from the very first create on: a crash between the launch and
      the write that would store finalizer and region, then a plain delete request, leave the
      instance behind. */
  lemma FirstCrashOrphans(wd: World, s0: State, inputs: Inputs) returns (before: seq<Step>, after: seq<Step>)
    requires Init(wd, s0) && wd.env.serial && Creates(inputs, s0.obj.value)
    ensures Valid(wd, s0, before) && GuardedRun(wd, s0, before)
    ensures var s := Run(wd, s0, before);
            Enabled(wd, s, Crash(0)) && LeadsToOrphan(wd, Next(wd, s, Crash(0)), after)
  {
    hide NoneLive, FleetOk, Creates, MachineOk, Settled, GuardedRun, Valid, Run, LeadsToOrphan;
    var s, id;
    before, s, id := FirstCreate(wd, s0, inputs);
    BaseStep(wd, s, Crash(0));
    MadeIsLive(wd, s.fleet, id);
    SomeLive(wd, s.fleet, id);
    var t := Next(wd, s, Crash(0));
    assert t.workers == map[];
    after := QuietExposedOrphans(wd, t, inputs);
  }

  // ---------------------------------------------------------------- one live instance

  ghost predicate TwoLive(wd: World, s: State) { !OneLive(wd, s.fleet) }

  lemma TwoAre(wd: World, s: State, a: string, b: string)
    requires a != b && OursLive(wd, s.fleet, a) && OursLive(wd, s.fleet, b)
    ensures TwoLive(wd, s)
  {
  }

  /** A throttled launch that did create, sent again. */
  lemma ThrottleDoubles(wd: World, s0: State, inputs: Inputs) returns (steps: seq<Step>)
    requires Init(wd, s0) && Creates(inputs, s0.obj.value) && !wd.env.tokens && !wd.env.cleanThrottle
    ensures Valid(wd, s0, steps) && TwoLive(wd, Run(wd, s0, steps))
  {
    hide NoneLive, NewID, TokenUsed, FleetOk, Creates, MachineOk, Settled, WorkerOk, NextCall, Allowed, Perform,
      TwoLive;
    InitBase(wd, s0);
    NothingYet(wd, s0);
    NoSteps(wd, s0);
    BeginCreate(wd, s0, 0, inputs);
    Go(wd, s0, [], s0, Begin(0, inputs));
    var s1 := Next(wd, s0, Begin(0, inputs));
    LookupEmpty(wd, s1, 0);
    Go(wd, s0, [] + [Begin(0, inputs)], s1, Answer(0, EMPTY));
    var s2 := Next(wd, s1, Answer(0, EMPTY));
    var a := FreshID(s2.fleet);
    LaunchCreates(wd, s2, 0, a, false);
    var again := Resend(0, Creating(false, a));
    Go(wd, s0, [] + [Begin(0, inputs)] + [Answer(0, EMPTY)], s2, again);
    var s3 := Next(wd, s2, again);
    var b := FreshID(s3.fleet);
    LaunchNew(wd, s3, 0, b);
    Go(wd, s0, [] + [Begin(0, inputs)] + [Answer(0, EMPTY)] + [again], s3, Answer(0, Creating(true, b)));
    steps := [] + [Begin(0, inputs)] + [Answer(0, EMPTY)] + [again] + [Answer(0, Creating(true, b))];
    assert a != b by { assert a in s3.fleet; NewIsNew(s3.fleet, b); }
    TwoAre(wd, Run(wd, s0, steps), a, b);
  }

  lemma NewIsNew(fleet: Fleet, id: string)
    requires NewID(fleet, id)
    ensures id !in fleet
  {
  }

  /** Two overlapping creates that both looked before either launched. */
  lemma OverlapDoubles(wd: World, s0: State, inputs: Inputs) returns (steps: seq<Step>)
    requires Init(wd, s0) && Creates(inputs, s0.obj.value) && !wd.env.tokens && !wd.env.serial
    ensures Valid(wd, s0, steps) && TwoLive(wd, Run(wd, s0, steps))
  {
    hide Base, Enabled, Next, Creates, NewID, TokenUsed, NoneLive, TwoLive, Init;
    var a := FreshID(s0.fleet);
    var s;
    steps, s := BothLooked(wd, s0, inputs);
    LaunchNew(wd, s, 0, a);
    Go(wd, s0, steps, s, Answer(0, Creating(true, a)));
    steps := steps + [Answer(0, Creating(true, a))];
    var t := Next(wd, s, Answer(0, Creating(true, a)));
    var b := FreshID(t.fleet);
    LaunchNew(wd, t, 1, b);
    Go(wd, s0, steps, t, Answer(1, Creating(true, b)));
    steps := steps + [Answer(1, Creating(true, b))];
    assert a != b by { assert a in t.fleet; NewIsNew(t.fleet, b); }
    TwoAre(wd, Run(wd, s0, steps), a, b);
  }

  /** Worker w read this object and is about to launch. */
  predicate Looked(s: State, w: nat, m: Machine) {
    && w in s.workers && s.workers[w].at.pc == AtLaunch && !s.workers[w].specDone
    && s.workers[w].snapshot == m && s.workers[w].at.m.status == m.status
  }

  lemma LookTwice(wd: World, s0: State, before: seq<Step>, s: State, inputs: Inputs)
    returns (steps: seq<Step>, t: State)
    requires Reached(wd, s0, before, s) && s.workers == map[] && s.obj.Some? && Creates(inputs, s.obj.value)
    requires NoneLive(wd, s.fleet) && !wd.env.serial
    ensures Reached(wd, s0, steps, t) && t.fleet == s.fleet && t.obj == s.obj && t.workers.Keys == {0, 1}
    ensures Looked(t, 0, s.obj.value) && Looked(t, 1, s.obj.value) && (Unseen(s.log) ==> Unseen(t.log))
  {
    hide Reached, Creates, NoneLive, Unseen, GuardedRun;
    var s1;
    steps, s1 := LookPass(wd, s0, before, s, 0, inputs);
    steps, t := LookPass(wd, s0, steps, s1, 1, inputs);
  }

  lemma BothLooked(wd: World, s0: State, inputs: Inputs) returns (steps: seq<Step>, s: State)
    requires Init(wd, s0) && Creates(inputs, s0.obj.value) && !wd.env.serial
    ensures Reached(wd, s0, steps, s) && s.fleet == s0.fleet && s.obj == s0.obj && s.workers.Keys == {0, 1}
    ensures Looked(s, 0, s0.obj.value) && Looked(s, 1, s0.obj.value) && Unseen(s.log)
  {
    InitBase(wd, s0);
    NothingYet(wd, s0);
    FreshHandles(wd, s0);
    NoGuards(wd, s0);
    hide Init, Reached, Creates, NoneLive, Unseen, Looked, Base;
    steps, s := LookTwice(wd, s0, [], s0, inputs);
  }

  /** A create that crashed, then a stale lookup. */
  lemma StaleDoubles(wd: World, s0: State, inputs: Inputs) returns (steps: seq<Step>)
    requires Init(wd, s0) && Creates(inputs, s0.obj.value) && !wd.env.tokens && !wd.env.current
    ensures Valid(wd, s0, steps) && TwoLive(wd, Run(wd, s0, steps))
  {
    var s, a;
    steps, s, a := CrashedCreate(wd, s0, inputs);
    hide Base, Creates, NoneLive, NewID, TokenUsed, TwoLive, Enabled, Next, Init, Valid, Run, OursLive;
    var b := FreshID(s.fleet);
    assert a != b by { NewIsNew(s.fleet, b); }
    steps, s := CreatePass(wd, s0, steps, s, inputs, b);
    MadeIsLive(wd, s.fleet, b);
    assert OursLive(wd, s.fleet, a) by { MadeIsLive(wd, s.fleet, a); }
    TwoAre(wd, s, a, b);
  }

  /** A create whose reconcile crashed after the launch. */
  lemma CrashedCreate(wd: World, s0: State, inputs: Inputs) returns (steps: seq<Step>, s: State, a: string)
    requires Init(wd, s0) && Creates(inputs, s0.obj.value)
    ensures Reached(wd, s0, steps, s)
    ensures s.workers == map[] && s.obj == s0.obj && a in s.fleet && s.fleet[a] == Made(wd)
  {
    hide Base, Creates, NoneLive, Valid, Run, Init, Start, Advance, Perform, Allowed, NextCall;
    steps, s, a := FirstCreate(wd, s0, inputs);
    Go(wd, s0, steps, s, Crash(0));
    steps, s := steps + [Crash(0)], Next(wd, s, Crash(0));
    assert s.workers == map[];
  }

  /** Creation is idempotent in exactly two regimes: the token is honoured, or reconciles are
      serial, listings current and throttles clean. Either guard suffices alone; with neither
      some run from every fresh object holds two live instances. */
  lemma OneLiveExactly(wd: World, s0: State, inputs: Inputs)
    requires Init(wd, s0) && Creates(inputs, s0.obj.value)
    ensures (wd.env.tokens || (wd.env.serial && wd.env.current && wd.env.cleanThrottle)) <==>
              forall steps :: Valid(wd, s0, steps) ==> OneLive(wd, Run(wd, s0, steps).fleet)
  {
    hide Valid, Init, Creates, OneLive;
    if wd.env.tokens {
      forall steps | Valid(wd, s0, steps) ensures OneLive(wd, Run(wd, s0, steps).fleet) {
        HandleAgreement(wd, s0, steps);
        EverIsLive(wd, Run(wd, s0, steps).fleet);
      }
    } else if wd.env.serial && wd.env.current && wd.env.cleanThrottle {
      forall steps | Valid(wd, s0, steps) ensures OneLive(wd, Run(wd, s0, steps).fleet) {
        AdoptKeepsOneLive(wd, s0, steps);
      }
    } else {
      var steps;
      if !wd.env.cleanThrottle {
        steps := ThrottleDoubles(wd, s0, inputs);
      } else if !wd.env.serial {
        steps := OverlapDoubles(wd, s0, inputs);
      } else {
        steps := StaleDoubles(wd, s0, inputs);
      }
      assert !OneLive(wd, Run(wd, s0, steps).fleet);
    }
  }

  lemma EverIsLive(wd: World, fleet: Fleet)
    requires OneEver(wd, fleet)
    ensures OneLive(wd, fleet)
  {
  }

  // ---------------------------------------------------------------- handle agreement

  /** Without the token, a create whose spec write landed and whose status write was lost is
      repeated once its instance is gone: admission rejects the second providerID, the status
      write lands, and the stored handles name different instances. */
  lemma HandlesPart(wd: World, s0: State, inputs: Inputs) returns (steps: seq<Step>)
    requires Init(wd, s0) && Creates(inputs, s0.obj.value) && !wd.env.tokens
    ensures Valid(wd, s0, steps)
    ensures var t := Run(wd, s0, steps); t.obj.Some? && !Agrees(wd, t.obj.value)
  {
    var a, s;
    steps, s, a := SpecOnly(wd, s0, inputs);
    hide Base, Creates, NoneLive, NewID, TokenUsed, Init, ProviderIDFor, Agrees, Enabled, Next, Valid, Run;
    var b := FreshID(s.fleet);
    assert a != b by { NewIsNew(s.fleet, b); }
    steps, s := CreatePass(wd, s0, steps, s, inputs, b);
    steps := StoreStatusOnly(wd, s0, steps, s, a, b);
  }

  /** Both writes of the second create: the spec write is rejected, the status write lands. */
  lemma StoreStatusOnly(wd: World, s0: State, before: seq<Step>, s: State, a: string, b: string)
    returns (steps: seq<Step>)
    requires Reached(wd, s0, before, s)
    requires s.workers.Keys == {0} && s.obj.Some? && !s.workers[0].specDone && !Calling(s.workers[0].at)
    requires s.workers[0].snapshot == s.obj.value && a in s.fleet && b in s.fleet && a != b
    requires s.obj.value.status.instanceID.None? && s.workers[0].at.m.status.instanceID == Some(b)
    requires s.obj.value.spec.providerID == Some(ProviderIDFor(wd.region, a))
    requires s.workers[0].at.m.spec.providerID == Some(ProviderIDFor(wd.region, b))
    ensures Valid(wd, s0, steps)
    ensures var t := Run(wd, s0, steps); t.obj.Some? && !Agrees(wd, t.obj.value)
  {
    hide Base, Valid, Run, WriteSpec, WriteStatus, Agrees, Start, Advance, Perform, Allowed, NextCall, ProviderIDFor;
    SecondRejected(wd, s, a, b);
    Go(wd, s0, before, s, PatchSpec(0, true));
    var t := Next(wd, s, PatchSpec(0, true));
    assert WriteStatus(t.workers[0], s.obj.value) == WriteStatus(s.workers[0], s.obj.value) by {
      SameWrite(t.workers[0], s.workers[0], s.obj.value);
    }
    Go(wd, s0, before + [PatchSpec(0, true)], t, PatchStatus(0, true));
    steps := before + [PatchSpec(0, true)] + [PatchStatus(0, true)];
  }

  /** The state reached has the first create's providerID stored, no status handle, and its
      instance gone. */
  lemma SpecOnly(wd: World, s0: State, inputs: Inputs) returns (steps: seq<Step>, s: State, a: string)
    requires Init(wd, s0) && Creates(inputs, s0.obj.value) && !wd.env.tokens
    ensures Reached(wd, s0, steps, s) && DrawnFrom(steps, {inputs})
    ensures a in s.fleet && s.workers == map[] && NoneLive(wd, s.fleet)
    ensures s.obj.Some? && s.obj.value.spec.providerID == Some(ProviderIDFor(wd.region, a))
    ensures Creates(inputs, s.obj.value)
  {
    hide Creates, NoneLive, ProviderIDFor, Reached, Init, Enabled, Next, Valid, Run;
    steps, s, a := SpecStored(wd, s0, inputs);
    steps, s := Drifts(wd, s0, steps, s, a, None);
    OneGone(wd, s0.fleet, s.fleet, a, Made(wd).(state := None));
  }

  /** The first create with its status write lost. */
  lemma SpecStored(wd: World, s0: State, inputs: Inputs) returns (steps: seq<Step>, s: State, a: string)
    requires Init(wd, s0) && Creates(inputs, s0.obj.value)
    ensures Reached(wd, s0, steps, s) && DrawnFrom(steps, {inputs}) && NoneLive(wd, s0.fleet)
    ensures s.workers == map[] && s.fleet == s0.fleet[a := Made(wd)]
    ensures s.obj.Some? && s.obj.value.spec.providerID == Some(ProviderIDFor(wd.region, a))
    ensures Creates(inputs, s.obj.value)
  {
    FreshHandles(wd, s0);
    hide Creates, NoneLive, ProviderIDFor, Base, Init, Enabled, Next, Valid, Run, GuardedRun;
    steps, s, a := FirstCreate(wd, s0, inputs);
    steps, s := StoreSpecOnly(wd, s0, steps, s, inputs);
  }

  /** The spec write lands, the status write is lost. */
  lemma StoreSpecOnly(wd: World, s0: State, before: seq<Step>, s: State, inputs: Inputs)
    returns (steps: seq<Step>, t: State)
    requires Reached(wd, s0, before, s)
    requires s.workers.Keys == {0} && s.obj.Some? && !s.workers[0].specDone && !Calling(s.workers[0].at)
    requires s.workers[0].snapshot == s.obj.value && s.workers[0].at.m.finalizer
    requires s.obj.value.spec.providerID.None? && Creates(inputs, s.obj.value)
    requires Creates(inputs, s.obj.value.(spec := s.workers[0].at.m.spec.(providerID := s.obj.value.spec.providerID)))
    ensures Reached(wd, s0, steps, t) && t.workers == map[] && t.fleet == s.fleet
    ensures steps == before + [PatchSpec(0, true), PatchStatus(0, false)]
    ensures t.obj.Some? && t.obj.value.spec.providerID == s.workers[0].at.m.spec.providerID
              && Creates(inputs, t.obj.value)
  {
    hide Creates, Base, Valid, Run, WriteSpec, Start, Advance, Perform, Allowed, NextCall;
    FirstLands(wd, s, inputs);
    Go(wd, s0, before, s, PatchSpec(0, true));
    t := Next(wd, s, PatchSpec(0, true));
    Go(wd, s0, before + [PatchSpec(0, true)], t, PatchStatus(0, false));
    t := Next(wd, t, PatchStatus(0, false));
    steps := before + [PatchSpec(0, true), PatchStatus(0, false)];
    assert steps == before + [PatchSpec(0, true)] + [PatchStatus(0, false)];
  }

  lemma FreshHandles(wd: World, s0: State)
    requires Init(wd, s0)
    ensures s0.workers == map[] && Unseen(s0.log)
    ensures s0.obj.Some? && s0.obj.value.spec.providerID.None? && s0.obj.value.status == FRESH_STATUS
    ensures !s0.obj.value.deleting
  {
  }

  lemma OneGone(wd: World, f: Fleet, g: Fleet, a: string, inst: Instance)
    requires NoneLive(wd, f) && g == f[a := inst] && inst.state.None?
    ensures NoneLive(wd, g)
  {
    forall id ensures !OursLive(wd, g, id) {
      assert !OursLive(wd, f, id);
    }
  }

  /** The first create's spec write is admitted and stored; a later create still finds the object fit. */
  lemma FirstLands(wd: World, s: State, inputs: Inputs)
    requires Base(wd, s) && s.workers.Keys == {0} && s.obj.Some? && !s.workers[0].specDone
    requires s.workers[0].snapshot == s.obj.value && s.workers[0].at.m.finalizer
    requires s.obj.value.spec.providerID.None? && Creates(inputs, s.obj.value)
    requires Creates(inputs, s.obj.value.(spec := s.workers[0].at.m.spec.(providerID := s.obj.value.spec.providerID)))
    ensures var m := WriteSpec(s.workers[0], s.obj.value);
            && m.Some? && m.value.spec.providerID == s.workers[0].at.m.spec.providerID
            && m.value.status == s.obj.value.status && Creates(inputs, m.value)
  {
    hide ProviderIDFor, ProviderInstanceID, PcOk, MachineOk, FleetOk, Admits;
    AdmittedExactly(wd, s, 0);
    MergedIsCopy(s.workers[0], s.obj.value);
  }

  lemma SecondRejected(wd: World, s: State, a: string, b: string)
    requires Base(wd, s) && s.workers.Keys == {0} && s.obj.Some? && !s.workers[0].specDone
    requires s.workers[0].snapshot == s.obj.value && a in s.fleet && b in s.fleet && a != b
    requires s.obj.value.status.instanceID.None? && s.workers[0].at.m.status.instanceID == Some(b)
    requires s.obj.value.spec.providerID == Some(ProviderIDFor(wd.region, a))
    requires s.workers[0].at.m.spec.providerID == Some(ProviderIDFor(wd.region, b))
    ensures WriteSpec(s.workers[0], s.obj.value) == Some(s.obj.value)
    ensures !Agrees(wd, WriteStatus(s.workers[0], s.obj.value))
  {
    hide ProviderIDFor, ProviderInstanceID, PcOk, MachineOk, Admits;
    HandleReads(wd, a);
    HandleReads(wd, b);
    AdmittedExactly(wd, s, 0);
  }

  /** The stored handles agree in every reachable state exactly when the token is honoured. */
  lemma AgreementExactly(wd: World, s0: State, inputs: Inputs)
    requires Init(wd, s0) && Creates(inputs, s0.obj.value)
    ensures wd.env.tokens <==>
              forall steps :: Valid(wd, s0, steps) ==>
                var t := Run(wd, s0, steps); t.obj.Some? ==> Agrees(wd, t.obj.value)
  {
    hide Valid, Init, Creates, Agrees;
    if wd.env.tokens {
      forall steps | Valid(wd, s0, steps)
        ensures var t := Run(wd, s0, steps); t.obj.Some? ==> Agrees(wd, t.obj.value)
      {
        HandleAgreement(wd, s0, steps);
      }
    } else {
      var steps := HandlesPart(wd, s0, inputs);
      assert !Agrees(wd, Run(wd, s0, steps).obj.value);
    }
  }

  // ---------------------------------------------------------------- no orphan

  lemma LeftBehind(wd: World, s: State, id: string)
    requires s.obj.None? && id in s.fleet && s.fleet[id] == Made(wd)
    ensures Orphaned(wd, s)
  {
    MadeIsLive(wd, s.fleet, id);
    SomeLive(wd, s.fleet, id);
  }

  /** With overlapping reconciles nothing need be lost: a create has looked and not yet launched
      when a delete pass sweeps, finds nothing and releases the object. */
  lemma OverlapOrphans(wd: World, s0: State, inputs: Inputs) returns (steps: seq<Step>)
    requires Init(wd, s0) && Creates(inputs, s0.obj.value) && !wd.env.serial
    ensures Valid(wd, s0, steps) && GuardedRun(wd, s0, steps) && Orphaned(wd, Run(wd, s0, steps))
  {
    NothingYet(wd, s0);
    var s;
    steps, s := StoreRegion(wd, s0, inputs);
    hide Reached, GuardedRun, NoneLive, TokenUsed, Orphaned, Creates, Init;
    steps, s := OvertakenCreate(wd, s0, steps, s, inputs);
  }

  /** A create that has looked is overtaken by a delete pass, then launches. */
  lemma OvertakenCreate(wd: World, s0: State, before: seq<Step>, s: State, inputs: Inputs)
    returns (steps: seq<Step>, t: State)
    requires Reached(wd, s0, before, s) && GuardedRun(wd, s0, before) && !wd.env.serial
    requires s.workers == map[] && s.obj.Some? && Creates(inputs, s.obj.value) && NoneLive(wd, s.fleet)
    requires Sweeps(wd, s.obj.value.(deleting := true)) && !TokenUsed(s.fleet, wd.cfg.uid)
    ensures Reached(wd, s0, steps, t) && GuardedRun(wd, s0, steps) && Orphaned(wd, t)
  {
    hide Reached, GuardedRun, NoneLive, TokenUsed, NewID, Orphaned, Creates, Sweeps;
    CreatesClient(inputs, s.obj.value);
    steps, t := LookPass(wd, s0, before, s, 1, inputs);
    steps, t := ReleasePass(wd, s0, steps, t, 2, inputs);
    var id := FreshID(t.fleet);
    steps, t := LaunchPass(wd, s0, steps, t, 1, id);
    LeftBehind(wd, t, id);
  }

  lemma CreatesClient(inputs: Inputs, m: Machine)
    requires Creates(inputs, m)
    ensures inputs.clientOk && !m.deleting && m.status.instanceID.None?
  {
  }

  /** With stale listings neither: an instance known only by its tag is missed by the sweep. */
  lemma StaleOrphans(wd: World, s0: State, inputs: Inputs) returns (steps: seq<Step>)
    requires Init(wd, s0) && Creates(inputs, s0.obj.value) && !wd.env.current
    ensures Valid(wd, s0, steps) && GuardedRun(wd, s0, steps) && Orphaned(wd, Run(wd, s0, steps))
  {
    NothingYet(wd, s0);
    hide Base, Valid, Run, GuardedRun, NoneLive, TokenUsed, NewID, Orphaned, Creates, Init, Start, Advance,
      Perform, Allowed, NextCall;
    var s;
    steps, s := StoreRegion(wd, s0, inputs);
    var id := FreshID(s.fleet);
    steps, s := CreatePass(wd, s0, steps, s, inputs, id);
    Go(wd, s0, steps, s, Crash(0));
    steps, s := steps + [Crash(0)], Next(wd, s, Crash(0));
    assert s.workers == map[];
    hide Enabled, Next;
    CreatesClient(inputs, s.obj.value);
    steps, s := ReleasePass(wd, s0, steps, s, 0, inputs);
    LeftBehind(wd, s, id);
  }

  /** No guarded run orphans an instance exactly when reconciles are serial and listings current. */
  lemma NoOrphanExactly(wd: World, s0: State, inputs: Inputs)
    requires Init(wd, s0) && Creates(inputs, s0.obj.value)
    ensures (wd.env.serial && wd.env.current) <==>
              forall steps :: Valid(wd, s0, steps) && GuardedRun(wd, s0, steps) ==> !Orphaned(wd, Run(wd, s0, steps))
  {
    hide Valid, Run, GuardedRun, Orphaned, Init, Creates;
    if wd.env.serial && wd.env.current {
      forall steps | Valid(wd, s0, steps) && GuardedRun(wd, s0, steps)
        ensures !Orphaned(wd, Run(wd, s0, steps))
      {
        NoOrphan(wd, s0, steps);
      }
    } else {
      var steps;
      if !wd.env.serial {
        steps := OverlapOrphans(wd, s0, inputs);
      } else {
        steps := StaleOrphans(wd, s0, inputs);
      }
      assert Orphaned(wd, Run(wd, s0, steps));
    }
  }

  /** With the token honoured and used up, and nothing of ours live, nothing ever is again. */
  lemma {:induction false} SpentToken(wd: World, s: State, steps: seq<Step>)
    requires Base(wd, s) && NoneLive(wd, s.fleet) && Valid(wd, s, steps)
    requires wd.env.tokens && TokenUsed(s.fleet, wd.cfg.uid)
    ensures NoneLive(wd, Run(wd, s, steps).fleet)
    decreases |steps|
  {
    hide Base, Enabled, Next, NoneLive, TokenUsed;
    if steps != [] {
      BaseStep(wd, s, steps[0]);
      SpentTokenStep(wd, s, steps[0]);
      TokenStays(s.fleet, Next(wd, s, steps[0]).fleet, wd.cfg.uid);
      SpentToken(wd, Next(wd, s, steps[0]), steps[1..]);
    }
  }

  lemma SpentTokenStep(wd: World, s: State, step: Step)
    requires Base(wd, s) && NoneLive(wd, s.fleet) && Enabled(wd, s, step)
    requires wd.env.tokens && TokenUsed(s.fleet, wd.cfg.uid)
    ensures NoneLive(wd, Next(wd, s, step).fleet)
  {
    hide Base, NoneLive, TokenUsed, Start, Advance, Perform, Allowed, NextCall, WriteSpec, WriteStatus, Admits;
    match step {
      case Answer(w, o) => CallEffect(wd, s, w, o);
      case Resend(w, o) => CallEffect(wd, s, w, o);
      case Begin(_, _) =>
      case PatchSpec(_, _) =>
      case PatchStatus(_, _) =>
      case _ => NoneLiveStays(wd, s, step);
    }
  }

  /** What a caller can check beforehand, on the stored object alone: between reconciles of an
      object that can create, no run whatsoever can orphan an instance exactly when the finalizer
      and a region or handle are stored (or the honoured token is used up, so nothing is created). */
  lemma AnchoredExactly(wd: World, s: State, inputs: Inputs)
    requires Safe(wd, s) && s.workers == map[] && s.obj.Some? && Creates(inputs, s.obj.value)
    ensures (Anchored(s.obj) || (wd.env.tokens && TokenUsed(s.fleet, wd.cfg.uid))) <==>
              forall steps :: Valid(wd, s, steps) ==> !Orphaned(wd, Run(wd, s, steps))
  {
    hide Valid, Run, Creates, NoneLive, TokenUsed, Base, Anchored;
    if Anchored(s.obj) {
      forall steps | Valid(wd, s, steps) ensures !Orphaned(wd, Run(wd, s, steps)) {
        AnchoredNeverOrphans(wd, s, steps);
      }
    } else if wd.env.tokens && TokenUsed(s.fleet, wd.cfg.uid) {
      forall steps | Valid(wd, s, steps) ensures !Orphaned(wd, Run(wd, s, steps)) {
        SpentToken(wd, s, steps);
      }
    } else {
      var steps := UnanchoredOrphans(wd, s, inputs);
      assert Orphaned(wd, Run(wd, s, steps));
    }
  }

  lemma UnanchoredOrphans(wd: World, s: State, inputs: Inputs) returns (steps: seq<Step>)
    requires Base(wd, s) && wd.env.serial && s.workers == map[] && s.obj.Some? && Creates(inputs, s.obj.value)
    requires !Anchored(s.obj) && NoneLive(wd, s.fleet) && !(wd.env.tokens && TokenUsed(s.fleet, wd.cfg.uid))
    ensures Valid(wd, s, steps) && Orphaned(wd, Run(wd, s, steps))
  {
    hide NoneLive, TokenUsed, NewID, Creates, Valid, Run, GuardedRun, Base, Start, Advance, Perform, Allowed, NextCall;
    NoGuards(wd, s);
    var id := FreshID(s.fleet);
    var t;
    steps, t := CreatePass(wd, s, [], s, inputs, id);
    Go(wd, s, steps, t, Crash(0));
    steps, t := steps + [Crash(0)], Next(wd, t, Crash(0));
    assert t.workers == map[];
    MadeIsLive(wd, t.fleet, id);
    SomeLive(wd, t.fleet, id);
    var rest := QuietExposedOrphans(wd, t, inputs);
    Concat(wd, s, steps, rest);
    steps := steps + rest;
  }

  // ---------------------------------------------------------------- the stuck deletion

  /** The excluded case of deletion is real: the finalizer was stored by a reconcile that found
      the cluster not ready, the create's spec write was lost, its status write landed, and the
      object was deleted. It keeps its finalizer for ever (Drain.StuckForever). */
  lemma StuckReached(wd: World, s0: State, inputs: Inputs) returns (steps: seq<Step>)
    requires Init(wd, s0) && Creates(inputs, s0.obj.value) && s0.obj.value.spec.regionID == ""
    ensures Valid(wd, s0, steps) && Drain.Wedged(wd, Run(wd, s0, steps))
  {
    NothingYet(wd, s0);
    FreshHandles(wd, s0);
    hide Base, Valid, Run, GuardedRun, NoneLive, TokenUsed, NewID, Init, Resolve, Resolvable, ProviderIDFor, FleetOk,
      Enabled, Next;
    var s;
    steps, s := StoreFinalizer(wd, s0, inputs);
    var id := FreshID(s.fleet);
    steps, s := CreatePass(wd, s0, steps, s, inputs, id);
    steps, s := PatchStatusOnly(wd, s0, steps, s, 0);
    DeleteMarks(wd, s);
    Go(wd, s0, steps, s, DeleteRequest);
    steps, s := steps + [DeleteRequest], Next(wd, s, DeleteRequest);
  }

  lemma DeleteMarks(wd: World, s: State)
    requires s.obj.Some? && s.obj.value.finalizer
    ensures Enabled(wd, s, DeleteRequest)
    ensures Next(wd, s, DeleteRequest) == s.(obj := Some(s.obj.value.(deleting := true)))
  {
  }

  /** A fresh object that can create can get stuck exactly when it names no region of its own. */
  lemma StuckExactly(wd: World, s0: State, inputs: Inputs)
    requires Init(wd, s0) && Creates(inputs, s0.obj.value)
    ensures s0.obj.value.spec.regionID == "" <==>
              exists steps :: Valid(wd, s0, steps) && Drain.Wedged(wd, Run(wd, s0, steps))
  {
    hide Valid, Run, Creates, Base;
    if s0.obj.value.spec.regionID == "" {
      var steps := StuckReached(wd, s0, inputs);
    } else {
      InitBase(wd, s0);
      forall steps | Valid(wd, s0, steps) ensures !Drain.Wedged(wd, Run(wd, s0, steps)) {
        if Run(wd, s0, steps).obj.Some? { StoredStaysRun(wd, s0, steps); }
      }
    }
  }

  // ---------------------------------------------------------------- hardening once

  /** With these inputs a reconcile that finds m's instance running hardens it. */
  predicate Hardens(inputs: Inputs, m: Machine) {
    && inputs.nodeRef && m.spec.metadataOptions.Some? && m.spec.metadataOptions.value.httpTokensAfterBoot != ""
  }

  predicate Hardenable(wd: World, s: State, inputs: Inputs, id: string) {
    Pollable(wd, s, inputs, id) && Hardens(inputs, s.obj.value) && !s.obj.value.status.metadataHardened
  }

  lemma HardenAnswered(wd: World, s: State, w: nat)
    requires Base(wd, s) && w in s.workers && s.workers[w].at.pc == AtHarden
    ensures Enabled(wd, s, Answer(w, EMPTY))
    ensures var t := Next(wd, s, Answer(w, EMPTY)); var p := t.workers[w].at;
            && p.pc == Returned(Finished) && p.m.status.metadataHardened
            && t.obj == s.obj && t.fleet == s.fleet && t.workers == s.workers[w := s.workers[w].(at := p)]
            && |t.log| == |s.log| + 1 && Histories.HardenCall(t.log[|s.log|])
  {
    hide ProviderInstanceID, ProviderIDFor, FleetOk, KeepsSpec, MachineOk, ResolveMetadataOptions, ClientRegion;
  }

  /** The state reached stores a running instance by its status handle alone. */
  lemma RunningStored(wd: World, s0: State, inputs: Inputs) returns (steps: seq<Step>, s: State, id: string)
    requires Init(wd, s0) && Creates(inputs, s0.obj.value) && Hardens(inputs, s0.obj.value)
    ensures Reached(wd, s0, steps, s) && s.workers == map[] && Hardenable(wd, s, inputs, id)
  {
    FreshHandles(wd, s0);
    hide Base, Valid, Run, GuardedRun, NoneLive, Init, Resolve, Resolvable, ProviderIDFor, FleetOk, Enabled, Next;
    steps, s, id := FirstCreate(wd, s0, inputs);
    steps, s := PatchStatusOnly(wd, s0, steps, s, 0);
    steps, s := Drifts(wd, s0, steps, s, id, Some(Running));
  }

  /** No hardening call is made by these further steps. */
  ghost predicate Quietly(wd: World, s: State, after: seq<Step>)
    requires Valid(wd, s, after)
  {
    forall k :: |s.log| <= k < |Run(wd, s, after).log| ==> !Histories.HardenCall(Run(wd, s, after).log[k])
  }

  /** Two overlapping reconciles both read the instance as not hardened; the one that has not
      called yet calls after the other's record is stored. */
  lemma HardensTwice(wd: World, s0: State, inputs: Inputs) returns (before: seq<Step>, after: seq<Step>)
    requires Init(wd, s0) && Creates(inputs, s0.obj.value) && Hardens(inputs, s0.obj.value) && !wd.env.serial
    ensures Valid(wd, s0, before)
    ensures var s := Run(wd, s0, before);
            && s.obj.Some? && s.obj.value.status.metadataHardened
            && Valid(wd, s, after) && !Quietly(wd, s, after)
  {
    var s, id;
    before, s, id := RunningStored(wd, s0, inputs);
    hide Base, Valid, Run, GuardedRun, Init, Start, Advance, Perform, Allowed, NextCall, WriteSpec, Creates;
    BeginDescribe(wd, s, 0, inputs, id);
    Go(wd, s0, before, s, Begin(0, inputs));
    before, s := before + [Begin(0, inputs)], Next(wd, s, Begin(0, inputs));
    BeginDescribe(wd, s, 1, inputs, id);
    Go(wd, s0, before, s, Begin(1, inputs));
    before, s := before + [Begin(1, inputs)], Next(wd, s, Begin(1, inputs));
    SeesRunning(wd, s, 0, id);
    Go(wd, s0, before, s, Answer(0, RUNNING));
    before, s := before + [Answer(0, RUNNING)], Next(wd, s, Answer(0, RUNNING));
    SeesRunning(wd, s, 1, id);
    Go(wd, s0, before, s, Answer(1, RUNNING));
    before, s := before + [Answer(1, RUNNING)], Next(wd, s, Answer(1, RUNNING));
    before, s := FirstHardens(wd, s0, before, s);
    HardenAnswered(wd, s, 1);
    OneStep(wd, s, Answer(1, EMPTY));
    after := [Answer(1, EMPTY)];
  }

  lemma FirstHardens(wd: World, s0: State, before: seq<Step>, s: State) returns (steps: seq<Step>, t: State)
    requires Reached(wd, s0, before, s) && s.obj.Some? && !s.obj.value.status.metadataHardened
    requires 0 in s.workers && s.workers[0].at.pc == AtHarden && !s.workers[0].specDone
    requires s.workers[0].snapshot == s.obj.value
    requires 1 in s.workers && s.workers[1].at.pc == AtHarden
    ensures Reached(wd, s0, steps, t) && t.obj.Some? && t.obj.value.status.metadataHardened
    ensures 1 in t.workers && t.workers[1].at.pc == AtHarden
  {
    hide Base, Valid, Run, GuardedRun, Start, Advance, Perform, Allowed, NextCall, WriteSpec;
    HardenAnswered(wd, s, 0);
    Go(wd, s0, before, s, Answer(0, EMPTY));
    steps, t := before + [Answer(0, EMPTY)], Next(wd, s, Answer(0, EMPTY));
    Go(wd, s0, steps, t, PatchSpec(0, false));
    steps, t := steps + [PatchSpec(0, false)], Next(wd, t, PatchSpec(0, false));
    Go(wd, s0, steps, t, PatchStatus(0, true));
    steps, t := steps + [PatchStatus(0, true)], Next(wd, t, PatchStatus(0, true));
  }

  lemma SerialQuiet(wd: World, s0: State, before: seq<Step>, after: seq<Step>)
    requires Init(wd, s0) && wd.env.serial && Valid(wd, s0, before)
    requires var s := Run(wd, s0, before);
             s.obj.Some? && s.obj.value.status.metadataHardened && Valid(wd, s, after)
    ensures Quietly(wd, Run(wd, s0, before), after)
  {
    Histories.HardensOnce(wd, s0, before, after);
  }

  /** After a stored hardening no further call is made, whatever follows, exactly when
      reconciles are serial. */
  lemma HardensOnceExactly(wd: World, s0: State, inputs: Inputs)
    requires Init(wd, s0) && Creates(inputs, s0.obj.value) && Hardens(inputs, s0.obj.value)
    ensures wd.env.serial <==>
              forall before, after ::
                Valid(wd, s0, before) && Run(wd, s0, before).obj.Some? &&
                Run(wd, s0, before).obj.value.status.metadataHardened && Valid(wd, Run(wd, s0, before), after) ==>
                  Quietly(wd, Run(wd, s0, before), after)
  {
    hide Valid, Run, Creates, Hardens, Init;
    if wd.env.serial {
      forall before, after | Valid(wd, s0, before) && Run(wd, s0, before).obj.Some? &&
          Run(wd, s0, before).obj.value.status.metadataHardened && Valid(wd, Run(wd, s0, before), after)
        ensures Quietly(wd, Run(wd, s0, before), after)
      {
        SerialQuiet(wd, s0, before, after);
      }
    } else {
      var before, after := HardensTwice(wd, s0, inputs);
    }
  }

  // ---------------------------------------------------------------- the names in the tag

  /** An anchored object that can create, nothing of it running, whose instance would go by a tag
      value other than the one deletion sweeps for: the user set the reserved key, which admission
      accepts, or the two names differ. */
  ghost predicate Mistagged(wd: World, s: State, inputs: Inputs) {
    && s.workers == map[] && s.obj.Some? && Creates(inputs, s.obj.value) && Settled(s.obj.value.spec)
    && s.obj.value.finalizer && s.obj.value.spec.regionID == wd.region != "" && s.obj.value.spec.providerID.None?
    && wd.cfg.machineName != "" && MarkOf(wd, s.obj.value.spec) != wd.cfg.name
    && !TokenUsed(s.fleet, wd.cfg.uid)
    && forall id :: id in s.fleet && Live(s.fleet[id]) ==>
         !Carries(s.fleet[id], wd.region, wd.cfg.machineName) && !Carries(s.fleet[id], wd.region, wd.cfg.name)
  }

  /** The tag value the cloud keeps for an instance of this spec. */
  function MarkOf(wd: World, spec: MachineSpec): string {
    KeptTag(ToSDKTags(spec.tags, wd.cfg.machineName, wd.cfg.clusterName))
  }

  /** The object is gone and an instance launched under its token lives on. */
  ghost predicate LeftRunning(wd: World, s: State) {
    s.obj.None? && exists id :: id in s.fleet && s.fleet[id].token == wd.cfg.uid && Live(s.fleet[id])
  }

  lemma MistaggedBegin(wd: World, s: State, inputs: Inputs)
    requires Mistagged(wd, s, inputs)
    ensures Enabled(wd, s, Begin(0, inputs))
    ensures var t := Next(wd, s, Begin(0, inputs)); var p := t.workers[0].at;
            && t.obj == s.obj && t.fleet == s.fleet && t.workers == map[0 := Worker(inputs, s.obj.value, p, false)]
            && p.pc == AtFind && !p.m.deleting && p.m.spec.regionID == wd.region
            && p.m.spec.tags == s.obj.value.spec.tags
  {
    hide ProviderInstanceID, ProviderIDFor, RegionFrom, Resolve, Resolvable, ToSDKTags, MachineTag, KeptTag, Settled,
      TokenUsed;
    ResolvedStays(inputs.failureDomain, inputs.zones, s.obj.value.spec);
    ResolvesExactly(inputs.failureDomain, inputs.zones, s.obj.value.spec);
    ReservedTag(s.obj.value.spec.tags, wd.cfg.machineName, wd.cfg.clusterName);
  }

  lemma MistaggedCreate(wd: World, s: State, id: string)
    requires s.workers.Keys == {0} && s.workers[0].at.pc == AtFind && !s.workers[0].at.m.deleting
    requires s.workers[0].at.m.spec.regionID == wd.region != "" && NewID(s.fleet, id)
    requires !TokenUsed(s.fleet, wd.cfg.uid)
    requires forall k :: k in s.fleet && Live(s.fleet[k]) ==> !Carries(s.fleet[k], wd.region, wd.cfg.machineName)
    ensures Enabled(wd, s, Answer(0, EMPTY))
    ensures var t := Next(wd, s, Answer(0, EMPTY));
            && Enabled(wd, t, Answer(0, Creating(true, id)))
            && var u := Next(wd, t, Answer(0, Creating(true, id)));
               && u.obj == s.obj && u.workers.Keys == {0}
               && u.fleet == s.fleet[id := Made(wd).(tag := MarkOf(wd, s.workers[0].at.m.spec))]
  {
    hide ToSDKTags, MachineTag, KeptTag, TokenUsed, ProviderIDFor;
    ReservedTag(s.workers[0].at.m.spec.tags, wd.cfg.machineName, wd.cfg.clusterName);
  }

  /** A delete pass that finds no handle, sweeps under the object's own name and releases. */
  lemma MistaggedRelease(wd: World, s: State, inputs: Inputs)
    requires s.workers == map[] && s.obj.Some? && Sweeps(wd, s.obj.value) && Settled(s.obj.value.spec)
    requires inputs.clientOk
    requires forall k :: k in s.fleet && Live(s.fleet[k]) ==> !Carries(s.fleet[k], wd.region, wd.cfg.name)
    ensures Enabled(wd, s, Begin(0, inputs))
    ensures var t := Next(wd, s, Begin(0, inputs));
            && Enabled(wd, t, Answer(0, EMPTY))
            && var u := Next(wd, t, Answer(0, EMPTY));
               && Enabled(wd, u, PatchSpec(0, true))
               && Next(wd, u, PatchSpec(0, true)).obj.None? && Next(wd, u, PatchSpec(0, true)).fleet == s.fleet
  {
    hide ProviderInstanceID, ProviderIDFor, RegionOfProviderID, StartNormal, Settled, Admits;
    var t := Next(wd, s, Begin(0, inputs));
    assert t.workers[0].at == Progress(s.obj.value, AtSweep);
    var u := Next(wd, t, Answer(0, EMPTY));
    UnchangedAdmitted(s.obj.value.spec);
    assert MergedSpec(u.workers[0], s.obj.value.spec) == s.obj.value.spec;
  }

  /** The crashed create and the delete request. */
  lemma MistaggedLeft(wd: World, s: State, inputs: Inputs) returns (steps: seq<Step>, t: State, id: string)
    requires Mistagged(wd, s, inputs)
    ensures Valid(wd, s, steps) && Run(wd, s, steps) == t && GuardedRun(wd, s, steps)
    ensures t.workers == map[] && t.obj == Some(s.obj.value.(deleting := true))
    ensures t.fleet == s.fleet[id := Made(wd).(tag := MarkOf(wd, s.obj.value.spec))]
  {
    NoSteps(wd, s);
    assert GuardedRun(wd, s, []);
    id := FreshID(s.fleet);
    MistaggedBegin(wd, s, inputs);
    Append(wd, s, [], Begin(0, inputs));
    t := Next(wd, s, Begin(0, inputs));
    MistaggedCreate(wd, t, id);
    hide Valid, Run, Start, Advance, Perform, Allowed, NextCall, GuardedRun, MarkOf, NewID, TokenUsed, Settled,
      NoneLive;
    var find, launch := Answer(0, EMPTY), Answer(0, Creating(true, id));
    steps := [] + [Begin(0, inputs)];
    Append(wd, s, steps, find);
    steps, t := steps + [find], Next(wd, t, find);
    Append(wd, s, steps, launch);
    steps, t := steps + [launch], Next(wd, t, launch);
    steps, t := CrashThenDelete(wd, s, steps, t);
  }

  lemma CrashThenDelete(wd: World, s0: State, before: seq<Step>, s: State) returns (steps: seq<Step>, t: State)
    requires Valid(wd, s0, before) && Run(wd, s0, before) == s && GuardedRun(wd, s0, before)
    requires s.workers.Keys == {0} && Anchored(s.obj)
    ensures Valid(wd, s0, steps) && Run(wd, s0, steps) == t && GuardedRun(wd, s0, steps)
    ensures t.workers == map[] && t.obj == Some(s.obj.value.(deleting := true)) && t.fleet == s.fleet
  {
    hide Valid, Run, GuardedRun, NoneLive, Start, Advance, Perform, Allowed, NextCall;
    Append(wd, s0, before, Crash(0));
    steps, t := before + [Crash(0)], Next(wd, s, Crash(0));
    Append(wd, s0, steps, DeleteRequest);
    steps, t := steps + [DeleteRequest], Next(wd, t, DeleteRequest);
    assert t.workers == map[];
  }

  /** The names and the reserved key matter: from every such state, whatever the environment
      promises and along a guarded run, a crashed create and a deletion leave the instance running,
      for no sweep looks for it under its own tag. */
  lemma MistaggedOrphans(wd: World, s: State, inputs: Inputs) returns (steps: seq<Step>)
    requires Mistagged(wd, s, inputs)
    ensures Valid(wd, s, steps) && GuardedRun(wd, s, steps) && LeftRunning(wd, Run(wd, s, steps))
  {
    var t, id;
    steps, t, id := MistaggedLeft(wd, s, inputs);
    hide Valid, Run, GuardedRun, MarkOf, TokenUsed, Settled, Resolve, Resolvable;
    var rest := ReleaseRest(wd, t, inputs, id);
    Concat(wd, s, steps, rest);
    GuardedConcat(wd, s, steps, rest);
    steps := steps + rest;
  }

  lemma ReleaseRest(wd: World, s: State, inputs: Inputs, id: string) returns (steps: seq<Step>)
    requires s.workers == map[] && s.obj.Some? && Sweeps(wd, s.obj.value) && Settled(s.obj.value.spec)
    requires inputs.clientOk && id in s.fleet && s.fleet[id].token == wd.cfg.uid && Live(s.fleet[id])
    requires forall k :: k in s.fleet && Live(s.fleet[k]) ==> !Carries(s.fleet[k], wd.region, wd.cfg.name)
    ensures Valid(wd, s, steps) && GuardedRun(wd, s, steps) && LeftRunning(wd, Run(wd, s, steps))
  {
    NoSteps(wd, s);
    assert GuardedRun(wd, s, []);
    MistaggedRelease(wd, s, inputs);
    hide Valid, Run, Start, Advance, Perform, Allowed, NextCall, GuardedRun, Settled, WriteSpec, NoneLive;
    Append(wd, s, [], Begin(0, inputs));
    var t := Next(wd, s, Begin(0, inputs));
    Append(wd, s, [] + [Begin(0, inputs)], Answer(0, EMPTY));
    var u := Next(wd, t, Answer(0, EMPTY));
    Append(wd, s, [] + [Begin(0, inputs)] + [Answer(0, EMPTY)], PatchSpec(0, true));
    steps := [] + [Begin(0, inputs)] + [Answer(0, EMPTY)] + [PatchSpec(0, true)];
  }
}
