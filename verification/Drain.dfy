/** Deletion terminates: every complete delete pass either releases the object, or moves some
    instance of ours towards gone, or leaves one in a state the cloud itself moves on. */
module Drain {
  import opened Objects
  import opened ProviderIDs
  import opened Admission
  import opened Cloud
  import opened Resumption
  import opened Lifecycle
  import Retry
  import opened Handles

  /** How far an instance still is from gone. */
  function Rank(state: Option<InstanceState>): nat {
    match state
    case None => 0
    case Some(Deleted) => 1
    case Some(Stopped) => 2
    case Some(Stopping) => 3
    case Some(_) => 4
  }

  function AtLeast(wd: World, fleet: Fleet, k: nat): set<string> {
    set id | id in fleet && Ours(wd, fleet, id) && Rank(fleet[id].state) >= k
  }

  /** The sum of the ranks of our instances, counted level by level. */
  function Distance(wd: World, fleet: Fleet): nat {
    |AtLeast(wd, fleet, 1)| + |AtLeast(wd, fleet, 2)| + |AtLeast(wd, fleet, 3)| + |AtLeast(wd, fleet, 4)|
  }

  /** An instance the controller waits for: the cloud will move it on by itself. */
  predicate Transient(i: Instance) { i.state == Some(Stopping) || i.state == Some(Deleted) }

  predicate AnyTransient(wd: World, fleet: Fleet) {
    exists id :: id in fleet && Ours(wd, fleet, id) && Transient(fleet[id])
  }

  lemma Shrinks(a: set<string>, b: set<string>)
    requires a <= b
    ensures |a| <= |b| && (a != b ==> |a| < |b|)
  {
    assert b == a + (b - a);
  }

  /** Our instances of g are instances of f, no further from gone. */
  predicate Closer(wd: World, f: Fleet, g: Fleet) {
    forall id :: id in g && Ours(wd, g, id) ==> Ours(wd, f, id) && Rank(g[id].state) <= Rank(f[id].state)
  }

  lemma DistanceFalls(wd: World, f: Fleet, g: Fleet)
    requires Closer(wd, f, g)
    ensures Distance(wd, g) <= Distance(wd, f)
    ensures (exists id :: id in g && Ours(wd, g, id) && Rank(g[id].state) < Rank(f[id].state)) ==>
              Distance(wd, g) < Distance(wd, f)
  {
    Shrinks(AtLeast(wd, g, 1), AtLeast(wd, f, 1));
    Shrinks(AtLeast(wd, g, 2), AtLeast(wd, f, 2));
    Shrinks(AtLeast(wd, g, 3), AtLeast(wd, f, 3));
    Shrinks(AtLeast(wd, g, 4), AtLeast(wd, f, 4));
    if id :| id in g && Ours(wd, g, id) && Rank(g[id].state) < Rank(f[id].state) {
      var k := Rank(f[id].state);
      assert id in AtLeast(wd, f, k) && id !in AtLeast(wd, g, k);
    }
  }

  // ---------------------------------------------------------------- the cooperative regime

  /** The calls succeed: reads are answered, a stop takes a running instance down, a release of
      a stopped one gets through, and no call moves an instance away from gone. */
  predicate Cooperative(fleet: Fleet, call: Call, o: Outcome) {
    match call
    case Describe(_, _) => o.ok
    case Find(_, _) => o.ok
    case Stop(_, id) =>
      id in fleet ==>
        if Rank(fleet[id].state) == 4 then o.effect && Rank(o.to) < 4 else Rank(o.to) <= Rank(fleet[id].state)
    case Release(_, id) =>
      id in fleet ==>
        if fleet[id].state == Some(Stopped) then o.effect && Rank(o.to) < 2 else Rank(o.to) <= Rank(fleet[id].state)
    case _ => true
  }

  /** One step of a delete pass by worker 0, with the cloud and the users moving in between. */
  predicate PassStep(wd: World, s: State, step: Step) {
    match step
    case Answer(w, o) =>
      w == 0 && w in s.workers && Calling(s.workers[w].at) &&
      Cooperative(s.fleet, NextCall(wd.cfg, s.workers[w].at), o)
    case PatchSpec(w, lands) => w == 0 && lands
    case PatchStatus(w, _) => w == 0
    case Drift(id, to) => id in s.fleet && Rank(to) <= Rank(s.fleet[id].state)
    case Edit(_, _) => true
    case Foreign(_, _) => true
    case _ => false
  }

  /** The pass ends when its worker does. */
  predicate PassRest(wd: World, s: State, steps: seq<Step>)
    requires Valid(wd, s, steps)
    decreases |steps|
  {
    if steps == [] then s.workers == map[]
    else s.workers != map[] && PassStep(wd, s, steps[0]) && PassRest(wd, Next(wd, s, steps[0]), steps[1..])
  }

  predicate Pass(wd: World, s: State, steps: seq<Step>)
    requires Valid(wd, s, steps)
  {
    && steps != [] && steps[0].Begin? && steps[0].w == 0 && steps[0].inputs.clientOk
    && PassRest(wd, Next(wd, s, steps[0]), steps[1..])
  }

  /** The delete path knows an instance but cannot tell its region. */
  predicate Stuck(m: Machine) {
    m.spec.regionID == "" && m.spec.providerID.None? && m.status.instanceID.Some?
  }

  predicate Deleting(s: State) { s.obj.Some? && s.obj.value.deleting }

  // ---------------------------------------------------------------- one pass

  predicate DeleteWorker(s: State) {
    && s.workers.Keys == {0}
    && s.workers[0].snapshot.deleting && s.workers[0].snapshot.finalizer
    && s.workers[0].at.m.spec == s.workers[0].snapshot.spec
    && !Stuck(s.workers[0].at.m)
  }

  /** What a pass that has not yet brought anything closer still owes, by where it stands. */
  predicate Owes(wd: World, s: State)
    requires 0 in s.workers
  {
    var p := s.workers[0].at;
    if s.workers[0].specDone then s.obj.None? || AnyTransient(wd, s.fleet)
    else match p.pc
      case AtStop(id) => id in s.fleet && Rank(s.fleet[id].state) >= 2
      case AtRelease(id) => id in s.fleet && Rank(s.fleet[id].state) in {2, 3}
      case Returned(_) => !p.m.finalizer || AnyTransient(wd, s.fleet)
      case _ => true
  }

  predicate InPass(wd: World, s: State, start: nat) {
    && Base(wd, s) && Synced(s) && wd.env.serial && wd.env.current
    && DeleteWorker(s)
    && (s.obj.Some? ==> !Stuck(s.obj.value) && SameHandles(s.obj.value.spec, s.workers[0].snapshot.spec))
    && Distance(wd, s.fleet) <= start
    && (Distance(wd, s.fleet) == start ==> Owes(wd, s))
  }

  lemma BeginPass(wd: World, s: State, inputs: Inputs)
    requires Base(wd, s) && Synced(s) && wd.env.serial && wd.env.current && s.workers == map[]
    requires Deleting(s) && !Stuck(s.obj.value) && inputs.clientOk
    ensures InPass(wd, Next(wd, s, Begin(0, inputs)), Distance(wd, s.fleet))
  {
    hide ProviderInstanceID, ProviderIDFor, RegionOfProviderID, MachineOk, Distance, StartNormal;
    BaseStep(wd, s, Begin(0, inputs));
    SyncedStep(wd, s, Begin(0, inputs));
    DeleteRegionOk(wd, s.fleet, s.obj.value);
  }

  /** A cooperative call of the delete path moves nothing of ours away from gone, and a stop or
      release that leaves the distance alone found the instance at the ranks it owes. */
  lemma CallCloser(wd: World, fleet: Fleet, call: Call, o: Outcome)
    requires !call.Launch? && Cooperative(fleet, call, o)
    ensures var g := Perform(fleet, call, o).0;
            && Distance(wd, g) <= Distance(wd, fleet)
            && (Distance(wd, g) == Distance(wd, fleet) ==> forall id :: id in g && Ours(wd, g, id) ==>
                  id in fleet && Rank(g[id].state) == Rank(fleet[id].state))
  {
    var g := Perform(fleet, call, o).0;
    assert Closer(wd, fleet, g);
    DistanceFalls(wd, fleet, g);
  }

  lemma AnswerOwes(wd: World, s: State, o: Outcome)
    requires Base(wd, s) && Synced(s) && DeleteWorker(s) && Owes(wd, s) && wd.env.current
    requires Enabled(wd, s, Answer(0, o)) && PassStep(wd, s, Answer(0, o))
    requires Distance(wd, Next(wd, s, Answer(0, o)).fleet) == Distance(wd, s.fleet)
    ensures Owes(wd, Next(wd, s, Answer(0, o)))
  {
    hide ProviderInstanceID, ProviderIDFor, ToSDKTags, KeptTag, MachineTag, RegionFrom, Distance, KeepsSpec;
    var w := s.workers[0];
    var call := NextCall(wd.cfg, w.at);
    var t := Next(wd, s, Answer(0, o));
    CallCloser(wd, s.fleet, call, o);
    match w.at.pc {
      case AtDescribeForDelete(id) =>
        assert t.fleet == s.fleet && Ours(wd, s.fleet, id);
      case AtSweep =>
        assert t.fleet == s.fleet;
        assert o.id != "" ==> Live(s.fleet[o.id]);
      case AtStop(id) =>
        assert Ours(wd, t.fleet, id);
      case AtRelease(id) =>
        assert Ours(wd, t.fleet, id);
        assert Rank(t.fleet[id].state) == Rank(s.fleet[id].state) == 3;
      case _ =>
    }
  }

  lemma AnswerPass(wd: World, s: State, o: Outcome, start: nat)
    requires InPass(wd, s, start) && Enabled(wd, s, Answer(0, o)) && PassStep(wd, s, Answer(0, o))
    ensures InPass(wd, Next(wd, s, Answer(0, o)), start)
  {
    hide ProviderInstanceID, ProviderIDFor, ToSDKTags, KeptTag, MachineTag, RegionFrom, Distance, KeepsSpec,
      MachineOk, Owes;
    var w := s.workers[0];
    var call := NextCall(wd.cfg, w.at);
    BaseStep(wd, s, Answer(0, o));
    SyncedStep(wd, s, Answer(0, o));
    CallCloser(wd, s.fleet, call, o);
    var t := Next(wd, s, Answer(0, o));
    if Distance(wd, t.fleet) == start {
      AnswerOwes(wd, s, o);
    }
  }

  lemma PatchPass(wd: World, s: State, start: nat)
    requires InPass(wd, s, start) && Enabled(wd, s, PatchSpec(0, true))
    ensures InPass(wd, Next(wd, s, PatchSpec(0, true)), start)
  {
    hide ProviderInstanceID, ProviderIDFor, Distance, MachineOk, PcOk, Transient;
    var w := s.workers[0];
    BaseStep(wd, s, PatchSpec(0, true));
    SyncedStep(wd, s, PatchSpec(0, true));
    if s.obj.Some? {
      AdmittedExactly(wd, s, 0);
      MergedIsCopy(w, s.obj.value);
    }
  }

  /** Instances drifting no further from gone keep what is owed, or pay some of it. */
  lemma DriftPass(wd: World, s: State, step: Step, start: nat)
    requires InPass(wd, s, start) && Enabled(wd, s, step) && PassStep(wd, s, step) && (step.Drift? || step.Foreign?)
    ensures InPass(wd, Next(wd, s, step), start)
  {
    hide ProviderInstanceID, ProviderIDFor, Distance, MachineOk, KeepsSpec;
    var t := Next(wd, s, step);
    BaseStep(wd, s, step);
    SyncedStep(wd, s, step);
    assert Closer(wd, s.fleet, t.fleet);
    DistanceFalls(wd, s.fleet, t.fleet);
    if Distance(wd, t.fleet) == start {
      assert forall id :: id in t.fleet && Ours(wd, t.fleet, id) ==> Rank(t.fleet[id].state) == Rank(s.fleet[id].state);
      OwesDrift(wd, s, t);
    }
  }

  lemma OwesDrift(wd: World, s: State, t: State)
    requires Base(wd, s) && DeleteWorker(s) && Owes(wd, s) && t == s.(fleet := t.fleet) && Grows(s.fleet, t.fleet)
    requires forall id :: id in t.fleet && Ours(wd, t.fleet, id) ==>
               id in s.fleet && Rank(t.fleet[id].state) == Rank(s.fleet[id].state)
    ensures Owes(wd, t)
  {
    hide ProviderInstanceID, ProviderIDFor, MachineOk, KeepsSpec;
    if AnyTransient(wd, s.fleet) {
      var id :| id in s.fleet && Ours(wd, s.fleet, id) && Transient(s.fleet[id]);
      assert Ours(wd, t.fleet, id) && Transient(t.fleet[id]);
    }
    var p := s.workers[0].at;
    if p.pc.AtStop? || p.pc.AtRelease? {
      assert Ours(wd, t.fleet, p.pc.id);
    }
  }

  lemma EditPass(wd: World, s: State, step: Step, start: nat)
    requires InPass(wd, s, start) && Enabled(wd, s, step) && step.Edit?
    ensures InPass(wd, Next(wd, s, step), start)
  {
    hide ProviderInstanceID, ProviderIDFor, Distance, MachineOk, WorkerOk, Transient;
    BaseStep(wd, s, step);
    SyncedStep(wd, s, step);
    SettledEdit(s.obj.value.spec, step.tags, step.options);
  }

  /** Where a pass ends: released, closer, or with an instance the cloud is moving. */
  ghost predicate Advanced(wd: World, t: State, start: nat) {
    && Base(wd, t) && Synced(t)
    && (t.obj.Some? ==> !Stuck(t.obj.value))
    && t.workers == map[]
    && Distance(wd, t.fleet) <= start
    && (Distance(wd, t.fleet) == start ==> t.obj.None? || AnyTransient(wd, t.fleet))
  }

  lemma EndPass(wd: World, s: State, lands: bool, start: nat)
    requires InPass(wd, s, start) && Enabled(wd, s, PatchStatus(0, lands))
    ensures Advanced(wd, Next(wd, s, PatchStatus(0, lands)), start)
  {
    hide ProviderInstanceID, ProviderIDFor, Distance, MachineOk, Transient;
    BaseStep(wd, s, PatchStatus(0, lands));
    SyncedStep(wd, s, PatchStatus(0, lands));
  }

  lemma {:induction false} PassRestAdvances(wd: World, s: State, steps: seq<Step>, start: nat)
    requires InPass(wd, s, start) && Valid(wd, s, steps) && PassRest(wd, s, steps)
    ensures Advanced(wd, Run(wd, s, steps), start)
    decreases |steps|
  {
    hide Base, Synced, Owes, Distance, Advanced;
    assert 0 in s.workers;
    var step := steps[0];
    var t := Next(wd, s, step);
    match step {
      case Answer(_, o) => AnswerPass(wd, s, o, start);
      case PatchSpec(_, _) => PatchPass(wd, s, start);
      case PatchStatus(_, lands) => EndPass(wd, s, lands, start);
      case Edit(_, _) => EditPass(wd, s, step, start);
      case _ => DriftPass(wd, s, step, start);
    }
    if step.PatchStatus? {
      assert t.workers == map[];
    } else {
      PassRestAdvances(wd, t, steps[1..], start);
    }
  }

  // ---------------------------------------------------------------- rounds

  /** A complete delete pass, then one move by the cloud if it owes one. */
  datatype Round = Round(pass: seq<Step>, tick: seq<Step>)

  predicate Tick(wd: World, s: State, tick: seq<Step>) {
    if s.obj.Some? && AnyTransient(wd, s.fleet) then
      && |tick| == 1 && tick[0].Drift? && Enabled(wd, s, tick[0])
      && Ours(wd, s.fleet, tick[0].id) && Rank(tick[0].to) < Rank(s.fleet[tick[0].id].state)
    else
      tick == []
  }

  predicate ValidRound(wd: World, s: State, r: Round) {
    && Valid(wd, s, r.pass) && Pass(wd, s, r.pass)
    && Tick(wd, Run(wd, s, r.pass), r.tick) && Valid(wd, Run(wd, s, r.pass), r.tick)
  }

  function AfterRound(wd: World, s: State, r: Round): State
    requires ValidRound(wd, s, r)
  {
    Run(wd, Run(wd, s, r.pass), r.tick)
  }

  predicate ValidRounds(wd: World, s: State, rounds: seq<Round>)
    decreases |rounds|
  {
    rounds == [] || (ValidRound(wd, s, rounds[0]) && ValidRounds(wd, AfterRound(wd, s, rounds[0]), rounds[1..]))
  }

  function AfterRounds(wd: World, s: State, rounds: seq<Round>): State
    requires ValidRounds(wd, s, rounds)
    decreases |rounds|
  {
    if rounds == [] then s else AfterRounds(wd, AfterRound(wd, s, rounds[0]), rounds[1..])
  }

  /** Between passes over a deleting object whose region the delete path can tell. */
  predicate Quiet(wd: World, s: State) {
    && Base(wd, s) && Synced(s) && wd.env.serial && wd.env.current
    && s.workers == map[]
    && (s.obj.Some? ==> s.obj.value.deleting && !Stuck(s.obj.value))
  }

  lemma {:induction false} DeletingStays(wd: World, s: State, steps: seq<Step>)
    requires Valid(wd, s, steps) && (s.obj.Some? ==> s.obj.value.deleting)
    ensures Run(wd, s, steps).obj.Some? ==> Run(wd, s, steps).obj.value.deleting
    decreases |steps|
  {
    if steps != [] {
      DeletingStaysStep(wd, s, steps[0]);
      DeletingStays(wd, Next(wd, s, steps[0]), steps[1..]);
    }
  }

  lemma DeletingStaysStep(wd: World, s: State, step: Step)
    requires Enabled(wd, s, step) && (s.obj.Some? ==> s.obj.value.deleting)
    ensures Next(wd, s, step).obj.Some? ==> Next(wd, s, step).obj.value.deleting
  {
    hide Start, Advance, Perform, Allowed, NextCall, Admits;
  }

  lemma PassAdvances(wd: World, s: State, pass: seq<Step>)
    requires Quiet(wd, s) && Valid(wd, s, pass) && Pass(wd, s, pass)
    ensures Quiet(wd, Run(wd, s, pass)) && Advanced(wd, Run(wd, s, pass), Distance(wd, s.fleet))
  {
    hide Base, Synced, Distance;
    BeginPass(wd, s, pass[0].inputs);
    PassRestAdvances(wd, Next(wd, s, pass[0]), pass[1..], Distance(wd, s.fleet));
    DeletingStays(wd, s, pass);
  }

  /** Every round releases the object or brings some instance closer to gone. */
  lemma RoundProgress(wd: World, s: State, r: Round)
    requires Quiet(wd, s) && ValidRound(wd, s, r)
    ensures var t := AfterRound(wd, s, r);
            Quiet(wd, t) && (t.obj.None? || Distance(wd, t.fleet) < Distance(wd, s.fleet))
  {
    hide Base, Synced, Distance, AnyTransient;
    PassAdvances(wd, s, r.pass);
    var mid := Run(wd, s, r.pass);
    if r.tick != [] {
      assert r.tick == [r.tick[0]];
      OneStep(wd, mid, r.tick[0]);
      TickFalls(wd, mid, r.tick[0]);
    }
  }

  lemma TickFalls(wd: World, s: State, step: Step)
    requires Quiet(wd, s) && step.Drift? && Enabled(wd, s, step)
    requires Ours(wd, s.fleet, step.id) && Rank(step.to) < Rank(s.fleet[step.id].state)
    ensures Quiet(wd, Next(wd, s, step)) && Distance(wd, Next(wd, s, step).fleet) < Distance(wd, s.fleet)
  {
    hide Distance, MachineOk;
    BaseStep(wd, s, step);
    SyncedStep(wd, s, step);
    var g := Next(wd, s, step).fleet;
    assert Closer(wd, s.fleet, g) && Ours(wd, g, step.id);
    DistanceFalls(wd, s.fleet, g);
  }

  /** Deletion terminates: there are never more rounds than the distance plus one, and that
      many have released the finalizer, whichever way the calls and the cloud turned. */
  lemma {:induction false} DeletionTerminates(wd: World, s: State, rounds: seq<Round>)
    requires Quiet(wd, s) && s.obj.Some? && ValidRounds(wd, s, rounds)
    ensures |rounds| <= Distance(wd, s.fleet) + 1
    ensures |rounds| == Distance(wd, s.fleet) + 1 ==> AfterRounds(wd, s, rounds).obj.None?
    decreases |rounds|
  {
    hide Quiet, Distance, ValidRound, AfterRound;
    if rounds != [] {
      RoundProgress(wd, s, rounds[0]);
      var t := AfterRound(wd, s, rounds[0]);
      if t.obj.Some? {
        DeletionTerminates(wd, t, rounds[1..]);
      } else if rounds[1..] != [] {
        NoRoundWithout(wd, t, rounds[1..][0]);
      }
    }
  }

  lemma NoRoundWithout(wd: World, s: State, r: Round)
    requires s.obj.None?
    ensures !ValidRound(wd, s, r)
  {
  }

  // ---------------------------------------------------------------- rounds can always be taken

  lemma PrependPass(wd: World, s: State, step: Step, rest: seq<Step>)
    requires s.workers != map[] && Enabled(wd, s, step) && PassStep(wd, s, step)
    requires Valid(wd, Next(wd, s, step), rest) && PassRest(wd, Next(wd, s, step), rest)
    ensures Valid(wd, s, [step] + rest) && PassRest(wd, s, [step] + rest)
  {
    assert ([step] + rest)[1..] == rest;
  }

  /** A cooperative answer exists for every call of the delete path. */
  lemma SomeAnswer(wd: World, s: State, start: nat) returns (o: Outcome)
    requires InPass(wd, s, start) && Calling(s.workers[0].at)
    ensures Enabled(wd, s, Answer(0, o)) && PassStep(wd, s, Answer(0, o))
  {
    hide ProviderInstanceID, ProviderIDFor, RegionFrom, Distance, MachineOk, KeepsSpec, ToSDKTags, MachineTag, KeptTag;
    var p := s.workers[0].at;
    if p.pc.AtStop? {
      var state := s.fleet[p.pc.id].state;
      o := Outcome(true, true, Retry.OtherError, "", if Rank(state) == 4 then Some(Stopping) else state);
    } else if p.pc.AtRelease? {
      var state := s.fleet[p.pc.id].state;
      o := Outcome(true, true, Retry.OtherError, "", if state == Some(Stopped) then Some(Deleted) else state);
    } else if p.pc.AtDescribeForDelete? {
      o := Outcome(true, true, Retry.OtherError, "", StateOf(s.fleet, wd.region, p.pc.id));
    } else {
      var id := SomeLiveOrNone(wd, s.fleet);
      o := Outcome(true, true, Retry.OtherError, id, None);
    }
  }

  lemma SomeLiveOrNone(wd: World, fleet: Fleet) returns (id: string)
    requires FleetOk(wd, fleet)
    ensures id == "" ==> forall k :: k in fleet ==> !(Carries(fleet[k], wd.region, wd.cfg.name) && Live(fleet[k]))
    ensures id != "" ==> OursLive(wd, fleet, id)
  {
    if k :| OursLive(wd, fleet, k) {
      id := k;
    } else {
      id := "";
      forall k | k in fleet ensures !(Carries(fleet[k], wd.region, wd.cfg.name) && Live(fleet[k])) {
        assert !OursLive(wd, fleet, k);
      }
    }
  }

  function Remaining(w: Worker): nat {
    if w.specDone then 1
    else match w.at.pc
      case Returned(_) => 2
      case AtRelease(_) => 3
      case AtStop(_) => 4
      case AtSweep => 5
      case _ => 6
  }

  lemma SomePassRest(wd: World, s: State, start: nat) returns (steps: seq<Step>)
    requires InPass(wd, s, start)
    ensures Valid(wd, s, steps) && PassRest(wd, s, steps)
    decreases Remaining(s.workers[0])
  {
    hide Base, Synced, Owes, Distance, Stuck;
    var step;
    if s.workers[0].specDone {
      step := PatchStatus(0, true);
      assert PassRest(wd, Next(wd, s, step), []);
      PrependPass(wd, s, step, []);
      steps := [step] + [];
      return;
    }
    if Calling(s.workers[0].at) {
      var o := SomeAnswer(wd, s, start);
      step := Answer(0, o);
      AnswerPass(wd, s, o, start);
      AnswerNearer(wd, s, o, start);
    } else {
      step := PatchSpec(0, true);
      PatchPass(wd, s, start);
    }
    var rest := SomePassRest(wd, Next(wd, s, step), start);
    PrependPass(wd, s, step, rest);
    steps := [step] + rest;
  }

  lemma AnswerNearer(wd: World, s: State, o: Outcome, start: nat)
    requires InPass(wd, s, start) && Enabled(wd, s, Answer(0, o))
    ensures Remaining(Next(wd, s, Answer(0, o)).workers[0]) < Remaining(s.workers[0])
  {
    hide ProviderInstanceID, ProviderIDFor, RegionFrom, Distance, MachineOk, KeepsSpec, ToSDKTags, MachineTag, KeptTag;
  }

  /** The cloud step a pass waits for is always enabled. */
  lemma SomeTick(wd: World, s: State) returns (tick: seq<Step>)
    ensures Tick(wd, s, tick) && Valid(wd, s, tick)
  {
    tick := [];
    if s.obj.Some? && AnyTransient(wd, s.fleet) {
      var id :| id in s.fleet && Ours(wd, s.fleet, id) && Transient(s.fleet[id]);
      var step := Drift(id, if s.fleet[id].state == Some(Stopping) then Some(Stopped) else None);
      OneStep(wd, s, step);
      tick := [step];
    }
  }

  lemma SomeRound(wd: World, s: State, inputs: Inputs) returns (r: Round)
    requires Quiet(wd, s) && s.obj.Some? && inputs.clientOk
    ensures ValidRound(wd, s, r)
  {
    hide Base, Synced, Distance, Start;
    var begin := Begin(0, inputs);
    BeginPass(wd, s, inputs);
    var rest := SomePassRest(wd, Next(wd, s, begin), Distance(wd, s.fleet));
    var pass := [begin] + rest;
    assert pass[1..] == rest;
    var tick := SomeTick(wd, Run(wd, s, pass));
    r := Round(pass, tick);
  }

  /** Deletion completes: from every quiet deleting state rounds can be taken until the object
      is released; with DeletionTerminates, every way of taking them does so. */
  lemma DeletionCompletes(wd: World, s: State, inputs: Inputs) returns (rounds: seq<Round>)
    requires Quiet(wd, s) && s.obj.Some? && inputs.clientOk
    ensures ValidRounds(wd, s, rounds) && AfterRounds(wd, s, rounds).obj.None?
    decreases Distance(wd, s.fleet)
  {
    hide Quiet, Distance, ValidRound, AfterRound;
    var r := SomeRound(wd, s, inputs);
    RoundProgress(wd, s, r);
    var t := AfterRound(wd, s, r);
    var rest := [];
    if t.obj.Some? {
      rest := DeletionCompletes(wd, t, inputs);
    }
    rounds := [r] + rest;
    assert rounds[1..] == rest;
  }

  // ---------------------------------------------------------------- the one way to get stuck

  ghost predicate Wedged(wd: World, s: State) {
    && Base(wd, s) && Synced(s)
    && Deleting(s) && Stuck(s.obj.value)
    && forall w :: w in s.workers ==>
         && s.workers[w].snapshot.deleting && Stuck(s.workers[w].snapshot)
         && s.workers[w].at == Progress(s.workers[w].snapshot, Returned(Errored))
  }

  lemma WedgedStep(wd: World, s: State, step: Step)
    requires Wedged(wd, s) && wd.env.serial && Enabled(wd, s, step)
    ensures Wedged(wd, Next(wd, s, step))
  {
    hide ProviderInstanceID, ProviderIDFor, PcOk, KeepsSpec;
    BaseStep(wd, s, step);
    SyncedStep(wd, s, step);
    if step.PatchSpec? {
      AdmittedExactly(wd, s, step.w);
    }
    if step.Edit? { SettledEdit(s.obj.value.spec, step.tags, step.options); }
  }

  /** The excluded case: a deleting object that knows its instance but not the region keeps its
      finalizer for ever, whatever else happens. Necessity.StuckReached leads there. */
  lemma {:induction false} StuckForever(wd: World, s: State, steps: seq<Step>)
    requires Wedged(wd, s) && wd.env.serial && Valid(wd, s, steps)
    ensures Run(wd, s, steps).obj.Some? && Run(wd, s, steps).obj.value.finalizer
    decreases |steps|
  {
    if steps != [] {
      WedgedStep(wd, s, steps[0]);
      StuckForever(wd, Next(wd, s, steps[0]), steps[1..]);
    }
  }
}
