/** The CSR approver's view of the handles: which machines still await their node. */
module CsrGate {
  import opened Objects
  import opened ProviderIDs
  import opened Admission
  import opened Cloud
  import opened Resumption
  import opened Lifecycle

  /** The instance ids the nodes carry, in whichever form. */
  function Joined(nodes: seq<string>): set<string> {
    set k | 0 <= k < |nodes| && ProviderInstanceID(nodes[k]) != "" :: ProviderInstanceID(nodes[k])
  }

  /** Provisioned, as far as both handles say, and not among the nodes. */
  predicate Awaits(m: Machine, joined: set<string>) {
    m.spec.providerID.Some? && m.status.instanceID.Some? && ProviderInstanceID(m.spec.providerID.value) !in joined
  }

  /** Both handles are set, and the providerID names no instance or one that no node names. */
  predicate Unjoined(m: Machine, nodes: seq<string>) {
    && m.spec.providerID.Some? && m.status.instanceID.Some?
    && var id := ProviderInstanceID(m.spec.providerID.value);
       id == "" || forall k :: 0 <= k < |nodes| ==> ProviderInstanceID(nodes[k]) != id
  }

  lemma AwaitsMeans(nodes: seq<string>, machines: seq<Machine>)
    ensures forall m :: Awaits(m, Joined(nodes)) <==> Unjoined(m, nodes)
    ensures (exists i :: 0 <= i < |machines| && Awaits(machines[i], Joined(nodes))) <==>
              exists m :: m in machines && Unjoined(m, nodes)
  {
    hide ProviderInstanceID;
    forall m ensures Awaits(m, Joined(nodes)) <==> Unjoined(m, nodes) {
      if m.spec.providerID.Some? {
        var id := ProviderInstanceID(m.spec.providerID.value);
        assert id in Joined(nodes) <==> exists k :: 0 <= k < |nodes| && ProviderInstanceID(nodes[k]) == id && id != "";
      }
    }
    if m :| m in machines && Unjoined(m, nodes) {
      var i :| 0 <= i < |machines| && machines[i] == m;
    }
  }

  method HasPendingMachine(nodes: seq<string>, machines: seq<Machine>) returns (pending: bool)
    ensures pending <==> exists i :: 0 <= i < |machines| && Awaits(machines[i], Joined(nodes))
    ensures pending <==> exists m :: m in machines && Unjoined(m, nodes)
  {
    AwaitsMeans(nodes, machines);
    var joined: set<string> := {};
    for i := 0 to |nodes|
      invariant joined == Joined(nodes[..i])
    {
      var id := ProviderInstanceID(nodes[i]);
      JoinedSnoc(nodes, i);
      if id != "" {
        joined := joined + {id};
      }
    }
    assert nodes[..|nodes|] == nodes;
    for i := 0 to |machines|
      invariant forall k :: 0 <= k < i ==> !Awaits(machines[k], joined)
    {
      var m := machines[i];
      if m.spec.providerID.None? || m.status.instanceID.None? {
        continue;
      }
      if ProviderInstanceID(m.spec.providerID.value) !in joined {
        return true;
      }
    }
    return false;
  }

  lemma JoinedSnoc(nodes: seq<string>, i: nat)
    requires i < |nodes|
    ensures var id := ProviderInstanceID(nodes[i]);
            Joined(nodes[..i + 1]) == Joined(nodes[..i]) + if id != "" then {id} else {}
  {
    hide ProviderInstanceID;
    var all, init := nodes[..i + 1], nodes[..i];
    assert forall k :: 0 <= k < i ==> all[k] == init[k];
    assert all[i] == nodes[i];
    forall id | id in Joined(init) ensures id in Joined(all) {
      var k :| 0 <= k < |init| && ProviderInstanceID(init[k]) == id;
      assert ProviderInstanceID(all[k]) == id;
    }
  }

  method NodeBackedByCAPAMachine(node: string, machines: seq<Machine>) returns (backed: bool)
    ensures backed <==>
              ProviderInstanceID(node) != "" &&
              exists m :: m in machines && m.spec.providerID.Some? &&
                ProviderInstanceID(m.spec.providerID.value) == ProviderInstanceID(node)
  {
    hide ProviderInstanceID;
    var id := ProviderInstanceID(node);
    if id == "" {
      return false;
    }
    for i := 0 to |machines|
      invariant forall k :: 0 <= k < i && machines[k].spec.providerID.Some? ==>
                  ProviderInstanceID(machines[k].spec.providerID.value) != id
    {
      if machines[i].spec.providerID.Some? && ProviderInstanceID(machines[i].spec.providerID.value) == id {
        assert machines[i] in machines;
        return true;
      }
    }
    return false;
  }

  // ---------------------------------------------------------------- against the lifecycle

  /** A machine whose handles the lifecycle stored awaits exactly until some node carries its
      instance, and a node does so in the written form as in the slash form. */
  lemma AwaitsUntilJoined(wd: World, fleet: Fleet, m: Machine, nodes: seq<string>)
    requires Sound(wd) && FleetOk(wd, fleet) && MachineOk(wd, fleet, m)
    requires m.spec.providerID.Some? && m.status.instanceID.Some?
    ensures var id := ProviderInstanceID(m.spec.providerID.value);
            && (Awaits(m, Joined(nodes)) <==> forall k :: 0 <= k < |nodes| ==> ProviderInstanceID(nodes[k]) != id)
            && (ProviderIDFor(wd.region, id) in nodes || SlashForm(wd.region, id) in nodes
                ==> !Awaits(m, Joined(nodes)))
  {
    hide ProviderInstanceID, ProviderIDFor, SlashForm;
    var id := ProviderInstanceID(m.spec.providerID.value);
    FormsAgree(wd.region, id);
    assert id != "";
    if k :| 0 <= k < |nodes| && ProviderInstanceID(nodes[k]) == id {
      assert id in Joined(nodes);
    }
  }

  predicate BothHandles(m: Machine) { m.spec.providerID.Some? && m.status.instanceID.Some? }

  /** Creating, adopting or describing an instance leaves both handles in the copy. */
  lemma SeenGivesHandles(cfg: Config, inputs: Inputs, p: Progress, resp: Response)
    requires Answers(p.pc, resp) && p.pc in {AtDescribe, AtFind, AtLaunch}
    requires resp.Launched? || resp.Present? || (resp.Found? && resp.id != "")
    ensures BothHandles(Advance(cfg, inputs, p, resp).m)
  {
    hide ProviderIDFor;
  }

  /** Pending for as long as the object lives: a machine stored with both handles awaits its node,
      in every later state of every run, exactly until a node with that instance id joins. */
  lemma AwaitsForLife(wd: World, s: State, later: seq<Step>, nodes: seq<string>)
    requires Base(wd, s) && s.obj.Some? && BothHandles(s.obj.value)
    requires Valid(wd, s, later) && Run(wd, s, later).obj.Some?
    ensures var t := Run(wd, s, later);
            && BothHandles(t.obj.value)
            && (Awaits(t.obj.value, Joined(nodes)) <==>
                  forall k :: 0 <= k < |nodes| ==>
                    ProviderInstanceID(nodes[k]) != ProviderInstanceID(s.obj.value.spec.providerID.value))
  {
    hide ProviderInstanceID, MachineOk, FleetOk, Joined, Awaits, WorkerOk, Valid, Run;
    BaseRun(wd, s, later);
    StoredStaysRun(wd, s, later);
    AwaitsUntilJoined(wd, Run(wd, s, later).fleet, Run(wd, s, later).obj.value, nodes);
  }

  /** Worker w's spec write lands, other steps follow, and its status write can land. */
  ghost predicate Persists(wd: World, s: State, w: nat, between: seq<Step>) {
    Enabled(wd, s, PatchSpec(w, true)) &&
    var t := Next(wd, s, PatchSpec(w, true));
    Valid(wd, t, between) &&
    var u := Run(wd, t, between);
    w in u.workers && u.workers[w] == t.workers[w]
  }

  /** The state in which both have landed. */
  ghost function Persisted(wd: World, s: State, w: nat, between: seq<Step>): State
    requires Persists(wd, s, w, between)
  {
    Next(wd, Run(wd, Next(wd, s, PatchSpec(w, true)), between), PatchStatus(w, true))
  }

  /** An admitted write stores the copy's providerID: one it already read stayed stored. */
  lemma HandleWritten(wd: World, s: State, w: nat)
    requires Base(wd, s) && SnapshotsKept(s) && w in s.workers && s.obj.Some?
    requires s.workers[w].at.m.spec.providerID.Some?
    requires Admits(s.obj.value.spec, MergedSpec(s.workers[w], s.obj.value.spec))
    ensures var m := WriteSpec(s.workers[w], s.obj.value);
            m.Some? ==> m.value.spec.providerID == s.workers[w].at.m.spec.providerID
  {
    hide MachineOk, FleetOk, PcOk, Admits;
  }

  lemma RecordWritten(w: Worker, stored: Machine)
    requires StoredKept(w.snapshot, stored) && w.at.m.status.instanceID.Some?
    ensures WriteStatus(w, stored).status.instanceID.Some? && WriteStatus(w, stored).spec == stored.spec
  {
  }

  /** Any fully persisted reconcile: once a reconcile that saw its instance has its spec write
      admitted and its status write landed, however others overlap it and whatever happens in
      between, the machine is stored with its handles, and from then on pending, in every later
      state while it exists, exactly until a node with that instance id joins. */
  lemma PersistedAwaits(wd: World, s: State, w: nat, between: seq<Step>, later: seq<Step>, nodes: seq<string>)
    requires Base(wd, s) && SnapshotsKept(s) && w in s.workers && s.obj.Some?
    requires BothHandles(s.workers[w].at.m) && Admits(s.obj.value.spec, MergedSpec(s.workers[w], s.obj.value.spec))
    requires Persists(wd, s, w, between) && Valid(wd, Persisted(wd, s, w, between), later)
    requires Run(wd, Persisted(wd, s, w, between), later).obj.Some?
    ensures var (m, copy) := (Run(wd, Persisted(wd, s, w, between), later).obj.value, s.workers[w].at.m);
            && BothHandles(m) && m.spec.providerID == copy.spec.providerID
            && (Awaits(m, Joined(nodes)) <==>
                  forall k :: 0 <= k < |nodes| ==>
                    ProviderInstanceID(nodes[k]) != ProviderInstanceID(copy.spec.providerID.value))
  {
    hide ProviderInstanceID, MachineOk, PcOk, FleetOk, Joined, Awaits, Valid, Run, WriteSpec, WriteStatus, Admits,
      MergedSpec, StoredKept, Base, SnapshotsKept;
    var t := Next(wd, s, PatchSpec(w, true));
    var u := Run(wd, t, between);
    var v := Next(wd, u, PatchStatus(w, true));
    BaseStep(wd, s, PatchSpec(w, true));
    SnapshotsKeptStep(wd, s, PatchSpec(w, true));
    BaseRun(wd, t, between);
    SnapshotsKeptRun(wd, t, between);
    BaseStep(wd, u, PatchStatus(w, true));
    StoredStaysRun(wd, v, later);
    StoredStaysRun(wd, t, between);
    HandleWritten(wd, s, w);
    KeptFor(u, w);
    RecordWritten(u.workers[w], u.obj.value);
    HandleStays(t.obj.value, u.obj.value);
    HandleStays(v.obj.value, Run(wd, v, later).obj.value);
    AwaitsForLife(wd, v, later, nodes);
  }

  lemma KeptFor(s: State, w: nat)
    requires SnapshotsKept(s) && w in s.workers && s.obj.Some?
    ensures StoredKept(s.workers[w].snapshot, s.obj.value)
  {
  }

  lemma HandleStays(before: Machine, after: Machine)
    requires StoredKept(before, after) && before.spec.providerID.Some?
    ensures after.spec.providerID == before.spec.providerID
  {
  }
}
