/** What readiness and failure are worth: a ready object's own instance was seen Running exactly
    under the token or with serial reconciles, and a throttle is terminal exactly when the server
    sent it with a code that is. */
module Readiness {
  import opened Objects
  import opened ProviderIDs
  import opened FailureDomains
  import opened Cloud
  import opened Resumption
  import opened Lifecycle
  import opened Handles
  import opened Orphans
  import opened Histories
  import opened Runs
  import opened Necessity
  import Retry

  // ---------------------------------------------------------------- the instance that was seen

  /** This instance was never seen Running. */
  predicate NotSeen(log: seq<Event>, id: string) {
    forall e :: e in log && ShowsRunning(e) ==> e.call.id != id
  }

  /** Worker w read this object and has created an instance for it, nothing written yet. */
  predicate Created(s: State, w: nat, m: Machine, id: string) {
    && w in s.workers && s.workers[w].snapshot == m && !s.workers[w].specDone && !Calling(s.workers[w].at)
    && s.workers[w].at.m.status == m.status.(instanceID := Some(id), instanceState := Some(Pending))
  }

  lemma LaunchTwice(wd: World, s0: State, before: seq<Step>, s: State, m: Machine)
    returns (steps: seq<Step>, t: State, a: string, b: string)
    requires Reached(wd, s0, before, s) && s.workers.Keys == {0, 1} && Looked(s, 0, m) && Looked(s, 1, m)
    requires !wd.env.tokens
    ensures Reached(wd, s0, steps, t) && t.obj == s.obj && t.workers.Keys == {0, 1}
    ensures a != b && a in t.fleet && t.fleet[a] == Made(wd)
    ensures Created(t, 0, m, a) && Created(t, 1, m, b) && (Unseen(s.log) ==> Unseen(t.log))
  {
    hide Reached, NewID, Unseen, GuardedRun, TokenUsed, ProviderIDFor;
    a := FreshID(s.fleet);
    var s1;
    steps, s1 := LaunchPass(wd, s0, before, s, 0, a);
    b := FreshID(s1.fleet);
    assert a != b by { NewIsNew(s1.fleet, b); }
    steps, t := LaunchPass(wd, s0, steps, s1, 1, b);
  }

  /** Two overlapping creates: one instance each, neither stored yet. */
  lemma TwoCreated(wd: World, s0: State, inputs: Inputs)
    returns (steps: seq<Step>, s: State, a: string, b: string)
    requires Init(wd, s0) && Creates(inputs, s0.obj.value) && !wd.env.tokens && !wd.env.serial
    ensures Reached(wd, s0, steps, s) && s.obj == s0.obj && s.workers.Keys == {0, 1} && Unseen(s.log)
    ensures a != b && a in s.fleet && s.fleet[a] == Made(wd)
    ensures Created(s, 0, s0.obj.value, a) && Created(s, 1, s0.obj.value, b)
  {
    steps, s := BothLooked(wd, s0, inputs);
    hide Reached, Creates, Init, Unseen, Looked, Created;
    steps, s, a, b := LaunchTwice(wd, s0, steps, s, s0.obj.value);
  }

  /** The first of the two is stored and found Running; the object is stored ready. */
  lemma FirstReady(wd: World, s0: State, inputs: Inputs)
    returns (steps: seq<Step>, s: State, b: string)
    requires Init(wd, s0) && Creates(inputs, s0.obj.value) && !wd.env.tokens && !wd.env.serial
    ensures Reached(wd, s0, steps, s) && s.obj.Some? && s.obj.value.status.ready && NotSeen(s.log, b)
    ensures Created(s, 1, s0.obj.value, b)
  {
    var a;
    FreshHandles(wd, s0);
    steps, s, a, b := TwoCreated(wd, s0, inputs);
    hide Base, Enabled, Next, Init, Valid, Run, GuardedRun, Resolve, Resolvable, WantsHarden, ShowsRunning;
    steps, s := PatchStatusOnly(wd, s0, steps, s, 0);
    steps, s := Drifts(wd, s0, steps, s, a, Some(Running));
    var poll := inputs.(nodeRef := false);
    assert Pollable(wd, s, poll, a);
    steps, s := ReadyPass(wd, s0, steps, s, poll, a, b);
  }

  /** A reconcile that finds the recorded instance Running and stores the object ready. */
  lemma ReadyPass(wd: World, s0: State, before: seq<Step>, s: State, inputs: Inputs, a: string, b: string)
    returns (steps: seq<Step>, t: State)
    requires Reached(wd, s0, before, s) && Pollable(wd, s, inputs, a) && !inputs.nodeRef && !wd.env.serial
    requires 2 !in s.workers && a != b && Unseen(s.log)
    ensures Reached(wd, s0, steps, t) && t.obj.Some? && t.obj.value.status.ready && NotSeen(t.log, b)
    ensures t.workers == s.workers
  {
    hide Base, Enabled, Next, Valid, Run, GuardedRun, Resolve, Resolvable;
    BeginDescribe(wd, s, 2, inputs, a);
    Go(wd, s0, before, s, Begin(2, inputs));
    steps, t := before + [Begin(2, inputs)], Next(wd, s, Begin(2, inputs));
    SeesRunning(wd, t, 2, a);
    ghost var log := t.log;
    Go(wd, s0, steps, t, Answer(2, RUNNING));
    steps, t := steps + [Answer(2, RUNNING)], Next(wd, t, Answer(2, RUNNING));
    assert t.log == log + [t.log[|log|]];
    ReadyWrite(t.workers[2], t.obj.value);
    steps, t := PatchStatusBy(wd, s0, steps, t, 2);
  }

  lemma ReadyWrite(w: Worker, stored: Machine)
    requires w.snapshot == stored && w.at.m.status.ready
    ensures WriteStatus(w, stored).status.ready
  {
  }

  /** The late status write of the second create renames the recorded instance and leaves ready. */
  lemma ReadyUnseen(wd: World, s0: State, inputs: Inputs) returns (steps: seq<Step>)
    requires Init(wd, s0) && Creates(inputs, s0.obj.value) && !wd.env.tokens && !wd.env.serial
    ensures Valid(wd, s0, steps) && !SeenItself(Run(wd, s0, steps))
  {
    var s, b;
    FreshHandles(wd, s0);
    steps, s, b := FirstReady(wd, s0, inputs);
    hide Base, Valid, Run, GuardedRun, ShowsRunning;
    steps, s := PatchStatusBy(wd, s0, steps, s, 1);
  }

  /** A stored ready or provisioned object's own instance was seen Running, in every reachable
      state, exactly when the token is honoured or reconciles are serial. */
  lemma ReadyExactly(wd: World, s0: State, inputs: Inputs)
    requires Init(wd, s0) && Creates(inputs, s0.obj.value)
    ensures (wd.env.tokens || wd.env.serial) <==>
              forall steps :: Valid(wd, s0, steps) ==> SeenItself(Run(wd, s0, steps))
  {
    hide Valid, Run, SeenItself, Init, Creates;
    if wd.env.tokens || wd.env.serial {
      forall steps | Valid(wd, s0, steps) ensures SeenItself(Run(wd, s0, steps)) {
        ReadyWasRunning(wd, s0, steps);
      }
    } else {
      var steps := ReadyUnseen(wd, s0, inputs);
    }
  }

  // ---------------------------------------------------------------- terminal throttles

  lemma {:induction false} ContainsFirst(s: string, sub: string)
    requires sub != "" && Retry.Contains(s, sub)
    ensures sub[0] in s
  {
    if !(sub <= s) {
      ContainsFirst(s[1..], sub);
    }
  }

  lemma NoThrottlingCode(code: string)
    requires code in {"Invalid.Zone.NotEnoughResource", "InsufficientCapacity", "OperationDenied.NoStock",
                      "Invalid.SpotStrategy.NotSupported", "Invalid.SpotPriceLimit.Exceeded"}
    ensures !Retry.Contains(code, "Throttling")
  {
    assert 'T' !in code;
    if Retry.Contains(code, "Throttling") {
      ContainsFirst(code, "Throttling");
    }
  }

  /** An error that ends a create for good is also one the retry loop waits on exactly when the
      server sent it with status 429 or 503: classification goes by the code alone. */
  lemma TerminalThrottle(e: Retry.Error)
    requires ClassifyCreateError(e).Terminal?
    ensures Retry.Throttling(e) <==> e.httpStatus == 429 || e.httpStatus == 503
  {
    hide Retry.Contains;
    NoThrottlingCode(ErrorCode(e));
  }

  /** A throttle left over when the retries are spent does fail the machine: from a fresh object
      that can create, the run in which the lookup ends with this throttle stores a failure reason
      exactly when the status is 429 or 503 and the code a terminal one. */
  lemma ThrottleFails(wd: World, s0: State, inputs: Inputs, e: Retry.Error) returns (steps: seq<Step>)
    requires Init(wd, s0) && Creates(inputs, s0.obj.value) && Retry.Throttling(e)
    ensures Valid(wd, s0, steps)
    ensures var s := Run(wd, s0, steps);
            && s.obj.Some? && (exists x :: x in s.log && x.Answered? && x.resp == Failed(e))
            && (s.obj.value.status.failureReason.Some? <==>
                  ClassifyCreateError(e).Terminal? && (e.httpStatus == 429 || e.httpStatus == 503))
  {
    if ClassifyCreateError(e).Terminal? { TerminalThrottle(e); }
    InitBase(wd, s0);
    NothingYet(wd, s0);
    NoGuards(wd, s0);
    FreshHandles(wd, s0);
    hide Reached, NoneLive, Init, Base, Retry.Throttling, ClassifyCreateError;
    var s;
    steps, s := FailPass(wd, s0, [], s0, inputs, e);
  }

  /** A reconcile whose lookup fails with this error, both its writes landing. */
  lemma FailPass(wd: World, s0: State, before: seq<Step>, s: State, inputs: Inputs, e: Retry.Error)
    returns (steps: seq<Step>, t: State)
    requires Reached(wd, s0, before, s) && s.workers == map[] && s.obj.Some? && Creates(inputs, s.obj.value)
    requires s.obj.value.spec.providerID.None? && s.obj.value.status.failureReason.None?
    ensures Reached(wd, s0, steps, t)
    ensures t.obj.Some? && exists x :: x in t.log && x.Answered? && x.resp == Failed(e)
    ensures t.obj.value.status.failureReason.Some? <==> ClassifyCreateError(e).Terminal?
  {
    hide Base, Valid, Run, GuardedRun, Enabled, ClassifyCreateError;
    BeginCreate(wd, s, 0, inputs);
    Go(wd, s0, before, s, Begin(0, inputs));
    steps, t := before + [Begin(0, inputs)], Next(wd, s, Begin(0, inputs));
    hide Next;
    var fail := Answer(0, Refused(e));
    LookupFails(wd, t, 0, e);
    FailureLogged(wd, t, 0, e);
    Go(wd, s0, steps, t, fail);
    steps, t := steps + [fail], Next(wd, t, fail);
    steps, t := PatchBoth(wd, s0, steps, t);
  }

  lemma FailureLogged(wd: World, s: State, w: nat, e: Retry.Error)
    requires Enabled(wd, s, Answer(w, Refused(e))) && s.workers[w].at.pc == AtFind
    ensures exists x :: x in Next(wd, s, Answer(w, Refused(e))).log && x.Answered? && x.resp == Failed(e)
  {
    var t := Next(wd, s, Answer(w, Refused(e)));
    assert t.log[|s.log|].resp == Failed(e);
    assert t.log[|s.log|] in t.log;
  }
}
