/** Safety and progress of deletion together: taking rounds of delete passes releases the
    object and leaves nothing of it running, exactly when the delete path can tell its region. */
module Teardown {
  import opened Resumption
  import opened Lifecycle
  import opened Handles
  import opened Orphans
  import opened Drain

  function Flat(rounds: seq<Round>): seq<Step> {
    if rounds == [] then [] else rounds[0].pass + rounds[0].tick + Flat(rounds[1..])
  }

  lemma {:induction false} RoundsAreARun(wd: World, s: State, rounds: seq<Round>)
    requires ValidRounds(wd, s, rounds)
    ensures Valid(wd, s, Flat(rounds)) && Run(wd, s, Flat(rounds)) == AfterRounds(wd, s, rounds)
    decreases |rounds|
  {
    hide Pass, Tick, Valid, Run;
    if rounds == [] {
      NoSteps(wd, s);
    } else {
      var r := rounds[0];
      Concat(wd, s, r.pass, r.tick);
      RoundsAreARun(wd, AfterRound(wd, s, r), rounds[1..]);
      Concat(wd, s, r.pass + r.tick, Flat(rounds[1..]));
    }
  }

  // ---------------------------------------------------------------- clean release

  lemma {:induction false} PassGuarded(wd: World, s: State, steps: seq<Step>)
    requires Valid(wd, s, steps) && PassRest(wd, s, steps)
    ensures GuardedRun(wd, s, steps)
    decreases |steps|
  {
    hide Enabled, Next;
    if steps != [] {
      PassGuarded(wd, Next(wd, s, steps[0]), steps[1..]);
    }
  }

  lemma RoundSafe(wd: World, s: State, r: Round)
    requires Safe(wd, s) && ValidRound(wd, s, r)
    ensures Safe(wd, AfterRound(wd, s, r))
  {
    hide Safe, Enabled, Next, AnyTransient;
    PassGuarded(wd, Next(wd, s, r.pass[0]), r.pass[1..]);
    assert GuardedRun(wd, s, r.pass);
    SafeRun(wd, s, r.pass);
    var mid := Run(wd, s, r.pass);
    assert GuardedRun(wd, mid, r.tick);
    SafeRun(wd, mid, r.tick);
  }

  lemma {:induction false} RoundsSafe(wd: World, s: State, rounds: seq<Round>)
    requires Safe(wd, s) && ValidRounds(wd, s, rounds)
    ensures Safe(wd, AfterRounds(wd, s, rounds))
    decreases |rounds|
  {
    hide Safe, ValidRound, AfterRound;
    if rounds != [] {
      RoundSafe(wd, s, rounds[0]);
      RoundsSafe(wd, AfterRound(wd, s, rounds[0]), rounds[1..]);
    }
  }

  /** A whole life: after any guarded run from a fresh object to a pause in its deletion, rounds
      of delete passes can be taken, never more than the distance plus one of them, and however
      that many are taken the object is released with no live instance of it left. */
  lemma LifeEndsClean(wd: World, s0: State, steps: seq<Step>, rounds: seq<Round>)
    requires Init(wd, s0) && wd.env.serial && wd.env.current
    requires Valid(wd, s0, steps) && GuardedRun(wd, s0, steps)
    requires var s := Run(wd, s0, steps);
             && s.workers == map[] && Deleting(s) && !Stuck(s.obj.value)
             && ValidRounds(wd, s, rounds)
    ensures var s := Run(wd, s0, steps);
            && |rounds| <= Distance(wd, s.fleet) + 1
            && (|rounds| == Distance(wd, s.fleet) + 1 ==>
                  AfterRounds(wd, s, rounds).obj.None? && NoneLive(wd, AfterRounds(wd, s, rounds).fleet))
  {
    var s := Run(wd, s0, steps);
    InitSafe(wd, s0);
    SafeRun(wd, s0, steps);
    hide Distance, ValidRounds, AfterRounds, NoneLive;
    RoundsSafe(wd, s, rounds);
    DeletionTerminates(wd, s, rounds);
  }

  /** From a pause in a deletion some run releases the object if and only if the region is known. */
  lemma ReleasableExactly(wd: World, s: State, inputs: Inputs)
    requires Base(wd, s) && Synced(s) && wd.env.serial && wd.env.current && s.workers == map[]
    requires Deleting(s) && inputs.clientOk
    ensures !Stuck(s.obj.value) <==> exists steps :: Valid(wd, s, steps) && Run(wd, s, steps).obj.None?
  {
    hide Valid, Run, ValidRounds, AfterRounds, Base;
    if Stuck(s.obj.value) {
      forall steps | Valid(wd, s, steps) ensures Run(wd, s, steps).obj.Some? {
        StuckForever(wd, s, steps);
      }
    } else {
      var rounds := DeletionCompletes(wd, s, inputs);
      RoundsAreARun(wd, s, rounds);
    }
  }
}
