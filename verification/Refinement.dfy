/** The reconcile method, run without interruption against the cloud, is a run of the
    lifecycle: its exchanges are exactly the answers of one worker. */
module Refinement {
  import opened Objects
  import opened Cloud
  import opened Resumption
  import opened Controller
  import opened Lifecycle

  /** The cloud gave the logged answers, one outcome per exchange. */
  predicate Served(wd: World, fleet: Fleet, xs: seq<Exchange>, os: seq<Outcome>)
    decreases |xs|
  {
    |os| == |xs| &&
    (xs == [] ||
     (Allowed(wd.env, fleet, xs[0].call, os[0]) && Perform(fleet, xs[0].call, os[0]).1 == xs[0].resp &&
      Served(wd, Perform(fleet, xs[0].call, os[0]).0, xs[1..], os[1..])))
  }

  function Answering(w: nat, os: seq<Outcome>): seq<Step> {
    if os == [] then [] else [Lifecycle.Answer(w, os[0])] + Answering(w, os[1..])
  }

  lemma {:induction false} AnswersRun(wd: World, s: State, w: nat, xs: seq<Exchange>, os: seq<Outcome>, m: Machine,
                                      v: Verdict)
    requires w in s.workers && Served(wd, s.fleet, xs, os)
    requires Follows(wd.cfg, s.workers[w].inputs, s.workers[w].at, xs, m, v)
    ensures Valid(wd, s, Answering(w, os))
    ensures var t := Run(wd, s, Answering(w, os));
            t.obj == s.obj && t.workers == s.workers[w := s.workers[w].(at := Progress(m, Returned(v)))]
    decreases |xs|
  {
    hide Advance, NextCall, Perform, Allowed;
    if xs == [] {
      assert s.workers == s.workers[w := s.workers[w]];
    } else {
      var step := Lifecycle.Answer(w, os[0]);
      assert Answering(w, os)[1..] == Answering(w, os[1..]);
      AnswersRun(wd, Next(wd, s, step), w, xs[1..], os[1..], m, v);
    }
  }

  /** Whatever Controller.Reconcile did to its copy, the lifecycle's worker ends with the same
      copy and verdict, its two writes still ahead. */
  lemma ReconcileIsARun(wd: World, s: State, w: nat, inputs: Inputs, xs: seq<Exchange>, os: seq<Outcome>, m: Machine,
                        v: Verdict)
    requires Enabled(wd, s, Begin(w, inputs)) && Served(wd, s.fleet, xs, os)
    requires Follows(wd.cfg, inputs, Start(wd.cfg, inputs, s.obj.value), xs, m, v)
    ensures var steps := [Begin(w, inputs)] + Answering(w, os);
            && Valid(wd, s, steps)
            && w in Run(wd, s, steps).workers
            && Run(wd, s, steps).workers[w] == Worker(inputs, s.obj.value, Progress(m, Returned(v)), false)
  {
    hide Start;
    AnswersRun(wd, Next(wd, s, Begin(w, inputs)), w, xs, os, m, v);
    assert ([Begin(w, inputs)] + Answering(w, os))[1..] == Answering(w, os);
  }
}
