/** The second way an error is lost: runRoute's own select may prefer the closed
    `done` to the waiting report, and then nobody is told and Run waits for ever. */
module BrokerStall {
  import opened Wrappers
  import opened RunRoute
  import opened BrokerRun
  import opened BrokerTheorems
  import Runs

  /** Run waits at its select, only the caller can still move, and a worker failed. */
  ghost predicate Stalled(c: Config, s: State) {
    && s.main.AtSelect?
    && (forall l | Internal(l) :: BrokerRun.Next(c, s, l).None?)
    && exists r, wk :: r in s.routes && wk in r.workers && Failure(wk)
  }

  /** How the Start of each worker is to end, by route and worker. */
  type Fate = (nat, nat) -> Outcome

  /** Route i on the way to being lost: every Start so far has ended as fated, and
      runRoute has not returned an error. */
  ghost predicate Doomed(o: Fate, i: nat, r: Route) {
    && (r.result.None? || r.result == Some(None))
    && (r.pc.Exited? || r.pc.Returned? ==> r.done)
    && (forall w :: 0 <= w < |r.workers| ==> r.workers[w].outcome.None? || r.workers[w].outcome == Some(o(i, w)))
  }

  ghost predicate AllDoomed(c: Config, o: Fate, s: State) {
    && Inv(c, s) && AllPresent(c) && !s.ctxDone && !s.parentDone
    && (s.main.Launching? || s.main.AtSelect?)
    && s.outer == []
    && forall i :: 0 <= i < |s.routes| ==> Doomed(o, i, s.routes[i])
  }

  /** Every goroutine but the drainers has ended. */
  ghost predicate Lost(r: Route) {
    && r.pc.Exited? && r.waiter.WaiterGone?
    && forall wk | wk in r.workers :: wk.pc.Gone?
  }

  /** Every worker has ended as fated. */
  ghost predicate Fulfilled(c: Config, o: Fate, s: State) {
    && |s.routes| == |c.regs|
    && forall i :: 0 <= i < |s.routes| ==>
      && |s.routes[i].workers| == c.workers
      && forall w :: 0 <= w < c.workers ==> s.routes[i].workers[w].outcome == Some(o(i, w))
  }

  lemma WorkKeepsDoomed(n: nat, o: Fate, i: nat, r: Route, w: nat, step: WorkerStep)
    requires RouteInv(n, r) && Doomed(o, i, r) && w < n && WorkerNext(false, r, w, step).Some?
    requires step.Start? ==> step.o == o(i, w)
    ensures Doomed(o, i, WorkerNext(false, r, w, step).value)
  {
    var t := WorkerNext(false, r, w, step).value;
    assert t.workers == r.workers[w := t.workers[w]];
  }

  lemma DoomedExitIsLost(n: nat, o: Fate, i: nat, r: Route)
    requires RouteInv(n, r) && Doomed(o, i, r) && r.pc.Exited?
    ensures Lost(r)
  {
  }

  /** While the workers are not done, one of them or their waiter moves as fated. */
  lemma FatedStep(n: nat, o: Fate, i: nat, r: Route) returns (a: Action)
    requires RouteInv(n, r) && Doomed(o, i, r) && (r.waiter.Waiting? || r.waiter.Closing?) && r.pc.Selecting?
    ensures RunRoute.Next(n, false, r, a).Some? && Doomed(o, i, RunRoute.Next(n, false, r, a).value)
    ensures !a.Offer? && !a.Cancel?
  {
    a := WaiterProgress(n, false, r);
    if a.Work? {
      if a.step.Start? { a := Work(a.w, Start(o(i, a.w))); }
      WorkKeepsDoomed(n, o, i, r, a.w, a.step);
    }
  }

  /** Unless it is lost already, a launched doomed route has a step that leaves it
      doomed and touches nothing shared. */
  lemma DoomedStep(n: nat, o: Fate, i: nat, r: Route) returns (a: Action)
    requires RouteInv(n, r) && Doomed(o, i, r) && !r.pc.Idle? && !Lost(r)
    ensures RunRoute.Next(n, false, r, a).Some? && Doomed(o, i, RunRoute.Next(n, false, r, a).value)
    ensures !a.Offer? && !a.Cancel?
  {
    match r.pc
    case Building => a := Build(None);
    case Spawning(k) => a := if k < n then Spawn else SpawnWaiter;
    case Selecting => if r.done { a := TakeDone; } else { a := FatedStep(n, o, i, r); }
    case Returned(_) => a := Leave;
    case Cancelling => assert false;
    case Exited => DoomedExitIsLost(n, o, i, r); assert false;
  }

  /** Without the context, a lost route has no step. */
  lemma LostIsStuck(n: nat, r: Route, a: Action)
    requires RouteInv(n, r) && Lost(r)
    ensures RunRoute.Next(n, false, r, a).None?
  {
    if a.Work? && a.w < n {
      assert r.workers[a.w] in r.workers && WorkerInv(r.workers[a.w]);
    }
  }

  lemma LostIsFulfilled(c: Config, o: Fate, s: State)
    requires AllDoomed(c, o, s) && forall r | r in s.routes :: Lost(r)
    ensures Fulfilled(c, o, s)
  {
    forall i, w | 0 <= i < |s.routes| && 0 <= w < c.workers ensures s.routes[i].workers[w].outcome == Some(o(i, w)) {
      var r := s.routes[i];
      assert r in s.routes && RouteInv(c.workers, r) && Doomed(o, i, r);
      assert r.workers[w] in r.workers && WorkerInv(r.workers[w]);
    }
    assert forall i :: 0 <= i < |s.routes| ==> RouteInv(c.workers, s.routes[i]);
  }

  lemma LostIsQuiescent(c: Config, o: Fate, s: State)
    requires AllDoomed(c, o, s) && s.main.AtSelect? && forall r | r in s.routes :: Lost(r)
    ensures forall l | Internal(l) :: BrokerRun.Next(c, s, l).None?
  {
    forall l | Internal(l) ensures BrokerRun.Next(c, s, l).None? {
      if l.RouteStep? && l.i < |s.routes| {
        assert s.routes[l.i] in s.routes;
        LostIsStuck(c.workers, s.routes[l.i], l.act);
      }
    }
  }

  lemma LostMeansStalled(c: Config, o: Fate, s: State, i: nat, w: nat)
    requires AllDoomed(c, o, s) && s.main.AtSelect? && (forall r | r in s.routes :: Lost(r))
    requires i < |c.regs| && w < c.workers && !o(i, w).Started?
    ensures Stalled(c, s) && Fulfilled(c, o, s)
  {
    LostIsQuiescent(c, o, s);
    LostIsFulfilled(c, o, s);
    assert s.routes[i] in s.routes && s.routes[i].workers[w] in s.routes[i].workers;
  }

  lemma LaunchDoomed(c: Config, o: Fate, s: State) returns (l: Label, t: State)
    requires AllDoomed(c, o, s) && s.main.Launching?
    ensures BrokerRun.Next(c, s, l) == Some(t) && AllDoomed(c, o, t)
  {
    l := if s.main.next < |c.regs| then Launch else LaunchOver;
    t := BrokerRun.Next(c, s, l).value;
    StepKeepsInv(c, s, l);
  }

  lemma RouteDoomed(c: Config, o: Fate, s: State, i: nat) returns (l: Label, t: State)
    requires AllDoomed(c, o, s) && s.main.AtSelect? && i < |s.routes| && !Lost(s.routes[i])
    ensures BrokerRun.Next(c, s, l) == Some(t) && AllDoomed(c, o, t)
  {
    var a := DoomedStep(c.workers, o, i, s.routes[i]);
    l := RouteStep(i, a);
    t := BrokerRun.Next(c, s, l).value;
    RouteStepKeepsInv(c, s, i, a);
  }

  lemma NextDoomed(c: Config, o: Fate, s: State) returns (l: Label, t: State)
    requires AllDoomed(c, o, s) && !(s.main.AtSelect? && forall r | r in s.routes :: Lost(r))
    ensures BrokerRun.Next(c, s, l) == Some(t) && AllDoomed(c, o, t)
  {
    if s.main.Launching? {
      l, t := LaunchDoomed(c, o, s);
    } else {
      var r :| r in s.routes && !Lost(r);
      var i :| 0 <= i < |s.routes| && s.routes[i] == r;
      l, t := RouteDoomed(c, o, s, i);
    }
  }

  lemma {:induction false} RunToLoss(c: Config, o: Fate, s: State) returns (ls: seq<Label>, t: State)
    requires AllDoomed(c, o, s)
    ensures Exec(c, s, ls) == Some(t) && AllDoomed(c, o, t) && t.main.AtSelect? && forall r | r in t.routes :: Lost(r)
    decreases Rank(c, s)
  {
    if s.main.AtSelect? && forall r | r in s.routes :: Lost(r) {
      ls, t := [], s;
    } else {
      var l, next := NextDoomed(c, o, s);
      StepDecreases(c, s, l);
      ls, t := RunToLoss(c, o, next);
      Runs.ExecCons(StepOf(c), s, l, ls);
      ls := [l] + ls;
    }
  }

  lemma InitDoomed(c: Config, o: Fate)
    requires AllPresent(c) && c.regs != []
    ensures AllDoomed(c, o, Init(c))
  {
    InitInv(c);
  }

  /** Any failure, alone or among others, can be lost in this way: however the Starts of
      all workers of all routes end, as long as one of them fails, there is a run in
      which they end so and after which only the caller can move. */
  lemma AnyFailureStalls(c: Config, o: Fate, i: nat, w: nat) returns (s: State)
    requires AllPresent(c) && i < |c.regs| && w < c.workers && !o(i, w).Started?
    ensures Reachable(c, s) && Stalled(c, s) && !s.parentDone && Fulfilled(c, o, s)
  {
    InitDoomed(c, o);
    var ls: seq<Label>;
    ls, s := RunToLoss(c, o, Init(c));
    LostMeansStalled(c, o, s, i, w);
  }

  lemma StallNeeds(c: Config, s: State)
    requires Inv(c, s) && Stalled(c, s)
    ensures c.regs != [] && None !in c.regs && c.workers > 0
  {
    var r, wk :| r in s.routes && wk in r.workers && Failure(wk);
    var i :| 0 <= i < |s.routes| && s.routes[i] == r;
    assert RouteInv(c.workers, s.routes[i]);
    assert |r.workers| > 0;
  }

  /** A failed worker can leave Run waiting for ever exactly when Run can reach its
      select and there is a worker at all. */
  lemma StallsIff(c: Config)
    ensures (exists s :: Reachable(c, s) && Stalled(c, s)) <==> c.regs != [] && None !in c.regs && c.workers > 0
  {
    if c.regs != [] && None !in c.regs && c.workers > 0 {
      forall i | 0 <= i < |c.regs| ensures c.regs[i].Some? { assert c.regs[i] in c.regs; }
      var t := AnyFailureStalls(c, (i, w) => Failed(""), 0, 0);
    }
    forall s | Reachable(c, s) && Stalled(c, s) ensures c.regs != [] && None !in c.regs && c.workers > 0 {
      ReachableInv(c, s);
      StallNeeds(c, s);
    }
  }
}
