/** What holds of every run of `Broker.Run`. */
module BrokerTheorems {
  import opened Wrappers
  import opened Sums
  import opened RunRoute
  import opened BrokerRun
  import Runs

  // ------------------------------------------------------------ runs and rank

  function MainRank(c: Config, m: MainPc): nat {
    match m
    case Launching(k) => 3 + (if k < |c.regs| then |c.regs| - k else 0)
    case AtSelect => 2
    case Deferred(_) => 1
    case Stopped(_) => 0
  }

  /** Upper bound on the number of steps the whole system still has. */
  function Rank(c: Config, s: State): nat {
    MainRank(c, s.main) + (if s.parentDone then 0 else 1) + (if s.ctxDone then 0 else 1) + Sum(s.routes, RouteRank)
  }

  lemma RouteStepDecreases(c: Config, s: State, i: nat, act: Action)
    requires RoutesInv(c, s) && BrokerRun.Next(c, s, RouteStep(i, act)).Some?
    ensures Rank(c, BrokerRun.Next(c, s, RouteStep(i, act)).value) < Rank(c, s)
  {
    var r := RunRoute.Next(c.workers, s.ctxDone, s.routes[i], act).value;
    NextDecreases(c.workers, s.ctxDone, s.routes[i], act);
    SumUpdate(s.routes, i, r, RouteRank);
  }

  lemma LaunchDecreases(c: Config, s: State)
    requires LaunchInv(c, s) && BrokerRun.Next(c, s, Launch).Some?
    ensures Rank(c, BrokerRun.Next(c, s, Launch).value) < Rank(c, s)
  {
    var k := s.main.next;
    SumUpdate(s.routes, k, s.routes[k].(pc := Building), RouteRank);
  }

  lemma StepDecreases(c: Config, s: State, l: Label)
    requires Inv(c, s) && BrokerRun.Next(c, s, l).Some?
    ensures Rank(c, BrokerRun.Next(c, s, l).value) < Rank(c, s)
  {
    match l
    case RouteStep(i, act) => RouteStepDecreases(c, s, i, act);
    case Launch => LaunchDecreases(c, s);
    case _ =>
  }

  /** The invariant survives every run, and a run uses up rank step by step. */
  lemma {:induction false} ExecKeepsInv(c: Config, s: State, ls: seq<Label>)
    requires Inv(c, s) && Exec(c, s, ls).Some?
    ensures Inv(c, Exec(c, s, ls).value) && Rank(c, Exec(c, s, ls).value) + |ls| <= Rank(c, s)
    decreases |ls|
  {
    if ls != [] {
      StepKeepsInv(c, s, ls[0]);
      StepDecreases(c, s, ls[0]);
      ExecKeepsInv(c, BrokerRun.Next(c, s, ls[0]).value, ls[1..]);
    }
  }

  lemma ReachableInv(c: Config, s: State)
    requires Reachable(c, s)
    ensures Inv(c, s)
  {
    var ls :| Runs.Exec(StepOf(c), Init(c), ls) == Some(s);
    InitInv(c);
    ExecKeepsInv(c, Init(c), ls);
  }

  lemma InitRank(c: Config)
    ensures Rank(c, Init(c)) <= |c.regs| * (8 * c.workers + 11) + 5
  {
    NewRouteRank(c.workers);
    var b := 8 * c.workers + 10;
    var rs := Init(c).routes;
    assert forall r | r in rs :: r == NewRoute(c.workers);
    SumAtMost(rs, RouteRank, b);
    assert |c.regs| * (b + 1) == |rs| * b + |rs|;
  }

  lemma Take(c: Config, s: State, l: Label) returns (t: State)
    requires Reachable(c, s) && BrokerRun.Next(c, s, l).Some?
    ensures BrokerRun.Next(c, s, l) == Some(t) && Reachable(c, t)
  {
    t := BrokerRun.Next(c, s, l).value;
    Runs.Step(StepOf(c), Init(c), s, l);
  }

  /** Whatever the schedule, a run makes at most this many steps. */
  lemma RunsAreBounded(c: Config, ls: seq<Label>)
    requires Exec(c, Init(c), ls).Some?
    ensures |ls| <= |c.regs| * (8 * c.workers + 11) + 5
  {
    InitInv(c);
    ExecKeepsInv(c, Init(c), ls);
    InitRank(c);
  }

  // ---------------------------------------------------- no leak, no deadlock

  /** Run has returned, and no goroutine or subscription of it is left. */
  ghost predicate Quiet(s: State) {
    s.main.Stopped? && forall r | r in s.routes :: r.pc.Idle? || RouteQuiet(r)
  }

  /** A step of the program, not of the caller. */
  predicate Internal(l: Label) {
    !l.ParentCancel?
  }

  lemma RouteMoves(c: Config, s: State, i: nat) returns (l: Label)
    requires i < |s.routes| && RouteInv(c.workers, s.routes[i]) && s.ctxDone
    requires !s.routes[i].pc.Idle? && !RouteQuiet(s.routes[i])
    ensures Internal(l) && BrokerRun.Next(c, s, l).Some?
  {
    var a := RouteProgress(c.workers, s.routes[i]);
    l := RouteStep(i, a);
  }

  lemma RoutesProgress(c: Config, s: State) returns (l: Label)
    requires RoutesInv(c, s) && s.ctxDone
    requires !forall r | r in s.routes :: r.pc.Idle? || RouteQuiet(r)
    ensures Internal(l) && BrokerRun.Next(c, s, l).Some?
  {
    var r :| r in s.routes && !r.pc.Idle? && !RouteQuiet(r);
    var i :| 0 <= i < |s.routes| && s.routes[i] == r;
    l := RouteMoves(c, s, i);
  }

  /** The caller has cancelled its context, or the derived one is done already. */
  predicate Ending(s: State) {
    s.parentDone || s.ctxDone
  }

  lemma Progress(c: Config, s: State) returns (l: Label)
    requires Inv(c, s) && Ending(s) && !Quiet(s)
    ensures Internal(l) && BrokerRun.Next(c, s, l).Some?
  {
    if !s.ctxDone {
      return Propagate;
    }
    match s.main
    case Launching(k) => l := if k == |c.regs| then LaunchOver else if c.regs[k].Some? then Launch else LaunchNil;
    case AtSelect => l := MainTakeCtx;
    case Deferred(_) => l := MainCancel;
    case Stopped(_) =>
      l := RoutesProgress(c, s);
  }

  lemma EndingStays(c: Config, s: State, l: Label)
    requires Ending(s) && BrokerRun.Next(c, s, l).Some?
    ensures Ending(BrokerRun.Next(c, s, l).value)
  {
  }

  lemma ProgressStep(c: Config, s: State) returns (l: Label, t: State)
    requires Inv(c, s) && Ending(s) && !Quiet(s)
    ensures Internal(l) && BrokerRun.Next(c, s, l) == Some(t)
    ensures Inv(c, t) && Ending(t) && Rank(c, t) < Rank(c, s)
  {
    l := Progress(c, s);
    t := BrokerRun.Next(c, s, l).value;
    StepKeepsInv(c, s, l);
    StepDecreases(c, s, l);
    EndingStays(c, s, l);
  }

  lemma {:induction false} WindDown(c: Config, s: State) returns (ls: seq<Label>, t: State)
    requires Inv(c, s) && Ending(s)
    ensures Exec(c, s, ls) == Some(t) && Quiet(t)
    ensures forall l | l in ls :: Internal(l)
    decreases Rank(c, s)
  {
    if Quiet(s) {
      ls, t := [], s;
    } else {
      var l, next := ProgressStep(c, s);
      ls, t := WindDown(c, next);
      Runs.ExecCons(StepOf(c), s, l, ls);
      ls := [l] + ls;
    }
  }

  /** No deadlock: once the caller has cancelled or the shared context is done for any
      other reason, whether or not Run has returned, every reachable state can be run by
      internal steps alone to a quiet one. */
  lemma ShutdownCompletes(c: Config, s: State) returns (ls: seq<Label>)
    requires Reachable(c, s) && (s.parentDone || s.ctxDone)
    ensures Exec(c, s, ls).Some? && Quiet(Exec(c, s, ls).value)
    ensures forall l | l in ls :: Internal(l)
  {
    ReachableInv(c, s);
    var t: State;
    ls, t := WindDown(c, s);
  }

  /** Any run that can go no further after the caller has cancelled, after the context
      was done or after Run has returned has left nothing behind, and Run has returned. */
  lemma NoGoroutineLeaks(c: Config, s: State)
    requires Reachable(c, s) && (s.main.Stopped? || s.parentDone || s.ctxDone)
    requires forall l | Internal(l) :: BrokerRun.Next(c, s, l).None?
    ensures Quiet(s)
    ensures forall r, wk | r in s.routes && wk in r.workers ::
      (wk.outcome == Some(Started) ==> wk.pc.Gone? && wk.sub.Drained?)
  {
    ReachableInv(c, s);
    if c.regs == [] {
      assert s.routes == [];
    } else if !Quiet(s) {
      var l := Progress(c, s);
    }
    forall r, wk | r in s.routes && wk in r.workers && wk.outcome == Some(Started)
      ensures wk.pc.Gone? && wk.sub.Drained?
    {
      QuietIsDrained(c.workers, r, wk);
    }
  }

  /** The caller can end every run at any time: from a reachable state, its cancel
      followed by internal steps leads to a quiet state, in which Run has returned nil
      unless some route had reported or a registration was missing. */
  lemma CancelStopsRun(c: Config, s: State) returns (ls: seq<Label>)
    requires Reachable(c, s) && !s.parentDone
    ensures forall l | l in ls :: Internal(l)
    ensures var t := Exec(c, s, [ParentCancel] + ls);
      && t.Some? && Quiet(t.value)
      && (c.regs != [] && None !in c.regs && t.value.sends == [] ==> t.value.main == Stopped(None))
  {
    var next := Take(c, s, ParentCancel);
    ls := ShutdownCompletes(c, next);
    Runs.ExecCons(StepOf(c), s, ParentCancel, ls);
    var t := Exec(c, next, ls).value;
    Runs.Continue(StepOf(c), Init(c), next, ls);
    ReachableInv(c, t);
    if None !in c.regs {
      forall i | 0 <= i < |c.regs| ensures c.regs[i].Some? { assert c.regs[i] in c.regs; }
    }
  }

  /** Fail-fast: once a runRoute has returned an error, a run that can go no further
      has stopped every route and drained every subscription, and Run has returned. */
  lemma FailFast(c: Config, s: State, i: nat, e: Error)
    requires Reachable(c, s) && i < |s.routes| && Raised(s.routes[i], e)
    requires forall l | Internal(l) :: BrokerRun.Next(c, s, l).None?
    ensures Quiet(s)
  {
    ReachableInv(c, s);
    var r := s.routes[i];
    assert r in s.routes && RouteInv(c.workers, r);
    assert BrokerRun.Next(c, s, RouteStep(i, Offer)).None?;
    assert BrokerRun.Next(c, s, RouteStep(i, Cancel)).None?;
    assert r.pc.Exited?;
    NoGoroutineLeaks(c, s);
  }

  // -------------------------------------------------------- one runRoute call

  /** `done` is closed only after every worker has finished and reported: if nothing
      was ever sent on the inner channel then every Start succeeded, and conversely.
      There is at most one send, the WaitGroup counts exactly the unfinished workers
      and never goes negative. */
  lemma CompletionIsSound(c: Config, s: State, i: nat)
    requires Reachable(c, s) && i < |s.routes|
    ensures var r := s.routes[i];
      && |r.sent| <= 1
      && r.wg >= 0
      && (r.wg == 0 <==> forall wk | wk in r.workers :: wk.pc.Unborn? || wk.pc.Gone?)
      && (r.done ==> forall wk | wk in r.workers :: wk.pc.Gone? && wk.outcome.Some?)
      && (r.done ==> (r.sent == [] <==> forall wk | wk in r.workers :: wk.outcome == Some(Started)))
      && (r.result == Some(None) && r.sent == [] && !s.ctxDone ==> forall wk | wk in r.workers :: wk.outcome == Some(Started))
  {
    ReachableInv(c, s);
    var r := s.routes[i];
    assert RouteInv(c.workers, r) && r in s.routes;
    if r.done { DoneIsSound(c.workers, r); }
    if exists wk :: wk in r.workers && Live(wk) > 0 {
      var wk :| wk in r.workers && Live(wk) > 0;
      var w :| 0 <= w < |r.workers| && r.workers[w] == wk;
      SumAtLeast(r.workers, w, Live);
    } else if r.wg > 0 {
      var w := SumPositive(r.workers, Live);
      assert false;
    }
  }

  /** reportErr never blocks for good, even after runRoute has returned: whoever is
      inside errOnce finds the channel empty, and everybody else waits only for it. */
  lemma ReportNeverBlocks(c: Config, s: State, i: nat, w: nat)
    requires Reachable(c, s) && i < |s.routes| && w < |s.routes[i].workers|
    ensures s.routes[i].workers[w].pc.Sending? ==> BrokerRun.Next(c, s, RouteStep(i, Work(w, Send))).Some?
    ensures s.routes[i].workers[w].pc.Reporting? ==>
      || BrokerRun.Next(c, s, RouteStep(i, Work(w, EnterOnce))).Some?
      || BrokerRun.Next(c, s, RouteStep(i, Work(w, SkipOnce))).Some?
      || (s.routes[i].once.Running? && BrokerRun.Next(c, s, RouteStep(i, Work(s.routes[i].once.w, Send))).Some?)
  {
    ReachableInv(c, s);
    var r := s.routes[i];
    assert RouteInv(c.workers, r);
    if r.workers[w].pc.Reporting? || r.workers[w].pc.Sending? {
      ReporterMoves(c.workers, s.ctxDone, r, w);
    }
  }

  // ------------------------------------------------------------- the result

  /** The worker's Start returned this error, or panicked and this is the report. */
  ghost predicate FailedWith(wk: Worker, e: Error) {
    wk.outcome == Some(Failed(e)) || exists v :: wk.outcome == Some(Panicked(v)) && e == "worker panic: " + v
  }

  /** Where an error can come from inside route i. */
  ghost predicate Origin(c: Config, s: State, m: Report) {
    && m.route < |s.routes|
    && var r := s.routes[m.route];
       || r.buildErr == Some(m.err)
       || (r.once.Spent? && r.once.w < |r.workers| && FailedWith(r.workers[r.once.w], m.err))
  }

  /** An error returned by Run is a validation sentinel or the first report that ever
      entered the outer channel, and every report is a consumer.New failure or the
      failure or recovered panic of the worker that won its route's errOnce. */
  lemma ErrorProvenance(c: Config, s: State)
    requires Reachable(c, s) && Answered(s) && s.main.res.Some?
    ensures
      || (s.main.res.value == "no routes provided" && c.regs == [])
      || (s.main.res.value == "route registration cannot be nil" && None in c.regs)
      || (s.sends != [] && s.main.res.value == s.sends[0].err)
    ensures forall m | m in s.sends :: Origin(c, s, m)
  {
    ReachableInv(c, s);
    forall m | m in s.sends ensures Origin(c, s, m) {
      assert RouteInv(c.workers, s.routes[m.route]);
    }
  }

  /** Bad arguments are always refused: whatever else happens, Run answers an empty list
      and a nil registration with their sentinels. */
  lemma BadArgumentsAreRefused(c: Config, s: State)
    requires Reachable(c, s) && Answered(s)
    ensures c.regs == [] ==> s.main.res == Some("no routes provided")
    ensures c.regs != [] && None in c.regs ==> s.main.res == Some("route registration cannot be nil")
  {
    ReachableInv(c, s);
    if AllPresent(c) {
      assert None !in c.regs;
    }
  }

  /** Run may return any report that waits for it, and may prefer a done context. */
  lemma EveryReadyCaseCanWin(c: Config, s: State)
    requires s.main.AtSelect?
    ensures var t := BrokerRun.Next(c, s, MainTakeErr);
      if s.outer == [] then t.None? else t.Some? && t.value.main == Deferred(Some(s.outer[0].err)) && t.value.outer == s.outer[1..]
    ensures var t := BrokerRun.Next(c, s, MainTakeCtx);
      if !s.ctxDone then t.None? else t.Some? && t.value.main == Deferred(None)
  {
  }

  /** Nothing is assumed of the schedule or of what the environment answers: the caller
      may cancel at any time, consumer.New and every Start may end in any way at any time,
      and runRoute may take any ready case of its select. */
  lemma EnvironmentIsFree(c: Config, s: State, i: nat, w: nat, failure: Option<Error>, o: Outcome)
    requires i < |s.routes| && w < |s.routes[i].workers|
    ensures BrokerRun.Next(c, s, ParentCancel).Some? <==> !s.parentDone
    ensures var r := s.routes[i];
      && (BrokerRun.Next(c, s, RouteStep(i, Build(failure))).Some? <==> r.pc.Building?)
      && (BrokerRun.Next(c, s, RouteStep(i, Work(w, Start(o)))).Some? <==> r.workers[w].pc.Starting?)
      && (BrokerRun.Next(c, s, RouteStep(i, TakeErr)).Some? <==> r.pc.Selecting? && r.inner != [])
      && (BrokerRun.Next(c, s, RouteStep(i, TakeDone)).Some? <==> r.pc.Selecting? && r.done)
      && (BrokerRun.Next(c, s, RouteStep(i, TakeCtx)).Some? <==> r.pc.Selecting? && s.ctxDone)
  {
  }

  /** At the select with the context done and the caller's context live, the first
      report is waiting in the channel: both cases are ready, and a receive that does
      not block would obtain it. */
  lemma DoneMeansReported(c: Config, s: State)
    requires Reachable(c, s) && s.main.AtSelect? && s.ctxDone && !s.parentDone
    ensures |s.sends| == 1 && s.outer == s.sends
    ensures BrokerRun.Next(c, s, MainTakeErr).Some? && BrokerRun.Next(c, s, MainTakeCtx).Some?
  {
    ReachableInv(c, s);
  }

  /** The exact meaning of a nil result under a live caller: the first report was
      left unread in the channel. */
  lemma NilMeansUnreadError(c: Config, s: State)
    requires Reachable(c, s) && Answered(s) && !s.parentDone
    requires c.regs != [] && None !in c.regs
    ensures s.main.res.None? <==> s.sends != [] && s.sends[0] in s.outer
  {
    ReachableInv(c, s);
    assert AllPresent(c);
  }

  /** Run says nil, the caller is live, and yet some route has failed. */
  ghost predicate SilentFailure(s: State) {
    && Answered(s) && s.main.res.None? && !s.parentDone
    && exists r, e :: r in s.routes && Raised(r, e)
  }

  /** The state after the first k goroutines of the launch loop are started. */
  function AfterLaunches(c: Config, k: nat): State {
    Init(c).(main := Launching(k),
             routes := seq(|c.regs|, i => if i < k then NewRoute(c.workers).(pc := Building) else NewRoute(c.workers)))
  }

  lemma {:induction false} LaunchAll(c: Config, k: nat)
    requires AllPresent(c) && k <= |c.regs|
    ensures Exec(c, AfterLaunches(c, k), seq(|c.regs| - k, _ => Launch)) == Some(AfterLaunches(c, |c.regs|))
    decreases |c.regs| - k
  {
    var ls := seq(|c.regs| - k, _ => Launch);
    if k < |c.regs| {
      var t := BrokerRun.Next(c, AfterLaunches(c, k), Launch).value;
      assert t.routes == AfterLaunches(c, k + 1).routes;
      assert ls[1..] == seq(|c.regs| - (k + 1), _ => Launch);
      LaunchAll(c, k + 1);
    }
  }

  lemma AllLaunched(c: Config)
    requires AllPresent(c) && c.regs != []
    ensures Reachable(c, AfterLaunches(c, |c.regs|))
  {
    assert AfterLaunches(c, 0).routes == Init(c).routes;
    LaunchAll(c, 0);
  }

  /** Run waits, nobody has reported anything, and route i is at work. */
  ghost predicate AtWork(c: Config, s: State, i: nat) {
    && Reachable(c, s) && s.main.AtSelect? && !s.ctxDone && !s.parentDone && s.outer == []
    && i < |s.routes| && |s.routes[i].workers| == c.workers
    && s.routes[i].buildErr.None? && s.routes[i].inner == [] && s.routes[i].once.Fresh?
  }

  /** A failure of route i has ended the context while Run waits. */
  ghost predicate Spread(c: Config, s: State, i: nat, e: Error) {
    && Reachable(c, s) && s.main.AtSelect? && s.ctxDone && !s.parentDone
    && i < |s.routes| && Raised(s.routes[i], e)
  }

  /** A step of route i that touches nothing shared. */
  lemma TakeInside(c: Config, s: State, i: nat, a: Action) returns (t: State)
    requires Reachable(c, s) && i < |s.routes| && !a.Offer? && !a.Cancel?
    requires RunRoute.Next(c.workers, s.ctxDone, s.routes[i], a).Some?
    ensures Reachable(c, t)
    ensures t == s.(routes := s.routes[i := RunRoute.Next(c.workers, s.ctxDone, s.routes[i], a).value])
  {
    t := Take(c, s, RouteStep(i, a));
  }

  lemma RouteReports(c: Config, s: State, i: nat, e: Error) returns (t: State)
    requires Reachable(c, s) && s.main.AtSelect? && !s.parentDone
    requires i < |s.routes| && s.routes[i].pc == Returned(Some(e)) && Raised(s.routes[i], e)
    ensures Spread(c, t, i, e)
    ensures t.routes[i].workers == s.routes[i].workers && t.routes[i].buildErr == s.routes[i].buildErr
  {
    t := Take(c, s, RouteStep(i, Offer));
    t := Take(c, t, RouteStep(i, Cancel));
  }

  lemma LaunchedAtSelect(c: Config, i: nat) returns (s: State)
    requires AllPresent(c) && i < |c.regs|
    ensures AtWork(c, s, i) && s.routes[i].pc.Building?
  {
    AllLaunched(c);
    s := Take(c, AfterLaunches(c, |c.regs|), LaunchOver);
  }

  lemma BuildFails(c: Config, i: nat, e: Error) returns (s: State)
    requires AllPresent(c) && i < |c.regs|
    ensures Spread(c, s, i, e)
  {
    s := LaunchedAtSelect(c, i);
    s := TakeInside(c, s, i, Build(Some(e)));
    s := RouteReports(c, s, i, e);
  }

  lemma {:induction false} SpawnUpTo(c: Config, i: nat, k: nat) returns (s: State)
    requires AllPresent(c) && i < |c.regs| && k <= c.workers
    ensures AtWork(c, s, i) && s.routes[i].pc == Spawning(k)
    ensures forall w :: 0 <= w < k ==> s.routes[i].workers[w].pc.Starting?
  {
    if k == 0 {
      s := LaunchedAtSelect(c, i);
      s := TakeInside(c, s, i, Build(None));
    } else {
      s := SpawnUpTo(c, i, k - 1);
      s := TakeInside(c, s, i, Spawn);
    }
  }

  lemma WorkerSends(c: Config, i: nat, w: nat, o: Outcome) returns (s: State)
    requires AllPresent(c) && i < |c.regs| && w < c.workers && !o.Started?
    ensures Reachable(c, s) && s.main.AtSelect? && !s.parentDone && i < |s.routes|
    ensures s.routes[i].pc.Selecting? && s.routes[i].buildErr.None? && s.routes[i].inner == [ErrorOf(o)]
    ensures w < |s.routes[i].workers| && s.routes[i].workers[w].outcome == Some(o)
  {
    s := SpawnUpTo(c, i, c.workers);
    s := TakeInside(c, s, i, SpawnWaiter);
    s := TakeInside(c, s, i, Work(w, Start(o)));
    s := TakeInside(c, s, i, Work(w, EnterOnce));
    s := TakeInside(c, s, i, Work(w, Send));
  }

  /** Worker w of route i fails first, and the others are still starting. */
  lemma WorkerFails(c: Config, i: nat, w: nat, o: Outcome) returns (s: State)
    requires AllPresent(c) && i < |c.regs| && w < c.workers && !o.Started?
    ensures Spread(c, s, i, ErrorOf(o)) && s.routes[i].buildErr.None?
    ensures w < |s.routes[i].workers| && s.routes[i].workers[w].outcome == Some(o)
  {
    s := WorkerSends(c, i, w, o);
    s := TakeInside(c, s, i, TakeErr);
    s := RouteReports(c, s, i, ErrorOf(o));
  }

  /** Every error can be lost: for any route, any worker of it and any way in which its
      Start fails or panics there is a run in which the route reports just that, the
      caller is live, and Run returns nil because its select took the context case. */
  lemma LosesError(c: Config, i: nat, w: nat, o: Outcome) returns (s: State)
    requires AllPresent(c) && i < |c.regs| && w < c.workers && !o.Started?
    ensures Reachable(c, s) && SilentFailure(s)
    ensures i < |s.routes| && Raised(s.routes[i], ErrorOf(o)) && s.routes[i].buildErr.None?
    ensures w < |s.routes[i].workers| && s.routes[i].workers[w].outcome == Some(o)
  {
    s := WorkerFails(c, i, w, o);
    s := Take(c, s, MainTakeCtx);
    assert s.routes[i] in s.routes;
  }

  lemma LosesBuildError(c: Config, i: nat, e: Error) returns (s: State)
    requires AllPresent(c) && i < |c.regs|
    ensures Reachable(c, s) && SilentFailure(s) && i < |s.routes| && Raised(s.routes[i], e)
  {
    s := BuildFails(c, i, e);
    s := Take(c, s, MainTakeCtx);
    assert s.routes[i] in s.routes;
  }

  /** The failure behind the nil is that of a worker. */
  ghost predicate SilentWorkerFailure(s: State) {
    && SilentFailure(s)
    && exists r, wk :: r in s.routes && wk in r.workers && Failure(wk) && Raised(r, ErrorOf(wk.outcome.value))
  }

  lemma UnreachableSelectIsNeverSilent(c: Config, s: State)
    requires Reachable(c, s) && (c.regs == [] || None in c.regs)
    ensures !SilentFailure(s)
  {
    ReachableInv(c, s);
  }

  lemma NoWorkersNoFailure(c: Config, s: State)
    requires Reachable(c, s) && c.workers == 0
    ensures !SilentWorkerFailure(s)
  {
    ReachableInv(c, s);
    forall i | 0 <= i < |s.routes| ensures s.routes[i].workers == [] {
      assert RouteInv(c.workers, s.routes[i]);
    }
  }

  /** "No silent route failures" holds of a call exactly when Run cannot reach its
      select: there is no registration at all, or one of them is nil.  For failures of
      workers, having no worker is the only other way out. */
  lemma NoSilentFailuresIff(c: Config)
    ensures (forall s | Reachable(c, s) :: !SilentFailure(s)) <==> c.regs == [] || None in c.regs
    ensures (forall s | Reachable(c, s) :: !SilentWorkerFailure(s)) <==> c.regs == [] || None in c.regs || c.workers == 0
  {
    if c.regs == [] || None in c.regs {
      forall s | Reachable(c, s) ensures !SilentFailure(s) { UnreachableSelectIsNeverSilent(c, s); }
    } else {
      forall i | 0 <= i < |c.regs| ensures c.regs[i].Some? { assert c.regs[i] in c.regs; }
      var s := LosesBuildError(c, 0, "");
      if c.workers > 0 {
        var t := LosesError(c, 0, 0, Failed(""));
        assert t.routes[0] in t.routes && t.routes[0].workers[0] in t.routes[0].workers;
      } else {
        forall t | Reachable(c, t) ensures !SilentWorkerFailure(t) { NoWorkersNoFailure(c, t); }
      }
    }
  }

  // ------------------------------------------------ Run does not wait for anyone

  lemma {:induction false} MainRunsAlone(c: Config, s: State) returns (t: State)
    requires Reachable(c, s) && s.ctxDone && 0 < |s.routes| == |c.regs| && s.routes[0].pc.Building?
    requires s.main.Launching? ==> 1 <= s.main.next <= |c.regs|
    ensures Reachable(c, t) && t.main.Stopped? && 0 < |t.routes| && t.routes[0].pc.Building?
    decreases MainRank(c, s.main)
  {
    if s.main.Stopped? {
      t := s;
    } else {
      var l := match s.main
        case Launching(k) => if k == |c.regs| then LaunchOver else if c.regs[k].Some? then Launch else LaunchNil
        case AtSelect => MainTakeCtx
        case _ => MainCancel;
      t := Take(c, s, l);
      t := MainRunsAlone(c, t);
    }
  }

  lemma NothingLaunched(c: Config, s: State)
    requires Inv(c, s) && c.regs != [] && c.regs[0].None?
    ensures forall r | r in s.routes :: r.pc.Idle?
  {
    forall i | 0 <= i < |s.routes| ensures s.routes[i].pc.Idle? {
      assert s.routes[0] in s.routes;
    }
  }

  /** Returning from Run means that everything has ended only when nothing was ever
      launched: no registration, or a nil one in the first place. */
  lemma ReturnMeansQuietIff(c: Config)
    ensures (forall s | Reachable(c, s) && s.main.Stopped? :: Quiet(s)) <==> c.regs == [] || c.regs[0].None?
  {
    if c.regs == [] || c.regs[0].None? {
      forall s | Reachable(c, s) && s.main.Stopped? ensures Quiet(s) {
        ReachableInv(c, s);
        if c.regs == [] {
          assert s.routes == [];
        } else {
          NothingLaunched(c, s);
        }
      }
    } else {
      assert Exec(c, Init(c), []) == Some(Init(c));
      var s := Take(c, Init(c), Launch);
      s := Take(c, s, ParentCancel);
      s := Take(c, s, Propagate);
      s := MainRunsAlone(c, s);
      assert s.routes[0] in s.routes;
    }
  }
}
