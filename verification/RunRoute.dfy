/** One call of `runRoute` (broker/broker.go) and every goroutine it starts: the
    route goroutine itself, its workers, the WaitGroup waiter and one drainer per
    subscription.  A state is a snapshot between two atomic steps; an action names
    the goroutine that moves and, where the environment decides, the choice made. */
module RunRoute {
  import opened Wrappers
  import opened Sums

  /** An error value, known by its text. */
  type Error = string

  /** How `instrument` followed by `cons.Start` ended in one worker. */
  datatype Outcome = Started | Failed(err: Error) | Panicked(value: string)

  /** What the worker reports for an outcome that is not `Started`. */
  function ErrorOf(o: Outcome): Error
    requires !o.Started?
  {
    if o.Failed? then o.err else "worker panic: " + o.value
  }

  datatype WorkerPc =
    | Unborn                 // its go statement has not run
    | Starting               // inside cons.Start
    | Subscribed             // subscription made, drainer not yet spawned
    | Reporting(err: Error)  // calling reportErr
    | Sending(err: Error)    // inside errOnce.Do, at errCh <- e
    | Returning              // only the deferred wg.Done is left
    | Gone

  datatype Sub = NoSub | Unwatched | Watched | Drained

  datatype Worker = Worker(pc: WorkerPc, outcome: Option<Outcome>, sub: Sub)

  datatype Once = Fresh | Running(w: nat) | Spent(w: nat)

  datatype WaiterPc = NoWaiter | Waiting | Closing | WaiterGone

  datatype RoutePc =
    | Idle                              // goroutine not launched
    | Building                          // in consumer.New
    | Spawning(next: nat)               // worker loop
    | Selecting                         // final select of runRoute
    | Returned(result: Option<Error>)   // runRoute has returned
    | Cancelling                        // offer made, cancel() pending
    | Exited

  /** `sent` lists every value ever sent on the inner `errCh`, and `result` what
      runRoute returned; both are history only. */
  datatype Route = Route(
    pc: RoutePc,
    buildErr: Option<Error>,
    workers: seq<Worker>,
    wg: int,
    once: Once,
    inner: seq<Error>,
    sent: seq<Error>,
    done: bool,
    waiter: WaiterPc,
    result: Option<Option<Error>>)

  datatype WorkerStep = Start(o: Outcome) | Watch | EnterOnce | SkipOnce | Send | WgDone | Drain

  datatype Action =
    | Build(failure: Option<Error>)
    | Spawn
    | SpawnWaiter
    | TakeErr
    | TakeDone
    | TakeCtx
    | Leave
    | Offer
    | Cancel
    | WaitOver
    | CloseDone
    | Work(w: nat, step: WorkerStep)

  function NewRoute(n: nat): Route {
    Route(Idle, None, seq(n, _ => Worker(Unborn, None, NoSub)), 0, Fresh, [], [], false, NoWaiter, None)
  }

  function Put(r: Route, w: nat, wk: Worker): Route
    requires w < |r.workers|
  {
    r.(workers := r.workers[w := wk])
  }

  /** runRoute returns `res`. */
  function Finish(r: Route, res: Option<Error>): Route {
    r.(pc := Returned(res), result := Some(res))
  }

  /** The effect of an action, or None when the goroutine cannot take it now.  The
      shared context enters as `ctxDone`; what Offer and Cancel do to the outer
      channel and the context is in module BrokerRun. */
  function Next(n: nat, ctxDone: bool, r: Route, a: Action): Option<Route> {
    match a
    case Build(failure) =>
      if !r.pc.Building? then None
      else if failure.None? then Some(r.(pc := Spawning(0)))
      else Some(Finish(r, failure).(buildErr := failure))
    case Spawn =>
      if r.pc.Spawning? && r.pc.next < n && r.pc.next < |r.workers| then
        Some(Put(r, r.pc.next, r.workers[r.pc.next].(pc := Starting)).(pc := Spawning(r.pc.next + 1), wg := r.wg + 1))
      else None
    case SpawnWaiter =>
      if r.pc.Spawning? && r.pc.next >= n then Some(r.(pc := Selecting, waiter := Waiting)) else None
    case TakeErr =>
      if r.pc.Selecting? && r.inner != [] then Some(Finish(r, Some(r.inner[0])).(inner := r.inner[1..])) else None
    case TakeDone =>
      if r.pc.Selecting? && r.done then Some(Finish(r, None)) else None
    case TakeCtx =>
      if r.pc.Selecting? && ctxDone then Some(Finish(r, None)) else None
    case Leave =>
      if r.pc.Returned? && r.pc.result.None? then Some(r.(pc := Exited)) else None
    case Offer =>
      if r.pc.Returned? && r.pc.result.Some? then Some(r.(pc := Cancelling)) else None
    case Cancel =>
      if r.pc.Cancelling? then Some(r.(pc := Exited)) else None
    case WaitOver =>
      if r.waiter.Waiting? && r.wg == 0 then Some(r.(waiter := Closing)) else None
    case CloseDone =>
      if r.waiter.Closing? then Some(r.(waiter := WaiterGone, done := true)) else None
    case Work(w, step) =>
      if w < |r.workers| then WorkerNext(ctxDone, r, w, step) else None
  }

  function WorkerNext(ctxDone: bool, r: Route, w: nat, step: WorkerStep): Option<Route>
    requires w < |r.workers|
  {
    var wk := r.workers[w];
    match step
    case Start(o) =>
      if !wk.pc.Starting? then None
      else if o.Started? then Some(Put(r, w, Worker(Subscribed, Some(o), Unwatched)))
      else Some(Put(r, w, Worker(Reporting(ErrorOf(o)), Some(o), NoSub)))
    case Watch =>
      if wk.pc.Subscribed? then Some(Put(r, w, wk.(pc := Returning, sub := Watched))) else None
    case EnterOnce =>
      if wk.pc.Reporting? && r.once.Fresh? then
        Some(Put(r, w, wk.(pc := Sending(wk.pc.err))).(once := Running(w)))
      else None
    case SkipOnce =>
      if wk.pc.Reporting? && r.once.Spent? then Some(Put(r, w, wk.(pc := Returning))) else None
    case Send =>
      if wk.pc.Sending? && |r.inner| < 1 then
        Some(Put(r, w, wk.(pc := Returning)).(inner := r.inner + [wk.pc.err], sent := r.sent + [wk.pc.err], once := Spent(w)))
      else None
    case WgDone =>
      if wk.pc.Returning? then Some(Put(r, w, wk.(pc := Gone)).(wg := r.wg - 1)) else None
    case Drain =>
      if wk.sub.Watched? && ctxDone then Some(Put(r, w, wk.(sub := Drained))) else None
  }

  // ---------------------------------------------------------------- invariant

  /** Whether this worker holds one unit of the WaitGroup. */
  function Live(wk: Worker): nat {
    if wk.pc.Unborn? || wk.pc.Gone? then 0 else 1
  }

  /** Start succeeded, or nothing to report is left because the report was made. */
  predicate Over(wk: Worker) {
    wk.pc.Returning? || wk.pc.Gone?
  }

  predicate Failure(wk: Worker) {
    wk.outcome.Some? && !wk.outcome.value.Started?
  }

  ghost predicate WorkerInv(wk: Worker) {
    match wk.pc
    case Unborn => wk.outcome.None? && wk.sub.NoSub?
    case Starting => wk.outcome.None? && wk.sub.NoSub?
    case Subscribed => wk.outcome == Some(Started) && wk.sub.Unwatched?
    case Reporting(e) => Failure(wk) && wk.sub.NoSub? && e == ErrorOf(wk.outcome.value)
    case Sending(e) => Failure(wk) && wk.sub.NoSub? && e == ErrorOf(wk.outcome.value)
    case _ =>
      wk.outcome.Some? && if Failure(wk) then wk.sub.NoSub? else wk.sub.Watched? || wk.sub.Drained?
  }

  /** How many workers have been launched. */
  function Launched(n: nat, r: Route): nat {
    if r.pc.Spawning? then r.pc.next else if r.waiter.NoWaiter? then 0 else n
  }

  ghost predicate Shape(n: nat, r: Route) {
    && |r.workers| == n
    && Launched(n, r) <= n
    && (forall w :: 0 <= w < n ==> WorkerInv(r.workers[w]) && (r.workers[w].pc.Unborn? <==> w >= Launched(n, r)))
    && r.wg == Sum(r.workers, Live)
  }

  ghost predicate ControlInv(r: Route) {
    && (r.pc.Idle? || r.pc.Building? || r.pc.Spawning? ==> r.waiter.NoWaiter?)
    && (r.pc.Selecting? ==> !r.waiter.NoWaiter?)
    && (r.buildErr.Some? ==> r.waiter.NoWaiter? && r.result == Some(r.buildErr))
    && (r.waiter.NoWaiter? && r.result.Some? ==> r.buildErr.Some?)
    && (r.result.Some? <==> r.pc.Returned? || r.pc.Cancelling? || r.pc.Exited?)
    && (r.pc.Returned? ==> r.result == Some(r.pc.result))
    && (r.pc.Cancelling? ==> r.result.value.Some?)
    && (r.done <==> r.waiter.WaiterGone?)
    && (r.waiter.Closing? || r.waiter.WaiterGone? ==> forall wk | wk in r.workers :: wk.pc.Gone?)
  }

  /** errOnce and the inner channel: nobody past the report without a send, one
      send at most, and the sent value is the winner's own failure. */
  ghost predicate OnceInv(r: Route) {
    && (forall w :: 0 <= w < |r.workers| && r.workers[w].pc.Sending? ==> r.once == Running(w))
    && (r.once.Spent? || forall wk | wk in r.workers && Over(wk) :: !Failure(wk))
    && match r.once
       case Fresh => r.sent == []
       case Running(w) => r.sent == [] && w < |r.workers| && r.workers[w].pc.Sending?
       case Spent(w) =>
         && w < |r.workers| && Over(r.workers[w]) && Failure(r.workers[w])
         && r.sent == [ErrorOf(r.workers[w].outcome.value)]
  }

  /** The inner channel holds what was sent until runRoute takes it, and what
      runRoute returns is a consumer.New failure or the value it took. */
  ghost predicate InnerInv(r: Route) {
    && (r.inner == r.sent || (r.inner == [] && r.sent != [] && r.result == Some(Some(r.sent[0]))))
    && (r.result.Some? && r.result.value.Some? && r.buildErr.None? ==> r.sent == [r.result.value.value] && r.inner == [])
  }

  ghost predicate RouteInv(n: nat, r: Route) {
    Shape(n, r) && ControlInv(r) && OnceInv(r) && InnerInv(r)
  }

  lemma NewRouteInv(n: nat)
    ensures RouteInv(n, NewRoute(n))
  {
    var ws := NewRoute(n).workers;
    SumAtMost(ws, Live, 0);
  }

  lemma WorkerStepKeepsInv(ctxDone: bool, r: Route, w: nat, step: WorkerStep)
    requires w < |r.workers| && WorkerInv(r.workers[w]) && WorkerNext(ctxDone, r, w, step).Some?
    ensures var t := WorkerNext(ctxDone, r, w, step).value;
      && WorkerInv(t.workers[w]) && !r.workers[w].pc.Unborn? && !t.workers[w].pc.Unborn?
      && t.wg - r.wg == Live(t.workers[w]) - Live(r.workers[w])
      && t.pc == r.pc && t.waiter == r.waiter
  {
  }

  lemma WorkKeepsShape(n: nat, ctxDone: bool, r: Route, w: nat, step: WorkerStep)
    requires Shape(n, r) && w < n && WorkerNext(ctxDone, r, w, step).Some?
    ensures Shape(n, WorkerNext(ctxDone, r, w, step).value)
  {
    var t := WorkerNext(ctxDone, r, w, step).value;
    var wk, wk' := r.workers[w], t.workers[w];
    assert t.workers == r.workers[w := wk'];
    SumUpdate(r.workers, w, wk', Live);
    WorkerStepKeepsInv(ctxDone, r, w, step);
  }

  /** A worker step that leaves errOnce alone. */
  lemma WorkBesideOnce(n: nat, ctxDone: bool, r: Route, w: nat, step: WorkerStep)
    requires Shape(n, r) && OnceInv(r) && w < n && WorkerNext(ctxDone, r, w, step).Some?
    requires step.Start? || step.Watch? || step.WgDone? || step.Drain?
    ensures OnceInv(WorkerNext(ctxDone, r, w, step).value)
  {
    var t := WorkerNext(ctxDone, r, w, step).value;
    assert t.workers == r.workers[w := t.workers[w]];
    assert WorkerInv(r.workers[w]) && r.workers[w] in r.workers;
  }

  lemma WorkAtOnce(n: nat, ctxDone: bool, r: Route, w: nat, step: WorkerStep)
    requires Shape(n, r) && OnceInv(r) && w < n && WorkerNext(ctxDone, r, w, step).Some?
    requires step.EnterOnce? || step.SkipOnce? || step.Send?
    ensures OnceInv(WorkerNext(ctxDone, r, w, step).value)
  {
    var t := WorkerNext(ctxDone, r, w, step).value;
    assert t.workers == r.workers[w := t.workers[w]];
    assert WorkerInv(r.workers[w]);
  }

  lemma WorkKeepsOnce(n: nat, ctxDone: bool, r: Route, w: nat, step: WorkerStep)
    requires Shape(n, r) && OnceInv(r) && w < n && WorkerNext(ctxDone, r, w, step).Some?
    ensures OnceInv(WorkerNext(ctxDone, r, w, step).value)
  {
    if step.EnterOnce? || step.SkipOnce? || step.Send? {
      WorkAtOnce(n, ctxDone, r, w, step);
    } else {
      WorkBesideOnce(n, ctxDone, r, w, step);
    }
  }

  lemma WorkKeepsInner(ctxDone: bool, r: Route, w: nat, step: WorkerStep)
    requires OnceInv(r) && InnerInv(r) && w < |r.workers| && WorkerNext(ctxDone, r, w, step).Some?
    ensures InnerInv(WorkerNext(ctxDone, r, w, step).value)
  {
  }

  lemma WorkKeepsControl(n: nat, ctxDone: bool, r: Route, w: nat, step: WorkerStep)
    requires Shape(n, r) && ControlInv(r) && w < n && WorkerNext(ctxDone, r, w, step).Some?
    ensures ControlInv(WorkerNext(ctxDone, r, w, step).value)
  {
    var t := WorkerNext(ctxDone, r, w, step).value;
    assert t.workers == r.workers[w := t.workers[w]];
    assert r.workers[w] in r.workers;
    WorkerStepKeepsInv(ctxDone, r, w, step);
  }

  lemma WorkKeepsInv(n: nat, ctxDone: bool, r: Route, w: nat, step: WorkerStep)
    requires RouteInv(n, r) && w < n && WorkerNext(ctxDone, r, w, step).Some?
    ensures RouteInv(n, WorkerNext(ctxDone, r, w, step).value)
  {
    WorkKeepsShape(n, ctxDone, r, w, step);
    WorkKeepsOnce(n, ctxDone, r, w, step);
    WorkKeepsInner(ctxDone, r, w, step);
    WorkKeepsControl(n, ctxDone, r, w, step);
  }

  lemma SpawnKeepsInv(n: nat, r: Route)
    requires RouteInv(n, r) && Next(n, false, r, Spawn).Some?
    ensures RouteInv(n, Next(n, false, r, Spawn).value)
  {
    var t := Next(n, false, r, Spawn).value;
    SumUpdate(r.workers, r.pc.next, t.workers[r.pc.next], Live);
    assert forall wk | wk in t.workers :: wk == t.workers[r.pc.next] || wk in r.workers;
  }

  lemma NoneLive(n: nat, r: Route)
    requires Shape(n, r) && r.wg == 0 && r.waiter.Waiting? && !r.pc.Spawning?
    ensures forall wk | wk in r.workers :: wk.pc.Gone?
  {
    forall w | 0 <= w < n ensures r.workers[w].pc.Gone? { SumAtLeast(r.workers, w, Live); }
  }

  /** The two steps of the goroutine that waits for the workers. */
  lemma WaiterKeepsInv(n: nat, ctxDone: bool, r: Route, a: Action)
    requires RouteInv(n, r) && (a.WaitOver? || a.CloseDone?) && Next(n, ctxDone, r, a).Some?
    ensures RouteInv(n, Next(n, ctxDone, r, a).value)
  {
    if a.WaitOver? {
      NoneLive(n, r);
    }
  }

  lemma ControlKeepsInv(n: nat, ctxDone: bool, r: Route, a: Action)
    requires RouteInv(n, r) && !a.Work? && !a.Spawn? && Next(n, ctxDone, r, a).Some?
    ensures RouteInv(n, Next(n, ctxDone, r, a).value)
  {
    if a.WaitOver? || a.CloseDone? {
      WaiterKeepsInv(n, ctxDone, r, a);
    } else {
      assert Next(n, ctxDone, r, a).value.workers == r.workers;
    }
  }

  lemma NextKeepsInv(n: nat, ctxDone: bool, r: Route, a: Action)
    requires RouteInv(n, r) && Next(n, ctxDone, r, a).Some?
    ensures RouteInv(n, Next(n, ctxDone, r, a).value)
  {
    match a
    case Work(w, step) => WorkKeepsInv(n, ctxDone, r, w, step);
    case Spawn => SpawnKeepsInv(n, r);
    case _ => ControlKeepsInv(n, ctxDone, r, a);
  }

  /** The route goroutine has made its offer, or had none to make. */
  predicate Settled(r: Route) {
    r.pc.Cancelling? || r.pc.Exited?
  }

  /** runRoute returned this error. */
  predicate Raised(r: Route, e: Error) {
    r.result == Some(Some(e))
  }

  /** Nothing so far shows that the context is done: no subscription is drained, and
      a nil from runRoute was earned by a closed `done`. */
  predicate Untouched(r: Route) {
    (forall wk | wk in r.workers :: !wk.sub.Drained?) && (r.result == Some(None) ==> r.done)
  }

  /** How a step of a route may look from outside. */
  ghost predicate Evolves(r: Route, a: Action, t: Route) {
    && (r.pc.Idle? <==> t.pc.Idle?)
    && (r.result.Some? ==> t.result == r.result)
    && (Settled(r) ==> Settled(t) && t.result == r.result)
    && (Settled(t) && !Settled(r) && t.result != Some(None) ==>
      a.Offer? && r.pc.Returned? && r.pc.result.Some? && Raised(t, r.pc.result.value))
    && (a.Offer? ==> Settled(t) && r.pc.Returned? && r.pc.result.Some? && Raised(t, r.pc.result.value) && !Settled(r))
    && (a.Cancel? ==> r.pc.Cancelling?)
    && (t.pc.Exited? && !r.pc.Exited? && t.result != Some(None) ==> a.Cancel?)
  }

  lemma WorkEvolves(n: nat, ctxDone: bool, r: Route, w: nat, step: WorkerStep)
    requires Shape(n, r) && w < n && WorkerNext(ctxDone, r, w, step).Some?
    ensures var t := WorkerNext(ctxDone, r, w, step).value;
      t.pc == r.pc && t.result == r.result && (!ctxDone && Untouched(r) ==> Untouched(t))
  {
    var t := WorkerNext(ctxDone, r, w, step).value;
    assert t.workers == r.workers[w := t.workers[w]];
    assert r.workers[w] in r.workers && WorkerInv(r.workers[w]);
    assert !ctxDone && !r.workers[w].sub.Drained? ==> !t.workers[w].sub.Drained?;
  }

  lemma NextEvolves(n: nat, ctxDone: bool, r: Route, a: Action)
    requires RouteInv(n, r) && !r.pc.Idle? && Next(n, ctxDone, r, a).Some?
    ensures Evolves(r, a, Next(n, ctxDone, r, a).value)
    ensures !ctxDone && Untouched(r) ==> Untouched(Next(n, ctxDone, r, a).value)
  {
    match a
    case Work(w, step) => WorkEvolves(n, ctxDone, r, w, step);
    case Spawn =>
      var t := Next(n, ctxDone, r, a).value;
      assert forall wk | wk in t.workers :: wk == t.workers[r.pc.next] || wk in r.workers;
      assert r.workers[r.pc.next] in r.workers;
    case _ =>
      assert Next(n, ctxDone, r, a).value.workers == r.workers;
  }

  /** A route that is not launched yet has no step at all. */
  lemma IdleIsStuck(n: nat, ctxDone: bool, r: Route, a: Action)
    requires RouteInv(n, r) && r.pc.Idle?
    ensures Next(n, ctxDone, r, a).None?
  {
    if a.Work? && a.w < n {
      assert WorkerInv(r.workers[a.w]);
    }
  }

  // ---------------------------------------------------------- steps remaining

  /** Upper bound on the steps one worker and its drainer still have. */
  function WorkerRank(wk: Worker): nat {
    (match wk.pc
     case Unborn => 8
     case Starting => 7
     case Subscribed => 4
     case Reporting(_) => 5
     case Sending(_) => 4
     case Returning => 1
     case Gone => 0)
    + (match wk.sub case Unwatched => 2 case Watched => 1 case _ => 0)
  }

  function ControlRank(r: Route): nat {
    (match r.pc
     case Idle => 7
     case Building => 6
     case Spawning(_) => 5
     case Selecting => 4
     case Returned(_) => 3
     case Cancelling => 2
     case Exited => 0)
    + (match r.waiter case NoWaiter => 3 case Waiting => 2 case Closing => 1 case WaiterGone => 0)
  }

  function RouteRank(r: Route): nat {
    ControlRank(r) + Sum(r.workers, WorkerRank)
  }

  lemma NewRouteRank(n: nat)
    ensures RouteRank(NewRoute(n)) <= 8 * n + 10
  {
    SumAtMost(NewRoute(n).workers, WorkerRank, 8);
  }

  lemma WorkerStepDecreases(ctxDone: bool, r: Route, w: nat, step: WorkerStep)
    requires w < |r.workers| && WorkerInv(r.workers[w]) && WorkerNext(ctxDone, r, w, step).Some?
    ensures var t := WorkerNext(ctxDone, r, w, step).value;
      WorkerRank(t.workers[w]) < WorkerRank(r.workers[w]) && ControlRank(t) == ControlRank(r)
  {
  }

  lemma WorkDecreases(n: nat, ctxDone: bool, r: Route, w: nat, step: WorkerStep)
    requires Shape(n, r) && w < n && WorkerNext(ctxDone, r, w, step).Some?
    ensures RouteRank(WorkerNext(ctxDone, r, w, step).value) < RouteRank(r)
  {
    var t := WorkerNext(ctxDone, r, w, step).value;
    var wk' := t.workers[w];
    assert t.workers == r.workers[w := wk'];
    SumUpdate(r.workers, w, wk', WorkerRank);
    WorkerStepDecreases(ctxDone, r, w, step);
  }

  lemma ControlDecreases(n: nat, ctxDone: bool, r: Route, a: Action)
    requires ControlInv(r) && !a.Work? && !a.Spawn? && Next(n, ctxDone, r, a).Some?
    ensures var t := Next(n, ctxDone, r, a).value;
      t.workers == r.workers && ControlRank(t) < ControlRank(r)
  {
  }

  /** No step is a stutter: each uses up part of a finite budget. */
  lemma NextDecreases(n: nat, ctxDone: bool, r: Route, a: Action)
    requires RouteInv(n, r) && Next(n, ctxDone, r, a).Some?
    ensures RouteRank(Next(n, ctxDone, r, a).value) < RouteRank(r)
  {
    match a
    case Work(w, step) => WorkDecreases(n, ctxDone, r, w, step);
    case Spawn =>
      var t := Next(n, ctxDone, r, a).value;
      SumUpdate(r.workers, r.pc.next, t.workers[r.pc.next], WorkerRank);
    case _ => ControlDecreases(n, ctxDone, r, a);
  }

  /** Every goroutine of this call has ended and every subscription is drained. */
  ghost predicate RouteQuiet(r: Route) {
    && r.pc.Exited?
    && (r.waiter.NoWaiter? || r.waiter.WaiterGone?)
    && (forall wk | wk in r.workers :: (wk.pc.Unborn? || wk.pc.Gone?) && (wk.sub.NoSub? || wk.sub.Drained?))
  }

  /** What a worker inside reportErr can do. */
  lemma ReporterMoves(n: nat, ctxDone: bool, r: Route, w: nat)
    requires OnceInv(r) && InnerInv(r) && w < n == |r.workers| && (r.workers[w].pc.Reporting? || r.workers[w].pc.Sending?)
    ensures r.workers[w].pc.Sending? ==> r.once == Running(w)
    ensures match r.once
      case Fresh => Next(n, ctxDone, r, Work(w, EnterOnce)).Some?
      case Spent(_) => Next(n, ctxDone, r, Work(w, SkipOnce)).Some?
      case Running(v) => Next(n, ctxDone, r, Work(v, Send)).Some?
  {
  }

  lemma ReporterProgress(n: nat, ctxDone: bool, r: Route, w: nat) returns (a: Action)
    requires OnceInv(r) && InnerInv(r) && w < n == |r.workers| && (r.workers[w].pc.Reporting? || r.workers[w].pc.Sending?)
    ensures a.Work? && Next(n, ctxDone, r, a).Some? && !a.step.Drain? && !a.step.Start?
  {
    ReporterMoves(n, ctxDone, r, w);
    match r.once
    case Fresh => a := Work(w, EnterOnce);
    case Spent(_) => a := Work(w, SkipOnce);
    case Running(v) => a := Work(v, Send);
  }

  /** A worker that is neither unborn nor gone can move, or the worker that is
      running errOnce can: reportErr never blocks for good, and in particular its
      send finds the channel empty. */
  lemma WorkerProgress(n: nat, ctxDone: bool, r: Route, w: nat) returns (a: Action)
    requires RouteInv(n, r) && w < n && Live(r.workers[w]) > 0
    ensures a.Work? && Next(n, ctxDone, r, a).Some? && !a.step.Drain?
    ensures a.step.Start? ==> a.step.o.Failed?
  {
    var wk := r.workers[w];
    match wk.pc
    case Starting => a := Work(w, Start(Failed("")));
    case Subscribed => a := Work(w, Watch);
    case Reporting(e) => a := ReporterProgress(n, ctxDone, r, w);
    case Sending(e) => a := ReporterProgress(n, ctxDone, r, w);
    case Returning => a := Work(w, WgDone);
  }

  /** While the WaitGroup waiter is still there, it or a worker can move. */
  lemma WaiterProgress(n: nat, ctxDone: bool, r: Route) returns (a: Action)
    requires RouteInv(n, r) && (r.waiter.Waiting? || r.waiter.Closing?)
    ensures Next(n, ctxDone, r, a).Some?
    ensures a.WaitOver? || a.CloseDone? || (a.Work? && !a.step.Drain?)
    ensures a.Work? && a.step.Start? ==> a.step.o.Failed?
  {
    if r.waiter.Closing? {
      a := CloseDone;
    } else if r.wg == 0 {
      a := WaitOver;
    } else {
      var w := SumPositive(r.workers, Live);
      a := WorkerProgress(n, ctxDone, r, w);
    }
  }

  /** A subscription that is not drained yet can be, once the workers are gone. */
  lemma DrainerProgress(n: nat, r: Route) returns (a: Action)
    requires RouteInv(n, r) && r.pc.Exited? && (r.waiter.NoWaiter? || r.waiter.WaiterGone?) && !RouteQuiet(r)
    ensures Next(n, true, r, a).Some?
  {
    var wk :| wk in r.workers && !((wk.pc.Unborn? || wk.pc.Gone?) && (wk.sub.NoSub? || wk.sub.Drained?));
    var w :| 0 <= w < n && r.workers[w] == wk;
    assert WorkerInv(wk) && (wk.pc.Unborn? || wk.pc.Gone?);
    a := Work(w, Drain);
  }

  /** Once the context is done, a launched call that is not quiet has a next step. */
  lemma RouteProgress(n: nat, r: Route) returns (a: Action)
    requires RouteInv(n, r) && !r.pc.Idle? && !RouteQuiet(r)
    ensures Next(n, true, r, a).Some?
  {
    match r.pc
    case Building => a := Build(None);
    case Spawning(k) => a := if k < n then Spawn else SpawnWaiter;
    case Selecting => a := TakeCtx;
    case Returned(res) => a := if res.None? then Leave else Offer;
    case Cancelling => a := Cancel;
    case Exited =>
      if r.waiter.Waiting? || r.waiter.Closing? {
        a := WaiterProgress(n, true, r);
      } else {
        a := DrainerProgress(n, r);
      }
  }

  // ------------------------------------------------------------ what is known

  /** A closed `done` means that every worker has finished and, unless a report was
      sent on the inner channel, that every Start succeeded. */
  lemma DoneIsSound(n: nat, r: Route)
    requires RouteInv(n, r) && r.done
    ensures forall w :: 0 <= w < n ==> r.workers[w].pc.Gone? && r.workers[w].outcome.Some?
    ensures r.sent == [] <==> forall w :: 0 <= w < n ==> r.workers[w].outcome == Some(Started)
  {
    assert forall w :: 0 <= w < n ==> r.workers[w] in r.workers && WorkerInv(r.workers[w]);
  }

  /** In a quiet call every subscription that was made is drained. */
  lemma QuietIsDrained(n: nat, r: Route, wk: Worker)
    requires RouteInv(n, r) && (r.pc.Idle? || RouteQuiet(r)) && wk in r.workers && wk.outcome == Some(Started)
    ensures wk.pc.Gone? && wk.sub.Drained?
  {
    var w :| 0 <= w < n && r.workers[w] == wk;
    assert WorkerInv(wk) && !wk.pc.Unborn?;
  }
}
