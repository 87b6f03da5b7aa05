/** `Broker.Run` (broker/broker.go): the launch loop, one route goroutine per
    registration, the shared context and the outer error channel, as an interleaving
    transition system for any number of routes and workers.  A `select` with several
    ready cases may take any of them. */
module BrokerRun {
  import opened Wrappers
  import opened RunRoute
  import Router
  import Runs

  const ERR_NO_ROUTES: Error := "no routes provided"
  const ERR_NIL_ROUTE_REGISTRATION: Error := "route registration cannot be nil"

  /** The arguments of Run: a registration may be nil.  `workers` is b.workers. */
  datatype Config = Config(regs: seq<Option<Router.Route>>, workers: nat)

  datatype MainPc =
    | Launching(next: nat)
    | AtSelect
    | Deferred(res: Option<Error>)  // result decided, the deferred cancel is pending
    | Stopped(res: Option<Error>)   // Run has returned

  /** A value on the outer channel, with the route that sent it. */
  datatype Report = Report(route: nat, err: Error)

  /** `sends` lists every value that entered the outer channel and `taken` is the one
      Run received; both are history only. */
  datatype State = State(
    main: MainPc,
    parentDone: bool,
    ctxDone: bool,
    outer: seq<Report>,
    sends: seq<Report>,
    taken: Option<Report>,
    routes: seq<Route>)

  datatype Label =
    | ParentCancel           // the environment ends the caller's context
    | Propagate              // the derived context learns of it
    | Launch
    | LaunchNil
    | LaunchOver
    | MainTakeErr
    | MainTakeCtx
    | MainCancel
    | RouteStep(i: nat, act: Action)

  function Init(c: Config): State {
    State(if c.regs == [] then Stopped(Some(ERR_NO_ROUTES)) else Launching(0),
          false, false, [], [], None, seq(|c.regs|, _ => NewRoute(c.workers)))
  }

  function Next(c: Config, s: State, l: Label): Option<State> {
    match l
    case ParentCancel => if !s.parentDone then Some(s.(parentDone := true)) else None
    case Propagate => if s.parentDone && !s.ctxDone then Some(s.(ctxDone := true)) else None
    case Launch =>
      if s.main.Launching? && s.main.next < |c.regs| == |s.routes| && c.regs[s.main.next].Some? then
        Some(s.(main := Launching(s.main.next + 1),
                routes := s.routes[s.main.next := s.routes[s.main.next].(pc := Building)]))
      else None
    case LaunchNil =>
      if s.main.Launching? && s.main.next < |c.regs| && c.regs[s.main.next].None? then
        Some(s.(main := Deferred(Some(ERR_NIL_ROUTE_REGISTRATION))))
      else None
    case LaunchOver =>
      if s.main.Launching? && s.main.next >= |c.regs| then Some(s.(main := AtSelect)) else None
    case MainTakeErr =>
      if s.main.AtSelect? && s.outer != [] then
        Some(s.(main := Deferred(Some(s.outer[0].err)), outer := s.outer[1..], taken := Some(s.outer[0])))
      else None
    case MainTakeCtx =>
      if s.main.AtSelect? && s.ctxDone then Some(s.(main := Deferred(None))) else None
    case MainCancel =>
      if s.main.Deferred? then Some(s.(main := Stopped(s.main.res), ctxDone := true)) else None
    case RouteStep(i, act) =>
      if i < |s.routes| && RunRoute.Next(c.workers, s.ctxDone, s.routes[i], act).Some? then
        Some(After(s, i, act, RunRoute.Next(c.workers, s.ctxDone, s.routes[i], act).value))
      else None
  }

  /** What a route's action does outside the route: Offer is a send that gives up on
      a full channel, Cancel ends the shared context. */
  function Shared(s: State, i: nat, act: Action): State
    requires i < |s.routes|
  {
    var r := s.routes[i];
    if act.Offer? && r.pc.Returned? && r.pc.result.Some? && |s.outer| < 1 then
      var m := Report(i, r.pc.result.value);
      s.(outer := s.outer + [m], sends := s.sends + [m])
    else if act.Cancel? then s.(ctxDone := true)
    else s
  }

  /** The state after route i has moved to r. */
  function After(s: State, i: nat, act: Action, r: Route): State
    requires i < |s.routes|
  {
    Shared(s, i, act).(routes := s.routes[i := r])
  }

  function StepOf(c: Config): (State, Label) -> Option<State> {
    (s, l) => Next(c, s, l)
  }

  /** Run a list of labels; None when one of them is not enabled. */
  function Exec(c: Config, s: State, ls: seq<Label>): Option<State> {
    Runs.Exec(StepOf(c), s, ls)
  }

  ghost predicate Reachable(c: Config, s: State) {
    Runs.Reachable(StepOf(c), Init(c), s)
  }

  // ---------------------------------------------------------------- invariant

  /** Run has chosen its result. */
  predicate Answered(s: State) {
    s.main.Deferred? || s.main.Stopped?
  }

  ghost predicate AllPresent(c: Config) {
    forall i :: 0 <= i < |c.regs| ==> c.regs[i].Some?
  }

  ghost predicate RoutesInv(c: Config, s: State) {
    && |s.routes| == |c.regs|
    && (forall i :: 0 <= i < |s.routes| ==> RouteInv(c.workers, s.routes[i]))
    && (!s.ctxDone ==> forall r | r in s.routes :: Untouched(r))
  }

  ghost predicate LaunchInv(c: Config, s: State) {
    && |s.routes| == |c.regs|
    && (s.main.Launching? ==>
      && s.main.next <= |c.regs|
      && (forall i :: 0 <= i < s.main.next ==> c.regs[i].Some?)
      && (forall i :: 0 <= i < |c.regs| ==> (s.routes[i].pc.Idle? <==> s.main.next <= i)))
    && (forall i, j :: 0 <= j <= i < |s.routes| && !s.routes[i].pc.Idle? ==> c.regs[j].Some?)
    && (s.main.AtSelect? || (Answered(s) && s.main.res.None?) || s.taken.Some? ==> AllPresent(c))
    && (s.main.AtSelect? ==> forall i :: 0 <= i < |s.routes| ==> !s.routes[i].pc.Idle?)
  }

  /** The outer channel keeps the first report until Run takes it; a report comes
      from a route whose runRoute returned that very error, once per route. */
  ghost predicate OuterInv(s: State) {
    && (if s.taken.None? then |s.sends| <= 1 && s.outer == s.sends
        else 1 <= |s.sends| <= 2 && s.outer == s.sends[1..] && s.taken.value == s.sends[0])
    && (s.taken.Some? ==> Answered(s) && s.main.res == Some(s.taken.value.err))
    && (|s.sends| == 2 ==> s.sends[0].route != s.sends[1].route)
    && (forall m | m in s.sends ::
      m.route < |s.routes| && Settled(s.routes[m.route]) && Raised(s.routes[m.route], m.err))
    && (forall r | r in s.routes && Settled(r) && r.result != Some(None) :: s.sends != [])
  }

  ghost predicate MainInv(c: Config, s: State) {
    && (c.regs == [] ==> s.main == Stopped(Some(ERR_NO_ROUTES)))
    && (Answered(s) && s.main.res.Some? && s.taken.None? && c.regs != [] ==>
      s.main.res == Some(ERR_NIL_ROUTE_REGISTRATION) && !AllPresent(c))
    && (Answered(s) && s.main.res.None? ==> s.ctxDone && s.taken.None? && (s.parentDone || s.sends != []))
    && (s.main.Stopped? && c.regs != [] ==> s.ctxDone)
    && (s.ctxDone && !s.parentDone && !s.main.Stopped? ==> s.sends != [])
    && (forall r | r in s.routes && r.pc.Exited? && r.result != Some(None) :: s.ctxDone)
  }

  ghost predicate Inv(c: Config, s: State) {
    RoutesInv(c, s) && LaunchInv(c, s) && OuterInv(s) && MainInv(c, s)
  }

  lemma InitInv(c: Config)
    ensures Inv(c, Init(c))
  {
    NewRouteInv(c.workers);
  }

  lemma RouteStepKeepsRoutes(c: Config, s: State, i: nat, act: Action, r: Route)
    requires RoutesInv(c, s) && i < |s.routes|
    requires RouteInv(c.workers, r) && (!s.ctxDone && Untouched(s.routes[i]) ==> Untouched(r))
    ensures RoutesInv(c, After(s, i, act, r))
  {
    assert s.routes[i] in s.routes;
  }

  /** Replacing one route by a later stage of itself keeps the channel invariant,
      provided that an error is settled only once something was sent. */
  lemma SettlingKeepsOuter(s: State, i: nat, r: Route)
    requires OuterInv(s) && i < |s.routes|
    requires Settled(s.routes[i]) ==> Settled(r) && r.result == s.routes[i].result
    requires Settled(r) && r.result != Some(None) ==> s.sends != []
    ensures OuterInv(s.(routes := s.routes[i := r]))
  {
    var t := s.(routes := s.routes[i := r]);
    assert forall q | q in t.routes :: q == r || q in s.routes;
  }

  /** A report that finds the channel empty. */
  lemma OfferKeepsOuter(s: State, i: nat, m: Report, r: Route)
    requires OuterInv(s) && i < |s.routes| && s.outer == [] && !Settled(s.routes[i])
    requires m.route == i && Settled(r) && Raised(r, m.err)
    ensures OuterInv(s.(routes := s.routes[i := r], outer := [m], sends := s.sends + [m]))
  {
    var t := s.(routes := s.routes[i := r], outer := [m], sends := s.sends + [m]);
    assert s.taken.None? ==> s.sends == [];
    assert s.taken.Some? ==> |s.sends| == 1 && t.sends[1..] == [m];
    forall o | o in t.sends
      ensures o.route < |t.routes| && Settled(t.routes[o.route]) && Raised(t.routes[o.route], o.err)
    {
      assert o == m || o in s.sends;
    }
  }

  lemma RouteStepKeepsOuter(s: State, i: nat, act: Action, r: Route)
    requires OuterInv(s) && i < |s.routes| && Evolves(s.routes[i], act, r)
    ensures OuterInv(After(s, i, act, r))
  {
    assert s.routes[i] in s.routes;
    if act.Offer? && |s.outer| < 1 {
      var m := Report(i, s.routes[i].pc.result.value);
      OfferKeepsOuter(s, i, m, r);
      assert s.outer + [m] == [m];
    } else {
      SettlingKeepsOuter(s, i, r);
    }
  }

  lemma RouteStepKeepsMain(c: Config, s: State, i: nat, act: Action, r: Route)
    requires LaunchInv(c, s) && MainInv(c, s) && OuterInv(s) && i < |s.routes|
    requires Evolves(s.routes[i], act, r)
    requires act.Cancel? ==> Settled(s.routes[i]) && s.routes[i].result != Some(None)
    ensures LaunchInv(c, After(s, i, act, r)) && MainInv(c, After(s, i, act, r))
  {
    assert s.routes[i] in s.routes;
  }

  /** All that the broker needs to know of a step of one route. */
  lemma RouteStepShows(n: nat, ctxDone: bool, q: Route, act: Action, r: Route)
    requires RouteInv(n, q) && RunRoute.Next(n, ctxDone, q, act) == Some(r)
    ensures RouteInv(n, r) && Evolves(q, act, r) && (!ctxDone && Untouched(q) ==> Untouched(r))
    ensures act.Cancel? ==> Settled(q) && q.result != Some(None)
  {
    if q.pc.Idle? {
      IdleIsStuck(n, ctxDone, q, act);
    }
    NextKeepsInv(n, ctxDone, q, act);
    NextEvolves(n, ctxDone, q, act);
  }

  lemma RouteStepKeepsInv(c: Config, s: State, i: nat, act: Action)
    requires Inv(c, s) && Next(c, s, RouteStep(i, act)).Some?
    ensures Inv(c, Next(c, s, RouteStep(i, act)).value)
  {
    var r := RunRoute.Next(c.workers, s.ctxDone, s.routes[i], act).value;
    RouteStepShows(c.workers, s.ctxDone, s.routes[i], act, r);
    RouteStepKeepsRoutes(c, s, i, act, r);
    RouteStepKeepsOuter(s, i, act, r);
    RouteStepKeepsMain(c, s, i, act, r);
    assert Next(c, s, RouteStep(i, act)).value == After(s, i, act, r);
  }

  /** A launch moves a route from Idle to Building and nothing else. */
  lemma LaunchKeepsRoutes(c: Config, s: State, k: nat)
    requires RoutesInv(c, s) && k < |s.routes| && s.routes[k].pc.Idle?
    ensures RoutesInv(c, s.(routes := s.routes[k := s.routes[k].(pc := Building)]))
    ensures RouteInv(c.workers, s.routes[k].(pc := Building))
  {
    assert s.routes[k] in s.routes;
  }

  lemma LaunchKeepsInv(c: Config, s: State)
    requires Inv(c, s) && Next(c, s, Launch).Some?
    ensures Inv(c, Next(c, s, Launch).value)
  {
    var k := s.main.next;
    LaunchKeepsRoutes(c, s, k);
    SettlingKeepsOuter(s, k, s.routes[k].(pc := Building));
  }

  /** A step of Run or of the contexts, seen from the routes and the outer channel. */
  lemma MainKeepsShared(c: Config, s: State, l: Label)
    requires RoutesInv(c, s) && OuterInv(s) && MainInv(c, s) && Next(c, s, l).Some? && !l.Launch? && !l.RouteStep?
    ensures RoutesInv(c, Next(c, s, l).value) && OuterInv(Next(c, s, l).value)
  {
    assert Next(c, s, l).value.routes == s.routes;
  }

  lemma MainKeepsMain(c: Config, s: State, l: Label)
    requires LaunchInv(c, s) && OuterInv(s) && MainInv(c, s) && Next(c, s, l).Some? && !l.Launch? && !l.RouteStep?
    ensures LaunchInv(c, Next(c, s, l).value) && MainInv(c, Next(c, s, l).value)
  {
    assert Next(c, s, l).value.routes == s.routes;
  }

  lemma MainKeepsInv(c: Config, s: State, l: Label)
    requires Inv(c, s) && Next(c, s, l).Some? && !l.Launch? && !l.RouteStep?
    ensures Inv(c, Next(c, s, l).value)
  {
    MainKeepsShared(c, s, l);
    MainKeepsMain(c, s, l);
  }

  lemma StepKeepsInv(c: Config, s: State, l: Label)
    requires Inv(c, s) && Next(c, s, l).Some?
    ensures Inv(c, Next(c, s, l).value)
  {
    match l
    case RouteStep(i, act) => RouteStepKeepsInv(c, s, i, act);
    case Launch => LaunchKeepsInv(c, s);
    case _ => MainKeepsInv(c, s, l);
  }
}
