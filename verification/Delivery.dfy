/** The JetStream route against its server, for any number of messages and with any
    number of deliveries of one message in flight at once.

    The server counts the deliveries of a message from 1, delivers it again after a
    Nak or when AckWait expires while it is not acked, and stops at MaxDeliver when
    that is positive.  A settlement reaches the server or is lost; since a delivery
    does nothing after it, a settlement that arrives late is one that is sent late. */
module Delivery {
  import opened Wrappers
  import opened NatsMsg
  import opened JetStreamHandler
  import Router
  import Runs

  datatype Pc = Queued | Handling | Publishing | Acking | Naking | Finished | Crashed

  /** One delivery in the client, with the calls it has made so far. */
  datatype Attempt = Attempt(pc: Pc, meta: Option<nat>, result: Option<HandlerResult>, calls: seq<Call>)

  /** `runs[j]` is delivery number j + 1; `due` says that the server may deliver. */
  datatype Message = Message(payload: string, acked: bool, due: bool, runs: seq<Attempt>)

  /** A message the connection accepted on the dead-letter subject. */
  datatype DeadLetter = DeadLetter(m: nat, j: nat, msg: Msg)

  datatype State = State(msgs: seq<Message>, dlq: seq<DeadLetter>)

  datatype Step =
    | Fetch(metaOk: bool)             // Metadata(), then the handler starts
    | Return(result: HandlerResult)   // the handler ends
    | Publish(accepted: bool)
    | Settle(arrived: bool)

  datatype Label = Deliver(m: nat) | Expire(m: nat) | Work(m: nat, j: nat, step: Step)

  function Init(payloads: seq<string>): State {
    State(seq(|payloads|, i requires 0 <= i < |payloads| => Message(payloads[i], false, true, [])), [])
  }

  function AttemptNext(route: Router.Route, k: nat, payload: string, d: Attempt, step: Step): Option<Attempt> {
    match step
    case Fetch(ok) =>
      if d.pc.Queued? then Some(d.(pc := Handling, meta := if ok then Some(k) else None)) else None
    case Return(res) =>
      if !d.pc.Handling? then None
      else Some(d.(result := Some(res), pc :=
        match res
        case Success => Acking
        case Panic => Crashed
        case Failure(_) =>
          if !route.cfg.enableDLQ then Naking
          else if d.meta.None? then Crashed
          else if Offers(route, d.meta.value) then Publishing
          else Naking))
    case Publish(ok) =>
      if d.pc.Publishing? && d.meta.Some? && d.result.Some? && d.result.value.Failure? then
        Some(d.(pc := if ok then Acking else Naking,
                calls := d.calls + [Published(DeadLetterMsg(route, payload, d.meta.value, d.result.value.err), ok)]))
      else None
    case Settle(arrived) =>
      if d.pc.Acking? then Some(d.(pc := Finished, calls := d.calls + [Acked(arrived)]))
      else if d.pc.Naking? then Some(d.(pc := Finished, calls := d.calls + [Naked(arrived)]))
      else None
  }

  /** The server's limit. */
  predicate Below(route: Router.Route, delivered: nat) {
    route.cfg.maxDeliver <= 0 || delivered < route.cfg.maxDeliver
  }

  /** What the step of an attempt means to the server. */
  function Served(msg: Message, j: nat, d: Attempt, step: Step): Message
    requires j < |msg.runs|
  {
    var arrived := step.Settle? && step.arrived;
    msg.(runs := msg.runs[j := d],
         acked := msg.acked || (arrived && msg.runs[j].pc.Acking?),
         due := msg.due || (arrived && msg.runs[j].pc.Naking? && !msg.acked))
  }

  /** The state after an attempt has become d. */
  function Worked(s: State, m: nat, j: nat, d: Attempt, step: Step): State
    requires m < |s.msgs| && j < |s.msgs[m].runs|
    requires step.Publish? ==> d.calls != [] && d.calls[|d.calls| - 1].Published?
  {
    State(
      s.msgs[m := Served(s.msgs[m], j, d, step)],
      if step.Publish? && step.accepted then s.dlq + [DeadLetter(m, j, d.calls[|d.calls| - 1].msg)] else s.dlq)
  }

  function Next(route: Router.Route, s: State, l: Label): Option<State> {
    if l.m >= |s.msgs| then None else
    var msg := s.msgs[l.m];
    match l
    case Deliver(m) =>
      if !msg.acked && msg.due && Below(route, |msg.runs|) then
        Some(s.(msgs := s.msgs[m := msg.(due := false, runs := msg.runs + [Attempt(Queued, None, None, [])])]))
      else None
    case Expire(m) =>
      if !msg.acked && !msg.due then Some(s.(msgs := s.msgs[m := msg.(due := true)])) else None
    case Work(m, j, step) =>
      if j >= |msg.runs| then None else
      var next := AttemptNext(route, j + 1, msg.payload, msg.runs[j], step);
      if next.None? then None else Some(Worked(s, m, j, next.value, step))
  }

  function StepOf(route: Router.Route): (State, Label) -> Option<State> {
    (s, l) => Next(route, s, l)
  }

  /** Run a list of labels; None when one of them is not enabled. */
  function Exec(route: Router.Route, s: State, ls: seq<Label>): Option<State> {
    Runs.Exec(StepOf(route), s, ls)
  }

  ghost predicate Reachable(route: Router.Route, payloads: seq<string>, s: State) {
    Runs.Reachable(StepOf(route), Init(payloads), s)
  }

  /** Nothing is assumed of the environment: metadata may be missing, the handler may end
      in any way, a publish may be refused and a settlement lost, at any time; and AckWait
      may expire whenever the message is not acked. */
  lemma EnvironmentIsFree(route: Router.Route, s: State, m: nat, j: nat, ok: bool, res: HandlerResult)
    requires m < |s.msgs| && j < |s.msgs[m].runs|
    ensures var d := s.msgs[m].runs[j];
      && (Next(route, s, Work(m, j, Fetch(ok))).Some? <==> d.pc.Queued?)
      && (Next(route, s, Work(m, j, Return(res))).Some? <==> d.pc.Handling?)
      && (Next(route, s, Work(m, j, Settle(ok))).Some? <==> d.pc.Acking? || d.pc.Naking?)
      && (d.pc.Publishing? && Condemned(route, j + 1, d) ==> Next(route, s, Work(m, j, Publish(ok))).Some?)
      && (Next(route, s, Expire(m)).Some? <==> !s.msgs[m].acked && !s.msgs[m].due)
      && (Next(route, s, Deliver(m)).Some? <==>
            !s.msgs[m].acked && s.msgs[m].due && (route.cfg.maxDeliver <= 0 || |s.msgs[m].runs| < route.cfg.maxDeliver))
  {
  }

  // ---------------------------------------------------------------- invariant

  /** The handler failed where a failure is dead-lettered. */
  predicate Condemned(route: Router.Route, k: nat, d: Attempt) {
    d.result.Some? && d.result.value.Failure? && d.meta == Some(k) && Offers(route, k)
  }

  function Letter(route: Router.Route, k: nat, payload: string, d: Attempt): Msg
    requires Condemned(route, k, d)
  {
    DeadLetterMsg(route, payload, k, d.result.value.err)
  }

  /** The attempt is entitled to ack: success, or the dead letter was accepted. */
  predicate MayAck(route: Router.Route, k: nat, payload: string, d: Attempt, calls: seq<Call>) {
    || (d.result == Some(Success) && calls == [])
    || (Condemned(route, k, d) && calls == [Published(Letter(route, k, payload, d), true)])
  }

  predicate MayNak(route: Router.Route, k: nat, payload: string, d: Attempt, calls: seq<Call>) {
    || (Condemned(route, k, d) && calls == [Published(Letter(route, k, payload, d), false)])
    || (d.result.Some? && d.result.value.Failure? && calls == [] && (!route.cfg.enableDLQ || (d.meta == Some(k) && !Offers(route, k))))
  }

  ghost predicate AttemptInv(route: Router.Route, k: nat, payload: string, d: Attempt) {
    && (d.meta.None? || d.meta == Some(k))
    && match d.pc
       case Queued => d.result.None? && d.calls == []
       case Handling => d.result.None? && d.calls == []
       case Publishing => Condemned(route, k, d) && d.calls == []
       case Acking => MayAck(route, k, payload, d, d.calls)
       case Naking => MayNak(route, k, payload, d, d.calls)
       case Finished =>
         && d.calls != []
         && var last := d.calls[|d.calls| - 1];
            var before := d.calls[..|d.calls| - 1];
            (last.Acked? && MayAck(route, k, payload, d, before)) || (last.Naked? && MayNak(route, k, payload, d, before))
       case Crashed =>
         && d.calls == [] && d.result.Some?
         && Explodes(route, JsMsg(payload, d.meta), Env(d.result.value, true, true))
  }

  predicate AckArrived(d: Attempt) {
    d.calls != [] && d.calls[|d.calls| - 1] == Acked(true)
  }

  predicate DeadLettered(d: Attempt) {
    d.calls != [] && d.calls[0].Published? && d.calls[0].accepted
  }

  ghost predicate MessageInv(route: Router.Route, msg: Message) {
    && (forall j :: 0 <= j < |msg.runs| ==> AttemptInv(route, j + 1, msg.payload, msg.runs[j]))
    && (msg.runs != [] ==> Below(route, |msg.runs| - 1))
    && (msg.acked <==> exists d :: d in msg.runs && AckArrived(d))
  }

  ghost predicate Logged(dlq: seq<DeadLetter>, m: nat, j: nat) {
    exists i :: 0 <= i < |dlq| && dlq[i].m == m && dlq[i].j == j
  }

  /** Every entry of the log is an accepted dead letter of the attempt it names. */
  ghost predicate LogSound(s: State) {
    forall i :: 0 <= i < |s.dlq| ==>
      var e := s.dlq[i];
      && e.m < |s.msgs| && e.j < |s.msgs[e.m].runs|
      && DeadLettered(s.msgs[e.m].runs[e.j])
      && e.msg == s.msgs[e.m].runs[e.j].calls[0].msg
  }

  ghost predicate LogDistinct(dlq: seq<DeadLetter>) {
    forall i, i' :: 0 <= i < i' < |dlq| ==> dlq[i].m != dlq[i'].m || dlq[i].j != dlq[i'].j
  }

  ghost predicate LogComplete(s: State) {
    forall m, j :: 0 <= m < |s.msgs| && 0 <= j < |s.msgs[m].runs| && DeadLettered(s.msgs[m].runs[j]) ==> Logged(s.dlq, m, j)
  }

  /** The dead-letter log is exactly what the attempts had accepted, once each. */
  ghost predicate LogInv(s: State) {
    LogSound(s) && LogDistinct(s.dlq) && LogComplete(s)
  }

  ghost predicate Inv(route: Router.Route, s: State) {
    (forall msg | msg in s.msgs :: MessageInv(route, msg)) && LogInv(s)
  }

  lemma SettleKeepsInv(route: Router.Route, k: nat, payload: string, d: Attempt, arrived: bool)
    requires AttemptInv(route, k, payload, d) && AttemptNext(route, k, payload, d, Settle(arrived)).Some?
    ensures AttemptInv(route, k, payload, AttemptNext(route, k, payload, d, Settle(arrived)).value)
  {
    var t := AttemptNext(route, k, payload, d, Settle(arrived)).value;
    assert t.calls[..|t.calls| - 1] == d.calls;
  }

  lemma PublishKeepsInv(route: Router.Route, k: nat, payload: string, d: Attempt, ok: bool)
    requires AttemptInv(route, k, payload, d) && AttemptNext(route, k, payload, d, Publish(ok)).Some?
    ensures AttemptInv(route, k, payload, AttemptNext(route, k, payload, d, Publish(ok)).value)
  {
    var t := AttemptNext(route, k, payload, d, Publish(ok)).value;
    assert t.calls == [Published(Letter(route, k, payload, d), ok)];
  }

  lemma AttemptKeepsInv(route: Router.Route, k: nat, payload: string, d: Attempt, step: Step)
    requires AttemptInv(route, k, payload, d) && AttemptNext(route, k, payload, d, step).Some?
    ensures AttemptInv(route, k, payload, AttemptNext(route, k, payload, d, step).value)
  {
    match step
    case Fetch(ok) =>
    case Return(res) =>
    case Publish(ok) => PublishKeepsInv(route, k, payload, d, ok);
    case Settle(arrived) => SettleKeepsInv(route, k, payload, d, arrived);
  }

  /** What a step shows of an attempt from outside. */
  lemma AttemptShows(route: Router.Route, k: nat, payload: string, d: Attempt, step: Step)
    requires AttemptInv(route, k, payload, d) && AttemptNext(route, k, payload, d, step).Some?
    ensures var t := AttemptNext(route, k, payload, d, step).value;
      && !AckArrived(d)
      && (AckArrived(t) <==> d.pc.Acking? && step == Settle(true))
      && (DeadLettered(t) <==> DeadLettered(d) || step == Publish(true))
      && (DeadLettered(d) ==> t.calls[0] == d.calls[0])
      && (step.Publish? ==> d.calls == [] && |t.calls| == 1)
  {
    match step
    case Fetch(ok) =>
    case Return(res) =>
    case Publish(ok) =>
    case Settle(arrived) =>
  }

  /** Replacing an attempt whose ack had not arrived: the message is acked afterwards
      exactly if it was or the new attempt's ack arrived. */
  lemma AckedAfter(runs: seq<Attempt>, j: nat, d: Attempt)
    requires j < |runs| && !AckArrived(runs[j])
    ensures (exists e :: e in runs[j := d] && AckArrived(e)) <==> AckArrived(d) || exists e :: e in runs && AckArrived(e)
  {
    var t := runs[j := d];
    assert t[j] in t;
    forall e | e in runs && AckArrived(e) ensures e in t {
      var i :| 0 <= i < |runs| && runs[i] == e;
      assert t[i] == e;
    }
    assert forall e | e in t :: e == d || e in runs;
  }

  lemma ReplaceAttempt(route: Router.Route, msg: Message, j: nat, d: Attempt, next: Message)
    requires MessageInv(route, msg) && j < |msg.runs| && !AckArrived(msg.runs[j])
    requires AttemptInv(route, j + 1, msg.payload, d)
    requires next.payload == msg.payload && next.runs == msg.runs[j := d]
    requires next.acked <==> msg.acked || AckArrived(d)
    ensures MessageInv(route, next)
  {
    AckedAfter(msg.runs, j, d);
  }

  lemma WorkKeepsMessage(route: Router.Route, msg: Message, j: nat, step: Step, d: Attempt)
    requires MessageInv(route, msg) && j < |msg.runs|
    requires AttemptNext(route, j + 1, msg.payload, msg.runs[j], step) == Some(d)
    ensures MessageInv(route, Served(msg, j, d, step))
  {
    AttemptKeepsInv(route, j + 1, msg.payload, msg.runs[j], step);
    AttemptShows(route, j + 1, msg.payload, msg.runs[j], step);
    ReplaceAttempt(route, msg, j, d, Served(msg, j, d, step));
  }

  /** An attempt that changes nothing about dead letters keeps the log. */
  lemma QuietWorkKeepsLog(s: State, m: nat, msg: Message)
    requires LogInv(s) && m < |s.msgs| && |msg.runs| >= |s.msgs[m].runs|
    requires forall j :: 0 <= j < |msg.runs| ==>
      if j < |s.msgs[m].runs| then
        && (DeadLettered(msg.runs[j]) <==> DeadLettered(s.msgs[m].runs[j]))
        && (DeadLettered(msg.runs[j]) ==> msg.runs[j].calls[0] == s.msgs[m].runs[j].calls[0])
      else !DeadLettered(msg.runs[j])
    ensures LogInv(s.(msgs := s.msgs[m := msg]))
  {
  }

  lemma LoggedStays(dlq: seq<DeadLetter>, e: DeadLetter, m: nat, j: nat)
    requires Logged(dlq, m, j) || (e.m == m && e.j == j)
    ensures Logged(dlq + [e], m, j)
  {
    var t := dlq + [e];
    if Logged(dlq, m, j) {
      var i :| 0 <= i < |dlq| && dlq[i].m == m && dlq[i].j == j;
      assert t[i] == dlq[i];
    } else {
      assert t[|dlq|] == e;
    }
  }

  lemma NewLetterIsDistinct(s: State, e: DeadLetter)
    requires LogSound(s) && LogDistinct(s.dlq) && e.m < |s.msgs| && e.j < |s.msgs[e.m].runs|
    requires !DeadLettered(s.msgs[e.m].runs[e.j])
    ensures LogDistinct(s.dlq + [e])
  {
    assert forall i :: 0 <= i < |s.dlq| ==> s.dlq[i].m != e.m || s.dlq[i].j != e.j;
  }

  lemma PublishKeepsLog(s: State, m: nat, j: nat, msg: Message)
    requires LogInv(s) && m < |s.msgs| && j < |s.msgs[m].runs| == |msg.runs|
    requires !DeadLettered(s.msgs[m].runs[j]) && DeadLettered(msg.runs[j])
    requires msg.runs == s.msgs[m].runs[j := msg.runs[j]]
    ensures LogInv(State(s.msgs[m := msg], s.dlq + [DeadLetter(m, j, msg.runs[j].calls[0].msg)]))
  {
    var e := DeadLetter(m, j, msg.runs[j].calls[0].msg);
    var t := State(s.msgs[m := msg], s.dlq + [e]);
    NewLetterIsDistinct(s, e);
    forall m', j' | 0 <= m' < |t.msgs| && 0 <= j' < |t.msgs[m'].runs| && DeadLettered(t.msgs[m'].runs[j'])
      ensures Logged(t.dlq, m', j')
    {
      if m' != m || j' != j {
        assert DeadLettered(s.msgs[m'].runs[j']);
      }
      LoggedStays(s.dlq, e, m', j');
    }
  }

  lemma WorkKeepsLog(route: Router.Route, s: State, m: nat, j: nat, step: Step, d: Attempt)
    requires LogInv(s) && m < |s.msgs| && j < |s.msgs[m].runs|
    requires var e := s.msgs[m].runs[j];
      && !AckArrived(e)
      && (DeadLettered(d) <==> DeadLettered(e) || step == Publish(true))
      && (DeadLettered(e) ==> d.calls[0] == e.calls[0])
      && (step.Publish? ==> e.calls == [] && |d.calls| == 1 && d.calls[0].Published?)
    ensures LogInv(Worked(s, m, j, d, step))
  {
    var msg' := Served(s.msgs[m], j, d, step);
    if step == Publish(true) {
      PublishKeepsLog(s, m, j, msg');
    } else {
      QuietWorkKeepsLog(s, m, msg');
    }
  }

  lemma ReplaceMessage(route: Router.Route, msgs: seq<Message>, m: nat, msg: Message)
    requires m < |msgs| && MessageInv(route, msg) && forall q | q in msgs :: MessageInv(route, q)
    ensures forall q | q in msgs[m := msg] :: MessageInv(route, q)
  {
    assert forall q | q in msgs[m := msg] :: q == msg || q in msgs;
  }

  lemma WorkKeepsInv(route: Router.Route, s: State, m: nat, j: nat, step: Step, d: Attempt)
    requires Inv(route, s) && m < |s.msgs| && j < |s.msgs[m].runs|
    requires AttemptNext(route, j + 1, s.msgs[m].payload, s.msgs[m].runs[j], step) == Some(d)
    ensures Inv(route, Worked(s, m, j, d, step))
  {
    var msg := s.msgs[m];
    assert msg in s.msgs;
    AttemptShows(route, j + 1, msg.payload, msg.runs[j], step);
    WorkKeepsLog(route, s, m, j, step, d);
    WorkKeepsMessage(route, msg, j, step, d);
    ReplaceMessage(route, s.msgs, m, Served(msg, j, d, step));
  }

  /** The server's own moves: one more queued attempt, or nothing new. */
  lemma ServedKeepsMessage(route: Router.Route, msg: Message, next: Message)
    requires MessageInv(route, msg) && next.payload == msg.payload && next.acked == msg.acked
    requires
      || next.runs == msg.runs
      || (next.runs == msg.runs + [Attempt(Queued, None, None, [])] && Below(route, |msg.runs|))
    ensures MessageInv(route, next)
  {
    assert forall d | d in next.runs :: d in msg.runs || d.pc.Queued?;
    assert forall d | d in msg.runs :: d in next.runs;
  }

  lemma ServerKeepsInv(route: Router.Route, s: State, l: Label)
    requires Inv(route, s) && !l.Work? && Next(route, s, l).Some?
    ensures Inv(route, Next(route, s, l).value)
  {
    var msg := s.msgs[l.m];
    var next := Next(route, s, l).value.msgs[l.m];
    assert msg in s.msgs;
    ServedKeepsMessage(route, msg, next);
    QuietWorkKeepsLog(s, l.m, next);
    ReplaceMessage(route, s.msgs, l.m, next);
  }

  lemma WorkStepKeepsInv(route: Router.Route, s: State, m: nat, j: nat, step: Step)
    requires Inv(route, s) && Next(route, s, Work(m, j, step)).Some?
    ensures Inv(route, Next(route, s, Work(m, j, step)).value)
  {
    var d := AttemptNext(route, j + 1, s.msgs[m].payload, s.msgs[m].runs[j], step).value;
    WorkKeepsInv(route, s, m, j, step, d);
    assert Next(route, s, Work(m, j, step)).value == Worked(s, m, j, d, step);
  }

  lemma StepKeepsInv(route: Router.Route, s: State, l: Label)
    requires Inv(route, s) && Next(route, s, l).Some?
    ensures Inv(route, Next(route, s, l).value)
  {
    if l.Work? {
      WorkStepKeepsInv(route, s, l.m, l.j, l.step);
    } else {
      ServerKeepsInv(route, s, l);
    }
  }
}
