/** What holds of every run of a JetStream route against its server. */
module DeliveryTheorems {
  import opened Wrappers
  import opened Sums
  import opened NatsMsg
  import opened JetStreamHandler
  import opened Delivery
  import Decimal
  import Router
  import Runs

  lemma InitInv(route: Router.Route, payloads: seq<string>)
    ensures Inv(route, Init(payloads))
  {
  }

  lemma {:induction false} ExecKeepsInv(route: Router.Route, s: State, ls: seq<Label>)
    requires Inv(route, s) && Exec(route, s, ls).Some?
    ensures Inv(route, Exec(route, s, ls).value)
    ensures |Exec(route, s, ls).value.msgs| == |s.msgs|
    ensures forall m :: 0 <= m < |s.msgs| ==> Exec(route, s, ls).value.msgs[m].payload == s.msgs[m].payload
    decreases |ls|
  {
    if ls != [] {
      StepKeepsInv(route, s, ls[0]);
      ExecKeepsInv(route, Next(route, s, ls[0]).value, ls[1..]);
    }
  }

  lemma ReachableInv(route: Router.Route, payloads: seq<string>, s: State)
    requires Reachable(route, payloads, s)
    ensures Inv(route, s) && |s.msgs| == |payloads|
    ensures forall m :: 0 <= m < |payloads| ==> s.msgs[m] in s.msgs && MessageInv(route, s.msgs[m]) && s.msgs[m].payload == payloads[m]
  {
    var ls :| Runs.Exec(StepOf(route), Init(payloads), ls) == Some(s);
    InitInv(route, payloads);
    ExecKeepsInv(route, Init(payloads), ls);
  }

  lemma Take(route: Router.Route, payloads: seq<string>, s: State, l: Label) returns (t: State)
    requires Reachable(route, payloads, s) && Next(route, s, l).Some?
    ensures Next(route, s, l) == Some(t) && Reachable(route, payloads, t)
  {
    t := Next(route, s, l).value;
    Runs.Step(StepOf(route), Init(payloads), s, l);
  }

  // ------------------------------------------------------------- termination

  function AttemptRank(d: Attempt): nat {
    match d.pc
    case Queued => 5
    case Handling => 4
    case Publishing => 3
    case Acking => 2
    case Naking => 2
    case Finished => 0
    case Crashed => 0
  }

  function Entered(d: Attempt): nat {
    if d.pc.Queued? then 0 else 1
  }

  /** Handler invocations for one message so far. */
  function Invoked(msg: Message): nat {
    Sum(msg.runs, Entered)
  }

  /** Steps that one message can still cause when at most `max` deliveries are made. */
  function Weight(max: nat): Message -> nat {
    (msg: Message) =>
      (if |msg.runs| < max then (max - |msg.runs|) * 7 else 0) + (if msg.due then 0 else 1) + Sum(msg.runs, AttemptRank)
  }

  function Rank(route: Router.Route, s: State): nat
    requires route.cfg.maxDeliver > 0
  {
    Sum(s.msgs, Weight(route.cfg.maxDeliver))
  }

  lemma WorkDecreases(max: nat, route: Router.Route, msg: Message, j: nat, step: Step)
    requires j < |msg.runs| && AttemptNext(route, j + 1, msg.payload, msg.runs[j], step).Some?
    ensures Weight(max)(Served(msg, j, AttemptNext(route, j + 1, msg.payload, msg.runs[j], step).value, step)) < Weight(max)(msg)
  {
    var d := AttemptNext(route, j + 1, msg.payload, msg.runs[j], step).value;
    SumUpdate(msg.runs, j, d, AttemptRank);
  }

  lemma StepDecreases(route: Router.Route, s: State, l: Label)
    requires route.cfg.maxDeliver > 0 && Next(route, s, l).Some?
    ensures Rank(route, Next(route, s, l).value) < Rank(route, s)
  {
    var max := route.cfg.maxDeliver;
    var msg := s.msgs[l.m];
    var next := Next(route, s, l).value.msgs[l.m];
    SumUpdate(s.msgs, l.m, next, Weight(max));
    match l
    case Deliver(m) =>
      SumAppend(msg.runs, Attempt(Queued, None, None, []), AttemptRank);
      assert (max - |msg.runs|) * 7 == (max - |next.runs|) * 7 + 7;
    case Expire(m) =>
    case Work(m, j, step) => WorkDecreases(max, route, msg, j, step);
  }

  function Fetches(ls: seq<Label>): nat {
    if ls == [] then 0
    else (if ls[0].Work? && ls[0].step.Fetch? then 1 else 0) + Fetches(ls[1..])
  }

  lemma StepInvokes(route: Router.Route, s: State, l: Label)
    requires Next(route, s, l).Some?
    ensures Sum(Next(route, s, l).value.msgs, Invoked) == Sum(s.msgs, Invoked) + (if l.Work? && l.step.Fetch? then 1 else 0)
  {
    var msg := s.msgs[l.m];
    var next := Next(route, s, l).value.msgs[l.m];
    SumUpdate(s.msgs, l.m, next, Invoked);
    match l
    case Deliver(m) => SumAppend(msg.runs, Attempt(Queued, None, None, []), Entered);
    case Expire(m) =>
    case Work(m, j, step) => SumUpdate(msg.runs, j, next.runs[j], Entered);
  }

  lemma {:induction false} ExecCounts(route: Router.Route, s: State, ls: seq<Label>)
    requires Exec(route, s, ls).Some?
    ensures Sum(Exec(route, s, ls).value.msgs, Invoked) == Sum(s.msgs, Invoked) + Fetches(ls)
    ensures route.cfg.maxDeliver > 0 ==> Rank(route, Exec(route, s, ls).value) + |ls| <= Rank(route, s)
    decreases |ls|
  {
    if ls != [] {
      var t := Next(route, s, ls[0]).value;
      StepInvokes(route, s, ls[0]);
      if route.cfg.maxDeliver > 0 { StepDecreases(route, s, ls[0]); }
      ExecCounts(route, t, ls[1..]);
    }
  }

  /** With a positive MaxDeliver, N messages cause at most N * MaxDeliver handler
      invocations and at most seven times as many steps, whatever fails and however
      the deliveries overlap. */
  lemma {:induction false} RetriesAreBounded(route: Router.Route, payloads: seq<string>, ls: seq<Label>)
    requires route.cfg.maxDeliver > 0 && Exec(route, Init(payloads), ls).Some?
    ensures Fetches(ls) <= |payloads| * route.cfg.maxDeliver
    ensures |ls| <= |payloads| * (7 * route.cfg.maxDeliver)
  {
    var max := route.cfg.maxDeliver;
    var s0 := Init(payloads);
    var s := Exec(route, s0, ls).value;
    ExecCounts(route, s0, ls);
    InitInv(route, payloads);
    ExecKeepsInv(route, s0, ls);
    SumAtMost(s0.msgs, Weight(max), 7 * max);
    SumAtMost(s0.msgs, Invoked, 0);
    forall msg | msg in s.msgs ensures Invoked(msg) <= max {
      SumAtMost(msg.runs, Entered, 1);
      assert MessageInv(route, msg);
    }
    SumAtMost(s.msgs, Invoked, max);
  }

  // ------------------------------------------------------------------ safety

  lemma AckFollows(route: Router.Route, k: nat, payload: string, d: Attempt, before: seq<Call>, arrived: bool)
    requires (d.meta.None? || d.meta == Some(k)) && MayAck(route, k, payload, d, before)
    ensures before + [Acked(arrived)] == HandlerCalls(route, JsMsg(payload, d.meta), Env(d.result.value, true, arrived))
  {
  }

  lemma NakFollows(route: Router.Route, k: nat, payload: string, d: Attempt, before: seq<Call>, arrived: bool)
    requires (d.meta.None? || d.meta == Some(k)) && MayNak(route, k, payload, d, before)
    ensures before + [Naked(arrived)] == HandlerCalls(route, JsMsg(payload, d.meta), Env(d.result.value, false, arrived))
  {
  }

  lemma FinishedFollows(route: Router.Route, k: nat, payload: string, d: Attempt) returns (env: Env)
    requires AttemptInv(route, k, payload, d) && (d.pc.Finished? || d.pc.Crashed?)
    ensures d.result == Some(env.handler) && d.calls == HandlerCalls(route, JsMsg(payload, d.meta), env)
  {
    if d.pc.Crashed? {
      env := Env(d.result.value, true, true);
    } else {
      var last := d.calls[|d.calls| - 1];
      var before := d.calls[..|d.calls| - 1];
      assert d.calls == before + [last];
      if last.Acked? {
        AckFollows(route, k, payload, d, before, last.arrived);
        env := Env(d.result.value, true, last.arrived);
      } else {
        NakFollows(route, k, payload, d, before, last.arrived);
        env := Env(d.result.value, false, last.arrived);
      }
    }
  }

  lemma UnfinishedHasNotSettled(route: Router.Route, k: nat, payload: string, d: Attempt)
    requires AttemptInv(route, k, payload, d) && !d.pc.Finished?
    ensures forall c | c in d.calls :: !Settles(c)
  {
  }

  /** Every finished delivery made exactly the calls of the message path, for some
      answers of the environment; an unfinished one has not settled. */
  lemma AttemptsFollowTheCode(route: Router.Route, payloads: seq<string>, s: State, m: nat, j: nat)
    requires Reachable(route, payloads, s) && m < |payloads|
    requires m < |s.msgs| && j < |s.msgs[m].runs|
    ensures var d := s.msgs[m].runs[j];
      && (d.meta.None? || d.meta == Some(j + 1))
      && (d.pc.Finished? || d.pc.Crashed? ==>
           exists env: Env :: d.result == Some(env.handler) && d.calls == HandlerCalls(route, JsMsg(payloads[m], d.meta), env))
      && (!d.pc.Finished? ==> forall c | c in d.calls :: !Settles(c))
  {
    ReachableInv(route, payloads, s);
    var d := s.msgs[m].runs[j];
    assert AttemptInv(route, j + 1, payloads[m], d);
    if d.pc.Finished? || d.pc.Crashed? {
      var env := FinishedFollows(route, j + 1, payloads[m], d);
    }
    if !d.pc.Finished? {
      UnfinishedHasNotSettled(route, j + 1, payloads[m], d);
    }
  }

  /** A message is acked only on the strength of a delivery whose handler succeeded
      or whose dead letter was accepted. */
  lemma AckSafety(route: Router.Route, payloads: seq<string>, s: State, m: nat)
    requires Reachable(route, payloads, s) && m < |payloads| && m < |s.msgs| && s.msgs[m].acked
    ensures exists d :: d in s.msgs[m].runs && AckArrived(d) && (d.result == Some(Success) || DeadLettered(d))
  {
    ReachableInv(route, payloads, s);
    var d :| d in s.msgs[m].runs && AckArrived(d);
    var j :| 0 <= j < |s.msgs[m].runs| && s.msgs[m].runs[j] == d;
    assert AttemptInv(route, j + 1, payloads[m], d);
    assert d.calls == d.calls[..|d.calls| - 1] + [Acked(true)];
  }

  /** One step: an acked message is still acked and has no new delivery, and a Nak that
      arrives lets the server deliver again at once, up to its limit. */
  lemma SettlementsTakeEffect(route: Router.Route, s: State, l: Label, m: nat)
    requires Next(route, s, l).Some? && m < |s.msgs|
    ensures var t := Next(route, s, l).value;
      && m < |t.msgs|
      && (s.msgs[m].acked ==> t.msgs[m].acked && |t.msgs[m].runs| == |s.msgs[m].runs|)
      && (l.Work? && l.m == m && l.step == Settle(true) && s.msgs[m].runs[l.j].pc.Naking? && !s.msgs[m].acked ==>
            (Next(route, t, Deliver(m)).Some? <==> Below(route, |t.msgs[m].runs|)))
      && (l.Work? && l.m == m && l.step == Settle(true) && s.msgs[m].runs[l.j].pc.Acking? ==> Next(route, t, Deliver(m)).None?)
  {
  }

  /** An ack is final: however the run goes on, the message stays acked and is not
      delivered again. */
  lemma {:induction false} AckedIsFinal(route: Router.Route, s: State, ls: seq<Label>, m: nat)
    requires Exec(route, s, ls).Some? && m < |s.msgs| && s.msgs[m].acked
    ensures var t := Exec(route, s, ls).value;
      m < |t.msgs| && t.msgs[m].acked && |t.msgs[m].runs| == |s.msgs[m].runs|
    decreases |ls|
  {
    if ls != [] {
      SettlementsTakeEffect(route, s, ls[0], m);
      AckedIsFinal(route, Next(route, s, ls[0]).value, ls[1..], m);
    }
  }

  // -------------------------------------------------------------- quiescence

  ghost predicate Quiescent(route: Router.Route, s: State) {
    forall l :: Next(route, s, l).None?
  }

  /** The last permitted delivery went wrong in a way no code path deals with. */
  predicate Faulted(d: Attempt) {
    || d.result == Some(Panic)
    || (d.result.Some? && d.result.value.Failure? && d.meta.None?)
    || (d.calls != [] && d.calls[0].Published? && !d.calls[0].accepted)
  }

  lemma QuiescentMessage(route: Router.Route, s: State, m: nat)
    requires Inv(route, s) && Quiescent(route, s) && m < |s.msgs|
    ensures var msg := s.msgs[m];
      && (forall d | d in msg.runs :: d.pc.Finished? || d.pc.Crashed?)
      && (msg.acked || (route.cfg.maxDeliver > 0 && |msg.runs| == route.cfg.maxDeliver))
  {
    var msg := s.msgs[m];
    assert msg in s.msgs && MessageInv(route, msg);
    forall d | d in msg.runs ensures d.pc.Finished? || d.pc.Crashed? {
      var j :| 0 <= j < |msg.runs| && msg.runs[j] == d;
      assert AttemptInv(route, j + 1, msg.payload, d);
      assert Next(route, s, Work(m, j, Fetch(true))).None?;
      assert Next(route, s, Work(m, j, Return(Success))).None?;
      assert Next(route, s, Work(m, j, Publish(true))).None?;
      assert Next(route, s, Work(m, j, Settle(true))).None?;
    }
    assert Next(route, s, Expire(m)).None?;
    assert Next(route, s, Deliver(m)).None?;
  }

  /** A run that can go no further leaves each message acked, or delivered MaxDeliver
      times with every delivery over. */
  lemma RetriesEnd(route: Router.Route, payloads: seq<string>, s: State, m: nat)
    requires Reachable(route, payloads, s) && Quiescent(route, s) && m < |payloads| && m < |s.msgs|
    ensures forall d | d in s.msgs[m].runs :: d.pc.Finished? || d.pc.Crashed?
    ensures s.msgs[m].acked || (route.cfg.maxDeliver > 0 && |s.msgs[m].runs| == route.cfg.maxDeliver)
  {
    ReachableInv(route, payloads, s);
    QuiescentMessage(route, s, m);
  }

  /** The first call of a delivery that ended in an Ack or a Nak: the publish, if any. */
  lemma FirstCall(route: Router.Route, k: nat, payload: string, d: Attempt)
    requires AttemptInv(route, k, payload, d) && d.pc.Finished?
    ensures d.result.Some? && !d.result.value.Panic?
    ensures d.result == Some(Success) ==> !d.calls[0].Published?
    ensures d.result != Some(Success) && Condemned(route, k, d) ==> d.calls[0].Published?
    ensures d.result != Some(Success) && route.cfg.enableDLQ ==> d.meta == Some(k)
  {
    var before := d.calls[..|d.calls| - 1];
    assert d.calls == before + [d.calls[|d.calls| - 1]];
    assert before != [] ==> d.calls[0] == before[0];
  }

  lemma LastAttempt(route: Router.Route, payload: string, d: Attempt)
    requires route.cfg.enableDLQ && route.cfg.maxDeliver > 0
    requires AttemptInv(route, route.cfg.maxDeliver, payload, d) && (d.pc.Finished? || d.pc.Crashed?)
    ensures d.result == Some(Success) || DeadLettered(d) || Faulted(d)
    ensures Faulted(d) ==> !DeadLettered(d)
  {
    if d.pc.Finished? {
      FirstCall(route, route.cfg.maxDeliver, payload, d);
    }
  }

  ghost predicate Handled(msg: Message) {
    exists d :: d in msg.runs && d.result == Some(Success)
  }

  /** Message m was handled successfully or its dead letter was accepted. */
  ghost predicate Rescued(s: State, m: nat)
    requires m < |s.msgs|
  {
    Handled(s.msgs[m]) || exists i :: 0 <= i < |s.dlq| && s.dlq[i].m == m
  }

  /** The queue is off, or the delivery number MaxDeliver faulted. */
  predicate NotTaken(route: Router.Route, msg: Message) {
    && route.cfg.maxDeliver > 0 && |msg.runs| == route.cfg.maxDeliver
    && (route.cfg.enableDLQ ==> Faulted(msg.runs[route.cfg.maxDeliver - 1]))
  }

  lemma AckedMeansRescued(route: Router.Route, payloads: seq<string>, s: State, m: nat)
    requires Reachable(route, payloads, s) && m < |payloads| && m < |s.msgs| && s.msgs[m].acked
    ensures Rescued(s, m)
  {
    ReachableInv(route, payloads, s);
    AckSafety(route, payloads, s, m);
    var d :| d in s.msgs[m].runs && (d.result == Some(Success) || DeadLettered(d));
    var j :| 0 <= j < |s.msgs[m].runs| && s.msgs[m].runs[j] == d;
    assert DeadLettered(d) ==> Logged(s.dlq, m, j);
  }

  lemma UntakenMeansUnlogged(route: Router.Route, payloads: seq<string>, s: State, i: nat)
    requires Reachable(route, payloads, s) && Quiescent(route, s) && i < |s.dlq|
    ensures s.dlq[i].m < |s.msgs| && !NotTaken(route, s.msgs[s.dlq[i].m])
  {
    var e := s.dlq[i];
    ReachableInv(route, payloads, s);
    DeadLetterContents(route, payloads, s, i);
    QuiescentMessage(route, s, e.m);
    var d := s.msgs[e.m].runs[e.j];
    assert DeadLettered(d) && d in s.msgs[e.m].runs;
    if route.cfg.maxDeliver > 0 {
      assert AttemptInv(route, e.j + 1, payloads[e.m], d);
      LastAttempt(route, payloads[e.m], d);
    }
  }

  /** A message that has come to rest was given up, neither handled nor dead-lettered,
      exactly if no delivery succeeded and the one numbered MaxDeliver was not taken by
      the queue: the queue is off, or that delivery met a panic, missing metadata or a
      refused publish. */
  lemma HandledOrDeadLettered(route: Router.Route, payloads: seq<string>, s: State, m: nat)
    requires Reachable(route, payloads, s) && Quiescent(route, s) && m < |payloads| && m < |s.msgs|
    ensures !Rescued(s, m) <==> !Handled(s.msgs[m]) && NotTaken(route, s.msgs[m])
  {
    ReachableInv(route, payloads, s);
    QuiescentMessage(route, s, m);
    var msg := s.msgs[m];
    if msg.acked {
      AckedMeansRescued(route, payloads, s, m);
    } else if route.cfg.enableDLQ {
      var j := route.cfg.maxDeliver - 1;
      assert msg.runs[j] in msg.runs;
      LastAttempt(route, msg.payload, msg.runs[j]);
      assert DeadLettered(msg.runs[j]) ==> Logged(s.dlq, m, j);
    }
    forall i | 0 <= i < |s.dlq| && s.dlq[i].m == m ensures !NotTaken(route, msg) {
      UntakenMeansUnlogged(route, payloads, s, i);
    }
  }

  /** What a dead letter carries: the payload, the error of the delivery it stands
      for and that delivery's number; with a positive MaxDeliver that is the last. */
  lemma DeadLetterContents(route: Router.Route, payloads: seq<string>, s: State, i: nat)
    requires Reachable(route, payloads, s) && i < |s.dlq|
    ensures var e := s.dlq[i];
      && route.cfg.enableDLQ
      && e.m < |payloads| && e.m < |s.msgs| && e.j < |s.msgs[e.m].runs| && s.msgs[e.m].runs[e.j].result.Some?
      && s.msgs[e.m].runs[e.j].result.value.Failure?
      && e.msg.subject == "dlq." + route.cfg.subject && e.msg.data == payloads[e.m]
      && e.msg.header == Some(map["X-Error" := [s.msgs[e.m].runs[e.j].result.value.err], "X-Retry-Count" := [Decimal.Itoa(e.j + 1)]])
      && e.j + 1 >= route.cfg.maxDeliver
      && (route.cfg.maxDeliver > 0 ==>
            e.j + 1 == route.cfg.maxDeliver)
  {
    ReachableInv(route, payloads, s);
    var e := s.dlq[i];
    var d := s.msgs[e.m].runs[e.j];
    assert AttemptInv(route, e.j + 1, payloads[e.m], d);
    if d.pc.Finished? {
      assert d.calls == d.calls[..|d.calls| - 1] + [d.calls[|d.calls| - 1]];
    }
  }

  /** No message has two dead letters. */
  ghost predicate Unique(s: State) {
    forall i, i' :: 0 <= i < i' < |s.dlq| ==> s.dlq[i].m != s.dlq[i'].m
  }

  lemma PositiveMeansUnique(route: Router.Route, payloads: seq<string>, s: State)
    requires Reachable(route, payloads, s) && route.cfg.maxDeliver > 0
    ensures Unique(s)
  {
    ReachableInv(route, payloads, s);
    forall i, i' | 0 <= i < i' < |s.dlq| ensures s.dlq[i].m != s.dlq[i'].m {
      DeadLetterContents(route, payloads, s, i);
      DeadLetterContents(route, payloads, s, i');
    }
  }

  /** Deliver message 0 once more and let the handler end so. */
  lemma DeliverAndFail(route: Router.Route, payloads: seq<string>, s: State, res: HandlerResult) returns (t: State)
    requires Reachable(route, payloads, s) && s.msgs != [] && !s.msgs[0].acked && s.msgs[0].due
    requires Below(route, |s.msgs[0].runs|)
    ensures Reachable(route, payloads, t) && t.dlq == s.dlq && t.msgs != [] && !t.msgs[0].acked && !t.msgs[0].due
    ensures var k := |s.msgs[0].runs| + 1; var d := Attempt(Handling, Some(k), None, []);
      t.msgs[0].runs == s.msgs[0].runs + [AttemptNext(route, k, s.msgs[0].payload, d, Return(res)).value]
  {
    var j := |s.msgs[0].runs|;
    t := Take(route, payloads, s, Deliver(0));
    t := Take(route, payloads, t, Work(0, j, Fetch(true)));
    t := Take(route, payloads, t, Work(0, j, Return(res)));
  }

  /** Deliver message 0 for the j-th time, fail, and have the dead letter accepted. */
  lemma DeadLetterOnce(route: Router.Route, payloads: seq<string>, s: State) returns (t: State)
    requires Reachable(route, payloads, s) && payloads != [] && route.cfg.enableDLQ && route.cfg.maxDeliver <= 0
    requires s.msgs != [] && !s.msgs[0].acked && s.msgs[0].due
    ensures Reachable(route, payloads, t) && t.msgs != [] && !t.msgs[0].acked && t.msgs[0].due
    ensures |t.dlq| == |s.dlq| + 1 && t.dlq[..|s.dlq|] == s.dlq && t.dlq[|s.dlq|].m == 0
  {
    t := DeliverAndFail(route, payloads, s, Failure("no"));
    var j := |s.msgs[0].runs|;
    assert t.msgs[0].runs[j].pc.Publishing?;
    t := Take(route, payloads, t, Work(0, j, Publish(true)));
    t := Take(route, payloads, t, Work(0, j, Settle(false)));
    t := Take(route, payloads, t, Expire(0));
  }

  /** Dead letters are unique in every run exactly when the queue is off, MaxDeliver
      is positive, or there is no message: an unlimited route can dead-letter the
      same message again after a lost ack. */
  lemma DeadLettersUniqueIff(route: Router.Route, payloads: seq<string>)
    ensures (forall s | Reachable(route, payloads, s) :: Unique(s)) <==>
      !route.cfg.enableDLQ || route.cfg.maxDeliver > 0 || payloads == []
  {
    if !route.cfg.enableDLQ || route.cfg.maxDeliver > 0 || payloads == [] {
      forall s | Reachable(route, payloads, s) ensures Unique(s) {
        if route.cfg.maxDeliver > 0 {
          PositiveMeansUnique(route, payloads, s);
        } else if s.dlq != [] {
          DeadLetterContents(route, payloads, s, 0);
        }
      }
    } else {
      assert Exec(route, Init(payloads), []) == Some(Init(payloads));
      var s := DeadLetterOnce(route, payloads, Init(payloads));
      var t := DeadLetterOnce(route, payloads, s);
      assert t.dlq[0] == t.dlq[..1][0] && t.dlq[0].m == t.dlq[1].m;
    }
  }

  /** Message 0 has used up its deliveries and each of them panicked. */
  predicate Spent(route: Router.Route, s: State) {
    && s.msgs != [] && |s.msgs[0].runs| == route.cfg.maxDeliver
    && forall d | d in s.msgs[0].runs :: d.pc.Crashed? && d.result == Some(Panic)
  }

  lemma {:induction false} PanicsUpTo(route: Router.Route, payloads: seq<string>, n: nat) returns (s: State)
    requires payloads != [] && n <= route.cfg.maxDeliver
    ensures Reachable(route, payloads, s)
    ensures s.msgs != [] && !s.msgs[0].acked && s.msgs[0].due && |s.msgs[0].runs| == n
    ensures forall d | d in s.msgs[0].runs :: d.pc.Crashed? && d.result == Some(Panic)
  {
    if n == 0 {
      s := Init(payloads);
      assert Exec(route, s, []) == Some(s);
    } else {
      s := PanicsUpTo(route, payloads, n - 1);
      s := DeliverAndFail(route, payloads, s, Panic);
      s := Take(route, payloads, s, Expire(0));
    }
  }

  lemma SpentStays(route: Router.Route, s: State, l: Label)
    requires route.cfg.maxDeliver > 0 && Spent(route, s) && Next(route, s, l).Some?
    ensures Spent(route, Next(route, s, l).value)
  {
  }

  /** Whatever happens to the other messages comes to an end, and message 0 stays spent. */
  lemma {:induction false} RunToRest(route: Router.Route, payloads: seq<string>, s: State) returns (t: State)
    requires route.cfg.maxDeliver > 0 && Reachable(route, payloads, s) && Spent(route, s)
    ensures Reachable(route, payloads, t) && Quiescent(route, t) && Spent(route, t)
    decreases Rank(route, s)
  {
    if l :| Next(route, s, l).Some? {
      t := Take(route, payloads, s, l);
      SpentStays(route, s, l);
      StepDecreases(route, s, l);
      t := RunToRest(route, payloads, t);
    } else {
      t := s;
    }
  }

  lemma SpentMeansGivenUp(route: Router.Route, payloads: seq<string>, s: State)
    requires route.cfg.maxDeliver > 0 && payloads != []
    requires Reachable(route, payloads, s) && Quiescent(route, s) && Spent(route, s)
    ensures !Rescued(s, 0)
  {
    var runs := s.msgs[0].runs;
    assert runs[route.cfg.maxDeliver - 1] in runs;
    HandledOrDeadLettered(route, payloads, s, 0);
  }

  /** So "messages exceeding MaxDeliver are dead-lettered" holds of no limit: every run
      that comes to rest has rescued every message exactly if deliveries are unlimited
      or there is nothing to deliver, with the queue on as with the queue off. */
  lemma NothingGivenUpIff(route: Router.Route, payloads: seq<string>)
    ensures (forall s, m: nat | Reachable(route, payloads, s) && Quiescent(route, s) && m < |s.msgs| :: Rescued(s, m)) <==>
      route.cfg.maxDeliver <= 0 || payloads == []
  {
    if route.cfg.maxDeliver <= 0 || payloads == [] {
      forall s, m: nat | Reachable(route, payloads, s) && Quiescent(route, s) && m < |s.msgs| ensures Rescued(s, m) {
        ReachableInv(route, payloads, s);
        HandledOrDeadLettered(route, payloads, s, m);
      }
    } else {
      var s := PanicsUpTo(route, payloads, route.cfg.maxDeliver);
      s := RunToRest(route, payloads, s);
      SpentMeansGivenUp(route, payloads, s);
    }
  }

  // ------------------------------------------------------- what can still happen

  /** The handler or the publish of this delivery has yet to end. */
  predicate Pending(d: Attempt) {
    d.pc.Queued? || d.pc.Handling? || d.pc.Publishing?
  }

  /** Message m is not rescued, not to be delivered again, and no delivery is pending. */
  ghost predicate Hopeless(route: Router.Route, s: State, m: nat) {
    && m < |s.msgs| && !Rescued(s, m) && !Below(route, |s.msgs[m].runs|)
    && forall d | d in s.msgs[m].runs :: !Pending(d)
  }

  /** Some continuation handles message m or has its dead letter accepted. */
  ghost predicate CanBeRescued(route: Router.Route, s: State, m: nat) {
    exists ls :: Exec(route, s, ls).Some? && m < |Exec(route, s, ls).value.msgs| && Rescued(Exec(route, s, ls).value, m)
  }

  /** A delivery that may ack belongs to a rescued message. */
  lemma AckingMeansRescued(route: Router.Route, s: State, m: nat, j: nat)
    requires Inv(route, s) && m < |s.msgs| && j < |s.msgs[m].runs| && s.msgs[m].runs[j].pc.Acking?
    ensures Rescued(s, m)
  {
    var d := s.msgs[m].runs[j];
    assert s.msgs[m] in s.msgs && d in s.msgs[m].runs && AttemptInv(route, j + 1, s.msgs[m].payload, d);
    if d.result != Some(Success) {
      assert DeadLettered(d);
      assert Logged(s.dlq, m, j);
    }
  }

  lemma StepKeepsHopeless(route: Router.Route, s: State, l: Label, m: nat)
    requires Inv(route, s) && Hopeless(route, s, m) && Next(route, s, l).Some?
    ensures Hopeless(route, Next(route, s, l).value, m)
  {
    var t := Next(route, s, l).value;
    if l.m == m && l.Work? {
      var d := s.msgs[m].runs[l.j];
      assert d in s.msgs[m].runs;
      if d.pc.Acking? { AckingMeansRescued(route, s, m, l.j); }
      assert t.msgs[m].runs == s.msgs[m].runs[l.j := t.msgs[m].runs[l.j]];
      assert t.msgs[m].runs[l.j].result == d.result;
      assert forall e | e in t.msgs[m].runs :: e == t.msgs[m].runs[l.j] || e in s.msgs[m].runs;
    } else {
      assert t.msgs[m].runs == s.msgs[m].runs;
    }
  }

  lemma {:induction false} HopelessForGood(route: Router.Route, s: State, ls: seq<Label>, m: nat)
    requires Inv(route, s) && Hopeless(route, s, m) && Exec(route, s, ls).Some?
    ensures Hopeless(route, Exec(route, s, ls).value, m)
    decreases |ls|
  {
    if ls != [] {
      StepKeepsInv(route, s, ls[0]);
      StepKeepsHopeless(route, s, ls[0], m);
      HopelessForGood(route, Next(route, s, ls[0]).value, ls[1..], m);
    }
  }

  lemma RescueBy(route: Router.Route, s: State, l: Label, m: nat)
    requires Next(route, s, l).Some? && CanBeRescued(route, Next(route, s, l).value, m)
    ensures CanBeRescued(route, s, m)
  {
    var t := Next(route, s, l).value;
    var ls :| Exec(route, t, ls).Some? && m < |Exec(route, t, ls).value.msgs| && Rescued(Exec(route, t, ls).value, m);
    Runs.ExecCons(StepOf(route), s, l, ls);
    assert Exec(route, s, [l] + ls) == Exec(route, t, ls);
  }

  lemma RescuedAlready(route: Router.Route, s: State, m: nat)
    requires m < |s.msgs| && Rescued(s, m)
    ensures CanBeRescued(route, s, m)
  {
    assert Exec(route, s, []) == Some(s);
  }

  /** A pending delivery can still end well. */
  lemma PendingRescues(route: Router.Route, s: State, m: nat, j: nat)
    requires Inv(route, s) && m < |s.msgs| && j < |s.msgs[m].runs| && Pending(s.msgs[m].runs[j])
    ensures CanBeRescued(route, s, m)
    decreases s.msgs[m].runs[j].pc.Queued?
  {
    var d := s.msgs[m].runs[j];
    assert s.msgs[m] in s.msgs && AttemptInv(route, j + 1, s.msgs[m].payload, d);
    var l := Work(m, j, if d.pc.Queued? then Fetch(true) else if d.pc.Handling? then Return(Success) else Publish(true));
    StepKeepsInv(route, s, l);
    var t := Next(route, s, l).value;
    if d.pc.Queued? {
      PendingRescues(route, t, m, j);
    } else {
      AckingMeansRescued(route, t, m, j);
      RescuedAlready(route, t, m);
    }
    RescueBy(route, s, l, m);
  }

  lemma RedeliveryRescues(route: Router.Route, s: State, m: nat)
    requires Inv(route, s) && m < |s.msgs| && !s.msgs[m].acked && Below(route, |s.msgs[m].runs|)
    ensures CanBeRescued(route, s, m)
    decreases !s.msgs[m].due
  {
    var l := if s.msgs[m].due then Deliver(m) else Expire(m);
    StepKeepsInv(route, s, l);
    var t := Next(route, s, l).value;
    if s.msgs[m].due {
      PendingRescues(route, t, m, |s.msgs[m].runs|);
    } else {
      RedeliveryRescues(route, t, m);
    }
    RescueBy(route, s, l, m);
  }

  /** When a message is beyond rescue: from a reachable state some continuation handles
      it or has its dead letter accepted exactly if that has happened, the server may
      deliver it again, or a delivery is pending.  Under unlimited deliveries no message
      is ever beyond rescue. */
  lemma RescueStaysPossibleIff(route: Router.Route, payloads: seq<string>, s: State, m: nat)
    requires Reachable(route, payloads, s) && m < |payloads| && m < |s.msgs|
    ensures CanBeRescued(route, s, m) <==>
      Rescued(s, m) || Below(route, |s.msgs[m].runs|) || exists d :: d in s.msgs[m].runs && Pending(d)
    ensures route.cfg.maxDeliver <= 0 ==> CanBeRescued(route, s, m)
  {
    ReachableInv(route, payloads, s);
    if s.msgs[m].acked { AckedMeansRescued(route, payloads, s, m); }
    if Rescued(s, m) {
      RescuedAlready(route, s, m);
    } else if Below(route, |s.msgs[m].runs|) {
      RedeliveryRescues(route, s, m);
    } else if exists d :: d in s.msgs[m].runs && Pending(d) {
      var d :| d in s.msgs[m].runs && Pending(d);
      var j :| 0 <= j < |s.msgs[m].runs| && s.msgs[m].runs[j] == d;
      PendingRescues(route, s, m, j);
    } else {
      forall ls | Exec(route, s, ls).Some? ensures Hopeless(route, Exec(route, s, ls).value, m) {
        HopelessForGood(route, s, ls, m);
      }
    }
  }
}
