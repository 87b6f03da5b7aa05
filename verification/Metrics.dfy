/** The instrumented handler (broker/instrumentation.go) and its four metrics
    (broker/metrics.go), one integer per metric and subject. */
module Metrics {
  import opened Wrappers
  import opened Sums
  import opened Handlers
  import Runs

  datatype Counters = Counters(
    inflight: map<string, int>,
    requests: map<string, int>,
    errors: map<string, int>,
    durations: map<string, int>)

  /** A label that was never used counts 0. */
  function Level(m: map<string, int>, s: string): int {
    if s in m then m[s] else 0
  }

  function Add(m: map<string, int>, s: string, d: int): map<string, int> {
    m[s := Level(m, s) + d]
  }

  /** What one whole invocation leaves behind, started and ended. */
  function AfterCall<V>(c: Counters, s: string, e: HandlerEnd<V>): Counters {
    var settled := c.(inflight := Add(Add(c.inflight, s, 1), s, -1));
    if e.Panicked? then settled
    else if Erred(e) then settled.(durations := Add(c.durations, s, 1), errors := Add(c.errors, s, 1))
    else settled.(durations := Add(c.durations, s, 1), requests := Add(c.requests, s, 1))
  }

  /** What the consumer is told with metrics on: a result next to an error is replaced
      by nil. */
  function Wrapped<V>(zero: V, e: HandlerEnd<V>): HandlerEnd<V> {
    if Erred(e) then Returned(zero, e.err) else e
  }

  class BrokerMetrics {
    var inflight: map<string, int>
    var requestsTotal: map<string, int>
    var errorsTotal: map<string, int>
    var duration: map<string, int>

    function View(): Counters
      reads this
    {
      Counters(inflight, requestsTotal, errorsTotal, duration)
    }

    constructor ()
      ensures View() == Counters(map[], map[], map[], map[])
    {
      inflight, requestsTotal, errorsTotal, duration := map[], map[], map[], map[];
    }

    method InflightInc(subject: string)
      modifies `inflight
      ensures inflight == Add(old(inflight), subject, 1)
    {
      inflight := Add(inflight, subject, 1);
    }

    method InflightDec(subject: string)
      modifies `inflight
      ensures inflight == Add(old(inflight), subject, -1)
    {
      inflight := Add(inflight, subject, -1);
    }

    method IncRequest(subject: string)
      modifies `requestsTotal
      ensures requestsTotal == Add(old(requestsTotal), subject, 1)
    {
      requestsTotal := Add(requestsTotal, subject, 1);
    }

    method IncError(subject: string)
      modifies `errorsTotal
      ensures errorsTotal == Add(old(errorsTotal), subject, 1)
    {
      errorsTotal := Add(errorsTotal, subject, 1);
    }

    method ObserveDuration(subject: string)
      modifies `duration
      ensures duration == Add(old(duration), subject, 1)
    {
      duration := Add(duration, subject, 1);
    }
  }

  /** One call of what `instrument` returns, run alone; `handler` is what the wrapped
      handler does and `zero` the nil result.  Without metrics the caller is given the
      handler itself, and so its result even next to an error. */
  method Instrumented<V>(metrics: BrokerMetrics?, subject: string, zero: V, handler: HandlerEnd<V>) returns (out: HandlerEnd<V>)
    modifies metrics
    ensures out == if metrics == null then handler else Wrapped(zero, handler)
    ensures metrics != null ==> metrics.View() == AfterCall(old(metrics.View()), subject, handler)
  {
    if metrics == null {
      return handler;
    }
    metrics.InflightInc(subject);
    out := Panicked;
    match handler {
      case Panicked => // only the deferred call is left
      case Returned(res, err) =>
        metrics.ObserveDuration(subject);
        if err.Some? {
          metrics.IncError(subject);
          out := Returned(zero, err);
        } else {
          metrics.IncRequest(subject);
          out := Returned(res, None);
        }
    }
    metrics.InflightDec(subject); // deferred
  }

  // ------------------------------------------------- invocations in parallel

  datatype Pc = Begun | InHandler | Handled | Observed | Leaving | Over

  datatype Invocation = Invocation(subject: string, pc: Pc, ending: Option<HandlerEnd<string>>)

  datatype State = State(c: Counters, calls: seq<Invocation>)

  datatype Label = Begin(subject: string) | Inc(i: nat) | Return(i: nat, e: HandlerEnd<string>) | Observe(i: nat) | Count(i: nat) | Dec(i: nat)

  const INIT := State(Counters(map[], map[], map[], map[]), [])

  function Move(s: State, c: Counters, i: nat, call: Invocation): State
    requires i < |s.calls|
  {
    State(c, s.calls[i := call])
  }

  function Next(s: State, l: Label): Option<State> {
    if l.Begin? then Some(s.(calls := s.calls + [Invocation(l.subject, Begun, None)]))
    else if l.i >= |s.calls| then None
    else
      var call := s.calls[l.i];
      var sub := call.subject;
      match l
      case Inc(i) =>
        if !call.pc.Begun? then None
        else Some(Move(s, s.c.(inflight := Add(s.c.inflight, sub, 1)), i, call.(pc := InHandler)))
      case Return(i, e) =>
        if !call.pc.InHandler? then None
        else Some(Move(s, s.c, i, call.(pc := if e.Panicked? then Leaving else Handled, ending := Some(e))))
      case Observe(i) =>
        if !call.pc.Handled? then None
        else Some(Move(s, s.c.(durations := Add(s.c.durations, sub, 1)), i, call.(pc := Observed)))
      case Count(i) =>
        if !call.pc.Observed? || call.ending.None? then None
        else if Erred(call.ending.value) then
          Some(Move(s, s.c.(errors := Add(s.c.errors, sub, 1)), i, call.(pc := Leaving)))
        else
          Some(Move(s, s.c.(requests := Add(s.c.requests, sub, 1)), i, call.(pc := Leaving)))
      case Dec(i) =>
        if !call.pc.Leaving? then None
        else Some(Move(s, s.c.(inflight := Add(s.c.inflight, sub, -1)), i, call.(pc := Over)))
  }

  function Exec(s: State, ls: seq<Label>): Option<State> {
    Runs.Exec(Next, s, ls)
  }

  predicate Inside(call: Invocation) {
    call.pc.InHandler? || call.pc.Handled? || call.pc.Observed? || call.pc.Leaving?
  }

  predicate Past(call: Invocation) {
    call.pc.Leaving? || call.pc.Over?
  }

  // One weight per quantity that is counted for subject s.

  function Running(s: string): Invocation -> nat {
    (call: Invocation) => if call.subject == s && Inside(call) then 1 else 0
  }

  function Succeeded(s: string): Invocation -> nat {
    (call: Invocation) => if call.subject == s && Past(call) && call.ending.Some? && !call.ending.value.Panicked? && !Erred(call.ending.value) then 1 else 0
  }

  function Failed(s: string): Invocation -> nat {
    (call: Invocation) => if call.subject == s && Past(call) && call.ending.Some? && Erred(call.ending.value) then 1 else 0
  }

  function Timed(s: string): Invocation -> nat {
    (call: Invocation) =>
      if call.subject == s && (Past(call) || call.pc.Observed?) && call.ending.Some? && !call.ending.value.Panicked? then 1 else 0
  }

  function Crashed(s: string): Invocation -> nat {
    (call: Invocation) => if call.subject == s && call.ending.Some? && call.ending.value.Panicked? then 1 else 0
  }

  function Started(s: string): Invocation -> nat {
    (call: Invocation) => if call.subject == s then 1 else 0
  }

  predicate CallInv(call: Invocation) {
    match call.pc
    case Begun => call.ending.None?
    case InHandler => call.ending.None?
    case Handled => call.ending.Some? && !call.ending.value.Panicked?
    case Observed => call.ending.Some? && !call.ending.value.Panicked?
    case Leaving => call.ending.Some?
    case Over => call.ending.Some?
  }

  ghost predicate SubjectInv(s: State, sub: string) {
    && Level(s.c.inflight, sub) == Sum(s.calls, Running(sub))
    && Level(s.c.requests, sub) == Sum(s.calls, Succeeded(sub))
    && Level(s.c.errors, sub) == Sum(s.calls, Failed(sub))
    && Level(s.c.durations, sub) == Sum(s.calls, Timed(sub))
  }

  ghost predicate Inv(s: State) {
    (forall call | call in s.calls :: CallInv(call)) && forall sub :: SubjectInv(s, sub)
  }

  lemma BeginKeepsSubject(s: State, l: Label, sub: string)
    requires SubjectInv(s, sub) && l.Begin?
    ensures SubjectInv(Next(s, l).value, sub)
  {
    var call := Invocation(l.subject, Begun, None);
    SumAppend(s.calls, call, Running(sub));
    SumAppend(s.calls, call, Succeeded(sub));
    SumAppend(s.calls, call, Failed(sub));
    SumAppend(s.calls, call, Timed(sub));
  }

  /** Each counter moves by what the moving invocation contributes to it. */
  lemma MoveCounts(s: State, l: Label, sub: string)
    requires !l.Begin? && Next(s, l).Some? && CallInv(s.calls[l.i])
    ensures var t := Next(s, l).value; var call := s.calls[l.i]; var call' := t.calls[l.i];
      && t.calls == s.calls[l.i := call']
      && Level(t.c.inflight, sub) - Level(s.c.inflight, sub) == Running(sub)(call') - Running(sub)(call)
      && Level(t.c.requests, sub) - Level(s.c.requests, sub) == Succeeded(sub)(call') - Succeeded(sub)(call)
      && Level(t.c.errors, sub) - Level(s.c.errors, sub) == Failed(sub)(call') - Failed(sub)(call)
      && Level(t.c.durations, sub) - Level(s.c.durations, sub) == Timed(sub)(call') - Timed(sub)(call)
  {
    match l
    case Inc(i) =>
    case Return(i, e) =>
    case Observe(i) =>
    case Count(i) =>
    case Dec(i) =>
  }

  lemma MoveKeepsSubject(s: State, l: Label, sub: string)
    requires SubjectInv(s, sub) && !l.Begin? && Next(s, l).Some? && CallInv(s.calls[l.i])
    ensures SubjectInv(Next(s, l).value, sub)
  {
    MoveCounts(s, l, sub);
    var call := Next(s, l).value.calls[l.i];
    SumUpdate(s.calls, l.i, call, Running(sub));
    SumUpdate(s.calls, l.i, call, Succeeded(sub));
    SumUpdate(s.calls, l.i, call, Failed(sub));
    SumUpdate(s.calls, l.i, call, Timed(sub));
  }

  lemma StepKeepsInv(s: State, l: Label)
    requires Inv(s) && Next(s, l).Some?
    ensures Inv(Next(s, l).value)
  {
    if !l.Begin? { assert s.calls[l.i] in s.calls; }
    forall sub ensures SubjectInv(Next(s, l).value, sub) {
      assert SubjectInv(s, sub);
      if l.Begin? { BeginKeepsSubject(s, l, sub); } else { MoveKeepsSubject(s, l, sub); }
    }
  }

  lemma {:induction false} ExecKeepsInv(s: State, ls: seq<Label>)
    requires Inv(s) && Exec(s, ls).Some?
    ensures Inv(Exec(s, ls).value)
    decreases |ls|
  {
    if ls != [] {
      StepKeepsInv(s, ls[0]);
      ExecKeepsInv(Next(s, ls[0]).value, ls[1..]);
    }
  }

  /** An invocation is still going on or ended in exactly one of three ways. */
  lemma {:induction false} Partition(calls: seq<Invocation>, sub: string)
    requires forall call | call in calls :: CallInv(call) && call.pc.Over?
    ensures Sum(calls, Started(sub)) == Sum(calls, Succeeded(sub)) + Sum(calls, Failed(sub)) + Sum(calls, Crashed(sub))
    ensures Sum(calls, Timed(sub)) == Sum(calls, Succeeded(sub)) + Sum(calls, Failed(sub))
    ensures Sum(calls, Running(sub)) == 0
  {
    if calls != [] {
      Partition(calls[1..], sub);
    }
  }

  /** In every reachable state and for every subject the gauge is the number of
      executions between its Inc and its deferred Dec, hence never negative, and the
      counters and the histogram count what has ended accordingly. */
  lemma GaugeIsExact(ls: seq<Label>, sub: string)
    requires Exec(INIT, ls).Some?
    ensures var s := Exec(INIT, ls).value;
      && Level(s.c.inflight, sub) == Sum(s.calls, Running(sub)) >= 0
      && Level(s.c.requests, sub) == Sum(s.calls, Succeeded(sub))
      && Level(s.c.errors, sub) == Sum(s.calls, Failed(sub))
      && Level(s.c.durations, sub) == Sum(s.calls, Timed(sub))
  {
    ExecKeepsInv(INIT, ls);
    assert SubjectInv(Exec(INIT, ls).value, sub);
  }

  /** When every invocation is over: started = requests + errors + panics, the
      histogram counts requests + errors, and the gauge is back to 0, also for
      registrations that share a subject. */
  lemma Conservation(ls: seq<Label>, sub: string)
    requires Exec(INIT, ls).Some? && forall call | call in Exec(INIT, ls).value.calls :: call.pc.Over?
    ensures var s := Exec(INIT, ls).value;
      && Sum(s.calls, Started(sub)) == Level(s.c.requests, sub) + Level(s.c.errors, sub) + Sum(s.calls, Crashed(sub))
      && Level(s.c.durations, sub) == Level(s.c.requests, sub) + Level(s.c.errors, sub)
      && Level(s.c.inflight, sub) == 0
  {
    ExecKeepsInv(INIT, ls);
    assert SubjectInv(Exec(INIT, ls).value, sub);
    Partition(Exec(INIT, ls).value.calls, sub);
  }

  /** The steps of invocation i, which is about to begin, for one ending. */
  function Script(i: nat, e: HandlerEnd<string>): seq<Label> {
    if e.Panicked? then [Inc(i), Return(i, e), Dec(i)] else [Inc(i), Return(i, e), Observe(i), Count(i), Dec(i)]
  }

  lemma SoloPanic(s: State, i: nat, e: HandlerEnd<string>)
    requires i < |s.calls| && s.calls[i].pc.Begun? && e.Panicked?
    ensures Exec(s, Script(i, e)).Some?
    ensures Exec(s, Script(i, e)).value.c == AfterCall(s.c, s.calls[i].subject, e)
  {
    var t1 := Next(s, Inc(i)).value;
    var t2 := Next(t1, Return(i, e)).value;
    Runs.ExecCons(Next, t2, Dec(i), []);
    Runs.ExecCons(Next, t1, Return(i, e), [Dec(i)]);
    Runs.ExecCons(Next, s, Inc(i), [Return(i, e), Dec(i)]);
    assert [Dec(i)] + [] == [Dec(i)];
  }

  /** The steps after a handler returned, with or without an error. */
  lemma SoloTail(s: State, i: nat)
    requires i < |s.calls| && s.calls[i].pc.Handled? && s.calls[i].ending.Some?
    ensures var ls := [Observe(i), Count(i), Dec(i)]; var sub := s.calls[i].subject;
      && Exec(s, ls).Some?
      && Exec(s, ls).value.c ==
           var timed := s.c.(durations := Add(s.c.durations, sub, 1), inflight := Add(s.c.inflight, sub, -1));
           if Erred(s.calls[i].ending.value) then timed.(errors := Add(s.c.errors, sub, 1)) else timed.(requests := Add(s.c.requests, sub, 1))
  {
    var t3 := Next(s, Observe(i)).value;
    var t4 := Next(t3, Count(i)).value;
    Runs.ExecCons(Next, t4, Dec(i), []);
    Runs.ExecCons(Next, t3, Count(i), [Dec(i)]);
    Runs.ExecCons(Next, s, Observe(i), [Count(i), Dec(i)]);
    assert [Dec(i)] + [] == [Dec(i)];
  }

  /** The parallel model and the closure agree: an invocation that runs undisturbed
      changes the counters as one call of Instrumented does. */
  lemma SoloRun(s: State, i: nat, e: HandlerEnd<string>)
    requires i < |s.calls| && s.calls[i].pc.Begun?
    ensures Exec(s, Script(i, e)).Some?
    ensures Exec(s, Script(i, e)).value.c == AfterCall(s.c, s.calls[i].subject, e)
  {
    if e.Panicked? {
      SoloPanic(s, i, e);
    } else {
      var t1 := Next(s, Inc(i)).value;
      SoloTail(Next(t1, Return(i, e)).value, i);
      Runs.ExecCons(Next, t1, Return(i, e), [Observe(i), Count(i), Dec(i)]);
      Runs.ExecCons(Next, s, Inc(i), [Return(i, e), Observe(i), Count(i), Dec(i)]);
      assert Script(i, e) == [Inc(i)] + [Return(i, e), Observe(i), Count(i), Dec(i)];
    }
  }
}
