/** The request half of producer/producer.go: the timeout option, the effective
    deadline and the classification of failures.  Time is in nanoseconds. */
module Producer {
  import opened Wrappers
  import opened NatsMsg

  const DEFAULT_REQUEST_TIMEOUT := 10_000_000_000

  datatype ProducerOption = WithLogger | WithRequestTimeout(d: int) | WithoutRequestTimeout

  datatype BuildError = MissingSubject | UnsupportedPublisher

  datatype Settings = Settings(subject: string, requestTimeout: int)

  datatype Response = Response(data: string, header: Option<Header>)

  /** ErrRequestTimeout wraps its cause. */
  datatype ClientError = NotSupported | Timeout(cause: string) | Transport(cause: string)

  /** The timeout that is in force: the last option that says anything about it. */
  function EffectiveTimeout(opts: seq<ProducerOption>): (t: int)
    ensures t >= 0
  {
    if opts == [] then DEFAULT_REQUEST_TIMEOUT
    else match opts[|opts| - 1]
      case WithRequestTimeout(d) => if d > 0 then d else EffectiveTimeout(opts[..|opts| - 1])
      case WithoutRequestTimeout => 0
      case WithLogger => EffectiveTimeout(opts[..|opts| - 1])
  }

  method New(publisherIsNil: bool, subject: string, opts: seq<ProducerOption>) returns (res: Result<Settings, BuildError>)
    ensures res ==
      if subject == "" then Err(MissingSubject)
      else if publisherIsNil then Err(UnsupportedPublisher)
      else Ok(Settings(subject, EffectiveTimeout(opts)))
  {
    if subject == "" {
      return Err(MissingSubject);
    }
    if publisherIsNil {
      return Err(UnsupportedPublisher);
    }
    var timeout := DEFAULT_REQUEST_TIMEOUT;
    for i := 0 to |opts|
      invariant timeout == EffectiveTimeout(opts[..i])
    {
      assert opts[..i + 1][..i] == opts[..i];
      match opts[i]
      case WithLogger =>
      case WithRequestTimeout(d) => if d > 0 { timeout := d; }
      case WithoutRequestTimeout => timeout := 0;
    }
    assert opts[..|opts|] == opts;
    return Ok(Settings(subject, timeout));
  }

  /** A context: its deadline, and when somebody cancels it, if ever. */
  datatype Ctx = Ctx(deadline: Option<int>, cancelAt: Option<int>)

  function Earlier(a: Option<int>, b: Option<int>): Option<int> {
    if a.None? then b else if b.None? then a else if a.value <= b.value then a else b
  }

  /** When the context is done. */
  function DoneTime(ctx: Ctx): Option<int> {
    Earlier(ctx.deadline, ctx.cancelAt)
  }

  predicate DoneAt(ctx: Ctx, t: int) {
    DoneTime(ctx).Some? && DoneTime(ctx).value <= t
  }

  /** context.WithTimeout, when a timeout is set. */
  function Bounded(ctx: Ctx, start: int, timeout: int): Ctx {
    if timeout > 0 then ctx.(deadline := Earlier(ctx.deadline, Some(start + timeout))) else ctx
  }

  /** What the connection produces for a request, if anything, and when. */
  datatype Net = Reply(at: int, resp: Response) | Fault(at: int, err: string) | Silence

  /** How the publisher's Request ends. */
  datatype Wait = Got(at: int, resp: Response) | Failed(at: int, err: string) | Forever

  function Later(a: int, b: int): int {
    if a >= b then a else b
  }

  /** When a call that begins at `start` can first see its context done: at once, if it
      was done before. */
  function DoneFor(ctx: Ctx, start: int): Option<int> {
    var done := DoneTime(ctx);
    if done.None? then None else Some(Later(start, done.value))
  }

  /** A core NATS request that begins at `start` returns what the connection produces
      from then on or the context's error, whichever is first (either one at the same
      instant), and otherwise waits. */
  ghost predicate Waits(ctx: Ctx, start: int, net: Net, w: Wait) {
    var done := DoneFor(ctx, start);
    match w
    case Got(t, r) => net == Reply(t, r) && start <= t && (done.None? || t <= done.value)
    case Failed(t, e) =>
      || (net == Fault(t, e) && start <= t && (done.None? || t <= done.value))
      || (done == Some(t) && (net.Silence? || t <= net.at))
    case Forever => net.Silence? && done.None?
  }

  /** Producer.Request once the publisher has returned at w.at; ctx.Err is looked at
      `lag` later.  None while it is still waiting. */
  function Request(supported: bool, timeout: int, ctx: Ctx, start: int, w: Wait, lag: nat): Option<Result<Response, ClientError>> {
    if !supported then Some(Err(NotSupported))
    else match w
      case Forever => None
      case Got(_, r) => Some(Ok(r))
      case Failed(t, e) =>
        Some(Err(if DoneAt(Bounded(ctx, start, timeout), t + lag) then Timeout(e) else Transport(e)))
  }

  /** The last option that disables the timeout or sets a positive one decides; a logger
      and a non-positive value say nothing. */
  lemma {:induction false} LastTimeoutWins(opts: seq<ProducerOption>, i: nat)
    requires i < |opts| && forall j :: i < j < |opts| ==> opts[j].WithLogger? || (opts[j].WithRequestTimeout? && opts[j].d <= 0)
    ensures opts[i].WithoutRequestTimeout? ==> EffectiveTimeout(opts) == 0
    ensures opts[i].WithRequestTimeout? && opts[i].d > 0 ==> EffectiveTimeout(opts) == opts[i].d
  {
    if i < |opts| - 1 {
      LastTimeoutWins(opts[..|opts| - 1], i);
    }
  }

  /** If no option says anything, the timeout is ten seconds. */
  lemma {:induction false} TimeoutByDefault(opts: seq<ProducerOption>)
    requires forall i :: 0 <= i < |opts| ==> opts[i].WithLogger? || (opts[i].WithRequestTimeout? && opts[i].d <= 0)
    ensures EffectiveTimeout(opts) == 10_000_000_000
  {
    if opts != [] {
      TimeoutByDefault(opts[..|opts| - 1]);
    }
  }

  /** Request succeeds exactly with a response that the connection produced in time for
      the publisher to return it, and with just that. */
  lemma ResponseIff(opts: seq<ProducerOption>, ctx: Ctx, start: int, net: Net, w: Wait, lag: nat, resp: Response)
    requires Waits(Bounded(ctx, start, EffectiveTimeout(opts)), start, net, w)
    ensures Request(true, EffectiveTimeout(opts), ctx, start, w, lag) == Some(Ok(resp)) <==> w.Got? && w.resp == resp
    ensures w.Got? ==> net == Reply(w.at, w.resp)
  {
  }

  /** A reply before every limit is returned, and one after some limit is a timeout,
      whatever the schedule. */
  lemma ReplyByTheLimits(opts: seq<ProducerOption>, ctx: Ctx, start: int, at: int, resp: Response, w: Wait, lag: nat)
    requires Waits(Bounded(ctx, start, EffectiveTimeout(opts)), start, Reply(at, resp), w) && start <= at
    ensures
      var t := EffectiveTimeout(opts);
      var res := Request(true, t, ctx, start, w, lag);
      && ((t > 0 ==> at < start + t) && (ctx.deadline.Some? ==> at < ctx.deadline.value) && (ctx.cancelAt.Some? ==> at < ctx.cancelAt.value) ==>
            res == Some(Ok(resp)))
      && ((t > 0 && at > start + t) || (at > start && (
             || (ctx.deadline.Some? && at > ctx.deadline.value) || (ctx.cancelAt.Some? && at > ctx.cancelAt.value))) ==>
            w.Failed? && res == Some(Err(Timeout(w.err))))
  {
  }

  /** Facing silence, a request with a timeout in force ends no later than the
      caller's deadline and no later than start + timeout, and always as
      ErrRequestTimeout; without a timeout it ends exactly when the caller's context
      does, and never if that never does.  A context that is done before the call ends
      it at its start. */
  lemma SilenceEnds(opts: seq<ProducerOption>, ctx: Ctx, start: int, w: Wait, lag: nat)
    requires Waits(Bounded(ctx, start, EffectiveTimeout(opts)), start, Silence, w)
    ensures var t := EffectiveTimeout(opts);
      && (t > 0 ==> w.Failed? && start <= w.at <= start + t && (ctx.deadline.Some? ==> w.at <= Later(start, ctx.deadline.value)))
      && (t > 0 && ctx.cancelAt.None? ==> w.at == start + t || (ctx.deadline.Some? && w.at == Later(start, ctx.deadline.value)))
      && (t == 0 ==> (w.Forever? <==> DoneTime(ctx).None?) && (w.Failed? ==> Some(w.at) == DoneFor(ctx, start)))
      && (w.Failed? ==> Request(true, t, ctx, start, w, lag) == Some(Err(Timeout(w.err))))
  {
  }

  /** An error escapes the name ErrRequestTimeout exactly when it is examined before
      the caller's deadline, before start + timeout and before any cancellation; a
      caller's cancel and a connection fault seen too late are called timeouts too. */
  lemma TransportErrorIff(opts: seq<ProducerOption>, ctx: Ctx, start: int, net: Net, w: Wait, lag: nat)
    requires Waits(Bounded(ctx, start, EffectiveTimeout(opts)), start, net, w) && w.Failed?
    ensures var t := EffectiveTimeout(opts);
      Request(true, t, ctx, start, w, lag) == Some(Err(Transport(w.err))) <==>
        && net == Fault(w.at, w.err)
        && (t > 0 ==> w.at + lag < start + t)
        && (ctx.deadline.Some? ==> w.at + lag < ctx.deadline.value)
        && (ctx.cancelAt.Some? ==> w.at + lag < ctx.cancelAt.value)
    ensures Request(false, EffectiveTimeout(opts), ctx, start, w, lag) == Some(Err(NotSupported))
  {
  }

  /** The request is named a timeout although, when it is examined, neither the caller's
      deadline nor start + timeout has passed. */
  ghost predicate TimedOutEarly(ctx: Ctx, start: int, timeout: int, net: Net, w: Wait, lag: nat) {
    && Waits(Bounded(ctx, start, timeout), start, net, w) && w.Failed?
    && Request(true, timeout, ctx, start, w, lag) == Some(Err(Timeout(w.err)))
    && (timeout > 0 ==> w.at + lag < start + timeout)
    && (ctx.deadline.Some? ==> w.at + lag < ctx.deadline.value)
  }

  /** "Exceeded its deadline" is not what ErrRequestTimeout says of every call: some
      exchange ends in it before every deadline exactly if the caller's context is
      cancelled before both of them and the call begins before its deadline. */
  lemma EarlyTimeoutIff(opts: seq<ProducerOption>, ctx: Ctx, start: int)
    ensures var t := EffectiveTimeout(opts);
      (exists net, w, lag: nat :: TimedOutEarly(ctx, start, t, net, w, lag)) <==>
        && ctx.cancelAt.Some?
        && (t > 0 ==> ctx.cancelAt.value < start + t)
        && (ctx.deadline.Some? ==> Later(start, ctx.cancelAt.value) < ctx.deadline.value)
  {
    var t := EffectiveTimeout(opts);
    if ctx.cancelAt.Some? && (t > 0 ==> ctx.cancelAt.value < start + t)
      && (ctx.deadline.Some? ==> Later(start, ctx.cancelAt.value) < ctx.deadline.value)
    {
      assert TimedOutEarly(ctx, start, t, Silence, Failed(Later(start, ctx.cancelAt.value), ""), 0);
    }
  }
}
