/** The metrics wrapper in front of a request-reply route: handleRequestReplyMessage
    (consumer/consumer.go) hands the reply function whatever the wrapper returns, so
    what the wrapper drops (broker/instrumentation.go) can show in the reply. */
module InstrumentedReply {
  import opened Wrappers
  import opened NatsMsg
  import opened GoErrors
  import opened Handlers
  import opened RequestReply
  import Metrics
  import Reply

  type ReplyFunc<!V> = (V, Option<GoError>) -> Reply.Outcome<Option<Header>>

  /** What one request shows outside: whether the callback panics, and the reply. */
  function Effect<V>(handler: HandlerEnd<V>, fn: Option<ReplyFunc<V>>, request: Option<Header>, replyTo: string): (Flow, Option<Msg>) {
    (if handler.Panicked? || (fn.Some? && fn.value(handler.result, handler.err).Exploded?) then Panics else Returns,
     AnswerWith(handler, fn, request, replyTo))
  }

  /** How a reply function ended, up to the text of its own error, which is only logged. */
  function Shown(o: Reply.Outcome<Option<Header>>): Reply.Outcome<Option<Header>> {
    if o.Refused? then Reply.Refused("") else o
  }

  /** For this handler end nobody can tell whether metrics are on. */
  ghost predicate Invisible<V>(zero: V, handler: HandlerEnd<V>, fn: Option<ReplyFunc<V>>) {
    forall request, replyTo :: Effect(Metrics.Wrapped(zero, handler), fn, request, replyTo) == Effect(handler, fn, request, replyTo)
  }

  /** Metrics stay invisible in one invocation exactly if there is no error beside which
      a result could be dropped, no reply function, or one that shows the same for the
      handler's result as for nil. */
  lemma InvisibleIff<V>(zero: V, handler: HandlerEnd<V>, fn: Option<ReplyFunc<V>>)
    ensures Invisible(zero, handler, fn) <==>
      (Erred(handler) && fn.Some? ==> Shown(fn.value(handler.result, handler.err)) == Shown(fn.value(zero, handler.err)))
  {
    if Invisible(zero, handler, fn) && Erred(handler) && fn.Some? {
      var seen, wrapped := fn.value(handler.result, handler.err), fn.value(zero, handler.err);
      var a, b := Effect(handler, fn, None, ""), Effect(Metrics.Wrapped(zero, handler), fn, None, "");
      assert a == b;
      assert seen.Built? ==> a.1 == Some(Msg("", seen.header, seen.data));
      assert wrapped.Built? ==> b.1 == Some(Msg("", wrapped.header, wrapped.data));
    }
  }

  /** Beside an error the reply function does not read the result. */
  ghost predicate IgnoresResult<V(!new)>(zero: V, fn: ReplyFunc<V>) {
    forall v, e :: Shown(fn(v, Some(e))) == Shown(fn(zero, Some(e)))
  }

  /** Enabling metrics never shows on a route, whatever its handler does, exactly if it
      has no reply function or one that ignores the result beside an error. */
  lemma RouteInvisibleIff<V(!new)>(zero: V, fn: Option<ReplyFunc<V>>)
    ensures (forall handler :: Invisible(zero, handler, fn)) <==> fn.None? || IgnoresResult(zero, fn.value)
  {
    forall handler ensures fn.None? || IgnoresResult(zero, fn.value) ==> Invisible(zero, handler, fn) {
      InvisibleIff(zero, handler, fn);
    }
    if (forall handler :: Invisible(zero, handler, fn)) && fn.Some? {
      forall v, e ensures Shown(fn.value(v, Some(e))) == Shown(fn.value(zero, Some(e))) {
        InvisibleIff(zero, Returned(v, Some(e)), fn);
      }
    }
  }

  /** reply.JSON and every typed reply function adapted by WrapReply are safe. */
  lemma BuildersNeverShow<V(!new), R>(zero: V, handler: HandlerEnd<V>, marshal: V -> Result<string, string>,
      assertType: V -> Option<R>, zeroR: R, typed: (R, Option<GoError>) -> Reply.Outcome<Option<Header>>)
    ensures Invisible(zero, handler, Some((v: V, e: Option<GoError>) => Reply.JsonReply(marshal, v, e)))
    ensures Invisible(zero, handler, Some(WrapReply(assertType, zeroR, typed)))
  {
    InvisibleIff(zero, handler, Some((v: V, e: Option<GoError>) => Reply.JsonReply(marshal, v, e)));
    InvisibleIff(zero, handler, Some(WrapReply(assertType, zeroR, typed)));
  }

  /** json.Marshal gives the same text for both, or fails for both. */
  predicate Alike<V>(marshal: V -> Result<string, string>, v: V, w: V) {
    marshal(v) == marshal(w) || (marshal(v).Err? && marshal(w).Err?)
  }

  /** A reply function that passes the bare result to reply.WithStatus, in whatever
      status it derives from the error. */
  function WithStatusOf<V>(marshal: V -> Result<string, string>, status: Option<GoError> -> string): ReplyFunc<V> {
    (v: V, e: Option<GoError>) => Reply.StatusReply(marshal, v, status(e))
  }

  lemma StatusShows<V>(marshal: V -> Result<string, string>, status: Option<GoError> -> string, v: V, w: V, e: Option<GoError>)
    ensures var fn := WithStatusOf(marshal, status);
      Shown(fn(v, e)) == Shown(fn(w, e)) <==> Alike(marshal, v, w)
  {
    var fn := WithStatusOf(marshal, status);
    assert fn(v, e) == Reply.StatusReply(marshal, v, status(e)) && fn(w, e) == Reply.StatusReply(marshal, w, status(e));
    if marshal(v).Ok? && marshal(w).Ok? {
      assert Shown(fn(v, e)).data == marshal(v).value && Shown(fn(w, e)).data == marshal(w).value;
    }
  }

  /** Such a function is safe exactly if all results are marshalled alike; so one of them
      and two results tell metrics from none. */
  lemma WithStatusShowsIff<V(!new)>(zero: V, marshal: V -> Result<string, string>, status: Option<GoError> -> string)
    ensures (forall handler :: Invisible(zero, handler, Some(WithStatusOf(marshal, status)))) <==>
      forall v :: Alike(marshal, v, zero)
  {
    var fn := WithStatusOf(marshal, status);
    RouteInvisibleIff(zero, Some(fn));
    if IgnoresResult(zero, fn) {
      var e := GoError("", None, []);
      forall v ensures Alike(marshal, v, zero) {
        assert Shown(fn(v, Some(e))) == Shown(fn(zero, Some(e)));
        StatusShows(marshal, status, v, zero, Some(e));
      }
    }
    if forall v :: Alike(marshal, v, zero) {
      forall v, e ensures Shown(fn(v, Some(e))) == Shown(fn(zero, Some(e))) {
        StatusShows(marshal, status, v, zero, Some(e));
      }
    }
  }
}
