/** The consumer half of request-reply: handleRequestReplyMessage and defaultReply
    (consumer/consumer.go) and the typed adaptor WrapReply (typed/reply.go). */
module RequestReply {
  import opened Wrappers
  import opened NatsMsg
  import opened Headers
  import opened GoErrors
  import opened Handlers
  import opened Reply

  datatype Flow = Returns | Panics

  /** A publish attempt and whether the client accepted it. */
  datatype Attempt = Attempt(msg: Msg, accepted: bool)

  class Outbox {
    var attempts: seq<Attempt>

    constructor ()
      ensures attempts == []
    {
      attempts := [];
    }

    method PublishMsg(m: Msg, ok: bool)
      modifies this
      ensures attempts == old(attempts) + [Attempt(m, ok)]
    {
      attempts := attempts + [Attempt(m, ok)];
    }
  }

  /** The reply to one request, None for silence.  `built` is what the route's
      ReplyFunc makes of the handler's result and error, None without a ReplyFunc. */
  function Answer<V>(handler: HandlerEnd<V>, built: Option<Outcome<Option<Header>>>, request: Option<Header>, replyTo: string): Option<Msg> {
    if handler.Panicked? then None
    else match built
      case None => if handler.err.Some? then None else Some(Msg(replyTo, None, "ok"))
      case Some(Built(data, h)) => Some(Msg(replyTo, MergedHeader(h, request), data))
      case Some(_) => None
  }

  function SeenOption(o: Option<Outcome<HeaderMap?>>): Option<Outcome<Option<Header>>>
    reads if o.Some? && o.value.Built? then {o.value.header} else {}
  {
    if o.None? then None else Some(Seen(o.value))
  }

  method HandleRequestReplyMessage<V>(
      nc: Outbox, msg: NatsMessage, replyTo: string,
      handler: HandlerEnd<V>, built: Option<Outcome<HeaderMap?>>, accepted: bool)
    returns (flow: Flow)
    requires built.Some? && built.value.Built? ==> msg.header == null || msg.header != built.value.header
    modifies nc, if built.Some? && built.value.Built? then {built.value.header} else {}
    ensures
      var answer := Answer(handler, old(SeenOption(built)), old(View(msg.header)), replyTo);
      nc.attempts == old(nc.attempts) + if answer.None? then [] else [Attempt(answer.value, accepted)]
    ensures flow.Panics? <==> handler.Panicked? || built == Some(Exploded)
    ensures View(msg.header) == old(View(msg.header))
    // A header map that the reply function keeps is left with the request's values in it.
    ensures handler.Returned? && built.Some? && built.value.Built? && built.value.header != null ==>
      View(built.value.header) == MergedHeader(old(View(built.value.header)), old(View(msg.header)))
  {
    if handler.Panicked? {
      return Panics;
    }
    if built.None? {
      DefaultReply(nc, replyTo, handler.err, accepted);
      return Returns;
    }
    match built.value {
      case Exploded => return Panics;
      case Refused(_) => return Returns;
      case Built(data, headers) =>
        var out := new NatsMessage(replyTo, data, headers);
        PropagateHeaders(msg, out);
        nc.PublishMsg(Msg(out.subject, View(out.header), out.data), accepted);
        return Returns;
    }
  }

  method DefaultReply(nc: Outbox, replyTo: string, err: Option<GoError>, accepted: bool)
    modifies nc
    ensures nc.attempts == old(nc.attempts) + if err.Some? then [] else [Attempt(Msg(replyTo, None, "ok"), accepted)]
  {
    if err.Some? {
      return;
    }
    nc.PublishMsg(Msg(replyTo, None, "ok"), accepted);
  }

  /** The adaptor of WrapReply: `assertType` is the type assertion to R. */
  function WrapReply<V, R, H>(assertType: V -> Option<R>, zero: R, fn: (R, Option<GoError>) -> Outcome<H>): (V, Option<GoError>) -> Outcome<H> {
    (result: V, err: Option<GoError>) =>
      if err.Some? then fn(zero, err)
      else if assertType(result).None? then Refused("typed: reply: unexpected result type")
      else fn(assertType(result).value, None)
  }

  /** The reply of a route whose ReplyFunc is `fn`, if it has one. */
  function AnswerWith<V>(handler: HandlerEnd<V>, fn: Option<(V, Option<GoError>) -> Outcome<Option<Header>>>, request: Option<Header>, replyTo: string): Option<Msg> {
    var built := if fn.Some? && handler.Returned? then Some(fn.value(handler.result, handler.err)) else None;
    Answer(handler, built, request, replyTo)
  }

  /** The handler panics, its result has the wrong type, or the typed reply function
      builds nothing of what it is given. */
  predicate Unanswerable<V, R, H>(handler: HandlerEnd<V>, assertType: V -> Option<R>, zero: R, fn: (R, Option<GoError>) -> Outcome<H>) {
    || handler.Panicked?
    || (handler.err.Some? && !fn(zero, handler.err).Built?)
    || (handler.err.None? && assertType(handler.result).None?)
    || (handler.err.None? && assertType(handler.result).Some? && !fn(assertType(handler.result).value, None).Built?)
  }

  /** Without a ReplyFunc only a handler error or panic silences a request; on a
      typed route a handler error by itself never does. */
  lemma TypedSilence<V, R>(handler: HandlerEnd<V>, assertType: V -> Option<R>, zero: R,
      fn: (R, Option<GoError>) -> Outcome<Option<Header>>, request: Option<Header>, replyTo: string)
    ensures AnswerWith(handler, None, request, replyTo).None? <==> handler.Panicked? || handler.err.Some?
    ensures AnswerWith(handler, Some(WrapReply(assertType, zero, fn)), request, replyTo).None? <==>
      Unanswerable(handler, assertType, zero, fn)
  {
    if handler.Returned? {
      var o := WrapReply(assertType, zero, fn)(handler.result, handler.err);
      assert AnswerWith(handler, Some(WrapReply(assertType, zero, fn)), request, replyTo).None? <==> !o.Built?;
    }
  }

  /** What a route with a reply function publishes: the data as built, and the headers as
      built with the request's tracing values after them, key by key. */
  lemma PublishedReply<V>(handler: HandlerEnd<V>, fn: (V, Option<GoError>) -> Outcome<Option<Header>>,
      request: Option<Header>, replyTo: string, k: string)
    requires handler.Returned? && fn(handler.result, handler.err).Built?
    ensures
      var o := fn(handler.result, handler.err);
      var m := AnswerWith(handler, Some(fn), request, replyTo);
      && m.Some? && m.value.subject == replyTo && m.value.data == o.data
      && (request.None? ==> m.value.header == o.header)
      && (request.Some? ==>
            var base := if o.header.Some? then o.header.value else map[];
            var traced := k in {"X-Correlation-ID", "traceparent", "tracestate", "baggage"};
            && m.value.header.Some?
            && Values(m.value.header.value, k) == Values(base, k) + (if traced then Values(request.value, k) else [])
            && (k in m.value.header.value <==> k in base || (traced && Values(request.value, k) != [])))
  {
    var o := fn(handler.result, handler.err);
    assert AnswerWith(handler, Some(fn), request, replyTo) == Answer(handler, Some(o), request, replyTo);
    if request.Some? {
      MergeIsExactly(if o.header.Some? then o.header.value else map[], request.value, k);
    }
  }

  /** Without a reply function a success is answered by "ok" and no headers; a typed reply
      function is given the error and the zero value, or the handler's own result. */
  lemma OtherReplies<V, R>(result: V, e: GoError, assertType: V -> Option<R>, zero: R,
      fn: (R, Option<GoError>) -> Outcome<Option<Header>>, request: Option<Header>, replyTo: string)
    ensures AnswerWith(Returned(result, None), None, request, replyTo) == Some(Msg(replyTo, None, "ok"))
    ensures
      var typed := Some(WrapReply(assertType, zero, fn));
      && AnswerWith(Returned(result, Some(e)), typed, request, replyTo) == AnswerWith(Returned(zero, Some(e)), Some(fn), request, replyTo)
      && (assertType(result).Some? ==>
            AnswerWith(Returned(result, None), typed, request, replyTo) ==
            AnswerWith(Returned(assertType(result).value, None), Some(fn), request, replyTo))
  {
    var typed := WrapReply(assertType, zero, fn);
    assert typed(result, Some(e)) == fn(zero, Some(e));
    assert assertType(result).Some? ==> typed(result, None) == fn(assertType(result).value, None);
  }
}
