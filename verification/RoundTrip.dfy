/** Request-reply from end to end: the reply a handler's result turns into, the
    headers it picks up on the way out, and what the typed requester makes of it.  A
    published reply reaches the requester with its data and headers unchanged. */
module RoundTrip {
  import opened Wrappers
  import opened NatsMsg
  import opened Headers
  import opened GoErrors
  import opened Handlers
  import opened RequestReply
  import Reply
  import ErrorJson
  import opened Producer
  import opened Requester

  /** json.Unmarshal agrees with the concrete reader wherever that one accepts. */
  ghost predicate ReadsErrorObjects(unmarshal: string -> Option<string>) {
    forall b :: ErrorJson.Parse(b).Some? ==> unmarshal(b) == ErrorJson.Parse(b)
  }

  function Received(m: Msg): Response {
    Response(m.data, m.header)
  }

  /** The reply of a route whose reply function is reply.JSON. */
  function JsonAnswer<V>(marshal: V -> Result<string, string>, handler: HandlerEnd<V>, request: Option<Header>, replyTo: string): Option<Msg> {
    AnswerWith(handler, Some((v: V, e: Option<GoError>) => Reply.JsonReply(marshal, v, e)), request, replyTo)
  }

  function StatusAnswer<V>(marshal: V -> Result<string, string>, status: string, handler: HandlerEnd<V>, request: Option<Header>, replyTo: string): Option<Msg> {
    AnswerWith(handler, Some((v: V, e: Option<GoError>) => Reply.StatusReply(marshal, v, status)), request, replyTo)
  }

  /** What the requester's codec reads in what the handler's codec wrote. */
  function Decoded<R>(decode: string -> Option<R>, body: Result<string, string>): Result<R, string> {
    match body
    case Err(m) => Err(m)
    case Ok(b) => if decode(b).Some? then Ok(decode(b).value) else Err("decode")
  }

  /** The first code in the error's chain, empty when there is none. */
  function CodeOf(e: GoError): string {
    var c := FirstCode(Chain(e));
    if c.Some? then c.value else ""
  }

  /** Propagation of the request's headers leaves the three semantic headers alone. */
  lemma SemanticsSurvive(h: Header, request: Option<Header>)
    ensures MergedHeader(Some(h), request).Some?
    ensures Reply.Semantics(MergedHeader(Some(h), request).value) == Reply.Semantics(h)
  {
    if request.Some? {
      Reply.PropagationKeepsSemantics(h, request.value);
    }
  }

  /** The error round trip.  For every error chain, every handler result, every codec
      and all request headers, the requester without a decoder receives a ReplyError
      with status "error", the code of the first CodedError of the chain and the
      original message; the empty message is the one exception, which comes back as
      the raw body. */
  lemma ErrorRoundTrip<V, R, E>(marshal: V -> Result<string, string>, result: V, e: GoError, request: Option<Header>, replyTo: string,
      zero: R, decode: string -> Option<R>, unmarshal: string -> Option<string>)
    requires ReadsErrorObjects(unmarshal)
    ensures
      var m := JsonAnswer(marshal, Returned(result, Some(e)), request, replyTo);
      && m.Some? && m.value.subject == replyTo && m.value.header.Some?
      && Reply.Semantics(m.value.header.value) == ("error", CodeOf(e), "application/json")
      && var o: Outcome<R, E> := Decode(zero, decode, unmarshal, None, Received(m.value));
         && o.value == zero
         && o.err == Some(Remote(ReplyError("error", CodeOf(e), if e.msg != "" then e.msg else m.value.data, m.value.data)))
         && (o.err.value.reply.message == e.msg <==> e.msg != "")
  {
    var o := Reply.JsonReply(marshal, result, Some(e));
    var h := o.header.value;
    var m := JsonAnswer(marshal, Returned(result, Some(e)), request, replyTo).value;
    assert m == Msg(replyTo, MergedHeader(Some(h), request), ErrorJson.Print(e.msg));
    SemanticsSurvive(h, request);
    FindsFirst(e);
    assert Reply.Semantics(h) == ("error", CodeOf(e), "application/json");
    ErrorJson.RoundTrip(e.msg);
    assert unmarshal(m.data) == Some(e.msg);
    assert m.data[0] == '{';
  }

  /** The text a caller prints is the handler's own, for every error with a text. */
  lemma ErrorTextSurvives<V>(marshal: V -> Result<string, string>, result: V, e: GoError, request: Option<Header>, replyTo: string,
      unmarshal: string -> Option<string>)
    requires ReadsErrorObjects(unmarshal) && e.msg != ""
    ensures
      var m := JsonAnswer(marshal, Returned(result, Some(e)), request, replyTo);
      m.Some? && NewReplyError(unmarshal, Received(m.value)).Error() == e.msg
  {
    ErrorRoundTrip<V, int, int>(marshal, result, e, request, replyTo, 0, _ => None, unmarshal);
  }

  /** The success round trip: a result that the two codecs carry comes back as it is,
      from reply.JSON and from WithStatus with any status but "error" and "fail". */
  lemma SuccessRoundTrip<V, E>(marshal: V -> Result<string, string>, v: V, body: string, status: string, request: Option<Header>, replyTo: string,
      zero: V, decode: string -> Option<V>, unmarshal: string -> Option<string>, decoder: Option<ErrorDecoder<E>>)
    requires marshal(v) == Ok(body) && decode(body) == Some(v)
    requires status != "error" && status != "fail"
    ensures
      var m := JsonAnswer(marshal, Returned(v, None), request, replyTo);
      m.Some? && Decode(zero, decode, unmarshal, decoder, Received(m.value)) == Outcome(v, None)
    ensures
      var m := StatusAnswer(marshal, status, Returned(v, None), request, replyTo);
      m.Some? && Decode(zero, decode, unmarshal, decoder, Received(m.value)) == Outcome(v, None)
  {
    SemanticsSurvive(Reply.JsonReply(marshal, v, None).header.value, request);
    SemanticsSurvive(Reply.StatusReply(marshal, v, status).header.value, request);
  }

  /** The status a handler chose decides, and no request header can: a reply built by
      WithStatus is an error to the requester exactly for "error" and "fail", with what the
      decoder says of the status, the empty code and the body that were sent; otherwise
      the codec's reading of the body is returned, or its failure. */
  lemma StatusDecides<V, R, E>(marshal: V -> Result<string, string>, v: V, err: Option<GoError>, body: string, status: string,
      request: Option<Header>, replyTo: string,
      zero: R, decode: string -> Option<R>, unmarshal: string -> Option<string>, decoder: Option<ErrorDecoder<E>>)
    requires marshal(v) == Ok(body)
    ensures
      var m := StatusAnswer(marshal, status, Returned(v, err), request, replyTo);
      && m.Some? && m.value.subject == replyTo && m.value.data == body && m.value.header.Some?
      && Reply.Semantics(m.value.header.value) == (status, "", "application/json")
      && IsErrorStatus(m.value.header) == (status == "error" || status == "fail")
      && var o := Decode(zero, decode, unmarshal, decoder, Received(m.value));
         if status != "error" && status != "fail" then
           o == if decode(body).Some? then Outcome(decode(body).value, None) else Outcome(zero, Some(DecodeFailed))
         else match decoder
           case Some(dec) =>
             var e := dec(status, "", body);
             o == Outcome(zero, if e.Some? then Some(Domain(e.value)) else None)
           case None =>
             var field := unmarshal(body);
             var text := if field.Some? && field.value != "" then field.value else body;
             o == Outcome(zero, Some(Remote(ReplyError(status, "", text, body))))
  {
    var h := Reply.StatusReply(marshal, v, status).header.value;
    var m := StatusAnswer(marshal, status, Returned(v, err), request, replyTo).value;
    assert m == Msg(replyTo, MergedHeader(Some(h), request), body);
    SemanticsSurvive(h, request);
    assert Reply.Semantics(h) == (status, "", "application/json");
  }

  /** A plain-text error reply gives its text back exactly when the text is not itself
      a JSON object with some other error text in it. */
  lemma PlainErrorRoundTrip(e: GoError, request: Option<Header>, unmarshal: string -> Option<string>)
    ensures
      var o := Reply.ErrorReply(e);
      var resp := Response(o.data, MergedHeader(o.header, request));
      var re := NewReplyError(unmarshal, resp);
      && IsErrorStatus(resp.header) && re.status == "error" && re.code == ""
      && Get(resp.header.value, "Content-Type") == "text/plain"
      && (re.message == e.msg <==> unmarshal(e.msg) == None || unmarshal(e.msg) == Some("") || unmarshal(e.msg) == Some(e.msg))
      && re.Error() == (if re.message != "" then re.message else "reply error")
      && (e.msg == "" && unmarshal("").None? ==> re.Error() == "reply error")
  {
    var h := Reply.ErrorReply(e).header.value;
    SemanticsSurvive(h, request);
    assert Reply.Semantics(h) == ("error", "", "text/plain");
  }

  /** A plain text that is itself such an object is unwrapped on arrival: its inner text
      comes back instead, unless that is empty. */
  lemma PlainObjectIsUnwrapped(inner: string, request: Option<Header>, unmarshal: string -> Option<string>)
    requires ReadsErrorObjects(unmarshal)
    ensures
      var o := Reply.ErrorReply(GoError(ErrorJson.Print(inner), None, []));
      var re := NewReplyError(unmarshal, Response(o.data, MergedHeader(o.header, request)));
      re.message == (if inner != "" then inner else ErrorJson.Print(inner)) && (re.message == ErrorJson.Print(inner) <==> inner == "")
  {
    ErrorJson.RoundTrip(inner);
    ErrorJson.ParseShrinks(ErrorJson.Print(inner));
    PlainErrorRoundTrip(GoError(ErrorJson.Print(inner), None, []), request, unmarshal);
  }

  /** Whatever response an exchange gives is the reply that the route made. */
  predicate AnsweredBy(exchanged: Result<Response, ClientError>, answer: Option<Msg>) {
    exchanged.Ok? ==> answer.Some? && exchanged.value == Received(answer.value)
  }

  /** What a requester sees of a reply made by reply.JSON. */
  lemma JsonReplyReads<V>(marshal: V -> Result<string, string>, handler: HandlerEnd<V>, request: Option<Header>, replyTo: string)
    requires JsonAnswer(marshal, handler, request, replyTo).Some?
    ensures handler.Returned? && (handler.err.None? ==> marshal(handler.result).Ok?)
    ensures
      var m := JsonAnswer(marshal, handler, request, replyTo).value;
      && m.header.Some?
      && (IsErrorStatus(m.header) <==> handler.err.Some?)
      && m.data == (if handler.err.Some? then ErrorJson.Print(handler.err.value.msg) else marshal(handler.result).value)
      && (handler.err.Some? ==> Reply.Semantics(m.header.value) == ("error", CodeOf(handler.err.value), "application/json"))
  {
    var built := Reply.JsonReply(marshal, handler.result, handler.err);
    var m := JsonAnswer(marshal, handler, request, replyTo).value;
    assert m == Msg(replyTo, MergedHeader(built.header, request), built.data);
    SemanticsSurvive(built.header.value, request);
    if handler.err.Some? {
      FindsFirst(handler.err.value);
    }
  }

  /** What a typed call against a reply.JSON route returns in the end, for every handler,
      codec and decoder: the value that the codec reads in the marshalled result; or, when
      the handler failed, the zero value with exactly what the decoder returns for status
      "error", the first code of the chain and the body, or without a decoder a ReplyError
      with the handler's text; or the failure of encoding, exchange or decoding. */
  lemma JsonCallOutcome<T, V, R, E>(zero: R, encode: T -> Option<string>, decode: string -> Option<R>, unmarshal: string -> Option<string>,
      decoder: Option<ErrorDecoder<E>>, exchange: string -> Result<Response, ClientError>, msg: T,
      marshal: V -> Result<string, string>, handler: HandlerEnd<V>, request: Option<Header>, replyTo: string)
    requires ReadsErrorObjects(unmarshal)
    requires encode(msg).Some? ==> AnsweredBy(exchange(encode(msg).value), JsonAnswer(marshal, handler, request, replyTo))
    ensures
      var o := Requester.Request(zero, encode, decode, unmarshal, decoder, exchange, msg);
      if encode(msg).None? then o == Outcome(zero, Some(EncodeFailed))
      else if exchange(encode(msg).value).Err? then o == Outcome(zero, Some(Client(exchange(encode(msg).value).error)))
      else
        && handler.Returned?
        && match handler.err
           case None =>
             && marshal(handler.result).Ok?
             && var v := decode(marshal(handler.result).value);
                o == if v.Some? then Outcome(v.value, None) else Outcome(zero, Some(DecodeFailed))
           case Some(e) =>
             var body := ErrorJson.Print(e.msg);
             match decoder
             case Some(dec) =>
               var d := dec("error", CodeOf(e), body);
               o == Outcome(zero, if d.Some? then Some(Domain(d.value)) else None)
             case None =>
               o == Outcome(zero, Some(Remote(ReplyError("error", CodeOf(e), if e.msg != "" then e.msg else body, body))))
  {
    if encode(msg).Some? && exchange(encode(msg).value).Ok? {
      var m := JsonAnswer(marshal, handler, request, replyTo).value;
      JsonReplyReads(marshal, handler, request, replyTo);
      if handler.err.Some? {
        ErrorJson.RoundTrip(handler.err.value.msg);
        assert NewReplyError(unmarshal, Received(m)).message == if handler.err.value.msg != "" then handler.err.value.msg else m.data;
      }
    }
  }

  /** The same for a route that answers with WithStatus in some status. */
  lemma StatusCallOutcome<T, V, R, E>(zero: R, encode: T -> Option<string>, decode: string -> Option<R>, unmarshal: string -> Option<string>,
      decoder: Option<ErrorDecoder<E>>, exchange: string -> Result<Response, ClientError>, msg: T,
      marshal: V -> Result<string, string>, status: string, handler: HandlerEnd<V>, request: Option<Header>, replyTo: string)
    requires encode(msg).Some? && exchange(encode(msg).value).Ok?
    requires AnsweredBy(exchange(encode(msg).value), StatusAnswer(marshal, status, handler, request, replyTo))
    ensures handler.Returned? && marshal(handler.result).Ok?
    ensures
      var body := marshal(handler.result).value;
      var o := Requester.Request(zero, encode, decode, unmarshal, decoder, exchange, msg);
      if status != "error" && status != "fail" then
        o == if decode(body).Some? then Outcome(decode(body).value, None) else Outcome(zero, Some(DecodeFailed))
      else match decoder
        case Some(dec) =>
          var e := dec(status, "", body);
          o == Outcome(zero, if e.Some? then Some(Domain(e.value)) else None)
        case None =>
          var field := unmarshal(body);
          var text := if field.Some? && field.value != "" then field.value else body;
          o == Outcome(zero, Some(Remote(ReplyError(status, "", text, body))))
  {
    assert marshal(handler.result).Ok? by {
      assert StatusAnswer(marshal, status, handler, request, replyTo).Some?;
    }
    StatusDecides(marshal, handler.result, handler.err, marshal(handler.result).value, status, request, replyTo,
                  zero, decode, unmarshal, decoder);
  }

  /** No false success: a typed call against a reply.JSON route returns a nil error
      exactly if a reply came and either the handler succeeded and the codec accepts the
      result, which is then the value returned, or it failed and the caller's own decoder
      made nothing of that error. */
  lemma NilErrorMeansHandled<T, V, R, E>(zero: R, encode: T -> Option<string>, decode: string -> Option<R>, unmarshal: string -> Option<string>,
      decoder: Option<ErrorDecoder<E>>, exchange: string -> Result<Response, ClientError>, msg: T,
      marshal: V -> Result<string, string>, handler: HandlerEnd<V>, request: Option<Header>, replyTo: string)
    requires encode(msg).Some? ==> AnsweredBy(exchange(encode(msg).value), JsonAnswer(marshal, handler, request, replyTo))
    ensures
      var o := Requester.Request(zero, encode, decode, unmarshal, decoder, exchange, msg);
      o.err.None? <==>
        && encode(msg).Some? && exchange(encode(msg).value).Ok?
        && if handler.err.None? then Ok(o.value) == Decoded(decode, marshal(handler.result))
           else DecodesToNil(decoder, "error", CodeOf(handler.err.value), ErrorJson.Print(handler.err.value.msg))
  {
    NilErrorIff(zero, encode, decode, unmarshal, decoder, exchange, msg);
    if encode(msg).Some? && exchange(encode(msg).value).Ok? {
      JsonReplyReads(marshal, handler, request, replyTo);
    }
  }

  /** The whole way: the handler succeeds, its reply reaches the client after the call began
      and before the caller's deadline, start + timeout and any cancellation, and the codecs
      carry the result; then the typed call returns that result and no error. */
  lemma SuccessfulCall<T, V, R, E>(opts: seq<ProducerOption>, ctx: Ctx, start: int, at: int, w: Wait, lag: nat,
      zero: R, encode: T -> Option<string>, decode: string -> Option<R>, unmarshal: string -> Option<string>,
      decoder: Option<ErrorDecoder<E>>, exchange: string -> Result<Response, ClientError>, msg: T,
      marshal: V -> Result<string, string>, result: V, body: string, v: R, request: Option<Header>, replyTo: string)
    requires marshal(result) == Ok(body) && decode(body) == Some(v) && encode(msg).Some?
    requires
      var m := JsonAnswer(marshal, Returned(result, None), request, replyTo);
      var t := EffectiveTimeout(opts);
      && m.Some? && Waits(Bounded(ctx, start, t), start, Net.Reply(at, Received(m.value)), w)
      && Some(exchange(encode(msg).value)) == Producer.Request(true, t, ctx, start, w, lag)
    requires start <= at && (EffectiveTimeout(opts) > 0 ==> at < start + EffectiveTimeout(opts))
    requires (ctx.deadline.Some? ==> at < ctx.deadline.value) && (ctx.cancelAt.Some? ==> at < ctx.cancelAt.value)
    ensures Requester.Request(zero, encode, decode, unmarshal, decoder, exchange, msg) == Outcome(v, None)
  {
    var m := JsonAnswer(marshal, Returned(result, None), request, replyTo).value;
    ReplyByTheLimits(opts, ctx, start, at, Received(m), w, lag);
    JsonReplyReads(marshal, Returned(result, None), request, replyTo);
  }

  /** A route without a reply function: the requester's codec is given the text "ok". */
  lemma DefaultReplyIsDecoded<V, R, E>(result: V, request: Option<Header>, replyTo: string,
      zero: R, decode: string -> Option<R>, unmarshal: string -> Option<string>, decoder: Option<ErrorDecoder<E>>)
    ensures
      var m := AnswerWith(Returned(result, None), None, request, replyTo);
      && m.Some?
      && Decode(zero, decode, unmarshal, decoder, Received(m.value)) ==
           if decode("ok").Some? then Outcome(decode("ok").value, None) else Outcome(zero, Some(DecodeFailed))
  {
  }

  /** One exchange with a typed route under a positive timeout: a request that the route
      leaves unanswered ends at the requester by its deadline, or at once if that has
      passed, with the zero value and ErrRequestTimeout, unless the connection itself
      failed and that was examined before every limit. */
  lemma UnansweredEnds<V, Q, T, R, E>(handler: HandlerEnd<V>, assertType: V -> Option<Q>, zeroQ: Q,
      fn: (Q, Option<GoError>) -> Reply.Outcome<Option<Header>>, request: Option<Header>, replyTo: string,
      opts: seq<ProducerOption>, ctx: Ctx, start: int, net: Net, w: Wait, lag: nat,
      zero: R, encode: T -> Option<string>, decode: string -> Option<R>, unmarshal: string -> Option<string>,
      decoder: Option<ErrorDecoder<E>>, exchange: string -> Result<Response, ClientError>, msg: T)
    requires AnswerWith(handler, Some(WrapReply(assertType, zeroQ, fn)), request, replyTo).None? ==> !net.Reply?
    requires Waits(Bounded(ctx, start, EffectiveTimeout(opts)), start, net, w) && EffectiveTimeout(opts) > 0
    requires encode(msg).Some?
    requires Some(exchange(encode(msg).value)) == Producer.Request(true, EffectiveTimeout(opts), ctx, start, w, lag)
    requires Unanswerable(handler, assertType, zeroQ, fn)
    ensures w.Failed? && start <= w.at <= start + EffectiveTimeout(opts) && (ctx.deadline.Some? ==> w.at <= Later(start, ctx.deadline.value))
    ensures
      var examined := w.at + lag;
      var early := examined < start + EffectiveTimeout(opts)
        && (ctx.deadline.Some? ==> examined < ctx.deadline.value) && (ctx.cancelAt.Some? ==> examined < ctx.cancelAt.value);
      Requester.Request(zero, encode, decode, unmarshal, decoder, exchange, msg) ==
        Outcome(zero, Some(Client(if net.Fault? && early then Transport(w.err) else Timeout(w.err))))
  {
    TypedSilence(handler, assertType, zeroQ, fn, request, replyTo);
    if net.Silence? {
      SilenceEnds(opts, ctx, start, w, lag);
    }
    TransportErrorIff(opts, ctx, start, net, w, lag);
  }
}
