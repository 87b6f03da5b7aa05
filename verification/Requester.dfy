/** The typed requester (typed/requester.go, typed/reply_error.go): from the bytes of
    a reply to a value or an error. */
module Requester {
  import opened Wrappers
  import opened NatsMsg
  import opened Producer
  import Reply

  /** A remote error as the caller sees it. */
  datatype ReplyError = ReplyError(status: string, code: string, message: string, body: string) {
    /** The error text. */
    function Error(): string {
      if message != "" then message else "reply error"
    }
  }

  /** What an ErrorDecoder is given: status, code and body. */
  type ErrorDecoder<!E> = (string, string, string) -> Option<E>

  datatype Problem<+E> =
    | EncodeFailed
    | Client(cause: ClientError)
    | Remote(reply: ReplyError)
    | Domain(err: E)
    | DecodeFailed

  /** Go's pair of a value and an error, None being a nil error. */
  datatype Outcome<+R, +E> = Outcome(value: R, err: Option<Problem<E>>)

  /** NewRequester takes producer options and its own in one untyped list; anything
      else is ignored.  A nil decoder counts as none. */
  datatype AnyOption<!E> = ForProducer(opt: ProducerOption) | WithErrorDecoder(dec: Option<ErrorDecoder<E>>) | Unknown

  function ProducerOptions<E>(opts: seq<AnyOption<E>>): seq<ProducerOption> {
    if opts == [] then []
    else ProducerOptions(opts[..|opts| - 1]) + if opts[|opts| - 1].ForProducer? then [opts[|opts| - 1].opt] else []
  }

  /** The last decoder given wins. */
  function DecoderOf<E>(opts: seq<AnyOption<E>>): Option<ErrorDecoder<E>> {
    if opts == [] then None
    else if opts[|opts| - 1].WithErrorDecoder? then opts[|opts| - 1].dec
    else DecoderOf(opts[..|opts| - 1])
  }

  method NewRequester<E>(publisherIsNil: bool, subject: string, opts: seq<AnyOption<E>>)
    returns (res: Result<Settings, BuildError>, decoder: Option<ErrorDecoder<E>>)
    ensures res ==
      if subject == "" then Err(MissingSubject)
      else if publisherIsNil then Err(UnsupportedPublisher)
      else Ok(Settings(subject, EffectiveTimeout(ProducerOptions(opts))))
    ensures res.Ok? ==> decoder == DecoderOf(opts)
  {
    var prodOpts := [];
    decoder := None;
    for i := 0 to |opts|
      invariant prodOpts == ProducerOptions(opts[..i]) && decoder == DecoderOf(opts[..i])
    {
      assert opts[..i + 1][..i] == opts[..i];
      match opts[i]
      case ForProducer(o) => prodOpts := prodOpts + [o];
      case WithErrorDecoder(d) => decoder := d;
      case Unknown =>
    }
    assert opts[..|opts|] == opts;
    res := Producer.New(publisherIsNil, subject, prodOpts);
  }

  /** How the mixed list is split: producer options are passed on in their order. */
  lemma {:induction false} ProducerOptionsInOrder<E>(a: seq<AnyOption<E>>, b: seq<AnyOption<E>>)
    ensures ProducerOptions(a + b) == ProducerOptions(a) + ProducerOptions(b)
    ensures |a| == 1 ==> ProducerOptions(a) == if a[0].ForProducer? then [a[0].opt] else []
    ensures ProducerOptions<E>([]) == []
    decreases |b|
  {
    if b == [] {
      assert a + b == a;
    } else {
      var n := |b| - 1;
      ProducerOptionsInOrder(a, b[..n]);
      assert (a + b)[..|a + b| - 1] == a + b[..n];
    }
    if |a| == 1 { assert a[..0] == []; }
  }

  /** The last decoder option counts, also when it resets the decoder to nil. */
  lemma {:induction false} LastDecoderWins<E>(opts: seq<AnyOption<E>>, i: int)
    requires -1 <= i < |opts| && forall j :: i < j < |opts| ==> !opts[j].WithErrorDecoder?
    ensures i == -1 ==> DecoderOf(opts).None?
    ensures i >= 0 && opts[i].WithErrorDecoder? ==> DecoderOf(opts) == opts[i].dec
    decreases |opts|
  {
    if i < |opts| - 1 {
      LastDecoderWins(opts[..|opts| - 1], i);
    }
  }

  predicate IsErrorStatus(h: Option<Header>) {
    h.Some? && (Get(h.value, Reply.HEADER_STATUS) == Reply.STATUS_ERROR || Get(h.value, Reply.HEADER_STATUS) == Reply.STATUS_FAIL)
  }

  /** `unmarshal` is json.Unmarshal into a struct with one "error" field: None when it
      fails, otherwise that field, empty when absent. */
  function ExtractErrorMessage(unmarshal: string -> Option<string>, body: string): string {
    var field := unmarshal(body);
    if field.Some? && field.value != "" then field.value else body
  }

  function NewReplyError(unmarshal: string -> Option<string>, resp: Response): ReplyError {
    var h := if resp.header.Some? then resp.header.value else map[];
    ReplyError(Get(h, Reply.HEADER_STATUS), Get(h, Reply.HEADER_ERROR_CODE), ExtractErrorMessage(unmarshal, resp.data), resp.data)
  }

  /** What Request makes of a response. */
  function Decode<R, E>(zero: R, decode: string -> Option<R>, unmarshal: string -> Option<string>,
      decoder: Option<ErrorDecoder<E>>, resp: Response): Outcome<R, E>
  {
    if IsErrorStatus(resp.header) then
      var re := NewReplyError(unmarshal, resp);
      match decoder
      case None => Outcome(zero, Some(Remote(re)))
      case Some(dec) =>
        var e := dec(re.status, re.code, re.body);
        Outcome(zero, if e.Some? then Some(Domain(e.value)) else None)
    else
      var v := decode(resp.data);
      if v.None? then Outcome(zero, Some(DecodeFailed)) else Outcome(v.value, None)
  }

  /** Requester.Request; `exchange` is the inner producer's Request. */
  function Request<T, R, E>(zero: R, encode: T -> Option<string>, decode: string -> Option<R>, unmarshal: string -> Option<string>,
      decoder: Option<ErrorDecoder<E>>, exchange: string -> Result<Response, ClientError>, msg: T): Outcome<R, E>
  {
    var data := encode(msg);
    if data.None? then Outcome(zero, Some(EncodeFailed))
    else match exchange(data.value)
      case Err(e) => Outcome(zero, Some(Client(e)))
      case Ok(resp) => Decode(zero, decode, unmarshal, decoder, resp)
  }

  /** A decoder is set and turns this reply into a nil error. */
  predicate DecodesToNil<E>(decoder: Option<ErrorDecoder<E>>, status: string, code: string, body: string) {
    decoder.Some? && decoder.value(status, code, body).None?
  }

  /** An error status never reaches the response codec: two codecs give the same
      outcome, which carries the zero value and, unless a decoder is set and returns
      nil, an error. */
  lemma ErrorStatusBypassesCodec<R, E>(zero: R, decode: string -> Option<R>, decode': string -> Option<R>,
      unmarshal: string -> Option<string>, decoder: Option<ErrorDecoder<E>>, resp: Response)
    requires IsErrorStatus(resp.header)
    ensures var o := Decode(zero, decode, unmarshal, decoder, resp);
      && o == Decode(zero, decode', unmarshal, decoder, resp)
      && o.value == zero
      && (o.err.None? <==>
            DecodesToNil(decoder, Get(resp.header.value, Reply.HEADER_STATUS), Get(resp.header.value, Reply.HEADER_ERROR_CODE), resp.data))
  {
  }

  /** When exactly Request returns a nil error: the request was encoded, a response
      came, and either its status is no error and the codec accepted it, or a decoder
      turned the remote error into nil.  Only the former gives anything but zero. */
  lemma NilErrorIff<T, R, E>(zero: R, encode: T -> Option<string>, decode: string -> Option<R>, unmarshal: string -> Option<string>,
      decoder: Option<ErrorDecoder<E>>, exchange: string -> Result<Response, ClientError>, msg: T)
    ensures
      var o := Request(zero, encode, decode, unmarshal, decoder, exchange, msg);
      var answered := encode(msg).Some? && exchange(encode(msg).value).Ok?;
      && (o.err.None? ==> answered)
      && (answered ==>
            var resp := exchange(encode(msg).value).value;
            var re := NewReplyError(unmarshal, resp);
            && (o.err.None? <==>
                  if IsErrorStatus(resp.header) then DecodesToNil(decoder, re.status, re.code, resp.data) else decode(resp.data).Some?)
            && (o.value != zero ==> !IsErrorStatus(resp.header) && decode(resp.data) == Some(o.value)))
      && (!answered ==> o == Outcome(zero, if encode(msg).None? then Some(EncodeFailed) else Some(Client(exchange(encode(msg).value).error))))
  {
  }
}
