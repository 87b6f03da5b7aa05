/** The reply builders of reply/reply.go. */
module Reply {
  import opened Wrappers
  import opened NatsMsg
  import opened Headers
  import opened GoErrors
  import ErrorJson

  const STATUS_SUCCESS := "success"
  const STATUS_ERROR := "error"
  const STATUS_FAIL := "fail"

  const HEADER_STATUS := "X-Status"
  const HEADER_ERROR_CODE := "X-Error-Code"
  const HEADER_CONTENT_TYPE := "Content-Type"

  /** How a ReplyFunc ends; H is how its header is held. */
  datatype Outcome<+H> = Built(data: string, header: H) | Refused(err: string) | Exploded

  /** What a reader of the reply sees: status, error code and content type. */
  function Semantics(h: Header): (string, string, string) {
    (Get(h, "X-Status"), Get(h, "X-Error-Code"), Get(h, "Content-Type"))
  }

  /** reply.JSON as a value.  `marshal` is json.Marshal on handler results. */
  function JsonReply<V>(marshal: V -> Result<string, string>, result: V, handlerErr: Option<GoError>): Outcome<Option<Header>> {
    match handlerErr
    case Some(e) =>
      var h := map[HEADER_CONTENT_TYPE := ["application/json"], HEADER_STATUS := [STATUS_ERROR]];
      Built(ErrorJson.Print(e.msg),
            Some(if FindCode(e).Some? then h[HEADER_ERROR_CODE := [FindCode(e).value]] else h))
    case None =>
      match marshal(result)
      case Err(m) => Refused(m)
      case Ok(b) => Built(b, Some(map[HEADER_CONTENT_TYPE := ["application/json"], HEADER_STATUS := [STATUS_SUCCESS]]))
  }

  function StatusReply<V>(marshal: V -> Result<string, string>, result: V, status: string): Outcome<Option<Header>> {
    match marshal(result)
    case Err(m) => Refused(m)
    case Ok(b) => Built(b, Some(map[HEADER_STATUS := [status], HEADER_CONTENT_TYPE := ["application/json"]]))
  }

  function ErrorReply(e: GoError): Outcome<Option<Header>> {
    Built(e.msg, Some(map[HEADER_STATUS := [STATUS_ERROR], HEADER_CONTENT_TYPE := ["text/plain"]]))
  }

  /** What each builder says: the body, the three keys and no other; an error reply of JSON
      names a code exactly if the error has one. */
  lemma BuildersSay<V>(marshal: V -> Result<string, string>, v: V, e: GoError, status: string)
    ensures JsonReply(marshal, v, Some(e)).Built?
    ensures var o := JsonReply(marshal, v, Some(e));
      && o.data == ErrorJson.Print(e.msg) && o.header.Some?
      && Semantics(o.header.value) == ("error", if FindCode(e).Some? then FindCode(e).value else "", "application/json")
      && o.header.value.Keys == {"X-Status", "Content-Type"} + if FindCode(e).Some? then {"X-Error-Code"} else {}
    ensures forall o | o == JsonReply(marshal, v, None) || o == StatusReply(marshal, v, status) ::
      (o.Built? <==> marshal(v).Ok?) && (marshal(v).Err? ==> o == Refused(marshal(v).error))
    ensures marshal(v).Ok? ==>
      var j, w := JsonReply(marshal, v, None), StatusReply(marshal, v, status);
      && j.data == marshal(v).value && j.header.Some? && j.header.value.Keys == {"X-Status", "Content-Type"}
      && Semantics(j.header.value) == ("success", "", "application/json")
      && w.data == marshal(v).value && w.header.Some? && w.header.value.Keys == {"X-Status", "Content-Type"}
      && Semantics(w.header.value) == (status, "", "application/json")
    ensures var o := ErrorReply(e);
      && o.Built? && o.data == e.msg && o.header.Some? && o.header.value.Keys == {"X-Status", "Content-Type"}
      && Semantics(o.header.value) == ("error", "", "text/plain")
  {
  }

  /** A reply that holds its headers by reference, seen as a value. */
  function Seen(o: Outcome<HeaderMap?>): Outcome<Option<Header>>
    reads if o.Built? then {o.header} else {}
  {
    match o
    case Built(data, h) => Built(data, View(h))
    case Refused(m) => Refused(m)
    case Exploded => Exploded
  }

  method JSON<V>(marshal: V -> Result<string, string>, result: V, handlerErr: Option<GoError>) returns (o: Outcome<HeaderMap?>)
    ensures Seen(o) == JsonReply(marshal, result, handlerErr)
    ensures o.Built? ==> o.header != null && fresh(o.header)
  {
    var h := new HeaderMap();
    h.SetValue(HEADER_CONTENT_TYPE, "application/json");
    if handlerErr.Some? {
      h.SetValue(HEADER_STATUS, STATUS_ERROR);
      var code := FindCode(handlerErr.value);
      if code.Some? {
        h.SetValue(HEADER_ERROR_CODE, code.value);
      }
      return Built(ErrorJson.Print(handlerErr.value.msg), h);
    }
    var b := marshal(result);
    if b.Err? {
      return Refused(b.error);
    }
    h.SetValue(HEADER_STATUS, STATUS_SUCCESS);
    return Built(b.value, h);
  }

  method WithStatus<V>(marshal: V -> Result<string, string>, result: V, status: string) returns (o: Outcome<HeaderMap?>)
    ensures Seen(o) == StatusReply(marshal, result, status)
    ensures o.Built? ==> o.header != null && fresh(o.header)
  {
    var b := marshal(result);
    if b.Err? {
      return Refused(b.error);
    }
    var h := new HeaderMap();
    h.SetValue(HEADER_STATUS, status);
    h.SetValue(HEADER_CONTENT_TYPE, "application/json");
    return Built(b.value, h);
  }

  method WithError(err: GoError) returns (data: string, h: HeaderMap)
    ensures Built(data, Some(h.entries)) == ErrorReply(err) && fresh(h)
  {
    h := new HeaderMap();
    h.SetValue(HEADER_STATUS, STATUS_ERROR);
    h.SetValue(HEADER_CONTENT_TYPE, "text/plain");
    data := err.msg;
  }

  /** No request header can change what a reply says: the three keys survive the
      propagation of any request headers into any reply headers. */
  lemma PropagationKeepsSemantics(base: Header, request: Header)
    ensures Semantics(Merged(base, request)) == Semantics(base)
  {
  }
}
