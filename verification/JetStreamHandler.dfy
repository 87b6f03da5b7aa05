/** The JetStream message path of consumer/consumer.go: safeHandle,
    handleJetStreamMessage, handleJetStreamError and publishToDLQ. */
module JetStreamHandler {
  import opened Wrappers
  import opened NatsMsg
  import Decimal
  import Router

  /** What the application handler does with a message. */
  datatype HandlerResult = Success | Failure(err: string) | Panic

  /** A delivery as the client library hands it over; `meta` is its delivery number,
      None when Metadata() fails and the code goes on with a nil pointer. */
  datatype JsMsg = JsMsg(data: string, meta: Option<nat>)

  /** The answers of everything outside the code.  Ack and Nak errors are only logged;
      what matters is whether the server receives the settlement (`arrives`). */
  datatype Env = Env(handler: HandlerResult, publishOk: bool, arrives: bool)

  /** One call on the connection or on the message. */
  datatype Call = Published(msg: Msg, accepted: bool) | Acked(arrived: bool) | Naked(arrived: bool)

  datatype Flow = Returns | Panics

  predicate Settles(c: Call) {
    c.Acked? || c.Naked?
  }

  /** Whether a failed delivery goes to the dead-letter queue. */
  predicate Offers(route: Router.Route, delivered: nat) {
    route.cfg.enableDLQ && delivered >= route.cfg.maxDeliver
  }

  function DeadLetterMsg(route: Router.Route, data: string, delivered: nat, err: string): Msg {
    Msg("dlq." + route.cfg.subject,
        Some(map[HEADER_ERROR := [err], HEADER_RETRY_COUNT := [Decimal.Itoa(delivered)]]),
        data)
  }

  /** The calls one delivery makes, in order. */
  function HandlerCalls(route: Router.Route, msg: JsMsg, env: Env): seq<Call> {
    match env.handler
    case Success => [Acked(env.arrives)]
    case Panic => []
    case Failure(e) =>
      if !route.cfg.enableDLQ then [Naked(env.arrives)]
      else if msg.meta.None? then []
      else if !Offers(route, msg.meta.value) then [Naked(env.arrives)]
      else [Published(DeadLetterMsg(route, msg.data, msg.meta.value, e), env.publishOk),
            if env.publishOk then Acked(env.arrives) else Naked(env.arrives)]
  }

  /** Whether the message path panics: the handler does, or a dead-letter decision
      meets nil metadata. */
  predicate Explodes(route: Router.Route, msg: JsMsg, env: Env) {
    env.handler.Panic? || (env.handler.Failure? && route.cfg.enableDLQ && msg.meta.None?)
  }

  /** The connection, with a log of the calls made through it and on its messages. */
  class Connection {
    var calls: seq<Call>

    constructor ()
      ensures calls == []
    {
      calls := [];
    }

    method PublishMsg(m: Msg, ok: bool) returns (failed: bool)
      modifies this
      ensures calls == old(calls) + [Published(m, ok)] && failed == !ok
    {
      calls := calls + [Published(m, ok)];
      failed := !ok;
    }

    method Ack(arrives: bool)
      modifies this
      ensures calls == old(calls) + [Acked(arrives)]
    {
      calls := calls + [Acked(arrives)];
    }

    method Nak(arrives: bool)
      modifies this
      ensures calls == old(calls) + [Naked(arrives)]
    {
      calls := calls + [Naked(arrives)];
    }
  }

  method SafeHandle(nc: Connection, route: Router.Route, msg: JsMsg, env: Env)
    modifies nc
    ensures nc.calls == old(nc.calls) + HandlerCalls(route, msg, env)
  {
    var flow := HandleJetStreamMessage(nc, route, msg, env);
    // A panic is recovered and logged here; nothing else follows.
  }

  method HandleJetStreamMessage(nc: Connection, route: Router.Route, msg: JsMsg, env: Env) returns (flow: Flow)
    modifies nc
    ensures nc.calls == old(nc.calls) + HandlerCalls(route, msg, env)
    ensures flow.Panics? <==> Explodes(route, msg, env)
  {
    var meta := msg.meta;
    match env.handler {
      case Panic => return Panics;
      case Failure(e) =>
        flow := HandleJetStreamError(nc, route, msg, meta, e, env);
        return;
      case Success =>
    }
    nc.Ack(env.arrives);
    return Returns;
  }

  method HandleJetStreamError(nc: Connection, route: Router.Route, msg: JsMsg, meta: Option<nat>, err: string, env: Env)
    returns (flow: Flow)
    requires meta == msg.meta && env.handler == Failure(err)
    modifies nc
    ensures nc.calls == old(nc.calls) + HandlerCalls(route, msg, env)
    ensures flow.Panics? <==> Explodes(route, msg, env)
  {
    if route.cfg.enableDLQ {
      if meta.None? {
        return Panics; // meta.NumDelivered through a nil pointer
      }
      if meta.value >= route.cfg.maxDeliver {
        PublishToDLQ(nc, route, msg, meta.value, err, env);
        return Returns;
      }
    }
    nc.Nak(env.arrives);
    return Returns;
  }

  method PublishToDLQ(nc: Connection, route: Router.Route, msg: JsMsg, delivered: nat, err: string, env: Env)
    modifies nc
    ensures nc.calls == old(nc.calls) + [
      Published(DeadLetterMsg(route, msg.data, delivered, err), env.publishOk),
      if env.publishOk then Acked(env.arrives) else Naked(env.arrives)]
  {
    var headers: Header := map[];
    headers := SetKey(headers, HEADER_ERROR, err);
    headers := SetKey(headers, HEADER_RETRY_COUNT, Decimal.Itoa(delivered));
    var failed := nc.PublishMsg(Msg("dlq." + route.cfg.subject, Some(headers), msg.data), env.publishOk);
    if failed {
      nc.Nak(env.arrives);
      return;
    }
    nc.Ack(env.arrives);
  }

  /** What the calls of one delivery amount to: nothing at all exactly when the handler
      panics or a dead-letter decision meets nil metadata, otherwise exactly one
      settlement and it comes last; an Ack exactly on success or after an accepted dead
      letter; a dead letter exactly for an error at or past the threshold with the
      metadata at hand, and then in this form. */
  lemma SettlementRules(route: Router.Route, msg: JsMsg, env: Env)
    ensures var cs := HandlerCalls(route, msg, env);
      && (cs == [] <==> Explodes(route, msg, env))
      && (cs == [] <==> env.handler.Panic? || (env.handler.Failure? && route.cfg.enableDLQ && msg.meta.None?))
      && |cs| <= 2
      && (forall i :: 0 <= i < |cs| ==> (Settles(cs[i]) <==> i == |cs| - 1))
      && (cs != [] ==>
            var acked := env.handler.Success? || exists m :: Published(m, true) in cs;
            cs[|cs| - 1] == if acked then Acked(env.arrives) else Naked(env.arrives))
      && (forall m, ok :: Published(m, ok) in cs <==>
            && env.handler.Failure? && route.cfg.enableDLQ && msg.meta.Some? && msg.meta.value >= route.cfg.maxDeliver
            && ok == env.publishOk
            && m.subject == "dlq." + route.cfg.subject && m.data == msg.data
            && m.header == Some(map["X-Error" := [env.handler.err], "X-Retry-Count" := [Decimal.Itoa(msg.meta.value)]]))
  {
    var cs := HandlerCalls(route, msg, env);
    if env.handler.Failure? && route.cfg.enableDLQ && msg.meta.Some? && Offers(route, msg.meta.value) {
      assert cs[0] == Published(DeadLetterMsg(route, msg.data, msg.meta.value, env.handler.err), env.publishOk);
    }
  }

  /** For a JetStream route built from any option list, a failed delivery number k is
      offered to the dead-letter queue exactly when the queue is enabled and k has
      reached max(1, MaxDeliver), where 0 stands for 10; so an unlimited (negative)
      MaxDeliver dead-letters the first failure. */
  lemma DeadLetterThreshold(subject: string, opts: seq<Router.RouteOption>, data: string, k: nat, err: string, ok: bool, arrives: bool)
    requires Router.Build(Router.JetStream, subject, opts).Ok? && k >= 1
    ensures
      var route := Router.Build(Router.JetStream, subject, opts).value;
      var n := Router.LastMaxDeliver(opts);
      var limit := if n == 0 then 10 else if n < 1 then 1 else n;
      (exists m, a :: Published(m, a) in HandlerCalls(route, JsMsg(data, Some(k)), Env(Failure(err), ok, arrives)))
      <==> Router.WithEnableDLQ in opts && k >= limit
  {
    Router.OptionsDecide(subject, opts);
    var route := Router.Build(Router.JetStream, subject, opts).value;
    var cs := HandlerCalls(route, JsMsg(data, Some(k)), Env(Failure(err), ok, arrives));
    if Offers(route, k) {
      assert cs[0] == Published(DeadLetterMsg(route, data, k, err), ok);
    }
  }
}
