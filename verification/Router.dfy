/** Route construction (router/route.go): options are applied in order to a mutable
    configuration, which is then validated and given its defaults. */
module Router {
  import opened Wrappers
  import opened Options

  datatype RouteType = PubSub | Queue | RequestReply | JetStream | Other(code: int)

  /** The configuration as a value; durations are in nanoseconds.  Of the reply
      function only its presence is kept here. */
  datatype Settings = Settings(
    subject: string,
    queueGroup: string,
    stream: string,
    durable: string,
    ackWait: int,
    maxDeliver: int,
    handlerTimeout: int,
    deliveryPolicy: int,
    hasReply: bool,
    enableDLQ: bool)

  datatype Route = Route(kind: RouteType, cfg: Settings)

  datatype RouteOption =
    | WithQueueGroup(group: string)
    | WithStream(stream: string)
    | WithDurable(durable: string)
    | WithAckWait(wait: int)
    | WithMaxDeliver(max: int)
    | WithHandlerTimeout(timeout: int)
    | WithReply(present: bool)
    | WithEnableDLQ
    | WithDeliveryPolicy(policy: int)

  datatype ConfigError = MissingSubject | MissingQueueGroup | MissingStream | MissingDurable | UnsupportedType

  const DEFAULT_MAX_DELIVERIES := 10
  const DEFAULT_ACK_WAIT := 30_000_000_000

  function Blank(subject: string): Settings {
    Settings(subject, "", "", "", 0, 0, 0, 0, false, false)
  }

  function WithOption(s: Settings, o: RouteOption): Settings {
    match o
    case WithQueueGroup(g) => s.(queueGroup := g)
    case WithStream(n) => s.(stream := n)
    case WithDurable(n) => s.(durable := n)
    case WithAckWait(d) => s.(ackWait := d)
    case WithMaxDeliver(n) => s.(maxDeliver := n)
    case WithHandlerTimeout(d) => s.(handlerTimeout := d)
    case WithReply(p) => s.(hasReply := p)
    case WithEnableDLQ => s.(enableDLQ := true)
    case WithDeliveryPolicy(p) => s.(deliveryPolicy := p)
  }

  function WithOptions(s: Settings, opts: seq<RouteOption>): Settings {
    if opts == [] then s else WithOption(WithOptions(s, opts[..|opts| - 1]), opts[|opts| - 1])
  }

  /** Validation and defaults, in the order of the source. */
  function Validate(kind: RouteType, s: Settings): Result<Route, ConfigError> {
    if s.subject == "" then Err(MissingSubject)
    else match kind
      case Queue => if s.queueGroup == "" then Err(MissingQueueGroup) else Ok(Route(kind, s))
      case RequestReply => if s.queueGroup == "" then Err(MissingQueueGroup) else Ok(Route(kind, s))
      case JetStream =>
        if s.stream == "" then Err(MissingStream)
        else if s.durable == "" then Err(MissingDurable)
        else Ok(Route(kind, s.(
          maxDeliver := if s.maxDeliver == 0 then DEFAULT_MAX_DELIVERIES else s.maxDeliver,
          ackWait := if s.ackWait == 0 then DEFAULT_ACK_WAIT else s.ackWait)))
      case PubSub => Ok(Route(kind, s))
      case Other(_) => Err(UnsupportedType)
  }

  function Build(kind: RouteType, subject: string, opts: seq<RouteOption>): Result<Route, ConfigError> {
    Validate(kind, WithOptions(Blank(subject), opts))
  }

  /** The configuration object that options write to. */
  class Config {
    var subject: string
    var queueGroup: string
    var stream: string
    var durable: string
    var ackWait: int
    var maxDeliver: int
    var handlerTimeout: int
    var deliveryPolicy: int
    var hasReply: bool
    var enableDLQ: bool

    function View(): Settings
      reads this
    {
      Settings(subject, queueGroup, stream, durable, ackWait, maxDeliver, handlerTimeout, deliveryPolicy, hasReply, enableDLQ)
    }

    constructor (subject: string)
      ensures View() == Blank(subject)
    {
      this.subject := subject;
      queueGroup, stream, durable := "", "", "";
      ackWait, maxDeliver, handlerTimeout, deliveryPolicy := 0, 0, 0, 0;
      hasReply, enableDLQ := false, false;
    }

    method Apply(o: RouteOption)
      modifies this
      ensures View() == WithOption(old(View()), o)
    {
      match o
      case WithQueueGroup(g) => queueGroup := g;
      case WithStream(n) => stream := n;
      case WithDurable(n) => durable := n;
      case WithAckWait(d) => ackWait := d;
      case WithMaxDeliver(n) => maxDeliver := n;
      case WithHandlerTimeout(d) => handlerTimeout := d;
      case WithReply(p) => hasReply := p;
      case WithEnableDLQ => enableDLQ := true;
      case WithDeliveryPolicy(p) => deliveryPolicy := p;
    }
  }

  method New(kind: RouteType, subject: string, opts: seq<RouteOption>) returns (res: Result<Route, ConfigError>)
    ensures res == Build(kind, subject, opts)
  {
    var cfg := new Config(subject);
    for i := 0 to |opts|
      invariant cfg.View() == WithOptions(Blank(subject), opts[..i])
    {
      assert opts[..i + 1][..i] == opts[..i];
      cfg.Apply(opts[i]);
    }
    assert opts[..|opts|] == opts;
    if cfg.subject == "" {
      return Err(MissingSubject);
    }
    match kind {
      case Queue =>
        if cfg.queueGroup == "" { return Err(MissingQueueGroup); }
      case JetStream =>
        if cfg.stream == "" { return Err(MissingStream); }
        if cfg.durable == "" { return Err(MissingDurable); }
        if cfg.maxDeliver == 0 { cfg.maxDeliver := DEFAULT_MAX_DELIVERIES; }
        if cfg.ackWait == 0 { cfg.ackWait := DEFAULT_ACK_WAIT; }
      case RequestReply =>
        if cfg.queueGroup == "" { return Err(MissingQueueGroup); }
      case PubSub =>
      case Other(_) => return Err(UnsupportedType);
    }
    return Ok(Route(kind, cfg.View()));
  }

  // What an option says about each setting.

  function GroupIn(o: RouteOption): Option<string> { if o.WithQueueGroup? then Some(o.group) else None }
  function StreamIn(o: RouteOption): Option<string> { if o.WithStream? then Some(o.stream) else None }
  function DurableIn(o: RouteOption): Option<string> { if o.WithDurable? then Some(o.durable) else None }
  function WaitIn(o: RouteOption): Option<int> { if o.WithAckWait? then Some(o.wait) else None }
  function MaxIn(o: RouteOption): Option<int> { if o.WithMaxDeliver? then Some(o.max) else None }
  function TimeoutIn(o: RouteOption): Option<int> { if o.WithHandlerTimeout? then Some(o.timeout) else None }
  function PolicyIn(o: RouteOption): Option<int> { if o.WithDeliveryPolicy? then Some(o.policy) else None }
  function ReplyIn(o: RouteOption): Option<bool> { if o.WithReply? then Some(o.present) else None }

  /** The value of the last WithMaxDeliver in the list, 0 when there is none. */
  function LastMaxDeliver(opts: seq<RouteOption>): int {
    LastOf(opts, MaxIn, 0)
  }

  /** Every setting is decided by the last option of its kind, except that one
      WithEnableDLQ anywhere enables the dead-letter queue for good. */
  lemma {:induction false} OptionsDecide(subject: string, opts: seq<RouteOption>)
    ensures WithOptions(Blank(subject), opts) == Settings(
      subject, LastOf(opts, GroupIn, ""), LastOf(opts, StreamIn, ""), LastOf(opts, DurableIn, ""),
      LastOf(opts, WaitIn, 0), LastMaxDeliver(opts), LastOf(opts, TimeoutIn, 0), LastOf(opts, PolicyIn, 0),
      LastOf(opts, ReplyIn, false), WithEnableDLQ in opts)
  {
    if opts != [] {
      OptionsDecide(subject, opts[..|opts| - 1]);
      assert opts == opts[..|opts| - 1] + [opts[|opts| - 1]];
    }
  }

  /** What each option does for a route that was built, whatever stands before it: the
      last one of a kind has its value in the route, 0 being replaced by the default of a
      JetStream route. */
  lemma LastOptionWins(kind: RouteType, subject: string, opts: seq<RouteOption>, i: nat)
    requires Build(kind, subject, opts).Ok? && i < |opts|
    ensures
      var cfg := Build(kind, subject, opts).value.cfg;
      match opts[i]
      case WithQueueGroup(v) => (forall j :: i < j < |opts| ==> !opts[j].WithQueueGroup?) ==> cfg.queueGroup == v
      case WithStream(v) => (forall j :: i < j < |opts| ==> !opts[j].WithStream?) ==> cfg.stream == v
      case WithDurable(v) => (forall j :: i < j < |opts| ==> !opts[j].WithDurable?) ==> cfg.durable == v
      case WithAckWait(v) => (forall j :: i < j < |opts| ==> !opts[j].WithAckWait?) ==>
        cfg.ackWait == (if kind.JetStream? && v == 0 then 30_000_000_000 else v)
      case WithMaxDeliver(v) => (forall j :: i < j < |opts| ==> !opts[j].WithMaxDeliver?) ==>
        cfg.maxDeliver == (if kind.JetStream? && v == 0 then 10 else v)
      case WithHandlerTimeout(v) => (forall j :: i < j < |opts| ==> !opts[j].WithHandlerTimeout?) ==> cfg.handlerTimeout == v
      case WithDeliveryPolicy(v) => (forall j :: i < j < |opts| ==> !opts[j].WithDeliveryPolicy?) ==> cfg.deliveryPolicy == v
      case WithReply(v) => (forall j :: i < j < |opts| ==> !opts[j].WithReply?) ==> cfg.hasReply == v
      case WithEnableDLQ => cfg.enableDLQ
  {
    OptionsDecide(subject, opts);
    match opts[i]
    case WithQueueGroup(_) => if IsLast(opts, GroupIn, i) { LastDecides(opts, GroupIn, "", i); }
    case WithStream(_) => if IsLast(opts, StreamIn, i) { LastDecides(opts, StreamIn, "", i); }
    case WithDurable(_) => if IsLast(opts, DurableIn, i) { LastDecides(opts, DurableIn, "", i); }
    case WithAckWait(_) => if IsLast(opts, WaitIn, i) { LastDecides(opts, WaitIn, 0, i); }
    case WithMaxDeliver(_) => if IsLast(opts, MaxIn, i) { LastDecides(opts, MaxIn, 0, i); }
    case WithHandlerTimeout(_) => if IsLast(opts, TimeoutIn, i) { LastDecides(opts, TimeoutIn, 0, i); }
    case WithDeliveryPolicy(_) => if IsLast(opts, PolicyIn, i) { LastDecides(opts, PolicyIn, 0, i); }
    case WithReply(_) => if IsLast(opts, ReplyIn, i) { LastDecides(opts, ReplyIn, false, i); }
    case WithEnableDLQ =>
  }

  /** A setting that no option speaks of has its zero value or its default. */
  lemma UnsetIsDefault(kind: RouteType, subject: string, opts: seq<RouteOption>)
    requires Build(kind, subject, opts).Ok?
    ensures
      var r := Build(kind, subject, opts).value;
      && r.kind == kind && r.cfg.subject == subject
      && ((forall i :: 0 <= i < |opts| ==> !opts[i].WithQueueGroup?) ==> r.cfg.queueGroup == "")
      && ((forall i :: 0 <= i < |opts| ==> !opts[i].WithStream?) ==> r.cfg.stream == "")
      && ((forall i :: 0 <= i < |opts| ==> !opts[i].WithDurable?) ==> r.cfg.durable == "")
      && ((forall i :: 0 <= i < |opts| ==> !opts[i].WithAckWait?) ==> r.cfg.ackWait == if kind.JetStream? then 30_000_000_000 else 0)
      && ((forall i :: 0 <= i < |opts| ==> !opts[i].WithMaxDeliver?) ==> r.cfg.maxDeliver == if kind.JetStream? then 10 else 0)
      && ((forall i :: 0 <= i < |opts| ==> !opts[i].WithHandlerTimeout?) ==> r.cfg.handlerTimeout == 0)
      && ((forall i :: 0 <= i < |opts| ==> !opts[i].WithDeliveryPolicy?) ==> r.cfg.deliveryPolicy == 0)
      && ((forall i :: 0 <= i < |opts| ==> !opts[i].WithReply?) ==> !r.cfg.hasReply)
      && (WithEnableDLQ !in opts ==> !r.cfg.enableDLQ)
  {
    OptionsDecide(subject, opts);
    NothingSaid(opts, GroupIn, "");
    NothingSaid(opts, StreamIn, "");
    NothingSaid(opts, DurableIn, "");
    NothingSaid(opts, WaitIn, 0);
    NothingSaid(opts, MaxIn, 0);
    NothingSaid(opts, TimeoutIn, 0);
    NothingSaid(opts, PolicyIn, 0);
    NothingSaid(opts, ReplyIn, false);
  }

  /** The last option of the kind, if there is one, gives the empty name. */
  ghost predicate Nameless(opts: seq<RouteOption>, pick: RouteOption -> Option<string>) {
    forall i :: IsLast(opts, pick, i) ==> pick(opts[i]) == Some("")
  }

  lemma NamelessIff(opts: seq<RouteOption>, pick: RouteOption -> Option<string>)
    ensures Nameless(opts, pick) <==> LastOf(opts, pick, "") == ""
  {
    var i := LastOrNothing(opts, pick);
    if i < 0 { NothingSaid(opts, pick, ""); } else { LastDecides(opts, pick, "", i); }
    forall k | IsLast(opts, pick, k) ensures pick(opts[k]).value == LastOf(opts, pick, "") {
      LastDecides(opts, pick, "", k);
    }
  }

  /** Each sentinel is returned exactly if what it names is the first thing missing, and
      every other call builds a route. */
  lemma SentinelIff(kind: RouteType, subject: string, opts: seq<RouteOption>)
    ensures
      var res := Build(kind, subject, opts);
      var grouped := kind.Queue? || kind.RequestReply?;
      var noGroup, noStream, noDurable := Nameless(opts, GroupIn), Nameless(opts, StreamIn), Nameless(opts, DurableIn);
      && (res == Err(MissingSubject) <==> subject == "")
      && (res == Err(MissingQueueGroup) <==> subject != "" && grouped && noGroup)
      && (res == Err(MissingStream) <==> subject != "" && kind.JetStream? && noStream)
      && (res == Err(MissingDurable) <==> subject != "" && kind.JetStream? && !noStream && noDurable)
      && (res == Err(UnsupportedType) <==> subject != "" && kind.Other?)
      && (res.Ok? <==> subject != "" && !kind.Other? && !(grouped && noGroup) && !(kind.JetStream? && (noStream || noDurable)))
  {
    OptionsDecide(subject, opts);
    NamelessIff(opts, GroupIn);
    NamelessIff(opts, StreamIn);
    NamelessIff(opts, DurableIn);
  }

  /** What the delivery machine relies on: a JetStream route that was built has its
      stream and durable names, a non-zero MaxDeliver that is the caller's last choice
      or 10, and a non-zero AckWait; a grouped route has its group. */
  lemma BuiltRouteIsUsable(kind: RouteType, subject: string, opts: seq<RouteOption>)
    requires Build(kind, subject, opts).Ok?
    ensures var r := Build(kind, subject, opts).value;
      && r.kind == kind && r.cfg.subject == subject && subject != "" && !kind.Other?
      && (kind.Queue? || kind.RequestReply? ==> r.cfg.queueGroup != "")
      && (kind.JetStream? ==>
            && r.cfg.stream != "" && r.cfg.durable != "" && r.cfg.ackWait != 0 && r.cfg.maxDeliver != 0
            && r.cfg.maxDeliver == (if LastMaxDeliver(opts) == 0 then 10 else LastMaxDeliver(opts))
            && (r.cfg.enableDLQ <==> WithEnableDLQ in opts))
  {
    OptionsDecide(subject, opts);
  }
}
