/** How many times a core NATS message is handled by a running broker: each worker of
    a route holds a subscription of its own (broker/broker.go, consumer/consumer.go). */
module FanOut {
  import opened Wrappers
  import opened RunRoute
  import opened BrokerRun
  import opened BrokerTheorems
  import opened BrokerStall
  import Router

  /** The subscription of worker w of registration i. */
  datatype Member = Member(i: nat, w: nat)

  predicate Listening(wk: Worker) {
    wk.sub.Unwatched? || wk.sub.Watched?
  }

  ghost predicate Active(s: State, m: Member) {
    m.i < |s.routes| && m.w < |s.routes[m.i].workers| && Listening(s.routes[m.i].workers[m.w])
  }

  predicate OnSubject(c: Config, i: nat, subject: string) {
    i < |c.regs| && c.regs[i].Some? && c.regs[i].value.cfg.subject == subject
  }

  predicate Plain(c: Config, i: nat, subject: string) {
    OnSubject(c, i, subject) && c.regs[i].value.kind.PubSub?
  }

  /** Queue and request-reply routes both subscribe through a queue group. */
  predicate Grouped(c: Config, i: nat, subject: string) {
    OnSubject(c, i, subject) && (c.regs[i].value.kind.Queue? || c.regs[i].value.kind.RequestReply?)
  }

  function GroupOf(c: Config, i: nat): string {
    if i < |c.regs| && c.regs[i].Some? then c.regs[i].value.cfg.queueGroup else ""
  }

  /** Registration i listens on the subject in queue group g. */
  predicate InGroup(c: Config, i: nat, subject: string, g: string) {
    Grouped(c, i, subject) && GroupOf(c, i) == g
  }

  function PlainRegs(c: Config, subject: string): set<nat> {
    set i: nat | i < |c.regs| && Plain(c, i, subject)
  }

  function Groups(c: Config, subject: string): set<string> {
    set i: nat | i < |c.regs| && Grouped(c, i, subject) :: GroupOf(c, i)
  }

  /** What NATS promises about one message: every plain subscription receives it and
      so does exactly one member of each queue group; nobody else does. */
  ghost predicate Delivered(c: Config, s: State, subject: string, receivers: set<Member>) {
    && (forall m | m in receivers :: Active(s, m) && (Plain(c, m.i, subject) || Grouped(c, m.i, subject)))
    && (forall m: Member | Active(s, m) && Plain(c, m.i, subject) :: m in receivers)
    && (forall m: Member | Active(s, m) && Grouped(c, m.i, subject) ::
      exists r :: r in receivers && InGroup(c, r.i, subject, GroupOf(c, m.i)))
    && (forall r, r' | r in receivers && r' in receivers && Grouped(c, r.i, subject) :: InGroup(c, r'.i, subject, GroupOf(c, r.i)) ==> r == r')
  }

  ghost predicate AllStarted(c: Config, s: State) {
    forall i, w :: 0 <= i < |s.routes| && 0 <= w < |s.routes[i].workers| ==> s.routes[i].workers[w].outcome == Some(Started)
  }

  /** Every worker of every registration listens. */
  ghost predicate AllActive(c: Config, s: State) {
    forall m: Member :: Active(s, m) <==> m.i < |c.regs| && m.w < c.workers
  }

  lemma StartedIsActive(c: Config, s: State)
    requires Inv(c, s) && !s.ctxDone && AllStarted(c, s)
    ensures AllActive(c, s)
  {
    forall m: Member | m.i < |c.regs| ensures Active(s, m) <==> m.w < c.workers {
      var r := s.routes[m.i];
      assert r in s.routes && RouteInv(c.workers, r);
      if m.w < c.workers {
        assert r.workers[m.w] in r.workers && WorkerInv(r.workers[m.w]);
      }
    }
  }

  lemma {:induction false} RowCount(i: nat, n: nat)
    ensures |set w: nat | w < n :: Member(i, w)| == n
  {
    if n > 0 {
      RowCount(i, n - 1);
      assert (set w: nat | w < n :: Member(i, w)) == (set w: nat | w < n - 1 :: Member(i, w)) + {Member(i, n - 1)};
    }
  }

  lemma OneMoreRow(a: nat, n: nat)
    ensures (a + 1) * n == a * n + n
  {
  }

  lemma {:induction false} GridCount(p: set<nat>, n: nat)
    ensures |set i, w: nat | i in p && w < n :: Member(i, w)| == |p| * n
  {
    if p != {} {
      var i :| i in p;
      var rest := p - {i};
      GridCount(rest, n);
      RowCount(i, n);
      var row := set w: nat | w < n :: Member(i, w);
      var others := set i', w: nat | i' in rest && w < n :: Member(i', w);
      assert (set i', w: nat | i' in p && w < n :: Member(i', w)) == others + row;
      assert others !! row;
      assert |p| == |rest| + 1;
      OneMoreRow(|rest|, n);
    }
  }

  /** One receiver per group, so as many receivers as groups. */
  lemma {:induction false} GroupCount(c: Config, q: set<Member>)
    requires forall m, m' | m in q && m' in q && GroupOf(c, m.i) == GroupOf(c, m'.i) :: m == m'
    ensures |q| == |set m | m in q :: GroupOf(c, m.i)|
  {
    if q != {} {
      var m :| m in q;
      GroupCount(c, q - {m});
      var rest := set m' | m' in q - {m} :: GroupOf(c, m'.i);
      assert (set m' | m' in q :: GroupOf(c, m'.i)) == rest + {GroupOf(c, m.i)};
      assert GroupOf(c, m.i) !in rest;
    }
  }

  lemma PlainCount(c: Config, s: State, subject: string, receivers: set<Member>)
    requires AllActive(c, s) && Delivered(c, s, subject, receivers)
    ensures |set m | m in receivers && Plain(c, m.i, subject)| == |PlainRegs(c, subject)| * c.workers
  {
    var p := PlainRegs(c, subject);
    var plain := set m | m in receivers && Plain(c, m.i, subject);
    var grid := set i, w: nat | i in p && w < c.workers :: Member(i, w);
    forall m | m in plain ensures m in grid {
      assert Active(s, m);
    }
    forall m | m in grid ensures m in plain {
      assert Active(s, m);
    }
    assert plain == grid;
    GridCount(p, c.workers);
  }

  lemma QueuedCount(c: Config, s: State, subject: string, receivers: set<Member>)
    requires AllActive(c, s) && c.workers > 0 && Delivered(c, s, subject, receivers)
    ensures |set m | m in receivers && Grouped(c, m.i, subject)| == |Groups(c, subject)|
  {
    var queued := set m | m in receivers && Grouped(c, m.i, subject);
    forall m, m' | m in queued && m' in queued && GroupOf(c, m.i) == GroupOf(c, m'.i) ensures m == m' {
      assert InGroup(c, m'.i, subject, GroupOf(c, m.i));
    }
    GroupCount(c, queued);
    QueuedServe(c, s, subject, receivers, queued);
  }

  /** The groups of the queued receivers are all the groups there are. */
  lemma QueuedServe(c: Config, s: State, subject: string, receivers: set<Member>, queued: set<Member>)
    requires AllActive(c, s) && c.workers > 0 && Delivered(c, s, subject, receivers)
    requires queued == set m | m in receivers && Grouped(c, m.i, subject)
    ensures (set m | m in queued :: GroupOf(c, m.i)) == Groups(c, subject)
  {
    var served := set m | m in queued :: GroupOf(c, m.i);
    forall g | g in Groups(c, subject) ensures g in served {
      var i: nat :| i < |c.regs| && Grouped(c, i, subject) && GroupOf(c, i) == g;
      var m := Member(i, 0);
      assert Active(s, m) && Grouped(c, m.i, subject) && GroupOf(c, m.i) == g;
    }
    assert served == Groups(c, subject);
  }

  lemma SplitCount(c: Config, subject: string, receivers: set<Member>)
    requires forall m | m in receivers :: Plain(c, m.i, subject) || Grouped(c, m.i, subject)
    ensures |receivers| == |set m | m in receivers && Plain(c, m.i, subject)| + |set m | m in receivers && Grouped(c, m.i, subject)|
  {
    var plain := set m | m in receivers && Plain(c, m.i, subject);
    var queued := set m | m in receivers && Grouped(c, m.i, subject);
    assert receivers == plain + queued && plain !! queued;
  }

  lemma DeliveredCount(c: Config, s: State, subject: string, receivers: set<Member>)
    requires AllActive(c, s) && c.workers > 0 && Delivered(c, s, subject, receivers)
    ensures |receivers| == |PlainRegs(c, subject)| * c.workers + |Groups(c, subject)|
  {
    PlainCount(c, s, subject, receivers);
    QueuedCount(c, s, subject, receivers);
    SplitCount(c, subject, receivers);
  }

  lemma ByKind(c: Config, subject: string)
    ensures
      var on := set i: nat | i < |c.regs| && c.regs[i].Some? && c.regs[i].value.cfg.subject == subject;
      && PlainRegs(c, subject) == (set i | i in on && c.regs[i].value.kind == Router.PubSub)
      && Groups(c, subject) == (set i | i in on && c.regs[i].value.kind in {Router.Queue, Router.RequestReply} :: c.regs[i].value.cfg.queueGroup)
  {
    var on := set i: nat | i < |c.regs| && c.regs[i].Some? && c.regs[i].value.cfg.subject == subject;
    assert PlainRegs(c, subject) == (set i | i in on && c.regs[i].value.kind == Router.PubSub);
    var groups := set i | i in on && c.regs[i].value.kind in {Router.Queue, Router.RequestReply} :: c.regs[i].value.cfg.queueGroup;
    forall g | g in Groups(c, subject) ensures g in groups {
      var i: nat :| i < |c.regs| && Grouped(c, i, subject) && GroupOf(c, i) == g;
      assert i in on;
    }
    forall g | g in groups ensures g in Groups(c, subject) {
      var i :| i in on && c.regs[i].value.kind in {Router.Queue, Router.RequestReply} && c.regs[i].value.cfg.queueGroup == g;
      assert Grouped(c, i, subject) && GroupOf(c, i) == g;
    }
  }

  /** Once every Start has succeeded and until cancellation, a message on `subject` is
      handled exactly (publish-subscribe registrations) * workers times, plus once for
      every distinct queue group among the queue and request-reply registrations. */
  lemma FanOutCount(c: Config, s: State, subject: string, receivers: set<Member>)
    requires Reachable(c, s) && !s.ctxDone && AllStarted(c, s) && c.workers > 0
    requires Delivered(c, s, subject, receivers)
    ensures
      var on := set i: nat | i < |c.regs| && c.regs[i].Some? && c.regs[i].value.cfg.subject == subject;
      var plain := set i | i in on && c.regs[i].value.kind == Router.PubSub;
      var groups := set i | i in on && c.regs[i].value.kind in {Router.Queue, Router.RequestReply} :: c.regs[i].value.cfg.queueGroup;
      |receivers| == |plain| * c.workers + |groups|
  {
    ReachableInv(c, s);
    StartedIsActive(c, s);
    DeliveredCount(c, s, subject, receivers);
    ByKind(c, subject);
  }

  /** Such a state is there for every call that can reach the select: all Starts have
      succeeded, Run waits, and nothing happens any more until the caller cancels. */
  lemma HealthyRunWaits(c: Config) returns (s: State)
    requires AllPresent(c) && c.regs != []
    ensures Reachable(c, s) && AllStarted(c, s) && AllActive(c, s)
    ensures s.main.AtSelect? && !s.ctxDone && forall l | Internal(l) :: BrokerRun.Next(c, s, l).None?
  {
    var o: Fate := (i, w) => Started;
    InitDoomed(c, o);
    var ls: seq<Label>;
    ls, s := RunToLoss(c, o, Init(c));
    LostIsFulfilled(c, o, s);
    LostIsQuiescent(c, o, s);
    StartedIsActive(c, s);
  }
}
