/** propagateHeaders (consumer/headers.go): the tracing headers of a request are
    appended, in place, to the headers of its reply. */
module Headers {
  import opened Wrappers
  import opened NatsMsg

  const HEADER_CORRELATION_ID := "X-Correlation-ID"
  const HEADER_TRACE_PARENT := "traceparent"
  const HEADER_TRACE_STATE := "tracestate"
  const HEADER_BAGGAGE := "baggage"

  predicate Propagated(k: string) {
    k == HEADER_CORRELATION_ID || k == HEADER_TRACE_PARENT || k == HEADER_TRACE_STATE || k == HEADER_BAGGAGE
  }

  /** A Go map of headers is a reference: whoever holds it sees every update. */
  class HeaderMap {
    var entries: Header

    constructor ()
      ensures entries == map[]
    {
      entries := map[];
    }

    method SetValue(k: string, v: string)
      modifies this
      ensures entries == SetKey(old(entries), k, v)
    {
      entries := SetKey(entries, k, v);
    }

    method AddValue(k: string, v: string)
      modifies this
      ensures entries == AddKey(old(entries), k, v)
    {
      entries := AddKey(entries, k, v);
    }
  }

  class NatsMessage {
    const subject: string
    const data: string
    var header: HeaderMap?

    constructor (subject: string, data: string, header: HeaderMap?)
      ensures this.subject == subject && this.data == data && this.header == header
    {
      this.subject, this.data, this.header := subject, data, header;
    }
  }

  function View(h: HeaderMap?): Option<Header>
    reads h
  {
    if h == null then None else Some(h.entries)
  }

  /** The headers `base` after the propagated ones of `src` were appended: these four
      keys list the old values and then the incoming ones, and all other keys are as
      they were.  A key whose incoming list is empty is not created. */
  function Merged(base: Header, src: Header): Header {
    map k | k in base.Keys + src.Keys && (k in base || (Propagated(k) && Values(src, k) != []))
      :: Values(base, k) + if Propagated(k) then Values(src, k) else []
  }

  /** The same for headers that may be nil. */
  function MergedHeader(base: Option<Header>, src: Option<Header>): Option<Header> {
    if src.None? then base else Some(Merged(if base.Some? then base.value else map[], src.value))
  }

  function Entry(h: Header, k: string): Option<seq<string>> {
    if k in h then Some(h[k]) else None
  }

  /** after is before with the values appended under k. */
  ghost predicate Appended(before: Header, k: string, values: seq<string>, after: Header) {
    forall q :: Entry(after, q) == if q == k && values != [] then Some(Values(before, k) + values) else Entry(before, q)
  }

  /** h is base with the values of src appended under the propagated keys of `seen`. */
  ghost predicate MergedOver(base: Header, src: Header, seen: set<string>, h: Header) {
    forall k :: Entry(h, k) ==
      if k in seen && Propagated(k) && Values(src, k) != [] then Some(Values(base, k) + Values(src, k)) else Entry(base, k)
  }

  lemma VisitKey(base: Header, src: Header, seen: set<string>, k: string, before: Header, after: Header)
    requires MergedOver(base, src, seen, before) && k !in seen
    requires if Propagated(k) then Appended(before, k, Values(src, k), after) else after == before
    ensures MergedOver(base, src, seen + {k}, after)
  {
    assert Entry(before, k) == Entry(base, k);
  }

  lemma VisitedAll(base: Header, src: Header, h: Header)
    requires MergedOver(base, src, src.Keys, h)
    ensures h == Merged(base, src)
  {
    forall k ensures Entry(h, k) == Entry(Merged(base, src), k) {
      assert Values(base, k) + [] == Values(base, k);
    }
    assert forall k :: k in h <==> Entry(h, k).Some?;
    assert forall k :: k in Merged(base, src) <==> Entry(Merged(base, src), k).Some?;
  }

  /** The inner loop: append every value under one key, and touch no other key. */
  method AddAll(to: HeaderMap, k: string, values: seq<string>)
    modifies to
    ensures Appended(old(to.entries), k, values, to.entries)
  {
    for j := 0 to |values|
      invariant Appended(old(to.entries), k, values[..j], to.entries)
    {
      ghost var was, now := Values(old(to.entries), k), to.entries;
      assert Entry(now, k) == if j > 0 then Some(was + values[..j]) else Entry(old(to.entries), k);
      assert Values(now, k) == was + values[..j];
      to.AddValue(k, values[j]);
      assert values[..j + 1] == values[..j] + [values[j]];
      assert Values(now, k) + [values[j]] == was + values[..j + 1];
      assert forall q :: q != k ==> Entry(to.entries, q) == Entry(now, q);
    }
    assert values[..|values|] == values;
  }

  /** The loop over `from.Header`: Go visits the keys in any order, each once. */
  method MergeInto(from: HeaderMap, to: HeaderMap)
    requires from != to
    modifies to
    ensures to.entries == Merged(old(to.entries), from.entries)
  {
    var src := from.entries;
    var rest := src.Keys;
    while rest != {}
      invariant rest <= src.Keys && from.entries == src
      invariant MergedOver(old(to.entries), src, src.Keys - rest, to.entries)
      decreases |rest|
    {
      var k :| k in rest;
      ghost var before := to.entries;
      if Propagated(k) {
        AddAll(to, k, src[k]);
      }
      VisitKey(old(to.entries), src, src.Keys - rest, k, before, to.entries);
      assert src.Keys - (rest - {k}) == src.Keys - rest + {k};
      rest := rest - {k};
    }
    assert src.Keys - rest == src.Keys;
    VisitedAll(old(to.entries), src, to.entries);
  }

  /** propagateHeaders.  `from` is the request as received and `to` the reply under
      construction; their header maps are separate, but the reply's map may well be
      one that the reply function also returned for an earlier request. */
  method PropagateHeaders(from: NatsMessage, to: NatsMessage)
    requires from != to && (from.header == null || from.header != to.header)
    modifies to, to.header
    ensures View(to.header) == MergedHeader(old(View(to.header)), View(from.header))
    ensures old(to.header) != null ==> to.header == old(to.header)
    ensures to.header == old(to.header) || fresh(to.header)
    ensures from.header == old(from.header) && View(from.header) == old(View(from.header))
  {
    if from.header == null {
      return;
    }
    if to.header == null {
      to.header := new HeaderMap();
    }
    MergeInto(from.header, to.header);
  }

  /** What the merge does, key by key: these four lists grow by the incoming values,
      every other list stays, and no other key appears. */
  lemma MergeIsExactly(base: Header, src: Header, k: string)
    ensures
      var traced := {"X-Correlation-ID", "traceparent", "tracestate", "baggage"};
      && Values(Merged(base, src), k) == Values(base, k) + (if k in traced then Values(src, k) else [])
      && (k in Merged(base, src) <==> k in base || (k in traced && Values(src, k) != []))
  {
    assert Values(base, k) + [] == Values(base, k);
  }

  /** Two requests answered with one and the same header map: the second reply
      carries the tracing values of both, in order. */
  lemma ReusedMapAccumulates(base: Header, first: Header, second: Header, k: string)
    ensures var h := Merged(Merged(base, first), second);
      if Propagated(k) then Values(h, k) == Values(base, k) + Values(first, k) + Values(second, k)
      else (k in h <==> k in base) && Values(h, k) == Values(base, k)
  {
    var once := Merged(base, first);
    assert Propagated(k) ==> Values(once, k) == Values(base, k) + Values(first, k);
  }
}
