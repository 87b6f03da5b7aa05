/** Messages and headers as nats.go presents them: a header is a case-sensitive map
    from a key to a list of values. */
module NatsMsg {
  import opened Wrappers

  type Header = map<string, seq<string>>

  /** The values under a key, none when the key is absent. */
  function Values(h: Header, k: string): seq<string> {
    if k in h then h[k] else []
  }

  /** Header.Get: the first value, or the empty string. */
  function Get(h: Header, k: string): string {
    if Values(h, k) != [] then Values(h, k)[0] else ""
  }

  /** Header.Set. */
  function SetKey(h: Header, k: string, v: string): Header {
    h[k := [v]]
  }

  /** Header.Add. */
  function AddKey(h: Header, k: string, v: string): Header {
    h[k := Values(h, k) + [v]]
  }

  /** How the four operations see each other: Get is the first value, Set replaces the
      list, Add appends to it, and no other key is touched. */
  lemma HeaderLaws(h: Header, k: string, v: string, q: string)
    requires q != k
    ensures Get(h, k) == (if k in h && h[k] != [] then h[k][0] else "")
    ensures Get(SetKey(h, k, v), k) == v && Values(SetKey(h, k, v), k) == [v]
    ensures Values(AddKey(h, k, v), k) == (if k in h then h[k] + [v] else [v])
    ensures Get(AddKey(h, k, v), k) == if k in h && h[k] != [] then Get(h, k) else v
    ensures (q in SetKey(h, k, v) <==> q in h) && Values(SetKey(h, k, v), q) == Values(h, q)
    ensures (q in AddKey(h, k, v) <==> q in h) && Values(AddKey(h, k, v), q) == Values(h, q)
  {
  }

  /** A message handed to PublishMsg; None is Go's nil header. */
  datatype Msg = Msg(subject: string, header: Option<Header>, data: string)

  const HEADER_ERROR := "X-Error"
  const HEADER_RETRY_COUNT := "X-Retry-Count"
}
