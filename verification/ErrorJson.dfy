/** The one JSON document this library writes and reads by itself: an object with the
    single key "error" and a string, printed the way encoding/json does (section 7 of
    RFC 8259, with the characters that are unsafe in HTML or JavaScript escaped too).
    Strings are sequences of Unicode scalar values. */
module ErrorJson {
  import opened Wrappers

  const OPENING := "{\"error\":\""
  const CLOSING := "\"}"

  function HexDigit(d: nat): char
    requires d < 16
  {
    if d < 10 then '0' + d as char else 'a' + (d - 10) as char
  }

  function HexValue(c: char): Option<nat> {
    if '0' <= c <= '9' then Some(c as int - '0' as int)
    else if 'a' <= c <= 'f' then Some(c as int - 'a' as int + 10)
    else if 'A' <= c <= 'F' then Some(c as int - 'A' as int + 10)
    else None
  }

  function UnicodeEscape(c: char): string
    requires (c as int) < 0x10000
  {
    var n := c as int;
    ['\\', 'u', HexDigit(n / 4096), HexDigit(n / 256 % 16), HexDigit(n / 16 % 16), HexDigit(n % 16)]
  }

  /** The characters that are printed as \u and four digits. */
  predicate InUnicodeForm(c: char) {
    var n := c as int;
    || (n < 0x20 && n != 8 && n != 12 && c != '\n' && c != '\r' && c != '\t')
    || c == '<' || c == '>' || c == '&' || n == 0x2028 || n == 0x2029
  }

  function Escape(c: char): string {
    var n := c as int;
    if c == '\"' then ['\\', '\"']
    else if c == '\\' then ['\\', '\\']
    else if n == 8 then ['\\', 'b']
    else if n == 12 then ['\\', 'f']
    else if c == '\n' then ['\\', 'n']
    else if c == '\r' then ['\\', 'r']
    else if c == '\t' then ['\\', 't']
    else if InUnicodeForm(c) then UnicodeEscape(c)
    else [c]
  }

  function EscapeAll(s: string): string {
    if s == "" then "" else Escape(s[0]) + EscapeAll(s[1..])
  }

  /** json.Marshal(map[string]string{"error": msg}). */
  function Print(msg: string): string {
    OPENING + EscapeAll(msg) + CLOSING
  }

  // ------------------------------------------------------------------ reading

  /** A character read and what follows it. */
  datatype Read = Read(c: char, rest: string)

  function ReadHex(s: string): Option<Read> {
    if |s| < 4 then None else
    var a, b, c, d := HexValue(s[0]), HexValue(s[1]), HexValue(s[2]), HexValue(s[3]);
    if a.None? || b.None? || c.None? || d.None? then None else
    var n := a.value * 4096 + b.value * 256 + c.value * 16 + d.value;
    if n < 0xD800 || 0xE000 <= n < 0x10000 then Some(Read(n as char, s[4..])) else None
  }

  /** One character of a JSON string, plain or escaped; None at the closing quote.
      Surrogate escapes are outside this reader. */
  function ReadChar(s: string): Option<Read> {
    if s == "" || s[0] == '\"' || s[0] as int < 0x20 then None
    else if s[0] != '\\' then Some(Read(s[0], s[1..]))
    else if |s| < 2 then None
    else match s[1]
      case '\"' => Some(Read('\"', s[2..]))
      case '\\' => Some(Read('\\', s[2..]))
      case '/' => Some(Read('/', s[2..]))
      case 'b' => Some(Read(8 as char, s[2..]))
      case 'f' => Some(Read(12 as char, s[2..]))
      case 'n' => Some(Read('\n', s[2..]))
      case 'r' => Some(Read('\r', s[2..]))
      case 't' => Some(Read('\t', s[2..]))
      case 'u' => ReadHex(s[2..])
      case _ => None
  }

  /** A JSON string up to its closing quote, which must be followed by "}" and
      nothing else. */
  function ReadTail(s: string): Option<string>
    decreases |s|
  {
    if s == CLOSING then Some("")
    else
      var first := ReadChar(s);
      if first.None? || |first.value.rest| >= |s| then None
      else
        var more := ReadTail(first.value.rest);
        if more.None? then None else Some([first.value.c] + more.value)
  }

  /** The error text of a document of exactly this form, None for any other. */
  function Parse(body: string): Option<string> {
    if OPENING <= body then ReadTail(body[|OPENING|..]) else None
  }

  lemma HexRoundTrip(d: nat)
    requires d < 16
    ensures HexValue(HexDigit(d)) == Some(d)
  {
  }

  lemma DigitsDenote(n: nat)
    requires n < 0x10000
    ensures n == n / 4096 * 4096 + n / 256 % 16 * 256 + n / 16 % 16 * 16 + n % 16
  {
    assert n / 16 == (n / 16) / 16 * 16 + n / 16 % 16;
    assert (n / 16) / 16 == n / 256 && n / 256 == (n / 256) / 16 * 16 + n / 256 % 16;
    assert (n / 256) / 16 == n / 4096;
  }

  lemma HexReads(a: nat, b: nat, c: nat, d: nat, tail: string)
    requires a < 16 && b < 16 && c < 16 && d < 16
    ensures var n := a * 4096 + b * 256 + c * 16 + d;
      n < 0xD800 || 0xE000 <= n ==>
        ReadHex([HexDigit(a), HexDigit(b), HexDigit(c), HexDigit(d)] + tail) == Some(Read(n as char, tail))
  {
    HexRoundTrip(a);
    HexRoundTrip(b);
    HexRoundTrip(c);
    HexRoundTrip(d);
    var s := [HexDigit(a), HexDigit(b), HexDigit(c), HexDigit(d)] + tail;
    assert s[4..] == tail;
  }

  lemma UnicodeRoundTrip(c: char, tail: string)
    requires (c as int) < 0x10000
    ensures ReadChar(UnicodeEscape(c) + tail) == Some(Read(c, tail))
  {
    var n := c as int;
    DigitsDenote(n);
    HexReads(n / 4096, n / 256 % 16, n / 16 % 16, n % 16, tail);
    var digits := [HexDigit(n / 4096), HexDigit(n / 256 % 16), HexDigit(n / 16 % 16), HexDigit(n % 16)];
    assert (UnicodeEscape(c) + tail)[2..] == digits + tail;
  }

  lemma PlainRoundTrip(c: char, tail: string)
    requires c as int >= 0x20 && c != '\"' && c != '\\'
    ensures ReadChar([c] + tail) == Some(Read(c, tail))
  {
    var s := [c] + tail;
    assert s[0] == c && s[1..] == tail;
  }

  /** The escapes of two characters. */
  lemma ShortRoundTrip(c: char, tail: string)
    requires !InUnicodeForm(c) && Escape(c) != [c]
    ensures ReadChar(Escape(c) + tail) == Some(Read(c, tail))
  {
    var s := Escape(c) + tail;
    assert |Escape(c)| == 2 && s[0] == '\\' && s[1] == Escape(c)[1] && s[2..] == tail;
  }

  lemma CharRoundTrip(c: char, tail: string)
    ensures ReadChar(Escape(c) + tail) == Some(Read(c, tail))
    ensures Escape(c) + tail != CLOSING
  {
    assert (Escape(c) + tail)[0] == Escape(c)[0] && Escape(c)[0] != '\"';
    if InUnicodeForm(c) {
      UnicodeRoundTrip(c, tail);
    } else if Escape(c) != [c] {
      ShortRoundTrip(c, tail);
    } else {
      PlainRoundTrip(c, tail);
    }
  }

  lemma ReadTailStep(s: string, c: char, rest: string)
    requires s != CLOSING && ReadChar(s) == Some(Read(c, rest)) && |rest| < |s|
    requires ReadTail(rest).Some?
    ensures ReadTail(s) == Some([c] + ReadTail(rest).value)
  {
  }

  lemma EscapedStep(c: char, tail: string)
    requires ReadTail(tail).Some?
    ensures ReadTail(Escape(c) + tail) == Some([c] + ReadTail(tail).value)
  {
    CharRoundTrip(c, tail);
    ReadTailStep(Escape(c) + tail, c, tail);
  }

  lemma EscapeAllStep(msg: string)
    requires msg != ""
    ensures EscapeAll(msg) + CLOSING == Escape(msg[0]) + (EscapeAll(msg[1..]) + CLOSING)
  {
  }

  lemma {:induction false} TailRoundTrip(msg: string)
    ensures ReadTail(EscapeAll(msg) + CLOSING) == Some(msg)
  {
    if msg == "" {
      assert EscapeAll(msg) + CLOSING == CLOSING;
    } else {
      TailRoundTrip(msg[1..]);
      EscapedStep(msg[0], EscapeAll(msg[1..]) + CLOSING);
      EscapeAllStep(msg);
      assert [msg[0]] + msg[1..] == msg;
    }
  }

  /** Every text survives printing and reading. */
  lemma RoundTrip(msg: string)
    ensures Parse(Print(msg)) == Some(msg)
  {
    TailRoundTrip(msg);
    assert Print(msg) == OPENING + (EscapeAll(msg) + CLOSING);
    assert Print(msg)[|OPENING|..] == EscapeAll(msg) + CLOSING;
  }

  lemma {:induction false} TailShrinks(s: string)
    requires ReadTail(s).Some?
    ensures |ReadTail(s).value| < |s|
    decreases |s|
  {
    if s != CLOSING {
      TailShrinks(ReadChar(s).value.rest);
    }
  }

  /** No document is its own text. */
  lemma ParseShrinks(body: string)
    requires Parse(body).Some?
    ensures |Parse(body).value| < |body|
  {
    TailShrinks(body[|OPENING|..]);
  }

  /** The characters that need no escape. */
  predicate Harmless(c: char) {
    var n := c as int;
    n >= 0x20 && c != '\"' && c != '\\' && c != '<' && c != '>' && c != '&' && n != 0x2028 && n != 0x2029
  }

  lemma {:induction false} HarmlessTextIsKept(msg: string)
    requires forall c | c in msg :: Harmless(c)
    ensures EscapeAll(msg) == msg
  {
    if msg != "" {
      assert Harmless(msg[0]) && msg == [msg[0]] + msg[1..];
      HarmlessTextIsKept(msg[1..]);
    }
  }

  /** What the document looks like: the key is "error", and a harmless text stands in it
      as it is. */
  lemma HarmlessDocument(msg: string)
    requires forall c | c in msg :: Harmless(c)
    ensures Print(msg) == "{\"error\":\"" + msg + "\"}"
  {
    HarmlessTextIsKept(msg);
  }

  /** Four lower-case hexadecimal digits. */
  function Hex4(n: nat): string
    requires n < 0x10000
  {
    var digits := "0123456789abcdef";
    [digits[n / 4096], digits[n / 256 % 16], digits[n / 16 % 16], digits[n % 16]]
  }

  lemma DigitIsListed(d: nat)
    requires d < 16
    ensures HexDigit(d) == "0123456789abcdef"[d]
  {
  }

  lemma UnicodeEscapeIs(c: char)
    requires (c as int) < 0x10000
    ensures UnicodeEscape(c) == ['\\', 'u'] + Hex4(c as int)
  {
    var n := c as int;
    DigitIsListed(n / 4096);
    DigitIsListed(n / 256 % 16);
    DigitIsListed(n / 16 % 16);
    DigitIsListed(n % 16);
  }

  /** The short escapes of section 7 of RFC 8259; every other character that is not
      harmless is printed as its number, and harmless ones as they are. */
  lemma EscapesAreStandard(c: char)
    ensures Escape('\"') == ['\\', '\"'] && Escape('\\') == ['\\', '\\']
    ensures Escape(8 as char) == ['\\', 'b'] && Escape(12 as char) == ['\\', 'f']
    ensures Escape('\n') == ['\\', 'n'] && Escape('\r') == ['\\', 'r'] && Escape('\t') == ['\\', 't']
    ensures Harmless(c) ==> Escape(c) == [c]
    ensures !Harmless(c) && c !in ['\"', '\\', 8 as char, 12 as char, '\n', '\r', '\t'] ==>
      (c as int) < 0x10000 && Escape(c) == ['\\', 'u'] + Hex4(c as int)
  {
    if (c as int) < 0x10000 {
      UnicodeEscapeIs(c);
    }
  }

  /** What the reader takes besides its own printing: an escaped slash, and upper-case
      digits. */
  lemma ReaderTakesMore(d: nat, tail: string)
    requires 10 <= d < 16
    ensures ReadChar(['\\', '/'] + tail) == Some(Read('/', tail))
    ensures HexValue("ABCDEF"[d - 10]) == HexValue("abcdef"[d - 10]) == Some(d)
  {
    assert (['\\', '/'] + tail)[2..] == tail;
  }
}
