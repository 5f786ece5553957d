/**
 * The body of a response the gateway fabricates: the JSON text
 * `{"detail": "<message>"}`.
 *
 * The source builds this text by splicing the message into a string
 * template, without escaping. `AsWritten` models that; `Encode` escapes the
 * message as a JSON string literal, and is what the rest of the model uses.
 * `ParseDetail` reads such a body back, following the string grammar of JSON
 * (RFC 8259, section 7).
 */
module DetailBody {
  import opened Wrappers

  const Prefix: string := "{\"detail\": \""
  const Suffix: string := "\"}"

  /** The body as the source builds it for a message. */
  function AsWritten(detail: string): string
  {
    Prefix + detail + Suffix
  }

  function LowerHexDigit(n: nat): char
    requires n < 16
  {
    "0123456789abcdef"[n]
  }

  /** The value of a hexadecimal digit of either case. */
  function HexValue(c: char): Option<nat>
  {
    if '0' <= c <= '9' then Some(c as nat - '0' as nat)
    else if 'a' <= c <= 'f' then Some(c as nat - 'a' as nat + 10)
    else if 'A' <= c <= 'F' then Some(c as nat - 'A' as nat + 10)
    else None
  }

  /** The JSON escape of one character inside a string literal. */
  function EscapeChar(c: char): string
  {
    if c == '"' then "\\\""
    else if c == '\\' then "\\\\"
    else if c < ' ' then "\\u00" + [LowerHexDigit(c as nat / 16), LowerHexDigit(c as nat % 16)]
    else [c]
  }

  function Escape(s: string): string
  {
    if s == [] then [] else EscapeChar(s[0]) + Escape(s[1..])
  }

  /** The body with the message escaped, so that it is always a JSON text. */
  function Encode(detail: string): string
  {
    Prefix + Escape(detail) + Suffix
  }

  /**
   * Reads the escape sequence that follows a backslash: the character it
   * stands for and the number of characters it used. Surrogate code points,
   * which JSON writes as pairs, are not accepted.
   */
  function Unescape(t: string): (r: Option<(char, nat)>)
    ensures r.Some? ==> 1 <= r.value.1 <= |t|
  {
    if t == [] then None
    else if t[0] == '"' then Some(('"', 1))
    else if t[0] == '\\' then Some(('\\', 1))
    else if t[0] == '/' then Some(('/', 1))
    else if t[0] == 'b' then Some((8 as char, 1))
    else if t[0] == 'f' then Some((12 as char, 1))
    else if t[0] == 'n' then Some(('\n', 1))
    else if t[0] == 'r' then Some(('\r', 1))
    else if t[0] == 't' then Some(('\t', 1))
    else if t[0] == 'u' && |t| >= 5 then
      match (HexValue(t[1]), HexValue(t[2]), HexValue(t[3]), HexValue(t[4]))
      case (Some(a), Some(b), Some(c), Some(d)) =>
        var v := a * 4096 + b * 256 + c * 16 + d;
        if v < 0xD800 || 0xE000 <= v then Some((v as char, 5)) else None
      case _ => None
    else None
  }

  /**
   * Reads the contents of a JSON string literal up to its closing quote:
   * the decoded string and what follows the quote, or None when the text is
   * not a well-formed string literal.
   */
  function ParseString(s: string): Option<(string, string)>
    decreases |s|
  {
    if s == [] then None
    else if s[0] == '"' then Some(([], s[1..]))
    else if s[0] == '\\' then
      match Unescape(s[1..])
      case None => None
      case Some((c, n)) =>
        match ParseString(s[1 + n..])
        case None => None
        case Some((d, rest)) => Some(([c] + d, rest))
    else if s[0] < ' ' then None
    else
      match ParseString(s[1..])
      case None => None
      case Some((d, rest)) => Some(([s[0]] + d, rest))
  }

  /** The message of a body of the form `{"detail": "<message>"}`, if it has that form. */
  function ParseDetail(text: string): Option<string>
  {
    if |text| >= |Prefix| && text[..|Prefix|] == Prefix then
      match ParseString(text[|Prefix|..])
      case Some((d, rest)) => if rest == "}" then Some(d) else None
      case None => None
    else None
  }

  /** A message that needs no escaping inside a JSON string literal. */
  predicate Plain(s: string)
  {
    forall i :: 0 <= i < |s| ==> s[i] != '"' && s[i] != '\\' && s[i] >= ' '
  }

  /** What reading a string literal gives when it starts with one escaped character. */
  function Prepend(c: char, r: Option<(string, string)>): Option<(string, string)>
  {
    match r
    case None => None
    case Some((d, rest)) => Some(([c] + d, rest))
  }

  lemma QuotedCharStep(c: char, tail: string)
    requires c == '"' || c == '\\'
    ensures ParseString(EscapeChar(c) + tail) == Prepend(c, ParseString(tail))
  {
    var s := EscapeChar(c) + tail;
    assert s[0] == '\\' && s[1] == c;
    assert Unescape(s[1..]) == Some((c, 1));
    assert s[2..] == tail;
  }

  lemma ControlCharStep(c: char, tail: string)
    requires c < ' '
    ensures ParseString(EscapeChar(c) + tail) == Prepend(c, ParseString(tail))
  {
    var s := EscapeChar(c) + tail;
    var hi, lo := c as nat / 16, c as nat % 16;
    assert s[0] == '\\' && s[1] == 'u' && s[2] == '0' && s[3] == '0';
    assert s[4] == LowerHexDigit(hi) && s[5] == LowerHexDigit(lo);
    assert HexValue(s[4]) == Some(hi) && HexValue(s[5]) == Some(lo);
    var t := s[1..];
    assert t[0] == 'u' && t[1] == '0' && t[2] == '0' && t[3] == s[4] && t[4] == s[5];
    assert Unescape(t) == Some((c, 5));
    assert s[6..] == tail;
  }

  lemma PlainCharStep(c: char, tail: string)
    requires c != '"' && c != '\\' && c >= ' '
    ensures ParseString(EscapeChar(c) + tail) == Prepend(c, ParseString(tail))
  {
    var s := EscapeChar(c) + tail;
    assert s[0] == c && s[1..] == tail;
  }

  /** Reading back an escaped string stops exactly at the quote that closes it. */
  lemma {:induction false} ParseEscaped(d: string, rest: string)
    ensures ParseString(Escape(d) + "\"" + rest) == Some((d, rest))
    decreases |d|
  {
    if d == [] {
      assert Escape(d) + "\"" + rest == "\"" + rest;
    } else {
      var c := d[0];
      ParseEscaped(d[1..], rest);
      var tail := Escape(d[1..]) + "\"" + rest;
      assert Escape(d) + "\"" + rest == EscapeChar(c) + tail;
      if c == '"' || c == '\\' {
        QuotedCharStep(c, tail);
      } else if c < ' ' {
        ControlCharStep(c, tail);
      } else {
        PlainCharStep(c, tail);
      }
      assert d == [c] + d[1..];
    }
  }

  /** Every encoded body reads back as exactly the message it was built from. */
  lemma EncodeRoundTrip(d: string)
    ensures ParseDetail(Encode(d)) == Some(d)
  {
    var text := Encode(d);
    assert text[..|Prefix|] == Prefix;
    assert text[|Prefix|..] == Escape(d) + "\"" + "}";
    ParseEscaped(d, "}");
  }

  /** A plain message is left as it is by escaping. */
  lemma {:induction false} PlainNeedsNoEscape(s: string)
    requires Plain(s)
    ensures Escape(s) == s
  {
    if s != [] {
      assert Plain(s[1..]) by {
        forall i | 0 <= i < |s[1..]| ensures s[1..][i] != '"' && s[1..][i] != '\\' && s[1..][i] >= ' ' {
          assert s[1..][i] == s[i + 1];
        }
      }
      PlainNeedsNoEscape(s[1..]);
      assert s == [s[0]] + s[1..];
    }
  }

  /** For a plain message the encoded body is byte for byte the body the source builds. */
  lemma PlainEncodeAsWritten(d: string)
    requires Plain(d)
    ensures Encode(d) == AsWritten(d)
  {
    PlainNeedsNoEscape(d);
  }

  /**
   * As written, a message with a double quote in it ends the JSON string
   * early: the string value stops at the quote, so the body is not the
   * one-key object `{"detail": ...}` holding the message. (Depending on
   * what follows the quote it is either no JSON text at all or a different
   * object; either way the message cannot be read back.)
   */
  lemma QuoteBreaksAsWrittenBody(p: string, q: string)
    requires Plain(p)
    ensures ParseString(AsWritten(p + "\"" + q)[|Prefix|..]) == Some((p, q + Suffix))
    ensures ParseDetail(AsWritten(p + "\"" + q)) == None
  {
    var body := AsWritten(p + "\"" + q);
    PlainNeedsNoEscape(p);
    ParseEscaped(p, q + Suffix);
    assert body[..|Prefix|] == Prefix;
    assert body[|Prefix|..] == Escape(p) + "\"" + (q + Suffix);
  }

  /** Two plain messages make a plain message. */
  lemma PlainConcat(a: string, b: string)
    requires Plain(a) && Plain(b)
    ensures Plain(a + b)
  {
    forall i | 0 <= i < |a + b| ensures (a + b)[i] != '"' && (a + b)[i] != '\\' && (a + b)[i] >= ' ' {
      if i < |a| { assert (a + b)[i] == a[i]; } else { assert (a + b)[i] == b[i - |a|]; }
    }
  }
}
