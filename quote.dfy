/** Quoting of keys and values: `strconv.AppendQuote` restricted to ASCII,
    the handler's `needsQuotes` test and `appendAutoQuote`, together with
    the reading direction (`Unquote`) that shows the quoted form loses
    nothing. */
module Quoting {
  import opened Text

  /** `unicode.IsPrint` on ASCII: the space and the visible characters. */
  predicate IsPrint(c: ascii) { 0x20 <= c as int <= 0x7E }

  /** The lower-case hexadecimal digit of `d` (strconv's `lowerhex`). */
  function HexDigit(d: nat): (c: ascii)
    requires d < 16
    ensures IsPrint(c)
  {
    if d < 10 then ('0' as int + d) as char else ('a' as int + d - 10) as char
  }

  function HexValue(c: ascii): Option<nat>
  {
    if '0' <= c <= '9' then Some(c as int - '0' as int)
    else if 'a' <= c <= 'f' then Some(c as int - 'a' as int + 10)
    else if 'A' <= c <= 'F' then Some(c as int - 'A' as int + 10)
    else None
  }

  /** The escape letter Go uses for a control character, if it has one:
      \a \b \f \n \r \t \v. */
  function EscapeLetter(c: ascii): Option<ascii>
  {
    match c as int
    case 7 => Some('a')
    case 8 => Some('b')
    case 12 => Some('f')
    case 10 => Some('n')
    case 13 => Some('r')
    case 9 => Some('t')
    case 11 => Some('v')
    case _ => None
  }

  /** Inverse of `EscapeLetter`. */
  function LetterControl(l: ascii): Option<ascii>
  {
    match l
    case 'a' => Some(7 as char)
    case 'b' => Some(8 as char)
    case 'f' => Some(12 as char)
    case 'n' => Some(10 as char)
    case 'r' => Some(13 as char)
    case 't' => Some(9 as char)
    case 'v' => Some(11 as char)
    case _ => None
  }

  /** How one character appears between the quotes. */
  function Escape(c: ascii): (r: Text)
  {
    if c == '"' || c == '\\' then ['\\', c]
    else if IsPrint(c) then [c]
    else if EscapeLetter(c).Some? then ['\\', EscapeLetter(c).value]
    else ['\\', 'x', HexDigit(c as int / 16), HexDigit(c as int % 16)]
  }

  function QuoteBody(s: Text): (r: Text)
  {
    if s == [] then [] else Escape(s[0]) + QuoteBody(s[1..])
  }

  /** `strconv.AppendQuote(nil, s)` for ASCII `s`. */
  function Quote(s: Text): (r: Text)
  {
    "\"" + QuoteBody(s) + "\""
  }

  function Prepend(c: ascii, rest: Option<Text>): Option<Text>
  {
    if rest.Some? then Some([c] + rest.value) else None
  }

  /** Decodes the text between the quotes; `None` when it is not the
      output of `QuoteBody` for any input. */
  function UnquoteBody(s: Text): Option<Text>
  {
    if s == [] then Some([])
    else if s[0] == '"' || !IsPrint(s[0]) then None
    else if s[0] != '\\' then Prepend(s[0], UnquoteBody(s[1..]))
    else if |s| < 2 then None
    else if s[1] == '"' || s[1] == '\\' then Prepend(s[1], UnquoteBody(s[2..]))
    else if LetterControl(s[1]).Some? then Prepend(LetterControl(s[1]).value, UnquoteBody(s[2..]))
    else if s[1] == 'x' && |s| >= 4 && HexValue(s[2]).Some? && HexValue(s[3]).Some?
      && HexValue(s[2]).value * 16 + HexValue(s[3]).value < 0x80
    then Prepend((HexValue(s[2]).value * 16 + HexValue(s[3]).value) as char, UnquoteBody(s[4..]))
    else None
  }

  /** The reading direction of `Quote` (what `strconv.Unquote` does on it). */
  function Unquote(q: Text): Option<Text>
  {
    if |q| >= 2 && q[0] == '"' && q[|q| - 1] == '"' then UnquoteBody(q[1..|q| - 1]) else None
  }

  lemma HexRoundTrip(d: nat)
    requires d < 16
    ensures HexValue(HexDigit(d)) == Some(d)
  {
  }

  lemma LetterRoundTrip(c: ascii)
    requires EscapeLetter(c).Some?
    ensures LetterControl(EscapeLetter(c).value) == Some(c)
    ensures EscapeLetter(c).value !in {'"', '\\', 'x'} && IsPrint(EscapeLetter(c).value) && !IsPrint(c)
  {
  }

  /** Reading one escaped character back. */
  lemma UnescapeEscape(c: ascii, t: Text)
    ensures UnquoteBody(Escape(c) + t) == Prepend(c, UnquoteBody(t))
  {
    var e := Escape(c) + t;
    if c == '"' || c == '\\' {
      assert e[2..] == t;
    } else if IsPrint(c) {
      assert e[1..] == t;
    } else if EscapeLetter(c).Some? {
      LetterRoundTrip(c);
      UnescapeLetter(c, EscapeLetter(c).value, t);
    } else {
      UnescapeHex(c, t);
    }
  }

  lemma UnescapeLetter(c: ascii, l: ascii, t: Text)
    requires LetterControl(l) == Some(c) && l !in {'"', '\\'} && IsPrint(l)
    ensures UnquoteBody(['\\', l] + t) == Prepend(c, UnquoteBody(t))
  {
    assert (['\\', l] + t)[2..] == t;
  }

  lemma UnescapeHex(c: ascii, t: Text)
    requires !IsPrint(c) && EscapeLetter(c).None?
    ensures UnquoteBody(Escape(c) + t) == Prepend(c, UnquoteBody(t))
  {
    var hi, lo := c as int / 16, c as int % 16;
    HexRoundTrip(hi);
    HexRoundTrip(lo);
    var e := ['\\', 'x', HexDigit(hi), HexDigit(lo)] + t;
    assert Escape(c) + t == e;
    assert e[4..] == t && e[2] == HexDigit(hi) && e[3] == HexDigit(lo);
    assert (hi * 16 + lo) as char == c;
  }

  lemma {:induction false} QuoteBodyRoundTrip(s: Text)
    ensures UnquoteBody(QuoteBody(s)) == Some(s)
  {
    if s != [] {
      UnescapeEscape(s[0], QuoteBody(s[1..]));
      QuoteBodyRoundTrip(s[1..]);
      assert [s[0]] + s[1..] == s;
    }
  }

  /** Quoting loses nothing: reading the quoted form gives back `s`. */
  lemma QuoteRoundTrip(s: Text)
    ensures Unquote(Quote(s)) == Some(s)
  {
    var q := Quote(s);
    assert q[1..|q| - 1] == QuoteBody(s);
    QuoteBodyRoundTrip(s);
  }

  /** Text without control characters. */
  predicate Printable(s: Text)
  {
    forall i :: 0 <= i < |s| ==> IsPrint(s[i])
  }

  lemma PrintableConcat(a: Text, b: Text)
    requires Printable(a) && Printable(b)
    ensures Printable(a + b)
  {
    forall i | 0 <= i < |a + b| ensures IsPrint((a + b)[i]) {
      if i >= |a| { assert (a + b)[i] == b[i - |a|]; }
    }
  }

  /** Quoted text has no control characters: every byte is printable. */
  lemma {:induction false} QuoteBodyPrintable(s: Text)
    ensures Printable(QuoteBody(s))
  {
    if s != [] {
      QuoteBodyPrintable(s[1..]);
      assert Printable(Escape(s[0]));
      PrintableConcat(Escape(s[0]), QuoteBody(s[1..]));
    }
  }

  lemma QuotePrintable(s: Text)
    ensures |Quote(s)| >= 2 && Quote(s)[0] == '"' && Quote(s)[|Quote(s)| - 1] == '"'
    ensures Printable(Quote(s))
  {
    QuoteBodyPrintable(s);
    assert Printable("\"");
    PrintableConcat("\"", QuoteBody(s));
    PrintableConcat("\"" + QuoteBody(s), "\"");
  }

  /** A character that makes `needsQuotes` answer true: space, '"', '=',
      the white-space controls and every other non-printable character.
      (U+0085 and U+00A0, also listed in the source, are not ASCII.) */
  predicate ForcesQuotes(c: ascii)
  {
    c == ' ' || c == '"' || c == '=' || c == '\t' || c == '\n'
    || c as int == 11 || c as int == 12 || c == '\r' || !IsPrint(c)
  }

  /** The loop of `needsQuotes`: true at the first character that forces
      quoting. */
  predicate AnyForcesQuotes(s: Text)
  {
    s != [] && (ForcesQuotes(s[0]) || AnyForcesQuotes(s[1..]))
  }

  predicate NeedsQuotes(s: Text)
  {
    |s| == 0 || AnyForcesQuotes(s)
  }

  lemma {:induction false} AnyForcesQuotesExists(s: Text)
    ensures AnyForcesQuotes(s) <==> exists i :: 0 <= i < |s| && ForcesQuotes(s[i])
  {
    if s != [] {
      AnyForcesQuotesExists(s[1..]);
      if ForcesQuotes(s[0]) {
      } else if AnyForcesQuotes(s[1..]) {
        var i :| 0 <= i < |s[1..]| && ForcesQuotes(s[1..][i]);
        assert ForcesQuotes(s[i + 1]);
      } else {
        forall i | 0 <= i < |s| ensures !ForcesQuotes(s[i]) {
          if i > 0 { assert s[i] == s[1..][i - 1]; }
        }
      }
    }
  }

  /** A group prefix without a character that forces quoting does not make
      a key that needs no quotes need them. */
  lemma NoQuotesConcat(prefix: Text, key: Text)
    requires !AnyForcesQuotes(prefix) && !NeedsQuotes(key)
    ensures !NeedsQuotes(prefix + key)
  {
    AnyForcesQuotesExists(prefix);
    AnyForcesQuotesExists(key);
    AnyForcesQuotesExists(prefix + key);
    forall i | 0 <= i < |prefix + key| ensures !ForcesQuotes((prefix + key)[i]) {
      if i >= |prefix| { assert (prefix + key)[i] == key[i - |prefix|]; }
    }
  }

  /** `needsQuotes(s)` holds exactly for the empty key and for keys with a
      character that forces quoting; '.' and '\' never force it. */
  lemma NeedsQuotesIff(s: Text)
    ensures NeedsQuotes(s) <==> s == [] || exists i :: 0 <= i < |s| && ForcesQuotes(s[i])
    ensures !ForcesQuotes('.') && !ForcesQuotes('\\')
  {
    AnyForcesQuotesExists(s);
  }

  /** `appendAutoQuote`: quoted only when `needsQuotes` says so. */
  function AutoQuote(s: Text): (r: Text)
  {
    if NeedsQuotes(s) then Quote(s) else s
  }

  /** Reading an auto-quoted token back: quoted tokens start with '"'. */
  function ReadAutoQuoted(t: Text): Option<Text>
  {
    if |t| > 0 && t[0] == '"' then Unquote(t) else Some(t)
  }

  /** Auto-quoting is unambiguous: a raw token never starts with '"', so
      the token can be read back to `s`. A raw token contains no byte that
      forces quoting, so it never contains a separator. */
  lemma AutoQuoteRoundTrip(s: Text)
    ensures ReadAutoQuoted(AutoQuote(s)) == Some(s)
    ensures AutoQuote(s) == s ==> s != [] && forall i :: 0 <= i < |s| ==> !ForcesQuotes(s[i])
  {
    NeedsQuotesIff(s);
    if NeedsQuotes(s) {
      QuoteRoundTrip(s);
      assert Quote(s)[0] == '"';
    } else {
      assert !ForcesQuotes(s[0]);
    }
    if AutoQuote(s) == s && NeedsQuotes(s) {
      QuotePrintable(s);
      assert |Quote(s)| == |QuoteBody(s)| + 2;
      QuoteBodyLength(s);
    }
  }

  lemma {:induction false} QuoteBodyLength(s: Text)
    ensures |QuoteBody(s)| >= |s|
  {
    if s != [] { QuoteBodyLength(s[1..]); }
  }
}
