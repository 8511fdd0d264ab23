/** Bytes, ASCII text and the small string helpers (`strings.ToLower`,
    `strings.TrimRight`) that the handler applies to its output.

    A Go string is a sequence of bytes. Here a byte is a `char` below U+0100,
    so that Dafny string literals can stand for Go string constants, and the
    text a handler renders is restricted to ASCII (chars below U+0080). */
module Text {

  type byte = c: char | c as int < 0x100 witness '\0'

  type ascii = c: byte | c as int < 0x80 witness '\0'

  type Text = seq<ascii>

  datatype Option<+T> = None | Some(value: T)

  function Max(a: int, b: int): int { if a < b then b else a }

  predicate IsUpper(c: ascii) { 'A' <= c <= 'Z' }

  /** ASCII lower-casing of one character, as `unicode.ToLower` on ASCII. */
  function LowerChar(c: ascii): (r: ascii)
    ensures IsUpper(c) ==> r as int == c as int + 32
    ensures !IsUpper(c) ==> r == c
  {
    if IsUpper(c) then (c as int + 32) as char else c
  }

  /** `strings.ToLower` restricted to ASCII text. */
  function ToLower(s: Text): (r: Text)
    ensures |r| == |s|
    ensures forall i :: 0 <= i < |s| ==> r[i] == LowerChar(s[i])
  {
    if s == [] then [] else [LowerChar(s[0])] + ToLower(s[1..])
  }

  /** ASCII upper-casing of one character, as `unicode.ToUpper` on ASCII. */
  function UpperChar(c: ascii): (r: ascii)
    ensures 'a' <= c <= 'z' ==> r as int == c as int - 32
    ensures !('a' <= c <= 'z') ==> r == c
  {
    if 'a' <= c <= 'z' then (c as int - 32) as char else c
  }

  /** `strings.ToUpper` restricted to ASCII text. */
  function ToUpper(s: Text): (r: Text)
    ensures |r| == |s|
    ensures forall i :: 0 <= i < |s| ==> r[i] == UpperChar(s[i])
  {
    if s == [] then [] else [UpperChar(s[0])] + ToUpper(s[1..])
  }

  lemma LowerUpperChar(c: ascii)
    requires !IsUpper(c)
    ensures LowerChar(UpperChar(c)) == c
  {
    if 'a' <= c <= 'z' {
      var u := UpperChar(c);
      assert IsUpper(u);
      assert LowerChar(u) as int == c as int;
    }
  }

  /** Lower-casing undoes upper-casing on text without upper-case letters. */
  lemma LowerOfUpper(s: Text)
    requires forall i :: 0 <= i < |s| ==> !IsUpper(s[i])
    ensures ToLower(ToUpper(s)) == s
  {
    var u := ToUpper(s);
    var t := ToLower(u);
    forall i | 0 <= i < |s|
      ensures t[i] == s[i]
    {
      assert u[i] == UpperChar(s[i]);
      assert t[i] == LowerChar(u[i]);
      LowerUpperChar(s[i]);
    }
  }

  /** Text that lower-casing leaves as it is has no upper-case letter, so
      lower-casing also undoes its upper-casing. */
  lemma LowerFixedPoint(s: Text)
    requires ToLower(s) == s
    ensures ToLower(ToUpper(s)) == s
  {
    forall i | 0 <= i < |s|
      ensures !IsUpper(s[i])
    {
      assert ToLower(s)[i] == LowerChar(s[i]);
    }
    LowerOfUpper(s);
  }

  /** Text without upper-case letters is its own lower-casing. */
  lemma LowerIdentity(s: Text)
    requires forall i :: 0 <= i < |s| ==> !IsUpper(s[i])
    ensures ToLower(s) == s
  {
  }

  /** `strings.TrimRight(s, " ")`: drops every trailing space. */
  function TrimRight(s: Text): (r: Text)
    ensures |r| <= |s| && r == s[..|r|]
    ensures r == [] || r[|r| - 1] != ' '
    ensures forall i :: |r| <= i < |s| ==> s[i] == ' '
  {
    if s == [] || s[|s| - 1] != ' ' then s else TrimRight(s[..|s| - 1])
  }

  /** Trimming text that ends in one space after a non-space removes that space. */
  lemma TrimRightSpace(s: Text)
    requires s == [] || s[|s| - 1] != ' '
    ensures TrimRight(s + " ") == s
  {
    assert (s + " ")[..|s|] == s;
  }

  /** Trimming `h`, then `u`, then one space, where `u` ends in a non-space,
      removes just that space. */
  lemma TrimLastSpace(h: Text, u: Text)
    requires u != [] && u[|u| - 1] != ' '
    ensures TrimRight(h + (u + " ")) == h + u
  {
    assert h + (u + " ") == (h + u) + " ";
    TrimRightSpace(h + u);
  }
}
