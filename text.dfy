/**
 Byte strings as the program sees them: an `OsStr` on a Unix host is an
 arbitrary byte string, a Rust `String` is a byte string that is valid UTF-8.
 This module gives the bytes of the launcher's ASCII message literals and
 the UTF-8 validity test behind `OsStr::to_str`.
 */
module Text {

  newtype byte = x: int | 0 <= x < 256

  type Bytes = seq<byte>

  const DOT: byte := 0x2E
  const SLASH: byte := 0x2F

  /**
   The bytes of a string literal made of ASCII characters, as Rust lays it
   out. Only ASCII literals are built with it: every launcher message is
   ASCII. The model maps any other character to `?`, unlike Rust, which
   would write it out as UTF-8.
   */
  function Ascii(s: string): (r: Bytes)
    ensures |r| == |s|
    ensures forall i :: 0 <= i < |s| && s[i] < 128 as char ==> r[i] as int == s[i] as int
  {
    seq(|s|, i requires 0 <= i < |s| => if s[i] < 128 as char then s[i] as int as byte else 0x3F)
  }

  predicate IsContinuation(b: byte)
  {
    0x80 <= b <= 0xBF
  }

  /**
   The length of the well-formed UTF-8 sequence that starts `s`, or 0 when
   `s` does not start with one (the byte ranges of Table 3-7 of the Unicode
   Standard, which is what Rust's `str::from_utf8` accepts).
   */
  function LeadingSequenceLength(s: Bytes): (n: nat)
    requires s != []
    ensures n <= 4 && n <= |s|
  {
    var b := s[0];
    if b < 0x80 then 1
    else if 0xC2 <= b <= 0xDF then
      if |s| >= 2 && IsContinuation(s[1]) then 2 else 0
    else if 0xE0 <= b <= 0xEF then
      var lo: byte := if b == 0xE0 then 0xA0 else 0x80;
      var hi: byte := if b == 0xED then 0x9F else 0xBF;
      if |s| >= 3 && lo <= s[1] <= hi && IsContinuation(s[2]) then 3 else 0
    else if 0xF0 <= b <= 0xF4 then
      var lo: byte := if b == 0xF0 then 0x90 else 0x80;
      var hi: byte := if b == 0xF4 then 0x8F else 0xBF;
      if |s| >= 4 && lo <= s[1] <= hi && IsContinuation(s[2]) && IsContinuation(s[3]) then 4 else 0
    else 0
  }

  /** `s` is valid UTF-8: it splits into well-formed sequences. */
  predicate IsUtf8(s: Bytes)
    decreases |s|
  {
    s == [] || (LeadingSequenceLength(s) > 0 && IsUtf8(s[LeadingSequenceLength(s)..]))
  }

  /**
   The check rejects what Table 3-7 rules out: a lone continuation byte, an
   overlong two-byte form, an encoded surrogate and a code point above
   U+10FFFF; it accepts the longest forms at the edges of the table.
   */
  lemma Utf8BoundaryCases()
    ensures !IsUtf8([0x80])
    ensures !IsUtf8([0xC0, 0x80])
    ensures !IsUtf8([0xED, 0xA0, 0x80])
    ensures !IsUtf8([0xF4, 0x90, 0x80, 0x80])
    ensures !IsUtf8([0xE2, 0x82])
    ensures IsUtf8([0xDF, 0xBF])
    ensures IsUtf8([0xED, 0x9F, 0xBF])
    ensures IsUtf8([0xF4, 0x8F, 0xBF, 0xBF])
  {
    var a: Bytes := [0xDF, 0xBF];
    var b: Bytes := [0xED, 0x9F, 0xBF];
    var c: Bytes := [0xF4, 0x8F, 0xBF, 0xBF];
    assert a[2..] == [] && b[3..] == [] && c[4..] == [];
  }

  /** A well-formed sequence at the front of `a` is read the same way whatever follows `a`. */
  lemma LeadingSequenceInPrefix(a: Bytes, b: Bytes)
    requires a != [] && LeadingSequenceLength(a) > 0
    ensures LeadingSequenceLength(a + b) == LeadingSequenceLength(a)
  {
    var n := LeadingSequenceLength(a);
    assert forall i :: 0 <= i < n ==> (a + b)[i] == a[i];
  }

  /**
   Validity splits at a sequence boundary: after a valid prefix, the whole
   is valid exactly when the rest is. So valid strings concatenate, and a
   valid string minus a valid prefix stays valid.
   */
  lemma {:induction false} Utf8Concat(a: Bytes, b: Bytes)
    requires IsUtf8(a)
    ensures IsUtf8(a + b) <==> IsUtf8(b)
    decreases |a|
  {
    if a == [] {
      assert a + b == b;
    } else {
      var n := LeadingSequenceLength(a);
      LeadingSequenceInPrefix(a, b);
      assert (a + b)[n..] == a[n..] + b;
      Utf8Concat(a[n..], b);
    }
  }

  /** Pure ASCII byte strings, such as every message literal, are valid UTF-8. */
  lemma {:induction false} AsciiIsUtf8(s: Bytes)
    requires forall i :: 0 <= i < |s| ==> s[i] < 0x80
    ensures IsUtf8(s)
  {
    if s != [] {
      AsciiIsUtf8(s[1..]);
    }
  }
}
