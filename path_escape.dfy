/**
 * url.PathEscape from Go's net/url: every byte of the UTF-8 form of the
 * string is kept when it is an unreserved character or one of $ & + : = @,
 * and written as %XX (upper-case hex) otherwise; in particular '/' becomes
 * %2F, so the result is always a single path segment.
 */
module PathEscaping {

  /** The characters url.PathEscape leaves as they are in a path segment. */
  predicate Unescaped(c: char) {
    ('a' <= c <= 'z') || ('A' <= c <= 'Z') || ('0' <= c <= '9')
    || c == '-' || c == '_' || c == '.' || c == '~'
    || c == '$' || c == '&' || c == '+' || c == ':' || c == '=' || c == '@'
  }

  predicate IsHex(c: char) {
    ('0' <= c <= '9') || ('A' <= c <= 'F')
  }

  /** Every character a path segment produced by PathEscape may contain. */
  predicate SegmentChar(c: char) {
    Unescaped(c) || c == '%'
  }

  function HexDigit(d: nat): (c: char)
    requires d < 16
    ensures IsHex(c)
  {
    if d < 10 then (d + '0' as int) as char else (d - 10 + 'A' as int) as char
  }

  /** The UTF-8 encoding of one Unicode scalar value. */
  function Utf8(c: char): (bs: seq<nat>)
    ensures 1 <= |bs| <= 4
    ensures forall i :: 0 <= i < |bs| ==> bs[i] < 256
    ensures |bs| == 1 <==> (c as int) < 0x80
    ensures |bs| == 1 ==> bs[0] == c as int
  {
    var cp := c as int;
    if cp < 0x80 then [cp]
    else if cp < 0x800 then [0xC0 + cp / 0x40, 0x80 + cp % 0x40]
    else if cp < 0x10000 then [0xE0 + cp / 0x1000, 0x80 + (cp / 0x40) % 0x40, 0x80 + cp % 0x40]
    else [0xF0 + cp / 0x40000, 0x80 + (cp / 0x1000) % 0x40, 0x80 + (cp / 0x40) % 0x40, 0x80 + cp % 0x40]
  }

  function PercentBytes(bs: seq<nat>): (r: string)
    requires forall i :: 0 <= i < |bs| ==> bs[i] < 256
    ensures |r| == 3 * |bs|
    ensures forall i :: 0 <= i < |r| ==> r[i] == '%' || IsHex(r[i])
  {
    if |bs| == 0 then ""
    else ['%', HexDigit(bs[0] / 16), HexDigit(bs[0] % 16)] + PercentBytes(bs[1..])
  }

  function EscapeChar(c: char): (r: string)
    ensures Unescaped(c) ==> r == [c]
    ensures !Unescaped(c) ==> |r| >= 3 && r[0] == '%'
    ensures forall i :: 0 <= i < |r| ==> SegmentChar(r[i])
  {
    if Unescaped(c) then [c] else PercentBytes(Utf8(c))
  }

  function PathEscape(s: string): (r: string)
    ensures forall i :: 0 <= i < |r| ==> SegmentChar(r[i])
  {
    if |s| == 0 then "" else EscapeChar(s[0]) + PathEscape(s[1..])
  }

  /** Escaping works character by character, so it distributes over concatenation. */
  lemma {:induction false} PathEscapeAppend(a: string, b: string)
    ensures PathEscape(a + b) == PathEscape(a) + PathEscape(b)
  {
    if |a| > 0 {
      assert (a + b)[1..] == a[1..] + b;
      PathEscapeAppend(a[1..], b);
    } else {
      assert a + b == b;
    }
  }

  /** A string made only of unescaped characters comes out unchanged. */
  lemma {:induction false} PathEscapeIdentity(s: string)
    requires forall i :: 0 <= i < |s| ==> Unescaped(s[i])
    ensures PathEscape(s) == s
  {
    if |s| > 0 {
      PathEscapeIdentity(s[1..]);
    }
  }

  /** The result never contains a separator or a space: it is one path segment. */
  lemma PathEscapeIsOneSegment(s: string)
    ensures '/' !in PathEscape(s) && ' ' !in PathEscape(s)
  {
  }
}
