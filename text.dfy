/**
 * The handful of Go standard-library string and path helpers the client
 * relies on (strings.HasPrefix, TrimLeft, TrimPrefix, TrimSuffix, LastIndex,
 * filepath.Join, filepath.Dir, fmt's %d), written out for '/' as the path
 * separator, plus a decimal parser used to state round trips.
 */
module Text {
  import opened Wrappers

  predicate HasPrefix(s: string, p: string) {
    |p| <= |s| && s[..|p|] == p
  }

  predicate HasSuffix(s: string, p: string) {
    |p| <= |s| && s[|s| - |p|..] == p
  }

  lemma PrefixRest(p: string, rest: string)
    ensures HasPrefix(p + rest, p) && (p + rest)[|p|..] == rest
  {
    assert (p + rest)[..|p|] == p;
  }

  /** strings.TrimLeft(s, c): drops every leading c. */
  function TrimLeftChar(s: string, c: char): (r: string)
    ensures |r| <= |s| && r == s[|s| - |r|..]
    ensures r == [] || r[0] != c
    ensures forall i :: 0 <= i < |s| - |r| ==> s[i] == c
    decreases |s|
  {
    if |s| > 0 && s[0] == c then TrimLeftChar(s[1..], c) else s
  }

  lemma TrimLeftCharNothingToTrim(s: string, c: char)
    requires s == [] || s[0] != c
    ensures TrimLeftChar(s, c) == s
  {
  }

  lemma TrimLeftCharOneMore(s: string, c: char)
    ensures TrimLeftChar([c] + s, c) == TrimLeftChar(s, c)
  {
    assert ([c] + s)[1..] == s;
  }

  /** strings.TrimPrefix(s, p): drops one leading p, if present. */
  function TrimPrefix(s: string, p: string): (r: string)
    ensures HasPrefix(s, p) ==> s == p + r
    ensures !HasPrefix(s, p) ==> r == s
  {
    if HasPrefix(s, p) then s[|p|..] else s
  }

  /** strings.TrimSuffix(s, p): drops one trailing p, if present. */
  function TrimSuffix(s: string, p: string): (r: string)
    ensures HasSuffix(s, p) ==> s == r + p
    ensures !HasSuffix(s, p) ==> r == s
  {
    if HasSuffix(s, p) then s[..|s| - |p|] else s
  }

  /** strings.LastIndex(s, string(c)): -1 when c does not occur. */
  function LastIndexOf(s: string, c: char): (r: int)
    ensures -1 <= r < |s|
    ensures r >= 0 ==> s[r] == c
    ensures forall i :: r < i < |s| ==> s[i] != c
  {
    if |s| == 0 then -1
    else if s[|s| - 1] == c then |s| - 1
    else LastIndexOf(s[..|s| - 1], c)
  }

  /**
   * filepath.Join(dir, name) for a clean, relative name: the two parts with
   * exactly the one separator between them that dir does not already end with.
   */
  function JoinPath(dir: string, name: string): (r: string)
    ensures dir == "" ==> r == name
    ensures dir != "" && name != "" ==> HasPrefix(r, dir) && HasSuffix(r, name)
  {
    if dir == "" then name
    else if name == "" then dir
    else if HasSuffix(dir, "/") then dir + name
    else dir + "/" + name
  }

  /** filepath.Dir(p): everything before the last separator ("." if none, "/" at the root). */
  function Dir(p: string): (r: string)
    ensures r != ""
    ensures r != "." && r != "/" ==> HasPrefix(p, r) && |r| < |p| && p[|r|] == '/'
  {
    var i := LastIndexOf(p, '/');
    if i < 0 then "." else if i == 0 then "/" else p[..i]
  }

  // ---- decimal rendering (fmt's %d on a non-negative integer) ----

  predicate IsDigit(c: char) {
    '0' <= c <= '9'
  }

  predicate AllDigits(s: string) {
    forall i :: 0 <= i < |s| ==> IsDigit(s[i])
  }

  function DigitChar(d: nat): (c: char)
    requires d < 10
    ensures IsDigit(c) && c as int - '0' as int == d
  {
    (d + '0' as int) as char
  }

  function Dec(n: nat): (r: string)
    ensures |r| >= 1 && AllDigits(r)
  {
    if n < 10 then [DigitChar(n)] else Dec(n / 10) + [DigitChar(n % 10)]
  }

  function DigitsValue(s: string): nat
    requires AllDigits(s)
  {
    if |s| == 0 then 0
    else DigitsValue(s[..|s| - 1]) * 10 + (s[|s| - 1] as int - '0' as int)
  }

  /** The number a non-empty run of decimal digits denotes. */
  function ParseDec(s: string): Option<nat> {
    if |s| > 0 && AllDigits(s) then Some(DigitsValue(s)) else None
  }

  lemma {:induction false} DigitsValueOfDec(n: nat)
    ensures DigitsValue(Dec(n)) == n
  {
    if n >= 10 {
      var d := Dec(n / 10);
      assert (d + [DigitChar(n % 10)])[..|d|] == d;
      DigitsValueOfDec(n / 10);
    }
  }

  /** Rendering a count in decimal and reading it back gives the count. */
  lemma ParseDecOfDec(n: nat)
    ensures ParseDec(Dec(n)) == Some(n)
  {
    DigitsValueOfDec(n);
  }

  /** Index of the first c in s, or |s| when there is none. */
  function IndexOf(s: string, c: char): (r: nat)
    ensures r <= |s|
    ensures r < |s| ==> s[r] == c
    ensures forall i :: 0 <= i < r ==> s[i] != c
  {
    if |s| == 0 then 0 else if s[0] == c then 0 else 1 + IndexOf(s[1..], c)
  }

  lemma IndexOfAfterDigits(d: string, c: char, rest: string)
    requires AllDigits(d) && !IsDigit(c)
    ensures IndexOf(d + [c] + rest, c) == |d|
  {
    var s := d + [c] + rest;
    assert s[|d|] == c;
    assert forall i :: 0 <= i < |d| ==> s[i] == d[i];
  }

  /** Splits s at its first c into the part before and the part after; None when c does not occur. */
  function SplitAt(s: string, c: char): Option<(string, string)> {
    var i := IndexOf(s, c);
    if i == |s| then None else Some((s[..i], s[i + 1..]))
  }

  lemma SplitAtAfterDigits(d: string, c: char, rest: string)
    requires AllDigits(d) && !IsDigit(c)
    ensures SplitAt(d + [c] + rest, c) == Some((d, rest))
  {
    var s := d + [c] + rest;
    IndexOfAfterDigits(d, c, rest);
    assert s[..|d|] == d;
    assert s[|d| + 1..] == rest;
  }
}
