/**
 * Value types and text helpers shared by the backend and frontend models:
 * optional values, ASCII case mapping, hexadecimal digests, decimal
 * rendering of integers, joining and substring search.
 */
module Common {

  datatype Option<+T> = None | Some(value: T) {
    /** Python's `d.get(key, default)` once the lookup has produced this option. */
    function GetOr(default: T): T {
      match this
      case Some(v) => v
      case None => default
    }
  }

  function Min(a: int, b: int): int {
    if a <= b then a else b
  }

  // ---------------------------------------------------------------------
  // ASCII case mapping (str.upper / str.lower / toUpperCase on ASCII text)
  // ---------------------------------------------------------------------

  function UpperChar(c: char): (u: char)
    ensures 'a' <= c <= 'z' ==> 'A' <= u <= 'Z' && u as int == c as int - 32
    ensures !('a' <= c <= 'z') ==> u == c
  {
    if 'a' <= c <= 'z' then (c as int - 32) as char else c
  }

  function LowerChar(c: char): (l: char)
    ensures 'A' <= c <= 'Z' ==> 'a' <= l <= 'z' && l as int == c as int + 32
    ensures !('A' <= c <= 'Z') ==> l == c
  {
    if 'A' <= c <= 'Z' then (c as int + 32) as char else c
  }

  function Upper(s: string): (u: string)
    ensures |u| == |s|
    ensures forall i :: 0 <= i < |s| ==> u[i] == UpperChar(s[i])
  {
    seq(|s|, i requires 0 <= i < |s| => UpperChar(s[i]))
  }

  function Lower(s: string): (l: string)
    ensures |l| == |s|
    ensures forall i :: 0 <= i < |s| ==> l[i] == LowerChar(s[i])
  {
    seq(|s|, i requires 0 <= i < |s| => LowerChar(s[i]))
  }

  // ---------------------------------------------------------------------
  // Hexadecimal digests
  // ---------------------------------------------------------------------

  predicate IsLowerHexChar(c: char) {
    '0' <= c <= '9' || 'a' <= c <= 'f'
  }

  predicate IsUpperHexChar(c: char) {
    '0' <= c <= '9' || 'A' <= c <= 'F'
  }

  predicate IsLowerHex(s: string) {
    forall i :: 0 <= i < |s| ==> IsLowerHexChar(s[i])
  }

  predicate IsUpperHex(s: string) {
    forall i :: 0 <= i < |s| ==> IsUpperHexChar(s[i])
  }

  /** What `hashlib.sha256(...).hexdigest()` returns: 64 lower-case hex digits. */
  type HexDigest = s: string | |s| == 64 && IsLowerHex(s)
    witness seq(64, i => '0')

  /** The SHA-256 hex digest of a text, a foreign function: any such function will do. */
  type Sha256 = string -> HexDigest

  /** Upper-casing lower-case hex gives upper-case hex, and lower-casing undoes it. */
  lemma UpperHexRoundTrip(s: string)
    requires IsLowerHex(s)
    ensures IsUpperHex(Upper(s))
    ensures Lower(Upper(s)) == s
  {
    forall i | 0 <= i < |s|
      ensures IsUpperHexChar(Upper(s)[i]) && Lower(Upper(s))[i] == s[i]
    {
      assert IsLowerHexChar(s[i]);
    }
  }

  // ---------------------------------------------------------------------
  // Decimal rendering (Python str(int), JavaScript template literals)
  // ---------------------------------------------------------------------

  predicate IsDigit(c: char) {
    '0' <= c <= '9'
  }

  function DigitChar(d: int): (c: char)
    requires 0 <= d < 10
    ensures IsDigit(c) && c as int - '0' as int == d
  {
    (d + '0' as int) as char
  }

  /** The decimal numeral of n, most significant digit first, without leading zeros. */
  function NatToString(n: nat): (s: string)
    ensures 1 <= |s|
    ensures forall i :: 0 <= i < |s| ==> IsDigit(s[i])
    ensures |s| > 1 ==> s[0] != '0'
    decreases n
  {
    if n < 10 then [DigitChar(n)] else NatToString(n / 10) + [DigitChar(n % 10)]
  }

  function IntToString(i: int): string {
    if i < 0 then "-" + NatToString(-i) else NatToString(i)
  }

  /** The value of a numeral: the inverse of NatToString. */
  function DecimalValue(s: string): int
    decreases |s|
  {
    if s == [] then 0 else 10 * DecimalValue(s[..|s| - 1]) + (s[|s| - 1] as int - '0' as int)
  }

  lemma {:induction false} DecimalRoundTrip(n: nat)
    ensures DecimalValue(NatToString(n)) == n
    decreases n
  {
    if n >= 10 {
      var s := NatToString(n);
      assert s[..|s| - 1] == NatToString(n / 10);
      DecimalRoundTrip(n / 10);
    }
  }

  /** Distinct numbers are rendered as distinct numerals. */
  lemma NatToStringInjective(m: nat, n: nat)
    requires NatToString(m) == NatToString(n)
    ensures m == n
  {
    DecimalRoundTrip(m);
    DecimalRoundTrip(n);
  }

  // ---------------------------------------------------------------------
  // Joining and searching text
  // ---------------------------------------------------------------------

  /** `sep.join(parts)`. */
  function Join(parts: seq<string>, sep: string): string
    decreases |parts|
  {
    if |parts| == 0 then ""
    else if |parts| == 1 then parts[0]
    else parts[0] + sep + Join(parts[1..], sep)
  }

  /** A join of parts whose first part starts with c also starts with c. */
  lemma JoinStartsWith(parts: seq<string>, sep: string, c: char)
    requires |parts| > 0 && |parts[0]| > 0 && parts[0][0] == c
    ensures |Join(parts, sep)| > 0 && Join(parts, sep)[0] == c
  {
  }

  /** Python's `w in s` on strings: w occurs as a contiguous piece of s. */
  predicate ContainsText(s: string, w: string)
    decreases |s|
  {
    w <= s || (|s| > 0 && ContainsText(s[1..], w))
  }

  /** Nothing non-empty occurs in the empty text. */
  lemma EmptyContainsOnlyEmpty(w: string)
    requires w != []
    ensures !ContainsText("", w)
  {
  }
}
