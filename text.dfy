/**
 * The JavaScript string operations the pages rely on: `String.prototype.trim`,
 * `String.prototype.toLowerCase`, and the zero-padded decimal numbers that
 * date-fns writes for the `yyyy`, `MM` and `dd` tokens.
 */
module Text {

  /**
   * The characters `trim` strips: ECMAScript's WhiteSpace (tab, vertical tab,
   * form feed, the byte order mark and every Unicode "Zs" space separator) and
   * its LineTerminators (line feed, carriage return, U+2028, U+2029).
   */
  predicate IsWhitespace(c: char) {
    || c == '\t' || c == '\n' || c == '\U{000B}' || c == '\U{000C}' || c == '\r'
    || c == ' ' || c == '\U{00A0}' || c == '\U{1680}'
    || ('\U{2000}' <= c <= '\U{200A}')
    || c == '\U{2028}' || c == '\U{2029}' || c == '\U{202F}' || c == '\U{205F}'
    || c == '\U{3000}' || c == '\U{FEFF}'
  }

  predicate AllWhitespace(s: string) {
    forall i :: 0 <= i < |s| ==> IsWhitespace(s[i])
  }

  /** The number of whitespace characters `s` starts with. */
  function LeadingSpaces(s: string): (n: nat)
    ensures n <= |s|
    ensures forall i :: 0 <= i < n ==> IsWhitespace(s[i])
    ensures n == |s| || !IsWhitespace(s[n])
  {
    if s != [] && IsWhitespace(s[0]) then 1 + LeadingSpaces(s[1..]) else 0
  }

  /** The number of whitespace characters `s` ends with. */
  function TrailingSpaces(s: string): (n: nat)
    ensures n <= |s|
    ensures forall i :: |s| - n <= i < |s| ==> IsWhitespace(s[i])
    ensures n == |s| || !IsWhitespace(s[|s| - n - 1])
  {
    if s != [] && IsWhitespace(s[|s| - 1]) then 1 + TrailingSpaces(s[..|s| - 1]) else 0
  }

  /** `s` without its leading whitespace. */
  function TrimStart(s: string): string {
    s[LeadingSpaces(s)..]
  }

  /** `s` without its trailing whitespace. */
  function TrimEnd(s: string): string {
    s[..|s| - TrailingSpaces(s)]
  }

  /** `s.trim()`: whitespace stripped from both ends. */
  function Trim(s: string): (r: string)
    ensures r == [] || (!IsWhitespace(r[0]) && !IsWhitespace(r[|r| - 1]))
  {
    var t := TrimStart(s);
    var r := TrimEnd(t);
    assert r != [] ==> r[0] == t[0] && r[|r| - 1] == t[|t| - TrailingSpaces(t) - 1];
    r
  }

  /** If `t` is `s` from `k` on and `r` the first `n` characters of `t`, then `r` is a slice of `s`. */
  lemma SliceOfSuffix<T>(s: seq<T>, k: nat, t: seq<T>, n: nat, r: seq<T>)
    requires k <= |s| && t == s[k..] && n <= |t| && r == t[..n]
    ensures |r| == n && k + n <= |s| && r == s[k..k + n]
  {
  }

  /** What `trim` keeps is one slice of the input, starting after the leading whitespace. */
  lemma TrimIsSlice(s: string)
    ensures LeadingSpaces(s) + |Trim(s)| <= |s|
    ensures Trim(s) == s[LeadingSpaces(s)..LeadingSpaces(s) + |Trim(s)|]
  {
    var t := TrimStart(s);
    SliceOfSuffix(s, LeadingSpaces(s), t, |t| - TrailingSpaces(t), Trim(s));
  }

  /** What `trim` removes, on either side of that slice, is whitespace. */
  lemma TrimRemovesWhitespace(s: string)
    ensures forall i :: 0 <= i < LeadingSpaces(s) ==> IsWhitespace(s[i])
    ensures forall i :: LeadingSpaces(s) + |Trim(s)| <= i < |s| ==> IsWhitespace(s[i])
  {
    var k := LeadingSpaces(s);
    var t := TrimStart(s);
    var n := |t| - TrailingSpaces(t);
    assert |Trim(s)| == n;
    forall i | k + n <= i < |s|
      ensures IsWhitespace(s[i])
    {
      assert s[i] == t[i - k];
    }
  }

  /** `trim` yields the empty string exactly when the input is all whitespace. */
  lemma TrimEmptyIff(s: string)
    ensures Trim(s) == [] <==> AllWhitespace(s)
  {
    TrimIsSlice(s);
    TrimRemovesWhitespace(s);
    if Trim(s) != [] {
      assert s[LeadingSpaces(s)] == Trim(s)[0];
    }
  }

  /** Trimming twice is trimming once. */
  lemma TrimIdempotent(s: string)
    ensures Trim(Trim(s)) == Trim(s)
  {
    var r := Trim(s);
    if r != [] {
      assert LeadingSpaces(r) == 0;
      assert TrimStart(r) == r;
      assert TrailingSpaces(r) == 0;
      assert TrimEnd(r) == r;
    }
  }

  /** `toLowerCase` on one character; only the ASCII capitals are modelled. */
  function LowerChar(c: char): char {
    if 'A' <= c <= 'Z' then (c as int + 32) as char else c
  }

  /** `s.toLowerCase()` (ASCII letters only, see LowerChar). */
  function ToLower(s: string): (r: string)
    ensures |r| == |s|
    ensures forall i :: 0 <= i < |s| ==> r[i] == LowerChar(s[i])
  {
    seq(|s|, i requires 0 <= i < |s| => LowerChar(s[i]))
  }

  /** A lower-cased text has no capital letter left. */
  lemma ToLowerHasNoCapitals(s: string)
    ensures forall i :: 0 <= i < |s| ==> !('A' <= ToLower(s)[i] <= 'Z')
  {
    forall i | 0 <= i < |s|
      ensures !('A' <= ToLower(s)[i] <= 'Z')
    {
      if 'A' <= s[i] <= 'Z' {
        assert 'a' <= ToLower(s)[i] <= 'z';
      }
    }
  }

  /** Lower-casing never turns a space into a non-space or back. */
  lemma LowerCharKeepsWhitespace(c: char)
    ensures IsWhitespace(LowerChar(c)) == IsWhitespace(c)
  {
    if 'A' <= c <= 'Z' {
      assert 'a' <= LowerChar(c) <= 'z';
    }
  }

  /** The ends of a lower-cased text are whitespace exactly when the original's are. */
  lemma ToLowerKeepsEnds(s: string)
    ensures s == [] || (IsWhitespace(ToLower(s)[0]) == IsWhitespace(s[0])
                        && IsWhitespace(ToLower(s)[|s| - 1]) == IsWhitespace(s[|s| - 1]))
  {
    if s != [] {
      LowerCharKeepsWhitespace(s[0]);
      LowerCharKeepsWhitespace(s[|s| - 1]);
    }
  }

  /** Lower-casing is idempotent. */
  lemma ToLowerIdempotent(s: string)
    ensures ToLower(ToLower(s)) == ToLower(s)
  {
  }

  /** Lower-casing leaves whitespace where it was, so it commutes with trimming. */
  lemma {:induction false} TrimToLowerCommute(s: string)
    ensures Trim(ToLower(s)) == ToLower(Trim(s))
  {
    TrimStartToLower(s);
    TrimEndToLower(TrimStart(s));
  }

  lemma TrimStartToLower(s: string)
    ensures TrimStart(ToLower(s)) == ToLower(TrimStart(s))
  {
    LeadingSpacesToLower(s);
  }

  lemma TrimEndToLower(s: string)
    ensures TrimEnd(ToLower(s)) == ToLower(TrimEnd(s))
  {
    TrailingSpacesToLower(s);
  }

  /** Lower-casing commutes with cutting the text at `k`. */
  lemma ToLowerSlices(s: string, k: nat)
    requires k <= |s|
    ensures ToLower(s)[..k] == ToLower(s[..k])
    ensures ToLower(s)[k..] == ToLower(s[k..])
  {
  }

  lemma {:induction false} LeadingSpacesToLower(s: string)
    ensures LeadingSpaces(ToLower(s)) == LeadingSpaces(s)
  {
    if s != [] {
      ToLowerSlices(s, 1);
      ToLowerKeepsEnds(s);
      LeadingSpacesToLower(s[1..]);
    }
  }

  lemma {:induction false} TrailingSpacesToLower(s: string)
    ensures TrailingSpaces(ToLower(s)) == TrailingSpaces(s)
  {
    if s != [] {
      ToLowerSlices(s, |s| - 1);
      ToLowerKeepsEnds(s);
      TrailingSpacesToLower(s[..|s| - 1]);
    }
  }

  predicate IsDigit(c: char) {
    '0' <= c <= '9'
  }

  function DigitValue(c: char): nat
    requires IsDigit(c)
  {
    c as int - '0' as int
  }

  function DigitChar(d: nat): (c: char)
    requires d < 10
    ensures IsDigit(c) && c as int - '0' as int == d
  {
    ('0' as int + d) as char
  }

  /** The decimal numeral of `n`, without leading zeros. */
  function Digits(n: nat): (r: string)
    ensures |r| >= 1
    ensures forall i :: 0 <= i < |r| ==> IsDigit(r[i])
  {
    if n < 10 then [DigitChar(n)] else Digits(n / 10) + [DigitChar(n % 10)]
  }

  /** The numeral of `n`, left-padded with zeros to at least `width` characters. */
  function PadNumber(n: nat, width: nat): (r: string)
    ensures |r| == if |Digits(n)| < width then width else |Digits(n)|
    ensures forall i :: 0 <= i < |r| ==> IsDigit(r[i])
  {
    Zeros(PadCount(n, width)) + Digits(n)
  }

  /** How many zeros pad the numeral of `n` to `width`. */
  function PadCount(n: nat, width: nat): nat {
    if |Digits(n)| < width then width - |Digits(n)| else 0
  }

  function Zeros(k: nat): (r: string)
    ensures |r| == k
    ensures forall i :: 0 <= i < k ==> r[i] == '0'
  {
    if k == 0 then [] else Zeros(k - 1) + ['0']
  }

  /** The value of a numeral (the inverse of Digits and PadNumber). */
  function ParseNumber(s: string): nat
    requires forall i :: 0 <= i < |s| ==> IsDigit(s[i])
  {
    if s == [] then 0 else 10 * ParseNumber(s[..|s| - 1]) + DigitValue(s[|s| - 1])
  }

  lemma {:induction false} ParseDigits(n: nat)
    ensures ParseNumber(Digits(n)) == n
  {
    if n >= 10 {
      var d := Digits(n);
      assert d[..|d| - 1] == Digits(n / 10);
      ParseDigits(n / 10);
    }
  }

  lemma {:induction false} ParseZerosPrefix(k: nat, s: string)
    requires forall i :: 0 <= i < |s| ==> IsDigit(s[i])
    ensures ParseNumber(Zeros(k) + s) == ParseNumber(s)
  {
    if s == [] {
      assert Zeros(k) + s == Zeros(k);
      ParseZeros(k);
    } else {
      var t := Zeros(k) + s;
      assert t[..|t| - 1] == Zeros(k) + s[..|s| - 1];
      ParseZerosPrefix(k, s[..|s| - 1]);
    }
  }

  lemma {:induction false} ParseZeros(k: nat)
    ensures ParseNumber(Zeros(k)) == 0
  {
    if k > 0 {
      assert Zeros(k)[..k - 1] == Zeros(k - 1);
      ParseZeros(k - 1);
    }
  }

  /** Padding with zeros does not change the value a numeral reads back as. */
  lemma PadNumberRoundTrip(n: nat, width: nat)
    ensures ParseNumber(PadNumber(n, width)) == n
  {
    ParseZerosPrefix(PadCount(n, width), Digits(n));
    ParseDigits(n);
  }

  function Power10(k: nat): (p: nat)
    ensures p >= 1
  {
    if k == 0 then 1 else 10 * Power10(k - 1)
  }

  /** A number below 10^k has at most k digits, so padding it to width k gives exactly k characters. */
  lemma {:induction false} PadNumberWidth(n: nat, k: nat)
    requires 1 <= k && n < Power10(k)
    ensures |PadNumber(n, k)| == k
  {
    DigitsBound(n, k);
  }

  lemma {:induction false} DigitsBound(n: nat, k: nat)
    requires 1 <= k && n < Power10(k)
    ensures |Digits(n)| <= k
  {
    if n >= 10 {
      assert Power10(1) == 10;
      assert n / 10 < Power10(k - 1);
      DigitsBound(n / 10, k - 1);
    }
  }
}
