/**
 * String predicates shared by the USSD engine and the HTTP routes: JavaScript's notion of
 * white space (what `trim()` removes and `\s` matches), the Nigerian mobile-number pattern
 * `^(\+234|234|0)?[789][01]\d{8}$`, the PIN and date shapes, the UTF-16 length Zod measures
 * with `min(n)`, and decimal printing of list indices.
 */
module Text {

  /** JavaScript WhiteSpace and LineTerminator code points. */
  predicate IsSpace(c: char) {
    c == '\t' || c == '\n' || c == '\U{B}' || c == '\U{C}' || c == '\r' || c == ' '
    || c == '\U{A0}' || c == '\U{1680}' || ('\U{2000}' <= c <= '\U{200A}')
    || c == '\U{2028}' || c == '\U{2029}' || c == '\U{202F}' || c == '\U{205F}'
    || c == '\U{3000}' || c == '\U{FEFF}'
  }

  predicate IsDigit(c: char) {
    '0' <= c <= '9'
  }

  predicate AllDigits(s: string) {
    forall i :: 0 <= i < |s| ==> IsDigit(s[i])
  }

  /** Drops leading white space: the result is a suffix, and everything dropped was white space. */
  function TrimStart(s: string): (r: string)
    ensures |r| <= |s| && r == s[|s| - |r|..]
    ensures r == [] || !IsSpace(r[0])
    ensures forall i :: 0 <= i < |s| - |r| ==> IsSpace(s[i])
  {
    if |s| > 0 && IsSpace(s[0]) then TrimStart(s[1..]) else s
  }

  /** Drops trailing white space: the result is a prefix, and everything dropped was white space. */
  function TrimEnd(s: string): (r: string)
    ensures |r| <= |s| && r == s[..|r|]
    ensures r == [] || !IsSpace(r[|r| - 1])
    ensures forall i :: |r| <= i < |s| ==> IsSpace(s[i])
  {
    if |s| > 0 && IsSpace(s[|s| - 1]) then TrimEnd(s[..|s| - 1]) else s
  }

  /** `String.prototype.trim`: the middle of the input, with only white space cut off on either side. */
  function Trim(s: string): (r: string)
    ensures |r| <= |s|
    ensures r == [] || (!IsSpace(r[0]) && !IsSpace(r[|r| - 1]))
    ensures exists a, b :: 0 <= a <= b <= |s| && r == s[a..b]
                           && (forall i :: 0 <= i < a ==> IsSpace(s[i]))
                           && (forall i :: b <= i < |s| ==> IsSpace(s[i]))
  {
    var t := TrimStart(s);
    var r := TrimEnd(t);
    PrefixOfSuffix(s, t, r, |s| - |t|);
    r
  }

  /** A prefix r of the suffix t = s[a..], followed in t only by white space, is the slice s[a..a + |r|],
      followed in s only by white space. */
  lemma PrefixOfSuffix(s: string, t: string, r: string, a: nat)
    requires a <= |s| && t == s[a..] && |r| <= |t| && r == t[..|r|]
    requires forall i :: |r| <= i < |t| ==> IsSpace(t[i])
    ensures r == s[a..a + |r|]
    ensures forall i :: a + |r| <= i < |s| ==> IsSpace(s[i])
  {
    forall i | a + |r| <= i < |s|
      ensures IsSpace(s[i])
    {
      assert s[i] == t[i - a];
    }
  }

  /** A string that neither starts nor ends with white space is its own trim. */
  lemma TrimKeepsUnpadded(s: string)
    requires s == [] || (!IsSpace(s[0]) && !IsSpace(s[|s| - 1]))
    ensures Trim(s) == s
  {
    assert TrimStart(s) == s;
  }

  /** `s.replace(/\s+/g, '')`: every white-space character removed, the rest kept in order. */
  function RemoveSpaces(s: string): (r: string)
    ensures |r| <= |s|
    ensures forall i :: 0 <= i < |r| ==> !IsSpace(r[i])
    ensures |s| == 1 ==> r == if IsSpace(s[0]) then [] else s
  {
    if s == [] then []
    else if IsSpace(s[0]) then RemoveSpaces(s[1..])
    else [s[0]] + RemoveSpaces(s[1..])
  }

  /** Removal works on each part of a split string on its own, so the kept characters stay in order. */
  lemma {:induction false} RemoveSpacesConcat(a: string, b: string)
    ensures RemoveSpaces(a + b) == RemoveSpaces(a) + RemoveSpaces(b)
  {
    if a == [] {
      assert a + b == b;
    } else {
      assert (a + b)[0] == a[0];
      assert (a + b)[1..] == a[1..] + b;
      RemoveSpacesConcat(a[1..], b);
    }
  }

  /** A string with no white space is left as it is by RemoveSpaces. */
  lemma {:induction false} RemoveSpacesKeepsSpaceFree(s: string)
    requires forall i :: 0 <= i < |s| ==> !IsSpace(s[i])
    ensures RemoveSpaces(s) == s
  {
    if s != [] {
      RemoveSpacesKeepsSpaceFree(s[1..]);
    }
  }

  /** `[789][01]\d{8}`: the ten-character subscriber part of a Nigerian mobile number. */
  predicate IsMobileCore(s: string) {
    |s| == 10 && (s[0] == '7' || s[0] == '8' || s[0] == '9') && (s[1] == '0' || s[1] == '1')
    && AllDigits(s[2..])
  }

  /** `^(\+234|234|0)?[789][01]\d{8}$`. */
  predicate MatchesNigerianPhone(s: string) {
    IsMobileCore(s)
    || (|s| >= 1 && s[..1] == "0" && IsMobileCore(s[1..]))
    || (|s| >= 3 && s[..3] == "234" && IsMobileCore(s[3..]))
    || (|s| >= 4 && s[..4] == "+234" && IsMobileCore(s[4..]))
  }

  /** An accepted number has 10, 11, 13 or 14 characters and ends in the subscriber part. */
  lemma PhoneShape(s: string)
    requires MatchesNigerianPhone(s)
    ensures |s| == 10 || |s| == 11 || |s| == 13 || |s| == 14
    ensures IsMobileCore(s[|s| - 10..])
  {
  }

  /** The only non-digit an accepted number can hold is a leading '+'. */
  lemma PhoneDigits(s: string)
    requires MatchesNigerianPhone(s)
    ensures forall i :: 0 < i < |s| ==> IsDigit(s[i])
    ensures |s| > 0 && (IsDigit(s[0]) || s[0] == '+')
  {
    var k := |s| - 10;
    assert IsMobileCore(s[k..]);
    forall i | 0 < i < |s| ensures IsDigit(s[i]) {
      if i >= k + 2 {
        assert s[i] == s[k..][2..][i - k - 2];
      } else if i >= k {
        assert s[i] == s[k..][i - k];
      }
    }
  }

  /** `^\d{6}$`. */
  predicate IsSixDigitPin(s: string) {
    |s| == 6 && AllDigits(s)
  }

  /** `^\d{4}-\d{2}-\d{2}$`: the shape of a date only; no calendar check. */
  predicate MatchesDateShape(s: string) {
    |s| == 10 && AllDigits(s[..4]) && s[4] == '-' && AllDigits(s[5..7]) && s[7] == '-'
    && AllDigits(s[8..])
  }

  /** JavaScript's `length`: characters outside the Basic Multilingual Plane count twice. */
  function Utf16Length(s: string): (n: nat)
    ensures |s| <= n <= 2 * |s|
  {
    if s == [] then 0 else (if s[0] as int > 0xFFFF then 2 else 1) + Utf16Length(s[1..])
  }

  function DigitChar(d: nat): (c: char)
    requires d < 10
    ensures IsDigit(c)
  {
    ['0', '1', '2', '3', '4', '5', '6', '7', '8', '9'][d]
  }

  /** Decimal notation of a natural number, as `${n}` prints it. */
  function NatToString(n: nat): (r: string)
    ensures |r| >= 1 && AllDigits(r)
    ensures n < 10 <==> |r| == 1
  {
    if n < 10 then [DigitChar(n)] else NatToString(n / 10) + [DigitChar(n % 10)]
  }
}
