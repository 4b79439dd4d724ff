/** Character and string primitives with the meaning JavaScript gives them:
    the `\s` class, `toLowerCase` on ASCII, `includes`, `trim` and the decimal
    rendering of integers in template strings. */
module Text {

  datatype Option<+T> = None | Some(value: T)

  /** JavaScript's `\s`: the WhiteSpace and LineTerminator code points. The same
      set is what `String.prototype.trim` strips. */
  predicate IsSpace(c: char) {
    var n := c as int;
    n == 0x20 || 0x09 <= n <= 0x0D || n == 0xA0 || n == 0x1680 || 0x2000 <= n <= 0x200A
    || n == 0x2028 || n == 0x2029 || n == 0x202F || n == 0x205F || n == 0x3000 || n == 0xFEFF
  }

  predicate IsDigit(c: char) { '0' <= c <= '9' }

  predicate IsAsciiLetter(c: char) { 'a' <= c <= 'z' || 'A' <= c <= 'Z' }

  /** `\w`: ASCII letters, digits and underscore. */
  predicate IsWordChar(c: char) { IsAsciiLetter(c) || IsDigit(c) || c == '_' }

  function LowerChar(c: char): char {
    if 'A' <= c <= 'Z' then (c as int + 32) as char else c
  }

  function UpperChar(c: char): char {
    if 'a' <= c <= 'z' then (c as int - 32) as char else c
  }

  /** `toLowerCase`, on the ASCII range. */
  function ToLower(s: string): string {
    seq(|s|, i requires 0 <= i < |s| => LowerChar(s[i]))
  }

  predicate HasNoUpper(s: string) {
    forall i :: 0 <= i < |s| ==> !('A' <= s[i] <= 'Z')
  }

  lemma ToLowerOfLower(s: string)
    requires HasNoUpper(s)
    ensures ToLower(s) == s
  {
  }

  predicate MatchesAt(s: string, t: string, i: nat) {
    i + |t| <= |s| && forall k :: 0 <= k < |t| ==> s[i + k] == t[k]
  }

  /** `s.includes(t)`: `t` occurs in `s` at some index. */
  predicate Contains(s: string, t: string) {
    ContainsFrom(s, t, 0)
  }

  /** `t` occurs in `s` at index `i` or later. */
  predicate ContainsFrom(s: string, t: string, i: nat)
    decreases |s| - i
  {
    i + |t| <= |s| && (MatchesAt(s, t, i) || ContainsFrom(s, t, i + 1))
  }

  lemma {:induction false} ContainsFromIff(s: string, t: string, i: nat)
    ensures ContainsFrom(s, t, i) <==> exists k :: i <= k && MatchesAt(s, t, k)
    decreases |s| - i
  {
    if i + |t| <= |s| {
      ContainsFromIff(s, t, i + 1);
      if !MatchesAt(s, t, i) && exists k :: i <= k && MatchesAt(s, t, k) {
        var k :| i <= k && MatchesAt(s, t, k);
        assert i + 1 <= k;
      }
    }
  }

  /** `includes` holds exactly when there is an occurrence. */
  lemma ContainsIff(s: string, t: string)
    ensures Contains(s, t) <==> exists k: nat :: MatchesAt(s, t, k)
  {
    ContainsFromIff(s, t, 0);
  }

  /** An occurrence at `k` is enough for `includes`. */
  lemma ContainsAt(s: string, t: string, k: nat)
    requires MatchesAt(s, t, k)
    ensures Contains(s, t)
  {
    ContainsIff(s, t);
  }

  /** `s.startsWith(p)`. */
  predicate StartsWith(s: string, p: string) {
    |p| <= |s| && s[..|p|] == p
  }

  predicate AllSpace(s: string) {
    forall i :: 0 <= i < |s| ==> IsSpace(s[i])
  }

  /** `s.trim() !== ""`. */
  predicate IsBlank(s: string) { AllSpace(s) }

  /** The first index at or after `i` that holds no whitespace. */
  function SkipSpaces(s: string, i: nat): (j: nat)
    requires i <= |s|
    ensures i <= j <= |s|
    ensures j < |s| ==> !IsSpace(s[j])
    ensures forall k :: i <= k < j ==> IsSpace(s[k])
    decreases |s| - i
  {
    if i < |s| && IsSpace(s[i]) then SkipSpaces(s, i + 1) else i
  }

  /** The end of `s[lo..hi]` once its trailing whitespace is dropped. */
  function DropTrailingSpaces(s: string, lo: nat, hi: nat): (e: nat)
    requires lo <= hi <= |s|
    ensures lo <= e <= hi
    ensures e > lo ==> !IsSpace(s[e - 1])
    ensures forall k :: e <= k < hi ==> IsSpace(s[k])
    decreases hi
  {
    if hi > lo && IsSpace(s[hi - 1]) then DropTrailingSpaces(s, lo, hi - 1) else hi
  }

  /** `s.trim()`: `s` with its leading and trailing whitespace removed. */
  function Trim(s: string): (r: string)
    ensures r == "" || (!IsSpace(r[0]) && !IsSpace(r[|r| - 1]))
    ensures r == "" <==> AllSpace(s)
    ensures |r| <= |s|
  {
    var a := SkipSpaces(s, 0);
    var b := DropTrailingSpaces(s, a, |s|);
    s[a..b]
  }

  /** What `trim` keeps is a contiguous piece of its input, so it keeps the
      input's characters and their case. */
  lemma TrimIsInfix(s: string)
    ensures exists a, b :: 0 <= a <= b <= |s| && Trim(s) == s[a..b]
                           && AllSpace(s[..a]) && AllSpace(s[b..])
  {
    var a := SkipSpaces(s, 0);
    var b := DropTrailingSpaces(s, a, |s|);
    assert AllSpace(s[..a]) && AllSpace(s[b..]);
    assert Trim(s) == s[a..b];
  }

  lemma TrimOfTrimmed(s: string)
    requires s == "" || (!IsSpace(s[0]) && !IsSpace(s[|s| - 1]))
    ensures Trim(s) == s
  {
    if s != "" {
      assert SkipSpaces(s, 0) == 0;
      assert DropTrailingSpaces(s, 0, |s|) == |s|;
    }
  }

  function DigitChar(d: nat): char
    requires d < 10
  {
    ('0' as int + d) as char
  }

  function DigitValue(c: char): nat
    requires IsDigit(c)
  {
    c as int - '0' as int
  }

  predicate AllDigits(s: string) {
    forall i :: 0 <= i < |s| ==> IsDigit(s[i])
  }

  /** The decimal rendering of a natural number, as `${n}` prints it. */
  function NatToString(n: nat): (r: string)
    ensures |r| > 0 && AllDigits(r)
  {
    if n < 10 then [DigitChar(n)] else NatToString(n / 10) + [DigitChar(n % 10)]
  }

  /** The value of a string of decimal digits, as `parseInt` reads it. */
  function DigitsValue(s: string): nat
    requires AllDigits(s)
  {
    if s == [] then 0 else 10 * DigitsValue(s[..|s| - 1]) + DigitValue(s[|s| - 1])
  }

  lemma {:induction false} DigitsValueOfNatToString(n: nat)
    ensures DigitsValue(NatToString(n)) == n
  {
    var s := NatToString(n);
    if n >= 10 {
      assert s[..|s| - 1] == NatToString(n / 10);
      DigitsValueOfNatToString(n / 10);
    }
  }

  /** The rendering of an integer in a template string. */
  function IntToString(n: int): (r: string)
    ensures |r| > 0
    ensures n >= 0 ==> AllDigits(r)
    ensures n < 0 ==> r[0] == '-' && AllDigits(r[1..])
  {
    if n >= 0 then NatToString(n) else "-" + NatToString(-n)
  }

  /** JavaScript's `a || b` on a possibly missing string: an absent or empty
      value gives the fallback. */
  function OrElse(v: Option<string>, fallback: string): string {
    if v.Some? && v.value != "" then v.value else fallback
  }

  /** A possibly missing string as a template literal renders it. */
  function Rendered(v: Option<string>): string {
    if v.Some? then v.value else "undefined"
  }
}
