/**
 * Character classes, substring search, index scans and decimal rendering, as the
 * JavaScript built-ins used by backend/server.js behave on them (`includes`,
 * `toLowerCase`, the regular-expression classes `\d`, `\w`, `\s`, `String(n)`).
 */
module Strings {
  import opened Wrappers

  /** `\d` without the `u` flag: ASCII decimal digits only. */
  predicate IsDigit(c: char) { '0' <= c <= '9' }

  /** `\w` without the `u` flag: ASCII letters, digits and underscore. */
  predicate IsWordChar(c: char) { 'a' <= c <= 'z' || 'A' <= c <= 'Z' || IsDigit(c) || c == '_' }

  /** `\s`: the ECMAScript WhiteSpace and LineTerminator code points. */
  predicate IsSpace(c: char) {
    c == ' ' || c == '\t' || c == '\n' || c == '\r' || c == '\U{000B}' || c == '\U{000C}'
    || c == '\U{00A0}' || c == '\U{1680}' || ('\U{2000}' <= c <= '\U{200A}')
    || c == '\U{2028}' || c == '\U{2029}' || c == '\U{202F}' || c == '\U{205F}'
    || c == '\U{3000}' || c == '\U{FEFF}'
  }

  predicate AllDigits(s: string) { forall i :: 0 <= i < |s| ==> IsDigit(s[i]) }

  /** `p` occurs in `s` at index `i`. */
  predicate OccursAt(s: string, p: string, i: nat) { i + |p| <= |s| && s[i..i + |p|] == p }

  /** `s.includes(p)`, trying the start positions `i`, `i + 1`, ... in turn. */
  predicate ContainsFrom(s: string, p: string, i: nat)
    decreases |s| - i
  {
    i + |p| <= |s| && (s[i..i + |p|] == p || ContainsFrom(s, p, i + 1))
  }

  /** `s.includes(p)`. */
  predicate Contains(s: string, p: string) { ContainsFrom(s, p, 0) }

  lemma {:induction false} ContainsFromIff(s: string, p: string, i: nat)
    ensures ContainsFrom(s, p, i) <==> exists j: nat :: i <= j && OccursAt(s, p, j)
    decreases |s| - i
  {
    if i + |p| <= |s| {
      ContainsFromIff(s, p, i + 1);
      if s[i..i + |p|] == p {
        assert OccursAt(s, p, i);
      }
      if exists j: nat :: i <= j && OccursAt(s, p, j) {
        var j: nat :| i <= j && OccursAt(s, p, j);
        assert j == i || (i + 1 <= j && OccursAt(s, p, j));
      }
    }
  }

  /** The scan agrees with the plain definition of an occurrence. */
  lemma ContainsIff(s: string, p: string)
    ensures Contains(s, p) <==> exists j: nat :: OccursAt(s, p, j)
  {
    ContainsFromIff(s, p, 0);
  }

  /** `s.startsWith(p, i)`. */
  predicate StartsAt(s: string, i: nat, p: string) { OccursAt(s, p, i) }

  /** The first index in `i .. n - 1` that satisfies `P`: a left-to-right scan. */
  function FirstIndex(n: nat, i: nat, P: nat -> bool): (r: Option<nat>)
    decreases n - i
    ensures r.Some? ==> i <= r.value < n && P(r.value) && forall j :: i <= j < r.value ==> !P(j)
    ensures r.None? ==> forall j :: i <= j < n ==> !P(j)
  {
    if i >= n then None else if P(i) then Some(i) else FirstIndex(n, i + 1, P)
  }

  /** The last index below `i` that satisfies `P`: a right-to-left scan. */
  function LastIndex(i: nat, P: nat -> bool): (r: Option<nat>)
    ensures r.Some? ==> r.value < i && P(r.value) && forall j :: r.value < j < i ==> !P(j)
    ensures r.None? ==> forall j: nat :: j < i ==> !P(j)
  {
    if i == 0 then None else if P(i - 1) then Some(i - 1) else LastIndex(i - 1, P)
  }

  /** The end of the run of characters satisfying `C` that starts at `i`. */
  function RunEnd(s: string, i: nat, C: char -> bool): (e: nat)
    requires i <= |s|
    decreases |s| - i
    ensures i <= e <= |s|
    ensures forall k :: i <= k < e ==> C(s[k])
    ensures e == |s| || !C(s[e])
  {
    if i == |s| || !C(s[i]) then i else RunEnd(s, i + 1, C)
  }

  function DigitRunEnd(s: string, i: nat): (e: nat)
    requires i <= |s|
    ensures i <= e <= |s| && AllDigits(s[i..e]) && (e == |s| || !IsDigit(s[e]))
  {
    var e := RunEnd(s, i, IsDigit);
    assert forall k :: 0 <= k < e - i ==> s[i..e][k] == s[i + k];
    e
  }

  function SpaceRunEnd(s: string, i: nat): (e: nat)
    requires i <= |s|
    ensures i <= e <= |s| && (e == |s| || !IsSpace(s[e]))
    ensures forall k :: i <= k < e ==> IsSpace(s[k])
  {
    RunEnd(s, i, IsSpace)
  }

  /**
   * `toLowerCase` on one character, for ASCII, the Latin-1 capitals and the
   * Turkish capitals G-breve, S-cedilla and dotted I (which becomes `i` followed
   * by a combining dot above, as in JavaScript's locale-independent mapping).
   */
  function LowerChar(c: char): string {
    if 'A' <= c <= 'Z' then [(c as int + 32) as char]
    else if '\U{00C0}' <= c <= '\U{00DE}' && c != '\U{00D7}' then [(c as int + 32) as char]
    else if c == '\U{011E}' || c == '\U{015E}' then [(c as int + 1) as char]
    else if c == '\U{0130}' then "i\U{0307}"
    else [c]
  }

  function Lower(s: string): string {
    if s == [] then [] else LowerChar(s[0]) + Lower(s[1..])
  }

  function DigitChar(d: nat): (c: char)
    requires d < 10
    ensures IsDigit(c)
  {
    ('0' as int + d) as char
  }

  /** The value of a string of decimal digits. */
  function DigitsValue(s: string): nat
    requires AllDigits(s)
  {
    if s == [] then 0 else 10 * DigitsValue(s[..|s| - 1]) + (s[|s| - 1] as int - '0' as int)
  }

  /** `String(n)` for a natural number: its decimal digits, without leading zeros. */
  function NatText(n: nat): (r: string)
    ensures |r| >= 1 && AllDigits(r)
    ensures |r| > 1 ==> r[0] != '0'
  {
    if n < 10 then [DigitChar(n)] else NatText(n / 10) + [DigitChar(n % 10)]
  }

  /** Reading back the rendered digits gives the number. */
  lemma {:induction false} NatTextRoundTrip(n: nat)
    ensures DigitsValue(NatText(n)) == n
  {
    if n >= 10 {
      NatTextRoundTrip(n / 10);
      var r := NatText(n);
      assert r[..|r| - 1] == NatText(n / 10);
    }
  }

  /** `String(i)` for an integer. */
  function IntText(i: int): string {
    if i < 0 then "-" + NatText(-i) else NatText(i)
  }

  /** `s.padStart(width, '0')`. */
  function PadZeros(s: string, width: nat): (r: string)
    ensures |r| == if |s| < width then width else |s|
    decreases width - |s|
  {
    if |s| < width then PadZeros("0" + s, width) else s
  }
}
