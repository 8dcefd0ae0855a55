/** String helpers the components rely on: `String.prototype.trim`, decimal
    rendering of a whole number, ASCII case mapping and `replace` of the first
    occurrence of a one-character pattern. */
module Text {

  /** The characters ECMAScript's `trim` removes: WhiteSpace and LineTerminator
      code points (tab, LF, VT, FF, CR, space, NBSP, the Zs category, LS, PS, BOM). */
  predicate IsWhitespace(c: char) {
    c == '\t' || c == '\n' || c == '\U{000B}' || c == '\U{000C}' || c == '\r'
    || c == ' ' || c == '\U{00A0}' || c == '\U{1680}'
    || ('\U{2000}' <= c <= '\U{200A}')
    || c == '\U{2028}' || c == '\U{2029}' || c == '\U{202F}' || c == '\U{205F}'
    || c == '\U{3000}' || c == '\U{FEFF}'
  }

  predicate AllWhitespace(s: string) {
    forall i :: 0 <= i < |s| ==> IsWhitespace(s[i])
  }

  /** Length of the white-space prefix of `s`. */
  function LeadingSpace(s: string): (n: nat)
    ensures n <= |s|
    ensures AllWhitespace(s[..n])
    ensures n < |s| ==> !IsWhitespace(s[n])
  {
    if s == [] || !IsWhitespace(s[0]) then 0
    else
      var k := LeadingSpace(s[1..]);
      assert s[..k + 1] == [s[0]] + s[1..][..k];
      1 + k
  }

  /** Length of the white-space suffix of `s`. */
  function TrailingSpace(s: string): (n: nat)
    ensures n <= |s|
    ensures AllWhitespace(s[|s| - n..])
    ensures n < |s| ==> !IsWhitespace(s[|s| - 1 - n])
  {
    if s == [] || !IsWhitespace(s[|s| - 1]) then 0
    else
      var init := s[..|s| - 1];
      var k := TrailingSpace(init);
      assert s[|s| - (k + 1)..] == init[|init| - k..] + [s[|s| - 1]];
      1 + k
  }

  /** `s[i..j]` is what is left of `s` once white space is removed from both
      ends: only white space lies before and after it, and it neither starts
      nor ends with white space. */
  predicate TrimsTo(s: string, i: int, j: int) {
    0 <= i <= j <= |s|
    && AllWhitespace(s[..i]) && AllWhitespace(s[j..])
    && (i == j || (!IsWhitespace(s[i]) && !IsWhitespace(s[j - 1])))
  }

  /** The reference definition `Trim` is proved against. */
  ghost predicate TrimmedFrom(r: string, s: string) {
    exists i, j :: TrimsTo(s, i, j) && r == s[i..j]
  }

  /** `String.prototype.trim`. */
  function Trim(s: string): (r: string)
    ensures |r| <= |s|
    ensures r == [] <==> AllWhitespace(s)
    ensures r != [] ==> !IsWhitespace(r[0]) && !IsWhitespace(r[|r| - 1])
  {
    var t := s[LeadingSpace(s)..];
    t[..|t| - TrailingSpace(t)]
  }

  /** `Trim` meets the reference definition. */
  lemma TrimIsTrimmed(s: string)
    ensures TrimmedFrom(Trim(s), s)
  {
    var i := LeadingSpace(s);
    var t := s[i..];
    var k := TrailingSpace(t);
    var r := Trim(s);
    assert r == s[i..i + |r|];
    assert s[i + |r|..] == t[|t| - k..];
    assert TrimsTo(s, i, i + |r|);
  }

  /** The truthiness test `!s.trim()` of the forms: nothing but white space. */
  predicate Blank(s: string) {
    Trim(s) == []
  }

  /** A white-space prefix followed by a non-white-space character is the
      whole of the leading white space. */
  lemma LeadingSpaceAt(s: string, i: nat)
    requires i < |s| && !IsWhitespace(s[i])
    requires forall m :: 0 <= m < i ==> IsWhitespace(s[m])
    ensures LeadingSpace(s) == i
  {
    var n := LeadingSpace(s);
    assert forall m :: 0 <= m < n ==> s[..n][m] == s[m];
  }

  /** A white-space suffix preceded by a non-white-space character is the
      whole of the trailing white space. */
  lemma TrailingSpaceAt(s: string, e: nat)
    requires e < |s| && !IsWhitespace(s[|s| - 1 - e])
    requires forall m :: |s| - e <= m < |s| ==> IsWhitespace(s[m])
    ensures TrailingSpace(s) == e
  {
    var n := TrailingSpace(s);
    assert forall m :: |s| - n <= m < |s| ==> s[|s| - n..][m - (|s| - n)] == s[m];
  }

  /** An all-white-space string trims to nothing. */
  lemma TrimBlankAt(s: string, i: int)
    requires TrimsTo(s, i, i)
    ensures Trim(s) == []
  {
    assert forall m :: 0 <= m < i ==> s[..i][m] == s[m];
    assert forall m :: i <= m < |s| ==> s[i..][m - i] == s[m];
    assert AllWhitespace(s);
  }

  /** Any slice that meets the definition is the one `Trim` computes. */
  lemma TrimAt(s: string, i: int, j: int)
    requires TrimsTo(s, i, j) && i < j
    ensures Trim(s) == s[i..j]
  {
    assert forall m :: 0 <= m < i ==> s[..i][m] == s[m];
    LeadingSpaceAt(s, i);
    var t := s[i..];
    var e := |s| - j;
    assert forall m :: |t| - e <= m < |t| ==> t[m] == s[j..][m + i - j];
    TrailingSpaceAt(t, e);
    assert s[i..][..j - i] == s[i..j];
  }

  /** Text that neither starts nor ends with white space is left as it is,
      and so is not blank unless it is empty. */
  lemma TrimKeeps(s: string)
    requires s != [] ==> !IsWhitespace(s[0]) && !IsWhitespace(s[|s| - 1])
    ensures Trim(s) == s
    ensures Blank(s) <==> s == []
  {
    if s != [] {
      assert s[..0] == [] && s[|s|..] == [] && s[0..|s|] == s;
      TrimAt(s, 0, |s|);
    }
  }

  /** The characterisation of `Trim` by `TrimmedFrom` is exact: no other string
      is a trimming of `s`. */
  lemma TrimUnique(r: string, s: string)
    requires TrimmedFrom(r, s)
    ensures r == Trim(s)
  {
    var i, j :| TrimsTo(s, i, j) && r == s[i..j];
    if i == j {
      TrimBlankAt(s, i);
    } else {
      TrimAt(s, i, j);
    }
  }

  /** Trimming twice is trimming once. */
  lemma TrimIdempotent(s: string)
    ensures Trim(Trim(s)) == Trim(s)
  {
    var r := Trim(s);
    assert TrimmedFrom(r, r) by {
      assert r == r[0..|r|] && r[..0] == [] && r[|r|..] == [];
      assert TrimsTo(r, 0, |r|);
    }
    TrimUnique(r, r);
  }

  predicate IsDigit(c: char) {
    '0' <= c <= '9'
  }

  predicate AllDigits(s: string) {
    forall i :: 0 <= i < |s| ==> IsDigit(s[i])
  }

  function DigitChar(d: nat): (c: char)
    requires d < 10
    ensures IsDigit(c) && c as int - '0' as int == d
  {
    ('0' as int + d) as char
  }

  /** Decimal rendering of a whole number, as JavaScript's `${n}` writes one. */
  function NatToString(n: nat): (r: string)
    ensures |r| >= 1 && AllDigits(r)
    ensures r[0] == '0' ==> n == 0
    decreases n
  {
    if n < 10 then [DigitChar(n)] else NatToString(n / 10) + [DigitChar(n % 10)]
  }

  /** The number a string of decimal digits denotes. */
  function DigitsValue(s: string): nat
    requires AllDigits(s)
  {
    if s == [] then 0
    else 10 * DigitsValue(s[..|s| - 1]) + (s[|s| - 1] as int - '0' as int)
  }

  /** Reading back the rendered digits gives the number again. */
  lemma {:induction false} NatToStringRoundTrip(n: nat)
    ensures DigitsValue(NatToString(n)) == n
    decreases n
  {
    if n >= 10 {
      var r := NatToString(n);
      assert r[..|r| - 1] == NatToString(n / 10);
      NatToStringRoundTrip(n / 10);
    }
  }

  function UpperChar(c: char): char {
    if 'a' <= c <= 'z' then (c as int - 32) as char else c
  }

  function LowerChar(c: char): char {
    if 'A' <= c <= 'Z' then (c as int + 32) as char else c
  }

  /** `s.charAt(0).toUpperCase() + s.slice(1)`; the empty string stays empty. */
  function Capitalize(s: string): (r: string)
    ensures |r| == |s|
    ensures s != [] ==> r[0] == UpperChar(s[0]) && r[1..] == s[1..]
  {
    if s == [] then [] else [UpperChar(s[0])] + s[1..]
  }

  /** `s.toLowerCase()` over ASCII letters. */
  function ToLower(s: string): (r: string)
    ensures |r| == |s|
    ensures forall i :: 0 <= i < |s| ==> r[i] == LowerChar(s[i])
  {
    if s == [] then [] else [LowerChar(s[0])] + ToLower(s[1..])
  }

  /** Position of the first `c` in `s`, or `|s|` when there is none. */
  function IndexOf(s: string, c: char): (k: nat)
    ensures k <= |s|
    ensures k < |s| ==> s[k] == c
    ensures forall m :: 0 <= m < k ==> s[m] != c
  {
    if s == [] then 0
    else if s[0] == c then 0
    else 1 + IndexOf(s[1..], c)
  }

  /** `s.replace(from, to)` with a one-character string pattern: only the first
      occurrence is replaced. */
  function ReplaceFirst(s: string, from: char, to: char): (r: string)
    ensures |r| == |s|
    ensures forall m :: 0 <= m < |s| ==>
      r[m] == (if m == IndexOf(s, from) then to else s[m])
  {
    var k := IndexOf(s, from);
    if k == |s| then s else s[..k] + [to] + s[k + 1..]
  }
}
