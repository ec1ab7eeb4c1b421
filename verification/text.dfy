/** Python string behaviour the backend relies on: `str.strip`, `str.split()`,
    `str.lower` (ASCII letters only), `startswith`/`endswith`/`in`, `int()` on a
    decimal string and `str()` of an integer. */
module Text {
  import opened Wrappers

  /** The non-ASCII characters Python's `str.isspace` accepts. */
  const WideSpaces: seq<char> := [
    '\U{85}', '\U{A0}', '\U{1680}',
    '\U{2000}', '\U{2001}', '\U{2002}', '\U{2003}', '\U{2004}', '\U{2005}',
    '\U{2006}', '\U{2007}', '\U{2008}', '\U{2009}', '\U{200A}',
    '\U{2028}', '\U{2029}', '\U{202F}', '\U{205F}', '\U{3000}'
  ]

  /** `c` is one of `WideSpaces[i..]`. */
  predicate IsWideSpace(c: char, i: nat)
    decreases |WideSpaces| - i
  {
    i < |WideSpaces| && (c == WideSpaces[i] || IsWideSpace(c, i + 1))
  }

  /** Python's `str.isspace` on one character: tab to carriage return, the four
      information separators, space, and the Unicode spaces above. */
  predicate IsSpace(c: char)
  {
    if c <= ' ' then '\t' <= c <= '\r' || '\U{1C}' <= c
    else '\U{85}' <= c && IsWideSpace(c, 0)
  }

  predicate NoSpace(s: string)
  {
    forall i :: 0 <= i < |s| ==> !IsSpace(s[i])
  }

  /** The index of the first non-whitespace character of `s` at or after `i`. */
  function SkipSpaces(s: string, i: nat): (j: nat)
    requires i <= |s|
    ensures i <= j <= |s|
    decreases |s| - i
  {
    if i < |s| && IsSpace(s[i]) then SkipSpaces(s, i + 1) else i
  }

  lemma {:induction false} SkipSpacesStops(s: string, i: nat)
    requires i <= |s|
    ensures SkipSpaces(s, i) == |s| || !IsSpace(s[SkipSpaces(s, i)])
    decreases |s| - i
  {
    if i < |s| && IsSpace(s[i]) { SkipSpacesStops(s, i + 1); }
  }

  /** The end of `s[lo..j]` once trailing whitespace is dropped. */
  function TrimEnd(s: string, lo: nat, j: nat): (k: nat)
    requires lo <= j <= |s|
    ensures lo <= k <= j
  {
    if j > lo && IsSpace(s[j - 1]) then TrimEnd(s, lo, j - 1) else j
  }

  lemma {:induction false} TrimEndStops(s: string, lo: nat, j: nat)
    requires lo <= j <= |s|
    ensures TrimEnd(s, lo, j) == lo || !IsSpace(s[TrimEnd(s, lo, j) - 1])
  {
    if j > lo && IsSpace(s[j - 1]) { TrimEndStops(s, lo, j - 1); }
  }

  /** `s.lstrip()`. */
  function LStrip(s: string): (r: string)
    ensures |r| <= |s|
    ensures r == [] || !IsSpace(r[0])
  {
    SkipSpacesStops(s, 0);
    s[SkipSpaces(s, 0)..]
  }

  /** `s.strip()`. */
  function Strip(s: string): (r: string)
    ensures r == [] || (!IsSpace(r[0]) && !IsSpace(r[|r| - 1]))
    ensures |r| <= |s|
  {
    var lo := SkipSpaces(s, 0);
    SkipSpacesStops(s, 0);
    TrimEndStops(s, lo, |s|);
    s[lo..TrimEnd(s, lo, |s|)]
  }

  /** A string whose first and last characters are not whitespace is its own strip. */
  lemma StripNoop(s: string)
    requires s == [] || (!IsSpace(s[0]) && !IsSpace(s[|s| - 1]))
    ensures Strip(s) == s
  {
  }

  function LowerChar(c: char): char
  {
    if 'A' <= c <= 'Z' then (c as int + 32) as char else c
  }

  /** `s.lower()`, restricted to the ASCII letters. */
  function Lower(s: string): (r: string)
    ensures |r| == |s| && forall i :: 0 <= i < |s| ==> r[i] == LowerChar(s[i])
  {
    if s == [] then [] else [LowerChar(s[0])] + Lower(s[1..])
  }

  predicate StartsWith(s: string, prefix: string)
  {
    |prefix| <= |s| && s[..|prefix|] == prefix
  }

  predicate EndsWith(s: string, suffix: string)
  {
    |suffix| <= |s| && s[|s| - |suffix|..] == suffix
  }

  /** `sub in s`. */
  predicate Contains(s: string, sub: string)
    decreases |s|
  {
    StartsWith(s, sub) || (s != [] && Contains(s[1..], sub))
  }

  /** The first whitespace-free run at the head of `s`. */
  function Word(s: string): (w: string)
    ensures |w| <= |s| && w == s[..|w|] && NoSpace(w)
    ensures s != [] && !IsSpace(s[0]) ==> w != []
    ensures |w| == |s| || IsSpace(s[|w|])
  {
    if s == [] || IsSpace(s[0]) then [] else [s[0]] + Word(s[1..])
  }

  /** `s.split()`: the maximal whitespace-free runs of `s`, in order. */
  function Words(s: string): (ws: seq<string>)
    ensures [] !in ws
    decreases |s|
  {
    var t := LStrip(s);
    if t == [] then [] else
      var w := Word(t);
      var rest := t[|w|..];
      assert |rest| < |s|;
      [w] + Words(rest)
  }

  /** `" ".join(ws)`. */
  function JoinSpace(ws: seq<string>): (r: string)
    ensures ws == [] ==> r == []
    ensures |ws| == 1 ==> r == ws[0]
  {
    if ws == [] then [] else if |ws| == 1 then ws[0] else ws[0] + " " + JoinSpace(ws[1..])
  }

  /** `s.split(sep)[0]`: everything before the first `sep`, or all of `s`. */
  function BeforeFirst(s: string, sep: char): (r: string)
    ensures |r| <= |s| && r == s[..|r|] && sep !in r
    ensures |r| == |s| || s[|r|] == sep
  {
    if s == [] || s[0] == sep then [] else [s[0]] + BeforeFirst(s[1..], sep)
  }

  predicate IsDigit(c: char)
  {
    '0' <= c <= '9'
  }

  /** Every character of `s[a..b]` is an ASCII digit. */
  predicate AllDigits(s: string, a: nat, b: nat)
    requires a <= b <= |s|
    decreases b - a
  {
    a == b || (IsDigit(s[b - 1]) && AllDigits(s, a, b - 1))
  }

  lemma {:induction false} AllDigitsIff(s: string, a: nat, b: nat)
    requires a <= b <= |s|
    ensures AllDigits(s, a, b) <==> forall k :: a <= k < b ==> IsDigit(s[k])
    decreases b - a
  {
    if a < b { AllDigitsIff(s, a, b - 1); }
  }

  /** `s[a..b]` is one or more ASCII digits. */
  predicate IsDigitsIn(s: string, a: nat, b: nat)
    requires a <= b <= |s|
  {
    a < b && AllDigits(s, a, b)
  }

  /** The value of the decimal digits `s[a..b]`, most significant digit first. */
  function DigitsValue(s: string, a: nat, b: nat): nat
    requires a <= b <= |s| && AllDigits(s, a, b)
    decreases b
  {
    if b == a then 0 else 10 * DigitsValue(s, a, b - 1) + (s[b - 1] as int - '0' as int)
  }

  /** Python `int(s)` on a decimal string: surrounding whitespace is ignored, an
      optional sign, then one or more ASCII digits; anything else is rejected. */
  function ParseInt(s: string): Option<int>
  {
    var lo := SkipSpaces(s, 0);
    var hi := TrimEnd(s, lo, |s|);
    if lo < hi && (s[lo] == '-' || s[lo] == '+') then
      if IsDigitsIn(s, lo + 1, hi) then
        var v: int := DigitsValue(s, lo + 1, hi);
        Some(if s[lo] == '-' then -v else v)
      else None
    else if IsDigitsIn(s, lo, hi) then Some(DigitsValue(s, lo, hi))
    else None
  }

  function DigitChar(d: nat): char
    requires d < 10
  {
    ('0' as int + d) as char
  }

  /** `str(n)` for a natural number. */
  function NatToString(n: nat): (s: string)
    ensures IsDigitsIn(s, 0, |s|)
    decreases n
  {
    if n < 10 then [DigitChar(n)] else
      var p := NatToString(n / 10);
      var s := p + [DigitChar(n % 10)];
      assert s[0..|p|] == p[0..|p|];
      DigitsValueShift(p, 0, s, 0, |p|);
      s
  }

  /** `str(i)` for an integer. */
  function IntToString(i: int): (s: string)
    ensures s != []
  {
    if i < 0 then "-" + NatToString(-i) else NatToString(i)
  }

  /** `str(i)` neither starts nor ends with whitespace. */
  lemma IntToStringEnds(i: int)
    ensures !IsSpace(IntToString(i)[0]) && !IsSpace(IntToString(i)[|IntToString(i)| - 1])
  {
    var p := NatToString(if i < 0 then -i else i);
    AllDigitsIff(p, 0, |p|);
    assert IsDigit(p[0]) && IsDigit(p[|p| - 1]);
  }

  /** Equal digit runs have equal values, wherever they sit. */
  lemma {:induction false} DigitsValueShift(s: string, a: nat, t: string, c: nat, len: nat)
    requires a + len <= |s| && c + len <= |t|
    requires AllDigits(s, a, a + len)
    requires t[c..c + len] == s[a..a + len]
    ensures AllDigits(t, c, c + len)
    ensures DigitsValue(s, a, a + len) == DigitsValue(t, c, c + len)
    decreases len
  {
    if len > 0 {
      assert t[c..c + len - 1] == t[c..c + len][..len - 1];
      assert s[a..a + len - 1] == s[a..a + len][..len - 1];
      DigitsValueShift(s, a, t, c, len - 1);
      assert t[c + len - 1] == t[c..c + len][len - 1];
    }
  }

  lemma {:induction false} NatToStringValue(n: nat)
    ensures DigitsValue(NatToString(n), 0, |NatToString(n)|) == n
    decreases n
  {
    if n >= 10 {
      NatToStringValue(n / 10);
      var p := NatToString(n / 10);
      var s := NatToString(n);
      assert s[0..|p|] == p[0..|p|];
      DigitsValueShift(p, 0, s, 0, |p|);
    }
  }

  /** `int(str(i)) == i`: writing an integer and parsing it back is the identity. */
  lemma ParseIntToString(i: int)
    ensures ParseInt(IntToString(i)) == Some(i)
  {
    var s := IntToString(i);
    IntToStringEnds(i);
    assert SkipSpaces(s, 0) == 0;
    assert TrimEnd(s, 0, |s|) == |s|;
    if i < 0 {
      var p := NatToString(-i);
      NatToStringValue(-i);
      assert s[1..1 + |p|] == p[0..|p|];
      DigitsValueShift(p, 0, s, 1, |p|);
      assert IsDigitsIn(s, 1, |s|);
    } else {
      AllDigitsIff(s, 0, |s|);
      assert IsDigit(s[0]);
      NatToStringValue(i);
    }
  }

  /** Distinct integers are written differently, so `f"vol_{i}"` keys never collide. */
  lemma IntToStringInjective(i: int, j: int)
    ensures IntToString(i) == IntToString(j) ==> i == j
  {
    ParseIntToString(i);
    ParseIntToString(j);
  }
}
