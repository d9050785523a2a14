/**
 * The Python `str` operations the scripts rely on: `isspace`, `strip`, `lower`,
 * `in`, `startswith`, `split`, `int()` and `str()` of an integer.
 */
module PyStr {
  import opened Wrappers

  /** `c.isspace()`, which is also the `\s` class of `re` on `str` patterns. */
  predicate IsSpace(c: char) {
    c == ' ' || ('\t' <= c <= '\r') || ('\U{1C}' <= c <= '\U{1F}') || c == '\U{85}'
    || c == '\U{A0}' || c == '\U{1680}' || ('\U{2000}' <= c <= '\U{200A}') || c == '\U{2028}'
    || c == '\U{2029}' || c == '\U{202F}' || c == '\U{205F}' || c == '\U{3000}'
  }

  predicate IsSlash(c: char) {
    c == '/'
  }

  /** Removes the longest prefix whose characters all satisfy `p`. */
  function LStripBy(s: string, p: char -> bool): (r: string)
    ensures |r| <= |s| && r == s[|s| - |r|..]
    ensures r != [] ==> !p(r[0])
  {
    if s != [] && p(s[0]) then LStripBy(s[1..], p) else s
  }

  /** Every character the left strip removed satisfies `p`. */
  lemma {:induction false} LStripByRemoved(s: string, p: char -> bool)
    ensures forall i :: 0 <= i < |s| - |LStripBy(s, p)| ==> p(s[i])
  {
    if s != [] && p(s[0]) {
      LStripByRemoved(s[1..], p);
      assert forall i :: 1 <= i < |s| ==> s[i] == s[1..][i - 1];
    }
  }

  /** Removes the longest suffix whose characters all satisfy `p`. */
  function RStripBy(s: string, p: char -> bool): (r: string)
    ensures |r| <= |s| && r == s[..|r|]
    ensures r != [] ==> !p(r[|r| - 1])
  {
    if s != [] && p(s[|s| - 1]) then RStripBy(s[..|s| - 1], p) else s
  }

  /** Every character the right strip removed satisfies `p`. */
  lemma {:induction false} RStripByRemoved(s: string, p: char -> bool)
    ensures forall i :: |RStripBy(s, p)| <= i < |s| ==> p(s[i])
  {
    if s != [] && p(s[|s| - 1]) {
      RStripByRemoved(s[..|s| - 1], p);
      assert forall i :: 0 <= i < |s| - 1 ==> s[i] == s[..|s| - 1][i];
    }
  }

  function StripBy(s: string, p: char -> bool): string {
    RStripBy(LStripBy(s, p), p)
  }

  /** `s.strip()`. */
  function Strip(s: string): string {
    StripBy(s, IsSpace)
  }

  /** `s.strip('/')`. */
  function StripSlash(s: string): string {
    StripBy(s, IsSlash)
  }

  lemma StripByEnds(s: string, p: char -> bool)
    ensures var r := StripBy(s, p); r != [] ==> !p(r[0]) && !p(r[|r| - 1])
  {
    var l := LStripBy(s, p);
    var r := RStripBy(l, p);
    if r != [] {
      assert r[0] == l[0];
    }
  }

  /** Stripping only removes characters. */
  lemma StripByChars(s: string, p: char -> bool)
    ensures forall c :: c in StripBy(s, p) ==> c in s
  {
    var l := LStripBy(s, p);
    var r := RStripBy(l, p);
    forall c | c in r
      ensures c in s
    {
      var i :| 0 <= i < |r| && r[i] == c;
      assert l[i] == c;
      assert s[|s| - |l| + i] == c;
    }
  }

  /** The stripped text is the slice of `s` that starts where the left strip stopped. */
  lemma StripBySlice(s: string, p: char -> bool)
    ensures var r := StripBy(s, p); var i := |s| - |LStripBy(s, p)|;
            i + |r| <= |s| && s[i..i + |r|] == r
  {
    var l := LStripBy(s, p);
    var r := RStripBy(l, p);
    var i := |s| - |l|;
    assert l == s[i..];
    assert r == l[..|r|];
    assert s[i..][..|r|] == s[i..i + |r|];
  }

  /** The stripped text sits inside `s` at `i`, and everything around it satisfies `p`. */
  lemma StripByWithin(s: string, p: char -> bool)
    ensures var r := StripBy(s, p); var i := |s| - |LStripBy(s, p)|;
            i + |r| <= |s| && s[i..i + |r|] == r
            && (forall j :: 0 <= j < i ==> p(s[j]))
            && (forall j :: i + |r| <= j < |s| ==> p(s[j]))
  {
    StripBySlice(s, p);
    LStripByRemoved(s, p);
    StripByRightRemoved(s, p);
  }

  /** Everything after the stripped text in `s` satisfies `p`. */
  lemma StripByRightRemoved(s: string, p: char -> bool)
    ensures var l := LStripBy(s, p); var e := |s| - |l| + |RStripBy(l, p)|;
            forall j :: e <= j < |s| ==> p(s[j])
  {
    var l := LStripBy(s, p);
    var i := |s| - |l|;
    RStripByRemoved(l, p);
    forall j | i + |RStripBy(l, p)| <= j < |s|
      ensures p(s[j])
    {
      assert s[j] == l[j - i];
    }
  }

  /** Stripping cannot bring in an occurrence the text did not hold. */
  lemma StripByKeepsAbsent(s: string, p: char -> bool, sub: string)
    requires !Contains(s, sub)
    ensures !Contains(StripBy(s, p), sub)
  {
    var r := StripBy(s, p);
    var i := |s| - |LStripBy(s, p)|;
    StripBySlice(s, p);
    ContainsOfSlice(s, sub, i, r);
  }

  /** Stripping twice is stripping once. */
  lemma {:induction false} StripByIdempotent(s: string, p: char -> bool)
    ensures StripBy(StripBy(s, p), p) == StripBy(s, p)
  {
    var r := StripBy(s, p);
    StripByEnds(s, p);
    assert LStripBy(r, p) == r;
    assert RStripBy(r, p) == r;
  }

  /** A string `strip()` leaves as it is: empty, or without white space at either end. */
  predicate IsStripped(s: string) {
    s == [] || (!IsSpace(s[0]) && !IsSpace(s[|s| - 1]))
  }

  lemma StripIsStripped(s: string)
    ensures IsStripped(Strip(s))
  {
    StripByEnds(s, IsSpace);
  }

  /**
   * `f"{a} {b}".strip()` of two stripped parts: the space joins them when both
   * are present and disappears when either is empty.
   */
  lemma StripJoinedBySpace(a: string, b: string)
    requires IsStripped(a) && IsStripped(b)
    ensures Strip(a + " " + b) == if a == [] then b else if b == [] then a else a + " " + b
  {
    var s := a + " " + b;
    if a == [] {
      assert s == " " + b;
      assert s[1..] == b;
      assert LStripBy(s, IsSpace) == LStripBy(b, IsSpace);
      if b != [] {
        assert LStripBy(b, IsSpace) == b;
        assert RStripBy(b, IsSpace) == b;
      }
    } else if b == [] {
      assert s == a + " ";
      assert LStripBy(s, IsSpace) == s;
      assert s[..|s| - 1] == a;
      assert RStripBy(a, IsSpace) == a;
    } else {
      assert s[0] == a[0];
      assert s[|s| - 1] == b[|b| - 1];
      StripNoSpace(s);
    }
  }

  /** `s[:n]`. */
  function Take(s: string, n: nat): (r: string)
    ensures |r| == if |s| <= n then |s| else n
    ensures StartsWith(s, r)
  {
    if |s| <= n then s else s[..n]
  }

  /** `s.startswith(prefix)`. */
  predicate StartsWith(s: string, prefix: string) {
    |prefix| <= |s| && s[..|prefix|] == prefix
  }

  predicate OccursAt(s: string, sub: string, i: int) {
    0 <= i && i + |sub| <= |s| && s[i..i + |sub|] == sub
  }

  /** `s.find(sub, i)`: the first index at or after `i` where `sub` occurs. */
  function FindFrom(s: string, sub: string, i: nat): (r: Option<nat>)
    requires i <= |s|
    decreases |s| - i
    ensures r.Some? ==> i <= r.value && OccursAt(s, sub, r.value)
    ensures forall j :: i <= j && (r.None? || j < r.value) ==> !OccursAt(s, sub, j)
  {
    if OccursAt(s, sub, i) then Some(i)
    else if i == |s| then None
    else FindFrom(s, sub, i + 1)
  }

  function Find(s: string, sub: string): Option<nat>
  {
    FindFrom(s, sub, 0)
  }

  /** `sub in s`. */
  predicate Contains(s: string, sub: string) {
    Find(s, sub).Some?
  }

  lemma ContainsIff(s: string, sub: string)
    ensures Contains(s, sub) <==> exists i :: OccursAt(s, sub, i)
  {
    var r := Find(s, sub);
    if r.Some? {
      assert OccursAt(s, sub, r.value);
    }
  }

  lemma {:induction false} ContainsChar(s: string, c: char)
    ensures Contains(s, [c]) <==> c in s
  {
    ContainsIff(s, [c]);
    if c in s {
      var i :| 0 <= i < |s| && s[i] == c;
      assert OccursAt(s, [c], i);
    }
    if Contains(s, [c]) {
      var i :| OccursAt(s, [c], i);
      assert s[i] == s[i..i + 1][0];
    }
  }

  /** An occurrence starts with the first characters of what occurs. */
  lemma OccursAtChars(s: string, sub: string, i: int)
    requires |sub| >= 1
    ensures OccursAt(s, sub, i) ==> s[i] == sub[0] && (|sub| >= 2 ==> s[i + 1] == sub[1])
  {
    if OccursAt(s, sub, i) {
      assert s[i..i + |sub|][0] == s[i];
      if |sub| >= 2 {
        assert s[i..i + |sub|][1] == s[i + 1];
      }
    }
  }

  /** An occurrence inside a slice is an occurrence in the whole string. */
  lemma {:induction false} ContainsOfSlice(s: string, sub: string, a: nat, t: string)
    requires a + |t| <= |s| && s[a..a + |t|] == t
    ensures Contains(t, sub) ==> Contains(s, sub)
  {
    ContainsIff(s, sub);
    ContainsIff(t, sub);
    if Contains(t, sub) {
      var i :| OccursAt(t, sub, i);
      assert t[i..i + |sub|] == sub;
      forall k | 0 <= k < |sub|
        ensures s[a + i..a + i + |sub|][k] == sub[k]
      {
        assert t[i..i + |sub|][k] == t[i + k] == s[a + i + k];
      }
      assert OccursAt(s, sub, a + i);
    }
  }

  /** `s.split(sep)`: occurrences are found left to right and never overlap. */
  function Split(s: string, sep: string): (r: seq<string>)
    requires sep != ""
    ensures |r| >= 1
    decreases |s|
  {
    match Find(s, sep)
    case None => [s]
    case Some(i) => [s[..i]] + Split(s[i + |sep|..], sep)
  }

  /** `s.split(sep)[0]`. */
  function SplitFirst(s: string, sep: string): string
    requires sep != ""
  {
    Split(s, sep)[0]
  }

  /** `s.split(sep)[-1]`. */
  function SplitLast(s: string, sep: string): string
    requires sep != ""
  {
    var parts := Split(s, sep);
    parts[|parts| - 1]
  }

  /** The text before the first separator: a prefix of `s` without the separator. */
  lemma SplitFirstIsPrefix(s: string, sep: string)
    requires sep != ""
    ensures var r := SplitFirst(s, sep); StartsWith(s, r) && !Contains(r, sep)
    ensures !Contains(s, sep) ==> SplitFirst(s, sep) == s
  {
    var r := SplitFirst(s, sep);
    ContainsIff(r, sep);
    match Find(s, sep)
    case None =>
    case Some(i) =>
      if Contains(r, sep) {
        var j :| OccursAt(r, sep, j);
        assert s[..i][j..j + |sep|] == s[j..j + |sep|];
        assert OccursAt(s, sep, j);
      }
  }

  lemma SplitLastStep(s: string, sep: string, i: nat)
    requires sep != "" && Find(s, sep) == Some(i)
    ensures SplitLast(s, sep) == SplitLast(s[i + |sep|..], sep)
  {
    var parts := Split(s, sep);
    var rest := Split(s[i + |sep|..], sep);
    assert parts == [s[..i]] + rest;
    assert parts[|parts| - 1] == rest[|rest| - 1];
  }

  /** The text after the last split separator is a suffix of `s` without the separator. */
  lemma {:induction false} SplitLastIsSuffix(s: string, sep: string)
    requires sep != ""
    ensures var r := SplitLast(s, sep); |r| <= |s| && s[|s| - |r|..] == r && !Contains(r, sep)
    ensures !Contains(s, sep) ==> SplitLast(s, sep) == s
    decreases |s|
  {
    match Find(s, sep)
    case None =>
    case Some(i) =>
      var rest := s[i + |sep|..];
      SplitLastIsSuffix(rest, sep);
      SplitLastStep(s, sep, i);
  }

  /** Splitting on one character gives back what follows its last occurrence. */
  lemma {:induction false} SplitLastAfterChar(a: string, c: char, b: string)
    requires c !in b
    ensures SplitLast(a + [c] + b, [c]) == b
    decreases |a|
  {
    var s := a + [c] + b;
    assert OccursAt(s, [c], |a|) by { assert s[|a|..|a| + 1] == [c]; }
    var i := Find(s, [c]).value;
    SplitLastStep(s, [c], i);
    if i == |a| {
      assert s[i + 1..] == b;
      ContainsChar(b, c);
      SplitLastIsSuffix(b, [c]);
    } else {
      assert s[i + 1..] == a[i + 1..] + [c] + b;
      SplitLastAfterChar(a[i + 1..], c, b);
    }
  }

  /** When `s` contains the separator, the text in front of the split-off suffix ends with it. */
  lemma {:induction false} SplitLastAfterSeparator(s: string, sep: string)
    requires sep != "" && Contains(s, sep)
    ensures var r := SplitLast(s, sep); |r| + |sep| <= |s| && EndsWith(s[..|s| - |r|], sep)
    decreases |s|
  {
    var i := Find(s, sep).value;
    var rest := s[i + |sep|..];
    SplitLastStep(s, sep, i);
    SplitLastIsSuffix(rest, sep);
    var r := SplitLast(rest, sep);
    if !Contains(rest, sep) {
      SeparatorBeforeRest(s, sep, i);
    } else {
      SplitLastAfterSeparator(rest, sep);
      EndsWithAfter(s, i + |sep|, |r|, sep);
    }
  }

  /** An occurrence at `i` makes the text up to its end end with it. */
  lemma SeparatorBeforeRest(s: string, sep: string, i: nat)
    requires OccursAt(s, sep, i)
    ensures EndsWith(s[..i + |sep|], sep)
  {
    assert s[i..i + |sep|][0..] == s[i..i + |sep|];
    EndsWithSlice(s, sep, i, i + |sep|);
  }

  /** What ends with `suffix` in front of the last `k` characters of `s[a..]` does so in `s` too. */
  lemma EndsWithAfter(s: string, a: nat, k: nat, suffix: string)
    requires a + k <= |s| && EndsWith(s[a..][..|s| - a - k], suffix)
    ensures EndsWith(s[..|s| - k], suffix)
  {
    assert s[a..][..|s| - a - k] == s[a..|s| - k];
    EndsWithSlice(s, suffix, a, |s| - k);
  }

  /** A slice that ends with `suffix` and ends at `b` makes `s[..b]` end with it too. */
  lemma EndsWithSlice(s: string, suffix: string, a: nat, b: nat)
    requires a <= b <= |s| && EndsWith(s[a..b], suffix)
    ensures EndsWith(s[..b], suffix)
  {
    assert s[..b][b - |suffix|..] == s[a..b][b - a - |suffix|..];
  }

  predicate EndsWith(s: string, suffix: string) {
    |suffix| <= |s| && s[|s| - |suffix|..] == suffix
  }

  lemma {:induction false} SplitLengthTwoOrMore(s: string, sep: string)
    requires sep != ""
    ensures |Split(s, sep)| >= 2 <==> Contains(s, sep)
  {
  }

  /** ASCII lower-casing of one character. */
  function LowerChar(c: char): char {
    if 'A' <= c <= 'Z' then (c as int + 32) as char else c
  }

  predicate IsLower(s: string) {
    forall i :: 0 <= i < |s| ==> !('A' <= s[i] <= 'Z')
  }

  /** `s.lower()` on ASCII letters. */
  function Lower(s: string): (r: string)
    ensures |r| == |s| && IsLower(r)
    ensures forall i :: 0 <= i < |s| ==> r[i] == LowerChar(s[i])
  {
    seq(|s|, i requires 0 <= i < |s| => LowerChar(s[i]))
  }

  lemma LowerKeepsAbsentChar(s: string, c: char)
    requires c !in s && !('A' <= c <= 'Z') && !('a' <= c <= 'z')
    ensures c !in Lower(s)
  {
  }

  predicate IsDigit(c: char) {
    '0' <= c <= '9'
  }

  predicate IsDigits(s: string) {
    s != [] && forall i :: 0 <= i < |s| ==> IsDigit(s[i])
  }

  function DigitValue(c: char): nat
    requires IsDigit(c)
  {
    c as int - '0' as int
  }

  function DigitChar(d: nat): (c: char)
    requires d < 10
    ensures IsDigit(c) && DigitValue(c) == d
  {
    ('0' as int + d) as char
  }

  /** The value of a run of ASCII digits read in base 10. */
  function DigitsValue(s: string): nat
    requires forall i :: 0 <= i < |s| ==> IsDigit(s[i])
  {
    if s == [] then 0 else DigitsValue(s[..|s| - 1]) * 10 + DigitValue(s[|s| - 1])
  }

  /** `str(n)` for a non-negative integer. */
  function NatDecimal(n: nat): (r: string)
    ensures IsDigits(r)
  {
    if n < 10 then [DigitChar(n)] else NatDecimal(n / 10) + [DigitChar(n % 10)]
  }

  /** `str(n)` for an integer. */
  function Decimal(n: int): string {
    if n < 0 then "-" + NatDecimal(-n) else NatDecimal(n)
  }

  /**
   * `int(s)` on text that contains no underscore: surrounding whitespace, an optional
   * sign and at least one ASCII digit; anything else raises ValueError (None here).
   */
  function ParseInt(s: string): Option<int> {
    ParseStripped(Strip(s))
  }

  /** `int()` on text without surrounding whitespace. */
  function ParseStripped(t: string): Option<int> {
    if t != [] && (t[0] == '-' || t[0] == '+') then
      if IsDigits(t[1..]) then
        var v: int := DigitsValue(t[1..]);
        Some(if t[0] == '-' then -v else v)
      else None
    else if IsDigits(t) then Some(DigitsValue(t))
    else None
  }

  lemma {:induction false} NatDecimalValue(n: nat)
    ensures DigitsValue(NatDecimal(n)) == n
  {
    if n >= 10 {
      NatDecimalValue(n / 10);
      var d := NatDecimal(n);
      assert d[..|d| - 1] == NatDecimal(n / 10);
    }
  }

  /** Text that starts with neither a sign nor a digit is no integer. */
  lemma ParseNoLeadingDigit(s: string)
    requires s != [] && !IsSpace(s[0]) && !IsSpace(s[|s| - 1])
    requires s[0] != '-' && s[0] != '+' && !IsDigit(s[0])
    ensures ParseInt(s) == None
  {
    StripNoSpace(s);
    assert !IsDigits(s);
  }

  lemma StripNoSpace(s: string)
    requires s != [] && !IsSpace(s[0]) && !IsSpace(s[|s| - 1])
    ensures Strip(s) == s
  {
  }

  /** `int(str(n)) == n`. */
  lemma ParseDecimal(n: int)
    ensures ParseInt(Decimal(n)) == Some(n)
  {
    var m: nat := if n < 0 then -n else n;
    var d := NatDecimal(m);
    NatDecimalValue(m);
    assert IsDigit(d[0]) && IsDigit(d[|d| - 1]);
    var s := Decimal(n);
    if n < 0 {
      assert s == "-" + d;
      assert s[0] == '-' && s[|s| - 1] == d[|d| - 1];
      StripNoSpace(s);
      ParseNegative(s, d);
    } else {
      StripNoSpace(d);
      assert IsDigit(d[0]);
    }
  }

  /** A `-` followed by digits parses to the negated value. */
  lemma ParseNegative(s: string, d: string)
    requires s == "-" + d && IsDigits(d)
    ensures ParseStripped(s) == Some(-(DigitsValue(d) as int))
  {
    assert s[1..] == d;
  }
}
