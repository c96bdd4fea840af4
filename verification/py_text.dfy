/** The Python string operations the service code relies on: `str.strip`,
    `lower`/`upper`, `find`, `in`, `str(int)` and `int(str)`. */
module PyText {
  import opened Wrappers

  /** `c.isspace()`: the Unicode whitespace code points. */
  predicate IsSpace(c: char) {
    || c == ' ' || ('\t' <= c <= '\r') || ('\U{1C}' <= c <= '\U{1F}')
    || c == '\U{85}' || c == '\U{A0}' || c == '\U{1680}'
    || ('\U{2000}' <= c <= '\U{200A}')
    || c == '\U{2028}' || c == '\U{2029}' || c == '\U{202F}' || c == '\U{205F}' || c == '\U{3000}'
  }

  predicate IsBlank(s: string) {
    forall k :: 0 <= k < |s| ==> IsSpace(s[k])
  }

  /** `s.lstrip()`: a suffix of `s`; everything dropped is whitespace. */
  function StripLeft(s: string): (r: string)
    ensures |r| <= |s| && r == s[|s| - |r|..]
    ensures r == [] || !IsSpace(r[0])
    ensures forall k :: 0 <= k < |s| - |r| ==> IsSpace(s[k])
  {
    if |s| > 0 && IsSpace(s[0]) then
      var r := StripLeft(s[1..]);
      assert forall k :: 1 <= k < |s| - |r| ==> s[k] == s[1..][k - 1];
      r
    else s
  }

  /** `s.rstrip()`: a prefix of `s`; everything dropped is whitespace. */
  function StripRight(s: string): (r: string)
    ensures |r| <= |s| && r == s[..|r|]
    ensures r == [] || !IsSpace(r[|r| - 1])
    ensures forall k :: |r| <= k < |s| ==> IsSpace(s[k])
  {
    if |s| > 0 && IsSpace(s[|s| - 1]) then
      var r := StripRight(s[..|s| - 1]);
      assert forall k :: |r| <= k < |s| - 1 ==> s[k] == s[..|s| - 1][k];
      r
    else s
  }

  /** `s.strip()`. */
  function Strip(s: string): string {
    StripRight(StripLeft(s))
  }

  /** `s.strip()` cuts whitespace off both ends and nothing else: the result
      is a slice `s[i..j]` that neither starts nor ends with whitespace, and
      is empty exactly when `s` is blank. */
  lemma StripSlice(s: string)
    ensures var r := Strip(s);
      && (r == [] || (!IsSpace(r[0]) && !IsSpace(r[|r| - 1])))
      && (exists i :: Padded(s, r, i))
      && (r == [] <==> IsBlank(s))
  {
    StripEnds(s);
    StripWithin(s);
    StripEmpty(s);
  }

  lemma StripEnds(s: string)
    ensures var r := Strip(s);
      r == [] || (!IsSpace(r[0]) && !IsSpace(r[|r| - 1]))
  {
    var l := StripLeft(s);
    var r := StripRight(l);
    assert r != [] ==> r[0] == l[0];
  }

  /** `s` is `r` at index `i` with only whitespace around it. */
  predicate Padded(s: string, r: string, i: int) {
    0 <= i <= |s| - |r| && s[i..i + |r|] == r && IsBlank(s[..i]) && IsBlank(s[i + |r|..])
  }

  lemma StripWithin(s: string)
    ensures exists i :: Padded(s, Strip(s), i)
  {
    var l := StripLeft(s);
    var r := StripRight(l);
    var i := |s| - |l|;
    var tail := s[i + |r|..];
    assert s[i..i + |r|] == r by {
      assert l[..|r|] == r;
    }
    assert IsBlank(s[..i]) by {
      forall k | 0 <= k < i ensures IsSpace(s[..i][k]) {
        assert s[..i][k] == s[k];
      }
    }
    assert IsBlank(tail) by {
      forall k | 0 <= k < |tail| ensures IsSpace(tail[k]) {
        assert tail[k] == l[|r| + k];
      }
    }
    assert Padded(s, Strip(s), i);
  }

  lemma StripEmpty(s: string)
    ensures Strip(s) == [] <==> IsBlank(s)
  {
    var l := StripLeft(s);
    var r := StripRight(l);
    var i := |s| - |l|;
    assert l != [] ==> l[0] == s[i];
    assert r == [] ==> l == [] && s[..i] == s;
  }

  /** Stripping twice is stripping once. */
  lemma StripIdempotent(s: string)
    ensures Strip(Strip(s)) == Strip(s)
  {
    var r := Strip(s);
    StripSlice(s);
    assert StripLeft(r) == r;
  }

  function LowerChar(c: char): char {
    if 'A' <= c <= 'Z' then (c as int + 32) as char else c
  }

  function UpperChar(c: char): char {
    if 'a' <= c <= 'z' then (c as int - 32) as char else c
  }

  /** `s.lower()` on the ASCII letters. */
  function Lower(s: string): (r: string)
    ensures |r| == |s| && forall k :: 0 <= k < |s| ==> r[k] == LowerChar(s[k])
  {
    seq(|s|, k requires 0 <= k < |s| => LowerChar(s[k]))
  }

  /** `s.upper()` on the ASCII letters. */
  function Upper(s: string): (r: string)
    ensures |r| == |s| && forall k :: 0 <= k < |s| ==> r[k] == UpperChar(s[k])
  {
    seq(|s|, k requires 0 <= k < |s| => UpperChar(s[k]))
  }

  /** Upper-casing an upper-cased string changes nothing, so the second
      `country.upper()` inside the ads client is harmless. */
  lemma UpperIdempotent(s: string)
    ensures Upper(Upper(s)) == Upper(s)
  {
    var u := Upper(s);
    forall k | 0 <= k < |u| ensures UpperChar(u[k]) == u[k] {
      assert u[k] == UpperChar(s[k]);
    }
  }

  /** `t` occurs in `s` at index `j`. */
  predicate OccursAt(s: string, t: string, j: int) {
    0 <= j && j + |t| <= |s| && s[j..j + |t|] == t
  }

  /** `t in s`. */
  predicate Contains(s: string, t: string) {
    exists j :: 0 <= j <= |s| && OccursAt(s, t, j)
  }

  function FindFrom(s: string, t: string, i: nat): (r: int)
    requires i <= |s|
    decreases |s| - i
    ensures r == -1 || (i <= r && r + |t| <= |s|)
  {
    if i + |t| > |s| then -1
    else if s[i..i + |t|] == t then i
    else FindFrom(s, t, i + 1)
  }

  /** `s.find(t)`. */
  function Find(s: string, t: string): (r: int)
    ensures r == -1 || (0 <= r && r + |t| <= |s|)
  {
    FindFrom(s, t, 0)
  }

  lemma {:induction false} FindFromSpec(s: string, t: string, i: nat)
    requires i <= |s|
    decreases |s| - i
    ensures var r := FindFrom(s, t, i);
      && (r == -1 || (i <= r && OccursAt(s, t, r)))
      && forall j :: i <= j && (r == -1 || j < r) ==> !OccursAt(s, t, j)
  {
    if i + |t| <= |s| && s[i..i + |t|] != t {
      FindFromSpec(s, t, i + 1);
    }
  }

  /** `s.find(t)` is the first index at which `t` occurs, or -1 when it
      does not occur. */
  lemma FindSpec(s: string, t: string)
    ensures Find(s, t) == -1 <==> !Contains(s, t)
    ensures Find(s, t) != -1 ==> OccursAt(s, t, Find(s, t)) && forall j :: 0 <= j < Find(s, t) ==> !OccursAt(s, t, j)
  {
    FindFromSpec(s, t, 0);
  }

  /** `s[lo:hi]` for non-negative indices, clamped to `s` as Python does. */
  function Slice(s: string, lo: nat, hi: nat): (r: string)
    ensures lo <= hi <= |s| ==> r == s[lo..hi]
    ensures hi <= lo ==> r == ""
  {
    var l := if lo < |s| then lo else |s|;
    var h := if hi < |s| then hi else |s|;
    if h <= l then "" else s[l..h]
  }

  /** `s[:k]` on any list, including Python's negative `k`. */
  function Prefix<T>(s: seq<T>, k: int): (r: seq<T>)
    ensures k >= 0 ==> |r| == if k < |s| then k else |s|
    ensures k < 0 ==> |r| == if |s| + k < 0 then 0 else |s| + k
    ensures r == s[..|r|]
  {
    if k >= 0 then (if k < |s| then s[..k] else s)
    else if |s| + k < 0 then [] else s[..|s| + k]
  }

  /** `xs.index(x)`: the first position of `x`. */
  function IndexOf<T(==)>(xs: seq<T>, x: T): (i: nat)
    requires x in xs
    ensures i < |xs| && xs[i] == x && x !in xs[..i]
  {
    if xs[0] == x then 0 else 1 + IndexOf(xs[1..], x)
  }

  /** The first position is the only one with no earlier occurrence. */
  lemma IndexOfUnique<T>(xs: seq<T>, x: T, i: nat)
    requires i < |xs| && xs[i] == x && x !in xs[..i]
    ensures IndexOf(xs, x) == i
  {
  }

  predicate IsDigit(c: char) {
    '0' <= c <= '9'
  }

  function DigitChar(d: nat): (c: char)
    requires d < 10
    ensures IsDigit(c)
  {
    ('0' as int + d) as char
  }

  function DigitValue(c: char): nat
    requires IsDigit(c)
  {
    c as int - '0' as int
  }

  /** The decimal digits of `n`, most significant first. */
  function ShowNat(n: nat): (r: string)
    ensures |r| > 0 && forall k :: 0 <= k < |r| ==> IsDigit(r[k])
  {
    if n < 10 then [DigitChar(n)] else ShowNat(n / 10) + [DigitChar(n % 10)]
  }

  /** `str(n)` for an `int`. */
  function Show(n: int): string {
    if n < 0 then "-" + ShowNat(-n) else ShowNat(n)
  }

  /** The value of a non-empty run of decimal digits. */
  function DigitsValue(d: string): nat
    requires forall k :: 0 <= k < |d| ==> IsDigit(d[k])
  {
    if |d| == 0 then 0 else DigitsValue(d[..|d| - 1]) * 10 + DigitValue(d[|d| - 1])
  }

  /** Python's integer literal body: digits, single underscores allowed
      between two digits. */
  predicate IsDigitGroup(d: string) {
    && |d| > 0 && IsDigit(d[0]) && IsDigit(d[|d| - 1])
    && (forall k :: 0 <= k < |d| ==> IsDigit(d[k]) || d[k] == '_')
    && (forall k :: 0 <= k < |d| - 1 ==> !(d[k] == '_' && d[k + 1] == '_'))
  }

  function DropUnderscores(d: string): (r: string)
    requires forall k :: 0 <= k < |d| ==> IsDigit(d[k]) || d[k] == '_'
    ensures forall k :: 0 <= k < |r| ==> IsDigit(r[k])
  {
    if |d| == 0 then ""
    else if d[0] == '_' then DropUnderscores(d[1..])
    else [d[0]] + DropUnderscores(d[1..])
  }

  function ParseNat(d: string): Option<nat> {
    if IsDigitGroup(d) then Some(DigitsValue(DropUnderscores(d))) else None
  }

  /** `int(s)` for a `str`: None where Python raises ValueError. Leading and
      trailing whitespace and one sign are accepted. */
  function ParseInt(s: string): Option<int> {
    var t := Strip(s);
    if |t| > 0 && t[0] == '-' then
      match ParseNat(t[1..])
      case Some(v) => Some(-(v as int))
      case None => None
    else if |t| > 0 && t[0] == '+' then
      match ParseNat(t[1..])
      case Some(v) => Some(v as int)
      case None => None
    else
      match ParseNat(t)
      case Some(v) => Some(v as int)
      case None => None
  }

  lemma {:induction false} DropUnderscoresOfDigits(d: string)
    requires forall k :: 0 <= k < |d| ==> IsDigit(d[k])
    ensures DropUnderscores(d) == d
  {
    if |d| > 0 {
      DropUnderscoresOfDigits(d[1..]);
    }
  }

  lemma {:induction false} DigitsValueOfShow(n: nat)
    ensures DigitsValue(ShowNat(n)) == n
  {
    if n >= 10 {
      DigitsValueOfShow(n / 10);
      var d := ShowNat(n);
      assert d[..|d| - 1] == ShowNat(n / 10);
    }
  }

  /** Distinct numbers have distinct decimal renderings. */
  lemma ShowNatInjective(a: nat, b: nat)
    requires ShowNat(a) == ShowNat(b)
    ensures a == b
  {
    DigitsValueOfShow(a);
    DigitsValueOfShow(b);
  }

  /** A string whose first and last characters are not whitespace is its
      own `strip()`. */
  lemma StripUnpadded(s: string)
    requires |s| > 0 && !IsSpace(s[0]) && !IsSpace(s[|s| - 1])
    ensures Strip(s) == s
  {
    assert StripLeft(s) == s;
  }

  lemma ParseShowNat(m: nat)
    ensures ParseNat(ShowNat(m)) == Some(m)
  {
    var d := ShowNat(m);
    DropUnderscoresOfDigits(d);
    DigitsValueOfShow(m);
  }

  /** `int(str(n)) == n`: reading back a rendered integer gives it back. */
  lemma ParseShow(n: int)
    ensures ParseInt(Show(n)) == Some(n)
  {
    var s := Show(n);
    var m: nat := if n < 0 then -n else n;
    var d := ShowNat(m);
    ParseShowNat(m);
    if n < 0 {
      assert s == "-" + d;
      assert s[|s| - 1] == d[|d| - 1];
      StripUnpadded(s);
      assert s[1..] == d;
    } else {
      assert s == d;
      StripUnpadded(s);
      assert !(s[0] == '-' || s[0] == '+');
    }
  }
}
