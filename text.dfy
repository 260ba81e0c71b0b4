/** The handful of Python string operations the control panel relies on:
    `str.strip()`, `str(int)`, the decimal reading that `int(float(s))` performs
    on plain integer text, and the `os.path.basename` / `os.path.splitext` pair
    used to name an imported preset. */
module Text {
  import opened Wrappers

  /** Python's `str.isspace()`: the characters `str.strip()` removes. */
  predicate IsSpace(c: char) {
    || c == ' ' || ('\t' <= c <= '\r')
    || ('\U{1C}' <= c <= '\U{1F}')
    || c == '\U{85}' || c == '\U{A0}' || c == '\U{1680}'
    || ('\U{2000}' <= c <= '\U{200A}')
    || c == '\U{2028}' || c == '\U{2029}' || c == '\U{202F}' || c == '\U{205F}'
    || c == '\U{3000}'
  }

  predicate AllSpace(s: string) {
    forall i :: 0 <= i < |s| ==> IsSpace(s[i])
  }

  /** Number of whitespace characters at the start of `s`. */
  function LeadingSpaces(s: string): (k: nat)
    ensures k <= |s|
    ensures AllSpace(s[..k])
    ensures k < |s| ==> !IsSpace(s[k])
  {
    if s == [] || !IsSpace(s[0]) then 0
    else
      var k' := LeadingSpaces(s[1..]);
      assert s[..k' + 1] == [s[0]] + s[1..][..k'];
      k' + 1
  }

  /** Number of whitespace characters at the end of `s`. */
  function TrailingSpaces(s: string): (k: nat)
    ensures k <= |s|
    ensures AllSpace(s[|s| - k..])
    ensures k < |s| ==> !IsSpace(s[|s| - 1 - k])
  {
    if s == [] || !IsSpace(s[|s| - 1]) then 0
    else
      var init := s[..|s| - 1];
      var k' := TrailingSpaces(init);
      assert s[|s| - (k' + 1)..] == init[|init| - k'..] + [s[|s| - 1]];
      k' + 1
  }

  /** Python's `s.strip()`: `s` with its leading and trailing whitespace removed. */
  function Trim(s: string): (r: string)
    ensures (r == []) <==> AllSpace(s)
    ensures r != [] ==> !IsSpace(r[0]) && !IsSpace(r[|r| - 1])
  {
    var k := LeadingSpaces(s);
    if k == |s| then
      assert s[..k] == s;
      []
    else
      var t := TrailingSpaces(s);
      s[k..|s| - t]
  }

  /** Stripping removes whitespace from the two ends and nothing else: the text
      is the stripped text with whitespace `p` before it and `q` after it. */
  lemma TrimCutsOnlyOuterSpace(s: string) returns (p: string, q: string)
    ensures AllSpace(p) && AllSpace(q) && s == p + Trim(s) + q
  {
    var k := LeadingSpaces(s);
    if k == |s| {
      assert s[..k] == s;
      p, q := s, [];
    } else {
      var t := TrailingSpaces(s);
      p, q := s[..k], s[|s| - t..];
      assert s == s[..k] + s[k..|s| - t] + s[|s| - t..];
    }
  }

  lemma {:induction false} LeadingSpacesAfterSpace(a: string, t: string)
    requires AllSpace(a)
    ensures LeadingSpaces(a + t) == |a| + LeadingSpaces(t)
  {
    if a == [] {
      assert a + t == t;
    } else {
      assert AllSpace(a[1..]) by {
        assert forall i :: 0 <= i < |a| - 1 ==> a[1..][i] == a[i + 1];
      }
      LeadingSpacesAfterSpace(a[1..], t);
      assert (a + t)[0] == a[0];
      assert (a + t)[1..] == a[1..] + t;
    }
  }

  lemma TrailingSpacesStep(s: string)
    requires s != [] && IsSpace(s[|s| - 1])
    ensures TrailingSpaces(s) == TrailingSpaces(s[..|s| - 1]) + 1
  {
  }

  lemma {:induction false} TrailingSpacesBeforeSpace(t: string, b: string)
    requires AllSpace(b)
    ensures TrailingSpaces(t + b) == TrailingSpaces(t) + |b|
  {
    if b == [] {
      assert t + b == t;
    } else {
      var b', s := b[..|b| - 1], t + b;
      calc {
        TrailingSpaces(s);
      == { assert s[|s| - 1] == b[|b| - 1]; TrailingSpacesStep(s); }
        TrailingSpaces(s[..|s| - 1]) + 1;
      == { assert s[..|s| - 1] == t + b'; }
        TrailingSpaces(t + b') + 1;
      == { assert forall i :: 0 <= i < |b'| ==> b'[i] == b[i];
           TrailingSpacesBeforeSpace(t, b'); }
        TrailingSpaces(t) + |b|;
      }
    }
  }

  lemma AllSpaceConcat(a: string, b: string)
    requires AllSpace(a) && AllSpace(b)
    ensures AllSpace(a + b)
  {
    assert forall i :: 0 <= i < |a + b| ==> (a + b)[i] == if i < |a| then a[i] else b[i - |a|];
  }

  /** Text without outer whitespace, padded with whitespace on both sides,
      strips back to itself. */
  lemma {:induction false} TrimOfPadded(a: string, m: string, b: string)
    requires AllSpace(a) && AllSpace(b)
    requires m != [] ==> !IsSpace(m[0]) && !IsSpace(m[|m| - 1])
    ensures Trim(a + m + b) == m
  {
    if m == [] {
      assert a + m + b == a + b;
      AllSpaceConcat(a, b);
    } else {
      var s := a + m + b;
      LeadingSpacesOfPadded(a, m, b);
      TrailingSpacesOfPadded(a, m, b);
      assert s[|a|..|s| - |b|] == m;
    }
  }

  lemma LeadingSpacesOfPadded(a: string, m: string, b: string)
    requires AllSpace(a) && m != [] && !IsSpace(m[0])
    ensures LeadingSpaces(a + m + b) == |a|
  {
    assert a + m + b == a + (m + b);
    LeadingSpacesAfterSpace(a, m + b);
    assert (m + b)[0] == m[0];
  }

  lemma TrailingSpacesOfPadded(a: string, m: string, b: string)
    requires AllSpace(b) && m != [] && !IsSpace(m[|m| - 1])
    ensures TrailingSpaces(a + m + b) == |b|
  {
    TrailingSpacesBeforeSpace(a + m, b);
    assert (a + m)[|a + m| - 1] == m[|m| - 1];
  }

  lemma Regroup(a: string, p: string, m: string, q: string, b: string)
    ensures a + (p + m + q) + b == (a + p) + m + (q + b)
  {
  }

  /** Whitespace added at either end of a text does not change what it strips to. */
  lemma {:induction false} TrimPadded(a: string, t: string, b: string)
    requires AllSpace(a) && AllSpace(b)
    ensures Trim(a + t + b) == Trim(t)
  {
    var p, q := TrimCutsOnlyOuterSpace(t);
    var m := Trim(t);
    Regroup(a, p, m, q, b);
    AllSpaceConcat(a, p);
    AllSpaceConcat(q, b);
    TrimOfPadded(a + p, m, q + b);
  }

  lemma {:induction false} TrimIdempotent(s: string)
    ensures Trim(Trim(s)) == Trim(s)
  {
    TrimWithoutOuterSpace(Trim(s));
  }

  /** Text that neither starts nor ends with whitespace is left as it is. */
  lemma {:induction false} TrimWithoutOuterSpace(s: string)
    requires s != [] ==> !IsSpace(s[0]) && !IsSpace(s[|s| - 1])
    ensures Trim(s) == s
  {
    if s != [] {
      assert LeadingSpaces(s) == 0;
      assert !AllSpace(s);
    }
  }

  predicate IsDigit(c: char) {
    '0' <= c <= '9'
  }

  function DigitChar(d: nat): (c: char)
    requires d < 10
    ensures IsDigit(c) && c as int - '0' as int == d
  {
    "0123456789"[d]
  }

  /** The decimal digits of `n`, most significant first, without leading zeros. */
  function Digits(n: nat): (r: string)
    ensures r != []
    ensures forall i :: 0 <= i < |r| ==> IsDigit(r[i])
    ensures |r| > 1 ==> r[0] != '0'
  {
    if n < 10 then [DigitChar(n)] else Digits(n / 10) + [DigitChar(n % 10)]
  }

  /** Python's `str(n)` for an integer `n`. */
  function IntToString(n: int): (r: string)
    ensures r != []
    ensures r[0] == '-' <==> n < 0
  {
    if n < 0 then "-" + Digits(-n) else Digits(n)
  }

  /** `str(n)` holds no whitespace: a sign and digits only. */
  lemma IntToStringHasNoSpace(n: int)
    ensures forall i :: 0 <= i < |IntToString(n)| ==> !IsSpace(IntToString(n)[i])
  {
    var r := IntToString(n);
    if n < 0 {
      assert forall i :: 1 <= i < |r| ==> r[i] == Digits(-n)[i - 1];
    }
  }

  /** The value of a non-empty string of decimal digits. */
  function DigitsValue(s: string): (r: Option<nat>)
    ensures r.Some? <==> s != [] && forall i :: 0 <= i < |s| ==> IsDigit(s[i])
  {
    if s == [] || !IsDigit(s[|s| - 1]) then None
    else
      var last := (s[|s| - 1] as int - '0' as int) as nat;
      if |s| == 1 then Some(last)
      else match DigitsValue(s[..|s| - 1])
        case None => None
        case Some(v) => Some(10 * v + last)
  }

  /** The value of decimal integer text: an optional `-` followed by digits.
      This is the part of `int(float(s))` that the model fixes exactly. */
  function DecimalValue(s: string): Option<int> {
    if s != [] && s[0] == '-' then
      match DigitsValue(s[1..])
      case None => None
      case Some(v) => Some(-(v as int))
    else
      match DigitsValue(s)
      case None => None
      case Some(v) => Some(v)
  }

  lemma {:induction false} DigitsRoundTrip(n: nat)
    ensures DigitsValue(Digits(n)) == Some(n)
  {
    if n >= 10 {
      DigitsRoundTrip(n / 10);
      var s := Digits(n);
      assert s[..|s| - 1] == Digits(n / 10);
    }
  }

  /** Reading back the text `str(n)` gives `n` again. */
  lemma {:induction false} IntToStringRoundTrip(n: int)
    ensures DecimalValue(IntToString(n)) == Some(n)
  {
    var s := IntToString(n);
    if n < 0 {
      DigitsRoundTrip(-n);
      assert s[0] == '-' && s[1..] == Digits(-n);
    } else {
      DigitsRoundTrip(n);
      assert s == Digits(n) && IsDigit(s[0]);
    }
  }

  /** The largest magnitude below which every integer is a double exactly (2^53). */
  const FloatExact: int := 0x20_0000_0000_0000

  predicate ExactInFloat(n: int) {
    -FloatExact <= n <= FloatExact
  }

  /** What the model assumes of `int(float(s))`, seen as `parse(s)`: plain decimal
      integer text whose value a double holds exactly reads back as that value. */
  ghost predicate ReadsDecimals(parse: string -> Option<int>) {
    forall s :: DecimalValue(s).Some? && ExactInFloat(DecimalValue(s).value) ==> parse(s) == DecimalValue(s)
  }

  /** Under that assumption, `int(float(str(n)))` is `n`, and `str(n)` has nothing to strip. */
  lemma IntTextReadsBack(parse: string -> Option<int>, n: int)
    requires ReadsDecimals(parse)
    requires ExactInFloat(n)
    ensures parse(IntToString(n)) == Some(n)
    ensures Trim(IntToString(n)) == IntToString(n) != []
  {
    IntToStringRoundTrip(n);
    IntToStringHasNoSpace(n);
    TrimWithoutOuterSpace(IntToString(n));
  }

  /** A separator of a Windows path (`ntpath` accepts both). */
  predicate IsSep(c: char) {
    c == '/' || c == '\\'
  }

  /** `os.path.basename(p)`: what follows the last separator. */
  function Basename(p: string): (r: string)
    ensures |r| <= |p| && r == p[|p| - |r|..]
    ensures forall i :: 0 <= i < |r| ==> !IsSep(r[i])
    ensures |r| < |p| ==> IsSep(p[|p| - |r| - 1])
  {
    if p == [] || IsSep(p[|p| - 1]) then []
    else
      var r' := Basename(p[..|p| - 1]);
      assert p[..|p| - 1][|p| - 1 - |r'|..] + [p[|p| - 1]] == p[|p| - 1 - |r'|..];
      r' + [p[|p| - 1]]
  }

  /** Index of the last `.` in `s`, if any. */
  function LastDot(s: string): (r: Option<nat>)
    ensures r.Some? ==> r.value < |s| && s[r.value] == '.' && forall i :: r.value < i < |s| ==> s[i] != '.'
    ensures r.None? ==> forall i :: 0 <= i < |s| ==> s[i] != '.'
  {
    if s == [] then None
    else if s[|s| - 1] == '.' then Some(|s| - 1)
    else LastDot(s[..|s| - 1])
  }

  predicate OnlyDots(s: string) {
    forall i :: 0 <= i < |s| ==> s[i] == '.'
  }

  /** `r` is `name` without its extension: either `r` is cut at the last dot of
      `name` and holds a character other than a dot, or no dot of `name` can
      start an extension (every dot after a non-dot prefix has a later dot). */
  predicate IsStemOf(r: string, name: string) {
    && r <= name
    && (|r| < |name| ==> name[|r|] == '.' && !OnlyDots(r) && forall i :: |r| < i < |name| ==> name[i] != '.')
    && (r == name ==> forall d :: 0 <= d < |name| && name[d] == '.' && !OnlyDots(name[..d]) ==> exists i :: d < i < |name| && name[i] == '.')
  }

  /** `os.path.splitext(name)[0]` for a name without separators: the name
      without its last extension, where leading dots do not start one. */
  function Stem(name: string): (r: string)
    ensures IsStemOf(r, name)
  {
    match LastDot(name)
    case None => name
    case Some(d) => if OnlyDots(name[..d]) then name else name[..d]
  }

  /** The base name of a path that ends in a separator and then `n`. */
  lemma {:induction false} BasenameAfterSeparator(dir: string, sep: char, n: string)
    requires IsSep(sep)
    requires forall i :: 0 <= i < |n| ==> !IsSep(n[i])
    ensures Basename(dir + [sep] + n) == n
  {
    if n != [] {
      var m := n[..|n| - 1];
      BasenameAfterSeparator(dir, sep, m);
      var p := dir + [sep] + n;
      assert p[..|p| - 1] == dir + [sep] + m;
      assert m + [n[|n| - 1]] == n;
    }
  }

  /** Dot-free text at the end does not move the last dot. */
  lemma {:induction false} LastDotSkipsDotFree(q: string, ext: string)
    requires forall i :: 0 <= i < |ext| ==> ext[i] != '.'
    ensures LastDot(q + ext) == LastDot(q)
  {
    if ext == [] {
      assert q + ext == q;
    } else {
      var e := ext[..|ext| - 1];
      LastDotSkipsDotFree(q, e);
      assert (q + ext)[..|q + ext| - 1] == q + e;
    }
  }

  /** The stem of `n + "." + ext`, where the extension `ext` is dot-free and `n`
      holds a character other than a dot, is `n`. */
  lemma StemOfExtension(n: string, ext: string)
    requires !OnlyDots(n)
    requires forall i :: 0 <= i < |ext| ==> ext[i] != '.'
    ensures Stem(n + "." + ext) == n
  {
    LastDotSkipsDotFree(n + ".", ext);
    assert (n + "." + ext)[..|n|] == n;
  }
}
