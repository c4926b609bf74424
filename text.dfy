/** The few Kotlin string operations the core relies on, over `seq<char>`. */
module Text {

  /** Kotlin's `Char.isWhitespace()` on the JVM: the ASCII controls TAB..CR and
      FS..US, and the Unicode space, line and paragraph separators. */
  predicate IsWhitespace(c: char) {
    ('\t' <= c <= '\r') || ('\U{1C}' <= c <= '\U{1F}') || c == ' ' || c == '\U{A0}' || c == '\U{1680}'
    || ('\U{2000}' <= c <= '\U{200A}') || c == '\U{2028}' || c == '\U{2029}' || c == '\U{202F}'
    || c == '\U{205F}' || c == '\U{3000}'
  }

  /** The regular-expression class `\s` (without the Unicode flag): space, TAB, LF, VT, FF, CR. */
  predicate IsRegexSpace(c: char) {
    c == ' ' || ('\t' <= c <= '\r')
  }

  /** `trimStart()`: drops leading whitespace. */
  function TrimStart(s: string): (r: string)
    ensures |r| <= |s| && r == s[|s| - |r|..]
    ensures r == [] || !IsWhitespace(r[0])
    ensures forall i :: 0 <= i < |s| - |r| ==> IsWhitespace(s[i])
  {
    if s != [] && IsWhitespace(s[0]) then TrimStart(s[1..]) else s
  }

  /** Drops trailing whitespace. */
  function TrimEnd(s: string): (r: string)
    ensures |r| <= |s| && r == s[..|r|]
    ensures r == [] || !IsWhitespace(r[|r| - 1])
    ensures forall i :: |r| <= i < |s| ==> IsWhitespace(s[i])
  {
    if s != [] && IsWhitespace(s[|s| - 1]) then TrimEnd(s[..|s| - 1]) else s
  }

  /** `trim()`: drops whitespace at both ends. */
  function Trim(s: string): string {
    TrimEnd(TrimStart(s))
  }

  /** `isBlank()`: empty or whitespace only. */
  predicate IsBlank(s: string) {
    forall i :: 0 <= i < |s| ==> IsWhitespace(s[i])
  }

  /** A string is blank exactly when trimming leaves nothing, so the
      `trim().isNotEmpty()` test of the title extraction and `isNotBlank()`
      agree. */
  lemma {:induction false} BlankIffTrimEmpty(s: string)
    ensures IsBlank(s) <==> Trim(s) == []
  {
    var t := TrimStart(s);
    if Trim(s) == [] {
      assert t == [];
    } else {
      assert t != [] && !IsWhitespace(t[0]);
      assert s[|s| - |t|] == t[0];
    }
  }

  /** A concatenation is blank exactly when both parts are. */
  lemma {:induction false} BlankConcat(a: string, b: string)
    ensures IsBlank(a + b) <==> IsBlank(a) && IsBlank(b)
  {
    if IsBlank(a + b) {
      forall i | 0 <= i < |a| ensures IsWhitespace(a[i]) { assert a[i] == (a + b)[i]; }
      forall i | 0 <= i < |b| ensures IsWhitespace(b[i]) { assert b[i] == (a + b)[|a| + i]; }
    }
  }

  /** `Char.lowercaseChar()` on ASCII and Latin-1 letters; every other
      character is left as it is. */
  function LowerChar(c: char): char {
    if 'A' <= c <= 'Z' || ('\U{C0}' <= c <= '\U{DE}' && c != '\U{D7}') then (c as int + 32) as char else c
  }

  /** `lowercase()`, character by character. */
  function Lower(s: string): (r: string)
    ensures |r| == |s| && forall i :: 0 <= i < |s| ==> r[i] == LowerChar(s[i])
  {
    seq(|s|, i requires 0 <= i < |s| => LowerChar(s[i]))
  }

  predicate StartsWith(s: string, prefix: string) {
    |prefix| <= |s| && s[..|prefix|] == prefix
  }

  predicate EndsWith(s: string, suffix: string) {
    |suffix| <= |s| && s[|s| - |suffix|..] == suffix
  }

  /** `contains(needle, ignoreCase = true)`: some window of `s` matches `needle`
      once both are lower-cased. */
  predicate ContainsIgnoreCase(s: string, needle: string)
    decreases |s|
  {
    StartsWith(Lower(s), Lower(needle)) || (s != [] && ContainsIgnoreCase(s[1..], needle))
  }

  /** `take(n)`. */
  function Take(s: string, n: nat): (r: string)
    ensures |r| == (if |s| <= n then |s| else n) && r == s[..|r|]
  {
    if |s| <= n then s else s[..n]
  }

  /** `removeSuffix(suffix)`. */
  function RemoveSuffix(s: string, suffix: string): (r: string)
    ensures EndsWith(s, suffix) ==> r + suffix == s
    ensures !EndsWith(s, suffix) ==> r == s
  {
    if EndsWith(s, suffix) then s[..|s| - |suffix|] else s
  }

  /** Index of the last occurrence of `d`, or -1. */
  function LastIndexOf(s: string, d: char): (r: int)
    ensures -1 <= r < |s|
    ensures r >= 0 ==> s[r] == d
    ensures forall i :: r < i < |s| ==> s[i] != d
  {
    if s == [] then -1
    else if s[|s| - 1] == d then |s| - 1
    else LastIndexOf(s[..|s| - 1], d)
  }

  /** `substringAfterLast(d)`, with the whole string when `d` does not occur. */
  function SubstringAfterLast(s: string, d: char): (r: string)
    ensures d !in r
  {
    var i := LastIndexOf(s, d);
    if i < 0 then s else s[i + 1..]
  }

  /** `lines()`: splits at CRLF, LF and CR; always at least one line. */
  function Lines(s: string): (r: seq<string>)
    ensures |r| >= 1
    decreases |s|
  {
    if s == [] then [""]
    else if s[0] == '\n' then [""] + Lines(s[1..])
    else if s[0] == '\r' then
      if |s| > 1 && s[1] == '\n' then [""] + Lines(s[2..]) else [""] + Lines(s[1..])
    else
      var rest := Lines(s[1..]);
      [[s[0]] + rest[0]] + rest[1..]
  }

  function DigitChar(d: nat): char
    requires d < 10
  {
    "0123456789"[d]
  }

  /** Decimal rendering of a natural number. */
  function NatToString(n: nat): (r: string)
    ensures |r| >= 1
  {
    if n < 10 then [DigitChar(n)] else NatToString(n / 10) + [DigitChar(n % 10)]
  }

  /** Decimal rendering of an `Int`/`Long`, as string templates print it. */
  function IntToString(i: int): string {
    if i < 0 then "-" + NatToString(-i) else NatToString(i)
  }

  /** The strings `f` yields for each element, concatenated in order
      (a `buildString` loop that appends a block per element). */
  function ConcatMap<T>(xs: seq<T>, f: T -> string): string
    decreases |xs|
  {
    if xs == [] then "" else ConcatMap(xs[..|xs| - 1], f) + f(xs[|xs| - 1])
  }

  lemma {:induction false} ConcatMapAppend<T>(a: seq<T>, b: seq<T>, f: T -> string)
    ensures ConcatMap(a + b, f) == ConcatMap(a, f) + ConcatMap(b, f)
    decreases |b|
  {
    if b == [] {
      assert a + b == a;
    } else {
      var b' := b[..|b| - 1];
      ConcatMapAppend(a, b', f);
      assert (a + b)[..|a + b| - 1] == a + b';
    }
  }

  /** Splitting the concatenation around the element at `k`. */
  lemma {:induction false} ConcatMapAt<T>(xs: seq<T>, k: int, f: T -> string)
    requires 0 <= k < |xs|
    ensures ConcatMap(xs, f) == ConcatMap(xs[..k], f) + f(xs[k]) + ConcatMap(xs[k + 1..], f)
  {
    var front, back := xs[..k + 1], xs[k + 1..];
    assert front + back == xs;
    assert front[..|front| - 1] == xs[..k];
    assert front[|front| - 1] == xs[k];
    calc {
      ConcatMap(xs, f);
      ConcatMap(front + back, f);
      { ConcatMapAppend(front, back, f); }
      ConcatMap(front, f) + ConcatMap(back, f);
      ConcatMap(xs[..k], f) + f(xs[k]) + ConcatMap(back, f);
    }
  }

  /** Regrouping a concatenation around its part `c`. */
  lemma {:induction false} Regroup<T>(w: seq<T>, x: seq<T>, h: seq<T>, c: seq<T>, n: seq<T>, y: seq<T>)
    ensures w + (x + (h + c + n) + y) == (w + x + h) + c + (n + y)
  {
  }

  /** Moving one element across a concatenation. */
  lemma {:induction false} ShiftOne<T>(a: seq<T>, x: T, b: seq<T>)
    ensures a + ([x] + b) == (a + [x]) + b
  {
  }

  /** The middle part of a three-way concatenation sits right after the first. */
  lemma {:induction false} SliceOfMiddle<T>(x: seq<T>, y: seq<T>, z: seq<T>)
    ensures |x| + |y| <= |x + y + z| && (x + y + z)[|x|..|x| + |y|] == y
  {
  }

  /** `joinToString(separator)`. */
  function Join(xs: seq<string>, separator: string): string {
    if xs == [] then ""
    else if |xs| == 1 then xs[0]
    else xs[0] + separator + Join(xs[1..], separator)
  }

  /** Kotlin's `/` on `Int`: truncates toward zero. */
  function KotlinDiv(a: int, b: int): (q: int)
    requires b > 0
    ensures a >= 0 ==> q == a / b
    ensures a < 0 ==> q <= 0
  {
    if a >= 0 then a / b else -((-a) / b)
  }

  /** `coerceIn(lo, hi)`. */
  function CoerceIn(x: int, lo: int, hi: int): (r: int)
    requires lo <= hi
    ensures lo <= r <= hi
    ensures lo <= x <= hi ==> r == x
  {
    if x < lo then lo else if x > hi then hi else x
  }
}
