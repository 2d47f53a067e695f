/** The small pieces of Java library behaviour the modelled code leans on:
    `String.trim`, Apache Commons `StringUtils.isBlank`, `Collectors.joining`,
    `String.equalsIgnoreCase`, `Math.toIntExact`, the `(int)` narrowing cast and
    the decimal rendering of a `long` in string concatenation. */
module JavaText {
  import opened Wrappers

  const MinInt32: int := -0x8000_0000
  const MaxInt32: int := 0x7fff_ffff
  const MinInt64: int := -0x8000_0000_0000_0000
  const MaxInt64: int := 0x7fff_ffff_ffff_ffff

  predicate InInt32(x: int) {
    MinInt32 <= x <= MaxInt32
  }

  /** The Java `(int)` cast of a `long`: keeps the low 32 bits, two's complement. */
  function ToInt32(x: int): (r: int)
    ensures InInt32(r)
    ensures InInt32(x) ==> r == x
    ensures (r - x) % 0x1_0000_0000 == 0
  {
    var m := x % 0x1_0000_0000;
    if m > MaxInt32 then m - 0x1_0000_0000 else m
  }

  /** The product of two Java `int`s, which wraps around on overflow. */
  function MulInt32(a: int, b: int): (r: int)
    ensures InInt32(r)
    ensures InInt32(a * b) ==> r == a * b
  {
    ToInt32(a * b)
  }

  /** `Character.isWhitespace`: the ASCII controls TAB..CR and FS..US, and the Unicode
      space, line and paragraph separators other than the three no-break spaces. */
  predicate IsJavaWhitespace(c: char) {
    ('\t' <= c <= '\r') || ('\U{1C}' <= c <= ' ')
    || c == '\U{1680}' || ('\U{2000}' <= c <= '\U{2006}') || ('\U{2008}' <= c <= '\U{200A}')
    || c == '\U{2028}' || c == '\U{2029}' || c == '\U{205F}' || c == '\U{3000}'
  }

  /** `StringUtils.isBlank`: null, empty, or whitespace only. */
  predicate IsBlank(s: Option<string>) {
    s.None? || forall i | 0 <= i < |s.value| :: IsJavaWhitespace(s.value[i])
  }

  predicate IsNotBlank(s: Option<string>) {
    !IsBlank(s)
  }

  /** Drops the leading characters at or below U+0020, as `String.trim` does. */
  function TrimStart(s: string): (r: string)
    ensures |r| <= |s|
    ensures r == s[|s| - |r|..]
    ensures r != [] ==> r[0] > ' '
  {
    if |s| > 0 && s[0] <= ' ' then TrimStart(s[1..]) else s
  }

  /** Drops the trailing characters at or below U+0020. */
  function TrimEnd(s: string): (r: string)
    ensures |r| <= |s|
    ensures r == s[..|r|]
  {
    if |s| > 0 && s[|s| - 1] <= ' ' then TrimEnd(s[..|s| - 1]) else s
  }

  /** `String.trim`. */
  function Trim(s: string): (r: string)
    ensures |r| <= |s|
  {
    TrimEnd(TrimStart(s))
  }

  /** `s.trim().isEmpty()`; note that this is not `IsBlank`: `trim` removes every
      character up to U+0020, `isBlank` removes Unicode whitespace. */
  predicate TrimsToEmpty(s: string) {
    Trim(s) == []
  }

  lemma {:induction false} TrimStartEmptyIff(s: string)
    ensures TrimStart(s) == [] <==> forall i | 0 <= i < |s| :: s[i] <= ' '
  {
    if |s| > 0 && s[0] <= ' ' {
      TrimStartEmptyIff(s[1..]);
      assert forall i | 1 <= i < |s| :: s[i] == s[1..][i - 1];
    }
  }

  /** A string trims to nothing exactly when every character is at or below U+0020. */
  lemma {:induction false} TrimsToEmptyIff(s: string)
    ensures TrimsToEmpty(s) <==> forall i | 0 <= i < |s| :: s[i] <= ' '
  {
    var t := TrimStart(s);
    TrimStartEmptyIff(s);
    if t != [] {
      TrimEndKeepsFirst(t);
    }
  }

  lemma {:induction false} TrimEndKeepsFirst(t: string)
    requires t != [] && t[0] > ' '
    ensures TrimEnd(t) != []
  {
    if t[|t| - 1] <= ' ' {
      assert |t| > 1;
      TrimEndKeepsFirst(t[..|t| - 1]);
    }
  }

  /** `Collectors.joining(sep)` over a list of strings. */
  function Join(xs: seq<string>, sep: string): (r: string)
    ensures xs == [] ==> r == []
    ensures |xs| == 1 ==> r == xs[0]
  {
    if xs == [] then []
    else if |xs| == 1 then xs[0]
    else xs[0] + sep + Join(xs[1..], sep)
  }

  /** ASCII letters only: `Character.toUpperCase` for the characters the model meets. */
  function UpperAscii(c: char): char {
    if 'a' <= c <= 'z' then (c as int - 32) as char else c
  }

  function ToUpperAscii(s: string): (r: string)
    ensures |r| == |s|
    ensures forall i | 0 <= i < |s| :: r[i] == UpperAscii(s[i])
  {
    if s == [] then [] else [UpperAscii(s[0])] + ToUpperAscii(s[1..])
  }

  /** `a.equalsIgnoreCase(b)` with `a` a non-null constant and `b` possibly null. */
  predicate EqualsIgnoreCase(a: string, b: Option<string>) {
    b.Some? && |a| == |b.value| && ToUpperAscii(a) == ToUpperAscii(b.value)
  }

  function DigitChar(d: nat): (c: char)
    requires d < 10
    ensures '0' <= c <= '9'
  {
    ('0' as int + d) as char
  }

  /** The decimal digits of a natural number, without sign or leading zeros. */
  function NatString(n: nat): (r: string)
    ensures |r| >= 1
    ensures forall i | 0 <= i < |r| :: '0' <= r[i] <= '9'
    decreases n
  {
    if n < 10 then [DigitChar(n)] else NatString(n / 10) + [DigitChar(n % 10)]
  }

  /** `String.valueOf(long)`: what Java prints when a number is concatenated to a string. */
  function DecimalString(n: int): (r: string)
    ensures |r| >= 1
    ensures r[0] == '-' <==> n < 0
  {
    if n < 0 then "-" + NatString(-n) else NatString(n)
  }

  /** Different numbers have different decimal texts. */
  lemma {:induction false} NatStringInjective(a: nat, b: nat)
    requires NatString(a) == NatString(b)
    ensures a == b
    decreases a
  {
    var sa := NatString(a);
    if a >= 10 {
      assert |sa| >= 2 by {
        assert sa == NatString(a / 10) + [DigitChar(a % 10)];
      }
    }
    if b >= 10 {
      assert |sa| >= 2 by {
        assert sa == NatString(b / 10) + [DigitChar(b % 10)];
      }
    }
    if a < 10 && b < 10 {
      assert DigitChar(a) == sa[0] == DigitChar(b);
    } else if a >= 10 && b >= 10 {
      assert sa == NatString(a / 10) + [DigitChar(a % 10)];
      assert sa == NatString(b / 10) + [DigitChar(b % 10)];
      assert DigitChar(a % 10) == sa[|sa| - 1] == DigitChar(b % 10);
      assert NatString(a / 10) == sa[..|sa| - 1] == NatString(b / 10);
      NatStringInjective(a / 10, b / 10);
    }
  }

  /** `String.valueOf(long)` is injective: the text determines the number. */
  lemma {:induction false} DecimalStringInjective(a: int, b: int)
    requires DecimalString(a) == DecimalString(b)
    ensures a == b
  {
    if a < 0 {
      assert b < 0;
      assert NatString(-a) == DecimalString(a)[1..] == NatString(-b);
      NatStringInjective(-a, -b);
    } else {
      NatStringInjective(a, b);
    }
  }

  /** `Math.toIntExact`: the value when it fits in an `int`, otherwise an ArithmeticException. */
  function ToIntExact(x: int): (r: Option<int>)
    ensures r.Some? <==> InInt32(x)
    ensures r.Some? ==> r.value == x
  {
    if InInt32(x) then Some(x) else None
  }
}
