/**
 * The .NET string and integer primitives the plugin leans on: `string.IsNullOrWhiteSpace`,
 * `string.IsNullOrEmpty`, `Trim`, `ToLowerInvariant`, `Contains` (ordinal and
 * ordinal-ignore-case), `int.ToString()` and `int.TryParse`.
 */
module Text {
  import opened Wrappers

  const MinInt32: int := -0x8000_0000
  const MaxInt32: int := 0x7FFF_FFFF

  /** C#'s `int`. */
  type Int32 = x: int | MinInt32 <= x <= MaxInt32

  // ---------------------------------------------------------------- blanks

  /** `char.IsWhiteSpace`: the characters with Unicode's White_Space property. */
  predicate IsWhiteSpace(c: char)
  {
    || '\U{9}' <= c <= '\U{D}'
    || c == ' ' || c == '\U{85}' || c == '\U{A0}' || c == '\U{1680}'
    || '\U{2000}' <= c <= '\U{200A}'
    || c == '\U{2028}' || c == '\U{2029}' || c == '\U{202F}' || c == '\U{205F}' || c == '\U{3000}'
  }

  predicate IsBlank(s: string)
  {
    forall i | 0 <= i < |s| :: IsWhiteSpace(s[i])
  }

  /** `string.IsNullOrWhiteSpace`. */
  predicate IsNullOrWhiteSpace(s: Option<string>)
  {
    s.None? || IsBlank(s.value)
  }

  /** `string.IsNullOrEmpty`. */
  predicate IsNullOrEmpty(s: Option<string>)
  {
    s.None? || s.value == ""
  }

  // ---------------------------------------------------------------- Trim

  function TrimStart(s: string): string
    decreases |s|
  {
    if s != [] && IsWhiteSpace(s[0]) then TrimStart(s[1..]) else s
  }

  function TrimEnd(s: string): string
    decreases |s|
  {
    if s != [] && IsWhiteSpace(s[|s| - 1]) then TrimEnd(s[..|s| - 1]) else s
  }

  /** `string.Trim()`. */
  function Trim(s: string): string
  {
    TrimEnd(TrimStart(s))
  }

  /** TrimStart drops exactly the longest blank prefix. */
  lemma {:induction false} TrimStartIsSuffix(s: string)
    ensures |TrimStart(s)| <= |s|
    ensures TrimStart(s) == s[|s| - |TrimStart(s)|..]
    ensures IsBlank(s[..|s| - |TrimStart(s)|])
    ensures TrimStart(s) == [] || !IsWhiteSpace(TrimStart(s)[0])
    decreases |s|
  {
    if s != [] && IsWhiteSpace(s[0]) {
      TrimStartIsSuffix(s[1..]);
      var k := |s| - |TrimStart(s)|;
      assert s[..k] == [s[0]] + s[1..][..k - 1];
    }
  }

  /** TrimEnd drops exactly the longest blank suffix. */
  lemma {:induction false} TrimEndIsPrefix(s: string)
    ensures |TrimEnd(s)| <= |s|
    ensures TrimEnd(s) == s[..|TrimEnd(s)|]
    ensures IsBlank(s[|TrimEnd(s)|..])
    ensures TrimEnd(s) == [] || !IsWhiteSpace(TrimEnd(s)[|TrimEnd(s)| - 1])
    decreases |s|
  {
    if s != [] && IsWhiteSpace(s[|s| - 1]) {
      var s' := s[..|s| - 1];
      TrimEndIsPrefix(s');
      var k := |TrimEnd(s)|;
      assert s[k..] == s'[k..] + [s[|s| - 1]];
    }
  }

  /**
   * Trim yields the slice of `s` between a blank prefix and a blank suffix, and
   * that slice neither starts nor ends with white space.
   */
  lemma TrimIsInnerSlice(s: string)
    ensures exists i, j :: 0 <= i <= j <= |s| && Trim(s) == s[i..j]
                           && IsBlank(s[..i]) && IsBlank(s[j..])
    ensures Trim(s) == [] || (!IsWhiteSpace(Trim(s)[0]) && !IsWhiteSpace(Trim(s)[|Trim(s)| - 1]))
  {
    var u := TrimStart(s);
    TrimStartIsSuffix(s);
    TrimEndIsPrefix(u);
    var i := |s| - |u|;
    var j := i + |TrimEnd(u)|;
    assert Trim(s) == s[i..j];
    assert s[j..] == u[|TrimEnd(u)|..];
  }

  lemma {:induction false} TrimStartSkipsBlankPrefix(w: string, t: string)
    requires IsBlank(w)
    ensures TrimStart(w + t) == TrimStart(t)
    decreases |w|
  {
    if w != [] {
      assert (w + t)[1..] == w[1..] + t;
      TrimStartSkipsBlankPrefix(w[1..], t);
    } else {
      assert w + t == t;
    }
  }

  lemma {:induction false} TrimEndSkipsBlankSuffix(t: string, w: string)
    requires IsBlank(w)
    ensures TrimEnd(t + w) == TrimEnd(t)
    decreases |w|
  {
    if w != [] {
      assert (t + w)[..|t + w| - 1] == t + w[..|w| - 1];
      TrimEndSkipsBlankSuffix(t, w[..|w| - 1]);
    } else {
      assert t + w == t;
    }
  }

  lemma {:induction false} TrimStartOfAppend(t: string, w: string)
    ensures IsBlank(t) ==> TrimStart(t + w) == TrimStart(w)
    ensures !IsBlank(t) ==> TrimStart(t + w) == TrimStart(t) + w
    decreases |t|
  {
    if t == [] {
      assert t + w == w;
    } else {
      assert (t + w)[1..] == t[1..] + w;
      TrimStartOfAppend(t[1..], w);
      if IsWhiteSpace(t[0]) {
        assert IsBlank(t) <==> IsBlank(t[1..]);
      } else {
        assert !IsBlank(t);
      }
    }
  }

  lemma BlankTrimsToEmpty(t: string)
    requires IsBlank(t)
    ensures TrimStart(t) == []
  {
    TrimStartOfAppend(t, []);
    assert t + [] == t;
  }

  /** Surrounding white space makes no difference to Trim. */
  lemma TrimIgnoresSurroundingBlanks(w1: string, t: string, w2: string)
    requires IsBlank(w1) && IsBlank(w2)
    ensures Trim(w1 + t + w2) == Trim(t)
  {
    assert w1 + t + w2 == w1 + (t + w2);
    TrimStartSkipsBlankPrefix(w1, t + w2);
    TrimStartOfAppend(t, w2);
    if IsBlank(t) {
      BlankTrimsToEmpty(t);
      BlankTrimsToEmpty(w2);
    } else {
      TrimEndSkipsBlankSuffix(TrimStart(t), w2);
    }
  }

  // ---------------------------------------------------------------- letter case

  /**
   * `char.ToLowerInvariant` on Basic Latin and on the Cyrillic block (А-Я and Ѐ-Џ);
   * every other character is returned unchanged.
   */
  function LowerChar(c: char): char
  {
    if 'A' <= c <= 'Z' then (c as int + 32) as char
    else if '\U{410}' <= c <= '\U{42F}' then (c as int + 32) as char
    else if '\U{400}' <= c <= '\U{40F}' then (c as int + 80) as char
    else c
  }

  /** `string.ToLowerInvariant()`. */
  function ToLower(s: string): string
  {
    seq(|s|, i requires 0 <= i < |s| => LowerChar(s[i]))
  }

  /** Lower-casing twice is lower-casing once. */
  lemma ToLowerIdempotent(s: string)
    ensures ToLower(ToLower(s)) == ToLower(s)
  {
  }

  /** Only letters change case, so white space survives lower-casing unchanged. */
  lemma LowerKeepsWhiteSpace(c: char)
    ensures IsWhiteSpace(LowerChar(c)) <==> IsWhiteSpace(c)
  {
  }

  lemma {:induction false} TrimStartCommutesWithLower(s: string)
    ensures TrimStart(ToLower(s)) == ToLower(TrimStart(s))
    decreases |s|
  {
    if s != [] {
      LowerKeepsWhiteSpace(s[0]);
      assert ToLower(s)[1..] == ToLower(s[1..]);
      TrimStartCommutesWithLower(s[1..]);
    }
  }

  lemma {:induction false} TrimEndCommutesWithLower(s: string)
    ensures TrimEnd(ToLower(s)) == ToLower(TrimEnd(s))
    decreases |s|
  {
    if s != [] {
      LowerKeepsWhiteSpace(s[|s| - 1]);
      assert ToLower(s)[..|s| - 1] == ToLower(s[..|s| - 1]);
      TrimEndCommutesWithLower(s[..|s| - 1]);
    }
  }

  /** Trimming and lower-casing can be done in either order. */
  lemma TrimCommutesWithLower(s: string)
    ensures Trim(ToLower(s)) == ToLower(Trim(s))
  {
    TrimStartCommutesWithLower(s);
    TrimEndCommutesWithLower(TrimStart(s));
  }

  // ---------------------------------------------------------------- Contains

  /** `s.Contains(p)` with ordinal comparison. */
  predicate Contains(s: string, p: string)
  {
    exists i | 0 <= i <= |s| - |p| :: p <= s[i..]
  }

  /** `s.Contains(p, StringComparison.OrdinalIgnoreCase)`. */
  predicate ContainsIgnoreCase(s: string, p: string)
  {
    Contains(ToLower(s), ToLower(p))
  }

  /** A string made only of white space contains no pattern that has a visible character. */
  lemma BlankContainsNoVisible(s: string, p: string)
    requires IsBlank(s)
    requires exists k | 0 <= k < |p| :: !IsWhiteSpace(p[k])
    ensures !Contains(s, p)
  {
    var k :| 0 <= k < |p| && !IsWhiteSpace(p[k]);
    forall i | 0 <= i <= |s| - |p|
      ensures !(p <= s[i..])
    {
      assert IsWhiteSpace(s[i..][k]);
    }
  }

  // ---------------------------------------------------------------- int.ToString / int.TryParse

  predicate IsDigit(c: char)
  {
    '0' <= c <= '9'
  }

  predicate AllDigits(s: string)
  {
    forall i | 0 <= i < |s| :: IsDigit(s[i])
  }

  function DigitChar(d: int): char
    requires 0 <= d <= 9
  {
    ('0' as int + d) as char
  }

  /** The decimal digits of `n`, most significant first, without leading zeros. */
  function Digits(n: nat): string
    decreases n
  {
    if n < 10 then [DigitChar(n)] else Digits(n / 10) + [DigitChar(n % 10)]
  }

  /** `int.ToString()` with the invariant culture's minus sign. */
  function Show(n: int): string
  {
    if n < 0 then "-" + Digits(-n) else Digits(n)
  }

  /** The value of a run of decimal digits. */
  function DigitsValue(s: string): nat
    requires AllDigits(s)
    decreases |s|
  {
    if s == [] then 0 else DigitsValue(s[..|s| - 1]) * 10 + (s[|s| - 1] as int - '0' as int)
  }

  /** The white space `int.TryParse` skips around a number (NumberStyles.Integer). */
  predicate IsParseWhite(c: char)
  {
    '\U{9}' <= c <= '\U{D}' || c == ' '
  }

  function SkipLeadingWhite(s: string): string
    decreases |s|
  {
    if s != [] && IsParseWhite(s[0]) then SkipLeadingWhite(s[1..]) else s
  }

  function SkipTrailingWhite(s: string): string
    decreases |s|
  {
    if s != [] && IsParseWhite(s[|s| - 1]) then SkipTrailingWhite(s[..|s| - 1]) else s
  }

  /**
   * `int.TryParse(s, out v)`: `Some(v)` exactly when it returns true. Leading and trailing
   * white space and one leading sign are accepted; the value must fit in 32 bits.
   */
  function TryParseInt(s: string): Option<Int32>
  {
    var t := SkipTrailingWhite(SkipLeadingWhite(s));
    var signed := t != [] && (t[0] == '-' || t[0] == '+');
    var body := if signed then t[1..] else t;
    if body == [] || !AllDigits(body) then None
    else
      var magnitude: int := DigitsValue(body);
      var v := if signed && t[0] == '-' then -magnitude else magnitude;
      if MinInt32 <= v <= MaxInt32 then Some(v) else None
  }

  /** `int.TryParse` on a nullable string: a null string does not parse. */
  function TryParseNullable(s: Option<string>): Option<Int32>
  {
    if s.None? then None else TryParseInt(s.value)
  }

  lemma {:induction false} DigitsShape(n: nat)
    ensures |Digits(n)| > 0 && AllDigits(Digits(n))
    ensures DigitsValue(Digits(n)) == n
    decreases n
  {
    if n >= 10 {
      DigitsShape(n / 10);
      var d := Digits(n / 10);
      assert Digits(n)[..|Digits(n)| - 1] == d;
    }
  }

  /** What `int.ToString()` writes is a minus sign or a digit, followed by digits only. */
  lemma ShowShape(n: int)
    ensures |Show(n)| > 0
    ensures forall i | 0 <= i < |Show(n)| :: IsDigit(Show(n)[i]) || (i == 0 && Show(n)[i] == '-')
  {
    if n < 0 {
      DigitsShape(-n);
    } else {
      DigitsShape(n);
    }
  }

  /** `int.TryParse` reads back exactly the number that `int.ToString()` wrote. */
  lemma ParseShowRoundTrip(n: Int32)
    ensures TryParseInt(Show(n)) == Some(n)
  {
    var s := Show(n);
    ShowShape(n);
    assert SkipLeadingWhite(s) == s by {
      assert !IsParseWhite(s[0]);
    }
    assert SkipTrailingWhite(s) == s by {
      assert !IsParseWhite(s[|s| - 1]);
    }
    if n < 0 {
      ParseNegative(n);
    } else {
      DigitsShape(n);
      assert s[0] != '-' && s[0] != '+';
    }
  }

  lemma ParseNegative(n: Int32)
    requires n < 0
    ensures var m: nat := -(n as int); Show(n)[1..] == Digits(m) && Show(n)[0] == '-'
    ensures var m: nat := -(n as int); AllDigits(Digits(m)) && DigitsValue(Digits(m)) == m && Digits(m) != []
  {
    DigitsShape(-(n as int));
  }

  /** Different numbers are written differently. */
  lemma ShowInjective(a: Int32, b: Int32)
    requires Show(a) == Show(b)
    ensures a == b
  {
    ParseShowRoundTrip(a);
    ParseShowRoundTrip(b);
  }

  /** The written form of a number is never empty, so `IsNullOrEmpty` is false of it. */
  lemma ShowNotEmpty(n: int)
    ensures Show(n) != ""
  {
    ShowShape(n);
  }

  /** The written form of a number holds no colon. */
  lemma ShowHasNoColon(n: int)
    ensures forall i | 0 <= i < |Show(n)| :: Show(n)[i] != ':'
  {
    ShowShape(n);
  }
}
