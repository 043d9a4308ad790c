/**
 * The behaviour of the Go language and of the Go standard library that the
 * core depends on: fixed-width integers, nil-able slices, `time.Duration`
 * arithmetic, `fmt`'s `%d`, `strings.Split` and `strings.ToUpper`.
 */
module GoStd {
  import opened Wrappers
  import opened Seqs

  type int32 = x: int | -0x8000_0000 <= x < 0x8000_0000

  type byte = x: int | 0 <= x < 0x100

  /** `time.Duration`: a signed 64-bit count of nanoseconds. */
  type Duration = d: int | -0x8000_0000_0000_0000 <= d < 0x8000_0000_0000_0000

  const MinDuration: int := -0x8000_0000_0000_0000
  const MaxDuration: int := 0x7fff_ffff_ffff_ffff

  /**
   * A Go slice: `nil`, or a possibly empty sequence. `len` and `range` see no
   * difference between `nil` and an empty slice; a comparison with `nil` does.
   */
  type Slice<T> = Option<seq<T>>

  function Elems<T>(s: Slice<T>): seq<T>
  {
    match s
    case None => []
    case Some(xs) => xs
  }

  /**
   * `append(s, x)`: the result is never `nil`. The ensures only spell out the
   * body for callers; this helper states no property of its own.
   */
  function Append<T>(s: Slice<T>, x: T): (r: Slice<T>)
    ensures r.Some? && Elems(r) == Elems(s) + [x]
  {
    Some(Elems(s) + [x])
  }

  /**
   * `t.Sub(u)` on instants given in nanoseconds: the difference, saturated to
   * the range of `Duration` when it does not fit.
   */
  function Sub(t: int, u: int): (d: Duration)
    ensures MinDuration <= t - u <= MaxDuration ==> d == t - u
    ensures t - u > MaxDuration ==> d == MaxDuration
    ensures t - u < MinDuration ==> d == MinDuration
    ensures d < 0 <==> t < u
    ensures d == 0 <==> t == u
  {
    if t - u > MaxDuration then MaxDuration
    else if t - u < MinDuration then MinDuration
    else t - u
  }

  // ---- fmt's %d ----------------------------------------------------------

  predicate IsDigit(c: char)
  {
    '0' <= c <= '9'
  }

  predicate AllDigits(s: string)
  {
    forall i :: 0 <= i < |s| ==> IsDigit(s[i])
  }

  function DigitChar(d: nat): (c: char)
    requires d < 10
    ensures IsDigit(c)
  {
    ('0' as int + d) as char
  }

  function DigitValue(c: char): nat
    requires IsDigit(c)
  {
    c as int - '0' as int
  }

  /** The decimal digits of `n`, most significant first, with no leading zero. */
  function NatDecimal(n: nat): (s: string)
    ensures |s| > 0 && AllDigits(s)
    decreases n
  {
    if n < 10 then [DigitChar(n)] else NatDecimal(n / 10) + [DigitChar(n % 10)]
  }

  /** `fmt.Sprintf("%d", n)`. */
  function Decimal(n: int): (s: string)
    ensures |s| > 0
    ensures forall i :: 0 <= i < |s| ==> IsDigit(s[i]) || s[i] == '-'
  {
    if n < 0 then "-" + NatDecimal(-n) else NatDecimal(n)
  }

  function DigitsValue(s: string): nat
    requires AllDigits(s)
  {
    if s == [] then 0 else DigitsValue(Init(s)) * 10 + DigitValue(Last(s))
  }

  /** The inverse of `Decimal`: an optional minus sign followed by digits. */
  function ParseDecimal(s: string): Option<int>
  {
    if |s| > 1 && s[0] == '-' && AllDigits(s[1..]) then Some(-(DigitsValue(s[1..]) as int))
    else if |s| > 0 && AllDigits(s) then Some(DigitsValue(s))
    else None
  }

  lemma {:induction false} NatDecimalRoundTrip(n: nat)
    ensures DigitsValue(NatDecimal(n)) == n
  {
    if n >= 10 {
      NatDecimalRoundTrip(n / 10);
      InitLastOfAppend(NatDecimal(n / 10), DigitChar(n % 10));
    }
  }

  /** `%d` loses nothing: its text reads back as the same number. */
  lemma DecimalRoundTrip(n: int)
    ensures ParseDecimal(Decimal(n)) == Some(n)
  {
    if n < 0 {
      NatDecimalRoundTrip(-n);
      assert Decimal(n)[1..] == NatDecimal(-n);
    } else {
      NatDecimalRoundTrip(n);
    }
  }

  // ---- strings.Split and strings.ToUpper ---------------------------------

  /** `strings.Split(s, string(sep))` for a separator of one character. */
  function Split(s: string, sep: char): (parts: seq<string>)
    ensures |parts| >= 1
    decreases |s|
  {
    if s == [] then [""]
    else
      var rest := Split(s[1..], sep);
      if s[0] == sep then [""] + rest else [[s[0]] + rest[0]] + rest[1..]
  }

  /** A string without the separator splits into itself alone. */
  lemma {:induction false} SplitWithoutSeparator(s: string, sep: char)
    requires sep !in s
    ensures Split(s, sep) == [s]
  {
    if s != [] {
      SplitWithoutSeparator(s[1..], sep);
      assert [s[0]] + s[1..] == s;
    }
  }

  /** Splitting at the first separator peels off the part before it. */
  lemma {:induction false} SplitAtFirstSeparator(a: string, sep: char, b: string)
    requires sep !in a
    ensures Split(a + [sep] + b, sep) == [a] + Split(b, sep)
  {
    if a == [] {
      assert a + [sep] + b == [sep] + b;
      assert ([sep] + b)[1..] == b;
    } else {
      assert (a + [sep] + b)[1..] == a[1..] + [sep] + b;
      SplitAtFirstSeparator(a[1..], sep, b);
      assert [a[0]] + a[1..] == a;
    }
  }

  /** The first part of a split: the longest separator-free prefix. */
  lemma {:induction false} SplitHead(s: string, sep: char)
    ensures sep !in Split(s, sep)[0]
    ensures |Split(s, sep)[0]| <= |s| && s[..|Split(s, sep)[0]|] == Split(s, sep)[0]
    ensures |Split(s, sep)[0]| < |s| ==> s[|Split(s, sep)[0]|] == sep
  {
    if s != [] {
      SplitHead(s[1..], sep);
    }
  }

  /** `unicode.ToUpper` on the ASCII letters; every other character is kept. */
  function UpperChar(c: char): char
  {
    if 'a' <= c <= 'z' then (c as int - 32) as char else c
  }

  /**
   * `strings.ToUpper`, character by character. The ensures only spell out the
   * comprehension for callers; the properties are ToUpperFacts and
   * ToUpperEqualIffCaseless.
   */
  function ToUpper(s: string): (r: string)
    ensures |r| == |s|
    ensures forall i :: 0 <= i < |s| ==> r[i] == UpperChar(s[i])
  {
    seq(|s|, i requires 0 <= i < |s| => UpperChar(s[i]))
  }

  /** Two characters that are equal, or the same ASCII letter in the two cases. */
  predicate SameIgnoringCase(c: char, d: char)
  {
    c == d || ('a' <= c <= 'z' && d as int == c as int - 32) || ('a' <= d <= 'z' && c as int == d as int - 32)
  }

  /**
   * Upper-casing leaves no ASCII lower-case letter, keeps every other
   * character, and changes nothing the second time.
   */
  lemma ToUpperFacts(s: string)
    ensures forall i :: 0 <= i < |s| ==> !('a' <= ToUpper(s)[i] <= 'z')
    ensures forall i :: 0 <= i < |s| && !('a' <= s[i] <= 'z') ==> ToUpper(s)[i] == s[i]
    ensures ToUpper(ToUpper(s)) == ToUpper(s)
  {
    assert forall i :: 0 <= i < |s| ==> ToUpper(ToUpper(s))[i] == ToUpper(s)[i];
  }

  /** Two strings upper-case alike exactly when they agree up to the case of ASCII letters. */
  lemma ToUpperEqualIffCaseless(a: string, b: string)
    ensures ToUpper(a) == ToUpper(b) <==> |a| == |b| && forall i :: 0 <= i < |a| ==> SameIgnoringCase(a[i], b[i])
  {
    if |a| == |b| && forall i :: 0 <= i < |a| ==> SameIgnoringCase(a[i], b[i]) {
      assert forall i :: 0 <= i < |a| ==> ToUpper(a)[i] == ToUpper(b)[i];
    }
    if ToUpper(a) == ToUpper(b) {
      assert forall i :: 0 <= i < |a| ==> UpperChar(a[i]) == UpperChar(b[i]);
    }
  }
}
