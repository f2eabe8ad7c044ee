/** Decimal numerals, as written by an integer formatter and as zero-padded fields. */
module Digits {

  function Digit(n: nat): (c: char)
    requires n < 10
    ensures IsDigit(c)
  {
    ('0' as int + n) as char
  }

  predicate IsDigit(c: char) {
    '0' <= c <= '9'
  }

  predicate AllDigits(s: string) {
    forall i :: 0 <= i < |s| ==> IsDigit(s[i])
  }

  /** The shortest numeral. */
  function Decimal(n: nat): (s: string)
    ensures |s| >= 1
    decreases n
  {
    if n < 10 then [Digit(n)] else Decimal(n / 10) + [Digit(n % 10)]
  }

  function Value(s: string): nat
    requires AllDigits(s)
  {
    if s == "" then 0 else Value(s[..|s| - 1]) * 10 + (s[|s| - 1] as int - '0' as int)
  }

  function Power10(k: nat): (p: nat)
    ensures p >= 1
  {
    if k == 0 then 1 else 10 * Power10(k - 1)
  }

  /** A numeral reads back, has no leading zero unless it is zero itself, and is as short as can be. */
  lemma {:induction false} DecimalReadsBack(n: nat)
    ensures AllDigits(Decimal(n)) && Value(Decimal(n)) == n
    ensures Decimal(n)[0] == '0' ==> n == 0
    ensures n < Power10(|Decimal(n)|)
    ensures |Decimal(n)| > 1 ==> n >= Power10(|Decimal(n)| - 1)
    decreases n
  {
    if n >= 10 {
      DecimalReadsBack(n / 10);
      var s := Decimal(n);
      assert s[..|s| - 1] == Decimal(n / 10);
      assert |Decimal(n / 10)| == 1 ==> n / 10 >= 1;
    } else {
      assert [Digit(n)][..0] == "";
      assert Power10(1) == 10 * Power10(0);
    }
  }

  /** The last `width` digits, with leading zeros. */
  function Fixed(n: nat, width: nat): (s: string)
    ensures |s| == width && AllDigits(s)
  {
    if width == 0 then "" else Fixed(n / 10, width - 1) + [Digit(n % 10)]
  }

  lemma {:induction false} FixedReadsBack(n: nat, width: nat)
    requires n < Power10(width)
    ensures Value(Fixed(n, width)) == n
  {
    if width > 0 {
      FixedReadsBack(n / 10, width - 1);
      var s := Fixed(n, width);
      assert s[..|s| - 1] == Fixed(n / 10, width - 1);
    }
  }

  function Zeros(k: nat): (s: string)
    ensures |s| == k && forall i :: 0 <= i < k ==> s[i] == '0'
  {
    if k == 0 then "" else ['0'] + Zeros(k - 1)
  }

  lemma {:induction false} FixedZero(width: nat)
    ensures Fixed(0, width) == Zeros(width)
  {
    if width > 0 {
      FixedZero(width - 1);
      assert Digit(0) == '0';
    }
  }

  /** Padding the shortest numeral with zeros gives the fixed-width field. */
  lemma {:induction false} PaddedIsFixed(n: nat, width: nat)
    requires width >= 1 && n < Power10(width)
    ensures |Decimal(n)| <= width && Fixed(n, width) == Zeros(width - |Decimal(n)|) + Decimal(n)
    decreases width
  {
    if n < 10 {
      FixedZero(width - 1);
    } else {
      assert Power10(1) == 10 * Power10(0);
      PaddedIsFixed(n / 10, width - 1);
      PaddedAppend(Zeros(width - |Decimal(n)|), Decimal(n / 10), [Digit(n % 10)]);
    }
  }

  lemma PaddedAppend(zeros: string, numeral: string, last: string)
    ensures zeros + numeral + last == zeros + (numeral + last)
  {
  }

  // ---------------------------------------------------------------- lexicographic order

  predicate Less(a: string, b: string) {
    b != "" && (a == "" || a[0] < b[0] || (a[0] == b[0] && Less(a[1..], b[1..])))
  }

  /** Fields of equal width compare before what follows them. */
  lemma {:induction false} LessByField(x: string, y: string, r: string, s: string)
    requires |x| == |y|
    ensures Less(x + r, y + s) <==> Less(x, y) || (x == y && Less(r, s))
  {
    if x == "" {
      assert x + r == r && y + s == s;
    } else {
      LessByField(x[1..], y[1..], r, s);
      assert (x + r)[1..] == x[1..] + r && (y + s)[1..] == y[1..] + s;
      assert x == [x[0]] + x[1..] && y == [y[0]] + y[1..];
    }
  }

  lemma {:induction false} Irreflexive(a: string)
    ensures !Less(a, a)
  {
    if a != "" {
      Irreflexive(a[1..]);
    }
  }

  /** Fixed-width numerals sort as their values. */
  lemma {:induction false} FixedSorts(m: nat, n: nat, width: nat)
    requires m < Power10(width) && n < Power10(width)
    ensures Less(Fixed(m, width), Fixed(n, width)) <==> m < n
    ensures Fixed(m, width) == Fixed(n, width) <==> m == n
  {
    FixedReadsBack(m, width);
    FixedReadsBack(n, width);
    if width > 0 {
      FixedSorts(m / 10, n / 10, width - 1);
      LessByField(Fixed(m / 10, width - 1), Fixed(n / 10, width - 1), [Digit(m % 10)], [Digit(n % 10)]);
      assert [Digit(m % 10)][1..] == "" == [Digit(n % 10)][1..];
    }
  }
}
