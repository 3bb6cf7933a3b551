/** Byte order of short ASCII texts (what SQLite's BINARY collation compares) and
    decimal digits, the two things every stored timestamp is made of. */
module Text {

  /** `a` sorts strictly before `b` in byte order. */
  predicate LexLess(a: string, b: string) {
    if b == [] then false
    else if a == [] then true
    else if a[0] != b[0] then a[0] < b[0]
    else LexLess(a[1..], b[1..])
  }

  /** The SQL comparison `a <= b` on text. */
  predicate LexLe(a: string, b: string) {
    !LexLess(b, a)
  }

  lemma {:induction false} LexTotal(a: string, b: string)
    ensures a == b || LexLess(a, b) || LexLess(b, a)
    ensures !(LexLess(a, b) && LexLess(b, a))
    ensures !LexLess(a, a)
  {
    if a != [] && b != [] && a[0] == b[0] {
      LexTotal(a[1..], b[1..]);
      if a[1..] == b[1..] {
        assert a == [a[0]] + a[1..] && b == [b[0]] + b[1..];
      }
    }
    if a != [] {
      LexTotal(a[1..], a[1..]);
    }
  }

  lemma {:induction false} LexLessTransitive(a: string, b: string, c: string)
    requires LexLess(a, b) && LexLess(b, c)
    ensures LexLess(a, c)
  {
    if a != [] && a[0] == b[0] && b[0] == c[0] {
      LexLessTransitive(a[1..], b[1..], c[1..]);
    }
  }

  lemma {:induction false} LexLessPrefix(a: string, b: string, x: string, y: string)
    requires |a| == |b| && LexLess(a, b)
    ensures LexLess(a + x, b + y)
  {
    if a != [] {
      assert (a + x)[1..] == a[1..] + x && (b + y)[1..] == b[1..] + y;
      if a[0] == b[0] {
        LexLessPrefix(a[1..], b[1..], x, y);
      }
    }
  }

  lemma {:induction false} LexCommonPrefix(a: string, x: string, y: string)
    ensures LexLess(a + x, a + y) <==> LexLess(x, y)
  {
    if a == [] {
      assert a + x == x && a + y == y;
    } else {
      assert (a + x)[1..] == a[1..] + x && (a + y)[1..] == a[1..] + y;
      LexCommonPrefix(a[1..], x, y);
    }
  }

  // ----- decimal digits

  predicate IsDigit(c: char) {
    '0' <= c <= '9'
  }

  predicate AllDigits(s: string) {
    forall i :: 0 <= i < |s| ==> IsDigit(s[i])
  }

  function Digit(d: nat): (c: char)
    requires d < 10
    ensures IsDigit(c)
  {
    '0' + d as char
  }

  function DigitOf(c: char): (d: nat)
    requires IsDigit(c)
    ensures d < 10 && Digit(d) == c
  {
    (c - '0') as nat
  }

  function Pow10(n: nat): (p: nat)
    ensures p >= 1
  {
    if n == 0 then 1 else 10 * Pow10(n - 1)
  }

  /** The last `width` decimal digits of `n`, zero-padded on the left. */
  function Decimal(n: nat, width: nat): (s: string)
    ensures |s| == width && AllDigits(s)
    decreases width
  {
    if width == 0 then "" else Decimal(n / 10, width - 1) + [Digit(n % 10)]
  }

  /** The number a digit string denotes. */
  function Number(s: string): nat
    requires AllDigits(s)
  {
    if s == [] then 0 else 10 * Number(s[..|s| - 1]) + DigitOf(s[|s| - 1])
  }

  lemma {:induction false} NumberBound(s: string)
    requires AllDigits(s)
    ensures Number(s) < Pow10(|s|)
  {
    if s != [] {
      NumberBound(s[..|s| - 1]);
    }
  }

  lemma {:induction false} NumberOfDecimal(n: nat, width: nat)
    requires n < Pow10(width)
    ensures Number(Decimal(n, width)) == n
    decreases width
  {
    if width != 0 {
      NumberOfDecimal(n / 10, width - 1);
      var s := Decimal(n, width);
      assert s[..|s| - 1] == Decimal(n / 10, width - 1);
      assert DigitOf(s[|s| - 1]) == n % 10;
    }
  }

  lemma {:induction false} DecimalOfNumber(s: string)
    requires AllDigits(s)
    ensures Decimal(Number(s), |s|) == s
  {
    if s != [] {
      DecimalOfNumber(s[..|s| - 1]);
      assert s == s[..|s| - 1] + [s[|s| - 1]];
    }
  }

  /** Numeric order is text order once both numbers are padded to one width. */
  lemma {:induction false} DecimalOrder(n: nat, m: nat, width: nat)
    requires n < m < Pow10(width)
    ensures LexLess(Decimal(n, width), Decimal(m, width))
    decreases width
  {
    var p, q := Decimal(n / 10, width - 1), Decimal(m / 10, width - 1);
    if n / 10 < m / 10 {
      DecimalOrder(n / 10, m / 10, width - 1);
      LexLessPrefix(p, q, [Digit(n % 10)], [Digit(m % 10)]);
    } else {
      LexCommonPrefix(p, [Digit(n % 10)], [Digit(m % 10)]);
    }
  }

  /** Unpadded decimal text of a natural number. */
  function DecimalText(n: nat): (s: string)
    ensures |s| >= 1 && AllDigits(s)
  {
    if n < 10 then [Digit(n)] else DecimalText(n / 10) + [Digit(n % 10)]
  }

  lemma {:induction false} NumberOfDecimalText(n: nat)
    ensures Number(DecimalText(n)) == n
  {
    var s := DecimalText(n);
    if n >= 10 {
      NumberOfDecimalText(n / 10);
      assert s[..|s| - 1] == DecimalText(n / 10);
    } else {
      assert s[..|s| - 1] == [];
    }
    assert DigitOf(s[|s| - 1]) == n % 10;
  }

  /** Length of the leading run of digits. */
  function DigitRun(s: string): (n: nat)
    ensures n <= |s| && AllDigits(s[..n])
    ensures n < |s| ==> !IsDigit(s[n])
  {
    if s == [] || !IsDigit(s[0]) then 0
    else
      var n := 1 + DigitRun(s[1..]);
      assert s[..n] == [s[0]] + s[1..][..n - 1];
      n
  }

  lemma {:induction false} DigitRunStops(digits: string, rest: string)
    requires AllDigits(digits) && (rest == [] || !IsDigit(rest[0]))
    ensures DigitRun(digits + rest) == |digits|
  {
    if digits == [] {
      assert digits + rest == rest;
    } else {
      assert (digits + rest)[1..] == digits[1..] + rest;
      DigitRunStops(digits[1..], rest);
    }
  }

  // ----- fractions

  /** Drops trailing zeros. */
  function TrimZeros(s: string): (t: string)
    requires AllDigits(s)
    ensures t <= s && AllDigits(t)
    ensures t != [] ==> t[|t| - 1] != '0'
    ensures forall i :: |t| <= i < |s| ==> s[i] == '0'
  {
    if s != [] && s[|s| - 1] == '0' then TrimZeros(s[..|s| - 1]) else s
  }

  lemma {:induction false} TrimZerosNumber(s: string)
    requires AllDigits(s)
    ensures Number(TrimZeros(s)) * Pow10(|s| - |TrimZeros(s)|) == Number(s)
  {
    if s != [] && s[|s| - 1] == '0' {
      var r := s[..|s| - 1];
      TrimZerosNumber(r);
      assert DigitOf('0') == 0;
      MulTen(Number(TrimZeros(r)), Pow10(|r| - |TrimZeros(r)|));
    }
  }

  lemma MulTen(n: nat, p: nat)
    ensures n * (10 * p) == 10 * (n * p)
  {
  }

  /** Where two unequal texts of one length first differ. */
  lemma {:induction false} FirstDifference(a: string, b: string) returns (k: nat)
    requires |a| == |b| && LexLess(a, b)
    ensures k < |a| && a[..k] == b[..k] && a[k] < b[k]
  {
    if a[0] != b[0] {
      k := 0;
    } else {
      var j := FirstDifference(a[1..], b[1..]);
      k := j + 1;
      assert a[..k] == [a[0]] + a[1..][..j] && b[..k] == [b[0]] + b[1..][..j];
    }
  }
}
