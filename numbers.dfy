/**
 * Decimal and hexadecimal text of integers, as Python's `int(s)`, `str(n)` and
 * `format(n, '0wX')` produce and read them (ASCII forms only).
 */
module Numbers {
  import opened Common

  // ---------------------------------------------------------------- decimal

  predicate IsDigit(c: char) { '0' <= c <= '9' }

  predicate AllDigits(s: string) { forall i :: 0 <= i < |s| ==> IsDigit(s[i]) }

  /** The value of a string of decimal digits, read most significant first. */
  function DigitsValue(s: string): nat
    requires AllDigits(s)
  {
    if s == [] then 0 else DigitsValue(s[..|s| - 1]) * 10 + (s[|s| - 1] as int - '0' as int)
  }

  /** A string Python's `int()` accepts here: an optional sign and at least one digit. */
  predicate IsDecimal(s: string) {
    if |s| > 0 && (s[0] == '-' || s[0] == '+') then |s| > 1 && AllDigits(s[1..])
    else |s| > 0 && AllDigits(s)
  }

  /** `int(s)` on a string; `None` stands for the ValueError. */
  function ParseInt(s: string): (r: Option<int>)
    ensures r.Some? <==> IsDecimal(s)
    ensures r.Some? && s[0] == '-' ==> r.value <= 0
    ensures r.Some? && s[0] != '-' ==> r.value >= 0
  {
    if |s| > 0 && (s[0] == '-' || s[0] == '+') then
      if |s| > 1 && AllDigits(s[1..]) then
        var v: int := DigitsValue(s[1..]);
        Some(if s[0] == '-' then -v else v)
      else None
    else if |s| > 0 && AllDigits(s) then Some(DigitsValue(s))
    else None
  }

  function DigitChar(d: nat): (c: char)
    requires d < 10
    ensures IsDigit(c) && c as int - '0' as int == d
  {
    (d + '0' as int) as char
  }

  /** `str(n)` for a non-negative `n`: its decimal digits, no leading zeros. */
  function ShowNat(n: nat): (s: string)
    ensures |s| > 0 && AllDigits(s)
  {
    if n < 10 then [DigitChar(n)] else ShowNat(n / 10) + [DigitChar(n % 10)]
  }

  /** `str(n)` for any integer `n`. */
  function ShowInt(n: int): (s: string)
  {
    if n < 0 then "-" + ShowNat(-n) else ShowNat(n)
  }

  lemma {:induction false} DigitsOfShowNat(n: nat)
    ensures DigitsValue(ShowNat(n)) == n
  {
    var s := ShowNat(n);
    if n >= 10 {
      DigitsOfShowNat(n / 10);
      assert s[..|s| - 1] == ShowNat(n / 10);
    }
  }

  /** Reading back what `str` wrote gives the same integer. */
  lemma ParseShowInt(n: int)
    ensures ParseInt(ShowInt(n)) == Some(n)
  {
    if n < 0 {
      ParseNegative(-n);
    } else {
      ParseShowNat(n);
    }
  }

  lemma ParseShowNat(n: nat)
    ensures ParseInt(ShowNat(n)) == Some(n)
  {
    var s := ShowNat(n);
    DigitsOfShowNat(n);
    assert IsDigit(s[0]);
  }

  lemma ParseNegative(m: nat)
    requires m > 0
    ensures ParseInt("-" + ShowNat(m)) == Some(-(m as int))
  {
    var s := "-" + ShowNat(m);
    DigitsOfShowNat(m);
    assert s[1..] == ShowNat(m);
  }

  // ------------------------------------------------------------ hexadecimal

  /** A digit of Python's `X` format: 0-9 and upper-case A-F. */
  predicate IsUpperHex(c: char) { '0' <= c <= '9' || 'A' <= c <= 'F' }

  predicate AllUpperHex(s: string) { forall i :: 0 <= i < |s| ==> IsUpperHex(s[i]) }

  function HexDigit(d: nat): (c: char)
    requires d < 16
    ensures IsUpperHex(c)
  {
    if d < 10 then (d + '0' as int) as char else (d - 10 + 'A' as int) as char
  }

  /** The value of one upper-case hexadecimal digit. */
  function HexDigitValue(c: char): (d: nat)
    requires IsUpperHex(c)
    ensures d < 16 && HexDigit(d) == c
  {
    if '0' <= c <= '9' then c as int - '0' as int else c as int - 'A' as int + 10
  }

  /** The value of a string of upper-case hexadecimal digits, most significant first. */
  function HexValue(s: string): nat
    requires AllUpperHex(s)
  {
    if s == [] then 0 else HexValue(s[..|s| - 1]) * 16 + HexDigitValue(s[|s| - 1])
  }

  /** Upper-case hexadecimal digits of `n`, no leading zeros ("0" for zero). */
  function HexNat(n: nat): (s: string)
    ensures |s| > 0 && AllUpperHex(s)
  {
    if n < 16 then [HexDigit(n)] else HexNat(n / 16) + [HexDigit(n % 16)]
  }

  function Zeros(k: nat): (s: string)
    ensures |s| == k && forall i :: 0 <= i < k ==> s[i] == '0'
  {
    if k == 0 then "" else Zeros(k - 1) + "0"
  }

  /** `s` padded on the left with zeros to at least `w` characters. */
  function PadZeros(s: string, w: nat): (r: string)
    ensures |r| == if |s| < w then w else |s|
  {
    if |s| < w then Zeros(w - |s|) + s else s
  }

  /**
   * Python's `format(n, '0wX')`: upper-case hexadecimal, zero-padded to width `w`,
   * the zeros going after the sign of a negative number.
   */
  function FormatHex(n: int, w: nat): string
  {
    if n < 0 then "-" + PadZeros(HexNat(-n), if w > 0 then w - 1 else 0)
    else PadZeros(HexNat(n), w)
  }

  function Pow16(k: nat): (p: nat)
    ensures p > 0
  {
    if k == 0 then 1 else 16 * Pow16(k - 1)
  }

  /** Exactly `k` hexadecimal digits of `n` modulo 16^k. */
  function FixedHex(n: int, k: nat): (s: string)
    ensures |s| == k && AllUpperHex(s)
    decreases k
  {
    if k == 0 then "" else FixedHex(n / 16, k - 1) + [HexDigit(n % 16)]
  }

  lemma {:induction false} HexValueOfHexNat(n: nat)
    ensures HexValue(HexNat(n)) == n
  {
    var s := HexNat(n);
    if n >= 16 {
      HexValueOfHexNat(n / 16);
      assert s[..|s| - 1] == HexNat(n / 16);
    }
  }

  lemma {:induction false} ZerosValue(k: nat)
    ensures AllUpperHex(Zeros(k)) && HexValue(Zeros(k)) == 0
  {
    if k > 0 {
      assert Zeros(k)[..k - 1] == Zeros(k - 1);
      ZerosValue(k - 1);
    }
  }

  lemma {:induction false} HexValueOfZerosPrefix(k: nat, s: string)
    requires AllUpperHex(s)
    ensures AllUpperHex(Zeros(k) + s) && HexValue(Zeros(k) + s) == HexValue(s)
  {
    var t := Zeros(k) + s;
    ZerosValue(k);
    forall i | 0 <= i < |t| ensures IsUpperHex(t[i]) {
      if i < k { assert t[i] == Zeros(k)[i]; } else { assert t[i] == s[i - k]; }
    }
    if s == [] {
      assert t == Zeros(k);
    } else {
      var s' := s[..|s| - 1];
      HexValueOfZerosPrefix(k, s');
      assert t[..|t| - 1] == Zeros(k) + s';
      assert t[|t| - 1] == s[|s| - 1];
    }
  }

  /**
   * `format(n, '0wX')` of a non-negative `n` is upper-case hexadecimal of the
   * value `n`, at least `w` digits long, and longer only when `n` needs more.
   */
  lemma FormatHexNonNegative(n: nat, w: nat)
    ensures var s := FormatHex(n, w);
      && AllUpperHex(s)
      && HexValue(s) == n
      && |s| == (if |HexNat(n)| < w then w else |HexNat(n)|)
  {
    var h := HexNat(n);
    assert FormatHex(n, w) == PadZeros(h, w);
    HexValueOfHexNat(n);
    if |h| < w {
      HexValueOfZerosPrefix(w - |h|, h);
      assert PadZeros(h, w) == Zeros(w - |h|) + h;
    }
  }

  lemma {:induction false} HexNatLength(n: nat, k: nat)
    requires n < Pow16(k)
    ensures |HexNat(n)| <= (if k == 0 then 1 else k)
  {
    if n >= 16 {
      assert k >= 2;
      HexNatLength(n / 16, k - 1);
    }
  }

  lemma {:induction false} FixedHexOfHexNat(n: nat, k: nat)
    requires n < Pow16(k) && |HexNat(n)| <= k
    ensures PadZeros(HexNat(n), k) == FixedHex(n, k)
  {
    if n < 16 {
      FixedZeros(k - 1);
      assert FixedHex(n, k) == FixedHex(0, k - 1) + [HexDigit(n)];
      assert PadZeros(HexNat(n), k) == Zeros(k - 1) + [HexDigit(n)];
    } else {
      var h := HexNat(n / 16);
      var d := HexDigit(n % 16);
      assert HexNat(n) == h + [d];
      assert n / 16 < Pow16(k - 1);
      FixedHexOfHexNat(n / 16, k - 1);
      assert PadZeros(HexNat(n), k) == Zeros(k - |HexNat(n)|) + h + [d];
      assert PadZeros(h, k - 1) == Zeros(k - 1 - |h|) + h;
      assert PadZeros(HexNat(n), k) == PadZeros(h, k - 1) + [d];
    }
  }

  lemma {:induction false} FixedZeros(k: nat)
    ensures FixedHex(0, k) == Zeros(k)
  {
    if k > 0 { FixedZeros(k - 1); }
  }

  /** For `n` below 16^w with `w > 0`, `format(n, '0wX')` is exactly `w` digits. */
  lemma FormatHexFixed(n: nat, w: nat)
    requires 0 < w && n < Pow16(w)
    ensures FormatHex(n, w) == FixedHex(n, w)
  {
    HexNatLength(n, w);
    FixedHexOfHexNat(n, w);
  }

  // ---------------------------------------------------- Euclidean division

  lemma MulNonNegative(a: int, b: int)
    requires a >= 0 && b >= 0
    ensures a * b >= 0
  {
  }

  lemma MulAtLeast(k: int, d: int)
    requires k >= 1 && d > 0
    ensures k * d >= d
  {
    var j := k - 1;
    MulNonNegative(j, d);
    assert k * d == j * d + d;
  }

  lemma DivModUnique(x: int, d: int, q: int, r: int)
    requires d > 0 && 0 <= r < d && x == q * d + r
    ensures x / d == q && x % d == r
  {
    var q0, r0 := x / d, x % d;
    assert x == q0 * d + r0 && 0 <= r0 < d;
    if q0 > q {
      assert (q0 - q) * d == q0 * d - q * d;
      MulAtLeast(q0 - q, d);
      assert false;
    } else if q0 < q {
      assert (q - q0) * d == q * d - q0 * d;
      MulAtLeast(q - q0, d);
      assert false;
    }
  }

  /** Splitting a quotient and remainder by `m * n` into one by `m` and one by `n`. */
  lemma DivModSplit(x: int, m: int, n: int)
    requires m > 0 && n > 0
    ensures x / (m * n) == x / m / n
    ensures x % (m * n) == (x / m) % n * m + x % m
  {
    var q, r := x / m, x % m;
    var q2, r2 := q / n, q % n;
    assert x == q * m + r;
    assert q == q2 * n + r2;
    assert q * m == q2 * (m * n) + r2 * m;
    assert x == q2 * (m * n) + (r2 * m + r);
    assert r2 * m <= (n - 1) * m by {
      MulNonNegative(n - 1 - r2, m);
      assert (n - 1 - r2) * m == (n - 1) * m - r2 * m;
    }
    assert (n - 1) * m == m * n - m;
    DivModUnique(x, m * n, q2, r2 * m + r);
  }

  lemma {:induction false} FixedHexSplit(x: nat, a: nat, b: nat)
    ensures FixedHex(x, a + b) == FixedHex(x / Pow16(b), a) + FixedHex(x % Pow16(b), b)
  {
    if b == 0 {
      assert x / Pow16(b) == x && FixedHex(x % Pow16(b), b) == [];
    } else {
      var p := Pow16(b - 1);
      var y := x % Pow16(b);
      var d := [HexDigit(x % 16)];
      assert Pow16(b) == 16 * p;
      DivModSplit(x, 16, p);
      assert y == (x / 16) % p * 16 + x % 16;
      DivModUnique(y, 16, (x / 16) % p, x % 16);
      var hi, lo := FixedHex(x / 16 / p, a), FixedHex((x / 16) % p, b - 1);
      FixedHexSplit(x / 16, a, b - 1);
      calc {
        FixedHex(x, a + b);
        FixedHex(x / 16, a + b - 1) + d;
        (hi + lo) + d;
        hi + (lo + d);
        { assert FixedHex(y, b) == lo + d; }
        FixedHex(x / Pow16(b), a) + FixedHex(y, b);
      }
    }
  }
}
