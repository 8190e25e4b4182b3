/** Small building blocks shared by the component models: an optional value
    (JavaScript's `null`/`undefined`), the clamp written with `Math.min` and
    `Math.max`, and the decimal rendering `String(n)` of a natural number. */
module Common {

  /** A value that may be absent (`null` or `undefined` in the components). */
  datatype Option<T> = None | Some(value: T)

  /** The measured position of a DOM element: its `offsetTop` and
      `offsetHeight`. */
  datatype Box = Box(offsetTop: real, offsetHeight: real)

  /** `Math.min(Math.max(x, lo), hi)`; with `lo <= hi` it equals
      `Math.max(lo, Math.min(hi, x))` as well. */
  function Clamp(x: real, lo: real, hi: real): (r: real)
    requires lo <= hi
    ensures lo <= r <= hi
    ensures lo <= x <= hi ==> r == x
    ensures x < lo ==> r == lo
    ensures x > hi ==> r == hi
  {
    if x < lo then lo else if x > hi then hi else x
  }

  /** A ratio against a positive span is at most 0 for a non-positive
      numerator and at least 1 once the numerator reaches the span. */
  lemma RatioBounds(x: real, span: real)
    requires span > 0.0
    ensures x <= 0.0 ==> x / span <= 0.0
    ensures x >= span ==> x / span >= 1.0
  {
    var r := x / span;
    assert r * span == x;
    assert (r - 1.0) * span == x - span;
  }

  /** `c` repeated `n` times. */
  function Repeat<T>(c: T, n: nat): (r: seq<T>)
    ensures |r| == n
    ensures forall i :: 0 <= i < n ==> r[i] == c
  {
    if n == 0 then [] else Repeat(c, n - 1) + [c]
  }

  function Digit(d: nat): (c: char)
    requires d < 10
    ensures '0' <= c <= '9'
  {
    (48 + d) as char
  }

  function DigitValue(c: char): nat
  {
    if '0' <= c <= '9' then c as int - 48 else 0
  }

  predicate AllDigits(s: string)
  {
    forall i :: 0 <= i < |s| ==> '0' <= s[i] <= '9'
  }

  /** `String(n)` for a natural number: its decimal digits, most significant
      first, without leading zeros. */
  function Decimal(n: nat): (s: string)
    ensures 1 <= |s|
    ensures AllDigits(s)
    ensures n < 10 <==> |s| == 1
    ensures |s| == 1 ==> s[0] == Digit(n)
    ensures s[0] == '0' <==> n == 0
    decreases n
  {
    if n < 10 then [Digit(n)] else Decimal(n / 10) + [Digit(n % 10)]
  }

  /** Reads a string of decimal digits back as a number (the inverse of
      `Decimal`, tolerant of leading zeros). */
  function ParseDecimal(s: string): nat
  {
    if s == [] then 0 else ParseDecimal(s[..|s| - 1]) * 10 + DigitValue(s[|s| - 1])
  }

  lemma {:induction false} ParseDecimalOfDecimal(n: nat)
    ensures ParseDecimal(Decimal(n)) == n
    decreases n
  {
    if n >= 10 {
      var s := Decimal(n);
      assert s[..|s| - 1] == Decimal(n / 10);
      ParseDecimalOfDecimal(n / 10);
    }
  }

  lemma {:induction false} ParseDecimalOfZeros(k: nat)
    ensures ParseDecimal(Repeat('0', k)) == 0
  {
    if k > 0 {
      assert Repeat('0', k)[..k - 1] == Repeat('0', k - 1);
      ParseDecimalOfZeros(k - 1);
    }
  }

  /** Leading zeros do not change the value that is read back. */
  lemma {:induction false} ParseDecimalSkipsLeadingZeros(k: nat, s: string)
    ensures ParseDecimal(Repeat('0', k) + s) == ParseDecimal(s)
    decreases |s|
  {
    var z := Repeat('0', k);
    if s == [] {
      assert z + s == z;
      ParseDecimalOfZeros(k);
    } else {
      var t := z + s;
      assert t[..|t| - 1] == z + s[..|s| - 1];
      assert t[|t| - 1] == s[|s| - 1];
      ParseDecimalSkipsLeadingZeros(k, s[..|s| - 1]);
    }
  }

  function Min(a: nat, b: nat): nat
  {
    if a <= b then a else b
  }

  /** `s.padStart(width, c)` for a one-character fill string. */
  function PadStart(s: string, width: nat, c: char): (r: string)
    ensures |r| == if |s| >= width then |s| else width
    ensures r[|r| - |s|..] == s
    ensures forall i :: 0 <= i < |r| - |s| ==> r[i] == c
  {
    if |s| >= width then s else Repeat(c, width - |s|) + s
  }

  /** Taking the remainder before or after adding one gives the same remainder. */
  lemma ModSucc(a: nat, t: nat)
    requires t > 1
    ensures (a % t + 1) % t == (a + 1) % t
  {
    var q, r := a / t, a % t;
    assert a == q * t + r;
    if r + 1 < t {
      ModUnique(a + 1, t, q, r + 1);
      ModUnique(r + 1, t, 0, r + 1);
    } else {
      MulSucc(q, t);
      ModUnique(a + 1, t, q + 1, 0);
      ModUnique(r + 1, t, 1, 0);
    }
  }

  /** The remainder is determined by any quotient-remainder decomposition. */
  lemma ModUnique(a: nat, t: nat, q: nat, r: nat)
    requires t > 0 && r < t && a == q * t + r
    ensures a % t == r
  {
    var q', r' := a / t, a % t;
    assert a == q' * t + r';
    MulSub(q, q', t);
    assert (q - q') * t == r' - r;
    if q > q' {
      MulAtLeast(q - q', t);
    } else if q < q' {
      MulAtLeast(q' - q, t);
    }
  }

  lemma MulAtLeast(x: int, t: nat)
    requires x >= 1
    ensures x * t >= t
  {
    assert x * t == (x - 1) * t + t;
  }

  lemma MulSucc(q: int, t: int)
    ensures (q + 1) * t == q * t + t
  {
  }

  lemma MulSub(x: int, y: int, t: int)
    ensures (x - y) * t == x * t - y * t
  {
  }
}
