/**
 Audio clock regeneration for HDMI: the pair (N, CTS) with which a sink recovers
 the audio sampling clock from the pixel clock, 128 * freq == clock * N / CTS
 (section 7.2.1 of the HDMI 1.3a specification).  `clock` is in kHz.
 */
module AudioClock {
  import opened Arithmetic

  const INT_MAX: int := 0x7FFF_FFFF

  datatype Acr = Acr(clock: nat, n32: nat, cts32: nat, n44: nat, cts44: nat, n48: nat, cts48: nat)

  const PREDEFINED: seq<Acr> := [
    Acr(25175, 4096, 25175, 28224, 125875, 6144, 25175),
    Acr(25200, 4096, 25200, 6272, 28000, 6144, 25200),
    Acr(27000, 4096, 27000, 6272, 30000, 6144, 27000),
    Acr(27027, 4096, 27027, 6272, 30030, 6144, 27027),
    Acr(54000, 4096, 54000, 6272, 60000, 6144, 54000),
    Acr(54054, 4096, 54054, 6272, 60060, 6144, 54054),
    Acr(74176, 4096, 74176, 5733, 75335, 6144, 74176),
    Acr(74250, 4096, 74250, 6272, 82500, 6144, 74250),
    Acr(148352, 4096, 148352, 5733, 150670, 6144, 148352),
    Acr(148500, 4096, 148500, 6272, 165000, 6144, 148500)
  ]

  // ---------------------------------------------------------------- divisors

  function Gcd(a: nat, b: nat): nat
    decreases b
  {
    if b == 0 then a else Gcd(b, a % b)
  }

  // The divisor is a linear combination of the two numbers.
  lemma {:induction false} Bezout(a: nat, b: nat) returns (x: int, y: int)
    ensures a * x + b * y == Gcd(a, b)
    decreases b
  {
    if b == 0 {
      x, y := 1, 0;
    } else {
      var x', y' := Bezout(b, a % b);
      x, y := y', x' - (a / b) * y';
      calc {
        a * x + b * y;
        a * y' + b * x' - b * ((a / b) * y');
        { assert a == b * (a / b) + a % b; assert b * ((a / b) * y') == b * (a / b) * y'; }
        b * x' + (a % b) * y';
      }
    }
  }

  lemma {:induction false} GcdDivides(a: nat, b: nat) returns (p: nat, q: nat)
    ensures a == Gcd(a, b) * p && b == Gcd(a, b) * q
    decreases b
  {
    if b == 0 {
      p, q := 1, 0;
    } else {
      var p', q' := GcdDivides(b, a % b);
      p, q := p' * (a / b) + q', p';
      assert a == b * (a / b) + a % b;
      assert Gcd(a, b) * p == Gcd(a, b) * p' * (a / b) + Gcd(a, b) * q';
    }
  }

  // A multiple of q that p divides is a multiple of p times q when some
  // combination of p and q is one.
  lemma CoprimeFactor(p: nat, q: nat, x: int, y: int, m: nat, c: nat)
    requires p * x + q * y == 1 && m * q == c * p
    ensures m == p * (m * x + c * y)
  {
    calc {
      m;
      m * (p * x + q * y);
      m * p * x + m * q * y;
      m * p * x + c * p * y;
      p * (m * x + c * y);
    }
  }

  // The pair reproduces the audio clock exactly.
  predicate Exact(clock: nat, freq: nat, n: nat, cts: nat) {
    n * (clock * 1000) == cts * (128 * freq)
  }

  // n is the smallest N, from the optimum 128 * freq / 1000 on, that admits an exact pair.
  ghost predicate Least(clock: nat, freq: nat, n: nat) {
    && n >= 128 * freq / 1000
    && forall m: nat, c: nat :: m >= 128 * freq / 1000 && Exact(clock, freq, m, c) ==> m >= n
  }

  // mul is the least factor that lifts p to t.
  lemma LeastMultiple(t: nat, p: nat, mul: nat, k: int)
    requires p > 0 && mul == (t + (p - 1)) / p
    ensures t <= p * mul < t + p
    ensures p * k >= t ==> p * k >= p * mul
  {
    assert t + (p - 1) == p * mul + (t + (p - 1)) % p;
    assert p * mul == p * k + p * (mul - k);
    if k < mul { MulMonotone(p, mul - k); }
    if k > mul { MulMonotone(p, k - mul); }
  }

  // The fraction a / b reduced to p / q and scaled by mul.
  lemma Scaled(a: nat, b: nat, g: nat, p: nat, q: nat, mul: nat)
    requires a == g * p && b == g * q
    ensures (p * mul) * b == (q * mul) * a
  {
    assert (p * mul) * (g * q) == (q * mul) * (g * p);
  }

  lemma ReducedCoprime(a: nat, b: nat, g: nat, p: nat, q: nat, x: int, y: int)
    requires a > 0 && a == g * p && b == g * q && a * x + b * y == g
    ensures p * x + q * y == 1
  {
    assert g * (p * x + q * y) == (g * p) * x + (g * q) * y;
    CancelLeft(g, p * x + q * y, 1);
  }

  lemma ReducedCross(a: nat, b: nat, g: nat, p: nat, q: nat, m: nat, c: nat)
    requires a > 0 && a == g * p && b == g * q && m * b == c * a
    ensures m * q == c * p
  {
    assert g * (m * q) == m * (g * q) && g * (c * p) == c * (g * p);
    CancelLeft(g, m * q, c * p);
  }

  // No smaller numerator from t on has an integral counterpart.
  lemma ScaledIsLeast(a: nat, b: nat, t: nat, g: nat, p: nat, q: nat, mul: nat, m: nat, c: nat)
    requires g == Gcd(a, b) && a > 0 && a == g * p && b == g * q
    requires mul == (t + (p - 1)) / p
    requires m >= t && m * b == c * a
    ensures m >= p * mul
  {
    var x, y := Bezout(a, b);
    ReducedCoprime(a, b, g, p, q, x, y);
    ReducedCross(a, b, g, p, q, m, c);
    CoprimeFactor(p, q, x, y, m, c);
    LeastMultiple(t, p, mul, m * x + c * y);
  }

  // Scaling past t never leaves the range of a and b.
  lemma ScaledBounds(a: nat, b: nat, t: nat, g: nat, p: nat, q: nat, mul: nat)
    requires a > 0 && a == g * p && b == g * q && t == a / 1000
    requires mul == (t + (p - 1)) / p
    ensures p * mul < t + p && p <= a && q * mul <= b
  {
    LeastMultiple(t, p, mul, mul);
    MulMonotone(p, g);
    if mul <= 1 {
      if q > 0 { MulMonotone(q, g); }
    } else {
      assert p * mul == p * (mul - 1) + p;
      MulMonotone(p, mul - 1);
      assert p * g == p * mul + p * (g - mul);
      if g < mul { MulMonotone(p, mul - g); }
      assert q * g == q * mul + q * (g - mul);
    }
  }

  // amdgpu_afmt_calc_cts, with the outcome of the two range checks.
  method CalcCts(clock: nat, freq: nat) returns (n: nat, cts: nat, tooSmall: bool, tooLarge: bool)
    requires clock * 1000 <= INT_MAX && 1 <= freq && 256 * freq <= INT_MAX
    ensures Exact(clock, freq, n, cts)
    ensures Least(clock, freq, n)
    ensures n <= INT_MAX && cts <= INT_MAX
    ensures !tooSmall
    ensures tooLarge <==> n > 128 * freq / 300
  {
    n, cts := 128 * freq, clock * 1000;
    ghost var a, b := n, cts;
    var div := Gcd(n, cts);
    ghost var p, q := GcdDivides(n, cts);
    DivisionUnique(a, div, p, 0);
    DivisionUnique(b, div, q, 0);
    n, cts := n / div, cts / div;
    var mul := (128 * freq / 1000 + (n - 1)) / n;
    Scaled(a, b, div, p, q, mul);
    forall m: nat, c: nat | m >= a / 1000 && Exact(clock, freq, m, c) ensures m >= p * mul {
      ScaledIsLeast(a, b, a / 1000, div, p, q, mul, m, c);
    }
    ScaledBounds(a, b, a / 1000, div, p, q, mul);
    LeastMultiple(a / 1000, p, mul, mul);
    n, cts := n * mul, cts * mul;
    tooSmall := n < 128 * freq / 1500;
    tooLarge := n > 128 * freq / 300;
  }

  predicate AllExact(clock: nat, r: Acr) {
    Exact(clock, 32000, r.n32, r.cts32) && Exact(clock, 44100, r.n44, r.cts44) && Exact(clock, 48000, r.n48, r.cts48)
  }

  lemma TableExact(i: nat)
    requires i < |PREDEFINED|
    ensures AllExact(PREDEFINED[i].clock, PREDEFINED[i])
  {
  }

  // amdgpu_afmt_acr: the table entry of the clock, or computed pairs.
  method AcrFor(clock: nat) returns (r: Acr)
    requires clock * 1000 <= INT_MAX
    ensures AllExact(clock, r)
    ensures r in PREDEFINED
         || (Least(clock, 32000, r.n32) && Least(clock, 44100, r.n44) && Least(clock, 48000, r.n48))
    ensures forall i :: 0 <= i < |PREDEFINED| && PREDEFINED[i].clock == clock ==> r == PREDEFINED[i]
  {
    for i := 0 to |PREDEFINED|
      invariant forall k :: 0 <= k < i ==> PREDEFINED[k].clock != clock
    {
      if PREDEFINED[i].clock == clock {
        TableExact(i);
        return PREDEFINED[i];
      }
    }
    var n32, cts32, _, _ := CalcCts(clock, 32000);
    var n44, cts44, _, _ := CalcCts(clock, 44100);
    var n48, cts48, _, _ := CalcCts(clock, 48000);
    r := Acr(clock, n32, cts32, n44, cts44, n48, cts48);
  }
}
