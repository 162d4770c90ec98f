/** Model of the vector and numeric helpers of the analysis package:
    three-component vector arithmetic, the empty-safe mean, clamping, the
    double factorial and the complex spherical harmonic evaluated through the
    associated-Legendre recurrence.

    Floating-point numbers are modelled as `real`. The library routines the
    package calls (square root, exponential, cosine, arccosine, two-argument
    arctangent, floating power, the unit complex exponential and the external
    spherical-harmonic routine) are not defined here: they are the fields of a
    `Transcendentals` record that every caller passes in, and the only facts
    the model assumes about them are the sign facts collected in `SignFacts`. */
module MathUtils {
  import opened Seqs
  import opened Wrappers

  datatype Vec3 = Vec3(x: real, y: real, z: real)

  /** A complex number as a pair of reals. */
  datatype Complex = Complex(re: real, im: real)

  const ZeroVector: Vec3 := Vec3(0.0, 0.0, 0.0)

  /** Distances at or below this are treated as the atom itself, both in the
      coordination numbers and in the local Ql neighbour test. */
  const SelfDistance: real := 0.1

  /** `math.pi` as a double. */
  const Pi: real := 3.141592653589793

  /** The numeric library routines, kept opaque. `rpow(b, e)` is `b ** e` for a
      non-integer exponent, `expI(a)` is `cmath.exp(1j * a)` and
      `sphHarm(m, l, azimuth, polar)` is the external spherical-harmonic routine
      with its own argument order. */
  datatype Transcendentals = Transcendentals(
    sqrt: real -> real,
    exp: real -> real,
    cos: real -> real,
    arccos: real -> real,
    atan2: (real, real) -> real,
    rpow: (real, real) -> real,
    expI: real -> Complex,
    sphHarm: (int, int, real, real) -> Complex)

  /** Everything the model assumes about the opaque routines. */
  ghost predicate SignFacts(t: Transcendentals)
  {
    && (forall v :: t.exp(v) > 0.0)
    && (forall v :: t.sqrt(v) >= 0.0)
    && (forall v :: v >= 0.0 ==> t.sqrt(v) * t.sqrt(v) == v)
    && t.sqrt(0.0) == 0.0
  }

  function Abs(n: int): nat
  {
    if n < 0 then -n else n
  }

  function VectorAdd(a: Vec3, b: Vec3): Vec3
  {
    Vec3(a.x + b.x, a.y + b.y, a.z + b.z)
  }

  /** The vector from b to a: adding it to b gives back a, and it is the zero
      vector exactly when the two points coincide. */
  function VectorSub(a: Vec3, b: Vec3): (r: Vec3)
    ensures VectorAdd(b, r) == a
    ensures r == ZeroVector <==> a == b
  {
    Vec3(a.x - b.x, a.y - b.y, a.z - b.z)
  }

  /** The displacement of every position from `origin`, in order: origin plus
      the i-th displacement is the i-th position, and only a position at the
      origin itself has the zero displacement. */
  function DisplacementsFrom(positions: seq<Vec3>, origin: Vec3): (r: seq<Vec3>)
    ensures |r| == |positions|
    ensures forall i :: 0 <= i < |r| ==> r[i] == VectorSub(positions[i], origin)
    ensures forall i :: 0 <= i < |r| ==> VectorAdd(origin, r[i]) == positions[i]
    ensures forall i :: 0 <= i < |r| ==> (r[i] == ZeroVector <==> positions[i] == origin)
  {
    Map(positions, p => VectorSub(p, origin))
  }

  /** Python's `not a` on a NumPy array of shape (n, 3), as NumPy before 2.2
      evaluates it: true for an empty array; with at least one row the array
      holds more than one value, its truth value is ambiguous and the test
      raises, written `None`. From NumPy 2.2 on the empty array raises too. */
  function NotArray(rows: seq<Vec3>): (r: Option<bool>)
    ensures r.Some? <==> rows == []
    ensures r.Some? ==> r.value
  {
    if rows == [] then Some(true) else None
  }

  lemma VectorSubSelf(a: Vec3)
    ensures VectorSub(a, a) == ZeroVector
  {
  }

  function SquaredNorm(v: Vec3): real
  {
    v.x * v.x + v.y * v.y + v.z * v.z
  }

  lemma SquaredNormNonNegative(v: Vec3)
    ensures SquaredNorm(v) >= 0.0
  {
    assert v.x * v.x >= 0.0 && v.y * v.y >= 0.0 && v.z * v.z >= 0.0;
  }

  /** Euclidean norm: non-negative, and its square is the sum of the squared components. */
  function VectorNorm(t: Transcendentals, v: Vec3): (r: real)
    requires SignFacts(t)
    ensures r >= 0.0
    ensures r * r == SquaredNorm(v)
    ensures v == ZeroVector ==> r == 0.0
  {
    SquaredNormNonNegative(v);
    t.sqrt(SquaredNorm(v))
  }

  /** Distance between two points, computed as the norm of `a - b`. */
  function Distance(t: Transcendentals, a: Vec3, b: Vec3): (r: real)
    requires SignFacts(t)
    ensures r >= 0.0
  {
    VectorNorm(t, VectorSub(a, b))
  }

  /** `r` is the mean of `s`: 0.0 for no values, otherwise r times the
      number of values is their sum. */
  predicate IsMean(r: real, s: seq<real>)
  {
    (s == [] ==> r == 0.0) && (s != [] ==> r * |s| as real == Sum(s))
  }

  /** Arithmetic mean, with 0.0 for the empty sequence. */
  function Mean(s: seq<real>): (r: real)
    ensures IsMean(r, s)
  {
    if s == [] then 0.0 else Sum(s) / |s| as real
  }

  /** A non-empty mean lies within any bounds that hold for every element,
      in particular between the minimum and the maximum. */
  lemma MeanBounds(s: seq<real>, lo: real, hi: real)
    requires s != []
    requires forall i :: 0 <= i < |s| ==> lo <= s[i] <= hi
    ensures lo <= Mean(s) <= hi
  {
    SumBounds(s, lo, hi);
    var n := |s| as real;
    var m := Mean(s);
    assert (m - lo) * n == Sum(s) - lo * n;
    assert (hi - m) * n == hi * n - Sum(s);
  }

  lemma MeanNonNegative(s: seq<real>)
    requires forall i :: 0 <= i < |s| ==> s[i] >= 0.0
    ensures Mean(s) >= 0.0
  {
    if s != [] {
      var hi := s[0];
      var i := 1;
      while i < |s|
        invariant 1 <= i <= |s|
        invariant forall j :: 0 <= j < i ==> s[j] <= hi
      {
        if s[i] > hi {
          hi := s[i];
        }
        i := i + 1;
      }
      MeanBounds(s, 0.0, hi);
    }
  }

  lemma MeanPermutation(a: seq<real>, b: seq<real>)
    requires multiset(a) == multiset(b)
    ensures Mean(a) == Mean(b)
  {
    assert |a| == |multiset(a)| == |multiset(b)| == |b|;
    SumPermutation(a, b);
  }

  /** Clamp to the inclusive interval `[lo, hi]`. */
  function Clip(v: real, lo: real, hi: real): (r: real)
    ensures lo <= hi ==> lo <= r <= hi
    ensures lo <= v <= hi ==> r == v
    ensures r == v || r == lo || r == hi
  {
    if v < lo then lo else if v > hi then hi else v
  }

  lemma ClipIdempotent(v: real, lo: real, hi: real)
    requires lo <= hi
    ensures Clip(Clip(v, lo, hi), lo, hi) == Clip(v, lo, hi)
  {
  }

  /** n!! = n (n-2)!!, with 1 for every n <= 0. */
  function DoubleFact(n: int): (r: int)
    ensures r >= 1
    decreases if n > 0 then n else 0
  {
    if n <= 0 then 1 else n * DoubleFact(n - 2)
  }

  /** The accumulator loop: multiply by n, n-2, ... while positive. */
  method DoubleFactorial(n: int) returns (r: int)
    ensures r == DoubleFact(n)
    ensures r >= 1
  {
    if n <= 0 {
      return 1;
    }
    r := 1;
    var value := n;
    while value > 0
      invariant r * DoubleFact(value) == DoubleFact(n)
      decreases value
    {
      MultiplyStep(r, value, DoubleFact(value - 2));
      r := r * value;
      value := value - 2;
    }
  }

  lemma MultiplyStep(r: int, value: int, rest: int)
    ensures r * (value * rest) == (r * value) * rest
  {
  }

  function Factorial(n: nat): (r: nat)
    ensures r >= 1
  {
    if n == 0 then 1 else n * Factorial(n - 1)
  }

  /** `x ** n` for a non-negative integer exponent. */
  function Pow(x: real, n: nat): real
  {
    if n == 0 then 1.0 else x * Pow(x, n - 1)
  }

  lemma {:induction false} PowZero(n: nat)
    requires n > 0
    ensures Pow(0.0, n) == 0.0
  {
  }

  lemma {:induction false} PowOne(n: nat)
    ensures Pow(1.0, n) == 1.0
  {
    if n > 0 {
      PowOne(n - 1);
    }
  }

  lemma {:induction false} PowAdd(x: real, a: nat, b: nat)
    ensures Pow(x, a + b) == Pow(x, a) * Pow(x, b)
    decreases a
  {
    if a > 0 {
      PowAdd(x, a - 1, b);
    }
  }

  /** An even power is never negative. */
  lemma PowEvenNonNegative(x: real, n: nat)
    requires n % 2 == 0
    ensures Pow(x, n) >= 0.0
  {
    PowAdd(x, n / 2, n / 2);
    var h := Pow(x, n / 2);
    assert h * h >= 0.0;
  }

  /** `(-1) ** k`. */
  function MinusOnePow(k: nat): (r: int)
    ensures r == 1 || r == -1
  {
    if k % 2 == 0 then 1 else -1
  }

  /** The three-term recurrence for the associated Legendre function P_ell^m,
      seeded with `pmm` = P_m^m and x (2m+1) P_m^m for ell = m + 1. At the
      pole x = 1 the recurrence for m = 0 seeded with 1 gives P_ell(1) = 1 for
      every degree. */
  function LegendreP(ell: int, m: nat, x: real, pmm: real): (r: real)
    requires ell >= m
    ensures m == 0 && x == 1.0 && pmm == 1.0 ==> r == 1.0
    decreases ell - m
  {
    if ell == m then pmm
    else if ell == m + 1 then x * (2 * m + 1) as real * pmm
    else Recurrence(ell, m, x, LegendreP(ell - 1, m, x, pmm), LegendreP(ell - 2, m, x, pmm))
  }

  /** One step of the degree recurrence
      (ell - m) P_ell^m = (2 ell - 1) x P_{ell-1}^m - (ell + m - 1) P_{ell-2}^m. */
  function Recurrence(ell: int, m: nat, x: real, prev: real, prevPrev: real): real
    requires ell > m
  {
    ((2 * ell - 1) as real * x * prev - (ell + m - 1) as real * prevPrev) / (ell - m) as real
  }

  /** P_m^m(x) = (-1)^m (2m-1)!! (1 - x^2)^(m/2), the power taken by the float routine. */
  function StartingValue(t: Transcendentals, m: nat, x: real): real
  {
    (MinusOnePow(m) * DoubleFact(2 * m - 1)) as real * t.rpow(1.0 - x * x, m as real / 2.0)
  }

  /** The associated Legendre value for order m: the recurrence
      in |m|, multiplied for m < 0 by (-1)^|m| (l-|m|)!/(l+|m|)!. */
  function AssociatedLegendre(t: Transcendentals, l: int, m: int, x: real): real
    requires Abs(m) <= l
  {
    var absM := Abs(m);
    OrderFactor(l, m, LegendreP(l, absM, x, StartingValue(t, absM, x)))
  }

  /** Applies (-1)^|m| (l-|m|)!/(l+|m|)! to a value computed for |m| when m < 0. */
  function OrderFactor(l: int, m: int, p: real): real
    requires Abs(m) <= l
  {
    if m < 0 then (MinusOnePow(Abs(m)) * Factorial(l - Abs(m))) as real / Factorial(l + Abs(m)) as real * p
    else p
  }

  /** sqrt((2l+1)/(4 pi) (l-|m|)!/(l+|m|)!), always taken with |m|. */
  function Normalization(t: Transcendentals, l: int, absM: nat): real
    requires absM <= l
  {
    t.sqrt((2 * l + 1) as real / (4.0 * Pi) * Factorial(l - absM) as real / Factorial(l + absM) as real)
  }

  function Scale(a: real, c: Complex): Complex
  {
    Complex(a * c.re, a * c.im)
  }

  /** Y_l^m(theta, phi) as the harmonics routine defines it; 0 whenever |m| > l. */
  function Ylm(t: Transcendentals, l: int, m: int, theta: real, phi: real): (y: Complex)
    ensures Abs(m) > l ==> y == Complex(0.0, 0.0)
  {
    if Abs(m) > l then Complex(0.0, 0.0)
    else
      var x := t.cos(theta);
      Scale(Normalization(t, l, Abs(m)) * AssociatedLegendre(t, l, m, x), t.expI(m as real * phi))
  }

  /** The degree loop: P_m^m and P_{m+1}^m are rolled forward
      through two variables up to degree l, with shortcuts for l = m and l = m + 1. */
  method LegendreByLoop(l: int, m: nat, x: real, pmm: real) returns (p: real)
    requires l >= m
    ensures p == LegendreP(l, m, x, pmm)
  {
    if l == m {
      return pmm;
    }
    var pm1m := x * (2 * m + 1) as real * pmm;
    if l == m + 1 {
      return pm1m;
    }
    var prevPrev, prev := pmm, pm1m;
    p := pm1m;
    for ell := m + 2 to l + 1
      invariant prevPrev == LegendreP(ell - 2, m, x, pmm)
      invariant prev == LegendreP(ell - 1, m, x, pmm)
      invariant p == prev
    {
      p := Recurrence(ell, m, x, prev, prevPrev);
      prevPrev, prev := prev, p;
    }
  }

  /** The evaluation of Y_l^m: the Legendre loop in |m|, the
      Condon-Shortley factor for m < 0, the |m| normalisation and the azimuthal phase. */
  method SphericalHarmonic(t: Transcendentals, l: int, m: int, theta: real, phi: real) returns (y: Complex)
    ensures y == Ylm(t, l, m, theta, phi)
  {
    if Abs(m) > l {
      return Complex(0.0, 0.0);
    }
    var x := t.cos(theta);
    var absM := Abs(m);
    var p := LegendreByLoop(l, absM, x, StartingValue(t, absM, x));
    p := OrderFactor(l, m, p);
    var normalization := Normalization(t, l, absM);
    y := Scale(normalization * p, t.expI(m as real * phi));
  }
}
