/**
 * Complex numbers over Dafny's exact `real`, standing in for `std::complex<double>`,
 * together with the squared modulus and its sum over a sequence of samples.
 */
module Complexes {

  datatype Complex = Complex(re: real, im: real)

  const Zero := Complex(0.0, 0.0)
  const One := Complex(1.0, 0.0)

  /**
   * Real product and square, kept behind function symbols so that sign and scaling
   * facts about them can be proved once, for distinct factors, and reused.
   */
  function Product(a: real, b: real): real
  {
    a * b
  }

  function Sq(x: real): real
  {
    Product(x, x)
  }

  lemma ProductPositive(a: real, b: real)
    requires (a > 0.0 && b > 0.0) || (a < 0.0 && b < 0.0)
    ensures Product(a, b) > 0.0
  {
  }

  lemma ProductNonNegative(a: real, b: real)
    requires a >= 0.0 && b >= 0.0
    ensures Product(a, b) >= 0.0
  {
  }

  /** Squares are non-negative, positive away from zero and even. */
  lemma SqSign(x: real)
    ensures Sq(x) >= 0.0
    ensures x != 0.0 ==> Sq(x) > 0.0
    ensures Sq(-x) == Sq(x)
  {
    if x != 0.0 {
      ProductPositive(x, x);
    }
    assert Product(-x, -x) == Product(x, x);
  }

  /** Scaling one factor scales the product. */
  lemma ProductScale(a: real, b: real, c: real)
    ensures Product(a, c * b) == c * Product(a, b)
  {
  }

  /** Complex product. */
  function Mul(a: Complex, b: Complex): Complex
  {
    Complex(a.re * b.re - a.im * b.im, a.re * b.im + a.im * b.re)
  }

  /** Multiplication by a real factor. */
  function Scale(z: Complex, c: real): Complex
  {
    Complex(c * z.re, c * z.im)
  }

  /** The squared modulus |z|^2, the probability density of one grid cell. */
  function NormSq(z: Complex): (r: real)
    ensures r >= 0.0
  {
    SqSign(z.re);
    SqSign(z.im);
    z.re * z.re + z.im * z.im
  }

  /** |a b|^2 = |a|^2 |b|^2. */
  lemma NormSqMul(a: Complex, b: Complex)
    ensures NormSq(Mul(a, b)) == NormSq(a) * NormSq(b)
  {
    var p, q, r, s := a.re, a.im, b.re, b.im;
    calc {
      NormSq(Mul(a, b));
    ==
      (p * r - q * s) * (p * r - q * s) + (p * s + q * r) * (p * s + q * r);
    ==
      (p * p) * (r * r) + (q * q) * (s * s) + (p * p) * (s * s) + (q * q) * (r * r);
    ==
      (p * p + q * q) * (r * r + s * s);
    }
  }

  /** Multiplying by a factor of modulus one leaves |z|^2 unchanged. */
  lemma UnitFactorKeepsNormSq(z: Complex, u: Complex)
    requires NormSq(u) == 1.0
    ensures NormSq(Mul(z, u)) == NormSq(z)
  {
    NormSqMul(z, u);
  }

  /** |c z|^2 = c^2 |z|^2. */
  lemma NormSqScale(z: Complex, c: real)
    ensures NormSq(Scale(z, c)) == c * c * NormSq(z)
  {
    calc {
      NormSq(Scale(z, c));
    ==
      (c * z.re) * (c * z.re) + (c * z.im) * (c * z.im);
    ==
      (c * c) * (z.re * z.re + z.im * z.im);
    }
  }

  /** Sum of |z|^2 over a sequence of samples. */
  function Total(s: seq<Complex>): (r: real)
    ensures r >= 0.0
  {
    if |s| == 0 then 0.0 else NormSq(s[0]) + Total(s[1..])
  }

  /** |z|^2 is zero exactly for z = 0. */
  lemma NormSqZero(z: Complex)
    ensures NormSq(z) == 0.0 <==> z == Zero
  {
    SqSign(z.re);
    SqSign(z.im);
  }

  /** No single element's |z|^2 exceeds the sum. */
  lemma {:induction false} TotalBoundsCell(s: seq<Complex>, k: int)
    requires 0 <= k < |s|
    ensures NormSq(s[k]) <= Total(s)
  {
    if k > 0 {
      TotalBoundsCell(s[1..], k - 1);
    }
  }

  /** Elements with |z|^2 = 0 throughout sum to zero. */
  lemma {:induction false} TotalOfZeros(s: seq<Complex>)
    requires forall k :: 0 <= k < |s| ==> NormSq(s[k]) == 0.0
    ensures Total(s) == 0.0
  {
    if |s| > 0 {
      assert forall k :: 0 <= k < |s| - 1 ==> s[1..][k] == s[k + 1];
      TotalOfZeros(s[1..]);
    }
  }

  /** The sum of |z|^2 is zero exactly when every element is zero. */
  lemma TotalZero(s: seq<Complex>)
    ensures Total(s) == 0.0 <==> forall k :: 0 <= k < |s| ==> s[k] == Zero
  {
    if forall k :: 0 <= k < |s| ==> s[k] == Zero {
      forall k | 0 <= k < |s|
        ensures NormSq(s[k]) == 0.0
      {
        NormSqZero(s[k]);
      }
      TotalOfZeros(s);
    }
    if Total(s) == 0.0 {
      forall k | 0 <= k < |s|
        ensures s[k] == Zero
      {
        TotalBoundsCell(s, k);
        NormSqZero(s[k]);
      }
    }
  }

  /** Two sequences whose cells have equal |z|^2 have the same total. */
  lemma {:induction false} TotalPointwise(s: seq<Complex>, t: seq<Complex>)
    requires |s| == |t|
    requires forall k :: 0 <= k < |s| ==> NormSq(t[k]) == NormSq(s[k])
    ensures Total(t) == Total(s)
  {
    if |s| > 0 {
      assert forall k :: 0 <= k < |s| - 1 ==> s[1..][k] == s[k + 1] && t[1..][k] == t[k + 1];
      TotalPointwise(s[1..], t[1..]);
    }
  }

  /** Every cell multiplied by the same real factor. */
  function ScaleAll(s: seq<Complex>, c: real): (r: seq<Complex>)
    ensures |r| == |s|
    ensures forall k :: 0 <= k < |s| ==> r[k] == Scale(s[k], c)
  {
    seq(|s|, k requires 0 <= k < |s| => Scale(s[k], c))
  }

  lemma ScaledSum(k: real, a: real, b: real, ka: real, kb: real)
    requires ka == k * a && kb == k * b
    ensures ka + kb == k * (a + b)
  {
  }

  lemma ScaleAllSplit(s: seq<Complex>, c: real)
    requires |s| > 0
    ensures ScaleAll(s, c)[0] == Scale(s[0], c)
    ensures ScaleAll(s, c)[1..] == ScaleAll(s[1..], c)
  {
    assert ScaleAll(s, c)[1..] == ScaleAll(s[1..], c);
  }

  /** Scaling every cell by c scales the total by c^2. */
  lemma {:induction false} TotalScaleAll(s: seq<Complex>, c: real)
    ensures Total(ScaleAll(s, c)) == c * c * Total(s)
    ensures Total(ScaleAll(s, c)) == Product(Product(c, c), Total(s))
  {
    if |s| > 0 {
      var t := ScaleAll(s, c);
      ScaleAllSplit(s, c);
      TotalScaleAll(s[1..], c);
      NormSqScale(s[0], c);
      ScaledSum(c * c, NormSq(s[0]), Total(s[1..]), NormSq(t[0]), Total(t[1..]));
    }
  }
}
