/**
 * The wave-number grid of one axis. Sample m of an N-point discrete Fourier
 * transform stands for the integer frequency m when m <= N/2 and m - N above
 * that, so the frequencies run 0, 1, ..., N/2, then the negative ones. The
 * Nyquist sample of an even axis (m = N/2) is given the positive frequency
 * +N/2. The wave number is that frequency times 2*pi/L for an axis of length L.
 */
module WaveNumbers {

  /** Smallest and largest frequency of an N-point axis. */
  function Lowest(n: nat): int
  {
    n / 2 + 1 - n
  }

  function Highest(n: nat): int
  {
    n / 2
  }

  /**
   * The integer frequency of sample m: the unique representative of m modulo N
   * in [Lowest(N), Highest(N)].
   */
  function Frequency(n: nat, m: int): (f: int)
    requires 0 <= m < n
    ensures Lowest(n) <= f <= Highest(n)
    ensures f % n == m
    ensures f == m || f == m - n
  {
    if m <= n / 2 then m else m - n
  }

  /** No other integer in the frequency window is congruent to m. */
  lemma FrequencyUnique(n: nat, m: int, f: int)
    requires 0 <= m < n
    requires Lowest(n) <= f <= Highest(n) && f % n == m
    ensures f == Frequency(n, m)
  {
    var g := Frequency(n, m);
    // f and g differ by a multiple of n, and both lie in a window narrower than n.
    assert (f - g) % n == 0 by {
      ModDifference(n, f, g);
    }
    assert -(n as int) < f - g < n;
    if f - g != 0 {
      NonZeroMultiple(n, f - g);
    }
  }

  lemma ModDifference(n: nat, a: int, b: int)
    requires n > 0 && a % n == b % n
    ensures (a - b) % n == 0
  {
    assert a == (a / n) * n + a % n;
    assert b == (b / n) * n + b % n;
    assert a - b == (a / n - b / n) * n;
    MultipleMod(n, a / n - b / n);
  }

  lemma MultipleMod(n: int, q: int)
    requires n > 0
    ensures (q * n) % n == 0
  {
    var r := (q * n) % n;
    var d := (q * n) / n;
    assert q * n == d * n + r;
    assert (q - d) * n == r;
    if q - d >= 1 {
      AtLeastOnce(q - d, n);
    } else if q - d <= -1 {
      AtLeastOnce(d - q, n);
    }
  }

  lemma AtLeastOnce(a: int, n: int)
    requires a >= 1 && n > 0
    ensures a * n >= n
  {
  }

  lemma NonZeroMultiple(n: int, d: int)
    requires n > 0 && d % n == 0 && d != 0
    ensures d >= n || d <= -n
  {
    var q := d / n;
    assert d == q * n;
    if q >= 1 {
      AtLeastOnce(q, n);
    } else if q <= -1 {
      AtLeastOnce(-q, n);
    }
  }

  /** Distinct samples have distinct frequencies. */
  lemma FrequencyInjective(n: nat, m: int, m': int)
    requires 0 <= m < n && 0 <= m' < n
    requires Frequency(n, m) == Frequency(n, m')
    ensures m == m'
  {
  }

  /** Every frequency of the window is the frequency of some sample. */
  lemma FrequencySurjective(n: nat, f: int)
    requires n > 0 && Lowest(n) <= f <= Highest(n)
    ensures 0 <= f % n < n && Frequency(n, f % n) == f
  {
    FrequencyUnique(n, f % n, f);
  }

  /** Sample 0 is the zero frequency. */
  lemma FrequencyZero(n: nat)
    requires n > 0
    ensures Frequency(n, 0) == 0
  {
  }

  /**
   * Mirrored samples carry opposite frequencies, except the Nyquist sample of an
   * even axis, which is its own mirror.
   */
  lemma FrequencyMirror(n: nat, m: int)
    requires 0 < m < n && 2 * m != n
    ensures Frequency(n, n - m) == -Frequency(n, m)
  {
  }

  /** The Nyquist sample of an even axis has the positive frequency N/2. */
  lemma FrequencyNyquist(n: nat)
    requires n > 0 && n % 2 == 0
    ensures Frequency(n, n / 2) == n / 2
    ensures Frequency(n, n - n / 2) == n / 2
  {
  }

  /** The wave number 2*pi*f/L of sample m on an axis of length L. */
  function WaveNumber(n: nat, l: real, pi: real, m: int): real
    requires 0 <= m < n && l != 0.0
  {
    2.0 * pi * Frequency(n, m) as real / l
  }

  /** A multiple of a fixed non-zero real determines the multiplier. */
  lemma ScaledInjective(c: real, a: real, b: real)
    requires c != 0.0 && a * c == b * c
    ensures a == b
  {
    assert (a - b) * c == 0.0;
  }

  /** The wave numbers of distinct samples differ when pi and L are positive. */
  lemma WaveNumberInjective(n: nat, l: real, pi: real, m: int, m': int)
    requires 0 <= m < n && 0 <= m' < n && l > 0.0 && pi > 0.0
    requires WaveNumber(n, l, pi, m) == WaveNumber(n, l, pi, m')
    ensures m == m'
  {
    var f, f' := Frequency(n, m) as real, Frequency(n, m') as real;
    var c := 2.0 * pi / l;
    assert WaveNumber(n, l, pi, m) == f * c;
    assert WaveNumber(n, l, pi, m') == f' * c;
    assert c > 0.0;
    ScaledInjective(c, f, f');
    FrequencyInjective(n, m, m');
  }

  /** Mirrored samples carry opposite wave numbers, and sample 0 has wave number 0. */
  lemma WaveNumberMirror(n: nat, l: real, pi: real, m: int)
    requires 0 < m < n && 2 * m != n && l != 0.0
    ensures WaveNumber(n, l, pi, n - m) == -WaveNumber(n, l, pi, m)
    ensures WaveNumber(n, l, pi, 0) == 0.0
  {
    FrequencyMirror(n, m);
    var f := Frequency(n, m) as real;
    assert 2.0 * pi * (-f) / l == -(2.0 * pi * f / l);
  }

  /** The whole wave-number array of an axis, one entry per sample. */
  function Grid(n: nat, l: real, pi: real): (k: seq<real>)
    requires l != 0.0
    ensures |k| == n
    ensures forall m :: 0 <= m < n ==> k[m] == WaveNumber(n, l, pi, m)
  {
    seq(n, m requires 0 <= m < n => WaveNumber(n, l, pi, m))
  }

  /**
   * Filling the array in index order, as the engine does when it is built or
   * reconfigured. The previous contents, already resized to N, are overwritten.
   */
  method FillGrid(previous: seq<real>, n: nat, l: real, pi: real) returns (k: seq<real>)
    requires |previous| == n && l != 0.0
    ensures k == Grid(n, l, pi)
  {
    k := previous;
    var m := 0;
    while m < n
      invariant 0 <= m <= n && |k| == n
      invariant forall p :: 0 <= p < m ==> k[p] == WaveNumber(n, l, pi, p)
    {
      if m <= n / 2 {
        k := k[m := 2.0 * pi * m as real / l];
      } else {
        k := k[m := 2.0 * pi * (m - n) as real / l];
      }
      m := m + 1;
    }
  }

  /**
   * Resizing a vector of reals: the first min(|s|, N) entries are kept and any new
   * entry is zero.
   */
  function Resize(s: seq<real>, n: nat): (r: seq<real>)
    ensures |r| == n
    ensures forall p :: 0 <= p < n ==> r[p] == (if p < |s| then s[p] else 0.0)
  {
    if n <= |s| then s[..n] else s + seq(n - |s|, _ => 0.0)
  }
}
