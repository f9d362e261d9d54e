/**
 * The potential model V(x, y): a closed sum of free space, an axis-aligned square
 * barrier (or well) and an isotropic harmonic oscillator, built by a factory keyed
 * on a kind name with positional parameters.
 *
 * The implementation of these classes is not part of this model; their behaviour is
 * fixed by the unit tests. Two details the tests leave open are parameters of the
 * model, collected in `Conventions`: the positive minimum to which widths and
 * frequencies are clamped, and whether a point exactly half a width from the centre
 * counts as inside the barrier.
 */
module Potentials {
  import opened Complexes

  datatype Conventions = Conventions(minWidth: real, minOmega: real, closedEdges: bool)
  {
    /** Only the positivity of the clamp minima is known. */
    predicate Valid()
    {
      minWidth > 0.0 && minOmega > 0.0
    }
  }

  datatype Potential =
    | FreeSpace
    | SquareBarrier(height: real, width: real, xCenter: real, yCenter: real)
    | HarmonicOscillator(omega: real)

  const FreeSpaceKind := "FreeSpace"
  const SquareBarrierKind := "SquareBarrier"
  const HarmonicOscillatorKind := "HarmonicOscillator"

  /** Factory defaults for missing parameters. */
  const DefaultHeight := 1.0
  const DefaultWidth := 0.5
  const DefaultCenter := 0.0
  const DefaultOmega := 1.0

  function Max(a: real, b: real): real
  {
    if a >= b then a else b
  }

  function Abs(a: real): real
  {
    if a >= 0.0 then a else -a
  }

  /** The kind tag reported for diagnostics. */
  function Kind(p: Potential): (r: string)
    ensures r == FreeSpaceKind <==> p.FreeSpace?
    ensures r == SquareBarrierKind <==> p.SquareBarrier?
    ensures r == HarmonicOscillatorKind <==> p.HarmonicOscillator?
  {
    match p
    case FreeSpace => FreeSpaceKind
    case SquareBarrier(_, _, _, _) => SquareBarrierKind
    case HarmonicOscillator(_) => HarmonicOscillatorKind
  }

  /** The parameters that were clamped at construction respect the minima. */
  predicate WellFormed(p: Potential, cv: Conventions)
  {
    match p
    case FreeSpace => true
    case SquareBarrier(_, w, _, _) => w >= cv.minWidth
    case HarmonicOscillator(omega) => omega >= cv.minOmega
  }

  /** A square barrier; a width below the minimum is raised to the minimum. */
  function NewSquareBarrier(height: real, width: real, xCenter: real, yCenter: real,
                            cv: Conventions): (p: Potential)
    requires cv.Valid()
    ensures p.SquareBarrier? && WellFormed(p, cv) && p.width > 0.0
    ensures p.height == height && p.xCenter == xCenter && p.yCenter == yCenter
    ensures width >= cv.minWidth ==> p.width == width
  {
    SquareBarrier(height, Max(width, cv.minWidth), xCenter, yCenter)
  }

  /** A harmonic oscillator; a frequency below the minimum is raised to the minimum. */
  function NewHarmonicOscillator(omega: real, cv: Conventions): (p: Potential)
    requires cv.Valid()
    ensures p.HarmonicOscillator? && WellFormed(p, cv) && p.omega > 0.0
    ensures omega >= cv.minOmega ==> p.omega == omega
  {
    HarmonicOscillator(Max(omega, cv.minOmega))
  }

  /** Offset d from the centre lies within half a barrier width of it. */
  predicate WithinHalfWidth(d: real, width: real, cv: Conventions)
  {
    if cv.closedEdges then Abs(d) <= width / 2.0 else Abs(d) < width / 2.0
  }

  /**
   * V(x, y). Free space is zero everywhere; the barrier is its height strictly
   * inside the square and zero strictly outside it; the oscillator is non-negative.
   */
  function Evaluate(p: Potential, x: real, y: real, cv: Conventions): (v: real)
    ensures p.FreeSpace? ==> v == 0.0
    ensures p.SquareBarrier? ==> v == p.height || v == 0.0
    ensures (p.SquareBarrier? && Abs(x - p.xCenter) < p.width / 2.0
             && Abs(y - p.yCenter) < p.width / 2.0) ==> v == p.height
    ensures (p.SquareBarrier? && (Abs(x - p.xCenter) > p.width / 2.0
             || Abs(y - p.yCenter) > p.width / 2.0)) ==> v == 0.0
    ensures p.HarmonicOscillator? ==> v >= 0.0
  {
    match p
    case FreeSpace => 0.0
    case SquareBarrier(h, w, xc, yc) =>
      if WithinHalfWidth(x - xc, w, cv) && WithinHalfWidth(y - yc, w, cv) then h else 0.0
    case HarmonicOscillator(omega) =>
      SqSign(omega);
      SqSign(x);
      SqSign(y);
      ProductNonNegative(0.5 * Sq(omega), Sq(x) + Sq(y));
      Product(0.5 * Sq(omega), Sq(x) + Sq(y))
  }

  /** The centre of a barrier built with any width, even a non-positive one, is inside. */
  lemma BarrierCentre(height: real, width: real, xCenter: real, yCenter: real, cv: Conventions)
    requires cv.Valid()
    ensures Evaluate(NewSquareBarrier(height, width, xCenter, yCenter, cv), xCenter, yCenter, cv) == height
  {
  }

  /**
   * The oscillator vanishes at the origin, is positive everywhere else, and is even in
   * each coordinate and symmetric under swapping them.
   */
  lemma HarmonicShape(omega: real, x: real, y: real, cv: Conventions)
    requires cv.Valid()
    ensures var p := NewHarmonicOscillator(omega, cv);
      && Evaluate(p, 0.0, 0.0, cv) == 0.0
      && ((x != 0.0 || y != 0.0) ==> Evaluate(p, x, y, cv) > 0.0)
      && Evaluate(p, -x, y, cv) == Evaluate(p, x, y, cv)
      && Evaluate(p, x, -y, cv) == Evaluate(p, x, y, cv)
      && Evaluate(p, y, x, cv) == Evaluate(p, x, y, cv)
  {
    var p := NewHarmonicOscillator(omega, cv);
    var w := p.omega;
    SqSign(w);
    SqSign(x);
    SqSign(y);
    assert Sq(0.0) == 0.0;
    assert Product(0.5 * Sq(w), 0.0) == 0.0;
    if x != 0.0 || y != 0.0 {
      ProductPositive(0.5 * Sq(w), Sq(x) + Sq(y));
    }
  }

  /** An oscillator built with a frequency at or above the minimum is 0.5 omega^2 (x^2 + y^2). */
  lemma HarmonicFormula(omega: real, x: real, y: real, cv: Conventions)
    requires cv.Valid() && omega >= cv.minOmega
    ensures Evaluate(NewHarmonicOscillator(omega, cv), x, y, cv) == 0.5 * omega * omega * (x * x + y * y)
  {
  }

  /** Doubling the distance from the origin quadruples the oscillator's value. */
  lemma HarmonicQuadratic(p: Potential, x: real, y: real, cv: Conventions)
    requires p.HarmonicOscillator?
    ensures Evaluate(p, 2.0 * x, 2.0 * y, cv) == 4.0 * Evaluate(p, x, y, cv)
  {
    var k := 0.5 * Sq(p.omega);
    assert Product(2.0 * x, 2.0 * x) == 4.0 * Product(x, x);
    assert Product(2.0 * y, 2.0 * y) == 4.0 * Product(y, y);
    ProductScale(k, Sq(x) + Sq(y), 4.0);
  }

  /** The i-th parameter when present, otherwise the default. */
  function Param(params: seq<real>, i: nat, default: real): real
  {
    if i < |params| then params[i] else default
  }

  /**
   * The factory: "SquareBarrier" takes [height, width, xCenter, yCenter],
   * "HarmonicOscillator" takes [omega], missing parameters take the defaults and
   * any other kind name yields free space.
   */
  function Create(kind: string, params: seq<real>, cv: Conventions): (p: Potential)
    requires cv.Valid()
    ensures Kind(p) == kind || (Kind(p) == FreeSpaceKind
                                && kind != SquareBarrierKind && kind != HarmonicOscillatorKind)
    ensures WellFormed(p, cv)
  {
    if kind == SquareBarrierKind then
      NewSquareBarrier(Param(params, 0, DefaultHeight), Param(params, 1, DefaultWidth),
                       Param(params, 2, DefaultCenter), Param(params, 3, DefaultCenter), cv)
    else if kind == HarmonicOscillatorKind then
      NewHarmonicOscillator(Param(params, 0, DefaultOmega), cv)
    else
      FreeSpace
  }

  /** The parameter list that describes a potential to the factory. */
  function Parameters(p: Potential): seq<real>
  {
    match p
    case FreeSpace => []
    case SquareBarrier(h, w, xc, yc) => [h, w, xc, yc]
    case HarmonicOscillator(omega) => [omega]
  }

  /** Rebuilding a well-formed potential from its kind and parameters gives it back. */
  lemma CreateRoundTrip(p: Potential, cv: Conventions)
    requires cv.Valid() && WellFormed(p, cv)
    ensures Create(Kind(p), Parameters(p), cv) == p
  {
  }

  /**
   * Missing parameters take the defaults: a barrier given only its height is centred
   * at the origin, and an oscillator given nothing has the default frequency.
   */
  lemma CreateDefaults(height: real, x: real, y: real, cv: Conventions)
    requires cv.Valid()
    ensures Evaluate(Create(SquareBarrierKind, [height], cv), 0.0, 0.0, cv) == height
    ensures Create(HarmonicOscillatorKind, [], cv) == NewHarmonicOscillator(DefaultOmega, cv)
    ensures (x != 0.0 || y != 0.0) ==> Evaluate(Create(HarmonicOscillatorKind, [], cv), x, y, cv) > 0.0
  {
    HarmonicShape(DefaultOmega, x, y, cv);
  }
}
