/**
 * The split-step Fourier engine: its state record, the two phase operators, the
 * symmetric step, and the effects of reset, reconfiguration, potential
 * replacement and the read-only queries.
 *
 * Transforms, exp and pi come from `Primitives.Numerics`. Plan creation is
 * reduced to whether the plans could be created (`plansOk`); a failure is the
 * exception the engine throws.
 */
module Solver {
  import opened Complexes
  import opened Field
  import opened Config
  import opened Potentials
  import opened Results
  import opened WaveNumbers
  import opened Primitives

  /** Physical side length of the square domain; fixed, never configured. */
  const DomainLength := 20.0

  datatype EngineError = PlanCreationFailed

  datatype Engine = Engine(
    nx: nat, ny: nat,
    lx: real, ly: real,
    dx: real, dy: real,
    dt: real,
    time: real,
    psi: Wavefunction,
    potential: Potential,
    kx: seq<real>, ky: seq<real>,
    plansReady: bool)
  {
    /** The engine's state invariant: sizes agree and the spacing matches the grid. */
    predicate Valid()
    {
      && nx > 0 && ny > 0
      && lx == DomainLength && ly == DomainLength
      && dx == lx / nx as real && dy == ly / ny as real
      && psi.Valid() && psi.nx == nx && psi.ny == ny
      && |kx| == nx && |ky| == ny
    }

    /** The wave-number arrays hold the Fourier frequencies of the current grid. */
    predicate Calibrated(pi: real)
      requires Valid()
    {
      kx == Grid(nx, lx, pi) && ky == Grid(ny, ly, pi)
    }
  }

  // ---------------------------------------------------------------------------
  // Cell-by-cell multiplication, the common shape of both phase operators.
  // ---------------------------------------------------------------------------

  /** Every cell multiplied by its own factor. */
  function Multiply(s: seq<Complex>, f: seq<Complex>): (r: seq<Complex>)
    requires |f| == |s|
    ensures |r| == |s|
    ensures forall k :: 0 <= k < |s| ==> r[k] == Mul(s[k], f[k])
  {
    seq(|s|, k requires 0 <= k < |s| => Mul(s[k], f[k]))
  }

  /** Multiplying by unit-modulus factors keeps each cell's |z|^2 and hence the total. */
  lemma MultiplyByUnits(s: seq<Complex>, f: seq<Complex>)
    requires |f| == |s|
    requires forall k :: 0 <= k < |f| ==> NormSq(f[k]) == 1.0
    ensures Densities(Multiply(s, f)) == Densities(s)
    ensures Total(Multiply(s, f)) == Total(s)
  {
    var r := Multiply(s, f);
    forall k | 0 <= k < |s|
      ensures NormSq(r[k]) == NormSq(s[k])
    {
      UnitFactorKeepsNormSq(s[k], f[k]);
    }
    TotalPointwise(s, r);
  }

  /** Multiplying by the unit 1 changes nothing. */
  lemma MultiplyByOne(s: seq<Complex>, f: seq<Complex>)
    requires |f| == |s|
    requires forall k :: 0 <= k < |f| ==> f[k] == One
    ensures Multiply(s, f) == s
  {
  }

  /**
   * The nested loop of the engine: for i in [0, nx) and j in [0, ny), cell (i, j)
   * is multiplied in place by its factor.
   */
  method MultiplyInPlace(s: seq<Complex>, f: seq<Complex>, nx: nat, ny: nat) returns (r: seq<Complex>)
    requires |s| == nx * ny && |f| == |s|
    ensures r == Multiply(s, f)
  {
    r := s;
    var i := 0;
    while i < nx
      invariant 0 <= i <= nx && |r| == |s|
      invariant i * ny <= |s|
      invariant forall k :: 0 <= k < i * ny ==> r[k] == Mul(s[k], f[k])
      invariant forall k :: i * ny <= k < |s| ==> r[k] == s[k]
    {
      NextRow(nx, ny, i);
      r := MultiplyRow(r, s, f, i * ny, ny);
      i := i + 1;
    }
  }

  /** The inner loop over j: cells base .. base + ny - 1 of one row. */
  method MultiplyRow(r0: seq<Complex>, s: seq<Complex>, f: seq<Complex>, base: nat, ny: nat)
    returns (r: seq<Complex>)
    requires |r0| == |s| == |f| && base + ny <= |s|
    requires forall k :: 0 <= k < base ==> r0[k] == Mul(s[k], f[k])
    requires forall k :: base <= k < |s| ==> r0[k] == s[k]
    ensures |r| == |s|
    ensures forall k :: 0 <= k < base + ny ==> r[k] == Mul(s[k], f[k])
    ensures forall k :: base + ny <= k < |s| ==> r[k] == s[k]
  {
    r := r0;
    var j := 0;
    while j < ny
      invariant 0 <= j <= ny && |r| == |s|
      invariant forall k :: 0 <= k < base + j ==> r[k] == Mul(s[k], f[k])
      invariant forall k :: base + j <= k < |s| ==> r[k] == s[k]
    {
      var k := base + j;
      r := r[k := Mul(r[k], f[k])];
      j := j + 1;
    }
  }

  lemma NextRow(nx: nat, ny: nat, i: nat)
    requires i < nx
    ensures i * ny + ny == (i + 1) * ny <= nx * ny
  {
    MulMonotone(i + 1, nx, ny);
  }

  // ---------------------------------------------------------------------------
  // The potential phase exp(-i V dt / 2).
  // ---------------------------------------------------------------------------

  /** Physical coordinate of sample i on an axis of length l with spacing d. */
  function Position(l: real, d: real, i: int): real
  {
    -l / 2.0 + i as real * d
  }

  /**
   * With spacing l/n the n samples of an axis lie in [-l/2, l/2): the domain is
   * centred on the origin, and for even n sample n/2 is the origin itself.
   */
  lemma CellPositions(l: real, n: nat, i: int)
    requires l > 0.0 && n > 0 && 0 <= i < n
    ensures -l / 2.0 <= Position(l, l / n as real, i) < l / 2.0
    ensures n % 2 == 0 ==> Position(l, l / n as real, n / 2) == 0.0
  {
  }

  /** V at the centre of cell (i, j). */
  function PotentialAt(e: Engine, cv: Conventions, i: int, j: int): real
  {
    Evaluate(e.potential, Position(e.lx, e.dx, i), Position(e.ly, e.dy, j), cv)
  }

  /** The phase angle -dt V / 2 of cell (i, j). */
  function PotentialAngle(e: Engine, cv: Conventions, i: int, j: int): real
  {
    -Product(e.dt, PotentialAt(e, cv, i, j)) / 2.0
  }

  /** The factor of every cell, row-major. */
  function PotentialFactors(e: Engine, num: Numerics, cv: Conventions): (f: seq<Complex>)
    requires e.Valid()
    ensures |f| == e.nx * e.ny
    ensures forall i, j :: 0 <= i < e.nx && 0 <= j < e.ny ==>
              0 <= Index(e.ny, i, j) < |f| && f[Index(e.ny, i, j)] == num.cis(-Product(e.dt, PotentialAt(e, cv, i, j)) / 2.0)
  {
    var f := seq(e.nx * e.ny, k requires 0 <= k < e.nx * e.ny =>
                   num.cis(PotentialAngle(e, cv, k / e.ny, k % e.ny)));
    assert forall i, j :: 0 <= i < e.nx && 0 <= j < e.ny ==>
             0 <= Index(e.ny, i, j) < |f| && f[Index(e.ny, i, j)] == num.cis(-Product(e.dt, PotentialAt(e, cv, i, j)) / 2.0) by {
      forall i, j | 0 <= i < e.nx && 0 <= j < e.ny
        ensures 0 <= Index(e.ny, i, j) < |f|
        ensures f[Index(e.ny, i, j)] == num.cis(-Product(e.dt, PotentialAt(e, cv, i, j)) / 2.0)
      {
        IndexInRange(e.nx, e.ny, i, j);
        IndexDivMod(e.ny, i, j);
        assert f[Index(e.ny, i, j)] == num.cis(PotentialAngle(e, cv, i, j));
      }
    }
    f
  }

  /** Every cell of the grid multiplied by its potential phase; nothing else changes. */
  function ApplyPotential(e: Engine, num: Numerics, cv: Conventions): (r: Engine)
    requires e.Valid()
    ensures r.Valid() && r.(psi := e.psi) == e
    ensures forall i, j :: 0 <= i < e.nx && 0 <= j < e.ny ==>
              Get(r.psi, i, j) == Mul(Get(e.psi, i, j), num.cis(-Product(e.dt, PotentialAt(e, cv, i, j)) / 2.0))
  {
    var f := PotentialFactors(e, num, cv);
    var r := e.(psi := e.psi.(data := Multiply(e.psi.data, f)));
    assert forall i, j :: 0 <= i < e.nx && 0 <= j < e.ny ==>
             Get(r.psi, i, j) == Mul(Get(e.psi, i, j), num.cis(-Product(e.dt, PotentialAt(e, cv, i, j)) / 2.0)) by {
      forall i, j | 0 <= i < e.nx && 0 <= j < e.ny
        ensures Get(r.psi, i, j) == Mul(Get(e.psi, i, j), num.cis(-Product(e.dt, PotentialAt(e, cv, i, j)) / 2.0))
      {
        IndexInRange(e.nx, e.ny, i, j);
      }
    }
    r
  }

  /** The potential phase leaves |psi|^2 unchanged in every cell. */
  lemma PotentialKeepsDensity(e: Engine, num: Numerics, cv: Conventions)
    requires e.Valid() && num.Valid()
    ensures Density(ApplyPotential(e, num, cv).psi) == Density(e.psi)
    ensures Total(ApplyPotential(e, num, cv).psi.data) == Total(e.psi.data)
  {
    var f := PotentialFactors(e, num, cv);
    MultiplyByUnits(e.psi.data, f);
  }

  /** In free space the potential phase is the identity. */
  lemma FreeSpacePotentialIsIdentity(e: Engine, num: Numerics, cv: Conventions)
    requires e.Valid() && num.Valid() && e.potential.FreeSpace?
    ensures ApplyPotential(e, num, cv) == e
  {
    var f := PotentialFactors(e, num, cv);
    forall k | 0 <= k < |f|
      ensures f[k] == One
    {
      IndexSurjective(e.nx, e.ny, k);
      assert PotentialAngle(e, cv, k / e.ny, k % e.ny) == 0.0;
    }
    MultiplyByOne(e.psi.data, f);
  }

  // ---------------------------------------------------------------------------
  // The kinetic phase exp(-i K dt), applied between the two transforms.
  // ---------------------------------------------------------------------------

  /** K = (kx^2 + ky^2) / 2 in units with hbar = m = 1; never negative. */
  function KineticEnergy(kx: seq<real>, ky: seq<real>, i: int, j: int): (energy: real)
    requires 0 <= i < |kx| && 0 <= j < |ky|
    ensures energy >= 0.0
    ensures kx[i] == 0.0 && ky[j] == 0.0 ==> energy == 0.0
    ensures kx[i] != 0.0 || ky[j] != 0.0 ==> energy > 0.0
  {
    SqSign(kx[i]);
    SqSign(ky[j]);
    assert Sq(0.0) == 0.0;
    (Sq(kx[i]) + Sq(ky[j])) / 2.0
  }

  /** The phase angle -dt K of k-space cell (i, j). */
  function KineticAngle(e: Engine, i: int, j: int): real
    requires e.Valid() && 0 <= i < e.nx && 0 <= j < e.ny
  {
    -Product(e.dt, KineticEnergy(e.kx, e.ky, i, j))
  }

  function KineticFactor(e: Engine, num: Numerics, k: int): Complex
    requires e.Valid() && 0 <= k < e.nx * e.ny
  {
    IndexSurjective(e.nx, e.ny, k);
    num.cis(KineticAngle(e, k / e.ny, k % e.ny))
  }

  /** The k-space factor of every cell, row-major. */
  function KineticFactors(e: Engine, num: Numerics): (f: seq<Complex>)
    requires e.Valid()
    ensures |f| == e.nx * e.ny
    ensures forall i, j :: 0 <= i < e.nx && 0 <= j < e.ny ==>
              0 <= Index(e.ny, i, j) < |f| && f[Index(e.ny, i, j)] == num.cis(-Product(e.dt, KineticEnergy(e.kx, e.ky, i, j)))
  {
    var f := seq(e.nx * e.ny, k requires 0 <= k < e.nx * e.ny => KineticFactor(e, num, k));
    assert forall i, j :: 0 <= i < e.nx && 0 <= j < e.ny ==>
             0 <= Index(e.ny, i, j) < |f| && f[Index(e.ny, i, j)] == num.cis(-Product(e.dt, KineticEnergy(e.kx, e.ky, i, j))) by {
      forall i, j | 0 <= i < e.nx && 0 <= j < e.ny
        ensures 0 <= Index(e.ny, i, j) < |f|
        ensures f[Index(e.ny, i, j)] == num.cis(-Product(e.dt, KineticEnergy(e.kx, e.ky, i, j)))
      {
        IndexInRange(e.nx, e.ny, i, j);
        IndexDivMod(e.ny, i, j);
        assert f[Index(e.ny, i, j)] == num.cis(KineticAngle(e, i, j));
      }
    }
    f
  }

  /** The normalisation 1/(nx ny) undoing the gain of an unnormalised transform pair. */
  function NormFactor(e: Engine): (c: real)
    requires e.Valid()
    ensures c > 0.0 && Product(c, (e.nx * e.ny) as real) == 1.0
  {
    assert (e.nx * e.ny) as real > 0.0 by {
      ProductPositive(e.nx as real, e.ny as real);
    }
    1.0 / (e.nx * e.ny) as real
  }

  /**
   * Forward transform, multiply each k-space cell by its kinetic phase, backward
   * transform, then scale every cell by 1/(nx ny).
   */
  function ApplyKinetic(e: Engine, num: Numerics): (r: Engine)
    requires e.Valid() && num.Valid()
    ensures r.Valid() && r.(psi := e.psi) == e
    ensures |num.forward(e.nx, e.ny, e.psi.data)| == e.nx * e.ny
    ensures num.forward(e.nx, e.ny, r.psi.data)
            == Multiply(num.forward(e.nx, e.ny, e.psi.data), KineticFactors(e, num))
  {
    var s := num.forward(e.nx, e.ny, e.psi.data);
    var g := Multiply(s, KineticFactors(e, num));
    var h := num.backward(e.nx, e.ny, g);
    KineticSpectrum(num, e.nx, e.ny, e.psi.data, KineticFactors(e, num));
    e.(psi := e.psi.(data := ScaleAll(h, NormFactor(e))))
  }

  /**
   * Seen through the forward transform, forward, multiply by f, backward and
   * rescale by 1/n is just the multiplication by f: the rescaling undoes the gain
   * n = nx ny of the transform pair.
   */
  lemma KineticSpectrum(num: Numerics, nx: nat, ny: nat, s: seq<Complex>, f: seq<Complex>)
    requires num.Valid() && nx * ny > 0 && |s| == nx * ny && |f| == |s|
    ensures |num.forward(nx, ny, s)| == |s|
    ensures num.forward(nx, ny, ScaleAll(num.backward(nx, ny, Multiply(num.forward(nx, ny, s), f)),
                                         1.0 / (nx * ny) as real))
            == Multiply(num.forward(nx, ny, s), f)
  {
    var n := (nx * ny) as real;
    var g := Multiply(num.forward(nx, ny, s), f);
    var h := num.backward(nx, ny, g);
    assert num.forward(nx, ny, ScaleAll(h, 1.0 / n)) == ScaleAll(num.forward(nx, ny, h), 1.0 / n);
    assert num.forward(nx, ny, h) == ScaleAll(g, n);
    UnscaleAll(g, n);
  }

  /**
   * Forward transform, unit-modulus factors, backward transform: by Parseval's
   * identity the total |z|^2 gains the factor n = nx ny twice.
   */
  lemma TransformGain(num: Numerics, nx: nat, ny: nat, s: seq<Complex>, f: seq<Complex>)
    requires num.Valid() && |s| == nx * ny && |f| == |s|
    requires forall k :: 0 <= k < |f| ==> NormSq(f[k]) == 1.0
    ensures |num.forward(nx, ny, s)| == |s|
    ensures |num.backward(nx, ny, Multiply(num.forward(nx, ny, s), f))| == |s|
    ensures Total(num.backward(nx, ny, Multiply(num.forward(nx, ny, s), f)))
            == Product((nx * ny) as real, Product((nx * ny) as real, Total(s)))
  {
    var t := num.forward(nx, ny, s);
    MultiplyByUnits(t, f);
  }

  /** Two gains of n followed by two factors 1/n cancel. */
  lemma Cancel(n: real, t: real, th: real, tr: real, c: real)
    requires n > 0.0 && c == 1.0 / n
    requires th == Product(n, Product(n, t)) && tr == Product(Product(c, c), th)
    ensures tr == t
  {
    assert c * n == 1.0;
    calc {
      tr;
      c * c * (n * (n * t));
      (c * n) * ((c * n) * t);
    }
  }

  /** The kinetic phase keeps the total |psi|^2 (Parseval's identity). */
  lemma KineticKeepsTotal(e: Engine, num: Numerics)
    requires e.Valid() && num.Valid()
    ensures Total(ApplyKinetic(e, num).psi.data) == Total(e.psi.data)
  {
    var c := NormFactor(e);
    var f := KineticFactors(e, num);
    TransformGain(num, e.nx, e.ny, e.psi.data, f);
    var h := num.backward(e.nx, e.ny, Multiply(num.forward(e.nx, e.ny, e.psi.data), f));
    TotalScaleAll(h, c);
    Cancel((e.nx * e.ny) as real, Total(e.psi.data), Total(h), Total(ScaleAll(h, c)), c);
  }

  /** With dt = 0 the kinetic phase returns the grid unchanged. */
  lemma KineticIdentityAtZeroDt(e: Engine, num: Numerics)
    requires e.Valid() && num.Valid() && e.dt == 0.0
    ensures ApplyKinetic(e, num) == e
  {
    var f := KineticFactors(e, num);
    forall k | 0 <= k < |f|
      ensures f[k] == One
    {
      IndexSurjective(e.nx, e.ny, k);
      assert KineticAngle(e, k / e.ny, k % e.ny) == 0.0;
    }
    TransformRoundTrip(num, e.nx, e.ny, e.psi.data, f);
    UnscaleAll(e.psi.data, (e.nx * e.ny) as real);
  }

  /** With all factors equal to 1, backward(forward(s)) is s times n = nx ny. */
  lemma TransformRoundTrip(num: Numerics, nx: nat, ny: nat, s: seq<Complex>, f: seq<Complex>)
    requires num.Valid() && |s| == nx * ny && |f| == |s|
    requires forall k :: 0 <= k < |f| ==> f[k] == One
    ensures |num.forward(nx, ny, s)| == |s|
    ensures num.backward(nx, ny, Multiply(num.forward(nx, ny, s), f)) == ScaleAll(s, (nx * ny) as real)
  {
    MultiplyByOne(num.forward(nx, ny, s), f);
  }

  /** Scaling by n and then by 1/n gives the grid back. */
  lemma UnscaleAll(s: seq<Complex>, n: real)
    requires n > 0.0
    ensures ScaleAll(ScaleAll(s, n), 1.0 / n) == s
  {
    var r := ScaleAll(ScaleAll(s, n), 1.0 / n);
    forall k | 0 <= k < |s|
      ensures r[k] == s[k]
    {
      Unscale(n, s[k].re);
      Unscale(n, s[k].im);
    }
  }

  lemma Unscale(n: real, x: real)
    requires n > 0.0
    ensures (1.0 / n) * (n * x) == x
  {
    assert (1.0 / n) * n == 1.0;
  }

  // ---------------------------------------------------------------------------
  // The step.
  // ---------------------------------------------------------------------------

  /**
   * One symmetric split step: half a potential phase, the full kinetic phase,
   * half a potential phase, then the clock advances by dt. Transforms need plans.
   */
  function Step(e: Engine, num: Numerics, cv: Conventions): (r: Engine)
    requires e.Valid() && e.plansReady && num.Valid()
    ensures r.Valid() && r.plansReady
    ensures r.time == e.time + e.dt
    ensures r.(psi := e.psi, time := e.time) == e
    ensures r.psi == ApplyPotential(ApplyKinetic(ApplyPotential(e, num, cv), num), num, cv).psi
  {
    var e1 := ApplyPotential(e, num, cv);
    var e2 := ApplyKinetic(e1, num);
    var e3 := ApplyPotential(e2, num, cv);
    e3.(time := e3.time + e3.dt)
  }

  /** A step conserves the total probability exactly. */
  lemma StepConservesProbability(e: Engine, num: Numerics, cv: Conventions)
    requires e.Valid() && e.plansReady && num.Valid()
    ensures Total(Step(e, num, cv).psi.data) == Total(e.psi.data)
    ensures TotalProbability(Step(e, num, cv).psi, e.lx, e.ly) == TotalProbability(e.psi, e.lx, e.ly)
  {
    var e1 := ApplyPotential(e, num, cv);
    var e2 := ApplyKinetic(e1, num);
    PotentialKeepsDensity(e, num, cv);
    KineticKeepsTotal(e1, num);
    PotentialKeepsDensity(e2, num, cv);
  }

  /** A free-space step with dt = 0 changes nothing at all. */
  lemma StepFreeSpaceZeroDt(e: Engine, num: Numerics, cv: Conventions)
    requires e.Valid() && e.plansReady && num.Valid()
    requires e.potential.FreeSpace? && e.dt == 0.0
    ensures Step(e, num, cv) == e
  {
    FreeSpacePotentialIsIdentity(e, num, cv);
    KineticIdentityAtZeroDt(e, num);
  }

  /** n steps in a row: the clock advances by n dt and the total probability is kept. */
  function Steps(e: Engine, num: Numerics, cv: Conventions, n: nat): (r: Engine)
    requires e.Valid() && e.plansReady && num.Valid()
    ensures r.Valid() && r.plansReady
    ensures r.time == e.time + Product(n as real, e.dt)
    ensures r.(psi := e.psi, time := e.time) == e
    ensures Total(r.psi.data) == Total(e.psi.data)
    decreases n
  {
    if n == 0 then e
    else
      var previous := Steps(e, num, cv, n - 1);
      StepConservesProbability(previous, num, cv);
      ClockAdvance(n, e.time, e.dt);
      Step(previous, num, cv)
  }

  lemma ClockAdvance(n: nat, t: real, dt: real)
    requires n > 0
    ensures t + Product((n - 1) as real, dt) + dt == t + Product(n as real, dt)
  {
  }

  // ---------------------------------------------------------------------------
  // Reset, construction, reconfiguration, potential replacement.
  // ---------------------------------------------------------------------------

  /**
   * The grid the engine initialises: a Gaussian built from a value-initialised
   * configuration's wavepacket, whatever wavepacket was configured.
   */
  function InitialGrid(nx: nat, ny: nat, num: Numerics): (w: Wavefunction)
    requires num.Valid()
    ensures w.Valid() && w.nx == nx && w.ny == ny
  {
    Wavefunction(nx, ny, num.gaussian(ValueInitialized.wavepacket, nx, ny, DomainLength, DomainLength))
  }

  /** Re-initialise the grid and the clock; everything else is kept. */
  function Reset(e: Engine, num: Numerics): (r: Engine)
    requires e.Valid() && num.Valid()
    ensures r.Valid() && r.time == 0.0
    ensures r.psi == InitialGrid(e.nx, e.ny, num)
    ensures r.(psi := e.psi, time := e.time) == e
  {
    e.(psi := InitialGrid(e.nx, e.ny, num), time := 0.0)
  }

  /** Resetting twice is the same as resetting once. */
  lemma ResetIdempotent(e: Engine, num: Numerics)
    requires e.Valid() && num.Valid()
    ensures Reset(Reset(e, num), num) == Reset(e, num)
  {
  }

  /** Build an engine from a configuration; fails when the plans cannot be created. */
  function Construct(cfg: PhysicsConfig, num: Numerics, cv: Conventions, plansOk: bool): (r: Result<Engine, EngineError>)
    requires cfg.nx > 0 && cfg.ny > 0 && num.Valid() && cv.Valid()
    ensures r.Failure? <==> !plansOk
    ensures r.Success? ==>
              && r.value.Valid() && r.value.Calibrated(num.pi) && r.value.plansReady
              && r.value.nx == cfg.nx && r.value.ny == cfg.ny && r.value.dt == cfg.dt
              && r.value.time == 0.0
              && r.value.psi == InitialGrid(cfg.nx, cfg.ny, num)
              && r.value.potential == Create(cfg.potential.kind, cfg.potential.parameters, cv)
  {
    var nx, ny := cfg.nx as nat, cfg.ny as nat;
    if !plansOk then Failure(PlanCreationFailed)
    else
      Success(Engine(nx, ny, DomainLength, DomainLength,
                     DomainLength / nx as real, DomainLength / ny as real,
                     cfg.dt, 0.0, InitialGrid(nx, ny, num),
                     Create(cfg.potential.kind, cfg.potential.parameters, cv),
                     Grid(nx, DomainLength, num.pi), Grid(ny, DomainLength, num.pi), true))
  }

  /** The configured wavepacket has no effect on the engine that is built. */
  lemma ConstructIgnoresWavepacket(cfg: PhysicsConfig, wp: Wavepacket, num: Numerics, cv: Conventions, plansOk: bool)
    requires cfg.nx > 0 && cfg.ny > 0 && num.Valid() && cv.Valid()
    ensures Construct(cfg.(wavepacket := wp), num, cv, plansOk) == Construct(cfg, num, cv, plansOk)
  {
  }

  /**
   * Reconfigure a running engine. Sizes, dt, spacing, grid and potential are
   * replaced first and the wave-number arrays resized; then the plans are made.
   * If that fails the engine is left in this intermediate state (all-zero grid,
   * clock untouched, no plans). Otherwise the arrays are recomputed and the grid
   * and clock re-initialised.
   */
  function UpdateConfig(e: Engine, cfg: PhysicsConfig, num: Numerics, cv: Conventions, plansOk: bool): (r: Engine)
    requires e.Valid() && cfg.nx > 0 && cfg.ny > 0 && num.Valid() && cv.Valid()
    ensures r.Valid() && r.plansReady == plansOk
    ensures r.nx == cfg.nx && r.ny == cfg.ny && r.dt == cfg.dt
    ensures r.potential == Create(cfg.potential.kind, cfg.potential.parameters, cv)
    ensures plansOk ==> r.Calibrated(num.pi) && r.time == 0.0 && r.psi == InitialGrid(cfg.nx, cfg.ny, num)
    ensures !plansOk ==>
              && r.time == e.time
              && r.psi == New(cfg.nx, cfg.ny)
              && r.kx == Resize(e.kx, cfg.nx) && r.ky == Resize(e.ky, cfg.ny)
  {
    var nx, ny := cfg.nx as nat, cfg.ny as nat;
    var resized := e.(nx := nx, ny := ny, dt := cfg.dt,
                      dx := e.lx / nx as real, dy := e.ly / ny as real,
                      psi := New(nx, ny),
                      potential := Create(cfg.potential.kind, cfg.potential.parameters, cv),
                      kx := Resize(e.kx, nx), ky := Resize(e.ky, ny),
                      plansReady := plansOk);
    if !plansOk then resized
    else
      resized.(kx := Grid(nx, e.lx, num.pi), ky := Grid(ny, e.ly, num.pi),
               psi := InitialGrid(nx, ny, num), time := 0.0)
  }

  /** A successful reconfiguration yields exactly the engine a fresh construction builds. */
  lemma UpdateConfigMatchesConstruct(e: Engine, cfg: PhysicsConfig, num: Numerics, cv: Conventions)
    requires e.Valid() && cfg.nx > 0 && cfg.ny > 0 && num.Valid() && cv.Valid()
    ensures Construct(cfg, num, cv, true).Success?
    ensures UpdateConfig(e, cfg, num, cv, true) == Construct(cfg, num, cv, true).value
  {
  }

  /**
   * The constructor as its statements are ordered: the grid is initialised
   * first and the plans are made afterwards, in place on the grid's own storage
   * and with a measuring planner, which leaves whatever values it measured with
   * in the grid (FFTW 3 manual, section 4.3.2 "Planner Flags"). Those values are
   * the parameter residue.
   */
  function ConstructAsWritten(cfg: PhysicsConfig, num: Numerics, cv: Conventions, plansOk: bool,
                              residue: seq<Complex>): (r: Result<Engine, EngineError>)
    requires cfg.nx > 0 && cfg.ny > 0 && num.Valid() && cv.Valid()
    requires |residue| == cfg.nx * cfg.ny
    ensures r.Failure? <==> !plansOk
    ensures r.Success? ==>
              && r.value.Valid() && r.value.psi.data == residue
              && r.value == Construct(cfg, num, cv, plansOk).value.(psi := r.value.psi)
  {
    match Construct(cfg, num, cv, plansOk)
    case Failure(err) => Failure(err)
    case Success(e) => Success(e.(psi := Wavefunction(e.nx, e.ny, residue)))
  }

  /**
   * Unless the planner happens to leave exactly the Gaussian behind, the engine
   * built as written starts neither from the initial wavepacket nor from the
   * grid a successful reconfiguration to the same settings produces.
   */
  lemma ConstructAsWrittenLosesWavepacket(e: Engine, cfg: PhysicsConfig, num: Numerics, cv: Conventions,
                                          residue: seq<Complex>)
    requires e.Valid() && cfg.nx > 0 && cfg.ny > 0 && num.Valid() && cv.Valid()
    requires |residue| == cfg.nx * cfg.ny && residue != InitialGrid(cfg.nx, cfg.ny, num).data
    ensures ConstructAsWritten(cfg, num, cv, true, residue).Success?
    ensures ConstructAsWritten(cfg, num, cv, true, residue).value.psi != InitialGrid(cfg.nx, cfg.ny, num)
    ensures ConstructAsWritten(cfg, num, cv, true, residue).value != UpdateConfig(e, cfg, num, cv, true)
  {
  }

  /** Replace the potential; nothing else changes. */
  function SetPotential(e: Engine, v: Potential): (r: Engine)
    ensures r.potential == v && r.(potential := e.potential) == e
  {
    e.(potential := v)
  }

  /** Installing free space makes the potential phase the identity. */
  lemma SetFreeSpaceRemovesPotentialPhase(e: Engine, num: Numerics, cv: Conventions)
    requires e.Valid() && num.Valid()
    ensures ApplyPotential(SetPotential(e, FreeSpace), num, cv) == SetPotential(e, FreeSpace)
  {
    FreeSpacePotentialIsIdentity(SetPotential(e, FreeSpace), num, cv);
  }

  // ---------------------------------------------------------------------------
  // Read-only queries.
  // ---------------------------------------------------------------------------

  /** |psi|^2 at every grid point, row-major, summing to the total probability over dx dy. */
  function ProbabilityDensity(e: Engine): (d: seq<real>)
    requires e.Valid()
    ensures |d| == e.nx * e.ny
    ensures forall k :: 0 <= k < |d| ==> d[k] >= 0.0
    ensures Product(Product(Sum(d), e.dx), e.dy) == TotalProbability(e.psi, e.lx, e.ly)
  {
    SumDensities(e.psi.data);
    Density(e.psi)
  }

  /** Sum of |psi|^2 dx dy over the domain. */
  function TotalProbabilityOf(e: Engine): (p: real)
    requires e.Valid()
    ensures p >= 0.0
    ensures p == Product(Product(Total(e.psi.data), e.dx), e.dy)
  {
    TotalProbability(e.psi, e.lx, e.ly)
  }
}
