/**
 * The field grid: an nx-by-ny grid of complex samples stored row-major, cell (i, j)
 * at flat position i*ny + j. Access is unchecked in the modelled code, so an
 * in-range (i, j) is a precondition here.
 */
module Field {
  import opened Complexes

  datatype Wavefunction = Wavefunction(nx: nat, ny: nat, data: seq<Complex>)
  {
    /** The storage holds exactly one sample per grid point. */
    predicate Valid()
    {
      |data| == nx * ny
    }

    predicate InRange(i: int, j: int)
    {
      0 <= i < nx && 0 <= j < ny
    }
  }

  /** Row-major position of cell (i, j) in a grid with ny columns. */
  function Index(ny: nat, i: int, j: int): int
  {
    i * ny + j
  }

  /** The position of every in-range cell lies inside the storage. */
  lemma IndexInRange(nx: nat, ny: nat, i: int, j: int)
    requires 0 <= i < nx && 0 <= j < ny
    ensures 0 <= Index(ny, i, j) < nx * ny
  {
    assert i * ny >= 0;
    assert (i + 1) * ny <= nx * ny by {
      MulMonotone(i + 1, nx, ny);
    }
  }

  lemma MulMonotone(a: int, b: int, n: nat)
    requires 0 <= a <= b
    ensures a * n <= b * n
  {
  }

  /**
   * The flat position of cell (i, j) gives back i as its quotient and j as its
   * remainder by ny.
   */
  lemma IndexDivMod(ny: nat, i: int, j: int)
    requires 0 <= i && 0 <= j < ny
    ensures Index(ny, i, j) / ny == i
    ensures Index(ny, i, j) % ny == j
  {
    var k := Index(ny, i, j);
    var q, r := k / ny, k % ny;
    assert k == q * ny + r;
    assert (q - i) * ny == j - r;
    if q - i >= 1 {
      MulMonotone(1, q - i, ny);
    } else if q - i <= -1 {
      MulMonotone(1, i - q, ny);
    }
  }

  /** Distinct in-range cells occupy distinct storage positions. */
  lemma IndexInjective(ny: nat, i: int, j: int, i': int, j': int)
    requires 0 <= i && 0 <= j < ny && 0 <= i' && 0 <= j' < ny
    requires Index(ny, i, j) == Index(ny, i', j')
    ensures i == i' && j == j'
  {
    IndexDivMod(ny, i, j);
    IndexDivMod(ny, i', j');
  }

  /** Every storage position is the position of exactly the cell (k / ny, k % ny). */
  lemma IndexSurjective(nx: nat, ny: nat, k: int)
    requires 0 <= k < nx * ny
    ensures 0 <= k / ny < nx && 0 <= k % ny < ny
    ensures Index(ny, k / ny, k % ny) == k
  {
    if k / ny >= nx {
      MulMonotone(nx, k / ny, ny);
    }
  }

  /** A freshly constructed grid: nx*ny cells, every one 0 + 0i. */
  function New(nx: nat, ny: nat): (w: Wavefunction)
    ensures w.Valid()
    ensures w.nx == nx && w.ny == ny
    ensures forall i, j :: w.InRange(i, j) ==> Get(w, i, j) == Zero
  {
    var w := Wavefunction(nx, ny, seq(nx * ny, _ => Zero));
    assert forall i, j :: w.InRange(i, j) ==> Get(w, i, j) == Zero by {
      forall i, j | w.InRange(i, j) {
        IndexInRange(nx, ny, i, j);
      }
    }
    w
  }

  /**
   * Read cell (i, j); both accessors of the grid read the same storage position,
   * the one whose quotient and remainder by ny are the row i and the column j.
   */
  function Get(w: Wavefunction, i: int, j: int): (v: Complex)
    requires w.Valid() && w.InRange(i, j)
    ensures forall k :: 0 <= k < |w.data| && k / w.ny == i && k % w.ny == j ==> w.data[k] == v
  {
    IndexInRange(w.nx, w.ny, i, j);
    CellPosition(w, i, j);
    w.data[Index(w.ny, i, j)]
  }

  /** The only storage position with row i and column j is Index(ny, i, j). */
  lemma CellPosition(w: Wavefunction, i: int, j: int)
    requires w.Valid() && w.InRange(i, j)
    ensures forall k :: 0 <= k < |w.data| && k / w.ny == i && k % w.ny == j ==> k == Index(w.ny, i, j)
  {
    forall k | 0 <= k < |w.data| && k / w.ny == i && k % w.ny == j
      ensures k == Index(w.ny, i, j)
    {
      IndexSurjective(w.nx, w.ny, k);
    }
  }

  /** Write v into cell (i, j) through the mutable accessor. */
  function Set(w: Wavefunction, i: int, j: int, v: Complex): (w': Wavefunction)
    requires w.Valid() && w.InRange(i, j)
    ensures w'.Valid() && w'.nx == w.nx && w'.ny == w.ny
  {
    IndexInRange(w.nx, w.ny, i, j);
    w.(data := w.data[Index(w.ny, i, j) := v])
  }

  /** Reading a cell just written returns the written value. */
  lemma GetSetSame(w: Wavefunction, i: int, j: int, v: Complex)
    requires w.Valid() && w.InRange(i, j)
    ensures Get(Set(w, i, j, v), i, j) == v
  {
    var k := Index(w.ny, i, j);
    IndexInRange(w.nx, w.ny, i, j);
    assert Set(w, i, j, v).data == w.data[k := v];
  }

  /** A write touches exactly one cell: every other cell keeps its value. */
  lemma GetSetOther(w: Wavefunction, i: int, j: int, v: Complex, i': int, j': int)
    requires w.Valid() && w.InRange(i, j) && w.InRange(i', j')
    requires i != i' || j != j'
    ensures Get(Set(w, i, j, v), i', j') == Get(w, i', j')
  {
    var k, k' := Index(w.ny, i, j), Index(w.ny, i', j');
    IndexInRange(w.nx, w.ny, i, j);
    IndexInRange(w.nx, w.ny, i', j');
    if k == k' {
      IndexInjective(w.ny, i, j, i', j');
    }
    assert Set(w, i, j, v).data == w.data[k := v];
  }

  /** |z|^2 of each sample, in order. */
  function Densities(s: seq<Complex>): (r: seq<real>)
    ensures |r| == |s|
    ensures forall k :: 0 <= k < |s| ==> r[k] == NormSq(s[k])
  {
    seq(|s|, k requires 0 <= k < |s| => NormSq(s[k]))
  }

  /** The probability-density snapshot: |psi|^2 at every grid point, row-major. */
  function Density(w: Wavefunction): (r: seq<real>)
    requires w.Valid()
    ensures |r| == w.nx * w.ny
    ensures forall k :: 0 <= k < |r| ==> r[k] >= 0.0
  {
    Densities(w.data)
  }

  /** Entry i*ny + j of the snapshot is |psi(i, j)|^2. */
  lemma DensityAt(w: Wavefunction, i: int, j: int)
    requires w.Valid() && w.InRange(i, j)
    ensures 0 <= Index(w.ny, i, j) < |Density(w)|
    ensures Density(w)[Index(w.ny, i, j)] == NormSq(Get(w, i, j))
  {
    IndexInRange(w.nx, w.ny, i, j);
  }

  /** Sum of a sequence of reals. */
  function Sum(s: seq<real>): real
  {
    if |s| == 0 then 0.0 else s[0] + Sum(s[1..])
  }

  /** The density snapshot adds up to the grid's total |psi|^2. */
  lemma {:induction false} SumDensities(s: seq<Complex>)
    ensures Sum(Densities(s)) == Total(s)
  {
    if |s| > 0 {
      assert Densities(s)[1..] == Densities(s[1..]);
      SumDensities(s[1..]);
    }
  }

  /**
   * Total probability sum |psi|^2 dx dy for a domain of size lx by ly, with
   * dx = lx / nx and dy = ly / ny.
   */
  function TotalProbability(w: Wavefunction, lx: real, ly: real): (p: real)
    requires w.Valid() && w.nx > 0 && w.ny > 0
    requires lx > 0.0 && ly > 0.0
    ensures p >= 0.0
    ensures p == 0.0 <==> Total(w.data) == 0.0
  {
    var dx, dy := lx / w.nx as real, ly / w.ny as real;
    ProductNonNegative(Total(w.data), dx);
    ProductNonNegative(Product(Total(w.data), dx), dy);
    var p := Product(Product(Total(w.data), dx), dy);
    if Total(w.data) > 0.0 then
      ProductPositive(Total(w.data), dx);
      ProductPositive(Product(Total(w.data), dx), dy);
      p
    else
      p
  }

  /** The total probability is zero exactly when every cell of the grid is zero. */
  lemma TotalProbabilityZero(w: Wavefunction, lx: real, ly: real)
    requires w.Valid() && w.nx > 0 && w.ny > 0
    requires lx > 0.0 && ly > 0.0
    ensures TotalProbability(w, lx, ly) == 0.0 <==> forall k :: 0 <= k < |w.data| ==> w.data[k] == Zero
  {
    TotalZero(w.data);
  }
}
