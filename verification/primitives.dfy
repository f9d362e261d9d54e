/**
 * The numerical primitives the engine calls but whose code is not part of this
 * model, passed in as values: the constant pi, the unit phase exp(i t), the
 * unnormalised forward and backward two-dimensional discrete Fourier transforms
 * of a row-major nx-by-ny grid, and the Gaussian initialisation of a grid.
 *
 * `Valid` lists the only facts the model relies on. Each is a textbook property of
 * the exact operation: |exp(i t)| = 1 and exp(0) = 1; both transforms keep the grid
 * size; Parseval's identity for the unnormalised transforms (the sum of |z|^2 is
 * multiplied by the number of cells nx*ny); either transform undoes the other up to
 * the factor nx*ny; the forward transform commutes with scaling by a real; the
 * Gaussian grid has nx*ny cells.
 */
module Primitives {
  import opened Complexes
  import opened Config

  datatype Numerics = Numerics(
    pi: real,
    cis: real -> Complex,
    forward: (nat, nat, seq<Complex>) -> seq<Complex>,
    backward: (nat, nat, seq<Complex>) -> seq<Complex>,
    gaussian: (Wavepacket, nat, nat, real, real) -> seq<Complex>)
  {
    ghost predicate Valid()
    {
      && pi > 0.0
      && (forall t :: NormSq(cis(t)) == 1.0)
      && cis(0.0) == One
      && (forall nx: nat, ny: nat, s: seq<Complex> | |s| == nx * ny ::
            |forward(nx, ny, s)| == |s|
            && Total(forward(nx, ny, s)) == Product((nx * ny) as real, Total(s)))
      && (forall nx: nat, ny: nat, s: seq<Complex> | |s| == nx * ny ::
            |backward(nx, ny, s)| == |s|
            && Total(backward(nx, ny, s)) == Product((nx * ny) as real, Total(s)))
      && (forall nx: nat, ny: nat, s: seq<Complex> | |s| == nx * ny ::
            backward(nx, ny, forward(nx, ny, s)) == ScaleAll(s, (nx * ny) as real))
      && (forall nx: nat, ny: nat, g: seq<Complex> | |g| == nx * ny ::
            forward(nx, ny, backward(nx, ny, g)) == ScaleAll(g, (nx * ny) as real))
      && (forall nx: nat, ny: nat, s: seq<Complex>, c: real | |s| == nx * ny ::
            forward(nx, ny, ScaleAll(s, c)) == ScaleAll(forward(nx, ny, s), c))
      && (forall wp, nx: nat, ny: nat, lx, ly :: |gaussian(wp, nx, ny, lx, ly)| == nx * ny)
    }
  }
}
