/**
 * The standing-wave field whose zero contour is drawn as the Chladni pattern.
 *
 * For a square plate of side L and a mode pair (m, n) the field combines the
 * two products of sines sin(m*pi*x/L)*sin(n*pi*y/L) and
 * sin(n*pi*x/L)*sin(m*pi*y/L): their sum when m + n is even, their difference
 * when it is odd.  The sine is not computed here: every function takes
 * `sinPi`, standing for t |-> sin(pi * t), so that sin(k*pi*x/L) is
 * `sinPi(k * x / L)`.  All laws below are algebraic and hold for any such
 * function unless a lemma assumes more about it.
 */
module ChladniPattern {

  /** Grid points per axis of the sampled field. */
  const GridSize: nat := 300

  /**
   * `GridSize` evenly spaced coordinates from 0 to L, both ends included.
   */
  function Linspace(L: real): (xs: seq<real>)
    ensures |xs| == GridSize
    ensures xs[0] == 0.0 && xs[GridSize - 1] == L
    ensures forall i :: 0 <= i < GridSize - 1 ==> xs[i + 1] - xs[i] == L / (GridSize - 1) as real
  {
    seq(GridSize, i requires 0 <= i => i as real * L / (GridSize - 1) as real)
  }

  /** The mode shape with k half-waves along one axis, at coordinate t. */
  function Shape(sinPi: real -> real, k: int, L: real, t: real): real
    requires L != 0.0
  {
    sinPi(k as real * t / L)
  }

  /** The first product: m half-waves along x, n along y. */
  function Term1(sinPi: real -> real, m: int, n: int, L: real, x: real, y: real): real
    requires L != 0.0
  {
    Shape(sinPi, m, L, x) * Shape(sinPi, n, L, y)
  }

  /** The second product: n half-waves along x, m along y. */
  function Term2(sinPi: real -> real, m: int, n: int, L: real, x: real, y: real): real
    requires L != 0.0
  {
    Shape(sinPi, n, L, x) * Shape(sinPi, m, L, y)
  }

  /**
   * The field at (x, y).  As in `draw_cladogram`, the sum of the two products is
   * formed first and is replaced by their difference when m + n is odd.
   */
  function FieldAt(sinPi: real -> real, m: int, n: int, L: real, x: real, y: real): (z: real)
    requires L != 0.0
    ensures (m + n) % 2 == 0 ==> z == Term1(sinPi, m, n, L, x, y) + Term2(sinPi, m, n, L, x, y)
    ensures (m + n) % 2 != 0 ==> z == Term1(sinPi, m, n, L, x, y) - Term2(sinPi, m, n, L, x, y)
  {
    var sum := Term1(sinPi, m, n, L, x, y) + Term2(sinPi, m, n, L, x, y);
    if (m + n) % 2 == 0 then sum
    else Term1(sinPi, m, n, L, x, y) - Term2(sinPi, m, n, L, x, y)
  }

  /**
   * The field sampled on the GridSize x GridSize mesh: row r holds y = ys[r],
   * column c holds x = xs[c], with xs and ys both `Linspace(L)`.
   */
  function FieldGrid(sinPi: real -> real, m: int, n: int, L: real): (Z: seq<seq<real>>)
    requires L != 0.0
    ensures |Z| == GridSize
    ensures forall r :: 0 <= r < GridSize ==> |Z[r]| == GridSize
    ensures forall r, c :: 0 <= r < GridSize && 0 <= c < GridSize ==>
              Z[r][c] == FieldAt(sinPi, m, n, L, Linspace(L)[c], Linspace(L)[r])
  {
    var xs := Linspace(L);
    seq(GridSize, r requires 0 <= r < GridSize =>
      seq(GridSize, c requires 0 <= c < GridSize => FieldAt(sinPi, m, n, L, xs[c], xs[r])))
  }

  /** Swapping m and n swaps the two products. */
  lemma TermsSwap(sinPi: real -> real, m: int, n: int, L: real, x: real, y: real)
    requires L != 0.0
    ensures Term1(sinPi, n, m, L, x, y) == Term2(sinPi, m, n, L, x, y)
    ensures Term2(sinPi, n, m, L, x, y) == Term1(sinPi, m, n, L, x, y)
  {
  }

  /**
   * Swapping m and n leaves the field unchanged when m + n is even and
   * negates it when m + n is odd.
   */
  lemma FieldSwap(sinPi: real -> real, m: int, n: int, L: real, x: real, y: real)
    requires L != 0.0
    ensures (m + n) % 2 == 0 ==> FieldAt(sinPi, n, m, L, x, y) == FieldAt(sinPi, m, n, L, x, y)
    ensures (m + n) % 2 != 0 ==> FieldAt(sinPi, n, m, L, x, y) == -FieldAt(sinPi, m, n, L, x, y)
  {
    TermsSwap(sinPi, m, n, L, x, y);
  }

  /**
   * Reflection in the diagonal x = y: the field is symmetric when m + n is
   * even and antisymmetric when it is odd, so in the odd case the diagonal
   * is a nodal line.
   */
  lemma FieldDiagonalReflection(sinPi: real -> real, m: int, n: int, L: real, x: real, y: real)
    requires L != 0.0
    ensures (m + n) % 2 == 0 ==> FieldAt(sinPi, m, n, L, y, x) == FieldAt(sinPi, m, n, L, x, y)
    ensures (m + n) % 2 != 0 ==> FieldAt(sinPi, m, n, L, y, x) == -FieldAt(sinPi, m, n, L, x, y)
    ensures (m + n) % 2 != 0 ==> FieldAt(sinPi, m, n, L, x, x) == 0.0
  {
    assert Term1(sinPi, m, n, L, y, x) == Term2(sinPi, m, n, L, x, y);
    assert Term2(sinPi, m, n, L, y, x) == Term1(sinPi, m, n, L, x, y);
  }

  /**
   * Equal mode numbers collapse the field to twice a single product of
   * sines, a grid of straight nodal lines parallel to the axes.
   */
  lemma EqualModesDegenerate(sinPi: real -> real, k: int, L: real, x: real, y: real)
    requires L != 0.0
    ensures FieldAt(sinPi, k, k, L, x, y) == 2.0 * Shape(sinPi, k, L, x) * Shape(sinPi, k, L, y)
  {
    assert (k + k) % 2 == 0;
  }

  /**
   * On the sampled grid, swapping m and n keeps every sample when m + n is
   * even and negates every sample when it is odd.
   */
  lemma {:induction false} GridSwap(sinPi: real -> real, m: int, n: int, L: real)
    requires L != 0.0
    ensures (m + n) % 2 == 0 ==> FieldGrid(sinPi, n, m, L) == FieldGrid(sinPi, m, n, L)
    ensures forall r, c :: 0 <= r < GridSize && 0 <= c < GridSize && (m + n) % 2 != 0 ==>
              FieldGrid(sinPi, n, m, L)[r][c] == -FieldGrid(sinPi, m, n, L)[r][c]
  {
    var xs := Linspace(L);
    var A, B := FieldGrid(sinPi, m, n, L), FieldGrid(sinPi, n, m, L);
    forall r, c | 0 <= r < GridSize && 0 <= c < GridSize
      ensures (m + n) % 2 == 0 ==> B[r][c] == A[r][c]
      ensures (m + n) % 2 != 0 ==> B[r][c] == -A[r][c]
    {
      FieldSwap(sinPi, m, n, L, xs[c], xs[r]);
    }
    if (m + n) % 2 == 0 {
      forall r | 0 <= r < GridSize
        ensures B[r] == A[r]
      {
        assert forall c :: 0 <= c < GridSize ==> B[r][c] == A[r][c];
      }
    }
  }

  /**
   * When m + n is odd every diagonal sample of the grid is zero: the zero
   * contour runs along the plate's diagonal.  When m + n is even the sampled
   * grid is symmetric in its diagonal.
   */
  lemma {:induction false} GridDiagonal(sinPi: real -> real, m: int, n: int, L: real)
    requires L != 0.0
    ensures forall i :: 0 <= i < GridSize && (m + n) % 2 != 0 ==> FieldGrid(sinPi, m, n, L)[i][i] == 0.0
    ensures forall r, c :: 0 <= r < GridSize && 0 <= c < GridSize && (m + n) % 2 == 0 ==>
              FieldGrid(sinPi, m, n, L)[r][c] == FieldGrid(sinPi, m, n, L)[c][r]
  {
    var xs := Linspace(L);
    var Z := FieldGrid(sinPi, m, n, L);
    forall r, c | 0 <= r < GridSize && 0 <= c < GridSize
      ensures (m + n) % 2 == 0 ==> Z[r][c] == Z[c][r]
      ensures (m + n) % 2 != 0 && r == c ==> Z[r][c] == 0.0
    {
      FieldDiagonalReflection(sinPi, m, n, L, xs[c], xs[r]);
    }
  }

  /** True when `sinPi` vanishes at every whole number, as sin(pi * k) does. */
  ghost predicate ZeroAtIntegers(sinPi: real -> real) {
    forall t: real :: t == t.Floor as real ==> sinPi(t) == 0.0
  }

  /**
   * With a sine that vanishes at whole numbers, the field is zero all round
   * the plate's edge: at x = 0, x = L, y = 0 and y = L.
   */
  lemma FieldVanishesOnEdges(sinPi: real -> real, m: int, n: int, L: real, t: real)
    requires L != 0.0 && ZeroAtIntegers(sinPi)
    ensures FieldAt(sinPi, m, n, L, 0.0, t) == 0.0 && FieldAt(sinPi, m, n, L, L, t) == 0.0
    ensures FieldAt(sinPi, m, n, L, t, 0.0) == 0.0 && FieldAt(sinPi, m, n, L, t, L) == 0.0
  {
    assert sinPi(0 as real) == 0.0;
    assert sinPi(m as real) == 0.0 && sinPi(n as real) == 0.0;
    assert m as real * L / L == m as real && n as real * L / L == n as real;
  }

  /**
   * With such a sine, the first and last row and column of the sampled grid
   * are zero: for the ideal sine every border sample lies on the zero level.
   */
  lemma {:induction false} GridBorderIsZero(sinPi: real -> real, m: int, n: int, L: real)
    requires L != 0.0 && ZeroAtIntegers(sinPi)
    ensures forall i :: 0 <= i < GridSize ==>
              FieldGrid(sinPi, m, n, L)[0][i] == 0.0 && FieldGrid(sinPi, m, n, L)[GridSize - 1][i] == 0.0
              && FieldGrid(sinPi, m, n, L)[i][0] == 0.0 && FieldGrid(sinPi, m, n, L)[i][GridSize - 1] == 0.0
  {
    var xs := Linspace(L);
    forall i | 0 <= i < GridSize
      ensures FieldGrid(sinPi, m, n, L)[0][i] == 0.0 && FieldGrid(sinPi, m, n, L)[GridSize - 1][i] == 0.0
      ensures FieldGrid(sinPi, m, n, L)[i][0] == 0.0 && FieldGrid(sinPi, m, n, L)[i][GridSize - 1] == 0.0
    {
      FieldVanishesOnEdges(sinPi, m, n, L, xs[i]);
    }
  }
}
