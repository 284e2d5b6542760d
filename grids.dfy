/** Gridded values as numpy holds them: a grid is a list of rows, a stack a
    list of grids along the time axis.  A cell is a real number or missing,
    the model's stand-in for NaN. */
module Grids {

  datatype Cell = Val(v: real) | Missing

  type Grid = seq<seq<Cell>>
  type Stack = seq<Grid>

  /** Every row of g has ny cells and there are nx rows. */
  predicate GridShape<T>(g: seq<seq<T>>, nx: nat, ny: nat) {
    |g| == nx && forall r | 0 <= r < |g| :: |g[r]| == ny
  }

  /** Every grid of s has shape nx by ny. */
  predicate StackShape(s: Stack, nx: nat, ny: nat) {
    forall t | 0 <= t < |s| :: GridShape(s[t], nx, ny)
  }

  /** An nx by ny grid with c in every cell (`np.tile` of a scalar). */
  function Fill(nx: nat, ny: nat, c: Cell): (g: Grid)
    ensures GridShape(g, nx, ny)
    ensures forall r, k | 0 <= r < nx && 0 <= k < ny :: g[r][k] == c
  {
    seq(nx, r => seq(ny, k => c))
  }

  /** `np.zeros(shape=(nt, nx, ny))`. */
  function Zeros(nt: nat, nx: nat, ny: nat): (s: Stack)
    ensures |s| == nt && StackShape(s, nx, ny)
    ensures forall t | 0 <= t < nt :: s[t] == Fill(nx, ny, Val(0.0))
  {
    seq(nt, t => Fill(nx, ny, Val(0.0)))
  }

  /** The cells of a list of reals. */
  function Vals(v: seq<real>): (r: seq<Cell>)
    ensures |r| == |v| && forall i | 0 <= i < |v| :: r[i] == Val(v[i])
  {
    seq(|v|, i requires 0 <= i < |v| => Val(v[i]))
  }

  /** `v.reshape(rows, cols)`: consecutive runs of cols values become rows. */
  function Reshape<T>(v: seq<T>, rows: nat, cols: nat): (g: seq<seq<T>>)
    requires |v| == rows * cols
    ensures GridShape(g, rows, cols)
    decreases rows
  {
    if rows == 0 then []
    else
      assert |v[cols..]| == (rows - 1) * cols;
      [v[..cols]] + Reshape(v[cols..], rows - 1, cols)
  }

  /** `g.flatten()`: the rows of g, one after the other. */
  function Flatten<T>(g: seq<seq<T>>): (v: seq<T>)
    decreases |g|
  {
    if g == [] then [] else g[0] + Flatten(g[1..])
  }

  lemma {:induction false} FlattenLength<T>(g: seq<seq<T>>, nx: nat, ny: nat)
    requires GridShape(g, nx, ny)
    ensures |Flatten(g)| == nx * ny
    decreases nx
  {
    if nx > 0 {
      FlattenLength(g[1..], nx - 1, ny);
    }
  }

  /** Reshaping and then flattening gives back the values. */
  lemma {:induction false} FlattenReshape<T>(v: seq<T>, rows: nat, cols: nat)
    requires |v| == rows * cols
    ensures Flatten(Reshape(v, rows, cols)) == v
    decreases rows
  {
    if rows > 0 {
      assert |v[cols..]| == (rows - 1) * cols;
      FlattenReshape(v[cols..], rows - 1, cols);
      assert Reshape(v, rows, cols)[1..] == Reshape(v[cols..], rows - 1, cols);
    }
  }

  /** Flattening a grid and reshaping it to its own shape gives back the grid. */
  lemma {:induction false} ReshapeFlatten<T>(g: seq<seq<T>>, nx: nat, ny: nat)
    requires GridShape(g, nx, ny)
    ensures |Flatten(g)| == nx * ny
    ensures Reshape(Flatten(g), nx, ny) == g
    decreases nx
  {
    FlattenLength(g, nx, ny);
    if nx > 0 {
      ReshapeFlatten(g[1..], nx - 1, ny);
      assert Flatten(g)[..ny] == g[0];
      assert Flatten(g)[ny..] == Flatten(g[1..]);
    }
  }

  /** Cell (r, c) of a flattened nx by ny grid is at r * ny + c. */
  lemma {:induction false} FlattenAt<T>(g: seq<seq<T>>, nx: nat, ny: nat, r: nat, c: nat)
    requires GridShape(g, nx, ny) && r < nx && c < ny
    ensures |Flatten(g)| == nx * ny
    ensures r * ny + c < nx * ny && Flatten(g)[r * ny + c] == g[r][c]
    decreases r
  {
    FlattenLength(g, nx, ny);
    FlattenLength(g[1..], nx - 1, ny);
    if r > 0 {
      FlattenAt(g[1..], nx - 1, ny, r - 1, c);
      assert r * ny + c == ny + ((r - 1) * ny + c);
    }
  }
}
