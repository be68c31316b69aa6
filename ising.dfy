/**
  The 2D Ising model on an N x N torus: a lattice of +1/-1 spins updated by
  Metropolis sweeps, the bond energy and total spin measured after each
  sweep, a stop-on-full history of both, and a red/blue pixel buffer.
*/
module Ising {

  import Arith
  import History
  import opened Pixels
  import opened Registry

  /** ISING_BUFFER_LEN: capacity of the three plot histories. */
  const BufferLen := 600

  // ---------------------------------------------------------------------------
  // The periodic index helper
  // ---------------------------------------------------------------------------

  /**
    mod(a, b) = (a % b + b) % b with C's truncating `%`: for b > 0 the result
    always lies in [0, b), even for a negative a.
  */
  function Mod(a: int, b: int): (r: int)
    requires b > 0
    ensures 0 <= r < b
  {
    Arith.CRem(Arith.CRem(a, b) + b, b)
  }

  /** mod is the mathematical residue: Dafny's Euclidean `%`, congruent to a modulo b. */
  lemma ModIsResidue(a: int, b: int)
    requires b > 0
    ensures Mod(a, b) == a % b
    ensures (a - Mod(a, b)) % b == 0
  {
    var e := a % b;
    var c := Arith.CRem(a, b);
    if a >= 0 || e == 0 {
      assert c == e;
      Arith.DivModUnique(c + b, b, 1, e);
    } else {
      assert c == e - b;
      Arith.DivModUnique(c + b, b, 0, e);
    }
    assert a - e == (a / b) * b;
    Arith.DivModUnique(a - e, b, a / b, 0);
  }

  /**
    The neighbour coordinates the update reads, mod(c - 1, N) and
    mod(c + 1, N), are the torus neighbours of c: one step back from 0 is
    N - 1, one step forward from N - 1 is 0.
  */
  lemma ModIsWrap(c: int, d: int, n: int)
    requires 0 <= c < n && -1 <= d <= 1
    ensures Mod(c + d, n) == Arith.Wrap(c, d, n)
  {
    ModIsResidue(c + d, n);
    var w := Arith.Wrap(c, d, n);
    if c + d < 0 {
      Arith.DivModUnique(c + d, n, -1, w);
    } else if c + d >= n {
      Arith.DivModUnique(c + d, n, 1, w);
    } else {
      Arith.DivModUnique(c + d, n, 0, w);
    }
  }

  // ---------------------------------------------------------------------------
  // One Metropolis step, as a function of the lattice
  // ---------------------------------------------------------------------------

  /** Every site holds spin +1 or -1. */
  predicate Spins(g: seq<int>)
  {
    forall k :: 0 <= k < |g| ==> g[k] == 1 || g[k] == -1
  }

  /** The spin above (i, j), in row j - 1 wrapped. */
  function Up(g: seq<int>, n: int, i: int, j: int): int
    requires |g| == n * n && 0 <= i < n && 0 <= j < n
  {
    g[Arith.Idx(i, Arith.Wrap(j, -1, n), n)]
  }

  /** The spin below (i, j), in row j + 1 wrapped. */
  function Down(g: seq<int>, n: int, i: int, j: int): int
    requires |g| == n * n && 0 <= i < n && 0 <= j < n
  {
    g[Arith.Idx(i, Arith.Wrap(j, 1, n), n)]
  }

  /** The spin left of (i, j), in column i - 1 wrapped. */
  function Left(g: seq<int>, n: int, i: int, j: int): int
    requires |g| == n * n && 0 <= i < n && 0 <= j < n
  {
    g[Arith.Idx(Arith.Wrap(i, -1, n), j, n)]
  }

  /** The spin right of (i, j), in column i + 1 wrapped. */
  function Right(g: seq<int>, n: int, i: int, j: int): int
    requires |g| == n * n && 0 <= i < n && 0 <= j < n
  {
    g[Arith.Idx(Arith.Wrap(i, 1, n), j, n)]
  }

  /** up + down + left + right around site (i, j), with periodic boundaries. */
  function NeighbourSum(g: seq<int>, n: int, i: int, j: int): int
    requires |g| == n * n && 0 <= i < n && 0 <= j < n
  {
    Up(g, n, i, j) + Down(g, n, i, j) + Left(g, n, i, j) + Right(g, n, i, j)
  }

  /** The energy change of flipping site (i, j), coupling constant J = 1. */
  function DeltaE(g: seq<int>, n: int, i: int, j: int): int
    requires |g| == n * n && 0 <= i < n && 0 <= j < n
  {
    2 * g[Arith.Idx(i, j, n)] * NeighbourSum(g, n, i, j)
  }

  /** With +/-1 spins the neighbour sum lies in [-4, 4] and the energy change in [-8, 8]. */
  lemma DeltaEBounds(g: seq<int>, n: int, i: int, j: int)
    requires |g| == n * n && 0 <= i < n && 0 <= j < n && Spins(g)
    ensures -4 <= NeighbourSum(g, n, i, j) <= 4
    ensures -8 <= DeltaE(g, n, i, j) <= 8
  {
    var s := g[Arith.Idx(i, j, n)];
    var sum := NeighbourSum(g, n, i, j);
    assert -4 <= sum <= 4;
    if s == 1 {
      assert DeltaE(g, n, i, j) == 2 * sum;
    } else {
      assert DeltaE(g, n, i, j) == -2 * sum;
    }
  }

  /** Site (i, j) with its spin reversed. */
  function Flip(g: seq<int>, n: int, i: int, j: int): seq<int>
    requires |g| == n * n && 0 <= i < n && 0 <= j < n
  {
    g[Arith.Idx(i, j, n) := -g[Arith.Idx(i, j, n)]]
  }

  /**
    The Metropolis criterion at site (i, j): a flip that does not raise the
    energy is always taken, one that raises it only when the acceptance
    test (a uniform draw below exp(-deltaE / T)) passes.
  */
  function Step(g: seq<int>, n: int, i: int, j: int, accept: bool): seq<int>
    requires |g| == n * n && 0 <= i < n && 0 <= j < n
  {
    if DeltaE(g, n, i, j) <= 0 || accept then Flip(g, n, i, j) else g
  }

  /**
    A step changes at most the chosen site; a flip that does not raise the
    energy always happens, and one that raises it happens exactly when the
    test accepts.
  */
  lemma StepChangesOnlySite(g: seq<int>, n: int, i: int, j: int, accept: bool)
    requires |g| == n * n && 0 <= i < n && 0 <= j < n && Spins(g)
    ensures |Step(g, n, i, j, accept)| == n * n
    ensures forall k :: 0 <= k < n * n && k != Arith.Idx(i, j, n) ==> Step(g, n, i, j, accept)[k] == g[k]
    ensures DeltaE(g, n, i, j) <= 0 ==> Step(g, n, i, j, accept)[Arith.Idx(i, j, n)] == -g[Arith.Idx(i, j, n)]
    ensures DeltaE(g, n, i, j) > 0 ==>
              (Step(g, n, i, j, accept)[Arith.Idx(i, j, n)] != g[Arith.Idx(i, j, n)] <==> accept)
  {
  }

  /** A step leaves a lattice of +/-1 spins. */
  lemma StepKeepsSpins(g: seq<int>, n: int, i: int, j: int, accept: bool)
    requires |g| == n * n && 0 <= i < n && 0 <= j < n && Spins(g)
    ensures Spins(Step(g, n, i, j, accept))
  {
  }

  /** The three pseudo-random numbers one step consumes: column, row, and the acceptance test's verdict. */
  datatype Draw = Draw(i: nat, j: nat, accept: bool)

  /** The lattice after the first m steps of a sweep driven by the given draws. */
  function SweepOf(g: seq<int>, n: int, draws: seq<Draw>, m: int): (h: seq<int>)
    requires n > 0 && |g| == n * n && 0 <= m <= |draws|
    ensures |h| == n * n
  {
    if m == 0 then g
    else
      var d := draws[m - 1];
      Step(SweepOf(g, n, draws, m - 1), n, d.i % n, d.j % n, d.accept)
  }

  /** However the draws fall, a sweep leaves a lattice of +/-1 spins. */
  lemma {:induction false} SweepKeepsSpins(g: seq<int>, n: int, draws: seq<Draw>, m: int)
    requires n > 0 && |g| == n * n && 0 <= m <= |draws| && Spins(g)
    ensures Spins(SweepOf(g, n, draws, m))
  {
    if m > 0 {
      SweepKeepsSpins(g, n, draws, m - 1);
      var d := draws[m - 1];
      StepKeepsSpins(SweepOf(g, n, draws, m - 1), n, d.i % n, d.j % n, d.accept);
    }
  }

  /**
    The Monte Carlo sweep of sim_ising_update: N * N steps, step number s
    picking site (draws[s].i % N, draws[s].j % N), reading its four
    neighbours with periodic wrap and flipping it in place by the
    Metropolis criterion.
  */
  method Sweep(grid: array<int>, n: int, draws: seq<Draw>)
    requires n > 0 && grid.Length == n * n && |draws| == n * n
    modifies grid
    ensures grid[..] == SweepOf(old(grid[..]), n, draws, n * n)
  {
    ghost var g0 := grid[..];
    var total := n * n;
    var step := 0;
    while step < total
      invariant 0 <= step <= total
      invariant grid[..] == SweepOf(g0, n, draws, step)
    {
      MetropolisStep(grid, n, draws[step]);
      step := step + 1;
    }
  }

  /** The body of the sweep loop: one Metropolis step at the site the draw picks. */
  method MetropolisStep(grid: array<int>, n: int, d: Draw)
    requires n > 0 && grid.Length == n * n
    modifies grid
    ensures grid[..] == Step(old(grid[..]), n, d.i % n, d.j % n, d.accept)
  {
    var i := d.i % n;
    var j := d.j % n;
    var idx := Arith.Idx(i, j, n);
    var spin := grid[idx];

    var sumNeighbours := SumNeighbours(grid, n, i, j);
    var deltaE := 2 * spin * sumNeighbours;
    if deltaE <= 0 {
      grid[idx] := -spin;
    } else if d.accept {
      grid[idx] := -spin;
    }
  }

  /**
    The four neighbour reads of the update, at mod(j - 1, N), mod(j + 1, N),
    mod(i - 1, N) and mod(i + 1, N), add up to the torus neighbour sum.
  */
  method SumNeighbours(grid: array<int>, n: int, i: int, j: int) returns (sum: int)
    requires 0 <= i < n && 0 <= j < n && grid.Length == n * n
    ensures sum == NeighbourSum(grid[..], n, i, j)
  {
    var up := grid[Arith.Idx(i, Mod(j - 1, n), n)];
    var down := grid[Arith.Idx(i, Mod(j + 1, n), n)];
    var left := grid[Arith.Idx(Mod(i - 1, n), j, n)];
    var right := grid[Arith.Idx(Mod(i + 1, n), j, n)];
    ModIsWrap(i, -1, n);
    ModIsWrap(i, 1, n);
    ModIsWrap(j, -1, n);
    ModIsWrap(j, 1, n);
    sum := up + down + left + right;
  }

  // ---------------------------------------------------------------------------
  // Energy and magnetisation
  // ---------------------------------------------------------------------------

  /** The bonds of site (x, y) to its right and lower neighbours: -s * (right + down). */
  function SiteEnergy(g: seq<int>, n: int, x: int, y: int): int
    requires |g| == n * n && 0 <= x < n && 0 <= y < n
  {
    -g[Arith.Idx(x, y, n)] * (Right(g, n, x, y) + Down(g, n, x, y))
  }

  /** The bond energy of sites (0, y) up to (x - 1, y). */
  function RowEnergy(g: seq<int>, n: int, y: int, x: int): int
    requires |g| == n * n && 0 <= y < n && 0 <= x <= n
  {
    if x == 0 then 0 else RowEnergy(g, n, y, x - 1) + SiteEnergy(g, n, x - 1, y)
  }

  /** The bond energy of rows 0 up to y - 1. */
  function RowsEnergy(g: seq<int>, n: int, y: int): int
    requires |g| == n * n && 0 <= y <= n
  {
    if y == 0 then 0 else RowsEnergy(g, n, y - 1) + RowEnergy(g, n, y - 1, n)
  }

  /** The sum of the first m spins. */
  function SpinBelow(g: seq<int>, m: int): int
    requires 0 <= m <= |g|
  {
    if m == 0 then 0 else SpinBelow(g, m - 1) + g[m - 1]
  }

  /** The total energy: every bond of the torus counted once. */
  function Energy(g: seq<int>, n: int): int
    requires |g| == n * n && n >= 0
  {
    RowsEnergy(g, n, n)
  }

  /** A site's two bonds each have energy -1 or +1. */
  lemma SiteEnergyBounds(g: seq<int>, n: int, x: int, y: int)
    requires |g| == n * n && 0 <= x < n && 0 <= y < n && Spins(g)
    ensures -2 <= SiteEnergy(g, n, x, y) <= 2
  {
  }

  /** x sites of a row have energy in [-2x, 2x]. */
  lemma {:induction false} RowEnergyBounds(g: seq<int>, n: int, y: int, x: int)
    requires |g| == n * n && 0 <= y < n && 0 <= x <= n && Spins(g)
    ensures -2 * x <= RowEnergy(g, n, y, x) <= 2 * x
  {
    if x > 0 {
      RowEnergyBounds(g, n, y, x - 1);
      SiteEnergyBounds(g, n, x - 1, y);
    }
  }

  /** y full rows have energy in [-2yN, 2yN]. */
  lemma {:induction false} RowsEnergyBounds(g: seq<int>, n: int, y: int)
    requires |g| == n * n && 0 <= y <= n && Spins(g)
    ensures -2 * (y * n) <= RowsEnergy(g, n, y) <= 2 * (y * n)
  {
    if y > 0 {
      RowsEnergyBounds(g, n, y - 1);
      RowEnergyBounds(g, n, y - 1, n);
      Arith.NextRow(y - 1, n);
    }
  }

  /** m spins of +/-1 add up to a value in [-m, m]. */
  lemma {:induction false} SpinBelowBounds(g: seq<int>, m: int)
    requires 0 <= m <= |g| && Spins(g)
    ensures -m <= SpinBelow(g, m) <= m
  {
    if m > 0 {
      SpinBelowBounds(g, m - 1);
    }
  }

  // ---------------------------------------------------------------------------
  // deltaE is the change in energy a flip causes
  // ---------------------------------------------------------------------------

  /** Distinct sites have distinct flat indices. */
  lemma IdxInjective(a: int, b: int, c: int, d: int, n: int)
    requires 0 <= a < n && 0 <= b < n && 0 <= c < n && 0 <= d < n
    ensures Arith.Idx(a, b, n) == Arith.Idx(c, d, n) <==> a == c && b == d
  {
    Arith.CellIndex(a, b, n);
    Arith.CellIndex(c, d, n);
  }

  /** x is the left neighbour of i exactly when i is the right neighbour of x. */
  lemma LeftRightInverse(x: int, i: int, n: int)
    requires 0 <= x < n && 0 <= i < n
    ensures Arith.Wrap(x, 1, n) == i <==> x == Arith.Wrap(i, -1, n)
  {
  }

  /** What a flip of (i, j) adds to the bond energy of (i, j) itself: both of its bonds reverse. */
  function SelfBonds(g: seq<int>, n: int, i: int, j: int): int
    requires |g| == n * n && 0 <= i < n && 0 <= j < n
  {
    2 * g[Arith.Idx(i, j, n)] * (Right(g, n, i, j) + Down(g, n, i, j))
  }

  /** What a flip of (i, j) adds to the bond energy of its left neighbour, whose right bond reverses. */
  function LeftBond(g: seq<int>, n: int, i: int, j: int): int
    requires |g| == n * n && 0 <= i < n && 0 <= j < n
  {
    2 * g[Arith.Idx(i, j, n)] * Left(g, n, i, j)
  }

  /** What a flip of (i, j) adds to the bond energy of its upper neighbour, whose down bond reverses. */
  function UpBond(g: seq<int>, n: int, i: int, j: int): int
    requires |g| == n * n && 0 <= i < n && 0 <= j < n
  {
    2 * g[Arith.Idx(i, j, n)] * Up(g, n, i, j)
  }

  /** The three contributions add up to deltaE. */
  lemma BondsAddUp(g: seq<int>, n: int, i: int, j: int)
    requires |g| == n * n && 0 <= i < n && 0 <= j < n
    ensures SelfBonds(g, n, i, j) + LeftBond(g, n, i, j) + UpBond(g, n, i, j) == DeltaE(g, n, i, j)
  {
  }

  /** On a lattice of at least two sites per side, each neighbour of (i, j) is another site. */
  lemma NeighboursAreOthers(n: int, i: int, j: int)
    requires n >= 2 && 0 <= i < n && 0 <= j < n
    ensures Arith.Wrap(i, -1, n) != i && Arith.Wrap(i, 1, n) != i
    ensures Arith.Wrap(j, -1, n) != j && Arith.Wrap(j, 1, n) != j
  {
  }

  /** The flipped site's own bonds change by SelfBonds. */
  lemma SelfChange(g: seq<int>, n: int, i: int, j: int)
    requires |g| == n * n && n >= 2 && 0 <= i < n && 0 <= j < n
    ensures SiteEnergy(Flip(g, n, i, j), n, i, j) == SiteEnergy(g, n, i, j) + SelfBonds(g, n, i, j)
  {
    NeighboursAreOthers(n, i, j);
    IdxInjective(Arith.Wrap(i, 1, n), j, i, j, n);
    IdxInjective(i, Arith.Wrap(j, 1, n), i, j, n);
    var g' := Flip(g, n, i, j);
    var s, r, d := g[Arith.Idx(i, j, n)], Right(g, n, i, j), Down(g, n, i, j);
    assert Right(g', n, i, j) == r && Down(g', n, i, j) == d;
    assert -(-s) * (r + d) == -s * (r + d) + 2 * s * (r + d);
  }

  /** The left neighbour's right bond changes by LeftBond. */
  lemma LeftChange(g: seq<int>, n: int, i: int, j: int)
    requires |g| == n * n && n >= 2 && 0 <= i < n && 0 <= j < n
    ensures SiteEnergy(Flip(g, n, i, j), n, Arith.Wrap(i, -1, n), j) == SiteEnergy(g, n, Arith.Wrap(i, -1, n), j) + LeftBond(g, n, i, j)
  {
    var x := Arith.Wrap(i, -1, n);
    NeighboursAreOthers(n, i, j);
    LeftRightInverse(x, i, n);
    IdxInjective(x, j, i, j, n);
    IdxInjective(x, Arith.Wrap(j, 1, n), i, j, n);
    var g' := Flip(g, n, i, j);
    var s, l, d := g[Arith.Idx(i, j, n)], g[Arith.Idx(x, j, n)], Down(g, n, x, j);
    assert g'[Arith.Idx(x, j, n)] == l && Right(g', n, x, j) == -s && Down(g', n, x, j) == d;
    assert Right(g, n, x, j) == s && Left(g, n, i, j) == l;
    assert -l * (-s + d) == -l * (s + d) + 2 * s * l;
  }

  /** The upper neighbour's down bond changes by UpBond. */
  lemma UpChange(g: seq<int>, n: int, i: int, j: int)
    requires |g| == n * n && n >= 2 && 0 <= i < n && 0 <= j < n
    ensures SiteEnergy(Flip(g, n, i, j), n, i, Arith.Wrap(j, -1, n)) == SiteEnergy(g, n, i, Arith.Wrap(j, -1, n)) + UpBond(g, n, i, j)
  {
    var y := Arith.Wrap(j, -1, n);
    NeighboursAreOthers(n, i, j);
    LeftRightInverse(y, j, n);
    IdxInjective(i, y, i, j, n);
    IdxInjective(Arith.Wrap(i, 1, n), y, i, j, n);
    var g' := Flip(g, n, i, j);
    var s, u, r := g[Arith.Idx(i, j, n)], g[Arith.Idx(i, y, n)], Right(g, n, i, y);
    assert g'[Arith.Idx(i, y, n)] == u && Right(g', n, i, y) == r && Down(g', n, i, y) == -s;
    assert Down(g, n, i, y) == s && Up(g, n, i, j) == u;
    assert -u * (r + -s) == -u * (r + s) + 2 * s * u;
  }

  /** Every other site keeps its bond energy: none of its three spins is the flipped one. */
  lemma FarUnchanged(g: seq<int>, n: int, i: int, j: int, x: int, y: int)
    requires |g| == n * n && n >= 2 && 0 <= i < n && 0 <= j < n && 0 <= x < n && 0 <= y < n
    requires !(x == i && y == j) && !(x == Arith.Wrap(i, -1, n) && y == j) && !(x == i && y == Arith.Wrap(j, -1, n))
    ensures SiteEnergy(Flip(g, n, i, j), n, x, y) == SiteEnergy(g, n, x, y)
  {
    LeftRightInverse(x, i, n);
    LeftRightInverse(y, j, n);
    IdxInjective(x, y, i, j, n);
    IdxInjective(Arith.Wrap(x, 1, n), y, i, j, n);
    IdxInjective(x, Arith.Wrap(y, 1, n), i, j, n);
    var g' := Flip(g, n, i, j);
    assert g'[Arith.Idx(x, y, n)] == g[Arith.Idx(x, y, n)];
    assert Right(g', n, x, y) == Right(g, n, x, y) && Down(g', n, x, y) == Down(g, n, x, y);
  }

  /**
    Flipping (i, j) changes the right/down bond energy of exactly three
    sites: (i, j) itself, its left neighbour and its upper neighbour.
  */
  lemma SiteChange(g: seq<int>, n: int, i: int, j: int, x: int, y: int)
    requires |g| == n * n && n >= 2 && 0 <= i < n && 0 <= j < n && 0 <= x < n && 0 <= y < n
    ensures SiteEnergy(Flip(g, n, i, j), n, x, y) == SiteEnergy(g, n, x, y)
      + (if x == i && y == j then SelfBonds(g, n, i, j) else 0)
      + (if x == Arith.Wrap(i, -1, n) && y == j then LeftBond(g, n, i, j) else 0)
      + (if x == i && y == Arith.Wrap(j, -1, n) then UpBond(g, n, i, j) else 0)
  {
    NeighboursAreOthers(n, i, j);
    if x == i && y == j {
      SelfChange(g, n, i, j);
    } else if x == Arith.Wrap(i, -1, n) && y == j {
      LeftChange(g, n, i, j);
    } else if x == i && y == Arith.Wrap(j, -1, n) {
      UpChange(g, n, i, j);
    } else {
      FarUnchanged(g, n, i, j, x, y);
    }
  }

  /** The change over the first x sites of row y: the contributions of SiteChange that fall there. */
  lemma {:induction false} RowChange(g: seq<int>, n: int, i: int, j: int, y: int, x: int)
    requires |g| == n * n && n >= 2 && 0 <= i < n && 0 <= j < n && 0 <= y < n && 0 <= x <= n
    ensures RowEnergy(Flip(g, n, i, j), n, y, x) == RowEnergy(g, n, y, x)
      + (if i < x && y == j then SelfBonds(g, n, i, j) else 0)
      + (if Arith.Wrap(i, -1, n) < x && y == j then LeftBond(g, n, i, j) else 0)
      + (if i < x && y == Arith.Wrap(j, -1, n) then UpBond(g, n, i, j) else 0)
  {
    if x > 0 {
      RowChange(g, n, i, j, y, x - 1);
      SiteChange(g, n, i, j, x - 1, y);
    }
  }

  /** The change over the first y rows. */
  lemma {:induction false} RowsChange(g: seq<int>, n: int, i: int, j: int, y: int)
    requires |g| == n * n && n >= 2 && 0 <= i < n && 0 <= j < n && 0 <= y <= n
    ensures RowsEnergy(Flip(g, n, i, j), n, y) == RowsEnergy(g, n, y)
      + (if j < y then SelfBonds(g, n, i, j) + LeftBond(g, n, i, j) else 0)
      + (if Arith.Wrap(j, -1, n) < y then UpBond(g, n, i, j) else 0)
  {
    if y > 0 {
      RowsChange(g, n, i, j, y - 1);
      RowChange(g, n, i, j, y - 1, n);
      NeighboursAreOthers(n, i, j);
    }
  }

  /**
    deltaE = 2 * spin * (up + down + left + right) is exactly the change in
    the measured energy that flipping the spin causes, on any lattice of at
    least two sites per side.
  */
  lemma FlipChangesEnergy(g: seq<int>, n: int, i: int, j: int)
    requires |g| == n * n && n >= 2 && 0 <= i < n && 0 <= j < n
    ensures Energy(Flip(g, n, i, j), n) == Energy(g, n) + DeltaE(g, n, i, j)
  {
    RowsChange(g, n, i, j, n);
    BondsAddUp(g, n, i, j);
  }

  /**
    A step changes the energy by deltaE when it flips and not at all
    otherwise; without the acceptance test it never raises the energy.
  */
  lemma StepEnergy(g: seq<int>, n: int, i: int, j: int, accept: bool)
    requires |g| == n * n && n >= 2 && 0 <= i < n && 0 <= j < n
    ensures Energy(Step(g, n, i, j, accept), n)
         == Energy(g, n) + (if DeltaE(g, n, i, j) <= 0 || accept then DeltaE(g, n, i, j) else 0)
    ensures !accept ==> Energy(Step(g, n, i, j, accept), n) <= Energy(g, n)
  {
    FlipChangesEnergy(g, n, i, j);
  }

  /** A sweep whose acceptance tests all fail (zero temperature) never raises the energy. */
  lemma {:induction false} ColdSweepDescends(g: seq<int>, n: int, draws: seq<Draw>, m: int)
    requires n >= 2 && |g| == n * n && 0 <= m <= |draws|
    requires forall k :: 0 <= k < |draws| ==> !draws[k].accept
    ensures Energy(SweepOf(g, n, draws, m), n) <= Energy(g, n)
  {
    if m > 0 {
      ColdSweepDescends(g, n, draws, m - 1);
      var d := draws[m - 1];
      StepEnergy(SweepOf(g, n, draws, m - 1), n, d.i % n, d.j % n, d.accept);
    }
  }

  /**
    The two sums of sim_ising_update after the sweep: the bond energy over
    right and lower neighbours, so that no bond is counted twice, and the
    total spin. The C code accumulates the energy in a float; every partial
    sum is an integer of magnitude at most 2 * 128 * 128, which a float
    holds exactly.
  */
  method Measure(grid: array<int>, n: int) returns (energy: int, totalSpin: int)
    requires n > 0 && grid.Length == n * n
    ensures energy == Energy(grid[..], n)
    ensures totalSpin == SpinBelow(grid[..], n * n)
  {
    energy, totalSpin := 0, 0;
    var j := 0;
    while j < n
      invariant 0 <= j <= n && j * n <= n * n
      invariant energy == RowsEnergy(grid[..], n, j)
      invariant totalSpin == SpinBelow(grid[..], j * n)
    {
      Arith.CellIndex(n - 1, j, n);
      energy, totalSpin := MeasureRow(grid, n, j, energy, totalSpin);
      Arith.NextRow(j, n);
      j := j + 1;
    }
  }

  /** One pass of the inner loop: the sites of row j, left to right. */
  method MeasureRow(grid: array<int>, n: int, j: int, e: int, t: int) returns (energy: int, totalSpin: int)
    requires 0 <= j < n && grid.Length == n * n && j * n + n <= n * n
    requires t == SpinBelow(grid[..], j * n)
    ensures energy == e + RowEnergy(grid[..], n, j, n)
    ensures totalSpin == SpinBelow(grid[..], j * n + n)
  {
    energy, totalSpin := e, t;
    var i := 0;
    while i < n
      invariant 0 <= i <= n && j * n + i <= n * n
      invariant energy == e + RowEnergy(grid[..], n, j, i)
      invariant totalSpin == SpinBelow(grid[..], j * n + i)
    {
      var bond, s := SiteTerms(grid, n, i, j);
      energy := energy + bond;
      totalSpin := totalSpin + s;
      i := i + 1;
    }
  }

  /** The body of the measuring loop: the spin at (i, j) and its bonds to the right and lower neighbours. */
  method SiteTerms(grid: array<int>, n: int, i: int, j: int) returns (bond: int, s: int)
    requires grid.Length == n * n && 0 <= i < n && 0 <= j < n
    ensures bond == SiteEnergy(grid[..], n, i, j)
    ensures s == grid[Arith.Idx(i, j, n)] && s == grid[j * n + i]
  {
    var idx := Arith.Idx(i, j, n);
    s := grid[idx];
    var right := grid[Arith.Idx(Mod(i + 1, n), j, n)];
    var down := grid[Arith.Idx(i, Mod(j + 1, n), n)];
    ModIsWrap(i, 1, n);
    ModIsWrap(j, 1, n);
    bond := -s * (right + down);
  }

  /** The per-spin values that are plotted: energy and magnetisation over N * N. */
  function PerSpin(v: int, n: int): real
    requires n > 0
  {
    v as real / (n * n) as real
  }

  /**
    The plotted values stay in the ranges the plot expects: energy per spin
    in [-2, 2] and magnetisation in [-1, 1], inside the fixed y axis of
    [-2.5, 2.5].
  */
  lemma PerSpinRanges(g: seq<int>, n: int)
    requires n > 0 && |g| == n * n && Spins(g)
    ensures -2.0 <= PerSpin(Energy(g, n), n) <= 2.0
    ensures -1.0 <= PerSpin(SpinBelow(g, n * n), n) <= 1.0
  {
    var w := n * n;
    RowsEnergyBounds(g, n, n);
    SpinBelowBounds(g, w);
    PerSpinWithin(Energy(g, n), n, 2);
    PerSpinWithin(SpinBelow(g, w), n, 1);
  }

  /** A sum of at most c per site, in absolute value, is at most c per spin. */
  lemma PerSpinWithin(v: int, n: int, c: int)
    requires n > 0 && -c * (n * n) <= v <= c * (n * n)
    ensures -(c as real) <= PerSpin(v, n) <= c as real
  {
  }

  /** Colour of a site: red for spin +1, blue otherwise. */
  function SpinColour(v: int): Rgba
  {
    if v == 1 then Rgba(255, 0, 0, 255) else Rgba(0, 0, 255, 255)
  }

  /** ising_params: the grid-size slider from 16 to 128 and the temperature slider from 0.5 to 5.0. */
  const IsingParams := [
    Parameter("Grid Size", IntParam, 0.0, 0.0, 16, 128),
    Parameter("Temperature", FloatParam, 0.5, 5.0, 0, 0)
  ]

  /** The spin fill of sim_ising_init: site i is +1 when the i-th pseudo-random number is odd, -1 otherwise. */
  method RandomSpins(g: array<int>, rand: nat -> nat)
    modifies g
    ensures forall k :: 0 <= k < g.Length ==> g[k] == (if rand(k) % 2 != 0 then 1 else -1)
    ensures Spins(g[..])
  {
    var i := 0;
    while i < g.Length
      invariant 0 <= i <= g.Length
      invariant forall k :: 0 <= k < i ==> g[k] == (if rand(k) % 2 != 0 then 1 else -1)
    {
      g[i] := if rand(i) % 2 != 0 then 1 else -1;
      i := i + 1;
    }
  }

  /** The clearing loop of sim_ising_init: every slot of the three series becomes 0. */
  method ClearSeries(timeData: array<real>, energyData: array<real>, magData: array<real>)
    requires timeData.Length == BufferLen && energyData.Length == BufferLen && magData.Length == BufferLen
    modifies timeData, energyData, magData
    ensures forall k :: 0 <= k < BufferLen ==> timeData[k] == 0.0 && energyData[k] == 0.0 && magData[k] == 0.0
  {
    var i := 0;
    while i < BufferLen
      invariant 0 <= i <= BufferLen
      invariant forall k :: 0 <= k < i ==> timeData[k] == 0.0 && energyData[k] == 0.0 && magData[k] == 0.0
    {
      timeData[i] := 0.0;
      energyData[i] := 0.0;
      magData[i] := 0.0;
      i := i + 1;
    }
  }

  // ---------------------------------------------------------------------------
  // The module's static state and its operations
  // ---------------------------------------------------------------------------

  class Lattice {
    /** ising_grid_size: the size the arrays are allocated with. */
    var gridSize: int
    /** ising_grid_size_new: the slider's value, applied on init and reset. */
    var gridSizeNew: int
    /** ising_temperature: the temperature slider's value, read only by the acceptance test. */
    var temperature: real
    /** ising_grid: the spins, null when not initialised. */
    var grid: array?<int>
    /** ising_pixels: four bytes per site. */
    var pixels: array?<byte>
    /** ising_time_data, ising_energy_data and ising_mag_data: static float arrays. */
    const timeData: array<real>
    const energyData: array<real>
    const magData: array<real>
    /** ising_data_count */
    var dataCount: int
    /** ising_sim_time */
    var simTime: real

    /** The arrays exist after init and are gone after destroy. */
    predicate Live()
      reads this
    {
      grid != null
    }

    /** The parameters lie within their sliders' bounds and the history count within its capacity. */
    predicate Sized()
      reads this
    {
      && 16 <= gridSize <= 128 && 16 <= gridSizeNew <= 128 && 0.5 <= temperature <= 5.0
      && timeData.Length == BufferLen && energyData.Length == BufferLen && magData.Length == BufferLen
      && timeData != energyData && timeData != magData && energyData != magData
      && 0 <= dataCount <= BufferLen
    }

    /** Either neither array exists, or both exist, sized from gridSize, and every site holds +1 or -1. */
    predicate Valid()
      reads this, grid
    {
      && Sized()
      && (grid == null <==> pixels == null)
      && (grid != null ==>
            && grid.Length == gridSize * gridSize && pixels.Length == 4 * (gridSize * gridSize)
            && Spins(grid[..]))
    }

    /** The state before the first init: default parameters, no arrays, an empty zeroed history. */
    constructor ()
      ensures Valid() && !Live()
      ensures gridSize == 64 && gridSizeNew == 64 && temperature == 2.5
      ensures dataCount == 0 && simTime == 0.0
      ensures forall k :: 0 <= k < BufferLen ==> timeData[k] == 0.0 && energyData[k] == 0.0 && magData[k] == 0.0
    {
      gridSize, gridSizeNew, temperature := 64, 64, 2.5;
      grid, pixels := null, null;
      timeData := new real[BufferLen](_ => 0.0);
      energyData := new real[BufferLen](_ => 0.0);
      magData := new real[BufferLen](_ => 0.0);
      dataCount, simTime := 0, 0.0;
    }

    /**
      sim_ising_init: the slider's grid size is applied, site i gets spin +1
      when the i-th pseudo-random number is odd and -1 when it is even, time
      and count restart from zero and all three histories are cleared.
    */
    method Init(rand: nat -> nat)
      requires Sized()
      modifies this, timeData, energyData, magData
      ensures Valid() && Live()
      ensures fresh(grid) && fresh(pixels)
      ensures gridSize == old(gridSizeNew) && gridSizeNew == old(gridSizeNew) && temperature == old(temperature)
      ensures forall k :: 0 <= k < grid.Length ==> grid[k] == (if rand(k) % 2 != 0 then 1 else -1)
      ensures dataCount == 0 && simTime == 0.0
      ensures forall k :: 0 <= k < BufferLen ==> timeData[k] == 0.0 && energyData[k] == 0.0 && magData[k] == 0.0
    {
      gridSize := gridSizeNew;
      var n := gridSize;
      var cells := n * n;
      var g := new int[cells];
      RandomSpins(g, rand);
      grid := g;
      simTime, dataCount := 0.0, 0;
      ClearSeries(timeData, energyData, magData);
      pixels := new byte[4 * cells];
    }

    /** sim_ising_destroy: frees each array that exists. */
    method Destroy()
      requires Sized()
      modifies this
      ensures Valid() && !Live()
      ensures pixels == null
      ensures gridSize == old(gridSize) && gridSizeNew == old(gridSizeNew) && temperature == old(temperature)
      ensures dataCount == old(dataCount) && simTime == old(simTime)
    {
      grid, pixels := null, null;
    }

    /**
      sim_ising_update: one Monte Carlo sweep of N * N Metropolis steps, then
      the energy and the total spin are measured, the time advances by dt,
      one (time, energy per spin, magnetisation) sample is recorded while
      the history has room, and every site is painted.
    */
    method Update(dt: real, draws: seq<Draw>)
      requires Valid() && Live() && |draws| == gridSize * gridSize
      modifies this, grid, pixels, timeData, energyData, magData
      ensures Valid() && Live()
      ensures grid == old(grid) && pixels == old(pixels)
      ensures gridSize == old(gridSize) && gridSizeNew == old(gridSizeNew) && temperature == old(temperature)
      ensures grid[..] == SweepOf(old(grid[..]), gridSize, draws, gridSize * gridSize)
      ensures simTime == old(simTime) + dt
      ensures dataCount == History.Bump(old(dataCount), BufferLen)
      ensures timeData[..] == History.Record(old(timeData[..]), old(dataCount), simTime)
      ensures energyData[..] == History.Record(old(energyData[..]), old(dataCount), PerSpin(Energy(grid[..], gridSize), gridSize))
      ensures magData[..] == History.Record(old(magData[..]), old(dataCount), PerSpin(SpinBelow(grid[..], gridSize * gridSize), gridSize))
      ensures forall k :: 0 <= k < gridSize * gridSize ==> PixelAt(pixels[..], k) == SpinColour(grid[k])
    {
      var n := gridSize;
      Sweep(grid, n, draws);
      SweepKeepsSpins(old(grid[..]), n, draws, n * n);

      var energy, totalSpin := Measure(grid, n);
      var energyPerSpin := energy as real / (n * n) as real;
      var magnetization := totalSpin as real / (n * n) as real;

      simTime := simTime + dt;
      if dataCount < BufferLen {
        timeData[dataCount] := simTime;
        energyData[dataCount] := energyPerSpin;
        magData[dataCount] := magnetization;
        dataCount := dataCount + 1;
      }

      Paint(grid, n, pixels, SpinColour);
    }

    /**
      The reset button of sim_ising_params_ui: the slider's grid size is
      applied, then destroy and init run.
    */
    method Reset(rand: nat -> nat)
      requires Valid()
      modifies this, timeData, energyData, magData
      ensures Valid() && Live()
      ensures gridSize == old(gridSizeNew) && gridSizeNew == old(gridSizeNew) && temperature == old(temperature)
      ensures fresh(grid) && fresh(pixels)
      ensures forall k :: 0 <= k < grid.Length ==> grid[k] == (if rand(k) % 2 != 0 then 1 else -1)
      ensures dataCount == 0 && simTime == 0.0
      ensures forall k :: 0 <= k < BufferLen ==> timeData[k] == 0.0 && energyData[k] == 0.0 && magData[k] == 0.0
    {
      if gridSize != gridSizeNew {
        gridSize := gridSizeNew;
      }
      Destroy();
      Init(rand);
    }

    /**
      sim_ising_params_ui: the reset button first, then the grid-size and
      temperature sliders, whose values are written back afterwards.
    */
    method ParamsUi(resetClicked: bool, rand: nat -> nat, sizeValue: int, temperatureValue: real)
      returns (sliders: seq<Slider>)
      requires Valid() && IntInBounds(IsingParams[0], sizeValue) && FloatInBounds(IsingParams[1], temperatureValue)
      modifies this, timeData, energyData, magData
      ensures Valid()
      ensures sliders == [IntSlider("Grid Size", 16, 128), FloatSlider("Temperature", 0.5, 5.0)]
      ensures gridSizeNew == sizeValue && temperature == temperatureValue
      ensures resetClicked ==> gridSize == old(gridSizeNew) && Live() && dataCount == 0 && simTime == 0.0
      ensures resetClicked ==> fresh(grid) && fresh(pixels)
      ensures resetClicked ==> forall k :: 0 <= k < grid.Length ==> grid[k] == (if rand(k) % 2 != 0 then 1 else -1)
      ensures resetClicked ==> forall k :: 0 <= k < BufferLen ==> timeData[k] == 0.0 && energyData[k] == 0.0 && magData[k] == 0.0
      ensures !resetClicked ==> gridSize == old(gridSize) && grid == old(grid) && pixels == old(pixels)
      ensures !resetClicked ==> dataCount == old(dataCount) && simTime == old(simTime)
      ensures !resetClicked ==> timeData[..] == old(timeData[..]) && energyData[..] == old(energyData[..]) && magData[..] == old(magData[..])
    {
      if resetClicked {
        Reset(rand);
      }
      sliders := DrawParams(IsingParams, 2);
      gridSizeNew, temperature := sizeValue, temperatureValue;
    }
  }
}
