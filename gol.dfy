/**
  Conway's Game of Life on an N x N torus: two integer grids (the current
  generation and the buffer the next one is written into), an RGBA pixel
  buffer the grid is painted into, and a stop-on-full history of the
  live-cell ratio.
*/
module GameOfLife {

  import Arith
  import History
  import opened Pixels
  import opened Registry

  /** GOL_BUFFER_LEN: capacity of the two plot histories. */
  const BufferLen := 600

  // ---------------------------------------------------------------------------
  // The rule and the neighbourhood, as functions of the current generation
  // ---------------------------------------------------------------------------

  /** Every cell is dead (0) or alive (1). */
  predicate Bits(g: seq<int>)
  {
    forall k :: 0 <= k < |g| ==> g[k] == 0 || g[k] == 1
  }

  /** The C expression `(c + d + N) % N` computes exactly the wrapped coordinate. */
  lemma WrapIsRemainder(c: int, d: int, n: int)
    requires 0 <= c < n && -1 <= d <= 1
    ensures Arith.CRem(c + d + n, n) == Arith.Wrap(c, d, n)
  {
    var v := c + d + n;
    if v < n {
      Arith.DivModUnique(v, n, 0, v);
    } else if v < 2 * n {
      Arith.DivModUnique(v, n, 1, v - n);
    } else {
      Arith.DivModUnique(v, n, 2, 0);
    }
  }

  /** The value of the neighbour of (x, y) at offset (i, j), read with wraparound. */
  function Neighbour(g: seq<int>, n: int, x: int, y: int, j: int, i: int): int
    requires |g| == n * n && 0 <= x < n && 0 <= y < n && -1 <= j <= 1 && -1 <= i <= 1
  {
    g[Arith.Idx(Arith.Wrap(x, i, n), Arith.Wrap(y, j, n), n)]
  }

  // ---------------------------------------------------------------------------
  // Partial neighbour sums: the order in which the two offset loops add them up
  // ---------------------------------------------------------------------------

  /** Offsets (j, -1) up to (j, i - 1), skipping (0, 0). */
  function Along(g: seq<int>, n: int, x: int, y: int, j: int, i: int): int
    requires |g| == n * n && 0 <= x < n && 0 <= y < n && -1 <= j <= 1 && -1 <= i <= 2
    decreases i + 1
  {
    if i == -1 then 0
    else Along(g, n, x, y, j, i - 1) + (if i - 1 == 0 && j == 0 then 0 else Neighbour(g, n, x, y, j, i - 1))
  }

  /** All offsets of rows -1 up to j - 1. */
  function Before(g: seq<int>, n: int, x: int, y: int, j: int): int
    requires |g| == n * n && 0 <= x < n && 0 <= y < n && -1 <= j <= 2
    decreases j + 1
  {
    if j == -1 then 0 else Before(g, n, x, y, j - 1) + Along(g, n, x, y, j - 1, 2)
  }

  /**
    The number of live neighbours of (x, y) as sim_gol_update adds them up:
    rows j = -1, 0, 1 and within each row offsets i = -1, 0, 1, the centre
    (0, 0) skipped.
  */
  function NeighbourCount(g: seq<int>, n: int, x: int, y: int): int
    requires |g| == n * n && 0 <= x < n && 0 <= y < n
  {
    Before(g, n, x, y, 2)
  }

  /** The eight neighbours of (x, y) written out, the cell itself excluded. */
  function EightNeighbours(g: seq<int>, n: int, x: int, y: int): int
    requires |g| == n * n && 0 <= x < n && 0 <= y < n
  {
    Neighbour(g, n, x, y, -1, -1) + Neighbour(g, n, x, y, -1, 0) + Neighbour(g, n, x, y, -1, 1)
    + Neighbour(g, n, x, y, 0, -1) + Neighbour(g, n, x, y, 0, 1)
    + Neighbour(g, n, x, y, 1, -1) + Neighbour(g, n, x, y, 1, 0) + Neighbour(g, n, x, y, 1, 1)
  }

  /** Going through all nine offsets, skipping the centre, adds up exactly the eight neighbours. */
  lemma NeighbourCountIsEight(g: seq<int>, n: int, x: int, y: int)
    requires |g| == n * n && 0 <= x < n && 0 <= y < n
    ensures NeighbourCount(g, n, x, y) == EightNeighbours(g, n, x, y)
  {
  }

  /** With 0/1 cells a cell has between 0 and 8 live neighbours. */
  lemma NeighbourCountBounds(g: seq<int>, n: int, x: int, y: int)
    requires |g| == n * n && 0 <= x < n && 0 <= y < n && Bits(g)
    ensures 0 <= NeighbourCount(g, n, x, y) <= 8
  {
    NeighbourCountIsEight(g, n, x, y);
  }

  /**
    The count never includes the cell itself: on a grid of at least two
    cells per side, changing cell (x, y) leaves its own count unchanged.
  */
  lemma CentreExcluded(g: seq<int>, n: int, x: int, y: int, v: int)
    requires |g| == n * n && 0 <= x < n && 0 <= y < n && n >= 2
    ensures NeighbourCount(g[Arith.Idx(x, y, n) := v], n, x, y) == NeighbourCount(g, n, x, y)
  {
    var g' := g[Arith.Idx(x, y, n) := v];
    forall j, i | -1 <= j <= 1 && -1 <= i <= 1 && (i != 0 || j != 0)
      ensures Neighbour(g', n, x, y, j, i) == Neighbour(g, n, x, y, j, i)
    {
      var nx, ny := Arith.Wrap(x, i, n), Arith.Wrap(y, j, n);
      Arith.CellIndex(nx, ny, n);
      Arith.CellIndex(x, y, n);
      assert Arith.Idx(nx, ny, n) != Arith.Idx(x, y, n);
    }
    NeighbourCountIsEight(g, n, x, y);
    NeighbourCountIsEight(g', n, x, y);
  }

  /**
    The rule: a live cell survives with 2 or 3 live neighbours, a dead cell
    is born with exactly 3, and every other cell is dead next generation.
  */
  function Rule(cell: int, k: int): (r: int)
    ensures r == 0 || r == 1
    ensures r == 1 <==> k == 3 || (cell == 1 && k == 2)
  {
    if cell == 1 then (if k == 2 || k == 3 then 1 else 0)
    else (if k == 3 then 1 else 0)
  }

  /** The next state of cell (x, y). */
  function NextCell(g: seq<int>, n: int, x: int, y: int): int
    requires |g| == n * n && 0 <= x < n && 0 <= y < n
  {
    Rule(g[Arith.Idx(x, y, n)], NeighbourCount(g, n, x, y))
  }

  /** h is the generation that follows g: every cell (x, y) obeys the rule applied to g. */
  predicate IsNext(g: seq<int>, h: seq<int>, n: int)
    requires |g| == n * n
  {
    |h| == n * n && forall x, y {:trigger NextCell(g, n, x, y)} :: 0 <= x < n && 0 <= y < n ==> h[Arith.Idx(x, y, n)] == NextCell(g, n, x, y)
  }

  /** The next generation is determined by the current one alone. */
  lemma NextIsUnique(g: seq<int>, h1: seq<int>, h2: seq<int>, n: int)
    requires n > 0 && |g| == n * n && IsNext(g, h1, n) && IsNext(g, h2, n)
    ensures h1 == h2
  {
    forall k | 0 <= k < n * n ensures h1[k] == h2[k] {
      Arith.FlatCell(k, n);
      var x, y := k % n, k / n;
      assert Arith.Idx(x, y, n) == k;
      assert h1[Arith.Idx(x, y, n)] == NextCell(g, n, x, y) == h2[Arith.Idx(x, y, n)];
    }
  }

  /** The next generation consists of dead and live cells only. */
  lemma NextIsBits(g: seq<int>, h: seq<int>, n: int)
    requires n > 0 && |g| == n * n && IsNext(g, h, n)
    ensures Bits(h)
  {
    forall k | 0 <= k < |h| ensures h[k] == 0 || h[k] == 1 {
      Arith.FlatCell(k, n);
      var x, y := k % n, k / n;
      assert Arith.Idx(x, y, n) == k;
      assert h[Arith.Idx(x, y, n)] == NextCell(g, n, x, y);
    }
  }

  /** The number of live cells among the first m. */
  function LiveBelow(s: seq<int>, m: int): (c: int)
    requires 0 <= m <= |s|
    ensures 0 <= c <= m
  {
    if m == 0 then 0 else LiveBelow(s, m - 1) + (if s[m - 1] == 1 then 1 else 0)
  }

  /** The count looks only at the cells it covers. */
  lemma {:induction false} LiveBelowAgree(s: seq<int>, t: seq<int>, m: int)
    requires 0 <= m <= |s| && m <= |t|
    requires forall k :: 0 <= k < m ==> s[k] == t[k]
    ensures LiveBelow(s, m) == LiveBelow(t, m)
  {
    if m > 0 {
      LiveBelowAgree(s, t, m - 1);
    }
  }

  /** All m cells are alive exactly when the count is m, and none exactly when it is zero. */
  lemma {:induction false} LiveBelowExtremes(s: seq<int>, m: int)
    requires 0 <= m <= |s|
    ensures LiveBelow(s, m) == m <==> forall k :: 0 <= k < m ==> s[k] == 1
    ensures LiveBelow(s, m) == 0 <==> forall k :: 0 <= k < m ==> s[k] != 1
  {
    if m > 0 {
      LiveBelowExtremes(s, m - 1);
    }
  }

  // ---------------------------------------------------------------------------
  // The neighbour loops of sim_gol_update
  // ---------------------------------------------------------------------------

  /** The two offset loops around one cell: the number of live neighbours of (x, y). */
  method CountNeighbours(cells: array<int>, n: int, x: int, y: int) returns (neighbours: int)
    requires cells.Length == n * n && 0 <= x < n && 0 <= y < n
    ensures neighbours == NeighbourCount(cells[..], n, x, y)
  {
    neighbours := 0;
    var j := -1;
    while j <= 1
      invariant -1 <= j <= 2
      invariant neighbours == Before(cells[..], n, x, y, j)
    {
      var row := CountRow(cells, n, x, y, j);
      neighbours := neighbours + row;
      j := j + 1;
    }
  }

  /** The inner offset loop: row j of the neighbourhood, the centre skipped. */
  method CountRow(cells: array<int>, n: int, x: int, y: int, j: int) returns (sum: int)
    requires cells.Length == n * n && 0 <= x < n && 0 <= y < n && -1 <= j <= 1
    ensures sum == Along(cells[..], n, x, y, j, 2)
  {
    sum := 0;
    var i := -1;
    while i <= 1
      invariant -1 <= i <= 2
      invariant sum == Along(cells[..], n, x, y, j, i)
    {
      if i == 0 && j == 0 {
        i := i + 1;
        continue;
      }
      var nx := Arith.CRem(x + i + n, n);
      var ny := Arith.CRem(y + j + n, n);
      WrapIsRemainder(x, i, n);
      WrapIsRemainder(y, j, n);
      sum := sum + cells[Arith.Idx(nx, ny, n)];
      i := i + 1;
    }
  }

  /** Every generation has a successor: the rule applied to each cell, in row-major order. */
  lemma NextGenExists(g: seq<int>, n: int)
    requires n > 0 && |g| == n * n
    ensures exists h :: IsNext(g, h, n)
  {
    var h := seq(n * n, k requires 0 <= k < n * n => NextAt(g, n, k));
    NextGenCells(g, h, n);
  }

  /** The next state of the cell at flat index k, which is cell (k % N, k / N). */
  function NextAt(g: seq<int>, n: int, k: int): int
    requires n > 0 && |g| == n * n && 0 <= k < n * n
  {
    Arith.FlatCell(k, n);
    NextCell(g, n, k % n, k / n)
  }

  /** Reading the flat sequence at y * N + x gives the next state of cell (x, y). */
  lemma NextGenCells(g: seq<int>, h: seq<int>, n: int)
    requires n > 0 && |g| == n * n && |h| == n * n
    requires forall k :: 0 <= k < n * n ==> h[k] == NextAt(g, n, k)
    ensures IsNext(g, h, n)
  {
    forall x, y | 0 <= x < n && 0 <= y < n
      ensures h[Arith.Idx(x, y, n)] == NextCell(g, n, x, y)
    {
      Arith.CellIndex(x, y, n);
      assert h[Arith.Idx(x, y, n)] == NextAt(g, n, y * n + x);
    }
  }

  /**
    The cell loop of sim_gol_update: the next generation of `cells` is
    written into the other buffer `next`, row by row, reading only `cells`,
    and the live cells written are counted.
  */
  method NextGeneration(cells: array<int>, next: array<int>, n: int) returns (liveCount: int)
    requires n > 0 && cells.Length == n * n && next.Length == n * n && cells != next
    modifies next
    ensures IsNext(cells[..], next[..], n)
    ensures liveCount == LiveBelow(next[..], n * n)
  {
    ghost var g := cells[..];
    NextGenExists(g, n);
    ghost var h :| IsNext(g, h, n);
    liveCount := 0;
    var y := 0;
    while y < n
      invariant 0 <= y <= n && y * n <= n * n
      invariant forall k :: 0 <= k < y * n ==> next[k] == h[k]
      invariant liveCount == LiveBelow(h, y * n)
    {
      Arith.CellIndex(n - 1, y, n);
      liveCount := NextRowOf(cells, next, n, y, g, h, liveCount);
      Arith.NextRow(y, n);
      y := y + 1;
    }
    assert next[..] == h;
  }

  /** One pass of the inner loop: the cells of row y, left to right. */
  method NextRowOf(cells: array<int>, next: array<int>, n: int, y: int, ghost g: seq<int>, ghost h: seq<int>, live: int)
    returns (liveCount: int)
    requires 0 <= y < n && y * n + n <= n * n
    requires cells.Length == n * n && next.Length == n * n && cells != next && g == cells[..]
    requires IsNext(g, h, n)
    requires forall k :: 0 <= k < y * n ==> next[k] == h[k]
    requires live == LiveBelow(h, y * n)
    modifies next
    ensures forall k :: 0 <= k < y * n + n ==> next[k] == h[k]
    ensures liveCount == LiveBelow(h, y * n + n)
  {
    liveCount := live;
    var x := 0;
    while x < n
      invariant 0 <= x <= n && y * n + x <= n * n
      invariant forall k :: 0 <= k < y * n + x ==> next[k] == h[k]
      invariant liveCount == LiveBelow(h, y * n + x)
    {
      var idx := Arith.Idx(x, y, n);
      ApplyRule(cells, next, n, x, y, g, h);
      if next[idx] == 1 {
        liveCount := liveCount + 1;
      }
      x := x + 1;
    }
  }

  /** The body of the cell loop: count the neighbours of (x, y) and write the rule's verdict into next. */
  method ApplyRule(cells: array<int>, next: array<int>, n: int, x: int, y: int, ghost g: seq<int>, ghost h: seq<int>)
    requires 0 <= x < n && 0 <= y < n
    requires cells.Length == n * n && next.Length == n * n && cells != next && g == cells[..]
    requires IsNext(g, h, n)
    modifies next
    ensures next[..] == old(next[..])[Arith.Idx(x, y, n) := h[Arith.Idx(x, y, n)]]
  {
    var idx := Arith.Idx(x, y, n);
    var neighbours := CountNeighbours(cells, n, x, y);
    assert h[idx] == NextCell(g, n, x, y);
    if cells[idx] == 1 {
      next[idx] := if neighbours == 2 || neighbours == 3 then 1 else 0;
    } else {
      next[idx] := if neighbours == 3 then 1 else 0;
    }
  }

  /** The live ratio that is plotted: live cells over all cells. */
  function Ratio(live: int, n: int): real
    requires n > 0
  {
    live as real / (n * n) as real
  }

  /** A recorded ratio lies in [0, 1], the range the plot's y axis is fixed to. */
  lemma RatioInUnitRange(s: seq<int>, n: int)
    requires n > 0 && |s| == n * n
    ensures 0.0 <= Ratio(LiveBelow(s, n * n), n) <= 1.0
  {
    Arith.MulAtLeast(n, n);
    Arith.FractionInUnit(LiveBelow(s, n * n) as real, (n * n) as real);
  }

  /** Colour of a cell: white when alive, opaque black otherwise. */
  function CellColour(v: int): Rgba
  {
    if v == 1 then Rgba(255, 255, 255, 255) else Rgba(0, 0, 0, 255)
  }

  /** gol_params: the grid-size slider, from 16 to 128. */
  const GolParams := [Parameter("Grid Size", IntParam, 0.0, 0.0, 16, 128)]

  // ---------------------------------------------------------------------------
  // The module's static state and its operations
  // ---------------------------------------------------------------------------

  class Life {
    /** gol_grid_size: the size the arrays are allocated with. */
    var gridSize: int
    /** gol_grid_size_new: the slider's value, applied on reset. */
    var gridSizeNew: int
    /** gol_grid: the current generation, null when not initialised. */
    var grid: array?<int>
    /** gol_grid_buffer: where the next generation is written. */
    var buffer: array?<int>
    /** gol_pixels: four bytes per cell. */
    var pixels: array?<byte>
    /** gol_time_data and gol_live_data: static float arrays. */
    const timeData: array<real>
    const liveData: array<real>
    /** gol_data_count */
    var dataCount: int
    /** gol_sim_time */
    var simTime: real

    /** The arrays exist after init and are gone after destroy. */
    predicate Live()
      reads this
    {
      grid != null
    }

    /** The sizes lie within the slider's bounds and the history count within its capacity. */
    predicate Sized()
      reads this
    {
      && 16 <= gridSize <= 128 && 16 <= gridSizeNew <= 128
      && timeData.Length == BufferLen && liveData.Length == BufferLen && timeData != liveData
      && 0 <= dataCount <= BufferLen
    }

    /** Either no arrays exist, or all three exist, distinct, sized from gridSize, with 0/1 cells. */
    predicate Valid()
      reads this, grid
    {
      && Sized()
      && (grid == null <==> buffer == null) && (grid == null <==> pixels == null)
      && (grid != null ==>
            && grid != buffer
            && grid.Length == gridSize * gridSize && buffer.Length == gridSize * gridSize
            && pixels.Length == 4 * (gridSize * gridSize)
            && Bits(grid[..]))
    }

    /** The state before the first init: default sizes, no arrays, an empty zeroed history. */
    constructor ()
      ensures Valid() && !Live()
      ensures gridSize == 64 && gridSizeNew == 64 && dataCount == 0 && simTime == 0.0
      ensures forall k :: 0 <= k < BufferLen ==> timeData[k] == 0.0 && liveData[k] == 0.0
    {
      gridSize, gridSizeNew := 64, 64;
      grid, buffer, pixels := null, null, null;
      timeData := new real[BufferLen](_ => 0.0);
      liveData := new real[BufferLen](_ => 0.0);
      dataCount, simTime := 0, 0.0;
    }

    /**
      sim_gol_init: arrays sized from gol_grid_size (not from the slider's
      value), cell i set to the parity of the i-th pseudo-random number, time
      and count reset. The history arrays themselves are not cleared.
    */
    method Init(rand: nat -> nat)
      requires Sized()
      modifies this
      ensures Valid() && Live()
      ensures fresh(grid) && fresh(buffer) && fresh(pixels)
      ensures gridSize == old(gridSize) && gridSizeNew == old(gridSizeNew)
      ensures forall k :: 0 <= k < grid.Length ==> grid[k] == rand(k) % 2
      ensures dataCount == 0 && simTime == 0.0
      ensures timeData[..] == old(timeData[..]) && liveData[..] == old(liveData[..])
    {
      var n := gridSize;
      var cells := n * n;
      var g := new int[cells];
      var b := new int[cells];
      var i := 0;
      while i < cells
        modifies g
        invariant 0 <= i <= cells
        invariant forall k :: 0 <= k < i ==> g[k] == rand(k) % 2
      {
        g[i] := rand(i) % 2;
        i := i + 1;
      }
      assert Bits(g[..]);
      grid, buffer := g, b;
      simTime, dataCount := 0.0, 0;
      pixels := new byte[4 * cells];
    }

    /** sim_gol_destroy: frees each array that exists. */
    method Destroy()
      requires Sized()
      modifies this
      ensures Valid() && !Live()
      ensures buffer == null && pixels == null
      ensures gridSize == old(gridSize) && gridSizeNew == old(gridSizeNew)
      ensures dataCount == old(dataCount) && simTime == old(simTime)
    {
      grid, buffer, pixels := null, null, null;
    }
  
    /**
      sim_gol_update: the next generation goes into the buffer, the two grid
      pointers are swapped, the time advances by dt, one (time, live ratio)
      sample is recorded while the history has room, and every cell is
      painted.
    */
    method Update(dt: real)
      requires Valid() && Live()
      modifies this, buffer, pixels, timeData, liveData
      ensures Valid() && Live()
      ensures grid == old(buffer) && buffer == old(grid) && pixels == old(pixels)
      ensures gridSize == old(gridSize) && gridSizeNew == old(gridSizeNew)
      ensures IsNext(old(grid[..]), grid[..], gridSize)
      ensures buffer[..] == old(grid[..])
      ensures simTime == old(simTime) + dt
      ensures dataCount == History.Bump(old(dataCount), BufferLen)
      ensures timeData[..] == History.Record(old(timeData[..]), old(dataCount), simTime)
      ensures liveData[..] == History.Record(old(liveData[..]), old(dataCount), Ratio(LiveBelow(grid[..], gridSize * gridSize), gridSize))
      ensures forall k :: 0 <= k < gridSize * gridSize ==> PixelAt(pixels[..], k) == CellColour(grid[k])
    {
      var n := gridSize;
      var liveCount := NextGeneration(grid, buffer, n);
      NextIsBits(old(grid[..]), buffer[..], n);
      var temp := grid;
      grid := buffer;
      buffer := temp;

      simTime := simTime + dt;
      if dataCount < BufferLen {
        timeData[dataCount] := simTime;
        liveData[dataCount] := liveCount as real / (n * n) as real;
        dataCount := dataCount + 1;
      }

      Paint(grid, n, pixels, CellColour);
    }

    /**
      The reset button of sim_gol_params_ui: the slider's grid size is
      applied, then destroy and init run, so the arrays are reallocated at
      the new size and the count and time restart from zero.
    */
    method Reset(rand: nat -> nat)
      requires Valid()
      modifies this
      ensures Valid() && Live()
      ensures gridSize == old(gridSizeNew) && gridSizeNew == old(gridSizeNew)
      ensures fresh(grid) && fresh(buffer) && fresh(pixels)
      ensures forall k :: 0 <= k < grid.Length ==> grid[k] == rand(k) % 2
      ensures dataCount == 0 && simTime == 0.0
      ensures timeData[..] == old(timeData[..]) && liveData[..] == old(liveData[..])
    {
      if gridSize != gridSizeNew {
        gridSize := gridSizeNew;
      }
      Destroy();
      Init(rand);
    }

    /**
      sim_gol_params_ui: the reset button first, then the grid-size slider,
      so a value the user sets now takes effect at the next reset.
    */
    method ParamsUi(resetClicked: bool, rand: nat -> nat, sliderValue: int) returns (sliders: seq<Slider>)
      requires Valid() && IntInBounds(GolParams[0], sliderValue)
      modifies this
      ensures Valid()
      ensures sliders == [IntSlider("Grid Size", 16, 128)]
      ensures gridSizeNew == sliderValue
      ensures resetClicked ==> gridSize == old(gridSizeNew) && Live() && dataCount == 0 && simTime == 0.0
      ensures resetClicked ==> fresh(grid) && fresh(buffer) && fresh(pixels)
      ensures resetClicked ==> forall k :: 0 <= k < grid.Length ==> grid[k] == rand(k) % 2
      ensures !resetClicked ==> gridSize == old(gridSize) && grid == old(grid) && buffer == old(buffer) && pixels == old(pixels)
      ensures !resetClicked ==> dataCount == old(dataCount) && simTime == old(simTime)
      ensures timeData[..] == old(timeData[..]) && liveData[..] == old(liveData[..])
    {
      if resetClicked {
        Reset(rand);
      }
      sliders := DrawParams(GolParams, 1);
      gridSizeNew := sliderValue;
    }
  }
}
