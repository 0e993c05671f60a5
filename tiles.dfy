/**
 * The tile pyramid of the map service (`src/app/map.service.ts`): image
 * handles and their load lifecycle, the asset path of a tile, the range of
 * tile indices that `drawImageTiles` visits, and the number of tiles whose
 * image is still loading.
 */
module Tiles {
  import opened Numbers
  import opened AppConst

  /** `ORIGINAL_TILE_SIZE`: the side of one source tile image in pixels. */
  const ORIGINAL_TILE_SIZE: real := 2048.0

  /**
   * One `HTMLImageElement` of a layer: its `src` ("" until requested), its
   * `complete` flag, and the tile size captured by the `onload` handler
   * registered when the tile was requested (`None` while there is none).
   */
  datatype TileImage = TileImage(src: string, complete: bool, onload: Option<real>)

  /** A tile drawn on the canvas: its indices and the square it fills, before the camera translation. */
  datatype TileDraw = TileDraw(tileX: int, tileY: int, px: real, py: real, size: real)

  /** One pyramid level: rows of tile handles, indexed `[x][y]`. */
  type Grid = seq<seq<TileImage>>

  /** `ILayers`: one grid per pyramid level. */
  datatype Layers = Layers(size2: Grid, size4: Grid, size8: Grid, size16: Grid)
  {
    /** `layers[size]`. */
    function Get(size: LayerSize): Grid {
      if size == 2 then size2 else if size == 4 then size4 else if size == 8 then size8 else size16
    }

    /** `layers[size] = grid`: that level is replaced and the other three are kept. */
    function Set(size: LayerSize, grid: Grid): (r: Layers)
      ensures r.Get(size) == grid
    {
      if size == 2 then this.(size2 := grid)
      else if size == 4 then this.(size4 := grid)
      else if size == 8 then this.(size8 := grid)
      else this.(size16 := grid)
    }
  }

  /** Replacing one level keeps the other three. */
  lemma SetOther(layers: Layers, size: LayerSize, grid: Grid, other: LayerSize)
    requires other != size
    ensures layers.Set(size, grid).Get(other) == layers.Get(other)
  {
  }

  /** `DEFAULT_LAYERS`: every level empty. */
  const DEFAULT_LAYERS: Layers := Layers([], [], [], [])

  /** `new Image()`. */
  const FRESH_TILE: TileImage := TileImage("", false, None)

  predicate Unrequested(t: TileImage) { t.src == "" }
  predicate Loading(t: TileImage) { t.src != "" && !t.complete }
  predicate Loaded(t: TileImage) { t.src != "" && t.complete }

  /** The lifecycle has exactly three stages. */
  lemma TileLifecycle(t: TileImage)
    ensures Unrequested(t) || Loading(t) || Loaded(t)
    ensures !(Unrequested(t) && Loading(t)) && !(Unrequested(t) && Loaded(t)) && !(Loading(t) && Loaded(t))
  {
  }

  /** The square a tile covers: `(tileX * tileSize, tileY * tileSize)`, `tileSize` wide. */
  function TileSquare(tileX: int, tileY: int, tileSize: real): TileDraw {
    TileDraw(tileX, tileY, tileX as real * tileSize, tileY as real * tileSize, tileSize)
  }

  // ---------------------------------------------------------------------------
  // Asset paths

  function DigitChar(d: int): char
    requires 0 <= d < 10
  {
    "0123456789"[d]
  }

  /** Decimal notation of a natural number, as a template literal prints it. */
  function NatToString(n: nat): (s: string)
    ensures |s| >= 1
  {
    if n < 10 then [DigitChar(n)] else NatToString(n / 10) + [DigitChar(n % 10)]
  }

  /** The notation is made of decimal digits only. */
  lemma {:induction false} NatToStringDigits(n: nat)
    ensures forall i :: 0 <= i < |NatToString(n)| ==> '0' <= NatToString(n)[i] <= '9'
  {
    if n >= 10 {
      NatToStringDigits(n / 10);
    }
  }

  /** `assets/{layerSize}/image-{tileX}-{tileY}.webp`. */
  function TilePath(layerSize: LayerSize, tileX: nat, tileY: nat): (path: string)
    ensures |path| > 12
  {
    "assets/" + NatToString(layerSize) + "/image-" + NatToString(tileX) + "-" + NatToString(tileY) + ".webp"
  }

  /** Every tile path lies under `assets/` and names a WebP image. */
  lemma TilePathFormat(layerSize: LayerSize, tileX: nat, tileY: nat)
    ensures TilePath(layerSize, tileX, tileY)[..7] == "assets/"
    ensures TilePath(layerSize, tileX, tileY)[|TilePath(layerSize, tileX, tileY)| - 5..] == ".webp"
  {
  }

  /**
   * The one state change `drawImageTile` makes to a handle: an unrequested
   * tile gets its path and an `onload` handler for the current tile size; a
   * tile that is loading or loaded is left as it is.
   */
  function Request(t: TileImage, path: string, tileSize: real): (u: TileImage)
    requires path != ""
    ensures Unrequested(t) ==> Loading(u) && u.src == path && u.onload == Some(tileSize)
    ensures !Unrequested(t) ==> u == t
    ensures !Unrequested(u)
  {
    if t.src == "" then TileImage(path, false, Some(tileSize)) else t
  }

  /** Requesting twice is requesting once: a tile is fetched at most once. */
  lemma RequestIdempotent(t: TileImage, path: string, path2: string, tileSize: real, tileSize2: real)
    requires path != "" && path2 != ""
    ensures Request(Request(t, path, tileSize), path2, tileSize2) == Request(t, path, tileSize)
  {
  }

  // ---------------------------------------------------------------------------
  // Fresh layers

  /** A row of `n` fresh handles. */
  function FreshRow(n: nat): (row: seq<TileImage>)
    ensures |row| == n
    ensures forall j :: 0 <= j < n ==> row[j] == FRESH_TILE
  {
    seq(n, _ => FRESH_TILE)
  }

  /** `n` rows of `n` fresh handles: what `pushTileImages(n)` builds on an empty layer. */
  function FreshGrid(n: nat): (grid: Grid)
    ensures |grid| == n
    ensures forall i :: 0 <= i < n ==> grid[i] == FreshRow(n)
  {
    seq(n, _ => FreshRow(n))
  }

  /** Row `k` of a layer before a push: the old row, or the empty row the push appends. */
  function OldRow(grid: Grid, k: int): seq<TileImage> {
    if 0 <= k < |grid| then grid[k] else []
  }

  /**
   * The layer after `pushTileImages(size)`: `size` empty rows are appended,
   * and `size` fresh handles are pushed onto each row `layers[size][i]` for
   * `i < size`, which are the new rows only when the layer was empty.
   */
  function Pushed(grid: Grid, size: nat): (r: Grid)
    ensures |r| == |grid| + size
  {
    PushedRows(grid, size, size)
  }

  /** The layer after the first `i` rounds of the outer loop of `pushTileImages(size)`. */
  function PushedRows(grid: Grid, size: nat, i: nat): (r: Grid)
    ensures |r| == |grid| + i
  {
    seq(|grid| + i, k => OldRow(grid, k) + (if k < i then FreshRow(size) else []))
  }

  /** One round of the inner loop of `pushTileImages`: one more fresh handle on row `i`, the count unchanged. */
  lemma PushFreshStep(g1: Grid, i: nat, j: nat)
    requires i < |g1|
    ensures var g := g1[i := g1[i] + FreshRow(j)];
      g[i := g[i] + [FRESH_TILE]] == g1[i := g1[i] + FreshRow(j + 1)]
      && GridLoading(g[i := g[i] + [FRESH_TILE]]) == GridLoading(g)
  {
    var g := g1[i := g1[i] + FreshRow(j)];
    assert FreshRow(j) + [FRESH_TILE] == FreshRow(j + 1);
    assert g[i] + [FRESH_TILE] == g1[i] + FreshRow(j + 1);
    RowLoadingAppend(g[i], FRESH_TILE);
    GridLoadingUpdate(g, i, g[i] + [FRESH_TILE]);
  }

  /** Pushing adds no loading handle, since every pushed handle is fresh. */
  lemma {:induction false} PushedLoading(grid: Grid, size: nat)
    ensures GridLoading(Pushed(grid, size)) == GridLoading(grid)
  {
    PushedRowsLoading(grid, size, size);
  }

  lemma {:induction false} PushedRowsLoading(grid: Grid, size: nat, i: nat)
    requires i <= size
    ensures GridLoading(PushedRows(grid, size, i)) == GridLoading(grid)
  {
    if i == 0 {
      PushedRowsZero(grid, size);
    } else {
      PushedRowsLoading(grid, size, i - 1);
      var g := PushedRows(grid, size, i - 1) + [[]];
      GridLoadingAppend(PushedRows(grid, size, i - 1), []);
      PushedRowsStep(grid, size, i - 1);
      GridLoadingUpdate(g, i - 1, g[i - 1] + FreshRow(size));
      RowLoadingConcatFresh(g[i - 1], size);
    }
  }

  /** Fresh handles appended to a row add nothing to its count. */
  lemma {:induction false} RowLoadingConcatFresh(row: seq<TileImage>, n: nat)
    ensures RowLoading(row + FreshRow(n)) == RowLoading(row)
  {
    if n > 0 {
      RowLoadingConcatFresh(row, n - 1);
      assert row + FreshRow(n) == (row + FreshRow(n - 1)) + [FRESH_TILE];
      RowLoadingAppend(row + FreshRow(n - 1), FRESH_TILE);
    } else {
      assert row + FreshRow(0) == row;
    }
  }

  /** Before the outer loop nothing has been pushed. */
  lemma PushedRowsZero(grid: Grid, size: nat)
    ensures PushedRows(grid, size, 0) == grid
  {
    forall k | 0 <= k < |grid|
      ensures PushedRows(grid, size, 0)[k] == grid[k]
    {
      assert OldRow(grid, k) + [] == grid[k];
    }
  }

  /** One round of the outer loop: append an empty row, then fill row `i` with `size` fresh handles. */
  lemma PushedRowsStep(grid: Grid, size: nat, i: nat)
    requires i < size
    ensures var g := PushedRows(grid, size, i) + [[]];
      PushedRows(grid, size, i + 1) == g[i := g[i] + FreshRow(size)]
  {
    var p := PushedRows(grid, size, i);
    var g := p + [[]];
    var h := g[i := g[i] + FreshRow(size)];
    forall k | 0 <= k < |h|
      ensures h[k] == PushedRows(grid, size, i + 1)[k]
    {
      if k < |p| {
        assert g[k] == p[k];
      } else {
        assert g[k] == [] && OldRow(grid, k) == [];
      }
    }
  }

  /** Pushing onto an empty layer builds exactly `size` rows of `size` fresh handles. */
  lemma PushedOnEmpty(size: nat)
    ensures Pushed([], size) == FreshGrid(size)
  {
    assert forall k :: 0 <= k < size ==> Pushed([], size)[k] == FreshGrid(size)[k];
  }

  /** Pushing never drops or changes a handle that was there. */
  lemma PushedKeepsHandles(grid: Grid, size: nat, i: int, j: int)
    requires 0 <= i < |grid| && 0 <= j < |grid[i]|
    ensures j < |Pushed(grid, size)[i]| && Pushed(grid, size)[i][j] == grid[i][j]
  {
  }

  /** The first `rows` rows of a layer hold at least `cols` handles each. */
  predicate Covers(grid: Grid, rows: int, cols: int) {
    rows <= |grid| && forall i :: 0 <= i < rows ==> cols <= |grid[i]|
  }

  /** Cell `c` indexes a handle of the layer. */
  predicate InGrid(grid: Grid, c: (int, int)) {
    0 <= c.0 < |grid| && 0 <= c.1 < |grid[c.0]|
  }

  /** Every cell of `cells` indexes a handle, so reading `layers[size][x][y]` for them does not throw. */
  predicate CellsInGrid(grid: Grid, cells: seq<(int, int)>) {
    forall c :: c in cells ==> InGrid(grid, c)
  }

  /** Every loading handle has the `onload` handler that was registered when it was requested. */
  predicate GridHandled(grid: Grid) {
    forall i, j :: 0 <= i < |grid| && 0 <= j < |grid[i]| && Loading(grid[i][j]) ==> grid[i][j].onload.Some?
  }

  predicate LayersHandled(layers: Layers) {
    GridHandled(layers.size2) && GridHandled(layers.size4) && GridHandled(layers.size8) && GridHandled(layers.size16)
  }

  /** Reading and replacing one level of handled layers. */
  lemma LayersHandledSet(layers: Layers, size: LayerSize, grid: Grid)
    requires LayersHandled(layers)
    ensures GridHandled(layers.Get(size))
    ensures GridHandled(grid) ==> LayersHandled(layers.Set(size, grid))
  {
  }

  /** Pushing adds only fresh handles, which are not loading. */
  lemma PushedHandled(grid: Grid, size: nat)
    requires GridHandled(grid)
    ensures GridHandled(Pushed(grid, size))
  {
    var r := Pushed(grid, size);
    forall i, j | 0 <= i < |r| && 0 <= j < |r[i]| && Loading(r[i][j])
      ensures r[i][j].onload.Some?
    {
      var old_ := OldRow(grid, i);
      if j < |old_| {
        assert r[i][j] == old_[j] == grid[i][j];
      }
    }
  }

  /** An `onload` that marks its handle complete keeps every loading handle handled. */
  lemma CompleteHandled(grid: Grid, i: int, j: int)
    requires GridHandled(grid) && InGrid(grid, (i, j))
    ensures GridHandled(grid[i := grid[i][j := grid[i][j].(complete := true)]])
  {
  }

  // ---------------------------------------------------------------------------
  // Counting loading tiles

  function RowLoading(row: seq<TileImage>): (c: nat)
    ensures c <= |row|
  {
    if row == [] then 0
    else RowLoading(row[..|row| - 1]) + (if Loading(row[|row| - 1]) then 1 else 0)
  }

  function GridLoading(grid: Grid): nat {
    if grid == [] then 0
    else GridLoading(grid[..|grid| - 1]) + RowLoading(grid[|grid| - 1])
  }

  /** The number of tiles, in all four layers, whose image is requested but not yet loaded. */
  function LayersLoading(layers: Layers): nat {
    GridLoading(layers.size2) + GridLoading(layers.size4)
      + GridLoading(layers.size8) + GridLoading(layers.size16)
  }

  lemma {:induction false} RowLoadingAppend(row: seq<TileImage>, t: TileImage)
    ensures RowLoading(row + [t]) == RowLoading(row) + (if Loading(t) then 1 else 0)
  {
    assert (row + [t])[..|row|] == row;
  }

  /** Replacing one handle changes the row's count by the difference the handle makes. */
  lemma {:induction false} RowLoadingUpdate(row: seq<TileImage>, j: nat, t: TileImage)
    requires j < |row|
    ensures RowLoading(row[j := t]) + (if Loading(row[j]) then 1 else 0)
         == RowLoading(row) + (if Loading(t) then 1 else 0)
  {
    var n := |row| - 1;
    if j < n {
      assert row[j := t][..n] == row[..n][j := t];
      RowLoadingUpdate(row[..n], j, t);
    } else {
      assert row[j := t][..n] == row[..n];
    }
  }

  lemma {:induction false} GridLoadingAppend(grid: Grid, row: seq<TileImage>)
    ensures GridLoading(grid + [row]) == GridLoading(grid) + RowLoading(row)
  {
    assert (grid + [row])[..|grid|] == grid;
  }

  /** Replacing one row changes the layer's count by the difference of the two rows' counts. */
  lemma {:induction false} GridLoadingUpdate(grid: Grid, i: nat, row: seq<TileImage>)
    requires i < |grid|
    ensures GridLoading(grid[i := row]) + RowLoading(grid[i]) == GridLoading(grid) + RowLoading(row)
  {
    var n := |grid| - 1;
    if i < n {
      assert grid[i := row][..n] == grid[..n][i := row];
      GridLoadingUpdate(grid[..n], i, row);
    } else {
      assert grid[i := row][..n] == grid[..n];
    }
  }

  /** Fresh handles are never loading. */
  lemma {:induction false} FreshRowNotLoading(n: nat)
    ensures RowLoading(FreshRow(n)) == 0
  {
    if n > 0 {
      assert FreshRow(n)[..n - 1] == FreshRow(n - 1);
      FreshRowNotLoading(n - 1);
    }
  }

  /** A freshly built layer has `n` rows of `n` unrequested handles and nothing loading. */
  lemma {:induction false} FreshGridShape(n: nat)
    ensures Covers(FreshGrid(n), n, n)
    ensures forall i, j :: 0 <= i < n && 0 <= j < n ==> Unrequested(FreshGrid(n)[i][j])
    ensures GridLoading(FreshGrid(n)) == 0
  {
    FreshGridRows(n, n);
    assert FreshGrid(n)[..n] == FreshGrid(n);
  }

  lemma {:induction false} FreshGridRows(k: nat, n: nat)
    requires k <= n
    ensures GridLoading(FreshGrid(n)[..k]) == 0
  {
    if k > 0 {
      assert FreshGrid(n)[..k][..k - 1] == FreshGrid(n)[..k - 1];
      FreshGridRows(k - 1, n);
      FreshRowNotLoading(n);
    }
  }

  /** Replacing one layer moves the total count by the difference of the two layers' counts. */
  lemma LayersLoadingUpdate(layers: Layers, size: LayerSize, grid: Grid)
    ensures LayersLoading(layers.Set(size, grid)) + GridLoading(layers.Get(size))
         == LayersLoading(layers) + GridLoading(grid)
  {
  }

  // ---------------------------------------------------------------------------
  // The visible tile range

  /** `Math.max(Math.floor((0 - offset) / tileSize), 0)` */
  function MinVisibleTile(offset: real, tileSize: real): Num {
    Max(Floor(Div(0.0 - offset, tileSize)), Fin(0.0))
  }

  /** `Math.min(Math.floor((extent - offset) / tileSize), layerSize - 1)` */
  function MaxVisibleTile(offset: real, extent: real, tileSize: real, layerSize: LayerSize): Num {
    Min(Floor(Div(extent - offset, tileSize)), Fin((layerSize - 1) as real))
  }

  /** An integer-valued JavaScript number. */
  predicate IsInt(n: Num) {
    n.Fin? && n.r.Floor as real == n.r
  }

  /**
   * The first and last index of `for (t = min; t <= max; t++)` along one
   * axis, `(0, -1)` when the loop body never runs.
   */
  function VisibleRange(offset: real, extent: real, tileSize: real, layerSize: LayerSize): (r: (int, int))
    ensures 0 <= r.0 && r.1 <= layerSize - 1
  {
    var lo, hi := MinVisibleTile(offset, tileSize), MaxVisibleTile(offset, extent, tileSize, layerSize);
    if lo.Fin? && hi.Fin? then (lo.r.Floor, hi.r.Floor) else (0, -1)
  }

  /**
   * The range is exactly the numbers the source's loop visits: it starts at
   * the clamped lower bound, which is an integer whenever it is finite, and
   * runs while the index is `<=` the clamped upper bound.
   */
  lemma VisibleRangeIsLoop(offset: real, extent: real, tileSize: real, layerSize: LayerSize, i: int)
    ensures var lo, hi := MinVisibleTile(offset, tileSize), MaxVisibleTile(offset, extent, tileSize, layerSize);
      var r := VisibleRange(offset, extent, tileSize, layerSize);
      (lo.Fin? ==> IsInt(lo) && lo.r >= 0.0)
      && (hi.Fin? ==> IsInt(hi))
      && (r.0 <= i <= r.1 <==> lo.Fin? && Le(lo, Fin(i as real)) && Le(Fin(i as real), hi))
  {
    var lo, hi := MinVisibleTile(offset, tileSize), MaxVisibleTile(offset, extent, tileSize, layerSize);
    FloorIsInt(Div(0.0 - offset, tileSize));
    FloorIsInt(Div(extent - offset, tileSize));
    if lo.Fin? {
      assert lo.r == 0.0 || lo == Floor(Div(0.0 - offset, tileSize));
    }
    if hi.Fin? {
      assert hi.r == (layerSize - 1) as real || hi == Floor(Div(extent - offset, tileSize));
    }
  }

  lemma FloorIsInt(n: Num)
    ensures Floor(n).Fin? ==> IsInt(Floor(n))
  {
    if n.Fin? {
      var k := n.r.Floor;
      assert (k as real).Floor == k;
    }
  }

  /** With a zero tile size (camera zoom 0) nothing is visited when the camera sits at or right of the left edge. */
  lemma ZeroTileSize(offset: real, extent: real, layerSize: LayerSize)
    requires offset <= 0.0
    ensures var r := VisibleRange(offset, extent, 0.0, layerSize); r.0 > r.1
  {
  }

  lemma DivMonotone(a: real, b: real, d: real)
    requires a <= b && d > 0.0
    ensures a / d <= b / d
  {
    assert b / d - a / d == (b - a) / d;
  }

  /**
   * The visible range covers the viewport: for a positive tile size, every
   * screen coordinate `p` in `[0, extent]` lies over a tile whose index is in
   * the range, unless it lies outside the map.
   */
  lemma VisibleRangeCovers(offset: real, extent: real, tileSize: real, layerSize: LayerSize, p: real)
    requires tileSize > 0.0 && 0.0 <= p <= extent
    requires var t := ((p - offset) / tileSize).Floor; 0 <= t <= layerSize - 1
    ensures var t := ((p - offset) / tileSize).Floor; var r := VisibleRange(offset, extent, tileSize, layerSize);
      r.0 <= t <= r.1
  {
    DivMonotone(0.0 - offset, p - offset, tileSize);
    DivMonotone(p - offset, extent - offset, tileSize);
  }

  /**
   * Every visited tile overlaps the viewport: for a positive tile size, the
   * square of each index in the range meets `[0, extent]` on screen.
   */
  lemma VisibleRangeOverlaps(offset: real, extent: real, tileSize: real, layerSize: LayerSize, i: int)
    requires tileSize > 0.0 && 0.0 <= extent
    requires var r := VisibleRange(offset, extent, tileSize, layerSize); r.0 <= i <= r.1
    ensures i as real * tileSize + offset <= extent
    ensures 0.0 <= (i + 1) as real * tileSize + offset
  {
    var a, b := (0.0 - offset) / tileSize, (extent - offset) / tileSize;
    assert i <= b.Floor && a.Floor <= i;
    BelowQuotient(i as real, extent - offset, tileSize);
    AboveQuotient(i + 1, 0.0 - offset, tileSize);
  }

  lemma BelowQuotient(x: real, num: real, d: real)
    requires d > 0.0 && x <= num / d
    ensures x * d <= num
  {
    MulMonotone(x, num / d, d);
  }

  lemma AboveQuotient(k: int, num: real, d: real)
    requires d > 0.0 && (num / d).Floor < k
    ensures num <= k as real * d
  {
    assert num / d < k as real;
    MulMonotone(num / d, k as real, d);
  }

  lemma MulMonotone(a: real, b: real, d: real)
    requires a <= b && d > 0.0
    ensures a * d <= b * d
  {
    assert b * d - a * d == (b - a) * d;
  }

  /** The cells of the inclusive rectangle `[x0, x1] × [y0, y1]`, `x` outer, `y` inner, as the nested loops visit them. */
  function Cells(x0: int, x1: int, y0: int, y1: int): seq<(int, int)>
    decreases x1 - x0
  {
    if x1 < x0 then [] else Cells(x0, x1 - 1, y0, y1) + Column(x1, y0, y1)
  }

  function Column(x: int, y0: int, y1: int): seq<(int, int)>
    decreases y1 - y0
  {
    if y1 < y0 then [] else Column(x, y0, y1 - 1) + [(x, y1)]
  }

  lemma {:induction false} ColumnMembers(x: int, y0: int, y1: int, c: (int, int))
    ensures c in Column(x, y0, y1) <==> c.0 == x && y0 <= c.1 <= y1
    decreases y1 - y0
  {
    if y0 <= y1 {
      ColumnMembers(x, y0, y1 - 1, c);
    }
  }

  /** The loops visit exactly the rectangle, and nothing when it is empty. */
  lemma {:induction false} CellsMembers(x0: int, x1: int, y0: int, y1: int, c: (int, int))
    ensures c in Cells(x0, x1, y0, y1) <==> x0 <= c.0 <= x1 && y0 <= c.1 <= y1
    decreases x1 - x0
  {
    if x0 <= x1 {
      CellsMembers(x0, x1 - 1, y0, y1, c);
      ColumnMembers(x1, y0, y1, c);
    }
  }

  /** What the nested loops draw: the cells whose handle was already loaded, in visiting order. */
  function DrawnTiles(grid: Grid, cells: seq<(int, int)>, tileSize: real): seq<TileDraw> {
    if cells == [] then []
    else
      var c := cells[|cells| - 1];
      DrawnTiles(grid, cells[..|cells| - 1], tileSize)
        + (if 0 <= c.0 < |grid| && 0 <= c.1 < |grid[c.0]| && Loaded(grid[c.0][c.1])
           then [TileSquare(c.0, c.1, tileSize)] else [])
  }

  /** `drawImageTile`'s effect on the layer: the handle at `c` is requested, if there is one. */
  function RequestAt(grid: Grid, c: (int, int), layerSize: LayerSize, tileSize: real): Grid {
    if 0 <= c.0 < |grid| && 0 <= c.1 < |grid[c.0]|
    then grid[c.0 := grid[c.0][c.1 := Request(grid[c.0][c.1], TilePath(layerSize, c.0, c.1), tileSize)]]
    else grid
  }

  /** The layer after visiting `cells` in order. */
  function Visit(grid: Grid, cells: seq<(int, int)>, layerSize: LayerSize, tileSize: real): Grid {
    if cells == [] then grid
    else RequestAt(Visit(grid, cells[..|cells| - 1], layerSize, tileSize), cells[|cells| - 1], layerSize, tileSize)
  }

  /** Visiting keeps the shape of the layer. */
  lemma {:induction false} VisitShape(grid: Grid, cells: seq<(int, int)>, layerSize: LayerSize, tileSize: real)
    ensures |Visit(grid, cells, layerSize, tileSize)| == |grid|
    ensures forall i :: 0 <= i < |grid| ==> |Visit(grid, cells, layerSize, tileSize)[i]| == |grid[i]|
  {
    if cells != [] {
      VisitShape(grid, cells[..|cells| - 1], layerSize, tileSize);
    }
  }

  /**
   * After a visit, a handle is requested exactly when its cell was visited,
   * however often: the others are untouched.
   */
  lemma {:induction false} VisitAt(grid: Grid, cells: seq<(int, int)>, layerSize: LayerSize, tileSize: real, i: int, j: int)
    requires 0 <= i < |grid| && 0 <= j < |grid[i]|
    ensures i < |Visit(grid, cells, layerSize, tileSize)| && j < |Visit(grid, cells, layerSize, tileSize)[i]|
    ensures Visit(grid, cells, layerSize, tileSize)[i][j]
         == if (i, j) in cells then Request(grid[i][j], TilePath(layerSize, i, j), tileSize) else grid[i][j]
  {
    VisitShape(grid, cells, layerSize, tileSize);
    if cells != [] {
      var init := cells[..|cells| - 1];
      VisitAt(grid, init, layerSize, tileSize, i, j);
      VisitShape(grid, init, layerSize, tileSize);
      assert cells == init + [cells[|cells| - 1]];
      assert (i, j) in cells <==> (i, j) in init || (i, j) == cells[|cells| - 1];
      if (i, j) in init {
        RequestIdempotent(grid[i][j], TilePath(layerSize, i, j), TilePath(layerSize, i, j), tileSize, tileSize);
      }
    }
  }

  /** The number of cells of `cells` whose handle in `grid` is still unrequested: the loads a visit starts. */
  function NewRequests(grid: Grid, cells: seq<(int, int)>): (n: nat)
    ensures n <= |cells|
  {
    if cells == [] then 0
    else
      var c := cells[|cells| - 1];
      NewRequests(grid, cells[..|cells| - 1])
        + (if 0 <= c.0 < |grid| && 0 <= c.1 < |grid[c.0]| && Unrequested(grid[c.0][c.1]) then 1 else 0)
  }

  /** No cell occurs twice. */
  predicate Distinct(cells: seq<(int, int)>) {
    forall i, j :: 0 <= i < j < |cells| ==> cells[i] != cells[j]
  }

  /** One `drawImageTile` starts a load exactly when its in-range handle is unrequested. */
  lemma RequestAtLoading(grid: Grid, c: (int, int), layerSize: LayerSize, tileSize: real)
    ensures GridLoading(RequestAt(grid, c, layerSize, tileSize)) == GridLoading(grid) + NewRequests(grid, [c])
  {
    assert [c][..0] == [];
    if 0 <= c.0 < |grid| && 0 <= c.1 < |grid[c.0]| {
      var t := Request(grid[c.0][c.1], TilePath(layerSize, c.0, c.1), tileSize);
      RowLoadingUpdate(grid[c.0], c.1, t);
      GridLoadingUpdate(grid, c.0, grid[c.0][c.1 := t]);
    }
  }

  /**
   * Visiting distinct cells raises the number of loading handles by the
   * number of visited handles that were unrequested.
   */
  lemma {:induction false} VisitLoading(grid: Grid, cells: seq<(int, int)>, layerSize: LayerSize, tileSize: real)
    requires Distinct(cells)
    ensures GridLoading(Visit(grid, cells, layerSize, tileSize)) == GridLoading(grid) + NewRequests(grid, cells)
  {
    if cells != [] {
      var init := cells[..|cells| - 1];
      var c := cells[|cells| - 1];
      assert Distinct(init);
      assert c !in init by {
        forall i | 0 <= i < |init| ensures init[i] != c {
          assert init[i] == cells[i];
        }
      }
      VisitLoading(grid, init, layerSize, tileSize);
      RequestAtLoading(Visit(grid, init, layerSize, tileSize), c, layerSize, tileSize);
      NewRequestsUnvisited(grid, init, [c], layerSize, tileSize);
      assert [c][..0] == [];
    }
  }

  /** Cells not visited yet count as in the original layer. */
  lemma {:induction false} NewRequestsUnvisited(g: Grid, a: seq<(int, int)>, b: seq<(int, int)>, layerSize: LayerSize, tileSize: real)
    requires forall c :: c in b ==> c !in a
    ensures NewRequests(Visit(g, a, layerSize, tileSize), b) == NewRequests(g, b)
  {
    if b != [] {
      var c := b[|b| - 1];
      assert c in b;
      NewRequestsUnvisited(g, a, b[..|b| - 1], layerSize, tileSize);
      VisitShape(g, a, layerSize, tileSize);
      if 0 <= c.0 < |g| && 0 <= c.1 < |g[c.0]| {
        VisitAt(g, a, layerSize, tileSize, c.0, c.1);
      }
    }
  }

  /** A column has no repeated cell. */
  lemma {:induction false} ColumnDistinct(x: int, y0: int, y1: int)
    ensures Distinct(Column(x, y0, y1))
    decreases y1 - y0
  {
    if y0 <= y1 {
      ColumnDistinct(x, y0, y1 - 1);
      ColumnMembers(x, y0, y1 - 1, (x, y1));
      DistinctConcat(Column(x, y0, y1 - 1), [(x, y1)]);
    }
  }

  /** The rectangle the loops visit has no repeated cell. */
  lemma {:induction false} CellsDistinct(x0: int, x1: int, y0: int, y1: int)
    ensures Distinct(Cells(x0, x1, y0, y1))
    decreases x1 - x0
  {
    if x0 <= x1 {
      CellsDistinct(x0, x1 - 1, y0, y1);
      ColumnDistinct(x1, y0, y1);
      ColumnAfterCells(x0, x1, y0, y1);
      DistinctConcat(Cells(x0, x1 - 1, y0, y1), Column(x1, y0, y1));
    }
  }

  lemma DistinctConcat(a: seq<(int, int)>, b: seq<(int, int)>)
    requires Distinct(a) && Distinct(b)
    requires forall c :: c in b ==> c !in a
    ensures Distinct(a + b)
  {
    forall i, j | 0 <= i < j < |a + b|
      ensures (a + b)[i] != (a + b)[j]
    {
      if j >= |a| && i < |a| {
        assert (a + b)[j] == b[j - |a|] && b[j - |a|] in b;
      }
    }
  }

  /** A pass over a handled layer leaves it handled: every handle it requests gets its `onload`. */
  lemma VisitHandled(grid: Grid, cells: seq<(int, int)>, layerSize: LayerSize, tileSize: real)
    requires GridHandled(grid)
    ensures GridHandled(Visit(grid, cells, layerSize, tileSize))
  {
    var r := Visit(grid, cells, layerSize, tileSize);
    VisitShape(grid, cells, layerSize, tileSize);
    forall i, j | 0 <= i < |r| && 0 <= j < |r[i]| && Loading(r[i][j])
      ensures r[i][j].onload.Some?
    {
      VisitAt(grid, cells, layerSize, tileSize, i, j);
    }
  }

  /** The cells `drawImageTiles` visits, in the order of its loops. */
  function VisibleCells(offset: Loc, innerWidth: real, innerHeight: real, tileSize: real, layerSize: LayerSize): seq<(int, int)> {
    var rx := VisibleRange(offset.x, innerWidth, tileSize, layerSize);
    var ry := VisibleRange(offset.y, innerHeight, tileSize, layerSize);
    Cells(rx.0, rx.1, ry.0, ry.1)
  }

  /** On an initialised layer every visible cell indexes a handle. */
  lemma CoveredCellsInGrid(grid: Grid, offset: Loc, innerWidth: real, innerHeight: real, tileSize: real, layerSize: LayerSize)
    requires Covers(grid, layerSize, layerSize)
    ensures CellsInGrid(grid, VisibleCells(offset, innerWidth, innerHeight, tileSize, layerSize))
    ensures VisibleInGrid(grid, offset, innerWidth, innerHeight, tileSize, layerSize)
  {
    var rx := VisibleRange(offset.x, innerWidth, tileSize, layerSize);
    var ry := VisibleRange(offset.y, innerHeight, tileSize, layerSize);
    forall c | c in Cells(rx.0, rx.1, ry.0, ry.1)
      ensures InGrid(grid, c)
    {
      CellsMembers(rx.0, rx.1, ry.0, ry.1, c);
    }
    VisibleInGridCells(grid, offset, innerWidth, innerHeight, tileSize, layerSize);
  }

  /**
   * With camera zoom 0 and the default offset, the state `MapService`
   * starts in, no cell is visible, so a pass indexes nothing even on empty
   * layers.
   */
  lemma InitialCellsEmpty(grid: Grid, innerWidth: real, innerHeight: real, layerSize: LayerSize)
    ensures VisibleCells(DEFAULT_OFFSET, innerWidth, innerHeight, ORIGINAL_TILE_SIZE * 0.0, layerSize) == []
    ensures CellsInGrid(grid, VisibleCells(DEFAULT_OFFSET, innerWidth, innerHeight, ORIGINAL_TILE_SIZE * 0.0, layerSize))
    ensures VisibleInGrid(grid, DEFAULT_OFFSET, innerWidth, innerHeight, ORIGINAL_TILE_SIZE * 0.0, layerSize)
  {
    ZeroTileSize(DEFAULT_OFFSET.x, innerWidth, layerSize);
    VisibleInGridCells(grid, DEFAULT_OFFSET, innerWidth, innerHeight, ORIGINAL_TILE_SIZE * 0.0, layerSize);
  }

  /** The rectangle's cells index handles exactly when each of its columns can be read down to row `y1`. */
  lemma CellsInGridRows(grid: Grid, x0: int, x1: int, y0: int, y1: int)
    requires 0 <= y0
    ensures CellsInGrid(grid, Cells(x0, x1, y0, y1)) <==>
      (y0 <= y1 ==> forall x :: x0 <= x <= x1 ==> InGrid(grid, (x, y1)))
  {
    if CellsInGrid(grid, Cells(x0, x1, y0, y1)) && y0 <= y1 {
      forall x | x0 <= x <= x1
        ensures InGrid(grid, (x, y1))
      {
        CellsMembers(x0, x1, y0, y1, (x, y1));
      }
    }
    if y0 <= y1 ==> forall x :: x0 <= x <= x1 ==> InGrid(grid, (x, y1)) {
      forall c | c in Cells(x0, x1, y0, y1)
        ensures InGrid(grid, c)
      {
        CellsMembers(x0, x1, y0, y1, c);
        assert InGrid(grid, (c.0, y1));
      }
    }
  }

  /**
   * The visible rectangle stated on its boundaries: each visible column can
   * be read down to the last visible row, which is what the loop's
   * `layers[size][x][y]` needs not to throw.
   */
  predicate VisibleInGrid(grid: Grid, offset: Loc, innerWidth: real, innerHeight: real, tileSize: real, layerSize: LayerSize) {
    var rx := VisibleRange(offset.x, innerWidth, tileSize, layerSize);
    var ry := VisibleRange(offset.y, innerHeight, tileSize, layerSize);
    ry.0 <= ry.1 ==> forall x :: rx.0 <= x <= rx.1 ==> InGrid(grid, (x, ry.1))
  }

  /** The boundary form holds exactly when every visible cell indexes a handle. */
  lemma VisibleInGridCells(grid: Grid, offset: Loc, innerWidth: real, innerHeight: real, tileSize: real, layerSize: LayerSize)
    ensures VisibleInGrid(grid, offset, innerWidth, innerHeight, tileSize, layerSize) <==>
      CellsInGrid(grid, VisibleCells(offset, innerWidth, innerHeight, tileSize, layerSize))
  {
    var rx := VisibleRange(offset.x, innerWidth, tileSize, layerSize);
    var ry := VisibleRange(offset.y, innerHeight, tileSize, layerSize);
    CellsInGridRows(grid, rx.0, rx.1, ry.0, ry.1);
  }

  /** Column `x` shares no cell with the columns before it. */
  lemma ColumnAfterCells(x0: int, x: int, y0: int, y1: int)
    ensures forall c :: c in Column(x, y0, y1) ==> c !in Cells(x0, x - 1, y0, y1)
  {
    forall c | c in Column(x, y0, y1)
      ensures c !in Cells(x0, x - 1, y0, y1)
    {
      ColumnMembers(x, y0, y1, c);
      CellsMembers(x0, x - 1, y0, y1, c);
    }
  }

  // ---------------------------------------------------------------------------
  // The drawing pass, tile by tile

  /** Where a `drawImageTiles` pass stands: the current layer, the tiles drawn so far, the loads started so far. */
  datatype TilePass = TilePass(grid: Grid, drawn: seq<TileDraw>, started: nat)

  /**
   * One `drawImageTile` on the current layer: an in-range handle is
   * requested if it was not, drawn if it was already loaded, and counted if
   * a load starts.
   */
  function VisitTile(p: TilePass, c: (int, int), layerSize: LayerSize, tileSize: real): TilePass {
    if 0 <= c.0 < |p.grid| && 0 <= c.1 < |p.grid[c.0]| then
      var t := p.grid[c.0][c.1];
      TilePass(RequestAt(p.grid, c, layerSize, tileSize),
               p.drawn + (if Loaded(t) then [TileSquare(c.0, c.1, tileSize)] else []),
               p.started + (if Unrequested(t) then 1 else 0))
    else p
  }

  /** The pass after `drawImageTile` on each of `cells` in turn. */
  function VisitAll(p: TilePass, cells: seq<(int, int)>, layerSize: LayerSize, tileSize: real): TilePass {
    if cells == [] then p
    else VisitTile(VisitAll(p, cells[..|cells| - 1], layerSize, tileSize), cells[|cells| - 1], layerSize, tileSize)
  }

  /** Passing over `a + b` is passing over `a` and then over `b`. */
  lemma {:induction false} VisitAllConcat(p: TilePass, a: seq<(int, int)>, b: seq<(int, int)>, layerSize: LayerSize, tileSize: real)
    ensures VisitAll(p, a + b, layerSize, tileSize) == VisitAll(VisitAll(p, a, layerSize, tileSize), b, layerSize, tileSize)
  {
    if b == [] {
      assert a + b == a;
    } else {
      var init := b[..|b| - 1];
      assert (a + b)[..|a + b| - 1] == a + init;
      assert (a + b)[|a + b| - 1] == b[|b| - 1];
      VisitAllConcat(p, a, init, layerSize, tileSize);
    }
  }

  /** The layer a pass leaves is the visit of its cells, whatever the pass had drawn and counted before. */
  lemma {:induction false} VisitAllGrid(p: TilePass, cells: seq<(int, int)>, layerSize: LayerSize, tileSize: real)
    ensures VisitAll(p, cells, layerSize, tileSize).grid == Visit(p.grid, cells, layerSize, tileSize)
  {
    if cells != [] {
      var init := cells[..|cells| - 1];
      VisitAllGrid(p, init, layerSize, tileSize);
    }
  }

  /**
   * Over distinct cells, the pass draws exactly the cells that were loaded
   * in the layer it started from and starts exactly the loads of the cells
   * that were unrequested there: handles change only when visited.
   */
  lemma {:induction false} VisitAllSpec(p: TilePass, cells: seq<(int, int)>, layerSize: LayerSize, tileSize: real)
    requires Distinct(cells)
    ensures VisitAll(p, cells, layerSize, tileSize)
         == TilePass(Visit(p.grid, cells, layerSize, tileSize),
                     p.drawn + DrawnTiles(p.grid, cells, tileSize),
                     p.started + NewRequests(p.grid, cells))
  {
    if cells == [] {
      assert p.drawn + [] == p.drawn;
    } else {
      var init := cells[..|cells| - 1];
      var c := cells[|cells| - 1];
      assert Distinct(init);
      assert c !in init by {
        forall i | 0 <= i < |init| ensures init[i] != c {
          assert init[i] == cells[i];
        }
      }
      VisitAllSpec(p, init, layerSize, tileSize);
      VisitShape(p.grid, init, layerSize, tileSize);
      var g := Visit(p.grid, init, layerSize, tileSize);
      if 0 <= c.0 < |p.grid| && 0 <= c.1 < |p.grid[c.0]| {
        VisitAt(p.grid, init, layerSize, tileSize, c.0, c.1);
        assert g[c.0][c.1] == p.grid[c.0][c.1];
        var extra := if Loaded(p.grid[c.0][c.1]) then [TileSquare(c.0, c.1, tileSize)] else [];
        assert (p.drawn + DrawnTiles(p.grid, init, tileSize)) + extra
            == p.drawn + (DrawnTiles(p.grid, init, tileSize) + extra);
      }
    }
  }

  /** One round of the inner loop of `drawImageTiles` adds one `drawImageTile` to the pass. */
  lemma ColumnStep(p: TilePass, x: int, y0: int, y: int, layerSize: LayerSize, tileSize: real)
    requires y0 <= y
    ensures VisitAll(p, Column(x, y0, y), layerSize, tileSize)
         == VisitTile(VisitAll(p, Column(x, y0, y - 1), layerSize, tileSize), (x, y), layerSize, tileSize)
  {
    var prefix := Column(x, y0, y - 1);
    assert Column(x, y0, y) == prefix + [(x, y)];
    assert (prefix + [(x, y)])[..|prefix|] == prefix;
  }

  /** One round of the outer loop of `drawImageTiles` adds one column to the pass. */
  lemma CellsStep(p: TilePass, x0: int, x: int, y0: int, y1: int, layerSize: LayerSize, tileSize: real)
    requires x0 <= x
    ensures VisitAll(p, Cells(x0, x, y0, y1), layerSize, tileSize)
         == VisitAll(VisitAll(p, Cells(x0, x - 1, y0, y1), layerSize, tileSize), Column(x, y0, y1), layerSize, tileSize)
  {
    assert Cells(x0, x, y0, y1) == Cells(x0, x - 1, y0, y1) + Column(x, y0, y1);
    VisitAllConcat(p, Cells(x0, x - 1, y0, y1), Column(x, y0, y1), layerSize, tileSize);
  }

  /** The inner loop of `drawImageTiles` as a fold: the pass after rows `y0 .. y` of column `x`. */
  function VisitColumn(p: TilePass, x: int, y0: int, y: int, layerSize: LayerSize, tileSize: real): TilePass
    decreases y - y0
  {
    if y < y0 then p else VisitTile(VisitColumn(p, x, y0, y - 1, layerSize, tileSize), (x, y), layerSize, tileSize)
  }

  /** The outer loop of `drawImageTiles` as a fold: the pass after columns `x0 .. x`. */
  function VisitColumns(p: TilePass, x0: int, x: int, y0: int, y1: int, layerSize: LayerSize, tileSize: real): TilePass
    decreases x - x0
  {
    if x < x0 then p else VisitColumn(VisitColumns(p, x0, x - 1, y0, y1, layerSize, tileSize), x, y0, y1, layerSize, tileSize)
  }

  /** The inner loop passes over the cells of `Column`, in order. */
  lemma {:induction false} VisitColumnAll(p: TilePass, x: int, y0: int, y: int, layerSize: LayerSize, tileSize: real)
    ensures VisitColumn(p, x, y0, y, layerSize, tileSize) == VisitAll(p, Column(x, y0, y), layerSize, tileSize)
    decreases y - y0
  {
    if y >= y0 {
      VisitColumnAll(p, x, y0, y - 1, layerSize, tileSize);
      ColumnStep(p, x, y0, y, layerSize, tileSize);
    }
  }

  /** The nested loops pass over the cells of `Cells`, in order. */
  lemma {:induction false} VisitColumnsAll(p: TilePass, x0: int, x: int, y0: int, y1: int, layerSize: LayerSize, tileSize: real)
    ensures VisitColumns(p, x0, x, y0, y1, layerSize, tileSize) == VisitAll(p, Cells(x0, x, y0, y1), layerSize, tileSize)
    decreases x - x0
  {
    if x >= x0 {
      VisitColumnsAll(p, x0, x - 1, y0, y1, layerSize, tileSize);
      VisitColumnAll(VisitColumns(p, x0, x - 1, y0, y1, layerSize, tileSize), x, y0, y1, layerSize, tileSize);
      CellsStep(p, x0, x, y0, y1, layerSize, tileSize);
    }
  }

  /** The nested loops keep the shape of the layer. */
  lemma VisitColumnsShape(p: TilePass, x0: int, x: int, y0: int, y1: int, layerSize: LayerSize, tileSize: real)
    ensures |VisitColumns(p, x0, x, y0, y1, layerSize, tileSize).grid| == |p.grid|
    ensures forall i :: 0 <= i < |p.grid| ==> |VisitColumns(p, x0, x, y0, y1, layerSize, tileSize).grid[i]| == |p.grid[i]|
  {
    VisitColumnsAll(p, x0, x, y0, y1, layerSize, tileSize);
    VisitAllGrid(p, Cells(x0, x, y0, y1), layerSize, tileSize);
    VisitShape(p.grid, Cells(x0, x, y0, y1), layerSize, tileSize);
  }
}
