/**
 * `MapService` (`src/app/map.service.ts`): the camera state, the tile
 * pyramid with its load bookkeeping, and the drawing passes, with the
 * canvas replaced by the records of what would be drawn.
 */
module MapRender {
  import opened Numbers
  import opened AppConst
  import opened Locations
  import opened Camera
  import opened Tiles
  import opened Culling

  /** The cursor readout: "unknown" before the first pointer move, then a world position. */
  datatype Readout = Unknown | At(x: Num, y: Num)

  /** The layers after `pushTileImages` has run for the first `n` pyramid levels of `LAYER_SIZES`. */
  function PushedUpTo(layers: Layers, n: nat): Layers
    requires n <= |LAYER_SIZES|
  {
    if n == 0 then layers
    else
      var l := PushedUpTo(layers, n - 1);
      var s := LAYER_SIZES[n - 1];
      l.Set(s, Pushed(l.Get(s), s))
  }

  /** Round `n` of `initInCanvas` pushes level `LAYER_SIZES[n]` of what the earlier rounds left. */
  lemma PushedUpToStep(layers: Layers, n: nat)
    requires n < |LAYER_SIZES|
    ensures var l := PushedUpTo(layers, n); var s := LAYER_SIZES[n];
      PushedUpTo(layers, n + 1) == l.Set(s, Pushed(l.Get(s), s))
  {
  }

  /** After `n` rounds, exactly the first `n` listed levels have been pushed, each once. */
  lemma {:induction false} PushedUpToAt(layers: Layers, n: nat, k: nat)
    requires n <= |LAYER_SIZES| && k < |LAYER_SIZES|
    ensures PushedUpTo(layers, n).Get(LAYER_SIZES[k])
         == if k < n then Pushed(layers.Get(LAYER_SIZES[k]), LAYER_SIZES[k]) else layers.Get(LAYER_SIZES[k])
  {
    if n > 0 {
      PushedUpToAt(layers, n - 1, k);
      var l := PushedUpTo(layers, n - 1);
      var s := LAYER_SIZES[n - 1];
      assert PushedUpTo(layers, n) == l.Set(s, Pushed(l.Get(s), s));
      if k == n - 1 {
        assert l.Get(s) == layers.Get(s);
      } else {
        assert LAYER_SIZES[k] != s;
        SetOther(l, s, Pushed(l.Get(s), s), LAYER_SIZES[k]);
      }
    }
  }

  /** No round of `initInCanvas` changes the number of loading handles. */
  lemma {:induction false} PushedUpToLoading(layers: Layers, n: nat)
    requires n <= |LAYER_SIZES|
    ensures LayersLoading(PushedUpTo(layers, n)) == LayersLoading(layers)
  {
    if n > 0 {
      PushedUpToLoading(layers, n - 1);
      var l := PushedUpTo(layers, n - 1);
      var s := LAYER_SIZES[n - 1];
      LayersLoadingUpdate(l, s, Pushed(l.Get(s), s));
      PushedLoading(l.Get(s), s);
    }
  }

  /** `initInCanvas` pushes every level exactly once; an empty level becomes a full square of fresh handles. */
  lemma PushedUpToAll(layers: Layers)
    ensures forall s: LayerSize :: PushedUpTo(layers, |LAYER_SIZES|).Get(s) == Pushed(layers.Get(s), s)
    ensures forall s: LayerSize :: layers.Get(s) == [] ==> PushedUpTo(layers, |LAYER_SIZES|).Get(s) == FreshGrid(s)
  {
    forall s: LayerSize
      ensures PushedUpTo(layers, |LAYER_SIZES|).Get(s) == Pushed(layers.Get(s), s)
      ensures layers.Get(s) == [] ==> PushedUpTo(layers, |LAYER_SIZES|).Get(s) == FreshGrid(s)
    {
      LayerSizeListed(s);
      var k :| 0 <= k < |LAYER_SIZES| && LAYER_SIZES[k] == s;
      PushedUpToAt(layers, |LAYER_SIZES|, k);
      PushedOnEmpty(s);
    }
  }

  /** Pushing keeps every loading handle's `onload`. */
  lemma {:induction false} PushedUpToHandled(layers: Layers, n: nat)
    requires n <= |LAYER_SIZES| && LayersHandled(layers)
    ensures LayersHandled(PushedUpTo(layers, n))
  {
    if n > 0 {
      PushedUpToHandled(layers, n - 1);
      var l := PushedUpTo(layers, n - 1);
      var s := LAYER_SIZES[n - 1];
      LayersHandledSet(l, s, Pushed(l.Get(s), s));
      PushedHandled(l.Get(s), s);
    }
  }

  /**
   * The loops of `pushTileImages(size)` on one layer: `size` rows are
   * appended, and `size` fresh handles are appended to each of the rows
   * `0 .. size - 1`. No handle the layer had is loading or stops loading.
   */
  method PushImages(layer: Grid, size: nat) returns (g: Grid)
    ensures g == Pushed(layer, size)
    ensures GridLoading(g) == GridLoading(layer)
  {
    g := layer;
    PushedRowsZero(layer, size);
    var i := 0;
    while i < size
      invariant 0 <= i <= size
      invariant g == PushedRows(layer, size, i)
      invariant GridLoading(g) == GridLoading(layer)
    {
      GridLoadingAppend(g, []);
      g := g + [[]];
      g := PushRow(g, i, size);
      PushedRowsStep(layer, size, i);
      i := i + 1;
    }
  }

  /** The inner loop of `pushTileImages`: `size` fresh handles appended to row `i`. */
  method PushRow(g0: Grid, i: nat, size: nat) returns (g: Grid)
    requires i < |g0|
    ensures g == g0[i := g0[i] + FreshRow(size)]
    ensures GridLoading(g) == GridLoading(g0)
  {
    g := g0;
    assert FreshRow(0) == [] && g0[i] + [] == g0[i];
    assert g0[i := g0[i] + FreshRow(0)] == g0;
    var j := 0;
    while j < size
      invariant 0 <= j <= size
      invariant g == g0[i := g0[i] + FreshRow(j)]
      invariant GridLoading(g) == GridLoading(g0)
    {
      PushFreshStep(g0, i, j);
      g := g[i := g[i] + [FRESH_TILE]];
      j := j + 1;
    }
  }

  /**
   * `drawImageTile` on the current layer of the pass: a loaded tile is
   * drawn; an unrequested one gets its path and its `onload` handler, and a
   * load is started; a loading one is left alone.
   */
  method DrawImageTile(p: TilePass, tileX: int, tileY: int, layerSize: LayerSize, tileSize: real) returns (q: TilePass)
    requires 0 <= tileX < |p.grid| && 0 <= tileY < |p.grid[tileX]|
    ensures q == VisitTile(p, (tileX, tileY), layerSize, tileSize)
    ensures |q.grid| == |p.grid| && |q.grid[tileX]| == |p.grid[tileX]|
  {
    var image := p.grid[tileX][tileY];
    if image.src != "" && image.complete {
      q := p.(drawn := p.drawn + [TileSquare(tileX, tileY, tileSize)]);
      assert p.grid[tileX][tileY := image] == p.grid[tileX];
      assert p.grid[tileX := p.grid[tileX][tileY := image]] == p.grid;
    } else if image.src == "" {
      var loading := TileImage(TilePath(layerSize, tileX, tileY), false, Some(tileSize));
      q := TilePass(p.grid[tileX := p.grid[tileX][tileY := loading]], p.drawn, p.started + 1);
    } else {
      q := p;
      assert p.grid[tileX][tileY := image] == p.grid[tileX];
      assert p.grid[tileX := p.grid[tileX][tileY := image]] == p.grid;
    }
  }

  /**
   * The body of `drawImageTiles` on a value of the current layer: the
   * visible rectangle is visited, and the number of loads in flight grows by
   * the number of loads started.
   */
  method DrawVisibleTiles(grid: Grid, offset: Loc, innerWidth: real, innerHeight: real, tileSize: real, layerSize: LayerSize)
    returns (q: TilePass)
    requires VisibleInGrid(grid, offset, innerWidth, innerHeight, tileSize, layerSize)
    ensures var cells := VisibleCells(offset, innerWidth, innerHeight, tileSize, layerSize);
      q == TilePass(Visit(grid, cells, layerSize, tileSize), DrawnTiles(grid, cells, tileSize), NewRequests(grid, cells))
    ensures GridLoading(q.grid) == GridLoading(grid) + q.started
  {
    var rx := VisibleRange(offset.x, innerWidth, tileSize, layerSize);
    var ry := VisibleRange(offset.y, innerHeight, tileSize, layerSize);
    q := DrawRange(TilePass(grid, [], 0), rx.0, rx.1, ry.0, ry.1, layerSize, tileSize);
    ghost var cells := Cells(rx.0, rx.1, ry.0, ry.1);
    VisitColumnsAll(TilePass(grid, [], 0), rx.0, rx.1, ry.0, ry.1, layerSize, tileSize);
    CellsDistinct(rx.0, rx.1, ry.0, ry.1);
    VisitAllSpec(TilePass(grid, [], 0), cells, layerSize, tileSize);
    VisitLoading(grid, cells, layerSize, tileSize);
  }

  /** The loops of `drawImageTiles` over the columns `x0 .. x1` and rows `y0 .. y1` of the current layer. */
  method DrawRange(p: TilePass, x0: int, x1: int, y0: int, y1: int, layerSize: LayerSize, tileSize: real) returns (q: TilePass)
    requires 0 <= y0
    requires y0 <= y1 ==> forall x :: x0 <= x <= x1 ==> InGrid(p.grid, (x, y1))
    ensures q == VisitColumns(p, x0, x1, y0, y1, layerSize, tileSize)
  {
    q := p;
    var tileX := x0;
    while tileX <= x1
      invariant x0 <= tileX && (tileX <= x1 + 1 || tileX == x0)
      invariant q == VisitColumns(p, x0, tileX - 1, y0, y1, layerSize, tileSize)
    {
      VisitColumnsShape(p, x0, tileX - 1, y0, y1, layerSize, tileSize);
      if y0 <= y1 {
        assert InGrid(p.grid, (tileX, y1));
      }
      q := DrawColumn(q, tileX, y0, y1, layerSize, tileSize);
      tileX := tileX + 1;
    }
  }

  /** The inner loop of `drawImageTiles`, for the rows `y0 .. y1` of column `tileX`. */
  method DrawColumn(p: TilePass, tileX: int, y0: int, y1: int, layerSize: LayerSize, tileSize: real) returns (q: TilePass)
    requires 0 <= y0 && (y0 <= y1 ==> InGrid(p.grid, (tileX, y1)))
    ensures q == VisitColumn(p, tileX, y0, y1, layerSize, tileSize)
  {
    q := p;
    var tileY := y0;
    while tileY <= y1
      invariant y0 <= tileY && (tileY <= y1 + 1 || tileY == y0)
      invariant q == VisitColumn(p, tileX, y0, tileY - 1, layerSize, tileSize)
      invariant y0 <= y1 ==> |q.grid| == |p.grid| && |q.grid[tileX]| == |p.grid[tileX]|
    {
      q := DrawImageTile(q, tileX, tileY, layerSize, tileSize);
      tileY := tileY + 1;
    }
  }

  /** The `LOCATIONS.forEach` loop of `drawLocations`: what is drawn and the icon table afterwards. */
  method DrawLocationList(locations: seq<Location>, zoomLevel: int, box: ViewBox, zoom: real, icons0: Icons)
    returns (drawn: seq<DrawnLocation>, icons: Icons)
    ensures drawn == LocationsDrawn(locations, zoomLevel, box, zoom)
    ensures icons == IconsAfter(icons0, locations, zoomLevel, box, zoom)
  {
    drawn, icons := [], icons0;
    var i := 0;
    while i < |locations|
      invariant 0 <= i <= |locations|
      invariant drawn == LocationsDrawn(locations[..i], zoomLevel, box, zoom)
      invariant icons == IconsAfter(icons0, locations[..i], zoomLevel, box, zoom)
    {
      var loc := locations[i];
      var d;
      d, icons := DrawZoomLocs(loc.locType, loc.src, loc.zoomLocs, zoomLevel, box, zoom, icons);
      drawn := drawn + d;
      assert locations[..i + 1][..i] == locations[..i];
      i := i + 1;
    }
    assert locations[..i] == locations;
  }

  /** The `loc.zoomLocs.forEach` loop: the groups of one location whose zoom band admits the zoom level. */
  method DrawZoomLocs(t: LocationType, src: string, zoomLocs: seq<ZoomLocation>, zoomLevel: int, box: ViewBox, zoom: real, icons0: Icons)
    returns (drawn: seq<DrawnLocation>, icons: Icons)
    ensures drawn == ZoomLocsDrawn(t, zoomLocs, zoomLevel, box, zoom)
    ensures icons == if drawn != [] then SetIfEmpty(icons0, t, src) else icons0
  {
    drawn, icons := [], icons0;
    var j := 0;
    while j < |zoomLocs|
      invariant 0 <= j <= |zoomLocs|
      invariant drawn == ZoomLocsDrawn(t, zoomLocs[..j], zoomLevel, box, zoom)
      invariant icons == if drawn != [] then SetIfEmpty(icons0, t, src) else icons0
    {
      var zoomLoc := zoomLocs[j];
      var minZoom := OrDefault(zoomLoc.minZoom, MIN_ZOOM_LEVEL);
      var maxZoom := OrDefault(zoomLoc.maxZoom, MAX_ZOOM_LEVEL);
      if zoomLevel >= minZoom && zoomLevel <= maxZoom {
        var d;
        SetIfEmptyTwice(icons0, t, src);
        d, icons := DrawItems(t, src, zoomLoc.locItems, box, zoom, icons);
        drawn := drawn + d;
      }
      assert zoomLocs[..j + 1][..j] == zoomLocs[..j];
      j := j + 1;
    }
    assert zoomLocs[..j] == zoomLocs;
  }

  /** The `zoomLoc.locItems.forEach` loop: the items of one group inside the view box. */
  method DrawItems(t: LocationType, src: string, items: seq<LocItem>, box: ViewBox, zoom: real, icons0: Icons)
    returns (drawn: seq<DrawnLocation>, icons: Icons)
    ensures drawn == ItemsDrawn(t, items, box, zoom)
    ensures icons == if drawn != [] then SetIfEmpty(icons0, t, src) else icons0
  {
    drawn, icons := [], icons0;
    var k := 0;
    while k < |items|
      invariant 0 <= k <= |items|
      invariant drawn == ItemsDrawn(t, items[..k], box, zoom)
      invariant icons == if drawn != [] then SetIfEmpty(icons0, t, src) else icons0
    {
      var item := items[k];
      if Lt(box.startX, Fin(item.x)) && Lt(Fin(item.x), box.endX) && Lt(box.startY, Fin(item.y)) && Lt(Fin(item.y), box.endY) {
        SetIfEmptyTwice(icons0, t, src);
        if icons.Get(t) == "" {
          icons := icons.Set(t, src);
        }
        drawn := drawn + [DrawItem(t, item, zoom)];
      }
      assert items[..k + 1][..k] == items[..k];
      k := k + 1;
    }
    assert items[..k] == items;
  }

  class MapService {
    var layerSize: LayerSize
    var cameraZoom: real
    var cameraOffset: Loc
    var layers: Layers
    var icons: Icons
    /** The value held by the `imgLoadingCount` subject. */
    var imgLoadingCount: int
    var cursor: Readout

    /**
     * The in-flight counter is the number of tiles that are loading, so it is
     * never negative, and every loading tile has its `onload` handler.
     */
    ghost predicate Valid()
      reads this`layers, this`imgLoadingCount
    {
      imgLoadingCount == LayersLoading(layers) && LayersHandled(layers)
    }

    constructor ()
      ensures Valid()
      ensures layerSize == LAYER_SIZE_2 && cameraZoom == 0.0 && cameraOffset == DEFAULT_OFFSET
      ensures layers == DEFAULT_LAYERS
      ensures icons == DEFAULT_ICONS
      ensures imgLoadingCount == 0 && cursor == Unknown
    {
      layerSize := LAYER_SIZE_2;
      cameraZoom := 0.0;
      cameraOffset := DEFAULT_OFFSET;
      layers := DEFAULT_LAYERS;
      icons := DEFAULT_ICONS;
      imgLoadingCount := 0;
      cursor := Unknown;
    }

    /** `initInCanvas`: one `pushTileImages` per pyramid level, in `ELayerSize` order. */
    method InitInCanvas()
      requires Valid()
      modifies this`layers
      ensures Valid()
      ensures layers == PushedUpTo(old(layers), |LAYER_SIZES|)
    {
      ghost var layers0 := layers;
      var n := 0;
      while n < |LAYER_SIZES|
        invariant 0 <= n <= |LAYER_SIZES|
        invariant layers == PushedUpTo(layers0, n)
      {
        PushedUpToStep(layers0, n);
        PushTileImages(LAYER_SIZES[n]);
        n := n + 1;
      }
      PushedUpToLoading(layers0, n);
      PushedUpToHandled(layers0, n);
    }

    /** `pushTileImages(size)`, on the layer's own array. */
    method PushTileImages(size: LayerSize)
      modifies this`layers
      ensures layers == old(layers).Set(size, Pushed(old(layers.Get(size)), size))
    {
      var g := PushImages(layers.Get(size), size);
      layers := layers.Set(size, g);
    }

    /** `setLayerSize`. */
    method SetLayerSize(zoomLevel: int)
      requires Valid()
      modifies this`layerSize
      ensures Valid()
      ensures layerSize == LayerSizeFor(zoomLevel)
    {
      if zoomLevel > 8 {
        layerSize := LAYER_SIZE_16;
      } else if zoomLevel > 6 {
        layerSize := LAYER_SIZE_8;
      } else if zoomLevel > 3 {
        layerSize := LAYER_SIZE_4;
      } else {
        layerSize := LAYER_SIZE_2;
      }
    }

    /** `setCameraOffset`; the canvas translation it also applies is not modelled. */
    method SetCameraOffset(prevCameraOffset: Loc, nextCameraOffset: Loc, inc: real)
      modifies this`cameraOffset
      ensures cameraOffset == InterpolatedOffset(prevCameraOffset, nextCameraOffset, inc)
    {
      var x := prevCameraOffset.x + (nextCameraOffset.x - prevCameraOffset.x) * inc;
      var y := prevCameraOffset.y + (nextCameraOffset.y - prevCameraOffset.y) * inc;
      cameraOffset := Loc(x, y);
    }

    /** `setCameraZoom`, at the current pyramid level. */
    method SetCameraZoom(prevZoomLevel: int, nextZoomLevel: int, inc: real)
      modifies this`cameraZoom
      ensures cameraZoom == InterpolatedZoom(prevZoomLevel, nextZoomLevel, layerSize, inc)
    {
      var prevCameraZoom := CameraZoomFor(prevZoomLevel, layerSize);
      var nextCameraZoom := CameraZoomFor(nextZoomLevel, layerSize);
      cameraZoom := prevCameraZoom + (nextCameraZoom - prevCameraZoom) * inc;
    }

    /**
     * The `onload` handler of a loading tile of layer `level`: the tile is
     * loaded, one load fewer is in flight, and the tile is drawn at the size
     * captured when it was requested.
     */
    method CompleteLoad(level: LayerSize, tileX: int, tileY: int) returns (drawn: TileDraw)
      requires Valid()
      requires 0 <= tileX < |layers.Get(level)| && 0 <= tileY < |layers.Get(level)[tileX]|
      requires Loading(layers.Get(level)[tileX][tileY])
      modifies this`layers, this`imgLoadingCount
      ensures Valid()
      ensures layers == old(layers).Set(level, layers.Get(level))
      ensures var g0: Grid := old(layers.Get(level)); var t0: TileImage := g0[tileX][tileY];
        layers.Get(level) == g0[tileX := g0[tileX][tileY := t0.(complete := true)]]
        && imgLoadingCount == old(imgLoadingCount) - 1
        && drawn == TileSquare(tileX, tileY, t0.onload.value)
      ensures imgLoadingCount >= 0
    {
      var g: Grid := layers.Get(level);
      var image := g[tileX][tileY];
      var loaded := image.(complete := true);
      LayersHandledSet(layers, level, g[tileX := g[tileX][tileY := loaded]]);
      CompleteHandled(g, tileX, tileY);
      RowLoadingUpdate(g[tileX], tileY, loaded);
      GridLoadingUpdate(g, tileX, g[tileX][tileY := loaded]);
      LayersLoadingUpdate(layers, level, g[tileX := g[tileX][tileY := loaded]]);
      layers := layers.Set(level, g[tileX := g[tileX][tileY := loaded]]);
      drawn := TileSquare(tileX, tileY, image.onload.value);
      imgLoadingCount := imgLoadingCount - 1;
    }

    /**
     * `drawImageTiles`: the tiles of the visible rectangle of the current
     * layer are visited column by column; each is requested if it was not,
     * and the ones already loaded are drawn.
     */
    method DrawImageTiles(innerWidth: real, innerHeight: real) returns (drawn: seq<TileDraw>)
      requires Valid()
      requires VisibleInGrid(layers.Get(layerSize), cameraOffset, innerWidth, innerHeight, ORIGINAL_TILE_SIZE * cameraZoom, layerSize)
      modifies this`layers, this`imgLoadingCount
      ensures Valid()
      ensures layers == old(layers).Set(layerSize, layers.Get(layerSize))
      ensures var tileSize := ORIGINAL_TILE_SIZE * cameraZoom;
        var cells := VisibleCells(cameraOffset, innerWidth, innerHeight, tileSize, layerSize);
        layers.Get(layerSize) == Visit(old(layers.Get(layerSize)), cells, layerSize, tileSize)
        && drawn == DrawnTiles(old(layers.Get(layerSize)), cells, tileSize)
        && imgLoadingCount == old(imgLoadingCount) + NewRequests(old(layers.Get(layerSize)), cells)
    {
      var tileSize := ORIGINAL_TILE_SIZE * cameraZoom;
      var q := DrawVisibleTiles(layers.Get(layerSize), cameraOffset, innerWidth, innerHeight, tileSize, layerSize);
      LayersLoadingUpdate(layers, layerSize, q.grid);
      LayersHandledSet(layers, layerSize, q.grid);
      VisitHandled(layers.Get(layerSize), VisibleCells(cameraOffset, innerWidth, innerHeight, tileSize, layerSize), layerSize, tileSize);
      layers := layers.Set(layerSize, q.grid);
      imgLoadingCount := imgLoadingCount + q.started;
      drawn := q.drawn;
    }

    /**
     * `drawLocations`: the items of the table that pass the zoom-band and the
     * box test are emitted in table order, and the icon of each type with a
     * drawn item gets its source if it had none.
     */
    method DrawLocations(zoomLevel: int, locations: seq<Location>, innerWidth: real, innerHeight: real)
      returns (drawn: seq<DrawnLocation>)
      modifies this`icons
      ensures var zoom := cameraZoom * layerSize as real;
        var box := ViewBoxFor(cameraOffset, zoom, innerWidth, innerHeight);
        drawn == LocationsDrawn(locations, zoomLevel, box, zoom)
        && icons == IconsAfter(old(icons), locations, zoomLevel, box, zoom)
    {
      var zoom := cameraZoom * layerSize as real;
      var startX := Div(0.0 - cameraOffset.x, zoom);
      var startY := Div(0.0 - cameraOffset.y, zoom);
      var endX := Div(innerWidth - cameraOffset.x, zoom);
      var endY := Div(innerHeight - cameraOffset.y, zoom);
      drawn, icons := DrawLocationList(locations, zoomLevel, ViewBox(startX, startY, endX, endY), zoom, icons);
    }

    /** `updateCursorLocation`: the world position under the pointer; its one-decimal formatting is not modelled. */
    method UpdateCursorLocation(clientX: real, clientY: real)
      modifies this`cursor
      ensures var zoom := cameraZoom * layerSize as real;
        cursor == At(ScreenToWorld(clientX, cameraOffset.x, zoom), ScreenToWorld(clientY, cameraOffset.y, zoom))
    {
      var zoom := cameraZoom * layerSize as real;
      cursor := At(Div(clientX - cameraOffset.x, zoom), Div(clientY - cameraOffset.y, zoom));
    }
  }
}
