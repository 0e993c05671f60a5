# Morrowind map renderer: a Dafny model

This project models the core of an Angular web map of Morrowind. It has two parts.

`MapService` (`src/app/map.service.ts`) keeps the camera state and a pyramid of square tile layers with 2, 4, 8 and 16 tiles per axis. Each layer is a grid of image handles, and a tile passes through three stages: unrequested, loading and loaded. The service also keeps a counter of loads in flight. Its operations are:

- choosing the pyramid level for a zoom level;
- interpolating camera offset and zoom between two animation states;
- pushing fresh handles into every layer;
- visiting the visible rectangle of tiles, requesting each tile at most once and drawing the loaded ones;
- culling the location table against a zoom band and the view box, assigning each type's icon lazily;
- converting the cursor position back to world coordinates.

`AppComponent` (`src/app/app.component.ts`) is the pan/zoom input state machine. Pointer down, move and up drag the camera. The wheel steps an integer zoom level, clamped to [-5, 5]. An `update` flag tells the next animation frame to redraw.

## Modules

Each module lives in the file of the same name.

- `numbers.dfy`, module `Numbers`: the JavaScript number behaviour the code relies on.
  - Division by zero yields an infinity or NaN, which matters because the service's `cameraZoom` starts at 0.
  - `Math.floor`, `Math.max`, `Math.min` and the comparisons are defined on those values too.
  - `Math.sign`, and `Math.pow` for integer exponents.
- `app_const.dfy`, module `AppConst`: the constants of `src/app/app.const.ts` and the `ELayerSize` values.
- `locations.dfy`, module `Locations`: the shapes of the location table. The table itself is an input.
- `camera.dfy`, module `Camera`: the pyramid level, interpolation and the world/screen maps.
- `tiles.dfy`, module `Tiles`: handles, layers, asset paths, `pushTileImages`, the visible range, the loading count, and `drawImageTiles` as a fold over the visited cells.
- `culling.dfy`, module `Culling`: what `drawLocations` emits and the icon table it leaves.
- `map_service.dfy`, module `MapRender`: the `MapService` class.
  - Its fields are the source's fields.
  - Its class invariant is that the counter equals the number of loading handles, and that every loading handle carries its `onload` handler.
  - Each loop of the source is a method proved against the functions above.
- `app_component.dfy`, module `App`: the `AppComponent` fields as a `View` value, each handler as a function on it, and the class whose methods apply them.

The canvas is replaced by records of what would be drawn: `TileDraw` for a tile and `DrawnLocation` for a location. These are the anchors the source computes.

## Model

| member | source | states |
|---|---|---|
| Numbers.Sign | src/app/app.component.ts:100 | `Math.sign` is -1, 0 or 1 and has the sign of its argument |

| Numbers.Pow | src/app/map.service.ts:74-75 | `Math.pow` of a positive base is positive, for every integer exponent |
| Numbers.PowSucc | src/app/map.service.ts:74-75 | one more unit of exponent multiplies the power by the base, for negative exponents too |
| Numbers.PowStrictlyIncreasing | src/app/app.component.ts:103 | for a base above 1 the power is strictly increasing in the exponent |
| AppConst.LayerSizeListed | src/app/app.const.ts:17-22 | every `ELayerSize` value occurs in the list of numeric enum values that `initInCanvas` iterates |
| Camera.LayerSizeFor | src/app/map.service.ts:60-65 | the pyramid level is 16 exactly above zoom 8, 8 exactly on 7–8, 4 exactly on 4–6, 2 exactly at 3 and below |
| Camera.LayerSizeMonotone | src/app/map.service.ts:60-65 | a higher zoom level never selects a coarser level |
| Camera.LerpBetween | src/app/map.service.ts:67-69 | the interpolation gives `prev` at 0 and `next` at 1, and stays between them for `inc` in [0, 1] |
| Camera.InterpolatedOffset | src/app/map.service.ts:67-69 | the offset is `prev` at `inc = 0` and `next` at `inc = 1`; for `inc` in [0, 1] each coordinate lies between its two ends |
| Camera.WorldScale | src/app/map.service.ts:74-75 | `2 * 1.5^(zoomLevel - 4)` is positive |
| Camera.CameraZoomFor | src/app/map.service.ts:74-75 | the camera zoom of a zoom level is positive at every pyramid level |
| Camera.CameraZoomScale | src/app/map.service.ts:74-75 | camera zoom times tiles per axis is the world scale, the same at every pyramid level |
| Camera.CameraZoomStep | src/app/map.service.ts:74-75 | one zoom level up multiplies the camera zoom by `ZOOM_FACTOR` |
| Camera.InterpolatedZoom | src/app/map.service.ts:73-77 | for `inc` in [0, 1] the zoom is positive and between the two levels' zooms; it is the previous zoom at 0 and the next at 1 |
| Camera.WorldToScreen | src/app/map.service.ts:128 | the screen position of a world coordinate, `w * zoom + offset` (the icon anchor before the 8 px shift); `ScreenWorldInverse` proves it inverse to `ScreenToWorld` |
| Camera.ScreenToWorld | src/app/map.service.ts:161-162 | the cursor readout `(client - offset) / zoom` with JavaScript division; properties in `ScreenWorldInverse` and `ScreenToWorldAtZeroZoom` |
| Camera.ScreenWorldInverse | src/app/map.service.ts:159-163 | for a nonzero zoom the cursor's screen-to-world map is finite and inverts the world-to-screen map used for drawing, both ways |
| Camera.ScreenToWorldAtZeroZoom | src/app/map.service.ts:159-163 | at zoom 0 the readout is never finite, and is NaN exactly when the pointer is on the offset |
| Tiles.Layers.Set | src/app/map.service.ts:22-24 | writing a level of `ILayers` and reading it back gives what was written |
| Tiles.SetOther | src/app/map.service.ts:22-24 | writing one level leaves the other three as they were |
| Tiles.TileLifecycle | src/app/map.service.ts:95-97 | each handle is in exactly one of the stages unrequested, loading and loaded |
| Tiles.NatToStringDigits | src/app/map.service.ts:98 | the decimal rendering of an index is made of digits only |
| Tiles.TilePath | src/app/map.service.ts:98 | a tile path is never empty (longer than 12 characters) |
| Tiles.TilePathFormat | src/app/map.service.ts:98 | a tile path starts with `assets/` and ends with `.webp` |
| Tiles.Request | src/app/map.service.ts:94-104 | an unrequested handle becomes loading, with the tile's path and an `onload` for the current tile size; a loading or loaded one is unchanged; afterwards it is never unrequested |
| Tiles.VisitTile | src/app/map.service.ts:94-104 | one `drawImageTile` on the pass: an in-range handle is requested, drawn if it was loaded, counted if it was unrequested; `VisitAllSpec` states what a run of them does |
| Tiles.RequestIdempotent | src/app/map.service.ts:97-99 | requesting twice is requesting once, so each tile is fetched at most once |
| Tiles.FreshRow | src/app/map.service.ts:54-56 | `n` new handles, all fresh |
| Tiles.FreshGrid | src/app/map.service.ts:52-57 | `n` rows, each of `n` fresh handles |
| Tiles.Pushed | src/app/map.service.ts:51-58 | `pushTileImages(size)` appends exactly `size` rows |
| Tiles.PushedRows | src/app/map.service.ts:52-57 | after `i` rounds of the outer loop, `i` rows have been appended |
| Tiles.PushedRowsZero | src/app/map.service.ts:52 | before the outer loop of `pushTileImages` the layer is unchanged |
| Tiles.PushedRowsStep | src/app/map.service.ts:52-56 | one round of the outer loop appends an empty row and fills row `i` with `size` fresh handles |
| Tiles.PushFreshStep | src/app/map.service.ts:54-56 | one round of the inner loop appends one fresh handle to row `i` and keeps the loading count |
| Tiles.PushedRowsLoading | src/app/map.service.ts:52-57 | no round of the outer loop changes the loading count |
| Tiles.RowLoadingConcatFresh | src/app/map.service.ts:55 | fresh handles appended to a row add nothing to its loading count |
| Tiles.PushedLoading | src/app/map.service.ts:51-58 | pushing adds no loading handle |
| Tiles.PushedOnEmpty | src/app/map.service.ts:51-58 | on an empty layer the push builds exactly `size` rows of `size` fresh handles |
| Tiles.PushedKeepsHandles | src/app/map.service.ts:51-58 | pushing drops and changes no handle that was there |
| Tiles.PushedHandled | src/app/map.service.ts:51-58 | pushing adds no loading handle without an `onload` |
| Tiles.FreshGridShape | src/app/map.service.ts:51-58 | a fresh layer is a full square of unrequested handles, none of them loading |
| Tiles.RowLoadingUpdate | src/app/map.service.ts:99-102 | replacing one handle changes its row's loading count by the difference the handle makes |
| Tiles.RowLoadingAppend | src/app/map.service.ts:55 | appending a handle adds 1 to the row's loading count exactly when that handle is loading |
| Tiles.GridLoadingAppend | src/app/map.service.ts:53 | appending a row adds that row's loading count to the layer's |
| Tiles.FreshRowNotLoading | src/app/map.service.ts:54-56 | a row of fresh handles has no loading handle |
| Tiles.FreshGridRows | src/app/map.service.ts:52-57 | no prefix of a fresh layer has a loading handle |
| Tiles.GridLoadingUpdate | src/app/map.service.ts:99-102 | replacing one row changes the layer's count by the difference of the two rows' counts |
| Tiles.LayersLoadingUpdate | src/app/map.service.ts:99-102 | replacing one level changes the total count by the difference of the two levels' counts |
| Tiles.LayersHandledSet | src/app/map.service.ts:22-24 | a level of handled layers is handled, and replacing a level by a handled one keeps the layers handled |
| Tiles.CompleteHandled | src/app/map.service.ts:100-103 | marking a handle complete keeps every loading handle's `onload` |
| Tiles.MinVisibleTile | src/app/map.service.ts:81-82 | `Math.max(Math.floor((0 - offset) / tileSize), 0)` with JavaScript division, floor and max; `VisibleRangeIsLoop` proves it is a non-negative integer whenever finite |
| Tiles.MaxVisibleTile | src/app/map.service.ts:83-84 | `Math.min(Math.floor((extent - offset) / tileSize), layerSize - 1)`; `VisibleRangeIsLoop` proves it is an integer whenever finite |
| Tiles.VisibleRange | src/app/map.service.ts:80-84 | every visited index lies in [0, layerSize - 1] |
| Tiles.VisibleRangeIsLoop | src/app/map.service.ts:81-87 | the range holds exactly the integers `for (t = min; t <= max; t++)` visits, with NaN and infinite bounds as JavaScript compares them |
| Tiles.FloorIsInt | src/app/map.service.ts:81-84 | a finite `Math.floor` is an integer |
| Tiles.ZeroTileSize | src/app/map.service.ts:80-84 | at tile size 0, with the camera at or right of the left edge, nothing is visited |
| Tiles.VisibleRangeCovers | src/app/map.service.ts:81-84 | for a positive tile size, every on-map point of the viewport lies over a visited tile |
| Tiles.VisibleRangeOverlaps | src/app/map.service.ts:81-84 | for a positive tile size, every visited tile overlaps the viewport on screen |
| Tiles.ColumnMembers | src/app/map.service.ts:87 | the inner loop visits exactly the rows `y0 .. y1` |
| Tiles.CellsMembers | src/app/map.service.ts:86-87 | the nested loops visit exactly the inclusive rectangle, and nothing when it is empty |
| Tiles.CellsDistinct | src/app/map.service.ts:86-87 | the nested loops visit no cell twice |
| Tiles.ColumnDistinct | src/app/map.service.ts:87 | the inner loop visits no row twice |
| Tiles.ColumnAfterCells | src/app/map.service.ts:86-87 | a column shares no cell with the columns before it |
| Tiles.CoveredCellsInGrid | src/app/map.service.ts:86-88 | on a fully initialised level every visible cell indexes a handle, in both the cell-list and the boundary form |
| Tiles.InitialCellsEmpty | src/app/map.service.ts:32-34 | in the state the service starts in (zoom 0, default offset) no cell is visible, so a pass reads nothing even from empty layers |
| Tiles.VisibleInGridCells | src/app/map.service.ts:86-88 | the requirement that each visible column reaches down to the last visible row holds exactly when every visible cell indexes a handle |
| Tiles.CellsInGridRows | src/app/map.service.ts:86-88 | the loops read only in-range handles exactly when each visited column reaches down to the last visited row (or no row is visited) |
| Tiles.VisitShape | src/app/map.service.ts:86-91 | a pass keeps the shape of the layer |
| Tiles.VisitAt | src/app/map.service.ts:86-104 | after a pass, a handle is requested exactly when its cell was visited, however often; the others are untouched |
| Tiles.NewRequests | src/app/map.service.ts:97-99 | a pass starts at most one load per visited cell |
| Tiles.RequestAtLoading | src/app/map.service.ts:97-99 | one `drawImageTile` raises the loading count by 1 exactly when its handle was unrequested |
| Tiles.VisitLoading | src/app/map.service.ts:86-99 | visiting distinct cells raises the loading count by the number of visited handles that were unrequested |
| Tiles.VisitHandled | src/app/map.service.ts:97-100 | a pass gives every handle it requests its `onload`, so a handled layer stays handled |
| Tiles.NewRequestsUnvisited | src/app/map.service.ts:86-99 | cells not yet visited count their loads against the layer as it was before the pass |
| Tiles.VisitAllConcat | src/app/map.service.ts:86-91 | passing over `a + b` is passing over `a`, then over `b` |
| Tiles.VisitAllGrid | src/app/map.service.ts:86-91 | the layer a pass leaves does not depend on what was drawn or counted before |
| Tiles.VisitAllSpec | src/app/map.service.ts:86-104 | over distinct cells, a pass leaves the visited layer, draws exactly the cells loaded at the start, in order, and starts exactly the loads of the cells unrequested at the start |
| Tiles.ColumnStep | src/app/map.service.ts:87-89 | one round of the inner loop adds one `drawImageTile` to the pass |
| Tiles.CellsStep | src/app/map.service.ts:86-90 | one round of the outer loop adds one column to the pass |
| Tiles.VisitColumnAll | src/app/map.service.ts:87-90 | the inner loop's fold is the pass over the cells of the column |
| Tiles.VisitColumnsAll | src/app/map.service.ts:86-91 | the nested loops' fold is the pass over the cells of the rectangle |
| Tiles.VisitColumnsShape | src/app/map.service.ts:86-91 | the nested loops keep the shape of the layer |
| Culling.InZoomBandCases | src/app/map.service.ts:120-122 | a given nonzero bound is used, and an absent or zero bound falls back to the global one, because of `||` |
| Culling.OrDefault | src/app/map.service.ts:120-121 | JavaScript's logical or on a bound: the bound when given and nonzero, otherwise the fallback; `InZoomBandCases` spells out the cases |
| Culling.InZoomBand | src/app/map.service.ts:120-122 | the zoom band test of a group; cases in `InZoomBandCases` |
| Culling.ViewBoxFor | src/app/map.service.ts:108-112 | the world box `(0 - offset) / zoom` to `(viewport - offset) / zoom` with JavaScript division; `InBoxOnScreen` relates it to the screen |
| Culling.InBox | src/app/map.service.ts:125 | the strict box test under JavaScript comparison; `InBoxOnScreen` proves it is the on-screen test for a positive zoom |
| Culling.ItemsDrawn | src/app/map.service.ts:123-133 | the records of one group's items inside the box, in order; characterised by `ItemsDrawnMembers` |
| Culling.ZoomLocsDrawn | src/app/map.service.ts:119-135 | the records of one location's groups; characterised by `ZoomLocsDrawnMembers` |
| Culling.LocationsDrawn | src/app/map.service.ts:118-136 | the records of the whole table; characterised by `LocationsDrawnMembers` and `LocationsDrawnConcat` |
| Culling.InBoxOnScreen | src/app/map.service.ts:108-125 | for a positive zoom, the strict box test in world units is exactly "the screen position lies strictly inside the viewport" |
| Culling.DrawItem | src/app/map.service.ts:128-131 | the icon is at `(x*zoom - 8, y*zoom - 8)`; the label is 16 px to its right on the same line |
| Culling.ItemsDrawnMembers | src/app/map.service.ts:123-125 | a group emits an item's record exactly when the item is strictly inside the box |
| Culling.ZoomLocsDrawnMembers | src/app/map.service.ts:119-125 | a location emits an item's record exactly when its group's band admits the zoom level and the item is inside the box |
| Culling.EarlierGroups | src/app/map.service.ts:119 | the groups before the last one emit the same items as the prefix of groups |
| Culling.LastGroup | src/app/map.service.ts:120-125 | the last group emits its items inside the box when its band admits the zoom level, and nothing otherwise |
| Culling.LocationsDrawnMembers | src/app/map.service.ts:118-136 | `drawLocations` emits an item's record exactly when both tests pass, over the whole table |
| Culling.LastLocationMembers | src/app/map.service.ts:118-125 | the last location emits exactly its items that pass both tests |
| Culling.LocationsDrawnConcat | src/app/map.service.ts:118-119 | table order: the items of an earlier part of the table come out before those of a later part |
| Culling.Icons.Set | src/app/map.service.ts:126-127 | assigning a type's icon source and reading it back gives that source |
| Culling.SetIfEmpty | src/app/map.service.ts:127 | `if (!icon.src) icon.src = src`; idempotent by `SetIfEmptyTwice` |
| Culling.IconsAfter | src/app/map.service.ts:118-136 | the icon table after the pass; characterised by `IconsAssignedOnlyWhenEmpty` and `IconsAssignedWhenDrawn` |
| Culling.SetIfEmptyTwice | src/app/map.service.ts:127 | the lazy assignment does nothing the second time |
| Culling.IconsAssignedOnlyWhenEmpty | src/app/map.service.ts:126-127 | an icon with a source keeps it; an icon that changes was empty and takes the source of a location of its type with a drawn item |
| Culling.IconsAssignedWhenDrawn | src/app/map.service.ts:126-127 | a type with a drawn item ends up with a source, if its location names one |
| MapRender.PushedUpToStep | src/app/map.service.ts:46-48 | round `n` of `initInCanvas` pushes level `LAYER_SIZES[n]` of what the earlier rounds left |
| MapRender.PushedUpTo | src/app/map.service.ts:43-49 | the layers after the first `n` rounds of `initInCanvas`; characterised by `PushedUpToAt`, `PushedUpToLoading` and `PushedUpToAll` |
| MapRender.PushedUpToHandled | src/app/map.service.ts:46-48 | `initInCanvas` keeps every loading handle's `onload` |
| MapRender.PushedUpToAt | src/app/map.service.ts:46-48 | after `n` rounds, exactly the first `n` listed levels have been pushed, each once |
| MapRender.PushedUpToLoading | src/app/map.service.ts:46-48 | no round of `initInCanvas` changes the loading count |
| MapRender.PushedUpToAll | src/app/map.service.ts:43-49 | `initInCanvas` pushes every level exactly once; an empty level becomes a full square of fresh handles |
| MapRender.PushImages | src/app/map.service.ts:51-57 | the loops of `pushTileImages` build `Pushed(layer, size)` and keep the loading count |
| MapRender.PushRow | src/app/map.service.ts:54-56 | the inner loop appends `size` fresh handles to row `i` and keeps the loading count |
| MapRender.DrawImageTile | src/app/map.service.ts:94-104 | one `drawImageTile`: a loaded tile is drawn, an unrequested one is requested and counted, a loading one is left alone; the layer keeps its shape |
| MapRender.DrawVisibleTiles | src/app/map.service.ts:79-91 | the visible rectangle is visited; the result is the visited layer, the tiles that were loaded, and the loads started; the loading count grows by the loads started |
| MapRender.DrawRange | src/app/map.service.ts:86-91 | the outer loop computes the fold of its columns |
| MapRender.DrawColumn | src/app/map.service.ts:87-90 | the inner loop computes the fold of its rows |
| MapRender.DrawLocationList | src/app/map.service.ts:118-136 | the `LOCATIONS` loop emits `LocationsDrawn` and leaves `IconsAfter` |
| MapRender.DrawZoomLocs | src/app/map.service.ts:119-135 | the groups of one location emit `ZoomLocsDrawn`; the type's icon is assigned if empty exactly when something was emitted |
| MapRender.DrawItems | src/app/map.service.ts:123-133 | the items of one group emit `ItemsDrawn`; the type's icon is assigned if empty exactly when something was emitted |
| MapRender.MapService.constructor | src/app/map.service.ts:32-39 | the field initialisers: level 2, zoom 0, the default offset, empty layers, empty icons, counter 0 |
| MapRender.MapService.InitInCanvas | src/app/map.service.ts:43-49 | one push per listed level, in order; the class invariant is kept |
| MapRender.MapService.PushTileImages | src/app/map.service.ts:51-58 | level `size` becomes `Pushed(old level, size)` and the others are unchanged |
| MapRender.MapService.SetLayerSize | src/app/map.service.ts:60-65 | the level becomes `LayerSizeFor(zoomLevel)` |
| MapRender.MapService.SetCameraOffset | src/app/map.service.ts:67-71 | the offset becomes the interpolated offset |
| MapRender.MapService.SetCameraZoom | src/app/map.service.ts:73-77 | the zoom becomes the interpolated zoom at the current level |
| MapRender.MapService.CompleteLoad | src/app/map.service.ts:100-103 | `onload` of any loading tile (the invariant guarantees it has one): the tile becomes loaded, the counter drops by one and stays non-negative, and the tile is drawn at the captured size; the invariant is kept |
| MapRender.MapService.DrawImageTiles | src/app/map.service.ts:79-92 | whenever every visible cell indexes a handle (the calls that do not throw), the current level becomes its visit over the visible cells; the drawn tiles are the ones loaded before the pass; the counter grows by the newly requested tiles; the other levels and the invariant are kept |
| MapRender.MapService.DrawLocations | src/app/map.service.ts:107-137 | the emitted records and the icon table are those of the view box computed from the camera |
| MapRender.MapService.UpdateCursorLocation | src/app/map.service.ts:159-163 | the readout is the screen-to-world map of the pointer at zoom `cameraZoom * layerSize` |
| App.ValidZoomPositive | src/app/app.component.ts:103 | in every valid view the camera zoom is positive, so the handlers' divisions are defined |
| App.InitialView | src/app/app.component.ts:17-23 | the initial view is valid, centred on the window, not dragging, with a redraw pending |
| App.AfterPointerDown | src/app/app.component.ts:72-76 | pointer down starts a drag and changes neither the camera nor the `update` flag |
| App.AfterPointerUp | src/app/app.component.ts:79-82 | pointer up ends the drag and clears the pinch distance, and changes no other field |
| App.AfterPointerMove | src/app/app.component.ts:85-91 | a move changes nothing unless dragging; while dragging it keeps zoom and drag anchor and requests a redraw |
| App.AfterWheel | src/app/app.component.ts:98-106 | the wheel is a no-op while dragging; otherwise the result is valid, requests a redraw and moves the zoom level by at most 1 from a level in range; the offset and drag state are untouched |
| App.SteppedZoomLevel | src/app/app.component.ts:100-102 | `zoomLevel - Math.sign(deltaY)`, then clamped by `Math.min` and `Math.max`; direction in `WheelDirection`, clamping in `WheelClamps` |
| App.WheelDirection | src/app/app.component.ts:100-103 | scrolling up zooms in one level unless at the maximum; scrolling down zooms out one level unless at the minimum; a zero delta keeps the level; the camera zoom moves the same way as the level |
| App.WheelClamps | src/app/app.component.ts:100-102 | a step beyond a bound lands on that bound: it is clamped, not reverted |
| App.AfterDraw | src/app/app.component.ts:41-66 | a frame clears the `update` flag and changes nothing else |
| App.DragRoundTrip | src/app/app.component.ts:72-88 | pressing at a point and moving to the same point leaves the camera offset unchanged |
| App.DragDisplacement | src/app/app.component.ts:74-88 | pressing at `p` and moving to `q` gives offset `offset0 + (q - p) / cameraZoom` |
| App.AfterMoves | src/app/app.component.ts:85-91 | a run of moves changes neither the zoom, nor the drag anchor, nor whether a drag is on |
| App.DragPathIndependent | src/app/app.component.ts:84-91 | after any run of moves in one drag, the offset depends only on the press point and the last pointer position |
| App.Step | src/app/app.component.ts:71-106 | every handler and every frame keeps the view valid |
| App.Run | src/app/app.component.ts:71-106 | any sequence of events keeps the view valid |
| App.CameraChangeRequestsRedraw | src/app/app.component.ts:84-106 | an event that moves or scales the camera leaves a redraw pending; a frame moves nothing |
| App.ReachableZoom | src/app/app.component.ts:97-106 | from the initial view, the zoom level stays in [-5, 5] and the camera zoom stays positive after any events |
| App.AppComponent.constructor | src/app/app.component.ts:17-23 | the fields start as the initial view |
| App.AppComponent.OnPointerDown | src/app/app.component.ts:71-76 | the fields become `AfterPointerDown` of the old fields |
| App.AppComponent.OnPointerUp | src/app/app.component.ts:78-82 | the fields become `AfterPointerUp` of the old fields |
| App.AppComponent.OnPointerMove | src/app/app.component.ts:84-91 | the fields become `AfterPointerMove` of the old fields |
| App.AppComponent.AdjustZoom | src/app/app.component.ts:97-106 | the fields become `AfterWheel` of the old fields |
| App.AppComponent.Draw | src/app/app.component.ts:41-69 | the fields become `AfterDraw` of the old fields |

## Left out

- Canvas drawing is replaced by emitted records. This covers `ctx.drawImage`, `translate`, `scale`, `clearRect`, `drawImageIcon`, `drawLocationText`, fonts, alpha and `clean`. These are browser APIs. `setCameraOffset`'s `ctx.translate` is not modelled.
- Asynchronous image loading is modelled by the explicit `MapService.CompleteLoad` method. An `onload` handler runs only for a tile that was requested, so the method requires a loading tile. Nothing runs concurrently.
- Failed image loads are not modelled. The source registers no `onerror`, so a tile whose fetch fails is never counted down, and a browser may then report it `complete` without running `onload`. The class invariant (counter equals loading handles) therefore holds only on the assumption that every requested image loads. After a failure the source's counter would exceed the number of loading handles, and the next pass would draw the broken tile.
- `requestAnimationFrame` is modelled by calling `AppComponent.Draw` once per frame.
- The `imgLoadingCount` `BehaviorSubject` is a plain integer field. Subscribers are not modelled.
- `MapService.DrawImageTiles` adds the loads it starts to the counter once, at the end of the pass. The source emits one `next` value per started load, and those intermediate notifications are not modelled.
- The drawing loops (`DrawRange`, `DrawColumn`, `DrawImageTile`) run on a value of the current layer, which is written back once. The push loops (`PushImages`, `PushRow`) do the same. The source mutates handles and arrays in place. The two agree because every handle is a fresh `new Image()` and no handle is shared between cells.
- `MapRender.MapService.DrawImageTiles` requires every visible cell to index a handle of the current level, stated on the rectangle's boundary by `Tiles.VisibleInGrid` and shown equivalent to the cell-by-cell form by `Tiles.VisibleInGridCells`. That is exactly the set of calls on which the source does not throw a `TypeError` from reading an uninitialised row, and the exception itself is not modelled. On a fully initialised level this always holds (`Tiles.CoveredCellsInGrid`). It also holds in the initial state, where nothing is visible (`Tiles.InitialCellsEmpty`).
- The helper methods are the loops of the source, one method per loop: `PushImages`, `PushRow`, `DrawVisibleTiles`, `DrawRange`, `DrawColumn`, `DrawLocationList`, `DrawZoomLocs` and `DrawItems`.
- IEEE rounding, `-0`, and `toFixed(1)` formatting of the cursor readout are not modelled. Numbers are exact reals, and division by zero follows JavaScript (`Numbers.Div`).
- `Math.pow` is only used with integer exponents, so it is modelled as `Numbers.Pow`. Zoom levels and zoom-band bounds are integers.
- `MouseEvent` and `WheelEvent` are reduced to the client coordinates and `deltaY`. `window.innerWidth` and `window.innerHeight` are parameters.
- `initInCanvas` pushes into `layers[size][i]` for `i < size`, which are the new rows only on an empty layer. `Tiles.Pushed` models that as written. Calling `initInCanvas` twice is not reachable in the application, and its effect is not examined further.
- `DEFAULT_ICONS` also names enum members that `ELocationType` does not define (`VILLAGE`, `CAMP`, `STRONGHOLD`, `HOUSE`). The model's icon table has the four existing types, all starting with an empty source.
- The `draw` body of `AppComponent` is modelled only through its `update` flag. That covers the canvas sizing, the transform, a test image and the console output. `initialPinchDistance` is only ever reset, and pinch zoom is not implemented in the source.
- The `AppComponent` shown uses its own camera fields and constants (`MAX_ZOOM`, `MIN_ZOOM`, `ZOOM_FACTOR = 1.2`). It does not call `MapService`, so the two are modelled as separate state.
- Out-of-range wheel steps are clamped, not reverted. The model follows the code (`App.WheelClamps`). From any reachable state the two readings give the same zoom level.
- `quests.ts` (quest paths), `app.module.ts` (Angular wiring), the Node scripts `download.js`, `join.js` and `image-split.js` (network and file I/O), and the data of the `LOCATIONS` table are not part of this model. The table is a parameter of `DrawLocations`.
