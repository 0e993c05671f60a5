/**
 * Camera arithmetic of the map service (`src/app/map.service.ts`): choice of
 * the pyramid level for a zoom level, interpolation of offset and zoom
 * between a previous and a next camera state, and the maps between world and
 * screen coordinates.
 */
module Camera {
  import opened Numbers
  import opened AppConst

  /** `setLayerSize`: a step function from zoom level to pyramid level. */
  function LayerSizeFor(zoomLevel: int): (size: LayerSize)
    ensures size == 16 <==> zoomLevel > 8
    ensures size == 8 <==> 6 < zoomLevel <= 8
    ensures size == 4 <==> 3 < zoomLevel <= 6
    ensures size == 2 <==> zoomLevel <= 3
  {
    if zoomLevel > 8 then LAYER_SIZE_16
    else if zoomLevel > 6 then LAYER_SIZE_8
    else if zoomLevel > 3 then LAYER_SIZE_4
    else LAYER_SIZE_2
  }

  /** A higher zoom level never selects a coarser pyramid level. */
  lemma LayerSizeMonotone(a: int, b: int)
    requires a <= b
    ensures LayerSizeFor(a) <= LayerSizeFor(b)
  {
  }

  /** Linear interpolation `prev + (next - prev) * inc`. */
  function Lerp(prev: real, next: real, inc: real): real {
    prev + (next - prev) * inc
  }

  /** The interpolation starts at `prev`, ends at `next`, and stays between them on the way. */
  lemma LerpBetween(prev: real, next: real, inc: real)
    ensures Lerp(prev, next, 0.0) == prev && Lerp(prev, next, 1.0) == next
    ensures 0.0 <= inc <= 1.0 && prev <= next ==> prev <= Lerp(prev, next, inc) <= next
    ensures 0.0 <= inc <= 1.0 && next <= prev ==> next <= Lerp(prev, next, inc) <= prev
  {
    var d := next - prev;
    assert Lerp(prev, next, inc) == prev + d * inc;
    assert d * 0.0 == 0.0 && d * 1.0 == d;
    if 0.0 <= inc <= 1.0 {
      MulBetween(d, inc);
    }
  }

  lemma MulBetween(d: real, t: real)
    requires 0.0 <= t <= 1.0
    ensures d >= 0.0 ==> 0.0 <= d * t <= d
    ensures d <= 0.0 ==> d <= d * t <= 0.0
  {
    assert d * t == d - d * (1.0 - t);
  }

  /** `setCameraOffset`: the offset interpolated coordinate by coordinate. */
  function InterpolatedOffset(prev: Loc, next: Loc, inc: real): (o: Loc)
    ensures inc == 0.0 ==> o == prev
    ensures inc == 1.0 ==> o == next
    ensures 0.0 <= inc <= 1.0 ==>
      (prev.x <= o.x <= next.x || next.x <= o.x <= prev.x) &&
      (prev.y <= o.y <= next.y || next.y <= o.y <= prev.y)
  {
    LerpBetween(prev.x, next.x, inc);
    LerpBetween(prev.y, next.y, inc);
    Loc(Lerp(prev.x, next.x, inc), Lerp(prev.y, next.y, inc))
  }

  /** The world scale `2 * ZOOM_FACTOR^(zoomLevel - ZOOM_LEVEL_OFFSET)` of a zoom level. */
  function WorldScale(zoomLevel: int): (s: real)
    ensures s > 0.0
  {
    2.0 * Pow(ZOOM_FACTOR, zoomLevel - ZOOM_LEVEL_OFFSET)
  }

  /** The camera zoom of a zoom level drawn with tiles of pyramid level `layerSize`. */
  function CameraZoomFor(zoomLevel: int, layerSize: LayerSize): (z: real)
    ensures z > 0.0
  {
    WorldScale(zoomLevel) / layerSize as real
  }

  /**
   * The camera zoom is the world scale divided by the number of tiles per
   * axis, so that `cameraZoom * layerSize`, the scale used for world
   * coordinates, depends on the zoom level only.
   */
  lemma CameraZoomScale(zoomLevel: int, a: LayerSize, b: LayerSize)
    ensures CameraZoomFor(zoomLevel, a) * a as real == WorldScale(zoomLevel)
    ensures CameraZoomFor(zoomLevel, a) * a as real == CameraZoomFor(zoomLevel, b) * b as real
  {
    var s := WorldScale(zoomLevel);
    assert s / a as real * a as real == s;
    assert s / b as real * b as real == s;
  }

  /** One zoom level up multiplies the camera zoom by `ZOOM_FACTOR`. */
  lemma CameraZoomStep(zoomLevel: int, layerSize: LayerSize)
    ensures CameraZoomFor(zoomLevel + 1, layerSize) == ZOOM_FACTOR * CameraZoomFor(zoomLevel, layerSize)
  {
    PowSucc(ZOOM_FACTOR, zoomLevel - ZOOM_LEVEL_OFFSET);
  }

  /** `setCameraZoom`: the zoom interpolated between the factors of two zoom levels at one pyramid level. */
  function InterpolatedZoom(prevZoomLevel: int, nextZoomLevel: int, layerSize: LayerSize, inc: real): (z: real)
    ensures 0.0 <= inc <= 1.0 ==> z > 0.0
    ensures 0.0 <= inc <= 1.0 ==>
      var p, n := CameraZoomFor(prevZoomLevel, layerSize), CameraZoomFor(nextZoomLevel, layerSize);
      (p <= z <= n || n <= z <= p)
    ensures inc == 0.0 ==> z == CameraZoomFor(prevZoomLevel, layerSize)
    ensures inc == 1.0 ==> z == CameraZoomFor(nextZoomLevel, layerSize)
  {
    var p, n := CameraZoomFor(prevZoomLevel, layerSize), CameraZoomFor(nextZoomLevel, layerSize);
    LerpBetween(p, n, inc);
    Lerp(p, n, inc)
  }

  /** World to screen along one axis, as the icons and labels are placed: `w * zoom + offset`. */
  function WorldToScreen(w: real, offset: real, zoom: real): real {
    w * zoom + offset
  }

  /** Screen to world along one axis, as the cursor readout computes it: `(client - offset) / zoom`. */
  function ScreenToWorld(client: real, offset: real, zoom: real): Num {
    Div(client - offset, zoom)
  }

  /** For a nonzero zoom the two maps are mutually inverse. */
  lemma ScreenWorldInverse(w: real, client: real, offset: real, zoom: real)
    requires zoom != 0.0
    ensures ScreenToWorld(WorldToScreen(w, offset, zoom), offset, zoom) == Fin(w)
    ensures ScreenToWorld(client, offset, zoom).Fin?
    ensures WorldToScreen(ScreenToWorld(client, offset, zoom).r, offset, zoom) == client
  {
    assert (w * zoom + offset - offset) / zoom == w;
    assert ScreenToWorld(client, offset, zoom) == Fin((client - offset) / zoom);
    var w2 := (client - offset) / zoom;
    assert w2 * zoom == client - offset;
    assert WorldToScreen(w2, offset, zoom) == w2 * zoom + offset;
  }

  /** With zoom 0 the cursor readout is not a number: an infinity, or NaN on the offset itself. */
  lemma ScreenToWorldAtZeroZoom(client: real, offset: real)
    ensures !ScreenToWorld(client, offset, 0.0).Fin?
    ensures ScreenToWorld(client, offset, 0.0).NaN? <==> client == offset
  {
  }
}
