/** Constants and small shared types of the map renderer (`src/app/app.const.ts`). */
module AppConst {

  datatype Option<+T> = None | Some(value: T)

  /** A point or offset in pixels (`ILoc`). */
  datatype Loc = Loc(x: real, y: real)

  const ZOOM_LEVEL_OFFSET: int := 4
  const MAX_ZOOM_LEVEL: int := 10
  const MIN_ZOOM_LEVEL: int := 1
  const ZOOM_FACTOR: real := 1.5

  const DEFAULT_OFFSET: Loc := Loc(0.0, -120.0)

  /** `ELayerSize`: the number of tiles per axis of one level of the tile pyramid. */
  type LayerSize = n: int | n == 2 || n == 4 || n == 8 || n == 16 witness 2

  const LAYER_SIZE_2: LayerSize := 2
  const LAYER_SIZE_4: LayerSize := 4
  const LAYER_SIZE_8: LayerSize := 8
  const LAYER_SIZE_16: LayerSize := 16

  /** The numeric members of `ELayerSize` in declaration order, as `Object.values` lists them. */
  const LAYER_SIZES: seq<LayerSize> := [LAYER_SIZE_2, LAYER_SIZE_4, LAYER_SIZE_8, LAYER_SIZE_16]

  /** Every pyramid level is listed. */
  lemma LayerSizeListed(s: LayerSize)
    ensures exists k :: 0 <= k < |LAYER_SIZES| && LAYER_SIZES[k] == s
  {
    if s == 2 { assert LAYER_SIZES[0] == s; }
    else if s == 4 { assert LAYER_SIZES[1] == s; }
    else if s == 8 { assert LAYER_SIZES[2] == s; }
    else { assert LAYER_SIZES[3] == s; }
  }
}
