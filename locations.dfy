/**
 * Shapes of the static location table (`src/app/locations.ts`). The table
 * itself is input data and is passed to the renderer as a parameter.
 */
module Locations {
  import opened AppConst

  /** `ELocationType`. */
  datatype LocationType = CITY | TOWN | FORT | TELVANNI_TOWER

  /** `ILocItems`: one named point of interest, in world pixels of the full map. */
  datatype LocItem = LocItem(x: real, y: real, name: string)

  /** `IZoomLocation`: items sharing one zoom band; an absent bound is `None`. */
  datatype ZoomLocation = ZoomLocation(locItems: seq<LocItem>, minZoom: Option<int>, maxZoom: Option<int>)

  /** `ILocation`: all items of one type, with the icon they share. */
  datatype Location = Location(locType: LocationType, src: string, zoomLocs: seq<ZoomLocation>)
}
