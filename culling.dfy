/**
 * Location culling of the map service (`drawLocations` in
 * `src/app/map.service.ts`): which items of the location table are drawn
 * for a zoom level and a viewport, in which order, where their icon and
 * label go, and which per-type icon sources get assigned on the way.
 */
module Culling {
  import opened Numbers
  import opened AppConst
  import opened Locations
  import opened Camera

  /** `bound || fallback`: an absent bound and a bound of 0, which is falsy, both give the fallback. */
  function OrDefault(bound: Option<int>, fallback: int): int {
    if bound.Some? && bound.value != 0 then bound.value else fallback
  }

  /** The zoom-band test of a group of items. */
  predicate InZoomBand(zl: ZoomLocation, zoomLevel: int) {
    OrDefault(zl.minZoom, MIN_ZOOM_LEVEL) <= zoomLevel <= OrDefault(zl.maxZoom, MAX_ZOOM_LEVEL)
  }

  /** The band test spelled out: a given nonzero bound is used, otherwise the global one. */
  lemma InZoomBandCases(zl: ZoomLocation, zoomLevel: int)
    ensures InZoomBand(zl, zoomLevel) <==>
      (if zl.minZoom.Some? && zl.minZoom.value != 0 then zl.minZoom.value else MIN_ZOOM_LEVEL) <= zoomLevel &&
      zoomLevel <= (if zl.maxZoom.Some? && zl.maxZoom.value != 0 then zl.maxZoom.value else MAX_ZOOM_LEVEL)
    ensures zl.minZoom.None? && zl.maxZoom.None? ==> (InZoomBand(zl, zoomLevel) <==> MIN_ZOOM_LEVEL <= zoomLevel <= MAX_ZOOM_LEVEL)
  {
  }

  /** The visible part of the world, `start = -offset / zoom` and `end = (viewport - offset) / zoom` per axis. */
  datatype ViewBox = ViewBox(startX: Num, startY: Num, endX: Num, endY: Num)

  function ViewBoxFor(offset: Loc, zoom: real, innerWidth: real, innerHeight: real): ViewBox {
    ViewBox(Div(0.0 - offset.x, zoom), Div(0.0 - offset.y, zoom),
            Div(innerWidth - offset.x, zoom), Div(innerHeight - offset.y, zoom))
  }

  /** `x > startX && x < endX && y > startY && y < endY`. */
  predicate InBox(box: ViewBox, x: real, y: real) {
    Lt(box.startX, Fin(x)) && Lt(Fin(x), box.endX) && Lt(box.startY, Fin(y)) && Lt(Fin(y), box.endY)
  }

  lemma DivBelow(x: real, num: real, zoom: real)
    requires zoom > 0.0
    ensures Lt(Div(num, zoom), Fin(x)) <==> num < x * zoom
    ensures Lt(Fin(x), Div(num, zoom)) <==> x * zoom < num
  {
    assert num / zoom * zoom == num;
    if num < x * zoom {
      assert num / zoom < x by { DivStrict(num, x * zoom, zoom); assert x * zoom / zoom == x; }
    }
    if x * zoom < num {
      assert x < num / zoom by { DivStrict(x * zoom, num, zoom); assert x * zoom / zoom == x; }
    }
    if num / zoom < x {
      MulStrict(num / zoom, x, zoom);
    }
    if x < num / zoom {
      MulStrict(x, num / zoom, zoom);
    }
  }

  lemma DivStrict(a: real, b: real, d: real)
    requires a < b && d > 0.0
    ensures a / d < b / d
  {
    assert b / d - a / d == (b - a) / d;
  }

  lemma MulStrict(a: real, b: real, d: real)
    requires a < b && d > 0.0
    ensures a * d < b * d
  {
    assert b * d - a * d == (b - a) * d;
  }

  /**
   * For a positive zoom the strict box test in world coordinates is exactly
   * the test that the point's screen position lies strictly inside the
   * viewport.
   */
  lemma InBoxOnScreen(offset: Loc, zoom: real, innerWidth: real, innerHeight: real, x: real, y: real)
    requires zoom > 0.0
    ensures InBox(ViewBoxFor(offset, zoom, innerWidth, innerHeight), x, y) <==>
      0.0 < WorldToScreen(x, offset.x, zoom) < innerWidth && 0.0 < WorldToScreen(y, offset.y, zoom) < innerHeight
  {
    DivBelow(x, 0.0 - offset.x, zoom);
    DivBelow(x, innerWidth - offset.x, zoom);
    DivBelow(y, 0.0 - offset.y, zoom);
    DivBelow(y, innerHeight - offset.y, zoom);
  }

  /** An emitted location: the icon type, the label text, the icon's and the label's top-left corner. */
  datatype DrawnLocation = DrawnLocation(icon: LocationType, name: string, iconAt: Loc, labelAt: Loc)

  /** Icon at `(x * zoom - 8, y * zoom - 8)`, label at `(x * zoom + 8, y * zoom - 8)`. */
  function DrawItem(t: LocationType, item: LocItem, zoom: real): (d: DrawnLocation)
    ensures d.labelAt.x - d.iconAt.x == 16.0 && d.labelAt.y == d.iconAt.y
    ensures d.iconAt.x + 8.0 == WorldToScreen(item.x, 0.0, zoom) && d.iconAt.y + 8.0 == WorldToScreen(item.y, 0.0, zoom)
  {
    DrawnLocation(t, item.name,
      Loc(item.x * zoom - 8.0, item.y * zoom - 8.0),
      Loc(item.x * zoom + 8.0, item.y * zoom - 8.0))
  }

  /** The items of one group inside the box, in table order. */
  function ItemsDrawn(t: LocationType, items: seq<LocItem>, box: ViewBox, zoom: real): seq<DrawnLocation> {
    if items == [] then []
    else
      var item := items[|items| - 1];
      ItemsDrawn(t, items[..|items| - 1], box, zoom)
        + (if InBox(box, item.x, item.y) then [DrawItem(t, item, zoom)] else [])
  }

  /** The items drawn from the groups of one location, in table order. */
  function ZoomLocsDrawn(t: LocationType, zls: seq<ZoomLocation>, zoomLevel: int, box: ViewBox, zoom: real): seq<DrawnLocation> {
    if zls == [] then []
    else
      var zl := zls[|zls| - 1];
      ZoomLocsDrawn(t, zls[..|zls| - 1], zoomLevel, box, zoom)
        + (if InZoomBand(zl, zoomLevel) then ItemsDrawn(t, zl.locItems, box, zoom) else [])
  }

  /** Everything `drawLocations` draws, in table order. */
  function LocationsDrawn(locs: seq<Location>, zoomLevel: int, box: ViewBox, zoom: real): seq<DrawnLocation> {
    if locs == [] then []
    else
      var loc := locs[|locs| - 1];
      LocationsDrawn(locs[..|locs| - 1], zoomLevel, box, zoom)
        + ZoomLocsDrawn(loc.locType, loc.zoomLocs, zoomLevel, box, zoom)
  }

  /** Item `k` of group `j` passes the band test of its group and the box test. */
  predicate GroupVisible(zls: seq<ZoomLocation>, zoomLevel: int, box: ViewBox, j: int, k: int) {
    0 <= j < |zls| && 0 <= k < |zls[j].locItems|
    && InZoomBand(zls[j], zoomLevel)
    && InBox(box, zls[j].locItems[k].x, zls[j].locItems[k].y)
  }

  /** Item `k` of group `j` of location `i` passes both tests. */
  predicate Visible(locs: seq<Location>, zoomLevel: int, box: ViewBox, i: int, j: int, k: int) {
    0 <= i < |locs| && GroupVisible(locs[i].zoomLocs, zoomLevel, box, j, k)
  }

  lemma {:induction false} ItemsDrawnMembers(t: LocationType, items: seq<LocItem>, box: ViewBox, zoom: real, d: DrawnLocation)
    ensures d in ItemsDrawn(t, items, box, zoom) <==>
      (exists k :: 0 <= k < |items| && InBox(box, items[k].x, items[k].y) && d == DrawItem(t, items[k], zoom))
  {
    if items != [] {
      var n := |items| - 1;
      ItemsDrawnMembers(t, items[..n], box, zoom, d);
      if d in ItemsDrawn(t, items[..n], box, zoom) {
        var k :| 0 <= k < n && InBox(box, items[..n][k].x, items[..n][k].y) && d == DrawItem(t, items[..n][k], zoom);
        assert items[k] == items[..n][k];
      }
      if exists k :: 0 <= k < |items| && InBox(box, items[k].x, items[k].y) && d == DrawItem(t, items[k], zoom) {
        var k :| 0 <= k < |items| && InBox(box, items[k].x, items[k].y) && d == DrawItem(t, items[k], zoom);
        if k < n {
          assert items[..n][k] == items[k];
        }
      }
    }
  }

  lemma {:induction false} ZoomLocsDrawnMembers(t: LocationType, zls: seq<ZoomLocation>, zoomLevel: int, box: ViewBox, zoom: real, d: DrawnLocation)
    ensures d in ZoomLocsDrawn(t, zls, zoomLevel, box, zoom) <==>
      (exists j, k :: GroupVisible(zls, zoomLevel, box, j, k) && d == DrawItem(t, zls[j].locItems[k], zoom))
  {
    if zls != [] {
      var n := |zls| - 1;
      ZoomLocsDrawnMembers(t, zls[..n], zoomLevel, box, zoom, d);
      EarlierGroups(t, zls, zoomLevel, box, zoom, d);
      LastGroup(t, zls, zoomLevel, box, zoom, d);
      if exists j, k :: GroupVisible(zls, zoomLevel, box, j, k) && d == DrawItem(t, zls[j].locItems[k], zoom) {
        var j, k :| GroupVisible(zls, zoomLevel, box, j, k) && d == DrawItem(t, zls[j].locItems[k], zoom);
        assert j < n || j == n;
      }
    }
  }

  /** The groups before the last one, seen through the prefix. */
  lemma EarlierGroups(t: LocationType, zls: seq<ZoomLocation>, zoomLevel: int, box: ViewBox, zoom: real, d: DrawnLocation)
    requires zls != []
    ensures var n := |zls| - 1;
      (exists j, k :: GroupVisible(zls[..n], zoomLevel, box, j, k) && d == DrawItem(t, zls[..n][j].locItems[k], zoom))
      <==> (exists j, k :: j < n && GroupVisible(zls, zoomLevel, box, j, k) && d == DrawItem(t, zls[j].locItems[k], zoom))
  {
    var n := |zls| - 1;
    if exists j, k :: GroupVisible(zls[..n], zoomLevel, box, j, k) && d == DrawItem(t, zls[..n][j].locItems[k], zoom) {
      var j, k :| GroupVisible(zls[..n], zoomLevel, box, j, k) && d == DrawItem(t, zls[..n][j].locItems[k], zoom);
      assert zls[j] == zls[..n][j];
      assert GroupVisible(zls, zoomLevel, box, j, k);
    }
    if exists j, k :: j < n && GroupVisible(zls, zoomLevel, box, j, k) && d == DrawItem(t, zls[j].locItems[k], zoom) {
      var j, k :| j < n && GroupVisible(zls, zoomLevel, box, j, k) && d == DrawItem(t, zls[j].locItems[k], zoom);
      assert zls[..n][j] == zls[j];
      assert GroupVisible(zls[..n], zoomLevel, box, j, k);
    }
  }

  /** The last group contributes its items inside the box when its band admits the zoom level. */
  lemma LastGroup(t: LocationType, zls: seq<ZoomLocation>, zoomLevel: int, box: ViewBox, zoom: real, d: DrawnLocation)
    requires zls != []
    ensures var n := |zls| - 1;
      d in (if InZoomBand(zls[n], zoomLevel) then ItemsDrawn(t, zls[n].locItems, box, zoom) else [])
      <==> (exists k :: GroupVisible(zls, zoomLevel, box, n, k) && d == DrawItem(t, zls[n].locItems[k], zoom))
  {
    var n := |zls| - 1;
    ItemsDrawnMembers(t, zls[n].locItems, box, zoom, d);
  }

  /**
   * An item is drawn iff its group's zoom band admits the zoom level and the
   * item lies strictly inside the view box; the record is the item's.
   */
  lemma {:induction false} LocationsDrawnMembers(locs: seq<Location>, zoomLevel: int, box: ViewBox, zoom: real, d: DrawnLocation)
    ensures d in LocationsDrawn(locs, zoomLevel, box, zoom) <==>
      (exists i, j, k :: Visible(locs, zoomLevel, box, i, j, k)
        && d == DrawItem(locs[i].locType, locs[i].zoomLocs[j].locItems[k], zoom))
  {
    if locs != [] {
      var n := |locs| - 1;
      LocationsDrawnMembers(locs[..n], zoomLevel, box, zoom, d);
      LastLocationMembers(locs, zoomLevel, box, zoom, d);
      if d in LocationsDrawn(locs[..n], zoomLevel, box, zoom) {
        var i, j, k :| Visible(locs[..n], zoomLevel, box, i, j, k)
          && d == DrawItem(locs[..n][i].locType, locs[..n][i].zoomLocs[j].locItems[k], zoom);
        assert locs[i] == locs[..n][i];
        assert Visible(locs, zoomLevel, box, i, j, k);
      }
      if exists i, j, k :: (Visible(locs, zoomLevel, box, i, j, k)
        && d == DrawItem(locs[i].locType, locs[i].zoomLocs[j].locItems[k], zoom))
      {
        var i, j, k :| Visible(locs, zoomLevel, box, i, j, k)
          && d == DrawItem(locs[i].locType, locs[i].zoomLocs[j].locItems[k], zoom);
        if i < n {
          assert locs[..n][i] == locs[i];
          assert Visible(locs[..n], zoomLevel, box, i, j, k);
        }
      }
    }
  }

  lemma LastLocationMembers(locs: seq<Location>, zoomLevel: int, box: ViewBox, zoom: real, d: DrawnLocation)
    requires locs != []
    ensures var n := |locs| - 1;
      d in ZoomLocsDrawn(locs[n].locType, locs[n].zoomLocs, zoomLevel, box, zoom) <==>
      (exists j, k :: Visible(locs, zoomLevel, box, n, j, k) && d == DrawItem(locs[n].locType, locs[n].zoomLocs[j].locItems[k], zoom))
  {
    var n := |locs| - 1;
    ZoomLocsDrawnMembers(locs[n].locType, locs[n].zoomLocs, zoomLevel, box, zoom, d);
  }

  /** Table order: the items of an earlier part of the table come out before those of a later part. */
  lemma {:induction false} LocationsDrawnConcat(a: seq<Location>, b: seq<Location>, zoomLevel: int, box: ViewBox, zoom: real)
    ensures LocationsDrawn(a + b, zoomLevel, box, zoom) == LocationsDrawn(a, zoomLevel, box, zoom) + LocationsDrawn(b, zoomLevel, box, zoom)
  {
    if b == [] {
      assert a + b == a;
    } else {
      var n := |b| - 1;
      assert (a + b)[..|a + b| - 1] == a + b[..n];
      LocationsDrawnConcat(a, b[..n], zoomLevel, box, zoom);
    }
  }

  // ---------------------------------------------------------------------------
  // Icons

  /** `Icons`: the `src` of the icon image of each location type, "" until one is assigned. */
  datatype Icons = Icons(city: string, town: string, fort: string, telvanniTower: string)
  {
    /** `icons[type].src`. */
    function Get(t: LocationType): string {
      match t
      case CITY => city
      case TOWN => town
      case FORT => fort
      case TELVANNI_TOWER => telvanniTower
    }

    /** `icons[type].src = src`. */
    function Set(t: LocationType, src: string): (r: Icons)
      ensures r.Get(t) == src
    {
      match t
      case CITY => this.(city := src)
      case TOWN => this.(town := src)
      case FORT => this.(fort := src)
      case TELVANNI_TOWER => this.(telvanniTower := src)
    }
  }

  /** `DEFAULT_ICONS`: one image per location type, none with a source. */
  const DEFAULT_ICONS: Icons := Icons("", "", "", "")

  /** `if (!icon.src) icon.src = src`. */
  function SetIfEmpty(icons: Icons, t: LocationType, src: string): Icons {
    if icons.Get(t) == "" then icons.Set(t, src) else icons
  }

  /** Assigning an icon's source only when it is empty does nothing the second time. */
  lemma SetIfEmptyTwice(icons: Icons, t: LocationType, src: string)
    ensures SetIfEmpty(SetIfEmpty(icons, t, src), t, src) == SetIfEmpty(icons, t, src)
  {
  }

  /** The icon table after `drawLocations`: a location with a drawn item sets its type's icon if still empty. */
  function IconsAfter(icons: Icons, locs: seq<Location>, zoomLevel: int, box: ViewBox, zoom: real): Icons {
    if locs == [] then icons
    else
      var loc := locs[|locs| - 1];
      var prev := IconsAfter(icons, locs[..|locs| - 1], zoomLevel, box, zoom);
      if ZoomLocsDrawn(loc.locType, loc.zoomLocs, zoomLevel, box, zoom) != [] then SetIfEmpty(prev, loc.locType, loc.src) else prev
  }

  /** Some location of type `t` has a drawn item. */
  predicate TypeDrawn(locs: seq<Location>, zoomLevel: int, box: ViewBox, zoom: real, t: LocationType, i: int) {
    0 <= i < |locs| && locs[i].locType == t && ZoomLocsDrawn(t, locs[i].zoomLocs, zoomLevel, box, zoom) != []
  }

  /**
   * An icon that already has a source keeps it; an icon that changes was
   * empty and takes the source of a location of its type with a drawn item.
   */
  lemma {:induction false} IconsAssignedOnlyWhenEmpty(icons: Icons, locs: seq<Location>, zoomLevel: int, box: ViewBox, zoom: real, t: LocationType)
    ensures var r := IconsAfter(icons, locs, zoomLevel, box, zoom);
      (icons.Get(t) != "" ==> r.Get(t) == icons.Get(t))
      && (r.Get(t) != icons.Get(t) ==> icons.Get(t) == "" && exists i :: TypeDrawn(locs, zoomLevel, box, zoom, t, i) && r.Get(t) == locs[i].src)
  {
    if locs != [] {
      var n := |locs| - 1;
      IconsAssignedOnlyWhenEmpty(icons, locs[..n], zoomLevel, box, zoom, t);
      var prev := IconsAfter(icons, locs[..n], zoomLevel, box, zoom);
      var r := IconsAfter(icons, locs, zoomLevel, box, zoom);
      if r.Get(t) != prev.Get(t) {
        assert TypeDrawn(locs, zoomLevel, box, zoom, t, n);
      } else if r.Get(t) != icons.Get(t) {
        var i :| TypeDrawn(locs[..n], zoomLevel, box, zoom, t, i) && prev.Get(t) == locs[..n][i].src;
        assert locs[..n][i] == locs[i];
        assert TypeDrawn(locs, zoomLevel, box, zoom, t, i);
      }
    }
  }

  /** A type with a drawn item ends up with a source, provided its location names one. */
  lemma {:induction false} IconsAssignedWhenDrawn(icons: Icons, locs: seq<Location>, zoomLevel: int, box: ViewBox, zoom: real, t: LocationType, i: int)
    requires TypeDrawn(locs, zoomLevel, box, zoom, t, i) && locs[i].src != ""
    ensures IconsAfter(icons, locs, zoomLevel, box, zoom).Get(t) != ""
  {
    var n := |locs| - 1;
    var prev := IconsAfter(icons, locs[..n], zoomLevel, box, zoom);
    if i < n {
      assert locs[..n][i] == locs[i];
      IconsAssignedWhenDrawn(icons, locs[..n], zoomLevel, box, zoom, t, i);
      IconsAssignedOnlyWhenEmpty(prev, [locs[n]], zoomLevel, box, zoom, t);
      assert [locs[n]][..0] == [];
      assert IconsAfter(prev, [locs[n]], zoomLevel, box, zoom) == IconsAfter(icons, locs, zoomLevel, box, zoom);
    }
  }
}
