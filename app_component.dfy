/**
 * The pan/zoom input handling of `AppComponent` (`src/app/app.component.ts`):
 * pointer down, move and up drag the camera, the wheel steps the zoom level
 * within fixed bounds, and the `update` flag tells the next animation frame
 * whether to redraw. The component's fields are gathered in a `View` value;
 * every handler is a function on it, and the class applies them to its
 * fields.
 */
module App {
  import opened Numbers
  import C = AppConst

  const MAX_ZOOM: int := 5
  const MIN_ZOOM: int := -5
  const ZOOM_FACTOR: real := 1.2

  /** The component fields the handlers read and write. */
  datatype View = View(
    cameraOffset: C.Loc,
    cameraZoom: real,
    zoomLevel: int,
    isDragging: bool,
    dragStart: C.Loc,
    initialPinchDistance: C.Option<real>,
    update: bool)

  /** The zoom level is within its bounds and the camera zoom is `ZOOM_FACTOR` to its power. */
  predicate ValidView(v: View) {
    MIN_ZOOM <= v.zoomLevel <= MAX_ZOOM && v.cameraZoom == Pow(ZOOM_FACTOR, v.zoomLevel)
  }

  /** The camera zoom is a positive power, so every division by it is defined. */
  lemma ValidZoomPositive(v: View)
    requires ValidView(v)
    ensures v.cameraZoom > 0.0
  {
  }

  /** The field initialisers: centred on the window, zoom level 0, not dragging, a redraw pending. */
  function InitialView(innerWidth: real, innerHeight: real): (v: View)
    ensures ValidView(v) && !v.isDragging && v.update
    ensures v.cameraOffset == C.Loc(innerWidth / 2.0, innerHeight / 2.0)
  {
    View(C.Loc(innerWidth / 2.0, innerHeight / 2.0), 1.0, 0, false, C.Loc(0.0, 0.0), C.None, true)
  }

  /** `onPointerDown`: dragging starts, anchored at the pointer in world units minus the offset. */
  function AfterPointerDown(v: View, client: C.Loc): (r: View)
    requires v.cameraZoom != 0.0
    ensures r.isDragging
    ensures r.cameraOffset == v.cameraOffset && r.cameraZoom == v.cameraZoom && r.zoomLevel == v.zoomLevel
    ensures r.update == v.update && r.initialPinchDistance == v.initialPinchDistance
  {
    v.(isDragging := true,
       dragStart := C.Loc(client.x / v.cameraZoom - v.cameraOffset.x, client.y / v.cameraZoom - v.cameraOffset.y))
  }

  /** `onPointerUp`: dragging stops and the pinch distance is forgotten; nothing else changes. */
  function AfterPointerUp(v: View): (r: View)
    ensures !r.isDragging && r.initialPinchDistance == C.None
    ensures r.cameraOffset == v.cameraOffset && r.cameraZoom == v.cameraZoom && r.zoomLevel == v.zoomLevel
    ensures r.dragStart == v.dragStart && r.update == v.update
  {
    v.(isDragging := false, initialPinchDistance := C.None)
  }

  /** `onPointerMove`: while dragging, the offset follows the pointer and a redraw is requested. */
  function AfterPointerMove(v: View, client: C.Loc): (r: View)
    requires v.cameraZoom != 0.0
    ensures !v.isDragging ==> r == v
    ensures v.isDragging ==> r.update && r.isDragging && r.cameraZoom == v.cameraZoom && r.zoomLevel == v.zoomLevel
    ensures r.dragStart == v.dragStart && r.initialPinchDistance == v.initialPinchDistance
  {
    if v.isDragging then
      v.(cameraOffset := C.Loc(client.x / v.cameraZoom - v.dragStart.x, client.y / v.cameraZoom - v.dragStart.y),
         update := true)
    else v
  }

  /** `zoomLevel - Math.sign(deltaY)`, then `Math.min` with the upper and `Math.max` with the lower bound. */
  function SteppedZoomLevel(zoomLevel: int, deltaY: real): int {
    var stepped := zoomLevel - Sign(deltaY);
    var capped := if stepped <= MAX_ZOOM then stepped else MAX_ZOOM;
    if capped >= MIN_ZOOM then capped else MIN_ZOOM
  }

  /** `adjustZoom`: unless dragging, one step of zoom level, clamped, and the camera zoom recomputed. */
  function AfterWheel(v: View, deltaY: real): (r: View)
    ensures v.isDragging ==> r == v
    ensures !v.isDragging ==> ValidView(r) && r.update
    ensures r.cameraOffset == v.cameraOffset && r.isDragging == v.isDragging && r.dragStart == v.dragStart
    ensures r.initialPinchDistance == v.initialPinchDistance
    ensures MIN_ZOOM <= v.zoomLevel <= MAX_ZOOM ==> v.zoomLevel - 1 <= r.zoomLevel <= v.zoomLevel + 1
  {
    if !v.isDragging then
      var zoomLevel := SteppedZoomLevel(v.zoomLevel, deltaY);
      v.(zoomLevel := zoomLevel, cameraZoom := Pow(ZOOM_FACTOR, zoomLevel), update := true)
    else v
  }

  /**
   * The direction of a wheel step: scrolling up zooms in and scrolling down
   * zooms out, one level at a time, stopping at the bounds; a zero delta
   * keeps the level. Zooming in or out moves the camera zoom the same way.
   */
  lemma WheelDirection(v: View, deltaY: real)
    requires ValidView(v) && !v.isDragging
    ensures var r := AfterWheel(v, deltaY);
      (deltaY < 0.0 ==> r.zoomLevel == if v.zoomLevel < MAX_ZOOM then v.zoomLevel + 1 else MAX_ZOOM)
      && (deltaY > 0.0 ==> r.zoomLevel == if v.zoomLevel > MIN_ZOOM then v.zoomLevel - 1 else MIN_ZOOM)
      && (deltaY == 0.0 ==> r.zoomLevel == v.zoomLevel && r.cameraZoom == v.cameraZoom)
      && (r.zoomLevel > v.zoomLevel ==> r.cameraZoom > v.cameraZoom)
      && (r.zoomLevel < v.zoomLevel ==> r.cameraZoom < v.cameraZoom)
  {
    var r := AfterWheel(v, deltaY);
    if r.zoomLevel > v.zoomLevel {
      PowStrictlyIncreasing(ZOOM_FACTOR, v.zoomLevel, r.zoomLevel);
    } else if r.zoomLevel < v.zoomLevel {
      PowStrictlyIncreasing(ZOOM_FACTOR, r.zoomLevel, v.zoomLevel);
    }
  }

  /** From out-of-bounds levels a wheel step lands on the nearer bound: the level is clamped, not reverted. */
  lemma WheelClamps(v: View, deltaY: real)
    requires !v.isDragging
    ensures v.zoomLevel - Sign(deltaY) > MAX_ZOOM ==> AfterWheel(v, deltaY).zoomLevel == MAX_ZOOM
    ensures v.zoomLevel - Sign(deltaY) < MIN_ZOOM ==> AfterWheel(v, deltaY).zoomLevel == MIN_ZOOM
  {
  }

  /** A frame of `draw`: a pending redraw is done and the flag is cleared. */
  function AfterDraw(v: View): (r: View)
    ensures !r.update
    ensures r.(update := v.update) == v
  {
    v.(update := false)
  }

  /** Pressing at a point and moving to the same point leaves the camera where it was. */
  lemma DragRoundTrip(v: View, p: C.Loc)
    requires v.cameraZoom != 0.0
    ensures AfterPointerMove(AfterPointerDown(v, p), p).cameraOffset == v.cameraOffset
  {
    var z := v.cameraZoom;
    assert p.x / z - (p.x / z - v.cameraOffset.x) == v.cameraOffset.x;
    assert p.y / z - (p.y / z - v.cameraOffset.y) == v.cameraOffset.y;
  }

  /** Pressing at `p` and moving to `q` shifts the camera by the pointer's displacement in world units. */
  lemma DragDisplacement(v: View, p: C.Loc, q: C.Loc)
    requires v.cameraZoom != 0.0
    ensures var z := v.cameraZoom;
      AfterPointerMove(AfterPointerDown(v, p), q).cameraOffset
        == C.Loc(v.cameraOffset.x + (q.x - p.x) / z, v.cameraOffset.y + (q.y - p.y) / z)
  {
    var z := v.cameraZoom;
    DivSub(q.x, p.x, z);
    DivSub(q.y, p.y, z);
  }

  /** Division by a nonzero number distributes over a difference. */
  lemma DivSub(a: real, b: real, z: real)
    requires z != 0.0
    ensures a / z - b / z == (a - b) / z
  {
    assert (a / z) * z == a && (b / z) * z == b;
    assert (a / z - b / z) * z == a - b;
  }

  /** The view after a run of pointer moves: they change neither the zoom, nor the drag anchor, nor whether a drag is on. */
  function AfterMoves(v: View, moves: seq<C.Loc>): (r: View)
    requires v.cameraZoom != 0.0
    ensures r.cameraZoom == v.cameraZoom && r.dragStart == v.dragStart && r.isDragging == v.isDragging
  {
    if moves == [] then v
    else AfterPointerMove(AfterMoves(v, moves[..|moves| - 1]), moves[|moves| - 1])
  }

  /**
   * During one drag the intermediate moves do not accumulate: after any
   * run of moves the camera is displaced by the last pointer position
   * against the press position only.
   */
  lemma {:induction false} DragPathIndependent(v: View, p: C.Loc, moves: seq<C.Loc>)
    requires v.cameraZoom != 0.0 && moves != []
    ensures var z, last := v.cameraZoom, moves[|moves| - 1];
      AfterMoves(AfterPointerDown(v, p), moves).cameraOffset
        == C.Loc(v.cameraOffset.x + (last.x - p.x) / z, v.cameraOffset.y + (last.y - p.y) / z)
  {
    var d := AfterPointerDown(v, p);
    var init := moves[..|moves| - 1];
    var w := AfterMoves(d, init);
    assert AfterMoves(d, moves) == AfterPointerMove(w, moves[|moves| - 1]);
    DragDisplacement(v, p, moves[|moves| - 1]);
    assert AfterPointerMove(w, moves[|moves| - 1]).cameraOffset == AfterPointerMove(d, moves[|moves| - 1]).cameraOffset;
  }

  /** The inputs the component listens to, and the animation frame. */
  datatype Event = PointerDown(client: C.Loc) | PointerUp | PointerMove(client: C.Loc) | Wheel(deltaY: real) | Frame

  function Step(v: View, e: Event): (r: View)
    requires ValidView(v)
    ensures ValidView(r)
  {
    match e
    case PointerDown(client) => AfterPointerDown(v, client)
    case PointerUp => AfterPointerUp(v)
    case PointerMove(client) => AfterPointerMove(v, client)
    case Wheel(deltaY) => AfterWheel(v, deltaY)
    case Frame => AfterDraw(v)
  }

  /** The view after a sequence of events. */
  function Run(v: View, events: seq<Event>): (r: View)
    requires ValidView(v)
    ensures ValidView(r)
    decreases |events|
  {
    if events == [] then v else Run(Step(v, events[0]), events[1..])
  }

  /**
   * Every event that moves or scales the camera leaves a redraw pending, so
   * the next frame draws the new camera; the frame itself moves nothing.
   */
  lemma CameraChangeRequestsRedraw(v: View, e: Event)
    requires ValidView(v)
    ensures var r := Step(v, e);
      (r.cameraOffset != v.cameraOffset || r.cameraZoom != v.cameraZoom) ==> r.update
    ensures e == Frame ==> Step(v, e).cameraOffset == v.cameraOffset && Step(v, e).cameraZoom == v.cameraZoom
  {
  }

  /** Starting from the initial view, the zoom level stays within bounds and the camera zoom stays positive. */
  lemma ReachableZoom(innerWidth: real, innerHeight: real, events: seq<Event>)
    ensures var r := Run(InitialView(innerWidth, innerHeight), events);
      MIN_ZOOM <= r.zoomLevel <= MAX_ZOOM && r.cameraZoom > 0.0
  {
  }

  /** `AppComponent`, restricted to the fields the input handlers use. */
  class AppComponent {
    var cameraOffset: C.Loc
    var cameraZoom: real
    var zoomLevel: int
    var isDragging: bool
    var dragStart: C.Loc
    var initialPinchDistance: C.Option<real>
    var update: bool

    function State(): View
      reads this
    {
      View(cameraOffset, cameraZoom, zoomLevel, isDragging, dragStart, initialPinchDistance, update)
    }

    predicate Valid()
      reads this
    {
      ValidView(State())
    }

    constructor(innerWidth: real, innerHeight: real)
      ensures State() == InitialView(innerWidth, innerHeight)
      ensures Valid()
    {
      cameraOffset := C.Loc(innerWidth / 2.0, innerHeight / 2.0);
      cameraZoom := 1.0;
      zoomLevel := 0;
      isDragging := false;
      dragStart := C.Loc(0.0, 0.0);
      initialPinchDistance := C.None;
      update := true;
    }

    method OnPointerDown(client: C.Loc)
      requires Valid()
      modifies this
      ensures Valid()
      ensures State() == AfterPointerDown(old(State()), client)
    {
      isDragging := true;
      dragStart := C.Loc(client.x / cameraZoom - cameraOffset.x, dragStart.y);
      dragStart := dragStart.(y := client.y / cameraZoom - cameraOffset.y);
    }

    method OnPointerUp()
      requires Valid()
      modifies this
      ensures Valid()
      ensures State() == AfterPointerUp(old(State()))
    {
      isDragging := false;
      initialPinchDistance := C.None;
    }

    method OnPointerMove(client: C.Loc)
      requires Valid()
      modifies this
      ensures Valid()
      ensures State() == AfterPointerMove(old(State()), client)
    {
      if isDragging {
        cameraOffset := cameraOffset.(x := client.x / cameraZoom - dragStart.x);
        cameraOffset := cameraOffset.(y := client.y / cameraZoom - dragStart.y);
        update := true;
      }
    }

    method AdjustZoom(deltaY: real)
      requires Valid()
      modifies this
      ensures Valid()
      ensures State() == AfterWheel(old(State()), deltaY)
    {
      if !isDragging {
        zoomLevel := zoomLevel - Sign(deltaY);
        zoomLevel := if zoomLevel <= MAX_ZOOM then zoomLevel else MAX_ZOOM;
        zoomLevel := if zoomLevel >= MIN_ZOOM then zoomLevel else MIN_ZOOM;
        cameraZoom := Pow(ZOOM_FACTOR, zoomLevel);
        update := true;
      }
    }

    /** The flag handling of `draw`: a pending redraw is done and the flag cleared. */
    method Draw()
      requires Valid()
      modifies this
      ensures Valid()
      ensures State() == AfterDraw(old(State()))
    {
      if update {
        update := false;
      }
    }
  }
}
