/**
 * The single-overlay try-on view: a background (camera frame or uploaded
 * photo) with one tattoo image on top that the pointer drags and the wheel
 * zooms.
 *
 * The pointer handlers are specified by pure transitions over
 * `PointerState`; the class `TryOnView` holds the component's state in
 * fields and its handler methods are proved to follow those transitions.
 */
module LiveTryOn {
  import opened Wrappers
  import opened Geometry

  /** Natural size, in pixels, of a decoded tattoo image. */
  datatype ImageSize = ImageSize(width: nat, height: nat)

  datatype Mode = CameraMode | PhotoMode

  /** What is drawn under the tattoo on one frame. */
  datatype Background = CameraFrame | UploadedPhoto | NoBackground

  datatype Rect = Rect(x: real, y: real, width: real, height: real)

  /** Everything one call of the redraw callback draws. */
  datatype Frame = Frame(background: Background, overlay: Option<Rect>)

  const InitialPos: Point := Point(250.0, 150.0)
  const InitialScale: real := 0.6
  const ScaleStep: real := 0.05
  const MinScale: real := 0.2
  const MaxScale: real := 2.0

  predicate InScaleRange(scale: real) {
    MinScale <= scale <= MaxScale
  }

  function Min(a: real, b: real): real { if a <= b then a else b }

  function Max(a: real, b: real): real { if a >= b then a else b }

  /** `Math.min(Math.max(x, 0.2), 2)`: the zoom clamp. */
  function Clamp(x: real): (r: real)
    ensures InScaleRange(r)
    ensures InScaleRange(x) ==> r == x
    ensures x < MinScale ==> r == MinScale
    ensures x > MaxScale ==> r == MaxScale
  {
    Min(Max(x, MinScale), MaxScale)
  }

  /** Mouse position relative to the canvas: client coordinates minus the
      canvas's bounding-rectangle origin. */
  function ToCanvas(client: Point, canvasOrigin: Point): (p: Point)
    ensures Add(p, canvasOrigin) == client
  {
    Sub(client, canvasOrigin)
  }

  // ---------------------------------------------------------------------
  // What a frame draws

  /** The background choice of the redraw callback: the video only in camera
      mode once it has enough data, the photo only in photo mode once one was
      uploaded, nothing otherwise. */
  function ChooseBackground(mode: Mode, videoReady: bool, photoUploaded: bool): (b: Background)
    ensures b == CameraFrame <==> mode == CameraMode && videoReady
    ensures b == UploadedPhoto <==> mode == PhotoMode && photoUploaded
  {
    if mode == CameraMode && videoReady then CameraFrame
    else if mode == PhotoMode && photoUploaded then UploadedPhoto
    else NoBackground
  }

  /** The rectangle the tattoo is drawn into: its origin at the position, its
      natural size multiplied by the scale; nothing before a tattoo loads. */
  function OverlayRect(tattoo: Option<ImageSize>, pos: Point, scale: real): (r: Option<Rect>)
    ensures r.Some? <==> tattoo.Some?
    ensures r.Some? ==> r.value.x == pos.x && r.value.y == pos.y
    ensures r.Some? ==> r.value.width == tattoo.value.width as real * scale
    ensures r.Some? ==> r.value.height == tattoo.value.height as real * scale
  {
    match tattoo
    case None => None
    case Some(size) => Some(Rect(pos.x, pos.y, size.width as real * scale, size.height as real * scale))
  }

  /** Closed containment: every edge belongs to the rectangle. */
  predicate Contains(r: Rect, p: Point) {
    r.x <= p.x <= r.x + r.width && r.y <= p.y <= r.y + r.height
  }

  // ---------------------------------------------------------------------
  // Pointer and zoom state machine

  /** The state the mouse and wheel handlers read and write: the loaded
      tattoo (only its size matters here), `tattooPos`, `tattooScale`,
      `dragging` and the drag `offset`. */
  datatype PointerState = PointerState(
    tattoo: Option<ImageSize>,
    pos: Point,
    scale: real,
    dragging: bool,
    offset: Point)

  const InitialPointer: PointerState :=
    PointerState(None, InitialPos, InitialScale, false, Point(0.0, 0.0))

  /** The pointer, in the handler's canvas coordinates, is on the tattoo's
      drawn rectangle. */
  predicate OnOverlay(s: PointerState, m: Point) {
    match OverlayRect(s.tattoo, s.pos, s.scale)
    case None => false
    case Some(rect) => Contains(rect, m)
  }

  /** The handler's own four comparisons against the scaled image size. */
  predicate HitTest(size: ImageSize, pos: Point, scale: real, m: Point) {
    var w := size.width as real * scale;
    var h := size.height as real * scale;
    m.x >= pos.x && m.x <= pos.x + w && m.y >= pos.y && m.y <= pos.y + h
  }

  /** Mouse-down at canvas point `m`: a hit on the drawn tattoo starts a drag
      and records where in the tattoo it was grabbed; anything else,
      including a press with no tattoo loaded, changes nothing (a miss does
      not clear `dragging` either). */
  function MouseDown(s: PointerState, m: Point): (r: PointerState)
    ensures r.tattoo == s.tattoo && r.pos == s.pos && r.scale == s.scale
    ensures OnOverlay(s, m) ==> r.dragging && Add(r.pos, r.offset) == m
    ensures !OnOverlay(s, m) ==> r == s
  {
    match s.tattoo
    case None => s
    case Some(size) =>
      if HitTest(size, s.pos, s.scale, m) then s.(dragging := true, offset := Sub(m, s.pos))
      else s
  }

  /** Mouse-move to `m`: while dragging, the tattoo follows the cursor keeping
      the grab offset; otherwise nothing changes. */
  function MouseMove(s: PointerState, m: Point): (r: PointerState)
    ensures !s.dragging ==> r == s
    ensures s.dragging ==> Add(r.pos, s.offset) == m
    ensures r.tattoo == s.tattoo && r.scale == s.scale && r.dragging == s.dragging && r.offset == s.offset
  {
    if !s.dragging then s else s.(pos := Sub(m, s.offset))
  }

  /** Mouse-up ends any drag and leaves the tattoo where it is. */
  function MouseUp(s: PointerState): (r: PointerState)
    ensures !r.dragging
    ensures r.tattoo == s.tattoo && r.pos == s.pos && r.scale == s.scale && r.offset == s.offset
  {
    s.(dragging := false)
  }

  /** The wheel steps the scale up for `deltaY < 0` and down otherwise
      (`deltaY == 0` included), then clamps; nothing else changes. */
  function Wheel(s: PointerState, deltaY: real): (r: PointerState)
    ensures InScaleRange(r.scale)
    ensures deltaY < 0.0 ==> r.scale == Clamp(s.scale + ScaleStep)
    ensures deltaY >= 0.0 ==> r.scale == Clamp(s.scale - ScaleStep)
    ensures r.tattoo == s.tattoo && r.pos == s.pos && r.dragging == s.dragging && r.offset == s.offset
  {
    var newScale := s.scale + (if deltaY < 0.0 then ScaleStep else -ScaleStep);
    s.(scale := Min(Max(newScale, MinScale), MaxScale))
  }

  /** A tattoo image finished loading; position and scale are kept. */
  function LoadTattoo(s: PointerState, size: ImageSize): (r: PointerState)
    ensures r.tattoo == Some(size)
    ensures r.pos == s.pos && r.scale == s.scale && r.dragging == s.dragging && r.offset == s.offset
  {
    s.(tattoo := Some(size))
  }

  /** The events the canvas and the thumbnails deliver, in canvas coordinates. */
  datatype Event =
    | PressAt(at: Point)
    | MoveTo(to: Point)
    | Release
    | Scroll(deltaY: real)
    | Load(size: ImageSize)

  function Step(s: PointerState, e: Event): PointerState {
    match e
    case PressAt(p) => MouseDown(s, p)
    case MoveTo(p) => MouseMove(s, p)
    case Release => MouseUp(s)
    case Scroll(d) => Wheel(s, d)
    case Load(size) => LoadTattoo(s, size)
  }

  function Run(s: PointerState, events: seq<Event>): PointerState
    decreases |events|
  {
    if events == [] then s else Run(Step(s, events[0]), events[1..])
  }

  // ---------------------------------------------------------------------
  // Properties

  /** With the scale in range, one wheel step is `min(scale + 0.05, 2)` up and
      `max(scale - 0.05, 0.2)` down. */
  lemma WheelStep(s: PointerState, deltaY: real)
    requires InScaleRange(s.scale)
    ensures deltaY < 0.0 ==> Wheel(s, deltaY).scale == Min(s.scale + ScaleStep, MaxScale)
    ensures deltaY >= 0.0 ==> Wheel(s, deltaY).scale == Max(s.scale - ScaleStep, MinScale)
  {
  }

  /** The hit test is inclusive: all four corners of the drawn rectangle grab
      the tattoo. */
  lemma CornersAreHits(s: PointerState)
    requires s.tattoo.Some? && s.scale >= 0.0
    ensures var w := s.tattoo.value.width as real * s.scale;
            var h := s.tattoo.value.height as real * s.scale;
            && OnOverlay(s, s.pos)
            && OnOverlay(s, Point(s.pos.x + w, s.pos.y))
            && OnOverlay(s, Point(s.pos.x, s.pos.y + h))
            && OnOverlay(s, Point(s.pos.x + w, s.pos.y + h))
  {
  }

  /** Grabbing the tattoo at `p` and moving the cursor by `d` moves the tattoo
      by exactly `d`. */
  lemma DragMovesByDelta(s: PointerState, p: Point, d: Point)
    requires OnOverlay(s, p)
    ensures MouseMove(MouseDown(s, p), Add(p, d)).pos == Add(s.pos, d)
  {
  }

  predicate AllMoves(events: seq<Event>) {
    forall i :: 0 <= i < |events| ==> events[i].MoveTo?
  }

  /** During a drag, a run of moves leaves the tattoo at the last cursor
      position minus the grab offset, still dragging. */
  lemma {:induction false} DragFollowsLastMove(s: PointerState, events: seq<Event>)
    requires s.dragging && AllMoves(events) && events != []
    ensures Run(s, events).pos == Sub(events[|events| - 1].to, s.offset)
    ensures Run(s, events).dragging && Run(s, events).offset == s.offset
    decreases |events|
  {
    var next := Step(s, events[0]);
    if |events| > 1 {
      assert AllMoves(events[1..]) by {
        forall i | 0 <= i < |events[1..]| ensures events[1..][i].MoveTo? {
          assert events[1..][i] == events[i + 1];
        }
      }
      DragFollowsLastMove(next, events[1..]);
      assert events[1..][|events[1..]| - 1] == events[|events| - 1];
    }
  }

  predicate NoPress(events: seq<Event>) {
    forall i :: 0 <= i < |events| ==> !events[i].PressAt?
  }

  /** Once released, the tattoo stays where the last drag left it, whatever
      moves, releases, wheel steps and loads follow, until the next press. */
  lemma {:induction false} ReleasedStaysPut(s: PointerState, events: seq<Event>)
    requires !s.dragging && NoPress(events)
    ensures Run(s, events).pos == s.pos && !Run(s, events).dragging
    decreases |events|
  {
    if events != [] {
      assert NoPress(events[1..]) by {
        forall i | 0 <= i < |events[1..]| ensures !events[1..][i].PressAt? {
          assert events[1..][i] == events[i + 1];
        }
      }
      ReleasedStaysPut(Step(s, events[0]), events[1..]);
    }
  }

  /** No sequence of events takes the scale out of [0.2, 2]. */
  lemma {:induction false} ScaleStaysInRange(s: PointerState, events: seq<Event>)
    requires InScaleRange(s.scale)
    ensures InScaleRange(Run(s, events).scale)
    decreases |events|
  {
    if events != [] {
      ScaleStaysInRange(Step(s, events[0]), events[1..]);
    }
  }

  // ---------------------------------------------------------------------
  // The component

  /** The try-on component's state, updated in place by its handlers. */
  class TryOnView {
    var mode: Mode
    var photoUploaded: bool
    var tattoo: Option<ImageSize>
    var tattooPos: Point
    var tattooScale: real
    var dragging: bool
    var offset: Point

    /** The part of the state the pointer handlers work on. */
    function Pointer(): PointerState
      reads this
    {
      PointerState(tattoo, tattooPos, tattooScale, dragging, offset)
    }

    ghost predicate Valid()
      reads this
    {
      InScaleRange(tattooScale)
    }

    constructor ()
      ensures Valid()
      ensures mode == CameraMode && !photoUploaded
      ensures Pointer() == InitialPointer
    {
      mode := CameraMode;
      photoUploaded := false;
      tattoo := None;
      tattooPos := InitialPos;
      tattooScale := InitialScale;
      dragging := false;
      offset := Point(0.0, 0.0);
    }

    /** One of the two mode buttons. */
    method SetMode(m: Mode)
      requires Valid()
      modifies this`mode
      ensures mode == m
      ensures Valid()
    {
      mode := m;
    }

    /** The photo file input: no file chosen is a no-op; otherwise the decoded
        photo becomes the photo-mode background. */
    method HandleUpload(fileChosen: bool)
      requires Valid()
      modifies this`photoUploaded
      ensures photoUploaded == (old(photoUploaded) || fileChosen)
      ensures Valid()
    {
      if !fileChosen {
        return;
      }
      photoUploaded := true;
    }

    /** A tattoo thumbnail's image finished loading. */
    method HandleTattooSelect(size: ImageSize)
      requires Valid()
      modifies this`tattoo
      ensures Pointer() == LoadTattoo(old(Pointer()), size)
      ensures Valid()
    {
      tattoo := Some(size);
    }

    method HandleMouseDown(client: Point, canvasOrigin: Point)
      requires Valid()
      modifies this`dragging, this`offset
      ensures Pointer() == MouseDown(old(Pointer()), ToCanvas(client, canvasOrigin))
      ensures Valid()
    {
      if tattoo.None? {
        return;
      }
      var mouseX := client.x - canvasOrigin.x;
      var mouseY := client.y - canvasOrigin.y;
      var w := tattoo.value.width as real * tattooScale;
      var h := tattoo.value.height as real * tattooScale;
      if mouseX >= tattooPos.x && mouseX <= tattooPos.x + w && mouseY >= tattooPos.y && mouseY <= tattooPos.y + h {
        dragging := true;
        offset := Point(mouseX - tattooPos.x, mouseY - tattooPos.y);
      }
    }

    method HandleMouseMove(client: Point, canvasOrigin: Point)
      requires Valid()
      modifies this`tattooPos
      ensures Pointer() == MouseMove(old(Pointer()), ToCanvas(client, canvasOrigin))
      ensures Valid()
    {
      if !dragging {
        return;
      }
      var mouseX := client.x - canvasOrigin.x;
      var mouseY := client.y - canvasOrigin.y;
      tattooPos := Point(mouseX - offset.x, mouseY - offset.y);
    }

    method HandleMouseUp()
      requires Valid()
      modifies this`dragging
      ensures Pointer() == MouseUp(old(Pointer()))
      ensures Valid()
    {
      dragging := false;
    }

    method HandleWheel(deltaY: real)
      modifies this`tattooScale
      ensures Valid()
      ensures Pointer() == Wheel(old(Pointer()), deltaY)
    {
      var newScale := tattooScale + (if deltaY < 0.0 then 0.05 else -0.05);
      tattooScale := Min(Max(newScale, 0.2), 2.0);
    }

    /** What the redraw callback draws given whether the video has enough
        data: the chosen background, then the tattoo's rectangle. */
    method DrawFrame(videoReady: bool) returns (f: Frame)
      ensures f == Frame(ChooseBackground(mode, videoReady, photoUploaded), OverlayRect(tattoo, tattooPos, tattooScale))
    {
      var background := NoBackground;
      if mode == CameraMode && videoReady {
        background := CameraFrame;
      } else if mode == PhotoMode && photoUploaded {
        background := UploadedPhoto;
      }
      var overlay := None;
      if tattoo.Some? {
        var w := tattoo.value.width as real * tattooScale;
        var h := tattoo.value.height as real * tattooScale;
        overlay := Some(Rect(tattooPos.x, tattooPos.y, w, h));
      }
      f := Frame(background, overlay);
    }
  }
}
