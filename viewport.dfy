/** The zoom-and-pan state machine shared, handler for handler, by the
    horizontal view and the d3 diagram view. The two differ in the zoom
    their reset handler restores (0.8 and 1), in whether a control calls
    it (only the diagram view has a reset button; the horizontal view's
    handler is bound to nothing), and in their effects: the horizontal
    view sets its zoom to 0.8 once mounted; the diagram view resets pan
    and zoom whenever its data, type, palette or style changes. */
module Viewport {

  datatype Point = Point(x: real, y: real)

  const Origin := Point(0.0, 0.0)

  function Add(p: Point, q: Point): Point
  {
    Point(p.x + q.x, p.y + q.y)
  }

  function Sub(p: Point, q: Point): Point
  {
    Point(p.x - q.x, p.y - q.y)
  }

  const MinZoom: real := 0.5
  const MaxZoom: real := 2.0
  /** Step of the zoom buttons. */
  const ButtonStep: real := 0.1
  /** Step of one wheel notch. */
  const WheelStep: real := 0.05

  predicate InRange(z: real)
  {
    MinZoom <= z <= MaxZoom
  }

  /** `Math.min(prev + step, 2)`. */
  function ZoomIn(z: real, step: real): (r: real)
    ensures r <= MaxZoom
    ensures r == z + step || r == MaxZoom
    ensures z + step <= MaxZoom ==> r == z + step
  {
    if z + step < MaxZoom then z + step else MaxZoom
  }

  /** `Math.max(prev - step, 0.5)`. */
  function ZoomOut(z: real, step: real): (r: real)
    ensures r >= MinZoom
    ensures r == z - step || r == MinZoom
    ensures z - step >= MinZoom ==> r == z - step
  {
    if z - step > MinZoom then z - step else MinZoom
  }

  /** What the view remembers between events. */
  datatype View = View(zoom: real, pan: Point, dragging: bool, dragStart: Point)

  /** The user's inputs: the two zoom buttons, the slider, the reset
      button, a wheel notch, and the mouse. `button` 0 is the primary
      button. */
  datatype Event =
    | ZoomInClick
    | ZoomOutClick
    | SliderChange(value: real)
    | ResetClick
    | Wheel(deltaY: real)
    | MouseDown(button: int, at: Point)
    | MouseMove(at: Point)
    | MouseUp
    | MouseLeave

  /** One handler call. `resetZoom` is the zoom the reset handler restores. */
  function Step(resetZoom: real, v: View, e: Event): (w: View)
    ensures InRange(v.zoom) && InRange(resetZoom) && (e.SliderChange? ==> InRange(e.value)) ==> InRange(w.zoom)
    ensures InRange(v.zoom) && (e.ZoomInClick? || (e.Wheel? && e.deltaY < 0.0)) ==> v.zoom <= w.zoom
    ensures InRange(v.zoom) && (e.ZoomOutClick? || (e.Wheel? && e.deltaY >= 0.0)) ==> w.zoom <= v.zoom
    ensures e.MouseDown? || e.MouseMove? || e.MouseUp? || e.MouseLeave? ==> w.zoom == v.zoom
    ensures !e.MouseMove? && !e.ResetClick? ==> w.pan == v.pan
    ensures !e.MouseDown? && !e.MouseUp? && !e.MouseLeave? ==> w.dragging == v.dragging
    ensures e.MouseMove? && v.dragging ==> Sub(w.pan, v.pan) == Sub(e.at, v.dragStart) && w.dragStart == e.at
    ensures e.MouseMove? && !v.dragging ==> w == v
    ensures e.MouseDown? ==> (w.dragging <==> v.dragging || e.button == 0)
    ensures e.MouseUp? || e.MouseLeave? ==> !w.dragging
    ensures e.ZoomInClick? ==> w.zoom == ZoomIn(v.zoom, ButtonStep)
    ensures e.ZoomOutClick? ==> w.zoom == ZoomOut(v.zoom, ButtonStep)
    ensures e.Wheel? && e.deltaY < 0.0 ==> w.zoom == ZoomIn(v.zoom, WheelStep)
    ensures e.Wheel? && e.deltaY >= 0.0 ==> w.zoom == ZoomOut(v.zoom, WheelStep)
    ensures e.SliderChange? ==> w.zoom == e.value
    ensures e.ResetClick? ==> w.zoom == resetZoom && w.pan == Origin
    ensures e.MouseDown? && e.button == 0 ==> w.dragStart == e.at
    ensures e.MouseDown? && e.button != 0 ==> w == v
  {
    match e
    case ZoomInClick => v.(zoom := ZoomIn(v.zoom, ButtonStep))
    case ZoomOutClick => v.(zoom := ZoomOut(v.zoom, ButtonStep))
    case SliderChange(value) => v.(zoom := value)
    case ResetClick => v.(zoom := resetZoom, pan := Origin)
    case Wheel(deltaY) =>
      if deltaY < 0.0 then v.(zoom := ZoomIn(v.zoom, WheelStep))
      else v.(zoom := ZoomOut(v.zoom, WheelStep))
    case MouseDown(button, at) =>
      if button == 0 then v.(dragging := true, dragStart := at) else v
    case MouseMove(at) =>
      if v.dragging then v.(pan := Add(v.pan, Sub(at, v.dragStart)), dragStart := at) else v
    case MouseUp => v.(dragging := false)
    case MouseLeave => v.(dragging := false)
  }

  /** Handling a sequence of events in order. */
  function Run(resetZoom: real, v: View, es: seq<Event>): View
    decreases |es|
  {
    if |es| == 0 then v else Run(resetZoom, Step(resetZoom, v, es[0]), es[1..])
  }

  /** Slider values the slider itself can produce. */
  predicate SliderValuesInRange(es: seq<Event>)
  {
    forall i :: 0 <= i < |es| && es[i].SliderChange? ==> InRange(es[i].value)
  }

  /** Starting inside [0.5, 2], no sequence of events leaves it. */
  lemma {:induction false} ZoomStaysInRange(resetZoom: real, v: View, es: seq<Event>)
    requires InRange(v.zoom) && InRange(resetZoom)
    requires SliderValuesInRange(es)
    ensures InRange(Run(resetZoom, v, es).zoom)
    decreases |es|
  {
    if |es| > 0 {
      assert es[0].SliderChange? ==> InRange(es[0].value);
      ZoomStaysInRange(resetZoom, Step(resetZoom, v, es[0]), es[1..]);
    }
  }

  function Repeat(e: Event, k: nat): (es: seq<Event>)
    ensures |es| == k
    ensures forall i :: 0 <= i < k ==> es[i] == e
  {
    if k == 0 then [] else [e] + Repeat(e, k - 1)
  }

  /** `k` clicks on zoom-in add `k` steps, stopping at the maximum. */
  lemma {:induction false} RepeatedZoomIn(resetZoom: real, v: View, k: nat)
    ensures Run(resetZoom, v, Repeat(ZoomInClick, k)).zoom ==
      (if k > 0 then ZoomIn(v.zoom, k as real * ButtonStep) else v.zoom)
    ensures Run(resetZoom, v, Repeat(ZoomInClick, k)).pan == v.pan
    decreases k
  {
    if k > 0 {
      var w := Step(resetZoom, v, ZoomInClick);
      assert Repeat(ZoomInClick, k)[1..] == Repeat(ZoomInClick, k - 1);
      RepeatedZoomIn(resetZoom, w, k - 1);
    }
  }

  /** From zoom 1, one click in gives 1.1 and one click out gives 1 again. */
  lemma InThenOutFromOne(resetZoom: real, v: View)
    requires v.zoom == 1.0
    ensures Step(resetZoom, v, ZoomInClick).zoom == 1.1
    ensures Run(resetZoom, v, [ZoomInClick, ZoomOutClick]).zoom == 1.0
  {
    var w := Step(resetZoom, v, ZoomInClick);
    assert [ZoomInClick, ZoomOutClick][1..] == [ZoomOutClick];
    assert Run(resetZoom, w, [ZoomOutClick]) == Step(resetZoom, w, ZoomOutClick);
  }

  function Moves(points: seq<Point>): (es: seq<Event>)
    ensures |es| == |points|
    ensures forall i :: 0 <= i < |points| ==> es[i] == MouseMove(points[i])
  {
    if |points| == 0 then [] else [MouseMove(points[0])] + Moves(points[1..])
  }

  /** While dragging, a run of moves adds up to the distance from the
      first recorded cursor to the last one: the increments telescope. */
  lemma {:induction false} MovesTelescope(resetZoom: real, v: View, points: seq<Point>)
    requires v.dragging && |points| > 0
    ensures Run(resetZoom, v, Moves(points)).pan == Add(v.pan, Sub(points[|points| - 1], v.dragStart))
    ensures Run(resetZoom, v, Moves(points)).dragging
    ensures Run(resetZoom, v, Moves(points)).zoom == v.zoom
    decreases |points|
  {
    var w := Step(resetZoom, v, MouseMove(points[0]));
    assert Moves(points)[1..] == Moves(points[1..]);
    if |points| > 1 {
      MovesTelescope(resetZoom, w, points[1..]);
    }
  }

  lemma {:induction false} RunAppend(resetZoom: real, v: View, a: seq<Event>, b: seq<Event>)
    ensures Run(resetZoom, v, a + b) == Run(resetZoom, Run(resetZoom, v, a), b)
    decreases |a|
  {
    if |a| == 0 {
      assert a + b == b;
    } else {
      assert (a + b)[0] == a[0] && (a + b)[1..] == a[1..] + b;
      RunAppend(resetZoom, Step(resetZoom, v, a[0]), a[1..], b);
    }
  }

  /** A whole drag with the primary button: press at `p`, move through
      `points`, release. The pan moves by exactly last cursor minus press
      cursor, and dragging has ended. */
  lemma Drag(resetZoom: real, v: View, p: Point, points: seq<Point>)
    requires |points| > 0
    ensures var w := Run(resetZoom, v, [MouseDown(0, p)] + Moves(points) + [MouseUp]);
      w.pan == Add(v.pan, Sub(points[|points| - 1], p)) && !w.dragging && w.zoom == v.zoom
  {
    var down := Step(resetZoom, v, MouseDown(0, p));
    assert Run(resetZoom, v, [MouseDown(0, p)]) == down;
    MovesTelescope(resetZoom, down, points);
    var moved := Run(resetZoom, down, Moves(points));
    assert Run(resetZoom, moved, [MouseUp]) == Step(resetZoom, moved, MouseUp);
    RunAppend(resetZoom, v, [MouseDown(0, p)], Moves(points));
    RunAppend(resetZoom, v, [MouseDown(0, p)] + Moves(points), [MouseUp]);
  }

  /** Moving the mouse without a drag in progress changes nothing. */
  lemma {:induction false} IdleMovesChangeNothing(resetZoom: real, v: View, points: seq<Point>)
    requires !v.dragging
    ensures Run(resetZoom, v, Moves(points)) == v
    decreases |points|
  {
    if |points| > 0 {
      assert Moves(points)[1..] == Moves(points[1..]);
      IdleMovesChangeNothing(resetZoom, v, points[1..]);
    }
  }

  /** The view state of one component, updated in place by its handlers. */
  class PanZoom {
    var zoom: real
    var pan: Point
    var isDragging: bool
    var dragStart: Point
    /** The zoom the reset handler restores. */
    const resetZoom: real

    function State(): View
      reads this
    {
      View(zoom, pan, isDragging, dragStart)
    }

    predicate Valid()
      reads this
    {
      InRange(zoom) && InRange(resetZoom)
    }

    /** The horizontal view: initial zoom 1; its reset handler, which no
        control calls, restores 0.8. */
    constructor ForHorizontal()
      ensures State() == View(1.0, Origin, false, Origin)
      ensures resetZoom == 0.8
      ensures Valid()
    {
      zoom, pan, isDragging, dragStart := 1.0, Origin, false, Origin;
      resetZoom := 0.8;
    }

    /** The diagram view: initial zoom 1, reset to 1. */
    constructor ForMindMap()
      ensures State() == View(1.0, Origin, false, Origin)
      ensures resetZoom == 1.0
      ensures Valid()
    {
      zoom, pan, isDragging, dragStart := 1.0, Origin, false, Origin;
      resetZoom := 1.0;
    }

    /** The horizontal view's mount effect: zoom out to 0.8, pan kept. */
    method Mounted()
      modifies this
      ensures State() == old(State()).(zoom := 0.8)
      ensures old(Valid()) ==> Valid()
    {
      zoom := 0.8;
    }

    /** The diagram view's effect on a change of data, type, palette or
        style: the same as the reset button. */
    method DiagramChanged()
      modifies this
      ensures State() == Step(resetZoom, old(State()), ResetClick)
      ensures pan == Origin && zoom == resetZoom
      ensures old(Valid()) ==> Valid()
    {
      pan := Origin;
      zoom := resetZoom;
    }

    method HandleZoomIn()
      modifies this
      ensures State() == Step(resetZoom, old(State()), ZoomInClick)
      ensures zoom == ZoomIn(old(zoom), ButtonStep) && pan == old(pan)
      ensures old(Valid()) ==> Valid()
    {
      zoom := if zoom + ButtonStep < MaxZoom then zoom + ButtonStep else MaxZoom;
    }

    method HandleZoomOut()
      modifies this
      ensures State() == Step(resetZoom, old(State()), ZoomOutClick)
      ensures zoom == ZoomOut(old(zoom), ButtonStep) && pan == old(pan)
      ensures old(Valid()) ==> Valid()
    {
      zoom := if zoom - ButtonStep > MinZoom then zoom - ButtonStep else MinZoom;
    }

    /** The slider handler takes the value as given. */
    method HandleZoomChange(value: real)
      modifies this
      ensures State() == Step(resetZoom, old(State()), SliderChange(value))
      ensures zoom == value && pan == old(pan)
      ensures old(Valid()) && InRange(value) ==> Valid()
    {
      zoom := value;
    }

    method HandleReset()
      modifies this
      ensures State() == Step(resetZoom, old(State()), ResetClick)
      ensures pan == Origin && zoom == resetZoom
      ensures old(Valid()) ==> Valid()
    {
      pan := Origin;
      zoom := resetZoom;
    }

    method HandleWheel(deltaY: real)
      modifies this
      ensures State() == Step(resetZoom, old(State()), Wheel(deltaY))
      ensures zoom == if deltaY < 0.0 then ZoomIn(old(zoom), WheelStep) else ZoomOut(old(zoom), WheelStep)
      ensures pan == old(pan)
      ensures old(Valid()) ==> Valid()
    {
      if deltaY < 0.0 {
        zoom := if zoom + WheelStep < MaxZoom then zoom + WheelStep else MaxZoom;
      } else {
        zoom := if zoom - WheelStep > MinZoom then zoom - WheelStep else MinZoom;
      }
    }

    method HandleMouseDown(button: int, at: Point)
      modifies this
      ensures State() == Step(resetZoom, old(State()), MouseDown(button, at))
      ensures button == 0 ==> isDragging && dragStart == at
      ensures button != 0 ==> State() == old(State())
      ensures old(Valid()) ==> Valid()
    {
      if button == 0 {
        isDragging := true;
        dragStart := at;
      }
    }

    method HandleMouseMove(at: Point)
      modifies this
      ensures State() == Step(resetZoom, old(State()), MouseMove(at))
      ensures old(Valid()) ==> Valid()
    {
      if isDragging {
        var dx := at.x - dragStart.x;
        var dy := at.y - dragStart.y;
        pan := Point(pan.x + dx, pan.y + dy);
        dragStart := at;
      }
    }

    method HandleMouseUp()
      modifies this
      ensures State() == Step(resetZoom, old(State()), MouseUp)
      ensures old(Valid()) ==> Valid()
    {
      isDragging := false;
    }

    /** The horizontal view clears the flag only when it is set; the
        diagram view clears it unconditionally; the state that results is
        the same. */
    method HandleMouseLeave()
      modifies this
      ensures State() == Step(resetZoom, old(State()), MouseLeave)
      ensures old(Valid()) ==> Valid()
    {
      if isDragging {
        isDragging := false;
      }
    }
  }
}
