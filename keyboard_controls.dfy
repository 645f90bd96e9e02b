/**
 * Keyboard controls for the globe: key presses start a zoom or pan operation
 * that a 50 ms timer repeats, tick by tick, until the key is released.
 * Pending timer callbacks are kept as a list; the browser's event loop, which
 * decides when each one runs, is the caller of RunTimer.
 */
module Keyboard {
  import opened JsValues
  import opened WorldWind
  import opened Earth

  /** The commands bound to keys. */
  datatype KeyCommand = ZoomIn | ZoomOut | PanLeft | PanUp | PanRight | PanDown | ResetHeading | ResetHeadingAndTilt

  /** The key code bound to each command. */
  function KeyCode(c: KeyCommand): int {
    match c
    case ZoomIn => 187               // + key
    case ZoomOut => 189              // - key
    case PanLeft => 37               // left arrow
    case PanUp => 38                 // up arrow
    case PanRight => 39              // right arrow
    case PanDown => 40               // down arrow
    case ResetHeading => 78          // N key
    case ResetHeadingAndTilt => 82   // R key
  }

  /** The command a key code dispatches to; unbound keys do nothing. */
  function Command(keyCode: int): (r: Option<KeyCommand>)
    ensures r.Some? ==> KeyCode(r.value) == keyCode
    ensures forall c: KeyCommand :: KeyCode(c) == keyCode ==> r == Some(c)
  {
    if keyCode == 187 then Some(ZoomIn)
    else if keyCode == 189 then Some(ZoomOut)
    else if keyCode == 37 then Some(PanLeft)
    else if keyCode == 38 then Some(PanUp)
    else if keyCode == 39 then Some(PanRight)
    else if keyCode == 40 then Some(PanDown)
    else if keyCode == 78 then Some(ResetHeading)
    else if keyCode == 82 then Some(ResetHeadingAndTilt)
    else None
  }

  predicate IsZoom(c: KeyCommand) {
    c == ZoomIn || c == ZoomOut
  }

  predicate IsPan(c: KeyCommand) {
    c == PanLeft || c == PanUp || c == PanRight || c == PanDown
  }

  /** The handler recorded as the active operation. */
  datatype Operation = HandleZoom | HandlePan

  /** A pending timer callback with the operation it was created for. */
  datatype Timer = SetRange(operation: KeyCommand) | SetLookAtLocation(operation: KeyCommand)

  /** WorldWind's great-circle step: from a location, along a heading, by a distance. */
  type GreatCircle = (Num, Num, Num, Num) -> (Num, Num)

  const ZoomIncrement: real := 0.01
  const PanIncrement: real := 0.0000000005

  /** The range after one zoom tick. */
  function ZoomedRange(operation: KeyCommand, range: Num): (r: Num)
    ensures operation == ZoomIn && range.Fin? && range.v > 0.0 ==> r.Fin? && 0.0 < r.v < range.v
    ensures operation == ZoomOut && range.Fin? && range.v > 0.0 ==> r.Fin? && range.v < r.v
    ensures !IsZoom(operation) || range.NaN? ==> r == range
  {
    if operation == ZoomIn then Mul(range, Fin(1.0 - ZoomIncrement))
    else if operation == ZoomOut then Mul(range, Fin(1.0 + ZoomIncrement))
    else range
  }

  /** The heading a pan tick moves along, relative to the view's heading. */
  function PanHeading(operation: KeyCommand, heading: Num): (r: Num)
    ensures heading.NaN? <==> r.NaN?
    ensures heading.Fin? && operation == PanUp ==> r == heading
    ensures heading.Fin? && operation == PanDown ==> r.v == heading.v - 180.0
    ensures heading.Fin? && operation == PanLeft ==> r.v == heading.v - 90.0
    ensures heading.Fin? && operation == PanRight ==> r.v == heading.v + 90.0
  {
    match operation
    case PanDown => Add(heading, Fin(-180.0))
    case PanLeft => Add(heading, Fin(-90.0))
    case PanRight => Add(heading, Fin(90.0))
    case _ => heading
  }

  /** Left and right pans move in opposite directions, as do up and down. */
  lemma OppositePans(heading: real)
    ensures PanHeading(PanRight, Fin(heading)).v - PanHeading(PanLeft, Fin(heading)).v == 180.0
    ensures PanHeading(PanUp, Fin(heading)).v - PanHeading(PanDown, Fin(heading)).v == 180.0
  {
  }

  /** The navigator state after one tick of a timer whose operation is active. */
  function Tick(s: NavState, t: Timer, greatCircle: GreatCircle): (r: NavState)
    ensures r.heading == s.heading && r.tilt == s.tilt && r.roll == s.roll
    ensures t.SetRange? ==> r.latitude == s.latitude && r.longitude == s.longitude
    ensures t.SetLookAtLocation? ==> r.range == s.range
  {
    match t
    case SetRange(operation) => s.(range := ZoomedRange(operation, s.range))
    case SetLookAtLocation(operation) =>
      var location := greatCircle(s.latitude, s.longitude, PanHeading(operation, s.heading),
                                  Mul(Fin(PanIncrement), s.range));
      s.(latitude := location.0, longitude := location.1)
  }

  /** A zoom-in tick followed by a zoom-out tick does not restore the range: it shrinks by 0.01%. */
  lemma ZoomInThenOutShrinks(s: NavState, greatCircle: GreatCircle)
    requires s.range.Fin? && s.range.v > 0.0
    ensures Tick(Tick(s, SetRange(ZoomIn), greatCircle), SetRange(ZoomOut), greatCircle).range
            == Fin(s.range.v * 0.9999)
  {
  }

  class KeyboardControls {
    const globe: Earth
    var activeOperation: Option<Operation>
    var timers: seq<Timer>

    constructor (globe: Earth)
      ensures this.globe == globe && activeOperation.None? && timers == []
    {
      this.globe := globe;
      activeOperation := None;
      timers := [];
    }

    /**
     * Dispatches a key press. Zoom and pan keys start their operation and
     * schedule its first tick; N turns the view north up; R and unbound keys
     * change nothing.
     */
    method HandleKeyDown(keyCode: int)
      modifies this, globe.wwd.navigator
      ensures var c := Command(keyCode);
        c.Some? && IsZoom(c.value) ==>
          activeOperation == Some(HandleZoom) && timers == old(timers) + [SetRange(c.value)]
      ensures var c := Command(keyCode);
        c.Some? && IsPan(c.value) ==>
          activeOperation == Some(HandlePan) && timers == old(timers) + [SetLookAtLocation(c.value)]
      ensures var c := Command(keyCode);
        c.Some? && (IsZoom(c.value) || IsPan(c.value))
        ==> globe.wwd.navigator.State() == old(globe.wwd.navigator.State())
      ensures var c := Command(keyCode);
        c == Some(ResetHeading) ==>
          activeOperation == old(activeOperation) && timers == old(timers)
          && globe.wwd.navigator.State() == old(globe.wwd.navigator.State()).(heading := Fin(0.0))
      ensures var c := Command(keyCode);
        c.None? || c == Some(ResetHeadingAndTilt) ==>
          activeOperation == old(activeOperation) && timers == old(timers)
          && globe.wwd.navigator.State() == old(globe.wwd.navigator.State())
    {
      var c := Command(keyCode);
      if c.None? {
        return;
      }
      match c.value
      case ZoomIn => Zoom(ZoomIn);
      case ZoomOut => Zoom(ZoomOut);
      case PanLeft => Pan(PanLeft);
      case PanUp => Pan(PanUp);
      case PanRight => Pan(PanRight);
      case PanDown => Pan(PanDown);
      case ResetHeading => globe.ResetHeading();
      case ResetHeadingAndTilt => ResetHeadingAndTiltView();
    }

    /** Bound to R, but does nothing: the call it would make is commented out. */
    method ResetHeadingAndTiltView()
      ensures activeOperation == old(activeOperation) && timers == old(timers)
      ensures globe.wwd.navigator.State() == old(globe.wwd.navigator.State())
    {
    }

    /** Ends the active operation; the default action is suppressed only if one was active. */
    method HandleKeyUp() returns (preventDefault: bool)
      modifies this
      ensures activeOperation.None? && timers == old(timers)
      ensures preventDefault <==> old(activeOperation).Some?
    {
      preventDefault := false;
      if activeOperation.Some? {
        activeOperation := None;
        preventDefault := true;
      }
    }

    /** Makes zooming the active operation and schedules a zoom tick. */
    method Zoom(operation: KeyCommand)
      modifies this
      ensures activeOperation == Some(HandleZoom) && timers == old(timers) + [SetRange(operation)]
    {
      activeOperation := Some(HandleZoom);
      timers := timers + [SetRange(operation)];
    }

    /** Makes panning the active operation and schedules a pan tick. */
    method Pan(operation: KeyCommand)
      modifies this
      ensures activeOperation == Some(HandlePan) && timers == old(timers) + [SetLookAtLocation(operation)]
    {
      activeOperation := Some(HandlePan);
      timers := timers + [SetLookAtLocation(operation)];
    }

    /**
     * Runs the pending timer at index `k`. While any operation is active the
     * tick moves the view and reschedules itself; once none is, the tick
     * does nothing and the timer is dropped, so released keys drain the list.
     */
    method RunTimer(k: nat, greatCircle: GreatCircle)
      requires k < |timers|
      modifies this, globe.wwd.navigator
      ensures activeOperation == old(activeOperation)
      ensures old(activeOperation).None? ==>
        timers == old(timers[..k] + timers[k + 1..])
        && globe.wwd.navigator.State() == old(globe.wwd.navigator.State())
      ensures old(activeOperation).Some? ==>
        timers == old(timers[..k] + timers[k + 1..] + [timers[k]])
        && globe.wwd.navigator.State() == Tick(old(globe.wwd.navigator.State()), old(timers[k]), greatCircle)
    {
      var t := timers[k];
      timers := timers[..k] + timers[k + 1..];
      if activeOperation.None? {
        return;
      }
      var navigator := globe.wwd.navigator;
      match t {
        case SetRange(operation) =>
          navigator.range := ZoomedRange(operation, navigator.range);
        case SetLookAtLocation(operation) =>
          var location := greatCircle(navigator.latitude, navigator.longitude,
                                      PanHeading(operation, navigator.heading),
                                      Mul(Fin(PanIncrement), navigator.range));
          navigator.latitude, navigator.longitude := location.0, location.1;
      }
      timers := timers + [t];
    }
  }
}
