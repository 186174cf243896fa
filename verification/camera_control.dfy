/**
 * CameraControl: mouse and keyboard handlers that move a perspective camera
 * directly. Each handler is a transition of the controller state; the result
 * also says whether the update callback was invoked.
 */
module CameraControl {

  /** The camera fields the handlers write: position, the x and y quaternion components, field of view. */
  datatype Camera = Camera(px: real, py: real, pz: real, qx: real, qy: real, fov: real)

  datatype Control = Control(zoomMode: bool, press: bool, sensitivity: real, camera: Camera)

  datatype Event =
    | MouseMove(button: int, movementX: real, movementY: real)
    | MouseDown
    | MouseUp
    | MouseLeave
    | KeyDown(key: string)
    | KeyUp(key: string)
    | MouseWheel(wheelDelta: real)

  /** The state after a handler ran, and whether it invoked the update callback. */
  datatype Transition = Transition(state: Control, notified: bool)

  const DefaultSensitivity: real := 0.02
  const PanButton: int := 0
  const RotateButton: int := 2
  const ZoomKey: string := "Shift"

  predicate IsButtonEvent(e: Event) {
    e.MouseDown? || e.MouseUp? || e.MouseLeave?
  }

  predicate IsZoomKeyEvent(e: Event) {
    (e.KeyDown? || e.KeyUp?) && e.key == ZoomKey
  }

  /** A new controller: not pressed, not zooming, sensitivity 0.02, around the given camera. */
  function Init(camera: Camera): (c: Control)
    ensures !c.press && !c.zoomMode && c.sensitivity == DefaultSensitivity && c.camera == camera
  {
    Control(false, false, DefaultSensitivity, camera)
  }

  function Move(c: Control, button: int, dx: real, dy: real): Camera {
    var s := c.sensitivity;
    if button == PanButton then
      c.camera.(py := c.camera.py - dy * s, px := c.camera.px - dx * s)
    else if button == RotateButton then
      c.camera.(qy := c.camera.qy - dx * s / 10.0, qx := c.camera.qx - dy * s / 10.0)
    else c.camera
  }

  function Wheel(c: Control, delta: real): Camera {
    if c.zoomMode then c.camera.(fov := c.camera.fov + delta * c.sensitivity)
    else c.camera.(pz := c.camera.pz + delta * c.sensitivity)
  }

  /** Runs the handler for one event. */
  function Step(c: Control, e: Event): (t: Transition)
    ensures t.notified <==> e.MouseWheel? || (e.MouseMove? && c.press)
    ensures t.state.sensitivity == c.sensitivity
    ensures t.state.camera != c.camera ==> t.notified
    ensures t.state.press != c.press ==> IsButtonEvent(e)
    ensures t.state.zoomMode != c.zoomMode ==> IsZoomKeyEvent(e)
  {
    match e
    case MouseMove(button, dx, dy) =>
      if !c.press then Transition(c, false)
      else Transition(c.(camera := Move(c, button, dx, dy)), true)
    case MouseDown => Transition(c.(press := true), false)
    case MouseUp => Transition(c.(press := false), false)
    case MouseLeave => Transition(c.(press := false), false)
    case KeyDown(key) => Transition(if key == ZoomKey then c.(zoomMode := true) else c, false)
    case KeyUp(key) => Transition(if key == ZoomKey then c.(zoomMode := false) else c, false)
    case MouseWheel(delta) => Transition(c.(camera := Wheel(c, delta)), true)
  }

  /** The events handled in order: the final state and how many times the callback ran. */
  function Run(c: Control, es: seq<Event>): (Control, nat) {
    if es == [] then (c, 0)
    else
      var (mid, n) := Run(c, es[..|es| - 1]);
      var t := Step(mid, es[|es| - 1]);
      (t.state, if t.notified then n + 1 else n)
  }

  /** mousedown sets press; mouseup and mouseleave clear it; none of them touches anything else. */
  lemma PressButtons(c: Control)
    ensures Step(c, MouseDown) == Transition(c.(press := true), false)
    ensures Step(c, MouseUp) == Transition(c.(press := false), false)
    ensures Step(c, MouseLeave) == Transition(c.(press := false), false)
  {
  }

  /** A move while not pressed changes nothing and does not call back. */
  lemma MoveUnpressed(c: Control, button: int, dx: real, dy: real)
    requires !c.press
    ensures Step(c, MouseMove(button, dx, dy)) == Transition(c, false)
  {
  }

  /** A pressed move with button 0 pans: position x and y move against the mouse, nothing else changes. */
  lemma PanMove(c: Control, dx: real, dy: real)
    requires c.press
    ensures var t := Step(c, MouseMove(PanButton, dx, dy));
      && t.notified
      && t.state == c.(camera := t.state.camera)
      && t.state.camera.px == c.camera.px - dx * c.sensitivity
      && t.state.camera.py == c.camera.py - dy * c.sensitivity
      && (t.state.camera.pz, t.state.camera.qx, t.state.camera.qy, t.state.camera.fov)
         == (c.camera.pz, c.camera.qx, c.camera.qy, c.camera.fov)
  {
  }

  /** A pressed move with button 2 turns: quaternion y follows movementX and x follows movementY, at a tenth of the rate. */
  lemma RotateMove(c: Control, dx: real, dy: real)
    requires c.press
    ensures var t := Step(c, MouseMove(RotateButton, dx, dy));
      && t.notified
      && t.state == c.(camera := t.state.camera)
      && t.state.camera.qy == c.camera.qy - dx * c.sensitivity / 10.0
      && t.state.camera.qx == c.camera.qx - dy * c.sensitivity / 10.0
      && (t.state.camera.px, t.state.camera.py, t.state.camera.pz, t.state.camera.fov)
         == (c.camera.px, c.camera.py, c.camera.pz, c.camera.fov)
  {
  }

  /** A pressed move with any other button changes nothing but still calls back. */
  lemma OtherButtonMove(c: Control, button: int, dx: real, dy: real)
    requires c.press && button != PanButton && button != RotateButton
    ensures Step(c, MouseMove(button, dx, dy)) == Transition(c, true)
  {
  }

  /** Shift down and up set and clear zoom mode; other keys change nothing; keys never call back. */
  lemma ZoomKeys(c: Control, key: string)
    ensures Step(c, KeyDown(key)).state == (if key == ZoomKey then c.(zoomMode := true) else c)
    ensures Step(c, KeyUp(key)).state == (if key == ZoomKey then c.(zoomMode := false) else c)
    ensures !Step(c, KeyDown(key)).notified && !Step(c, KeyUp(key)).notified
  {
  }

  /** The wheel changes only the field of view in zoom mode, otherwise only position z, and calls back either way. */
  lemma WheelMove(c: Control, delta: real)
    ensures var t := Step(c, MouseWheel(delta));
      && t.notified
      && t.state == c.(camera := t.state.camera)
      && (c.zoomMode ==> t.state.camera == c.camera.(fov := c.camera.fov + delta * c.sensitivity))
      && (!c.zoomMode ==> t.state.camera == c.camera.(pz := c.camera.pz + delta * c.sensitivity))
  {
  }

  /** Panning by a movement and then by its opposite returns the camera to where it was. */
  lemma PanInverse(c: Control, button: int, dx: real, dy: real)
    requires c.press
    ensures Step(Step(c, MouseMove(button, dx, dy)).state, MouseMove(button, -dx, -dy)).state == c
  {
  }

  /** Two pans compose into one pan by the summed movement. */
  lemma PanAdditive(c: Control, button: int, dx1: real, dy1: real, dx2: real, dy2: real)
    requires c.press
    ensures Step(Step(c, MouseMove(button, dx1, dy1)).state, MouseMove(button, dx2, dy2)).state
         == Step(c, MouseMove(button, dx1 + dx2, dy1 + dy2)).state
  {
  }

  /** Scrolling by a delta and back by its opposite in the same mode returns the camera to where it was. */
  lemma WheelInverse(c: Control, delta: real)
    ensures Step(Step(c, MouseWheel(delta)).state, MouseWheel(-delta)).state == c
  {
  }

  /** The zoom mode set by the most recent Shift event, or `initial` when there is none. */
  function LatestZoom(es: seq<Event>, initial: bool): bool {
    if es == [] then initial
    else if IsZoomKeyEvent(es[|es| - 1]) then es[|es| - 1].KeyDown?
    else LatestZoom(es[..|es| - 1], initial)
  }

  /** The press flag set by the most recent button event, or `initial` when there is none. */
  function LatestPress(es: seq<Event>, initial: bool): bool {
    if es == [] then initial
    else if IsButtonEvent(es[|es| - 1]) then es[|es| - 1].MouseDown?
    else LatestPress(es[..|es| - 1], initial)
  }

  /** After any run, zoom mode is what the last Shift event made it. */
  lemma {:induction false} RunZoomMode(c: Control, es: seq<Event>)
    ensures Run(c, es).0.zoomMode == LatestZoom(es, c.zoomMode)
  {
    if es != [] {
      RunZoomMode(c, es[..|es| - 1]);
    }
  }

  /** After any run, the press flag is what the last button event made it. */
  lemma {:induction false} RunPress(c: Control, es: seq<Event>)
    ensures Run(c, es).0.press == LatestPress(es, c.press)
  {
    if es != [] {
      RunPress(c, es[..|es| - 1]);
    }
  }

  /** Without a mousedown or a wheel event, an unpressed controller never moves the camera or calls back. */
  lemma {:induction false} IdleRun(c: Control, es: seq<Event>)
    requires !c.press
    requires forall i :: 0 <= i < |es| ==> !es[i].MouseDown? && !es[i].MouseWheel?
    ensures Run(c, es).0.camera == c.camera
    ensures !Run(c, es).0.press
    ensures Run(c, es).1 == 0
  {
    if es != [] {
      IdleRun(c, es[..|es| - 1]);
    }
  }

  /** Sensitivity is never changed by the handlers. */
  lemma {:induction false} RunKeepsSensitivity(c: Control, es: seq<Event>)
    ensures Run(c, es).0.sensitivity == c.sensitivity
  {
    if es != [] {
      RunKeepsSensitivity(c, es[..|es| - 1]);
    }
  }
}
