/** The state of one SwitchView as a value, and what each of its operations
    does to that value. The class in module View keeps the same state in
    mutable fields and is proved to change it exactly as these functions say. */
module SwitchState {
  import opened Layout

  datatype Option<T> = None | Some(value: T)

  /** Identity of a registered OnSwitchViewdListener. */
  datatype Listener = Listener(id: nat)

  /** One call `listener.onSwitched(view, isOn)`. */
  datatype Notification = Notification(listener: Listener, isOn: bool)

  /** A started thumb animation, by its first and last value of the thumb's
      left edge; the eased frames in between are not modelled. */
  datatype Animation = Animation(from: int, to: int)

  /** MotionEvent actions; every other action code goes to the framework. */
  datatype Action = Down | Move | Up | Cancel | Other(code: int)

  /** What the host can do to the widget between two layout passes: deliver a
      touch event, click it, or let the running animation reach its end. */
  datatype Event = Touch(action: Action, x: int, time: int) | Click | Settle

  /** A release this many milliseconds or more after the press is a drag. */
  const TAP_LIMIT_MS := 200

  /** Every field of the widget that the modelled operations read or write.
      `notified` records the listener calls made so far and `animation` the
      most recently started thumb animation that has not reached its end. */
  datatype Widget = Widget(
    width: nat, height: nat,
    isOn: bool,
    padding: nat,
    colorOn: int, colorOff: int, colorBorder: int,
    outerRadii: nat, thumbRadii: nat, animationRate: nat,
    startTime: int,
    thumbBounds: Rect,
    leftBgArc: Rect, rightBgArc: Rect, leftFgArc: Rect, rightFgArc: Rect,
    thumbOnCenterX: real, thumbOffCenterX: real,
    listener: Option<Listener>,
    notified: seq<Notification>,
    animation: Option<Animation>)
  {
    /** Left edge of the thumb at the rest position for `on`. */
    function RestLeft(on: bool): int {
      if on then width - padding - thumbRadii else padding
    }

    /** Thumb bounds at the rest position for `on`. */
    function Rest(on: bool): Rect {
      RestBounds(width, height, padding, thumbRadii, on)
    }
  }

  /** What the widget holds before its first layout pass: Java's zero field
      values, empty rectangles and no listener. */
  function Initial(on: bool, colorOn: int, colorOff: int, colorBorder: int): Widget {
    var empty := Rect(0, 0, 0, 0);
    Widget(0, 0, on, 0, colorOn, colorOff, colorBorder, 0, 0, 0, 0,
           empty, empty, empty, empty, empty, 0.0, 0.0, None, [], None)
  }

  /** The listener calls made when the state becomes `on`: one call if a
      listener is registered, none otherwise. */
  function Notify(listener: Option<Listener>, on: bool): seq<Notification> {
    match listener
    case None => []
    case Some(l) => [Notification(l, on)]
  }

  /** onMeasure: resolve both sizes, recompute every derived quantity from
      width and height alone and put the thumb at the rest position of the
      current state. `thumbRadii` is the radius computed from the resolved
      sizes. */
  function Measured(s: Widget, widthSpec: MeasureSpec, heightSpec: MeasureSpec,
                    desiredWidth: nat, desiredHeight: nat, thumbRadii: nat): Widget
    requires ThumbFits(ResolveSize(widthSpec, desiredWidth), ResolveSize(heightSpec, desiredHeight), thumbRadii)
  {
    var sized := s.(width := ResolveSize(widthSpec, desiredWidth), height := ResolveSize(heightSpec, desiredHeight));
    ArcsPlaced(ThumbPlaced(Derived(sized, thumbRadii)))
  }

  /** The radii, the padding and the rate that turns an alpha into a thumb
      circle radius; the rate is left as it was when the thumb radius is 0. */
  function Derived(s: Widget, thumbRadii: nat): Widget
    requires ThumbFits(s.width, s.height, thumbRadii)
  {
    s.(outerRadii := Min(s.width, s.height) / 2,
       thumbRadii := thumbRadii,
       animationRate := if thumbRadii != 0 then 255 / thumbRadii else s.animationRate,
       padding := (s.height - thumbRadii) / 2)
  }

  /** The centres of the two rest positions, and the thumb at the rest
      position of the current state. */
  function ThumbPlaced(s: Widget): Widget {
    SnappedToRest(s).(thumbOnCenterX := s.Rest(true).CenterX(),
                      thumbOffCenterX := s.Rest(false).CenterX())
  }

  /** The bounds of the track's rounded ends: the outer ones span the full
      height and a square of side 2 * outerRadii at each end, the inner ones
      are inset by a tenth of the padding. */
  function ArcsPlaced(s: Widget): Widget {
    var d := 2 * s.outerRadii;
    var inset := s.padding / 10;
    s.(leftBgArc := Rect(0, 0, d, s.height),
       rightBgArc := Rect(s.width - d, 0, s.width, s.height),
       leftFgArc := Rect(inset, inset, d - inset, s.height - inset),
       rightFgArc := Rect(s.width - d + inset, inset, s.width - inset, s.height - inset))
  }

  /** setOn(on), which never reads `on`: the thumb snaps to the rest
      position of the state the widget already has. */
  function SnappedToRest(s: Widget): Widget {
    s.(thumbBounds := s.Rest(s.isOn))
  }

  /** performClick: flip the state, start the animation from the old rest
      position to the new one, and tell the listener the new state. */
  function Clicked(s: Widget): Widget {
    s.(isOn := !s.isOn,
       animation := Some(Animation(s.RestLeft(s.isOn), s.RestLeft(!s.isOn))),
       notified := s.notified + Notify(s.listener, !s.isOn))
  }

  /** ACTION_MOVE: centre the thumb on `x` when the whole thumb then lies
      strictly inside the padded track; otherwise ignore the move. */
  function Moved(s: Widget, x: int): Widget {
    var half := s.thumbRadii / 2;
    if x - half > s.padding && x + half < s.width - s.padding then
      s.(thumbBounds := s.thumbBounds.(left := x - half, right := x + half))
    else
      s
  }

  /** A drag released at `x`: the half of the widget holding `x` decides the
      state; the animation starts at `x` kept within the rest positions on
      that side, and the listener is told the state whether or not it
      changed. */
  function Released(s: Widget, x: int): Widget {
    var on := x >= s.width / 2;
    var from := if on then Min(x, s.RestLeft(true)) else Max(x, s.RestLeft(false));
    s.(isOn := on,
       animation := Some(Animation(from, s.RestLeft(on))),
       notified := s.notified + Notify(s.listener, on))
  }

  /** ACTION_UP or ACTION_CANCEL at time `now`. */
  function Lifted(s: Widget, x: int, now: int): Widget {
    if now - s.startTime < TAP_LIMIT_MS then Clicked(s) else Released(s, x)
  }

  /** onTouchEvent's effect on the state. */
  function Touched(s: Widget, action: Action, x: int, now: int): Widget {
    match action
    case Down => s.(startTime := now)
    case Move => Moved(s, x)
    case Up => Lifted(s, x, now)
    case Cancel => Lifted(s, x, now)
    case Other(_) => s
  }

  /** onTouchEvent's result: the framework's answer for actions the widget
      does not handle, true for the four it does. */
  function TouchResult(action: Action, superHandled: bool): bool {
    if action.Other? then superHandled else true
  }

  /** The last frame of the running animation: its update listener moves the
      thumb to [value, value + thumbRadii]. */
  function Settled(s: Widget): Widget {
    match s.animation
    case None => s
    case Some(a) =>
      s.(thumbBounds := s.thumbBounds.(left := a.to, right := a.to + s.thumbRadii),
         animation := None)
  }

  function Step(s: Widget, e: Event): Widget {
    match e
    case Touch(action, x, time) => Touched(s, action, x, time)
    case Click => Clicked(s)
    case Settle => Settled(s)
  }

  /** The widget after the host delivers `events` in order. */
  function Run(s: Widget, events: seq<Event>): Widget
    decreases |events|
  {
    if events == [] then s else Run(Step(s, events[0]), events[1..])
  }
}
