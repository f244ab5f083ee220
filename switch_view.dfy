/** The widget itself: its fields are updated in place by the layout pass,
    by clicks and touches and by the setters. Each layout, click, touch and
    animation method is proved to leave the object in the state the matching
    function of SwitchState gives; each setter changes its one field. */
module View {
  import opened Layout
  import opened SwitchState

  class SwitchView {
    var width: nat
    var height: nat
    var isOn: bool
    var padding: nat
    var colorOn: int
    var colorOff: int
    var colorBorder: int
    var outerRadii: nat
    var thumbRadii: nat
    var animationRate: nat
    var startTime: int
    var thumbBounds: Rect
    var leftBgArc: Rect
    var rightBgArc: Rect
    var leftFgArc: Rect
    var rightFgArc: Rect
    var thumbOnCenterX: real
    var thumbOffCenterX: real
    var listener: Option<Listener>
    /** Listener calls made so far, oldest first. */
    var notified: seq<Notification>
    /** The animation started last, until it reaches its end. */
    var animation: Option<Animation>

    /** The object's state as a value. */
    function Snapshot(): Widget
      reads this
    {
      Widget(width, height, isOn, padding, colorOn, colorOff, colorBorder,
             outerRadii, thumbRadii, animationRate, startTime, thumbBounds,
             leftBgArc, rightBgArc, leftFgArc, rightFgArc,
             thumbOnCenterX, thumbOffCenterX, listener, notified, animation)
    }

    /** The defaults of initView followed by the attributes parsed in init,
        which the host resolves and passes in. */
    constructor (on: bool, colorOn: int, colorOff: int, colorBorder: int)
      ensures Snapshot() == Initial(on, colorOn, colorOff, colorBorder)
    {
      this.isOn := on;
      this.colorOn := colorOn;
      this.colorOff := colorOff;
      this.colorBorder := colorBorder;
      width, height, padding := 0, 0, 0;
      outerRadii, thumbRadii, animationRate, startTime := 0, 0, 0, 0;
      thumbBounds := Rect(0, 0, 0, 0);
      leftBgArc, rightBgArc := Rect(0, 0, 0, 0), Rect(0, 0, 0, 0);
      leftFgArc, rightFgArc := Rect(0, 0, 0, 0), Rect(0, 0, 0, 0);
      thumbOnCenterX, thumbOffCenterX := 0.0, 0.0;
      listener, notified, animation := None, [], None;
    }

    /** onMeasure, given the desired sizes from the resources and the thumb
        radius derived from the resolved sizes. */
    method Measure(widthSpec: MeasureSpec, heightSpec: MeasureSpec,
                   desiredWidth: nat, desiredHeight: nat, radius: nat)
      requires ThumbFits(ResolveSize(widthSpec, desiredWidth), ResolveSize(heightSpec, desiredHeight), radius)
      modifies this
      ensures Snapshot() == Measured(old(Snapshot()), widthSpec, heightSpec, desiredWidth, desiredHeight, radius)
    {
      width := ResolveSize(widthSpec, desiredWidth);
      height := ResolveSize(heightSpec, desiredHeight);
      DeriveGeometry(radius);
      PlaceThumb();
      PlaceArcs();
    }

    /** The radii, padding and animation rate part of onMeasure. */
    method DeriveGeometry(radius: nat)
      requires ThumbFits(width, height, radius)
      modifies this
      ensures Snapshot() == Derived(old(Snapshot()), radius)
    {
      outerRadii := Min(width, height) / 2;
      thumbRadii := radius;
      if thumbRadii != 0 {
        animationRate := 255 / thumbRadii;
      }
      padding := (height - thumbRadii) / 2;
    }

    /** The rest positions and thumb placement part of onMeasure. */
    method PlaceThumb()
      modifies this
      ensures Snapshot() == ThumbPlaced(old(Snapshot()))
    {
      thumbBounds := OnRest(width, height, padding, thumbRadii);
      thumbOnCenterX := thumbBounds.CenterX();
      thumbBounds := OffRest(height, padding, thumbRadii);
      thumbOffCenterX := thumbBounds.CenterX();
      if isOn {
        thumbBounds := OnRest(width, height, padding, thumbRadii);
      } else {
        thumbBounds := OffRest(height, padding, thumbRadii);
      }
    }

    /** The track-end rectangles part of onMeasure. */
    method PlaceArcs()
      modifies this
      ensures Snapshot() == ArcsPlaced(old(Snapshot()))
    {
      leftBgArc := Rect(0, 0, 2 * outerRadii, height);
      rightBgArc := Rect(width - 2 * outerRadii, 0, width, height);
      leftFgArc := Rect(padding / 10, padding / 10, 2 * outerRadii - padding / 10, height - padding / 10);
      rightFgArc := Rect(width - 2 * outerRadii + padding / 10, padding / 10, width - padding / 10, height - padding / 10);
    }

    method PerformClick() returns (handled: bool)
      modifies this
      ensures handled
      ensures Snapshot() == Clicked(old(Snapshot()))
    {
      if isOn {
        animation := Some(Animation(width - padding - thumbRadii, padding));
      } else {
        animation := Some(Animation(padding, width - padding - thumbRadii));
      }
      isOn := !isOn;
      if listener.Some? {
        notified := notified + [Notification(listener.value, isOn)];
      }
      handled := true;
    }

    /** onTouchEvent for a touch at horizontal position `x` delivered at time
        `now`; `superHandled` is what the framework's default handler would
        answer for an action the widget does not handle. */
    method OnTouchEvent(action: Action, x: int, now: int, superHandled: bool) returns (handled: bool)
      modifies this
      ensures handled == TouchResult(action, superHandled)
      ensures Snapshot() == Touched(old(Snapshot()), action, x, now)
    {
      match action
      case Down =>
        startTime := now;
        handled := true;
      case Move =>
        var half := thumbRadii / 2;
        if x - half > padding && x + half < width - padding {
          thumbBounds := thumbBounds.(left := x - half, right := x + half);
        }
        handled := true;
      case Up | Cancel =>
        var span := now - startTime;
        if span < TAP_LIMIT_MS {
          var _ := PerformClick();
        } else {
          CommitDrag(x);
        }
        handled := true;
      case Other(_) =>
        handled := superHandled;
    }

    /** The drag-release part of onTouchEvent: the side of the midpoint
        holding `x` decides the state. */
    method CommitDrag(x: int)
      modifies this
      ensures Snapshot() == Released(old(Snapshot()), x)
    {
      if x >= width / 2 {
        var onLeft := width - padding - thumbRadii;
        animation := Some(Animation(if x > onLeft then onLeft else x, onLeft));
        isOn := true;
      } else {
        animation := Some(Animation(if x < padding then padding else x, padding));
        isOn := false;
      }
      if listener.Some? {
        notified := notified + [Notification(listener.value, isOn)];
      }
    }

    /** The animation's final frame. */
    method SettleAnimation()
      modifies this
      ensures Snapshot() == Settled(old(Snapshot()))
    {
      if animation.Some? {
        var value := animation.value.to;
        thumbBounds := thumbBounds.(left := value, right := value + thumbRadii);
        animation := None;
      }
    }

    function GetColorOn(): (r: int)
      reads this
      ensures r == Snapshot().colorOn
    {
      colorOn
    }

    method SetColorOn(color: int)
      modifies this
      ensures GetColorOn() == color
      ensures Snapshot() == old(Snapshot()).(colorOn := color)
    {
      colorOn := color;
    }

    function GetColorOff(): (r: int)
      reads this
      ensures r == Snapshot().colorOff
    {
      colorOff
    }

    method SetColorOff(color: int)
      modifies this
      ensures GetColorOff() == color
      ensures Snapshot() == old(Snapshot()).(colorOff := color)
    {
      colorOff := color;
    }

    function GetColorBorder(): (r: int)
      reads this
      ensures r == Snapshot().colorBorder
    {
      colorBorder
    }

    method SetColorBorder(color: int)
      modifies this
      ensures GetColorBorder() == color
      ensures Snapshot() == old(Snapshot()).(colorBorder := color)
    {
      colorBorder := color;
    }

    function IsOn(): (r: bool)
      reads this
      ensures r == Snapshot().isOn
    {
      isOn
    }

    /** setOn: the argument is never read, so the state stays as it was and
        only the thumb moves, to the rest position of that state. */
    method SetOn(on: bool)
      modifies this
      ensures IsOn() == old(IsOn())
      ensures Snapshot() == SnappedToRest(old(Snapshot()))
    {
      if isOn {
        thumbBounds := OnRest(width, height, padding, thumbRadii);
      } else {
        thumbBounds := OffRest(height, padding, thumbRadii);
      }
    }

    /** Registers `l`, replacing any earlier listener; None unregisters. */
    method SetOnSwitchViewdListener(l: Option<Listener>)
      modifies this
      ensures Snapshot() == old(Snapshot()).(listener := l)
    {
      listener := l;
    }
  }
}
