/** Concrete sessions with one widget, checked against the contracts of its
    methods alone. Most sessions use a 100 x 40 widget, whose thumb radius
    is (int)(40 / 2.88f) = 13 and whose padding is (40 - 13) / 2 = 13. */
module Scenarios {
  import opened Layout
  import opened SwitchState
  import opened View

  const LISTENER := Listener(7)

  method WideSwitch() returns (v: SwitchView)
    ensures fresh(v)
    ensures v.Snapshot().width == 100 && v.Snapshot().height == 40
    ensures v.Snapshot().padding == 13 && v.Snapshot().thumbRadii == 13
    ensures !v.Snapshot().isOn && v.Snapshot().thumbBounds == Rect(13, 13, 26, 27)
    ensures v.Snapshot().listener == Some(LISTENER) && v.Snapshot().notified == []
    ensures v.Snapshot().animation == None
  {
    v := new SwitchView(false, 0, -1, 0);
    v.SetOnSwitchViewdListener(Some(LISTENER));
    v.Measure(MeasureSpec(Exactly, 100), MeasureSpec(Exactly, 40), 0, 0, 13);
  }

  /** Press at 10, move to 15, release 50 ms later. The move is ignored (the
      thumb would start at 15 - 6 = 9, left of the padding), and the release
      is a tap: the switch turns on and the listener hears it once. */
  method TapSession() {
    var v := WideSwitch();
    var handled := v.OnTouchEvent(Down, 10, 1000, false);
    handled := v.OnTouchEvent(Move, 15, 1010, false);
    assert v.Snapshot().thumbBounds == Rect(13, 13, 26, 27);
    handled := v.OnTouchEvent(Up, 15, 1050, false);
    assert handled;
    assert v.IsOn();
    assert v.Snapshot().notified == [Notification(LISTENER, true)];
    assert v.Snapshot().animation == Some(Animation(13, 74));
    v.SettleAnimation();
    assert v.Snapshot().thumbBounds == Rect(74, 13, 87, 27);
  }

  /** Press at 10, hold 300 ms, move to 90 (ignored: 90 + 6 is beyond
      100 - 13), release at 90: a drag on the right half, so the switch
      turns on; the animation starts at 90 kept to the "on" rest position. */
  method DragSession() {
    var v := WideSwitch();
    var handled := v.OnTouchEvent(Down, 10, 1000, false);
    handled := v.OnTouchEvent(Move, 90, 1300, false);
    assert v.Snapshot().thumbBounds == Rect(13, 13, 26, 27);
    handled := v.OnTouchEvent(Up, 90, 1300, false);
    assert v.IsOn();
    assert v.Snapshot().notified == [Notification(LISTENER, true)];
    assert v.Snapshot().animation == Some(Animation(74, 74));
  }

  /** A drag that follows the finger to 60 leaves the thumb centred there,
      at [54, 66]; the release animation then starts with the thumb's left
      edge at 60, not at 54. */
  method DragFromMidTrack() {
    var v := WideSwitch();
    var handled := v.OnTouchEvent(Down, 20, 0, false);
    handled := v.OnTouchEvent(Move, 60, 250, false);
    assert v.Snapshot().thumbBounds == Rect(54, 13, 66, 27);
    handled := v.OnTouchEvent(Up, 60, 400, false);
    assert v.Snapshot().animation == Some(Animation(60, 74));
  }

  /** Releasing a drag on the half the switch is already on still calls
      the listener. */
  method DragWithoutChange() {
    var v := WideSwitch();
    var handled := v.OnTouchEvent(Down, 20, 0, false);
    handled := v.OnTouchEvent(Cancel, 20, 500, false);
    assert !v.IsOn();
    assert v.Snapshot().notified == [Notification(LISTENER, false)];
  }

  /** setOn(true) on a switch that is off leaves it off and calls no
      listener. */
  method SetOnIsIgnored() {
    var v := WideSwitch();
    v.SetOn(true);
    assert !v.IsOn();
    assert v.Snapshot().notified == [];
    assert v.Snapshot().thumbBounds == Rect(13, 13, 26, 27);
  }

  /** Colours are stored as given and read back unchanged. */
  method ColourRoundTrip() {
    var v := WideSwitch();
    v.SetColorOn(0x00FF00);
    v.SetColorBorder(0x0000FF);
    assert v.GetColorOn() == 0x00FF00;
    assert !v.IsOn() && v.Snapshot().padding == 13;
  }

  /** On a 40 x 40 widget (thumb radius 13, padding 13) a drag released at
      19, left of the midpoint 20, turns the switch off with an animation
      starting at 19: its first frame draws the thumb at [19, 32], past the
      right padding at 27. */
  method SquareLateRelease() {
    var v := new SwitchView(false, 0, -1, 0);
    v.Measure(MeasureSpec(Exactly, 40), MeasureSpec(Exactly, 40), 0, 0, 13);
    assert v.Snapshot().padding == 13;
    var handled := v.OnTouchEvent(Down, 19, 0, false);
    handled := v.OnTouchEvent(Up, 19, 300, false);
    assert !v.IsOn();
    assert v.Snapshot().animation == Some(Animation(19, 13));
    assert 19 + v.Snapshot().thumbRadii > v.Snapshot().width - v.Snapshot().padding;
  }

  /** On a 10 x 40 widget (thumb radius 3, padding 18) the "on" rest
      position, left edge 10 - 18 - 3 = -11, lies left of the "off" one. */
  method TallSwitch() {
    var v := new SwitchView(false, 0, -1, 0);
    v.Measure(MeasureSpec(Exactly, 10), MeasureSpec(Exactly, 40), 0, 0, 3);
    assert v.Snapshot().padding == 18;
    assert v.Snapshot().RestLeft(true) == -11 < v.Snapshot().RestLeft(false) == 18;
  }
}
