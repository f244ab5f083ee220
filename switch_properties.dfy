/** What the layout pass, clicks, touches and setOn promise, proved about the
    functions of SwitchState that the class's methods are tied to. */
module SwitchProperties {
  import opened Layout
  import opened SwitchState

  /** The listener, if any, was called exactly once, with `on`, and nothing
      else was added to the record of calls. */
  predicate ToldOnce(before: Widget, after: Widget, on: bool) {
    match before.listener
    case None => after.notified == before.notified
    case Some(l) => after.notified == before.notified + [Notification(l, on)]
  }

  /** `after` differs from `before` at most in the logical state, the
      listener calls and the running animation. */
  predicate OnlyStateChanged(before: Widget, after: Widget) {
    after == before.(isOn := after.isOn, notified := after.notified, animation := after.animation)
  }

  // ---------------------------------------------------------------------
  // Layout

  /** Each size is resolved from its own spec; the radii, padding and rate
      are the halves and quotients the layout promises. */
  lemma MeasureGeometry(s: Widget, widthSpec: MeasureSpec, heightSpec: MeasureSpec,
                        desiredWidth: nat, desiredHeight: nat, thumbRadii: nat)
    requires ThumbFits(ResolveSize(widthSpec, desiredWidth), ResolveSize(heightSpec, desiredHeight), thumbRadii)
    ensures var m := Measured(s, widthSpec, heightSpec, desiredWidth, desiredHeight, thumbRadii);
            && m.width == ResolveSize(widthSpec, desiredWidth)
            && m.height == ResolveSize(heightSpec, desiredHeight)
            && m.thumbRadii == thumbRadii
            && 2 * m.outerRadii <= Min(m.width, m.height) <= 2 * m.outerRadii + 1
            && 2 * m.padding + thumbRadii <= m.height <= 2 * m.padding + thumbRadii + 1
            && (thumbRadii != 0 ==> m.animationRate * thumbRadii <= 255 < (m.animationRate + 1) * thumbRadii)
            && (thumbRadii == 0 ==> m.animationRate == s.animationRate)
  {
    var m := Measured(s, widthSpec, heightSpec, desiredWidth, desiredHeight, thumbRadii);
    if thumbRadii != 0 {
      assert m.animationRate == 255 / thumbRadii;
      DivisionBounds(255, thumbRadii);
    }
  }

  lemma DivisionBounds(a: nat, b: nat)
    requires b > 0
    ensures (a / b) * b <= a < (a / b + 1) * b
  {
    assert a == (a / b) * b + a % b;
  }

  /** Once the thumb radius is above 255 the rate becomes 0; the drawing
      code divides by it. */
  lemma LargeThumbZeroRate(s: Widget, widthSpec: MeasureSpec, heightSpec: MeasureSpec,
                           desiredWidth: nat, desiredHeight: nat, thumbRadii: nat)
    requires ThumbFits(ResolveSize(widthSpec, desiredWidth), ResolveSize(heightSpec, desiredHeight), thumbRadii)
    requires thumbRadii > 255
    ensures Measured(s, widthSpec, heightSpec, desiredWidth, desiredHeight, thumbRadii).animationRate == 0
  {
  }

  /** Measuring twice with the same inputs gives the same widget as
      measuring once. */
  lemma MeasureIdempotent(s: Widget, widthSpec: MeasureSpec, heightSpec: MeasureSpec,
                          desiredWidth: nat, desiredHeight: nat, thumbRadii: nat)
    requires ThumbFits(ResolveSize(widthSpec, desiredWidth), ResolveSize(heightSpec, desiredHeight), thumbRadii)
    ensures var m := Measured(s, widthSpec, heightSpec, desiredWidth, desiredHeight, thumbRadii);
            Measured(m, widthSpec, heightSpec, desiredWidth, desiredHeight, thumbRadii) == m
  {
  }

  /** The layout pass leaves the state, the colours, the listener and its
      calls alone, and puts the thumb on the rest interval of the current
      state. */
  lemma MeasurePlacesThumb(s: Widget, widthSpec: MeasureSpec, heightSpec: MeasureSpec,
                           desiredWidth: nat, desiredHeight: nat, thumbRadii: nat)
    requires ThumbFits(ResolveSize(widthSpec, desiredWidth), ResolveSize(heightSpec, desiredHeight), thumbRadii)
    ensures var m := Measured(s, widthSpec, heightSpec, desiredWidth, desiredHeight, thumbRadii);
            && m.isOn == s.isOn
            && m.colorOn == s.colorOn && m.colorOff == s.colorOff && m.colorBorder == s.colorBorder
            && m.listener == s.listener && m.notified == s.notified
            && m.startTime == s.startTime && m.animation == s.animation
            && m.thumbBounds.top == m.padding && m.thumbBounds.bottom == m.height - m.padding
            && (s.isOn ==> m.thumbBounds.left == m.width - m.padding - thumbRadii && m.thumbBounds.right == m.width - m.padding)
            && (!s.isOn ==> m.thumbBounds.left == m.padding && m.thumbBounds.right == m.padding + thumbRadii)
            && m.thumbOnCenterX == m.Rest(true).CenterX() && m.thumbOffCenterX == m.Rest(false).CenterX()
  {
  }

  /** The "off" rest position lies left of the "on" one on a widget at least
      as wide as it is tall, and both then lie inside the widget; on a
      widget taller than it is wide by two pixels or more they swap. */
  lemma RestOrder(s: Widget, widthSpec: MeasureSpec, heightSpec: MeasureSpec,
                  desiredWidth: nat, desiredHeight: nat, thumbRadii: nat)
    requires ThumbFits(ResolveSize(widthSpec, desiredWidth), ResolveSize(heightSpec, desiredHeight), thumbRadii)
    ensures var m := Measured(s, widthSpec, heightSpec, desiredWidth, desiredHeight, thumbRadii);
            && (m.width >= m.height ==>
                  && 0 <= m.RestLeft(false) <= m.RestLeft(true)
                  && m.RestLeft(true) + thumbRadii <= m.width
                  && m.thumbOffCenterX <= m.thumbOnCenterX)
            && (m.width + 2 <= m.height ==>
                  && m.RestLeft(true) < m.RestLeft(false)
                  && m.thumbOnCenterX < m.thumbOffCenterX)
  {
    MeasureGeometry(s, widthSpec, heightSpec, desiredWidth, desiredHeight, thumbRadii);
  }

  /** The inner arc rectangles are the outer ones inset by a tenth of the
      padding; the outer ones are the squares at the two ends of the
      track, inside the widget. */
  lemma ArcsInset(s: Widget, widthSpec: MeasureSpec, heightSpec: MeasureSpec,
                  desiredWidth: nat, desiredHeight: nat, thumbRadii: nat)
    requires ThumbFits(ResolveSize(widthSpec, desiredWidth), ResolveSize(heightSpec, desiredHeight), thumbRadii)
    ensures var m := Measured(s, widthSpec, heightSpec, desiredWidth, desiredHeight, thumbRadii);
            && m.leftBgArc == Rect(0, 0, 2 * m.outerRadii, m.height)
            && m.rightBgArc == Rect(m.width - 2 * m.outerRadii, 0, m.width, m.height)
            && m.leftFgArc == m.leftBgArc.Inset(m.padding / 10)
            && m.rightFgArc == m.rightBgArc.Inset(m.padding / 10)
            && 0 <= 2 * m.outerRadii <= m.width
  {
  }

  // ---------------------------------------------------------------------
  // Clicks and touches, one at a time

  /** A click flips the state, tells the listener the new state once, and
      animates from the old rest position to the new one. */
  lemma ClickToggles(s: Widget)
    ensures var c := Clicked(s);
            && c.isOn == !s.isOn
            && ToldOnce(s, c, c.isOn)
            && c.animation == Some(Animation(s.RestLeft(s.isOn), c.RestLeft(c.isOn)))
            && OnlyStateChanged(s, c)
  {
  }

  /** Two clicks restore the state, and the second animation retraces the
      first. */
  lemma ClickTwice(s: Widget)
    ensures var c := Clicked(s);
            var cc := Clicked(c);
            && cc.isOn == s.isOn
            && cc.animation == Some(Animation(c.animation.value.to, c.animation.value.from))
            && |cc.notified| == |s.notified| + (if s.listener.Some? then 2 else 0)
  {
  }

  /** A press only records its time. */
  lemma DownRecordsTime(s: Widget, x: int, now: int)
    ensures Touched(s, Down, x, now) == s.(startTime := now)
    ensures forall superHandled :: TouchResult(Down, superHandled)
  {
  }

  /** A move centres the thumb on `x` exactly when the whole thumb then
      lies strictly inside the padded track, and is otherwise ignored; it
      never changes the state. */
  lemma MoveRule(s: Widget, x: int, now: int)
    ensures var m := Touched(s, Move, x, now);
            var half := s.thumbRadii / 2;
            && m.isOn == s.isOn && m.notified == s.notified
            && (s.padding < x - half && x + half < s.width - s.padding ==>
                  m == s.(thumbBounds := Rect(x - half, s.thumbBounds.top, x + half, s.thumbBounds.bottom))
                  && m.thumbBounds.CenterX() == x as real)
            && (!(s.padding < x - half && x + half < s.width - s.padding) ==> m == s)
            && (m == s || (s.padding < m.thumbBounds.left && m.thumbBounds.right < s.width - s.padding))
    ensures forall superHandled :: TouchResult(Move, superHandled)
  {
  }

  /** A release within 200 ms of the press is a click. */
  lemma TapIsClick(s: Widget, action: Action, x: int, now: int)
    requires action == Up || action == Cancel
    requires now - s.startTime < TAP_LIMIT_MS
    ensures Touched(s, action, x, now) == Clicked(s)
    ensures forall superHandled :: TouchResult(action, superHandled)
  {
  }

  /** A later release commits to the half of the widget holding `x` and
      tells the listener once even when the state is what it was; the
      animation runs from `x`, kept within the rest position on that side,
      to the rest position of the new state. */
  lemma DragRelease(s: Widget, action: Action, x: int, now: int)
    requires action == Up || action == Cancel
    requires now - s.startTime >= TAP_LIMIT_MS
    ensures var r := Touched(s, action, x, now);
            && (r.isOn <==> x >= s.width / 2)
            && ToldOnce(s, r, r.isOn)
            && r.animation.Some? && r.animation.value.to == r.RestLeft(r.isOn)
            && (r.isOn ==> r.animation.value.from == Min(x, s.RestLeft(true)) <= s.RestLeft(true))
            && (!r.isOn ==> r.animation.value.from == Max(x, s.RestLeft(false)) >= s.RestLeft(false))
            && OnlyStateChanged(s, r)
    ensures forall superHandled :: TouchResult(action, superHandled)
  {
  }

  /** Actions other than the four handled ones change nothing. */
  lemma OtherIgnored(s: Widget, code: int, x: int, now: int, superHandled: bool)
    ensures Touched(s, Other(code), x, now) == s
    ensures TouchResult(Other(code), superHandled) == superHandled
  {
  }

  /** setOn keeps the state and calls no listener: the thumb goes to the
      rest interval of the state the widget already has. */
  lemma SnapKeepsState(s: Widget)
    ensures var r := SnappedToRest(s);
            && r.isOn == s.isOn && r.notified == s.notified && r.animation == s.animation
            && r.thumbBounds == s.Rest(s.isOn)
            && r == s.(thumbBounds := r.thumbBounds)
            && SnappedToRest(r) == r
  {
  }

  /** When the animation started by a click or a release reaches its end,
      the thumb rests at the position of the new state. */
  lemma SettleReachesRest(s: Widget, e: Event)
    requires e.Click? || (e.Touch? && (e.action == Up || e.action == Cancel))
    ensures var r := Settled(Step(s, e));
            && r.animation == None
            && r.thumbBounds.left == r.RestLeft(r.isOn)
            && r.thumbBounds.right == r.RestLeft(r.isOn) + r.thumbRadii
            && (r.isOn ==> r.thumbBounds.right == r.width - r.padding)
  {
  }

  // ---------------------------------------------------------------------
  // Sequences of events

  /** A click, or a touch release. */
  predicate Commits(e: Event) {
    e.Click? || (e.Touch? && (e.action == Up || e.action == Cancel))
  }

  function CommitCount(events: seq<Event>): (n: nat)
    ensures n <= |events|
  {
    if events == [] then 0 else (if Commits(events[0]) then 1 else 0) + CommitCount(events[1..])
  }

  predicate AllMoves(events: seq<Event>) {
    forall i :: 0 <= i < |events| ==> events[i].Touch? && events[i].action == Move
  }

  lemma {:induction false} RunAppend(s: Widget, a: seq<Event>, b: seq<Event>)
    ensures Run(s, a + b) == Run(Run(s, a), b)
    decreases |a|
  {
    if a == [] {
      assert a + b == b;
    } else {
      assert (a + b)[0] == a[0];
      assert (a + b)[1..] == a[1..] + b;
      RunAppend(Step(s, a[0]), a[1..], b);
    }
  }

  /** Moves touch nothing but the thumb. */
  lemma {:induction false} MovesKeep(s: Widget, moves: seq<Event>)
    requires AllMoves(moves)
    ensures Run(s, moves) == s.(thumbBounds := Run(s, moves).thumbBounds)
    decreases |moves|
  {
    if moves != [] {
      assert moves[0].Touch? && moves[0].action == Move;
      MovesKeep(Step(s, moves[0]), moves[1..]);
    }
  }

  lemma Gesture(s: Widget, x0: int, t0: int, moves: seq<Event>, lift: Action, x: int, t1: int)
    requires AllMoves(moves)
    ensures var g := Run(s, [Touch(Down, x0, t0)] + moves + [Touch(lift, x, t1)]);
            var m := Run(s.(startTime := t0), moves);
            g == Touched(m, lift, x, t1) && m == s.(startTime := t0, thumbBounds := m.thumbBounds)
  {
    var down := s.(startTime := t0);
    RunAppend(s, [Touch(Down, x0, t0)] + moves, [Touch(lift, x, t1)]);
    RunAppend(s, [Touch(Down, x0, t0)], moves);
    MovesKeep(down, moves);
  }

  /** Press, any moves, release within 200 ms: the state flips and the
      listener hears the new state once. */
  lemma TapGesture(s: Widget, x0: int, t0: int, moves: seq<Event>, lift: Action, x: int, t1: int)
    requires AllMoves(moves)
    requires lift == Up || lift == Cancel
    requires t1 - t0 < TAP_LIMIT_MS
    ensures var g := Run(s, [Touch(Down, x0, t0)] + moves + [Touch(lift, x, t1)]);
            g.isOn == !s.isOn && ToldOnce(s, g, g.isOn)
  {
    Gesture(s, x0, t0, moves, lift, x, t1);
  }

  /** Press, any moves, release 200 ms or more later: the state is decided
      by the side of the midpoint the finger leaves, whatever the state
      was and wherever the drag began, and the listener hears it once. */
  lemma DragGesture(s: Widget, x0: int, t0: int, moves: seq<Event>, lift: Action, x: int, t1: int)
    requires AllMoves(moves)
    requires lift == Up || lift == Cancel
    requires t1 - t0 >= TAP_LIMIT_MS
    ensures var g := Run(s, [Touch(Down, x0, t0)] + moves + [Touch(lift, x, t1)]);
            (g.isOn <==> x >= s.width / 2) && ToldOnce(s, g, g.isOn)
  {
    Gesture(s, x0, t0, moves, lift, x, t1);
  }

  /** The listener hears once per click and once per release, never
      otherwise, and earlier calls stay as they were. */
  lemma {:induction false} OneCallPerCommit(s: Widget, events: seq<Event>)
    ensures var r := Run(s, events);
            && r.listener == s.listener
            && |r.notified| == |s.notified| + (if s.listener.Some? then CommitCount(events) else 0)
            && r.notified[..|s.notified|] == s.notified
    decreases |events|
  {
    if events != [] {
      var next := Step(s, events[0]);
      OneCallPerCommit(next, events[1..]);
      assert next.notified[..|s.notified|] == s.notified;
    }
  }

  /** Without a click or a release the state never changes. */
  lemma {:induction false} StateNeedsCommit(s: Widget, events: seq<Event>)
    requires CommitCount(events) == 0
    ensures Run(s, events).isOn == s.isOn
    decreases |events|
  {
    if events != [] {
      StateNeedsCommit(Step(s, events[0]), events[1..]);
    }
  }

  /** The listener's last call carries the widget's current state. */
  predicate InSync(s: Widget) {
    |s.notified| > 0 && s.notified[|s.notified| - 1].isOn == s.isOn
  }

  /** With a listener registered, once a click or release has happened the
      listener's last call always carries the current state. */
  lemma {:induction false} ListenerInSync(s: Widget, events: seq<Event>)
    requires s.listener.Some?
    requires InSync(s) || CommitCount(events) > 0
    ensures InSync(Run(s, events))
    decreases |events|
  {
    if events != [] {
      var next := Step(s, events[0]);
      ListenerInSync(next, events[1..]);
    }
  }

  /** The thumb lies within the padded track, and a running animation ends
      at one of the two rest positions. */
  predicate InTrack(s: Widget) {
    && s.padding <= s.thumbBounds.left
    && s.thumbBounds.right <= s.width - s.padding
    && (s.animation.Some? ==> s.animation.value.to in {s.RestLeft(false), s.RestLeft(true)})
  }

  /** The track has room for the thumb between the two paddings. */
  predicate Roomy(s: Widget) {
    2 * s.padding + s.thumbRadii <= s.width
  }

  lemma StepInTrack(s: Widget, e: Event)
    requires Roomy(s) && InTrack(s)
    ensures Roomy(Step(s, e)) && InTrack(Step(s, e))
  {
  }

  /** setOn keeps the thumb in the track: it only moves it to a rest
      position. */
  lemma SnapInTrack(s: Widget)
    requires Roomy(s) && InTrack(s)
    ensures Roomy(SnappedToRest(s)) && InTrack(SnappedToRest(s))
  {
  }

  /** No sequence of clicks, touches and animation ends moves the thumb out
      of the padded track. */
  lemma {:induction false} TrackInvariant(s: Widget, events: seq<Event>)
    requires Roomy(s) && InTrack(s)
    ensures InTrack(Run(s, events))
    decreases |events|
  {
    if events != [] {
      StepInTrack(s, events[0]);
      TrackInvariant(Step(s, events[0]), events[1..]);
    }
  }

  /** The first frame of a drag release's animation draws the thumb at
      [from, from + thumbRadii], a position `InTrack` does not speak of.
      Released on the "on" half, that frame stays in the track; released on
      the "off" half, it crosses the right padding exactly when a thumb with
      its left edge at `x` would. */
  lemma ReleaseStartFrame(s: Widget, x: int)
    requires Roomy(s)
    ensures var a := Released(s, x).animation.value;
            && (x >= s.width / 2 ==> s.padding <= a.from && a.from + s.thumbRadii <= s.width - s.padding)
            && (x < s.width / 2 ==>
                  && s.padding <= a.from
                  && (a.from + s.thumbRadii > s.width - s.padding <==> x + s.thumbRadii > s.width - s.padding))
  {
  }

  /** A layout pass with no animation running leaves a widget at least as
      wide as it is tall in that condition. */
  lemma MeasureInTrack(s: Widget, widthSpec: MeasureSpec, heightSpec: MeasureSpec,
                       desiredWidth: nat, desiredHeight: nat, thumbRadii: nat)
    requires ThumbFits(ResolveSize(widthSpec, desiredWidth), ResolveSize(heightSpec, desiredHeight), thumbRadii)
    requires s.animation.None?
    requires ResolveSize(widthSpec, desiredWidth) >= ResolveSize(heightSpec, desiredHeight)
    ensures var m := Measured(s, widthSpec, heightSpec, desiredWidth, desiredHeight, thumbRadii);
            Roomy(m) && InTrack(m)
  {
    MeasureGeometry(s, widthSpec, heightSpec, desiredWidth, desiredHeight, thumbRadii);
  }
}
