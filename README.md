# SwitchView in Dafny

A model of `SwitchView`, an Android on/off toggle widget. It covers two parts of the widget: the layout pass (`onMeasure`) and the way the widget reacts to clicks, touches, `setOn` and its colour setters. The model proves properties of both.

The widget is the class `View.SwitchView` (switch_view.dfy). It has the Java class's fields. The thumb and arc `RectF`s become `Rect` values. Two more fields record what the widget does to the outside world:
- `notified` lists every `onSwitched` call made so far.
- `animation` holds the start and end values of the thumb animation started last.

Each layout, click, touch and animation method is proved to leave the object in the state given by a function of `SwitchState` (switch_state.dfy) applied to its old state. The constructor yields `Initial`, and each setter is proved to change its one field and nothing else. For example, `PerformClick` ensures `Snapshot() == Clicked(old(Snapshot()))`. The lemmas of `SwitchProperties` (switch_properties.dfy) state what those functions promise:
- the layout arithmetic;
- the rest positions of the thumb;
- the click, tap and drag rules;
- how often the listener is called;
- the thumb staying within the track.

`Run` applies a sequence of touches, clicks and animation ends, so several lemmas cover whole gestures rather than single events.

`Layout` (layout.dfy) resolves measure specs and builds the rest rectangles. `Render` (render.dfy) holds the part of drawing that the model keeps: the alpha of the two colour overlays. It models the two ratios of the thumb's position between the rest centres, Java's `(int)` cast and the clamp to 0..255. `Scenarios` (scenarios.dfy) verifies concrete sessions, using only the methods' contracts. Most use a 100 x 40 widget; `SquareLateRelease` uses a 40 x 40 one and `TallSwitch` a 10 x 40 one.

The model keeps the behaviour of the code as written, including the parts where the code does not do what its own documentation says:
- `setOn(on)` never reads `on` and never changes the state, although its Javadoc (SwitchView.java:459-463) says `on` is true to turn the switch on. It only snaps the thumb to the rest position of the state the widget already has, and it calls no listener (`SetOn`, `SnapKeepsState`, `Scenarios.SetOnIsIgnored`).
- A drag release calls the listener even when the state does not change (`DragRelease`, `Scenarios.DragWithoutChange`). The Javadoc of `setOnSwitchViewdListener` and of `OnSwitchViewdListener` (SwitchView.java:495-497, 516-520) says the callback is invoked when the state changes.
- The "off" rest position is left of the "on" one only on a widget at least as wide as it is tall. On a widget two or more pixels taller than wide, the two positions swap (`RestOrder`, `Scenarios.TallSwitch`).
- A move centres the thumb on the touch x. A drag release instead starts its animation with the thumb's left edge at the touch x, so the thumb jumps by half its width when the drag ends (`Scenarios.DragFromMidTrack`). On the "off" half that first frame can put the thumb past the right padding (`ReleaseStartFrame`, `Scenarios.SquareLateRelease`).
- A move is accepted only when the whole thumb stays strictly inside the padded track. On the 100 x 40 widget a move to x = 15 is therefore rejected (`Scenarios.TapSession`).
- For a thumb radius above 255, the measure pass sets the animation rate to 0 (`LargeThumbZeroRate`). The drawing code divides by that rate.

## Model

| member | source | states |
|---|---|---|
| `Layout.ResolveSize` | app/src/main/java/com/example/blloctest/customwidget/SwitchView.java:258-272 | EXACTLY gives the spec size. AT_MOST gives a size no larger than the spec size or the desired size, and equal to one of them. Any other mode gives the desired size. |
| `View.SwitchView.constructor` | app/src/main/java/com/example/blloctest/customwidget/SwitchView.java:119-138 | The new widget has the given state and colours, zero sizes, empty rectangles, no listener, no listener calls and no animation. |
| `View.SwitchView.Measure` | app/src/main/java/com/example/blloctest/customwidget/SwitchView.java:247-301 | The object afterwards is `Measured` of its old state. That function resolves width and height from their own specs and recomputes everything else from them and the thumb radius. |
| `View.SwitchView.DeriveGeometry` | app/src/main/java/com/example/blloctest/customwidget/SwitchView.java:276-282 | Sets the outer radius, thumb radius and padding. Sets the rate only when the thumb radius is not 0, so no division by zero happens. No other field changes. |
| `View.SwitchView.PlaceThumb` | app/src/main/java/com/example/blloctest/customwidget/SwitchView.java:284-294 | Records the centres of both rest positions and puts the thumb at the rest position of the current state. No other field changes. |
| `View.SwitchView.PlaceArcs` | app/src/main/java/com/example/blloctest/customwidget/SwitchView.java:296-300 | Sets the four arc rectangles from width, height, outer radius and padding. No other field changes. |
| `View.SwitchView.PerformClick` | app/src/main/java/com/example/blloctest/customwidget/SwitchView.java:313-341 | Returns true. The new state is `Clicked` of the old one: state flipped, animation from the old rest position to the new one, listener told once. |
| `View.SwitchView.OnTouchEvent` | app/src/main/java/com/example/blloctest/customwidget/SwitchView.java:351-407 | Returns true for DOWN, MOVE, UP and CANCEL, and the framework's answer otherwise. The new state is `Touched` of the old one. |
| `View.SwitchView.CommitDrag` | app/src/main/java/com/example/blloctest/customwidget/SwitchView.java:373-398 | The new state is `Released` of the old one: the side of the midpoint decides the state, and the listener is told once. |
| `View.SwitchView.SettleAnimation` | app/src/main/java/com/example/blloctest/customwidget/SwitchView.java:317-321 | The last animation frame puts the thumb at [end, end + thumbRadii] and ends the animation. Nothing else changes. |
| `View.SwitchView.GetColorOn` | app/src/main/java/com/example/blloctest/customwidget/SwitchView.java:415-417 | Returns the stored "on" colour of the widget's state. |
| `View.SwitchView.GetColorOff` | app/src/main/java/com/example/blloctest/customwidget/SwitchView.java:434-436 | Returns the stored "off" colour of the widget's state. |
| `View.SwitchView.GetColorBorder` | app/src/main/java/com/example/blloctest/customwidget/SwitchView.java:480-482 | Returns the stored border colour of the widget's state. |
| `View.SwitchView.IsOn` | app/src/main/java/com/example/blloctest/customwidget/SwitchView.java:454-456 | Returns the widget's on/off state. |
| `View.SwitchView.SetColorOn` | app/src/main/java/com/example/blloctest/customwidget/SwitchView.java:415-427 | `GetColorOn` then returns the argument. No other field changes. |
| `View.SwitchView.SetColorOff` | app/src/main/java/com/example/blloctest/customwidget/SwitchView.java:434-446 | `GetColorOff` then returns the argument. No other field changes. |
| `View.SwitchView.SetColorBorder` | app/src/main/java/com/example/blloctest/customwidget/SwitchView.java:480-492 | `GetColorBorder` then returns the argument. No other field changes. |
| `View.SwitchView.SetOn` | app/src/main/java/com/example/blloctest/customwidget/SwitchView.java:465-472 | `IsOn()` is unchanged whatever the argument. Only the thumb moves, to the rest position of the current state. |
| `View.SwitchView.SetOnSwitchViewdListener` | app/src/main/java/com/example/blloctest/customwidget/SwitchView.java:503-505 | The given listener replaces the old one. No other field changes. |
| `Render.ClampAlpha` | app/src/main/java/com/example/blloctest/customwidget/SwitchView.java:194 | The result lies in 0..255. It equals the input inside that range, and the nearer bound outside it. |
| `Render.TruncToInt` | app/src/main/java/com/example/blloctest/customwidget/SwitchView.java:193 | Java's `(int)` cast: the result is the input rounded toward zero. |
| `Render.RawAlphasComplement` | app/src/main/java/com/example/blloctest/customwidget/SwitchView.java:193-205 | Wherever the thumb is, the raw "on" and "off" alphas (`OnAlpha`, the expression at lines 193 and 217, and `OffAlpha`, at lines 205 and 227), computed from complementary fractions of the distance between the rest centres, add up to 254 or 255. |
| `Render.ClampComplement` | app/src/main/java/com/example/blloctest/customwidget/SwitchView.java:193-206 | After clamping, the "on" and "off" alphas still add up to 254 or 255, and a raw sum of exactly 255 is kept. |
| `SwitchProperties.MeasureGeometry` | app/src/main/java/com/example/blloctest/customwidget/SwitchView.java:276-282 | The outer radius is half the smaller side, rounded down. The padding is half of height minus thumb radius, rounded down. The rate is the largest r with r * thumbRadii <= 255, or the previous rate when the thumb radius is 0. |
| `SwitchProperties.LargeThumbZeroRate` | app/src/main/java/com/example/blloctest/customwidget/SwitchView.java:280-281 | A thumb radius above 255 makes the rate 0. |
| `SwitchProperties.MeasureIdempotent` | app/src/main/java/com/example/blloctest/customwidget/SwitchView.java:247-301 | Measuring a second time with the same inputs changes nothing. |
| `SwitchProperties.MeasurePlacesThumb` | app/src/main/java/com/example/blloctest/customwidget/SwitchView.java:284-294 | State, colours, listener, listener calls, press time and animation are unchanged. The thumb is [w-p-t, w-p] when on and [p, p+t] when off, between p and h-p vertically. |
| `SwitchProperties.RestOrder` | app/src/main/java/com/example/blloctest/customwidget/SwitchView.java:284-288 | When width >= height, 0 <= off rest left edge <= on rest left edge, the on rest lies inside the widget, and the off centre <= the on centre. When height >= width + 2, both orders are reversed. |
| `SwitchProperties.ArcsInset` | app/src/main/java/com/example/blloctest/customwidget/SwitchView.java:296-300 | The outer arcs are [0, 2r] and [w-2r, w] by [0, h], with 2r <= w. The inner arcs are the outer ones inset by padding/10 on every side. |
| `SwitchProperties.ClickToggles` | app/src/main/java/com/example/blloctest/customwidget/SwitchView.java:313-341 | A click negates the state and tells a registered listener the new state exactly once. It animates from the old rest position to the new one and changes nothing else. |
| `SwitchProperties.ClickTwice` | app/src/main/java/com/example/blloctest/customwidget/SwitchView.java:315-336 | Two clicks restore the state. The second animation is the first one reversed, and a registered listener hears two calls. |
| `SwitchProperties.DownRecordsTime` | app/src/main/java/com/example/blloctest/customwidget/SwitchView.java:354-357 | DOWN only records the press time, and is handled. |
| `SwitchProperties.MoveRule` | app/src/main/java/com/example/blloctest/customwidget/SwitchView.java:359-365 | With h = thumbRadii/2: a MOVE to x with p < x-h and x+h < w-p puts the thumb at [x-h, x+h] centred on x. Any other MOVE changes nothing. The state and listener calls never change. |
| `SwitchProperties.TapIsClick` | app/src/main/java/com/example/blloctest/customwidget/SwitchView.java:366-371 | An UP or CANCEL less than 200 ms after the press does exactly what a click does. |
| `SwitchProperties.DragRelease` | app/src/main/java/com/example/blloctest/customwidget/SwitchView.java:372-401 | A later UP or CANCEL sets the state to x >= w/2 and tells the listener once, changed or not. The animation runs from min(x, on rest) or max(x, off rest) to the new rest position. |
| `SwitchProperties.OtherIgnored` | app/src/main/java/com/example/blloctest/customwidget/SwitchView.java:403-405 | Other actions change nothing and return the framework's answer. |
| `SwitchProperties.SnapKeepsState` | app/src/main/java/com/example/blloctest/customwidget/SwitchView.java:465-472 | setOn keeps the state, listener calls and animation. Only the thumb moves, to the current state's rest position, and doing it again changes nothing. |
| `SwitchProperties.SettleReachesRest` | app/src/main/java/com/example/blloctest/customwidget/SwitchView.java:317-321 | After a click or release, the animation's last frame leaves the thumb at the rest interval of the new state. |
| `SwitchProperties.MovesKeep` | app/src/main/java/com/example/blloctest/customwidget/SwitchView.java:359-365 | Any number of MOVEs changes only the thumb. |
| `SwitchProperties.TapGesture` | app/src/main/java/com/example/blloctest/customwidget/SwitchView.java:354-371 | Press, any moves, then UP or CANCEL within 200 ms: the state flips and the listener hears the new state once. |
| `SwitchProperties.DragGesture` | app/src/main/java/com/example/blloctest/customwidget/SwitchView.java:354-398 | Press, any moves, then UP or CANCEL 200 ms or more later: the state is x >= w/2, whatever the earlier state and path, and the listener hears it once. |
| `SwitchProperties.OneCallPerCommit` | app/src/main/java/com/example/blloctest/customwidget/SwitchView.java:337-398 | Over any sequence of events, a registered listener gets one call per click or release and no others, and earlier calls are kept. |
| `SwitchProperties.StateNeedsCommit` | app/src/main/java/com/example/blloctest/customwidget/SwitchView.java:351-407 | Events with no click or release never change the state. |
| `SwitchProperties.ListenerInSync` | app/src/main/java/com/example/blloctest/customwidget/SwitchView.java:336-398 | Once a click or release has happened, the listener's last call carries the current state, whatever follows. |
| `SwitchProperties.TrackInvariant` | app/src/main/java/com/example/blloctest/customwidget/SwitchView.java:359-398 | If the thumb fits between the paddings, no sequence of moves, clicks, releases and animation ends moves it out of [p, w-p], and every animation ends at a rest position. The first frame of a release animation is not covered (see `ReleaseStartFrame`). |
| `SwitchProperties.ReleaseStartFrame` | app/src/main/java/com/example/blloctest/customwidget/SwitchView.java:373-390 | The first frame of a drag release's animation stays in the track on the "on" half. On the "off" half it crosses the right padding exactly when x + thumbRadii > w - p. |
| `SwitchProperties.SnapInTrack` | app/src/main/java/com/example/blloctest/customwidget/SwitchView.java:465-472 | setOn keeps a thumb that fits between the paddings inside the track. |
| `SwitchProperties.MeasureInTrack` | app/src/main/java/com/example/blloctest/customwidget/SwitchView.java:284-294 | With no animation running, a layout pass at width >= height leaves the thumb inside the padded track, with room for it. |

## Left out

- Construction and theming are not modelled: `TypedArray` attribute parsing, resource and accent-colour lookups, and SDK-version checks are framework I/O. The constructor takes the resulting state and colours as arguments.
- The thumb radius `(int)(min(width, height) / 2.88f)` is float arithmetic. `Measure` takes the radius as an argument that is at most half the smaller side.
- Measure specs arrive already split into mode and size. The bit packing of `MeasureSpec.getMode`/`getSize` is framework code. The desired sizes from the resources are arguments.
- `onDraw` and every Canvas call are rendering, so only the alpha of the two colour overlays is modelled. The division of alpha by `animationRate` when drawing the thumb circles is not part of this model.
- TrackInvariant: covers the thumb as moves, clicks, releases and animation ends leave it (layout and setOn are covered separately by `MeasureInTrack` and `SnapInTrack`), not the first frame of a drag release's animation. In the source that frame draws the thumb at [from, from + thumbRadii] at once, and released on the "off" half it can leave the track; `ReleaseStartFrame` states when, and `Scenarios.SquareLateRelease` shows it on a 40 x 40 widget.
- The alpha ratios are exact reals, so float rounding of the division and the product is not modelled. `RawAlphasComplement` and `ClampComplement` require distinct rest centres. The centres are equal whenever width == 2 * padding + thumbRadii, for example on any 30 x 30 switch (thumb 10, padding 10, both centres at 15). `onDraw` then computes 0/0 when the thumb is at rest, and the cast of the resulting NaN (or of an infinity while the thumb is elsewhere) is not modelled.
- `ValueAnimator` frames, the 600 ms duration and the ease-in-ease-out curve are float numerics driven by the host. An animation is modelled by its start and end values, and `SettleAnimation` applies the end value.
- Overlapping animations are not modelled. In the source, each gesture starts a new animator without cancelling the previous one, and they race on the thumb. The model keeps only the latest animation.
- `invalidate`, `setMeasuredDimension`, `super.performClick` and `super.onDraw` are framework calls and are dropped. `super.onTouchEvent` becomes the `superHandled` argument.
- `RectF` coordinates and the touch x are floats in the source and integers in the model. The two rest centres are exact reals.
- `System.currentTimeMillis` becomes the `now` argument.
- Java `int` and `long` overflow is not modelled, because sizes and times are assumed to be well within range. `>>> 1` is modelled as `/ 2`, which is exact because its operands are never negative here.
- The listener is modelled by an identity, and each call is recorded in `notified`. What the listener does when called, including calling back into the widget, is code outside this model.
