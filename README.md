# Happiness: a verified model of FaceView

FaceView is an Android widget that draws a round face whose mouth curves with
a `happiness` value. Dragging a finger up the face makes it happier, dragging
down makes it sadder, and the value survives the view being destroyed and
re-created. This project models the widget's state and arithmetic in Dafny and
proves what it promises.

- `java_math.dfy`: module `JavaMath`. It holds `Math.min`/`Math.max` over `real`, and `Math.min` over `int`.
- `gesture.dfy`: module `Gesture`. It holds the touch rule as pure functions:
  - the saturation of happiness to [0, 100];
  - the happiness change of a vertical move (`-(y - y1) / 4`);
  - the effect of one motion event on `(happiness, y1)`;
  - `Replay`, which applies a sequence of events in order, with lemmas about whole drags.
- `layout.dfy`: module `Layout`. It holds the face radius and centre that a size change produces.
- `drawer.dfy`: module `Drawer`. It holds the geometry of one frame, relative to the face centre:
  - the outline;
  - the two eyes;
  - the smile fraction and smile height;
  - the cubic Bezier mouth.
- `face_view.dfy`: module `Happiness`. It holds the class `FaceView`:
  - the fields `happiness`, `centerX`, `centerY`, `y1` and `faceRadius`, with `float` modelled as `real`;
  - one method per handler, each proved against the pure functions above;
  - the save/restore pair, which carries only the happiness scalar.

Facts about the code that shape the model:

- `setHappiness` and `onRestoreInstanceState` store happiness without clamping.
  So happiness in [0, 100] is not a class invariant. It holds after any MOVE
  that changes happiness, and it is kept by any sequence of events once it
  holds (`ReplayStaysInRange`).
- There is no explicit Idle/Dragging state. A MOVE is applied whenever it
  arrives, measured from whatever `y1` holds. On a fresh view that is 0.
- An upward drag makes happiness at least `min(old, 100)`, not at least `old`.
  If happiness was set above 100, an upward move brings it down to 100
  (`UpwardDragAboveRangeLowers`).
- `onSizeChanged` halves the smaller side in integers before scaling by 0.9.
  So the radius is 0.9 times a whole number of pixels.
- `onRestoreInstanceState` casts the state it is given to a FaceState. A state
  of any other kind makes that cast throw, and nothing falls back to the
  default happiness of 100.

## Model

| member | source | states |
|---|---|---|
| `Gesture.Saturate` | app/src/main/java/com/iwuvhugs/happiness/FaceView.java:98 | the result is in [0, 100]; it equals the input when the input is in range, 0 below and 100 above |
| `Gesture.MoveDelta` | app/src/main/java/com/iwuvhugs/happiness/FaceView.java:86 | a move up (smaller y) gives a positive change, a move down a negative one, and four pixels make one unit |
| `Gesture.Touch` | app/src/main/java/com/iwuvhugs/happiness/FaceView.java:78-100 | DOWN records y and keeps happiness; other actions change nothing; MOVE records y, leaves happiness alone for a zero move, and otherwise sets it to the saturated sum old + delta: in [0, 100], exactly old + delta when that is in range, 0 when it falls below and 100 when it rises above |
| `Gesture.MoveIsMonotone` | app/src/main/java/com/iwuvhugs/happiness/FaceView.java:85-100 | dragging up never takes happiness below min(old, 100), dragging down never above max(old, 0); from an in-range value, up never decreases and down never increases it |
| `Gesture.UpwardDragAboveRangeLowers` | app/src/main/java/com/iwuvhugs/happiness/FaceView.java:85-100 | because happiness set above 100 is not clamped, an upward move from 150 lowers it to 100 |
| `Gesture.ReplayAppend` | app/src/main/java/com/iwuvhugs/happiness/FaceView.java:78-95 | delivering two event sequences one after the other equals delivering their concatenation |
| `Gesture.ReplayTracksLastY` | app/src/main/java/com/iwuvhugs/happiness/FaceView.java:82-87 | after any events, y1 is the y of the latest DOWN or MOVE, or unchanged if there was none |
| `Gesture.ReplayStaysInRange` | app/src/main/java/com/iwuvhugs/happiness/FaceView.java:78-100 | once happiness is in [0, 100], no sequence of touch events takes it out |
| `Gesture.UnsaturatedDragTelescopes` | app/src/main/java/com/iwuvhugs/happiness/FaceView.java:85-91 | a run of MOVEs that never crosses a bound changes happiness by exactly (first y1 - last y) / 4 |
| `Gesture.DragChangesHappinessByDistance` | app/src/main/java/com/iwuvhugs/happiness/FaceView.java:82-91 | a press at y0 followed by moves that stay within bounds changes happiness by (y0 - last y) / 4; a drag back to y0 restores it |
| `Gesture.DragExamples` | app/src/main/java/com/iwuvhugs/happiness/FaceView.java:82-100 | a press at 100 and a move to 92 takes 50 to 52 and keeps 100 at 100; 99 + 5 saturates to 100 |
| `Layout.FaceRadiusFor` | app/src/main/java/com/iwuvhugs/happiness/FaceView.java:106 | the radius is non-negative and 0.9 times a whole number; it lies between 0.45·min(w,h) - 0.45 and 0.45·min(w,h), with the upper value reached exactly when the smaller side is even |
| `Layout.CenterFor` | app/src/main/java/com/iwuvhugs/happiness/FaceView.java:107-108 | the centre coordinate is a whole number c with 2c ≤ size < 2c + 2 |
| `Drawer.EyeCircle` | app/src/main/java/com/iwuvhugs/happiness/FaceView.java:139-147 | an eye is centred a third of the radius above the centre and a third to its side (left negative), with a tenth of the radius as radius |
| `Drawer.SmileFraction` | app/src/main/java/com/iwuvhugs/happiness/FaceView.java:155-156 | the fraction is in [-1, 1], equals (happiness - 50) / 50 in range, is ±1 beyond it, and has the sign of happiness - 50 |
| `Drawer.SmileHeight` | app/src/main/java/com/iwuvhugs/happiness/FaceView.java:150-156 | for a non-negative radius the height is within ±radius/3 for any happiness; for happiness in [0, 100] it equals (happiness − 50)·radius/150; it is 0 at 50, +radius/3 at 100 and above, -radius/3 at 0 and below; for a positive radius it has the sign of happiness - 50, and at radius 0 it is 0 for every happiness |
| `Drawer.SmileHeightMonotone` | app/src/main/java/com/iwuvhugs/happiness/FaceView.java:155-156 | for a non-negative radius, a higher happiness never gives a lower smile height |
| `Drawer.MouthCurve` | app/src/main/java/com/iwuvhugs/happiness/FaceView.java:150-163 | the mouth is mirror-symmetric about x = 0, with corners at (±radius/2, radius/3) and control points at x = ±radius/3, one smile height below the corners |
| `Drawer.FaceDrawing` | app/src/main/java/com/iwuvhugs/happiness/FaceView.java:122-137 | the outline is centred on the face centre with the face radius; the eyes are the left and right `EyeCircle`s, which mirror each other and have equal radii; the mouth is the `MouthCurve` for the current happiness |
| `Drawer.EyesInsideFace` | app/src/main/java/com/iwuvhugs/happiness/FaceView.java:135-147 | for a non-negative radius each eye lies wholly inside the outline, and the eyes do not overlap |
| `Drawer.MouthInsideFace` | app/src/main/java/com/iwuvhugs/happiness/FaceView.java:135-162 | for any happiness, all four Bezier points of the mouth, and so the whole curve, lie inside the outline |
| `Happiness.FaceView.constructor` | app/src/main/java/com/iwuvhugs/happiness/FaceView.java:19-23 | a new view has happiness 100 and zero y1, radius and centre |
| `Happiness.FaceView.SetHappiness` | app/src/main/java/com/iwuvhugs/happiness/FaceView.java:52-55 | happiness becomes exactly the given value, unclamped, and no other field changes |
| `Happiness.FaceView.ChangeHappiness` | app/src/main/java/com/iwuvhugs/happiness/FaceView.java:97-100 | happiness becomes the saturated sum: in [0, 100], and exactly old + change when that is in range |
| `Happiness.FaceView.OnTouchEvent` | app/src/main/java/com/iwuvhugs/happiness/FaceView.java:77-95 | (happiness, y1) moves as `Gesture.Touch` says, and no other field changes; DOWN and MOVE are consumed, and other actions return the host's answer |
| `Happiness.FaceView.OnSizeChanged` | app/src/main/java/com/iwuvhugs/happiness/FaceView.java:102-109 | radius and centre are set as `Layout` describes; they stay non-negative, and happiness and y1 are untouched |
| `Happiness.FaceView.OnSaveInstanceState` | app/src/main/java/com/iwuvhugs/happiness/FaceView.java:57-63 | the saved state carries the current happiness |
| `Happiness.FaceView.OnRestoreInstanceState` | app/src/main/java/com/iwuvhugs/happiness/FaceView.java:65-70 | happiness becomes the saved value, unclamped, and nothing else changes |
| `Happiness.FaceView.OnDraw` | app/src/main/java/com/iwuvhugs/happiness/FaceView.java:72-75 | the frame is the drawer's geometry for the current radius and happiness, and the smile stays within a third of the radius |
| `Happiness.SaveAndRecreate` | app/src/main/java/com/iwuvhugs/happiness/FaceView.java:57-70 | save, re-create and restore gives a fresh view with the same happiness, whatever it was, and default y1 and radius |
| `Happiness.ResizeExample` | app/src/main/java/com/iwuvhugs/happiness/FaceView.java:102-109 | a 200 × 100 view gets radius 45, centre (100, 50) and eyes of radius 4.5 |

## Left out

- Android plumbing is not modelled. This covers the `View` superclass, the constructors' `Context`/`AttributeSet`, `postInvalidate` (the redraw request after each change) and `super.onSizeChanged`. It also covers `MotionEventCompat.getActionMasked`: an event arrives as an already-masked action.
- The result of `super.onTouchEvent` for actions other than DOWN and MOVE comes from the host. It is the `hostHandled` parameter.
- Drawing is not modelled: `Canvas` calls, `Path` building, the blue 20-pixel stroke `Paint`, and the canvas translation by (centerX, centerY). The model gives the coordinates passed to those calls, relative to the face centre.
- Parcel serialisation of the saved state is not modelled: `writeToParcel`, `CREATOR` and the superclass state it wraps. The saved state is only the happiness scalar.
- A restored state that is not a FaceState makes the source's cast throw. This is outside the model: restore takes a `SavedState` value.
- `float` is modelled as `real`. IEEE-754 rounding, NaN and infinities are not modelled, and the constant 0.9 is exact here rather than the nearest float.
- `Happiness.FaceView.OnSizeChanged`: requires non-negative sizes, so that Dafny's division agrees with Java's truncating division. The old width and height arguments are dropped, because only the superclass uses them.
