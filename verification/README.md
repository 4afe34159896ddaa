# Flight-simulator cockpit: gauge logic and panel bookkeeping in Dafny

This project models the arithmetic and bookkeeping core of a browser
flight-simulator cockpit. The cockpit is a canvas panel of ten instruments:
- airspeed indicator, attitude indicator, altimeter and turn indicator;
- heading indicator, magnetic compass and vertical speed indicator (VSI);
- NDB (ADF) and VOR indicators;
- a COM radio.

Every instrument keeps a small record of state. Its `update` turns a payload
into new state, and its `draw` turns that state into angles, offsets and
rectangles on the canvas. The `Cockpit` panel lays the instruments out on a
grid. It forwards a name-keyed payload to them, toggles an edit mode, and
routes pointer gestures to the instrument it has captured. It also draws
clouds that wrap around the windshield.

The model keeps the state changes and the numbers that feed the drawing, and
drops the drawing itself:
- Payloads are a small JavaScript value type (`Js.JsValue`).
- JavaScript's truncating `%` is written out (`Js.JsRem`), as are the
  wrap-into-[0, 360) idiom (`Js.Wrap360`) and `Math.max(lo, Math.min(hi, v))`
  (`Js.Clamp`).
- Angles are real degrees, not radians, and no trigonometry is used.
- Needle directions are compared as clock bearings, clockwise from
  12 o'clock, through the three conventions in `Geometry`:
  - a point drawn at polar angle `a` as `(cos a, sin a)` lies at bearing `a + 90`;
  - an up-pointing shape rotated by `t` points at bearing `t`;
  - a card point drawn as `(sin a, −cos a)` lies at bearing `a`.
- Each gauge is one module (`Airspeed`, `Altimeter`, `Attitude`, `Heading`,
  `Compass`, `TurnCoordinator`, `Vsi`, `Vor`, `Ndb`, `Radio`) holding:
  - a `State` datatype;
  - `New`, the constructor;
  - `Accepts`, the payload shapes its `update` can digest without throwing;
  - `Update` and the drawing maps.
- `Instrument` holds the shared base record and dial chrome.
- `Dial` holds the compass-card loop shared by three gauges.
- `Cockpit` holds the panel.
- Pointer events return the list of gesture calls the panel makes on its
  instruments (`Cockpit.Call`). The instruments' hit tests and their
  `isResizing` flag are inputs.

## Model

| member | source | states |
|---|---|---|
| Js.NumberOr | js/instruments/Altimeter.js:122-124 | `v \|\| d` on a number or missing field: the field when truthy, otherwise the default (so 0 and a missing field both give the default) |
| Js.Clamp | js/instruments/AirspeedIndicator.js:160 | `Math.max(lo, Math.min(hi, v))` lies in [lo, hi], returns v when v is in range and the nearer bound otherwise |
| Js.ClampIdempotent | js/instruments/AirspeedIndicator.js:160 | clamping a clamped value changes nothing |
| Js.JsRem | js/instruments/VORIndicator.js:111-112 | JavaScript `x % m`: strictly inside (−m, m), the sign of x, x itself when \|x\| < m, and congruent to x modulo m |
| Js.Wrap360 | js/instruments/HeadingIndicator.js:141-142 | `% 360`, then `+ 360` when negative: the result lies in [0, 360), is congruent to the input, and an input already in range is kept |
| Js.Wrap360Idempotent | js/instruments/HeadingIndicator.js:140-143 | wrapping an already wrapped angle changes nothing |
| Js.ParseNatToString | js/instruments/AirspeedIndicator.js:70 | the decimal text `n.toString()` prints for a natural number reads back as that number |
| Instrument.New | js/Instrument.js:2-5 | the constructor stores x, y and size exactly as given |
| Instrument.Update | js/Instrument.js:63-65 | the base `update` is a no-op: x, y and size keep their values |
| Instrument.Background | js/Instrument.js:22-51 | the dial radius is size/2 and the case radius 5 more; the gradient is centred on the dial with the dial's radius and its focus at (x − size/4, y − size/4); the glass arc is 2 inside the dial and runs 120 degrees from −90, i.e. from 12 o'clock |
| Instrument.FocusInsideDial | js/Instrument.js:33-39 | the highlight focus (x − size/4, y − size/4) lies inside the dial |
| Instrument.GlassInsideDial | js/Instrument.js:51 | for size > 4 the glass arc has positive radius, strictly inside the dial and the case |
| Dial.CardFace | js/instruments/HeadingIndicator.js:28-55 | the 5-degree card loop: 72 ticks, of length 20 exactly at multiples of 90, 15 exactly at the other multiples of 30, 10 elsewhere; 12 labels at the multiples of 30, with the style's text |
| Dial.LetterCardText | js/instruments/HeadingIndicator.js:47-55 | a lettered card prints one letter of N/E/S/W at the cardinal points and, elsewhere, a number that times ten is the degree |
| Dial.VorCardText | js/instruments/VORIndicator.js:55-58 | the VOR card prints a number from 1 to 36 whose tenfold is the degree modulo 360, and "36" exactly at north |
| Dial.CardReadsWrapped | js/instruments/HeadingIndicator.js:18 | a card rotated by −h brings exactly the card degree Wrap360(h) under the top mark, for any h |
| Airspeed.New | js/instruments/AirspeedIndicator.js:4-5 | a new indicator shows 0 knots, inside the dial |
| Airspeed.Update | js/instruments/AirspeedIndicator.js:159-161 | the stored speed lies in [0, 400]; it is the input when in range, otherwise the nearer bound |
| Airspeed.UpdateIdempotent | js/instruments/AirspeedIndicator.js:159-161 | repeating an update changes nothing |
| Airspeed.SpeedToAngleShape | js/instruments/AirspeedIndicator.js:21-23 | `speedToAngle` sends 0 to −90 (12 o'clock) and 400 to 210 (300 degrees clockwise), and rises strictly with speed |
| Airspeed.NeedleOnScale | js/instruments/AirspeedIndicator.js:79 | for every stored speed the needle lies on the 300-degree scale |
| Airspeed.BandsAdjacent | js/instruments/AirspeedIndicator.js:6-7 | the green [60, 240] and yellow [240, 350] bands meet at 240 without overlapping and lie on the dial |
| Airspeed.Graduations | js/instruments/AirspeedIndicator.js:50-73 | 21 marks every 20 knots, long exactly at the multiples of 100; 5 labels 0, 100, …, 400 printed in decimal |
| Altimeter.New | js/instruments/Altimeter.js:4-5 | a new altimeter reads 0 feet at 29.92 |
| Altimeter.Update | js/instruments/Altimeter.js:121-128 | an object sets altitude to its truthy field or 0 and pressure to its truthy field or 29.92; a bare number sets the altitude and keeps the pressure |
| Altimeter.FalsyFieldsDefault | js/instruments/Altimeter.js:122-124 | a pressure of 0 reads as 29.92, and an object without altitude resets it to 0 |
| Altimeter.UpdateIdempotent | js/instruments/Altimeter.js:121-128 | repeating an update changes nothing |
| Altimeter.NeedleGearing | js/instruments/Altimeter.js:80-86 | each needle turns exactly ten times slower than the next, and all are at zero turns at 0 feet |
| Altimeter.NeedleQuarterTurnBehind | js/instruments/Altimeter.js:58 | as written, each needle is a quarter turn counter-clockwise of its reading; at 0 feet it points at 9 o'clock, not at numeral 0 |
| Altimeter.HundredsNeedleReadsNumeral | js/instruments/Altimeter.js:25-35 | with the corrected rotation, at 1000·k + 100·d feet the long needle points exactly at numeral d |
| Altimeter.Face | js/instruments/Altimeter.js:25-54 | ten numerals 0–9 and 50 ticks, long exactly at the first tick of each group of five |
| Altimeter.LongTickUnderNumeral | js/instruments/Altimeter.js:38-53 | the long tick of group d sits at the bearing of numeral d |
| Attitude.New | js/instruments/AttitudeIndicator.js:4-5 | a new indicator shows level flight |
| Attitude.Update | js/instruments/AttitudeIndicator.js:170-173 | pitch is clamped to [−90, 90], and is the input in range or the nearer bound otherwise; roll is stored as given |
| Attitude.RollVerbatim | js/instruments/AttitudeIndicator.js:172 | a roll of 270 or −400 is stored unchanged: no clamp, no wrap |
| Attitude.UpdateIdempotent | js/instruments/AttitudeIndicator.js:170-173 | repeating an update changes nothing |
| Attitude.PitchOffsetBounded | js/instruments/AttitudeIndicator.js:28 | for any stored pitch, the horizon's offset pitch·size/180 stays within ±size/2 |
| Attitude.SkyGroundSplit | js/instruments/AttitudeIndicator.js:32-36 | the sky and ground rectangles have non-negative heights summing to the size, meet on the horizon and fill the dial's square |
| Attitude.Ladder | js/instruments/AttitudeIndicator.js:45-75 | the ladder has 8 rungs, −20 to 20 by 5 without +5, classified long, medium or short with truncating `%`; exactly the non-zero multiples of 10 are labelled |
| Attitude.LabelledRungs | js/instruments/AttitudeIndicator.js:45-75 | the labelled rungs are exactly ±10 and ±20, and they print 10 or 20 |
| Attitude.RungOnHorizon | js/instruments/AttitudeIndicator.js:45-75 | the 0 rung lies on the horizon line, and higher pitch rungs are drawn strictly higher |
| Attitude.RollScaleSymmetric | js/instruments/AttitudeIndicator.js:96-109 | the 11 roll marks mirror about the level mark in angle and length, rise strictly from −60 to 60, and are 20 long only at 0 and 15 long exactly at ±30 and ±60 |
| Heading.New | js/instruments/HeadingIndicator.js:4 | a new indicator reads 0 |
| Heading.Update | js/instruments/HeadingIndicator.js:140-143 | the stored heading lies in [0, 360), is congruent to the input modulo 360, and equals an input already in range |
| Heading.UpdateCanonical | js/instruments/HeadingIndicator.js:140-143 | the stored heading is the only angle of [0, 360) congruent to the input, so feeding it back changes nothing |
| Heading.UpdateIdempotent | js/instruments/HeadingIndicator.js:140-143 | repeating an update changes nothing |
| Heading.HeadingAtTop | js/instruments/HeadingIndicator.js:18 | the card degree under the lubber line is exactly the stored heading |
| Compass.New | js/instruments/MagneticCompass.js:4 | a new compass reads 0 |
| Compass.Update | js/instruments/MagneticCompass.js:94-97 | the stored heading lies in [0, 360), is congruent to the input, and equals an input already in range |
| Compass.UpdateIdempotent | js/instruments/MagneticCompass.js:94-97 | repeating an update changes nothing |
| Compass.CardRadius | js/instruments/MagneticCompass.js:14 | the card radius is 20 inside the half-size, and is positive exactly when size > 40 |
| Compass.LabelOffsets | js/instruments/MagneticCompass.js:49 | in the card's own frame, a label's x = (i − heading)·radius/90 is zero exactly at the heading and increases strictly with i |
| Compass.Card | js/instruments/MagneticCompass.js:48-56 | 12 labels at 0, 30, …, 330, lettered at the cardinal points, each at its own card-frame x |
| TurnCoordinator.New | js/instruments/TurnCoordinator.js:4-5 | a new coordinator shows no turn and a centred ball |
| TurnCoordinator.Update | js/instruments/TurnCoordinator.js:124-127 | turn rate is clamped to [−6, 6] and slip/skid to [−1, 1], each the input in range or the nearer bound |
| TurnCoordinator.UpdateIdempotent | js/instruments/TurnCoordinator.js:124-127 | repeating an update changes nothing |
| TurnCoordinator.DisplayBounds | js/instruments/TurnCoordinator.js:58 | the aircraft banks 15 degrees per unit, at most 90 either way, strictly more for a larger rate; the ball's centre stays within ±20 of the race's centre |
| TurnCoordinator.BallUnderArch | js/instruments/TurnCoordinator.js:80-106 | the ball's centre, drawn on the race's diameter, is nearer the race's centre than the band's inner edge (radius 25 − 20/2) exactly when \|slipSkid\| < 0.75, and never reaches the outer edge (25 + 20/2) |
| TurnCoordinator.StandardRateBank | js/instruments/TurnCoordinator.js:58 | a rate of 3 banks 45 degrees, past the 30-degree marks, which a rate of 2 reaches |
| TurnCoordinator.TurnMarksSymmetric | js/instruments/TurnCoordinator.js:28-32 | the marks at −30, 0 and 30 mirror about the centre; only the outer two are lettered, L on the left and R on the right |
| Vsi.New | js/instruments/VerticalSpeedIndicator.js:4 | a new VSI reads 0 |
| Vsi.Update | js/instruments/VerticalSpeedIndicator.js:66-68 | the stored rate lies in [−2000, 2000]; it is the input in range or the nearer bound otherwise |
| Vsi.UpdateIdempotent | js/instruments/VerticalSpeedIndicator.js:66-68 | repeating an update changes nothing |
| Vsi.DialAngleShape | js/instruments/VerticalSpeedIndicator.js:19 | the dial map sends 0 to 180, 2000 to 360 and −2000 to 0, and rises strictly with the rate |
| Vsi.NeedleReadsThousandLow | js/instruments/VerticalSpeedIndicator.js:46-49 | as written, the needle points at the tick of v − 1000, so level flight shows a 1000 ft/min descent |
| Vsi.NeedleOnOwnTick | js/instruments/VerticalSpeedIndicator.js:19 | with the corrected rotation, the needle points at the tick of its own rate |
| Vsi.Face | js/instruments/VerticalSpeedIndicator.js:14-40 | 9 ticks from −2000 to 2000 by 500, and labels exactly at the multiples of 1000, printing \|v\|/100 |
| Vsi.LabelTexts | js/instruments/VerticalSpeedIndicator.js:35-40 | the labels read 20, 10, 0, 10, 20, symmetric about zero, in exact hundreds |
| Vor.New | js/instruments/VORIndicator.js:4-8 | a new VOR is centred at course and bearing 0, with the FROM flag set and valid |
| Vor.Update | js/instruments/VORIndicator.js:109-117 | only an object changes anything. Course and bearing become the truncating remainder mod 360: inside (−360, 360), congruent, with the input's sign, and never normalised. Deviation is clamped to [−1, 1]. `fromFlag` is copied as is, and `isValid` is false only for an explicit `false` |
| Vor.UpdateExamples | js/instruments/VORIndicator.js:109-117 | a course of −30 stays −30 and a bearing of 370 becomes 10; a missing `isValid` or a 0 counts as valid; a missing `fromFlag` shows TO |
| Vor.UpdateIdempotent | js/instruments/VORIndicator.js:109-117 | repeating an update changes nothing |
| Vor.CardShowsCourse | js/instruments/VORIndicator.js:28 | the card, rotated by −course, shows the wrapped course at the top even when the stored course is negative |
| Vor.DeviationOffsetBounded | js/instruments/VORIndicator.js:74 | the bar's offset clamp(deviation)·radius/3 stays within ±radius/3, and is 0 at zero deviation |
| Vor.BarNeverMovesSideways | js/instruments/VORIndicator.js:74-76 | as written, the vertical bar keeps its horizontal place for every deviation and only slides along its own length |
| Vor.BarMovesWithDeviation | js/instruments/VORIndicator.js:74 | the corrected bar is centred on the offset, moves right strictly as deviation grows, and is centred at zero deviation |
| Ndb.New | js/instruments/NDBIndicator.js:4-5 | a new NDB starts at bearing and heading 0, inside the invariant |
| Ndb.Update | js/instruments/NDBIndicator.js:119-129 | an object wraps both bearing and heading into [0, 360), congruent to the inputs; a bare number wraps the bearing and keeps the heading, or lifts a negative one by 360 |
| Ndb.UpdatePreservesValid | js/instruments/NDBIndicator.js:119-129 | every update keeps both angles in [0, 360), and a bare number leaves a valid heading unchanged |
| Ndb.UpdateIdempotent | js/instruments/NDBIndicator.js:119-129 | from any reachable state, repeating an update changes nothing |
| Ndb.NeedleRelative | js/instruments/NDBIndicator.js:72-75 | the needle's rotation bearing − heading lies in (−360, 360) and points straight ahead exactly when the bearing equals the heading |
| Radio.New | js/instruments/Radio.js:4-6 | a new radio has active 118.00, standby 136.97 and is not flipping |
| Radio.Update | js/instruments/Radio.js:81-84 | each frequency is replaced only by a truthy field, otherwise kept; isFlipping, position and size never change |
| Radio.PatchesCompose | js/instruments/Radio.js:81-84 | patching the two fields one after the other, in either order, equals patching both at once; a frequency of 0 is ignored |
| Radio.UpdateIdempotent | js/instruments/Radio.js:81-84 | repeating an update changes nothing |
| Radio.DisplayLayout | js/instruments/Radio.js:17-32 | the housing is size × size/2. The active display sits 10 above the standby one. The active display fits the housing exactly when size ≥ 30, the standby one exactly when size ≥ 120, and the standby one clears the buttons exactly when size > 300 |
| Radio.ButtonLayout | js/instruments/Radio.js:52-61 | four buttons share one row; they lie in the housing once size ≥ 60, and the middle pair clears exactly when size ≥ 110 |
| Cockpit.GaugeUpdate | js/Cockpit.js:338 | `instrument.update(data[name])` applies the gauge's own class's update to the value, keeping its class, position and size; the turn indicator's slot records the value |
| Cockpit.Layout | js/Cockpit.js:222-319 | ten slots in registration order, each with its key and its class; every round gauge is 180 wide and the radio 405; edit mode off and nothing captured |
| Cockpit.LayoutCells | js/Cockpit.js:284-318 | the round gauges get distinct origins except the VSI and the VOR, which share one; the radio's origin is the NDB's |
| Cockpit.LayoutOnGrid | js/Cockpit.js:228-232 | the computed 900-pixel width leaves equal margins around [startX, startX + 900], and every origin is a whole number of 210-pixel steps from the start, in four columns and two rows; the painted panel, round cases about their centres and the radio housing from its corner, spans exactly [startX − 95, startX + 1035], so its midpoint is 20 pixels right of the canvas centre |
| Cockpit.Update | js/Cockpit.js:334-341 | every instrument whose key is defined in the payload receives its value; all other instruments and the panel's flags and capture are unchanged |
| Cockpit.UnknownKeysIgnored | js/Cockpit.js:334-341 | keys naming no instrument make no difference, and a payload with none of the keys changes nothing |
| Cockpit.SingleKeyReachesOne | js/Cockpit.js:334-341 | on the laid-out panel, a one-key payload updates exactly the instrument of that key |
| Cockpit.OverspeedClamped | js/Cockpit.js:334-341 | feeding an airspeed of 500 to the panel stores 400 and puts the needle at the top of the scale |
| Cockpit.NegativeHeadingWrapped | js/Cockpit.js:334-341 | feeding a heading of −30 to the panel stores 330 |
| Cockpit.ToggleEdit | js/Cockpit.js:21-27 | the toggle flips the panel's flag and sets every instrument's flag to the new value, leaving gauges, keys and capture alone |
| Cockpit.ToggleTwice | js/Cockpit.js:21-27 | toggling twice restores any panel whose flags agreed |
| Cockpit.TopHit | js/Cockpit.js:38-48 | the reverse scan finds the last-registered instrument that takes the press, and none above it takes it |
| Cockpit.MouseDown | js/Cockpit.js:37-49 | outside edit mode, or with no hit, nothing changes. Otherwise the last-registered instrument that takes the press is captured with one call: a resize exactly on an edit-mode handle hit, a drag otherwise |
| Cockpit.MouseMove | js/Cockpit.js:53-64 | no call without a capture; otherwise exactly one resize or drag call to the captured instrument, by its `isResizing` flag |
| Cockpit.MouseUp | js/Cockpit.js:67-76 | the captured instrument is told to stop resizing or dragging, by its flag, and the capture is cleared |
| Cockpit.MouseLeave | js/Cockpit.js:78-83 | the captured instrument is always told `stopDrag`, and the capture is cleared |
| Cockpit.LeaveDuringResize | js/Cockpit.js:67-83 | mid-resize, leaving calls `stopDrag` where releasing calls `stopResize`; both clear the capture the same way |
| Cockpit.PressWhileCaptured | js/Cockpit.js:37-49 | a second press moves the capture to the new target without any stop call for the old one |
| Cockpit.PressOutsideEditMode | js/Cockpit.js:37-49 | outside edit mode a press captures nothing, so a following move makes no call |
| Cockpit.StepPreservesWf | js/Cockpit.js:21-83 | every event keeps the flags consistent, the capture on a real instrument, and the keys, classes and placements; a release or leave always ends the capture |
| Cockpit.CloudWrap | js/Cockpit.js:150-170 | a cloud's x lies in [0, width). A copy is drawn exactly when the copy's nominal right edge (anchor + size; the painted circles reach only 0.8·size) is on the canvas, width − 10 to the left of the drawn cloud, and always when the drawn cloud crosses the right edge |
| Cockpit.CloudAtRightEdge | js/Cockpit.js:164-170 | a 60-pixel cloud at x = 795 on an 800-pixel canvas gets a copy at x = 15 |

## Left out

- Drawing: the canvas paths, arcs, fills, gradients, shadows, fonts and
  `toFixed` text. Only the numbers that feed them are modelled.
- `Math.sin`/`Math.cos` pixel positions and radian conversions. Angles are
  real degrees, and directions are compared as bearings.
- Floating point. Reals are exact, so no rounding is modelled. In IEEE
  doubles `%` itself is exact, but the `+ 360` that lifts a negative
  remainder (js/instruments/HeadingIndicator.js:142,
  js/instruments/MagneticCompass.js:96, js/instruments/NDBIndicator.js:127-128)
  rounds. A heading of −1e-14 is stored as exactly 360, outside [0, 360).
  The `/` in the needle and offset maps and the `* 0.55` of the layout also
  round.
- Js.Wrap360, Heading.Update, Compass.Update, Ndb.Update: the promise that the
  stored angle lies in [0, 360) holds for exact reals only. With doubles, a
  tiny negative input is stored as 360, as described above.
- DOM plumbing: the button, event listeners and `getBoundingClientRect`.
  Pointer coordinates are inputs.
- `Date.now()`. The cloud clock `t` is a parameter of `Cockpit.CloudX`.
- js/main.js, the data producer that drives the panel. It is not part of
  this model.
- The gesture methods (`containsPoint`, `isOverResizeHandle`,
  `startDrag`/`drag`/`stopDrag`, `startResize`/`resize`/`stopResize`) and the
  `isResizing` flag. They belong to the instrument classes' interaction
  code, which this model does not cover. Hit tests enter as `Cockpit.Probe`
  values, and the flag enters as a boolean.
- The `TurnIndicator` class the panel registers under `turnIndicator`. This
  model does not cover that class, so its slot only records the payloads it
  receives. The `TurnCoordinator` gauge is modelled on its own.
- The on-screen placement of the magnetic compass card. The card is
  translated, mirrored by `scale(-1, 1)` and rotated by the heading
  (js/instruments/MagneticCompass.js:38-40). `Compass.LabelX` is a
  coordinate in the card's own frame only.
- NaN, `null`, strings and other payloads the code does not guard. Each
  gauge's `Accepts` requires the fields its `update` reads unguarded:
  - a number for airspeed, heading, compass and VSI;
  - `pitch`/`roll` and `turnRate`/`slipSkid` as numbers;
  - for the altimeter, an object whose `altitude` and `pressure` are numbers
    or absent, or a bare number;
  - for the NDB, an object with numeric `bearing` and `heading`, or a bare
    number;
  - for the VOR, numbers for course, bearing and deviation when it is given an
    object (any other value is ignored);
  - for the radio, any defined value whose `activeFreq` and `standbyFreq` are
    numbers or absent.

  A field read as `undefined` would make NaN in the source.
- The panel's `update` on `undefined` throws. `Cockpit.Deliverable` requires
  a defined payload.
- Radio buttons' labels, the frequency flip animation and the radio's fourth
  constructor argument. The constructor ignores that argument.
- Ndb.UpdateIdempotent: requires `Ndb.Valid`. A heading below −360 would be
  lifted only once, and so not into range. Every state `New` and `Update`
  produce is valid (`Ndb.UpdatePreservesValid`).
- Vor.Update: `fromFlag` is copied as a JavaScript value, and only its
  truthiness is used (`Vor.FlagText`).

Facts about the code as written that a reader might not expect:
- Angle wrap: the heading indicator, compass and NDB lift a negative
  remainder into [0, 360). The VOR's course and bearing use `%` alone and can
  stay negative (`Vor.UpdateExamples`).
- Turn scale: the aircraft symbol rotates 15 degrees per unit of turn rate,
  up to ±90. A standard-rate turn of 3 units, the "2 MIN TURN" the dial
  prints, banks 45 degrees, past the 30-degree marks
  (`TurnCoordinator.StandardRateBank`).
- Cloud copies: the wrapped copy is drawn `width − 20` left of the cloud's
  x. The cloud itself is drawn 10 pixels right of x, so the copy is
  `width − 10` from the drawn cloud, not one canvas width.
- Capture: `mousedown` does not check for an existing capture, so a second
  press re-captures without stopping the first gesture
  (`Cockpit.PressWhileCaptured`).
- Gesture end: `mouseleave` always calls `stopDrag`, even mid-resize
  (`Cockpit.LeaveDuringResize`).
- Ball race: the race is an arch of radius 25 above the ball's line, stroked
  20 pixels wide, while the ball is drawn on that line. The centred ball sits
  beneath the arch, and the ball's centre reaches the band only once
  |slipSkid| ≥ 0.75 (`TurnCoordinator.BallUnderArch`).
- Panel centring: the 900-pixel width the layout centres ignores that round
  gauges are placed by their centre and the radio by its corner. The painted
  panel sits 20 pixels right of the canvas centre (`Cockpit.LayoutOnGrid`).
- Overlaps: the VSI and VOR are constructed at the same origin, and the
  radio's corner sits on the NDB's centre (`Cockpit.LayoutCells`).
- Altimeter needles: the −π/2 in the needle rotation points every needle at
  9 o'clock at 0 feet, because the needle is drawn pointing up (Findings).

## Findings

| source | as written | input that shows it | evidently intended | confidence | as-written member | corrected member |
|---|---|---|---|---|---|---|
| js/instruments/Altimeter.js:58 | `rotate(value·2π − π/2)` turns a needle drawn pointing up (`lineTo(0, −length)`) | altitude 0: every needle points at 9 o'clock, where numeral 7.5 would be | `rotate(value·2π)`, so the needle points at the numeral of its reading, which sits at polar angle 36·d − 90 | not executed | Altimeter.NeedleQuarterTurnBehind | Altimeter.HundredsNeedleReadsNumeral |
| js/instruments/VerticalSpeedIndicator.js:46-49 | the needle, drawn pointing up, is rotated by the same angle v/2000·180 + 180 at which the ticks are placed as polar points | rate 0: the needle points at 6 o'clock, the −1000 tick, while the 0 tick is at 9 o'clock | rotation by the tick angle + 90 degrees, so the needle points at its own rate's tick | not executed | Vsi.NeedleReadsThousandLow | Vsi.NeedleOnOwnTick |
| js/instruments/VORIndicator.js:74-76 | `fillRect(−2, −deviation − 40, 4, 80)` moves the vertical deviation bar along its own length | deviation 1 on a 180 dial: the bar keeps x = −2 and only moves 28.3 pixels up | `fillRect(deviation − 2, −40, 4, 80)`, so the bar moves sideways with deviation | not executed | Vor.BarNeverMovesSideways | Vor.BarMovesWithDeviation |
