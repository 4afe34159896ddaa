/** The instrument panel: a fixed, name-keyed registry of gauges laid out
    on a grid, fed by a name-keyed payload, switched in and out of edit
    mode, and dragged or resized with the pointer. The windshield's clouds
    and their wrap-around are the one piece of scenery with logic in it. */
module Cockpit {
  import opened Js
  import Instrument
  import Airspeed
  import Attitude
  import Altimeter
  import Heading
  import Compass
  import Vsi
  import Ndb
  import Vor
  import Radio

  /** One registered instrument. The turn indicator's class is not part of
      this model: its slot only records the payloads it is handed. */
  datatype Gauge =
    | AirspeedGauge(airspeed: Airspeed.State)
    | AttitudeGauge(attitude: Attitude.State)
    | AltimeterGauge(altimeter: Altimeter.State)
    | TurnIndicatorGauge(turnBase: Instrument.Base, received: seq<JsValue>)
    | HeadingGauge(heading: Heading.State)
    | CompassGauge(compass: Compass.State)
    | VsiGauge(vsi: Vsi.State)
    | NdbGauge(ndb: Ndb.State)
    | VorGauge(vor: Vor.State)
    | RadioGauge(radio: Radio.State)

  function GaugeBase(g: Gauge): Instrument.Base {
    match g
    case AirspeedGauge(s) => s.base
    case AttitudeGauge(s) => s.base
    case AltimeterGauge(s) => s.base
    case TurnIndicatorGauge(b, _) => b
    case HeadingGauge(s) => s.base
    case CompassGauge(s) => s.base
    case VsiGauge(s) => s.base
    case NdbGauge(s) => s.base
    case VorGauge(s) => s.base
    case RadioGauge(s) => s.base
  }

  predicate SameKind(a: Gauge, b: Gauge) {
    ClassIndex(a) == ClassIndex(b)
  }

  /** The payload shapes each gauge's `update` can digest. */
  predicate GaugeAccepts(g: Gauge, v: JsValue) {
    match g
    case AirspeedGauge(_) => Airspeed.Accepts(v)
    case AttitudeGauge(_) => Attitude.Accepts(v)
    case AltimeterGauge(_) => Altimeter.Accepts(v)
    case TurnIndicatorGauge(_, _) => true
    case HeadingGauge(_) => Heading.Accepts(v)
    case CompassGauge(_) => Compass.Accepts(v)
    case VsiGauge(_) => Vsi.Accepts(v)
    case NdbGauge(_) => Ndb.Accepts(v)
    case VorGauge(_) => Vor.Accepts(v)
    case RadioGauge(_) => Radio.Accepts(v)
  }

  /** `instrument.update(v)`, dispatched on the gauge's class. */
  function GaugeUpdate(g: Gauge, v: JsValue): (r: Gauge)
    requires GaugeAccepts(g, v)
    ensures SameKind(r, g)
    ensures GaugeBase(r) == GaugeBase(g)
    ensures g.AirspeedGauge? ==> r == AirspeedGauge(Airspeed.Update(g.airspeed, v))
    ensures g.AttitudeGauge? ==> r == AttitudeGauge(Attitude.Update(g.attitude, v))
    ensures g.AltimeterGauge? ==> r == AltimeterGauge(Altimeter.Update(g.altimeter, v))
    ensures g.TurnIndicatorGauge? ==> r == g.(received := g.received + [v])
    ensures g.HeadingGauge? ==> r == HeadingGauge(Heading.Update(g.heading, v))
    ensures g.CompassGauge? ==> r == CompassGauge(Compass.Update(g.compass, v))
    ensures g.VsiGauge? ==> r == VsiGauge(Vsi.Update(g.vsi, v))
    ensures g.NdbGauge? ==> r == NdbGauge(Ndb.Update(g.ndb, v))
    ensures g.VorGauge? ==> r == VorGauge(Vor.Update(g.vor, v))
    ensures g.RadioGauge? ==> r == RadioGauge(Radio.Update(g.radio, v))
  {
    match g
    case AirspeedGauge(s) => AirspeedGauge(Airspeed.Update(s, v))
    case AttitudeGauge(s) => AttitudeGauge(Attitude.Update(s, v))
    case AltimeterGauge(s) => AltimeterGauge(Altimeter.Update(s, v))
    case TurnIndicatorGauge(b, seen) => TurnIndicatorGauge(b, seen + [v])
    case HeadingGauge(s) => HeadingGauge(Heading.Update(s, v))
    case CompassGauge(s) => CompassGauge(Compass.Update(s, v))
    case VsiGauge(s) => VsiGauge(Vsi.Update(s, v))
    case NdbGauge(s) => NdbGauge(Ndb.Update(s, v))
    case VorGauge(s) => VorGauge(Vor.Update(s, v))
    case RadioGauge(s) => RadioGauge(Radio.Update(s, v))
  }

  /** A registry entry: its key, its gauge and the gauge's own edit flag. */
  datatype Slot = Slot(name: string, gauge: Gauge, edit: bool)

  /** The panel: slots in registration order, the panel's edit flag, and
      the index of the instrument the pointer has captured, if any. */
  datatype Panel = Panel(slots: seq<Slot>, editMode: bool, dragged: Option<nat>)

  /** Every instrument's flag agrees with the panel's. */
  predicate Consistent(p: Panel) {
    forall k :: 0 <= k < |p.slots| ==> p.slots[k].edit == p.editMode
  }

  /** The panel's invariant: flags agree and a capture names a real slot. */
  predicate Wf(p: Panel) {
    Consistent(p) && (p.dragged.Some? ==> p.dragged.value < |p.slots|)
  }

  // ---------------------------------------------------------------------
  // Layout

  const Names: seq<string> :=
    ["airspeed", "attitude", "altimeter", "turnIndicator", "heading",
     "magneticCompass", "vsi", "ndb", "vor", "radio"]

  const GaugeSize: real := 180.0
  const Padding: real := 30.0

  /** `(width - (size * 4.5 + padding * 3)) / 2`. */
  function StartX(width: real): real {
    (width - (GaugeSize * 4.5 + Padding * 3.0)) / 2.0
  }

  /** `height * 0.55`. */
  function StartY(height: real): real {
    height * 0.55
  }

  /** Column and row of an origin on the 210-pixel grid from (sx, sy). */
  function Column(b: Instrument.Base, sx: real): real {
    (b.x - sx) / (GaugeSize + Padding)
  }

  function Row(b: Instrument.Base, sy: real): real {
    (b.y - sy) / (GaugeSize + Padding)
  }

  predicate OnGrid(b: Instrument.Base, sx: real, sy: real) {
    Column(b, sx) in {0.0, 1.0, 2.0, 3.0} && Row(b, sy) in {0.0, 1.0}
  }

  /** Position of a gauge's class in the registration order: the class
      `setupInstruments` registers under Names[k] has position k. */
  function ClassIndex(g: Gauge): nat {
    match g
    case AirspeedGauge(_) => 0
    case AttitudeGauge(_) => 1
    case AltimeterGauge(_) => 2
    case TurnIndicatorGauge(_, _) => 3
    case HeadingGauge(_) => 4
    case CompassGauge(_) => 5
    case VsiGauge(_) => 6
    case NdbGauge(_) => 7
    case VorGauge(_) => 8
    case RadioGauge(_) => 9
  }

  /** `setupInstruments` for a canvas of the given size. The radio is
      constructed with a width of size·2.25 = 405; the extra height
      argument it is passed is ignored by its constructor. The instruments'
      own edit flags start undefined, i.e. false. */
  function Layout(width: real, height: real): (p: Panel)
    ensures |p.slots| == |Names| == 10
    ensures forall k :: 0 <= k < 10 ==> p.slots[k].name == Names[k] && ClassIndex(p.slots[k].gauge) == k
    ensures forall k :: 0 <= k < 10 ==> GaugeBase(p.slots[k].gauge).size == (if k == 9 then 405.0 else GaugeSize)
    ensures !p.editMode && p.dragged.None? && Wf(p)
  {
    var sx := StartX(width);
    var sy := StartY(height);
    var step := GaugeSize + Padding;
    Panel([
      Slot("airspeed", AirspeedGauge(Airspeed.New(sx, sy, GaugeSize)), false),
      Slot("attitude", AttitudeGauge(Attitude.New(sx + step, sy, GaugeSize)), false),
      Slot("altimeter", AltimeterGauge(Altimeter.New(sx + step * 2.0, sy, GaugeSize)), false),
      Slot("turnIndicator", TurnIndicatorGauge(Instrument.New(sx, sy + step, GaugeSize), []), false),
      Slot("heading", HeadingGauge(Heading.New(sx + step, sy + step, GaugeSize)), false),
      Slot("magneticCompass", CompassGauge(Compass.New(sx + step * 2.0, sy + step, GaugeSize)), false),
      Slot("vsi", VsiGauge(Vsi.New(sx + step * 3.0, sy + step, GaugeSize)), false),
      Slot("ndb", NdbGauge(Ndb.New(sx + step * 3.0, sy, GaugeSize)), false),
      Slot("vor", VorGauge(Vor.New(sx + step * 3.0, sy + step, GaugeSize)), false),
      Slot("radio", RadioGauge(Radio.New(sx + step * 3.0, sy, GaugeSize * 2.25)), false)
    ], false, None)
  }

  function Origin(p: Panel, k: nat): (real, real)
    requires k < |p.slots|
  {
    (GaugeBase(p.slots[k].gauge).x, GaugeBase(p.slots[k].gauge).y)
  }

  /** The ten keys are distinct, and the round gauges occupy distinct grid
      cells except that the VSI and the VOR are placed on the same one; the
      radio's corner sits on the NDB's centre. */
  lemma LayoutCells(width: real, height: real)
    ensures forall i, j :: 0 <= i < j < 9 ==>
      (Origin(Layout(width, height), i) == Origin(Layout(width, height), j) <==> i == 6 && j == 8)
    ensures Origin(Layout(width, height), 9) == Origin(Layout(width, height), 7)
  {
    var p := Layout(width, height);
    LayoutOrigins(width, height);
    forall i, j | 0 <= i < j < 9
      ensures Origin(p, i) == Origin(p, j) <==> i == 6 && j == 8
    {
      CellsDistinct(i, j);
      GridInjective(StartX(width), StartY(height), Cell(i), Cell(j));
    }
    assert Origin(p, 9) == (StartX(width) + 210.0 * Cell(9).0, StartY(height) + 210.0 * Cell(9).1);
  }

  /** The grid cell, (column, row), each registration uses. */
  function Cell(k: nat): (c: (real, real))
    requires k < 10
  {
    [(0.0, 0.0), (1.0, 0.0), (2.0, 0.0), (0.0, 1.0), (1.0, 1.0),
     (2.0, 1.0), (3.0, 1.0), (3.0, 0.0), (3.0, 1.0), (3.0, 0.0)][k]
  }

  lemma LayoutOrigins(width: real, height: real)
    ensures forall k :: 0 <= k < 10 ==>
      Origin(Layout(width, height), k) == (StartX(width) + 210.0 * Cell(k).0, StartY(height) + 210.0 * Cell(k).1)
  {
  }

  /** Leftmost and rightmost canvas x a gauge paints: a round gauge's case
      circle about its centre, or the radio's housing from its corner. */
  function LeftEdge(g: Gauge): real {
    match g
    case RadioGauge(s) => Radio.Housing(s).left
    case _ => GaugeBase(g).x - Instrument.Background(GaugeBase(g)).caseRadius
  }

  function RightEdge(g: Gauge): real {
    match g
    case RadioGauge(s) => Radio.Housing(s).left + Radio.Housing(s).width
    case _ => GaugeBase(g).x + Instrument.Background(GaugeBase(g)).caseRadius
  }

  /** The 900-pixel width the code computes leaves equal margins on either
      side of StartX..StartX + 900, and every origin lies on the 210-pixel
      grid, four columns by two rows. The painted panel is not centred:
      round gauges are placed by their centre and the radio by its corner,
      so the panel spans [StartX − 95, StartX + 1035], whose midpoint is 20
      pixels right of the canvas centre. */
  lemma LayoutOnGrid(width: real, height: real)
    ensures 2.0 * StartX(width) + 900.0 == width
    ensures forall k :: 0 <= k < 10 ==>
      StartX(width) - 95.0 <= LeftEdge(Layout(width, height).slots[k].gauge) &&
      RightEdge(Layout(width, height).slots[k].gauge) <= StartX(width) + 1035.0
    ensures LeftEdge(Layout(width, height).slots[0].gauge) == StartX(width) - 95.0
    ensures RightEdge(Layout(width, height).slots[9].gauge) == StartX(width) + 1035.0
    ensures ((StartX(width) - 95.0) + (StartX(width) + 1035.0)) / 2.0 == width / 2.0 + 20.0
    ensures forall k :: 0 <= k < 10 ==> OnGrid(GaugeBase(Layout(width, height).slots[k].gauge), StartX(width), StartY(height))
  {
    LayoutOrigins(width, height);
    forall k | 0 <= k < 10
      ensures OnGrid(GaugeBase(Layout(width, height).slots[k].gauge), StartX(width), StartY(height))
    {
      var b := GaugeBase(Layout(width, height).slots[k].gauge);
      assert (b.x, b.y) == Origin(Layout(width, height), k);
      GridCoordinates(StartX(width), StartY(height), Cell(k).0, Cell(k).1);
    }
  }

  lemma GridCoordinates(sx: real, sy: real, c: real, r: real)
    ensures (sx + 210.0 * c - sx) / (GaugeSize + Padding) == c
    ensures (sy + 210.0 * r - sy) / (GaugeSize + Padding) == r
  {
  }

  lemma CellsDistinct(i: nat, j: nat)
    requires i < j < 9
    ensures Cell(i) == Cell(j) <==> i == 6 && j == 8
  {
  }

  lemma GridInjective(sx: real, sy: real, a: (real, real), b: (real, real))
    ensures (sx + 210.0 * a.0, sy + 210.0 * a.1) == (sx + 210.0 * b.0, sy + 210.0 * b.1) <==> a == b
  {
  }

  // ---------------------------------------------------------------------
  // Update fan-out

  /** `data[name] !== undefined`. */
  predicate Defined(data: JsValue, name: string) {
    Get(data, name) != Undef
  }

  /** `data[name]` on undefined throws; otherwise every gauge whose key is
      present can digest its share of the payload. */
  predicate Deliverable(slots: seq<Slot>, data: JsValue) {
    !data.Undef? && forall k :: 0 <= k < |slots| ==> Defined(data, slots[k].name) ==> GaugeAccepts(slots[k].gauge, Get(data, slots[k].name))
  }

  /** One turn of the loop of `update`: the instrument receives
      `data[name]` when that is defined and is left alone otherwise. */
  function Deliver(s: Slot, data: JsValue): (r: Slot)
    requires Defined(data, s.name) ==> GaugeAccepts(s.gauge, Get(data, s.name))
    ensures r.name == s.name && r.edit == s.edit
    ensures Defined(data, s.name) ==> r.gauge == GaugeUpdate(s.gauge, Get(data, s.name))
    ensures !Defined(data, s.name) ==> r == s
  {
    if Defined(data, s.name) then s.(gauge := GaugeUpdate(s.gauge, Get(data, s.name))) else s
  }

  /** The loop of `update` over the registry, in order. */
  function FanOut(slots: seq<Slot>, data: JsValue): (r: seq<Slot>)
    requires Deliverable(slots, data)
    ensures |r| == |slots|
    ensures forall k :: 0 <= k < |slots| ==> r[k] == Deliver(slots[k], data)
    decreases |slots|
  {
    if |slots| == 0 then []
    else [Deliver(slots[0], data)] + FanOut(slots[1..], data)
  }

  /** `update(data)`: every registered instrument whose key is defined in
      the payload receives `data[name]`; every other one, and the panel's
      own flags and capture, are unchanged. */
  function Update(p: Panel, data: JsValue): (r: Panel)
    requires Deliverable(p.slots, data)
    ensures r.editMode == p.editMode && r.dragged == p.dragged
    ensures |r.slots| == |p.slots|
    ensures forall k :: 0 <= k < |p.slots| ==> r.slots[k].name == p.slots[k].name && r.slots[k].edit == p.slots[k].edit
    ensures forall k :: 0 <= k < |p.slots| ==> Defined(data, p.slots[k].name) ==>
      r.slots[k].gauge == GaugeUpdate(p.slots[k].gauge, Get(data, p.slots[k].name))
    ensures forall k :: 0 <= k < |p.slots| ==> !Defined(data, p.slots[k].name) ==> r.slots[k] == p.slots[k]
  {
    p.(slots := FanOut(p.slots, data))
  }

  function NameSet(slots: seq<Slot>): set<string> {
    set k | 0 <= k < |slots| :: slots[k].name
  }

  /** The payload with every key that names no instrument removed. */
  function Restrict(data: JsValue, names: set<string>): JsValue {
    if data.Obj? then Obj(map k | k in data.fields && k in names :: data.fields[k]) else data
  }

  /** Keys that name no instrument are ignored: dropping them from the
      payload gives the same panel. A payload that is not an object, or one
      with none of the keys, changes nothing. */
  lemma UnknownKeysIgnored(slots: seq<Slot>, data: JsValue)
    requires Deliverable(slots, data)
    ensures Deliverable(slots, Restrict(data, NameSet(slots)))
    ensures FanOut(slots, data) == FanOut(slots, Restrict(data, NameSet(slots)))
    ensures (forall k :: 0 <= k < |slots| ==> !Defined(data, slots[k].name)) ==> FanOut(slots, data) == slots
  {
    var d := Restrict(data, NameSet(slots));
    forall k | 0 <= k < |slots|
      ensures Get(d, slots[k].name) == Get(data, slots[k].name)
    {
      assert slots[k].name in NameSet(slots);
    }
    var a := FanOut(slots, data);
    var b := FanOut(slots, d);
    assert forall k :: 0 <= k < |slots| ==> a[k] == b[k];
  }

  // ---------------------------------------------------------------------
  // Edit mode

  /** The toggle button: flip the panel's flag and copy it to every instrument. */
  function ToggleEdit(p: Panel): (r: Panel)
    ensures r.editMode == !p.editMode
    ensures Consistent(r)
    ensures |r.slots| == |p.slots| && r.dragged == p.dragged
    ensures forall k :: 0 <= k < |p.slots| ==> r.slots[k].name == p.slots[k].name && r.slots[k].gauge == p.slots[k].gauge
  {
    var mode := !p.editMode;
    p.(editMode := mode, slots := seq(|p.slots|, k requires 0 <= k < |p.slots| => p.slots[k].(edit := mode)))
  }

  /** Toggling twice restores any panel whose flags agreed. */
  lemma ToggleTwice(p: Panel)
    requires Consistent(p)
    ensures ToggleEdit(ToggleEdit(p)) == p
  {
    var q := ToggleEdit(ToggleEdit(p));
    assert forall k :: 0 <= k < |p.slots| ==> q.slots[k] == p.slots[k];
  }

  // ---------------------------------------------------------------------
  // Pointer gestures

  /** What an instrument answers about the pointer position:
      `isOverResizeHandle(x, y)` and `containsPoint(x, y)`. The instruments'
      hit-testing geometry is not part of this model. */
  datatype Probe = Probe(overHandle: bool, contains: bool)

  /** The instrument gesture methods the panel calls, with their target's index. */
  datatype Call =
    | StartResize(target: nat, x: real, y: real)
    | StartDrag(target: nat, x: real, y: real)
    | Resize(target: nat, x: real, y: real)
    | Drag(target: nat, x: real, y: real)
    | StopResize(target: nat)
    | StopDrag(target: nat)

  /** Instrument k takes the press: a handle hit counts only in edit mode. */
  predicate Takes(p: Panel, probes: seq<Probe>, k: nat)
    requires k < |p.slots| == |probes|
  {
    (p.slots[k].edit && probes[k].overHandle) || probes[k].contains
  }

  /** The reverse scan over the first n instruments: the highest index below n that takes the press. */
  function TopHit(p: Panel, probes: seq<Probe>, n: nat): (r: Option<nat>)
    requires n <= |p.slots| == |probes|
    ensures r.Some? ==> r.value < n && Takes(p, probes, r.value)
    ensures r.Some? ==> forall j :: r.value < j < n ==> !Takes(p, probes, j)
    ensures r.None? ==> forall j :: 0 <= j < n ==> !Takes(p, probes, j)
    decreases n
  {
    if n == 0 then None
    else if Takes(p, probes, n - 1) then Some(n - 1)
    else TopHit(p, probes, n - 1)
  }

  /** `mousedown`: ignored outside edit mode; otherwise the last-registered
      instrument that takes the press is captured and told to start a resize
      (edit-mode handle hit) or a drag. A press that hits nothing leaves the
      capture as it was. */
  function MouseDown(p: Panel, x: real, y: real, probes: seq<Probe>): (r: (Panel, seq<Call>))
    requires |probes| == |p.slots|
    ensures !p.editMode ==> r == (p, [])
    ensures r.0.slots == p.slots && r.0.editMode == p.editMode
    ensures p.editMode && (forall j :: 0 <= j < |p.slots| ==> !Takes(p, probes, j)) ==> r == (p, [])
    ensures p.editMode && (exists j :: 0 <= j < |p.slots| && Takes(p, probes, j)) ==> r.0.dragged.Some? && |r.1| == 1
    ensures p.editMode && r.0.dragged != p.dragged ==> r.0.dragged.Some?
    ensures r.1 != [] ==> p.editMode && r.0.dragged.Some? && |r.1| == 1 && r.1[0].target == r.0.dragged.value
    ensures p.editMode && r.0.dragged.Some? && r.1 != [] ==>
      var k := r.0.dragged.value;
      && k < |p.slots| && Takes(p, probes, k)
      && (forall j :: k < j < |p.slots| ==> !Takes(p, probes, j))
      && (r.1[0] == StartResize(k, x, y) <==> p.slots[k].edit && probes[k].overHandle)
      && (r.1[0] == StartDrag(k, x, y) <==> !(p.slots[k].edit && probes[k].overHandle))
  {
    if !p.editMode then (p, [])
    else
      match TopHit(p, probes, |p.slots|)
      case None => (p, [])
      case Some(k) =>
        if p.slots[k].edit && probes[k].overHandle then (p.(dragged := Some(k)), [StartResize(k, x, y)])
        else (p.(dragged := Some(k)), [StartDrag(k, x, y)])
  }

  /** `mousemove`: nothing without a capture; otherwise the captured
      instrument is resized if it reports `isResizing`, else dragged. */
  function MouseMove(p: Panel, x: real, y: real, resizing: bool): (r: seq<Call>)
    ensures p.dragged.None? <==> r == []
    ensures p.dragged.Some? ==> r == [if resizing then Resize(p.dragged.value, x, y) else Drag(p.dragged.value, x, y)]
  {
    match p.dragged
    case None => []
    case Some(k) => if resizing then [Resize(k, x, y)] else [Drag(k, x, y)]
  }

  /** `mouseup`: the captured instrument is told to stop the gesture it is
      in, and the capture is cleared. */
  function MouseUp(p: Panel, resizing: bool): (r: (Panel, seq<Call>))
    ensures r.0 == p.(dragged := None)
    ensures p.dragged.None? <==> r.1 == []
    ensures p.dragged.Some? ==> r.1 == [if resizing then StopResize(p.dragged.value) else StopDrag(p.dragged.value)]
  {
    match p.dragged
    case None => (p, [])
    case Some(k) => (p.(dragged := None), [if resizing then StopResize(k) else StopDrag(k)])
  }

  /** `mouseleave`: the captured instrument is always told `stopDrag`, even
      in the middle of a resize, and the capture is cleared. */
  function MouseLeave(p: Panel): (r: (Panel, seq<Call>))
    ensures r.0 == p.(dragged := None)
    ensures p.dragged.None? <==> r.1 == []
    ensures p.dragged.Some? ==> r.1 == [StopDrag(p.dragged.value)]
  {
    match p.dragged
    case None => (p, [])
    case Some(k) => (p.(dragged := None), [StopDrag(k)])
  }

  /** Leaving the canvas mid-resize ends the resize with `stopDrag`, where
      releasing the button would have called `stopResize`. */
  lemma LeaveDuringResize(p: Panel, k: nat)
    requires p.dragged == Some(k)
    ensures MouseUp(p, true).1 == [StopResize(k)]
    ensures MouseLeave(p).1 == [StopDrag(k)]
    ensures MouseUp(p, true).0 == MouseLeave(p).0
  {
  }

  /** A second press while an instrument is still captured moves the
      capture to whatever the press hits without stopping the first
      gesture: no stop call is issued for it. */
  lemma PressWhileCaptured(p: Panel, x: real, y: real, probes: seq<Probe>, j: nat, k: nat)
    requires |probes| == |p.slots| && p.editMode && p.dragged == Some(j)
    requires k < |p.slots| && k != j && Takes(p, probes, k)
    requires forall i :: k < i < |p.slots| ==> !Takes(p, probes, i)
    ensures MouseDown(p, x, y, probes).0.dragged == Some(k)
    ensures forall c :: c in MouseDown(p, x, y, probes).1 ==> c.target == k != j
  {
  }

  /** Everything that can happen to the panel. */
  datatype Event =
    | Toggle
    | Data(payload: JsValue)
    | Down(x: real, y: real, probes: seq<Probe>)
    | Move(x: real, y: real, resizing: bool)
    | Up(resizing: bool)
    | Leave

  predicate EventOk(p: Panel, e: Event) {
    match e
    case Data(d) => Deliverable(p.slots, d)
    case Down(_, _, probes) => |probes| == |p.slots|
    case _ => true
  }

  function Step(p: Panel, e: Event): (Panel, seq<Call>)
    requires EventOk(p, e)
  {
    match e
    case Toggle => (ToggleEdit(p), [])
    case Data(d) => (Update(p, d), [])
    case Down(x, y, probes) => MouseDown(p, x, y, probes)
    case Move(x, y, resizing) => (p, MouseMove(p, x, y, resizing))
    case Up(resizing) => MouseUp(p, resizing)
    case Leave => MouseLeave(p)
  }

  /** Every event keeps the panel's invariant, its keys and each gauge's
      class and placement; a release or leave always ends the capture. */
  lemma StepPreservesWf(p: Panel, e: Event)
    requires Wf(p) && EventOk(p, e)
    ensures Wf(Step(p, e).0)
    ensures |Step(p, e).0.slots| == |p.slots|
    ensures forall k :: 0 <= k < |p.slots| ==>
      Step(p, e).0.slots[k].name == p.slots[k].name
      && SameKind(Step(p, e).0.slots[k].gauge, p.slots[k].gauge)
      && GaugeBase(Step(p, e).0.slots[k].gauge) == GaugeBase(p.slots[k].gauge)
    ensures e.Up? || e.Leave? ==> Step(p, e).0.dragged.None?
  {
  }

  // ---------------------------------------------------------------------
  // Scenarios

  /** A payload with the single key Names[i] reaches instrument i alone. */
  lemma SingleKeyReachesOne(width: real, height: real, i: nat, v: JsValue)
    requires i < 10 && v != Undef && GaugeAccepts(Layout(width, height).slots[i].gauge, v)
    ensures Deliverable(Layout(width, height).slots, Obj(map[Names[i] := v]))
    ensures var p := Layout(width, height);
      var r := Update(p, Obj(map[Names[i] := v]));
      && r.slots[i].gauge == GaugeUpdate(p.slots[i].gauge, v)
      && forall k :: 0 <= k < 10 && k != i ==> r.slots[k] == p.slots[k]
  {
    var p := Layout(width, height);
    var d := Obj(map[Names[i] := v]);
    NamesDistinct();
    forall k | 0 <= k < 10
      ensures Get(d, p.slots[k].name) == if k == i then v else Undef
    {
      assert p.slots[k].name == Names[k];
    }
  }

  lemma NamesDistinct()
    ensures forall i, j :: 0 <= i < 10 && 0 <= j < 10 && i != j ==> Names[i] != Names[j]
  {
  }

  /** A panel of any size fed an airspeed of 500 stores 400 and draws the
      needle at the top of the scale. */
  lemma OverspeedClamped(width: real, height: real)
    ensures Deliverable(Layout(width, height).slots, Obj(map["airspeed" := Num(500.0)]))
    ensures var p := Update(Layout(width, height), Obj(map["airspeed" := Num(500.0)]));
      && p.slots[0].gauge.AirspeedGauge?
      && p.slots[0].gauge.airspeed.speed == 400.0
      && Airspeed.SpeedToAngle(p.slots[0].gauge.airspeed.speed) == 210.0
  {
    var p := Layout(width, height);
    SingleKeyReachesOne(width, height, 0, Num(500.0));
    var r := Update(p, Obj(map["airspeed" := Num(500.0)]));
    assert r.slots[0].gauge == GaugeUpdate(p.slots[0].gauge, Num(500.0));
    assert p.slots[0].gauge.AirspeedGauge?;
  }

  /** A heading of −30 is stored as 330. */
  lemma NegativeHeadingWrapped(width: real, height: real)
    ensures Deliverable(Layout(width, height).slots, Obj(map["heading" := Num(-30.0)]))
    ensures var p := Update(Layout(width, height), Obj(map["heading" := Num(-30.0)]));
      p.slots[4].gauge.HeadingGauge? && p.slots[4].gauge.heading.heading == 330.0
  {
    var p := Layout(width, height);
    SingleKeyReachesOne(width, height, 4, Num(-30.0));
    var r := Update(p, Obj(map["heading" := Num(-30.0)]));
    assert r.slots[4].gauge == GaugeUpdate(p.slots[4].gauge, Num(-30.0));
    assert p.slots[4].gauge.HeadingGauge?;
    HeadingMinusThirty(p.slots[4].gauge);
  }

  lemma HeadingMinusThirty(g: Gauge)
    requires g.HeadingGauge?
    ensures GaugeUpdate(g, Num(-30.0)).HeadingGauge? && GaugeUpdate(g, Num(-30.0)).heading.heading == 330.0
  {
    assert JsRem(-30.0, 360.0) == -30.0;
  }

  /** Outside edit mode a press captures nothing, so the next move calls nothing. */
  lemma PressOutsideEditMode(width: real, height: real, x: real, y: real, probes: seq<Probe>, mx: real, my: real, resizing: bool)
    requires |probes| == 10
    ensures var p := Layout(width, height);
      var q := MouseDown(p, x, y, probes).0;
      q == p && MouseMove(q, mx, my, resizing) == []
  {
  }

  // ---------------------------------------------------------------------
  // Clouds

  const Margin: real := 10.0

  /** `(timeOffset + phase) * speed % canvas.width`. */
  function CloudX(t: real, phase: real, speed: real, width: real): real
    requires width > 0.0
  {
    JsRem((t + phase) * speed, width)
  }

  /** The condition for drawing a wrapped copy. */
  predicate HasCopy(x: real, size: real, width: real) {
    x + size > width - Margin * 2.0
  }

  function CopyX(x: real, width: real): real {
    x - (width - Margin * 2.0)
  }

  /** A cloud moving at a non-negative speed at a non-negative time lies in
      [0, width). A copy is drawn exactly when the copy's nominal right edge,
      its anchor plus size, is on the canvas (the painted circles reach
      only 0.8·size past the anchor), and it sits width − 10 to the left of
      the drawn cloud. */
  lemma CloudWrap(t: real, phase: real, speed: real, width: real, size: real)
    requires width > 0.0 && t + phase >= 0.0 && speed >= 0.0
    ensures 0.0 <= CloudX(t, phase, speed, width) < width
    ensures HasCopy(CloudX(t, phase, speed, width), size, width) <==> CopyX(CloudX(t, phase, speed, width), width) + size > 0.0
    ensures (CloudX(t, phase, speed, width) + Margin) - CopyX(CloudX(t, phase, speed, width), width) == width - Margin
    ensures CloudX(t, phase, speed, width) + Margin + size > width ==> HasCopy(CloudX(t, phase, speed, width), size, width)
  {
    var x := CloudX(t, phase, speed, width);
    NonNegativeProduct(t + phase, speed);
    assert x >= 0.0;
  }

  lemma NonNegativeProduct(a: real, b: real)
    requires a >= 0.0 && b >= 0.0
    ensures a * b >= 0.0
  {
  }

  /** A 60-pixel cloud 5 pixels from the right edge of an 800-pixel canvas
      is drawn a second time at x − 780. */
  lemma CloudAtRightEdge()
    ensures HasCopy(795.0, 60.0, 800.0) && CopyX(795.0, 800.0) == 15.0
  {
  }
}
