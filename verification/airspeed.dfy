/** The airspeed indicator: a speed clamped to [0, 400] knots, read on a
    300-degree dial that starts at 12 o'clock. */
module Airspeed {
  import opened Js
  import opened Dial
  import Instrument
  import Geometry

  const MaxSpeed: real := 400.0

  /** A coloured band of the dial, in knots. */
  datatype Band = Band(low: real, high: real)

  const GreenArc: Band := Band(60.0, 240.0)
  const YellowArc: Band := Band(240.0, 350.0)

  datatype State = State(base: Instrument.Base, speed: real)

  /** The speed the needle shows never leaves the dial. */
  predicate Valid(s: State) {
    0.0 <= s.speed <= MaxSpeed
  }

  function New(x: real, y: real, size: real): (s: State)
    ensures s.base == Instrument.New(x, y, size)
    ensures s.speed == 0.0 && Valid(s)
  {
    State(Instrument.New(x, y, size), 0.0)
  }

  /** `update(speed)` is called with a bare number. */
  predicate Accepts(data: JsValue) {
    data.Num?
  }

  function Update(s: State, data: JsValue): (r: State)
    requires Accepts(data)
    ensures r.base == s.base
    ensures Valid(r)
    ensures 0.0 <= data.n <= MaxSpeed ==> r.speed == data.n
    ensures data.n < 0.0 ==> r.speed == 0.0
    ensures data.n > MaxSpeed ==> r.speed == MaxSpeed
  {
    s.(speed := Clamp(0.0, MaxSpeed, data.n))
  }

  lemma UpdateIdempotent(s: State, data: JsValue)
    requires Accepts(data)
    ensures Update(Update(s, data), data) == Update(s, data)
  {
  }

  /** `speedToAngle`, in degrees on the canvas. */
  function SpeedToAngle(speed: real): real {
    speed / MaxSpeed * 300.0 - 90.0
  }

  /** The map puts 0 knots at 12 o'clock, the top of the scale 300 degrees
      clockwise from it, and turns the needle clockwise as speed grows. */
  lemma SpeedToAngleShape(a: real, b: real)
    ensures SpeedToAngle(0.0) == -90.0 && Geometry.BearingOfPolar(SpeedToAngle(0.0)) == 0.0
    ensures SpeedToAngle(MaxSpeed) == 210.0 && Geometry.BearingOfPolar(SpeedToAngle(MaxSpeed)) == 300.0
    ensures a < b ==> SpeedToAngle(a) < SpeedToAngle(b)
  {
  }

  /** The needle is drawn at `speedToAngle(this.speed)`: for every state an
      update can produce, it lies on the 300-degree scale. */
  lemma NeedleOnScale(s: State)
    requires Valid(s)
    ensures -90.0 <= SpeedToAngle(s.speed) <= 210.0
    ensures 0.0 <= Geometry.BearingOfPolar(SpeedToAngle(s.speed)) <= 300.0
  {
  }

  /** The green and yellow bands meet at 240 knots without overlapping and
      both lie on the dial, so their arcs meet at one angle too. */
  lemma BandsAdjacent()
    ensures 0.0 <= GreenArc.low < GreenArc.high == YellowArc.low < YellowArc.high <= MaxSpeed
    ensures SpeedToAngle(GreenArc.high) == SpeedToAngle(YellowArc.low) == 90.0
    ensures -90.0 <= SpeedToAngle(GreenArc.low) && SpeedToAngle(YellowArc.high) <= 210.0
  {
  }

  /** The graduation loop `for (speed = 0; speed <= maxSpeed; speed += 20)`:
      a mark every 20 knots, long (15) and numbered on multiples of 100,
      short (10) otherwise. */
  method Graduations() returns (marks: seq<Mark>, labels: seq<Label>)
    ensures |marks| == 21
    ensures forall k :: 0 <= k < |marks| ==> marks[k].at == 20 * k
    ensures forall k :: 0 <= k < |marks| ==> (marks[k].length == 15 <==> marks[k].at % 100 == 0)
    ensures forall k :: 0 <= k < |marks| ==> (marks[k].length == 10 <==> marks[k].at % 100 != 0)
    ensures |labels| == 5
    ensures forall k :: 0 <= k < |labels| ==> labels[k] == Label(100 * k, NatToString(100 * k))
  {
    marks := [];
    labels := [];
    var speed := 0;
    while speed as real <= MaxSpeed
      invariant 0 <= speed <= 420 && speed == 20 * |marks|
      invariant forall k :: 0 <= k < |marks| ==>
        marks[k] == Mark(20 * k, if (20 * k) % 100 == 0 then 15 else 10)
      invariant 100 * |labels| - 100 < speed <= 100 * |labels|
      invariant forall k :: 0 <= k < |labels| ==> labels[k] == Label(100 * k, NatToString(100 * k))
    {
      var isMain := speed % 100 == 0;
      marks := marks + [Mark(speed, if isMain then 15 else 10)];
      if isMain {
        assert speed == 100 * |labels|;
        labels := labels + [Label(speed, NatToString(speed))];
      }
      speed := speed + 20;
    }
  }
}
