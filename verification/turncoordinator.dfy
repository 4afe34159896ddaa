/** The turn coordinator: a miniature aircraft banked by the turn rate and
    a slip/skid ball in a curved race. */
module TurnCoordinator {
  import opened Js
  import Instrument

  const MaxTurnRate: real := 6.0

  datatype State = State(base: Instrument.Base, turnRate: real, slipSkid: real)

  predicate Valid(s: State) {
    -MaxTurnRate <= s.turnRate <= MaxTurnRate && -1.0 <= s.slipSkid <= 1.0
  }

  function New(x: real, y: real, size: real): (s: State)
    ensures s.base == Instrument.New(x, y, size)
    ensures s.turnRate == 0.0 && s.slipSkid == 0.0 && Valid(s)
  {
    State(Instrument.New(x, y, size), 0.0, 0.0)
  }

  /** Both fields are read unguarded and must be numbers. */
  predicate Accepts(data: JsValue) {
    Get(data, "turnRate").Num? && Get(data, "slipSkid").Num?
  }

  function Update(s: State, data: JsValue): (r: State)
    requires Accepts(data)
    ensures r.base == s.base
    ensures Valid(r)
    ensures -MaxTurnRate <= Get(data, "turnRate").n <= MaxTurnRate ==> r.turnRate == Get(data, "turnRate").n
    ensures Get(data, "turnRate").n < -MaxTurnRate ==> r.turnRate == -MaxTurnRate
    ensures Get(data, "turnRate").n > MaxTurnRate ==> r.turnRate == MaxTurnRate
    ensures -1.0 <= Get(data, "slipSkid").n <= 1.0 ==> r.slipSkid == Get(data, "slipSkid").n
    ensures Get(data, "slipSkid").n < -1.0 ==> r.slipSkid == -1.0
    ensures Get(data, "slipSkid").n > 1.0 ==> r.slipSkid == 1.0
  {
    s.(turnRate := Clamp(-MaxTurnRate, MaxTurnRate, Get(data, "turnRate").n),
       slipSkid := Clamp(-1.0, 1.0, Get(data, "slipSkid").n))
  }

  lemma UpdateIdempotent(s: State, data: JsValue)
    requires Accepts(data)
    ensures Update(Update(s, data), data) == Update(s, data)
  {
  }

  /** The aircraft symbol is rotated by turnRate·π/12 radians, i.e. 15
      degrees per unit of turn rate. */
  function AircraftRotation(s: State): real {
    s.turnRate * 15.0
  }

  /** The ball race is an upper half-circle of radius 25 (half the 50-pixel
      container) about the ball's line, stroked 20 pixels wide, so the band
      covers distances 15 to 35 from its centre. */
  const RaceRadius: real := 25.0
  const RaceStroke: real := 20.0

  function BallPosition(s: State): real {
    s.slipSkid * 20.0
  }

  /** Once updated the aircraft banks at most 90 degrees either way, the
      bank grows with the turn rate, and the ball's centre stays within 20
      pixels either side of the race's centre. */
  lemma DisplayBounds(s: State, t: State)
    requires Valid(s) && Valid(t)
    ensures -90.0 <= AircraftRotation(s) <= 90.0
    ensures -20.0 <= BallPosition(s) <= 20.0
    ensures s.turnRate < t.turnRate ==> AircraftRotation(s) < AircraftRotation(t)
    ensures s.slipSkid == 0.0 ==> BallPosition(s) == 0.0
  {
  }

  /** The ball is drawn on the race's diameter, not in the band: its centre
      is closer to the race's centre than the band's inner edge exactly when
      |slipSkid| < 0.75, and never as far as the outer edge. */
  lemma BallUnderArch(s: State)
    requires Valid(s)
    ensures -(RaceRadius - RaceStroke / 2.0) < BallPosition(s) < RaceRadius - RaceStroke / 2.0 <==> -0.75 < s.slipSkid < 0.75
    ensures -(RaceRadius + RaceStroke / 2.0) < BallPosition(s) < RaceRadius + RaceStroke / 2.0
  {
  }

  /** A standard-rate turn (3 units, the "2 MIN TURN" the dial prints) banks
      the aircraft 45 degrees, past the 30-degree L/R marks; the marks are
      reached at 2 units. */
  lemma StandardRateBank(s: State)
    requires s.turnRate == 3.0
    ensures AircraftRotation(s) == 45.0 > TurnMarks[2].angle
    ensures AircraftRotation(s.(turnRate := 2.0)) == TurnMarks[2].angle
  {
  }

  datatype TurnMark = TurnMark(angle: real, text: string)

  const TurnMarks: seq<TurnMark> := [TurnMark(-30.0, "L"), TurnMark(0.0, ""), TurnMark(30.0, "R")]

  /** The three turn marks are mirror images about the centre mark; only
      the two outer ones carry a letter. */
  lemma TurnMarksSymmetric()
    ensures |TurnMarks| == 3
    ensures forall k :: 0 <= k < 3 ==> TurnMarks[k].angle == -TurnMarks[2 - k].angle
    ensures forall k :: 0 <= k < 3 ==> (TurnMarks[k].text != "" <==> TurnMarks[k].angle != 0.0)
    ensures TurnMarks[0].angle < 0.0 && TurnMarks[0].text == "L"
    ensures TurnMarks[2].angle > 0.0 && TurnMarks[2].text == "R"
  {
  }
}
