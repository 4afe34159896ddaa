/** The NDB (ADF) indicator: a fixed card and a needle pointing at the
    station's bearing relative to the aircraft's heading. */
module Ndb {
  import opened Js
  import Instrument
  import Geometry

  datatype State = State(base: Instrument.Base, bearing: real, heading: real)

  /** Both angles are kept in [0, 360). */
  predicate Valid(s: State) {
    0.0 <= s.bearing < 360.0 && 0.0 <= s.heading < 360.0
  }

  function New(x: real, y: real, size: real): (s: State)
    ensures s.base == Instrument.New(x, y, size)
    ensures s.bearing == 0.0 && s.heading == 0.0 && Valid(s)
  {
    State(Instrument.New(x, y, size), 0.0, 0.0)
  }

  /** An object with numeric `bearing` and `heading`, or a bare bearing. */
  predicate Accepts(data: JsValue) {
    if data.Obj? then Get(data, "bearing").Num? && Get(data, "heading").Num? else data.Num?
  }

  /** The closing `if (this.heading < 0) this.heading += 360`, applied to a
      heading the bare-number form leaves in place. */
  function LiftNegative(h: real): real {
    if h < 0.0 then h + 360.0 else h
  }

  function Update(s: State, data: JsValue): (r: State)
    requires Accepts(data)
    ensures r.base == s.base
    ensures 0.0 <= r.bearing < 360.0
    ensures data.Obj? ==> Congruent(r.bearing, Get(data, "bearing").n, 360.0)
    ensures data.Obj? ==> 0.0 <= r.heading < 360.0 && Congruent(r.heading, Get(data, "heading").n, 360.0)
    ensures !data.Obj? ==> Congruent(r.bearing, data.n, 360.0)
    ensures !data.Obj? && 0.0 <= s.heading ==> r.heading == s.heading
    ensures !data.Obj? && s.heading < 0.0 ==> r.heading == s.heading + 360.0
  {
    if data.Obj? then
      s.(bearing := Wrap360(Get(data, "bearing").n), heading := Wrap360(Get(data, "heading").n))
    else
      s.(bearing := Wrap360(data.n), heading := LiftNegative(s.heading))
  }

  /** Construction establishes the invariant and every update keeps it;
      the bare-number form leaves a valid heading exactly as it was. */
  lemma UpdatePreservesValid(s: State, data: JsValue)
    requires Valid(s) && Accepts(data)
    ensures Valid(Update(s, data))
    ensures !data.Obj? ==> Update(s, data).heading == s.heading
  {
  }

  /** Re-applying a payload changes nothing, from any state an update can
      reach (an arbitrary heading below −360 would need two lifts). */
  lemma UpdateIdempotent(s: State, data: JsValue)
    requires Valid(s) && Accepts(data)
    ensures Update(Update(s, data), data) == Update(s, data)
  {
  }

  /** `(bearing - heading)`, the rotation of the needle, in degrees. */
  function NeedleAngle(s: State): real {
    s.bearing - s.heading
  }

  /** For a valid state the needle's rotation stays within one turn either
      way; on the fixed card it points at the relative bearing, and
      straight ahead exactly when the station lies on the nose. */
  lemma NeedleRelative(s: State)
    requires Valid(s)
    ensures -360.0 < NeedleAngle(s) < 360.0
    ensures Geometry.BearingOfRotatedUp(NeedleAngle(s)) == s.bearing - s.heading
    ensures Congruent(NeedleAngle(s), 0.0, 360.0) <==> s.bearing == s.heading
  {
    if Congruent(NeedleAngle(s), 0.0, 360.0) {
      assert (s.bearing - s.heading) / 360.0 == (NeedleAngle(s) - 0.0) / 360.0;
      CongruentInTurnIsEqual(s.bearing, s.heading);
    } else if s.bearing == s.heading {
      assert (NeedleAngle(s) - 0.0) / 360.0 == 0.0;
      IntegerIsInteger(0);
    }
  }
}
