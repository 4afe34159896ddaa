/** The VOR indicator: a course card, a course deviation bar, a TO/FROM
    flag and a NAV warning flag. */
module Vor {
  import opened Js
  import opened Dial
  import Instrument
  import Geometry

  datatype State = State(
    base: Instrument.Base,
    course: real,
    bearing: real,
    deviation: real,
    fromFlag: JsValue,
    isValid: bool)

  function New(x: real, y: real, size: real): (s: State)
    ensures s.base == Instrument.New(x, y, size)
    ensures s.course == 0.0 && s.bearing == 0.0 && s.deviation == 0.0
    ensures s.fromFlag == Bool(true) && s.isValid
  {
    State(Instrument.New(x, y, size), 0.0, 0.0, 0.0, Bool(true), true)
  }

  /** Any value may be passed; only an object changes the state, and then
      its course, bearing and deviation are read unguarded. */
  predicate Accepts(data: JsValue) {
    data.Obj? ==> Get(data, "course").Num? && Get(data, "bearing").Num? && Get(data, "deviation").Num?
  }

  function Update(s: State, data: JsValue): (r: State)
    requires Accepts(data)
    ensures !data.Obj? ==> r == s
    ensures r.base == s.base
    ensures data.Obj? ==> -360.0 < r.course < 360.0 && Congruent(r.course, Get(data, "course").n, 360.0)
    ensures data.Obj? ==> -360.0 < r.bearing < 360.0 && Congruent(r.bearing, Get(data, "bearing").n, 360.0)
    ensures data.Obj? && Get(data, "course").n < 0.0 ==> r.course <= 0.0
    ensures data.Obj? && Get(data, "bearing").n < 0.0 ==> r.bearing <= 0.0
    ensures data.Obj? && Get(data, "course").n >= 0.0 ==> r.course >= 0.0
    ensures data.Obj? && Get(data, "bearing").n >= 0.0 ==> r.bearing >= 0.0
    ensures data.Obj? && -360.0 < Get(data, "course").n < 360.0 ==> r.course == Get(data, "course").n
    ensures data.Obj? && -360.0 < Get(data, "bearing").n < 360.0 ==> r.bearing == Get(data, "bearing").n
    ensures data.Obj? ==> -1.0 <= r.deviation <= 1.0
    ensures data.Obj? && -1.0 <= Get(data, "deviation").n <= 1.0 ==> r.deviation == Get(data, "deviation").n
    ensures data.Obj? && Get(data, "deviation").n < -1.0 ==> r.deviation == -1.0
    ensures data.Obj? && Get(data, "deviation").n > 1.0 ==> r.deviation == 1.0
    ensures data.Obj? ==> r.fromFlag == Get(data, "fromFlag")
    ensures data.Obj? ==> (r.isValid <==> Get(data, "isValid") != Bool(false))
  {
    if data.Obj? then
      s.(course := JsRem(Get(data, "course").n, 360.0),
         bearing := JsRem(Get(data, "bearing").n, 360.0),
         deviation := Clamp(-1.0, 1.0, Get(data, "deviation").n),
         fromFlag := Get(data, "fromFlag"),
         isValid := Get(data, "isValid") != Bool(false))
    else s
  }

  /** The remainder is not normalised: a course of −30 is stored as −30,
      not 330. A missing `isValid`, or a 0, still counts as valid, and a
      missing `fromFlag` is stored as undefined and so shows TO. */
  lemma UpdateExamples(s: State)
    ensures var r := Update(s, Obj(map["course" := Num(-30.0), "bearing" := Num(370.0), "deviation" := Num(0.0)]));
      r.course == -30.0 && r.bearing == 10.0 && r.isValid && r.fromFlag == Undef && FlagText(r) == "TO"
    ensures Update(s, Obj(map["course" := Num(0.0), "bearing" := Num(0.0), "deviation" := Num(0.0),
                              "isValid" := Num(0.0)])).isValid
  {
    var d := Obj(map["course" := Num(-30.0), "bearing" := Num(370.0), "deviation" := Num(0.0)]);
    assert Get(d, "fromFlag") == Undef && Get(d, "isValid") == Undef;
    var b := JsRem(370.0, 360.0);
    assert b == 10.0 by {
      assert Trunc(370.0 / 360.0) == 1;
    }
  }

  lemma UpdateIdempotent(s: State, data: JsValue)
    requires Accepts(data)
    ensures Update(Update(s, data), data) == Update(s, data)
  {
  }

  /** `fromFlag ? 'FROM' : 'TO'`. */
  function FlagText(s: State): string {
    if Truthy(s.fromFlag) then "FROM" else "TO"
  }

  /** Although the stored course may be negative, the card, drawn rotated
      by −course, still brings the course's own degree in [0, 360) to the
      top: −30 shows 330. */
  lemma CardShowsCourse(s: State, c: real)
    requires 0.0 <= c < 360.0
    ensures Congruent(RotatedCardBearing(s.course, c), 0.0, 360.0) <==> c == Wrap360(s.course)
  {
    CardReadsWrapped(s.course, c);
  }

  function Radius(s: State): real {
    s.base.size / 2.0 - 5.0
  }

  /** The bar's displacement: the clamped deviation times a third of the radius. */
  function DeviationOffset(s: State): real {
    Clamp(-1.0, 1.0, s.deviation) * Radius(s) / 3.0
  }

  lemma DeviationOffsetBounded(s: State)
    requires Radius(s) >= 0.0
    ensures -(Radius(s) / 3.0) <= DeviationOffset(s) <= Radius(s) / 3.0
    ensures s.deviation == 0.0 ==> DeviationOffset(s) == 0.0
  {
    var f := Clamp(-1.0, 1.0, s.deviation);
    var k := Radius(s) / 3.0;
    assert DeviationOffset(s) == f * k;
    UnitScaled(f, k);
  }

  lemma UnitScaled(f: real, k: real)
    requires -1.0 <= f <= 1.0 && k >= 0.0
    ensures -k <= f * k <= k
  {
    if f >= 0.0 {
      assert (1.0 - f) * k >= 0.0;
    } else {
      assert (1.0 + f) * k >= 0.0;
    }
  }

  /** The vertical deviation bar as drawn: `fillRect(-2, -deviation - 40, 4, 80)`. */
  function BarAsWritten(s: State): Geometry.Rect {
    Geometry.Rect(-2.0, -DeviationOffset(s) - 40.0, 4.0, 80.0)
  }

  /** The offset slides the vertical bar along its own length: its
      horizontal position is the same for every deviation, so full-scale
      deflection leaves it centred and only moves it up or down. */
  lemma BarNeverMovesSideways(s: State, t: State)
    ensures BarAsWritten(s).left == BarAsWritten(t).left == -2.0
    ensures BarAsWritten(s).width == 4.0 && BarAsWritten(s).height == 80.0
    ensures s.deviation == 1.0 && Radius(s) > 0.0 ==> BarAsWritten(s).top < -40.0
  {
  }

  /** The bar displaced sideways by the offset. */
  function Bar(s: State): Geometry.Rect {
    Geometry.Rect(DeviationOffset(s) - 2.0, -40.0, 4.0, 80.0)
  }

  /** The corrected bar is centred on the offset, centred on the dial at
      zero deviation, moves right as deviation grows, and stays vertically
      centred on the horizontal bar. */
  lemma BarMovesWithDeviation(s: State, t: State)
    requires s.base == t.base && Radius(s) > 0.0
    requires -1.0 <= s.deviation < t.deviation <= 1.0
    ensures Bar(s).left + Bar(s).width / 2.0 == DeviationOffset(s)
    ensures Bar(s).left < Bar(t).left
    ensures Bar(s).top + Bar(s).height / 2.0 == 0.0
    ensures s.deviation == 0.0 ==> Bar(s).left == -2.0
  {
    var k := Radius(s) / 3.0;
    assert DeviationOffset(s) == s.deviation * k;
    assert DeviationOffset(t) == t.deviation * k;
    assert (t.deviation - s.deviation) * k > 0.0;
  }
}
