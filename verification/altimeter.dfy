/** The altimeter: altitude and barometric setting, three needles turning
    once per 1,000, 10,000 and 100,000 feet over a ten-numeral dial. */
module Altimeter {
  import opened Js
  import opened Dial
  import Instrument
  import Geometry

  const StandardPressure: real := 29.92

  datatype State = State(base: Instrument.Base, altitude: real, pressure: real)

  function New(x: real, y: real, size: real): (s: State)
    ensures s.base == Instrument.New(x, y, size)
    ensures s.altitude == 0.0 && s.pressure == StandardPressure
  {
    State(Instrument.New(x, y, size), 0.0, StandardPressure)
  }

  /** `update` takes either an object with optional numeric `altitude` and
      `pressure` fields, or a bare altitude. */
  predicate Accepts(data: JsValue) {
    if data.Obj? then NumberOrMissing(Get(data, "altitude")) && NumberOrMissing(Get(data, "pressure"))
    else data.Num?
  }

  function Update(s: State, data: JsValue): (r: State)
    requires Accepts(data)
    ensures r.base == s.base
    ensures data.Obj? && Truthy(Get(data, "altitude")) ==> r.altitude == Get(data, "altitude").n
    ensures data.Obj? && !Truthy(Get(data, "altitude")) ==> r.altitude == 0.0
    ensures data.Obj? && Truthy(Get(data, "pressure")) ==> r.pressure == Get(data, "pressure").n
    ensures data.Obj? && !Truthy(Get(data, "pressure")) ==> r.pressure == StandardPressure
    ensures !data.Obj? ==> r.altitude == data.n && r.pressure == s.pressure
  {
    if data.Obj? then
      s.(altitude := NumberOr(Get(data, "altitude"), 0.0),
         pressure := NumberOr(Get(data, "pressure"), StandardPressure))
    else
      s.(altitude := data.n)
  }

  /** A pressure of 0 is falsy and so reads as the standard setting, and an
      object without an altitude puts the altitude back to 0. */
  lemma FalsyFieldsDefault(s: State)
    ensures Update(s, Obj(map["pressure" := Num(0.0)])).pressure == StandardPressure
    ensures Update(s, Obj(map["pressure" := Num(0.0)])).altitude == 0.0
  {
    assert Get(Obj(map["pressure" := Num(0.0)]), "altitude") == Undef;
  }

  /** Applying the same payload twice gives the state applying it once does. */
  lemma UpdateIdempotent(s: State, data: JsValue)
    requires Accepts(data)
    ensures Update(Update(s, data), data) == Update(s, data)
  {
  }

  /** The needle values of `draw`, in turns: hundreds, thousands and ten-thousands of feet. */
  function HundredsNeedle(altitude: real): real { altitude / 1000.0 }
  function ThousandsNeedle(altitude: real): real { altitude / 10000.0 }
  function TenThousandsNeedle(altitude: real): real { altitude / 100000.0 }

  /** Each needle turns exactly ten times slower than the next longer one,
      and all three rest at zero turns at zero feet. */
  lemma NeedleGearing(altitude: real)
    ensures HundredsNeedle(altitude) == 10.0 * ThousandsNeedle(altitude)
    ensures ThousandsNeedle(altitude) == 10.0 * TenThousandsNeedle(altitude)
    ensures altitude == 0.0 ==>
      HundredsNeedle(altitude) == ThousandsNeedle(altitude) == TenThousandsNeedle(altitude) == 0.0
  {
  }

  /** Numeral d is drawn at polar angle 36·d − 90, i.e. at clock bearing 36·d. */
  function NumeralBearing(d: int): real {
    Geometry.BearingOfPolar(36.0 * d as real - 90.0)
  }

  /** `drawNeedle` as written: an up-pointing needle rotated by
      value·360 − 90 degrees. */
  function NeedleBearingAsWritten(value: real): real {
    Geometry.BearingOfRotatedUp(value * 360.0 - 90.0)
  }

  /** The rotation an up-pointing needle needs to read its value on the
      numerals: value·360 degrees. */
  function NeedleBearing(value: real): real {
    Geometry.BearingOfRotatedUp(value * 360.0)
  }

  /** The extra −90 degrees turns every needle a quarter turn
      counter-clockwise of its reading: at 0 feet all three needles point at
      9 o'clock, where numeral 7.5 would be, not at numeral 0. */
  lemma NeedleQuarterTurnBehind(altitude: real)
    ensures NeedleBearingAsWritten(HundredsNeedle(altitude)) == NeedleBearing(HundredsNeedle(altitude)) - 90.0
    ensures NeedleBearingAsWritten(HundredsNeedle(0.0)) == -90.0
    ensures !Congruent(NeedleBearingAsWritten(HundredsNeedle(0.0)), NumeralBearing(0), 360.0)
    ensures Congruent(NeedleBearingAsWritten(HundredsNeedle(0.0)), 36.0 * 7.5, 360.0)
  {
    assert (-90.0 - 0.0) / 360.0 == -0.25;
    assert (-90.0 - 270.0) / 360.0 == -1.0;
  }

  /** With the corrected rotation, at 1000·k + 100·d feet the hundreds
      needle points exactly at numeral d. */
  lemma HundredsNeedleReadsNumeral(k: int, d: int)
    requires 0 <= d < 10
    ensures Congruent(NeedleBearing(HundredsNeedle(1000.0 * k as real + 100.0 * d as real)), NumeralBearing(d), 360.0)
  {
    var alt := 1000.0 * k as real + 100.0 * d as real;
    assert HundredsNeedle(alt) == k as real + d as real / 10.0;
    assert NeedleBearing(HundredsNeedle(alt)) == 360.0 * k as real + 36.0 * d as real;
    assert (NeedleBearing(HundredsNeedle(alt)) - NumeralBearing(d)) / 360.0 == k as real;
    IntegerIsInteger(k);
  }

  /** The dial loop: numerals 0 to 9, each followed by five ticks, the
      first of the five long (15) and the others short (10). A tick's `at`
      counts fiftieths of a turn, so tick k sits at bearing 7.2·k. */
  method Face() returns (numerals: seq<Label>, ticks: seq<Mark>)
    ensures |numerals| == 10
    ensures forall d :: 0 <= d < |numerals| ==> numerals[d] == Label(d, NatToString(d))
    ensures |ticks| == 50
    ensures forall k :: 0 <= k < |ticks| ==> ticks[k].at == k
    ensures forall k :: 0 <= k < |ticks| ==> (ticks[k].length == 15 <==> k % 5 == 0)
    ensures forall k :: 0 <= k < |ticks| ==> (ticks[k].length == 10 <==> k % 5 != 0)
  {
    numerals := [];
    ticks := [];
    var i := 0;
    while i < 10
      invariant 0 <= i <= 10 && |numerals| == i && |ticks| == 5 * i
      invariant forall d :: 0 <= d < i ==> numerals[d] == Label(d, NatToString(d))
      invariant forall k :: 0 <= k < |ticks| ==> ticks[k] == Mark(k, if k % 5 == 0 then 15 else 10)
    {
      numerals := numerals + [Label(i, NatToString(i))];
      var j := 0;
      while j < 5
        invariant 0 <= j <= 5 && |ticks| == 5 * i + j
        invariant forall k :: 0 <= k < |ticks| ==> ticks[k] == Mark(k, if k % 5 == 0 then 15 else 10)
      {
        var isMain := j == 0;
        assert (5 * i + j) % 5 == j;
        ticks := ticks + [Mark(5 * i + j, if isMain then 15 else 10)];
        j := j + 1;
      }
      i := i + 1;
    }
  }

  /** The long tick opening each group shares its numeral's bearing. */
  lemma LongTickUnderNumeral(d: int)
    requires 0 <= d < 10
    ensures 7.2 * (5 * d) as real == NumeralBearing(d)
  {
  }
}
