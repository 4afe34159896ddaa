/** The vertical speed indicator: a climb or descent rate clamped to
    ±2000 feet per minute on a dial whose zero sits at 9 o'clock. */
module Vsi {
  import opened Js
  import opened Dial
  import Instrument
  import Geometry

  const MaxRate: real := 2000.0

  datatype State = State(base: Instrument.Base, verticalSpeed: real)

  predicate Valid(s: State) {
    -MaxRate <= s.verticalSpeed <= MaxRate
  }

  function New(x: real, y: real, size: real): (s: State)
    ensures s.base == Instrument.New(x, y, size)
    ensures s.verticalSpeed == 0.0 && Valid(s)
  {
    State(Instrument.New(x, y, size), 0.0)
  }

  predicate Accepts(data: JsValue) {
    data.Num?
  }

  function Update(s: State, data: JsValue): (r: State)
    requires Accepts(data)
    ensures r.base == s.base
    ensures Valid(r)
    ensures -MaxRate <= data.n <= MaxRate ==> r.verticalSpeed == data.n
    ensures data.n < -MaxRate ==> r.verticalSpeed == -MaxRate
    ensures data.n > MaxRate ==> r.verticalSpeed == MaxRate
  {
    s.(verticalSpeed := Clamp(-MaxRate, MaxRate, data.n))
  }

  lemma UpdateIdempotent(s: State, data: JsValue)
    requires Accepts(data)
    ensures Update(Update(s, data), data) == Update(s, data)
  {
  }

  /** The angle `draw` computes for rate v, in degrees: v/2000·180 + 180.
      Ticks are placed at this polar angle, and the needle is rotated by it. */
  function DialAngle(v: real): real {
    v / MaxRate * 180.0 + 180.0
  }

  /** The map sends 0 to 180 and ±2000 to 360 and 0, and rises strictly with v. */
  lemma DialAngleShape(v: real, w: real)
    ensures DialAngle(0.0) == 180.0 && DialAngle(MaxRate) == 360.0 && DialAngle(-MaxRate) == 0.0
    ensures v < w ==> DialAngle(v) < DialAngle(w)
  {
  }

  /** Tick for rate v: a point at polar angle DialAngle(v). */
  function TickBearing(v: real): real {
    Geometry.BearingOfPolar(DialAngle(v))
  }

  /** The needle as drawn: an up-pointing shape rotated by DialAngle(v). */
  function NeedleBearingAsWritten(v: real): real {
    Geometry.BearingOfRotatedUp(DialAngle(v))
  }

  /** Polar angles count from 3 o'clock while the needle is drawn pointing
      up, so the drawn needle trails the ticks by a quarter turn: it points
      at the tick of v − 1000. In level flight it shows a 1000 ft/min
      descent. */
  lemma NeedleReadsThousandLow(v: real)
    ensures NeedleBearingAsWritten(v) == TickBearing(v - 1000.0)
    ensures NeedleBearingAsWritten(0.0) == TickBearing(-1000.0) == 180.0
    ensures TickBearing(0.0) == 270.0
  {
  }

  /** The needle with the quarter turn the polar ticks have: rotated by
      DialAngle(v) + 90. */
  function NeedleBearing(v: real): real {
    Geometry.BearingOfRotatedUp(DialAngle(v) + 90.0)
  }

  /** The corrected needle points exactly at the tick of its own rate. */
  lemma NeedleOnOwnTick(v: real)
    ensures NeedleBearing(v) == TickBearing(v)
    ensures NeedleBearing(0.0) == 270.0
  {
  }

  const Graduations: seq<int> := [-2000, -1500, -1000, -500, 0, 500, 1000, 1500, 2000]

  /** The graduation loop: a tick at each listed rate, and at each multiple
      of 1000 (truncating `%`) a number showing |v/100|. */
  method Face() returns (ticks: seq<int>, labels: seq<Label>)
    ensures |ticks| == 9
    ensures forall k :: 0 <= k < |ticks| ==> ticks[k] == 500 * k - 2000
    ensures |labels| == 5
    ensures forall k :: 0 <= k < |labels| ==> labels[k].at == 1000 * k - 2000
    ensures forall k :: 0 <= k < |labels| ==> labels[k].text == NatToString(Abs(1000 * k - 2000) / 100)
  {
    ticks := [];
    labels := [];
    var n := 0;
    while n < |Graduations|
      invariant 0 <= n <= 9 && |ticks| == n
      invariant forall k :: 0 <= k < n ==> ticks[k] == 500 * k - 2000
      invariant |labels| == (n + 1) / 2
      invariant forall k :: 0 <= k < |labels| ==>
        labels[k] == Label(1000 * k - 2000, NatToString(Abs(1000 * k - 2000) / 100))
    {
      var speed := Graduations[n];
      assert speed == 500 * n - 2000;
      ticks := ticks + [speed];
      NumberedGraduation(n);
      if IntRem(speed, 1000) == 0 {
        assert |labels| == n / 2;
        labels := labels + [Label(speed, NatToString(Abs(speed) / 100))];
      }
      n := n + 1;
    }
  }

  /** Graduation n is a multiple of 1000 exactly when n is even. */
  lemma NumberedGraduation(n: int)
    requires 0 <= n < |Graduations|
    ensures Graduations[n] == 500 * n - 2000
    ensures IntRem(Graduations[n], 1000) == 0 <==> n % 2 == 0
  {
    if n % 2 == 0 {
      assert 500 * n - 2000 == 1000 * (n / 2 - 2);
    } else {
      assert 500 * n - 2000 == 1000 * ((n - 1) / 2 - 2) + 500;
    }
  }

  /** The numbers read 20, 10, 0, 10, 20: symmetric about zero, in hundreds of feet per minute. */
  lemma LabelTexts(k: int)
    requires 0 <= k < 5
    ensures Abs(1000 * k - 2000) / 100 == Abs(1000 * (4 - k) - 2000) / 100
    ensures 100 * (Abs(1000 * k - 2000) / 100) == Abs(1000 * k - 2000)
  {
  }
}
