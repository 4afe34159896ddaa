/** The attitude indicator: pitch moves the horizon, roll turns the whole
    picture; the sky and ground rectangles, pitch ladder and roll scale are
    drawn in the gauge's own frame, centred on (0, 0). */
module Attitude {
  import opened Js
  import Instrument
  import Geometry

  datatype State = State(base: Instrument.Base, pitch: real, roll: real)

  predicate Valid(s: State) {
    -90.0 <= s.pitch <= 90.0
  }

  function New(x: real, y: real, size: real): (s: State)
    ensures s.base == Instrument.New(x, y, size)
    ensures s.pitch == 0.0 && s.roll == 0.0 && Valid(s)
  {
    State(Instrument.New(x, y, size), 0.0, 0.0)
  }

  /** `update` reads `data.pitch` and `data.roll` unguarded: both must be numbers. */
  predicate Accepts(data: JsValue) {
    Get(data, "pitch").Num? && Get(data, "roll").Num?
  }

  function Update(s: State, data: JsValue): (r: State)
    requires Accepts(data)
    ensures r.base == s.base
    ensures Valid(r)
    ensures -90.0 <= Get(data, "pitch").n <= 90.0 ==> r.pitch == Get(data, "pitch").n
    ensures Get(data, "pitch").n < -90.0 ==> r.pitch == -90.0
    ensures Get(data, "pitch").n > 90.0 ==> r.pitch == 90.0
    ensures r.roll == Get(data, "roll").n
  {
    s.(pitch := Clamp(-90.0, 90.0, Get(data, "pitch").n), roll := Get(data, "roll").n)
  }

  /** Roll is stored as given: no clamp and no wrap, so 270 stays 270. */
  lemma RollVerbatim(s: State)
    ensures Update(s, Obj(map["pitch" := Num(0.0), "roll" := Num(270.0)])).roll == 270.0
    ensures Update(s, Obj(map["pitch" := Num(0.0), "roll" := Num(-400.0)])).roll == -400.0
  {
  }

  lemma UpdateIdempotent(s: State, data: JsValue)
    requires Accepts(data)
    ensures Update(Update(s, data), data) == Update(s, data)
  {
  }

  /** How far the horizon moves down for the current pitch. */
  function PitchOffset(s: State): real {
    s.pitch * s.base.size / 180.0
  }

  /** After any update the horizon stays within the dial: |offset| <= size/2. */
  lemma PitchOffsetBounded(s: State)
    requires Valid(s) && s.base.size >= 0.0
    ensures -(s.base.size / 2.0) <= PitchOffset(s) <= s.base.size / 2.0
  {
    var f := s.pitch / 180.0;
    var k := s.base.size;
    ScaledBetween(f, k);
    assert PitchOffset(s) == f * k;
  }

  lemma ScaledBetween(f: real, k: real)
    requires -0.5 <= f <= 0.5 && k >= 0.0
    ensures -(k / 2.0) <= f * k <= k / 2.0
  {
    if f >= 0.0 {
      MulLe(f, 0.5, k);
    } else {
      MulLe(-f, 0.5, k);
    }
  }

  lemma MulLe(a: real, b: real, k: real)
    requires 0.0 <= a <= b && k >= 0.0
    ensures a * k <= b * k
  {
  }

  function Sky(s: State): Geometry.Rect {
    Geometry.Rect(-(s.base.size / 2.0), -(s.base.size / 2.0), s.base.size, s.base.size / 2.0 + PitchOffset(s))
  }

  function Ground(s: State): Geometry.Rect {
    Geometry.Rect(-(s.base.size / 2.0), PitchOffset(s), s.base.size, s.base.size / 2.0 - PitchOffset(s))
  }

  /** The sky and ground tile the dial's square: both have non-negative
      height, the heights sum to the size, they meet on the horizon line
      and both lie within the square. */
  lemma SkyGroundSplit(s: State)
    requires Valid(s) && s.base.size >= 0.0
    ensures Sky(s).height >= 0.0 && Ground(s).height >= 0.0
    ensures Sky(s).height + Ground(s).height == s.base.size
    ensures Sky(s).Bottom() == Ground(s).top == PitchOffset(s)
    ensures Sky(s).width == Ground(s).width == s.base.size
    ensures Sky(s).top == -(s.base.size / 2.0) && Ground(s).Bottom() == s.base.size / 2.0
  {
    PitchOffsetBounded(s);
  }

  /** The three kinds of ladder rung: multiples of 20 (long), other
      multiples of 10 (medium) and the remaining short, thick rungs. */
  datatype RungKind = Long | Medium | Short

  datatype Rung = Rung(deg: int, kind: RungKind, labelled: bool)

  /** The ladder loop `for (i = -20; i <= 20; i += 5)`, skipping +5. */
  method Ladder() returns (rungs: seq<Rung>)
    ensures |rungs| == 8
    ensures forall k :: 0 <= k < |rungs| ==> rungs[k].deg == (if k < 5 then 5 * k - 20 else 5 * k - 15)
    ensures forall k :: 0 <= k < |rungs| ==> rungs[k].deg != 5
    ensures forall k :: 0 <= k < |rungs| ==> (rungs[k].kind == Long <==> IntRem(rungs[k].deg, 20) == 0)
    ensures forall k :: 0 <= k < |rungs| ==>
      (rungs[k].kind == Medium <==> IntRem(rungs[k].deg, 10) == 0 && IntRem(rungs[k].deg, 20) != 0)
    ensures forall k :: 0 <= k < |rungs| ==>
      (rungs[k].labelled <==> rungs[k].deg != 0 && IntRem(rungs[k].deg, 10) == 0)
  {
    rungs := [];
    var i := -20;
    while i <= 20
      invariant -20 <= i <= 25 && i % 5 == 0
      invariant |rungs| == (if i <= 5 then (i + 20) / 5 else (i + 15) / 5)
      invariant forall k :: 0 <= k < |rungs| ==> rungs[k] == RungAt(if k < 5 then 5 * k - 20 else 5 * k - 15)
    {
      if i == 5 {
        i := i + 5;
        continue;
      }
      rungs := rungs + [RungAt(i)];
      i := i + 5;
    }
  }

  /** The classification the loop body applies to rung i. */
  function RungAt(i: int): (r: Rung)
    ensures r.deg == i
  {
    if IntRem(i, 20) == 0 then Rung(i, Long, i != 0)
    else if IntRem(i, 10) == 0 then Rung(i, Medium, i != 0)
    else Rung(i, Short, false)
  }

  /** Exactly the rungs at ±10 and ±20 carry numbers, and they read 10 or 20. */
  lemma LabelledRungs(i: int)
    requires -20 <= i <= 20 && i % 5 == 0
    ensures RungAt(i).labelled <==> i in {-20, -10, 10, 20}
    ensures RungAt(i).labelled ==> NatToString(Abs(i)) in {"10", "20"}
  {
    assert NatToString(10) == NatToString(1) + [Digit(0)] == "10";
    assert NatToString(20) == NatToString(2) + [Digit(0)] == "20";
  }

  /** Rung i is drawn at height −i·size/180 + offset: the 0 rung lies on
      the horizon and higher pitch values are drawn higher up. */
  function RungY(s: State, i: int): real {
    -(i as real) * s.base.size / 180.0 + PitchOffset(s)
  }

  lemma RungOnHorizon(s: State, i: int, j: int)
    requires s.base.size > 0.0
    ensures RungY(s, 0) == Sky(s).Bottom()
    ensures i < j ==> RungY(s, j) < RungY(s, i)
  {
    if i < j {
      MulLtPos((i as real), (j as real), s.base.size);
    }
  }

  lemma MulLtPos(a: real, b: real, k: real)
    requires a < b && k > 0.0
    ensures -a * k / 180.0 > -b * k / 180.0
  {
  }

  /** The roll scale's reference angles. */
  const RollMarks: seq<int> := [-60, -45, -30, -20, -10, 0, 10, 20, 30, 45, 60]

  function RollMarkLength(angle: int): int {
    if angle == 0 then 20 else if Abs(angle) == 30 || Abs(angle) == 60 then 15 else 10
  }

  /** The roll scale is symmetric about the centre mark, in angles and in
      lengths; its angles rise strictly from −60 to 60; the level mark is
      the only one of length 20. */
  lemma RollScaleSymmetric()
    ensures |RollMarks| == 11
    ensures forall k :: 0 <= k < 11 ==> RollMarks[k] == -RollMarks[10 - k]
    ensures forall k :: 0 <= k < 11 ==> RollMarkLength(RollMarks[k]) == RollMarkLength(RollMarks[10 - k])
    ensures forall k :: 0 <= k < 10 ==> RollMarks[k] < RollMarks[k + 1]
    ensures forall k :: 0 <= k < 11 ==> (RollMarkLength(RollMarks[k]) == 20 <==> k == 5)
    ensures forall k :: 0 <= k < 11 ==> (RollMarkLength(RollMarks[k]) == 15 <==> RollMarks[k] in {-60, -30, 30, 60})
  {
  }
}
