/** The COM radio: an active and a standby frequency shown in two displays
    inside a rectangular housing, with a row of four buttons along its
    bottom edge. Unlike the round gauges, (x, y) is the housing's top-left
    corner and size its width. */
module Radio {
  import opened Js
  import Instrument
  import Geometry

  datatype State = State(base: Instrument.Base, activeFreq: real, standbyFreq: real, isFlipping: bool)

  function New(x: real, y: real, size: real): (s: State)
    ensures s.base == Instrument.New(x, y, size)
    ensures s.activeFreq == 118.0 && s.standbyFreq == 136.97 && !s.isFlipping
  {
    State(Instrument.New(x, y, size), 118.0, 136.97, false)
  }

  /** `data.activeFreq` on undefined throws; any other value is read, and
      each frequency field is a number or absent. */
  predicate Accepts(data: JsValue) {
    !data.Undef? && NumberOrMissing(Get(data, "activeFreq")) && NumberOrMissing(Get(data, "standbyFreq"))
  }

  /** Each frequency is replaced only when the payload's field is truthy. */
  function Update(s: State, data: JsValue): (r: State)
    requires Accepts(data)
    ensures Truthy(Get(data, "activeFreq")) ==> r.activeFreq == Get(data, "activeFreq").n
    ensures !Truthy(Get(data, "activeFreq")) ==> r.activeFreq == s.activeFreq
    ensures Truthy(Get(data, "standbyFreq")) ==> r.standbyFreq == Get(data, "standbyFreq").n
    ensures !Truthy(Get(data, "standbyFreq")) ==> r.standbyFreq == s.standbyFreq
    ensures r.isFlipping == s.isFlipping && r.base == s.base
  {
    var a := Get(data, "activeFreq");
    var b := Get(data, "standbyFreq");
    s.(activeFreq := if Truthy(a) then a.n else s.activeFreq,
       standbyFreq := if Truthy(b) then b.n else s.standbyFreq)
  }

  /** The two fields are patched independently: setting one and then the
      other is the same as setting both at once, in either order, and a
      frequency of 0 is ignored. */
  lemma PatchesCompose(s: State, a: real, b: real)
    requires a != 0.0 && b != 0.0
    ensures Update(Update(s, Obj(map["activeFreq" := Num(a)])), Obj(map["standbyFreq" := Num(b)]))
         == Update(s, Obj(map["activeFreq" := Num(a), "standbyFreq" := Num(b)]))
    ensures Update(Update(s, Obj(map["standbyFreq" := Num(b)])), Obj(map["activeFreq" := Num(a)]))
         == Update(s, Obj(map["activeFreq" := Num(a), "standbyFreq" := Num(b)]))
    ensures Update(s, Obj(map["activeFreq" := Num(0.0)])) == s
  {
    var one := Obj(map["activeFreq" := Num(a)]);
    var other := Obj(map["standbyFreq" := Num(b)]);
    var both := Obj(map["activeFreq" := Num(a), "standbyFreq" := Num(b)]);
    assert Get(one, "standbyFreq") == Undef && Get(other, "activeFreq") == Undef;
    assert Get(both, "activeFreq") == Num(a) && Get(both, "standbyFreq") == Num(b);
    assert Get(Obj(map["activeFreq" := Num(0.0)]), "standbyFreq") == Undef;
  }

  lemma UpdateIdempotent(s: State, data: JsValue)
    requires Accepts(data)
    ensures Update(Update(s, data), data) == Update(s, data)
  {
  }

  const Padding: real := 10.0
  const ButtonSize: real := 20.0

  function Housing(s: State): Geometry.Rect {
    Geometry.Rect(s.base.x, s.base.y, s.base.size, s.base.size / 2.0)
  }

  function DisplayHeight(s: State): real {
    s.base.size / 6.0
  }

  function ActiveDisplay(s: State): Geometry.Rect {
    Geometry.Rect(s.base.x + Padding, s.base.y + Padding, s.base.size - 2.0 * Padding, DisplayHeight(s))
  }

  function StandbyDisplay(s: State): Geometry.Rect {
    Geometry.Rect(s.base.x + Padding, s.base.y + 2.0 * Padding + DisplayHeight(s),
                  s.base.size - 2.0 * Padding, DisplayHeight(s))
  }

  /** Top of the button row. */
  function ButtonY(s: State): real {
    s.base.y + s.base.size / 2.0 - ButtonSize - Padding
  }

  /** The four buttons, left to right. */
  function Buttons(s: State): seq<Geometry.Rect> {
    [Geometry.Rect(s.base.x + Padding, ButtonY(s), ButtonSize, ButtonSize),
     Geometry.Rect(s.base.x + Padding + ButtonSize + 5.0, ButtonY(s), ButtonSize, ButtonSize),
     Geometry.Rect(s.base.x + s.base.size - 2.0 * ButtonSize - Padding - 5.0, ButtonY(s), ButtonSize, ButtonSize),
     Geometry.Rect(s.base.x + s.base.size - ButtonSize - Padding, ButtonY(s), ButtonSize, ButtonSize)]
  }

  /** The housing is size wide and half as tall. The active display always
      lies above the standby one with a 10-pixel gap; the standby display
      fits in the housing exactly when size >= 120, and clears the button
      row exactly when size > 300. */
  lemma DisplayLayout(s: State)
    ensures Housing(s).width == s.base.size && Housing(s).height == s.base.size / 2.0
    ensures Geometry.Above(ActiveDisplay(s), StandbyDisplay(s))
    ensures StandbyDisplay(s).top - ActiveDisplay(s).Bottom() == Padding
    ensures ActiveDisplay(s).height == StandbyDisplay(s).height == s.base.size / 6.0
    ensures Geometry.Within(ActiveDisplay(s), Housing(s)) <==> s.base.size >= 30.0
    ensures Geometry.Within(StandbyDisplay(s), Housing(s)) <==> s.base.size >= 120.0
    ensures StandbyDisplay(s).Bottom() < ButtonY(s) <==> s.base.size > 300.0
  {
  }

  /** The buttons share one row inside the housing once size >= 60, and
      sit side by side without overlapping exactly when size >= 110. */
  lemma ButtonLayout(s: State)
    ensures |Buttons(s)| == 4
    ensures forall k :: 0 <= k < 4 ==> Buttons(s)[k].top == ButtonY(s)
    ensures s.base.size >= 60.0 ==> forall k :: 0 <= k < 4 ==> Geometry.Within(Buttons(s)[k], Housing(s))
    ensures Buttons(s)[0].Right() < Buttons(s)[1].left
    ensures Buttons(s)[2].Right() < Buttons(s)[3].left
    ensures Buttons(s)[1].Right() <= Buttons(s)[2].left <==> s.base.size >= 110.0
  {
  }
}
