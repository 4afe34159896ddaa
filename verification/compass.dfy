/** The magnetic compass: a wrapped heading shown on a flat card of
    labels seen through a window. Label positions are modelled in the
    card's own frame; the translation, mirroring and rotation that place
    the card on screen are not. */
module Compass {
  import opened Js
  import opened Dial
  import Instrument

  datatype State = State(base: Instrument.Base, heading: real)

  predicate Valid(s: State) {
    0.0 <= s.heading < 360.0
  }

  function New(x: real, y: real, size: real): (s: State)
    ensures s.base == Instrument.New(x, y, size)
    ensures s.heading == 0.0 && Valid(s)
  {
    State(Instrument.New(x, y, size), 0.0)
  }

  predicate Accepts(data: JsValue) {
    data.Num?
  }

  /** The same wrap as the heading indicator's. */
  function Update(s: State, data: JsValue): (r: State)
    requires Accepts(data)
    ensures r.base == s.base
    ensures Valid(r)
    ensures Congruent(r.heading, data.n, 360.0)
    ensures 0.0 <= data.n < 360.0 ==> r.heading == data.n
  {
    s.(heading := Wrap360(data.n))
  }

  lemma UpdateIdempotent(s: State, data: JsValue)
    requires Accepts(data)
    ensures Update(Update(s, data), data) == Update(s, data)
  {
  }

  /** The card's radius: 20 pixels inside the half-size. */
  function CardRadius(s: State): (r: real)
    ensures s.base.size > 40.0 <==> r > 0.0
    ensures r + 20.0 == s.base.size / 2.0
  {
    s.base.size / 2.0 - 20.0
  }

  /** The x coordinate, in the card's own frame, of the label for card degree i. */
  function LabelX(s: State, i: real): real {
    (i - s.heading) * CardRadius(s) / 90.0
  }

  /** In the card's frame, the label of the current heading sits at x = 0
      and no other does, and the labels' x grows strictly with their degree. */
  lemma LabelOffsets(s: State, i: real, j: real)
    requires s.base.size > 40.0
    ensures LabelX(s, i) == 0.0 <==> i == s.heading
    ensures i < j ==> LabelX(s, i) < LabelX(s, j)
  {
    var r := CardRadius(s);
    ZeroProduct(i - s.heading, r / 90.0);
    assert LabelX(s, i) == (i - s.heading) * (r / 90.0);
    assert LabelX(s, j) == (j - s.heading) * (r / 90.0);
    if i < j {
      MulLt(i - s.heading, j - s.heading, r / 90.0);
    }
  }

  lemma ZeroProduct(a: real, k: real)
    requires k > 0.0
    ensures a * k == 0.0 <==> a == 0.0
  {
    if a > 0.0 {
      assert a * k > 0.0;
    } else if a < 0.0 {
      assert (-a) * k > 0.0;
    }
  }

  lemma MulLt(a: real, b: real, k: real)
    requires a < b && k > 0.0
    ensures a * k < b * k
  {
    assert (b - a) * k > 0.0;
  }

  datatype CardLabel = CardLabel(face: Label, x: real)

  /** The card loop `for (i = 0; i < 360; i += 30)`: twelve labels, lettered at
      the cardinal points, each placed at its own offset. */
  method Card(s: State) returns (labels: seq<CardLabel>)
    ensures |labels| == 12
    ensures forall k :: 0 <= k < |labels| ==> labels[k].face.at == 30 * k
    ensures forall k :: 0 <= k < |labels| ==> labels[k].x == LabelX(s, (30 * k) as real)
    ensures forall k :: 0 <= k < |labels| ==> labels[k].face.text == CardText(Letters, 30 * k)
  {
    labels := [];
    var i := 0;
    while i < 360
      invariant 0 <= i <= 360 && i == 30 * |labels|
      invariant forall k :: 0 <= k < |labels| ==>
        labels[k] == CardLabel(Label(30 * k, CardText(Letters, 30 * k)), LabelX(s, (30 * k) as real))
    {
      labels := labels + [CardLabel(Label(i, CardText(Letters, i)), LabelX(s, i as real))];
      i := i + 30;
    }
  }
}
