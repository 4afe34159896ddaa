/** The heading indicator (directional gyro): a compass card turned so that
    the current heading sits under the lubber line at 12 o'clock. */
module Heading {
  import opened Js
  import opened Dial
  import Instrument

  datatype State = State(base: Instrument.Base, heading: real)

  predicate Valid(s: State) {
    0.0 <= s.heading < 360.0
  }

  function New(x: real, y: real, size: real): (s: State)
    ensures s.base == Instrument.New(x, y, size)
    ensures s.heading == 0.0 && Valid(s)
  {
    State(Instrument.New(x, y, size), 0.0)
  }

  predicate Accepts(data: JsValue) {
    data.Num?
  }

  /** `heading % 360`, then `+ 360` when negative. */
  function Update(s: State, data: JsValue): (r: State)
    requires Accepts(data)
    ensures r.base == s.base
    ensures Valid(r)
    ensures Congruent(r.heading, data.n, 360.0)
    ensures 0.0 <= data.n < 360.0 ==> r.heading == data.n
  {
    s.(heading := Wrap360(data.n))
  }

  /** The stored heading is the only angle of [0, 360) congruent to the
      input, so feeding it back in changes nothing. */
  lemma UpdateCanonical(s: State, data: JsValue, a: real)
    requires Accepts(data)
    requires 0.0 <= a < 360.0 && Congruent(a, data.n, 360.0)
    ensures Update(s, data).heading == a
    ensures Update(Update(s, data), Num(Update(s, data).heading)) == Update(s, data)
  {
    var h := Update(s, data).heading;
    CongruentSymmetric(a, data.n);
    CongruentTransitive(h, data.n, a);
    CongruentInTurnIsEqual(h, a);
  }

  lemma UpdateIdempotent(s: State, data: JsValue)
    requires Accepts(data)
    ensures Update(Update(s, data), data) == Update(s, data)
  {
  }

  /** The card degree under the lubber line (bearing 0) is exactly the
      stored heading. */
  lemma HeadingAtTop(s: State, c: real)
    requires Valid(s) && 0.0 <= c < 360.0
    ensures Congruent(RotatedCardBearing(s.heading, c), 0.0, 360.0) <==> c == s.heading
  {
    CardReadsWrapped(s.heading, c);
  }
}
