/** Dial markings shared by the gauges: graduation marks, text labels, and
    the 5-degree compass card that the heading indicator, the VOR and the
    NDB each draw with the same loop. */
module Dial {
  import opened Js

  /** One graduation: where it sits (in the gauge's own unit) and its length in pixels. */
  datatype Mark = Mark(at: int, length: int)

  /** One piece of dial text: where it sits and what it reads. */
  datatype Label = Label(at: int, text: string)

  /** Card tick length at whole degree i: cardinal points 20, other
      multiples of 30 15, the rest 10. */
  function CardTickLength(i: int): int {
    if i % 90 == 0 then 20 else if i % 30 == 0 then 15 else 10
  }

  /** How a card names its 30-degree points: letters N/E/S/W at the
      cardinal points (heading indicator, compass, NDB) or the VOR's
      numbers with "36" at north. */
  datatype LabelStyle = Letters | VorNumbers

  function CardText(style: LabelStyle, i: nat): string {
    match style
    case VorNumbers => if i == 0 then "36" else NatToString(i / 10)
    case Letters =>
      if i == 0 then "N"
      else if i == 90 then "E"
      else if i == 180 then "S"
      else if i == 270 then "W"
      else NatToString(i / 10)
  }

  /** A letter-style card prints a single letter exactly at the cardinal
      points and the tens of degrees everywhere else. */
  lemma LetterCardText(i: nat)
    requires i < 360 && i % 30 == 0
    ensures i % 90 == 0 ==> |CardText(Letters, i)| == 1 && CardText(Letters, i)[0] in "NESW"
    ensures i % 90 != 0 ==> ParseNat(CardText(Letters, i)) * 10 == i
  {
    if i == 0 || i == 90 || i == 180 || i == 270 {
    } else {
      var t := i / 10;
      assert t * 10 == i && i % 90 != 0;
      assert CardText(Letters, i) == NatToString(t);
      ParseNatToString(t);
    }
  }

  /** A VOR card names every 30-degree point by its tens of degrees,
      counting north as 36 rather than 0: the number read times ten is the
      point's degree modulo 360, and never 0. */
  lemma VorCardText(i: nat)
    requires i < 360 && i % 30 == 0
    ensures ParseNat(CardText(VorNumbers, i)) * 10 % 360 == i
    ensures 1 <= ParseNat(CardText(VorNumbers, i)) <= 36
    ensures i == 0 <==> CardText(VorNumbers, i) == "36"
  {
    if i == 0 {
      assert NatToString(36) == NatToString(3) + [Digit(6)] == "36";
      ParseNatToString(36);
    } else {
      var p := i / 10;
      assert p * 10 == i by {
        var j := i / 30;
        assert i == 30 * j;
      }
      assert CardText(VorNumbers, i) == NatToString(p);
      ParseNatToString(p);
      ParseNatToString(36);
      assert NatToString(36) == NatToString(3) + [Digit(6)] == "36";
    }
  }

  /** The card loop `for (i = 0; i < 360; i += 5)`: a tick at every 5
      degrees and a label at every multiple of 30. The label tests of the
      three cards (`isCardinal || (isMajor && !isCardinal)`, `isMajor`,
      `isCardinal || isMajor`) all reduce to `i % 30 == 0`, because every
      cardinal point is a multiple of 30. */
  method CardFace(style: LabelStyle) returns (marks: seq<Mark>, labels: seq<Label>)
    ensures |marks| == 72
    ensures forall k :: 0 <= k < |marks| ==> marks[k].at == 5 * k
    ensures forall k :: 0 <= k < |marks| ==> (marks[k].length == 20 <==> marks[k].at % 90 == 0)
    ensures forall k :: 0 <= k < |marks| ==>
      (marks[k].length == 15 <==> marks[k].at % 30 == 0 && marks[k].at % 90 != 0)
    ensures forall k :: 0 <= k < |marks| ==> (marks[k].length == 10 <==> marks[k].at % 30 != 0)
    ensures |labels| == 12
    ensures forall k :: 0 <= k < |labels| ==> labels[k] == Label(30 * k, CardText(style, 30 * k))
  {
    marks := [];
    labels := [];
    var i := 0;
    while i < 360
      invariant 0 <= i <= 360 && i == 5 * |marks|
      invariant forall k :: 0 <= k < |marks| ==> marks[k] == Mark(5 * k, CardTickLength(5 * k))
      invariant 30 * |labels| - 30 < i <= 30 * |labels|
      invariant forall k :: 0 <= k < |labels| ==> labels[k] == Label(30 * k, CardText(style, 30 * k))
    {
      var isCardinal := i % 90 == 0;
      var isMajor := i % 30 == 0;
      var length := if isCardinal then 20 else if isMajor then 15 else 10;
      marks := marks + [Mark(i, length)];
      if isMajor {
        assert i == 30 * |labels|;
        labels := labels + [Label(i, CardText(style, i))];
      }
      i := i + 5;
    }
  }

  /** A card drawn rotated by −h puts card degree c at bearing c − h. */
  function RotatedCardBearing(h: real, c: real): real {
    c - h
  }

  /** Of the card degrees in [0, 360), exactly Wrap360(h) comes to rest
      under the lubber line (bearing 0, up to whole turns) when the card is
      rotated by −h, whatever range h itself is in. */
  lemma CardReadsWrapped(h: real, c: real)
    requires 0.0 <= c < 360.0
    ensures Congruent(RotatedCardBearing(h, c), 0.0, 360.0) <==> c == Wrap360(h)
  {
    var w := Wrap360(h);
    assert (RotatedCardBearing(h, c) - 0.0) / 360.0 == (c - h) / 360.0;
    if Congruent(c, h, 360.0) {
      CongruentSymmetric(w, h);
      CongruentTransitive(c, h, w);
      CongruentInTurnIsEqual(c, w);
    }
  }
}
