/**
 * The cup's fill: the height it rests at for a given score, and the
 * trapezoid drawn for a given height under the cup.
 */
module FillLevel {
  import opened Options

  /** The score at which the cup is full; it is only the denominator of the fill ratio. */
  const MaxCoins: nat := 500
  /** The fill height of a full cup, in pixels. */
  const MaxFillHeight: real := 100.0

  /** Cup geometry in pixels: the rim width, the bottom width and the height of the cup. */
  const CupWidth: real := 140.0
  const BottomWidth: real := 60.0
  const CupHeight: real := 100.0
  /** The cup's bottom lies this far below the cup's anchor point. */
  const BottomOffset: real := 50.0

  /**
   * The height the fill comes to rest at after a capture: proportional to the
   * score until MaxCoins, full from then on.
   */
  function FillTarget(score: nat): (h: real)
    ensures 0.0 <= h <= MaxFillHeight
    ensures score <= MaxCoins ==> h * MaxCoins as real == score as real * MaxFillHeight
    ensures score >= MaxCoins ==> h == MaxFillHeight
    ensures h > 0.0 <==> score > 0
  {
    var target := (score as real / MaxCoins as real) * MaxFillHeight;
    if target < MaxFillHeight then target else MaxFillHeight
  }

  /** More coins never lower the fill. */
  lemma FillTargetMonotone(s1: nat, s2: nat)
    requires s1 <= s2
    ensures FillTarget(s1) <= FillTarget(s2)
  {
  }

  /** Scores 250, 500 and 750 fill the cup to 50, 100 and still 100. */
  lemma FillTargetExamples()
    ensures FillTarget(0) == 0.0
    ensures FillTarget(250) == 50.0
    ensures FillTarget(500) == 100.0
    ensures FillTarget(750) == 100.0
  {
  }

  datatype Point = Point(x: real, y: real)

  /** A quadrilateral given by its vertices in drawing order. */
  datatype Trapezoid = Trapezoid(topLeft: Point, bottomLeft: Point, bottomRight: Point, topRight: Point)
  {
    function TopWidth(): real { topRight.x - topLeft.x }
    function BottomWidth(): real { bottomRight.x - bottomLeft.x }
  }

  /** The point a fraction `t` of the way from `a` to `b`. */
  function Between(a: Point, b: Point, t: real): Point {
    Point(a.x + (b.x - a.x) * t, a.y + (b.y - a.y) * t)
  }

  /** The outline of the cup anchored at (cupX, cupY): a rim 140 wide, 50 above, and a bottom 60 wide, 50 below. */
  function CupOutline(cupX: real, cupY: real): Trapezoid {
    Trapezoid(Point(cupX - 70.0, cupY - 50.0), Point(cupX - 30.0, cupY + 50.0),
              Point(cupX + 30.0, cupY + 50.0), Point(cupX + 70.0, cupY - 50.0))
  }

  /**
   * The fill shape drawn for the cup at (cupX, cupY) holding `height` pixels of
   * fill; nothing is drawn unless the height is positive.
   */
  function FillShape(cupX: real, cupY: real, height: real): (shape: Option<Trapezoid>)
    ensures shape.Some? <==> height > 0.0
    ensures shape.Some? ==>
      var t := shape.value;
      // the bottom edge sits on the cup's bottom, the top edge `height` above it
      && t.bottomLeft.y == t.bottomRight.y == cupY + BottomOffset
      && t.topLeft.y == t.topRight.y == cupY + BottomOffset - height
      // every edge is centred on the cup
      && t.topLeft.x + t.topRight.x == 2.0 * cupX
      && t.bottomLeft.x + t.bottomRight.x == 2.0 * cupX
      && t.BottomWidth() == BottomWidth
      && (height <= CupHeight ==> BottomWidth < t.TopWidth() <= CupWidth)
  {
    if height > 0.0 then
      var fillPercent := height / CupHeight;
      var currentWidth := BottomWidth + (CupWidth - BottomWidth) * fillPercent;
      var bottomY := cupY + BottomOffset;
      var fillY := bottomY - height;
      Some(Trapezoid(Point(cupX - currentWidth / 2.0, fillY), Point(cupX - BottomWidth / 2.0, bottomY),
                     Point(cupX + BottomWidth / 2.0, bottomY), Point(cupX + currentWidth / 2.0, fillY)))
    else
      None
  }

  /**
   * The fill hugs the cup: its bottom corners are the cup's bottom corners and
   * its top corners lie on the cup's slanted walls, the fraction height/100 of
   * the way up; a full cup's fill is the whole outline.
   */
  lemma FillFollowsCupWalls(cupX: real, cupY: real, height: real)
    requires 0.0 < height
    ensures var t := FillShape(cupX, cupY, height).value;
            var cup := CupOutline(cupX, cupY);
            && t.bottomLeft == cup.bottomLeft && t.bottomRight == cup.bottomRight
            && t.topLeft == Between(cup.bottomLeft, cup.topLeft, height / CupHeight)
            && t.topRight == Between(cup.bottomRight, cup.topRight, height / CupHeight)
    ensures height == CupHeight ==> FillShape(cupX, cupY, height).value == CupOutline(cupX, cupY)
  {
  }

  /** A higher fill has a strictly wider top edge. */
  lemma FillWidensWithHeight(cupX: real, cupY: real, h1: real, h2: real)
    requires 0.0 < h1 < h2
    ensures FillShape(cupX, cupY, h1).value.TopWidth() < FillShape(cupX, cupY, h2).value.TopWidth()
  {
  }
}
