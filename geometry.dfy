/** Sizing of the two photographs, the canvas they are pasted onto, and the
    translucent trapezoid laid over the right-hand (background) photograph. */
module Geometry {
  import opened Truncation

  /** Fraction of the canvas height left above the panel. */
  const TopMarginRatio: real := 0.15
  /** Fraction of the background width spanned by the panel's top edge. */
  const TopBaseRatio: real := 0.75
  /** Fraction of the background width spanned by the panel's bottom edge. */
  const BottomBaseRatio: real := 0.95

  datatype Size = Size(width: nat, height: nat)

  datatype Point = Point(x: int, y: int)

  /** The resized photographs, the canvas, and where each photograph is pasted. */
  datatype Composition = Composition(
    portrait: Size,
    background: Size,
    canvas: Size,
    portraitAt: Point,
    backgroundAt: Point)

  /** The trapezoid: flush with the canvas's right edge, from `topMargin` down to `bottom`. */
  datatype Panel = Panel(
    right: int,
    bottom: int,
    topMargin: int,
    trapezoidHeight: int,
    topBase: int,
    bottomBase: int,
    leftTop: int,
    leftBottom: int)
  {
    /** The polygon handed to the fill call, in drawing order. */
    function Corners(): (cs: seq<Point>)
      ensures |cs| == 4
      ensures cs[0].y == cs[1].y == topMargin && cs[2].y == cs[3].y == bottom
      ensures cs[1].x == cs[2].x == right
      ensures cs[0].x == leftTop && cs[3].x == leftBottom
    {
      [Point(leftTop, topMargin), Point(right, topMargin), Point(right, bottom), Point(leftBottom, bottom)]
    }
  }

  /** The portrait is scaled to the background's height, keeping its aspect ratio up to
      truncation; the background is then stretched to twice the portrait's new width,
      and the two are placed side by side. */
  function Compose(portrait: Size, background: Size): (c: Composition)
    requires portrait.height > 0
    ensures c.portrait.height == c.background.height == c.canvas.height == background.height
    ensures c.portrait.width * portrait.height <= portrait.width * background.height
    ensures portrait.width * background.height < (c.portrait.width + 1) * portrait.height
    ensures c.background.width == 2 * c.portrait.width
    ensures c.canvas.width == 3 * c.portrait.width
    ensures c.portraitAt == Point(0, 0) && c.backgroundAt == Point(c.portrait.width, 0)
  {
    var targetHeight := background.height;
    TruncQuotient(portrait.width * targetHeight, portrait.height);
    var newPortraitWidth := Trunc((portrait.width * targetHeight) as real / portrait.height as real);
    var newBackgroundWidth := newPortraitWidth * 2;
    Composition(
      Size(newPortraitWidth, targetHeight),
      Size(newBackgroundWidth, targetHeight),
      Size(newPortraitWidth + newBackgroundWidth, targetHeight),
      Point(0, 0),
      Point(newPortraitWidth, 0))
  }

  /** The trapezoid derived from the canvas width, the background width and the height;
      each truncated product equals the exact-fraction quotient stated here. */
  function PanelOf(c: Composition): (p: Panel)
    ensures p.right == c.canvas.width && p.bottom == c.canvas.height
    ensures p.topMargin == (15 * c.canvas.height) / 100
    ensures p.topBase == (75 * c.background.width) / 100
    ensures p.bottomBase == (95 * c.background.width) / 100
    ensures 0 <= p.topMargin <= p.bottom
    ensures 0 <= p.trapezoidHeight && p.topMargin + p.trapezoidHeight == p.bottom
    ensures 0 <= p.topBase <= p.bottomBase <= c.background.width
    ensures p.right - p.leftTop == p.topBase && p.right - p.leftBottom == p.bottomBase
  {
    var right := c.canvas.width;
    var bgWidth := c.background.width;
    var targetHeight := c.canvas.height;
    TruncScaled(targetHeight, TopMarginRatio, 15, 100);
    TruncScaled(bgWidth, TopBaseRatio, 75, 100);
    TruncScaled(bgWidth, BottomBaseRatio, 95, 100);
    var topMargin := Trunc(targetHeight as real * TopMarginRatio);
    var trapezoidHeight := targetHeight - topMargin;
    var topBase := Trunc(bgWidth as real * TopBaseRatio);
    var bottomBase := Trunc(bgWidth as real * BottomBaseRatio);
    Panel(right, targetHeight, topMargin, trapezoidHeight, topBase, bottomBase,
          right - topBase, right - bottomBase)
  }

  /** For the composition of any two photographs, the panel lies over the background:
      its slanted edge stays right of the portrait, widens downward, and every corner is
      inside the canvas, the right edge on the canvas's own right edge. */
  lemma PanelInsideCanvas(portrait: Size, background: Size)
    requires portrait.height > 0
    ensures var c := Compose(portrait, background);
            var p := PanelOf(c);
            && c.portrait.width <= p.leftBottom <= p.leftTop <= p.right == c.canvas.width
            && p.right - p.leftBottom <= c.background.width
            && (forall k :: 0 <= k < 4 ==>
                  0 <= p.Corners()[k].x <= c.canvas.width && 0 <= p.Corners()[k].y <= c.canvas.height)
  {
  }

  /** The panel widens strictly downward exactly when the background is at least five
      pixels wide; below that the two truncated bases coincide. */
  lemma PanelWidensStrictly(c: Composition)
    ensures PanelOf(c).leftBottom < PanelOf(c).leftTop <==> c.background.width >= 5
  {
    var w := c.background.width;
    if w >= 5 {
      assert 95 * w >= 75 * w + 100;
      DivMonotone(75 * w + 100, 95 * w, 100);
      assert (75 * w + 100) / 100 == (75 * w) / 100 + 1;
    } else {
      assert w == 0 || w == 1 || w == 2 || w == 3 || w == 4;
    }
  }
}
