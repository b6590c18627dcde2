/** Placement of the text lines inside the panel: a cursor that starts one body line
    below the panel top and steps down after every line and every section. */
module TextLayout {
  import opened Truncation
  import opened Geometry
  import opened Typography

  /** Horizontal distance from the panel's top-left corner to every line. */
  const TextInset: int := 40
  /** Ideographic space (U+3000) put in front of every value line. */
  const Indent: string := "\U{3000}"

  /** One informational pair, such as a label and the university it names. */
  datatype Section = Section(title: string, value: string)

  /** One text-drawing call: the top-left corner of the text, the string, and the font face. */
  datatype Draw = Draw(at: Point, text: string, font: Font)

  /** Cursor advance after a line set at `size`: the line plus its spacing, truncated. */
  function LineAdvance(size: nat): (step: nat)
    ensures step == (7 * size) / 5
    ensures size <= step
    ensures step >= 1 <==> size >= 1
  {
    TruncScaled(size, 1.0 + LineSpacingRatio, 14, 10);
    Trunc(size as real * (1.0 + LineSpacingRatio))
  }

  /** Where every line starts: 40 pixels right of the panel's top-left corner. */
  function TextX(p: Panel): int
  {
    p.leftTop + TextInset
  }

  /** Where the name line is drawn: one body line below the panel top. */
  function NameY(p: Panel, sizes: FontSizes): int
  {
    p.topMargin + sizes.base
  }

  /** The cursor before section `i`, and after the last section when `i` is their number. */
  function SectionY(p: Panel, sizes: FontSizes, i: nat): int
  {
    NameY(p, sizes) + LineAdvance(sizes.name) + i * (2 * LineAdvance(sizes.base) + SectionGap)
  }

  /** Line `k` of the text block: line 0 is the name; lines 2i+1 and 2i+2 are the
      label and the indented value of section i. */
  function PlannedLine(p: Panel, sizes: FontSizes, fonts: Fonts, name: string,
                       sections: seq<Section>, k: nat): Draw
    requires k < 1 + 2 * |sections|
  {
    if k == 0 then Draw(Point(TextX(p), NameY(p, sizes)), name, fonts.name)
    else
      var i := (k - 1) / 2;
      if (k - 1) % 2 == 0 then
        Draw(Point(TextX(p), SectionY(p, sizes, i)), sections[i].title, fonts.base)
      else
        Draw(Point(TextX(p), SectionY(p, sizes, i) + LineAdvance(sizes.base)),
             Indent + sections[i].value, fonts.base)
  }

  /** The whole text block, in drawing order. All lines share one x; only the name
      uses the name face. */
  function PlannedText(p: Panel, sizes: FontSizes, fonts: Fonts, name: string,
                       sections: seq<Section>): (ds: seq<Draw>)
    ensures |ds| == 1 + 2 * |sections|
    ensures ds[0] == Draw(Point(TextX(p), p.topMargin + sizes.base), name, fonts.name)
    ensures forall k :: 0 <= k < |ds| ==> ds[k].at.x == p.leftTop + TextInset
    ensures forall k :: 0 < k < |ds| ==> ds[k].font == fonts.base
  {
    seq(1 + 2 * |sections|, k requires 0 <= k < 1 + 2 * |sections| =>
      PlannedLine(p, sizes, fonts, name, sections, k))
  }

  /** Section `i` contributes two consecutive lines, right after the lines of the
      sections before it: its title, then its value behind the ideographic space,
      one body line advance lower. */
  lemma SectionLines(p: Panel, sizes: FontSizes, fonts: Fonts, name: string,
                     sections: seq<Section>, i: nat)
    requires i < |sections|
    ensures var ds := PlannedText(p, sizes, fonts, name, sections);
            && ds[2 * i + 1] == Draw(Point(TextX(p), SectionY(p, sizes, i)), sections[i].title, fonts.base)
            && ds[2 * i + 2] == Draw(Point(TextX(p), SectionY(p, sizes, i) + LineAdvance(sizes.base)),
                                     Indent + sections[i].value, fonts.base)
  {
    assert (2 * i + 1 - 1) / 2 == i && (2 * i + 1 - 1) % 2 == 0;
    assert (2 * i + 2 - 1) / 2 == i && (2 * i + 2 - 1) % 2 == 1;
  }

  /** Draws the name and then each section's label and value, moving the cursor down
      after every line and every section; returns the draw calls and the final cursor. */
  method LayoutText(p: Panel, sizes: FontSizes, fonts: Fonts, name: string, sections: seq<Section>)
    returns (draws: seq<Draw>, y: int)
    ensures draws == PlannedText(p, sizes, fonts, name, sections)
    ensures y == SectionY(p, sizes, |sections|)
  {
    var textX := p.leftTop + TextInset;
    y := p.topMargin + sizes.base;
    draws := [Draw(Point(textX, y), name, fonts.name)];
    y := y + Trunc(sizes.name as real * (1.0 + LineSpacingRatio));
    ghost var planned := PlannedText(p, sizes, fonts, name, sections);
    for i := 0 to |sections|
      invariant draws == planned[..1 + 2 * i]
      invariant y == SectionY(p, sizes, i)
    {
      var title, value := sections[i].title, sections[i].value;
      draws := draws + [Draw(Point(textX, y), title, fonts.base)];
      y := y + Trunc(sizes.base as real * (1.0 + LineSpacingRatio));
      draws := draws + [Draw(Point(textX, y), Indent + value, fonts.base)];
      y := y + Trunc(sizes.base as real * (1.0 + LineSpacingRatio));
      y := y + SectionGap;
      SectionLines(p, sizes, fonts, name, sections, i);
      SectionAdvance(p, sizes, i);
      assert planned[..1 + 2 * (i + 1)] == planned[..1 + 2 * i] + [planned[2 * i + 1], planned[2 * i + 2]];
    }
  }

  /** Successive lines are drawn strictly lower down the canvas exactly when both
      font sizes are at least one pixel (or there is no section at all): a zero-sized
      font leaves the cursor where it was, and two lines land on the same row. */
  lemma RowsStrictlyIncrease(p: Panel, sizes: FontSizes, fonts: Fonts,
                             name: string, sections: seq<Section>)
    ensures var ds := PlannedText(p, sizes, fonts, name, sections);
            (forall j, k :: 0 <= j < k < |ds| ==> ds[j].at.y < ds[k].at.y)
            <==> (|sections| == 0 || (sizes.base >= 1 && sizes.name >= 1))
  {
    var ds := PlannedText(p, sizes, fonts, name, sections);
    if |sections| > 0 {
      SectionLines(p, sizes, fonts, name, sections, 0);
      assert ds[1].at.y == ds[0].at.y + LineAdvance(sizes.name);
      assert ds[2].at.y == ds[1].at.y + LineAdvance(sizes.base);
    }
    if |sections| == 0 || (sizes.base >= 1 && sizes.name >= 1) {
      forall k | 0 <= k < |ds| - 1
        ensures ds[k].at.y < ds[k + 1].at.y
      {
        NextLineLower(p, sizes, fonts, name, sections, k);
      }
      StepwiseIncreasing(ds);
    }
  }

  /** With both font sizes positive, each line is drawn below the one before it. */
  lemma NextLineLower(p: Panel, sizes: FontSizes, fonts: Fonts, name: string,
                      sections: seq<Section>, k: nat)
    requires sizes.base >= 1 && sizes.name >= 1
    requires k < 2 * |sections|
    ensures var ds := PlannedText(p, sizes, fonts, name, sections);
            ds[k].at.y < ds[k + 1].at.y
  {
    var i := (k + 1 - 1) / 2;
    if k == 0 {
      SectionLines(p, sizes, fonts, name, sections, 0);
    } else if k % 2 == 1 {
      assert k == 2 * i + 1;
      SectionLines(p, sizes, fonts, name, sections, i);
    } else {
      var h := i - 1;
      assert k == 2 * h + 2 && i == h + 1;
      SectionLines(p, sizes, fonts, name, sections, h);
      SectionLines(p, sizes, fonts, name, sections, i);
      SectionAdvance(p, sizes, h);
    }
  }

  /** Each section moves the cursor down by two body lines and the section gap. */
  lemma SectionAdvance(p: Panel, sizes: FontSizes, i: nat)
    ensures SectionY(p, sizes, i + 1) == SectionY(p, sizes, i) + 2 * LineAdvance(sizes.base) + SectionGap
  {
    var c := 2 * LineAdvance(sizes.base) + SectionGap;
    assert (i + 1) * c == i * c + c;
  }

  /** With the solved font sizes, the rows increase exactly when the panel is tall
      enough for a one-pixel body font: ten times its height reaches 30 + 38n. */
  lemma RowsIncreaseForTallPanels(p: Panel, fonts: Fonts, name: string,
                                  sections: seq<Section>)
    requires 0 <= p.trapezoidHeight
    ensures var ds := PlannedText(p, SolveFontSizes(p.trapezoidHeight, |sections|), fonts, name, sections);
            (forall j, k :: 0 <= j < k < |ds| ==> ds[j].at.y < ds[k].at.y)
            <==> (|sections| == 0 || 10 * p.trapezoidHeight >= 30 + 38 * |sections|)
  {
    var sizes := SolveFontSizes(p.trapezoidHeight, |sections|);
    RowsStrictlyIncrease(p, sizes, fonts, name, sections);
    var d, b := 30 + 38 * |sections|, sizes.base;
    if b >= 1 {
      MulMonotone(d, 1, b);
      assert d * b == b * d;
    } else {
      assert b == 0 && (b + 1) * d == d;
    }
  }

  /** Rows that increase from each line to the next increase along the whole block. */
  lemma {:induction false} StepwiseIncreasing(ds: seq<Draw>)
    requires forall k :: 0 <= k < |ds| - 1 ==> ds[k].at.y < ds[k + 1].at.y
    ensures forall j, k :: 0 <= j < k < |ds| ==> ds[j].at.y < ds[k].at.y
  {
    if |ds| > 1 {
      StepwiseIncreasing(ds[..|ds| - 1]);
      assert forall j :: 0 <= j < |ds| - 1 ==> ds[j].at.y < ds[|ds| - 1].at.y by {
        forall j | 0 <= j < |ds| - 1
          ensures ds[j].at.y < ds[|ds| - 1].at.y
        {
          if j < |ds| - 2 {
            assert ds[..|ds| - 1][j].at.y < ds[..|ds| - 1][|ds| - 2].at.y;
          }
        }
      }
    }
  }

  /** With the solved font sizes, the cursor after the last section passes the panel
      bottom by at most a tenth of a body line once the body font is 10 pixels or more,
      and stays above the panel bottom once there is a section and the font is 11 pixels
      or more. */
  lemma FinalCursorNearPanelBottom(p: Panel, sectionCount: nat)
    requires 0 <= p.trapezoidHeight && p.topMargin + p.trapezoidHeight == p.bottom
    ensures var sizes := SolveFontSizes(p.trapezoidHeight, sectionCount);
            sizes.base >= 10 ==> 10 * (SectionY(p, sizes, sectionCount) - p.bottom) <= sizes.base
    ensures var sizes := SolveFontSizes(p.trapezoidHeight, sectionCount);
            sectionCount >= 1 && sizes.base >= 11 ==> SectionY(p, sizes, sectionCount) <= p.bottom
  {
    var sizes := SolveFontSizes(p.trapezoidHeight, sectionCount);
    var n, b := sectionCount, sizes.base;
    var a, s := LineAdvance(sizes.name), LineAdvance(b);
    assert 10 * a <= 21 * b by {
      assert 2 * sizes.name <= 3 * b && 5 * a <= 7 * sizes.name;
    }
    assert SectionY(p, sizes, n) - p.bottom == b + a + n * (2 * s + SectionGap) - p.trapezoidHeight;
    CursorOvershoot(n, b, a, s, p.trapezoidHeight);
    if b >= 10 {
      MulMonotone(n, 0, b - 10);
    }
    if n >= 1 && b >= 11 {
      MulMonotone(b - 10, 1, n);
      assert n * (b - 10) == (b - 10) * n;
    }
  }

  /** The arithmetic behind the bound: the overshoot, in tenths of a pixel. */
  lemma CursorOvershoot(n: int, b: int, a: int, s: int, th: int)
    requires 0 <= n && 0 <= b && 10 * a <= 21 * b && 5 * s <= 7 * b
    requires b * (30 + 38 * n) <= 10 * th
    ensures 10 * (b + a + n * (2 * s + 10) - th) <= b - 10 * (n * (b - 10))
  {
    var ns, nb := n * s, n * b;
    assert n * (2 * s + 10) == 2 * ns + 10 * n;
    MulMonotone(n, 20 * s, 28 * b);
    assert n * (20 * s) == 20 * ns && n * (28 * b) == 28 * nb;
    assert b * (30 + 38 * n) == 30 * b + 38 * nb;
    assert n * (b - 10) == nb - 10 * n;
  }
}
