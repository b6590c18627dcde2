/** The font-size solver and the choice of font faces. */
module Typography {
  import opened Truncation

  /** Extra height after each line, as a fraction of that line's font size. */
  const LineSpacingRatio: real := 0.4
  /** Fixed pixel gap after each (label, value) section. */
  const SectionGap: int := 10
  /** Name font size relative to the body font size. */
  const NameScale: real := 1.5
  /** The font file the faces are loaded from. */
  const FontPath: string := "NotoSansCJKjp-Regular.otf"

  datatype FontSizes = FontSizes(base: nat, name: nat)

  /** A loaded face at a size, or the library's built-in default font. */
  datatype Font = Face(path: string, size: int) | Default

  datatype Fonts = Fonts(base: Font, name: Font)

  /** Lines of text (name plus a label and a value per section), their spacing,
      and one extra unit per section, in units of the body font size. */
  function SpacingLines(sectionCount: nat): (units: real)
    ensures units == (10 + 38 * sectionCount) as real / 10.0
  {
    var baseLines := 1 + sectionCount * 2;
    baseLines as real + (baseLines - 1) as real * LineSpacingRatio + sectionCount as real
  }

  /** The body font is the largest size whose 3 + 3.8n line units (the spacing lines
      plus one line of padding above and below) fit in the panel height; the name font
      is half as large again, truncated. */
  function SolveFontSizes(trapezoidHeight: nat, sectionCount: nat): (f: FontSizes)
    ensures f.base * (30 + 38 * sectionCount) <= 10 * trapezoidHeight
    ensures 10 * trapezoidHeight < (f.base + 1) * (30 + 38 * sectionCount)
    ensures f.base == (10 * trapezoidHeight) / (30 + 38 * sectionCount)
    ensures f.name == (3 * f.base) / 2
    ensures 0 <= f.base <= f.name
  {
    var d := 30 + 38 * sectionCount;
    assert trapezoidHeight as real / (SpacingLines(sectionCount) + 2.0)
        == (10 * trapezoidHeight) as real / d as real;
    TruncQuotient(10 * trapezoidHeight, d);
    var baseFontSize := Trunc(trapezoidHeight as real / (SpacingLines(sectionCount) + 2.0));
    TruncScaled(baseFontSize, NameScale, 3, 2);
    var nameFontSize := Trunc(baseFontSize as real * NameScale);
    FontSizes(baseFontSize, nameFontSize)
  }

  /** More sections never give a larger body or name font. */
  lemma FontShrinksWithSections(trapezoidHeight: nat, n: nat, m: nat)
    requires n <= m
    ensures SolveFontSizes(trapezoidHeight, m).base <= SolveFontSizes(trapezoidHeight, n).base
    ensures SolveFontSizes(trapezoidHeight, m).name <= SolveFontSizes(trapezoidHeight, n).name
  {
    DivAntitone(10 * trapezoidHeight, 30 + 38 * n, 30 + 38 * m);
    var bm, bn := SolveFontSizes(trapezoidHeight, m).base, SolveFontSizes(trapezoidHeight, n).base;
    DivMonotone(3 * bm, 3 * bn, 2);
  }

  /** A taller panel never gives a smaller body or name font. */
  lemma FontGrowsWithHeight(h: nat, k: nat, sectionCount: nat)
    requires h <= k
    ensures SolveFontSizes(h, sectionCount).base <= SolveFontSizes(k, sectionCount).base
    ensures SolveFontSizes(h, sectionCount).name <= SolveFontSizes(k, sectionCount).name
  {
    DivMonotone(10 * h, 10 * k, 30 + 38 * sectionCount);
    var bh, bk := SolveFontSizes(h, sectionCount).base, SolveFontSizes(k, sectionCount).base;
    DivMonotone(3 * bh, 3 * bk, 2);
  }

  /** Both faces are loaded from the font file, or, if loading at either size fails,
      both are the default font; `opens(size)` says whether loading succeeds. */
  function LoadFonts(opens: int -> bool, sizes: FontSizes): (f: Fonts)
    ensures f.base.Default? <==> f.name.Default?
    ensures f.base.Face? <==> opens(sizes.base) && opens(sizes.name)
    ensures f.base.Face? ==> f.base == Face(FontPath, sizes.base) && f.name == Face(FontPath, sizes.name)
  {
    if opens(sizes.base) && opens(sizes.name) then
      Fonts(Face(FontPath, sizes.base), Face(FontPath, sizes.name))
    else
      Fonts(Default, Default)
  }
}
