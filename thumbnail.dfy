/** The generate action of the thumbnail page: the two cropped photographs and the
    five text fields become a canvas, a panel, two fonts and the list of text draws. */
module Thumbnail {
  import opened Geometry
  import opened Typography
  import opened TextLayout

  /** Everything the pixel operations are given: the pasted sizes and offsets, the
      filled polygon, the chosen faces, the text draw calls and where the cursor ended. */
  datatype Thumbnail = Thumbnail(
    composition: Composition,
    panel: Panel,
    sizes: FontSizes,
    fonts: Fonts,
    draws: seq<Draw>,
    cursor: int)

  /** The page only offers the generate button once all five text fields are filled in. */
  predicate AllFilled(name: string, location: string, university: string, period: string,
                      affiliation: string)
  {
    name != [] && location != [] && university != [] && period != [] && affiliation != []
  }

  /** The four fixed sections: country/city, host university, period, home affiliation. */
  function Sections(location: string, university: string, period: string, affiliation: string)
    : (ss: seq<Section>)
    ensures |ss| == 4
    ensures ss[0].value == location && ss[1].value == university
    ensures ss[2].value == period && ss[3].value == affiliation
  {
    [Section("国/都市", location),
     Section("留学先", university),
     Section("期間", period),
     Section("留学開始時所属", affiliation)]
  }

  /** One press of the generate button. */
  method Generate(portrait: Size, background: Size, name: string, location: string,
                  university: string, period: string, affiliation: string, opens: int -> bool)
    returns (t: Thumbnail)
    requires portrait.height > 0
    requires AllFilled(name, location, university, period, affiliation)
    ensures t.composition == Compose(portrait, background)
    ensures t.composition.canvas.height == background.height
    ensures t.panel == PanelOf(t.composition)
    ensures t.sizes == SolveFontSizes(t.panel.trapezoidHeight, 4)
    ensures t.fonts == LoadFonts(opens, t.sizes)
    ensures |t.draws| == 9
    ensures t.draws == PlannedText(t.panel, t.sizes, t.fonts, name,
                                   Sections(location, university, period, affiliation))
    ensures t.cursor == SectionY(t.panel, t.sizes, 4)
  {
    var composition := Compose(portrait, background);
    var panel := PanelOf(composition);
    var sections := Sections(location, university, period, affiliation);
    var sizes := SolveFontSizes(panel.trapezoidHeight, |sections|);
    var fonts := LoadFonts(opens, sizes);
    var draws, cursor := LayoutText(panel, sizes, fonts, name, sections);
    t := Thumbnail(composition, panel, sizes, fonts, draws, cursor);
  }

  /** A 600x900 portrait beside an 800x600 background. */
  lemma WorkedScenario()
    ensures var c := Compose(Size(600, 900), Size(800, 600));
            && c.portrait == Size(400, 600)
            && c.background == Size(800, 600)
            && c.canvas == Size(1200, 600)
            && c.backgroundAt == Point(400, 0)
    ensures var p := PanelOf(Compose(Size(600, 900), Size(800, 600)));
            && p.topMargin == 90 && p.trapezoidHeight == 510
            && p.topBase == 600 && p.bottomBase == 760
            && p.Corners() == [Point(600, 90), Point(1200, 90), Point(1200, 600), Point(440, 600)]
            && SolveFontSizes(p.trapezoidHeight, 4) == FontSizes(28, 42)
            && TextX(p) == 640
            && NameY(p, FontSizes(28, 42)) == 118
            && SectionY(p, FontSizes(28, 42), 0) == 176
            && SectionY(p, FontSizes(28, 42), 4) == 528
  {
  }

  /** On a 20-pixel-high canvas the four sections get a zero-sized body font: the last
      line is drawn 13 pixels below the canvas and the cursor ends 23 pixels below it,
      so the text block does not always fit. */
  lemma TinyCanvasOverflows()
    ensures var p := PanelOf(Compose(Size(20, 20), Size(30, 20)));
            && p.bottom == 20
            && SolveFontSizes(p.trapezoidHeight, 4) == FontSizes(0, 0)
            && SectionY(p, FontSizes(0, 0), 3) + LineAdvance(0) == 33
            && SectionY(p, FontSizes(0, 0), 4) == 43
  {
  }
}
