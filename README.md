# Thumbnail layout model

A Dafny model of the layout arithmetic behind the "generate" button of a study-abroad
thumbnail page (`thumbnail_generator.py`). The page takes a portrait photograph, a
background photograph and five text fields. It then:

- scales the portrait to the background's height and stretches the background to twice
  the portrait's new width;
- pastes the two side by side;
- lays a translucent trapezoid over the background;
- writes the name and four (title, value) sections inside the trapezoid, with font
  sizes solved from the trapezoid's height.

The model computes every size, coordinate, font size and string that the script hands
to the imaging library. It proves what those values satisfy.

Modules, one per concern of the script:

- `Truncation`: Python's `int()` applied to a product or quotient. The script's float
  constants are written as exact Dafny `real` literals (0.15, 0.75, 0.95, 0.4, 1.5).
  `Trunc` truncates toward zero. Each truncated value is proved equal to an integer
  quotient, for example `15 * H / 100` for the top margin.
- `Geometry`: the resized sizes, the canvas, the paste offsets and the trapezoid.
- `Typography`: the font-size solver and the font fallback. The body size is
  `10 * th / (30 + 38 * n)` for a panel of height `th` and `n` sections. The name size
  is `3 * base / 2`.
- `TextLayout`: the cursor loop (`LayoutText`), proved equal to a closed-form list of
  draw calls (`PlannedText`).
- `Thumbnail`: the four fixed sections, the five-field gate and the whole generate step.

The model follows the script where a natural reading of the layout would differ:

- Every scaled value is truncated with `int()`, not rounded.
- The background is always stretched to twice the portrait width. There is no
  "minimum of both heights" policy.
- Every value line is prefixed with U+3000 (ideographic space).
- If loading either face fails, both fonts become the library default, at its default
  size.
- No invalid-image error is raised. A zero portrait height is a division by zero, so
  `Compose` requires a positive portrait height. Any other zero width or height makes
  the library's resize raise in the script; the model does not capture that error and
  returns such sizes unchanged.
- One might expect the cursor to end within one line of the panel bottom; that
  does not hold for small fonts. `FinalCursorNearPanelBottom` proves it once the body
  font is at least 10 pixels. `TinyCanvasOverflows` shows a 20-pixel-high canvas whose
  cursor ends 23 pixels past the bottom; its last line is drawn 13 pixels below the
  canvas.

## Model

| member | source | states |
|---|---|---|
| `Truncation.Trunc` | thumbnail_generator.py:84-87 | `int()` truncates toward zero: for a non-negative value the result is the largest integer not above it, and for a negative value the smallest integer not below it |
| `Truncation.TruncQuotient` | thumbnail_generator.py:69 | truncating the exact quotient of two naturals is integer division |
| `Truncation.TruncScaled` | thumbnail_generator.py:84-87 | truncating a natural times the ratio num/den equals `num * x / den` |
| `Geometry.Compose` | thumbnail_generator.py:67-79 | the portrait takes the background's height, and its new width is the floor of `pw * H / ph`, so aspect is kept to within one pixel; the background width is twice the portrait width; the canvas is three portrait widths by `H`; the portrait is pasted at the origin and the background at x = portrait width |
| `Geometry.PanelOf` | thumbnail_generator.py:81-89 | the right edge is the canvas edge and the bottom is the canvas height; top margin, top base and bottom base are `15H/100`, `75w/100` and `95w/100`; the margin is at most `H`, and the margin plus the trapezoid height is `H`; top base ≤ bottom base ≤ background width |
| `Geometry.Panel.Corners` | thumbnail_generator.py:90-95 | four corners in drawing order: (left_top, top_margin), (right, top_margin), (right, bottom), (left_bottom, bottom) |
| `Geometry.PanelInsideCanvas` | thumbnail_generator.py:82-95 | for any composed pair, portrait width ≤ left_bottom ≤ left_top ≤ right = canvas width, and every corner lies in [0, canvas width] × [0, H] |
| `Geometry.PanelWidensStrictly` | thumbnail_generator.py:86-89 | left_bottom < left_top exactly when the background is at least 5 pixels wide |
| `Typography.SpacingLines` | thumbnail_generator.py:109-113 | `total_spacing_lines` for n sections is exactly (10 + 38n)/10, i.e. 1 + 3.8n |
| `Typography.SolveFontSizes` | thumbnail_generator.py:109-115 | the body size is the largest b with b·(3 + 3.8n) ≤ panel height, i.e. `10·th / (30 + 38n)`; the name size is `3·base / 2`, never below the body size |
| `Typography.FontShrinksWithSections` | thumbnail_generator.py:109-115 | for a fixed panel height, more sections never give a larger body or name font |
| `Typography.FontGrowsWithHeight` | thumbnail_generator.py:109-115 | for a fixed section count, a taller panel never gives a smaller body or name font |
| `Typography.LoadFonts` | thumbnail_generator.py:117-122 | both faces come from the font file at the solved sizes exactly when loading succeeds at both sizes; otherwise both are the default font, and no error escapes |
| `TextLayout.LineAdvance` | thumbnail_generator.py:129-135 | the advance `int(size * 1.4)` is `7·size / 5`, is at least the size, and is positive exactly when the size is |
| `TextLayout.PlannedText` | thumbnail_generator.py:125-136 | 1 + 2n lines; the name comes first, in the name face, at (left_top + 40, top_margin + base); every line shares that x; every later line uses the body face. Its helpers are `PlannedLine` (line k is the name at line 128, or section (k-1)/2's title at line 132 or its U+3000-prefixed value at line 134), `TextX` (x = left_top + 40, line 125), `NameY` (the cursor start top_margin + base, line 126) and `SectionY` (the cursor before section i, top_margin + base + int(1.4·name) + i·(2·int(1.4·base) + 10), lines 129-136) |
| `TextLayout.SectionLines` | thumbnail_generator.py:131-136 | section i gives lines 2i+1 and 2i+2: its title at the section cursor, then U+3000 + value one body advance lower |
| `TextLayout.SectionAdvance` | thumbnail_generator.py:133-136 | each section moves the cursor down by two body advances plus the 10-pixel gap |
| `TextLayout.LayoutText` | thumbnail_generator.py:124-136 | the loop issues exactly the planned draw calls, and its final cursor is top_margin + base + int(1.4·name) + n·(2·int(1.4·base) + 10) |
| `TextLayout.RowsStrictlyIncrease` | thumbnail_generator.py:126-136 | line rows strictly increase in drawing order exactly when there is no section or both font sizes are at least 1 |
| `TextLayout.NextLineLower` | thumbnail_generator.py:128-136 | with positive font sizes, each line is drawn strictly below the previous one |
| `TextLayout.RowsIncreaseForTallPanels` | thumbnail_generator.py:109-136 | with the solved sizes, rows strictly increase exactly when there is no section or 10·th ≥ 30 + 38n |
| `TextLayout.FinalCursorNearPanelBottom` | thumbnail_generator.py:109-136 | with the solved sizes, the final cursor passes the panel bottom by at most base/10 once base ≥ 10, and stays at or above it once n ≥ 1 and base ≥ 11 |
| `Thumbnail.Sections` | thumbnail_generator.py:103-108 | four sections carrying location, university, period and affiliation, in that order |
| `Thumbnail.Generate` | thumbnail_generator.py:56-136 | given the five filled fields (the predicate `AllFilled`, the gate at line 59), the result is the composition, its panel, the fonts solved for four sections, the chosen faces, the nine planned draw calls and the final cursor |
| `Thumbnail.WorkedScenario` | thumbnail_generator.py:67-136 | 600×900 portrait and 800×600 background: portrait 400×600, canvas 1200×600, margin 90, bases 600/760, trapezoid height 510, fonts 28/42, text at x = 640, name at y = 118, cursor ending at 528 |
| `Thumbnail.TinyCanvasOverflows` | thumbnail_generator.py:84-136 | on a 20-pixel-high canvas the four sections get font size 0; the last line is drawn at y = 33 and the cursor ends at 43, both below the canvas |

## Left out

- The page itself is not modelled (uploaders, text inputs, cropper, button, image
  display, download button). Only the five-field gate survives, as the precondition of
  `Generate`.
- The font download at start-up is not modelled (network and file system). Whether
  loading succeeds is the parameter `opens` of `LoadFonts`.
- Pixel work is not modelled: LANCZOS resampling, masked paste, polygon fill,
  alpha compositing, glyph rasterisation, RGB conversion and JPEG encoding are library
  calls. Only the sizes, coordinates, fonts and strings passed to them are modelled.
  The fill colours (panel white at alpha 180, text black) are not modelled.
- The library rejects resizing to a zero width or height. That error is not modelled:
  `Compose` returns such sizes unchanged.
- Floating-point rounding is not modelled. The constants 0.15, 0.75, 0.95, 0.4 and 1.5
  are exact rationals here. Binary floating point can, in rare cases, move a truncated
  value by one pixel. Along the text these differences add up. `1 + 0.4` rounds to the
  double just below 1.4, so `int(45 * 1.4)` is 62 where `7 * 45 / 5` is 63; body sizes
  85 and 90 behave the same way. Each section takes two body steps, so the script's
  final cursor can lie up to 2n pixels above the closed form that `LayoutText` and
  `SectionY` state for n sections.
- Text width, and whether long lines overhang the slanted edge, is not modelled. It
  depends on glyph metrics.
