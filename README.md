# PDF with Notes Section — a verified model

PDFwithNotesSection takes PDF files and gives every page a notes panel. Each
output page is the source page doubled along one axis. One half shows the
source page. The other half is the notes panel: a background fill, a title, an
optional date label, and a grid, ruled-line or dot pattern. A black separator
is drawn on the edge the two halves share.

The repository contains two editions of the page composer:

- `main.py` is the older Streamlit script. It always prints the date label, and
  its dot pattern tries to add extra dots along the panel's right and bottom
  edges. The guards on those extra dots can never hold (see Findings), so it
  draws the same dot lattice as `processor.py`. The model composes main.py's
  pages as written. A third edition, `MainScriptCorrected`, is main.py with the
  guards corrected.
- `processor.py` is the newer module. It prints the date only when asked, and it
  uses the plain dot lattice. Before composing, it runs a geometry normaliser over
  the upload. The normaliser repairs pages whose `/CropBox` differs from their
  `/MediaBox`, or which carry a non-zero `/Rotate`. It then bakes a quarter turn
  into the boxes of every page it flagged. Its closing `p.rotate = 0` assigns to
  the page object's `rotate` method, not to the `/Rotate` entry, which pypdf
  exposes as `rotation`. So a baked page keeps the repaired page's `/Rotate`,
  which the repair has already deleted.

The model is split into these modules:

- `Geometry` (geometry.dfy) holds points, rectangles and colours as exact reals,
  the primitives a PyMuPDF page records, and the `Canvas` class. A `Canvas` is a
  page object whose draw calls each append one primitive to its `ops`.
- `Colour` (colour.dfy) models `hex_to_rgb_percent`. It includes Python's
  `int(field, 16)` on the two-character slices and `lstrip('#')`, and treats a
  field Python rejects as `None`. It is paired with an upper-case `#RRGGBB`
  encoder, and both round trips are proved.
- `Patterns` (patterns.dfy) models `draw_lines`, `draw_squares` and both
  `draw_dotted_lines`. Each is a loop method on a `Canvas`, proved to append
  exactly the sequence a specification function lists. Lemmas state how many
  primitives there are, where they lie, and that nothing fits after the last one.
  Python's `int()` is written out as truncation toward zero.
- `Layout` (layout.dfy) models the `position` branches of `process_pdf`: the
  page size, where the source page goes, the notes rectangle, and the separator.
  Lemmas prove that the two halves tile the new page.
- `Normalizer` (normalizer.dfy) models `is_metadata_problematic`,
  `fix_metadata_with_pikepdf`, `apply_rotation_if_needed` and
  `normalize_and_fix_rotation`. A page is modelled by its media box, crop box and
  rotation; a document is the sequence of its pages.
- `Composer` (composer.dfy) models the page loop of `process_pdf` in both
  editions, and processor.py's pipeline from the upload through the normaliser to
  the composed pages.

## Model

| member | source | states |
|---|---|---|
| Colour.HexToRgbPercent | main.py:8-11 | Every conversion that succeeds gives channels in [−15/255, 1]. A field is at most two hex digits, or a sign and one digit, which `int(field, 16)` accepts. |
| Colour.ParseHexField | main.py:11 | `int(field, 16)` of a field of at most two characters, when it succeeds, lies between −15 and 255. |
| Colour.SixDigitsParse | main.py:8-11 | '#' followed by six hex digits of either case converts. Each channel is its digit pair's value over 255, so all three lie in [0,1]. |
| Colour.PairParses | main.py:11 | `int(pair, 16)` of two hex digits is 16 × the first digit + the second. This is below 256, and the field needs no stripping. |
| Colour.EncodeThenDecode | main.py:8-11 | Three bytes written as `#RRGGBB` convert back to the same three bytes over 255. |
| Colour.DecodeThenEncode | processor.py:9-11 | Converting a `#rrggbb` string and encoding the colour again gives back the input in upper case. |
| Colour.DefaultLineColour | main.py:8-11 | The default line colour `#CECECE` converts to (206/255, 206/255, 206/255). |
| Colour.TooShortFails | main.py:11 | With four or fewer characters left after the '#'s, the third slice is empty. `int('', 16)` fails, so the conversion fails. |
| Colour.StrayCharacterFails | main.py:11 | A character among the first six that is not a hex digit, a sign or whitespace makes its field, and so the conversion, fail. |
| Colour.FieldWithStrayFails | main.py:11 | One field holding such a character fails to parse. |
| Patterns.CountBelowExact | main.py:17-18 | `CountBelow(start, limit, step)` is exactly the number of steps k with start + k·step < limit. This is the trip count of a `while y < limit` loop. |
| Patterns.CountAtMostExact | main.py:45-48 | `CountAtMost` is exactly the number of steps k with start + k·step <= limit. This is the trip count of a `while y <= y_end` loop. |
| Patterns.LoopLineBound | main.py:17-19 | The ruling loop stops after exactly `LoopLineCount` lines: line k lies above y1 − spacing iff k < that count. |
| Patterns.LinedMargins | main.py:14-21 | Every ruled line runs from x0 + spacing to x1 − spacing, starting three spacings down, one spacing apart. All lie above y1 − spacing/2, and all but the last above y1 − spacing. One more line would not fit above y1 − spacing/2. |
| Patterns.RuleAboveMargin | main.py:16-19 | The `while` loop appends exactly the lines above y1 − spacing, in order, and leaves y at the first line that is not above it. |
| Patterns.DrawLines | main.py:14-21 | The loop appends exactly `LinedPattern`: the loop's lines plus the final half-gap line. |
| Patterns.GridUpToMembers | main.py:30-34 | A primitive is drawn by the nested loops iff it is square (i, j) for some i < columns and j < rows. |
| Patterns.GridCount | main.py:28-31 | Exactly max(0, int((width − 2s)/s)) × max(0, int((height − 4s)/s)) squares are drawn. |
| Patterns.GridInside | main.py:24-34 | Every square is an unfilled s × s rectangle in the pattern colour. It lies within [x0 + s, x1 − s] × [y0 + 3s, y1 − s]. |
| Patterns.DrawSquares | processor.py:22-31 | The nested `for` loops append exactly `GridPattern`, column after column. |
| Patterns.LatticeExactly | processor.py:33-45 | The lattice holds one dot per column and row. A dot is drawn iff its centre is a lattice point (x_start + i·s, y_start + j·s) with x <= x_end and y <= y_end. |
| Patterns.LatticeInside | processor.py:33-45 | Every lattice dot is a filled radius-1 circle whose centre lies in [x_start, x_end] × [y_start, y_end]. |
| Patterns.DrawDotRow | processor.py:41-44 | The inner loop appends one row of dots at a given y, from x_start while x <= x_end. |
| Patterns.DrawDotColumn | main.py:52-56 | The edge-column loop appends one column of dots at a given x, from y_start while y <= y_end. |
| Patterns.DrawDotLattice | processor.py:39-45 | The nested `while` loops append exactly `DotLattice`, row after row. |
| Patterns.DrawDottedLines | processor.py:33-45 | processor.py's `draw_dotted_lines` appends exactly the lattice. |
| Patterns.EdgeGuardsNeverHold | main.py:51-64 | main.py's three supplemental guards are false for every rectangle and positive spacing. Its dotted pattern as written is exactly the lattice. |
| Patterns.DrawLatticeWithEdges | main.py:37-64 | The method appends the lattice, then the edge column at x_end if its guard holds, the edge row at y_end if its guard holds, and the corner dot if both hold. |
| Patterns.DrawDottedWithEdges | main.py:37-64 | main.py's `draw_dotted_lines` with the guards as written appends `DottedAsWritten`: the lattice, then each edge part whose guard holds. |
| Patterns.DrawDottedToEdges | main.py:37-64 | With the intended guards, the method appends `DottedToEdges`. |
| Patterns.DottedReachesRightEdge | main.py:51-56 | With the intended guards, every lattice row of a non-empty lattice has a dot at x_end. |
| Patterns.DottedReachesBottomEdge | main.py:57-62 | With the intended guards, every lattice column of a non-empty lattice has a dot at y_end. |
| Patterns.DottedReachesCorner | main.py:63-64 | With the intended guards, a non-empty lattice has a dot at (x_end, y_end). |
| Patterns.DottedToEdgesInside | main.py:37-64 | With the intended guards, every dot is still a filled radius-1 circle with its centre in [x_start, x_end] × [y_start, y_end]. |
| Layout.PlaceHalves | main.py:74-97 | For `Place`: both halves are the source page's size, and the new page has twice its area. The page is doubled along x for Right/Left and along y for Top/Bottom. The content and notes rectangles are exactly the two halves. |
| Layout.PlaceTiles | main.py:74-97 | No point lies strictly inside both halves. A point is on the new page iff it is in one half or the other. |
| Layout.SeparatorOnSharedEdge | processor.py:125-155 | The separator runs from (width, 0) to (width, height) for Right/Left, and from (0, height) to (width, height) for Top/Bottom. Every point of it lies on both halves, so it covers exactly the shared edge. |
| Normalizer.ProblematicCases | processor.py:50-51 | `IsMetadataProblematic` flags a page iff it has a `/CropBox` different from its `/MediaBox`, or a `/Rotate` that is present and non-zero. |
| Normalizer.RepairPage | processor.py:56-62 | A repaired page has no `/Rotate`. A differing crop box becomes the media box and is removed; otherwise both boxes are kept. A repaired page is never flagged. |
| Normalizer.FixMetadata | processor.py:53-64 | The loop repairs every page, in order, and keeps the page count. |
| Normalizer.BakePage | processor.py:70-78 | For a flagged original, the media box keeps its lower-left corner, and its upper-right corner becomes (height, width) of the repaired media box. The crop box is present and gets the same upper-right corner. An unflagged original leaves the repaired page unchanged. `/Rotate` is never written. |
| Normalizer.ApplyRotationIfNeeded | processor.py:66-81 | The loop over `zip(orig, norm)` produces `BakeAll` of the two documents. Its length is the shorter of the two. |
| Normalizer.Normalize | processor.py:83-98 | Normalisation keeps the number of pages: the zip in the bake-in pairs documents of equal length. |
| Normalizer.NormalizeAndFixRotation | processor.py:83-98 | The result is the input when no page is flagged. Otherwise it is the repaired document with the rotation baked in. |
| Normalizer.BakedPageConsistent | processor.py:70-78 | Baking onto a consistent repaired page leaves it consistent. A repaired page has no `/Rotate`, and it still has none after baking. |
| Normalizer.NormalizeEstablishesConsistency | processor.py:83-98 | Normalisation keeps the page count and leaves no page flagged. |
| Normalizer.FastPathCopies | processor.py:94-96 | With no page flagged, the output equals the input. |
| Normalizer.NormalizeIdempotent | processor.py:89-96 | A normalised document takes the fast path, so normalising twice is normalising once. |
| Normalizer.NormalizePageByPage | processor.py:70-79 | On the repair path, an unflagged page keeps its boxes and loses only `/Rotate`. A flagged page gets both boxes' upper-right corners set to (height, width) of its repaired media box, and has no `/Rotate` entry. |
| Normalizer.BakeSwapsAtOrigin | processor.py:72-77 | The baked box measures (height − llx) × (width − lly). This is a true width/height swap iff the lower-left corner is at the origin. |
| Normalizer.BakeOffOriginIsNoSwap | processor.py:72-77 | A 100 × 200 media box at (10, 10) on a rotated page comes out 190 × 90. |
| Normalizer.CroppedPageNormalized | processor.py:59-78 | Take a page whose crop box differs from its media box and has its lower-left corner at the origin. It ends with the crop box, width and height swapped, as both boxes, and with no `/Rotate` entry. This holds for any `/Rotate`, absent or 0 included. |
| Normalizer.RotatedPageSwapped | processor.py:50-78 | Take a page with a media box at the origin, no crop box and any non-zero `/Rotate`, 180 included. It gets the quarter-turn swap of both boxes and loses its `/Rotate` entry. |
| Composer.StartPage | main.py:74-97 | The method creates the new page of the placement's size, places the source page in the content half and, for Top/Bottom, draws the separator. |
| Composer.DrawPanel | main.py:98-124 | The method appends the fill, the title, the date label when the edition draws it, then the style's pattern. For Dotted, main.py's pattern uses its guards as written, the corrected edition uses the intended guards, and processor.py uses the plain lattice. |
| Composer.ComposePage | main.py:72-126 | The new page has the placement's size, and its primitives are exactly `PageOps` for the edition. |
| Composer.ProcessPdf | main.py:72-126 | There is one composed page per source page, in order. Page i shows source page i and equals `ComposedSheet` (processor.py:113-155 is the same loop). |
| Composer.PageRect | processor.py:113-114 | For an unflagged page, `page.rect` starts at the origin and has the crop box's width and height. |
| Composer.ProcessUpload | processor.py:101-155 | processor.py composes one page per uploaded page, each from the normalised page's size. Every normalised page is unflagged. |
| Composer.DotsInFrame | main.py:37-64 | In every edition, each dot of the dotted pattern is a filled radius-1 circle centred in [x_start, x_end] × [y_start, y_end]. |
| Composer.EditionsAgreeWithDate | processor.py:143-152 | With `include_date` set, main.py and processor.py compose the same page for every style. main.py's edge dots are never drawn, so its dotted pattern is processor.py's lattice. |
| Composer.PatternPrimitives | main.py:119-124 | No pattern draws text or a page. Every pattern line starts one spacing right of the panel's left edge and at least three spacings down. |
| Composer.SeparatorNotInPattern | main.py:119-126 | The separator is never one of the pattern's primitives. |
| Composer.SeparatorOnce | main.py:84-126 | The separator occurs exactly once among a composed page's primitives (`PageOps`, built from `Header`, `PatternOps` and the trailing separator). |
| Composer.SeparatorPlacement | processor.py:125-155 | The separator is drawn right after the source page for Top/Bottom, and last for Right/Left. |
| Composer.TitleAndDate | main.py:98-118 | The page starts with the source page. The fill comes next, after the separator for Top/Bottom, and the title follows the fill. The date label follows exactly when the edition draws it (always in main.py, only with `include_date` in processor.py). No other text is drawn. |
| Composer.PatternWithinNotes | main.py:119-124 | With spacing >= 1 and a panel at least one spacing wide and high, every pattern primitive lies inside the panel (a dot by its centre). From spacing 2 on, every dot's whole radius-1 disc lies inside the panel. |
| Composer.NotesStayInPanel | main.py:98-124 | Under the same sizes, every line, rectangle and dot except the separator lies inside the notes half (a dot by its centre). From spacing 2 on, every dot's whole disc does. |
| Composer.LetterLinedOnTheRight | main.py:74-78 | A 612 × 792 page with a lined right-hand panel gives a 1224 × 792 sheet. The first ruled line runs at y = 60 from x = 632 to 1204, and the last primitive is the separator at x = 612. |
| Composer.LetterPanelLineCount | main.py:14-21 | A 792-high panel with spacing 20 gets 37 ruled lines, the last at y = 780. |
| Composer.LetterBlankOnTopWithoutDate | processor.py:125-145 | A blank top panel without a date gives a 612 × 1584 sheet. It holds only the page, the separator, the fill and the title. |
| Composer.CourierDateOnTheRight | main.py:106-117 | In Courier, the date label of a right-hand panel on a Letter page starts at x = 1224 − 236. |
| Composer.RotatedUploadComposedLandscape | processor.py:108-118 | A Letter page with `/Rotate 90` is normalised to 792 × 612 and composed as a 1584 × 612 sheet. |

## Left out

- The rendering is not modelled. A page is the list of primitives drawn on it, in order; fonts, glyph widths and the appearance of the PDF are left out.
- File I/O, the temporary files and `os.remove` are left out. PDF parsing and serialisation are left out too: documents are values.
- The Streamlit user interface is left out: widgets, progress bars, file counters, download buttons and the ZIP download.
- The content-stream transformation in `apply_rotation_if_needed` (rotate by −90, translate by the width) is left out, because only the page boxes and `/Rotate` are modelled.
- `new_pdf.Root.Info = pikepdf.Dictionary()` is not modelled, because document metadata is not part of the model.
- Page attributes inherited from the page tree are not modelled. Each page carries its own boxes and rotation.
- Floating point is not modelled. Coordinates and colours are exact reals, so rounding in `+= spacing` and in `/ 255.0` is not captured.
- Colour.HexToRgbPercent: whitespace and digits are ASCII only. Python's `int()` also accepts non-ASCII Unicode whitespace and decimal digits, and underscores between digits, which a two-character field can only hold in a form `int()` rejects.
- Composer.PageRect: reads PyMuPDF's `page.rect` of a normalised page as (0, 0, media width, media height). This assumes the box is written lower-left corner first. PyMuPDF's own box normalisation is not part of this model.
- Composer.ProcessPdf: requires `PatternTerminates` (a positive spacing for lines and dots, a non-zero one for the grid). On other spacings the source loops forever or divides by zero. The application fixes the spacing at 20.
- Normalizer.FixMetadata: pikepdf compares the `/CropBox` and `/MediaBox` arrays as PDF objects, while `is_metadata_problematic` compares them as floats. Both comparisons are modelled as equality of real boxes.
- Composer.PatternWithinNotes: states containment only for a spacing of at least 1 and a panel at least one spacing wide and high. For a spacing below 2, a dot is contained by its centre only. With the panel's left edge just below an integer, `int(x0 + spacing)` can put the disc up to one unit outside the panel.
- Composer.NotesStayInPanel: same restriction as PatternWithinNotes. For a spacing below 2, only the dot centres are stated to lie in the notes half, not the radius-1 discs.
- Composer.ComposePage: `fitz.open`/`new_page`/`show_pdf_page` are modelled by the `Canvas` class. The source document is reduced to its page rectangles.

## Findings

| source | as written | input that shows it | evidently intended | confidence | as-written member | corrected member |
|---|---|---|---|---|---|---|
| main.py:51-64 | The extra dot column, dot row and corner dot are drawn only when `x_end + spacing <= rect.x1 - dot_radius` (and likewise for y). `x_end = int(rect.x1 - spacing)` is always above `rect.x1 - spacing - 1`, so the guard can never hold, and the edge dots are never drawn. | Any panel, e.g. x1 = 1224, spacing 20: x_end = 1204, and 1204 + 20 = 1224 > 1223. | Add the edge column at x_end when the lattice's last column falls short of x_end, and likewise for the row and the corner. Then every lattice row ends with a dot at x_end, and every lattice column with a dot at y_end. The composer's `MainScriptCorrected` edition draws this pattern. | high; not executed | Patterns.EdgeGuardsNeverHold | Patterns.DottedReachesRightEdge |
