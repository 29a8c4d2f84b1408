/**
 * `process_pdf` of both editions: for every source page, a new page twice as
 * large holding the source page in one half and a notes panel (background,
 * title, date label, background pattern) in the other, with a black separator.
 * main.py always prints the date label and draws its dotted pattern with the
 * supplemental edge guards as written (which never hold); processor.py prints
 * the date only when asked, uses the plain dot lattice and runs the geometry
 * normaliser over the upload first. A third edition is main.py with the edge
 * guards corrected, so that its dots reach the panel's right and bottom edges.
 */
module Composer {
  import opened Geometry
  import opened Patterns
  import opened Layout
  import opened Normalizer

  /** The background pattern of the notes panel. */
  datatype Style = Grid | Lined | Dotted | Blank

  /** Which script composes the page; `MainScriptCorrected` is main.py with its edge-dot guards corrected. */
  datatype Edition = MainScript | MainScriptCorrected | ProcessorModule

  /** The user's choices, as `process_pdf` receives them. */
  datatype Config = Config(
    style: Style,
    title: string,
    font: string,
    patternColour: Rgb,
    spacing: real,
    position: Position,
    background: Rgb,
    textColour: Rgb,
    includeDate: bool)

  const FontSize: real := 15.0
  const DateLabel: string := "Date: ___ / ___ / ______"

  /** How far left of the panel's right edge the date label starts, by font. */
  function DateOffset(font: string): real {
    if font == "Courier" then 236.0
    else if font == "Times-Roman" then 170.0
    else 185.0
  }

  /** main.py prints the date label unconditionally; processor.py only when `include_date`. */
  predicate DrawsDate(edition: Edition, cfg: Config) {
    edition != ProcessorModule || cfg.includeDate
  }

  function TitleText(notes: Rect, cfg: Config): Primitive {
    Text(Point(notes.x0 + 20.0, notes.y0 + 35.0), cfg.title, FontSize, cfg.textColour, cfg.font)
  }

  function DateText(notes: Rect, cfg: Config): Primitive {
    Text(Point(notes.x1 - DateOffset(cfg.font), notes.y0 + 35.0), DateLabel, FontSize, cfg.textColour, cfg.font)
  }

  function Separator(pl: Placement): Primitive {
    Line(pl.separatorFrom, pl.separatorTo, Black, 1.0)
  }

  function PanelFill(notes: Rect, cfg: Config): Primitive {
    Rectangle(notes, cfg.background, Some(cfg.background), 1.0)
  }

  /**
   * The spacings for which the pattern's drawing returns: the line and dot
   * loops need a positive step, `draw_squares` only divides by it, and a blank
   * panel ignores it.
   */
  predicate PatternTerminates(style: Style, spacing: real) {
    match style
    case Grid => spacing != 0.0
    case Lined => spacing > 0.0
    case Dotted => spacing > 0.0
    case Blank => true
  }

  /** Each edition's `draw_dotted_lines`. */
  function DottedPattern(edition: Edition, notes: Rect, colour: Rgb, spacing: real): seq<Primitive>
    requires spacing > 0.0
  {
    match edition
    case MainScript => DottedAsWritten(notes, colour, spacing)
    case MainScriptCorrected => DottedToEdges(notes, colour, spacing)
    case ProcessorModule => DotLattice(notes, colour, spacing)
  }

  /** The pattern drawn over the panel; the editions differ only for Dotted. */
  function PatternOps(edition: Edition, style: Style, notes: Rect, colour: Rgb, spacing: real): seq<Primitive>
    requires PatternTerminates(style, spacing)
  {
    match style
    case Grid => GridPattern(notes, colour, spacing)
    case Lined => LinedPattern(notes, colour, spacing)
    case Dotted => DottedPattern(edition, notes, colour, spacing)
    case Blank => []
  }

  /** Everything before the pattern: the source page, the Top/Bottom separator, fill, title and date. */
  function Header(edition: Edition, pl: Placement, pageNumber: nat, cfg: Config): seq<Primitive> {
    [ShowPage(pl.content, pageNumber)]
      + (if SideBySide(cfg.position) then [] else [Separator(pl)])
      + [PanelFill(pl.notes, cfg), TitleText(pl.notes, cfg)]
      + (if DrawsDate(edition, cfg) then [DateText(pl.notes, cfg)] else [])
  }

  /** The primitives of one composed page, in drawing order. */
  function PageOps(edition: Edition, src: Rect, pageNumber: nat, cfg: Config): seq<Primitive>
    requires PatternTerminates(cfg.style, cfg.spacing)
  {
    var pl := Place(Width(src), Height(src), cfg.position);
    Header(edition, pl, pageNumber, cfg)
      + PatternOps(edition, cfg.style, pl.notes, cfg.patternColour, cfg.spacing)
      + (if SideBySide(cfg.position) then [Separator(pl)] else [])
  }

  /** A finished page of the output document. */
  datatype Sheet = Sheet(width: real, height: real, ops: seq<Primitive>)

  function ComposedSheet(edition: Edition, src: Rect, pageNumber: nat, cfg: Config): Sheet
    requires PatternTerminates(cfg.style, cfg.spacing)
  {
    var pl := Place(Width(src), Height(src), cfg.position);
    Sheet(pl.pageWidth, pl.pageHeight, PageOps(edition, src, pageNumber, cfg))
  }

  /** The `if position == ...` chain: the new page, the source page placed on it, the Top/Bottom separator. */
  method StartPage(src: Rect, pageNumber: nat, position: Position) returns (page: Canvas, notes: Rect, midX: real)
    ensures var pl := Place(Width(src), Height(src), position);
      && fresh(page)
      && page.width == pl.pageWidth && page.height == pl.pageHeight
      && page.ops == [ShowPage(pl.content, pageNumber)] + (if SideBySide(position) then [] else [Separator(pl)])
      && notes == pl.notes
      && (SideBySide(position) ==> pl.separatorFrom == Point(midX, 0.0) && pl.separatorTo == Point(midX, Height(src)))
  {
    var width, height := Width(src), Height(src);
    match position {
      case Right =>
        page := new Canvas(width * 2.0, height);
        page.ShowPdfPage(Rect(0.0, 0.0, width, height), pageNumber);
        notes := Rect(width, 0.0, width * 2.0, height);
        midX := width;
      case Left =>
        page := new Canvas(width * 2.0, height);
        page.ShowPdfPage(Rect(width, 0.0, width * 2.0, height), pageNumber);
        notes := Rect(0.0, 0.0, width, height);
        midX := width;
      case Top =>
        page := new Canvas(width, height * 2.0);
        page.ShowPdfPage(Rect(0.0, height, width, height * 2.0), pageNumber);
        notes := Rect(0.0, 0.0, width, height);
        var midY := height;
        page.DrawLine(Point(0.0, midY), Point(width, midY), Black, 1.0);
        midX := width / 2.0;
      case Bottom =>
        page := new Canvas(width, height * 2.0);
        page.ShowPdfPage(Rect(0.0, 0.0, width, height), pageNumber);
        notes := Rect(0.0, height, width, height * 2.0);
        var midY := height;
        page.DrawLine(Point(0.0, midY), Point(width, midY), Black, 1.0);
        midX := width / 2.0;
    }
  }

  /** The panel: fill, title, date label when the edition draws it, then the pattern. */
  method DrawPanel(page: Canvas, edition: Edition, notes: Rect, cfg: Config)
    requires PatternTerminates(cfg.style, cfg.spacing)
    modifies page`ops
    ensures page.ops == old(page.ops) + [PanelFill(notes, cfg), TitleText(notes, cfg)]
      + (if DrawsDate(edition, cfg) then [DateText(notes, cfg)] else [])
      + PatternOps(edition, cfg.style, notes, cfg.patternColour, cfg.spacing)
  {
    page.DrawRect(notes, cfg.background, Some(cfg.background), 1.0);
    page.InsertText(Point(notes.x0 + 20.0, notes.y0 + 35.0), cfg.title, FontSize, cfg.textColour, cfg.font);
    if edition != ProcessorModule || cfg.includeDate {
      var dateX := notes.x1 - DateOffset(cfg.font);
      page.InsertText(Point(dateX, notes.y0 + 35.0), DateLabel, FontSize, cfg.textColour, cfg.font);
    }
    match cfg.style {
      case Grid => DrawSquares(page, notes, cfg.patternColour, cfg.spacing);
      case Lined => DrawLines(page, notes, cfg.patternColour, cfg.spacing);
      case Dotted =>
        match edition {
          case MainScript => DrawDottedWithEdges(page, notes, cfg.patternColour, cfg.spacing);
          case MainScriptCorrected => DrawDottedToEdges(page, notes, cfg.patternColour, cfg.spacing);
          case ProcessorModule => DrawDottedLines(page, notes, cfg.patternColour, cfg.spacing);
        }
      case Blank =>
    }
  }

  /** The body of the page loop of `process_pdf` for one source page. */
  method ComposePage(edition: Edition, src: Rect, pageNumber: nat, cfg: Config) returns (page: Canvas)
    requires PatternTerminates(cfg.style, cfg.spacing)
    ensures fresh(page)
    ensures Sheet(page.width, page.height, page.ops) == ComposedSheet(edition, src, pageNumber, cfg)
  {
    var notes, midX;
    page, notes, midX := StartPage(src, pageNumber, cfg.position);
    DrawPanel(page, edition, notes, cfg);
    if cfg.position == Right || cfg.position == Left {
      page.DrawLine(Point(midX, 0.0), Point(midX, Height(src)), Black, 1.0);
    }
  }

  /** `process_pdf`'s page loop: one composed page per source page, in order, numbered from 0. */
  method ProcessPdf(edition: Edition, pages: seq<Rect>, cfg: Config) returns (sheets: seq<Sheet>)
    requires PatternTerminates(cfg.style, cfg.spacing)
    ensures |sheets| == |pages|
    ensures forall i :: 0 <= i < |pages| ==> sheets[i] == ComposedSheet(edition, pages[i], i, cfg)
  {
    sheets := [];
    for i := 0 to |pages|
      invariant |sheets| == i
      invariant forall k :: 0 <= k < i ==> sheets[k] == ComposedSheet(edition, pages[k], k, cfg)
    {
      var page := ComposePage(edition, pages[i], i, cfg);
      sheets := sheets + [Sheet(page.width, page.height, page.ops)];
    }
  }

  /**
   * PyMuPDF's `page.rect` of a page whose crop box equals its media box and
   * which is not rotated: the visible (crop) area, moved to the origin.
   */
  function PageRect(p: PageDict): (r: Rect)
    requires !IsMetadataProblematic(p)
    ensures r.x0 == 0.0 && r.y0 == 0.0
    ensures Width(r) == BoxWidth(EffectiveCropBox(p)) && Height(r) == BoxHeight(EffectiveCropBox(p))
  {
    Rect(0.0, 0.0, BoxWidth(p.mediaBox), BoxHeight(p.mediaBox))
  }

  /** processor.py's `process_pdf`: normalise the upload's page geometry, then compose every page. */
  method ProcessUpload(pages: seq<PageDict>, cfg: Config) returns (sheets: seq<Sheet>)
    requires PatternTerminates(cfg.style, cfg.spacing)
    ensures |sheets| == |pages|
    ensures forall i :: 0 <= i < |pages| ==>
      !IsMetadataProblematic(Normalize(pages)[i])
      && sheets[i] == ComposedSheet(ProcessorModule, PageRect(Normalize(pages)[i]), i, cfg)
  {
    var normalized := NormalizeAndFixRotation(pages);
    NormalizeEstablishesConsistency(pages);
    var rects := seq(|normalized|, i requires 0 <= i < |normalized| => PageRect(normalized[i]));
    sheets := ProcessPdf(ProcessorModule, rects, cfg);
  }

  // ------------------------------------------------------------ properties

  /** Every dot of each edition's dotted pattern is a dot centred in the `int()` frame. */
  lemma DotsInFrame(edition: Edition, notes: Rect, colour: Rgb, spacing: real, q: Primitive)
    requires spacing > 0.0
    requires q in DottedPattern(edition, notes, colour, spacing)
    ensures var f := Frame(notes, spacing);
      && q.Circle? && q == Dot(q.centre.x, q.centre.y, colour)
      && f.xStart as real <= q.centre.x <= f.xEnd as real
      && f.yStart as real <= q.centre.y <= f.yEnd as real
  {
    match edition
    case MainScript =>
      EdgeGuardsNeverHold(notes, colour, spacing);
      LatticeInside(notes, colour, spacing, q);
    case MainScriptCorrected => DottedToEdgesInside(notes, colour, spacing, q);
    case ProcessorModule => LatticeInside(notes, colour, spacing, q);
  }

  /**
   * With `include_date` set the two scripts compose the same page for every
   * style: main.py's supplemental edge dots are never drawn, so its dotted
   * pattern is processor.py's lattice.
   */
  lemma EditionsAgreeWithDate(src: Rect, pageNumber: nat, cfg: Config)
    requires PatternTerminates(cfg.style, cfg.spacing) && cfg.includeDate
    ensures PageOps(MainScript, src, pageNumber, cfg) == PageOps(ProcessorModule, src, pageNumber, cfg)
  {
    var pl := Place(Width(src), Height(src), cfg.position);
    if cfg.style == Dotted {
      EdgeGuardsNeverHold(pl.notes, cfg.patternColour, cfg.spacing);
    }
  }

  /** No pattern draws text or a source page, and every pattern line starts one spacing right of the panel's edge, three spacings down. */
  lemma PatternPrimitives(edition: Edition, style: Style, notes: Rect, colour: Rgb, spacing: real, q: Primitive)
    requires PatternTerminates(style, spacing)
    requires q in PatternOps(edition, style, notes, colour, spacing)
    ensures !q.Text? && !q.ShowPage?
    ensures q.Line? ==> q.from.x == notes.x0 + spacing && q.from.y >= notes.y0 + 3.0 * spacing
  {
    match style
    case Grid =>
      GridUpToMembers(notes, colour, spacing, Max0(GridColumns(notes, spacing)), Max0(GridRows(notes, spacing)), q);
    case Lined =>
      var p := LinedPattern(notes, colour, spacing);
      LinedMargins(notes, colour, spacing);
      var k :| 0 <= k < |p| && p[k] == q;
      assert k as real * spacing >= 0.0;
    case Dotted => DotsInFrame(edition, notes, colour, spacing, q);
  }

  /** The separator is not among the pattern's primitives, whatever the position. */
  lemma SeparatorNotInPattern(edition: Edition, src: Rect, cfg: Config)
    requires PatternTerminates(cfg.style, cfg.spacing)
    ensures var pl := Place(Width(src), Height(src), cfg.position);
      Separator(pl) !in PatternOps(edition, cfg.style, pl.notes, cfg.patternColour, cfg.spacing)
  {
    var pl := Place(Width(src), Height(src), cfg.position);
    var pattern := PatternOps(edition, cfg.style, pl.notes, cfg.patternColour, cfg.spacing);
    if Separator(pl) in pattern {
      PatternPrimitives(edition, cfg.style, pl.notes, cfg.patternColour, cfg.spacing, Separator(pl));
      assert false;
    }
  }

  /** How often x occurs in a concatenation whose middle part lacks it. */
  lemma CountAroundMiddle(header: seq<Primitive>, middle: seq<Primitive>, trailer: seq<Primitive>, x: Primitive)
    requires x !in middle
    ensures multiset(header + middle + trailer)[x] == multiset(header)[x] + multiset(trailer)[x]
  {
    assert multiset(header + middle + trailer) == multiset(header) + multiset(middle) + multiset(trailer);
  }

  /** The header holds the separator once for Top and Bottom, and not at all for Right and Left. */
  lemma HeaderSeparators(edition: Edition, pl: Placement, pageNumber: nat, cfg: Config)
    ensures multiset(Header(edition, pl, pageNumber, cfg))[Separator(pl)] == if SideBySide(cfg.position) then 0 else 1
  {
    var sep := Separator(pl);
    var date := if DrawsDate(edition, cfg) then [DateText(pl.notes, cfg)] else [];
    var rest := [PanelFill(pl.notes, cfg), TitleText(pl.notes, cfg)] + date;
    assert sep !in rest;
    assert multiset(rest)[sep] == 0;
    if SideBySide(cfg.position) {
      assert Header(edition, pl, pageNumber, cfg) == [ShowPage(pl.content, pageNumber)] + rest;
    } else {
      assert Header(edition, pl, pageNumber, cfg) == [ShowPage(pl.content, pageNumber), sep] + rest;
    }
  }

  /** The separator is drawn exactly once on every composed page. */
  lemma SeparatorOnce(edition: Edition, src: Rect, pageNumber: nat, cfg: Config)
    requires PatternTerminates(cfg.style, cfg.spacing)
    ensures var pl := Place(Width(src), Height(src), cfg.position);
      multiset(PageOps(edition, src, pageNumber, cfg))[Separator(pl)] == 1
  {
    var pl := Place(Width(src), Height(src), cfg.position);
    var pattern := PatternOps(edition, cfg.style, pl.notes, cfg.patternColour, cfg.spacing);
    var header := Header(edition, pl, pageNumber, cfg);
    var trailer := if SideBySide(cfg.position) then [Separator(pl)] else [];
    SeparatorNotInPattern(edition, src, cfg);
    CountAroundMiddle(header, pattern, trailer, Separator(pl));
    HeaderSeparators(edition, pl, pageNumber, cfg);
  }

  /**
   * The separator comes right after the source page for Top and Bottom (so the
   * panel's fill is drawn after it), and as the very last primitive for Right
   * and Left.
   */
  lemma SeparatorPlacement(edition: Edition, src: Rect, pageNumber: nat, cfg: Config)
    requires PatternTerminates(cfg.style, cfg.spacing)
    ensures var pl := Place(Width(src), Height(src), cfg.position);
      var ops := PageOps(edition, src, pageNumber, cfg);
      && (SideBySide(cfg.position) ==> ops[|ops| - 1] == Separator(pl))
      && (!SideBySide(cfg.position) ==> ops[1] == Separator(pl) && ops[2] == PanelFill(pl.notes, cfg))
  {
  }

  /**
   * The page starts with the source page placed in the content half, then the
   * panel's fill; the only texts drawn are the title and, exactly when the
   * edition draws it, the date label, placed by the font's offset.
   */
  lemma TitleAndDate(edition: Edition, src: Rect, pageNumber: nat, cfg: Config)
    requires PatternTerminates(cfg.style, cfg.spacing)
    ensures var pl := Place(Width(src), Height(src), cfg.position);
      var ops := PageOps(edition, src, pageNumber, cfg);
      var t := if SideBySide(cfg.position) then 2 else 3;
      && ops[0] == ShowPage(pl.content, pageNumber)
      && ops[t - 1] == PanelFill(pl.notes, cfg)
      && ops[t] == TitleText(pl.notes, cfg)
      && (DrawsDate(edition, cfg) ==> ops[t + 1] == DateText(pl.notes, cfg))
      && (forall k :: 0 <= k < |ops| && ops[k].Text? ==> k == t || (DrawsDate(edition, cfg) && k == t + 1))
  {
    var pl := Place(Width(src), Height(src), cfg.position);
    var header := Header(edition, pl, pageNumber, cfg);
    var pattern := PatternOps(edition, cfg.style, pl.notes, cfg.patternColour, cfg.spacing);
    var ops := PageOps(edition, src, pageNumber, cfg);
    forall k | 0 <= k < |ops| && ops[k].Text?
      ensures k == |header| - 1 || (DrawsDate(edition, cfg) && k == |header| - 2)
    {
      if |header| <= k < |header| + |pattern| {
        assert ops[k] == pattern[k - |header|];
        PatternPrimitives(edition, cfg.style, pl.notes, cfg.patternColour, cfg.spacing, ops[k]);
      }
    }
  }

  /** A primitive lies in the closed rectangle r (for a dot: its centre). */
  predicate Within(q: Primitive, r: Rect) {
    match q
    case ShowPage(target, _) => target == r
    case Line(from, to, _, _) => InClosed(from, r) && InClosed(to, r)
    case Rectangle(area, _, _, _) => r.x0 <= area.x0 && area.x1 <= r.x1 && r.y0 <= area.y0 && area.y1 <= r.y1
    case Circle(centre, _, _, _) => InClosed(centre, r)
    case Text(anchor, _, _, _, _) => InClosed(anchor, r)
  }

  /** Python's `int()` of a non-negative value is within one below it. */
  lemma TruncBelow(v: real)
    requires v >= 0.0
    ensures v - 1.0 < Trunc(v) as real <= v
  {
  }

  /** A dot's whole disc lies in the closed rectangle r. */
  predicate DiscWithin(q: Primitive, r: Rect)
    requires q.Circle?
  {
    r.x0 <= q.centre.x - q.radius && q.centre.x + q.radius <= r.x1
    && r.y0 <= q.centre.y - q.radius && q.centre.y + q.radius <= r.y1
  }

  /**
   * With a spacing of at least 1 and a panel at least one spacing wide and
   * high, in the page's non-negative quadrant, every pattern primitive stays in
   * the panel; from a spacing of 2 on, a dot's whole disc does.
   */
  lemma PatternWithinNotes(edition: Edition, style: Style, notes: Rect, colour: Rgb, spacing: real, q: Primitive)
    requires spacing >= 1.0
    requires 0.0 <= notes.x0 && notes.x0 + spacing <= notes.x1
    requires 0.0 <= notes.y0 && notes.y0 + spacing <= notes.y1
    requires q in PatternOps(edition, style, notes, colour, spacing)
    ensures Within(q, notes)
    ensures q.Circle? && spacing >= 2.0 ==> DiscWithin(q, notes)
  {
    match style
    case Grid => GridInside(notes, colour, spacing, q);
    case Lined =>
      var p := LinedPattern(notes, colour, spacing);
      LinedMargins(notes, colour, spacing);
      var k :| 0 <= k < |p| && p[k] == q;
      assert k as real * spacing >= 0.0;
    case Dotted =>
      DotsInFrame(edition, notes, colour, spacing, q);
      TruncBelow(notes.x0 + spacing);
      TruncBelow(notes.x1 - spacing);
      TruncBelow(notes.y0 + spacing * 3.0);
      TruncBelow(notes.y1 - spacing);
  }

  /**
   * Everything drawn for the notes panel (fill and pattern) stays inside the
   * panel and so never strictly inside the half showing the source page; from
   * a spacing of 2 on, so does every dot's whole disc.
   */
  lemma NotesStayInPanel(edition: Edition, src: Rect, pageNumber: nat, cfg: Config, k: nat)
    requires cfg.spacing >= 1.0 && Width(src) >= cfg.spacing && Height(src) >= cfg.spacing
    requires var ops := PageOps(edition, src, pageNumber, cfg);
      k < |ops| && (ops[k].Line? || ops[k].Rectangle? || ops[k].Circle?)
    ensures var pl := Place(Width(src), Height(src), cfg.position);
      var ops := PageOps(edition, src, pageNumber, cfg);
      && (ops[k] != Separator(pl) ==> Within(ops[k], pl.notes))
      && (ops[k].Circle? && cfg.spacing >= 2.0 ==> DiscWithin(ops[k], pl.notes))
  {
    var pl := Place(Width(src), Height(src), cfg.position);
    var header := Header(edition, pl, pageNumber, cfg);
    var pattern := PatternOps(edition, cfg.style, pl.notes, cfg.patternColour, cfg.spacing);
    var ops := PageOps(edition, src, pageNumber, cfg);
    if |header| <= k < |header| + |pattern| {
      assert ops[k] == pattern[k - |header|];
      PatternWithinNotes(edition, cfg.style, pl.notes, cfg.patternColour, cfg.spacing, ops[k]);
    }
  }

  /**
   * A US Letter page with a lined panel on the right: the sheet is 1224 x 792,
   * the panel is the right half, and the first ruled line runs at y = 60 from
   * x = 632 to x = 1204, right after the title (and date label).
   */
  lemma LetterLinedOnTheRight(edition: Edition, cfg: Config)
    requires cfg.position == Right && cfg.style == Lined && cfg.spacing == 20.0
    ensures var sheet := ComposedSheet(edition, Rect(0.0, 0.0, 612.0, 792.0), 0, cfg);
      var first := if DrawsDate(edition, cfg) then 4 else 3;
      && sheet.width == 1224.0 && sheet.height == 792.0
      && sheet.ops[0] == ShowPage(Rect(0.0, 0.0, 612.0, 792.0), 0)
      && sheet.ops[1] == PanelFill(Rect(612.0, 0.0, 1224.0, 792.0), cfg)
      && sheet.ops[first] == Line(Point(632.0, 60.0), Point(1204.0, 60.0), cfg.patternColour, 1.0)
      && sheet.ops[|sheet.ops| - 1] == Line(Point(612.0, 0.0), Point(612.0, 792.0), Black, 1.0)
  {
    var src := Rect(0.0, 0.0, 612.0, 792.0);
    var pl := Place(612.0, 792.0, Right);
    var notes := Rect(612.0, 0.0, 1224.0, 792.0);
    assert pl.notes == notes && pl.content == src;
    var p := LinedPattern(notes, cfg.patternColour, 20.0);
    var header := Header(edition, pl, 0, cfg);
    var ops := header + p + [Separator(pl)];
    assert PageOps(edition, src, 0, cfg) == ops;
    LoopLineBound(notes, 20.0, 0);
    assert |p| > 0;
    assert p[0] == RuledLine(notes, cfg.patternColour, 20.0, 0);
    assert |header| == if DrawsDate(edition, cfg) then 4 else 3;
    assert ops[|header|] == p[0];
    assert header[0] == ShowPage(src, 0) && header[1] == PanelFill(notes, cfg);
  }

  /**
   * A Letter-height panel with spacing 20 gets 37 ruled lines, at y = 60, 80,
   * ..., 780: 36 above the bottom margin at 772 and a last one at 780, which
   * is still above 792 - 10.
   */
  lemma LetterPanelLineCount(notes: Rect, colour: Rgb)
    requires notes.y0 == 0.0 && notes.y1 == 792.0
    ensures var p := LinedPattern(notes, colour, 20.0);
      |p| == 37 && p[36] == Line(Point(notes.x0 + 20.0, 780.0), Point(notes.x1 - 20.0, 780.0), colour, 1.0)
  {
    assert LoopLineCount(notes, 20.0) == 36 by {
      assert (772.0 - 60.0) / 20.0 == 35.6;
      assert (35.6).Floor == 35;
    }
    assert LineY(notes, 20.0, 36) == 780.0;
  }

  /** A blank panel on top without the date: the sheet is 612 x 1584 and holds only the page, separator, fill and title. */
  lemma LetterBlankOnTopWithoutDate(cfg: Config)
    requires cfg.position == Top && cfg.style == Blank && !cfg.includeDate
    ensures ComposedSheet(ProcessorModule, Rect(0.0, 0.0, 612.0, 792.0), 0, cfg)
         == Sheet(612.0, 1584.0, [
              ShowPage(Rect(0.0, 792.0, 612.0, 1584.0), 0),
              Line(Point(0.0, 792.0), Point(612.0, 792.0), Black, 1.0),
              Rectangle(Rect(0.0, 0.0, 612.0, 792.0), cfg.background, Some(cfg.background), 1.0),
              Text(Point(20.0, 35.0), cfg.title, 15.0, cfg.textColour, cfg.font)])
  {
  }

  /** In Courier the date label of a right-hand panel on a Letter page starts at x = 1224 - 236 = 988. */
  lemma CourierDateOnTheRight(edition: Edition, cfg: Config)
    requires cfg.position == Right && cfg.font == "Courier" && PatternTerminates(cfg.style, cfg.spacing) && DrawsDate(edition, cfg)
    ensures PageOps(edition, Rect(0.0, 0.0, 612.0, 792.0), 0, cfg)[3]
         == Text(Point(988.0, 35.0), DateLabel, 15.0, cfg.textColour, "Courier")
  {
  }

  /**
   * processor.py on a Letter page whose /Rotate is 90: the normaliser swaps
   * its box to 792 x 612, so the composed sheet with a right-hand panel is
   * 1584 x 612.
   */
  lemma RotatedUploadComposedLandscape(cfg: Config)
    requires cfg.position == Right && PatternTerminates(cfg.style, cfg.spacing)
    ensures var upload := [PageDict(Box(0.0, 0.0, 612.0, 792.0), None, Some(90))];
      var sheet := ComposedSheet(ProcessorModule, PageRect(Normalize(upload)[0]), 0, cfg);
      sheet.width == 1584.0 && sheet.height == 612.0
  {
    RotatedPageSwapped(612.0, 792.0, 90);
  }
}
