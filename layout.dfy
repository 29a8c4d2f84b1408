/**
 * Where `process_pdf` puts the source page and the notes panel: the output
 * page is the source page doubled along one axis, one half showing the page,
 * the other half holding the notes, with a black separator on the shared edge.
 */
module Layout {
  import opened Geometry

  /** The side of the source page on which the notes panel sits. */
  datatype Position = Right | Left | Top | Bottom

  predicate SideBySide(position: Position) {
    position == Right || position == Left
  }

  /** The size of the new page, the target of `show_pdf_page`, the notes rectangle and the separator. */
  datatype Placement = Placement(
    pageWidth: real, pageHeight: real,
    content: Rect, notes: Rect,
    separatorFrom: Point, separatorTo: Point)

  /** The `if position == ...` chain of `process_pdf` for a source page of size width x height. */
  function Place(width: real, height: real, position: Position): Placement {
    match position
    case Right =>
      Placement(width * 2.0, height, Rect(0.0, 0.0, width, height), Rect(width, 0.0, width * 2.0, height),
                Point(width, 0.0), Point(width, height))
    case Left =>
      Placement(width * 2.0, height, Rect(width, 0.0, width * 2.0, height), Rect(0.0, 0.0, width, height),
                Point(width, 0.0), Point(width, height))
    case Top =>
      Placement(width, height * 2.0, Rect(0.0, height, width, height * 2.0), Rect(0.0, 0.0, width, height),
                Point(0.0, height), Point(width, height))
    case Bottom =>
      Placement(width, height * 2.0, Rect(0.0, 0.0, width, height), Rect(0.0, height, width, height * 2.0),
                Point(0.0, height), Point(width, height))
  }

  /** A point of the closed rectangle r. */
  predicate InClosed(p: Point, r: Rect) {
    r.x0 <= p.x <= r.x1 && r.y0 <= p.y <= r.y1
  }

  /** A point of the open rectangle r. */
  predicate InOpen(p: Point, r: Rect) {
    r.x0 < p.x < r.x1 && r.y0 < p.y < r.y1
  }

  /**
   * Both halves have the source page's size, the new page is twice the source
   * page's area, the page is doubled along x exactly for Right and Left, and
   * the content half and the notes half are the two halves of the new page.
   */
  lemma PlaceHalves(width: real, height: real, position: Position)
    ensures var pl := Place(width, height, position);
      && Width(pl.content) == width && Height(pl.content) == height
      && Width(pl.notes) == width && Height(pl.notes) == height
      && pl.pageWidth * pl.pageHeight == 2.0 * width * height
      && (SideBySide(position) ==> pl.pageWidth == 2.0 * width && pl.pageHeight == height)
      && (!SideBySide(position) ==> pl.pageWidth == width && pl.pageHeight == 2.0 * height)
      && var first := Rect(0.0, 0.0, width, height);
         var second := if SideBySide(position) then Rect(width, 0.0, 2.0 * width, height)
                       else Rect(0.0, height, width, 2.0 * height);
         (pl.content, pl.notes) in {(first, second), (second, first)}
  {
    match position
    case Right =>
    case Left =>
    case Top =>
    case Bottom =>
  }

  /**
   * For a page of positive size, no point is strictly inside both halves, and
   * every point of the new page belongs to one half or the other.
   */
  lemma PlaceTiles(width: real, height: real, position: Position, p: Point)
    requires width > 0.0 && height > 0.0
    ensures var pl := Place(width, height, position);
      && !(InOpen(p, pl.content) && InOpen(p, pl.notes))
      && (InClosed(p, Rect(0.0, 0.0, pl.pageWidth, pl.pageHeight)) <==> InClosed(p, pl.content) || InClosed(p, pl.notes))
  {
  }

  /**
   * The separator runs along the whole edge the two halves share: every point
   * of it lies on both halves.
   */
  lemma SeparatorOnSharedEdge(width: real, height: real, position: Position, along: real)
    requires width > 0.0 && height > 0.0
    ensures var pl := Place(width, height, position);
      && (SideBySide(position) ==>
            && pl.separatorFrom == Point(width, 0.0) && pl.separatorTo == Point(width, height)
            && (0.0 <= along <= height ==> InClosed(Point(width, along), pl.content) && InClosed(Point(width, along), pl.notes)))
      && (!SideBySide(position) ==>
            && pl.separatorFrom == Point(0.0, height) && pl.separatorTo == Point(width, height)
            && (0.0 <= along <= width ==> InClosed(Point(along, height), pl.content) && InClosed(Point(along, height), pl.notes)))
  {
  }
}
