/**
 * The drawing vocabulary shared by both editions of the notes-panel composer:
 * points, rectangles and colours as exact reals, the primitives a PyMuPDF
 * page records, and the page itself as an object whose draw calls append one
 * primitive each.
 */
module Geometry {

  /** A point of page space (PDF points, y growing downwards as in PyMuPDF). */
  datatype Point = Point(x: real, y: real)

  /** A PyMuPDF rectangle: top-left corner (x0, y0), bottom-right corner (x1, y1). */
  datatype Rect = Rect(x0: real, y0: real, x1: real, y1: real)

  function Width(r: Rect): real { r.x1 - r.x0 }

  function Height(r: Rect): real { r.y1 - r.y0 }

  /** An RGB colour, each channel a fraction (in [0,1] for every colour the UI produces). */
  datatype Rgb = Rgb(r: real, g: real, b: real)

  const Black := Rgb(0.0, 0.0, 0.0)

  /** What one drawing call leaves on a page. */
  datatype Primitive =
    | ShowPage(target: Rect, pageNumber: nat)
    | Line(from: Point, to: Point, stroke: Rgb, lineWidth: real)
    | Rectangle(area: Rect, stroke: Rgb, fill: Option<Rgb>, lineWidth: real)
    | Circle(centre: Point, radius: real, stroke: Rgb, fill: Option<Rgb>)
    | Text(anchor: Point, text: string, fontSize: real, colour: Rgb, font: string)

  datatype Option<T> = None | Some(value: T)

  /** A page of the output document: its size and the primitives drawn on it so far. */
  class Canvas {
    const width: real
    const height: real
    var ops: seq<Primitive>

    /** `new_pdf.new_page(width=..., height=...)`: an empty page of the given size. */
    constructor (width: real, height: real)
      ensures this.width == width && this.height == height
      ensures ops == []
    {
      this.width := width;
      this.height := height;
      ops := [];
    }

    /** `show_pdf_page(target, doc, pageNumber)`: place a copy of a source page. */
    method ShowPdfPage(target: Rect, pageNumber: nat)
      modifies this`ops
      ensures ops == old(ops) + [ShowPage(target, pageNumber)]
    {
      ops := ops + [ShowPage(target, pageNumber)];
    }

    /** `draw_line(p, q, color=stroke, width=lineWidth)`. */
    method DrawLine(from: Point, to: Point, stroke: Rgb, lineWidth: real)
      modifies this`ops
      ensures ops == old(ops) + [Line(from, to, stroke, lineWidth)]
    {
      ops := ops + [Line(from, to, stroke, lineWidth)];
    }

    /** `draw_rect(area, color=stroke, fill=fill, width=lineWidth)`. */
    method DrawRect(area: Rect, stroke: Rgb, fill: Option<Rgb>, lineWidth: real)
      modifies this`ops
      ensures ops == old(ops) + [Rectangle(area, stroke, fill, lineWidth)]
    {
      ops := ops + [Rectangle(area, stroke, fill, lineWidth)];
    }

    /** `draw_circle(centre, radius, color=stroke, fill=fill)`. */
    method DrawCircle(centre: Point, radius: real, stroke: Rgb, fill: Option<Rgb>)
      modifies this`ops
      ensures ops == old(ops) + [Circle(centre, radius, stroke, fill)]
    {
      ops := ops + [Circle(centre, radius, stroke, fill)];
    }

    /** `insert_text(anchor, text, fontsize=..., color=..., fontname=...)`. */
    method InsertText(anchor: Point, text: string, fontSize: real, colour: Rgb, font: string)
      modifies this`ops
      ensures ops == old(ops) + [Text(anchor, text, fontSize, colour, font)]
    {
      ops := ops + [Text(anchor, text, fontSize, colour, font)];
    }
  }
}
