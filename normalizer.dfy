/**
 * The page-geometry normaliser of processor.py. A page is reduced to the
 * three entries the normaliser reads and writes: /MediaBox, /CropBox (which
 * may be absent) and /Rotate (which may be absent). A document is the
 * sequence of its pages. The two passes, box repair and rotation bake-in,
 * are loops over pages, each proved to compute a pure function of its inputs.
 */
module Normalizer {
  import opened Geometry

  /** A PDF box `[llx lly urx ury]`, read as floats by `to_box_tuple`. */
  datatype Box = Box(llx: real, lly: real, urx: real, ury: real)

  /** pypdf's `RectangleObject.width` and `.height`. */
  function BoxWidth(b: Box): real { b.urx - b.llx }

  function BoxHeight(b: Box): real { b.ury - b.lly }

  /** The page-dictionary entries the normaliser touches. */
  datatype PageDict = PageDict(mediaBox: Box, cropBox: Option<Box>, rotate: Option<int>)

  /** pypdf's `page.cropbox`: the /CropBox entry, or the media box when there is none. */
  function EffectiveCropBox(p: PageDict): Box {
    match p.cropBox
    case Some(c) => c
    case None => p.mediaBox
  }

  /** `page.get('/Rotate', 0)`. */
  function RotateOrZero(p: PageDict): int {
    match p.rotate
    case Some(r) => r
    case None => 0
  }

  /** `is_metadata_problematic`: the boxes differ, or /Rotate is present and non-zero. */
  predicate IsMetadataProblematic(p: PageDict) {
    p.mediaBox != EffectiveCropBox(p) || RotateOrZero(p) != 0
  }

  /** A page is flagged exactly for a crop mismatch or a rotation; a missing /Rotate counts as 0. */
  lemma ProblematicCases(p: PageDict)
    ensures IsMetadataProblematic(p)
      <==> (p.cropBox.Some? && p.cropBox.value != p.mediaBox) || (p.rotate.Some? && p.rotate.value != 0)
  {
  }

  /**
   * One iteration of `fix_metadata_with_pikepdf`: /Rotate is deleted; a
   * /CropBox that differs from /MediaBox becomes the media box and is deleted.
   */
  function RepairPage(p: PageDict): (r: PageDict)
    ensures r.rotate == None
    ensures !IsMetadataProblematic(r)
    ensures p.cropBox.Some? && p.cropBox.value != p.mediaBox ==> r.mediaBox == p.cropBox.value && r.cropBox == None
    ensures !(p.cropBox.Some? && p.cropBox.value != p.mediaBox) ==> r.mediaBox == p.mediaBox && r.cropBox == p.cropBox
  {
    var withoutRotate := p.(rotate := None);
    if withoutRotate.cropBox.Some? && withoutRotate.cropBox.value != withoutRotate.mediaBox then
      withoutRotate.(mediaBox := withoutRotate.cropBox.value, cropBox := None)
    else withoutRotate
  }

  /** The repaired document: one repaired page per page, in order. */
  function RepairAll(pages: seq<PageDict>): (r: seq<PageDict>)
    ensures |r| == |pages|
  {
    seq(|pages|, i requires 0 <= i < |pages| => RepairPage(pages[i]))
  }

  /** `fix_metadata_with_pikepdf`: repair every page and append it to the new document. */
  method FixMetadata(pages: seq<PageDict>) returns (out: seq<PageDict>)
    ensures |out| == |pages|
    ensures forall i :: 0 <= i < |out| ==> out[i] == RepairPage(pages[i])
    ensures forall i :: 0 <= i < |out| ==> !IsMetadataProblematic(out[i]) && out[i].rotate == None
  {
    out := [];
    for k := 0 to |pages|
      invariant |out| == k
      invariant forall i :: 0 <= i < k ==> out[i] == RepairPage(pages[i])
    {
      var page := pages[k];
      if page.rotate.Some? {
        page := page.(rotate := None);
      }
      if page.cropBox.Some? && page.cropBox.value != page.mediaBox {
        page := page.(mediaBox := page.cropBox.value);
        page := page.(cropBox := None);
      }
      out := out + [page];
    }
  }

  /**
   * One iteration of `apply_rotation_if_needed`: when the ORIGINAL page is
   * flagged, the repaired page's media and crop boxes get their upper-right
   * corner set to (height, width) of the repaired media box; otherwise the
   * repaired page is kept. pypdf reads a missing /CropBox as a copy of the
   * (already updated) media box and stores it. The closing `p.rotate = 0`
   * rebinds pypdf's `rotate` method on the page object (the /Rotate entry is
   * behind the `rotation` property), so the page's /Rotate stays as it was.
   */
  function BakePage(orig: PageDict, repaired: PageDict): (r: PageDict)
    ensures r.rotate == repaired.rotate
    ensures !IsMetadataProblematic(orig) ==> r == repaired
    ensures IsMetadataProblematic(orig) ==>
      && r.mediaBox.llx == repaired.mediaBox.llx && r.mediaBox.lly == repaired.mediaBox.lly
      && r.mediaBox.urx == BoxHeight(repaired.mediaBox) && r.mediaBox.ury == BoxWidth(repaired.mediaBox)
      && r.cropBox.Some? && r.cropBox.value.urx == r.mediaBox.urx && r.cropBox.value.ury == r.mediaBox.ury
  {
    if IsMetadataProblematic(orig) then
      var width := BoxWidth(repaired.mediaBox);
      var height := BoxHeight(repaired.mediaBox);
      var media := repaired.mediaBox.(urx := height, ury := width);
      var crop := EffectiveCropBox(repaired.(mediaBox := media));
      repaired.(mediaBox := media, cropBox := Some(crop.(urx := height, ury := width)))
    else repaired
  }

  function Min(a: nat, b: nat): nat { if a <= b then a else b }

  /** `zip(orig_reader.pages, reader.pages)` baked page by page; zip stops at the shorter document. */
  function BakeAll(orig: seq<PageDict>, repaired: seq<PageDict>): (r: seq<PageDict>)
    ensures |r| == Min(|orig|, |repaired|)
  {
    seq(Min(|orig|, |repaired|), i requires 0 <= i < Min(|orig|, |repaired|) => BakePage(orig[i], repaired[i]))
  }

  /** `apply_rotation_if_needed(orig, norm)`: the bake-in loop over the zipped page pairs. */
  method ApplyRotationIfNeeded(orig: seq<PageDict>, norm: seq<PageDict>) returns (out: seq<PageDict>)
    ensures out == BakeAll(orig, norm)
  {
    out := [];
    var n := Min(|orig|, |norm|);
    for k := 0 to n
      invariant out == BakeAll(orig, norm)[..k]
    {
      var op, p := orig[k], norm[k];
      if IsMetadataProblematic(op) {
        var width := p.mediaBox.urx - p.mediaBox.llx;
        var height := p.mediaBox.ury - p.mediaBox.lly;
        p := p.(mediaBox := p.mediaBox.(urx := height, ury := width));
        var crop := if p.cropBox.Some? then p.cropBox.value else p.mediaBox;
        p := p.(cropBox := Some(crop.(urx := height, ury := width)));
        // `p.rotate = 0` sets an attribute of the page object, not /Rotate
      }
      out := out + [p];
    }
  }

  predicate AnyProblematic(pages: seq<PageDict>) {
    exists i :: 0 <= i < |pages| && IsMetadataProblematic(pages[i])
  }

  /** `normalize_and_fix_rotation`: the fast path copies the input; otherwise repair, then bake in. */
  function Normalize(pages: seq<PageDict>): (r: seq<PageDict>)
    ensures |r| == |pages|
  {
    if AnyProblematic(pages) then BakeAll(pages, RepairAll(pages)) else pages
  }

  /** `normalize_and_fix_rotation`, with the temporary files replaced by values. */
  method NormalizeAndFixRotation(pages: seq<PageDict>) returns (out: seq<PageDict>)
    ensures out == Normalize(pages)
  {
    var needsFix := exists i | 0 <= i < |pages| :: IsMetadataProblematic(pages[i]);
    if needsFix {
      var norm := FixMetadata(pages);
      assert norm == RepairAll(pages);
      out := ApplyRotationIfNeeded(pages, norm);
    } else {
      out := pages;
    }
  }

  /**
   * Baking on top of a consistent repaired page leaves it consistent, and a
   * repaired page (which has no /Rotate) still has none afterwards.
   */
  lemma BakedPageConsistent(orig: PageDict, repaired: PageDict)
    requires !IsMetadataProblematic(repaired)
    ensures !IsMetadataProblematic(BakePage(orig, repaired))
    ensures repaired.rotate == None ==> BakePage(orig, repaired).rotate == None
  {
  }

  /** Normalisation keeps the page count and order, and leaves no page flagged. */
  lemma NormalizeEstablishesConsistency(pages: seq<PageDict>)
    ensures |Normalize(pages)| == |pages|
    ensures forall i :: 0 <= i < |pages| ==> !IsMetadataProblematic(Normalize(pages)[i])
  {
    if AnyProblematic(pages) {
      var repaired := RepairAll(pages);
      forall i | 0 <= i < |pages|
        ensures !IsMetadataProblematic(Normalize(pages)[i])
      {
        BakedPageConsistent(pages[i], repaired[i]);
      }
    }
  }

  /** With no page flagged, the output is an exact copy of the input. */
  lemma FastPathCopies(pages: seq<PageDict>)
    requires forall i :: 0 <= i < |pages| ==> !IsMetadataProblematic(pages[i])
    ensures Normalize(pages) == pages
  {
  }

  /** Normalising twice changes nothing the second time: it takes the fast path. */
  lemma NormalizeIdempotent(pages: seq<PageDict>)
    ensures !AnyProblematic(Normalize(pages))
    ensures Normalize(Normalize(pages)) == Normalize(pages)
  {
    NormalizeEstablishesConsistency(pages);
  }

  /**
   * On the repair path, a page that was not flagged comes out as its repaired
   * self (only an explicit /Rotate 0 disappears), and a flagged page has both
   * boxes' upper-right corners set to (height, width) of its repaired media box
   * and no /Rotate entry.
   */
  lemma NormalizePageByPage(pages: seq<PageDict>, i: nat)
    requires AnyProblematic(pages) && i < |pages|
    ensures var r := RepairPage(pages[i]);
      var out := Normalize(pages)[i];
      && (!IsMetadataProblematic(pages[i]) ==> out == r && out.mediaBox == pages[i].mediaBox && out.cropBox == pages[i].cropBox)
      && (IsMetadataProblematic(pages[i]) ==>
            && out.mediaBox == Box(r.mediaBox.llx, r.mediaBox.lly, BoxHeight(r.mediaBox), BoxWidth(r.mediaBox))
            && out.cropBox == Some(out.mediaBox)
            && out.rotate == None)
  {
  }

  /** The bake-in swaps width and height only when the repaired media box starts at the origin. */
  lemma BakeSwapsAtOrigin(orig: PageDict, repaired: PageDict)
    requires IsMetadataProblematic(orig)
    ensures var m := BakePage(orig, repaired).mediaBox;
      && BoxWidth(m) == BoxHeight(repaired.mediaBox) - repaired.mediaBox.llx
      && BoxHeight(m) == BoxWidth(repaired.mediaBox) - repaired.mediaBox.lly
      && (repaired.mediaBox.llx == 0.0 && repaired.mediaBox.lly == 0.0 ==>
            BoxWidth(m) == BoxHeight(repaired.mediaBox) && BoxHeight(m) == BoxWidth(repaired.mediaBox))
  {
  }

  /** A 100 x 200 media box at (10, 10) on a rotated page comes out 190 x 90, not 200 x 100. */
  lemma BakeOffOriginIsNoSwap()
    ensures var orig := PageDict(Box(10.0, 10.0, 110.0, 210.0), None, Some(90));
      var m := Normalize([orig])[0].mediaBox;
      BoxWidth(m) == 190.0 && BoxHeight(m) == 90.0
  {
    var orig := PageDict(Box(10.0, 10.0, 110.0, 210.0), None, Some(90));
    assert AnyProblematic([orig]) by { assert IsMetadataProblematic([orig][0]); }
  }

  /**
   * A page whose crop box differs from its media box, whatever its /Rotate,
   * ends with the crop box as media box, width and height swapped when the
   * crop box starts at the origin, and no /Rotate entry.
   */
  lemma CroppedPageNormalized(media: Box, crop: Box, rotate: Option<int>)
    requires crop != media && crop.llx == 0.0 && crop.lly == 0.0
    ensures var swapped := Box(0.0, 0.0, BoxHeight(crop), BoxWidth(crop));
      Normalize([PageDict(media, Some(crop), rotate)]) == [PageDict(swapped, Some(swapped), None)]
  {
    var p := PageDict(media, Some(crop), rotate);
    assert AnyProblematic([p]) by { assert IsMetadataProblematic([p][0]); }
  }

  /**
   * A page with no crop box and any non-zero /Rotate, a half turn included,
   * gets the quarter-turn box swap and loses its /Rotate entry.
   */
  lemma RotatedPageSwapped(width: real, height: real, rotate: int)
    requires rotate != 0
    ensures Normalize([PageDict(Box(0.0, 0.0, width, height), None, Some(rotate))])
         == [PageDict(Box(0.0, 0.0, height, width), Some(Box(0.0, 0.0, height, width)), None)]
  {
    var p := PageDict(Box(0.0, 0.0, width, height), None, Some(rotate));
    assert AnyProblematic([p]) by { assert IsMetadataProblematic([p][0]); }
  }
}
