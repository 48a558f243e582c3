/** The icon transparency script (`scripts/check_transparency.py`). For each
 *  ".png" name it opens the image and, when the mode can carry alpha, looks
 *  at the four corner pixels and, failing that, at the alpha band's
 *  extrema. PIL's decoding is an input: an image is its size, mode, info
 *  keys, the pixels `getpixel` can return and the per-band extrema; the
 *  printed messages become a `Verdict` per file. */
module CheckTransparency {
  import opened Wrappers
  import opened Text

  /** What `img.getpixel` returns: a plain int for single-band modes such
   *  as "P" and "L", a tuple for the others. */
  datatype Pixel = Scalar(v: int) | Tuple(bands: seq<int>)

  /** The "transparency" entry PIL puts in `img.info` for a palette image:
   *  the one fully transparent palette index when the tRNS chunk has a
   *  single entry, otherwise one alpha value per palette index, in index
   *  order (indices past the end are opaque). */
  datatype Transparency = TIndex(index: int) | TAlphas(alphas: seq<int>)

  /** A decoded image. `getpixel` raises for a point not in `pixels`;
   *  `info` holds the "transparency" entry of `img.info`, if any; `extrema` has
   *  one (min, max) pair per band (Python returns a bare pair, of length 2,
   *  for a single-band image, which the tests below treat the same way). */
  datatype Image = Image(
    width: int, height: int, mode: string, info: map<string, Transparency>,
    pixels: map<(int, int), Pixel>, extrema: seq<(int, int)>)

  /** The outcome for one ".png" file, as its messages report it. */
  datatype Verdict =
    | NoAlphaSupport       // "Image mode does not support transparency …"
    | CornerTransparent    // at least one corner "is transparent"
    | SomeTransparency     // "Image has some transparency."
    | FullyOpaque          // "Image has NO transparency …"
    | Undecided            // alpha-capable, no corner flagged, at most 3 bands
    | Failed               // "Failed to check …": an exception was raised

  /** `img.mode in ('RGBA', 'LA') or (img.mode == 'P' and 'transparency' in img.info)`. */
  predicate AlphaCapable(img: Image)
  {
    img.mode in {"RGBA", "LA"} || (img.mode == "P" && "transparency" in img.info)
  }

  /** The corners, in the order the script visits them. */
  function Corners(img: Image): (r: seq<(int, int)>)
    ensures |r| == 4
    ensures r[0] == (0, 0) && r[1] == (0, img.height - 1)
    ensures r[2] == (img.width - 1, 0) && r[3] == (img.width - 1, img.height - 1)
  {
    [(0, 0), (0, img.height - 1), (img.width - 1, 0), (img.width - 1, img.height - 1)]
  }

  /** One corner test, `None` when it raises. As written it is
   *  `len(pixel) == 4 and pixel[3] == 0`, and `len` of an int raises; with
   *  `fixed`, a palette index is transparent when the image's
   *  "transparency" entry makes it fully transparent. */
  function CornerFlag(img: Image, pt: (int, int), fixed: bool): (r: Option<bool>)
    ensures r.None? <==> pt !in img.pixels || (img.pixels[pt].Scalar? && !fixed)
  {
    if pt !in img.pixels then None
    else match img.pixels[pt]
      case Tuple(b) => Some(|b| == 4 && b[3] == 0)
      case Scalar(v) => if fixed then Some("transparency" in img.info && ClearIndex(img.info["transparency"], v)) else None
  }

  /** Palette index `v` is fully transparent under the "transparency" entry:
   *  it is the single index, or its alpha value is 0. */
  predicate ClearIndex(t: Transparency, v: int)
  {
    match t
    case TIndex(i) => v == i
    case TAlphas(a) => 0 <= v < |a| && a[v] == 0
  }

  /** The corner loop: it goes on after a flagged corner, so it raises if any
   *  corner does, and otherwise says whether any corner was flagged. */
  function Scan(img: Image, pts: seq<(int, int)>, fixed: bool): (r: Option<bool>)
    ensures r.None? <==> exists i :: 0 <= i < |pts| && CornerFlag(img, pts[i], fixed).None?
    ensures r == Some(true) <==>
      (forall i :: 0 <= i < |pts| ==> CornerFlag(img, pts[i], fixed).Some?)
      && exists i :: 0 <= i < |pts| && CornerFlag(img, pts[i], fixed) == Some(true)
  {
    if pts == [] then Some(false)
    else
      var here := CornerFlag(img, pts[0], fixed);
      var rest := Scan(img, pts[1..], fixed);
      if here.None? || rest.None? then None
      else Some(here.value || rest.value)
  }

  /** The alpha fallback: only with more than three bands, reading the
   *  minimum of the fourth. */
  function Fallback(img: Image): Verdict
  {
    if |img.extrema| > 3 then
      if img.extrema[3].0 < 255 then SomeTransparency else FullyOpaque
    else Undecided
  }

  /** The body of the loop for one ".png" file; `None` stands for an image
   *  that `Image.open` could not decode. */
  function Check(decoded: Option<Image>, fixed: bool): Verdict
  {
    if decoded.None? then Failed
    else
      var img := decoded.value;
      if !AlphaCapable(img) then NoAlphaSupport
      else
        var scan := Scan(img, Corners(img), fixed);
        if scan.None? then Failed
        else if scan.value then CornerTransparent
        else Fallback(img)
  }

  /** The corner loop of the script, with its `is_transparent` flag. */
  method ScanCorners(img: Image, fixed: bool) returns (r: Option<bool>)
    ensures r == Scan(img, Corners(img), fixed)
  {
    var corners := Corners(img);
    var isTransparent := false;
    var i := 0;
    while i < 4
      invariant 0 <= i <= 4
      invariant Scan(img, corners, fixed) ==
        (var rest := Scan(img, corners[i..], fixed);
         if rest.None? then None else Some(isTransparent || rest.value))
    {
      var flag := CornerFlag(img, corners[i], fixed);
      if flag.None? {
        return None;
      }
      if flag.value {
        isTransparent := true;
      }
      i := i + 1;
    }
    r := Some(isTransparent);
  }

  /** A file of the listing: its name and, if it decodes, the image. */
  datatype File = File(name: string, image: Option<Image>)

  /** The verdicts of the whole scan, for the ".png" names in listing order. */
  function Report(files: seq<File>, fixed: bool): seq<(string, Verdict)>
  {
    if files == [] then []
    else
      var last := files[|files| - 1];
      Report(files[..|files| - 1], fixed)
      + (if EndsWith(last.name, ".png") then [(last.name, Check(last.image, fixed))] else [])
  }

  /** `check_transparency()`: nothing when the directory is missing,
   *  otherwise one verdict per ".png" file; an exception only ends the
   *  file it was raised in. */
  method CheckAll(dirExists: bool, files: seq<File>, fixed: bool) returns (report: seq<(string, Verdict)>)
    ensures !dirExists ==> report == []
    ensures dirExists ==> report == Report(files, fixed)
  {
    report := [];
    if !dirExists {
      return;
    }
    var i := 0;
    while i < |files|
      invariant 0 <= i <= |files|
      invariant report == Report(files[..i], fixed)
    {
      var f := files[i];
      if EndsWith(f.name, ".png") {
        var v: Verdict;
        if f.image.None? {
          v := Failed;
        } else if !AlphaCapable(f.image.value) {
          v := NoAlphaSupport;
        } else {
          var scan := ScanCorners(f.image.value, fixed);
          v := if scan.None? then Failed else if scan.value then CornerTransparent else Fallback(f.image.value);
        }
        report := report + [(f.name, v)];
      }
      assert files[..i + 1][..i] == files[..i];
      i := i + 1;
    }
    assert files[..i] == files;
  }

  // ---------------------------------------------------------------------------
  // Properties

  /** Every pixel of the image has the shape its mode gives it. */
  predicate PixelsFitMode(img: Image, bands: nat)
  {
    forall pt :: pt in img.pixels ==>
      if bands == 1 then img.pixels[pt].Scalar?
      else img.pixels[pt].Tuple? && |img.pixels[pt].bands| == bands
  }

  /** An "LA" image has two-band pixels, so no corner is ever flagged; with
   *  its two bands the fallback does not run either. */
  lemma LANeverFlagged(img: Image, fixed: bool)
    requires img.mode == "LA" && PixelsFitMode(img, 2) && |img.extrema| == 2
    ensures Check(Some(img), fixed) in {Undecided, Failed}
  {
  }

  /** An "RGBA" image whose corners are all in range is flagged exactly
   *  when one of them has alpha 0; otherwise the alpha minimum decides. */
  lemma RGBACorners(img: Image, fixed: bool)
    requires img.mode == "RGBA" && PixelsFitMode(img, 4) && |img.extrema| == 4
    requires forall i :: 0 <= i < 4 ==> Corners(img)[i] in img.pixels
    ensures Check(Some(img), fixed) == CornerTransparent <==>
      exists i :: 0 <= i < 4 && img.pixels[Corners(img)[i]].bands[3] == 0
    ensures Check(Some(img), fixed) != CornerTransparent ==>
      Check(Some(img), fixed) == (if img.extrema[3].0 < 255 then SomeTransparency else FullyOpaque)
  {
    var cs := Corners(img);
    assert forall i :: 0 <= i < 4 ==> CornerFlag(img, cs[i], fixed).Some?;
    if exists i :: 0 <= i < 4 && img.pixels[cs[i]].bands[3] == 0 {
      var i :| 0 <= i < 4 && img.pixels[cs[i]].bands[3] == 0;
      assert CornerFlag(img, cs[i], fixed) == Some(true);
    }
  }

  /** As written, a palette image with a transparency entry always ends in
   *  the failure branch: its first corner is an int, and `len` of an int
   *  raises. */
  lemma PaletteFails(img: Image)
    requires img.mode == "P" && "transparency" in img.info && PixelsFitMode(img, 1)
    ensures Check(Some(img), false) == Failed
  {
    assert CornerFlag(img, Corners(img)[0], false).None?;
  }

  /** With the palette test, a palette image whose corners are in range is
   *  always judged, flagged exactly when a corner holds a fully transparent
   *  index: the single "transparency" index, or an index whose alpha value
   *  is 0; without a flagged corner the fallback decides. */
  lemma FixedPaletteJudged(img: Image)
    requires img.mode == "P" && "transparency" in img.info && PixelsFitMode(img, 1)
    requires forall i :: 0 <= i < 4 ==> Corners(img)[i] in img.pixels
    ensures Check(Some(img), true) != Failed
    ensures Check(Some(img), true) == CornerTransparent <==>
      exists i :: 0 <= i < 4 && ClearIndex(img.info["transparency"], img.pixels[Corners(img)[i]].v)
    ensures Check(Some(img), true) != CornerTransparent ==> Check(Some(img), true) == Fallback(img)
  {
    var cs := Corners(img);
    assert forall i :: 0 <= i < 4 ==> CornerFlag(img, cs[i], true).Some?;
    if exists i :: 0 <= i < 4 && ClearIndex(img.info["transparency"], img.pixels[cs[i]].v) {
      var i :| 0 <= i < 4 && ClearIndex(img.info["transparency"], img.pixels[cs[i]].v);
      assert CornerFlag(img, cs[i], true) == Some(true);
    }
  }

  /** Both forms of the "transparency" entry: a single index, and an alpha
   *  table where index 1 is clear and index 0 is not. A corner outside the
   *  alpha table counts as opaque. */
  lemma ClearIndexForms()
    ensures ClearIndex(TIndex(5), 5) && !ClearIndex(TIndex(5), 4)
    ensures ClearIndex(TAlphas([255, 0]), 1) && !ClearIndex(TAlphas([255, 0]), 0)
    ensures !ClearIndex(TAlphas([255, 0]), 2)
  {
  }

  /** The palette test changes nothing where the script as written already
   *  reaches a verdict. */
  lemma FixedAgrees(decoded: Option<Image>)
    requires Check(decoded, false) != Failed
    ensures Check(decoded, true) == Check(decoded, false)
  {
    if decoded.Some? && AlphaCapable(decoded.value) {
      var img := decoded.value;
      var cs := Corners(img);
      assert forall i :: 0 <= i < 4 ==> CornerFlag(img, cs[i], true) == CornerFlag(img, cs[i], false);
    }
  }

  /** A file that raises ends only its own entry: the report of a listing
   *  is the reports of its parts, in order. */
  lemma {:induction false} ReportAppend(a: seq<File>, b: seq<File>, fixed: bool)
    ensures Report(a + b, fixed) == Report(a, fixed) + Report(b, fixed)
    decreases |b|
  {
    if b == [] {
      assert a + b == a;
    } else {
      var init := b[..|b| - 1];
      assert (a + b)[..|a + b| - 1] == a + init;
      assert (a + b)[|a + b| - 1] == b[|b| - 1];
      ReportAppend(a, init, fixed);
    }
  }
}
