/** The PNG-to-SVG wrapper script (`scripts/fix_svg_background.py`). For each
 *  ".png" name in the icon directory it derives a base name, skips names
 *  containing "removebg", and writes "<base>.svg": an SVG of the image's
 *  size that embeds the file's bytes as a base64 data URI. The directory
 *  listing, PIL's decoding and the file reads and writes are inputs and
 *  outputs of the model: an entry carries the decoded size and the bytes,
 *  or nothing when opening or reading it raises. */
module FixSvg {
  import opened Wrappers
  import opened Text
  import Base64

  /** A file that opened as an image: its size and its raw bytes. */
  datatype Png = Png(width: nat, height: nat, bytes: seq<Base64.byte>)

  /** A directory entry; `image` is `None` when `Image.open` or the read
   *  raises. */
  datatype Entry = Entry(name: string, image: Option<Png>)

  /** What the loop does with one entry it does not skip. */
  datatype Action =
    | Wrote(path: string, svg: string)   // the SVG written, overwriting any old one
    | Failed(name: string)               // the exception reported, the loop going on

  const Suffix: string := ".png"

  /** `s.replace(pat, "")`: every occurrence, scanning left to right without
   *  overlaps, is removed. */
  function RemoveAll(s: string, pat: string): (r: string)
    requires pat != ""
    ensures |r| <= |s|
    decreases |s|
  {
    if StartsWith(s, pat) then RemoveAll(s[|pat|..], pat)
    else if s == "" then ""
    else [s[0]] + RemoveAll(s[1..], pat)
  }

  /** `base_name = filename.replace(".png", "")`. */
  function BaseName(filename: string): string
  {
    RemoveAll(filename, Suffix)
  }

  /** The entries the loop works on: ".png" names whose base name does not
   *  mention "removebg". */
  predicate Converts(name: string)
  {
    EndsWith(name, Suffix) && !Contains(BaseName(name), "removebg")
  }

  /** The SVG text around a payload, with the decoded width and height as
   *  the size, the view box and the embedded image's size. */
  function SvgOpen(w: nat, h: nat): string
  {
    var ws, hs := NatToString(w), NatToString(h);
    "<svg width=\"" + ws + "\" height=\"" + hs + "\" viewBox=\"0 0 " + ws + " " + hs
    + "\" fill=\"none\" xmlns=\"http://www.w3.org/2000/svg\">\n  <image width=\"" + ws
    + "\" height=\"" + hs + "\" href=\"data:image/png;base64,"
  }

  const SvgClose: string := "\" />\n</svg>"

  function Svg(p: Png): string
  {
    SvgOpen(p.width, p.height) + Base64.Encode(p.bytes) + SvgClose
  }

  /** The body of the loop for one entry: `None` when it is skipped. */
  function Convert(e: Entry): (r: Option<Action>)
    ensures r.None? <==> !Converts(e.name)
    ensures r.Some? && r.value.Wrote? ==> e.image.Some? && r.value.path == BaseName(e.name) + ".svg"
    ensures r.Some? && r.value.Failed? <==> Converts(e.name) && e.image.None?
  {
    if !Converts(e.name) then None
    else if e.image.None? then Some(Failed(e.name))
    else Some(Wrote(BaseName(e.name) + ".svg", Svg(e.image.value)))
  }

  /** What the whole scan does, entry by entry in listing order. */
  function Actions(entries: seq<Entry>): seq<Action>
  {
    if entries == [] then []
    else
      var last := Convert(entries[|entries| - 1]);
      Actions(entries[..|entries| - 1]) + (if last.Some? then [last.value] else [])
  }

  /** `convert_png_to_svg()`: nothing at all when the directory is missing,
   *  otherwise the loop over the listing. */
  method ConvertPngToSvg(dirExists: bool, entries: seq<Entry>) returns (actions: seq<Action>)
    ensures !dirExists ==> actions == []
    ensures dirExists ==> actions == Actions(entries)
  {
    actions := [];
    if !dirExists {
      return;
    }
    var i := 0;
    while i < |entries|
      invariant 0 <= i <= |entries|
      invariant actions == Actions(entries[..i])
    {
      var a := Convert(entries[i]);
      if a.Some? {
        actions := actions + [a.value];
      }
      assert entries[..i + 1][..i] == entries[..i];
      i := i + 1;
    }
    assert entries[..i] == entries;
  }

  // ---------------------------------------------------------------------------
  // Properties

  /** Text without a dot passes through unchanged: no occurrence of ".png"
   *  can start inside it. */
  lemma {:induction false} PlainPrefix(b: string, rest: string)
    requires '.' !in b
    ensures BaseName(b + rest) == b + BaseName(rest)
  {
    if b != "" {
      assert !StartsWith(b + rest, Suffix) by {
        assert (b + rest)[0] == b[0];
      }
      assert (b + rest)[1..] == b[1..] + rest;
      PlainPrefix(b[1..], rest);
    } else {
      assert b + rest == rest;
    }
  }

  /** An occurrence of ".png" is dropped wherever it stands. */
  lemma DropsOccurrence(rest: string)
    ensures BaseName(Suffix + rest) == BaseName(rest)
  {
    assert (Suffix + rest)[|Suffix|..] == rest;
  }

  /** Every ".png" is removed, not only the suffix: "icon.png.png" becomes
   *  "icon" and "a.pngb.png" becomes "ab"; a name with one ".png", at its
   *  end, loses just that. */
  lemma BaseNameRemovesEveryOccurrence(b1: string, b2: string)
    requires '.' !in b1 && '.' !in b2
    ensures BaseName(b1 + Suffix + b2 + Suffix) == b1 + b2
    ensures BaseName(b1 + Suffix) == b1
  {
    assert BaseName("") == "" by {
      assert !StartsWith("", Suffix);
    }
    DropsOccurrence("");
    assert Suffix + "" == Suffix;
    assert BaseName(Suffix) == "";
    PlainPrefix(b2, Suffix);
    assert b2 + "" == b2;
    DropsOccurrence(b2 + Suffix);
    PlainPrefix(b1, Suffix + (b2 + Suffix));
    assert b1 + Suffix + b2 + Suffix == b1 + (Suffix + (b2 + Suffix));
    PlainPrefix(b1, Suffix);
    assert b1 + "" == b1;
  }

  /** The payload decodes to exactly the bytes of the file. */
  lemma PayloadRoundTrip(p: Png)
    ensures var svg := Svg(p);
      var from, to := |SvgOpen(p.width, p.height)|, |svg| - |SvgClose|;
      0 <= from <= to <= |svg| && Base64.Decode(svg[from..to]) == Some(p.bytes)
  {
    var svg := Svg(p);
    assert svg[|SvgOpen(p.width, p.height)|..|svg| - |SvgClose|] == Base64.Encode(p.bytes);
    Base64.RoundTrip(p.bytes);
  }

  /** The SVG depends only on the size and the bytes, and two images of the
   *  same size give the same SVG only when their bytes are equal. */
  lemma SvgDeterminesBytes(p: Png, q: Png)
    requires p.width == q.width && p.height == q.height
    ensures Svg(p) == Svg(q) <==> p.bytes == q.bytes
  {
    if Svg(p) == Svg(q) {
      var o := |SvgOpen(p.width, p.height)|;
      assert Base64.Encode(p.bytes) == Svg(p)[o..|Svg(p)| - |SvgClose|];
      assert Base64.Encode(q.bytes) == Svg(q)[o..|Svg(q)| - |SvgClose|];
      Base64.Injective(p.bytes, q.bytes);
    }
  }

  /** The scan handles each entry on its own: the actions of a listing are
   *  those of its parts, in order, so a failure never stops the loop. */
  lemma {:induction false} ActionsAppend(a: seq<Entry>, b: seq<Entry>)
    ensures Actions(a + b) == Actions(a) + Actions(b)
    decreases |b|
  {
    if b == [] {
      assert a + b == a;
    } else {
      var init := b[..|b| - 1];
      assert (a + b)[..|a + b| - 1] == a + init;
      assert (a + b)[|a + b| - 1] == b[|b| - 1];
      ActionsAppend(a, init);
    }
  }
}
