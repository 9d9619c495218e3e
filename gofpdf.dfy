/**
 * The part of the gofpdf document object that the certificate printers use,
 * seen as a pen: `SetFont`, `SetXY` and `SetTextColor` change the pen's
 * current font, position and colour, and `CellFormat`, `Cell` and
 * `ImageOptions` append a draw command to the page using whatever the pen
 * currently holds. `AddFont` records a font registration against the current
 * font location; a text is drawn with the registration filed under its
 * family and style. Glyph layout, font loading and PDF serialisation are outside
 * the model: a document is the list of registrations and draw commands.
 */
module GoFpdf {
  import opened Wrappers

  /** A text colour, as passed to `SetTextColor`. */
  datatype Colour = Colour(r: int, g: int, b: int)

  /** A font registered with `AddFont`: family and style, looked up as `file` under `dir`. */
  datatype FontFile = FontFile(family: string, style: string, dir: string, file: string)

  /** The image options of `ImageOptions`. */
  datatype ImageOptions = ImageOptions(imageType: string, readDpi: bool)

  /** One thing drawn on the page. */
  datatype Draw =
    | Image(path: string, options: ImageOptions, x: real, y: real, w: real, h: real)
    | Text(text: string, family: string, style: string, sizePt: real,
           x: real, y: real, colour: Colour, align: string, w: real, h: real)

  // ---------------------------------------------------------------------
  // Font registry
  // ---------------------------------------------------------------------

  /** ASCII lower- and upper-casing of one character. */
  function LowerChar(c: char): char {
    if 'A' <= c <= 'Z' then (c as int - 'A' as int + 'a' as int) as char else c
  }

  function UpperChar(c: char): char {
    if 'a' <= c <= 'z' then (c as int - 'a' as int + 'A' as int) as char else c
  }

  function Lower(s: string): (r: string)
    ensures |r| == |s|
  {
    seq(|s|, i requires 0 <= i < |s| => LowerChar(s[i]))
  }

  function Upper(s: string): (r: string)
    ensures |r| == |s|
  {
    seq(|s|, i requires 0 <= i < |s| => UpperChar(s[i]))
  }

  /** The key gofpdf files a font under: the lower-cased family, then the upper-cased style. */
  function FontKey(family: string, style: string): string {
    Lower(family) + Upper(style)
  }

  function KeyOf(f: FontFile): string {
    FontKey(f.family, f.style)
  }

  /** The registration `fonts` holds under `key`: the earliest one with that key. */
  function FontFor(fonts: seq<FontFile>, key: string): (r: Option<FontFile>)
    ensures r.Some? ==> r.value in fonts && KeyOf(r.value) == key
    ensures r.None? ==> forall j | 0 <= j < |fonts| :: KeyOf(fonts[j]) != key
  {
    if fonts == [] then None
    else if KeyOf(fonts[0]) == key then Some(fonts[0])
    else FontFor(fonts[1..], key)
  }

  /** The registrations after `AddFont` offers `f`: a key already registered is not registered again. */
  function WithFont(fonts: seq<FontFile>, f: FontFile): seq<FontFile> {
    if FontFor(fonts, KeyOf(f)).Some? then fonts else fonts + [f]
  }

  lemma {:induction false} FontForAppend(fonts: seq<FontFile>, f: FontFile, key: string)
    ensures FontFor(fonts + [f], key) ==
      if FontFor(fonts, key).Some? then FontFor(fonts, key)
      else if KeyOf(f) == key then Some(f)
      else None
  {
    if fonts != [] {
      assert (fonts + [f])[0] == fonts[0];
      assert (fonts + [f])[1..] == fonts[1..] + [f];
      FontForAppend(fonts[1..], f, key);
    }
  }

  /**
   * The first registration of a key wins: after offering `f`, the lookup of
   * `f`'s key finds the earlier registration if there is one and `f`
   * otherwise, and every other key finds what it found before.
   */
  lemma WithFontLookup(fonts: seq<FontFile>, f: FontFile, key: string)
    ensures FontFor(WithFont(fonts, f), key) ==
      if key == KeyOf(f) && FontFor(fonts, key).None? then Some(f) else FontFor(fonts, key)
  {
    if FontFor(fonts, KeyOf(f)).None? {
      FontForAppend(fonts, f, key);
    }
  }

  // ---------------------------------------------------------------------
  // Page
  // ---------------------------------------------------------------------

  /** The sides of an A4 sheet in millimetres: 841.89 by 595.28 points at 72 points per 25.4 mm. */
  const A4LongSide: real := 841.89 * 25.4 / 72.0
  const A4ShortSide: real := 595.28 * 25.4 / 72.0

  /** A coordinate as gofpdf places it: a negative one is measured back from the far edge. */
  function FromEdge(v: real, extent: real): (r: real)
    ensures v >= 0.0 ==> r == v
    ensures v < 0.0 ==> r == extent + v
  {
    if v >= 0.0 then v else extent + v
  }

  /** What `Output` emits: the page setup, the registered fonts and the page's draw commands. */
  datatype Document = Document(
    orientation: string,
    unit: string,
    size: string,
    fonts: seq<FontFile>,
    page: seq<Draw>)

  /** The gofpdf document object (`*gofpdf.Fpdf`). */
  class Fpdf {
    const orientation: string
    const unit: string
    const size: string
    const pageWidth: real
    const pageHeight: real
    var fontLocation: string
    var fonts: seq<FontFile>
    var family: string
    var style: string
    var sizePt: real
    var x: real
    var y: real
    var textColour: Colour
    var page: seq<Draw>

    /** `gofpdf.New`: an empty landscape A4 document in millimetres whose font location is `fontDir`. */
    constructor New(orientation: string, unit: string, size: string, fontDir: string)
      requires orientation == "L" && unit == "mm" && size == "A4"
      ensures this.orientation == orientation && this.unit == unit && this.size == size
      ensures pageWidth == A4LongSide && pageHeight == A4ShortSide
      ensures fontLocation == fontDir && fonts == [] && page == []
      ensures textColour == Colour(0, 0, 0)
    {
      this.orientation, this.unit, this.size := orientation, unit, size;
      pageWidth, pageHeight := A4LongSide, A4ShortSide;
      fontLocation, fonts, page := fontDir, [], [];
      family, style, sizePt := "", "", 12.0;
      x, y := 0.0, 0.0;
      textColour := Colour(0, 0, 0);
    }

    /** Sets the directory that later `AddFont` calls look in. */
    method SetFontLocation(dir: string)
      modifies this`fontLocation
      ensures fontLocation == dir
    {
      fontLocation := dir;
    }

    /**
     * Registers `family`/`style`, to be loaded from `file` under the current
     * font location, unless a font with the same key is already registered.
     */
    method AddFont(family: string, style: string, file: string)
      modifies this`fonts
      ensures fonts == WithFont(old(fonts), FontFile(family, style, fontLocation, file))
    {
      var f := FontFile(family, style, fontLocation, file);
      if FontFor(fonts, KeyOf(f)).None? {
        fonts := fonts + [f];
      }
    }

    /** Makes `family`/`style` at `size` points the current font. */
    method SetFont(family: string, style: string, size: real)
      modifies this`family, this`style, this`sizePt
      ensures this.family == family && this.style == style && sizePt == size
    {
      this.family, this.style, sizePt := family, style, size;
    }

    /** Moves the pen to (`x`, `y`); a negative coordinate counts from the right or bottom edge. */
    method SetXY(x: real, y: real)
      modifies this`x, this`y
      ensures this.x == FromEdge(x, pageWidth) && this.y == FromEdge(y, pageHeight)
    {
      // SetY, then SetX
      if y >= 0.0 {
        this.y := y;
      } else {
        this.y := pageHeight + y;
      }
      if x >= 0.0 {
        this.x := x;
      } else {
        this.x := pageWidth + x;
      }
    }

    /** Makes (`r`, `g`, `b`) the current text colour. */
    method SetTextColor(r: int, g: int, b: int)
      modifies this`textColour
      ensures textColour == Colour(r, g, b)
    {
      textColour := Colour(r, g, b);
    }

    /** Draws an image at (`x`, `y`) scaled to `w` by `h`; the pen does not move. */
    method ImageOptions(path: string, x: real, y: real, w: real, h: real, options: ImageOptions)
      modifies this`page
      ensures page == old(page) + [Image(path, options, x, y, w, h)]
    {
      page := page + [Image(path, options, x, y, w, h)];
    }

    /**
     * Draws `txt` in a `w` by `h` cell at the pen's position with the pen's
     * font and colour, aligned by `align`, then moves the pen right by `w`
     * (line mode 0, the only one the printers use).
     */
    method CellFormat(w: real, h: real, txt: string, align: string)
      modifies this`page, this`x
      ensures page == old(page) + [Text(txt, family, style, sizePt, old(x), y, textColour, align, w, h)]
      ensures x == old(x) + w
    {
      page := page + [Text(txt, family, style, sizePt, x, y, textColour, align, w, h)];
      x := x + w;
    }

    /** `CellFormat` with left alignment. */
    method Cell(w: real, h: real, txt: string)
      modifies this`page, this`x
      ensures page == old(page) + [Text(txt, family, style, sizePt, old(x), y, textColour, "L", w, h)]
      ensures x == old(x) + w
    {
      CellFormat(w, h, txt, "L");
    }

    /** The finished document. */
    method Output() returns (doc: Document)
      ensures doc == Document(orientation, unit, size, fonts, page)
    {
      doc := Document(orientation, unit, size, fonts, page);
    }
  }
}
