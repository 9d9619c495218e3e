/**
 * Package tools: the three certificate printers, the data-URL header strip of
 * `ReplaceRegex` and the random letter strings of `RNDString`.
 *
 * Each printer drives a gofpdf pen: it registers its fonts, and the page
 * header it installs draws the background and then the call sign, name and
 * frequency cells, each after setting the pen's font, position and colour.
 * gofpdf runs that header once, when the document's only page is opened
 * (`Output` closes the document, and closing adds the first page because
 * none exists), so the model calls it right before `Output`.
 */
module Tools {
  import opened Wrappers
  import opened GoTypes
  import opened GoMongo
  import opened GoFpdf

  // ---------------------------------------------------------------------
  // Certificate layout
  // ---------------------------------------------------------------------

  /** The background: the template image over the whole landscape A4 page (297 mm by 210 mm). */
  function Background(templatePath: string, fileType: string): Draw {
    Image(templatePath, ImageOptions(fileType, true), 0.0, 0.0, 297.0, 210.0)
  }

  /** The colour a stored RGB triple gives the pen. */
  function PenColour(c: RGB): Colour {
    Colour(c.r, c.g, c.b)
  }

  /**
   * The cell of width `w` that draws `text` in the style of field `p` on the
   * landscape A4 page; a negative position counts from the right or bottom edge.
   */
  function StyledCell(text: string, w: real, p: TemplateProperty): Draw {
    Text(text, p.fontName, "", p.fontSize,
         FromEdge(p.textPosition.x, A4LongSide), FromEdge(p.textPosition.y, A4ShortSide),
         PenColour(p.fontColor), p.textAlign, w, 10.0)
  }

  /**
   * The page a printer draws: the background, then the call sign, the name
   * and, when there is one, the frequency label, each in its own field's style.
   */
  function Certificate(background: Draw, style: TemplateProperties, callSign: string,
                       name: string, frequency: Option<string>): (page: seq<Draw>)
    ensures |page| == (if frequency.Some? then 4 else 3)
    ensures page[0] == background
  {
    [background, StyledCell(callSign, 40.0, style.callSign), StyledCell(name, 10.0, style.identityName)]
    + (if frequency.Some? then [StyledCell(frequency.value, 10.0, style.frequency)] else [])
  }

  /** `d` draws `text` with the font, size, position, colour and alignment of field `p`. */
  predicate DrawnWith(d: Draw, text: string, p: TemplateProperty) {
    && d.Text?
    && d.text == text
    && d.family == p.fontName
    && d.sizePt == p.fontSize
    && d.x == FromEdge(p.textPosition.x, A4LongSide)
    && d.y == FromEdge(p.textPosition.y, A4ShortSide)
    && d.colour == Colour(p.fontColor.r, p.fontColor.g, p.fontColor.b)
    && d.align == p.textAlign
  }

  /**
   * The drawing order and styles of a certificate: background first, then
   * call sign, name and frequency, each with its own field's style.
   */
  lemma CertificateLayout(background: Draw, style: TemplateProperties, callSign: string,
                          name: string, frequency: Option<string>)
    ensures var page := Certificate(background, style, callSign, name, frequency);
      && |page| == (if frequency.Some? then 4 else 3)
      && page[0] == background
      && DrawnWith(page[1], callSign, style.callSign)
      && DrawnWith(page[2], name, style.identityName)
      && (frequency.Some? ==> DrawnWith(page[3], frequency.value, style.frequency))
  {
  }

  /** `fonts` holds a registration for `family` in the regular style. */
  predicate Registers(fonts: seq<FontFile>, family: string) {
    FontFor(fonts, FontKey(family, "")).Some?
  }

  /** Every text cell of `doc` finds a registered font under its family and style. */
  predicate FontsRegistered(doc: Document) {
    forall i | 0 <= i < |doc.page| && doc.page[i].Text? ::
      FontFor(doc.fonts, FontKey(doc.page[i].family, doc.page[i].style)).Some?
  }

  /** A certificate page selects only the fonts of its three field styles. */
  lemma CertificateFontsRegistered(doc: Document, background: Draw, style: TemplateProperties,
                                   callSign: string, name: string, frequency: Option<string>)
    requires background.Image?
    requires doc.page == Certificate(background, style, callSign, name, frequency)
    requires Registers(doc.fonts, style.callSign.fontName)
    requires Registers(doc.fonts, style.identityName.fontName)
    requires Registers(doc.fonts, style.frequency.fontName)
    ensures FontsRegistered(doc)
  {
  }

  /** The registration `PrintPDFV3` offers for field `p`: its font name, as "<name>.json" under its own directory. */
  function FontRegistration(p: TemplateProperty): FontFile {
    FontFile(p.fontName, "", p.fontDir, p.fontName + ".json")
  }

  /** The key field `p`'s text is drawn with. */
  function FieldKey(p: TemplateProperty): string {
    FontKey(p.fontName, "")
  }

  // ---------------------------------------------------------------------
  // PrintPDF: fixed layout, fixed band table
  // ---------------------------------------------------------------------

  /** The directory the legacy printers load their fonts from. */
  const LegacyFontDir: string := "./TEMP/FONT"

  /** The frequency label `PrintPDF` draws for a band, if any. */
  function PrintPdfFrequency(band: string): Option<string> {
    if band == "40 m" then Some("7.135")
    else if band == "2 m" then Some("145.240")
    else None
  }

  /** The styles `PrintPDF` hard-codes, as a template; the frequency's x depends on the band. */
  function PrintPdfStyle(band: string): TemplateProperties {
    var teal := RGB(12, 168, 149);
    TemplateProperties(
      TemplateProperty(TextPosition(4.0, 91.0), "L", teal, "ArchivoBlack-Regular", 47.0, LegacyFontDir),
      TemplateProperty(TextPosition(6.0, 105.0), "L", teal, "ArchivoBlack-Regular", 25.0, LegacyFontDir),
      TemplateProperty(TextPosition(if band == "2 m" then 119.0 else 131.0, 43.0), "L",
                       RGB(255, 255, 255), "ATOMICCLOCKRADIO", 23.0, LegacyFontDir))
  }

  /** The header `PrintPDF` installs, run when its page is opened. */
  method PrintPdfHeader(pdf: Fpdf, name: string, callSign: string, band: string,
                        templatePath: string, fileType: string)
    requires pdf.pageWidth == A4LongSide && pdf.pageHeight == A4ShortSide
    modifies pdf
    ensures pdf.page == old(pdf.page) +
      Certificate(Background(templatePath, fileType), PrintPdfStyle(band), callSign, name, PrintPdfFrequency(band))
    ensures pdf.fonts == old(pdf.fonts)
  {
    pdf.ImageOptions(templatePath, 0.0, 0.0, 297.0, 210.0, ImageOptions(fileType, true));

    pdf.SetFont("ArchivoBlack-Regular", "", 47.0);
    pdf.SetXY(4.0, 91.0);
    pdf.SetTextColor(12, 168, 149);
    pdf.Cell(40.0, 10.0, callSign);

    pdf.SetFont("ArchivoBlack-Regular", "", 25.0);
    pdf.SetXY(6.0, 105.0);
    pdf.SetTextColor(12, 168, 149);
    pdf.Cell(10.0, 10.0, name);

    pdf.SetFont("ATOMICCLOCKRADIO", "", 23.0);
    pdf.SetTextColor(255, 255, 255);
    if band == "40 m" {
      pdf.SetXY(131.0, 43.0);
      pdf.Cell(10.0, 10.0, "7.135");
    } else if band == "2 m" {
      pdf.SetXY(119.0, 43.0);
      pdf.Cell(10.0, 10.0, "145.240");
    }
  }

  /** The fixed cells and the band table of the `PrintPDF` page. */
  lemma PrintPdfPage(page: seq<Draw>, name: string, callSign: string, band: string,
                     templatePath: string, fileType: string)
    requires page == Certificate(Background(templatePath, fileType), PrintPdfStyle(band),
                                 callSign, name, PrintPdfFrequency(band))
    ensures |page| >= 3 && page[0] == Background(templatePath, fileType)
    ensures page[1] == Text(callSign, "ArchivoBlack-Regular", "", 47.0, 4.0, 91.0,
                            Colour(12, 168, 149), "L", 40.0, 10.0)
    ensures page[2] == Text(name, "ArchivoBlack-Regular", "", 25.0, 6.0, 105.0,
                            Colour(12, 168, 149), "L", 10.0, 10.0)
    ensures band == "40 m" ==> page[3..] == [Text("7.135", "ATOMICCLOCKRADIO", "", 23.0, 131.0, 43.0,
                                                  Colour(255, 255, 255), "L", 10.0, 10.0)]
    ensures band == "2 m" ==> page[3..] == [Text("145.240", "ATOMICCLOCKRADIO", "", 23.0, 119.0, 43.0,
                                                 Colour(255, 255, 255), "L", 10.0, 10.0)]
    ensures band != "40 m" && band != "2 m" ==> |page| == 3
  {
  }

  /** `PrintPDF`: the first certificate layout, written to `outPath`. */
  method PrintPDF(name: string, callSign: string, band: string, templatePath: string,
                  outPath: string, fileType: string) returns (doc: Document)
    ensures doc.orientation == "L" && doc.unit == "mm" && doc.size == "A4"
    ensures doc.fonts == [FontFile("ArchivoBlack-Regular", "", LegacyFontDir, "ArchivoBlack-Regular.json"),
                          FontFile("ATOMICCLOCKRADIO", "", LegacyFontDir, "ATOMICCLOCKRADIO.json")]
    ensures doc.page == Certificate(Background(templatePath, fileType), PrintPdfStyle(band),
                                    callSign, name, PrintPdfFrequency(band))
    ensures FontsRegistered(doc)
  {
    var pdf := new Fpdf.New("L", "mm", "A4", "");
    pdf.SetFontLocation(LegacyFontDir);
    pdf.AddFont("ArchivoBlack-Regular", "", "ArchivoBlack-Regular.json");
    pdf.SetFontLocation(LegacyFontDir);
    pdf.AddFont("ATOMICCLOCKRADIO", "", "ATOMICCLOCKRADIO.json");

    PrintPdfHeader(pdf, name, callSign, band, templatePath, fileType);
    doc := pdf.Output();
    assert doc.fonts[0].family == "ArchivoBlack-Regular" && doc.fonts[1].family == "ATOMICCLOCKRADIO";
    CertificateFontsRegistered(doc, Background(templatePath, fileType), PrintPdfStyle(band),
                               callSign, name, PrintPdfFrequency(band));
  }

  // ---------------------------------------------------------------------
  // PrintPDFV2: fixed right-aligned layout, fixed band table
  // ---------------------------------------------------------------------

  /** The frequency label `PrintPDFV2` draws for a band, if any. */
  function PrintPdfV2Frequency(band: string): Option<string> {
    if band == "40 m" then Some("7.135 MHz")
    else if band == "2 m" then Some("145.240 MHz")
    else None
  }

  /** The styles `PrintPDFV2` hard-codes, as a template. */
  function PrintPdfV2Style(): TemplateProperties {
    var black := RGB(0, 0, 0);
    TemplateProperties(
      TemplateProperty(TextPosition(247.0, 80.0), "R", black, "Kanit-Bold", 48.0, LegacyFontDir),
      TemplateProperty(TextPosition(276.0, 95.0), "R", black, "Kanit-Bold", 18.0, LegacyFontDir),
      TemplateProperty(TextPosition(279.0, 23.0), "R", black, "OrangeTypewriter", 16.0, LegacyFontDir))
  }

  /** The header `PrintPDFV2` installs, run when its page is opened. */
  method PrintPdfV2Header(pdf: Fpdf, name: string, callSign: string, band: string,
                          templatePath: string, fileType: string)
    requires pdf.pageWidth == A4LongSide && pdf.pageHeight == A4ShortSide
    modifies pdf
    ensures pdf.page == old(pdf.page) +
      Certificate(Background(templatePath, fileType), PrintPdfV2Style(), callSign, name, PrintPdfV2Frequency(band))
    ensures pdf.fonts == old(pdf.fonts)
  {
    pdf.ImageOptions(templatePath, 0.0, 0.0, 297.0, 210.0, ImageOptions(fileType, true));

    // CALL SIGN
    pdf.SetFont("Kanit-Bold", "", 48.0);
    pdf.SetXY(247.0, 80.0);
    pdf.SetTextColor(0, 0, 0);
    pdf.CellFormat(40.0, 10.0, callSign, "R");

    // NAME
    pdf.SetFont("Kanit-Bold", "", 18.0);
    pdf.SetXY(276.0, 95.0);
    pdf.SetTextColor(0, 0, 0);
    pdf.CellFormat(10.0, 10.0, name, "R");

    // FREQUENCY
    pdf.SetFont("OrangeTypewriter", "", 16.0);
    pdf.SetTextColor(0, 0, 0);
    if band == "40 m" {
      pdf.SetXY(279.0, 23.0);
      pdf.CellFormat(10.0, 10.0, "7.135 MHz", "R");
    } else if band == "2 m" {
      pdf.SetXY(279.0, 23.0);
      pdf.CellFormat(10.0, 10.0, "145.240 MHz", "R");
    }
  }

  /** The fixed cells and the band table of the `PrintPDFV2` page: everything after the background is right-aligned. */
  lemma PrintPdfV2Page(page: seq<Draw>, name: string, callSign: string, band: string,
                       templatePath: string, fileType: string)
    requires page == Certificate(Background(templatePath, fileType), PrintPdfV2Style(),
                                 callSign, name, PrintPdfV2Frequency(band))
    ensures |page| >= 3 && page[0] == Background(templatePath, fileType)
    ensures page[1] == Text(callSign, "Kanit-Bold", "", 48.0, 247.0, 80.0, Colour(0, 0, 0), "R", 40.0, 10.0)
    ensures page[2] == Text(name, "Kanit-Bold", "", 18.0, 276.0, 95.0, Colour(0, 0, 0), "R", 10.0, 10.0)
    ensures forall i | 1 <= i < |page| :: page[i].Text? && page[i].align == "R"
    ensures band == "40 m" ==> page[3..] == [Text("7.135 MHz", "OrangeTypewriter", "", 16.0, 279.0, 23.0,
                                                  Colour(0, 0, 0), "R", 10.0, 10.0)]
    ensures band == "2 m" ==> page[3..] == [Text("145.240 MHz", "OrangeTypewriter", "", 16.0, 279.0, 23.0,
                                                 Colour(0, 0, 0), "R", 10.0, 10.0)]
    ensures band != "40 m" && band != "2 m" ==> |page| == 3
  {
  }

  /** `PrintPDFV2`: the second certificate layout, written to a stream. */
  method PrintPDFV2(name: string, callSign: string, band: string, templatePath: string,
                    fileType: string) returns (doc: Document)
    ensures doc.orientation == "L" && doc.unit == "mm" && doc.size == "A4"
    ensures doc.fonts == [FontFile("OrangeTypewriter", "", LegacyFontDir, "OrangeTypewriter.json"),
                          FontFile("Kanit-Bold", "", LegacyFontDir, "Kanit-Bold.json")]
    ensures doc.page == Certificate(Background(templatePath, fileType), PrintPdfV2Style(),
                                    callSign, name, PrintPdfV2Frequency(band))
    ensures FontsRegistered(doc)
  {
    var pdf := new Fpdf.New("L", "mm", "A4", "");
    pdf.SetFontLocation(LegacyFontDir);
    pdf.AddFont("OrangeTypewriter", "", "OrangeTypewriter.json");
    pdf.SetFontLocation(LegacyFontDir);
    pdf.AddFont("Kanit-Bold", "", "Kanit-Bold.json");

    PrintPdfV2Header(pdf, name, callSign, band, templatePath, fileType);
    doc := pdf.Output();
    assert doc.fonts[0].family == "OrangeTypewriter" && doc.fonts[1].family == "Kanit-Bold";
    CertificateFontsRegistered(doc, Background(templatePath, fileType), PrintPdfV2Style(),
                               callSign, name, PrintPdfV2Frequency(band));
  }

  // ---------------------------------------------------------------------
  // PrintPDFV3: layout taken from a stored template
  // ---------------------------------------------------------------------

  /** The registrations `PrintPDFV3` leaves: each field's font offered in turn, call sign, name, frequency. */
  function V3Fonts(style: TemplateProperties): seq<FontFile> {
    WithFont(WithFont(WithFont([], FontRegistration(style.callSign)), FontRegistration(style.identityName)),
             FontRegistration(style.frequency))
  }

  /**
   * The registration that field `p` is drawn with: that of the first field,
   * in registration order, whose font has the same key as `p`'s.
   */
  function FirstRegistered(style: TemplateProperties, p: TemplateProperty): FontFile {
    if FieldKey(style.callSign) == FieldKey(p) then FontRegistration(style.callSign)
    else if FieldKey(style.identityName) == FieldKey(p) then FontRegistration(style.identityName)
    else FontRegistration(p)
  }

  /**
   * Each field of a `PrintPDFV3` template is drawn with the first registration
   * of its font's key: a later field naming the same font (in any letter case)
   * gets the earlier field's file and directory, not its own.
   */
  lemma V3FontsTakeEffect(style: TemplateProperties)
    ensures FontFor(V3Fonts(style), FieldKey(style.callSign)) == Some(FontRegistration(style.callSign))
    ensures FontFor(V3Fonts(style), FieldKey(style.identityName)) == Some(FirstRegistered(style, style.identityName))
    ensures FontFor(V3Fonts(style), FieldKey(style.frequency)) == Some(FirstRegistered(style, style.frequency))
  {
    var cs, id, fr := FontRegistration(style.callSign), FontRegistration(style.identityName),
                      FontRegistration(style.frequency);
    var one := WithFont([], cs);
    var two := WithFont(one, id);
    assert FieldKey(style.callSign) == KeyOf(cs) && FieldKey(style.identityName) == KeyOf(id);
    assert FieldKey(style.frequency) == KeyOf(fr);
    WithFontLookup([], cs, KeyOf(cs));
    WithFontLookup([], cs, KeyOf(id));
    WithFontLookup([], cs, KeyOf(fr));
    WithFontLookup(one, id, KeyOf(cs));
    WithFontLookup(one, id, KeyOf(id));
    WithFontLookup(one, id, KeyOf(fr));
    WithFontLookup(two, fr, KeyOf(cs));
    WithFontLookup(two, fr, KeyOf(id));
    WithFontLookup(two, fr, KeyOf(fr));
  }

  /** The frequency label `PrintPDFV3` draws: "<frequency> - <band>". */
  function FrequencyLabel(frequency: string, band: string): string {
    frequency + " - " + band
  }

  /** The header `PrintPDFV3` installs, run when its page is opened. */
  method PrintPdfV3Header(pdf: Fpdf, name: string, callSign: string, band: string, frequency: string,
                          templatePath: string, fileType: string, imageCertTemplate: ImageCertTemplate)
    requires pdf.pageWidth == A4LongSide && pdf.pageHeight == A4ShortSide
    modifies pdf
    ensures pdf.page == old(pdf.page) +
      Certificate(Background(templatePath, fileType), imageCertTemplate.templateProperties,
                  callSign, name, Some(FrequencyLabel(frequency, band)))
    ensures pdf.fonts == old(pdf.fonts)
  {
    var style := imageCertTemplate.templateProperties;
    pdf.ImageOptions(templatePath, 0.0, 0.0, 297.0, 210.0, ImageOptions(fileType, true));

    // CALL SIGN
    pdf.SetFont(style.callSign.fontName, "", style.callSign.fontSize);
    pdf.SetXY(style.callSign.textPosition.x, style.callSign.textPosition.y);
    pdf.SetTextColor(style.callSign.fontColor.r, style.callSign.fontColor.g, style.callSign.fontColor.b);
    pdf.CellFormat(40.0, 10.0, callSign, style.callSign.textAlign);

    // NAME
    pdf.SetFont(style.identityName.fontName, "", style.identityName.fontSize);
    pdf.SetXY(style.identityName.textPosition.x, style.identityName.textPosition.y);
    pdf.SetTextColor(style.identityName.fontColor.r, style.identityName.fontColor.g, style.identityName.fontColor.b);
    pdf.CellFormat(10.0, 10.0, name, style.identityName.textAlign);

    // FREQUENCY
    pdf.SetFont(style.frequency.fontName, "", style.frequency.fontSize);
    pdf.SetTextColor(style.frequency.fontColor.r, style.frequency.fontColor.g, style.frequency.fontColor.b);
    pdf.SetXY(style.frequency.textPosition.x, style.frequency.textPosition.y);
    pdf.CellFormat(10.0, 10.0, FrequencyLabel(frequency, band), style.frequency.textAlign);
  }

  /** `PrintPDFV3`: the certificate laid out by a stored template, written to a stream. */
  method PrintPDFV3(name: string, callSign: string, band: string, frequency: string,
                    templatePath: string, fileType: string, imageCertTemplate: ImageCertTemplate)
    returns (doc: Document)
    ensures doc.orientation == "L" && doc.unit == "mm" && doc.size == "A4"
    ensures doc.fonts == V3Fonts(imageCertTemplate.templateProperties)
    ensures var style := imageCertTemplate.templateProperties;
      && FontFor(doc.fonts, FieldKey(style.callSign)) == Some(FontRegistration(style.callSign))
      && FontFor(doc.fonts, FieldKey(style.identityName)) == Some(FirstRegistered(style, style.identityName))
      && FontFor(doc.fonts, FieldKey(style.frequency)) == Some(FirstRegistered(style, style.frequency))
    ensures doc.page == Certificate(Background(templatePath, fileType), imageCertTemplate.templateProperties,
                                    callSign, name, Some(FrequencyLabel(frequency, band)))
    ensures FontsRegistered(doc)
  {
    var style := imageCertTemplate.templateProperties;
    var pdf := new Fpdf.New("L", "mm", "A4", "");
    pdf.SetFontLocation(style.callSign.fontDir);
    pdf.AddFont(style.callSign.fontName, "", style.callSign.fontName + ".json");
    pdf.SetFontLocation(style.identityName.fontDir);
    pdf.AddFont(style.identityName.fontName, "", style.identityName.fontName + ".json");
    pdf.SetFontLocation(style.frequency.fontDir);
    pdf.AddFont(style.frequency.fontName, "", style.frequency.fontName + ".json");

    PrintPdfV3Header(pdf, name, callSign, band, frequency, templatePath, fileType, imageCertTemplate);
    doc := pdf.Output();
    V3FontsTakeEffect(style);
    CertificateFontsRegistered(doc, Background(templatePath, fileType), style,
                               callSign, name, Some(FrequencyLabel(frequency, band)));
  }

  /** The frequency label of `PrintPDFV3` is the frequency, " - ", then the band. */
  lemma FrequencyLabelParts(frequency: string, band: string)
    ensures var text := FrequencyLabel(frequency, band);
      && |text| == |frequency| + 3 + |band|
      && text[..|frequency|] == frequency
      && text[|frequency|..|frequency| + 3] == " - "
      && text[|frequency| + 3..] == band
  {
  }

  // ---------------------------------------------------------------------
  // ReplaceRegex
  // ---------------------------------------------------------------------

  /** The pattern `^[^,]*,` matches the first `k` characters of `s`. */
  predicate HeaderMatch(s: string, k: int) {
    1 <= k <= |s| && s[k - 1] == ',' && ',' !in s[..k - 1]
  }

  /** The pattern can match only one prefix: the one ending at the first comma. */
  lemma HeaderMatchUnique(s: string, k1: int, k2: int)
    requires HeaderMatch(s, k1) && HeaderMatch(s, k2)
    ensures k1 == k2
  {
  }

  /** The index of the first comma of `s`, or `|s|` when there is none. */
  function FirstComma(s: string): (i: nat)
    ensures i <= |s|
    ensures ',' !in s[..i]
    ensures i < |s| ==> s[i] == ','
  {
    if s == [] || s[0] == ',' then 0
    else
      var i := 1 + FirstComma(s[1..]);
      assert s[..i] == [s[0]] + s[1..][..i - 1];
      i
  }

  /**
   * `ReplaceRegex`: removes the prefix matched by `^[^,]*,`, everything up to
   * and including the first comma. A string without a comma is left as it is.
   */
  function ReplaceRegex(b64url: string): (b64: string)
    ensures ',' in b64url ==> HeaderMatch(b64url, |b64url| - |b64|) && b64 == b64url[|b64url| - |b64|..]
    ensures ',' !in b64url ==> b64 == b64url
  {
    var i := FirstComma(b64url);
    if i < |b64url| then b64url[i + 1..] else b64url
  }

  /**
   * For a base64 data URL (section 3 of RFC 2397), "data:" then a media type
   * without a comma, ";base64," and the data, `ReplaceRegex` yields the data.
   */
  lemma DataUrlPayload(mediaType: string, data: string)
    requires ',' !in mediaType
    ensures ReplaceRegex("data:" + mediaType + ";base64," + data) == data
  {
    var header := "data:" + mediaType + ";base64";
    var url := header + "," + data;
    assert "data:" + mediaType + ";base64," + data == url;
    assert ',' !in header by {
      forall i | 0 <= i < |header| ensures header[i] != ',' {
        if 5 <= i < 5 + |mediaType| {
          assert header[i] == mediaType[i - 5];
        }
      }
    }
    assert url[..|header|] == header;
    assert HeaderMatch(url, |header| + 1);
    var b64 := ReplaceRegex(url);
    HeaderMatchUnique(url, |url| - |b64|, |header| + 1);
    assert url[|header| + 1..] == data;
  }

  // ---------------------------------------------------------------------
  // RNDString
  // ---------------------------------------------------------------------

  /**
   * The 52 letters `RNDString` draws from, "abcdefghijklmnopqrstuvwxyzABCDEFGHIJKLMNOPQRSTUVWXYZ":
   * the lower-case letters in order, then the upper-case ones.
   */
  function LetterRunes(): string {
    seq(52, i requires 0 <= i < 52 =>
      if i < 26 then ('a' as int + i) as char else ('A' as int + (i - 26)) as char)
  }

  predicate IsAsciiLetter(c: char) {
    'a' <= c <= 'z' || 'A' <= c <= 'Z'
  }

  /** The alphabet's ends, as written in the source. */
  lemma LetterRunesEnds()
    ensures |LetterRunes()| == 52
    ensures LetterRunes()[0] == 'a' && LetterRunes()[25] == 'z'
    ensures LetterRunes()[26] == 'A' && LetterRunes()[51] == 'Z'
  {
  }

  /** The draw that picks letter `c`. */
  function LetterIndex(c: char): (i: int)
    requires IsAsciiLetter(c)
    ensures 0 <= i < |LetterRunes()| && LetterRunes()[i] == c
  {
    if 'a' <= c <= 'z' then c as int - 'a' as int else c as int - 'A' as int + 26
  }

  /** The alphabet holds exactly the ASCII letters, each once. */
  lemma LetterRunesAreTheLetters(c: char)
    ensures c in LetterRunes() <==> IsAsciiLetter(c)
    ensures forall i, j | 0 <= i < j < |LetterRunes()| :: LetterRunes()[i] != LetterRunes()[j]
  {
    if IsAsciiLetter(c) {
      var i := LetterIndex(c);
    }
  }

  /** Draws that `rand.Intn(52)` can return. */
  predicate ValidDraws(draws: seq<int>) {
    forall i | 0 <= i < |draws| :: 0 <= draws[i] < |LetterRunes()|
  }

  /** The string the draws spell, one letter per draw. */
  function Spell(draws: seq<int>): string
    requires ValidDraws(draws)
  {
    seq(|draws|, i requires 0 <= i < |draws| => LetterRunes()[draws[i]])
  }

  /** Every string of ASCII letters is spelled by some draws: no letter string is out of reach. */
  lemma EveryLetterStringIsDrawable(s: string)
    requires forall i | 0 <= i < |s| :: IsAsciiLetter(s[i])
    ensures var draws := seq(|s|, i requires 0 <= i < |s| => LetterIndex(s[i]));
      ValidDraws(draws) && Spell(draws) == s
  {
  }

  /**
   * `RNDString` with the random source as a parameter: `draws[i]` is what the
   * i-th call of `rand.Intn(52)` returns. A negative `n` makes `make` panic.
   */
  method RNDString(n: int, draws: seq<int>) returns (r: Result<string, Panic>)
    requires |draws| >= n
    requires ValidDraws(draws)
    ensures r.Success? <==> n >= 0
    ensures r.Failure? ==> r.error == MakeSliceLenOutOfRange(n)
    ensures r.Success? ==> r.value == Spell(draws[..n])
    ensures r.Success? ==> |r.value| == n && forall i | 0 <= i < n :: IsAsciiLetter(r.value[i])
  {
    if n < 0 {
      return Failure(MakeSliceLenOutOfRange(n));
    }
    var b := new char[n];
    for i := 0 to n
      invariant forall k | 0 <= k < i :: b[k] == LetterRunes()[draws[k]]
    {
      b[i] := LetterRunes()[draws[i]];
    }
    return Success(b[..]);
  }
}
