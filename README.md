# gomongo certificate core in Dafny

gomongo is a small Go service. It keeps amateur-radio call-sign identities and
events in MongoDB and prints certificates for them as PDF files. This project models
its core in Dafny:

- **`ParseOptions`** turns the find options a caller sends into the Mongo
  driver's `FindOptions`. The limit is clamped into 1..100, and a missing or
  non-positive limit becomes 100. A negative skip becomes 0. Sort and
  projection are copied only when they are present. Pagination is never read.
- **`Modeling`** reshapes a JSON buffer in place through the record type of its
  collection (`identity` or `event`). For any other collection it leaves the buffer alone.
- **`GetDate`** takes the first 13 characters of the decimal rendering of the
  clock in nanoseconds, which are the Unix time in milliseconds. The slice is taken
  from the rune slice the rendering is converted into. Go checks it against that
  slice's capacity, which the language only promises to be at least the rendering's
  length. A shorter rendering therefore either panics or yields the digits padded
  with NUL runes, depending on that capacity.
- **`PrintPDF`, `PrintPDFV2`, `PrintPDFV3`** are three generations of certificate printers.
  Each registers its fonts with gofpdf. Each then installs a page header that
  draws the template image and then the call sign, the name and the frequency,
  each after setting the pen's font, position and colour. `PrintPDF` and `PrintPDFV2`
  hard-code the layout and a two-band frequency table. `PrintPDFV3` takes every
  style from a stored `ImageCertTemplate` and labels the frequency as "<frequency> - <band>".
- **`ReplaceRegex`** strips the header of a base64 data URL, which is everything up to and
  including the first comma.
- **`RNDString`** returns `n` letters, each drawn at random from the 52 ASCII letters.

Modules:

- `Wrappers` holds Option and Result.
- `GoTypes` holds `int64`, `byte` and the two run-time panics the code can raise.
- `GoMongo` models gomongo.go.
- `GoFpdf` models the gofpdf document as a pen: a class whose `SetFont`, `SetXY` and
  `SetTextColor` change the pen state, and whose `Cell`, `CellFormat` and
  `ImageOptions` append a draw command that uses that state.
- `Tools` models tools/tools.go.

The pages of the three printers are all shown to be instances of one
specification function, `Tools.Certificate`. gofpdf runs a page header once,
when the document's only page is opened. `Output` closes the document, and closing
adds the first page because none exists. The model therefore calls each
printer's header method right before `Output`. A printer returns the finished
`Document`: its page setup, the fonts it registered and the draw commands of its page.

## Model

| member | source | states |
|---|---|---|
| GoMongo.ClampLimit | gomongo.go:389-398 | the limit is always in 1..100; a request in 1..99 passes through; 100 or more caps at 100; 0 or less defaults to 100 |
| GoMongo.ClampSkip | gomongo.go:406-411 | the skip is never negative; a non-negative request passes through; a negative one becomes 0 |
| GoMongo.Normalize | gomongo.go:387-417 | after parsing, limit and skip are both set to their clamped values; sort and projection are replaced only when the payload carries them, otherwise they keep their earlier value; every other driver option is untouched |
| GoMongo.PaginationIgnored | gomongo.go:24-30 | the payload's pagination field has no effect on the resulting options |
| GoMongo.NormalizeIdempotent | gomongo.go:387-417 | applying the same payload options twice gives the same options as applying them once |
| GoMongo.DriverFindOptions.constructor | gomongo.go:387 | a fresh driver options value has every option unset |
| GoMongo.DriverFindOptions.SetLimit | gomongo.go:392-397 | the limit becomes the given value and no other option changes |
| GoMongo.DriverFindOptions.SetSort | gomongo.go:402 | the sort becomes the given value and no other option changes |
| GoMongo.DriverFindOptions.SetSkip | gomongo.go:408-410 | the skip becomes the given value and no other option changes |
| GoMongo.DriverFindOptions.SetProjection | gomongo.go:415 | the projection becomes the given value and no other option changes |
| GoMongo.ParseOptions | gomongo.go:387-417 | the driver options after the call are exactly `Normalize` of the payload's options and the options before the call |
| GoMongo.ModelFor | gomongo.go:373-382 | "identity" selects the identity record and "event" the event record, each if and only if; every other name selects none |
| GoMongo.Modeling | gomongo.go:370-384 | for other collections the buffer is unchanged and the error is nil; for identity/event the buffer becomes the re-encoding of the decoded record, and the returned error is the encoder's (the decoder's error is overwritten) |
| GoMongo.NatToString | gomongo.go:470 | the decimal rendering is non-empty and made only of digits |
| GoMongo.NatToStringRoundTrip | gomongo.go:470 | reading the decimal rendering back gives the number |
| GoMongo.NatToStringLength | gomongo.go:470-471 | for every k >= 2, the rendering has at least k digits exactly when the number is at least 10^(k-1) |
| GoMongo.Itoa | gomongo.go:470 | the rendering is non-empty; it starts with '-' exactly when the number is negative; every other character is a digit |
| GoMongo.ItoaRoundTrip | gomongo.go:470 | reading the signed rendering back gives the number, for negative numbers too |
| GoMongo.ItoaLength | gomongo.go:470-471 | for every k >= 3, the signed rendering has at least k characters exactly when the number is >= 10^(k-1) or <= -10^(k-2) |
| GoMongo.ZeroPadded | gomongo.go:470 | the padded runes start with the rendering, and every rune past it is NUL, up to the buffer's length |
| GoMongo.GetDate | gomongo.go:468-474 | succeeds exactly when the rune slice's capacity is at least 13, and otherwise fails with the slice-bounds panic for high 13 and that capacity; a result has 13 characters; when the rendering has 13 or more characters the result is its 13-character prefix; when it is shorter, the result is the rendering followed by NUL runes |
| GoMongo.GetDateLongClock | gomongo.go:468-474 | the rendering reaches 13 characters exactly when the clock is >= 10^12 or <= -10^11, and for those clocks the result is the 13-character prefix whatever the capacity |
| GoMongo.GetDateIsUnixMillis | gomongo.go:468-474 | for every clock reading from 10^18 ns on, the date is the decimal Unix time in milliseconds |
| GoFpdf.Fpdf.New | tools/tools.go:32 | a new landscape A4 page in millimetres is 841.89 points wide and 595.28 points high, each times 25.4/72; the document keeps its page setup and font directory and has no fonts and no drawing |
| GoFpdf.Fpdf.SetFontLocation | tools/tools.go:33 | later font registrations look in the given directory |
| GoFpdf.Fpdf.AddFont | tools/tools.go:34 | the registrations become `WithFont` of the old ones and family/style/file under the current font location: appended only if no registration has the same key (lower-cased family, then upper-cased style) |
| GoFpdf.FontFor | tools/tools.go:34 | the lookup finds a registration with the key that is in the list, or there is none with that key |
| GoFpdf.WithFontLookup | tools/tools.go:34 | the first registration of a key wins: after offering a font, its key finds the earlier registration if there is one and the new one otherwise, and every other key finds what it found before |
| GoFpdf.Fpdf.SetFont | tools/tools.go:42 | the pen's font becomes family/style/size |
| GoFpdf.Fpdf.SetXY | tools/tools.go:43 | the pen moves to (x, y); a negative x is measured from the page's right edge and a negative y from its bottom edge |
| GoFpdf.FromEdge | tools/tools.go:129 | a non-negative coordinate is kept; a negative one becomes the page extent plus the coordinate |
| GoFpdf.Fpdf.SetTextColor | tools/tools.go:44 | the pen's colour becomes (r, g, b) |
| GoFpdf.Fpdf.ImageOptions | tools/tools.go:40 | appends the image at the given place and size; the pen does not move |
| GoFpdf.Fpdf.CellFormat | tools/tools.go:86 | appends a text cell with the pen's font, position and colour and the given alignment, then moves the pen right by the cell width |
| GoFpdf.Fpdf.Cell | tools/tools.go:45 | the same as `CellFormat` with left alignment |
| GoFpdf.Fpdf.Output | tools/tools.go:106 | the document holds the page setup, the registered fonts and the page's drawing |
| Tools.Certificate | tools/tools.go:122-145 | a certificate page has four draws with a frequency and three without, and the background comes first |
| Tools.CertificateLayout | tools/tools.go:122-145 | a certificate page draws the background first, then the call sign, the name and (when present) the frequency, each with its own field's font, size, position (negative positions counted from the far edge), colour and alignment |
| Tools.CertificateFontsRegistered | tools/tools.go:114-121 | when the fonts of the three field styles are registered, every text cell of the page uses a registered font |
| Tools.PrintPdfHeader | tools/tools.go:38-61 | the header appends the certificate page of the fixed `PrintPDF` layout and registers no font |
| Tools.PrintPDF | tools/tools.go:31-68 | landscape A4 in mm; the two fonts are registered under ./TEMP/FONT; the page is the certificate of the fixed `PrintPDF` layout; every text uses a registered font |
| Tools.PrintPdfPage | tools/tools.go:40-60 | that page draws the background, then the call sign at (4,91) size 47 and the name at (6,105) size 25, both teal and left-aligned; for "40 m" the only further cell is "7.135" at (131,43), for "2 m" it is "145.240" at (119,43), and for any other band there is none |
| Tools.PrintPdfV2Header | tools/tools.go:78-104 | the header appends the certificate page of the fixed `PrintPDFV2` layout and registers no font |
| Tools.PrintPDFV2 | tools/tools.go:71-111 | landscape A4 in mm; the two fonts are registered under ./TEMP/FONT; the page is the certificate of the fixed `PrintPDFV2` layout; every text uses a registered font |
| Tools.PrintPdfV2Page | tools/tools.go:80-103 | that page draws the background, then the call sign at (247,80) and the name at (276,95) in black Kanit-Bold; every cell after the background is right-aligned; "40 m" adds "7.135 MHz" and "2 m" adds "145.240 MHz", both at (279,23), and any other band adds nothing |
| Tools.PrintPdfV3Header | tools/tools.go:122-145 | the header appends the certificate page laid out by the template's three field styles, labelling the frequency as "<frequency> - <band>" |
| Tools.PrintPDFV3 | tools/tools.go:114-153 | each field's font is offered as "<FontName>.json" under that field's own FontDir, in the order call sign, name, frequency; each field is drawn with the first registration of its font's key; the page draws background, call sign, name and frequency label, each in its own field's style; every text uses a registered font |
| Tools.V3FontsTakeEffect | tools/tools.go:116-121 | the call sign is drawn with its own registration; the name and frequency are drawn with the registration of the first earlier field whose font has the same key (so that field's directory), and with their own registration otherwise |
| Tools.FrequencyLabelParts | tools/tools.go:143 | the V3 label is the frequency, then " - ", then the band |
| Tools.HeaderMatchUnique | tools/tools.go:199 | the pattern `^[^,]*,` can match only one prefix, the one ending at the first comma |
| Tools.FirstComma | tools/tools.go:199 | the index found holds the first comma, and no comma comes before it (or it is the length when there is no comma) |
| Tools.ReplaceRegex | tools/tools.go:198-201 | with a comma, the result is the suffix after the prefix the pattern matches; without one, the input is unchanged |
| Tools.DataUrlPayload | tools/tools.go:198-201 | for a base64 data URL whose media type has no comma, the result is exactly the base64 data |
| Tools.LetterRunesEnds | tools/tools.go:205 | the alphabet has 52 runes, running from 'a' to 'z' and then from 'A' to 'Z' |
| Tools.LetterIndex | tools/tools.go:205 | every ASCII letter sits at some index of the alphabet |
| Tools.LetterRunesAreTheLetters | tools/tools.go:205 | a rune is in the alphabet if and only if it is an ASCII letter, and no letter occurs twice |
| Tools.EveryLetterStringIsDrawable | tools/tools.go:204-213 | every string of ASCII letters is produced by some sequence of draws |
| Tools.RNDString | tools/tools.go:204-213 | for n >= 0 the result is the letters the first n draws pick: length n, every character an ASCII letter; a negative n is the make panic |

## Left out

- The rest of the `Adaptor` (connection, the find/insert/update/delete queries, `ParsePayload`) and the Mongo driver itself. Only the `options.FindOptions` fields and setters that `ParseOptions` uses are modelled, and every other driver option is one opaque map.
- Modeling: the BSON/JSON codecs are parameters of the model. The shapes of the `Identity` and `EventCallSign` records are not modelled.
- GetDate: the clock (`time.Now`) is a parameter. Go's `int` is taken to be 64 bits wide.
- GetDate: the capacity of the rune slice is a parameter, constrained only by Go's guarantee that it is at least the rendering's length. Which capacity a given compiler picks is not modelled.
- RNDString: `rand.Seed` and `rand.Intn` are replaced by a sequence of draws, each assumed to be in 0..51 as `rand.Intn(52)` guarantees. The alphabet is defined by a comprehension whose contents equal the source's literal.
- `SaveImageFromB64`, `BindValidate`, `PairValues` and the validators are not modelled. They are base64/PNG decoding, file I/O and reflection-driven validation.
- gofpdf internals are not modelled: font loading and glyph metrics, the document's sticky error state, page breaks, and PDF serialisation.
- Fpdf.New: only the landscape A4 page in millimetres is modelled, which is the page all three printers ask for. Other orientations, units and sizes are not.
- Fpdf.AddFont: the font key folds the case of ASCII letters only. Any other rewriting gofpdf applies to a family name before filing it is not modelled.
- Fpdf.CellFormat: the border, line-mode, fill and link arguments are not modelled. All printers pass no border, line mode 0, no fill and no link, and the model implements only that combination.
- PrintPDF, PrintPDFV2, PrintPDFV3: writing to the file or writer, and the error that returns, are not modelled. A printer returns the document it would write.
- PrintPDF, PrintPDFV2, PrintPDFV3: a font whose file cannot be loaded is not modelled. Neither is gofpdf's handling of a zero font size.
- ReplaceRegex: the source writes through a pointer; the model returns the new string.
