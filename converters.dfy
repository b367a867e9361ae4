/**
 * The five conversion functions of functions/api.js, as far as the route
 * sees them. The libraries they call (pdf-lib, pdf-parse, docx, exceljs,
 * pdf2pic) are opaque: each call either finishes or throws. What the code
 * itself fixes is modelled: which path each function returns, the options
 * it hands the rasteriser and the HTML page it writes.
 */
module Converters {
  import opened Wrappers
  import opened JsStrings
  import opened NodePath
  import opened Dispatch

  /**
   * What the awaited library calls of one conversion do: finish (the
   * rasteriser reporting the path of the image it wrote) or throw.
   */
  datatype LibraryStep = Finishes(rasterPath: string) | Throws(message: string)

  /** The name under which each converter is called from the route. */
  function ConverterName(v: Variant): (name: string)
    ensures |name| > 10 && name[..10] == "convertPdf"
  {
    match v
    case Pdf => "convertPdfToPdf"
    case Word => "convertPdfToWord"
    case Excel => "convertPdfToExcel"
    case Image => "convertPdfToImage"
    case Html => "convertPdfToHtml"
  }

  /** Each converter is called under a name of its own. */
  lemma ConverterNamesDistinct(v: Variant, w: Variant)
    requires v != w
    ensures ConverterName(v) != ConverterName(w)
  {
    var nv, nw := ConverterName(v), ConverterName(w);
    assert |nv| != |nw| || nv[12] != nw[12] || nv[13] != nw[13];
  }

  /**
   * The value `await convertPdfToX(input, output[, format])` produces: the
   * document converters return the `output` they were given, the image
   * converter returns the path pdf2pic reports, and a throw propagates.
   */
  function RunConverter(v: Variant, output: string, step: LibraryStep): (r: Result<string>)
    ensures r.Failure? <==> step.Throws?
    ensures r.Failure? ==> r.message == step.message
    ensures r.Success? && !v.Image? ==> r.value == output
    ensures r.Success? && v.Image? ==> r.value == step.rasterPath
  {
    match step
    case Throws(msg) => Failure(msg)
    case Finishes(raster) => if v.Image? then Success(raster) else Success(output)
  }

  /** The options object `convertPdfToImage` passes to pdf2pic. */
  datatype RasterOptions = RasterOptions(density: nat, saveFilename: string, savePath: string,
                                         format: string, width: nat, height: nat)

  const Density: nat := 300
  const PageWidth: nat := 2480
  const PageHeight: nat := 3508
  /** `convert(1)`: only the first page is ever rendered. */
  const RenderedPage: nat := 1

  function RasterOptionsFor(output: string, format: string): RasterOptions {
    RasterOptions(Density, Basename(output), Dirname(output), Upper(format), PageWidth, PageHeight)
  }

  /** The rasteriser call: `fromPath(input, options)` applied to one page number. */
  datatype RasterCall = RasterCall(source: string, options: RasterOptions, page: nat)

  /**
   * The call `convertPdfToImage(input, output, format)` makes: page 1 of the
   * upload, saved (for an output below the root) where `output` names, in
   * the upper-cased format, at the fixed density and size.
   */
  function RasterCallFor(input: string, output: string, format: string): (c: RasterCall)
    ensures c.source == input && c.page == 1
    ensures LastSeparator(output).Some? && LastSeparator(output).value > 0 ==>
      Join(c.options.savePath, c.options.saveFilename) == output
    ensures c.options.format == Upper(format)
    ensures c.options.density == 300 && c.options.width == 2480 && c.options.height == 3508
  {
    RasterCall(input, RasterOptionsFor(output, format), RenderedPage)
  }

  /** The upper-case forms of the three image tokens. */
  lemma UpperImageTokens()
    ensures Upper("jpeg") == "JPEG" && Upper("jpg") == "JPG" && Upper("png") == "PNG"
  {
  }

  /** The rasteriser format is the image token upper-cased, whatever case it came in. */
  lemma RasterFormatOfImageToken(token: string)
    requires Lower(token) in ImageTokens
    ensures Upper(token) in {"JPEG", "JPG", "PNG"}
  {
    UpperForgetsCase(token);
    UpperImageTokens();
  }

  /**
   * For an output path the route builds, pdf2pic reads the upload and is
   * asked to render page 1 only and to save it under that path (directory
   * and file name), at 300 dpi, 2480 by 3508 pixels, in the upper-cased
   * format the client named. The file it writes is the one it reports.
   */
  lemma RasterCallForRouteOutput(input: string, baseDir: string, now: nat, token: string)
    requires baseDir != [] && baseDir != [Separator]
    requires Resolve(token) == Some(Image)
    ensures var c := RasterCallFor(input, OutputPath(baseDir, now, Image, token), token);
      && c.source == input
      && c.page == 1
      && Join(c.options.savePath, c.options.saveFilename) == OutputPath(baseDir, now, Image, token)
      && c.options.saveFilename == OutputPrefix + Decimal(now) + "." + token
      && c.options.format == Upper(token)
      && c.options.format in {"JPEG", "JPG", "PNG"}
      && c.options.density == 300 && c.options.width == 2480 && c.options.height == 3508
  {
    var output := OutputPath(baseDir, now, Image, token);
    var name := OutputPrefix + Decimal(now) + Extension(Image, token);
    OutputFileName(baseDir, now, Image, token);
    assert Basename(output) == name && Dirname(output) == baseDir;
    assert name == OutputPrefix + Decimal(now) + "." + token;
    RasterFormatOfImageToken(token);
  }

  /** The page `convertPdfToHtml` writes, up to the extracted text. */
  const HtmlHead: string :=
    "<!DOCTYPE html>\n<html lang=\"en\">\n<head>\n    <meta charset=\"UTF-8\">\n"
    + "    <meta name=\"viewport\" content=\"width=device-width, initial-scale=1.0\">\n"
    + "    <title>Converted PDF</title>\n</head>\n<body>\n    <pre>"

  /** The page after the extracted text. */
  const HtmlTail: string := "</pre>\n</body>\n</html>"

  /** The HTML document for the extracted `text`, spliced in without escaping. */
  function HtmlPage(text: string): (html: string)
    ensures |html| == |HtmlHead| + |text| + |HtmlTail|
    ensures html[..|HtmlHead|] == HtmlHead
    ensures html[|HtmlHead|..|HtmlHead| + |text|] == text
    ensures html[|HtmlHead| + |text|..] == HtmlTail
  {
    HtmlHead + text + HtmlTail
  }

  /** What lies between the fixed head and tail of a page, if it has that shape. */
  function PreText(html: string): (text: Option<string>)
    ensures text.Some? ==> |html| == |HtmlHead| + |text.value| + |HtmlTail|
  {
    if |html| >= |HtmlHead| + |HtmlTail|
       && html[..|HtmlHead|] == HtmlHead
       && html[|html| - |HtmlTail|..] == HtmlTail
    then Some(html[|HtmlHead|..|html| - |HtmlTail|])
    else None
  }

  /**
   * The extracted text comes back out of the page unchanged, whatever it
   * contains, markup and "</pre>" included.
   */
  lemma PreTextOfHtmlPage(text: string)
    ensures PreText(HtmlPage(text)) == Some(text)
  {
  }

  /** Only the page of a text is read back as that text. */
  lemma PreTextRecoversPage(html: string, text: string)
    requires PreText(html) == Some(text)
    ensures html == HtmlPage(text)
  {
  }

  /** Different texts give different pages. */
  lemma HtmlPageInjective(a: string, b: string)
    requires HtmlPage(a) == HtmlPage(b)
    ensures a == b
  {
  }
}
