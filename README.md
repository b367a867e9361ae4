# PDF conversion API: the POST /convert route

This project models the conversion route of a small Express service. A client
uploads a document in the multipart field `pdf` and may name a target in the
text field `format`. The route then:

- rejects a request without a file (400 `No file uploaded.`);
- takes `format`, falling back to `"pdf"` when it is missing or empty;
- lower-cases it and picks one of five converters (`pdf`, `word`, `excel`,
  `jpeg`/`jpg`/`png`, `html`), or answers 400 `Unsupported format`;
- names the output `converted_<Date.now()>` under a base directory, with an
  extension per converter (the image branch reuses the token as sent);
- awaits the converter, answering 500 `An error occurred during conversion:
  <message>` if it throws;
- sends the result with `res.download`, and in the download callback answers
  500 `Error sending file` if sending failed and starts an unlink of the
  uploaded input and of the result either way.

The same route exists twice: `functions/api.js` (served through
serverless-http, outputs under `/tmp`) and `index.js` (a listener of its own,
outputs under `outputs`). `index.js` calls converter functions it does not
define.

Modules, one per component:

- `JsStrings` (js_strings.dfy): `toLowerCase`, `toUpperCase`, and the decimal
  rendering of the timestamp.
- `NodePath` (node_path.dfy): `path.join`, `path.basename`, `path.dirname`.
- `Dispatch` (dispatch.dfy): the `format` default, the `switch`, extensions
  and output naming.
- `Converters` (converters.dfy): what each conversion function returns. It
  also holds the fixed pdf2pic options and the HTML page template. The
  libraries themselves are one opaque step that finishes or throws.
- `ConvertRoute` (convert_route.dfy): the route, for any base directory.
  `Handle` gives the outcome of one request as a value. `ScratchStorage` is
  the set of files in scratch storage. `Serve` runs the route step by step
  on that storage and is proved to agree with `Handle`.
- `ServerlessApi` (serverless_api.dfy) and `Standalone` (standalone.dfy): the
  two entry points.

Inputs the route takes from outside are parameters: the clock reading
(`now`), the converter library's behaviour (`LibraryStep`: finishes, with the
path pdf2pic reports, or throws a message) and the outcome of sending
(`Delivery`).

## Model

| member | source | states |
|---|---|---|
| `JsStrings.Lower` | functions/api.js:36 | the lower-cased token has the same length and maps each character on its own |
| `JsStrings.Upper` | functions/api.js:116 | the upper-cased format has the same length and maps each character on its own |
| `JsStrings.LowerForgetsCase` | functions/api.js:36 | lower-casing gives the same string whatever case the token was sent in, and is idempotent |
| `JsStrings.UpperForgetsCase` | functions/api.js:116 | upper-casing ignores the case the token was sent in |
| `JsStrings.Decimal` | functions/api.js:30 | the rendered timestamp is a non-empty string of digits ending in the last digit of the number |
| `JsStrings.DecimalInjective` | functions/api.js:30 | different timestamps render as different strings |
| `JsStrings.DecimalValue` | functions/api.js:30 | the rendered timestamp reads back as the number, and it starts with 0 only for 0 (no leading zeros) |
| `NodePath.Basename` | functions/api.js:60 | the download file name contains no separator |
| `NodePath.Join` | functions/api.js:30 | the joined path is the directory, exactly one separator, then the name |
| `NodePath.Dirname` | functions/api.js:115 | a path without a separator has dirname "." and is its own basename; a path whose only separator is the leading one has dirname "/"; otherwise dirname and basename join back to the path |
| `NodePath.SplitJoin` | functions/api.js:114-115 | basename and dirname recover the file name and the directory that join put together |
| `Dispatch.TargetFormat` | functions/api.js:31 | a missing or empty field gives "pdf", and any other value is kept exactly as sent |
| `Dispatch.Resolve` | functions/api.js:36-56 | a converter is selected iff the lower-cased token is one of the seven tokens, and the image converter iff it is jpeg, jpg or png |
| `Dispatch.ResolveSelectsOwner` | functions/api.js:37-53 | each token selects exactly the converter whose case lists it |
| `Dispatch.ResolveIgnoresCase` | functions/api.js:36 | tokens equal up to case, such as PDF, Pdf and pdf, select the same converter |
| `Dispatch.Extension` | functions/api.js:38-52 | the extension starts with a dot; for the image branch the rest is the token as sent; otherwise it is one of .pdf, .docx, .xlsx, .html |
| `Dispatch.ExtensionByToken` | functions/api.js:37-53 | every recognised document token gets the extension listed for its lower-cased form (pdf .pdf, word .docx, excel .xlsx, html .html), and the output path ends in it |
| `Dispatch.OutputPath` | functions/api.js:38-52 | the path a converter is given is the base directory joined with converted_, the timestamp's digits and the extension for its variant |
| `Dispatch.OutputFileName` | functions/api.js:30-52 | the output lies directly in the base directory and is named converted_ plus the timestamp plus the extension, and the image branch keeps the token's case |
| `Dispatch.OutputPathsDifferAcrossTimestamps` | functions/api.js:30 | requests handled at different clock readings never share an output path, whatever formats they asked for |
| `Converters.ConverterName` | index.js:43-57 | each name called from the switch is a convertPdf function |
| `Converters.RunConverter` | functions/api.js:75-143 | a converter fails exactly when the library throws, with that message; the document converters return the output path they were given; the image converter returns the path pdf2pic reports |
| `Converters.ConverterNamesDistinct` | index.js:43-57 | the five converters are called under five different names |
| `Converters.RasterFormatOfImageToken` | functions/api.js:116 | the raster format is JPEG, JPG or PNG for every spelling of an image token |
| `Converters.RasterCallFor` | functions/api.js:110-121 | pdf2pic is called on the upload for page 1 only, in the upper-cased format, at density 300 and 2480 by 3508; for an output below the root, the savePath and saveFilename it is given join back to that output |
| `Converters.RasterCallForRouteOutput` | functions/api.js:110-123 | pdf2pic reads the upload and renders page 1 only, at density 300, 2480 by 3508, in the upper-cased format; it is asked to save under the route's output path (the savePath and saveFilename options join back to it), and the image it writes is the path it reports |
| `Converters.HtmlPage` | functions/api.js:129-139 | the page is the fixed head, the extracted text verbatim and the fixed tail |
| `Converters.PreTextOfHtmlPage` | functions/api.js:137 | reading the text between head and tail gives back the extracted text unchanged, markup included, because nothing is escaped |
| `Converters.PreTextRecoversPage` | functions/api.js:129-139 | any page with the fixed head and tail is the page of the text between them |
| `Converters.HtmlPageInjective` | functions/api.js:137 | different extracted texts give different pages |
| `ConvertRoute.Handle` | functions/api.js:21-73 | a file is produced exactly when an uploaded file meets a recognised token and the converter finishes, and it is the token's output path (for images the path pdf2pic reports); unlinks happen exactly when a file was produced, and cover the input and the result; the status is 400 exactly for a missing file or an unknown token; a download is sent exactly when a file was produced and sent, and it is that file; a converter runs only on the upload and on the output path for its token |
| `ConvertRoute.Call` | index.js:43-57 | an awaited converter call gives a result exactly when the function is defined and the library finishes; the result is the output path, or for images the path pdf2pic reports; the error message is the library's, or "<name> is not defined" when the function is missing |
| `ConvertRoute.NoFileRejected` | functions/api.js:23-25 | without an upload the response is 400 "No file uploaded.", no converter runs and storage is unchanged |
| `ConvertRoute.UnsupportedRejected` | functions/api.js:54-55 | an unknown token gives 400 "Unsupported format", no converter runs and the upload stays |
| `ConvertRoute.FormatDefaultsAndIgnoresCase` | functions/api.js:31-36 | on either entry point, formats equal up to case (a missing or empty field counting as "pdf") give the same status and converter, and outside the image branch the same outcome |
| `ConvertRoute.ConvertingIgnoresCase` | functions/api.js:31-53 | for an upload whose token selects a converter, formats equal up to case give the same status and converter, and outside the image branch the same outcome |
| `ConvertRoute.ConverterSelected` | functions/api.js:36-53 | a recognised token runs exactly its converter, on the upload and on the output path built from the clock, passing the token as sent to the image converter only |
| `ConvertRoute.ConversionSucceeds` | functions/api.js:38-60 | with the converters defined, a finishing conversion that is delivered produces one file and answers a 200 download of it under its base name; the file is the route's output path named converted_<now> plus the extension, or for images the path pdf2pic reports; input and file are then unlinked |
| `ConvertRoute.ImageConversionRequest` | functions/api.js:46-50 | the image converter is passed the token as sent, and its rasteriser call reads the upload, renders page 1 only, in the token upper-cased (JPEG, JPG or PNG), and is asked to save under the route's output path (savePath and saveFilename join back to it); the file pdf2pic actually writes is the path it reports |
| `ConvertRoute.ConvertingInvocation` | functions/api.js:29-52 | with the converters defined, an upload with a recognised token runs its converter on the upload and on the base directory joined with a file name that holds no separator, with the token passed to the image converter only |
| `ConvertRoute.ConvertingOutcome` | functions/api.js:36-71 | for such a request: a throw answers 500 with the message and produces nothing; a finish produces the output path (for images the path pdf2pic reports), unlinks the input and that file, and answers a download of it (status 200) or 500 "Error sending file" |
| `ConvertRoute.ConversionErrorReported` | functions/api.js:69-71 | a throwing converter gives 500 with the message appended, and nothing is unlinked |
| `ConvertRoute.CleanupAfterDownload` | functions/api.js:60-68 | after a successful conversion both input and result are unlinked whether or not the send failed, and a failed send answers 500 "Error sending file" |
| `ConvertRoute.UploadKeptUnlessConverted` | functions/api.js:54-71 | the upload survives the request exactly when no conversion produced a file |
| `ConvertRoute.OnlyOwnFilesTouched` | functions/api.js:60-68 | the produced file never survives, and no file other than the input and the result changes |
| `ConvertRoute.ScratchStorage.Write` | functions/api.js:79 | writing a result adds its path to storage |
| `ConvertRoute.ScratchStorage.Unlink` | functions/api.js:66-67 | unlinking removes the path and reports whether it was there |
| `ConvertRoute.Serve` | functions/api.js:21-73 | the step-by-step route sends the response of Handle, runs its converter, and leaves storage as Handle's unlinks and produced file say |
| `ServerlessApi.OutputUnderTmp` | functions/api.js:30 | every output is /tmp/converted_ plus the timestamp plus the extension |
| `ServerlessApi.UpperCaseImageToken` | functions/api.js:46-50 | "PNG" runs the image converter on /tmp/converted_42.PNG with raster format PNG |
| `ServerlessApi.PdfSpellings` | functions/api.js:31-39 | a missing field, "", "PDF" and "Pdf" all give the same outcome as pdf, running convertPdfToPdf on the .pdf output |
| `Standalone.AsWrittenConversionAlwaysFails` | index.js:41-76 | with a file and a recognised token the response is 500 with "<converter> is not defined", whatever the libraries do |
| `Standalone.AsWrittenNeverDownloads` | index.js:26-78 | no file gives 400 "No file uploaded.", an unknown token 400 "Unsupported format", every other request 500; nothing is ever unlinked |
| `Standalone.PlainPdfRequestFails` | index.js:41-43 | a PDF upload without a format field is answered 500 "An error occurred during conversion: convertPdfToPdf is not defined" |
| `Standalone.IntendedMatchesApi` | index.js:35-73 | with its converters in place, index.js answers every request with the same status as functions/api.js, the same response whenever nothing was produced, the same converter, upload and format argument, and unlinks the same upload; a produced document is outputs/<n> where functions/api.js has /tmp/<n>, and an image is the same reported path |
| `Standalone.ConvertingResponsesAgree` | index.js:41-76 | for a request that reaches a converter, both entry points answer with the same status, give the same response when nothing was produced, produce a file together and unlink the same upload |
| `Standalone.ConvertingInvocationsAgree` | index.js:35-57 | for such a request, both run the same converter on the same upload with the same format argument, index.js in outputs and functions/api.js in /tmp, under the same file name |
| `Standalone.ConvertingProductsAgree` | index.js:41-72 | for such a request, an image is the same reported path on both, and a document is outputs/<n> against /tmp/<n> |
| `Standalone.RejectedRequestMatchesApi` | index.js:28-60 | a missing upload or an unknown token gets the same 400 response on both entry points, with no converter, no file produced and nothing unlinked |
| `Standalone.IntendedResultDiffersFromApi` | index.js:35 | for the same document request the two entry points delete different result files, outputs/… against /tmp/… |

## Left out

- Express routing, the GET / liveness route, multer's upload decoding, the serverless-http wrapper and the streaming inside `res.download`. The upload is a stored path or nothing, and delivery is an opaque success or failure.
- The libraries' work: pdf-lib load and save, pdf-parse text extraction, the docx Packer, exceljs, pdf2pic rasterisation, and the unused `sharp` import. Each conversion is one step that finishes or throws. Files are tracked by path only, not by content, so the HTML page is modelled as a function of the extracted text but is not tied to a stored file.
- Partial output left by a converter that throws partway is not modelled. A file exists only when the conversion finishes.
- A pdf2pic result without a `path`, which would make `path.basename` throw inside the try block, is not modelled.
- `Date.now()` is the parameter `now`. Two requests in the same millisecond with the same format would share an output path. This cross-request race is not modelled; only different timestamps are shown to give different paths.
- A send that fails after headers were committed is not modelled: `res.status(500).send` would then throw before the unlinks. Every send failure is treated as one reported before the response started.
- The unlinks are fire-and-forget promises. They are modelled as completing, and their failures as only reported (logged in the source).
- A `format` field that is not one string, for example a repeated field, is not modelled. There `toLowerCase` would throw.
- A thrown value without a `message` is not modelled. The error message is a string.
- index.js directory creation at start-up, the port and listener, the process-level `uncaughtException` and `unhandledRejection` handlers, and all console logging.
- JsStrings.Lower: maps only A-Z. Unicode case mapping is not modelled. No other character lower-cases into a letter of the seven tokens except the Kelvin sign (to k), and no token contains k, so dispatch is unaffected.
- JsStrings.Upper: maps only a-z. The upper-cased text only matters for tokens that already matched an image token.
- NodePath.Basename: does not strip trailing separators, and NodePath.Dirname does not collapse doubled ones. The paths the route builds contain neither. pdf2pic's reported path is taken as it comes.
- The input is unlinked only inside the download callback (functions/api.js:66), so both 400 paths and the catch path leave the upload in place. The model keeps that behaviour (`ConvertRoute.UploadKeptUnlessConverted`) rather than cleaning up on every path.

## Findings

| source | as written | input that shows it | evidently intended | confidence | as-written member | corrected member |
|---|---|---|---|---|---|---|
| index.js:43-57 | the switch calls convertPdfToPdf, convertPdfToWord, convertPdfToExcel, convertPdfToImage and convertPdfToHtml. index.js never defines them: line 80 is only a placeholder comment. Each call throws a ReferenceError, and the catch at lines 74-76 answers 500 | a PDF upload with no `format` field gets 500 "An error occurred during conversion: convertPdfToPdf is not defined", and the upload is never deleted | the conversion functions of functions/api.js kept in index.js, so the route behaves as in functions/api.js with outputs under `outputs` | high; not executed | `Standalone.PlainPdfRequestFails` | `Standalone.IntendedMatchesApi` |
