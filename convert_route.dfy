/**
 * The POST /convert route shared by functions/api.js and index.js: reject a
 * request without a file, resolve the format, call the selected converter,
 * send the result as a download and, in the download callback, unlink the
 * uploaded input and the result. `Handle` says what one request leads to;
 * `Serve` performs the same steps one after the other on a scratch storage.
 */
module ConvertRoute {
  import opened Wrappers
  import opened JsStrings
  import opened NodePath
  import opened Dispatch
  import opened Converters

  /** `req.file`: the upload multer stored, if the request carried one. */
  datatype Upload = NoFile | Uploaded(path: string)

  /** What the route reads from a request: the stored upload and the `format` field. */
  datatype ConvertRequest = ConvertRequest(file: Upload, format: Option<string>)

  /** What `res.download` reports to its callback. */
  datatype Delivery = Delivered | SendFailed

  /** The response the route sends. */
  datatype Response = Reply(status: nat, body: string) | Download(path: string, filename: string)

  /**
   * One converter call: which converter, with which input and output paths,
   * and the format argument the image converter alone is passed.
   */
  datatype Invocation = Invocation(variant: Variant, input: string, output: string, format: Option<string>)

  /** The third argument of the call: the token as sent, for the image converter only. */
  function FormatArgument(v: Variant, token: string): (f: Option<string>)
    ensures f.Some? <==> v.Image?
    ensures f.Some? ==> f.value == token
  {
    if v.Image? then Some(token) else None
  }

  /**
   * Where the route runs: the directory outputs are named under, and
   * whether the converter functions are defined beside the route.
   */
  datatype Site = Site(baseDir: string, convertersDefined: bool)

  /**
   * Everything one request leads to: the response, the converter that ran,
   * the file the conversion left behind and the paths unlinked afterwards,
   * in the order the unlinks are started.
   */
  datatype Outcome = Outcome(response: Response, ran: Option<Invocation>,
                             produced: Option<string>, unlinked: seq<string>)

  const NoFileMessage: string := "No file uploaded."
  const UnsupportedMessage: string := "Unsupported format"
  const ConversionErrorPrefix: string := "An error occurred during conversion: "
  const SendErrorMessage: string := "Error sending file"

  function Status(r: Response): nat {
    match r
    case Reply(status, _) => status
    case Download(_, _) => 200
  }

  /**
   * The awaited call in the selected `case`. Where the converter names are
   * not defined, evaluating the call throws a ReferenceError whose message
   * is "<name> is not defined".
   */
  function Call(site: Site, v: Variant, output: string, step: LibraryStep): (r: Result<string>)
    // a result exists exactly when the functions are there and the libraries finish
    ensures r.Success? <==> site.convertersDefined && step.Finishes?
    ensures r.Success? ==> r.value == (if v.Image? then step.rasterPath else output)
    // the failure message names the library's error, or else the missing function
    ensures r.Failure? && site.convertersDefined ==> r.message == step.message
    ensures r.Failure? && !site.convertersDefined ==> r.message == ConverterName(v) + " is not defined"
  {
    if site.convertersDefined then RunConverter(v, output, step)
    else Failure(ConverterName(v) + " is not defined")
  }

  /** The token the `switch` looks at for a request. */
  function Token(req: ConvertRequest): string {
    TargetFormat(req.format)
  }

  /** What one POST /convert leads to, for the clock reading `now`. */
  function Handle(site: Site, req: ConvertRequest, now: nat, step: LibraryStep, delivery: Delivery): (o: Outcome)
    // a file is produced exactly when an uploaded file meets a recognised token, defined
    // converters and libraries that finish; it is the output path, or pdf2pic's for images
    ensures o.produced.Some? <==>
      req.file.Uploaded? && Resolve(Token(req)).Some? && site.convertersDefined && step.Finishes?
    ensures o.produced.Some? ==>
      o.produced.value == if Resolve(Token(req)) == Some(Image) then step.rasterPath
                          else OutputPath(site.baseDir, now, Resolve(Token(req)).value, Token(req))
    // cleanup happens exactly when a conversion produced a file, and then covers input and result
    ensures o.unlinked != [] <==> o.produced.Some?
    ensures o.produced.Some? ==> req.file.Uploaded? && o.unlinked == [req.file.path, o.produced.value]
    // the two client errors are exactly the missing upload and the unknown format
    ensures Status(o.response) == 400 <==> req.file.NoFile? || Resolve(Token(req)).None?
    // a download is sent only when delivery succeeded, and it is the produced file
    ensures o.response.Download? <==> o.produced.Some? && delivery.Delivered?
    ensures o.response.Download? ==>
      o.response.path == o.produced.value && o.response.filename == Basename(o.produced.value)
    // a converter ran only on an uploaded file and a recognised token, with the output path for it
    ensures o.ran.Some? ==>
      && req.file.Uploaded? && site.convertersDefined
      && Resolve(Token(req)) == Some(o.ran.value.variant)
      && o.ran.value.input == req.file.path
      && o.ran.value.output == OutputPath(site.baseDir, now, o.ran.value.variant, Token(req))
      && o.ran.value.format == FormatArgument(o.ran.value.variant, Token(req))
  {
    match req.file
    case NoFile => Outcome(Reply(400, NoFileMessage), None, None, [])
    case Uploaded(input) =>
      var token := Token(req);
      match Resolve(token)
      case None => Outcome(Reply(400, UnsupportedMessage), None, None, [])
      case Some(v) =>
        var output := OutputPath(site.baseDir, now, v, token);
        var ran := if site.convertersDefined
                   then Some(Invocation(v, input, output, FormatArgument(v, token))) else None;
        match Call(site, v, output, step)
        case Failure(msg) => Outcome(Reply(500, ConversionErrorPrefix + msg), ran, None, [])
        case Success(result) =>
          var response := if delivery.Delivered? then Download(result, Basename(result))
                          else Reply(500, SendErrorMessage);
          Outcome(response, ran, Some(result), [input, result])
  }

  /** The scratch files left after the request, starting from `before`. */
  function Remaining(before: set<string>, o: Outcome): set<string> {
    var written := if o.produced.Some? then {o.produced.value} else {};
    (before + written) - set p | p in o.unlinked
  }

  /** Without an upload: 400 "No file uploaded.", no converter, nothing deleted. */
  lemma NoFileRejected(site: Site, req: ConvertRequest, now: nat, step: LibraryStep, delivery: Delivery,
                       before: set<string>)
    requires req.file.NoFile?
    ensures var o := Handle(site, req, now, step, delivery);
      o.response == Reply(400, NoFileMessage) && o.ran.None? && Remaining(before, o) == before
  {
  }

  /** An unknown token: 400 "Unsupported format", no converter, the upload stays. */
  lemma UnsupportedRejected(site: Site, req: ConvertRequest, now: nat, step: LibraryStep, delivery: Delivery,
                            before: set<string>)
    requires req.file.Uploaded? && Resolve(Token(req)).None?
    ensures var o := Handle(site, req, now, step, delivery);
      o.response == Reply(400, UnsupportedMessage) && o.ran.None? && Remaining(before, o) == before
  {
  }

  /**
   * A missing or empty format field is handled exactly as "pdf", and tokens
   * that agree up to case reach the same converter and the same response
   * status; outside the image branch the whole outcome is the same.
   */
  lemma FormatDefaultsAndIgnoresCase(site: Site, file: Upload, f1: Option<string>, f2: Option<string>,
                                     now: nat, step: LibraryStep, delivery: Delivery)
    requires Lower(TargetFormat(f1)) == Lower(TargetFormat(f2))
    ensures var o1 := Handle(site, ConvertRequest(file, f1), now, step, delivery);
            var o2 := Handle(site, ConvertRequest(file, f2), now, step, delivery);
      && Status(o1.response) == Status(o2.response)
      && (o1.ran.Some? <==> o2.ran.Some?)
      && (o1.ran.Some? ==> o1.ran.value.variant == o2.ran.value.variant)
      && (Resolve(TargetFormat(f1)) != Some(Image) ==> o1 == o2)
  {
    var t1, t2 := TargetFormat(f1), TargetFormat(f2);
    ResolveIgnoresCase(t1, t2);
    if file.Uploaded? && Resolve(t1).Some? {
      ConvertingIgnoresCase(site, file, f1, f2, now, step, delivery);
    }
  }

  /** `FormatDefaultsAndIgnoresCase` for an upload whose token selects a converter. */
  lemma ConvertingIgnoresCase(site: Site, file: Upload, f1: Option<string>, f2: Option<string>,
                             now: nat, step: LibraryStep, delivery: Delivery)
    requires Lower(TargetFormat(f1)) == Lower(TargetFormat(f2))
    requires file.Uploaded? && Resolve(TargetFormat(f1)).Some?
    ensures var o1 := Handle(site, ConvertRequest(file, f1), now, step, delivery);
            var o2 := Handle(site, ConvertRequest(file, f2), now, step, delivery);
      && Status(o1.response) == Status(o2.response)
      && (o1.ran.Some? <==> o2.ran.Some?)
      && (o1.ran.Some? ==> o1.ran.value.variant == o2.ran.value.variant)
      && (Resolve(TargetFormat(f1)) != Some(Image) ==> o1 == o2)
  {
    var t1, t2 := TargetFormat(f1), TargetFormat(f2);
    ResolveIgnoresCase(t1, t2);
    var v := Resolve(t1).value;
    if v != Image {
      assert Extension(v, t1) == Extension(v, t2);
      assert OutputPath(site.baseDir, now, v, t1) == OutputPath(site.baseDir, now, v, t2);
      assert FormatArgument(v, t1) == FormatArgument(v, t2) == None;
    }
  }

  /**
   * With the converters defined, an uploaded file and a recognised token run
   * exactly the converter for that token, on the upload and the output path
   * built from the clock reading.
   */
  lemma ConverterSelected(site: Site, req: ConvertRequest, now: nat, step: LibraryStep, delivery: Delivery)
    requires site.convertersDefined && req.file.Uploaded?
    requires Resolve(Token(req)).Some?
    ensures var v := Resolve(Token(req)).value;
      Handle(site, req, now, step, delivery).ran
        == Some(Invocation(v, req.file.path, OutputPath(site.baseDir, now, v, Token(req)), FormatArgument(v, Token(req))))
  {
  }

  /**
   * The success path: with the converters defined, a finishing conversion
   * of an uploaded file leaves one file, and a delivered response is a 200
   * download of it. The file is the output path built for the token, named
   * converted_<now> plus the fixed extension, or for the image converter
   * the path pdf2pic reports.
   */
  lemma ConversionSucceeds(site: Site, req: ConvertRequest, now: nat, raster: string)
    requires site.convertersDefined && req.file.Uploaded?
    requires Resolve(Token(req)).Some?
    ensures var v := Resolve(Token(req)).value;
            var p := if v.Image? then raster else OutputPath(site.baseDir, now, v, Token(req));
            var o := Handle(site, req, now, Finishes(raster), Delivered);
      && o.produced == Some(p)
      && o.response == Download(p, Basename(p))
      && Status(o.response) == 200
      && o.unlinked == [req.file.path, p]
      && (!v.Image? ==> Basename(p) == OutputPrefix + Decimal(now) + Extension(v, Token(req)))
  {
    var v := Resolve(Token(req)).value;
    OutputFileName(site.baseDir, now, v, Token(req));
  }

  /**
   * The image converter is passed the token as sent, and the rasteriser call
   * it makes renders page 1 only and is asked to save it under the route's
   * output path, in that token upper-cased.
   */
  lemma ImageConversionRequest(site: Site, req: ConvertRequest, now: nat, step: LibraryStep, delivery: Delivery)
    requires site.baseDir != [] && site.baseDir != [Separator]
    requires Handle(site, req, now, step, delivery).ran.Some?
    requires Handle(site, req, now, step, delivery).ran.value.variant.Image?
    ensures var inv := Handle(site, req, now, step, delivery).ran.value;
            var c := RasterCallFor(inv.input, inv.output, inv.format.value);
      && inv.format == Some(Token(req))
      && c.source == req.file.path
      && c.page == 1
      && Join(c.options.savePath, c.options.saveFilename) == inv.output
      && c.options.format == Upper(Token(req))
      && c.options.format in {"JPEG", "JPG", "PNG"}
  {
    RasterCallForRouteOutput(req.file.path, site.baseDir, now, Token(req));
  }

  /** The converter a site with its converters runs for a request that reaches one. */
  lemma ConvertingInvocation(site: Site, req: ConvertRequest, now: nat, step: LibraryStep, delivery: Delivery)
    requires site.convertersDefined && req.file.Uploaded? && Resolve(Token(req)).Some?
    ensures var t := Token(req);
            var v := Resolve(t).value;
            var n := OutputPrefix + Decimal(now) + Extension(v, t);
      && (forall j :: 0 <= j < |n| ==> n[j] != Separator)
      && Handle(site, req, now, step, delivery).ran
         == Some(Invocation(v, req.file.path, Join(site.baseDir, n), FormatArgument(v, t)))
  {
    var t := Token(req);
    OutputFileName(site.baseDir, now, Resolve(t).value, t);
  }

  /**
   * A request that reaches a converter on a site with its converters: the
   * invocation, the produced file, the unlinks and the response, written out
   * for the output name `n` under the site's base directory.
   */
  lemma ConvertingOutcome(site: Site, req: ConvertRequest, now: nat, step: LibraryStep, delivery: Delivery)
    requires site.convertersDefined && req.file.Uploaded? && Resolve(Token(req)).Some?
    ensures var o, t := Handle(site, req, now, step, delivery), Token(req);
            var v := Resolve(t).value;
            var n := OutputPrefix + Decimal(now) + Extension(v, t);
            var p := if v.Image? && step.Finishes? then step.rasterPath else Join(site.baseDir, n);
      && (forall j :: 0 <= j < |n| ==> n[j] != Separator)
      && o.ran == Some(Invocation(v, req.file.path, Join(site.baseDir, n), FormatArgument(v, t)))
      && o.produced == (if step.Finishes? then Some(p) else None)
      && o.unlinked == (if step.Finishes? then [req.file.path, p] else [])
      && o.response == (if step.Throws? then Reply(500, ConversionErrorPrefix + step.message)
                        else if delivery.Delivered? then Download(p, Basename(p))
                        else Reply(500, SendErrorMessage))
      && Status(o.response) == (if step.Finishes? && delivery.Delivered? then 200 else 500)
  {
    var t := Token(req);
    var v := Resolve(t).value;
    OutputFileName(site.baseDir, now, v, t);
  }

  /** A throwing conversion: 500 with the error message appended, and no cleanup at all. */
  lemma ConversionErrorReported(site: Site, req: ConvertRequest, now: nat, message: string,
                                delivery: Delivery, before: set<string>)
    requires site.convertersDefined && req.file.Uploaded? && Resolve(Token(req)).Some?
    ensures var o := Handle(site, req, now, Throws(message), delivery);
      && o.response == Reply(500, ConversionErrorPrefix + message)
      && o.unlinked == []
      && Remaining(before, o) == before
  {
  }

  /**
   * After a successful conversion, the download callback unlinks the input
   * and the result whether or not sending failed; a failed send only turns
   * the response into 500 "Error sending file".
   */
  lemma CleanupAfterDownload(site: Site, req: ConvertRequest, now: nat, step: LibraryStep, delivery: Delivery)
    requires Handle(site, req, now, step, delivery).produced.Some?
    ensures var o := Handle(site, req, now, step, delivery);
      && o.unlinked == [req.file.path, o.produced.value]
      && o.unlinked == Handle(site, req, now, step, Delivered).unlinked
      && o.unlinked == Handle(site, req, now, step, SendFailed).unlinked
      && (delivery.SendFailed? ==> o.response == Reply(500, SendErrorMessage))
  {
  }

  /**
   * The stored upload is still there after the request exactly when no
   * conversion produced a file: the two 400 paths and the error path leave
   * it behind.
   */
  lemma UploadKeptUnlessConverted(site: Site, req: ConvertRequest, now: nat, step: LibraryStep,
                                  delivery: Delivery, before: set<string>)
    requires req.file.Uploaded? && req.file.path in before
    ensures var o := Handle(site, req, now, step, delivery);
      req.file.path in Remaining(before, o) <==> o.produced.None?
  {
  }

  /** The request never leaves its result behind, and touches no other file. */
  lemma OnlyOwnFilesTouched(site: Site, req: ConvertRequest, now: nat, step: LibraryStep,
                            delivery: Delivery, before: set<string>, p: string)
    ensures var o := Handle(site, req, now, step, delivery);
      && (o.produced.Some? ==> o.produced.value !in Remaining(before, o))
      && (p !in o.unlinked ==> (p in Remaining(before, o) <==> p in before))
  {
  }

  /** The scratch storage the route writes to and unlinks from. */
  class ScratchStorage {
    var files: set<string>

    constructor (initial: set<string>)
      ensures files == initial
    {
      files := initial;
    }

    /** A converter writing its result. */
    method Write(path: string)
      modifies this
      ensures files == old(files) + {path}
    {
      files := files + {path};
    }

    /** `fs.unlink(path)`: `removed` is false when the file was not there (the error is only logged). */
    method Unlink(path: string) returns (removed: bool)
      modifies this
      ensures removed <==> path in old(files)
      ensures files == old(files) - {path}
    {
      removed := path in files;
      files := files - {path};
    }
  }

  /**
   * The route's steps in order: the upload check, the naming, the `switch`
   * that assigns `result`, the awaited conversion, the download and the two
   * unlinks of its callback.
   */
  method Serve(site: Site, storage: ScratchStorage, req: ConvertRequest, now: nat,
               step: LibraryStep, delivery: Delivery) returns (response: Response, ran: Option<Invocation>)
    modifies storage
    ensures response == Handle(site, req, now, step, delivery).response
    ensures ran == Handle(site, req, now, step, delivery).ran
    ensures storage.files == Remaining(old(storage.files), Handle(site, req, now, step, delivery))
  {
    if req.file.NoFile? {
      return Reply(400, NoFileMessage), None;
    }
    var inputPath := req.file.path;
    var outputPath := OutputBase(site.baseDir, now);
    var targetFormat := TargetFormat(req.format);
    var variant := Resolve(targetFormat);
    if variant.None? {
      return Reply(400, UnsupportedMessage), None;
    }
    var v := variant.value;
    var output := outputPath + Extension(v, targetFormat);
    assert output == OutputPath(site.baseDir, now, v, Token(req));
    var result: Result<string>;
    if site.convertersDefined {
      ran := Some(Invocation(v, inputPath, output, FormatArgument(v, targetFormat)));
      result := RunConverter(v, output, step);
    } else {
      ran := None;
      result := Failure(ConverterName(v) + " is not defined");
    }
    if result.Failure? {
      return Reply(500, ConversionErrorPrefix + result.message), ran;
    }
    storage.Write(result.value);
    if delivery.Delivered? {
      response := Download(result.value, Basename(result.value));
    } else {
      response := Reply(500, SendErrorMessage);
    }
    var inputRemoved := storage.Unlink(inputPath);
    var resultRemoved := storage.Unlink(result.value);
  }
}
