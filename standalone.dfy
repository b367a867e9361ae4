/**
 * index.js: the same route served by a listener of its own, naming its
 * outputs under "outputs". The converter functions it calls are not
 * defined in that file (line 80 only says to keep them), so as written
 * every recognised format ends in the catch branch. `Intended` is the
 * route with the converters of functions/api.js in place.
 */
module Standalone {
  import opened Wrappers
  import opened JsStrings
  import opened NodePath
  import opened Dispatch
  import opened Converters
  import opened ConvertRoute
  import ServerlessApi

  const OutputsDir: string := "outputs"

  /** index.js as it stands: the converter names are unbound. */
  const AsWritten: Site := Site(OutputsDir, false)

  /** index.js with the conversion functions it means to keep. */
  const Intended: Site := Site(OutputsDir, true)

  /**
   * As written, a request with a file and a recognised format gets 500 with
   * the ReferenceError's message, whatever the libraries would have done, and
   * no converter runs.
   */
  lemma AsWrittenConversionAlwaysFails(req: ConvertRequest, now: nat, step: LibraryStep,
                                       delivery: Delivery)
    requires req.file.Uploaded? && Resolve(Token(req)).Some?
    ensures var o := Handle(AsWritten, req, now, step, delivery);
      && o.response == Reply(500, ConversionErrorPrefix + ConverterName(Resolve(Token(req)).value) + " is not defined")
      && o.ran.None?
  {
  }

  /**
   * As written, the route answers only 400 or 500 and its download callback
   * is never reached: nothing is ever unlinked, so every upload stays.
   */
  lemma AsWrittenNeverDownloads(req: ConvertRequest, now: nat, step: LibraryStep, delivery: Delivery,
                                before: set<string>)
    ensures var o := Handle(AsWritten, req, now, step, delivery);
      && (req.file.NoFile? ==> o.response == Reply(400, NoFileMessage))
      && (req.file.Uploaded? && Resolve(Token(req)).None? ==> o.response == Reply(400, UnsupportedMessage))
      && Status(o.response) in {400, 500}
      && o.unlinked == []
      && Remaining(before, o) == before
  {
  }

  /** The input that shows it: a PDF upload with no format field. */
  lemma PlainPdfRequestFails(input: string, now: nat, step: LibraryStep, delivery: Delivery)
    ensures Handle(AsWritten, ConvertRequest(Uploaded(input), None), now, step, delivery).response
         == Reply(500, ConversionErrorPrefix + ConverterName(Pdf) + " is not defined")
    ensures ConverterName(Pdf) == "convertPdfToPdf"
  {
  }

  /**
   * With its converters in place, index.js behaves like functions/api.js
   * for every request and library behaviour: same statuses, same converter
   * on the same upload with the same format argument, same responses
   * whenever nothing was produced, and the same upload unlinked. Only the
   * directory differs: a produced document is outputs/<n> against /tmp/<n>
   * for the same name n, while an image is wherever pdf2pic reports it.
   */
  lemma {:induction false} IntendedMatchesApi(req: ConvertRequest, now: nat, step: LibraryStep,
                                              delivery: Delivery)
    ensures var o := Handle(Intended, req, now, step, delivery);
            var a := Handle(ServerlessApi.ApiSite, req, now, step, delivery);
      && Status(o.response) == Status(a.response)
      && (o.produced.None? ==> o.response == a.response)
      && (o.ran.Some? <==> a.ran.Some?)
      && (o.ran.Some? ==>
            && o.ran.value.variant == a.ran.value.variant
            && o.ran.value.input == a.ran.value.input
            && o.ran.value.format == a.ran.value.format
            && Dirname(o.ran.value.output) == OutputsDir
            && Dirname(a.ran.value.output) == ServerlessApi.TmpDir
            && Basename(o.ran.value.output) == Basename(a.ran.value.output))
      && (o.produced.Some? <==> a.produced.Some?)
      && (o.unlinked != [] ==> |a.unlinked| == |o.unlinked| == 2 && o.unlinked[0] == a.unlinked[0])
      && (o.produced.Some? && Resolve(Token(req)) == Some(Image) ==> o.produced == a.produced)
      && (o.produced.Some? && Resolve(Token(req)) != Some(Image) ==>
            var n := OutputPrefix + Decimal(now) + Extension(Resolve(Token(req)).value, Token(req));
            o.produced == Some(Join(OutputsDir, n)) && a.produced == Some(Join(ServerlessApi.TmpDir, n)))
  {
    if req.file.Uploaded? && Resolve(Token(req)).Some? {
      ConvertingResponsesAgree(req, now, step, delivery);
      ConvertingInvocationsAgree(req, now, step, delivery);
      ConvertingProductsAgree(req, now, step, delivery);
    } else {
      RejectedRequestMatchesApi(req, now, step, delivery);
    }
  }

  /** For a request that reaches a converter: the same answer and cleanup pattern on both sites. */
  lemma ConvertingResponsesAgree(req: ConvertRequest, now: nat, step: LibraryStep, delivery: Delivery)
    requires req.file.Uploaded? && Resolve(Token(req)).Some?
    ensures var o := Handle(Intended, req, now, step, delivery);
            var a := Handle(ServerlessApi.ApiSite, req, now, step, delivery);
      && Status(o.response) == Status(a.response)
      && (o.produced.None? ==> o.response == a.response)
      && (o.produced.Some? <==> a.produced.Some?)
      && (o.unlinked != [] ==> |a.unlinked| == |o.unlinked| == 2 && o.unlinked[0] == a.unlinked[0])
  {
    ConvertingOutcome(Intended, req, now, step, delivery);
    ConvertingOutcome(ServerlessApi.ApiSite, req, now, step, delivery);
  }

  /** For a request that reaches a converter: the same invocation, up to the base directory. */
  lemma ConvertingInvocationsAgree(req: ConvertRequest, now: nat, step: LibraryStep, delivery: Delivery)
    requires req.file.Uploaded? && Resolve(Token(req)).Some?
    ensures var o := Handle(Intended, req, now, step, delivery);
            var a := Handle(ServerlessApi.ApiSite, req, now, step, delivery);
      && o.ran.Some? && a.ran.Some?
      && o.ran.value.variant == a.ran.value.variant
      && o.ran.value.input == a.ran.value.input
      && o.ran.value.format == a.ran.value.format
      && Dirname(o.ran.value.output) == OutputsDir
      && Dirname(a.ran.value.output) == ServerlessApi.TmpDir
      && Basename(o.ran.value.output) == Basename(a.ran.value.output)
  {
    ConvertingInvocation(Intended, req, now, step, delivery);
    ConvertingInvocation(ServerlessApi.ApiSite, req, now, step, delivery);
    var t := Token(req);
    var n := OutputPrefix + Decimal(now) + Extension(Resolve(t).value, t);
    var po := Handle(Intended, req, now, step, delivery).ran.value.output;
    var pa := Handle(ServerlessApi.ApiSite, req, now, step, delivery).ran.value.output;
    assert po == Join(OutputsDir, n) && pa == Join(ServerlessApi.TmpDir, n);
    SplitJoin(OutputsDir, n);
    SplitJoin(ServerlessApi.TmpDir, n);
    assert Basename(po) == n == Basename(pa);
  }

  /** For a request that reaches a converter: the files produced on each site. */
  lemma ConvertingProductsAgree(req: ConvertRequest, now: nat, step: LibraryStep, delivery: Delivery)
    requires req.file.Uploaded? && Resolve(Token(req)).Some?
    ensures var o := Handle(Intended, req, now, step, delivery);
            var a := Handle(ServerlessApi.ApiSite, req, now, step, delivery);
      && (o.produced.Some? && Resolve(Token(req)) == Some(Image) ==> o.produced == a.produced)
      && (o.produced.Some? && Resolve(Token(req)) != Some(Image) ==>
            var n := OutputPrefix + Decimal(now) + Extension(Resolve(Token(req)).value, Token(req));
            o.produced == Some(Join(OutputsDir, n)) && a.produced == Some(Join(ServerlessApi.TmpDir, n)))
  {
    ConvertingOutcome(Intended, req, now, step, delivery);
    ConvertingOutcome(ServerlessApi.ApiSite, req, now, step, delivery);
  }

  /** `IntendedMatchesApi` for a request answered 400 before any converter runs. */
  lemma RejectedRequestMatchesApi(req: ConvertRequest, now: nat, step: LibraryStep, delivery: Delivery)
    requires !(req.file.Uploaded? && Resolve(Token(req)).Some?)
    ensures var o := Handle(Intended, req, now, step, delivery);
            var a := Handle(ServerlessApi.ApiSite, req, now, step, delivery);
      && o.response == a.response && Status(o.response) == 400
      && o.ran.None? && a.ran.None? && o.produced.None? && a.produced.None?
      && o.unlinked == [] && a.unlinked == []
  {
  }

  /** The two entry points unlink different result files for the same document request. */
  lemma IntendedResultDiffersFromApi(input: string, now: nat)
    ensures var req := ConvertRequest(Uploaded(input), None);
      Handle(Intended, req, now, Finishes(""), Delivered).unlinked[1]
        != Handle(ServerlessApi.ApiSite, req, now, Finishes(""), Delivered).unlinked[1]
  {
    var req := ConvertRequest(Uploaded(input), None);
    assert Resolve(Token(req)) == Some(Pdf) by { LowerOfLowerCase("pdf"); }
    IntendedMatchesApi(req, now, Finishes(""), Delivered);
    var n := OutputPrefix + Decimal(now) + Extension(Pdf, Token(req));
    assert Join(OutputsDir, n)[0] != Join(ServerlessApi.TmpDir, n)[0];
  }
}
