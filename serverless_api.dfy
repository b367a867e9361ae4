/**
 * functions/api.js: the route served through serverless-http, naming its
 * outputs under /tmp, with the five converter functions defined beside it.
 */
module ServerlessApi {
  import opened Wrappers
  import opened JsStrings
  import opened NodePath
  import opened Dispatch
  import opened Converters
  import opened ConvertRoute

  const TmpDir: string := "/tmp"
  const ApiSite: Site := Site(TmpDir, true)

  /** Every converter the route runs writes to /tmp/converted_<now> plus its extension. */
  lemma OutputUnderTmp(req: ConvertRequest, now: nat, step: LibraryStep, delivery: Delivery)
    requires Handle(ApiSite, req, now, step, delivery).ran.Some?
    ensures var inv := Handle(ApiSite, req, now, step, delivery).ran.value;
      && Dirname(inv.output) == TmpDir
      && Basename(inv.output) == OutputPrefix + Decimal(now) + Extension(inv.variant, Token(req))
      && inv.output == Join(TmpDir, OutputPrefix + Decimal(now) + Extension(inv.variant, Token(req)))
  {
    var inv := Handle(ApiSite, req, now, step, delivery).ran.value;
    OutputFileName(TmpDir, now, inv.variant, Token(req));
  }

  /**
   * "PNG" selects the image converter, which is asked for
   * /tmp/converted_42.PNG and a PNG raster: the extension keeps the case
   * the client used, while matching ignored it.
   */
  lemma UpperCaseImageToken(input: string, step: LibraryStep, delivery: Delivery)
    ensures var o := Handle(ApiSite, ConvertRequest(Uploaded(input), Some("PNG")), 42, step, delivery);
      && Decimal(42) == "42"
      && o.ran == Some(Invocation(Image, input, Join(TmpDir, OutputPrefix + Decimal(42) + ".PNG"), Some("PNG")))
      && RasterCallFor(input, o.ran.value.output, o.ran.value.format.value).options.format == "PNG"
  {
    assert Lower("PNG") == "png" by {
      assert Lower("PNG")[0] == 'p' && Lower("PNG")[1] == 'n' && Lower("PNG")[2] == 'g';
    }
    assert Upper("PNG") == "PNG" by {
      assert Upper("PNG")[0] == 'P' && Upper("PNG")[1] == 'N' && Upper("PNG")[2] == 'G';
    }
    assert Decimal(42) == "42" by {
      assert Decimal(4) == "4";
    }
    assert Resolve("PNG") == Some(Image);
    assert OutputPath(TmpDir, 42, Image, "PNG") == Join(TmpDir, OutputPrefix + Decimal(42) + ".PNG");
  }

  /** "PDF", "Pdf", "pdf" and a missing field all run convertPdfToPdf on the same paths. */
  lemma PdfSpellings(input: string, step: LibraryStep, delivery: Delivery, now: nat)
    ensures var o := Handle(ApiSite, ConvertRequest(Uploaded(input), None), now, step, delivery);
      && o.ran == Some(Invocation(Pdf, input, OutputBase(TmpDir, now) + ".pdf", None))
      && o == Handle(ApiSite, ConvertRequest(Uploaded(input), Some("PDF")), now, step, delivery)
      && o == Handle(ApiSite, ConvertRequest(Uploaded(input), Some("Pdf")), now, step, delivery)
      && o == Handle(ApiSite, ConvertRequest(Uploaded(input), Some("")), now, step, delivery)
  {
    LowerOfLowerCase("pdf");
    assert Resolve("pdf") == Some(Pdf);
    assert Lower("PDF") == "pdf" by {
      assert Lower("PDF")[0] == 'p' && Lower("PDF")[1] == 'd' && Lower("PDF")[2] == 'f';
    }
    assert Lower("Pdf") == "pdf" by {
      assert Lower("Pdf")[0] == 'p';
    }
    var file := Uploaded(input);
    FormatDefaultsAndIgnoresCase(ApiSite, file, None, Some("PDF"), now, step, delivery);
    FormatDefaultsAndIgnoresCase(ApiSite, file, None, Some("Pdf"), now, step, delivery);
  }
}
