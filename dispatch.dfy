/**
 * Format dispatch and output naming of the /convert route: the `format`
 * field picks one of five converters by its lower-cased value, and the
 * output file is `converted_<timestamp>` under a base directory plus an
 * extension that depends on the converter.
 */
module Dispatch {
  import opened Wrappers
  import opened JsStrings
  import opened NodePath

  /** The five conversion functions the `switch` can reach. */
  datatype Variant = Pdf | Word | Excel | Image | Html

  const DefaultFormat: string := "pdf"

  /** The seven lower-case tokens the `switch` recognises. */
  const Tokens: set<string> := {"pdf", "word", "excel", "jpeg", "jpg", "png", "html"}
  const ImageTokens: set<string> := {"jpeg", "jpg", "png"}

  /**
   * `req.body.format || 'pdf'`: a missing or empty field becomes "pdf",
   * any other value is kept exactly as the client sent it.
   */
  function TargetFormat(field: Option<string>): (token: string)
    ensures token != ""
    ensures field.Some? && field.value != "" ==> token == field.value
    ensures (field.None? || field.value == "") ==> token == DefaultFormat
  {
    match field
    case None => DefaultFormat
    case Some(s) => if s == "" then DefaultFormat else s
  }

  /**
   * The `switch (targetFormat.toLowerCase())`: the converter for a token,
   * or None for the `default` branch.
   */
  function Resolve(token: string): (v: Option<Variant>)
    ensures v.Some? <==> Lower(token) in Tokens
    ensures v == Some(Image) <==> Lower(token) in ImageTokens
  {
    var t := Lower(token);
    if t == "pdf" then Some(Pdf)
    else if t == "word" then Some(Word)
    else if t == "excel" then Some(Excel)
    else if t == "jpeg" || t == "jpg" || t == "png" then Some(Image)
    else if t == "html" then Some(Html)
    else None
  }

  /** The tokens that select a converter. */
  function TokensOf(v: Variant): (ts: set<string>)
    ensures ts != {} && ts <= Tokens
  {
    match v
    case Pdf => {"pdf"}
    case Word => {"word"}
    case Excel => {"excel"}
    case Image => ImageTokens
    case Html => {"html"}
  }

  /** Each recognised token selects exactly the converter whose tokens contain it. */
  lemma ResolveSelectsOwner(token: string, v: Variant)
    ensures Resolve(token) == Some(v) <==> Lower(token) in TokensOf(v)
  {
  }

  /** Matching ignores case: "PDF", "Pdf" and "pdf" choose the same converter. */
  lemma ResolveIgnoresCase(a: string, b: string)
    requires Lower(a) == Lower(b)
    ensures Resolve(a) == Resolve(b)
    ensures Resolve(Upper(a)) == Resolve(a)
  {
    LowerForgetsCase(a);
  }

  /** The extension appended to the output base; the image branch reuses the token verbatim. */
  function Extension(v: Variant, token: string): (ext: string)
    ensures |ext| >= 1 && ext[0] == '.'
    ensures v.Image? ==> ext[1..] == token
    ensures !v.Image? ==> ext in {".pdf", ".docx", ".xlsx", ".html"}
  {
    match v
    case Pdf => ".pdf"
    case Word => ".docx"
    case Excel => ".xlsx"
    case Image => "." + token
    case Html => ".html"
  }

  /** The fixed extension of each document token, keyed by the lower-cased token. */
  const DocumentExtensions: map<string, string> :=
    map["pdf" := ".pdf", "word" := ".docx", "excel" := ".xlsx", "html" := ".html"]

  /**
   * A recognised token outside the image branch gets the fixed extension
   * listed for its lower-cased form, whatever case it was sent in.
   */
  lemma ExtensionByToken(baseDir: string, now: nat, token: string)
    requires Resolve(token).Some? && Resolve(token) != Some(Image)
    ensures Lower(token) in DocumentExtensions
    ensures Extension(Resolve(token).value, token) == DocumentExtensions[Lower(token)]
    ensures var ext, p := DocumentExtensions[Lower(token)], OutputPath(baseDir, now, Resolve(token).value, token);
      |ext| <= |p| && p[|p| - |ext|..] == ext
  {
    var ext := Extension(Resolve(token).value, token);
    var p := OutputPath(baseDir, now, Resolve(token).value, token);
    assert p == OutputBase(baseDir, now) + ext;
    assert p[|p| - |ext|..] == ext;
  }

  const OutputPrefix: string := "converted_"

  /** `path.join(baseDir, `converted_${Date.now()}`)` with the clock reading `now`. */
  function OutputBase(baseDir: string, now: nat): string {
    Join(baseDir, OutputPrefix + Decimal(now))
  }

  /**
   * The output path handed to the converter selected for `token`: one file
   * in the base directory, named by the prefix, the timestamp's digits and
   * the extension.
   */
  function OutputPath(baseDir: string, now: nat, v: Variant, token: string): (p: string)
    ensures p == Join(baseDir, OutputPrefix + Decimal(now) + Extension(v, token))
  {
    var p := OutputBase(baseDir, now) + Extension(v, token);
    assert p == baseDir + [Separator] + (OutputPrefix + Decimal(now) + Extension(v, token));
    p
  }

  /**
   * The file name of an output: the prefix, the timestamp's digits and the
   * extension, with the image token kept in the case it was sent in.
   */
  lemma OutputFileName(baseDir: string, now: nat, v: Variant, token: string)
    requires Resolve(token).Some? && v == Resolve(token).value
    ensures OutputPath(baseDir, now, v, token) == Join(baseDir, OutputPrefix + Decimal(now) + Extension(v, token))
    ensures Basename(OutputPath(baseDir, now, v, token)) == OutputPrefix + Decimal(now) + Extension(v, token)
    ensures baseDir != [] && baseDir != [Separator] ==> Dirname(OutputPath(baseDir, now, v, token)) == baseDir
    ensures v.Image? ==> Extension(v, token) == "." + token
  {
    var name := OutputPrefix + Decimal(now) + Extension(v, token);
    FileNameHasNoSeparator(now, v, token);
    assert OutputPath(baseDir, now, v, token) == Join(baseDir, name);
    SplitJoin(baseDir, name);
  }

  /** The name part of an output path is a single path segment. */
  lemma FileNameHasNoSeparator(now: nat, v: Variant, token: string)
    requires Resolve(token).Some? && v == Resolve(token).value
    ensures var name := OutputPrefix + Decimal(now) + Extension(v, token);
      forall j :: 0 <= j < |name| ==> name[j] != Separator
  {
    var ext := Extension(v, token);
    if v.Image? {
      var l := Lower(token);
      assert l in ImageTokens;
      assert forall j :: 0 <= j < |l| ==> l[j] != Separator;
      assert forall j :: 0 <= j < |token| ==> token[j] != Separator by {
        forall j | 0 <= j < |token| ensures token[j] != Separator {
          assert l[j] == LowerChar(token[j]);
        }
      }
      assert forall j :: 1 <= j < |ext| ==> ext[j] == token[j - 1];
    }
    assert forall j :: 0 <= j < |ext| ==> ext[j] != Separator;
  }

  /** Digits followed by an extension determine the digits. */
  lemma {:induction false} DigitsBeforeDot(d1: string, e1: string, d2: string, e2: string)
    requires forall i :: 0 <= i < |d1| ==> IsDigit(d1[i])
    requires forall i :: 0 <= i < |d2| ==> IsDigit(d2[i])
    requires |e1| >= 1 && e1[0] == '.' && |e2| >= 1 && e2[0] == '.'
    requires d1 + e1 == d2 + e2
    ensures d1 == d2
  {
    var s := d1 + e1;
    assert !IsDigit(s[|d1|]) && !IsDigit(s[|d2|]);
    assert forall i :: 0 <= i < |d1| ==> IsDigit(s[i]);
    assert forall i :: 0 <= i < |d2| ==> IsDigit(s[i]);
    assert |d1| == |d2|;
    assert d1 == (d1 + e1)[..|d1|];
    assert d2 == (d2 + e2)[..|d2|];
  }

  /**
   * Requests handled at different clock readings never share an output
   * path, whatever formats they asked for.
   */
  lemma OutputPathsDifferAcrossTimestamps(baseDir: string, now1: nat, v1: Variant, t1: string,
                                          now2: nat, v2: Variant, t2: string)
    requires now1 != now2
    ensures OutputPath(baseDir, now1, v1, t1) != OutputPath(baseDir, now2, v2, t2)
  {
    var head := baseDir + [Separator] + OutputPrefix;
    var e1, e2 := Extension(v1, t1), Extension(v2, t2);
    var d1, d2 := Decimal(now1), Decimal(now2);
    assert OutputPath(baseDir, now1, v1, t1) == head + (d1 + e1);
    assert OutputPath(baseDir, now2, v2, t2) == head + (d2 + e2);
    if head + (d1 + e1) == head + (d2 + e2) {
      assert d1 + e1 == (head + (d1 + e1))[|head|..];
      assert d2 + e2 == (head + (d2 + e2))[|head|..];
      DigitsBeforeDot(d1, e1, d2, e2);
      DecimalInjective(now1, now2);
    }
  }
}
