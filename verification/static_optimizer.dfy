/** Static-asset rules (optimization/static_optimizer.py): file-extension
    detection, the `Cache-Control` value of each asset type (section 5.2.2
    of RFC 9111, with `immutable` from section 2 of RFC 8246), CDN URL
    joining, the optimiser dispatch and the directory tallies. The image,
    CSS and JS optimisers themselves are parameters. */
module StaticOptimizer {
  import opened Wrappers
  import opened Text

  // ---------------------------------------------------------------------
  // File names and extensions
  // ---------------------------------------------------------------------

  function LastIndexOf(s: string, c: char): (r: Option<nat>)
    ensures r.Some? ==> r.value < |s| && s[r.value] == c && forall j :: r.value < j < |s| ==> s[j] != c
    ensures r.None? ==> forall j :: 0 <= j < |s| ==> s[j] != c
    decreases |s|
  {
    if |s| == 0 then None
    else if s[|s| - 1] == c then Some(|s| - 1)
    else LastIndexOf(s[..|s| - 1], c)
  }

  /** `Path(p).name`: the last component, trailing slashes ignored. */
  function Name(path: string): (n: string)
    ensures forall j :: 0 <= j < |n| ==> n[j] != '/'
  {
    var p := RStripChar(path, '/');
    match LastIndexOf(p, '/')
    case None => p
    case Some(i) => p[i + 1..]
  }

  /** `Path(p).suffix`: from the last dot of the name, unless the dot
      starts or ends it. */
  function Suffix(path: string): (x: string)
    ensures x == "" || (|x| >= 2 && x[0] == '.' && forall j :: 1 <= j < |x| ==> x[j] != '.' && x[j] != '/')
  {
    var n := Name(path);
    match LastIndexOf(n, '.')
    case Some(i) => if 0 < i < |n| - 1 then n[i..] else ""
    case None => ""
  }

  /** The lower-cased extension every rule below looks at. */
  function Extension(path: string): string {
    Lower(Suffix(path))
  }

  predicate PlainPart(s: string) {
    forall j :: 0 <= j < |s| ==> s[j] != '.' && s[j] != '/'
  }

  /** A path `dir/stem.ext` has suffix `.ext`, whatever the directory. */
  lemma SuffixOfFile(dir: string, stem: string, ext: string)
    requires |stem| > 0 && PlainPart(stem)
    requires |ext| >= 2 && ext[0] == '.' && PlainPart(ext[1..])
    ensures Suffix(dir + "/" + stem + ext) == ext
  {
    var path := dir + "/" + stem + ext;
    assert RStripChar(path, '/') == path;
    var n := stem + ext;
    assert LastIndexOf(path, '/') == Some(|dir|) by {
      NoSlashAfter(path, |dir|);
    }
    assert path[|dir| + 1..] == n;
    assert LastIndexOf(n, '.') == Some(|stem|) by {
      assert forall j :: |stem| < j < |n| ==> n[j] == ext[1..][j - |stem| - 1];
      LastIndexFound(n, '.', |stem|);
    }
  }

  lemma NoSlashAfter(s: string, i: nat)
    requires i < |s| && s[i] == '/' && forall j :: i < j < |s| ==> s[j] != '/'
    ensures LastIndexOf(s, '/') == Some(i)
  {
    LastIndexFound(s, '/', i);
  }

  lemma {:induction false} LastIndexFound(s: string, c: char, i: nat)
    requires i < |s| && s[i] == c && forall j :: i < j < |s| ==> s[j] != c
    ensures LastIndexOf(s, c) == Some(i)
    decreases |s|
  {
    if i < |s| - 1 {
      LastIndexFound(s[..|s| - 1], c, i);
    }
  }

  const ImageExtensions: set<string> := {".jpg", ".jpeg", ".png", ".gif", ".webp", ".svg", ".ico"}
  const FontExtensions: set<string> := {".woff", ".woff2", ".ttf", ".otf", ".eot"}

  /** The type table of `_detect_asset_type`, keyed by extension. */
  function TypeOfExtension(e: string): (t: string)
    ensures t in {"images", "css", "js", "fonts", "html", "other"}
    ensures t == "images" <==> e in ImageExtensions
    ensures t == "css" <==> e == ".css"
    ensures t == "js" <==> e == ".js"
    ensures t == "fonts" <==> e in FontExtensions
    ensures t == "html" <==> e in {".html", ".htm"}
  {
    if e in ImageExtensions then "images"
    else if e == ".css" then "css"
    else if e == ".js" then "js"
    else if e in FontExtensions then "fonts"
    else if e in {".html", ".htm"} then "html"
    else "other"
  }

  /** `_detect_asset_type`. */
  function AssetType(path: string): string {
    TypeOfExtension(Extension(path))
  }

  /** The type of `dir/stem.ext` is the type of its lower-cased extension,
      whatever the directory and the stem. */
  lemma AssetTypeOfFile(dir: string, stem: string, ext: string)
    requires |stem| > 0 && PlainPart(stem)
    requires |ext| >= 2 && ext[0] == '.' && PlainPart(ext[1..])
    ensures AssetType(dir + "/" + stem + ext) == TypeOfExtension(Lower(ext))
  {
    SuffixOfFile(dir, stem, ext);
  }

  /** A file whose extension is already lower-case gets that extension's
      type. */
  lemma FileOfType(path: string, dir: string, stem: string, ext: string, t: string)
    requires path == dir + "/" + stem + ext
    requires |stem| > 0 && PlainPart(stem)
    requires |ext| >= 2 && ext[0] == '.' && PlainPart(ext[1..])
    requires forall i :: 0 <= i < |ext| ==> !('A' <= ext[i] <= 'Z')
    requires TypeOfExtension(ext) == t
    ensures AssetType(path) == t
  {
    AssetTypeOfFile(dir, stem, ext);
    LowerKeeps(ext);
  }

  /** The asset paths of the optimisation suite's CDN test get the types
      it expects: a stylesheet, a script, an image and a font. */
  lemma TestStylesheetType(a: string)
    requires a == "static/css/style.css"
    ensures AssetType(a) == "css"
  {
    FileOfType(a, "static/css", "style", ".css", "css");
  }

  lemma TestScriptType(b: string)
    requires b == "static/js/app.js"
    ensures AssetType(b) == "js"
  {
    FileOfType(b, "static/js", "app", ".js", "js");
  }

  lemma TestImageType(c: string)
    requires c == "static/images/logo.png"
    ensures AssetType(c) == "images"
  {
    FileOfType(c, "static/images", "logo", ".png", "images");
  }

  lemma TestFontType(d: string)
    requires d == "static/fonts/font.woff2"
    ensures AssetType(d) == "fonts"
  {
    FileOfType(d, "static/fonts", "font", ".woff2", "fonts");
  }

  // ---------------------------------------------------------------------
  // Cache-Control
  // ---------------------------------------------------------------------

  /** One row of the cache-header table. */
  datatype Policy = Policy(maxAge: nat, immutable: bool, mustRevalidate: bool)

  const OneYear := 31536000
  const OneHour := 3600

  /** The table's row for a type; unknown types get the html row. */
  function PolicyOf(assetType: string): (p: Policy)
    ensures assetType in {"images", "css", "js", "fonts"} ==> p == Policy(OneYear, true, false)
    ensures assetType !in {"images", "css", "js", "fonts"} ==> p == Policy(OneHour, false, true)
  {
    if assetType in {"images", "css", "js", "fonts"} then Policy(OneYear, true, false)
    else Policy(OneHour, false, true)
  }

  /** The directives after `max-age`, in the order the table writes them. */
  function Directives(immutable: bool, mustRevalidate: bool): string {
    (if immutable then ", immutable" else "") + (if mustRevalidate then ", must-revalidate" else "")
  }

  /** Reads the directive list back; anything else is not a value this
      table writes. */
  function ParseDirectives(tail: string): (r: Option<(bool, bool)>)
    ensures r.Some? ==> Directives(r.value.0, r.value.1) == tail
  {
    if tail == "" then Some((false, false))
    else if tail == ", immutable" then Some((true, false))
    else if tail == ", must-revalidate" then Some((false, true))
    else if tail == ", immutable, must-revalidate" then Some((true, true))
    else None
  }

  lemma DirectivesRoundTrip(immutable: bool, mustRevalidate: bool)
    ensures ParseDirectives(Directives(immutable, mustRevalidate)) == Some((immutable, mustRevalidate))
    ensures var t := Directives(immutable, mustRevalidate); t == "" || t[0] == ','
  {
    if immutable && mustRevalidate {
      assert Directives(true, true) == ", immutable, must-revalidate";
    }
  }

  /** The `Cache-Control` field value of a policy. */
  function Render(p: Policy): (v: string)
    ensures IsPrefix("max-age=", v)
  {
    "max-age=" + NatToStr(p.maxAge) + Directives(p.immutable, p.mustRevalidate)
  }

  /** `get_cache_headers(...)['Cache-Control']`. */
  function CacheControl(assetType: string): string {
    Render(PolicyOf(assetType))
  }

  /** Reads a field value of the shape `max-age=N` followed by the
      directives above, as a cache would (section 5.2.2 of RFC 9111). */
  function ParseCacheControl(v: string): (r: Option<Policy>)
    ensures r.Some? ==> IsPrefix("max-age=", v) && IsSuffix(Directives(r.value.immutable, r.value.mustRevalidate), v)
  {
    if !IsPrefix("max-age=", v) then None
    else
      var rest := v[8..];
      var digits := LeadingDigits(rest);
      if digits == [] then None
      else
        match ParseDirectives(rest[|digits|..])
        case None => None
        case Some(flags) =>
          assert v[8 + |digits|..] == rest[|digits|..];
          Some(Policy(ParseNat(digits), flags.0, flags.1))
  }

  /** Every rendered policy reads back as itself. */
  lemma RenderRoundTrip(p: Policy)
    ensures ParseCacheControl(Render(p)) == Some(p)
  {
    ParseNatToStr(p.maxAge);
    DirectivesRoundTrip(p.immutable, p.mustRevalidate);
    ParseParts(NatToStr(p.maxAge), Directives(p.immutable, p.mustRevalidate), p.immutable, p.mustRevalidate);
  }

  lemma ParseParts(digits: string, flags: string, immutable: bool, mustRevalidate: bool)
    requires |digits| > 0 && forall i :: 0 <= i < |digits| ==> IsDigit(digits[i])
    requires flags == "" || flags[0] == ','
    requires ParseDirectives(flags) == Some((immutable, mustRevalidate))
    ensures ParseCacheControl("max-age=" + digits + flags) == Some(Policy(ParseNat(digits), immutable, mustRevalidate))
  {
    var rest := digits + flags;
    var v := "max-age=" + digits + flags;
    assert v == "max-age=" + rest;
    ConcatParts("max-age=", rest);
    LeadingDigitsOf(digits, flags);
    ConcatParts(digits, flags);
  }

  /** Long-lived assets are cached for a year and never revalidated; the
      rest for an hour and revalidated once stale. */
  lemma CacheControlMeaning(assetType: string)
    ensures ParseCacheControl(CacheControl(assetType)).Some?
    ensures var p := ParseCacheControl(CacheControl(assetType)).value;
            (p.immutable <==> assetType in {"images", "css", "js", "fonts"})
            && (p.mustRevalidate <==> !p.immutable)
            && p.maxAge == if p.immutable then OneYear else OneHour
  {
    RenderRoundTrip(PolicyOf(assetType));
  }

  // ---------------------------------------------------------------------
  // CDN URLs
  // ---------------------------------------------------------------------

  datatype CdnConfig = CdnConfig(enabled: bool, baseUrl: string, domains: seq<string>)

  /** The host a path is served from: one of the domains chosen by the
      path's hash, or the base URL when there are none. */
  function Domain(cfg: CdnConfig, path: string, hash: string -> int): (d: string)
    ensures cfg.domains == [] ==> d == cfg.baseUrl
    ensures cfg.domains != [] ==> d in cfg.domains
  {
    if cfg.domains == [] then cfg.baseUrl
    else cfg.domains[hash(path) % |cfg.domains|]
  }

  /** `get_cdn_url`: the path itself when the CDN is off or has no base
      URL; otherwise the domain and the path joined by exactly one slash. */
  function CdnUrl(cfg: CdnConfig, path: string, hash: string -> int): (u: string)
    ensures !cfg.enabled || cfg.baseUrl == "" ==> u == path
    ensures cfg.enabled && cfg.baseUrl != "" ==>
              var host := RStripChar(Domain(cfg, path, hash), '/');
              var rel := LStripChar(path, '/');
              |u| == |host| + 1 + |rel| && IsPrefix(host, u) && u[|host|] == '/' && IsSuffix(rel, u)
  {
    if !cfg.enabled || cfg.baseUrl == "" then path
    else
      var host := RStripChar(Domain(cfg, path, hash), '/');
      var rel := LStripChar(path, '/');
      var u := host + "/" + rel;
      assert u[|host| + 1..] == rel;
      u
  }

  /** At the join there is exactly one slash: the host part does not end
      with one and the path part does not start with one. */
  lemma SingleSlashAtJoin(cfg: CdnConfig, path: string, hash: string -> int)
    requires cfg.enabled && cfg.baseUrl != ""
    ensures var host := RStripChar(Domain(cfg, path, hash), '/');
            var u := CdnUrl(cfg, path, hash);
            (|host| == 0 || u[|host| - 1] != '/') && (|u| == |host| + 1 || u[|host| + 1] != '/')
  {
    var d := Domain(cfg, path, hash);
    RStripCharEnds(d, '/');
    LStripCharStarts(path, '/');
    var host := RStripChar(d, '/');
    var rel := LStripChar(path, '/');
    var u := CdnUrl(cfg, path, hash);
    assert u == host + "/" + rel;
  }

  // ---------------------------------------------------------------------
  // Optimisation
  // ---------------------------------------------------------------------

  datatype Optimizer = ImageOptimizer | CssOptimizer | JsOptimizer

  const OptimizableImages: set<string> := {".jpg", ".jpeg", ".png", ".gif", ".bmp", ".tiff"}

  /** `optimize_file`'s dispatch on the lower-cased extension. */
  function Dispatch(path: string): (r: Result<Optimizer, string>)
    ensures r == Ok(ImageOptimizer) <==> Extension(path) in OptimizableImages
    ensures r == Ok(CssOptimizer) <==> Extension(path) == ".css"
    ensures r == Ok(JsOptimizer) <==> Extension(path) == ".js"
    ensures r.Err? ==> r.error == "Unsupported file type: " + Extension(path)
  {
    var e := Extension(path);
    if e in OptimizableImages then Ok(ImageOptimizer)
    else if e == ".css" then Ok(CssOptimizer)
    else if e == ".js" then Ok(JsOptimizer)
    else Err("Unsupported file type: " + e)
  }

  /** What one optimiser reports: sizes on success, or an error. */
  datatype Outcome = Optimized(originalSize: nat, optimizedSize: nat) | Failed(error: string)

  function OptimizeFile(path: string, run: (Optimizer, string) -> Outcome): (o: Outcome)
    ensures Dispatch(path).Err? ==> o == Failed(Dispatch(path).error)
    ensures Dispatch(path).Ok? ==> o == run(Dispatch(path).value, path)
  {
    match Dispatch(path)
    case Ok(k) => run(k, path)
    case Err(e) => Failed(e)
  }

  datatype Tally = Tally(processed: seq<string>, errors: seq<(string, string)>,
                         totalOriginal: nat, totalOptimized: nat, totalFiles: nat)

  function ErrorPaths(errors: seq<(string, string)>): (ps: seq<string>)
    ensures |ps| == |errors| && forall i :: 0 <= i < |errors| ==> ps[i] == errors[i].0
  {
    seq(|errors|, i requires 0 <= i < |errors| => errors[i].0)
  }

  /** `optimize_file` with the optimisers fixed. */
  function Optimizing(run: (Optimizer, string) -> Outcome): string -> Outcome {
    path => OptimizeFile(path, run)
  }

  /** What `optimize_directory` adds to its optimised total for a processed
      file: `result.get('optimized_size', 0)`. Only the image optimiser
      reports that key; the CSS and JS minifiers report `minified_size`, so
      their files add 0. */
  function OptimizedSizeAsWritten(path: string, size: nat): nat {
    if Dispatch(path) == Ok(ImageOptimizer) then size else 0
  }

  /** The size each optimiser reports for its output, whatever its key. */
  function ReportedSize(path: string, size: nat): nat {
    size
  }

  /** The loop of `optimize_directory` over the visited files, each file's
      outcome given by `optimize` and its contribution to the optimised total
      by `counted`. */
  function TallyFiles(files: seq<string>, optimize: string -> Outcome, counted: (string, nat) -> nat): (t: Tally)
    ensures t.totalFiles == |files| == |t.processed| + |t.errors|
    ensures multiset(t.processed) + multiset(ErrorPaths(t.errors)) == multiset(files)
    ensures forall i :: 0 <= i < |t.processed| ==> optimize(t.processed[i]).Optimized?
    ensures forall i :: 0 <= i < |t.errors| ==> optimize(t.errors[i].0) == Failed(t.errors[i].1)
    decreases |files|
  {
    if |files| == 0 then Tally([], [], 0, 0, 0)
    else
      var init := files[..|files| - 1];
      var f := files[|files| - 1];
      assert files == init + [f];
      var t := TallyFiles(init, optimize, counted);
      match optimize(f)
      case Optimized(a, b) =>
        Tally(t.processed + [f], t.errors, t.totalOriginal + a, t.totalOptimized + counted(f, b), t.totalFiles + 1)
      case Failed(e) =>
        assert ErrorPaths(t.errors + [(f, e)]) == ErrorPaths(t.errors) + [f];
        Tally(t.processed, t.errors + [(f, e)], t.totalOriginal, t.totalOptimized, t.totalFiles + 1)
  }

  /** As written, a directory with no image in it reports an optimised total of
      0, however much the minifiers saved. */
  lemma {:induction false} MinifiedCountAsEmpty(files: seq<string>, run: (Optimizer, string) -> Outcome)
    requires forall i :: 0 <= i < |files| ==> Dispatch(files[i]) != Ok(ImageOptimizer)
    ensures TallyFiles(files, Optimizing(run), OptimizedSizeAsWritten).totalOptimized == 0
    decreases |files|
  {
    if |files| > 0 {
      var init := files[..|files| - 1];
      assert forall i :: 0 <= i < |init| ==> init[i] == files[i];
      MinifiedCountAsEmpty(init, run);
    }
  }

  /** With the reported sizes counted, a directory in which no optimiser made a
      file larger has an optimised total no larger than its original total. */
  lemma {:induction false} ReportedTotalsShrink(files: seq<string>, optimize: string -> Outcome)
    requires forall i :: 0 <= i < |files| && optimize(files[i]).Optimized? ==>
               optimize(files[i]).optimizedSize <= optimize(files[i]).originalSize
    ensures TallyFiles(files, optimize, ReportedSize).totalOptimized <= TallyFiles(files, optimize, ReportedSize).totalOriginal
    decreases |files|
  {
    if |files| > 0 {
      var init := files[..|files| - 1];
      assert forall i :: 0 <= i < |init| ==> init[i] == files[i];
      ReportedTotalsShrink(init, optimize);
    }
  }

  /** On a directory of images the written and the corrected tallies agree. */
  lemma {:induction false} ImagesTallyAlike(files: seq<string>, optimize: string -> Outcome)
    requires forall i :: 0 <= i < |files| ==> Dispatch(files[i]) == Ok(ImageOptimizer)
    ensures TallyFiles(files, optimize, OptimizedSizeAsWritten) == TallyFiles(files, optimize, ReportedSize)
    decreases |files|
  {
    forall i, b: nat | 0 <= i < |files|
      ensures OptimizedSizeAsWritten(files[i], b) == ReportedSize(files[i], b)
    {
    }
    CountsAgreeTallyAlike(files, optimize, OptimizedSizeAsWritten, ReportedSize);
  }

  /** Two ways of counting that agree on every visited file give the same
      tally. */
  lemma {:induction false} CountsAgreeTallyAlike(files: seq<string>, optimize: string -> Outcome,
                                                 c: (string, nat) -> nat, d: (string, nat) -> nat)
    requires forall i, b: nat :: 0 <= i < |files| ==> c(files[i], b) == d(files[i], b)
    ensures TallyFiles(files, optimize, c) == TallyFiles(files, optimize, d)
    decreases |files|
  {
    if |files| > 0 {
      var init := files[..|files| - 1];
      var f := files[|files| - 1];
      forall i, b: nat | 0 <= i < |init|
        ensures c(init[i], b) == d(init[i], b)
      {
        assert init[i] == files[i];
      }
      CountsAgreeTallyAlike(init, optimize, c, d);
      if optimize(f).Optimized? {
        assert c(f, optimize(f).optimizedSize) == d(f, optimize(f).optimizedSize);
      }
    }
  }

  /** Every file whose type no optimiser handles ends up among the
      errors. */
  lemma UnsupportedAreErrors(files: seq<string>, run: (Optimizer, string) -> Outcome, i: nat)
    requires i < |files| && Dispatch(files[i]).Err?
    ensures files[i] in ErrorPaths(TallyFiles(files, Optimizing(run), OptimizedSizeAsWritten).errors)
  {
    assert Optimizing(run)(files[i]).Failed?;
    FailedAreErrors(files, Optimizing(run), OptimizedSizeAsWritten, i);
  }

  /** A file whose optimisation fails is not among the processed files, so it
      is among the errors. */
  lemma FailedAreErrors(files: seq<string>, optimize: string -> Outcome, counted: (string, nat) -> nat, i: nat)
    requires i < |files| && optimize(files[i]).Failed?
    ensures files[i] in ErrorPaths(TallyFiles(files, optimize, counted).errors)
  {
    var t := TallyFiles(files, optimize, counted);
    var x := files[i];
    forall j | 0 <= j < |t.processed|
      ensures t.processed[j] != x
    {
      assert optimize(t.processed[j]).Optimized?;
    }
    assert x !in multiset(t.processed);
    assert x in multiset(files);
  }

  datatype DirResult = Disabled | DirError(message: string) | Report(tally: Tally, overallRatio: Option<real>)

  /** The overall compression ratio of a tally, when some original size was
      counted. */
  function OverallRatio(t: Tally): (r: Option<real>)
    ensures r.Some? <==> t.totalOriginal > 0
    ensures r.Some? && t.totalOptimized <= t.totalOriginal ==> 0.0 <= r.value <= 100.0
    ensures r.Some? && t.totalOptimized == 0 ==> r.value == 100.0
  {
    if t.totalOriginal > 0
    then Some((t.totalOriginal as real - t.totalOptimized as real) / t.totalOriginal as real * 100.0)
    else None
  }

  /** The directory walk with a given way of counting optimised sizes. */
  function DirectoryReport(enabled: bool, dirExists: bool, dir: string, files: seq<string>,
                           run: (Optimizer, string) -> Outcome, counted: (string, nat) -> nat): (r: DirResult)
    ensures !enabled <==> r == Disabled
    ensures enabled && !dirExists ==> r == DirError("Input directory not found: " + dir)
    ensures r.Report? ==> r.tally == TallyFiles(files, Optimizing(run), counted) && r.overallRatio == OverallRatio(r.tally)
  {
    if !enabled then Disabled
    else if !dirExists then DirError("Input directory not found: " + dir)
    else
      var t := TallyFiles(files, Optimizing(run), counted);
      Report(t, OverallRatio(t))
  }

  /** `optimize_directory` over the files its patterns visit, as written: the
      optimised total reads `optimized_size`, which the minifiers never report. */
  function OptimizeDirectory(enabled: bool, dirExists: bool, dir: string, files: seq<string>,
                             run: (Optimizer, string) -> Outcome): (r: DirResult)
    ensures !enabled <==> r == Disabled
    ensures enabled && !dirExists ==> r == DirError("Input directory not found: " + dir)
    ensures r.Report? ==> r.tally.totalFiles == |files|
    ensures r.Report? ==> (r.overallRatio.Some? <==> r.tally.totalOriginal > 0)
    ensures r.Report? && (forall i :: 0 <= i < |files| ==> Dispatch(files[i]) != Ok(ImageOptimizer))
            ==> r.tally.totalOptimized == 0 && (r.overallRatio.Some? ==> r.overallRatio.value == 100.0)
  {
    var r := DirectoryReport(enabled, dirExists, dir, files, run, OptimizedSizeAsWritten);
    if r.Report? && (forall i :: 0 <= i < |files| ==> Dispatch(files[i]) != Ok(ImageOptimizer))
    then MinifiedCountAsEmpty(files, run); r
    else r
  }

  /** `optimize_directory` as evidently intended: every optimiser's output size
      counts, so a directory in which nothing grew reports a ratio in
      [0, 100]. */
  function OptimizeDirectoryCorrected(enabled: bool, dirExists: bool, dir: string, files: seq<string>,
                                      run: (Optimizer, string) -> Outcome): (r: DirResult)
    ensures !enabled <==> r == Disabled
    ensures enabled && !dirExists ==> r == DirError("Input directory not found: " + dir)
    ensures r.Report? ==> r.tally.totalFiles == |files|
    ensures r.Report? ==> (r.overallRatio.Some? <==> r.tally.totalOriginal > 0)
    ensures r.Report? && r.overallRatio.Some?
            && (forall i :: 0 <= i < |files| && Optimizing(run)(files[i]).Optimized? ==>
                  Optimizing(run)(files[i]).optimizedSize <= Optimizing(run)(files[i]).originalSize)
            ==> 0.0 <= r.overallRatio.value <= 100.0
  {
    var r := DirectoryReport(enabled, dirExists, dir, files, run, ReportedSize);
    if r.Report? && (forall i :: 0 <= i < |files| && Optimizing(run)(files[i]).Optimized? ==>
                       Optimizing(run)(files[i]).optimizedSize <= Optimizing(run)(files[i]).originalSize)
    then ReportedTotalsShrink(files, Optimizing(run)); r
    else r
  }

  /** One stylesheet minified from 1000 to 600 bytes: as written the directory
      reports nothing optimised and a 100 percent ratio; corrected it reports
      600 bytes and 40 percent. */
  lemma OneStylesheetRatio(path: string, dir: string, run: (Optimizer, string) -> Outcome)
    requires Dispatch(path) == Ok(CssOptimizer) && run(CssOptimizer, path) == Optimized(1000, 600)
    ensures OptimizeDirectory(true, true, dir, [path], run) == Report(Tally([path], [], 1000, 0, 1), Some(100.0))
    ensures OptimizeDirectoryCorrected(true, true, dir, [path], run) == Report(Tally([path], [], 1000, 600, 1), Some(40.0))
  {
    assert Optimizing(run)(path) == Optimized(1000, 600);
    assert OptimizedSizeAsWritten(path, 600) == 0;
    OneFileTally(path, Optimizing(run), OptimizedSizeAsWritten);
    OneFileTally(path, Optimizing(run), ReportedSize);
    var written := Tally([path], [], 1000, 0, 1);
    var corrected := Tally([path], [], 1000, 600, 1);
    assert OverallRatio(written) == Some(100.0);
    assert OverallRatio(corrected) == Some(40.0);
    assert DirectoryReport(true, true, dir, [path], run, OptimizedSizeAsWritten) == Report(written, Some(100.0));
    assert DirectoryReport(true, true, dir, [path], run, ReportedSize) == Report(corrected, Some(40.0));
  }

  /** The tally of a single processed file. */
  lemma OneFileTally(path: string, optimize: string -> Outcome, counted: (string, nat) -> nat)
    requires optimize(path).Optimized?
    ensures TallyFiles([path], optimize, counted)
            == Tally([path], [], optimize(path).originalSize, counted(path, optimize(path).optimizedSize), 1)
  {
    assert [path][..0] == [];
  }

  /** A directory of images reports the same with either way of counting. */
  lemma ImageDirectoriesAgree(enabled: bool, dirExists: bool, dir: string, files: seq<string>,
                              run: (Optimizer, string) -> Outcome)
    requires forall i :: 0 <= i < |files| ==> Dispatch(files[i]) == Ok(ImageOptimizer)
    ensures OptimizeDirectory(enabled, dirExists, dir, files, run) == OptimizeDirectoryCorrected(enabled, dirExists, dir, files, run)
  {
    ImagesTallyAlike(files, Optimizing(run));
  }
}
