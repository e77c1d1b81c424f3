/** The report-generator side of the pipeline: the two ReportGenerator runs
    of GenerateAsync (a Cobertura merge, then the single-page HTML report
    only when the merge succeeded), the rewriting of the class and
    risk-hotspot records that ProcessUnifiedHtml applies to the report's
    embedded data, and the colour format handed to the report's script.
    Processes and files are not touched: ExecuteAsync and ReadAllText are
    functions handed to the model. */
module ReportGenerator {
  import opened Common

  const CoberturaReportType := "Cobertura"
  const HtmlReportType := "HtmlInline_AzurePipelines"

  /** What the HTML stage takes from the options and from the report
      builder plugin: the plugin's assembly location, its report type and
      the three risk-hotspot thresholds. */
  datatype HtmlStageConfig = HtmlStageConfig(
    pluginLocation: string,
    pluginReportType: string,
    cyclomaticThreshold: int,
    crapScoreThreshold: int,
    nPathThreshold: int)

  /** What ExecuteAsync is asked to run. */
  datatype ExecuteRequest = ExecuteRequest(filePath: Option<string>, arguments: string, workingDirectory: string)

  /** A finished process; ExecuteAsync answers None for a null result. */
  datatype ProcessResult = ProcessResult(exitCode: int, output: string)

  datatype ReportGeneratorResult = ReportGeneratorResult(unifiedHtml: Option<string>, unifiedXmlFile: string, success: bool)

  function TargetDirArgument(folder: string): string
  {
    Quoted("-targetdir:" + folder)
  }

  function ThresholdArgument(metric: string, threshold: int): string
  {
    Quoted("riskHotspotsAnalysisThresholds:metricThresholdFor" + metric + "=" + IntToDecimal(threshold))
  }

  /** The settings the Cobertura report type adds: the input reports and
      the report type. */
  function CoberturaTypeArguments(inputReports: string): seq<string>
  {
    [Quoted("-reports:" + inputReports), Quoted("-reporttypes:Cobertura")]
  }

  /** The settings the HTML report type adds: the input reports, the
      report builder plugin, its report type and the three risk-hotspot
      thresholds. */
  function HtmlTypeArguments(inputReports: string, config: HtmlStageConfig): seq<string>
  {
    [Quoted("-reports:" + inputReports), Quoted("-plugins:" + config.pluginLocation),
     Quoted("-reporttypes:" + config.pluginReportType),
     ThresholdArgument("CyclomaticComplexity", config.cyclomaticThreshold),
     ThresholdArgument("CrapScore", config.crapScoreThreshold),
     ThresholdArgument("NPathComplexity", config.nPathThreshold)]
  }

  /** The settings of one run: the shared settings, then those of the report
      type, or the exception for a type that is neither of the two. */
  function StageArguments(settings: seq<string>, outputReportType: string, inputReports: string, config: HtmlStageConfig)
    : (r: Result<seq<string>, string>)
    ensures r.Err? <==>
      !EqualsIgnoreCase(outputReportType, CoberturaReportType) && !EqualsIgnoreCase(outputReportType, HtmlReportType)
    ensures r.Err? ==> r.error == "Unknown reporttype '" + outputReportType + "'"
    ensures r.Ok? ==>
      && |r.value| > |settings| && r.value[..|settings|] == settings
      && r.value[|settings|] == Quoted("-reports:" + inputReports)
    ensures r.Ok? && EqualsIgnoreCase(outputReportType, CoberturaReportType) ==>
      r.value[|settings|..] == CoberturaTypeArguments(inputReports)
    ensures r.Ok? && !EqualsIgnoreCase(outputReportType, CoberturaReportType) ==>
      r.value[|settings|..] == HtmlTypeArguments(inputReports, config)
  {
    if EqualsIgnoreCase(outputReportType, CoberturaReportType) then
      Ok(settings + CoberturaTypeArguments(inputReports))
    else if EqualsIgnoreCase(outputReportType, HtmlReportType) then
      Ok(settings + HtmlTypeArguments(inputReports, config))
    else Err("Unknown reporttype '" + outputReportType + "'")
  }

  /** What a run returns once its process has finished: false for a null
      result, true for exit code 0, and for any other code false, or the
      process output raised as an exception when throwError is set. */
  function StageVerdict(result: Option<ProcessResult>, throwError: bool): (v: Result<bool, string>)
    ensures v == Ok(true) <==> result.Some? && result.value.exitCode == 0
    ensures v.Err? <==> throwError && result.Some? && result.value.exitCode != 0
    ensures v.Err? ==> v.error == result.value.output
  {
    match result
    case None => Ok(false)
    case Some(p) =>
      if p.exitCode != 0 then (if throwError then Err(p.output) else Ok(false))
      else Ok(true)
  }

  /** The inner run of GenerateAsync: the report type's settings added to a
      copy of the shared settings, the process request, and the verdict on
      what the process returned. An unknown report type raises before any
      process is started. */
  method RunStage(settings: seq<string>, outputReportType: string, inputReports: string, config: HtmlStageConfig,
                  exePath: Option<string>, folder: string, throwError: bool,
                  execute: ExecuteRequest -> Option<ProcessResult>)
    returns (request: Option<ExecuteRequest>, verdict: Result<bool, string>)
    ensures var args := StageArguments(settings, outputReportType, inputReports, config);
      && (args.Err? ==> request.None? && verdict == Err(args.error))
      && (args.Ok? ==>
            && request == Some(ExecuteRequest(exePath, Join(args.value, " "), folder))
            && verdict == StageVerdict(execute(request.value), throwError))
  {
    var reportTypeSettings := settings;
    if EqualsIgnoreCase(outputReportType, CoberturaReportType) {
      reportTypeSettings := reportTypeSettings + CoberturaTypeArguments(inputReports);
    } else if EqualsIgnoreCase(outputReportType, HtmlReportType) {
      reportTypeSettings := reportTypeSettings + HtmlTypeArguments(inputReports, config);
    } else {
      return None, Err("Unknown reporttype '" + outputReportType + "'");
    }
    var req := ExecuteRequest(exePath, Join(reportTypeSettings, " "), folder);
    request := Some(req);
    verdict := StageVerdict(execute(req), throwError);
  }

  /** The process request of the Cobertura stage. */
  function CoberturaRequest(exePath: Option<string>, coverOutputFiles: seq<string>, folder: string): ExecuteRequest
  {
    ExecuteRequest(exePath, Join([TargetDirArgument(folder)] + CoberturaTypeArguments(Join(coverOutputFiles, ";")), " "), folder)
  }

  /** The process request of the HTML stage, whose input is the merged file. */
  function HtmlRequest(exePath: Option<string>, folder: string, config: HtmlStageConfig): ExecuteRequest
  {
    ExecuteRequest(exePath,
      Join([TargetDirArgument(folder)] + HtmlTypeArguments(PathCombine(folder, "Cobertura.xml"), config), " "), folder)
  }

  /** The settings of the two report types GenerateAsync asks for. */
  lemma KnownStageArguments(settings: seq<string>, coberturaInputs: string, htmlInputs: string, config: HtmlStageConfig)
    ensures StageArguments(settings, CoberturaReportType, coberturaInputs, config)
      == Ok(settings + CoberturaTypeArguments(coberturaInputs))
    ensures StageArguments(settings, HtmlReportType, htmlInputs, config)
      == Ok(settings + HtmlTypeArguments(htmlInputs, config))
  {
    EqualsIgnoreCaseReflexive(CoberturaReportType);
    EqualsIgnoreCaseReflexive(HtmlReportType);
    assert |HtmlReportType| != |CoberturaReportType|;
  }

  /** GenerateAsync: the Cobertura merge of the coverage files, then, only
      when it returned true, the HTML report from the merged file; the
      unified HTML is read only when both returned true. An exception of
      either run propagates. */
  method Generate(exePath: Option<string>, coverOutputFiles: seq<string>, folder: string, throwError: bool,
                  config: HtmlStageConfig, execute: ExecuteRequest -> Option<ProcessResult>, readAllText: string -> string)
    returns (requests: seq<ExecuteRequest>, r: Result<ReportGeneratorResult, string>)
    ensures 1 <= |requests| <= 2 && requests[0] == CoberturaRequest(exePath, coverOutputFiles, folder)
    ensures var cobertura := StageVerdict(execute(requests[0]), throwError);
      && (|requests| == 2 <==> cobertura == Ok(true))
      && (cobertura.Err? ==> r == Err(cobertura.error))
      && (cobertura == Ok(false) ==> r == Ok(ReportGeneratorResult(None, PathCombine(folder, "Cobertura.xml"), false)))
    ensures |requests| == 2 ==>
      var html := StageVerdict(execute(requests[1]), throwError);
      && requests[1] == HtmlRequest(exePath, folder, config)
      && (html.Err? ==> r == Err(html.error))
      && (html == Ok(false) ==> r == Ok(ReportGeneratorResult(None, PathCombine(folder, "Cobertura.xml"), false)))
      && (html == Ok(true) ==>
            r == Ok(ReportGeneratorResult(Some(readAllText(PathCombine(folder, "index.html"))),
                                          PathCombine(folder, "Cobertura.xml"), true)))
  {
    var unifiedHtmlFile := PathCombine(folder, "index.html");
    var unifiedXmlFile := PathCombine(folder, "Cobertura.xml");
    var reportGeneratorSettings := [TargetDirArgument(folder)];
    var result := ReportGeneratorResult(None, unifiedXmlFile, false);

    KnownStageArguments(reportGeneratorSettings, Join(coverOutputFiles, ";"), unifiedXmlFile, config);
    var coberturaRequest, coberturaResult :=
      RunStage(reportGeneratorSettings, CoberturaReportType, Join(coverOutputFiles, ";"), config,
               exePath, folder, throwError, execute);
    requests := [coberturaRequest.value];
    if coberturaResult.Err? {
      return requests, Err(coberturaResult.error);
    }
    if coberturaResult.value {
      var htmlRequest, htmlResult :=
        RunStage(reportGeneratorSettings, HtmlReportType, unifiedXmlFile, config, exePath, folder, throwError, execute);
      requests := requests + [htmlRequest.value];
      if htmlResult.Err? {
        return requests, Err(htmlResult.error);
      }
      if htmlResult.value {
        result := result.(unifiedHtml := Some(readAllText(unifiedHtmlFile)), success := true);
      }
    }
    r := Ok(result);
  }

  // ----- The records embedded in the unified HTML report -----

  const AutoGeneratedProgram := "AutoGeneratedProgram"

  /** One element of an assembly's "classes" array: its name and report
      path, and the properties the rewriting leaves alone. */
  datatype ClassRecord = ClassRecord(name: string, rp: string, rest: seq<string>)

  /** One element of the "assemblies" array. */
  datatype AssemblyRecord = AssemblyRecord(name: string, classes: seq<ClassRecord>)

  /** One element of the "riskHotspots" array. */
  datatype RiskHotspot = RiskHotspot(assembly: string, className: string, reportPath: string, rest: seq<string>)

  /** The ArgumentOutOfRangeException of String.Substring, raised for a
      report path that has no ".html" and fewer than four characters. */
  datatype RewriteError = SubstringOutOfRange(rp: string)

  predicate IsDot(c: char) { c == '.' }

  /** The simplified class name: Substring(LastIndexOf('.')).Trim('.'),
      applied only when the name has a dot. */
  function ShortName(name: string): string
  {
    var dot := LastIndexOf(name, '.');
    if dot == -1 then name else Trim(name[dot..], IsDot)
  }

  /** The simplified name is the text after the last dot, and a name without
      a dot is kept as it is. */
  lemma {:induction false} ShortNameIsTextAfterLastDot(name: string)
    ensures '.' !in name ==> ShortName(name) == name
    ensures '.' in name ==>
      && ShortName(name) == name[LastIndexOf(name, '.') + 1..]
      && '.' !in ShortName(name)
      && EndsWith(name, "." + ShortName(name))

  {
    var dot := LastIndexOf(name, '.');
    if '.' in name {
      var tail := name[dot + 1..];
      assert name[dot..] == [name[dot]] + tail;
      NoDotAfterLast(name, dot, tail);
      TrimOneStripped('.', tail, IsDot);
      assert name[|name| - |tail| - 1..] == "." + tail;
    }
  }

  lemma NoDotAfterLast(name: string, dot: int, tail: string)
    requires dot == LastIndexOf(name, '.') && dot >= 0 && tail == name[dot + 1..]
    ensures forall j :: 0 <= j < |tail| ==> !IsDot(tail[j])
  {
  }

  /** The rewritten report path: "#", the assembly, "!", the original class
      name, ".html" and what followed the first ".html" of the old path
      (Substring(IndexOf(".html") + 5), which raises when the path has no
      ".html" and is shorter than four characters). */
  function ClassAnchor(assemblyName: string, className: string, rp: string): (r: Result<string, RewriteError>)
    ensures r.Err? <==> IndexOf(rp, ".html") == -1 && |rp| < 4
  {
    var start := IndexOf(rp, ".html") + 5;
    if start > |rp| then Err(SubstringOutOfRange(rp))
    else Ok("#" + assemblyName + "!" + className + ".html" + rp[start..])
  }

  /** For a report path "page.html..." whose page part holds no ".html",
      the anchor keeps everything after ".html". */
  lemma {:induction false} ClassAnchorKeepsFragment(assemblyName: string, className: string, page: string, fragment: string)
    requires IndexOf(page, ".html") == -1
    ensures ClassAnchor(assemblyName, className, page + ".html" + fragment)
      == Ok("#" + assemblyName + "!" + className + ".html" + fragment)
  {
    var rp := page + ".html" + fragment;
    FirstHtmlAfter(page, fragment);
    assert rp[|page| + 5..] == fragment;
  }

  /** The first ".html" of page + ".html" + rest is the one after page when
      page holds none: an earlier one would either lie inside page or start
      inside it and run into the ".html" after it, and no proper suffix of
      ".html" starts with '.'. */
  lemma FirstHtmlAfter(page: string, rest: string)
    requires IndexOf(page, ".html") == -1
    ensures IndexOf(page + ".html" + rest, ".html") == |page|
  {
    var text := page + ".html" + rest;
    assert OccursAt(text, ".html", |page|) by {
      assert text[|page|..|page| + 5] == ".html";
    }
    forall j | 0 <= j < |page| ensures !OccursAt(text, ".html", j) {
      if j + 5 <= |page| {
        assert text[j..j + 5] == page[j..j + 5];
        assert !OccursAt(page, ".html", j);
      } else if j + 5 <= |text| {
        var k := |page| - j;
        assert text[j..j + 5][k] == text[|page|] == '.';
        assert ".html"[k] != '.';
      }
    }
  }

  /** A report path without ".html" loses its first four characters. */
  lemma {:induction false} ClassAnchorWithoutHtml(assemblyName: string, className: string, rp: string)
    requires IndexOf(rp, ".html") == -1 && |rp| >= 4
    ensures ClassAnchor(assemblyName, className, rp) == Ok("#" + assemblyName + "!" + className + ".html" + rp[4..])
  {
  }

  /** Whether a class record is the entry-point class the compiler
      generates for top-level statements; such records are removed. */
  predicate IsAutoGenerated(c: ClassRecord)
  {
    c.name == AutoGeneratedProgram
  }

  /** One pass of the inner foreach over a class that is not removed: its
      simplified name and its anchor; the rest of the record is kept. */
  function RewriteClass(assemblyName: string, c: ClassRecord, namespacedClasses: bool): (r: Result<ClassRecord, RewriteError>)
    ensures r.Ok? ==> r.value.rest == c.rest
    ensures r.Ok? ==> r.value.name == (if namespacedClasses then c.name else ShortName(c.name))
    ensures r.Ok? <==> ClassAnchor(assemblyName, c.name, c.rp).Ok?
    ensures r.Ok? ==> Ok(r.value.rp) == ClassAnchor(assemblyName, c.name, c.rp)
  {
    var name := if namespacedClasses then c.name else ShortName(c.name);
    match ClassAnchor(assemblyName, c.name, c.rp)
    case Err(e) => Err(e)
    case Ok(anchor) => Ok(ClassRecord(name, anchor, c.rest))
  }

  // ----- Rewriting an array in place with removals collected on the way -----

  /** Every item rewritten by f in order, the items skip selects kept as
      they are; the first failure is the exception. */
  function RewriteEach<T, E>(items: seq<T>, f: T -> Result<T, E>, skip: T -> bool): (r: Result<seq<T>, E>)
    ensures r.Ok? ==> |r.value| == |items|
    decreases |items|
  {
    if |items| == 0 then Ok([])
    else
      var n := |items| - 1;
      match RewriteEach(items[..n], f, skip)
      case Err(e) => Err(e)
      case Ok(prefix) =>
        if skip(items[n]) then Ok(prefix + [items[n]])
        else
          match f(items[n])
          case Err(e) => Err(e)
          case Ok(x) => Ok(prefix + [x])
  }

  /** The rewriting succeeds exactly when every item that is not skipped
      does, and then rewrites each such item where it stands and keeps the
      skipped ones. */
  lemma {:induction false} RewriteEachPointwise<T, E>(items: seq<T>, f: T -> Result<T, E>, skip: T -> bool)
    ensures RewriteEach(items, f, skip).Ok? <==> forall j :: 0 <= j < |items| ==> skip(items[j]) || f(items[j]).Ok?
    ensures RewriteEach(items, f, skip).Ok? ==> forall j :: 0 <= j < |items| ==>
      RewriteEach(items, f, skip).value[j] == if skip(items[j]) then items[j] else f(items[j]).value
    decreases |items|
  {
    if |items| > 0 {
      var n := |items| - 1;
      var init := items[..n];
      RewriteEachPointwise(init, f, skip);
      var prefix := RewriteEach(init, f, skip);
      if prefix.Err? {
        var j :| 0 <= j < |init| && !(skip(init[j]) || f(init[j]).Ok?);
        assert init[j] == items[j];
      } else if skip(items[n]) || f(items[n]).Ok? {
        var all := RewriteEach(items, f, skip).value;
        assert all == prefix.value + [if skip(items[n]) then items[n] else f(items[n]).value];
        forall j | 0 <= j < |items|
          ensures all[j] == if skip(items[j]) then items[j] else f(items[j]).value
        {
          if j < n {
            assert init[j] == items[j];
          }
        }
      }
    }
  }

  /** One more item extends the rewritten prefix. */
  lemma RewriteEachSnoc<T, E>(items: seq<T>, i: nat, prefix: seq<T>, f: T -> Result<T, E>, skip: T -> bool)
    requires i < |items|
    requires RewriteEach(items[..i], f, skip) == Ok(prefix)
    ensures skip(items[i]) ==> RewriteEach(items[..i + 1], f, skip) == Ok(prefix + [items[i]])
    ensures !skip(items[i]) && f(items[i]).Ok? ==> RewriteEach(items[..i + 1], f, skip) == Ok(prefix + [f(items[i]).value])
    ensures !skip(items[i]) && f(items[i]).Err? ==> RewriteEach(items[..i + 1], f, skip) == Err(f(items[i]).error)
  {
    assert items[..i + 1][..i] == items[..i];
  }

  /** Once a prefix fails, the whole rewriting fails with the same error. */
  lemma {:induction false} RewriteEachFailsAfter<T, E>(items: seq<T>, n: nat, f: T -> Result<T, E>, skip: T -> bool)
    requires n <= |items|
    requires RewriteEach(items[..n], f, skip).Err?
    ensures RewriteEach(items, f, skip) == RewriteEach(items[..n], f, skip)
    decreases |items| - n
  {
    if n < |items| {
      assert items[..n + 1][..n] == items[..n];
      RewriteEachFailsAfter(items, n + 1, f, skip);
    } else {
      assert items[..n] == items;
    }
  }

  /** The positions of the skipped items, in order. */
  function SkippedPositions<T>(items: seq<T>, skip: T -> bool): seq<nat>
    decreases |items|
  {
    if |items| == 0 then []
    else
      var n := |items| - 1;
      SkippedPositions(items[..n], skip) + (if skip(items[n]) then [n] else [])
  }

  lemma {:induction false} SkippedPositionsMembers<T>(items: seq<T>, skip: T -> bool, j: int)
    ensures j in SkippedPositions(items, skip) <==> 0 <= j < |items| && skip(items[j])
    decreases |items|
  {
    if |items| > 0 {
      var n := |items| - 1;
      SkippedPositionsMembers(items[..n], skip, j);
      SkippedPositionsBelow(items[..n], skip);
    }
  }

  lemma {:induction false} SkippedPositionsBelow<T>(items: seq<T>, skip: T -> bool)
    ensures forall k :: 0 <= k < |SkippedPositions(items, skip)| ==> SkippedPositions(items, skip)[k] < |items|
    decreases |items|
  {
    if |items| > 0 {
      SkippedPositionsBelow(items[..|items| - 1], skip);
    }
  }

  /** The rewritten items whose original was not skipped, in order. */
  function KeepUnskipped<T>(original: seq<T>, rewritten: seq<T>, skip: T -> bool): (r: seq<T>)
    requires |original| == |rewritten|
    ensures |r| <= |rewritten|
    decreases |original|
  {
    if |original| == 0 then []
    else
      var n := |original| - 1;
      KeepUnskipped(original[..n], rewritten[..n], skip) + (if skip(original[n]) then [] else [rewritten[n]])
  }

  /** The positions of the items that are kept, in increasing order. */
  function KeptPositions<T>(original: seq<T>, skip: T -> bool): (p: seq<nat>)
    ensures forall k :: 0 <= k < |p| ==> p[k] < |original| && !skip(original[p[k]])
    ensures forall k, l :: 0 <= k < l < |p| ==> p[k] < p[l]
    ensures forall j :: 0 <= j < |original| && !skip(original[j]) ==> j in p
    decreases |original|
  {
    if |original| == 0 then []
    else
      var n := |original| - 1;
      KeptPositions(original[..n], skip) + (if skip(original[n]) then [] else [n])
  }

  /** What remains is exactly the items at the kept positions, in order. */
  lemma {:induction false} KeepUnskippedAtKeptPositions<T>(original: seq<T>, rewritten: seq<T>, skip: T -> bool)
    requires |original| == |rewritten|
    ensures var r := KeepUnskipped(original, rewritten, skip);
      var p := KeptPositions(original, skip);
      |r| == |p| && forall k :: 0 <= k < |r| ==> r[k] == rewritten[p[k]]
    decreases |original|
  {
    if |original| > 0 {
      var n := |original| - 1;
      KeepUnskippedAtKeptPositions(original[..n], rewritten[..n], skip);
    }
  }

  /** The first foreach: each item rewritten in place and the positions of
      the skipped ones collected for removal. */
  method RewriteInPlace<T, E>(items: seq<T>, f: T -> Result<T, E>, skip: T -> bool)
    returns (r: Result<seq<T>, E>, removals: seq<nat>)
    ensures r == RewriteEach(items, f, skip)
    ensures r.Ok? ==> removals == SkippedPositions(items, skip)
  {
    var current := items;
    removals := [];
    var i := 0;
    while i < |current|
      invariant 0 <= i <= |current| == |items|
      invariant RewriteEach(items[..i], f, skip) == Ok(current[..i])
      invariant forall k :: i <= k < |current| ==> current[k] == items[k]
      invariant removals == SkippedPositions(items[..i], skip)
    {
      assert items[..i + 1][..i] == items[..i];
      var item := current[i];
      RewriteEachSnoc(items, i, current[..i], f, skip);
      if skip(item) {
        removals := removals + [i];
      } else {
        var rewritten := f(item);
        if rewritten.Err? {
          RewriteEachFailsAfter(items, i + 1, f, skip);
          return Err(rewritten.error), removals;
        }
        current := current[i := rewritten.value];
      }
      assert current[..i + 1] == current[..i] + [current[i]];
      i := i + 1;
    }
    assert items[..i] == items && current[..i] == current;
    r := Ok(current);
  }

  /** The second foreach: the collected items removed from the rewritten
      array. */
  method RemoveCollected<T>(original: seq<T>, current: seq<T>, removals: seq<nat>, skip: T -> bool)
    returns (kept: seq<T>)
    requires |original| == |current|
    requires removals == SkippedPositions(original, skip)
    ensures kept == KeepUnskipped(original, current, skip)
  {
    kept := [];
    var j := 0;
    while j < |current|
      invariant 0 <= j <= |current|
      invariant kept == KeepUnskipped(original[..j], current[..j], skip)
    {
      assert original[..j + 1][..j] == original[..j] && current[..j + 1][..j] == current[..j];
      SkippedPositionsMembers(original, skip, j);
      if j !in removals {
        kept := kept + [current[j]];
      }
      j := j + 1;
    }
    assert original[..j] == original && current[..j] == current;
  }

  // ----- The classes of an assembly -----

  /** The classes array after ProcessUnifiedHtml: every class that is not
      an AutoGeneratedProgram record rewritten, then those records removed. */
  function ProcessedClasses(assemblyName: string, classes: seq<ClassRecord>, namespacedClasses: bool)
    : Result<seq<ClassRecord>, RewriteError>
  {
    var rewrite := c => RewriteClass(assemblyName, c, namespacedClasses);
    match RewriteEach(classes, rewrite, IsAutoGenerated)
    case Err(e) => Err(e)
    case Ok(rewritten) => Ok(KeepUnskipped(classes, rewritten, IsAutoGenerated))
  }

  /** The processing fails exactly when the anchor of some class that is
      not removed fails; otherwise the result holds the rewrite of every
      class not named AutoGeneratedProgram, in its original order, and
      nothing else. */
  lemma {:induction false} ProcessedClassesMeaning(assemblyName: string, classes: seq<ClassRecord>, namespacedClasses: bool)
    ensures ProcessedClasses(assemblyName, classes, namespacedClasses).Err? <==>
      exists j :: 0 <= j < |classes| && classes[j].name != AutoGeneratedProgram
                  && ClassAnchor(assemblyName, classes[j].name, classes[j].rp).Err?
    ensures var r := ProcessedClasses(assemblyName, classes, namespacedClasses);
      var p := KeptPositions(classes, IsAutoGenerated);
      r.Ok? ==>
        && |r.value| == |p|
        && (forall k :: 0 <= k < |p| ==> classes[p[k]].name != AutoGeneratedProgram)
        && (forall j :: 0 <= j < |classes| && classes[j].name != AutoGeneratedProgram ==> j in p)
        && forall k :: 0 <= k < |p| ==> RewriteClass(assemblyName, classes[p[k]], namespacedClasses) == Ok(r.value[k])
  {
    var rewrite := c => RewriteClass(assemblyName, c, namespacedClasses);
    RewriteEachPointwise(classes, rewrite, IsAutoGenerated);
    var all := RewriteEach(classes, rewrite, IsAutoGenerated);
    if all.Ok? {
      KeepUnskippedAtKeptPositions(classes, all.value, IsAutoGenerated);
    } else {
      var j :| 0 <= j < |classes| && !(IsAutoGenerated(classes[j]) || rewrite(classes[j]).Ok?);
      assert classes[j].name != AutoGeneratedProgram;
    }
  }

  /** The loops of ProcessUnifiedHtml over one assembly's classes: the
      rewrite in place with the AutoGeneratedProgram records collected,
      then the removal of the collected records. */
  method ProcessClasses(assemblyName: string, classes: seq<ClassRecord>, namespacedClasses: bool)
    returns (r: Result<seq<ClassRecord>, RewriteError>)
    ensures r == ProcessedClasses(assemblyName, classes, namespacedClasses)
  {
    var rewritten, removals := RewriteInPlace(classes, c => RewriteClass(assemblyName, c, namespacedClasses), IsAutoGenerated);
    if rewritten.Err? {
      return Err(rewritten.error);
    }
    var kept := RemoveCollected(classes, rewritten.value, removals, IsAutoGenerated);
    r := Ok(kept);
  }

  /** The outer foreach over the assemblies array. */
  method ProcessAssemblies(assemblies: seq<AssemblyRecord>, namespacedClasses: bool)
    returns (r: Result<seq<AssemblyRecord>, RewriteError>)
    ensures r.Ok? <==> forall k :: 0 <= k < |assemblies| ==>
      ProcessedClasses(assemblies[k].name, assemblies[k].classes, namespacedClasses).Ok?
    ensures r.Ok? ==> |r.value| == |assemblies| && forall k :: 0 <= k < |assemblies| ==>
      r.value[k] == AssemblyRecord(assemblies[k].name,
                                   ProcessedClasses(assemblies[k].name, assemblies[k].classes, namespacedClasses).value)
  {
    var current := assemblies;
    var i := 0;
    while i < |current|
      invariant 0 <= i <= |current| == |assemblies|
      invariant forall k :: 0 <= k < i ==>
        && ProcessedClasses(assemblies[k].name, assemblies[k].classes, namespacedClasses).Ok?
        && current[k] == AssemblyRecord(assemblies[k].name,
                                        ProcessedClasses(assemblies[k].name, assemblies[k].classes, namespacedClasses).value)
      invariant current[i..] == assemblies[i..]
    {
      var a := current[i];
      assert a == assemblies[i];
      var processed := ProcessClasses(a.name, a.classes, namespacedClasses);
      if processed.Err? {
        return Err(processed.error);
      }
      current := current[i := AssemblyRecord(a.name, processed.value)];
      i := i + 1;
    }
    r := Ok(current);
  }

  /** The inner foreach over the riskHotspots array, on one record. */
  function RewriteHotspot(h: RiskHotspot, namespacedClasses: bool): (r: RiskHotspot)
    ensures r.assembly == h.assembly && r.rest == h.rest
    ensures r.className == if namespacedClasses then h.className else ShortName(h.className)
    ensures r.reportPath == HotspotAnchor(h.assembly, h.className)
  {
    h.(className := if namespacedClasses then h.className else ShortName(h.className),
       reportPath := HotspotAnchor(h.assembly, h.className))
  }

  function HotspotAnchor(assembly: string, qualifiedClassName: string): string
  {
    "#" + assembly + "!" + qualifiedClassName + ".html"
  }

  /** The foreach over the risk hotspots, rewriting each record in place. */
  method ProcessRiskHotspots(hotspots: seq<RiskHotspot>, namespacedClasses: bool) returns (r: seq<RiskHotspot>)
    ensures |r| == |hotspots|
    ensures forall k :: 0 <= k < |r| ==> r[k] == RewriteHotspot(hotspots[k], namespacedClasses)
  {
    r := hotspots;
    var i := 0;
    while i < |r|
      invariant 0 <= i <= |r| == |hotspots|
      invariant forall k :: 0 <= k < i ==> r[k] == RewriteHotspot(hotspots[k], namespacedClasses)
      invariant r[i..] == hotspots[i..]
    {
      var h := r[i];
      assert h == hotspots[i];
      var qualifiedClassName := h.className;
      if !namespacedClasses {
        h := h.(className := ShortName(qualifiedClassName));
      }
      h := h.(reportPath := HotspotAnchor(h.assembly, qualifiedClassName));
      r := r[i := h];
      i := i + 1;
    }
  }

  /** The assembly and class an anchor "#assembly!class.html..." points at:
      the text up to the first '!', and what follows it up to the first
      ".html". */
  function AnchorTarget(anchor: string): Option<(string, string)>
  {
    if |anchor| == 0 || anchor[0] != '#' then None
    else
      var body := anchor[1..];
      var bang := IndexOf(body, "!");
      if bang == -1 then None
      else
        var after := body[bang + 1..];
        var html := IndexOf(after, ".html");
        if html == -1 then None else Some((body[..bang], after[..html]))
  }

  /** A hotspot anchor leads back to its assembly and its qualified class
      name, as long as the assembly name holds no '!' and the class name no
      ".html". */
  lemma {:induction false} HotspotAnchorTarget(assembly: string, className: string)
    requires '!' !in assembly && IndexOf(className, ".html") == -1
    ensures AnchorTarget(HotspotAnchor(assembly, className)) == Some((assembly, className))
  {
    var anchor := HotspotAnchor(assembly, className);
    var body := anchor[1..];
    assert body == assembly + "!" + className + ".html";
    FirstOccurrence(body, "!", |assembly|);
    var after := body[|assembly| + 1..];
    assert after == className + ".html" + "";
    FirstHtmlAfter(className, "");
    assert body[..|assembly|] == assembly;
    assert after[..|className|] == className;
  }

  /** A pattern starting with a character absent from text[..at] is first
      found at at. */
  lemma FirstOccurrence(text: string, pattern: string, at: nat)
    requires |pattern| > 0 && OccursAt(text, pattern, at)
    requires forall j :: 0 <= j < at ==> text[j] != pattern[0]
    ensures IndexOf(text, pattern) == at
  {
    forall j | 0 <= j < at ensures !OccursAt(text, pattern, j) {
      assert text[j] != pattern[0];
    }
  }

  // ----- Colours -----

  type Byte = b: int | 0 <= b < 256

  /** System.Drawing.Color's four channels. */
  datatype Colour = Colour(r: Byte, g: Byte, b: Byte, a: Byte)

  function ColourComponents(c: Colour): (parts: seq<string>)
    ensures |parts| == 4
  {
    [NatToDecimal(c.r), NatToDecimal(c.g), NatToDecimal(c.b), NatToDecimal(c.a)]
  }

  /** ToJsColour: "rgba(R,G,B,A)" in decimal. */
  function ToJsColour(c: Colour): string
  {
    "rgba(" + Join(ColourComponents(c), ",") + ")"
  }

  /** The colour a CSS "rgba(R,G,B,A)" text of four decimal bytes names. */
  function ParseJsColour(s: string): Option<Colour>
  {
    if !StartsWith(s, "rgba(") || !EndsWith(s, ")") || |s| < 6 then None
    else
      var parts := SplitAll(s[5..|s| - 1], {','});
      if |parts| != 4 || !IsDigits(parts[0]) || !IsDigits(parts[1]) || !IsDigits(parts[2]) || !IsDigits(parts[3]) then None
      else
        var r, g, b, a := DecimalValue(parts[0]), DecimalValue(parts[1]), DecimalValue(parts[2]), DecimalValue(parts[3]);
        if r < 256 && g < 256 && b < 256 && a < 256 then Some(Colour(r, g, b, a)) else None
  }

  /** The colour text reads back as the colour, so distinct colours are
      never given the same text. */
  lemma {:induction false} ToJsColourParses(c: Colour)
    ensures ParseJsColour(ToJsColour(c)) == Some(c)
  {
    var parts := ColourComponents(c);
    forall k | 0 <= k < |parts| ensures ',' !in parts[k] {
      assert IsDigits(parts[k]);
    }
    SplitAllOfJoin(parts, ',');
    var s := ToJsColour(c);
    assert s[5..|s| - 1] == Join(parts, ",");
  }

  lemma ToJsColourInjective(c1: Colour, c2: Colour)
    requires ToJsColour(c1) == ToJsColour(c2)
    ensures c1 == c2
  {
    ToJsColourParses(c1);
    ToJsColourParses(c2);
  }
}
