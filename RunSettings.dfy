/** The Microsoft code-coverage run-settings service: whether a test run is
    collected with the Microsoft data collector, the lookup of the projects
    that bring their own run settings, the generation of run settings for
    the others from a custom or the built-in template, the injection into a
    run-settings document, and the selection of the Cobertura result files.
    The template engine, the suitability checker, the writer and the host
    are functions handed to the model; what the service asks of them is
    recorded as a sequence of effects. */
module RunSettings {
  import opened Common

  /** The parts of an ICoverageProject the service reads. Projects are
      compared by value, where the source compares references. */
  datatype CoverageProject = CoverageProject(
    projectFile: string,
    testDllFile: string,
    runSettingsFile: Option<string>,
    settings: string,
    projectOutputFolder: string,
    excludedReferencedProjects: seq<string>,
    includedReferencedProjects: seq<string>)

  datatype UserRunSettingsProjectDetails = UserRunSettingsProjectDetails(
    settings: string,
    outputFolder: string,
    testDllFile: string,
    excludedReferencedProjects: seq<string>,
    includedReferencedProjects: seq<string>)

  datatype CollectionStatus = NotCollecting | Collecting | Error

  datatype CustomTemplateDetails = CustomTemplateDetails(path: string, template: string)

  datatype TemplateReplaceResult = TemplateReplaceResult(replaced: string, replacedTestAdapter: bool)

  datatype CoverageProjectRunSettings = CoverageProjectRunSettings(
    coverageProject: CoverageProject,
    runSettings: string,
    customTemplatePath: Option<string>,
    replacedTestAdapter: bool)

  /** The collaborators that generation consults: Path.GetDirectoryName, the
      custom template provider, the built-in template and its ConfigureCustom,
      and the replacement of a template for a project (the replacements
      factory, the template's Replace and the XML formatting together),
      which answers Err for an exception. */
  datatype TemplateServices = TemplateServices(
    directoryName: string -> string,
    provideCustom: (string, string) -> Option<CustomTemplateDetails>,
    builtInTemplate: string,
    configureCustom: string -> string,
    replace: (CoverageProject, string, string) -> Result<TemplateReplaceResult, string>)

  /** The messages the service logs. */
  datatype LogMessage =
    | UserRunSettingsMessage
    | GeneratedMessage(customTemplatePaths: seq<string>)
    | ExceptionMessage(reason: string, exception: string)
    | NoCoberturaFilesMessage

  const MsCodeCoverageMessage := "Ms code coverage"

  /** The lines handed to the logger for a message. */
  function LogLines(m: LogMessage): seq<string>
  {
    match m
    case UserRunSettingsMessage => [MsCodeCoverageMessage + " with user runsettings"]
    case GeneratedMessage(paths) =>
      [if |paths| > 0 then MsCodeCoverageMessage + " - custom template paths" else MsCodeCoverageMessage] + Distinct(paths)
    case ExceptionMessage(reason, exception) => [reason, exception]
    case NoCoberturaFilesMessage => ["No cobertura files for ms code coverage."]
  }

  /** What the service asks of its collaborators, in order. */
  datatype Effect =
    | SetProjectOutputFolders(projects: seq<CoverageProject>)
    | PrepareForCoverage(project: CoverageProject)
    | CopyShim(shimPath: string, projects: seq<CoverageProject>)
    | WriteRunSettings(runSettings: seq<CoverageProjectRunSettings>)
    | RemoveGeneratedSettings(projects: seq<CoverageProject>)
    | Logged(message: LogMessage)
    | RunAndProcessReport(coberturaFiles: seq<string>)

  // ----- The split of the projects -----

  /** coverageProjects.Where(RunSettingsFile != null). */
  function WithRunSettings(projects: seq<CoverageProject>): seq<CoverageProject>
  {
    if |projects| == 0 then []
    else
      var head := if projects[0].runSettingsFile.Some? then [projects[0]] else [];
      head + WithRunSettings(projects[1..])
  }

  /** What the suitability check is handed: the run-settings files of the
      projects that have one, in order. */
  function RunSettingsFiles(projects: seq<CoverageProject>): seq<string>
  {
    if |projects| == 0 then []
    else
      var head := if projects[0].runSettingsFile.Some? then [projects[0].runSettingsFile.value] else [];
      head + RunSettingsFiles(projects[1..])
  }

  /** The projects with run settings are the projects whose file is not
      null, each appearing as often as in the input. */
  lemma {:induction false} WithRunSettingsMembers(projects: seq<CoverageProject>)
    ensures forall p :: p in WithRunSettings(projects) <==> p in projects && p.runSettingsFile.Some?
    ensures multiset(WithRunSettings(projects)) <= multiset(projects)
  {
    if |projects| > 0 {
      WithRunSettingsMembers(projects[1..]);
      assert projects == [projects[0]] + projects[1..];
    }
  }

  /** Only the files of projects with run settings go to the suitability
      check, one per such project and in the same order. */
  lemma {:induction false} RunSettingsFilesOfProjectsWithRunSettings(projects: seq<CoverageProject>)
    ensures |RunSettingsFiles(projects)| == |WithRunSettings(projects)|
    ensures forall k :: 0 <= k < |RunSettingsFiles(projects)| ==>
      WithRunSettings(projects)[k].runSettingsFile == Some(RunSettingsFiles(projects)[k])
  {
    if |projects| > 0 {
      RunSettingsFilesOfProjectsWithRunSettings(projects[1..]);
    }
  }

  /** coverageProjects.Except(coverageProjectsWithRunSettings): the distinct
      projects that are not among those with run settings. */
  function WithoutRunSettings(projects: seq<CoverageProject>): seq<CoverageProject>
  {
    DistinctAfter(projects, set p | p in WithRunSettings(projects))
  }

  /** The projects without run settings are exactly the projects whose file
      is null, each once. */
  lemma WithoutRunSettingsMembers(projects: seq<CoverageProject>)
    ensures forall p :: p in WithoutRunSettings(projects) <==> p in projects && p.runSettingsFile.None?
    ensures forall i, j :: 0 <= i < j < |WithoutRunSettings(projects)| ==>
      WithoutRunSettings(projects)[i] != WithoutRunSettings(projects)[j]
  {
    WithRunSettingsMembers(projects);
  }

  // ----- The collection status -----

  /** The status IsCollectingAsync returns, from the suitability verdict,
      the option, whether some project lacks run settings and whether
      generating them succeeded. */
  function Status(suitable: bool, specifiedMsCodeCoverage: bool, useMsCodeCoverage: bool,
                  anyWithoutRunSettings: bool, generated: bool): (r: CollectionStatus)
    ensures !suitable ==> r == NotCollecting
    ensures suitable && !anyWithoutRunSettings ==> r == Collecting
    ensures suitable && anyWithoutRunSettings && !specifiedMsCodeCoverage && !useMsCodeCoverage ==> r == NotCollecting
    ensures suitable && anyWithoutRunSettings && (specifiedMsCodeCoverage || useMsCodeCoverage) ==>
      (r == Collecting <==> generated) && (r == Error <==> !generated)
    ensures r == Error ==> suitable && !generated
  {
    if !suitable then NotCollecting
    else if !anyWithoutRunSettings then Collecting
    else if !(specifiedMsCodeCoverage || useMsCodeCoverage) then NotCollecting
    else if generated then Collecting
    else Error
  }

  // ----- The lookup of the projects with run settings -----

  function DetailsOf(p: CoverageProject): UserRunSettingsProjectDetails
  {
    UserRunSettingsProjectDetails(p.settings, p.projectOutputFolder, p.testDllFile,
                                  p.excludedReferencedProjects, p.includedReferencedProjects)
  }

  /** Whether no two projects share a test dll, so that every Add succeeds. */
  predicate UniqueTestDlls(projects: seq<CoverageProject>)
  {
    forall i, j :: 0 <= i < j < |projects| ==> projects[i].testDllFile != projects[j].testDllFile
  }

  /** projects[j] is the first project whose test dll an earlier one already
      has: the projects before it are unique, and dll is its test dll. */
  predicate FirstDuplicateAt(projects: seq<CoverageProject>, j: int, dll: string)
  {
    && 0 <= j < |projects|
    && UniqueTestDlls(projects[..j])
    && projects[j].testDllFile == dll
    && dll in TestDlls(projects[..j])
  }

  function TestDlls(projects: seq<CoverageProject>): set<string>
  {
    set i | 0 <= i < |projects| :: projects[i].testDllFile
  }

  /** The dictionary the Add loop builds: one entry per project, keyed by
      its test dll. */
  function LookupOf(projects: seq<CoverageProject>): map<string, UserRunSettingsProjectDetails>
    decreases |projects|
  {
    if |projects| == 0 then map[]
    else
      var n := |projects| - 1;
      LookupOf(projects[..n])[projects[n].testDllFile := DetailsOf(projects[n])]
  }

  /** The lookup's keys are the projects' test dlls. */
  lemma {:induction false} LookupOfKeys(projects: seq<CoverageProject>)
    ensures LookupOf(projects).Keys == TestDlls(projects)
    decreases |projects|
  {
    if |projects| > 0 {
      var n := |projects| - 1;
      var init := projects[..n];
      LookupOfKeys(init);
      TestDllsSnoc(projects);
    }
  }

  lemma TestDllsSnoc(projects: seq<CoverageProject>)
    requires |projects| > 0
    ensures TestDlls(projects) == TestDlls(projects[..|projects| - 1]) + {projects[|projects| - 1].testDllFile}
  {
    var n := |projects| - 1;
    var init := projects[..n];
    forall x | x in TestDlls(projects) ensures x in TestDlls(init) + {projects[n].testDllFile} {
      var i :| 0 <= i < |projects| && projects[i].testDllFile == x;
      if i < n {
        assert init[i] == projects[i];
      }
    }
    forall x | x in TestDlls(init) ensures x in TestDlls(projects) {
      var i :| 0 <= i < |init| && init[i].testDllFile == x;
      assert projects[i] == init[i];
    }
  }

  /** With no dll shared, the lookup holds the details of every project
      under its dll, one entry each. */
  lemma {:induction false} LookupOfUnique(projects: seq<CoverageProject>)
    requires UniqueTestDlls(projects)
    ensures |LookupOf(projects)| == |projects|
    ensures forall i :: 0 <= i < |projects| ==>
      projects[i].testDllFile in LookupOf(projects) && LookupOf(projects)[projects[i].testDllFile] == DetailsOf(projects[i])
    decreases |projects|
  {
    if |projects| > 0 {
      var n := |projects| - 1;
      var init := projects[..n];
      UniqueTestDllsSnoc(projects, n);
      assert projects[..n + 1] == projects;
      LookupOfUnique(init);
      LookupOfKeys(init);
      forall i | 0 <= i < |projects|
        ensures projects[i].testDllFile in LookupOf(projects)
        ensures LookupOf(projects)[projects[i].testDllFile] == DetailsOf(projects[i])
      {
        if i < n {
          assert init[i] == projects[i];
        }
      }
    }
  }

  /** A prefix one longer keeps its dlls unique exactly when the new dll is
      not among the earlier ones. */
  lemma UniqueTestDllsSnoc(projects: seq<CoverageProject>, i: nat)
    requires i < |projects|
    ensures UniqueTestDlls(projects[..i + 1]) <==>
      UniqueTestDlls(projects[..i]) && projects[i].testDllFile !in TestDlls(projects[..i])
  {
    var init := projects[..i];
    var ext := projects[..i + 1];
    assert forall k :: 0 <= k < i ==> ext[k] == init[k];
  }

  // ----- Templates and generated run settings -----

  /** GetRunSettingsTemplate: the custom template, configured, with its path
      when the provider finds one; otherwise the built-in template and no
      path. */
  function RunSettingsTemplate(projectDirectory: string, solutionDirectory: string, services: TemplateServices)
    : (r: (string, Option<string>))
    ensures var custom := services.provideCustom(projectDirectory, solutionDirectory);
      && (custom.Some? <==> r.1.Some?)
      && (custom.Some? ==> r.0 == services.configureCustom(custom.value.template) && r.1 == Some(custom.value.path))
      && (custom.None? ==> r.0 == services.builtInTemplate)
  {
    match services.provideCustom(projectDirectory, solutionDirectory)
    case Some(details) => (services.configureCustom(details.template), Some(details.path))
    case None => (services.builtInTemplate, None)
  }

  /** The Select lambda of GetCoverageProjectsRunSettings for one project:
      the template for the project's directory, replaced for the project
      (CreateProjectRunSettings). */
  function ProjectRunSettings(p: CoverageProject, solutionDirectory: string, msCodeCoveragePath: string,
                              services: TemplateServices): (r: Result<CoverageProjectRunSettings, string>)
    ensures var (template, customPath) := RunSettingsTemplate(services.directoryName(p.projectFile), solutionDirectory, services);
      var replaced := services.replace(p, template, msCodeCoveragePath);
      && (r.Err? <==> replaced.Err?)
      && (r.Err? ==> r.error == replaced.error)
      && (r.Ok? ==> r.value == CoverageProjectRunSettings(p, replaced.value.replaced, customPath, replaced.value.replacedTestAdapter))
  {
    var (template, customPath) := RunSettingsTemplate(services.directoryName(p.projectFile), solutionDirectory, services);
    match services.replace(p, template, msCodeCoveragePath)
    case Err(e) => Err(e)
    case Ok(result) => Ok(CoverageProjectRunSettings(p, result.replaced, customPath, result.replacedTestAdapter))
  }

  /** GetCoverageProjectsRunSettings: the run settings of every project, in
      order; the first exception propagates. */
  function CoverageProjectsRunSettings(projects: seq<CoverageProject>, solutionDirectory: string,
                                       msCodeCoveragePath: string, services: TemplateServices)
    : (r: Result<seq<CoverageProjectRunSettings>, string>)
    ensures r.Ok? ==> |r.value| == |projects|
  {
    if |projects| == 0 then Ok([])
    else
      match ProjectRunSettings(projects[0], solutionDirectory, msCodeCoveragePath, services)
      case Err(e) => Err(e)
      case Ok(first) =>
        match CoverageProjectsRunSettings(projects[1..], solutionDirectory, msCodeCoveragePath, services)
        case Err(e) => Err(e)
        case Ok(rest) => Ok([first] + rest)
  }

  /** Generation succeeds exactly when every project's settings do, and then
      holds each project's settings in place; on failure the exception is
      that of the first project that fails. */
  lemma {:induction false} CoverageProjectsRunSettingsPointwise(projects: seq<CoverageProject>, solutionDirectory: string,
                                                                msCodeCoveragePath: string, services: TemplateServices)
    ensures var r := CoverageProjectsRunSettings(projects, solutionDirectory, msCodeCoveragePath, services);
      && (r.Ok? <==> forall i :: 0 <= i < |projects| ==>
            ProjectRunSettings(projects[i], solutionDirectory, msCodeCoveragePath, services).Ok?)
      && (r.Ok? ==> forall i :: 0 <= i < |projects| ==>
            ProjectRunSettings(projects[i], solutionDirectory, msCodeCoveragePath, services) == Ok(r.value[i]))
      && (r.Err? ==>
            exists i :: 0 <= i < |projects|
              && ProjectRunSettings(projects[i], solutionDirectory, msCodeCoveragePath, services) == Err(r.error)
              && forall j :: 0 <= j < i ==> ProjectRunSettings(projects[j], solutionDirectory, msCodeCoveragePath, services).Ok?)
  {
    if |projects| > 0 {
      var rest := projects[1..];
      CoverageProjectsRunSettingsPointwise(rest, solutionDirectory, msCodeCoveragePath, services);
      var first := ProjectRunSettings(projects[0], solutionDirectory, msCodeCoveragePath, services);
      var r := CoverageProjectsRunSettings(projects, solutionDirectory, msCodeCoveragePath, services);
      var tail := CoverageProjectsRunSettings(rest, solutionDirectory, msCodeCoveragePath, services);
      assert forall i :: 0 < i < |projects| ==> projects[i] == rest[i - 1];
      if first.Err? {
        assert ProjectRunSettings(projects[0], solutionDirectory, msCodeCoveragePath, services) == Err(r.error);
      } else if tail.Err? {
        var i :| 0 <= i < |rest|
          && ProjectRunSettings(rest[i], solutionDirectory, msCodeCoveragePath, services) == Err(tail.error)
          && forall j :: 0 <= j < i ==> ProjectRunSettings(rest[j], solutionDirectory, msCodeCoveragePath, services).Ok?;
        assert ProjectRunSettings(projects[i + 1], solutionDirectory, msCodeCoveragePath, services) == Err(r.error);
        assert forall j :: 0 < j < i + 1 ==> projects[j] == rest[j - 1];
      } else {
        assert r.value == [first.value] + tail.value;
      }
    }
  }

  /** The projects handed to the shim copier: those whose template replaced
      the test adapter, in order. */
  function ShimProjects(runSettings: seq<CoverageProjectRunSettings>): seq<CoverageProject>
  {
    if |runSettings| == 0 then []
    else
      var head := if runSettings[0].replacedTestAdapter then [runSettings[0].coverageProject] else [];
      head + ShimProjects(runSettings[1..])
  }

  /** The custom template paths that are not null, in order. */
  function CustomTemplatePaths(runSettings: seq<CoverageProjectRunSettings>): seq<string>
  {
    if |runSettings| == 0 then []
    else
      var head := if runSettings[0].customTemplatePath.Some? then [runSettings[0].customTemplatePath.value] else [];
      head + CustomTemplatePaths(runSettings[1..])
  }

  /** The shim is copied for a project exactly when its template replaced
      the test adapter. */
  lemma {:induction false} ShimProjectsMembers(runSettings: seq<CoverageProjectRunSettings>, p: CoverageProject)
    ensures p in ShimProjects(runSettings) <==>
      exists i :: 0 <= i < |runSettings| && runSettings[i].replacedTestAdapter && runSettings[i].coverageProject == p
  {
    if |runSettings| > 0 {
      var rest := runSettings[1..];
      ShimProjectsMembers(rest, p);
      if p in ShimProjects(rest) {
        var i :| 0 <= i < |rest| && rest[i].replacedTestAdapter && rest[i].coverageProject == p;
        assert runSettings[i + 1] == rest[i];
      }
      if exists i :: 0 < i < |runSettings| && runSettings[i].replacedTestAdapter && runSettings[i].coverageProject == p {
        var i :| 0 < i < |runSettings| && runSettings[i].replacedTestAdapter && runSettings[i].coverageProject == p;
        assert rest[i - 1] == runSettings[i];
      }
    }
  }

  /** A path is reported exactly when it is some project's custom template
      path. */
  lemma {:induction false} CustomTemplatePathsMembers(runSettings: seq<CoverageProjectRunSettings>, path: string)
    ensures path in CustomTemplatePaths(runSettings) <==>
      exists i :: 0 <= i < |runSettings| && runSettings[i].customTemplatePath == Some(path)
  {
    if |runSettings| > 0 {
      var rest := runSettings[1..];
      CustomTemplatePathsMembers(rest, path);
      if path in CustomTemplatePaths(rest) {
        var i :| 0 <= i < |rest| && rest[i].customTemplatePath == Some(path);
        assert runSettings[i + 1] == rest[i];
      }
      if exists i :: 0 < i < |runSettings| && runSettings[i].customTemplatePath == Some(path) {
        var i :| 0 < i < |runSettings| && runSettings[i].customTemplatePath == Some(path);
        assert rest[i - 1] == runSettings[i];
      }
    }
  }

  /** Whether GenerateProjectsRunSettingsAsync returns true: building the
      settings and writing them both succeed. */
  predicate GenerationSucceeds(projects: seq<CoverageProject>, solutionDirectory: string, msCodeCoveragePath: string,
                               services: TemplateServices, write: seq<CoverageProjectRunSettings> -> Option<string>)
  {
    var built := CoverageProjectsRunSettings(projects, solutionDirectory, msCodeCoveragePath, services);
    built.Ok? && write(built.value).None?
  }

  /** What GenerateProjectsRunSettingsAsync does, given what building the
      settings gave: a build exception is logged; built settings have the
      shim copied and are written, and a failed write is logged and removes
      the generated settings of every project. */
  function GenerationEffects(projects: seq<CoverageProject>, shimPath: string,
                             built: Result<seq<CoverageProjectRunSettings>, string>,
                             write: seq<CoverageProjectRunSettings> -> Option<string>): seq<Effect>
  {
    match built
    case Err(e) => [Logged(ExceptionMessage("Exception generating ms runsettings", e))]
    case Ok(settings) =>
      [CopyShim(shimPath, ShimProjects(settings)), WriteRunSettings(settings)]
      + match write(settings)
        case None => []
        case Some(e) => [Logged(ExceptionMessage("Exception writing ms runsettings", e)), RemoveGeneratedSettings(projects)]
  }

  // ----- Injection and collection -----

  datatype RunSettingConfigurationInfoState = Discovery | Execution

  const CoberturaSuffix := ".cobertura.xml"

  /** The local paths of the result files that end in ".cobertura.xml", in
      order; no result URIs gives none. */
  function CoberturaFiles(resultsUris: Option<seq<string>>): seq<string>
  {
    match resultsUris
    case None => []
    case Some(paths) => CoberturaPaths(paths)
  }

  function CoberturaPaths(paths: seq<string>): seq<string>
  {
    if |paths| == 0 then []
    else (if EndsWith(paths[0], CoberturaSuffix) then [paths[0]] else []) + CoberturaPaths(paths[1..])
  }

  /** The Cobertura files are exactly the result paths that end in
      ".cobertura.xml". */
  lemma {:induction false} CoberturaPathsMembers(paths: seq<string>)
    ensures forall f :: f in CoberturaPaths(paths) <==> f in paths && EndsWith(f, CoberturaSuffix)
    ensures |CoberturaPaths(paths)| <= |paths|
  {
    if |paths| > 0 {
      CoberturaPathsMembers(paths[1..]);
      assert paths == [paths[0]] + paths[1..];
    }
  }

  /** The service. Its lookup is null until the first suitable run. */
  class MsCodeCoverageRunSettingsService {
    var msCodeCoveragePath: string
    var shimPath: string
    var userRunSettingsProjectDetailsLookup: Option<map<string, UserRunSettingsProjectDetails>>
    var effects: seq<Effect>

    constructor()
      ensures msCodeCoveragePath == "" && shimPath == ""
      ensures userRunSettingsProjectDetailsLookup == None && effects == []
    {
      msCodeCoveragePath := "";
      shimPath := "";
      userRunSettingsProjectDetailsLookup := None;
      effects := [];
    }

    /** Initialize, given the folder the tool zip was unzipped to. */
    method Initialize(zipDestination: string)
      modifies this
      ensures msCodeCoveragePath == PathCombine(PathCombine(zipDestination, "build"), "netstandard1.0")
      ensures shimPath == PathCombine(PathCombine(PathCombine(msCodeCoveragePath, "CodeCoverage"), "coreclr"),
                                      "Microsoft.VisualStudio.CodeCoverage.Shim.dll")
      ensures userRunSettingsProjectDetailsLookup == old(userRunSettingsProjectDetailsLookup)
      ensures effects == old(effects)
    {
      msCodeCoveragePath := PathCombine(PathCombine(zipDestination, "build"), "netstandard1.0");
      shimPath := PathCombine(PathCombine(PathCombine(PathCombine(PathCombine(zipDestination, "build"), "netstandard1.0"),
        "CodeCoverage"), "coreclr"), "Microsoft.VisualStudio.CodeCoverage.Shim.dll");
    }

    /** PrepareCoverageProjectsAsync: the output folders set, then every
      project prepared in turn. */
    method PrepareCoverageProjects(projects: seq<CoverageProject>)
      modifies this
      ensures effects == old(effects) + [SetProjectOutputFolders(projects)] + PrepareEffects(projects)
      ensures msCodeCoveragePath == old(msCodeCoveragePath) && shimPath == old(shimPath)
      ensures userRunSettingsProjectDetailsLookup == old(userRunSettingsProjectDetailsLookup)
    {
      effects := effects + [SetProjectOutputFolders(projects)];
      var start := effects;
      var i := 0;
      while i < |projects|
        invariant 0 <= i <= |projects|
        invariant effects == start + PrepareEffects(projects[..i])
        invariant msCodeCoveragePath == old(msCodeCoveragePath) && shimPath == old(shimPath)
        invariant userRunSettingsProjectDetailsLookup == old(userRunSettingsProjectDetailsLookup)
      {
        assert projects[..i + 1][..i] == projects[..i];
        effects := effects + [PrepareForCoverage(projects[i])];
        i := i + 1;
      }
      assert projects[..i] == projects;
    }

    /** SetUserRunSettingsProjectDetails: a fresh dictionary filled by Add,
      which raises on the first test dll already added; that dll is the
      result. */
    method SetUserRunSettingsProjectDetails(projects: seq<CoverageProject>) returns (duplicate: Option<string>)
      modifies this
      ensures duplicate.None? <==> UniqueTestDlls(projects)
      ensures duplicate.None? ==> userRunSettingsProjectDetailsLookup == Some(LookupOf(projects))
      ensures duplicate.Some? ==> duplicate.value in TestDlls(projects)
      ensures duplicate.Some? ==> exists j :: (FirstDuplicateAt(projects, j, duplicate.value)
        && userRunSettingsProjectDetailsLookup == Some(LookupOf(projects[..j])))
      ensures msCodeCoveragePath == old(msCodeCoveragePath) && shimPath == old(shimPath) && effects == old(effects)
    {
      var lookup: map<string, UserRunSettingsProjectDetails> := map[];
      userRunSettingsProjectDetailsLookup := Some(lookup);
      var i := 0;
      while i < |projects|
        invariant 0 <= i <= |projects|
        invariant lookup == LookupOf(projects[..i]) && UniqueTestDlls(projects[..i])
        invariant userRunSettingsProjectDetailsLookup == Some(lookup)
        invariant msCodeCoveragePath == old(msCodeCoveragePath) && shimPath == old(shimPath) && effects == old(effects)
      {
        var p := projects[i];
        LookupOfKeys(projects[..i]);
        UniqueTestDllsSnoc(projects, i);
        assert projects[..i + 1][..i] == projects[..i];
        if p.testDllFile in lookup {
          UniqueTestDllsPrefix(projects, i + 1);
          assert FirstDuplicateAt(projects, i, p.testDllFile);
          TestDllsPrefix(projects, i);
          return Some(p.testDllFile);
        }
        lookup := lookup[p.testDllFile := DetailsOf(p)];
        userRunSettingsProjectDetailsLookup := Some(lookup);
        i := i + 1;
      }
      assert projects[..i] == projects;
      duplicate := None;
    }

    /** GenerateProjectsRunSettingsAsync: the settings built, the shim copied
      for the projects that need it, the settings written; an exception
      while building or writing is logged and gives (false, null), and a
      failed write also removes the generated settings of every project. */
    method GenerateProjectsRunSettings(projects: seq<CoverageProject>, solutionDirectory: string, services: TemplateServices,
                                       write: seq<CoverageProjectRunSettings> -> Option<string>)
      returns (success: bool, customTemplatePaths: Option<seq<string>>)
      modifies this
      ensures var built := CoverageProjectsRunSettings(projects, solutionDirectory, msCodeCoveragePath, services);
        && (success <==> GenerationSucceeds(projects, solutionDirectory, msCodeCoveragePath, services, write))
        && (success <==> customTemplatePaths.Some?)
        && (success ==> customTemplatePaths == Some(CustomTemplatePaths(built.value)))
        && (built.Err? ==> effects == old(effects) + [Logged(ExceptionMessage("Exception generating ms runsettings", built.error))])
        && (built.Ok? ==>
              var written := old(effects) + [CopyShim(shimPath, ShimProjects(built.value)), WriteRunSettings(built.value)];
              effects == if write(built.value).None? then written
                         else written + [Logged(ExceptionMessage("Exception writing ms runsettings", write(built.value).value)),
                                         RemoveGeneratedSettings(projects)])
      ensures effects == old(effects) + GenerationEffects(projects, shimPath,
        CoverageProjectsRunSettings(projects, solutionDirectory, msCodeCoveragePath, services), write)
      ensures msCodeCoveragePath == old(msCodeCoveragePath) && shimPath == old(shimPath)
      ensures userRunSettingsProjectDetailsLookup == old(userRunSettingsProjectDetailsLookup)
    {
      var built := CoverageProjectsRunSettings(projects, solutionDirectory, msCodeCoveragePath, services);
      if built.Err? {
        effects := effects + [Logged(ExceptionMessage("Exception generating ms runsettings", built.error))];
        return false, None;
      }
      var projectsRunSettings := built.value;
      effects := effects + [CopyShim(shimPath, ShimProjects(projectsRunSettings))];
      var paths := CustomTemplatePaths(projectsRunSettings);
      effects := effects + [WriteRunSettings(projectsRunSettings)];
      var writeError := write(projectsRunSettings);
      if writeError.Some? {
        effects := effects + [Logged(ExceptionMessage("Exception writing ms runsettings", writeError.value))];
        effects := effects + [RemoveGeneratedSettings(projects)];
        return false, None;
      }
      success, customTemplatePaths := true, Some(paths);
    }

    /** IsCollectingAsync. The suitability check is handed the run-settings
      files (the query, returned alongside); an unsuitable verdict changes
      nothing. A suitable one prepares every project and rebuilds the lookup
      (a shared test dll raises, which is the Err result), then generates run
      settings for the projects without their own when the verdict or the
      option asks for Microsoft code coverage. */
    method IsCollecting(projects: seq<CoverageProject>, useMsCodeCoverage: bool,
                        checkSuitability: (seq<string>, bool) -> (bool, bool), solutionDirectory: string,
                        services: TemplateServices, write: seq<CoverageProjectRunSettings> -> Option<string>)
      returns (r: Result<CollectionStatus, string>, query: seq<string>)
      modifies this
      ensures query == RunSettingsFiles(projects)
      ensures var (suitable, specifiedMsCodeCoverage) := checkSuitability(query, useMsCodeCoverage);
        var without := WithoutRunSettings(projects);
        var prepared := old(effects) + [SetProjectOutputFolders(projects)] + PrepareEffects(projects);
        && (!suitable ==> r == Ok(NotCollecting) && effects == old(effects)
                          && userRunSettingsProjectDetailsLookup == old(userRunSettingsProjectDetailsLookup))
        && (suitable ==> (r.Err? <==> !UniqueTestDlls(WithRunSettings(projects))))
        && (suitable && r.Err? ==> effects == prepared && r.error in TestDlls(WithRunSettings(projects)))
        && (suitable && r.Err? ==> exists j :: (FirstDuplicateAt(WithRunSettings(projects), j, r.error)
              && userRunSettingsProjectDetailsLookup == Some(LookupOf(WithRunSettings(projects)[..j]))))
        && (suitable && r.Ok? ==>
              && userRunSettingsProjectDetailsLookup == Some(LookupOf(WithRunSettings(projects)))
              && r.value == Status(suitable, specifiedMsCodeCoverage, useMsCodeCoverage, |without| > 0,
                                   GenerationSucceeds(without, solutionDirectory, msCodeCoveragePath, services, write))
              && (|without| == 0 ==> effects == prepared + [Logged(UserRunSettingsMessage)])
              && (|without| > 0 && !specifiedMsCodeCoverage && !useMsCodeCoverage ==> effects == prepared)
              && (|without| > 0 && (specifiedMsCodeCoverage || useMsCodeCoverage) ==>
                    var built := CoverageProjectsRunSettings(without, solutionDirectory, msCodeCoveragePath, services);
                    effects == prepared + GenerationEffects(without, shimPath, built, write)
                               + (if built.Ok? && write(built.value).None?
                                  then [Logged(GeneratedMessage(CustomTemplatePaths(built.value)))] else []))
              && (|effects| >= |prepared| && effects[..|prepared|] == prepared))
      ensures msCodeCoveragePath == old(msCodeCoveragePath) && shimPath == old(shimPath)
    {
      var withRunSettings := WithRunSettings(projects);
      query := RunSettingsFiles(projects);
      var (suitable, specifiedMsCodeCoverage) := checkSuitability(query, useMsCodeCoverage);
      if !suitable {
        return Ok(NotCollecting), query;
      }
      PrepareCoverageProjects(projects);
      var prepared := effects;
      var duplicate := SetUserRunSettingsProjectDetails(withRunSettings);
      if duplicate.Some? {
        return Err(duplicate.value), query;
      }
      var without := WithoutRunSettings(projects);
      if |without| > 0 {
        if specifiedMsCodeCoverage || useMsCodeCoverage {
          var generated, customTemplatePaths := GenerateProjectsRunSettings(without, solutionDirectory, services, write);
          if generated {
            effects := effects + [Logged(GeneratedMessage(customTemplatePaths.value))];
            r := Ok(Collecting);
          } else {
            r := Ok(Error);
          }
        } else {
          r := Ok(NotCollecting);
        }
      } else {
        effects := effects + [Logged(UserRunSettingsMessage)];
        r := Ok(Collecting);
      }
    }

    /** AddRunSettings: the FCC settings are injected only into a document
      for an execution request that the service did not generate itself;
      otherwise null. */
    function AddRunSettings(requestState: RunSettingConfigurationInfoState, fccGenerated: bool, testContainers: seq<string>,
                            document: string,
                            inject: (seq<string>, Option<map<string, UserRunSettingsProjectDetails>>, string, string) -> Option<string>)
      : (r: Option<string>)
      reads this
      ensures r.Some? ==> requestState == Execution && !fccGenerated
      ensures requestState == Execution && !fccGenerated ==>
        r == inject(testContainers, userRunSettingsProjectDetailsLookup, msCodeCoveragePath, document)
    {
      if requestState == Execution && !fccGenerated then
        inject(testContainers, userRunSettingsProjectDetailsLookup, msCodeCoveragePath, document)
      else None
    }

    /** CollectAsync: the Cobertura result files handed to the engine, after
      a log line when there are none. */
    method Collect(resultsUris: Option<seq<string>>)
      modifies this
      ensures var files := CoberturaFiles(resultsUris);
        effects == old(effects) + (if |files| == 0 then [Logged(NoCoberturaFilesMessage)] else []) + [RunAndProcessReport(files)]
      ensures msCodeCoveragePath == old(msCodeCoveragePath) && shimPath == old(shimPath)
      ensures userRunSettingsProjectDetailsLookup == old(userRunSettingsProjectDetailsLookup)
    {
      var coberturaFiles := CoberturaFiles(resultsUris);
      if |coberturaFiles| == 0 {
        effects := effects + [Logged(NoCoberturaFilesMessage)];
      }
      effects := effects + [RunAndProcessReport(coberturaFiles)];
    }
  }

  /** The preparation of each project, in order. */
  function PrepareEffects(projects: seq<CoverageProject>): (r: seq<Effect>)
    ensures |r| == |projects| && forall i :: 0 <= i < |r| ==> r[i] == PrepareForCoverage(projects[i])
    decreases |projects|
  {
    if |projects| == 0 then []
    else PrepareEffects(projects[..|projects| - 1]) + [PrepareForCoverage(projects[|projects| - 1])]
  }

  /** A prefix that repeats a dll leaves the whole sequence repeating it. */
  lemma TestDllsPrefix(projects: seq<CoverageProject>, n: nat)
    requires n <= |projects|
    ensures TestDlls(projects[..n]) <= TestDlls(projects)
  {
    forall x | x in TestDlls(projects[..n]) ensures x in TestDlls(projects) {
      var i :| 0 <= i < n && projects[..n][i].testDllFile == x;
      assert projects[i] == projects[..n][i];
    }
  }

  lemma UniqueTestDllsPrefix(projects: seq<CoverageProject>, n: nat)
    requires n <= |projects| && !UniqueTestDlls(projects[..n])
    ensures !UniqueTestDlls(projects)
  {
    var i, j :| 0 <= i < j < n && projects[..n][i].testDllFile == projects[..n][j].testDllFile;
    assert projects[i] == projects[..n][i] && projects[j] == projects[..n][j];
  }
}
