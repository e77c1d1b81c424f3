# FineCodeCoverage core, modelled in Dafny

This models the parts of the FineCodeCoverage Visual Studio extension that
decide **when** coverage is collected and **how** the coverage tools are
driven. The extension collects code coverage for a test run with coverlet or
with the Microsoft data collector. It then merges the results with
ReportGenerator and rewrites the report's embedded data for its tool window.

The model has six modules. All .dfy files are verified together.

- `Common`: the .NET base-library operations that the core relies on. These
  are `Option`/`Result`, `String.Trim(char[])`, `Split` with and without
  `RemoveEmptyEntries`, `IndexOf`/`LastIndexOf`, ordinal-ignore-case
  comparison, `IsNullOrWhiteSpace`, `String.Join`, `Path.Combine`,
  `Enumerable.Distinct` and decimal formatting. Each is written with the
  semantics the base library gives it.
- `Lifecycle`: `TestContainerDiscoverer.OperationState_StateChanged`. It
  covers which engine call each test-operation state makes, what the two
  reload lambdas decide from the options and the test counts, and how the
  two kinds of exception are handled.
- `Coverlet`: `CoverletUtil`, which holds the process-wide tool state as a
  class.
  - `GetCoverletVersion` parses `dotnet tool list` output.
  - `Initialize` chooses between install and update against the minimum
    version 1.7.2. `InstallCoverlet` and `UpdateCoverlet` are modelled as
    one operation.
  - `RunCoverlet` builds the coverlet argument list and classifies a run as
    success, failure, timeout or raise.
- `ReportGenerator`: `ReportGeneratorUtil`.
  - `GenerateAsync` and its inner `run`: a Cobertura merge, then the
    single-page HTML report.
  - The rewriting of the `assemblies` and `riskHotspots` arrays in
    `ProcessUnifiedHtml`.
  - `ToJsColour`.
- `RunSettings`: `MsCodeCoverageRunSettingsService`. This covers:
  - whether a run is collected with Microsoft code coverage;
  - the lookup of the projects that have their own run settings;
  - run settings generated from a custom or the built-in template, for the
    projects without them;
  - `AddRunSettings` injection;
  - the selection of Cobertura result files in `CollectAsync`.
- `Logging`: `Logger`.
  - Each element is trimmed of spaces and line breaks, and blank elements
    are dropped.
  - The surviving lines are joined, with or without the title.
  - The output pane is created lazily.
  - The overloads are routed to `LogImpl`.
  - The static `staticLogger` is kept in a `StaticLogger` class.

Processes, files, the host's output window and the template engine are not
run. What they would return is handed to each operation as a parameter or a
function. What the service asks of its collaborators is recorded as a
sequence of effects (`RunSettings.Effect`), and the same holds for the
`dotnet` commands `CoverletTool` issues and the pane writes `Logger` makes.
An exception raised by a modelled operation appears as the `Err` of a
`Result`, or as a `raised` out-parameter. The collaborators handed in as
functions cannot fail, so exceptions they would raise are not modelled.

The model follows the code in these places:

- A filter entry is tested for being blank on the raw value, before it is
  escaped and trimmed. So the entry `''` is kept and passes an empty value
  (`Coverlet.QuotesOnlyEntryGivesEmptyValue`). It is not dropped as "blank
  after trimming".
- A coverlet line in the tool list whose version cannot be parsed, or that
  has no second token, raises an exception. It does not count as "not
  installed" (`Coverlet.SingleTokenLineRaises`).
- On `TestExecutionStarting` coverage starts only in parallel mode; in
  serial mode it starts on `TestExecutionFinished`.
- Generated run settings are removed again only when **writing** them
  fails. An exception while **building** them is logged, and nothing is
  removed.
- Some failures do reach the caller. These are:
  - a test dll shared by two projects with run settings (the
    `Dictionary.Add` in `SetUserRunSettingsProjectDetails`);
  - a null sequence passed to an `IEnumerable` overload of `Logger`;
  - the static `Logger.Log` called before any logger was constructed;
  - a `PropertyDoesNotExistException` in the test-container discoverer,
    which is thrown again.

## Model

| member | source | states |
|---|---|---|
| Lifecycle.EngineCalls | FineCodeCoverage/Impl/TestContainerDiscovery/TestContainerDiscoverer.cs:64-83 | Canceling, and only Canceling, stops coverage. Starting, and only Starting, hands over the starting lambda. Finished, and only Finished, hands over the finished lambda. At most one call is made per event. |
| Lifecycle.StartingRequest | FineCodeCoverage/Impl/TestContainerDiscovery/TestContainerDiscoverer.cs:71-80 | Cancel exactly when the run is not parallel; otherwise cover the operation's projects; nothing is logged. |
| Lifecycle.FinishedRequest | FineCodeCoverage/Impl/TestContainerDiscovery/TestContainerDiscoverer.cs:85-111 | Cover exactly when the run is serial, no failure policy skips it and no test-count threshold skips it. A parallel run cancels without logging. A serial cancel always logs: the failed-tests message when failures caused it, and the total-tests message with the threshold when the test count caused it. |
| Lifecycle.Respond | FineCodeCoverage/Impl/TestContainerDiscovery/TestContainerDiscoverer.cs:60-112 | Stop iff Canceling; no response iff the state is ignored; Starting covers iff the run is parallel; Finished gives the finished lambda's request. |
| Lifecycle.StateChanged | FineCodeCoverage/Impl/TestContainerDiscovery/TestContainerDiscoverer.cs:60-123 | The engine calls are those of the state. It raises iff a PropertyDoesNotExistException was raised, and with that message, after logging the reflection error. It completes iff nothing was raised. Any other exception is swallowed and logged with its description. |
| Lifecycle.ParallelRunCoversOnStart | FineCodeCoverage/Impl/TestContainerDiscovery/TestContainerDiscoverer.cs:69-90 | A parallel run covers on Starting and cancels on Finished, whatever the counts. |
| Lifecycle.SerialRunCoversOnFinish | FineCodeCoverage/Impl/TestContainerDiscovery/TestContainerDiscoverer.cs:69-110 | A serial run with 50 passing tests above a threshold of 10 cancels on Starting and covers on Finished. |
| Coverlet.VersionComponents | FineCodeCoverage/Core/Coverlet/CoverletUtil.cs:19 | A valid version prints as two to four components, as Version.ToString does for an unset build or revision. |
| Coverlet.ParseVersion | FineCodeCoverage/Core/Coverlet/CoverletUtil.cs:19 | Version.Parse succeeds iff there are two to four '.'-separated components, each digits and at most Int32.MaxValue; a success is a valid version. A wrong count is reported as such. Otherwise the components are checked in order, and the first one rejected decides between a format error (not digits) and an overflow. |
| Coverlet.ComponentError | FineCodeCoverage/Core/Coverlet/CoverletUtil.cs:79 | The exception a rejected component raises: an overflow for a digit string beyond Int32.MaxValue, and a format error otherwise. |
| Coverlet.ComponentsParsedInOrder | FineCodeCoverage/Core/Coverlet/CoverletUtil.cs:79 | An overflowing first component is reported even when a later component is not numeric. |
| Coverlet.VersionLess | FineCodeCoverage/Core/Coverlet/CoverletUtil.cs:31 | Version comparison: the major, minor, build and revision numbers compared in turn, with an unset build or revision below every set one. |
| Coverlet.VersionOrder | FineCodeCoverage/Core/Coverlet/CoverletUtil.cs:31 | The comparison is a strict total order on valid versions: irreflexive, asymmetric, transitive, and total on distinct versions. |
| Coverlet.ParseVersionToString | FineCodeCoverage/Core/Coverlet/CoverletUtil.cs:19 | Parsing a version's text gives the version back. |
| Coverlet.MinimumVersionText | FineCodeCoverage/Core/Coverlet/CoverletUtil.cs:100 | The minimum version is written "1.7.2" in the install and update commands. |
| Coverlet.MinimumVersionBoundaries | FineCodeCoverage/Core/Coverlet/CoverletUtil.cs:31 | 1.7.2 and 1.7.2.0 are not below the minimum; 1.0.0 and the two-component 1.7 are. |
| Coverlet.FindFirst | FineCodeCoverage/Core/Coverlet/CoverletUtil.cs:66 | FirstOrDefault gives the index of the first matching line, or None when no line matches. |
| Coverlet.NotInstalledIffNoCoverletLine | FineCodeCoverage/Core/Coverlet/CoverletUtil.cs:65-74 | The output says "not installed" iff none of its lines names coverlet.console. |
| Coverlet.VersionFromCoverletLine | FineCodeCoverage/Core/Coverlet/CoverletUtil.cs:65-84 | The decision is made on the first line that names coverlet.console. With fewer than two tokens on it the query raises the index exception. Otherwise the result is exactly Version.Parse of the trimmed second token: the same version on success and the same exception on failure. |
| Coverlet.VersionFromListOutput | FineCodeCoverage/Core/Coverlet/CoverletUtil.cs:65-84 | What the tool list output says about coverlet: null, a version, or the exception parsing raises. A reported version is valid. |
| Coverlet.QueriedVersion | FineCodeCoverage/Core/Coverlet/CoverletUtil.cs:59-84 | A nonzero exit gives null and no exception. Otherwise the output decides, and a reported version is valid. |
| Coverlet.StateAfterQuery | FineCodeCoverage/Core/Coverlet/CoverletUtil.cs:59-84 | The version and executable after a query: unchanged when the list fails or raises, the version found (or none) otherwise. An executable is kept only together with a version, or when nothing changed. |
| Coverlet.ListArguments | FineCodeCoverage/Core/Coverlet/CoverletUtil.cs:50 | The arguments of the tool list command. |
| Coverlet.InstallArguments | FineCodeCoverage/Core/Coverlet/CoverletUtil.cs:133 | The arguments of the pinned install command. |
| Coverlet.UpdateArguments | FineCodeCoverage/Core/Coverlet/CoverletUtil.cs:100 | The arguments of the pinned update command. |
| Coverlet.CoverletLineNotBlank | FineCodeCoverage/Core/Coverlet/CoverletUtil.cs:66-68 | A line that names coverlet.console is never null or white space, so the blank test never turns it into "not installed". |
| Coverlet.SingleTokenLineRaises | FineCodeCoverage/Core/Coverlet/CoverletUtil.cs:76-77 | A coverlet line with no second token raises the index exception. It does not report "not installed". |
| Coverlet.InstallCommands | FineCodeCoverage/Core/Coverlet/CoverletUtil.cs:87-151 | During Initialize, no command is issued for NoAction. Otherwise the first command is the pinned install or update. The version query follows iff that command exited 0. |
| Coverlet.InstallActionFor | FineCodeCoverage/Core/Coverlet/CoverletUtil.cs:27-34 | Install iff no version is known. Update iff the known version is below 1.7.2. |
| Coverlet.CoverletTool.constructor | FineCodeCoverage/Core/Coverlet/CoverletUtil.cs:16-18 | No folder, no version, no executable, no commands. |
| Coverlet.CoverletTool.GetCoverletVersion | FineCodeCoverage/Core/Coverlet/CoverletUtil.cs:37-85 | Exactly one list command is issued. A failed list returns null and leaves the state alone. A missing coverlet line clears the version and the path. A found one sets both. A malformed line raises. The final version and executable are those StateAfterQuery gives. |
| Coverlet.CoverletTool.InstallOrUpdate | FineCodeCoverage/Core/Coverlet/CoverletUtil.cs:87-151 | The pinned command, then the query only on exit 0. It raises iff that query raises. A failed command leaves the version and executable as they were; otherwise they are those the query leaves. |
| Coverlet.CoverletTool.Initialize | FineCodeCoverage/Core/Coverlet/CoverletUtil.cs:21-35 | The folder is appData/coverlet. The query runs first. When it fails, the decision uses the version held before. A query that raises propagates. The commands are the query, then those of the chosen action. The final version and executable are the query's, replaced by the re-query's when an action ran and exited 0. |
| Coverlet.CoverletTool.EnsureMinimumVersion | FineCodeCoverage/Core/Coverlet/CoverletUtil.cs:27-34 | The action is chosen from the version held, its commands are issued, and its errors are reported. The version and executable stay unless an action ran and exited 0; then they are those its re-query leaves. |
| Coverlet.CoverletTool.RunCoverlet | FineCodeCoverage/Core/Coverlet/CoverletUtil.cs:154-260 | Without an executable, Process.Start raises "a file name has not been provided" whatever throwError says. Otherwise the process gets the executable found, the arguments joined by spaces and the project's work folder, and the verdict is the classification of the run's outcome. |
| Coverlet.CoverletArguments | FineCodeCoverage/Core/Coverlet/CoverletUtil.cs:170-205 | The argument list RunCoverlet builds for a project, in the source's order. |
| Coverlet.FilterValue | FineCodeCoverage/Core/Coverlet/CoverletUtil.cs:178 | A filter value escaped and trimmed. A non-empty value neither starts nor ends with a character the trim strips. |
| Coverlet.TimeoutMessage | FineCodeCoverage/Core/Coverlet/CoverletUtil.cs:233 | The timeout message, with the elapsed seconds and the configured timeout. |
| Coverlet.AppendKept | FineCodeCoverage/Core/Coverlet/CoverletUtil.cs:176-194 | One foreach of RunCoverlet appends an argument for each value the filter accepts, in order. |
| Coverlet.KeptFilterArguments | FineCodeCoverage/Core/Coverlet/CoverletUtil.cs:176-194 | The loop with the IsNullOrWhiteSpace filter computes the filter arguments. |
| Coverlet.AddFilterArguments | FineCodeCoverage/Core/Coverlet/CoverletUtil.cs:176-194 | A null list adds nothing. Otherwise each non-blank entry adds one escaped, trimmed and quoted argument, in order. |
| Coverlet.BuildCoverletArguments | FineCodeCoverage/Core/Coverlet/CoverletUtil.cs:170-205 | The argument list in its fixed order: the dll and the format, then the four filter groups, then the test-assembly flag if set, then the target, the output and the targetargs. |
| Coverlet.FilterArgumentsOfNonBlank | FineCodeCoverage/Core/Coverlet/CoverletUtil.cs:176-194 | One argument per entry that is not null or white space, in order, each being the option and the escaped, trimmed, quoted value. |
| Coverlet.BlankEntriesContributeNothing | FineCodeCoverage/Core/Coverlet/CoverletUtil.cs:176 | Null, empty and white-space entries contribute no argument. |
| Coverlet.QuotesOnlyEntryGivesEmptyValue | FineCodeCoverage/Core/Coverlet/CoverletUtil.cs:176-178 | The blank test is made before trimming, so `''` gives `--exclude ""`. |
| Coverlet.EscapingEscapesQuotes | FineCodeCoverage/Core/Coverlet/CoverletUtil.cs:178 | After Replace("\"", "\\\""), every double quote follows a backslash. |
| Coverlet.FilterValueQuotesEscaped | FineCodeCoverage/Core/Coverlet/CoverletUtil.cs:178-193 | After escaping and trimming, every double quote in a filter value follows a backslash. |
| Coverlet.BackslashBeforeQuoteNotDoubled | FineCodeCoverage/Core/Coverlet/CoverletUtil.cs:178 | A backslash already before a quote is kept, not doubled: the value `a\"b` becomes `a\\"b`, where the command line reads the quote as closing. |
| Coverlet.ClassifyCoverletRun | FineCodeCoverage/Core/Coverlet/CoverletUtil.cs:223-259 | A kill is attempted iff the run timed out. The result is true iff it exited 0. It raises iff throwError is set and the run did not succeed, with the timeout message or the process output; otherwise the result is false. |
| ReportGenerator.StageArguments | SharedProject/Core/ReportGenerator/ReportGeneratorUtil.cs:106-129 | It raises "Unknown reporttype" iff the type is, ignoring case, neither Cobertura nor HtmlInline_AzurePipelines. Otherwise the shared settings come first, then the reports argument, then the arguments of that report type. |
| ReportGenerator.StageVerdict | SharedProject/Core/ReportGenerator/ReportGeneratorUtil.cs:142-160 | True iff the result is present and exited 0. It raises the output iff throwError is set and the exit code is nonzero. Otherwise the verdict is false, which includes a null result. |
| ReportGenerator.RunStage | SharedProject/Core/ReportGenerator/ReportGeneratorUtil.cs:104-162 | An unknown type raises before any process starts. Otherwise the request holds the executable, the settings joined by spaces and the output folder, and the verdict is taken on what execute returns. |
| ReportGenerator.KnownStageArguments | SharedProject/Core/ReportGenerator/ReportGeneratorUtil.cs:108-125 | The two literal types GenerateAsync uses take the Cobertura branch and the HTML branch respectively. |
| ReportGenerator.Generate | SharedProject/Core/ReportGenerator/ReportGeneratorUtil.cs:93-181 | The Cobertura merge runs first. The HTML run happens iff the merge returned true, and it reads Cobertura.xml. index.html is read iff both runs returned true. An exception of either run propagates. Otherwise the result is a failure holding the merged file's path. |
| ReportGenerator.ShortNameIsTextAfterLastDot | SharedProject/Core/ReportGenerator/ReportGeneratorUtil.cs:828-829 | The simplified name is the text after the last dot and contains no dot. A name without a dot is kept. |
| ReportGenerator.ShortName | SharedProject/Core/ReportGenerator/ReportGeneratorUtil.cs:828-829 | The class name without its namespace. |
| ReportGenerator.ClassAnchor | SharedProject/Core/ReportGenerator/ReportGeneratorUtil.cs:832-834 | Substring raises iff the report path has no ".html" and is shorter than four characters. |
| ReportGenerator.ClassAnchorKeepsFragment | SharedProject/Core/ReportGenerator/ReportGeneratorUtil.cs:832-834 | For a page name holding no ".html", followed by ".html" and a fragment, the anchor is "#assembly!class.html" + fragment. The page name may hold dots. |
| ReportGenerator.FirstHtmlAfter | SharedProject/Core/ReportGenerator/ReportGeneratorUtil.cs:831 | IndexOf(".html") finds the ".html" that follows a page name holding none. |
| ReportGenerator.ClassAnchorWithoutHtml | SharedProject/Core/ReportGenerator/ReportGeneratorUtil.cs:833-834 | A path without ".html" loses its first four characters. |
| ReportGenerator.RewriteClass | SharedProject/Core/ReportGenerator/ReportGeneratorUtil.cs:823-835 | The other properties are kept. The name is simplified unless classes are namespaced. The report path becomes the anchor built from the original name. The rewrite fails iff the anchor fails. |
| ReportGenerator.RewriteEach | SharedProject/Core/ReportGenerator/ReportGeneratorUtil.cs:816-837 | A successful rewrite keeps the length. |
| ReportGenerator.RewriteEachPointwise | SharedProject/Core/ReportGenerator/ReportGeneratorUtil.cs:816-837 | Success iff every item that is not skipped rewrites. Each item is rewritten where it stands, and skipped items are kept. |
| ReportGenerator.RewriteEachSnoc | SharedProject/Core/ReportGenerator/ReportGeneratorUtil.cs:816-837 | One loop step: a skipped item is kept, a rewritten one is appended, and a failing one ends the pass with its error. |
| ReportGenerator.RewriteEachFailsAfter | SharedProject/Core/ReportGenerator/ReportGeneratorUtil.cs:816-837 | Once a prefix fails, the whole pass fails with that error. |
| ReportGenerator.SkippedPositionsMembers | SharedProject/Core/ReportGenerator/ReportGeneratorUtil.cs:819-822 | The positions collected are exactly those of the skipped items. |
| ReportGenerator.SkippedPositionsBelow | SharedProject/Core/ReportGenerator/ReportGeneratorUtil.cs:819-822 | Every collected position lies inside the array. |
| ReportGenerator.KeptPositions | SharedProject/Core/ReportGenerator/ReportGeneratorUtil.cs:838-841 | The positions that remain after removal: in range, not removed, increasing, and complete. |
| ReportGenerator.KeepUnskippedAtKeptPositions | SharedProject/Core/ReportGenerator/ReportGeneratorUtil.cs:838-841 | What remains is exactly the rewritten items at the kept positions, in order. |
| ReportGenerator.RewriteInPlace | SharedProject/Core/ReportGenerator/ReportGeneratorUtil.cs:816-837 | The in-place loop computes RewriteEach and collects the positions of the skipped items. |
| ReportGenerator.RemoveCollected | SharedProject/Core/ReportGenerator/ReportGeneratorUtil.cs:838-841 | Removing the collected items leaves the rewritten items that were not skipped. |
| ReportGenerator.ProcessedClassesMeaning | SharedProject/Core/ReportGenerator/ReportGeneratorUtil.cs:810-843 | Processing fails iff some class not named AutoGeneratedProgram has a failing anchor. Otherwise the result is the rewrite of exactly those classes, in their original order. |
| ReportGenerator.ProcessedClasses | SharedProject/Core/ReportGenerator/ReportGeneratorUtil.cs:810-843 | What one assembly's classes become: the rewrite of each class, with AutoGeneratedProgram removed. |
| ReportGenerator.ProcessClasses | SharedProject/Core/ReportGenerator/ReportGeneratorUtil.cs:812-841 | The two loops over one assembly's classes compute ProcessedClasses. |
| ReportGenerator.ProcessAssemblies | SharedProject/Core/ReportGenerator/ReportGeneratorUtil.cs:809-843 | Success iff every assembly's classes process. Each assembly keeps its name and gets its processed classes. |
| ReportGenerator.RewriteHotspot | SharedProject/Core/ReportGenerator/ReportGeneratorUtil.cs:856-868 | The assembly and the other properties are kept. The class is simplified unless classes are namespaced. The report path is the anchor of the original class name. |
| ReportGenerator.ProcessRiskHotspots | SharedProject/Core/ReportGenerator/ReportGeneratorUtil.cs:855-868 | Every hotspot is rewritten in place and none is removed. |
| ReportGenerator.HotspotAnchorTarget | SharedProject/Core/ReportGenerator/ReportGeneratorUtil.cs:866 | The anchor "#assembly!class.html" leads back to its assembly and its qualified class name, for an assembly without '!' and a class name holding no ".html". |
| ReportGenerator.HotspotAnchor | SharedProject/Core/ReportGenerator/ReportGeneratorUtil.cs:866 | The anchor a hotspot's report path becomes. |
| ReportGenerator.FirstOccurrence | SharedProject/Core/ReportGenerator/ReportGeneratorUtil.cs:866 | Reading an anchor back: IndexOf finds a separator at the first place it occurs. |
| ReportGenerator.ToJsColourParses | SharedProject/Core/ReportGenerator/ReportGeneratorUtil.cs:1386-1389 | "rgba(R,G,B,A)" reads back as the colour. |
| ReportGenerator.ToJsColourInjective | SharedProject/Core/ReportGenerator/ReportGeneratorUtil.cs:1386-1389 | Distinct colours never give the same text. |
| ReportGenerator.ToJsColour | SharedProject/Core/ReportGenerator/ReportGeneratorUtil.cs:1386-1389 | The CSS rgba text of a colour. |
| RunSettings.WithRunSettingsMembers | SharedProject/Core/MsTestPlatform/CodeCoverage/MsCodeCoverageRunSettingsService.cs:115 | The projects with run settings are exactly those whose file is not null, and none is repeated beyond the input. |
| RunSettings.WithRunSettings | SharedProject/Core/MsTestPlatform/CodeCoverage/MsCodeCoverageRunSettingsService.cs:115 | The projects whose run-settings file is not null, in order. |
| RunSettings.WithoutRunSettings | SharedProject/Core/MsTestPlatform/CodeCoverage/MsCodeCoverageRunSettingsService.cs:126 | The projects not among those with run settings, each listed once, in the order they first occur. |
| RunSettings.RunSettingsFilesOfProjectsWithRunSettings | SharedProject/Core/MsTestPlatform/CodeCoverage/MsCodeCoverageRunSettingsService.cs:115-120 | The suitability check gets one file per project with run settings, in the same order. |
| RunSettings.WithoutRunSettingsMembers | SharedProject/Core/MsTestPlatform/CodeCoverage/MsCodeCoverageRunSettingsService.cs:126 | The projects without run settings are exactly those whose run-settings file is null, each listed once even when the input repeats it, because Except returns distinct elements and projects are compared by value. |
| RunSettings.Status | SharedProject/Core/MsTestPlatform/CodeCoverage/MsCodeCoverageRunSettingsService.cs:112-156 | Unsuitable gives NotCollecting. With no project lacking run settings, the status is Collecting. Otherwise: NotCollecting when neither the verdict nor the option asks for Microsoft coverage; Collecting iff generation succeeded; Error iff it failed. |
| RunSettings.LogLines | SharedProject/Core/MsTestPlatform/CodeCoverage/MsCodeCoverageRunSettingsService.cs:134-152 | The lines of each logged message. The generated message lists the distinct custom template paths after its leading line. |
| RunSettings.GenerationSucceeds | SharedProject/Core/MsTestPlatform/CodeCoverage/MsCodeCoverageRunSettingsService.cs:185-218 | Generation succeeds iff building the settings and writing them both succeed. |
| RunSettings.GenerationEffects | SharedProject/Core/MsTestPlatform/CodeCoverage/MsCodeCoverageRunSettingsService.cs:185-218 | What generation asks of its collaborators, given what building gave. |
| RunSettings.LookupOfKeys | SharedProject/Core/MsTestPlatform/CodeCoverage/MsCodeCoverageRunSettingsService.cs:170-182 | The lookup's keys are the projects' test dlls. |
| RunSettings.LookupOf | SharedProject/Core/MsTestPlatform/CodeCoverage/MsCodeCoverageRunSettingsService.cs:170-182 | The lookup the Add loop builds, from each project's test dll to its details. |
| RunSettings.FirstDuplicateAt | SharedProject/Core/MsTestPlatform/CodeCoverage/MsCodeCoverageRunSettingsService.cs:178-181 | Where the Add loop raises: the first project whose test dll an earlier project already has. |
| RunSettings.TestDllsPrefix | SharedProject/Core/MsTestPlatform/CodeCoverage/MsCodeCoverageRunSettingsService.cs:178-181 | The test dlls of a prefix are test dlls of the whole list. |
| RunSettings.TestDllsSnoc | SharedProject/Core/MsTestPlatform/CodeCoverage/MsCodeCoverageRunSettingsService.cs:170-182 | Adding a project adds its test dll to the keys. |
| RunSettings.LookupOfUnique | SharedProject/Core/MsTestPlatform/CodeCoverage/MsCodeCoverageRunSettingsService.cs:170-182 | When no dll is shared, the lookup has one entry per project, and each project's details are under its dll. |
| RunSettings.UniqueTestDllsSnoc | SharedProject/Core/MsTestPlatform/CodeCoverage/MsCodeCoverageRunSettingsService.cs:181 | An Add succeeds iff its dll is not among those added before. |
| RunSettings.RunSettingsTemplate | SharedProject/Core/MsTestPlatform/CodeCoverage/MsCodeCoverageRunSettingsService.cs:238-253 | A custom template is configured and returned with its path. Otherwise the built-in template is returned with no path. |
| RunSettings.ProjectRunSettings | SharedProject/Core/MsTestPlatform/CodeCoverage/MsCodeCoverageRunSettingsService.cs:222-265 | The project's template is replaced for the project. The result fails, with the same error, iff the replacement fails. Otherwise it holds the replaced text, the custom path and the test-adapter flag. |
| RunSettings.CoverageProjectsRunSettings | SharedProject/Core/MsTestPlatform/CodeCoverage/MsCodeCoverageRunSettingsService.cs:220-236 | A success has one entry per project. |
| RunSettings.CoverageProjectsRunSettingsPointwise | SharedProject/Core/MsTestPlatform/CodeCoverage/MsCodeCoverageRunSettingsService.cs:220-236 | Success iff every project's settings succeed, each in its place. A failure carries the first failing project's exception. |
| RunSettings.ShimProjectsMembers | SharedProject/Core/MsTestPlatform/CodeCoverage/MsCodeCoverageRunSettingsService.cs:198-199 | The shim is copied for a project iff its template replaced the test adapter. |
| RunSettings.ShimProjects | SharedProject/Core/MsTestPlatform/CodeCoverage/MsCodeCoverageRunSettingsService.cs:198 | The projects whose template replaced the test adapter, in order. |
| RunSettings.CustomTemplatePathsMembers | SharedProject/Core/MsTestPlatform/CodeCoverage/MsCodeCoverageRunSettingsService.cs:201 | A path is reported iff it is some project's custom template path. |
| RunSettings.CustomTemplatePaths | SharedProject/Core/MsTestPlatform/CodeCoverage/MsCodeCoverageRunSettingsService.cs:201 | The custom template paths that are set, in order. |
| RunSettings.CoberturaPathsMembers | SharedProject/Core/MsTestPlatform/CodeCoverage/MsCodeCoverageRunSettingsService.cs:288 | The Cobertura files are exactly the result paths ending in ".cobertura.xml". |
| RunSettings.CoberturaFiles | SharedProject/Core/MsTestPlatform/CodeCoverage/MsCodeCoverageRunSettingsService.cs:284-288 | No result URIs give no files. Otherwise the paths that end in ".cobertura.xml", in order. |
| RunSettings.PrepareEffects | SharedProject/Core/MsTestPlatform/CodeCoverage/MsCodeCoverageRunSettingsService.cs:162-165 | One preparation per project, in order. |
| RunSettings.UniqueTestDllsPrefix | SharedProject/Core/MsTestPlatform/CodeCoverage/MsCodeCoverageRunSettingsService.cs:181 | A dll repeated in a prefix is repeated in the whole list, so the Add that raises reflects the input. |
| RunSettings.MsCodeCoverageRunSettingsService.constructor | SharedProject/Core/MsTestPlatform/CodeCoverage/MsCodeCoverageRunSettingsService.cs:72-99 | No paths, a null lookup, no effects. |
| RunSettings.MsCodeCoverageRunSettingsService.Initialize | SharedProject/Core/MsTestPlatform/CodeCoverage/MsCodeCoverageRunSettingsService.cs:101-107 | The code-coverage path is zip/build/netstandard1.0. The shim path lies under it, at CodeCoverage/coreclr. |
| RunSettings.MsCodeCoverageRunSettingsService.PrepareCoverageProjects | SharedProject/Core/MsTestPlatform/CodeCoverage/MsCodeCoverageRunSettingsService.cs:159-166 | The output folders are set, then each project is prepared in order. |
| RunSettings.MsCodeCoverageRunSettingsService.SetUserRunSettingsProjectDetails | SharedProject/Core/MsTestPlatform/CodeCoverage/MsCodeCoverageRunSettingsService.cs:168-183 | A fresh lookup. No exception iff the dlls are unique, and the lookup then maps each dll to its project's details. Otherwise the first project whose dll was already added raises, with that dll, and the lookup holds exactly the projects before it. |
| RunSettings.MsCodeCoverageRunSettingsService.GenerateProjectsRunSettings | SharedProject/Core/MsTestPlatform/CodeCoverage/MsCodeCoverageRunSettingsService.cs:185-218 | Success iff building and writing both succeed, and then the custom template paths are returned. A build failure is logged and gives (false, null). Otherwise the shim is copied and the settings are written. A write failure is logged and the generated settings are removed. The effects are exactly GenerationEffects. |
| RunSettings.MsCodeCoverageRunSettingsService.IsCollecting | SharedProject/Core/MsTestPlatform/CodeCoverage/MsCodeCoverageRunSettingsService.cs:110-157 | The suitability check gets the run-settings files. An unsuitable verdict changes nothing. A suitable one prepares the projects and rebuilds the lookup. The first shared dll raises, leaving the lookup of the projects before it. The status is then Status of the verdict, the option and the generation outcome. The effects are stated in full, including the log line after a successful generation. |
| RunSettings.MsCodeCoverageRunSettingsService.AddRunSettings | SharedProject/Core/MsTestPlatform/CodeCoverage/MsCodeCoverageRunSettingsService.cs:269-277 | A document is returned only for an execution request whose settings the service did not generate. Such a request always gets the injected document. |
| RunSettings.MsCodeCoverageRunSettingsService.Collect | SharedProject/Core/MsTestPlatform/CodeCoverage/MsCodeCoverageRunSettingsService.cs:282-304 | The Cobertura files go to the engine, after a log line when there are none. |
| Logging.ElementLine | SharedProject/Impl/Logger.cs:72 | One element contributes at most one line. |
| Logging.ElementLineMeaning | SharedProject/Impl/Logger.cs:72 | An element contributes a line iff it trims to that line and the line is not blank. |
| Logging.FlatMapMembers | SharedProject/Impl/Logger.cs:72 | An item of the flattened list comes from some element, and every element's items are there. |
| Logging.FlatMapAppend | SharedProject/Impl/Logger.cs:72 | Flattening a concatenation is the concatenation of the flattenings. |
| Logging.MessageLinesMembers | SharedProject/Impl/Logger.cs:72 | A line is logged iff it is not blank and it is the trimmed text of some element. |
| Logging.MessageLines | SharedProject/Impl/Logger.cs:72 | The lines a message yields: each element trimmed of spaces and line breaks, blank ones dropped. |
| Logging.MessageLinesAppend | SharedProject/Impl/Logger.cs:72 | The elements' order is kept: the lines of a concatenation are the lines of each part, in turn. |
| Logging.PlainElementKept | SharedProject/Impl/Logger.cs:72 | A non-blank element with no leading or trailing space or line break is logged as it is. |
| Logging.BlankMessageHasNoLines | SharedProject/Impl/Logger.cs:72-77 | A message of only null or blank elements yields no lines, so nothing is written. |
| Logging.TrimOfBlankIsBlank | SharedProject/Impl/Logger.cs:72 | Trimming spaces and line breaks off a blank string leaves it blank. |
| Logging.TitleFormatExtendsPlain | SharedProject/Impl/Logger.cs:93-102 | The title text is a newline, the extension name and " : ", followed by the plain text. Both texts end with a newline. |
| Logging.FormatLog | SharedProject/Impl/Logger.cs:93-102 | The text written for the lines, with or without the title. |
| Logging.StaticLogger.constructor | SharedProject/Impl/Logger.cs:111 | No static logger yet. |
| Logging.StaticLogger.Log | SharedProject/Impl/Logger.cs:112-115 | It raises iff no logger was constructed. Otherwise it logs through that logger with the title. The logger's activations are unchanged and its validity is kept. |
| Logging.Logger.constructor | SharedProject/Impl/Logger.cs:29-36 | No pane, nothing written, and the new logger becomes the static logger. The logger starts valid. |
| Logging.Logger.Logged | SharedProject/Impl/Logger.cs:68-109 | The state after LogImpl from a given state. |
| Logging.Logger.SetPane | SharedProject/Impl/Logger.cs:60-65 | What CreatePane returned becomes the pane, and the creation is counted. |
| Logging.Logger.LogImpl | SharedProject/Impl/Logger.cs:68-109 | A null message or no surviving line changes nothing. Otherwise the pane is created only when there is none. The formatted text is written exactly when a pane then exists. Validity is kept: every write and activation goes to the one pane, which is never replaced. |
| Logging.Logger.Log | SharedProject/Impl/Logger.cs:117-125 | LogImpl with the title. Validity is kept. |
| Logging.Logger.LogWithoutTitle | SharedProject/Impl/Logger.cs:137-145 | LogImpl without the title. Validity is kept. |
| Logging.Logger.LogEnumerable | SharedProject/Impl/Logger.cs:127-155 | A null sequence raises. Otherwise the overload is LogImpl with its title flag. Validity is kept. |
| Logging.Logger.Show | SharedProject/Impl/Logger.cs:157-172 | The pane is created only when there is none, and activated when one then exists. Nothing is written. Validity is kept. |

## Left out

- Processes, the file system, the output window, the threading helpers and the clock are not run. Their results are parameters (`ListRun`, `DotnetRun`, `CoverletOutcome`, `execute`, `readAllText`, `createdPane`, the `TemplateServices` functions and `write`).
- `Coverlet.CoverletTool.RunCoverlet`: the deletion and re-creation of the output file and the work folder are left out, as are the wait on the process, the kill, and the measured elapsed time (the elapsed time is an input).
- `Coverlet`: the `Logger.Log` calls of `CoverletUtil` (CoverletUtil.cs lines 61, 111, 117, 144, 150, 207, 240, 254 and 258) are not modelled. They only report outputs and arguments that the model already returns.
- `Coverlet.FilterValueQuotesEscaped`: the escaping adds a backslash before each quote and leaves existing backslashes alone. So a value holding `\"`, or one that ends in a backslash, can still end the quoted argument under the Windows command-line rules (`Coverlet.BackslashBeforeQuoteNotDoubled`). The model proves only that every quote follows a backslash.
- `Common`: `IndexOf(".html")` (ReportGeneratorUtil.cs line 831) and `EndsWith(".cobertura.xml")` (MsCodeCoverageRunSettingsService.cs line 288) use the current culture in .NET. The model compares ordinally. This agrees for these ASCII patterns, except under culture rules that ignore or combine characters.
- `Coverlet.ParseVersion`: models `Version.Parse` on digit-only components. The leading sign and the surrounding white space that `Int32` parsing also accepts are left out.
- `Coverlet.CoverletTool.GetCoverletVersion`: the search of the tool folder for `coverlet.exe`, then `*coverlet*.exe`, is an input (`exeFound`).
- `ReportGenerator`: `ProcessUnifiedHtml` beyond the rewriting of the `assemblies` and `riskHotspots` records is left out. That is the HTML and CSS post-processing, the theme, the JSON text round trip and `htmlSb.Replace`.
- `ReportGenerator.HtmlStageConfig`: `HotspotThresholds` (ReportGeneratorUtil.cs:1331-1339) only reads three option values. Those values are fields of the configuration rather than a member.
- `ReportGenerator.RewriteInPlace`: the removals are stated only when the pass succeeds. When it raises, the collected list is discarded with the exception.
- `ReportGenerator.RemoveCollected`: the source removes the collected JSON objects by reference. The model removes them by position.
- `ReportGenerator.Generate`: the log lines of each run are left out.
- `RunSettings.CoverageProject`: projects are compared by value, while `Except` compares references. The run-settings file is part of the value, so no project with run settings equals one without.
- `RunSettings.WithoutRunSettings`: `Except` is modelled as the distinct first occurrences of the projects not among those with run settings, comparing projects by value, while `Except` compares references (see the next line).
- `RunSettings.WithoutRunSettingsMembers`: two distinct project objects without run settings that are equal in value are listed once by the model, while `Except`, comparing references, keeps both. The same object listed twice is kept once by both.
- `RunSettings.MsCodeCoverageRunSettingsService.GenerateProjectsRunSettings`: an exception from `shimCopier.Copy` (MsCodeCoverageRunSettingsService.cs line 199), which lies outside the try blocks, is not modelled. The copy is only recorded as an effect.
- `RunSettings.TemplateServices`: `Path.GetDirectoryName`, the custom template provider, `ConfigureCustom`, and the replacement together with its `XDocument.Parse(...).FormatXml()` step are functions handed to the model. Exceptions thrown by the provider or by `ConfigureCustom` are not modelled separately; only the replacement can fail.
- `RunSettings.MsCodeCoverageRunSettingsService.Initialize`: `EnsureUnzipped` is not modelled. The folder it returns is the input.
- `RunSettings.MsCodeCoverageRunSettingsService.Collect`: the callback passed to `RunAndProcessReport`, which removes the generated settings after the report, is not modelled. Only the files handed over are, along with the log line.
- `RunSettings.MsCodeCoverageRunSettingsService.IsCollecting`: `LogCoverageProcess`, the second sink of every combined log, is not modelled.
- `RunSettings.MsCodeCoverageRunSettingsService.AddRunSettings`: `FCCGenerated` and `AddFCCRunSettings` are inputs (`fccGenerated`, `inject`).
- `RunSettings.MsCodeCoverageRunSettingsService`: `StopCoverage` only forwards to the engine and is left out.
- `Logging.Logger.SetPane`: each attempt is counted. An exception from `CreatePane`, when a service is missing, is treated like a null pane. In `LogImpl` that exception is swallowed anyway. In `ShowAsync` it would propagate, and this is not modelled.
- `Logging.Logger.Show`: the activation of the output tool window through DTE is folded into the pane's activation.
- `Logging`: `ToString` of the logged objects is not modelled. Each element is its `ToString` result, with None for a null element or a null result. `Vsix.Name` is a constructor parameter, because its value lives in a generated file that is not part of this model. `Environment.NewLine` is "\r\n", as on Windows.
- `Common`: string comparison ignoring case folds only ASCII letters. `Path.Combine` joins with '\' and does not handle rooted second arguments.
