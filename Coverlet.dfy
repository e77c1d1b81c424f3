/** The coverlet tool manager and runner: the process-wide state holding the
    installed coverlet.console version and executable, the install/update
    decision against the minimum version, the parsing of `dotnet tool list`
    output, the construction of the coverlet argument list, and the
    classification of a coverlet run. Processes are not run: each run of
    `dotnet` or of coverlet is an outcome handed to the model. */
module Coverlet {
  import opened Common

  const CoverletName := "coverlet.console"
  const Int32Max := 0x7FFF_FFFF

  /** System.Version: build and revision are -1 when the version string
      did not give them. */
  datatype Version = Version(major: int, minor: int, build: int, revision: int)

  /** The versions Version.Parse can produce. */
  predicate ValidVersion(v: Version)
  {
    && 0 <= v.major <= Int32Max && 0 <= v.minor <= Int32Max
    && -1 <= v.build <= Int32Max && -1 <= v.revision <= Int32Max
    && (v.build == -1 ==> v.revision == -1)
  }

  const MinimumCoverletVersion := Version(1, 7, 2, -1)

  /** Version's operator <: component by component, an absent component
      (-1) ordering before every present one. */
  predicate VersionLess(a: Version, b: Version)
  {
    || a.major < b.major
    || (a.major == b.major && a.minor < b.minor)
    || (a.major == b.major && a.minor == b.minor && a.build < b.build)
    || (a.major == b.major && a.minor == b.minor && a.build == b.build && a.revision < b.revision)
  }

  /** Version.ToString(): the components that are present, joined by '.'. */
  function VersionToString(v: Version): string
    requires ValidVersion(v)
  {
    Join(VersionComponents(v), ".")
  }

  function VersionComponents(v: Version): (parts: seq<string>)
    requires ValidVersion(v)
    ensures 2 <= |parts| <= 4
  {
    [NatToDecimal(v.major), NatToDecimal(v.minor)]
      + (if v.build >= 0 then [NatToDecimal(v.build)] else [])
      + (if v.revision >= 0 then [NatToDecimal(v.revision)] else [])
  }

  /** The exceptions raised on the way from a tool-list line to a version:
      a line with no second token (IndexOutOfRangeException), and the
      ArgumentException, FormatException and OverflowException of
      Version.Parse. */
  datatype VersionError =
    | MissingVersionToken
    | WrongComponentCount(count: nat)
    | NonNumericComponent(component: string)
    | ComponentOverflow(component: string)

  /** Whether Int32 parsing accepts a version component: a digit string
      no larger than Int32.MaxValue. */
  predicate ComponentFits(c: string)
  {
    IsDigits(c) && DecimalValue(c) <= Int32Max
  }

  predicate ComponentRejected(c: string)
  {
    !ComponentFits(c)
  }

  /** The exception Int32 parsing raises for a rejected component: an
      OverflowException for digits that do not fit, a FormatException
      otherwise. */
  function ComponentError(c: string): VersionError
  {
    if IsDigits(c) then ComponentOverflow(c) else NonNumericComponent(c)
  }

  /** Version.Parse: two to four '.'-separated components, parsed as Int32
      one after the other, so the first component that does not parse
      decides the exception. */
  function ParseVersion(s: string): (r: Result<Version, VersionError>)
    ensures r.Ok? ==> ValidVersion(r.value)
    ensures r.Err? ==> !r.error.MissingVersionToken?
    ensures var parts := SplitAll(s, {'.'});
      r.Ok? <==> 2 <= |parts| <= 4 && forall k :: 0 <= k < |parts| ==> ComponentFits(parts[k])
    ensures var parts := SplitAll(s, {'.'});
      !(2 <= |parts| <= 4) ==> r == Err(WrongComponentCount(|parts|))
    ensures var parts := SplitAll(s, {'.'});
      2 <= |parts| <= 4 && r.Err? ==>
        exists k :: 0 <= k < |parts| && ComponentRejected(parts[k]) && r.error == ComponentError(parts[k])
          && forall j :: 0 <= j < k ==> ComponentFits(parts[j])
  {
    var parts := SplitAll(s, {'.'});
    if |parts| < 2 || |parts| > 4 then Err(WrongComponentCount(|parts|))
    else match FindFirst(parts, ComponentRejected)
      case Some(k) => Err(ComponentError(parts[k]))
      case None =>
        Ok(Version(
          DecimalValue(parts[0]), DecimalValue(parts[1]),
          if |parts| > 2 then DecimalValue(parts[2]) else -1,
          if |parts| > 3 then DecimalValue(parts[3]) else -1))
  }

  /** The components are parsed in order: an overflowing first component
      raises the OverflowException even when a later one is not numeric. */
  lemma ComponentsParsedInOrder(first: string, second: string)
    requires IsDigits(first) && DecimalValue(first) > Int32Max
    requires '.' !in first && '.' !in second && !IsDigits(second)
    ensures ParseVersion(first + "." + second) == Err(ComponentOverflow(first))
  {
    assert Join([first, second], ".") == first + "." + second;
    SplitAllOfJoin([first, second], '.');
  }

  /** Version's operator <, on the versions Version.Parse produces, is a
      strict total order. */
  lemma VersionOrder(a: Version, b: Version, c: Version)
    requires ValidVersion(a) && ValidVersion(b) && ValidVersion(c)
    ensures !VersionLess(a, a)
    ensures VersionLess(a, b) ==> !VersionLess(b, a)
    ensures VersionLess(a, b) && VersionLess(b, c) ==> VersionLess(a, c)
    ensures a != b ==> VersionLess(a, b) || VersionLess(b, a)
  {
  }

  /** Parsing the text of a version gives that version back. */
  lemma {:induction false} ParseVersionToString(v: Version)
    requires ValidVersion(v)
    ensures ParseVersion(VersionToString(v)) == Ok(v)
  {
    var parts := VersionComponents(v);
    forall k | 0 <= k < |parts| ensures '.' !in parts[k] {
      assert IsDigits(parts[k]);
    }
    SplitAllOfJoin(parts, '.');
    assert SplitAll(VersionToString(v), {'.'}) == parts;
  }

  /** The minimum version is written 1.7.2 in the install and update commands. */
  lemma MinimumVersionText()
    ensures VersionToString(MinimumCoverletVersion) == "1.7.2"
  {
    assert NatToDecimal(1) == "1" && NatToDecimal(7) == "7" && NatToDecimal(2) == "2";
    assert VersionComponents(MinimumCoverletVersion) == ["1", "7", "2"];
  }

  /** The documented install-decision scenarios: 1.7.2 is not below the
      minimum, 1.0.0 and the two-component 1.7 are, and 1.7.2.0 is not. */
  lemma MinimumVersionBoundaries()
    ensures !VersionLess(MinimumCoverletVersion, MinimumCoverletVersion)
    ensures VersionLess(Version(1, 0, 0, -1), MinimumCoverletVersion)
    ensures VersionLess(Version(1, 7, -1, -1), MinimumCoverletVersion)
    ensures !VersionLess(Version(1, 7, 2, 0), MinimumCoverletVersion)
  {
  }

  /** Whether a line of `dotnet tool list` output is the coverlet.console line. */
  predicate IsCoverletLine(line: string)
  {
    StartsWithIgnoreCase(Trim(line, IsWhiteSpace), CoverletName)
  }

  /** Enumerable.FirstOrDefault with a predicate: the index of the first
      element satisfying it. */
  function FindFirst(lines: seq<string>, matches: string -> bool): (r: Option<nat>)
    ensures r.Some? ==>
      r.value < |lines| && matches(lines[r.value]) && forall j :: 0 <= j < r.value ==> !matches(lines[j])
    ensures r.None? ==> forall j :: 0 <= j < |lines| ==> !matches(lines[j])
  {
    if |lines| == 0 then None
    else if matches(lines[0]) then Some(0)
    else match FindFirst(lines[1..], matches)
      case None => None
      case Some(i) => Some(i + 1)
  }

  /** What GetCoverletVersion makes of the output of a successful
      `dotnet tool list`: no version when no line names coverlet.console,
      otherwise the second space- or tab-separated token of the first such
      line, parsed as a version. */
  function VersionFromListOutput(output: string): (r: Result<Option<Version>, VersionError>)
    ensures r.Ok? && r.value.Some? ==> ValidVersion(r.value.value)
  {
    var lines := SplitNonEmpty(output, {'\r', '\n'});
    match FindFirst(lines, IsCoverletLine)
    case None => Ok(None)
    case Some(i) =>
      var line := lines[i];
      if IsNullOrWhiteSpace(Some(line)) then Ok(None)
      else
        var tokens := SplitNonEmpty(line, {' ', '\t'});
        if |tokens| < 2 then Err(MissingVersionToken)
        else match ParseVersion(Trim(tokens[1], IsWhiteSpace))
          case Err(e) => Err(e)
          case Ok(v) => Ok(Some(v))
  }

  /** "Not installed" exactly when no line names coverlet.console. */
  lemma NotInstalledIffNoCoverletLine(output: string)
    ensures var lines := SplitNonEmpty(output, {'\r', '\n'});
      VersionFromListOutput(output) == Ok(None) <==> forall j :: 0 <= j < |lines| ==> !IsCoverletLine(lines[j])
  {
    var lines := SplitNonEmpty(output, {'\r', '\n'});
    var found := FindFirst(lines, IsCoverletLine);
    if found.Some? {
      var i := found.value;
      assert IsCoverletLine(lines[i]);
      CoverletLineNotBlank(lines[i]);
    }
  }

  /** What the first line naming coverlet.console decides: its second
      space- or tab-separated token, trimmed, is parsed as the version; a
      line without one raises the index exception. */
  lemma VersionFromCoverletLine(output: string)
    ensures var lines := SplitNonEmpty(output, {'\r', '\n'});
      var r := VersionFromListOutput(output);
      var found := FindFirst(lines, IsCoverletLine);
      found.Some? ==>
        var tokens := SplitNonEmpty(lines[found.value], {' ', '\t'});
        && (|tokens| < 2 <==> r == Err(MissingVersionToken))
        && (|tokens| >= 2 ==>
              var parsed := ParseVersion(Trim(tokens[1], IsWhiteSpace));
              && (r.Ok? <==> parsed.Ok?)
              && (r.Ok? ==> r.value == Some(parsed.value))
              && (r.Err? ==> r.error == parsed.error))
  {
    var lines := SplitNonEmpty(output, {'\r', '\n'});
    var r := VersionFromListOutput(output);
    var found := FindFirst(lines, IsCoverletLine);
    if found.Some? {
      var line := lines[found.value];
      CoverletLineNotBlank(line);
      var tokens := SplitNonEmpty(line, {' ', '\t'});
      if |tokens| >= 2 {
        var parsed := ParseVersion(Trim(tokens[1], IsWhiteSpace));
        assert r == if parsed.Err? then Err(parsed.error) else Ok(Some(parsed.value));
      }
    }
  }

  lemma CoverletLineNotBlank(line: string)
    requires IsCoverletLine(line)
    ensures !IsNullOrWhiteSpace(Some(line))
  {
    TrimEmptyIffAllStripped(line, IsWhiteSpace);
  }

  /** A coverlet line names a version only when it has a second token: an
      output that is one coverlet line with no blank in it raises instead of
      reporting "not installed". */
  lemma SingleTokenLineRaises(line: string)
    requires forall i :: 0 <= i < |line| ==> line[i] !in {'\r', '\n', ' ', '\t'}
    requires IsCoverletLine(line) && |line| > 0
    ensures VersionFromListOutput(line) == Err(MissingVersionToken)
  {
    SplitNonEmptyWithoutDelimiters(line, {'\r', '\n'});
    assert FindFirst([line], IsCoverletLine) == Some(0);
    CoverletLineNotBlank(line);
    SplitNonEmptyWithoutDelimiters(line, {' ', '\t'});
  }

  /** The arguments of the `dotnet` commands, for the coverlet tool folder. */
  function ListArguments(folder: string): string
  {
    "tool list --tool-path \"" + folder + "\""
  }

  function InstallArguments(folder: string): string
  {
    "tool install " + CoverletName + " --verbosity normal --version "
      + VersionToString(MinimumCoverletVersion) + " --tool-path \"" + folder + "\""
  }

  function UpdateArguments(folder: string): string
  {
    "tool update " + CoverletName + " --verbosity normal --version "
      + VersionToString(MinimumCoverletVersion) + " --tool-path \"" + folder + "\""
  }

  /** The `dotnet` arguments of an install or an update. */
  function CommandFor(action: InstallAction, folder: string): string
  {
    if action == Install then InstallArguments(folder) else UpdateArguments(folder)
  }

  /** A finished `dotnet` process. */
  datatype DotnetRun = DotnetRun(exitCode: int, output: string)

  /** A finished `dotnet tool list`, with the executable that the search
      of the tool folder for coverlet.exe, then *coverlet*.exe, found. */
  datatype ListRun = ListRun(run: DotnetRun, exeFound: Option<string>)

  /** What a version query reports: nothing when `dotnet tool list`
      failed, otherwise what its output names. */
  function QueriedVersion(list: ListRun): (r: Result<Option<Version>, VersionError>)
    ensures list.run.exitCode != 0 ==> r == Ok(None)
    ensures r.Ok? && r.value.Some? ==> ValidVersion(r.value.value)
  {
    if list.run.exitCode != 0 then Ok(None) else VersionFromListOutput(list.run.output)
  }

  /** The version and executable held after a version query: unchanged
      when `dotnet tool list` failed or its output raised, otherwise the
      version found, with the executable found alongside it (none when
      there is no version). */
  function StateAfterQuery(list: ListRun, version: Option<Version>, exe: Option<string>)
    : (r: (Option<Version>, Option<string>))
    ensures list.run.exitCode != 0 || QueriedVersion(list).Err? ==> r == (version, exe)
    ensures list.run.exitCode == 0 && QueriedVersion(list).Ok? ==> r.0 == QueriedVersion(list).value
    ensures r.1.Some? ==> r.0.Some? || (r.0 == version && r.1 == exe)
  {
    match QueriedVersion(list)
    case Err(_) => (version, exe)
    case Ok(v) =>
      if list.run.exitCode != 0 then (version, exe) else (v, if v.None? then None else list.exeFound)
  }

  /** The `dotnet` commands an install or update issues: the pinned
      command, and the version query that follows it only on success. */
  function InstallCommands(action: InstallAction, run: DotnetRun, folder: string): (r: seq<string>)
    ensures action == NoAction <==> r == []
    ensures action != NoAction ==> r[0] == CommandFor(action, folder)
    ensures action != NoAction ==> (|r| == 2 <==> run.exitCode == 0)
  {
    if action == NoAction then []
    else if run.exitCode != 0 then [CommandFor(action, folder)]
    else [CommandFor(action, folder), ListArguments(folder)]
  }

  /** What Initialize does once the version has been queried. */
  datatype InstallAction = Install | Update | NoAction

  function InstallActionFor(current: Option<Version>): (a: InstallAction)
    ensures a == Install <==> current.None?
    ensures a == Update <==> current.Some? && VersionLess(current.value, MinimumCoverletVersion)
  {
    if current.None? then Install
    else if VersionLess(current.value, MinimumCoverletVersion) then Update
    else NoAction
  }

  /** The static state of CoverletUtil, and the `dotnet` commands it has issued. */
  class CoverletTool {
    var appDataCoverletFolder: string
    var currentCoverletVersion: Option<Version>
    var coverletExePath: Option<string>
    var dotnetCommands: seq<string>

    constructor ()
      ensures appDataCoverletFolder == [] && currentCoverletVersion == None
      ensures coverletExePath == None && dotnetCommands == []
    {
      appDataCoverletFolder := [];
      currentCoverletVersion := None;
      coverletExePath := None;
      dotnetCommands := [];
    }

    /** GetCoverletVersion: `dotnet tool list`, then the state update. A
        failing list leaves the state alone; a missing coverlet line clears
        it; a malformed line raises (the state is again left alone). */
    method GetCoverletVersion(list: ListRun) returns (r: Result<Option<Version>, VersionError>)
      modifies this
      ensures appDataCoverletFolder == old(appDataCoverletFolder)
      ensures dotnetCommands == old(dotnetCommands) + [ListArguments(appDataCoverletFolder)]
      ensures r == QueriedVersion(list)
      ensures list.run.exitCode != 0 || r.Err? ==>
        currentCoverletVersion == old(currentCoverletVersion) && coverletExePath == old(coverletExePath)
      ensures list.run.exitCode == 0 && r.Ok? ==>
        currentCoverletVersion == r.value && coverletExePath == (if r.value.None? then None else list.exeFound)
      ensures (currentCoverletVersion, coverletExePath)
        == StateAfterQuery(list, old(currentCoverletVersion), old(coverletExePath))
    {
      dotnetCommands := dotnetCommands + [ListArguments(appDataCoverletFolder)];
      if list.run.exitCode != 0 {
        return Ok(None);
      }
      r := VersionFromListOutput(list.run.output);
      match r {
        case Err(_) =>
        case Ok(None) =>
          coverletExePath := None;
          currentCoverletVersion := None;
        case Ok(Some(v)) =>
          currentCoverletVersion := Some(v);
          coverletExePath := list.exeFound;
      }
    }

    /** InstallCoverlet and UpdateCoverlet: the pinned `dotnet tool`
        command, then, only when it succeeded, a fresh version query. */
    method InstallOrUpdate(action: InstallAction, run: DotnetRun, requery: ListRun)
      returns (raised: Option<VersionError>)
      requires action != NoAction
      modifies this
      ensures appDataCoverletFolder == old(appDataCoverletFolder)
      ensures dotnetCommands == old(dotnetCommands) + InstallCommands(action, run, appDataCoverletFolder)
      ensures raised.Some? <==> run.exitCode == 0 && QueriedVersion(requery).Err?
      ensures raised.Some? ==> raised.value == QueriedVersion(requery).error
      ensures run.exitCode != 0 || requery.run.exitCode != 0 || raised.Some? ==>
        currentCoverletVersion == old(currentCoverletVersion) && coverletExePath == old(coverletExePath)
      ensures run.exitCode == 0 && requery.run.exitCode == 0 && raised.None? ==>
        var v := QueriedVersion(requery).value;
        currentCoverletVersion == v && coverletExePath == (if v.None? then None else requery.exeFound)
      ensures (currentCoverletVersion, coverletExePath)
        == if run.exitCode != 0 then (old(currentCoverletVersion), old(coverletExePath))
           else StateAfterQuery(requery, old(currentCoverletVersion), old(coverletExePath))
    {
      var command := CommandFor(action, appDataCoverletFolder);
      dotnetCommands := dotnetCommands + [command];
      if run.exitCode != 0 {
        return None;
      }
      var r := GetCoverletVersion(requery);
      raised := if r.Err? then Some(r.error) else None;
    }

    /** Initialize: set the tool folder, query the version, then install
        when no version is known or update when it is below 1.7.2. The
        decision reads the static version, so a failing query decides on
        the version held before it. An exception raised by either version
        query propagates. */
    method Initialize(appDataFolder: string, query: ListRun, run: DotnetRun, requery: ListRun)
      returns (r: Result<InstallAction, VersionError>)
      modifies this
      ensures appDataCoverletFolder == PathCombine(appDataFolder, "coverlet")
      ensures QueriedVersion(query).Err? ==>
        r == Err(QueriedVersion(query).error) && dotnetCommands == old(dotnetCommands) + [ListArguments(appDataCoverletFolder)]
      ensures QueriedVersion(query).Ok? ==>
        var action := InstallActionFor(if query.run.exitCode != 0 then old(currentCoverletVersion)
                                       else QueriedVersion(query).value);
        && dotnetCommands == old(dotnetCommands) + [ListArguments(appDataCoverletFolder)]
             + InstallCommands(action, run, appDataCoverletFolder)
        && (r.Err? <==> action != NoAction && run.exitCode == 0 && QueriedVersion(requery).Err?)
        && (r.Ok? ==> r.value == action)
      ensures var queried := StateAfterQuery(query, old(currentCoverletVersion), old(coverletExePath));
        var action := InstallActionFor(queried.0);
        (currentCoverletVersion, coverletExePath)
          == if QueriedVersion(query).Err? || action == NoAction || run.exitCode != 0 then queried
             else StateAfterQuery(requery, queried.0, queried.1)
    {
      appDataCoverletFolder := PathCombine(appDataFolder, "coverlet");
      var queried := GetCoverletVersion(query);
      if queried.Err? {
        return Err(queried.error);
      }
      r := EnsureMinimumVersion(run, requery);
    }

    /** The second half of Initialize: install when no version is known,
        update when the known one is below the minimum, otherwise nothing. */
    method EnsureMinimumVersion(run: DotnetRun, requery: ListRun) returns (r: Result<InstallAction, VersionError>)
      modifies this
      ensures appDataCoverletFolder == old(appDataCoverletFolder)
      ensures var action := InstallActionFor(old(currentCoverletVersion));
        && dotnetCommands == old(dotnetCommands) + InstallCommands(action, run, appDataCoverletFolder)
        && (r.Err? <==> action != NoAction && run.exitCode == 0 && QueriedVersion(requery).Err?)
        && (r.Ok? ==> r.value == action)
      ensures var action := InstallActionFor(old(currentCoverletVersion));
        (currentCoverletVersion, coverletExePath)
          == if action == NoAction || run.exitCode != 0 then (old(currentCoverletVersion), old(coverletExePath))
             else StateAfterQuery(requery, old(currentCoverletVersion), old(coverletExePath))
    {
      var action := InstallActionFor(currentCoverletVersion);
      if action != NoAction {
        var raised := InstallOrUpdate(action, run, requery);
        if raised.Some? {
          return Err(raised.value);
        }
      }
      r := Ok(action);
    }

    /** RunCoverlet: the command line for the project and what the run's
        outcome means. Without an executable, Process.Start raises before
        any process runs, whatever throwError says. Nothing is changed. */
    method RunCoverlet(project: CoverletProject, throwError: bool, outcome: CoverletOutcome)
      returns (invocation: CoverletInvocation, result: CoverletRunResult)
      ensures invocation.fileName == coverletExePath
      ensures invocation.arguments == Join(CoverletArguments(project), " ")
      ensures invocation.workingDirectory == project.workFolder
      ensures coverletExePath.None? ==> result == CoverletRunResult(false, Err(NoFileNameMessage))
      ensures coverletExePath.Some? ==>
        result == ClassifyCoverletRun(outcome, project.settings.coverToolTimeout, throwError)
    {
      var arguments := BuildCoverletArguments(project);
      invocation := CoverletInvocation(coverletExePath, Join(arguments, " "), project.workFolder);
      if coverletExePath.None? {
        result := CoverletRunResult(false, Err(NoFileNameMessage));
      } else {
        result := ClassifyCoverletRun(outcome, project.settings.coverToolTimeout, throwError);
      }
    }
  }

  /** The coverlet settings of a project: None stands for a null list or
      a null entry. */
  datatype CoverletSettings = CoverletSettings(
    excludes: Option<seq<Option<string>>>,
    includes: Option<seq<Option<string>>>,
    excludesByFile: Option<seq<Option<string>>>,
    excludesByAttribute: Option<seq<Option<string>>>,
    includeTestAssembly: bool,
    coverToolTimeout: int)

  datatype CoverletProject = CoverletProject(
    testDllFileInWorkFolder: string,
    coverToolOutputFile: string,
    workOutputFolder: string,
    workFolder: string,
    settings: CoverletSettings)

  datatype CoverletInvocation = CoverletInvocation(fileName: Option<string>, arguments: string, workingDirectory: string)

  /** A filter value as it is passed: '"' escaped as '\"', then the ends
      stripped of the given characters. */
  function FilterValue(value: string, strip: char -> bool): (r: string)
    ensures |r| > 0 ==> !strip(r[0]) && !strip(r[|r| - 1])
  {
    Trim(ReplaceChar(value, '"', "\\\""), strip)
  }

  /** The argument one filter entry contributes, if any. */
  function FilterArgument(option: string, value: Option<string>, strip: char -> bool): seq<string>
  {
    if IsNullOrWhiteSpace(value) then [] else [option + " " + Quoted(FilterValue(value.value, strip))]
  }

  /** The arguments of a list of filter entries, in order. */
  function FilterArguments(option: string, values: seq<Option<string>>, strip: char -> bool): seq<string>
    decreases |values|
  {
    if |values| == 0 then []
    else FilterArguments(option, values[..|values| - 1], strip) + FilterArgument(option, values[|values| - 1], strip)
  }

  /** A null list counts as empty. */
  function Entries(values: Option<seq<Option<string>>>): seq<Option<string>>
  {
    if values.None? then [] else values.value
  }

  function TargetArgs(p: CoverletProject): string
  {
    "--targetargs \"test  \"\"" + p.testDllFileInWorkFolder + "\"\" --nologo --blame --results-directory \"\""
      + p.workOutputFolder + "\"\" --diag \"\"" + p.workOutputFolder + "/diagnostics.log\"\"  \""
  }

  /** The coverlet argument list of RunCoverlet, in its fixed order. */
  function CoverletArguments(p: CoverletProject): seq<string>
  {
    [Quoted(p.testDllFileInWorkFolder)] + ["--format \"cobertura\""]
      + FilterArguments("--exclude", Entries(p.settings.excludes), IsSpaceOrQuote)
      + FilterArguments("--include", Entries(p.settings.includes), IsSpaceOrQuote)
      + FilterArguments("--exclude-by-file", Entries(p.settings.excludesByFile), IsSpaceOrQuote)
      + FilterArguments("--exclude-by-attribute", Entries(p.settings.excludesByAttribute), IsSpaceQuoteOrBracket)
      + (if p.settings.includeTestAssembly then ["--include-test-assembly"] else [])
      + ["--target \"dotnet\""] + ["--output " + Quoted(p.coverToolOutputFile)] + [TargetArgs(p)]
  }

  /** The argument text of an entry that is kept. */
  function FilterArgumentText(option: string, value: Option<string>, strip: char -> bool): string
  {
    option + " " + Quoted(FilterValue(if value.Some? then value.value else "", strip))
  }

  /** argument applied to each entry that keep accepts, in order. */
  function Kept<T>(entries: seq<T>, keep: T -> bool, argument: T -> string): seq<string>
  {
    if |entries| == 0 then []
    else
      var last := entries[|entries| - 1];
      Kept(entries[..|entries| - 1], keep, argument) + (if keep(last) then [argument(last)] else [])
  }

  /** A foreach loop that adds argument(value) for each value keep accepts. */
  method AppendKept<T>(args: seq<string>, entries: seq<T>, keep: T -> bool, argument: T -> string)
    returns (r: seq<string>)
    ensures r == args + Kept(entries, keep, argument)
  {
    r := args;
    var i := 0;
    while i < |entries|
      invariant 0 <= i <= |entries|
      invariant r == args + Kept(entries[..i], keep, argument)
    {
      var value := entries[i];
      assert entries[..i + 1][..i] == entries[..i];
      if keep(value) {
        r := r + [argument(value)];
      }
      i := i + 1;
    }
    assert entries[..i] == entries;
  }

  /** Kept with the null-or-white-space test and the filter argument text is
      FilterArguments. */
  lemma {:induction false} KeptFilterArguments(option: string, values: seq<Option<string>>, strip: char -> bool,
                                               keep: Option<string> -> bool, argument: Option<string> -> string)
    requires forall v :: keep(v) == !IsNullOrWhiteSpace(v)
    requires forall v :: argument(v) == FilterArgumentText(option, v, strip)
    ensures Kept(values, keep, argument) == FilterArguments(option, values, strip)
    decreases |values|
  {
    if |values| > 0 {
      KeptFilterArguments(option, values[..|values| - 1], strip, keep, argument);
    }
  }

  /** One foreach loop of RunCoverlet: the arguments of every entry that is
      not null or white space, appended to args. */
  method AddFilterArguments(args: seq<string>, option: string, values: Option<seq<Option<string>>>, strip: char -> bool)
    returns (r: seq<string>)
    ensures r == args + FilterArguments(option, Entries(values), strip)
  {
    var keep := (v: Option<string>) => !IsNullOrWhiteSpace(v);
    var argument := (v: Option<string>) => FilterArgumentText(option, v, strip);
    r := AppendKept(args, Entries(values), keep, argument);
    KeptFilterArguments(option, Entries(values), strip, keep, argument);
  }

  /** The coverletSettings list of RunCoverlet, built by successive Adds. */
  method BuildCoverletArguments(p: CoverletProject) returns (args: seq<string>)
    ensures args == CoverletArguments(p)
  {
    args := [Quoted(p.testDllFileInWorkFolder)];
    args := args + ["--format \"cobertura\""];
    args := AddFilterArguments(args, "--exclude", p.settings.excludes, IsSpaceOrQuote);
    args := AddFilterArguments(args, "--include", p.settings.includes, IsSpaceOrQuote);
    args := AddFilterArguments(args, "--exclude-by-file", p.settings.excludesByFile, IsSpaceOrQuote);
    args := AddFilterArguments(args, "--exclude-by-attribute", p.settings.excludesByAttribute, IsSpaceQuoteOrBracket);
    if p.settings.includeTestAssembly {
      args := args + ["--include-test-assembly"];
    } else {
      assert args + [] == args;
    }
    args := args + ["--target \"dotnet\""];
    args := args + ["--output " + Quoted(p.coverToolOutputFile)];
    args := args + [TargetArgs(p)];
  }

  /** The entries that contribute an argument. */
  function NonBlankEntries(values: seq<Option<string>>): (r: seq<string>)
    decreases |values|
  {
    if |values| == 0 then []
    else
      var last := values[|values| - 1];
      NonBlankEntries(values[..|values| - 1]) + (if IsNullOrWhiteSpace(last) then [] else [last.value])
  }

  /** The filter arguments are exactly one argument per entry that is not
      null or white space, in the entries' order, each the option and the
      escaped, trimmed and quoted value. */
  lemma {:induction false} FilterArgumentsOfNonBlank(option: string, values: seq<Option<string>>, strip: char -> bool)
    ensures var args := FilterArguments(option, values, strip);
      var kept := NonBlankEntries(values);
      && |args| == |kept|
      && forall k :: 0 <= k < |args| ==> args[k] == option + " " + Quoted(FilterValue(kept[k], strip))
    decreases |values|
  {
    if |values| > 0 {
      FilterArgumentsOfNonBlank(option, values[..|values| - 1], strip);
    }
  }

  /** No null, empty or white-space entry contributes an argument. */
  lemma {:induction false} BlankEntriesContributeNothing(option: string, values: seq<Option<string>>, strip: char -> bool)
    requires forall k :: 0 <= k < |values| ==> IsNullOrWhiteSpace(values[k])
    ensures FilterArguments(option, values, strip) == []
    decreases |values|
  {
    if |values| > 0 {
      BlankEntriesContributeNothing(option, values[..|values| - 1], strip);
    }
  }

  /** The blank test is made on the raw entry, before trimming: an entry of
      two single quotes is kept and passes an empty value. */
  lemma QuotesOnlyEntryGivesEmptyValue()
    ensures FilterArguments("--exclude", [Some("''")], IsSpaceOrQuote) == ["--exclude \"\""]
  {
    var v := "''";
    assert ReplaceChar(v[1..], '"', "\\\"") == "'";
    assert ReplaceChar(v, '"', "\\\"") == v;
    assert TrimStart(v[1..], IsSpaceOrQuote) == [];
    assert TrimStart(v, IsSpaceOrQuote) == [];
    assert TrimEnd([], IsSpaceOrQuote) == [];
    assert FilterValue(v, IsSpaceOrQuote) == [];
    assert !IsNullOrWhiteSpace(Some(v)) by { assert !IsWhiteSpace(v[0]); }
    assert Quoted([]) == "\"\"";
    assert "--exclude" + " " + "\"\"" == "--exclude \"\"";
    assert FilterArgument("--exclude", Some(v), IsSpaceOrQuote) == ["--exclude \"\""];
    assert [Some(v)][..0] == [];
  }

  /** Every '"' of s follows a backslash. */
  predicate QuotesEscaped(s: string)
  {
    forall i :: 0 <= i < |s| && s[i] == '"' ==> i > 0 && s[i - 1] == '\\'
  }

  lemma {:induction false} EscapingEscapesQuotes(s: string)
    ensures QuotesEscaped(ReplaceChar(s, '"', "\\\""))
    decreases |s|
  {
    if |s| > 0 {
      EscapingEscapesQuotes(s[1..]);
      var head := if s[0] == '"' then "\\\"" else [s[0]];
      var tail := ReplaceChar(s[1..], '"', "\\\"");
      var r := head + tail;
      forall i | 0 <= i < |r| && r[i] == '"' ensures i > 0 && r[i - 1] == '\\' {
        if i >= |head| {
          assert r[i] == tail[i - |head|];
          if i - |head| == 0 {
            assert false;
          }
        }
      }
    }
  }

  /** In every filter value, each double quote follows a backslash. */
  lemma {:induction false} FilterValueQuotesEscaped(value: string, strip: char -> bool)
    requires !strip('\\')
    ensures QuotesEscaped(FilterValue(value, strip))
  {
    var e := ReplaceChar(value, '"', "\\\"");
    EscapingEscapesQuotes(value);
    var t := TrimStart(e, strip);
    var off := |e| - |t|;
    assert t == e[off..];
    assert off > 0 ==> strip(e[off - 1]);
    QuotesEscapedSuffix(e, off);
    var u := TrimEnd(t, strip);
    assert u == t[..|u|];
    QuotesEscapedPrefix(t, |u|);
  }

  /** Backslashes are left alone, so a backslash already standing before a
      quote is not doubled: a\"b becomes a\\"b, which the Windows
      command-line rules read as a backslash and a quote that ends the
      argument. */
  lemma BackslashBeforeQuoteNotDoubled()
    ensures FilterValue("a\\\"b", IsSpaceOrQuote) == "a\\\\\"b"
  {
    assert ReplaceChar("b", '"', "\\\"") == "b";
    assert ReplaceChar("\"b", '"', "\\\"") == "\\\"b";
    assert ReplaceChar("\\\"b", '"', "\\\"") == "\\\\\"b";
    assert ReplaceChar("a\\\"b", '"', "\\\"") == "a\\\\\"b";
    TrimKeepsUnstripped("a\\\\\"b", IsSpaceOrQuote);
  }

  /** A suffix of an escaped string is escaped when the cut does not
      separate a backslash from the quote it escapes. */
  lemma QuotesEscapedSuffix(s: string, n: nat)
    requires QuotesEscaped(s) && n <= |s|
    requires n > 0 ==> s[n - 1] != '\\'
    ensures QuotesEscaped(s[n..])
  {
    var t := s[n..];
    forall i | 0 <= i < |t| && t[i] == '"' ensures i > 0 && t[i - 1] == '\\' {
      assert s[n + i] == '"';
    }
  }

  lemma QuotesEscapedPrefix(s: string, n: nat)
    requires QuotesEscaped(s) && n <= |s|
    ensures QuotesEscaped(s[..n])
  {
    var t := s[..n];
    forall i | 0 <= i < |t| && t[i] == '"' ensures i > 0 && t[i - 1] == '\\' {
      assert s[i] == '"';
    }
  }

  /** How a coverlet process ended: still running when CoverToolTimeout
      elapsed (with the elapsed time as the stopwatch printed it), or
      exited with a code and output. */
  datatype CoverletOutcome = TimedOut(elapsedSeconds: string) | Exited(exitCode: int, output: string)

  /** RunCoverlet's verdict: whether it tried to kill the process, and
      true/false, or the message of the exception it raised. */
  datatype CoverletRunResult = CoverletRunResult(killAttempted: bool, verdict: Result<bool, string>)

  /** The message of the InvalidOperationException Process.Start raises for
      a start info whose FileName is null. */
  const NoFileNameMessage := "Cannot start process because a file name has not been provided."

  function TimeoutMessage(elapsedSeconds: string, timeout: int): string
  {
    "Coverlet timed out after " + elapsedSeconds + " seconds (CoverToolTimeout is " + IntToDecimal(timeout) + " seconds)"
  }

  function ClassifyCoverletRun(outcome: CoverletOutcome, timeout: int, throwError: bool): (r: CoverletRunResult)
    ensures r.killAttempted <==> outcome.TimedOut?
    ensures r.verdict == Ok(true) <==> outcome.Exited? && outcome.exitCode == 0
    ensures r.verdict.Err? <==> throwError && r.verdict != Ok(true)
    ensures !throwError && !(outcome.Exited? && outcome.exitCode == 0) ==> r.verdict == Ok(false)
    ensures r.verdict.Err? && outcome.TimedOut? ==> r.verdict.error == TimeoutMessage(outcome.elapsedSeconds, timeout)
    ensures r.verdict.Err? && outcome.Exited? ==> r.verdict.error == outcome.output
  {
    match outcome
    case TimedOut(elapsed) =>
      CoverletRunResult(true, if throwError then Err(TimeoutMessage(elapsed, timeout)) else Ok(false))
    case Exited(code, output) =>
      if code != 0 then CoverletRunResult(false, if throwError then Err(output) else Ok(false))
      else CoverletRunResult(false, Ok(true))
  }
}
