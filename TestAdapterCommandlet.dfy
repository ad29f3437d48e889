/** The test adapter commandlet: computes the requested automation-test
    filter from the command line, then either lists every test or runs a
    selection of them, writing one line per test to an output file. The
    automation framework's test list and each test's outcome are inputs. */
module VSTestAdapterCommandlet {
  import opened Wrappers
  import opened Text
  import opened CommandletBase

  // ----- The filter mask -----

  /** The filter bits of the engine's `EAutomationTestFlags` (UE5). */
  const SmokeFilter: bv32 := 0x0100_0000
  const EngineFilter: bv32 := 0x0200_0000
  const ProductFilter: bv32 := 0x0400_0000
  const PerfFilter: bv32 := 0x0800_0000
  const StressFilter: bv32 := 0x1000_0000
  const NegativeFilter: bv32 := 0x2000_0000

  /** Every filter but the engine tests. */
  const DefaultFilter: bv32 := ProductFilter | SmokeFilter | PerfFilter | StressFilter | NegativeFilter

  /** The filter keywords, each with its bit. */
  const Keywords: seq<(string, bv32)> := [
    ("smoke", SmokeFilter), ("engine", EngineFilter), ("product", ProductFilter),
    ("perf", PerfFilter), ("stress", StressFilter), ("negative", NegativeFilter)]

  /** `flag` when `on`, nothing otherwise. */
  function FlagIf(on: bool, flag: bv32): bv32 {
    if on then flag else 0
  }

  /** The requested filter: the default without a `filters` parameter, else
      exactly the bits whose keyword occurs in it (ignoring case). */
  function RequestedFilter(filters: Option<string>): bv32 {
    match filters
    case None => DefaultFilter
    case Some(f) =>
      FlagIf(ContainsIgnoreCase(f, "smoke"), SmokeFilter)
      | FlagIf(ContainsIgnoreCase(f, "engine"), EngineFilter)
      | FlagIf(ContainsIgnoreCase(f, "product"), ProductFilter)
      | FlagIf(ContainsIgnoreCase(f, "perf"), PerfFilter)
      | FlagIf(ContainsIgnoreCase(f, "stress"), StressFilter)
      | FlagIf(ContainsIgnoreCase(f, "negative"), NegativeFilter)
  }

  /** Sets or clears the flag's bits of the mask: they become all set or all
      clear as `on` says, and every other bit keeps its value. */
  method Toggle(filter: bv32, on: bool, flag: bv32) returns (r: bv32)
    ensures r & flag == if on then flag else 0
    ensures r & !flag == filter & !flag
  {
    if on {
      r := filter | flag;
    } else {
      r := filter & !flag;
    }
  }

  /** The mask computation of `Main`: start from the default, then, when
      `filters` is given, set or clear each of the six bits in turn. */
  method ComputeFilter(filters: Option<string>) returns (filter: bv32)
    ensures filter == RequestedFilter(filters)
  {
    filter := ProductFilter | SmokeFilter | PerfFilter | StressFilter | NegativeFilter;
    if filters.Some? {
      var f := filters.value;
      filter := Toggle(filter, ContainsIgnoreCase(f, "smoke"), SmokeFilter);
      filter := Toggle(filter, ContainsIgnoreCase(f, "engine"), EngineFilter);
      filter := Toggle(filter, ContainsIgnoreCase(f, "product"), ProductFilter);
      filter := Toggle(filter, ContainsIgnoreCase(f, "perf"), PerfFilter);
      filter := Toggle(filter, ContainsIgnoreCase(f, "stress"), StressFilter);
      filter := Toggle(filter, ContainsIgnoreCase(f, "negative"), NegativeFilter);
    }
  }

  /** With `filters` given, each bit is set exactly when its keyword occurs
      and no other bit is set, so the default plays no part; without it,
      every filter but the engine one is on. */
  lemma RequestedFilterBits(filters: Option<string>)
    ensures filters.Some? ==> forall k :: 0 <= k < |Keywords| ==>
      (RequestedFilter(filters) & Keywords[k].1 != 0 <==> ContainsIgnoreCase(filters.value, Keywords[k].0))
    ensures filters.Some? ==>
      RequestedFilter(filters) & !(SmokeFilter | EngineFilter | ProductFilter | PerfFilter | StressFilter | NegativeFilter) == 0
    ensures filters.None? ==> forall k :: 0 <= k < |Keywords| ==>
      (RequestedFilter(filters) & Keywords[k].1 != 0 <==> Keywords[k].0 != "engine")
  {
  }

  // ----- Tests and their outcomes -----

  /** A test known to the automation framework. */
  datatype TestInfo = TestInfo(testName: string, displayName: string, sourceFile: string, sourceFileLine: int)

  datatype EventType = Info | Warning | Error

  /** An entry of a test's execution log. */
  datatype AutomationEvent = AutomationEvent(eventType: EventType, message: string)

  /** What `StopTest` reports about a finished test: whether it stopped
      cleanly, its error total, its duration as the stream prints it, and
      its log entries. */
  datatype ExecutionInfo = ExecutionInfo(stopped: bool, errorTotal: int, duration: string, entries: seq<AutomationEvent>)

  /** What the commandlet sees of the engine and the file system;
      `testsUnder(filter)` is what `GetValidTestNames` reports once
      `SetRequestedTestFilter(filter)` has been called. */
  datatype Environment = Environment(
    testsUnder: bv32 -> seq<TestInfo>,
    canWrite: string -> bool,
    readLines: string -> Option<seq<string>>,
    execute: string -> ExecutionInfo)

  // ----- Reading the requested tests -----

  /** The requested names: the non-empty lines, compared ignoring case (a
      set of strings keyed without case is a set of folded strings). */
  function CommandSet(lines: seq<string>): set<string> {
    set l | l in lines && |l| > 0 :: Fold(l)
  }

  /** The tests whose name was requested, in their original order. */
  function SelectTests(tests: seq<TestInfo>, commands: set<string>): (r: seq<TestInfo>)
    ensures |r| <= |tests|
    decreases |tests|
  {
    if |tests| == 0 then []
    else (if Fold(tests[0].testName) in commands then [tests[0]] else []) + SelectTests(tests[1..], commands)
  }

  /** The line loop: the non-empty lines go into the set. */
  method CollectCommands(lines: seq<string>) returns (commands: set<string>)
    ensures commands == CommandSet(lines)
  {
    commands := {};
    for i := 0 to |lines|
      invariant commands == CommandSet(lines[..i])
    {
      assert lines[..i + 1] == lines[..i] + [lines[i]];
      if |lines[i]| > 0 {
        commands := commands + {Fold(lines[i])};
      }
    }
    assert lines[..|lines|] == lines;
  }

  /** `ReadTestsFromFile`: an unreadable file leaves the list as it was;
      otherwise all tests, then removal from the back of those whose name
      is not a line of the file. */
  method ReadTestsFromFile(file: Option<seq<string>>, allTests: seq<TestInfo>, testList: seq<TestInfo>)
    returns (r: seq<TestInfo>)
    ensures file.None? ==> r == testList
    ensures file.Some? ==> r == SelectTests(allTests, CommandSet(file.value))
  {
    if file.None? {
      return testList;
    }
    var commands := CollectCommands(file.value);
    r := allTests;
    var idx := |r|;
    while idx > 0
      invariant 0 <= idx <= |allTests|
      invariant r == allTests[..idx] + SelectTests(allTests[idx..], commands)
    {
      idx := idx - 1;
      RemovalStep(allTests, commands, idx, r);
      if Fold(r[idx].testName) !in commands {
        r := r[..idx] + r[idx + 1..];
      }
    }
  }

  /** One step of the backward removal loop: dropping test `idx` when it
      was not requested extends the selected suffix by one test. */
  lemma RemovalStep(allTests: seq<TestInfo>, commands: set<string>, idx: int, r: seq<TestInfo>)
    requires 0 <= idx < |allTests|
    requires r == allTests[..idx + 1] + SelectTests(allTests[idx + 1..], commands)
    ensures r[idx] == allTests[idx]
    ensures Fold(allTests[idx].testName) !in commands ==>
      r[..idx] + r[idx + 1..] == allTests[..idx] + SelectTests(allTests[idx..], commands)
    ensures Fold(allTests[idx].testName) in commands ==>
      r == allTests[..idx] + SelectTests(allTests[idx..], commands)
  {
    assert allTests[idx..] == [allTests[idx]] + allTests[idx + 1..];
    assert allTests[..idx + 1] == allTests[..idx] + [allTests[idx]];
    if Fold(allTests[idx].testName) !in commands {
      assert r[..idx] == allTests[..idx];
      assert r[idx + 1..] == SelectTests(allTests[idx + 1..], commands);
    }
  }

  /** A test is selected exactly when it is known and its name equals a
      non-empty line of the file, ignoring case. */
  lemma {:induction false} SelectTestsMembers(tests: seq<TestInfo>, lines: seq<string>, t: TestInfo)
    ensures t in SelectTests(tests, CommandSet(lines)) <==>
      t in tests && exists l :: l in lines && |l| > 0 && EqualsIgnoreCase(l, t.testName)
    decreases |tests|
  {
    if |tests| > 0 {
      SelectTestsMembers(tests[1..], lines, t);
      assert tests == [tests[0]] + tests[1..];
    }
  }

  /** Selection keeps the original order: it distributes over
      concatenation. */
  lemma {:induction false} SelectTestsAppend(a: seq<TestInfo>, b: seq<TestInfo>, commands: set<string>)
    ensures SelectTests(a + b, commands) == SelectTests(a, commands) + SelectTests(b, commands)
    decreases |a|
  {
    if |a| > 0 {
      assert (a + b)[0] == a[0];
      assert (a + b)[1..] == a[1..] + b;
      SelectTestsAppend(a[1..], b, commands);
    } else {
      assert a + b == b;
    }
  }

  // ----- Output lines -----

  /** A list line: `name|display|line|file`. */
  function ListLine(t: TestInfo): string {
    Join([t.testName, t.displayName, IntToString(t.sourceFileLine), t.sourceFile], '|')
  }

  /** A list line splits back into its four fields when the name, display
      name and file hold no `|`. */
  lemma ListLineFields(t: TestInfo)
    requires '|' !in t.testName && '|' !in t.displayName && '|' !in t.sourceFile
    ensures SplitOn(ListLine(t), '|') == [t.testName, t.displayName, IntToString(t.sourceFileLine), t.sourceFile]
  {
    var fields := [t.testName, t.displayName, IntToString(t.sourceFileLine), t.sourceFile];
    assert '|' !in IntToString(t.sourceFileLine);
    SplitOnJoin(fields, '|');
  }

  /** A test succeeded: it stopped cleanly with no errors. */
  predicate Succeeded(info: ExecutionInfo) {
    info.stopped && info.errorTotal == 0
  }

  /** The protocol line of one run: `[RUNTEST]name|display|OK or FAIL|duration`. */
  function ResultLine(t: TestInfo, info: ExecutionInfo): string {
    "[RUNTEST]" + Join([t.testName, t.displayName, if Succeeded(info) then "OK" else "FAIL", info.duration], '|')
  }

  /** The messages of the error entries, in order. */
  function ErrorMessages(entries: seq<AutomationEvent>): seq<string>
    decreases |entries|
  {
    if |entries| == 0 then []
    else
      var last := entries[|entries| - 1];
      ErrorMessages(entries[..|entries| - 1]) + (if last.eventType == Error then [last.message] else [])
  }

  /** The lines written for one test: the protocol line, then the error
      messages when the test failed. */
  function TestLines(t: TestInfo, info: ExecutionInfo): seq<string> {
    [ResultLine(t, info)] + (if Succeeded(info) then [] else ErrorMessages(info.entries))
  }

  /** The results file for a sequence of tests. */
  function RunReport(tests: seq<TestInfo>, execute: string -> ExecutionInfo): seq<string>
    decreases |tests|
  {
    if |tests| == 0 then []
    else RunReport(tests[..|tests| - 1], execute) + TestLines(tests[|tests| - 1], execute(tests[|tests| - 1].testName))
  }

  /** Every test of the sequence succeeded. */
  predicate AllSucceeded(tests: seq<TestInfo>, execute: string -> ExecutionInfo) {
    forall i :: 0 <= i < |tests| ==> Succeeded(execute(tests[i].testName))
  }

  /** The tests `RunTests` runs: all of them for `All` (ignoring case),
      otherwise those read from the list file. */
  function Selection(testListFile: string, env: Environment, filter: bv32): seq<TestInfo> {
    if EqualsIgnoreCase(testListFile, "All") then env.testsUnder(filter)
    else match env.readLines(testListFile)
      case None => []
      case Some(lines) => SelectTests(env.testsUnder(filter), CommandSet(lines))
  }

  /** `ListTests`: 1 when the file cannot be opened, else one list line per
      test the framework reports under the requested filter, and 0. */
  method ListTests(targetFile: string, env: Environment, filter: bv32) returns (code: int, written: Option<seq<string>>)
    ensures !env.canWrite(targetFile) ==> code == 1 && written.None?
    ensures env.canWrite(targetFile) ==>
      && code == 0 && written.Some?
      && |written.value| == |env.testsUnder(filter)|
      && forall i :: 0 <= i < |env.testsUnder(filter)| ==> written.value[i] == ListLine(env.testsUnder(filter)[i])
  {
    if !env.canWrite(targetFile) {
      return 1, None;
    }
    var testInfos := env.testsUnder(filter);
    var lines := [];
    for i := 0 to |testInfos|
      invariant |lines| == i
      invariant forall k :: 0 <= k < i ==> lines[k] == ListLine(testInfos[k])
    {
      lines := lines + [ListLine(testInfos[i])];
    }
    return 0, Some(lines);
  }

  /** The error-entry loop of a failed test. */
  method WriteErrors(entries: seq<AutomationEvent>) returns (lines: seq<string>)
    ensures lines == ErrorMessages(entries)
  {
    lines := [];
    for i := 0 to |entries|
      invariant lines == ErrorMessages(entries[..i])
    {
      assert entries[..i + 1][..i] == entries[..i];
      if entries[i].eventType == Error {
        lines := lines + [entries[i].message];
      }
    }
    assert entries[..|entries|] == entries;
  }

  /** The tests to run: every test for `All`, else the file's selection. */
  method SelectedTests(testListFile: string, env: Environment, filter: bv32) returns (testInfos: seq<TestInfo>)
    ensures testInfos == Selection(testListFile, env, filter)
  {
    testInfos := [];
    if EqualsIgnoreCase(testListFile, "All") {
      testInfos := env.testsUnder(filter);
    } else {
      testInfos := ReadTestsFromFile(env.readLines(testListFile), env.testsUnder(filter), testInfos);
    }
  }

  /** One test's verdict and lines. */
  method RunOne(t: TestInfo, info: ExecutionInfo) returns (lines: seq<string>, currentTestSuccessful: bool)
    ensures currentTestSuccessful == Succeeded(info)
    ensures lines == TestLines(t, info)
  {
    currentTestSuccessful := info.stopped && info.errorTotal == 0;
    var result := if currentTestSuccessful then "OK" else "FAIL";
    lines := ["[RUNTEST]" + Join([t.testName, t.displayName, result, info.duration], '|')];
    if !currentTestSuccessful {
      var errors := WriteErrors(info.entries);
      lines := lines + errors;
    }
  }

  /** `RunTests`: 1 when the results file cannot be opened; otherwise runs
      the selection in order, writing each test's lines, and returns 0
      exactly when every test succeeded. */
  method RunTests(testListFile: string, resultsFile: string, env: Environment, filter: bv32)
    returns (code: int, written: Option<seq<string>>)
    ensures !env.canWrite(resultsFile) ==> code == 1 && written.None?
    ensures env.canWrite(resultsFile) ==>
      && written == Some(RunReport(Selection(testListFile, env, filter), env.execute))
      && code == (if AllSucceeded(Selection(testListFile, env, filter), env.execute) then 0 else 1)
  {
    if !env.canWrite(resultsFile) {
      return 1, None;
    }
    var testInfos := SelectedTests(testListFile, env, filter);
    var allSuccessful := true;
    var lines := [];
    for i := 0 to |testInfos|
      invariant lines == RunReport(testInfos[..i], env.execute)
      invariant allSuccessful == AllSucceeded(testInfos[..i], env.execute)
    {
      assert testInfos[..i + 1][..i] == testInfos[..i];
      var testLines, currentTestSuccessful := RunOne(testInfos[i], env.execute(testInfos[i].testName));
      allSuccessful := allSuccessful && currentTestSuccessful;
      lines := lines + testLines;
    }
    assert testInfos[..|testInfos|] == testInfos;
    code := if allSuccessful then 0 else 1;
    written := Some(lines);
  }

  /** The report holds one protocol line per test: it grows by the test's
      lines at each step, and an empty selection writes nothing and passes. */
  lemma {:induction false} RunReportLines(tests: seq<TestInfo>, execute: string -> ExecutionInfo)
    ensures |RunReport(tests, execute)| >= |tests|
    ensures |tests| == 0 ==> RunReport(tests, execute) == [] && AllSucceeded(tests, execute)
    ensures forall t :: t in tests ==> ResultLine(t, execute(t.testName)) in RunReport(tests, execute)
    decreases |tests|
  {
    if |tests| > 0 {
      var init := tests[..|tests| - 1];
      RunReportLines(init, execute);
      assert forall t :: t in tests ==> t in init || t == tests[|tests| - 1];
    }
  }

  /** A result line carries the verdict in its third field. */
  lemma ResultLineFields(t: TestInfo, info: ExecutionInfo)
    requires '|' !in t.testName && '|' !in t.displayName && '|' !in info.duration
    ensures SplitOn(ResultLine(t, info), '|') ==
      ["[RUNTEST]" + t.testName, t.displayName, if Succeeded(info) then "OK" else "FAIL", info.duration]
  {
    var verdict := if Succeeded(info) then "OK" else "FAIL";
    var rest := Join([t.displayName, verdict, info.duration], '|');
    assert ResultLine(t, info) == ("[RUNTEST]" + t.testName) + ['|'] + rest;
    SplitOnJoin(["[RUNTEST]" + t.testName, t.displayName, verdict, info.duration], '|');
  }

  // ----- Main -----

  /** How `Main` dispatches once help was not requested. */
  datatype Command = ListCommand(target: string) | RunCommand(testList: string, resultsFile: string) | NoCommand

  /** `listtests` first, then `runtests` together with `testresultfile`. */
  function Dispatch(cmd: CommandLine): Command {
    if Param(cmd, "listtests").Some? then ListCommand(Param(cmd, "listtests").value)
    else if Param(cmd, "runtests").Some? && Param(cmd, "testresultfile").Some? then
      RunCommand(Param(cmd, "runtests").value, Param(cmd, "testresultfile").value)
    else NoCommand
  }

  /** The commandlet's `Main`: a `help` parameter returns 0 before anything else; otherwise
      the filter is requested and the command dispatched, with help and 1
      when there is none. */
  method Execute(cmd: CommandLine, env: Environment)
    returns (code: int, requestedFilter: Option<bv32>, written: Option<seq<string>>)
    ensures Param(cmd, "help").Some? ==> code == 0 && requestedFilter.None? && written.None?
    ensures Param(cmd, "help").None? ==> requestedFilter == Some(RequestedFilter(Param(cmd, "filters")))
    ensures Param(cmd, "help").None? && Dispatch(cmd).NoCommand? ==> code == 1 && written.None?
    ensures Param(cmd, "help").None? && Dispatch(cmd).ListCommand? ==>
      var tests := env.testsUnder(RequestedFilter(Param(cmd, "filters")));
      && code == (if env.canWrite(Dispatch(cmd).target) then 0 else 1)
      && (written.Some? <==> env.canWrite(Dispatch(cmd).target))
      && (written.Some? ==>
            && |written.value| == |tests|
            && forall i :: 0 <= i < |tests| ==> written.value[i] == ListLine(tests[i]))
    ensures Param(cmd, "help").None? && Dispatch(cmd).RunCommand? ==>
      var c := Dispatch(cmd);
      && (written.Some? <==> env.canWrite(c.resultsFile))
      && (!env.canWrite(c.resultsFile) ==> code == 1)
      && (env.canWrite(c.resultsFile) ==>
            && written == Some(RunReport(Selection(c.testList, env, RequestedFilter(Param(cmd, "filters"))), env.execute))
            && code == (if AllSucceeded(Selection(c.testList, env, RequestedFilter(Param(cmd, "filters"))), env.execute) then 0 else 1))
  {
    if Param(cmd, "help").Some? {
      return 0, None, None;
    }
    var filter := ComputeFilter(Param(cmd, "filters"));
    requestedFilter := Some(filter);
    if Param(cmd, "listtests").Some? {
      code, written := ListTests(Param(cmd, "listtests").value, env, filter);
      return;
    } else if Param(cmd, "runtests").Some? && Param(cmd, "testresultfile").Some? {
      code, written := RunTests(Param(cmd, "runtests").value, Param(cmd, "testresultfile").value, env, filter);
      return;
    }
    return 1, requestedFilter, None;
  }

  const AdapterDescription := "Commandlet for generating data used by Blueprint support in Visual Studio."
  const AdapterUsage := "<Editor-Cmd.exe> <path_to_uproject> -run=VSTestAdapter [-stdout -multiprocess -silent -unattended -AllowStdOutLogVerbosity -NoShaderCompile]"
  const ListTestsDescription := "[Required] The file path to write the test cases retrieved from FAutomationTestFramework"
  const RunTestsDescription := "[Required] The test cases that will be sent to FAutomationTestFramework to run."
  const ResultsFileDescription := "[Required] The output file from running test cases that we parse to retrieve test case results."
  const FiltersDescription := "[Optional] List of test filters to enable separated by '+'. Default is 'smoke+product+perf+stress+negative'"
  const AdapterHelpDescription := "[Optional] Print this help message and quit the commandlet immediately."

  /** The constructor: five help entries, each name with its description. */
  method NewCommandlet() returns (help: CommandletHelp)
    ensures fresh(help) && help.Valid()
    ensures help.helpDescription == AdapterDescription && help.helpUsage == AdapterUsage
    ensures help.helpParamNames == ["listtests", "runtests", "testresultfile", "filters", "help"]
    ensures help.helpParamDescriptions ==
      [ListTestsDescription, RunTestsDescription, ResultsFileDescription, FiltersDescription, AdapterHelpDescription]
  {
    help := new CommandletHelp.Empty();
    help.SetUsage(AdapterDescription, AdapterUsage);
    help.AddHelpParam("listtests", ListTestsDescription);
    help.AddHelpParam("runtests", RunTestsDescription);
    help.AddHelpParam("testresultfile", ResultsFileDescription);
    help.AddHelpParam("filters", FiltersDescription);
    help.AddHelpParam("help", AdapterHelpDescription);
  }
}
