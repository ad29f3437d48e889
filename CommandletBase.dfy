/** The shared base of the plugin's commandlets: the parsed command line,
    the paired help arrays and their printout, and the exit-code ladder of
    `Main` that ends in the derived commandlet's `Run`. */
module CommandletBase {
  import opened Wrappers
  import opened Text

  /** What the engine's command-line parser yields: plain tokens, `-switch`
      flags and `-key=value` parameters, in the order they were given (a key
      may repeat). */
  datatype CommandLine = CommandLine(
    tokens: seq<string>,
    switches: seq<string>,
    paramVals: seq<(string, string)>)

  /** `Switches.Contains(name)`: string arrays compare ignoring case. */
  predicate HasSwitch(cmd: CommandLine, name: string) {
    exists i :: 0 <= i < |cmd.switches| && EqualsIgnoreCase(cmd.switches[i], name)
  }

  /** The value `ParamVals.Find` returns for `key`. The parser stores each
      `-key=value` with `TMap::Add`, whose keys compare ignoring case and
      which replaces the value of a key already present, so the last
      matching parameter wins. */
  function FindParam(vals: seq<(string, string)>, key: string): (r: Option<string>)
    ensures r.None? <==> forall i :: 0 <= i < |vals| ==> !EqualsIgnoreCase(vals[i].0, key)
    ensures r.Some? ==> exists i :: && 0 <= i < |vals| && EqualsIgnoreCase(vals[i].0, key) && vals[i].1 == r.value
                                    && forall j :: i < j < |vals| ==> !EqualsIgnoreCase(vals[j].0, key)
    decreases |vals|
  {
    if |vals| == 0 then None
    else if EqualsIgnoreCase(vals[|vals| - 1].0, key) then Some(vals[|vals| - 1].1)
    else
      var r := FindParam(vals[..|vals| - 1], key);
      assert forall i :: 0 <= i < |vals| - 1 ==> vals[..|vals| - 1][i] == vals[i];
      r
  }

  /** A parameter of the command line. */
  function Param(cmd: CommandLine, key: string): Option<string> {
    FindParam(cmd.paramVals, key)
  }

  /** `ParamVals.FindRef`: the value, or the empty string when absent. */
  function FindRef(cmd: CommandLine, key: string): string {
    match Param(cmd, key)
    case None => ""
    case Some(v) => v
  }

  // ----- Help -----

  /** The printed help: description, usage, a header, then one line per
      parameter pairing its name with its description. */
  function HelpLines(description: string, usage: string, names: seq<string>, descriptions: seq<string>): (r: seq<string>)
    requires |names| == |descriptions|
    ensures |r| == 3 + |names|
  {
    [description, "Usage: " + usage, "Parameters:"]
      + seq(|names|, i requires 0 <= i < |names| => ParamLine(names[i], descriptions[i]))
  }

  /** One parameter's help line. */
  function ParamLine(name: string, description: string): string {
    "\t-" + name + ": " + description
  }

  /** The help fields every commandlet carries. */
  class CommandletHelp {
    var helpDescription: string
    var helpUsage: string
    var helpParamNames: seq<string>
    var helpParamDescriptions: seq<string>

    /** Names and descriptions are added in pairs. */
    ghost predicate Valid()
      reads this
    {
      |helpParamNames| == |helpParamDescriptions|
    }

    /** A plain commandlet: no help entries yet. */
    constructor Empty()
      ensures Valid()
      ensures helpDescription == "" && helpUsage == ""
      ensures helpParamNames == [] && helpParamDescriptions == []
    {
      helpDescription := "";
      helpUsage := "";
      helpParamNames := [];
      helpParamDescriptions := [];
    }

    /** The plugin's commandlet base: `output` and `help`, each with its
        description. */
    constructor ToolsBase()
      ensures Valid()
      ensures helpDescription == "" && helpUsage == ""
      ensures helpParamNames == ["output", "help"]
      ensures helpParamDescriptions == [OutputDescription, HelpDescription]
    {
      helpDescription := "";
      helpUsage := "";
      helpParamNames := ["output"];
      helpParamDescriptions := [OutputDescription];
      helpParamNames := helpParamNames + ["help"];
      helpParamDescriptions := helpParamDescriptions + [HelpDescription];
    }

    /** Adds one help entry as a name with its description. */
    method AddHelpParam(name: string, description: string)
      requires Valid()
      modifies this
      ensures Valid()
      ensures helpParamNames == old(helpParamNames) + [name]
      ensures helpParamDescriptions == old(helpParamDescriptions) + [description]
      ensures helpDescription == old(helpDescription) && helpUsage == old(helpUsage)
    {
      helpParamNames := helpParamNames + [name];
      helpParamDescriptions := helpParamDescriptions + [description];
    }

    /** Sets the description and usage text of a derived commandlet. */
    method SetUsage(description: string, usage: string)
      requires Valid()
      modifies this
      ensures Valid()
      ensures helpDescription == description && helpUsage == usage
      ensures helpParamNames == old(helpParamNames)
      ensures helpParamDescriptions == old(helpParamDescriptions)
    {
      helpDescription := description;
      helpUsage := usage;
    }

    /** Prints the help; the description index stays in range because the
        arrays are paired. */
    method PrintHelp() returns (lines: seq<string>)
      requires Valid()
      ensures lines == HelpLines(helpDescription, helpUsage, helpParamNames, helpParamDescriptions)
    {
      lines := [helpDescription, "Usage: " + helpUsage, "Parameters:"];
      for i := 0 to |helpParamNames|
        invariant |lines| == 3 + i
        invariant lines[..3] == [helpDescription, "Usage: " + helpUsage, "Parameters:"]
        invariant forall k :: 0 <= k < i ==> lines[3 + k] == ParamLine(helpParamNames[k], helpParamDescriptions[k])
      {
        lines := lines + [ParamLine(helpParamNames[i], helpParamDescriptions[i])];
      }
    }
  }

  const OutputDescription := "[Required] The file path to write the command output."
  const HelpDescription := "[Optional] Print this help message and quit the commandlet immediately."

  /** Help line `3 + i` names parameter `i` together with its own
      description. */
  lemma HelpLinesPair(description: string, usage: string, names: seq<string>, descriptions: seq<string>, i: nat)
    requires |names| == |descriptions| && i < |names|
    ensures HelpLines(description, usage, names, descriptions)[3 + i] == "\t-" + names[i] + ": " + descriptions[i]
  {
  }

  // ----- The exit-code ladder -----

  /** What the engine reports to `Main` besides the command line. */
  datatype Environment = Environment(
    projectFileSet: bool,
    // what `FParse::Value(Params, "output ", ...)` reads, if anything
    spacedOutput: Option<string>,
    // whether a file writer can be created at a path
    canCreateWriter: string -> bool)

  /** The output path: the `output` parameter when it is non-empty, else
      the value written after `output ` when there is one. */
  function OutputPath(cmd: CommandLine, env: Environment): (r: Option<string>)
    ensures Param(cmd, "output").Some? && Param(cmd, "output").value != "" ==> r == Param(cmd, "output")
    ensures FindRef(cmd, "output") == "" ==> r == env.spacedOutput
  {
    var fullPath := FindRef(cmd, "output");
    if fullPath != "" then Some(fullPath) else env.spacedOutput
  }

  /** How `Main` ends. */
  datatype MainOutcome =
    | HelpShown
    | MissingProject
    | MissingOutput
    | WriterFailed(path: string)
    | Ran(path: string)

  /** The ordered early returns of `Main`. */
  function MainStep(cmd: CommandLine, env: Environment): MainOutcome {
    if HasSwitch(cmd, "help") then HelpShown
    else if !env.projectFileSet then MissingProject
    else match OutputPath(cmd, env)
      case None => MissingOutput
      case Some(path) =>
        if !env.canCreateWriter(path) then WriterFailed(path) else Ran(path)
  }

  /** `Main`'s exit code, where `run` is the derived commandlet's `Run` on
      the command line and the writer for the output path. */
  function ExitCode(cmd: CommandLine, env: Environment, run: (CommandLine, string) -> int): (code: int)
    ensures HasSwitch(cmd, "help") ==> code == 0
    ensures !HasSwitch(cmd, "help") && !env.projectFileSet ==> code == -1
    ensures !HasSwitch(cmd, "help") && FindRef(cmd, "output") == "" && env.spacedOutput.None? ==> code == -1
  {
    match MainStep(cmd, env)
    case HelpShown => 0
    case Ran(path) => run(cmd, path)
    case _ => -1
  }

  /** `Run` is reached exactly when no help is requested, a project is set,
      an output path was found and a writer opens on it; its result is then
      `Main`'s result. */
  lemma MainRunsOnlyWithWriter(cmd: CommandLine, env: Environment, run: (CommandLine, string) -> int)
    ensures MainStep(cmd, env).Ran? <==>
      && !HasSwitch(cmd, "help")
      && env.projectFileSet
      && OutputPath(cmd, env).Some?
      && env.canCreateWriter(OutputPath(cmd, env).value)
    ensures MainStep(cmd, env).Ran? ==>
      && MainStep(cmd, env).path == OutputPath(cmd, env).value
      && ExitCode(cmd, env, run) == run(cmd, MainStep(cmd, env).path)
    ensures !MainStep(cmd, env).Ran? ==> ExitCode(cmd, env, run) == (if HasSwitch(cmd, "help") then 0 else -1)
  {
  }

  /** The help switch wins whatever else is on the command line. */
  lemma HelpFirst(cmd: CommandLine, env: Environment, env': Environment, run: (CommandLine, string) -> int)
    requires HasSwitch(cmd, "help")
    ensures ExitCode(cmd, env, run) == 0 && ExitCode(cmd, env', run) == 0
  {
  }
}
