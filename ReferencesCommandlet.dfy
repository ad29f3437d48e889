/** The Blueprint references commandlet: given `Class::Function`, it finds
    the Blueprints whose call graph calls that native function and writes
    them, with the number of candidate assets searched, as JSON. */
module BlueprintReferencesCommandlet {
  import opened Wrappers
  import opened Text
  import opened Json
  import OrderedMap
  import opened CommandletBase

  // ----- Class prefixes -----

  /** The literal that marks a deprecated class after its prefix letter. */
  const Deprecated := "DEPRECATED_"

  /** How many leading characters `StripClassPrefix` removes. */
  function PrefixSize(name: string): (n: nat)
    requires |name| > 0
  {
    match name[0]
    case 'I' | 'A' | 'U' =>
      if |name| > 12 && name[1..12] == Deprecated then 12 else 1
    case 'F' | 'T' => 1
    case _ => 0
  }

  /** The class name without its engine prefix letter (and the deprecated
      marker after it). */
  function StripClassPrefix(name: string): (r: string)
    ensures |name| == 0 ==> r == ""
    ensures |r| <= |name| && r == name[|name| - |r|..]
    ensures |name| - |r| in {0, 1, 12}
    ensures |name| > 0 && name[0] !in "IAUFT" ==> r == name
    ensures |name| > 0 && name[0] in "FT" ==> r == name[1..]
    ensures |name| > 0 && name[0] in "IAU" ==>
      r == (if |name| > 12 && name[1..12] == Deprecated then name[12..] else name[1..])
  {
    if |name| == 0 then name else name[PrefixSize(name)..]
  }

  /** Stripping undoes the prefix the engine writes in front of a name:
      one letter for classes, interfaces, actors and structs, plus the
      deprecated marker for deprecated classes. */
  lemma StripAddedPrefix(prefix: char, name: string)
    requires prefix in "IAUFT"
    requires prefix in "IAU" ==> !(|name| > 11 && name[..11] == Deprecated)
    ensures StripClassPrefix([prefix] + name) == name
  {
    var s := [prefix] + name;
    assert s[1..] == name;
    if prefix in "IAU" && |s| > 12 {
      assert s[1..12] == name[..11];
    }
  }

  /** A deprecated class name loses its letter and its marker. */
  lemma StripDeprecatedPrefix(prefix: char, name: string)
    requires prefix in "IAU" && |name| > 0
    ensures StripClassPrefix([prefix] + Deprecated + name) == name
  {
    var s := [prefix] + Deprecated + name;
    assert s[1..12] == Deprecated;
    assert s[12..] == name;
  }

  // ----- The symbol -----

  /** `Class::Function` split at the first `::`. */
  function SplitSymbol(symbol: string): (r: Option<(string, string)>)
    ensures r.None? <==> !IsSubstring("::", symbol)
    ensures r.Some? ==> symbol == r.value.0 + "::" + r.value.1
  {
    SplitFirst(symbol, "::")
  }

  /** A class without `:` and a function name are split back apart. */
  lemma SplitSymbolJoin(className: string, functionName: string)
    requires ':' !in className
    ensures SplitSymbol(className + "::" + functionName) == Some((className, functionName))
  {
    var p := className + "::"[..1];
    forall j | 0 <= j <= |p| - 2
      ensures !OccursAt(p, "::", j)
    {
      assert p[j] == className[j];
    }
    SplitFirstJoin(className, "::", functionName);
  }

  const QueryHead := "Nodes(\"Native Name\"=+"
  const QueryTail := " & ClassName=K2Node_CallFunction)"

  /** The Find-in-Blueprints query: call-function nodes whose native name
      matches the function; the class plays no part. */
  function SearchQuery(functionName: string): (q: string)
    ensures |q| == |QueryHead| + |functionName| + |QueryTail|
    ensures q[..|QueryHead|] == QueryHead
    ensures q[|QueryHead|..|QueryHead| + |functionName|] == functionName
    ensures q[|QueryHead| + |functionName|..] == QueryTail
  {
    QueryHead + functionName + QueryTail
  }

  /** The function name read back out of a query. */
  function QueriedFunction(q: string): string
    requires |q| >= |QueryHead| + |QueryTail|
  {
    q[|QueryHead|..|q| - |QueryTail|]
  }

  /** Two queries are equal exactly when their function names are. */
  lemma SearchQueryInjective(f: string, g: string)
    ensures SearchQuery(f) == SearchQuery(g) <==> f == g
  {
    if SearchQuery(f) == SearchQuery(g) {
      assert QueriedFunction(SearchQuery(f)) == f;
      assert QueriedFunction(SearchQuery(g)) == g;
    }
  }

  // ----- Confirming candidates -----

  /** A function in a Blueprint's call graph. */
  datatype CalledFunction = CalledFunction(name: string, isNative: bool, ownerClass: string)

  /** A Blueprint generated class as loaded from an asset. */
  datatype LoadedBlueprint = LoadedBlueprint(className: string, calledFunctions: seq<CalledFunction>)

  /** An asset registry record; its object path is how the loader finds it. */
  datatype AssetData = AssetData(objectPath: string, packageName: string)

  /** A called function is the requested one: native, with the requested
      name and owned by the requested class (names compare ignoring case). */
  predicate Matches(f: CalledFunction, functionName: string, className: string) {
    && f.isNative
    && EqualsIgnoreCase(f.name, functionName)
    && EqualsIgnoreCase(f.ownerClass, className)
  }

  /** Some function of the call graph is the requested one. */
  predicate CallsFunction(bp: LoadedBlueprint, functionName: string, className: string) {
    exists i :: 0 <= i < |bp.calledFunctions| && Matches(bp.calledFunctions[i], functionName, className)
  }

  /** The confirmed assets keyed by Blueprint class name, over the assets in
      order: assets that fail to load are skipped; a later asset with the
      same class name replaces the earlier one in place. */
  function Confirmed(functionName: string, className: string, assets: seq<AssetData>,
                     load: AssetData -> Option<LoadedBlueprint>): OrderedMap.Entries<AssetData>
    decreases |assets|
  {
    if |assets| == 0 then []
    else
      var results := Confirmed(functionName, className, assets[..|assets| - 1], load);
      var asset := assets[|assets| - 1];
      match load(asset)
      case Some(bp) =>
        if CallsFunction(bp, functionName, className) then OrderedMap.Put(results, bp.className, asset)
        else results
      case None => results
  }

  /** The predicate loop over one call graph (`Algo::FindByPredicate`). */
  method FindMatchingFunction(bp: LoadedBlueprint, functionName: string, className: string) returns (found: bool)
    ensures found == CallsFunction(bp, functionName, className)
  {
    found := false;
    var i := 0;
    while i < |bp.calledFunctions| && !found
      invariant 0 <= i <= |bp.calledFunctions|
      invariant found == exists k :: 0 <= k < i && Matches(bp.calledFunctions[k], functionName, className)
    {
      found := Matches(bp.calledFunctions[i], functionName, className);
      i := i + 1;
    }
  }

  /** The asset loop of `GetConfirmedAssets`. */
  method GetConfirmedAssets(functionName: string, className: string, assets: seq<AssetData>,
                            load: AssetData -> Option<LoadedBlueprint>)
    returns (results: OrderedMap.Entries<AssetData>)
    ensures results == Confirmed(functionName, className, assets, load)
  {
    results := [];
    for idx := 0 to |assets|
      invariant results == Confirmed(functionName, className, assets[..idx], load)
    {
      assert assets[..idx + 1][..idx] == assets[..idx];
      var loaded := load(assets[idx]);
      if loaded.Some? {
        var matching := FindMatchingFunction(loaded.value, functionName, className);
        if matching {
          results := OrderedMap.Put(results, loaded.value.className, assets[idx]);
        }
      }
    }
    assert assets[..|assets|] == assets;
  }

  /** The asset confirmed last under Blueprint class name `name`. */
  function LastConfirming(functionName: string, className: string, assets: seq<AssetData>,
                          load: AssetData -> Option<LoadedBlueprint>, name: string): (r: Option<AssetData>)
    ensures r.Some? ==>
      exists i :: (0 <= i < |assets| && assets[i] == r.value
        && ConfirmsAs(load(assets[i]), functionName, className, name)
        && forall j :: i < j < |assets| ==> !ConfirmsAs(load(assets[j]), functionName, className, name))
    ensures r.None? ==> forall i :: 0 <= i < |assets| ==> !ConfirmsAs(load(assets[i]), functionName, className, name)
    decreases |assets|
  {
    if |assets| == 0 then None
    else if ConfirmsAs(load(assets[|assets| - 1]), functionName, className, name) then Some(assets[|assets| - 1])
    else
      var r := LastConfirming(functionName, className, assets[..|assets| - 1], load, name);
      assert forall i :: 0 <= i < |assets| - 1 ==> assets[..|assets| - 1][i] == assets[i];
      r
  }

  /** The asset loads to a Blueprint named `name` that calls the function. */
  predicate ConfirmsAs(loaded: Option<LoadedBlueprint>, functionName: string, className: string, name: string) {
    loaded.Some? && loaded.value.className == name && CallsFunction(loaded.value, functionName, className)
  }

  /** Each Blueprint class name appears once in the results, and under each
      name sits the last asset that loads to a Blueprint of that name calling
      the function; names without such an asset are absent. */
  lemma {:induction false} ConfirmedContents(functionName: string, className: string, assets: seq<AssetData>,
                                             load: AssetData -> Option<LoadedBlueprint>)
    ensures OrderedMap.UniqueKeys(Confirmed(functionName, className, assets, load))
    ensures forall name :: OrderedMap.Get(Confirmed(functionName, className, assets, load), name)
                           == LastConfirming(functionName, className, assets, load, name)
    decreases |assets|
  {
    if |assets| > 0 {
      var init := assets[..|assets| - 1];
      var last := assets[|assets| - 1];
      ConfirmedContents(functionName, className, init, load);
      var prev := Confirmed(functionName, className, init, load);
      match load(last)
      case Some(bp) =>
        if CallsFunction(bp, functionName, className) {
          OrderedMap.PutGet(prev, bp.className, last);
        }
      case None =>
    }
  }

  // ----- Output -----

  /** `{"blueprints":[{name,path}...],"metadata":{"asset_count":N}}`; the
      path is what the package-file lookup yields for the asset. */
  function Results(matches: OrderedMap.Entries<AssetData>, totalAssetCount: int, packageFile: AssetData -> string): Json {
    Object([
      ("blueprints", Array(seq(|matches|, i requires 0 <= i < |matches| =>
        Object([("name", String(matches[i].0)), ("path", String(packageFile(matches[i].1)))])))),
      ("metadata", Object([("asset_count", Number(totalAssetCount))]))])
  }

  /** The document has exactly the two sections, one reference per match
      with its name and path, and the candidate count. */
  lemma ResultsShape(matches: OrderedMap.Entries<AssetData>, totalAssetCount: int, packageFile: AssetData -> string)
    ensures OrderedMap.Keys(Results(matches, totalAssetCount, packageFile).members) == ["blueprints", "metadata"]
    ensures Get(Results(matches, totalAssetCount, packageFile), "metadata") == Some(Object([("asset_count", Number(totalAssetCount))]))
    ensures Get(Results(matches, totalAssetCount, packageFile), "blueprints").Some?
    ensures var b := Get(Results(matches, totalAssetCount, packageFile), "blueprints").value;
      && b.Array? && |b.items| == |matches|
      && forall i :: 0 <= i < |matches| ==>
           && OrderedMap.Keys(b.items[i].members) == ["name", "path"]
           && Get(b.items[i], "name") == Some(String(matches[i].0))
  {
    var doc := Results(matches, totalAssetCount, packageFile);
    assert doc.members[0].0 == "blueprints";
    var b := doc.members[0].1;
    forall i | 0 <= i < |matches|
      ensures OrderedMap.Keys(b.items[i].members) == ["name", "path"]
      ensures Get(b.items[i], "name") == Some(String(matches[i].0))
    {
      assert b.items[i].members[0] == ("name", String(matches[i].0));
    }
  }

  // ----- Run -----

  /** The engine services `Run` relies on: the Find-in-Blueprints search,
      the asset loader and the package-file lookup. */
  datatype Engine = Engine(
    searchCandidates: string -> seq<AssetData>,
    load: AssetData -> Option<LoadedBlueprint>,
    packageFile: AssetData -> string)

  /** The document `Run` writes for a well-formed symbol. */
  function Report(className: string, functionName: string, engine: Engine): Json {
    var candidates := engine.searchCandidates(SearchQuery(functionName));
    Results(Confirmed(functionName, StripClassPrefix(className), candidates, engine.load),
            |candidates|, engine.packageFile)
  }

  /** `Run`: rejects an empty symbol and one without `::` with -1 before
      searching; otherwise searches by function name, confirms by class
      and function, writes the report and returns 0. */
  method Run(cmd: CommandLine, engine: Engine) returns (code: int, written: Option<Json>)
    requires Param(cmd, "symbol").Some?
    ensures code == 0 || code == -1
    ensures code == -1 <==> Param(cmd, "symbol").value == "" || SplitSymbol(Param(cmd, "symbol").value).None?
    ensures code == -1 ==> written.None?
    ensures code == 0 ==>
      var parts := SplitSymbol(Param(cmd, "symbol").value).value;
      written == Some(Report(parts.0, parts.1, engine))
  {
    var symbol := Param(cmd, "symbol").value;
    if symbol == "" {
      return -1, None;
    }
    var split := SplitSymbol(symbol);
    if split.None? {
      return -1, None;
    }
    var (classNameNative, functionName) := split.value;
    var classNameWithoutPrefix := StripClassPrefix(classNameNative);
    var searchValue := SearchQuery(functionName);
    var targetAssets := engine.searchCandidates(searchValue);
    var matchAssets := GetConfirmedAssets(functionName, classNameWithoutPrefix, targetAssets, engine.load);
    written := Some(Results(matchAssets, |targetAssets|, engine.packageFile));
    code := 0;
  }

  const CommandletDescription := "Commandlet for generating data used by Blueprint support in Visual Studio."
  const CommandletUsage := "<Editor-Cmd.exe> <path_to_uproject> -run=VsBlueprintReferences -output=<path_to_output_file> -symbol=<ClassName::FunctionName> [-unattended -noshadercompile -nosound -nullrhi -nocpuprofilertrace -nocrashreports -nosplash]"
  const SymbolDescription := "[Optional] Fully qualified symbol to search for in the blueprints."

  /** The constructor: the base's help entries followed by `symbol`. */
  method NewCommandlet() returns (help: CommandletHelp)
    ensures fresh(help) && help.Valid()
    ensures help.helpDescription == CommandletDescription && help.helpUsage == CommandletUsage
    ensures help.helpParamNames == ["output", "help", "symbol"]
    ensures help.helpParamDescriptions == [OutputDescription, HelpDescription, SymbolDescription]
  {
    help := new CommandletHelp.ToolsBase();
    help.SetUsage(CommandletDescription, CommandletUsage);
    help.AddHelpParam("symbol", SymbolDescription);
  }
}
