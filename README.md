# Visual Studio tools for Unreal Engine — verified model

This project models the core of the Unreal Engine plugin that Visual Studio
uses to talk to an Unreal project, and proves properties of that model in
Dafny. It has two halves.

**The Blueprint debugger helper.** This editor module listens to three engine
events. It keeps a global runtime index that a native debugger reads
directly:

- The running Blueprints: one entry per Blueprint asset, each holding a stack
  of node frames.
  - Each frame carries the script-entry tag it was pushed under.
  - Each frame carries one pin snapshot per graph pin.
- A map from a Blueprint function to the label of the node last stopped at
  in it.

The three events act as follows:

- A breakpoint or tracepoint exception records a hit.
- Entering a script context remembers the entry tag.
- Leaving a script context purges every frame, entry and label made under
  that tag.

**The commandlets.** These are batch entry points run by the editor. They
share one base: help text, and an exit-code ladder of `-help`, project set,
output path, writer, then `Run`.

- `VisualStudioTools` indexes which Blueprints derive from which native
  classes. For each class it records which properties they override and
  which functions they implement. It writes the result as JSON.
- `VsBlueprintReferences` finds the Blueprints that call a native
  `Class::Function`. It searches for candidates by function name, then
  confirms each candidate by loading its call graph.
- `VSTestAdapter` lists the automation tests, or runs a selected list of
  them. It writes one result line per test.

**How the model is organised.**

- Helper modules:
  - `Text` holds `FString` comparison, searching, splitting and number
    printing.
  - `Json` is a JSON tree.
  - `OrderedMap` is an insertion-ordered `TMap`.
- The debugger tracker is a class whose fields are the global index and the
  module's current tag. Its event handlers are methods, each proved against
  pure functions on those fields.
- Each commandlet's loops are methods, each proved equal to a specification
  function. The lemmas prove what the source promises about those functions.
- The engine services are parameters of the model:
  - the asset registry and the Find-in-Blueprints search;
  - the Blueprint loader and the property-value reader;
  - the automation framework and the file system.

## Model

| member | source | states |
|---|---|---|
| `BlueprintDebuggerHelper.BlueprintIndex` | Source/VisualStudioBlueprintDebuggerHelper/Private/VisualStudioBlueprintDebuggerHelperModule.cpp:194-196 | finds the first running entry of the Blueprint, or reports that none exists |
| `BlueprintDebuggerHelper.PinIndex` | Source/VisualStudioBlueprintDebuggerHelper/Private/VisualStudioBlueprintDebuggerHelperModule.cpp:232-234 | finds the first snapshot of the pin on the frame, or reports that none exists |
| `BlueprintDebuggerHelper.RemoveFramesTagged` | Source/VisualStudioBlueprintDebuggerHelper/Private/VisualStudioBlueprintDebuggerHelperModule.cpp:126-132 | the frame-removal loop leaves exactly the frames not made under the tag, in order |
| `BlueprintDebuggerHelper.RemoveEntriesTagged` | Source/VisualStudioBlueprintDebuggerHelper/Private/VisualStudioBlueprintDebuggerHelperModule.cpp:123-138 | the entry loop purges each entry's frames and drops entries left with no frames |
| `BlueprintDebuggerHelper.RemoveRecordsTagged` | Source/VisualStudioBlueprintDebuggerHelper/Private/VisualStudioBlueprintDebuggerHelperModule.cpp:140-150 | the erase loop leaves exactly the stack-frame labels made under another tag |
| `BlueprintDebuggerHelper.UpdatePins` | Source/VisualStudioBlueprintDebuggerHelper/Private/VisualStudioBlueprintDebuggerHelperModule.cpp:223-244 | the pin loop skips unreadable pins, overwrites a known pin's snapshot in place and appends a new pin's |
| `BlueprintDebuggerHelper.TrackHit` | Source/VisualStudioBlueprintDebuggerHelper/Private/VisualStudioBlueprintDebuggerHelperModule.cpp:194-244 | finds or adds the Blueprint's entry, pushes or reuses the top frame and records the pins |
| `BlueprintDebuggerHelper.DebuggerHelper.StartupModule` | Source/VisualStudioBlueprintDebuggerHelper/Private/VisualStudioBlueprintDebuggerHelperModule.cpp:79-94 | the tag starts at zero and the index is empty |
| `BlueprintDebuggerHelper.DebuggerHelper.OnEnterScriptContext` | Source/VisualStudioBlueprintDebuggerHelper/Private/VisualStudioBlueprintDebuggerHelperModule.cpp:103-114 | on the game thread the tag becomes the context's tag; elsewhere nothing changes; the index is never touched |
| `BlueprintDebuggerHelper.DebuggerHelper.OnExitScriptContext` | Source/VisualStudioBlueprintDebuggerHelper/Private/VisualStudioBlueprintDebuggerHelperModule.cpp:116-153 | on the game thread it purges frames, entries and labels of the context's tag and decrements the tag, keeping the index well formed; elsewhere nothing changes |
| `BlueprintDebuggerHelper.DebuggerHelper.OnScriptException` | Source/VisualStudioBlueprintDebuggerHelper/Private/VisualStudioBlueprintDebuggerHelperModule.cpp:155-245 | ignores other exception kinds and unresolvable frames; otherwise records the label under the function and the hit in the running entries, keeping the index well formed |
| `BlueprintDebuggerHelper.StampPinUnique` | Source/VisualStudioBlueprintDebuggerHelper/Private/VisualStudioBlueprintDebuggerHelperModule.cpp:232-243 | recording one pin never duplicates a pin on the frame |
| `BlueprintDebuggerHelper.RecordPinsUnique` | Source/VisualStudioBlueprintDebuggerHelper/Private/VisualStudioBlueprintDebuggerHelperModule.cpp:224-244 | the whole pin loop keeps each pin at most once on the frame |
| `BlueprintDebuggerHelper.StampPinInPlace` | Source/VisualStudioBlueprintDebuggerHelper/Private/VisualStudioBlueprintDebuggerHelperModule.cpp:236-243 | a known pin is overwritten at its position with everything else unchanged; an unknown pin is appended |
| `BlueprintDebuggerHelper.RecordPinsContents` | Source/VisualStudioBlueprintDebuggerHelper/Private/VisualStudioBlueprintDebuggerHelperModule.cpp:224-244 | every readable graph pin holds its current value; old pins keep their positions; every entry is a value just read or an old snapshot left in place |
| `BlueprintDebuggerHelper.HitStackPins` | Source/VisualStudioBlueprintDebuggerHelper/Private/VisualStudioBlueprintDebuggerHelperModule.cpp:209-244 | a hit keeps every frame's pins unique |
| `BlueprintDebuggerHelper.HitStackRule` | Source/VisualStudioBlueprintDebuggerHelper/Private/VisualStudioBlueprintDebuggerHelperModule.cpp:209-244 | a frame is pushed exactly when the stack is empty or its top is another node; the top is then the hit node, lower frames are unchanged, and the pins are recorded on the top |
| `BlueprintDebuggerHelper.RecordHitEntries` | Source/VisualStudioBlueprintDebuggerHelper/Private/VisualStudioBlueprintDebuggerHelperModule.cpp:194-221 | an unknown Blueprint gets a new entry at the end; a known one has its entry updated in place; other entries are untouched; Blueprints stay unique |
| `BlueprintDebuggerHelper.RecordHitWellFormed` | Source/VisualStudioBlueprintDebuggerHelper/Private/VisualStudioBlueprintDebuggerHelperModule.cpp:194-244 | recording a hit preserves the index invariant: unique Blueprints, non-empty stacks, unique pins |
| `BlueprintDebuggerHelper.PurgeFramesAppend` | Source/VisualStudioBlueprintDebuggerHelper/Private/VisualStudioBlueprintDebuggerHelperModule.cpp:126-132 | purging frames distributes over concatenation |
| `BlueprintDebuggerHelper.PurgeFramesMembers` | Source/VisualStudioBlueprintDebuggerHelper/Private/VisualStudioBlueprintDebuggerHelperModule.cpp:126-132 | a frame survives exactly when it is not tagged with the context's tag |
| `BlueprintDebuggerHelper.PurgeBlueprintsAppend` | Source/VisualStudioBlueprintDebuggerHelper/Private/VisualStudioBlueprintDebuggerHelperModule.cpp:123-138 | purging entries distributes over concatenation |
| `BlueprintDebuggerHelper.PurgeBlueprintsOrigin` | Source/VisualStudioBlueprintDebuggerHelper/Private/VisualStudioBlueprintDebuggerHelperModule.cpp:123-138 | every surviving entry is an original entry with its frames purged |
| `BlueprintDebuggerHelper.PurgeBlueprintsKeeps` | Source/VisualStudioBlueprintDebuggerHelper/Private/VisualStudioBlueprintDebuggerHelperModule.cpp:134-137 | an entry with frames left after the purge survives |
| `BlueprintDebuggerHelper.PurgeBlueprintsNoTag` | Source/VisualStudioBlueprintDebuggerHelper/Private/VisualStudioBlueprintDebuggerHelperModule.cpp:128-131 | no frame made under the exited tag remains |
| `BlueprintDebuggerHelper.PurgeBlueprintsUnique` | Source/VisualStudioBlueprintDebuggerHelper/Private/VisualStudioBlueprintDebuggerHelperModule.cpp:123-138 | purging keeps Blueprints unique |
| `BlueprintDebuggerHelper.PurgeBlueprintsWellFormed` | Source/VisualStudioBlueprintDebuggerHelper/Private/VisualStudioBlueprintDebuggerHelperModule.cpp:123-138 | purging preserves the index invariant |
| `BlueprintDebuggerHelper.PurgeRecordsContents` | Source/VisualStudioBlueprintDebuggerHelper/Private/VisualStudioBlueprintDebuggerHelperModule.cpp:140-150 | a label survives exactly when its tag differs, and with its value unchanged |
| `BlueprintDebuggerHelper.NestedExitsClearStack` | Source/VisualStudioBlueprintDebuggerHelper/Private/VisualStudioBlueprintDebuggerHelperModule.cpp:116-153 | leaving an inner and then an outer context clears a stack built only under those two tags |
| `BlueprintDebuggerHelper.PurgeBlueprintsOfCleared` | Source/VisualStudioBlueprintDebuggerHelper/Private/VisualStudioBlueprintDebuggerHelperModule.cpp:134-137 | when every stack empties, no entry remains |
| `BlueprintDebuggerHelper.NestedExitsLeaveNothing` | Source/VisualStudioBlueprintDebuggerHelper/Private/VisualStudioBlueprintDebuggerHelperModule.cpp:116-153 | two nested exits remove every entry recorded under the two tags |
| `CommandletBase.FindParam` | Source/VisualStudioTools/Private/VisualStudioToolsCommandletBase.cpp:47-65 | a parameter is found exactly when some key equals it ignoring case; the value is that of the last such key, as `TMap::Add` in the parser replaces earlier values |
| `CommandletBase.HelpLines` | Source/VisualStudioTools/Private/VisualStudioToolsCommandletBase.cpp:32-41 | the help is three header lines plus one line per parameter |
| `CommandletBase.HelpLinesPair` | Source/VisualStudioTools/Private/VisualStudioToolsCommandletBase.cpp:37-40 | the i-th parameter line pairs the i-th name with the i-th description |
| `CommandletBase.CommandletHelp.Empty` | Source/VisualStudioTools/Private/VSTestAdapterCommandlet.cpp:170-189 | a commandlet not derived from the base starts with no help entries |
| `CommandletBase.CommandletHelp.ToolsBase` | Source/VisualStudioTools/Private/VisualStudioToolsCommandletBase.cpp:17-30 | the base registers `output` and then `help`, each with its description |
| `CommandletBase.CommandletHelp.AddHelpParam` | Source/VisualStudioTools/Private/VisualStudioToolsCommandletBase.cpp:25-29 | a name and its description are appended together, so the arrays stay paired |
| `CommandletBase.CommandletHelp.SetUsage` | Source/VisualStudioTools/Private/BlueprintReferencesCommandlet.cpp:189-194 | sets the description and usage and leaves the parameters alone |
| `CommandletBase.CommandletHelp.PrintHelp` | Source/VisualStudioTools/Private/VisualStudioToolsCommandletBase.cpp:32-41 | the printed lines are the help lines of the current fields |
| `CommandletBase.OutputPath` | Source/VisualStudioTools/Private/VisualStudioToolsCommandletBase.cpp:65-78 | a non-empty `-output=` value wins; otherwise the `-output <path>` spelling is used |
| `CommandletBase.ExitCode` | Source/VisualStudioTools/Private/VisualStudioToolsCommandletBase.cpp:43-88 | `-help` returns 0; a missing project file or a missing output path returns -1 |
| `CommandletBase.MainRunsOnlyWithWriter` | Source/VisualStudioTools/Private/VisualStudioToolsCommandletBase.cpp:51-87 | `Run` is reached exactly when there is no `-help`, the project is set, a path is found and a writer opens; otherwise the code is 0 for help and -1 otherwise |
| `CommandletBase.HelpFirst` | Source/VisualStudioTools/Private/VisualStudioToolsCommandletBase.cpp:51-55 | `-help` returns 0 whatever the environment |
| `BlueprintReferencesCommandlet.StripClassPrefix` | Source/VisualStudioTools/Private/BlueprintReferencesCommandlet.cpp:20-56 | removes a suffix-preserving prefix of 0, 1 or 12 characters: `I`/`A`/`U` with or without `DEPRECATED_`, `F`/`T`, or nothing |
| `BlueprintReferencesCommandlet.StripAddedPrefix` | Source/VisualStudioTools/Private/BlueprintReferencesCommandlet.cpp:29-55 | stripping undoes adding one prefix letter |
| `BlueprintReferencesCommandlet.StripDeprecatedPrefix` | Source/VisualStudioTools/Private/BlueprintReferencesCommandlet.cpp:32-44 | stripping undoes adding a class letter with `DEPRECATED_` |
| `BlueprintReferencesCommandlet.SplitSymbol` | Source/VisualStudioTools/Private/BlueprintReferencesCommandlet.cpp:214-221 | the split fails exactly when `::` is absent; otherwise the parts rejoin to the symbol |
| `BlueprintReferencesCommandlet.SplitSymbolJoin` | Source/VisualStudioTools/Private/BlueprintReferencesCommandlet.cpp:214-221 | a class name without `:` joined to a function name by `::` splits back into the two |
| `BlueprintReferencesCommandlet.SearchQuery` | Source/VisualStudioTools/Private/BlueprintReferencesCommandlet.cpp:233 | the query is the fixed head, the function name and the fixed tail |
| `BlueprintReferencesCommandlet.SearchQueryInjective` | Source/VisualStudioTools/Private/BlueprintReferencesCommandlet.cpp:233 | distinct function names give distinct queries |
| `BlueprintReferencesCommandlet.FindMatchingFunction` | Source/VisualStudioTools/Private/BlueprintReferencesCommandlet.cpp:105-111 | finds a function exactly when the call graph holds a native function of that name owned by that class |
| `BlueprintReferencesCommandlet.GetConfirmedAssets` | Source/VisualStudioTools/Private/BlueprintReferencesCommandlet.cpp:97-120 | the asset loop builds the confirmed map |
| `BlueprintReferencesCommandlet.LastConfirming` | Source/VisualStudioTools/Private/BlueprintReferencesCommandlet.cpp:113-116 | the last asset loading to that Blueprint and calling the function, or none |
| `BlueprintReferencesCommandlet.ConfirmedContents` | Source/VisualStudioTools/Private/BlueprintReferencesCommandlet.cpp:97-120 | the results hold each Blueprint name once, mapped to the last confirming asset of that name, and no other name |
| `BlueprintReferencesCommandlet.ResultsShape` | Source/VisualStudioTools/Private/BlueprintReferencesCommandlet.cpp:123-181 | the document has `blueprints` then `metadata`; one `{name, path}` per match in map order; `asset_count` is the number of candidates |
| `BlueprintReferencesCommandlet.Run` | Source/VisualStudioTools/Private/BlueprintReferencesCommandlet.cpp:197-248 | returns -1 with nothing written exactly when the symbol is empty or lacks `::`; otherwise writes the report for the stripped class and the function and returns 0 |
| `BlueprintReferencesCommandlet.NewCommandlet` | Source/VisualStudioTools/Private/BlueprintReferencesCommandlet.cpp:186-195 | the help is the base's entries followed by `symbol`, with this commandlet's description and usage |
| `VSTestAdapterCommandlet.Toggle` | Source/VisualStudioTools/Private/VSTestAdapterCommandlet.cpp:222-229 | one keyword test leaves the flag's bits all set or all clear as the keyword's presence says, and every other bit of the mask unchanged |
| `VSTestAdapterCommandlet.ComputeFilter` | Source/VisualStudioTools/Private/VSTestAdapterCommandlet.cpp:216-275 | the filter computation yields the requested filter |
| `VSTestAdapterCommandlet.RequestedFilterBits` | Source/VisualStudioTools/Private/VSTestAdapterCommandlet.cpp:216-275 | with `-filters` each flag is set exactly when its keyword occurs, ignoring case, and no other bit is set; without it every flag except engine is set |
| `VSTestAdapterCommandlet.SelectTests` | Source/VisualStudioTools/Private/VSTestAdapterCommandlet.cpp:48-55 | selection never lengthens the list |
| `VSTestAdapterCommandlet.CollectCommands` | Source/VisualStudioTools/Private/VSTestAdapterCommandlet.cpp:38-45 | the read loop collects the non-empty lines |
| `VSTestAdapterCommandlet.ReadTestsFromFile` | Source/VisualStudioTools/Private/VSTestAdapterCommandlet.cpp:25-56 | a file that fails to open leaves the list as it was; otherwise the backwards removal loop keeps, in order, the tests named in the file |
| `VSTestAdapterCommandlet.RemovalStep` | Source/VisualStudioTools/Private/VSTestAdapterCommandlet.cpp:49-55 | one step of the backwards loop extends the selected suffix by one position |
| `VSTestAdapterCommandlet.SelectTestsMembers` | Source/VisualStudioTools/Private/VSTestAdapterCommandlet.cpp:48-55 | a test is kept exactly when it is listed and its name matches a non-empty line, ignoring case |
| `VSTestAdapterCommandlet.SelectTestsAppend` | Source/VisualStudioTools/Private/VSTestAdapterCommandlet.cpp:48-55 | selection distributes over concatenation |
| `VSTestAdapterCommandlet.ListLineFields` | Source/VisualStudioTools/Private/VSTestAdapterCommandlet.cpp:79 | a list line splits on `\|` back into name, display name, line number and file |
| `VSTestAdapterCommandlet.ListTests` | Source/VisualStudioTools/Private/VSTestAdapterCommandlet.cpp:58-86 | an unopenable file returns 1 and writes nothing; otherwise it writes one line per test the framework reports under the requested filter, in order, and returns 0 |
| `VSTestAdapterCommandlet.WriteErrors` | Source/VisualStudioTools/Private/VSTestAdapterCommandlet.cpp:152-159 | writes the messages of the error events, in order |
| `VSTestAdapterCommandlet.SelectedTests` | Source/VisualStudioTools/Private/VSTestAdapterCommandlet.cpp:97-105 | `All` (ignoring case) selects every test; any other value reads the list file |
| `VSTestAdapterCommandlet.RunOne` | Source/VisualStudioTools/Private/VSTestAdapterCommandlet.cpp:141-162 | a test succeeds when it stops cleanly with no errors; its result line is followed by its error messages only on failure |
| `VSTestAdapterCommandlet.RunTests` | Source/VisualStudioTools/Private/VSTestAdapterCommandlet.cpp:88-168 | an unopenable file returns 1; otherwise it writes the run report of the selection and returns 0 exactly when all tests succeeded |
| `VSTestAdapterCommandlet.RunReportLines` | Source/VisualStudioTools/Private/VSTestAdapterCommandlet.cpp:111-165 | every selected test has its result line in the report, and an empty selection succeeds with an empty report |
| `VSTestAdapterCommandlet.ResultLineFields` | Source/VisualStudioTools/Private/VSTestAdapterCommandlet.cpp:148 | a result line splits on `\|` into the tagged name, display name, `OK`/`FAIL` and duration |
| `VSTestAdapterCommandlet.Execute` | Source/VisualStudioTools/Private/VSTestAdapterCommandlet.cpp:202-289 | `-help=` returns 0; otherwise it requests the filter, then lists (one line per test under that filter), runs when both files are given (1 when the results file cannot be opened, else the report and 0 exactly when all passed), or returns 1 |
| `VSTestAdapterCommandlet.NewCommandlet` | Source/VisualStudioTools/Private/VSTestAdapterCommandlet.cpp:170-189 | the five help entries in order, with this commandlet's description and usage |
| `VisualStudioToolsCommandlet.DiffersFromDefault` | Source/VisualStudioTools/Private/VisualStudioToolsCommandlet.cpp:33-43 | one element comparison decides whether the property is changed |
| `VisualStudioToolsCommandlet.GetChangedPropertiesList` | Source/VisualStudioTools/Private/VisualStudioToolsCommandlet.cpp:23-48 | the property loop yields the changed properties in declaration order |
| `VisualStudioToolsCommandlet.ChangedPropertiesMembers` | Source/VisualStudioTools/Private/VisualStudioToolsCommandlet.cpp:31-44 | a property is listed exactly when the class declares it and some element differs from the default |
| `VisualStudioToolsCommandlet.ChangedPropertiesUnique` | Source/VisualStudioTools/Private/VisualStudioToolsCommandlet.cpp:31-44 | distinct declared names give distinct changed names |
| `VisualStudioToolsCommandlet.FindBlueprintNativeParents` | Source/VisualStudioTools/Private/VisualStudioToolsCommandlet.cpp:50-65 | the super-class walk yields the native parents, in order, and reports whether there are any |
| `VisualStudioToolsCommandlet.NativeParentsMembers` | Source/VisualStudioTools/Private/VisualStudioToolsCommandlet.cpp:53-64 | a class is listed exactly when it is a native super-class |
| `VisualStudioToolsCommandlet.NativeParentsAppend` | Source/VisualStudioTools/Private/VisualStudioToolsCommandlet.cpp:53-64 | the walk distributes over concatenation |
| `VisualStudioToolsCommandlet.ShouldSerializePropertyValue` | Source/VisualStudioTools/Private/VisualStudioToolsCommandlet.cpp:166-208 | static arrays are never written; otherwise the property kind decides |
| `VisualStudioToolsCommandlet.AddUseSpec` | Source/VisualStudioTools/Private/VisualStudioToolsCommandlet.cpp:124-127 | find-or-add appends the Blueprint index to that key only |
| `VisualStudioToolsCommandlet.AddUsesUnique` | Source/VisualStudioTools/Private/VisualStudioToolsCommandlet.cpp:121-131 | adding uses keeps the keys unique |
| `VisualStudioToolsCommandlet.AddUsesSpec` | Source/VisualStudioTools/Private/VisualStudioToolsCommandlet.cpp:121-131 | a key gains the index exactly when it is among the added items |
| `VisualStudioToolsCommandlet.AddUsesExtend` | Source/VisualStudioTools/Private/VisualStudioToolsCommandlet.cpp:121-131 | existing uses are only extended, never lost |
| `VisualStudioToolsCommandlet.AddUseExtend` | Source/VisualStudioTools/Private/VisualStudioToolsCommandlet.cpp:124-127 | a single add only extends existing uses |
| `VisualStudioToolsCommandlet.AddUseBelow` | Source/VisualStudioTools/Private/VisualStudioToolsCommandlet.cpp:124-127 | a single add keeps every recorded index in range |
| `VisualStudioToolsCommandlet.AddUsesBelow` | Source/VisualStudioTools/Private/VisualStudioToolsCommandlet.cpp:121-131 | recorded indices stay below the Blueprint count |
| `VisualStudioToolsCommandlet.KeysSnoc` | Source/VisualStudioTools/Private/VisualStudioToolsCommandlet.cpp:121-131 | a key of the items is a key of the first items or of the last one, and unique keys stay unique in the prefix |
| `VisualStudioToolsCommandlet.PropertyItems` | Source/VisualStudioTools/Private/VisualStudioToolsCommandlet.cpp:121-131 | the changed properties are keyed by their names, in order |
| `VisualStudioToolsCommandlet.Overrides` | Source/VisualStudioTools/Private/VisualStudioToolsCommandlet.cpp:135-152 | a function is an override exactly when the parent declares it and the Blueprint defines it |
| `VisualStudioToolsCommandlet.RecordedValid` | Source/VisualStudioTools/Private/VisualStudioToolsCommandlet.cpp:114-152 | recording keeps an entry's indices below the Blueprint count |
| `VisualStudioToolsCommandlet.PutValid` | Source/VisualStudioTools/Private/VisualStudioToolsCommandlet.cpp:106-110 | storing a valid entry keeps the class map valid |
| `VisualStudioToolsCommandlet.RecordParentValid` | Source/VisualStudioTools/Private/VisualStudioToolsCommandlet.cpp:102-152 | recording one parent keeps the class map valid |
| `VisualStudioToolsCommandlet.RecordParentsValid` | Source/VisualStudioTools/Private/VisualStudioToolsCommandlet.cpp:102-152 | recording all parents keeps the class map valid |
| `VisualStudioToolsCommandlet.ClassMapValidGrows` | Source/VisualStudioTools/Private/VisualStudioToolsCommandlet.cpp:155-158 | appending a Blueprint keeps every recorded index in range |
| `VisualStudioToolsCommandlet.UsesExtendTrans` | Source/VisualStudioTools/Private/VisualStudioToolsCommandlet.cpp:121-152 | extension of use lists is transitive |
| `VisualStudioToolsCommandlet.RecordedExtends` | Source/VisualStudioTools/Private/VisualStudioToolsCommandlet.cpp:114-152 | recording only extends an entry's Blueprints, properties and functions |
| `VisualStudioToolsCommandlet.RecordParentExtends` | Source/VisualStudioTools/Private/VisualStudioToolsCommandlet.cpp:102-152 | recording one parent only extends the class map |
| `VisualStudioToolsCommandlet.RecordParentsExtends` | Source/VisualStudioTools/Private/VisualStudioToolsCommandlet.cpp:102-152 | nothing ever recorded is lost |
| `VisualStudioToolsCommandlet.RecordParentContents` | Source/VisualStudioTools/Private/VisualStudioToolsCommandlet.cpp:102-152 | the parent's entry gains the Blueprint; a property gains it exactly when changed; a function gains it exactly when overridden; other classes are unchanged |
| `VisualStudioToolsCommandlet.RecordedPropertyUses` | Source/VisualStudioTools/Private/VisualStudioToolsCommandlet.cpp:121-131 | a property's uses gain the index exactly when the Blueprint changes it |
| `VisualStudioToolsCommandlet.PropertyItemsNames` | Source/VisualStudioTools/Private/VisualStudioToolsCommandlet.cpp:121-131 | a name keys a recorded property item exactly when some changed property has that name |
| `VisualStudioToolsCommandlet.RecordedFunctionUses` | Source/VisualStudioTools/Private/VisualStudioToolsCommandlet.cpp:135-152 | a function's uses gain the index exactly when the Blueprint overrides it |
| `VisualStudioToolsCommandlet.OverridesUnique` | Source/VisualStudioTools/Private/VisualStudioToolsCommandlet.cpp:135-152 | overrides are keyed uniquely |
| `VisualStudioToolsCommandlet.RecordParentIndices` | Source/VisualStudioTools/Private/VisualStudioToolsCommandlet.cpp:102-114 | the class map keeps unique names; only the parent's class gains the index |
| `VisualStudioToolsCommandlet.Names` | Source/VisualStudioTools/Private/VisualStudioToolsCommandlet.cpp:102-110 | the names of the parents, position by position |
| `VisualStudioToolsCommandlet.NamesSnoc` | Source/VisualStudioTools/Private/VisualStudioToolsCommandlet.cpp:102-110 | a name is among the parents' names exactly when it is among the first ones or is the last one |
| `VisualStudioToolsCommandlet.RecordParentsUnique` | Source/VisualStudioTools/Private/VisualStudioToolsCommandlet.cpp:102-152 | recording all parents keeps class names unique |
| `VisualStudioToolsCommandlet.RecordParentsIndices` | Source/VisualStudioTools/Private/VisualStudioToolsCommandlet.cpp:102-152 | a class lists the new Blueprint exactly when it is one of its native parents |
| `VisualStudioToolsCommandlet.NamesDerives` | Source/VisualStudioTools/Private/VisualStudioToolsCommandlet.cpp:50-65 | a name is among the native parents exactly when the Blueprint derives from that native class |
| `VisualStudioToolsCommandlet.ProcessIndexedAt` | Source/VisualStudioTools/Private/VisualStudioToolsCommandlet.cpp:95-161 | processing one Blueprint keeps one class's index exact |
| `VisualStudioToolsCommandlet.ProcessIndexedPoint` | Source/VisualStudioTools/Private/VisualStudioToolsCommandlet.cpp:95-161 | processing one Blueprint keeps each class's index exact |
| `VisualStudioToolsCommandlet.ProcessSound` | Source/VisualStudioTools/Private/VisualStudioToolsCommandlet.cpp:95-161 | after processing a Blueprint, every index a class lists names a kept Blueprint that derives from that class |
| `VisualStudioToolsCommandlet.ProcessComplete` | Source/VisualStudioTools/Private/VisualStudioToolsCommandlet.cpp:95-161 | after processing a Blueprint, every kept Blueprint is listed by each class it derives from |
| `VisualStudioToolsCommandlet.ProcessIndexed` | Source/VisualStudioTools/Private/VisualStudioToolsCommandlet.cpp:95-161 | after processing, a class lists a Blueprint exactly when that Blueprint derives from it |
| `VisualStudioToolsCommandlet.ProcessValid` | Source/VisualStudioTools/Private/VisualStudioToolsCommandlet.cpp:95-161 | processing keeps the index valid and exact |
| `VisualStudioToolsCommandlet.BuildIndexValid` | Source/VisualStudioTools/Private/VisualStudioToolsCommandlet.cpp:89-161 | over any asset sequence the index is valid and exact, and keeps exactly the Blueprints with a native parent, in order |
| `VisualStudioToolsCommandlet.RecordPropertyUses` | Source/VisualStudioTools/Private/VisualStudioToolsCommandlet.cpp:121-131 | the property loop adds the index to each changed property |
| `VisualStudioToolsCommandlet.AddUsesSnoc` | Source/VisualStudioTools/Private/VisualStudioToolsCommandlet.cpp:121-131 | adding one more item is one more find-or-add |
| `VisualStudioToolsCommandlet.OverridesSnoc` | Source/VisualStudioTools/Private/VisualStudioToolsCommandlet.cpp:135-152 | one more parent function adds an override exactly when the Blueprint defines it |
| `VisualStudioToolsCommandlet.RecordOverrides` | Source/VisualStudioTools/Private/VisualStudioToolsCommandlet.cpp:135-152 | the function loop adds the index to each override |
| `VisualStudioToolsCommandlet.AssetIndex.constructor` | Source/VisualStudioTools/Private/VisualStudioToolsCommandlet.cpp:89-93 | a new index is empty and valid |
| `VisualStudioToolsCommandlet.AssetIndex.RecordParentEntry` | Source/VisualStudioTools/Private/VisualStudioToolsCommandlet.cpp:104-152 | add-if-absent and then update one parent's entry |
| `VisualStudioToolsCommandlet.AssetIndex.ProcessBlueprint` | Source/VisualStudioTools/Private/VisualStudioToolsCommandlet.cpp:95-161 | the index becomes the processed state and stays valid and exact |
| `VisualStudioToolsCommandlet.AssetIndex.RecordAllParents` | Source/VisualStudioTools/Private/VisualStudioToolsCommandlet.cpp:102-153 | the parent loop records every parent in order |
| `VisualStudioToolsCommandlet.ValueJsonRules` | Source/VisualStudioTools/Private/VisualStudioToolsCommandlet.cpp:252-265 | each value carries its Blueprint index and a `value` exactly when the property may be written |
| `VisualStudioToolsCommandlet.MetadataRules` | Source/VisualStudioTools/Private/VisualStudioToolsCommandlet.cpp:237-245 | metadata holds `categories` exactly when the property has one |
| `VisualStudioToolsCommandlet.PropertyJsonRules` | Source/VisualStudioTools/Private/VisualStudioToolsCommandlet.cpp:224-273 | a property object has name, metadata and one value per using Blueprint |
| `VisualStudioToolsCommandlet.BlueprintJsonRules` | Source/VisualStudioTools/Private/VisualStudioToolsCommandlet.cpp:210-222 | a Blueprint is written as `{name, path}` |
| `VisualStudioToolsCommandlet.ClassJsonRules` | Source/VisualStudioTools/Private/VisualStudioToolsCommandlet.cpp:290-311 | a class is written with its prefixed C++ name, its in-range Blueprint indices, its properties and its functions |
| `VisualStudioToolsCommandlet.IndexJsonShape` | Source/VisualStudioTools/Private/VisualStudioToolsCommandlet.cpp:313-327 | the document has `blueprints` then `classes`, one object per Blueprint and per class in index order |
| `VisualStudioToolsCommandlet.SerializeBlueprints` | Source/VisualStudioTools/Private/VisualStudioToolsCommandlet.cpp:210-222 | writes the Blueprint array |
| `VisualStudioToolsCommandlet.SerializeValues` | Source/VisualStudioTools/Private/VisualStudioToolsCommandlet.cpp:250-266 | writes one value per using Blueprint, in order |
| `VisualStudioToolsCommandlet.SerializeProperties` | Source/VisualStudioTools/Private/VisualStudioToolsCommandlet.cpp:224-273 | writes the property array |
| `VisualStudioToolsCommandlet.SerializeFunctions` | Source/VisualStudioTools/Private/VisualStudioToolsCommandlet.cpp:275-288 | writes the function array |
| `VisualStudioToolsCommandlet.SerializeClasses` | Source/VisualStudioTools/Private/VisualStudioToolsCommandlet.cpp:290-311 | writes the class array |
| `VisualStudioToolsCommandlet.SerializeToIndex` | Source/VisualStudioTools/Private/VisualStudioToolsCommandlet.cpp:313-327 | writes the index document of the current index |
| `VisualStudioToolsCommandlet.RequestedScan` | Source/VisualStudioTools/Private/VisualStudioToolsCommandlet.cpp:422-457 | `-filter` with `-full` is refused; `-full` scans all native classes; `-filter` scans that path; otherwise the project directory |
| `VisualStudioToolsCommandlet.ScanAssets` | Source/VisualStudioTools/Private/VisualStudioToolsCommandlet.cpp:459-460 | the scan loop builds the index of the assets |
| `VisualStudioToolsCommandlet.Run` | Source/VisualStudioTools/Private/VisualStudioToolsCommandlet.cpp:414-465 | -1 with nothing written exactly for incompatible options; otherwise writes the index of the requested scan and returns 0 |
| `VisualStudioToolsCommandlet.NewCommandlet` | Source/VisualStudioTools/Private/VisualStudioToolsCommandlet.cpp:400-412 | the help is the base's entries followed by `filter` and `full`, with this commandlet's description and usage |
| `OrderedMap.Find` | Source/VisualStudioTools/Private/VisualStudioToolsCommandlet.cpp:106 | a key is found at its first position, or is absent |
| `OrderedMap.Get` | Source/VisualStudioTools/Private/VisualStudioToolsCommandlet.cpp:106 | a value is found exactly for a present key |
| `OrderedMap.PutEntries` | Source/VisualStudioTools/Private/BlueprintReferencesCommandlet.cpp:115 | `TMap::Add` keeps the key order, adding the key at the end only when it is new; every entry under another key keeps its position and value; the key is stored with the new value |
| `OrderedMap.FindSameKeys` | Source/VisualStudioTools/Private/BlueprintReferencesCommandlet.cpp:115 | lookup depends only on the keys |
| `OrderedMap.FindAppend` | Source/VisualStudioTools/Private/VisualStudioToolsCommandlet.cpp:106-110 | lookup after appending one entry |
| `OrderedMap.PutGet` | Source/VisualStudioTools/Private/BlueprintReferencesCommandlet.cpp:115 | after `Add` the key maps to the new value, other keys keep their values, keys stay unique, and the key is added to the names only if new |
| `OrderedMap.PutPut` | Source/VisualStudioTools/Private/BlueprintReferencesCommandlet.cpp:115 | a second `Add` to the same key overrides the first |
| `Text.Fold` | Source/VisualStudioTools/Private/VSTestAdapterCommandlet.cpp:51 | folding lower-cases each character and keeps the length |
| `Text.FindFrom` | Source/VisualStudioTools/Private/BlueprintReferencesCommandlet.cpp:215 | the first occurrence at or after a position, or none |
| `Text.FindFirst` | Source/VisualStudioTools/Private/BlueprintReferencesCommandlet.cpp:215 | the first occurrence, or none exactly when the separator is absent |
| `Text.SplitFirst` | Source/VisualStudioTools/Private/BlueprintReferencesCommandlet.cpp:215 | splits at the first occurrence of the separator: the parts rejoin, and the left part does not contain it |
| `Text.NoEarlierOccurrence` | Source/VisualStudioTools/Private/BlueprintReferencesCommandlet.cpp:215 | before the first occurrence the separator does not occur |
| `Text.SplitFirstJoin` | Source/VisualStudioTools/Private/BlueprintReferencesCommandlet.cpp:215 | joining two parts by the separator splits back into them |
| `Text.NatToString` | Source/VisualStudioTools/Private/VSTestAdapterCommandlet.cpp:79 | a non-empty decimal string |
| `Text.IntToString` | Source/VisualStudioTools/Private/VSTestAdapterCommandlet.cpp:79 | a non-empty decimal string with a sign exactly for negatives |
| `Text.NatToStringParses` | Source/VisualStudioTools/Private/VSTestAdapterCommandlet.cpp:79 | the printed number parses back to itself |
| `Text.SplitAt` | Source/VisualStudioTools/Private/VSTestAdapterCommandlet.cpp:79 | splits at the first separator, and the parts rejoin |
| `Text.SplitAtJoin` | Source/VisualStudioTools/Private/VSTestAdapterCommandlet.cpp:79 | splitting a joined pair gives the pair back |
| `Text.SplitAtNone` | Source/VisualStudioTools/Private/VSTestAdapterCommandlet.cpp:79 | a string without the separator is not split |
| `Text.SplitOnJoin` | Source/VisualStudioTools/Private/VSTestAdapterCommandlet.cpp:79 | fields without the separator, joined by it, split back into the same fields |
| `Json.Get` | Source/VisualStudioTools/Private/VisualStudioToolsCommandlet.cpp:313-327 | a member is found exactly when the object has that key |
| `Json.Numbers` | Source/VisualStudioTools/Private/VisualStudioToolsCommandlet.cpp:300 | an array with one number per index, in order |

## Left out

- File and archive I/O, console logging and the JSON writer's text form are not modelled. Output is a `Json` tree or a list of lines. Each failure to open a file is a boolean input.
- `ParseCommandLine` is not modelled. The command line arrives already split into tokens, switches and key/value parameters.
- Calls into the engine are inputs of the model:
  - the asset registry and the Find-in-Blueprints search tick loop;
  - the Blueprint loader and `FKismetDebugUtilities`;
  - the automation test framework with its latent commands and ticker;
  - `FPackageName` path resolution and `FJsonObjectConverter`.
- `GetModulesByPath`, `GetNativeClassesByPath` and `RunAssetScan` (VisualStudioToolsCommandlet.cpp:329-393) are not modelled. Each scan mode's candidate assets are an input (`scan`).
- `FPaths::NormalizeDirectoryName` on the filter path is not modelled. The path is passed through unchanged.
- BlueprintAssetHelper.cpp (loading each asset for a callback) is not part of this model. Loading is an input function; an asset that does not load is skipped.
- Property values are opaque. The converter is an input, and floating-point durations are strings.
- `FName` comparison ignores case in the engine. The index keys, class names, function names and `FindFunctionByName` use exact equality here.
- `TMap<FString, …>` keys compare ignoring case in the engine. The confirmed-asset map uses exact keys here.
- The `AssetPathCache`, the `UFunction` pointer kept in a function entry, and the `check()` around the Blueprint append are not modelled. The latter only guards the engine's own bookkeeping.
- `BlueprintReferencesCommandlet.Run` requires the `symbol` parameter to be present. The source dereferences the result of `Find` unchecked, so a missing parameter is undefined behaviour, not an error path.
- `VisualStudioToolsCommandlet.AssetIndex.ProcessBlueprint` computes the native parents before it records them. The source does both in one loop; the outcome is the same.
- `ShutdownModule` (delegate removal), module registration, `VSServerCommandlet`, the breakpoint extension and `ENGINE_MAJOR_VERSION` branches are not part of this model.
- Game-thread checks are a boolean input (`inGameThread`). Concurrency is not modelled.
- The 32-bit tag counter is unbounded here. The decrement never wraps in practice.
- `PrintHelp` on error paths only logs, so it is not in the commandlets' outputs. `PrintHelp` itself is modelled in `CommandletBase.CommandletHelp.PrintHelp`.
- `VSTestAdapterCommandlet.SelectTests`: its own contract states only the length bound. Its contents are stated in `SelectTestsMembers`.
