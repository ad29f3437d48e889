/** The Blueprint execution tracker of the debugger-helper module.

    The module keeps three pieces of state: the current script entry tag, a
    list of running Blueprints each with a stack of node frames, and a map
    from native function to a stack-frame label. Three host notifications
    drive it: entering a script context, leaving one, and a script exception
    (breakpoints and tracepoints arrive as exceptions).

    Host objects (functions, classes, Blueprints, graph nodes, pins, the
    owner object) are opaque ids, and the host's reflection and debugger
    queries are the arrow-typed fields of `Host`. */
module BlueprintDebuggerHelper {
  import opened Wrappers

  type ObjectId = int
  type FunctionId = int
  type ClassId = int
  type BlueprintId = int
  type NodeId = int
  type PinId = int
  /** A debugger-displayable snapshot of one pin's current value. */
  type PropertyInfo = int

  /** The classification of a script exception. Only the first three are of
      interest to the tracker; every other kind is `OtherException`. */
  datatype ExceptionType = Breakpoint | Tracepoint | WireTracepoint | OtherException(name: string)

  /** One watched pin of a node frame and its last observed value. */
  datatype PinRuntimeInformation = PinRuntimeInformation(pin: PinId, property: PropertyInfo)

  /** One node frame: the node a Blueprint stopped at, its title, the entry
      tag current when the frame was pushed, and its watched pins. */
  datatype NodeData = NodeData(node: NodeId, nodeName: string, scriptEntryTag: int,
                               properties: seq<PinRuntimeInformation>)

  /** One running Blueprint and its stack of node frames (top = last). */
  datatype RunningBlueprint = RunningBlueprint(blueprint: BlueprintId, nodes: seq<NodeData>)

  /** The label recorded for a native function's stack frame. */
  datatype StackTraceHelper = StackTraceHelper(scriptEntryTag: int, nodeName: string)

  /** The executing script frame: its function (absent when the frame's node
      is not a function), the current code position and the start of the
      function's bytecode, both as addresses. */
  datatype ScriptFrame = ScriptFrame(node: Option<FunctionId>, code: int, scriptStart: int)

  /** The host queries the exception handler makes. */
  datatype Host = Host(
    /** the function's outer object, when it is a Blueprint-generated class */
    generatedClassOf: FunctionId -> Option<ClassId>,
    /** the Blueprint a generated class was generated by, when there is one */
    generatedBy: ClassId -> Option<BlueprintId>,
    friendlyName: BlueprintId -> string,
    /** the source node for a bytecode offset, imprecise hits allowed */
    findSourceNode: (ObjectId, FunctionId, int) -> Option<NodeId>,
    /** the node's list-view title */
    nodeTitle: NodeId -> string,
    nodePins: NodeId -> seq<PinId>,
    /** the pin's debug value; `None` for every result other than valid */
    debugInfo: (BlueprintId, ObjectId, PinId) -> Option<PropertyInfo>)

  /** A resolved breakpoint hit. */
  datatype Hit = Hit(nodeFunction: FunctionId, blueprint: BlueprintId, node: NodeId)

  predicate IsHandledKind(kind: ExceptionType) {
    kind.Tracepoint? || kind.WireTracepoint? || kind.Breakpoint?
  }

  /** The offset of the instruction that raised the exception: one before the
      current code position, relative to the start of the function's script. */
  function BreakpointOffset(frame: ScriptFrame): int {
    frame.code - frame.scriptStart - 1
  }

  /** The chain of checks at the head of the exception handler. */
  function ResolveHit(host: Host, owner: ObjectId, frame: ScriptFrame, kind: ExceptionType): Option<Hit> {
    if !IsHandledKind(kind) || frame.node.None? then None
    else
      var fn := frame.node.value;
      match host.generatedClassOf(fn)
      case None => None
      case Some(generated) =>
        match host.generatedBy(generated)
        case None => None
        case Some(bp) =>
          match host.findSourceNode(owner, fn, BreakpointOffset(frame))
          case None => None
          case Some(node) => Some(Hit(fn, bp, node))
  }

  /** The label "BlueprintName::NodeTitle" stored for a hit. */
  function HitLabel(host: Host, hit: Hit): string {
    host.friendlyName(hit.blueprint) + "::" + host.nodeTitle(hit.node)
  }

  // ----- Lookups -----

  /** The first entry of `running` for Blueprint `bp`. */
  function BlueprintIndex(running: seq<RunningBlueprint>, bp: BlueprintId): (r: Option<nat>)
    ensures r.Some? ==> r.value < |running| && running[r.value].blueprint == bp
    ensures r.Some? ==> forall j :: 0 <= j < r.value ==> running[j].blueprint != bp
    ensures r.None? ==> forall j :: 0 <= j < |running| ==> running[j].blueprint != bp
  {
    if |running| == 0 then None
    else if running[0].blueprint == bp then Some(0)
    else match BlueprintIndex(running[1..], bp)
      case None => None
      case Some(i) => Some(i + 1)
  }

  /** The first watched pin of a frame that is `pin`. */
  function PinIndex(pins: seq<PinRuntimeInformation>, pin: PinId): (r: Option<nat>)
    ensures r.Some? ==> r.value < |pins| && pins[r.value].pin == pin
    ensures r.Some? ==> forall j :: 0 <= j < r.value ==> pins[j].pin != pin
    ensures r.None? ==> forall j :: 0 <= j < |pins| ==> pins[j].pin != pin
  {
    if |pins| == 0 then None
    else if pins[0].pin == pin then Some(0)
    else match PinIndex(pins[1..], pin)
      case None => None
      case Some(i) => Some(i + 1)
  }

  // ----- The state invariant -----

  predicate UniquePins(pins: seq<PinRuntimeInformation>) {
    forall i, j :: 0 <= i < j < |pins| ==> pins[i].pin != pins[j].pin
  }

  predicate UniqueBlueprints(running: seq<RunningBlueprint>) {
    forall i, j :: 0 <= i < j < |running| ==> running[i].blueprint != running[j].blueprint
  }

  /** At most one entry per Blueprint, no empty stack, and unique pins in
      every frame. */
  predicate WellFormed(running: seq<RunningBlueprint>) {
    && UniqueBlueprints(running)
    && (forall e :: e in running ==> |e.nodes| > 0)
    && (forall e, f :: e in running && f in e.nodes ==> UniquePins(f.properties))
  }

  // ----- Specification of a breakpoint hit -----

  /** Records one valid pin value: overwritten in place when the pin is
      already watched, appended otherwise. */
  function StampPin(pins: seq<PinRuntimeInformation>, pin: PinId, value: PropertyInfo): seq<PinRuntimeInformation> {
    match PinIndex(pins, pin)
    case None => pins + [PinRuntimeInformation(pin, value)]
    case Some(i) => pins[i := PinRuntimeInformation(pin, value)]
  }

  /** Records the values of `graphPins`, in order, skipping the pins whose
      debug result is not valid. */
  function RecordPins(pins: seq<PinRuntimeInformation>, graphPins: seq<PinId>, host: Host,
                      bp: BlueprintId, owner: ObjectId): seq<PinRuntimeInformation>
    decreases |graphPins|
  {
    if |graphPins| == 0 then pins
    else
      var before := RecordPins(pins, graphPins[..|graphPins| - 1], host, bp, owner);
      var pin := graphPins[|graphPins| - 1];
      match host.debugInfo(bp, owner, pin)
      case None => before
      case Some(value) => StampPin(before, pin, value)
  }

  /** The frame push rule: a new frame, stamped with `tag`, when the stack is
      empty or its top names another node; otherwise the stack as it is. */
  function PushFrame(nodes: seq<NodeData>, node: NodeId, title: string, tag: int): seq<NodeData> {
    if |nodes| == 0 || nodes[|nodes| - 1].node != node then nodes + [NodeData(node, title, tag, [])]
    else nodes
  }

  /** The node stacks after a hit on `hit.node` of `hit.blueprint`. */
  function RecordHit(running: seq<RunningBlueprint>, hit: Hit, tag: int, host: Host,
                     owner: ObjectId): seq<RunningBlueprint>
  {
    var found := BlueprintIndex(running, hit.blueprint);
    var entries := if found.None? then running + [RunningBlueprint(hit.blueprint, [])] else running;
    var k := if found.None? then |running| else found.value;
    entries[k := RunningBlueprint(hit.blueprint, HitStack(entries[k].nodes, hit, tag, host, owner))]
  }

  /** The hit Blueprint's stack after a hit: the push rule, then the pin
      update of the top frame. */
  function HitStack(nodes: seq<NodeData>, hit: Hit, tag: int, host: Host, owner: ObjectId): seq<NodeData> {
    var stack := PushFrame(nodes, hit.node, host.nodeTitle(hit.node), tag);
    var top := stack[|stack| - 1];
    stack[|stack| - 1 := top.(properties := RecordPins(top.properties, host.nodePins(hit.node), host, hit.blueprint, owner))]
  }

  // ----- Specification of a context exit -----

  /** The frames of a stack not stamped with `tag`, in their order. */
  function PurgeFrames(nodes: seq<NodeData>, tag: int): seq<NodeData>
    decreases |nodes|
  {
    if |nodes| == 0 then []
    else
      var last := nodes[|nodes| - 1];
      PurgeFrames(nodes[..|nodes| - 1], tag) + (if last.scriptEntryTag == tag then [] else [last])
  }

  /** Every entry with its `tag` frames removed, dropping the entries whose
      stack became empty. */
  function PurgeBlueprints(running: seq<RunningBlueprint>, tag: int): seq<RunningBlueprint>
    decreases |running|
  {
    if |running| == 0 then []
    else
      var last := running[|running| - 1];
      var nodes := PurgeFrames(last.nodes, tag);
      PurgeBlueprints(running[..|running| - 1], tag)
        + (if |nodes| == 0 then [] else [RunningBlueprint(last.blueprint, nodes)])
  }

  /** The stack-frame labels not stamped with `tag`. */
  function PurgeRecords(records: map<FunctionId, StackTraceHelper>, tag: int): map<FunctionId, StackTraceHelper> {
    map f | f in records && records[f].scriptEntryTag != tag :: records[f]
  }

  /** The in-place removal loop over one Blueprint's node stack. */
  method RemoveFramesTagged(nodes: seq<NodeData>, tag: int) returns (kept: seq<NodeData>)
    ensures kept == PurgeFrames(nodes, tag)
  {
    kept := nodes;
    var i := 0;
    ghost var j := 0;
    while i < |kept|
      invariant 0 <= i <= |kept| && 0 <= j <= |nodes|
      invariant kept[..i] == PurgeFrames(nodes[..j], tag)
      invariant kept[i..] == nodes[j..]
      decreases |nodes| - j
    {
      assert kept[i] == nodes[j];
      assert nodes[..j + 1][..j] == nodes[..j];
      if kept[i].scriptEntryTag == tag {
        kept := kept[..i] + kept[i + 1..];
      } else {
        i := i + 1;
      }
      j := j + 1;
    }
    assert nodes[..j] == nodes;
  }

  /** The exit loop over the running Blueprints: each entry loses its frames
      stamped with `tag` and is removed in place once its stack is empty. */
  method RemoveEntriesTagged(running: seq<RunningBlueprint>, tag: int) returns (kept: seq<RunningBlueprint>)
    ensures kept == PurgeBlueprints(running, tag)
  {
    kept := running;
    var i := 0;
    ghost var j := 0;
    while i < |kept|
      invariant 0 <= i <= |kept| && 0 <= j <= |running|
      invariant kept[..i] == PurgeBlueprints(running[..j], tag)
      invariant kept[i..] == running[j..]
      decreases |running| - j
    {
      var entry := kept[i];
      assert entry == running[j];
      assert running[..j + 1][..j] == running[..j];
      var nodes := RemoveFramesTagged(entry.nodes, tag);
      if |nodes| == 0 {
        kept := kept[..i] + kept[i + 1..];
      } else {
        kept := kept[i := RunningBlueprint(entry.blueprint, nodes)];
        i := i + 1;
      }
      j := j + 1;
    }
    assert running[..j] == running;
  }

  /** The exit loop over the stack-frame labels, erasing those stamped with
      `tag`. */
  method RemoveRecordsTagged(records: map<FunctionId, StackTraceHelper>, tag: int)
    returns (kept: map<FunctionId, StackTraceHelper>)
    ensures kept == PurgeRecords(records, tag)
  {
    kept := records;
    var remaining := records.Keys;
    while remaining != {}
      invariant remaining <= records.Keys
      invariant kept == map f | f in records && (f in remaining || records[f].scriptEntryTag != tag) :: records[f]
      decreases remaining
    {
      ghost var some := SomeKey(remaining);
      var key :| key in remaining;
      if kept[key].scriptEntryTag == tag {
        kept := kept - {key};
      }
      remaining := remaining - {key};
    }
  }

  /** A non-empty key set has a member to visit next. */
  lemma SomeKey(keys: set<FunctionId>) returns (f: FunctionId)
    requires keys != {}
    ensures f in keys
  {
    if forall g :: g !in keys {
      assert false;
    }
    f :| f in keys;
  }

  /** The pin loop of a hit: each pin of the node with a valid debug result
      is overwritten in place when already watched and appended otherwise. */
  method UpdatePins(pins: seq<PinRuntimeInformation>, graphPins: seq<PinId>, host: Host,
                    bp: BlueprintId, owner: ObjectId) returns (properties: seq<PinRuntimeInformation>)
    ensures properties == RecordPins(pins, graphPins, host, bp, owner)
  {
    properties := pins;
    for idx := 0 to |graphPins|
      invariant properties == RecordPins(pins, graphPins[..idx], host, bp, owner)
    {
      assert graphPins[..idx + 1][..idx] == graphPins[..idx];
      var graphPin := graphPins[idx];
      var debugResult := host.debugInfo(bp, owner, graphPin);
      if debugResult.None? {
        continue;
      }
      var existing := PinIndex(properties, graphPin);
      if existing.None? {
        properties := properties + [PinRuntimeInformation(graphPin, debugResult.value)];
      } else {
        properties := properties[existing.value := PinRuntimeInformation(graphPin, debugResult.value)];
      }
    }
    assert graphPins[..|graphPins|] == graphPins;
  }

  /** The bookkeeping of a resolved hit: find or append the Blueprint's
      entry, push a frame or reuse the top one, then update its pins. */
  method TrackHit(running: seq<RunningBlueprint>, hit: Hit, tag: int, host: Host, owner: ObjectId)
    returns (r: seq<RunningBlueprint>)
    ensures r == RecordHit(running, hit, tag, host, owner)
  {
    r := running;
    var existing := BlueprintIndex(r, hit.blueprint);
    var k;
    if existing.None? {
      r := r + [RunningBlueprint(hit.blueprint, [])];
      k := |r| - 1;
    } else {
      k := existing.value;
    }

    var nodes := r[k].nodes;
    if |nodes| == 0 || hit.node != nodes[|nodes| - 1].node {
      nodes := nodes + [NodeData(hit.node, host.nodeTitle(hit.node), tag, [])];
    }
    var currentNodeData := nodes[|nodes| - 1];
    var properties := UpdatePins(currentNodeData.properties, host.nodePins(hit.node), host, hit.blueprint, owner);
    r := r[k := RunningBlueprint(hit.blueprint, nodes[|nodes| - 1 := currentNodeData.(properties := properties)])];
  }

  // ----- The tracker -----

  /** The module object with its entry tag, together with the two tables the
      module exports for the debugger visualizer to read. */
  class DebuggerHelper {
    var currentScriptEntryTag: int
    var runningBlueprints: seq<RunningBlueprint>
    var stackFrameInformation: map<FunctionId, StackTraceHelper>

    ghost predicate Valid()
      reads this
    {
      WellFormed(runningBlueprints)
    }

    /** Module start-up: the tables start empty and the tag at zero. */
    constructor StartupModule()
      ensures Valid()
      ensures currentScriptEntryTag == 0
      ensures runningBlueprints == [] && stackFrameInformation == map[]
    {
      currentScriptEntryTag := 0;
      runningBlueprints := [];
      stackFrameInformation := map[];
    }

    /** Entering a script context makes its tag current; off the game thread
        nothing happens. */
    method OnEnterScriptContext(inGameThread: bool, contextTag: int)
      requires Valid()
      modifies this
      ensures Valid()
      ensures runningBlueprints == old(runningBlueprints)
      ensures stackFrameInformation == old(stackFrameInformation)
      ensures currentScriptEntryTag == if inGameThread then contextTag else old(currentScriptEntryTag)
    {
      if !inGameThread {
        return;
      }
      currentScriptEntryTag := contextTag;
    }

    /** Leaving a script context removes every frame and label stamped with
        its tag, drops the Blueprints left without frames, and decrements the
        current tag; off the game thread nothing happens. */
    method OnExitScriptContext(inGameThread: bool, contextTag: int)
      requires Valid()
      modifies this
      ensures Valid()
      ensures !inGameThread ==>
        && runningBlueprints == old(runningBlueprints)
        && stackFrameInformation == old(stackFrameInformation)
        && currentScriptEntryTag == old(currentScriptEntryTag)
      ensures inGameThread ==>
        && runningBlueprints == PurgeBlueprints(old(runningBlueprints), contextTag)
        && stackFrameInformation == PurgeRecords(old(stackFrameInformation), contextTag)
        && currentScriptEntryTag == old(currentScriptEntryTag) - 1
    {
      if !inGameThread {
        return;
      }
      var running := RemoveEntriesTagged(runningBlueprints, contextTag);
      PurgeBlueprintsWellFormed(runningBlueprints, contextTag);
      runningBlueprints := running;
      var records := RemoveRecordsTagged(stackFrameInformation, contextTag);
      stackFrameInformation := records;

      currentScriptEntryTag := currentScriptEntryTag - 1;
    }

    /** A script exception. Breakpoints and tracepoints that resolve to a
        Blueprint source node relabel the function's stack frame, push or
        reuse the Blueprint's top frame and record the node's valid pin
        values; everything else changes nothing. */
    method OnScriptException(host: Host, owner: ObjectId, frame: ScriptFrame, kind: ExceptionType)
      requires Valid()
      modifies this
      ensures Valid()
      ensures currentScriptEntryTag == old(currentScriptEntryTag)
      ensures ResolveHit(host, owner, frame, kind).None? ==>
        && runningBlueprints == old(runningBlueprints)
        && stackFrameInformation == old(stackFrameInformation)
      ensures ResolveHit(host, owner, frame, kind).Some? ==>
        var hit := ResolveHit(host, owner, frame, kind).value;
        && runningBlueprints == RecordHit(old(runningBlueprints), hit, currentScriptEntryTag, host, owner)
        && stackFrameInformation == old(stackFrameInformation)[hit.nodeFunction :=
             StackTraceHelper(currentScriptEntryTag, HitLabel(host, hit))]
    {
      if !kind.Tracepoint? && !kind.WireTracepoint? && !kind.Breakpoint? {
        return;
      }
      if frame.node.None? {
        return;
      }
      var nodeFunction := frame.node.value;
      var generatedClass := host.generatedClassOf(nodeFunction);
      if generatedClass.None? {
        return;
      }
      var blueprint := host.generatedBy(generatedClass.value);
      if blueprint.None? {
        return;
      }
      var bp := blueprint.value;
      var breakpointOffset := frame.code - frame.scriptStart - 1;
      var nodeStoppedAt := host.findSourceNode(owner, nodeFunction, breakpointOffset);
      if nodeStoppedAt.None? {
        return;
      }
      var node := nodeStoppedAt.value;
      var hit := Hit(nodeFunction, bp, node);
      assert ResolveHit(host, owner, frame, kind) == Some(hit);

      stackFrameInformation := stackFrameInformation[nodeFunction :=
        StackTraceHelper(currentScriptEntryTag, host.friendlyName(bp) + "::" + host.nodeTitle(node))];

      var running := TrackHit(runningBlueprints, hit, currentScriptEntryTag, host, owner);
      RecordHitWellFormed(runningBlueprints, hit, currentScriptEntryTag, host, owner);
      runningBlueprints := running;
    }
  }

  // ----- Lemmas: breakpoint hits -----

  /** Stamping a pin keeps the pins of a frame unique. */
  lemma StampPinUnique(pins: seq<PinRuntimeInformation>, pin: PinId, value: PropertyInfo)
    requires UniquePins(pins)
    ensures UniquePins(StampPin(pins, pin, value))
  {
  }

  /** Recording pin values keeps the pins of a frame unique. */
  lemma {:induction false} RecordPinsUnique(pins: seq<PinRuntimeInformation>, graphPins: seq<PinId>,
                                            host: Host, bp: BlueprintId, owner: ObjectId)
    requires UniquePins(pins)
    ensures UniquePins(RecordPins(pins, graphPins, host, bp, owner))
    decreases |graphPins|
  {
    if |graphPins| > 0 {
      var before := RecordPins(pins, graphPins[..|graphPins| - 1], host, bp, owner);
      RecordPinsUnique(pins, graphPins[..|graphPins| - 1], host, bp, owner);
      var pin := graphPins[|graphPins| - 1];
      match host.debugInfo(bp, owner, pin)
      case None =>
      case Some(value) => StampPinUnique(before, pin, value);
    }
  }

  /** The pin update rule: a pin already watched keeps its position and gets
      the new value; a new pin is appended; no other entry changes. */
  lemma StampPinInPlace(pins: seq<PinRuntimeInformation>, pin: PinId, value: PropertyInfo)
    ensures var r := StampPin(pins, pin, value);
      (exists i :: 0 <= i < |pins| && pins[i].pin == pin) ==>
        && |r| == |pins|
        && forall i :: 0 <= i < |pins| ==>
             r[i] == if pins[i].pin == pin && PinIndex(pins, pin) == Some(i)
                     then PinRuntimeInformation(pin, value) else pins[i]
    ensures var r := StampPin(pins, pin, value);
      (forall i :: 0 <= i < |pins| ==> pins[i].pin != pin) ==> r == pins + [PinRuntimeInformation(pin, value)]
  {
  }

  /** After recording, every pin of the node whose debug result is valid is
      watched with that value, the pins watched before keep their positions,
      and a pin is only added, never dropped. */
  lemma {:induction false} RecordPinsContents(pins: seq<PinRuntimeInformation>, graphPins: seq<PinId>,
                                              host: Host, bp: BlueprintId, owner: ObjectId)
    requires UniquePins(pins)
    ensures var r := RecordPins(pins, graphPins, host, bp, owner);
      && |pins| <= |r| <= |pins| + |graphPins|
      && (forall i :: 0 <= i < |pins| ==> r[i].pin == pins[i].pin)
      && (forall p :: p in graphPins && host.debugInfo(bp, owner, p).Some? ==>
            PinRuntimeInformation(p, host.debugInfo(bp, owner, p).value) in r)
      && (forall i :: 0 <= i < |r| ==>
            (r[i].pin in graphPins && host.debugInfo(bp, owner, r[i].pin) == Some(r[i].property))
            || (i < |pins| && r[i] == pins[i]))
    decreases |graphPins|
  {
    if |graphPins| > 0 {
      var init := graphPins[..|graphPins| - 1];
      var before := RecordPins(pins, init, host, bp, owner);
      RecordPinsContents(pins, init, host, bp, owner);
      RecordPinsUnique(pins, init, host, bp, owner);
      var pin := graphPins[|graphPins| - 1];
      assert graphPins == init + [pin];
      var r := RecordPins(pins, graphPins, host, bp, owner);
      match host.debugInfo(bp, owner, pin)
      case None =>
        assert r == before;
      case Some(value) =>
        assert r == StampPin(before, pin, value);
        forall p | p in graphPins && host.debugInfo(bp, owner, p).Some?
          ensures PinRuntimeInformation(p, host.debugInfo(bp, owner, p).value) in r
        {
          if p == pin {
            match PinIndex(before, pin)
            case None => assert r[|before|] == PinRuntimeInformation(pin, value);
            case Some(i) => assert r[i] == PinRuntimeInformation(pin, value);
          } else {
            assert p in init;
            var e := PinRuntimeInformation(p, host.debugInfo(bp, owner, p).value);
            var i :| 0 <= i < |before| && before[i] == e;
            assert r[i] == e;
          }
        }
    }
  }

  /** A hit keeps the pins of every frame of the hit stack unique. */
  lemma HitStackPins(nodes: seq<NodeData>, hit: Hit, tag: int, host: Host, owner: ObjectId)
    requires forall f :: f in nodes ==> UniquePins(f.properties)
    ensures forall f :: f in HitStack(nodes, hit, tag, host, owner) ==> UniquePins(f.properties)
  {
    var stack := PushFrame(nodes, hit.node, host.nodeTitle(hit.node), tag);
    var top := stack[|stack| - 1];
    assert UniquePins(top.properties) by {
      if top != NodeData(hit.node, host.nodeTitle(hit.node), tag, []) {
        assert top in nodes;
      }
    }
    RecordPinsUnique(top.properties, host.nodePins(hit.node), host, hit.blueprint, owner);
    var r := HitStack(nodes, hit, tag, host, owner);
    forall f | f in r ensures UniquePins(f.properties) {
      var m :| 0 <= m < |r| && r[m] == f;
      if m < |r| - 1 {
        assert f == stack[m];
        assert f in nodes;
      }
    }
  }

  /** The frame push rule: a new frame stamped with the current tag and
      titled after the node is pushed exactly when the stack is empty or its
      top names another node; otherwise the top is reused with its tag and
      title. Either way the stack grows by at most one, its top names the hit
      node and holds the recorded pins, and the frames below never change. */
  lemma HitStackRule(nodes: seq<NodeData>, hit: Hit, tag: int, host: Host, owner: ObjectId)
    ensures var after := HitStack(nodes, hit, tag, host, owner);
      var pushed := |nodes| == 0 || nodes[|nodes| - 1].node != hit.node;
      && |after| == (if pushed then |nodes| + 1 else |nodes|)
      && after[|after| - 1].node == hit.node
      && (forall i :: 0 <= i < |after| - 1 ==> after[i] == nodes[i])
      && (pushed ==> && after[|after| - 1].scriptEntryTag == tag
                     && after[|after| - 1].nodeName == host.nodeTitle(hit.node)
                     && after[|after| - 1].properties
                          == RecordPins([], host.nodePins(hit.node), host, hit.blueprint, owner))
      && (!pushed ==> && after[|after| - 1].scriptEntryTag == nodes[|nodes| - 1].scriptEntryTag
                      && after[|after| - 1].nodeName == nodes[|nodes| - 1].nodeName
                      && after[|after| - 1].properties
                           == RecordPins(nodes[|nodes| - 1].properties, host.nodePins(hit.node),
                                         host, hit.blueprint, owner))
  {
  }

  /** Entries after a hit: at most one per Blueprint; an unseen Blueprint
      gets a new entry at the end, a known one keeps its position; only the
      hit Blueprint's stack changes, to `HitStack` of its old stack (of the
      empty stack for an unseen Blueprint). */
  lemma RecordHitEntries(running: seq<RunningBlueprint>, hit: Hit, tag: int, host: Host, owner: ObjectId)
    requires UniqueBlueprints(running)
    ensures var r := RecordHit(running, hit, tag, host, owner);
      var found := BlueprintIndex(running, hit.blueprint);
      && UniqueBlueprints(r)
      && (found.None? ==> && (forall i :: 0 <= i < |running| ==> running[i].blueprint != hit.blueprint)
                          && |r| == |running| + 1
                          && r[|running|] == RunningBlueprint(hit.blueprint, HitStack([], hit, tag, host, owner)))
      && (found.Some? ==> && |r| == |running|
                          && r[found.value] == RunningBlueprint(hit.blueprint,
                               HitStack(running[found.value].nodes, hit, tag, host, owner)))
      && (forall i :: 0 <= i < |running| && running[i].blueprint != hit.blueprint ==> r[i] == running[i])
  {
  }

  /** A hit keeps the state well formed. */
  lemma RecordHitWellFormed(running: seq<RunningBlueprint>, hit: Hit, tag: int, host: Host, owner: ObjectId)
    requires WellFormed(running)
    ensures WellFormed(RecordHit(running, hit, tag, host, owner))
  {
    var found := BlueprintIndex(running, hit.blueprint);
    var k := if found.None? then |running| else found.value;
    var before := if found.None? then [] else running[k].nodes;
    RecordHitEntries(running, hit, tag, host, owner);
    assert forall f :: f in before ==> UniquePins(f.properties) by {
      if found.Some? {
        assert running[k] in running;
      }
    }
    HitStackPins(before, hit, tag, host, owner);
    HitStackRule(before, hit, tag, host, owner);
    var r := RecordHit(running, hit, tag, host, owner);
    forall e | e in r ensures |e.nodes| > 0 && forall f :: f in e.nodes ==> UniquePins(f.properties) {
      var i :| 0 <= i < |r| && r[i] == e;
      if i != k {
        assert e == running[i];
      }
    }
  }

  // ----- Lemmas: context exit -----

  /** Purging distributes over concatenation, so the surviving frames keep
      their relative order. */
  lemma {:induction false} PurgeFramesAppend(a: seq<NodeData>, b: seq<NodeData>, tag: int)
    ensures PurgeFrames(a + b, tag) == PurgeFrames(a, tag) + PurgeFrames(b, tag)
    decreases |b|
  {
    if |b| > 0 {
      assert (a + b)[..|a + b| - 1] == a + b[..|b| - 1];
      PurgeFramesAppend(a, b[..|b| - 1], tag);
    } else {
      assert a + b == a;
    }
  }

  /** A frame survives the purge exactly when it was there and carries
      another tag. */
  lemma {:induction false} PurgeFramesMembers(nodes: seq<NodeData>, tag: int)
    ensures forall f :: f in PurgeFrames(nodes, tag) <==> f in nodes && f.scriptEntryTag != tag
    ensures |PurgeFrames(nodes, tag)| <= |nodes|
    decreases |nodes|
  {
    if |nodes| > 0 {
      PurgeFramesMembers(nodes[..|nodes| - 1], tag);
      assert nodes == nodes[..|nodes| - 1] + [nodes[|nodes| - 1]];
    }
  }

  /** Purging distributes over concatenation of entry lists. */
  lemma {:induction false} PurgeBlueprintsAppend(a: seq<RunningBlueprint>, b: seq<RunningBlueprint>, tag: int)
    ensures PurgeBlueprints(a + b, tag) == PurgeBlueprints(a, tag) + PurgeBlueprints(b, tag)
    decreases |b|
  {
    if |b| > 0 {
      assert (a + b)[..|a + b| - 1] == a + b[..|b| - 1];
      PurgeBlueprintsAppend(a, b[..|b| - 1], tag);
    } else {
      assert a + b == a;
    }
  }

  /** Each entry left by an exit is an old entry of the same Blueprint with
      its `tag` frames removed, and it keeps at least one frame. */
  lemma {:induction false} PurgeBlueprintsOrigin(running: seq<RunningBlueprint>, tag: int)
    ensures forall e :: e in PurgeBlueprints(running, tag) ==>
      && |e.nodes| > 0
      && exists o :: o in running && o.blueprint == e.blueprint && e.nodes == PurgeFrames(o.nodes, tag)
    decreases |running|
  {
    if |running| > 0 {
      var init := running[..|running| - 1];
      var last := running[|running| - 1];
      PurgeBlueprintsOrigin(init, tag);
      forall e | e in PurgeBlueprints(running, tag)
        ensures exists o :: o in running && o.blueprint == e.blueprint && e.nodes == PurgeFrames(o.nodes, tag)
      {
        if e in PurgeBlueprints(init, tag) {
          var o :| o in init && o.blueprint == e.blueprint && e.nodes == PurgeFrames(o.nodes, tag);
          assert o in running;
        } else {
          assert last in running;
        }
      }
    }
  }

  /** Every old entry that keeps a frame through an exit remains. */
  lemma {:induction false} PurgeBlueprintsKeeps(running: seq<RunningBlueprint>, tag: int)
    ensures forall o :: o in running && |PurgeFrames(o.nodes, tag)| > 0 ==>
      RunningBlueprint(o.blueprint, PurgeFrames(o.nodes, tag)) in PurgeBlueprints(running, tag)
    decreases |running|
  {
    if |running| > 0 {
      var init := running[..|running| - 1];
      PurgeBlueprintsKeeps(init, tag);
      assert running == init + [running[|running| - 1]];
    }
  }

  /** After an exit with `tag`, no remaining frame carries `tag`. */
  lemma PurgeBlueprintsNoTag(running: seq<RunningBlueprint>, tag: int)
    ensures forall e, f :: e in PurgeBlueprints(running, tag) && f in e.nodes ==> f.scriptEntryTag != tag
  {
    PurgeBlueprintsOrigin(running, tag);
    forall e, f | e in PurgeBlueprints(running, tag) && f in e.nodes
      ensures f.scriptEntryTag != tag
    {
      var o :| o in running && o.blueprint == e.blueprint && e.nodes == PurgeFrames(o.nodes, tag);
      PurgeFramesMembers(o.nodes, tag);
    }
  }

  /** An exit keeps at most one entry per Blueprint. */
  lemma {:induction false} PurgeBlueprintsUnique(running: seq<RunningBlueprint>, tag: int)
    requires UniqueBlueprints(running)
    ensures UniqueBlueprints(PurgeBlueprints(running, tag))
    decreases |running|
  {
    if |running| > 0 {
      var n := |running| - 1;
      var init := running[..n];
      PurgeBlueprintsUnique(init, tag);
      PurgeBlueprintsOrigin(init, tag);
      var rest := PurgeBlueprints(init, tag);
      forall i | 0 <= i < |rest| ensures rest[i].blueprint != running[n].blueprint {
        var o :| o in init && o.blueprint == rest[i].blueprint && rest[i].nodes == PurgeFrames(o.nodes, tag);
        var m :| 0 <= m < |init| && init[m] == o;
        assert running[m] == o;
      }
    }
  }

  /** An exit keeps the state well formed: no empty stack, at most one entry
      per Blueprint, unique pins in every frame. */
  lemma PurgeBlueprintsWellFormed(running: seq<RunningBlueprint>, tag: int)
    requires WellFormed(running)
    ensures WellFormed(PurgeBlueprints(running, tag))
  {
    PurgeBlueprintsUnique(running, tag);
    PurgeBlueprintsOrigin(running, tag);
    forall e, f | e in PurgeBlueprints(running, tag) && f in e.nodes
      ensures UniquePins(f.properties)
    {
      var o :| o in running && o.blueprint == e.blueprint && e.nodes == PurgeFrames(o.nodes, tag);
      PurgeFramesMembers(o.nodes, tag);
    }
  }

  /** A label survives an exit exactly when it carries another tag. */
  lemma PurgeRecordsContents(records: map<FunctionId, StackTraceHelper>, tag: int)
    ensures forall f :: f in PurgeRecords(records, tag) <==> f in records && records[f].scriptEntryTag != tag
    ensures forall f :: f in PurgeRecords(records, tag) ==> PurgeRecords(records, tag)[f] == records[f]
  {
  }

  /** A stack whose frames were all stamped inside the inner or the outer
      context is empty after leaving both. */
  lemma {:induction false} NestedExitsClearStack(nodes: seq<NodeData>, outer: int, inner: int)
    requires forall f :: f in nodes ==> f.scriptEntryTag == outer || f.scriptEntryTag == inner
    ensures PurgeFrames(PurgeFrames(nodes, inner), outer) == []
    decreases |nodes|
  {
    if |nodes| > 0 {
      var init := nodes[..|nodes| - 1];
      var last := nodes[|nodes| - 1];
      assert nodes == init + [last];
      NestedExitsClearStack(init, outer, inner);
      var tail := if last.scriptEntryTag == inner then [] else [last];
      PurgeFramesAppend(PurgeFrames(init, inner), tail, outer);
      assert PurgeFrames(tail, outer) == [] by {
        if tail != [] {
          assert tail[..0] == [];
        }
      }
    }
  }

  /** Entry lists whose every stack purges to nothing purge to nothing. */
  lemma {:induction false} PurgeBlueprintsOfCleared(running: seq<RunningBlueprint>, tag: int)
    requires forall e :: e in running ==> PurgeFrames(e.nodes, tag) == []
    ensures PurgeBlueprints(running, tag) == []
    decreases |running|
  {
    if |running| > 0 {
      PurgeBlueprintsOfCleared(running[..|running| - 1], tag);
    }
  }

  /** Nested contexts: when every frame was stamped inside the inner or the
      outer context, leaving the inner and then the outer leaves no entry. */
  lemma NestedExitsLeaveNothing(running: seq<RunningBlueprint>, outer: int, inner: int)
    requires forall e, f :: e in running && f in e.nodes ==> f.scriptEntryTag == outer || f.scriptEntryTag == inner
    ensures PurgeBlueprints(PurgeBlueprints(running, inner), outer) == []
  {
    var mid := PurgeBlueprints(running, inner);
    PurgeBlueprintsOrigin(running, inner);
    forall e | e in mid ensures PurgeFrames(e.nodes, outer) == [] {
      var o :| o in running && o.blueprint == e.blueprint && e.nodes == PurgeFrames(o.nodes, inner);
      NestedExitsClearStack(o.nodes, outer, inner);
    }
    PurgeBlueprintsOfCleared(mid, outer);
  }
}
