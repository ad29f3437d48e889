/** The Blueprint index commandlet: for every Blueprint derived from native
    classes it records, per native ancestor, the Blueprint itself, the
    ancestor's properties whose default value the Blueprint changes and
    the ancestor's functions the Blueprint implements; the index is written
    as JSON. Classes, properties and functions are values; the reflection
    system's reads of default-object fields are an input. */
module VisualStudioToolsCommandlet {
  import opened Wrappers
  import opened Text
  import opened Json
  import OrderedMap
  import opened CommandletBase

  // ----- Reflection data -----

  /** A class default object. */
  type ObjectId = int

  /** The reflected kind of a property, as far as value serialization tells
      kinds apart. */
  datatype PropertyKind =
    | EnumProperty
    | NumericProperty(enumBacked: bool, floatingPoint: bool, integer: bool)
    | BoolProperty
    | StrProperty
    | OtherProperty(className: string)

  /** A property declared directly on a class. */
  datatype Property = Property(name: string, arrayDim: int, kind: PropertyKind, category: Option<string>)

  /** A class in a super-class chain: its directly declared properties and
      functions, and its default object. */
  datatype ClassInfo = ClassInfo(
    name: string,
    prefixCpp: string,
    isNative: bool,
    properties: seq<Property>,
    functions: seq<string>,
    defaultObject: ObjectId)

  /** A Blueprint generated class: its super classes nearest first, the
      functions it declares directly, and its default object. */
  datatype BlueprintClass = BlueprintClass(
    name: string,
    path: string,
    supers: seq<ClassInfo>,
    functions: seq<string>,
    defaultObject: ObjectId)

  /** Element `idx` of the named property in a default object, as compared
      by `Identical`. */
  type ElementReader = (ObjectId, string, int) -> int

  // ----- Changed properties -----

  /** Some element of `p` in `data` differs from the one in `defaults`. */
  predicate Differs(p: Property, data: ObjectId, defaults: ObjectId, element: ElementReader) {
    exists idx :: 0 <= idx < p.arrayDim && element(data, p.name, idx) != element(defaults, p.name, idx)
  }

  /** The properties, in declaration order, whose value differs. */
  function ChangedProperties(props: seq<Property>, data: ObjectId, defaults: ObjectId, element: ElementReader): seq<Property>
    decreases |props|
  {
    if |props| == 0 then []
    else
      var last := props[|props| - 1];
      ChangedProperties(props[..|props| - 1], data, defaults, element)
        + (if Differs(last, data, defaults, element) then [last] else [])
  }

  /** The element loop of one property, stopping at the first difference. */
  method DiffersFromDefault(p: Property, data: ObjectId, defaults: ObjectId, element: ElementReader) returns (changed: bool)
    ensures changed == Differs(p, data, defaults, element)
  {
    changed := false;
    var idx := 0;
    while idx < p.arrayDim
      invariant !changed ==> forall k :: 0 <= k < idx ==> element(data, p.name, k) == element(defaults, p.name, k)
      invariant changed ==> Differs(p, data, defaults, element)
      decreases p.arrayDim - idx
    {
      if element(data, p.name, idx) != element(defaults, p.name, idx) {
        changed := true;
        break;
      }
      idx := idx + 1;
    }
  }

  /** `GetChangedPropertiesList`: the properties declared directly on
      `owner` whose value in `data` differs from the default. */
  method GetChangedPropertiesList(owner: ClassInfo, data: ObjectId, defaults: ObjectId, element: ElementReader)
    returns (result: seq<Property>)
    ensures result == ChangedProperties(owner.properties, data, defaults, element)
  {
    result := [];
    for i := 0 to |owner.properties|
      invariant result == ChangedProperties(owner.properties[..i], data, defaults, element)
    {
      assert owner.properties[..i + 1][..i] == owner.properties[..i];
      var changed := DiffersFromDefault(owner.properties[i], data, defaults, element);
      if changed {
        result := result + [owner.properties[i]];
      }
    }
    assert owner.properties[..|owner.properties|] == owner.properties;
  }

  /** Only properties declared on the class are listed, each exactly when
      one of its elements differs, in declaration order. */
  lemma {:induction false} ChangedPropertiesMembers(props: seq<Property>, data: ObjectId, defaults: ObjectId,
                                                    element: ElementReader)
    ensures forall p :: p in ChangedProperties(props, data, defaults, element) <==>
      p in props && Differs(p, data, defaults, element)
    ensures |ChangedProperties(props, data, defaults, element)| <= |props|
    decreases |props|
  {
    if |props| > 0 {
      var init := props[..|props| - 1];
      ChangedPropertiesMembers(init, data, defaults, element);
      assert props == init + [props[|props| - 1]];
    }
  }

  /** With distinct property names in the class, the listed names are
      distinct too: each property appears at most once. */
  lemma {:induction false} ChangedPropertiesUnique(props: seq<Property>, data: ObjectId, defaults: ObjectId,
                                                   element: ElementReader)
    requires DistinctNames(props)
    ensures DistinctNames(ChangedProperties(props, data, defaults, element))
    decreases |props|
  {
    if |props| > 0 {
      var init := props[..|props| - 1];
      var last := props[|props| - 1];
      assert forall k :: 0 <= k < |init| ==> init[k] == props[k];
      ChangedPropertiesUnique(init, data, defaults, element);
      ChangedPropertiesMembers(init, data, defaults, element);
      var c := ChangedProperties(init, data, defaults, element);
      forall q | q in c
        ensures q.name != last.name
      {
        var k :| 0 <= k < |init| && init[k] == q;
      }
      var r := c + (if Differs(last, data, defaults, element) then [last] else []);
      forall i, j | 0 <= i < j < |r|
        ensures r[i].name != r[j].name
      {
        if j == |c| {
          assert r[i] in c;
        }
      }
    }
  }

  /** No two properties share a name. */
  predicate DistinctNames(props: seq<Property>) {
    forall i, j :: 0 <= i < j < |props| ==> props[i].name != props[j].name
  }

  // ----- Native parents -----

  /** A super class that counts as a native parent: native, and not the
      root `Object` class. */
  predicate IsNativeParent(c: ClassInfo) {
    c.isNative && !EqualsIgnoreCase(c.name, "Object")
  }

  /** The native parents in the super-class chain, nearest first. */
  function NativeParents(supers: seq<ClassInfo>): seq<ClassInfo>
    decreases |supers|
  {
    if |supers| == 0 then []
    else
      var last := supers[|supers| - 1];
      NativeParents(supers[..|supers| - 1]) + (if IsNativeParent(last) then [last] else [])
  }

  /** `FindBlueprintNativeParents`: the classes the callback is called with,
      in call order, and whether there was any. */
  method FindBlueprintNativeParents(bp: BlueprintClass) returns (anyNativeParent: bool, parents: seq<ClassInfo>)
    ensures parents == NativeParents(bp.supers)
    ensures anyNativeParent <==> |parents| > 0
  {
    anyNativeParent := false;
    parents := [];
    for i := 0 to |bp.supers|
      invariant parents == NativeParents(bp.supers[..i])
      invariant anyNativeParent <==> |parents| > 0
    {
      assert bp.supers[..i + 1][..i] == bp.supers[..i];
      var super := bp.supers[i];
      if super.isNative && !EqualsIgnoreCase(super.name, "Object") {
        anyNativeParent := true;
        parents := parents + [super];
      }
    }
    assert bp.supers[..|bp.supers|] == bp.supers;
  }

  /** The callback sees exactly the native ancestors other than `Object`,
      nearest first: the selection keeps the chain's order. */
  lemma {:induction false} NativeParentsMembers(supers: seq<ClassInfo>)
    ensures forall c :: c in NativeParents(supers) <==> c in supers && IsNativeParent(c)
    ensures forall a, b :: NativeParents(a + b) == NativeParents(a) + NativeParents(b)
    decreases |supers|
  {
    if |supers| > 0 {
      var init := supers[..|supers| - 1];
      NativeParentsMembers(init);
      assert supers == init + [supers[|supers| - 1]];
    }
    forall a, b
      ensures NativeParents(a + b) == NativeParents(a) + NativeParents(b)
    {
      NativeParentsAppend(a, b);
    }
  }

  /** Selecting native parents distributes over concatenation. */
  lemma {:induction false} NativeParentsAppend(a: seq<ClassInfo>, b: seq<ClassInfo>)
    ensures NativeParents(a + b) == NativeParents(a) + NativeParents(b)
    decreases |b|
  {
    if |b| == 0 {
      assert a + b == a;
    } else {
      var init := b[..|b| - 1];
      assert (a + b)[..|a + b| - 1] == a + init;
      NativeParentsAppend(a, init);
    }
  }

  // ----- Value serialization -----

  /** Whether a property's value is written: scalars of enum, numeric
      (enum-backed, floating point or integer), bool and string kinds.
      The ensures only spell out that classification; what it means for the
      output (exactly the listed kinds carry a value, each in its JSON form)
      is stated by `ValueJsonRules`. */
  function ShouldSerializePropertyValue(p: Property): (r: bool)
    ensures p.arrayDim > 1 ==> !r
    ensures p.arrayDim <= 1 ==>
      (r <==> p.kind.EnumProperty? || p.kind.BoolProperty? || p.kind.StrProperty?
              || (p.kind.NumericProperty? && (p.kind.enumBacked || p.kind.floatingPoint || p.kind.integer)))
  {
    if p.arrayDim > 1 then false
    else match p.kind
      case EnumProperty => true
      case NumericProperty(enumBacked, floatingPoint, integer) =>
        if enumBacked then true
        else if floatingPoint then true
        else integer
      case BoolProperty => true
      case StrProperty => true
      case OtherProperty(_) => false
  }

  // ----- Use lists -----

  /** A map entry's first-recorded item together with the indices of the
      Blueprints that use it (`FPropertyEntry`, `FFunctionEntry`). */
  datatype Use<T> = Use(item: T, blueprints: seq<int>)

  type UseMap<T> = OrderedMap.Entries<Use<T>>

  /** Find-or-add the entry for `key`, then append `index` to its list. */
  function AddUse<T>(m: UseMap<T>, key: string, item: T, index: int): UseMap<T> {
    var u := match OrderedMap.Get(m, key)
      case None => Use(item, [index])
      case Some(prev) => Use(prev.item, prev.blueprints + [index]);
    OrderedMap.Put(m, key, u)
  }

  /** `AddUse` for each keyed item in turn. */
  function AddUses<T>(m: UseMap<T>, items: OrderedMap.Entries<T>, index: int): UseMap<T>
    decreases |items|
  {
    if |items| == 0 then m
    else
      var last := items[|items| - 1];
      AddUse(AddUses(m, items[..|items| - 1], index), last.0, last.1, index)
  }

  /** The Blueprint indices recorded under `key`; none when absent. */
  function UsesOf<T>(m: UseMap<T>, key: string): seq<int> {
    match OrderedMap.Get(m, key)
    case None => []
    case Some(u) => u.blueprints
  }

  /** Every recorded index lies in `[0, n)`. */
  predicate UsesBelow<T>(m: UseMap<T>, n: int) {
    forall i, k :: 0 <= i < |m| && 0 <= k < |m[i].1.blueprints| ==> 0 <= m[i].1.blueprints[k] < n
  }

  /** `b` grew from `a`: every entry stays at its position with its key and
      item, and its list only had indices appended. */
  predicate UsesExtend<T(==)>(a: UseMap<T>, b: UseMap<T>) {
    && |a| <= |b|
    && forall i :: 0 <= i < |a| ==>
         b[i].0 == a[i].0 && b[i].1.item == a[i].1.item && a[i].1.blueprints <= b[i].1.blueprints
  }

  /** Recording one key appends `index` to its list alone and keeps keys
      unique. */
  lemma AddUseSpec<T>(m: UseMap<T>, key: string, item: T, index: int)
    requires OrderedMap.UniqueKeys(m)
    ensures OrderedMap.UniqueKeys(AddUse(m, key, item, index))
    ensures UsesOf(AddUse(m, key, item, index), key) == UsesOf(m, key) + [index]
    ensures forall other :: other != key ==> UsesOf(AddUse(m, key, item, index), other) == UsesOf(m, other)
  {
    var u := match OrderedMap.Get(m, key)
      case None => Use(item, [index])
      case Some(prev) => Use(prev.item, prev.blueprints + [index]);
    OrderedMap.PutGet(m, key, u);
  }

  /** Recording keeps keys unique. */
  lemma {:induction false} AddUsesUnique<T>(m: UseMap<T>, items: OrderedMap.Entries<T>, index: int)
    requires OrderedMap.UniqueKeys(m)
    ensures OrderedMap.UniqueKeys(AddUses(m, items, index))
    decreases |items|
  {
    if |items| > 0 {
      var init := items[..|items| - 1];
      var last := items[|items| - 1];
      AddUsesUnique(m, init, index);
      AddUseSpec(AddUses(m, init, index), last.0, last.1, index);
    }
  }

  /** Recording a batch of distinct keys appends `index` to exactly their
      lists and changes nothing else. */
  lemma {:induction false} AddUsesSpec<T>(m: UseMap<T>, items: OrderedMap.Entries<T>, index: int, key: string)
    requires OrderedMap.UniqueKeys(m) && OrderedMap.UniqueKeys(items)
    ensures UsesOf(AddUses(m, items, index), key)
            == UsesOf(m, key) + (if key in OrderedMap.Keys(items) then [index] else [])
    decreases |items|
  {
    if |items| > 0 {
      var init := items[..|items| - 1];
      var last := items[|items| - 1];
      KeysSnoc(items, key);
      AddUsesSpec(m, init, index, key);
      AddUsesUnique(m, init, index);
      AddUseSpec(AddUses(m, init, index), last.0, last.1, index);
    }
  }

  /** Recording only appends: positions, keys and items stay, lists grow. */
  lemma {:induction false} AddUsesExtend<T>(m: UseMap<T>, items: OrderedMap.Entries<T>, index: int)
    ensures UsesExtend(m, AddUses(m, items, index))
    decreases |items|
  {
    if |items| > 0 {
      var init := items[..|items| - 1];
      var last := items[|items| - 1];
      AddUsesExtend(m, init, index);
      AddUseExtend(AddUses(m, init, index), last.0, last.1, index);
      UsesExtendTrans(m, AddUses(m, init, index), AddUses(m, items, index));
    }
  }

  /** The names of a map without its last entry. */
  lemma KeysSnoc<T>(items: OrderedMap.Entries<T>, key: string)
    requires |items| > 0
    ensures key in OrderedMap.Keys(items) <==> key in OrderedMap.Keys(items[..|items| - 1]) || key == items[|items| - 1].0
    ensures OrderedMap.UniqueKeys(items) ==>
      OrderedMap.UniqueKeys(items[..|items| - 1]) && items[|items| - 1].0 !in OrderedMap.Keys(items[..|items| - 1])
  {
    var init := items[..|items| - 1];
    assert OrderedMap.Keys(items) == OrderedMap.Keys(init) + [items[|items| - 1].0];
    if OrderedMap.UniqueKeys(items) {
      forall i, j | 0 <= i < j < |init|
        ensures init[i].0 != init[j].0
      {
        assert init[i] == items[i] && init[j] == items[j];
      }
    }
  }

  /** Recording one key only appends. */
  lemma AddUseExtend<T>(m: UseMap<T>, key: string, item: T, index: int)
    ensures UsesExtend(m, AddUse(m, key, item, index))
  {
    var r := AddUse(m, key, item, index);
    if OrderedMap.Find(m, key).Some? {
      var i := OrderedMap.Find(m, key).value;
      assert OrderedMap.Get(m, key) == Some(m[i].1);
      assert r == m[i := (key, Use(m[i].1.item, m[i].1.blueprints + [index]))];
    }
  }

  /** Recording one key with an index below `n` keeps every index below
      `n`. */
  lemma AddUseBelow<T>(m: UseMap<T>, key: string, item: T, index: int, n: int)
    requires UsesBelow(m, n) && 0 <= index < n
    ensures UsesBelow(AddUse(m, key, item, index), n)
  {
    var r := AddUse(m, key, item, index);
    forall i, k | 0 <= i < |r| && 0 <= k < |r[i].1.blueprints|
      ensures 0 <= r[i].1.blueprints[k] < n
    {
      if i < |m| && r[i] != m[i] {
        var prev := OrderedMap.Get(m, key).value;
        assert r[i].1.blueprints == prev.blueprints + [index];
        assert (key, prev) in m;
      }
    }
  }

  /** Recording an index below `n` keeps every index below `n`. */
  lemma {:induction false} AddUsesBelow<T>(m: UseMap<T>, items: OrderedMap.Entries<T>, index: int, n: int)
    requires UsesBelow(m, n) && 0 <= index < n
    ensures UsesBelow(AddUses(m, items, index), n)
    decreases |items|
  {
    if |items| > 0 {
      var init := items[..|items| - 1];
      var last := items[|items| - 1];
      AddUsesBelow(m, init, index, n);
      AddUseBelow(AddUses(m, init, index), last.0, last.1, index, n);
    }
  }

  /** The changed properties keyed by name. */
  function PropertyItems(changed: seq<Property>): (r: OrderedMap.Entries<Property>)
    ensures OrderedMap.Keys(r) == seq(|changed|, i requires 0 <= i < |changed| => changed[i].name)
    decreases |changed|
  {
    if |changed| == 0 then []
    else PropertyItems(changed[..|changed| - 1]) + [(changed[|changed| - 1].name, changed[|changed| - 1])]
  }

  /** The parent's functions, in declaration order, that the Blueprint
      class also declares directly, each keyed by its name. */
  function Overrides(parentFunctions: seq<string>, blueprintFunctions: seq<string>): (r: OrderedMap.Entries<string>)
    ensures forall f :: f in OrderedMap.Keys(r) <==> f in parentFunctions && f in blueprintFunctions
    decreases |parentFunctions|
  {
    if |parentFunctions| == 0 then []
    else
      var last := parentFunctions[|parentFunctions| - 1];
      var init := Overrides(parentFunctions[..|parentFunctions| - 1], blueprintFunctions);
      assert forall f :: f in parentFunctions <==> f in parentFunctions[..|parentFunctions| - 1] || f == last;
      var r := init + (if last in blueprintFunctions then [(last, last)] else []);
      assert OrderedMap.Keys(r) == OrderedMap.Keys(init) + (if last in blueprintFunctions then [last] else []);
      r
  }

  // ----- Class entries -----

  /** What the index holds per native parent (`FClassEntry`). */
  datatype ClassEntry = ClassEntry(
    info: ClassInfo,
    blueprints: seq<int>,
    properties: UseMap<Property>,
    functions: UseMap<string>)

  type ClassMap = OrderedMap.Entries<ClassEntry>

  /** The entry of `parent`, or a fresh one when it has none yet. */
  function EntryOrNew(classes: ClassMap, parent: ClassInfo): ClassEntry {
    match OrderedMap.Get(classes, parent.name)
    case None => ClassEntry(parent, [], [], [])
    case Some(e) => e
  }

  /** The entry `entry` after recording Blueprint `bp` at `index` under
      native parent `parent`. */
  function Recorded(entry: ClassEntry, parent: ClassInfo, bp: BlueprintClass, index: int,
                    element: ElementReader): ClassEntry
  {
    var changed := ChangedProperties(parent.properties, bp.defaultObject, parent.defaultObject, element);
    ClassEntry(
      entry.info,
      entry.blueprints + [index],
      AddUses(entry.properties, PropertyItems(changed), index),
      AddUses(entry.functions, Overrides(parent.functions, bp.functions), index))
  }

  /** The callback of `ProcessBlueprint` for one native parent: find-or-add
      the parent's entry, then append the Blueprint's index to the entry,
      to each property the Blueprint changes and to each parent function
      the Blueprint declares too. */
  function RecordParent(classes: ClassMap, parent: ClassInfo, bp: BlueprintClass, index: int,
                        element: ElementReader): ClassMap
  {
    OrderedMap.Put(classes, parent.name, Recorded(EntryOrNew(classes, parent), parent, bp, index, element))
  }

  /** The callback over the native parents in order. */
  function RecordParents(classes: ClassMap, parents: seq<ClassInfo>, bp: BlueprintClass, index: int,
                         element: ElementReader): ClassMap
    decreases |parents|
  {
    if |parents| == 0 then classes
    else RecordParent(RecordParents(classes, parents[..|parents| - 1], bp, index, element),
                      parents[|parents| - 1], bp, index, element)
  }

  /** Every index in `s` lies in `[0, n)`. */
  predicate IndicesBelow(s: seq<int>, n: int) {
    forall k :: 0 <= k < |s| ==> 0 <= s[k] < n
  }

  /** An entry whose maps have unique keys and whose indices all lie in
      `[0, n)`. */
  predicate EntryValid(e: ClassEntry, n: int) {
    && IndicesBelow(e.blueprints, n)
    && OrderedMap.UniqueKeys(e.properties) && UsesBelow(e.properties, n)
    && OrderedMap.UniqueKeys(e.functions) && UsesBelow(e.functions, n)
  }

  /** The index invariant for `n` Blueprints: one entry per class name, and
      every recorded index names one of the `n` Blueprints. */
  predicate ClassMapValid(classes: ClassMap, n: int) {
    && OrderedMap.UniqueKeys(classes)
    && forall i :: 0 <= i < |classes| ==> EntryValid(classes[i].1, n)
  }

  /** Recording an index below `n` keeps an entry valid. */
  lemma RecordedValid(entry: ClassEntry, parent: ClassInfo, bp: BlueprintClass, index: int,
                      element: ElementReader, n: int)
    requires EntryValid(entry, n) && 0 <= index < n
    ensures EntryValid(Recorded(entry, parent, bp, index, element), n)
  {
    var changed := ChangedProperties(parent.properties, bp.defaultObject, parent.defaultObject, element);
    AddUsesUnique(entry.properties, PropertyItems(changed), index);
    AddUsesBelow(entry.properties, PropertyItems(changed), index, n);
    AddUsesUnique(entry.functions, Overrides(parent.functions, bp.functions), index);
    AddUsesBelow(entry.functions, Overrides(parent.functions, bp.functions), index, n);
  }

  /** Storing a valid entry keeps the map valid. */
  lemma PutValid(classes: ClassMap, name: string, e: ClassEntry, n: int)
    requires ClassMapValid(classes, n) && EntryValid(e, n)
    ensures ClassMapValid(OrderedMap.Put(classes, name, e), n)
  {
    OrderedMap.PutGet(classes, name, e);
    var r := OrderedMap.Put(classes, name, e);
    forall i | 0 <= i < |r|
      ensures EntryValid(r[i].1, n)
    {
      if i < |classes| && r[i] != classes[i] {
        assert r[i].1 == e;
      }
    }
  }

  /** One parent step keeps the invariant for an index below `n`. */
  lemma RecordParentValid(classes: ClassMap, parent: ClassInfo, bp: BlueprintClass, index: int,
                          element: ElementReader, n: int)
    requires ClassMapValid(classes, n) && 0 <= index < n
    ensures ClassMapValid(RecordParent(classes, parent, bp, index, element), n)
  {
    var entry := EntryOrNew(classes, parent);
    if OrderedMap.Get(classes, parent.name).Some? {
      var i := OrderedMap.Find(classes, parent.name).value;
      assert EntryValid(classes[i].1, n);
    }
    RecordedValid(entry, parent, bp, index, element, n);
    PutValid(classes, parent.name, Recorded(entry, parent, bp, index, element), n);
  }

  /** All parent steps keep the invariant. */
  lemma {:induction false} RecordParentsValid(classes: ClassMap, parents: seq<ClassInfo>, bp: BlueprintClass,
                                              index: int, element: ElementReader, n: int)
    requires ClassMapValid(classes, n) && 0 <= index < n
    ensures ClassMapValid(RecordParents(classes, parents, bp, index, element), n)
    decreases |parents|
  {
    if |parents| > 0 {
      RecordParentsValid(classes, parents[..|parents| - 1], bp, index, element, n);
      RecordParentValid(RecordParents(classes, parents[..|parents| - 1], bp, index, element),
                        parents[|parents| - 1], bp, index, element, n);
    }
  }

  /** The invariant for `n` Blueprints holds for more. */
  lemma ClassMapValidGrows(classes: ClassMap, n: int, m: int)
    requires ClassMapValid(classes, n) && n <= m
    ensures ClassMapValid(classes, m)
  {
    forall i | 0 <= i < |classes|
      ensures EntryValid(classes[i].1, m)
    {
      assert EntryValid(classes[i].1, n);
    }
  }

  /** `b` grew from `a`: classes keep their positions, names and class
      data, and every list of theirs only had indices appended. */
  predicate ClassesExtend(a: ClassMap, b: ClassMap) {
    && |a| <= |b|
    && forall i :: 0 <= i < |a| ==>
         && b[i].0 == a[i].0 && b[i].1.info == a[i].1.info
         && a[i].1.blueprints <= b[i].1.blueprints
         && UsesExtend(a[i].1.properties, b[i].1.properties)
         && UsesExtend(a[i].1.functions, b[i].1.functions)
  }

  /** `UsesExtend` composes. */
  lemma UsesExtendTrans<T>(a: UseMap<T>, b: UseMap<T>, c: UseMap<T>)
    requires UsesExtend(a, b) && UsesExtend(b, c)
    ensures UsesExtend(a, c)
  {
    forall i | 0 <= i < |a|
      ensures a[i].1.blueprints <= c[i].1.blueprints
    {
      assert a[i].1.blueprints <= b[i].1.blueprints <= c[i].1.blueprints;
    }
  }

  /** One parent step only appends. */
  lemma RecordParentExtends(classes: ClassMap, parent: ClassInfo, bp: BlueprintClass, index: int,
                            element: ElementReader)
    ensures ClassesExtend(classes, RecordParent(classes, parent, bp, index, element))
  {
    var entry := EntryOrNew(classes, parent);
    var e := Recorded(entry, parent, bp, index, element);
    var r := RecordParent(classes, parent, bp, index, element);
    RecordedExtends(entry, parent, bp, index, element);
    match OrderedMap.Find(classes, parent.name)
    case None =>
      assert r == classes + [(parent.name, e)];
      assert forall i :: 0 <= i < |classes| ==> r[i] == classes[i];
    case Some(i) =>
      assert entry == classes[i].1;
      assert r == classes[i := (parent.name, e)];
  }

  /** Recording into an entry only appends to its lists. */
  lemma RecordedExtends(entry: ClassEntry, parent: ClassInfo, bp: BlueprintClass, index: int, element: ElementReader)
    ensures var r := Recorded(entry, parent, bp, index, element);
      && r.info == entry.info && entry.blueprints <= r.blueprints
      && UsesExtend(entry.properties, r.properties) && UsesExtend(entry.functions, r.functions)
  {
    var changed := ChangedProperties(parent.properties, bp.defaultObject, parent.defaultObject, element);
    AddUsesExtend(entry.properties, PropertyItems(changed), index);
    AddUsesExtend(entry.functions, Overrides(parent.functions, bp.functions), index);
  }

  /** The parent steps only append: no class, property or function entry is
      ever removed or moved, and no recorded index is ever dropped. */
  lemma {:induction false} RecordParentsExtends(classes: ClassMap, parents: seq<ClassInfo>, bp: BlueprintClass,
                                                index: int, element: ElementReader)
    ensures ClassesExtend(classes, RecordParents(classes, parents, bp, index, element))
    decreases |parents|
  {
    if |parents| > 0 {
      var mid := RecordParents(classes, parents[..|parents| - 1], bp, index, element);
      var last := RecordParents(classes, parents, bp, index, element);
      RecordParentsExtends(classes, parents[..|parents| - 1], bp, index, element);
      RecordParentExtends(mid, parents[|parents| - 1], bp, index, element);
      forall i | 0 <= i < |classes|
        ensures UsesExtend(classes[i].1.properties, last[i].1.properties)
        ensures UsesExtend(classes[i].1.functions, last[i].1.functions)
        ensures classes[i].1.blueprints <= last[i].1.blueprints
      {
        UsesExtendTrans(classes[i].1.properties, mid[i].1.properties, last[i].1.properties);
        UsesExtendTrans(classes[i].1.functions, mid[i].1.functions, last[i].1.functions);
        assert classes[i].1.blueprints <= mid[i].1.blueprints <= last[i].1.blueprints;
      }
    }
  }

  /** The Blueprint changes the value of the parent's property `name`. */
  predicate Changes(parent: ClassInfo, bp: BlueprintClass, element: ElementReader, name: string) {
    exists p :: p in parent.properties && p.name == name && Differs(p, bp.defaultObject, parent.defaultObject, element)
  }

  /** What one parent step records: the parent's entry gains the index, a
      property gains it exactly when the Blueprint changes its value, and a
      function `fn` gains it exactly when the parent declares it and the
      Blueprint class declares a function of the same name; other classes
      are untouched. */
  lemma RecordParentContents(classes: ClassMap, parent: ClassInfo, bp: BlueprintClass, index: int,
                             element: ElementReader, property: string, fn: string)
    requires ClassMapValid(classes, index)
    requires DistinctNames(parent.properties)
    requires forall i, j :: 0 <= i < j < |parent.functions| ==> parent.functions[i] != parent.functions[j]
    ensures var entry := EntryOrNew(classes, parent);
      var after := EntryOrNew(RecordParent(classes, parent, bp, index, element), parent);
      && after.info == entry.info
      && after.blueprints == entry.blueprints + [index]
      && UsesOf(after.properties, property) == UsesOf(entry.properties, property)
           + (if Changes(parent, bp, element, property) then [index] else [])
      && UsesOf(after.functions, fn) == UsesOf(entry.functions, fn)
           + (if fn in parent.functions && fn in bp.functions then [index] else [])
    ensures forall other :: other != parent.name ==>
      OrderedMap.Get(RecordParent(classes, parent, bp, index, element), other) == OrderedMap.Get(classes, other)
  {
    var entry := EntryOrNew(classes, parent);
    if OrderedMap.Find(classes, parent.name).Some? {
      assert entry == classes[OrderedMap.Find(classes, parent.name).value].1;
    }
    assert EntryValid(entry, index);
    RecordedPropertyUses(entry, parent, bp, index, element, property);
    RecordedFunctionUses(entry, parent, bp, index, element, fn);
    OrderedMap.PutGet(classes, parent.name, Recorded(entry, parent, bp, index, element));
  }

  /** A property's list gains the index exactly when the Blueprint changes
      its value. */
  lemma RecordedPropertyUses(entry: ClassEntry, parent: ClassInfo, bp: BlueprintClass, index: int,
                             element: ElementReader, property: string)
    requires OrderedMap.UniqueKeys(entry.properties)
    requires DistinctNames(parent.properties)
    ensures UsesOf(Recorded(entry, parent, bp, index, element).properties, property)
      == UsesOf(entry.properties, property) + (if Changes(parent, bp, element, property) then [index] else [])
  {
    var changed := ChangedProperties(parent.properties, bp.defaultObject, parent.defaultObject, element);
    var items := PropertyItems(changed);
    ChangedPropertiesUnique(parent.properties, bp.defaultObject, parent.defaultObject, element);
    ChangedPropertiesMembers(parent.properties, bp.defaultObject, parent.defaultObject, element);
    AddUsesSpec(entry.properties, items, index, property);
    PropertyItemsNames(changed, property);
  }

  /** A name keys an item exactly when a changed property has that name. */
  lemma PropertyItemsNames(changed: seq<Property>, name: string)
    ensures name in OrderedMap.Keys(PropertyItems(changed)) <==> exists p :: p in changed && p.name == name
  {
    var keys := OrderedMap.Keys(PropertyItems(changed));
    if name in keys {
      var k :| 0 <= k < |changed| && changed[k].name == name;
      assert changed[k] in changed;
    }
    if p :| p in changed && p.name == name {
      var k :| 0 <= k < |changed| && changed[k] == p;
      assert keys[k] == name;
    }
  }

  /** A function's list gains the index exactly when the parent declares it
      and the Blueprint class declares a function of the same name. */
  lemma RecordedFunctionUses(entry: ClassEntry, parent: ClassInfo, bp: BlueprintClass, index: int,
                             element: ElementReader, fn: string)
    requires OrderedMap.UniqueKeys(entry.functions)
    requires forall i, j :: 0 <= i < j < |parent.functions| ==> parent.functions[i] != parent.functions[j]
    ensures UsesOf(Recorded(entry, parent, bp, index, element).functions, fn)
      == UsesOf(entry.functions, fn) + (if fn in parent.functions && fn in bp.functions then [index] else [])
  {
    OverridesUnique(parent.functions, bp.functions);
    AddUsesSpec(entry.functions, Overrides(parent.functions, bp.functions), index, fn);
  }

  /** A parent with distinct function names yields distinct overrides. */
  lemma {:induction false} OverridesUnique(parentFunctions: seq<string>, blueprintFunctions: seq<string>)
    requires forall i, j :: 0 <= i < j < |parentFunctions| ==> parentFunctions[i] != parentFunctions[j]
    ensures OrderedMap.UniqueKeys(Overrides(parentFunctions, blueprintFunctions))
    decreases |parentFunctions|
  {
    if |parentFunctions| > 0 {
      var init := parentFunctions[..|parentFunctions| - 1];
      var last := parentFunctions[|parentFunctions| - 1];
      OverridesUnique(init, blueprintFunctions);
      var prev := Overrides(init, blueprintFunctions);
      assert last !in init;
      assert last !in OrderedMap.Keys(prev);
      var r := Overrides(parentFunctions, blueprintFunctions);
      forall i, j | 0 <= i < j < |r|
        ensures r[i].0 != r[j].0
      {
        if j == |prev| {
          assert r[i].0 == OrderedMap.Keys(prev)[i];
        }
      }
    }
  }

  // ----- Which Blueprints a class lists -----

  /** The Blueprint indices a class entry lists; none without an entry. */
  function ClassIndices(classes: ClassMap, name: string): seq<int> {
    match OrderedMap.Get(classes, name)
    case None => []
    case Some(e) => e.blueprints
  }

  /** The Blueprint has a native parent of that name. */
  predicate DerivesFrom(bp: BlueprintClass, name: string) {
    exists c :: c in NativeParents(bp.supers) && c.name == name
  }

  /** The index is exact: a class lists a Blueprint if and only if the
      Blueprint is indexed and has that class as a native parent. */
  ghost predicate Indexed(classes: ClassMap, blueprints: seq<BlueprintClass>) {
    IndexSound(classes, blueprints) && IndexComplete(classes, blueprints)
  }

  /** Every listed index names an indexed Blueprint deriving from the
      class. */
  ghost predicate IndexSound(classes: ClassMap, blueprints: seq<BlueprintClass>) {
    forall name, k :: 0 <= k < |ClassIndices(classes, name)| ==>
      var b := ClassIndices(classes, name)[k];
      0 <= b < |blueprints| && DerivesFrom(blueprints[b], name)
  }

  /** Every indexed Blueprint is listed by each class it derives from. */
  ghost predicate IndexComplete(classes: ClassMap, blueprints: seq<BlueprintClass>) {
    forall name, b :: 0 <= b < |blueprints| && DerivesFrom(blueprints[b], name) ==> b in ClassIndices(classes, name)
  }

  /** One parent step appends the index to that parent's list alone. */
  lemma RecordParentIndices(classes: ClassMap, parent: ClassInfo, bp: BlueprintClass, index: int,
                            element: ElementReader, name: string)
    requires OrderedMap.UniqueKeys(classes)
    ensures OrderedMap.UniqueKeys(RecordParent(classes, parent, bp, index, element))
    ensures ClassIndices(RecordParent(classes, parent, bp, index, element), name)
      == ClassIndices(classes, name) + (if name == parent.name then [index] else [])
  {
    OrderedMap.PutGet(classes, parent.name, Recorded(EntryOrNew(classes, parent), parent, bp, index, element));
  }

  /** The names of the given classes, in order. */
  function Names(cs: seq<ClassInfo>): (r: seq<string>)
    ensures |r| == |cs| && forall i :: 0 <= i < |cs| ==> r[i] == cs[i].name
  {
    seq(|cs|, i requires 0 <= i < |cs| => cs[i].name)
  }

  /** A name is among the parents' names when it is among the first ones'
      or is the last one's. */
  lemma NamesSnoc(parents: seq<ClassInfo>, name: string)
    requires |parents| > 0
    ensures name in Names(parents) <==> name in Names(parents[..|parents| - 1]) || name == parents[|parents| - 1].name
  {
    assert Names(parents) == Names(parents[..|parents| - 1]) + [parents[|parents| - 1].name];
  }

  /** Membership after a conditional append. */
  lemma AppendMember(s: seq<int>, t: seq<int>, c: bool, index: int, b: int)
    requires t == s + (if c then [index] else [])
    ensures b in t <==> b in s || (c && b == index)
  {
  }

  /** All parent steps keep class names unique. */
  lemma {:induction false} RecordParentsUnique(classes: ClassMap, parents: seq<ClassInfo>, bp: BlueprintClass,
                                               index: int, element: ElementReader)
    requires OrderedMap.UniqueKeys(classes)
    ensures OrderedMap.UniqueKeys(RecordParents(classes, parents, bp, index, element))
    decreases |parents|
  {
    if |parents| > 0 {
      var init := parents[..|parents| - 1];
      RecordParentsUnique(classes, init, bp, index, element);
      RecordParentIndices(RecordParents(classes, init, bp, index, element), parents[|parents| - 1], bp, index, element, "");
    }
  }

  /** After all parent steps a class lists `index` exactly when it listed
      it before or is one of the parents; other indices are unaffected. */
  lemma {:induction false} RecordParentsIndices(classes: ClassMap, parents: seq<ClassInfo>, bp: BlueprintClass,
                                                index: int, element: ElementReader, name: string, b: int)
    requires OrderedMap.UniqueKeys(classes)
    ensures b in ClassIndices(RecordParents(classes, parents, bp, index, element), name) <==>
      b in ClassIndices(classes, name) || (b == index && name in Names(parents))
    decreases |parents|
  {
    if |parents| > 0 {
      var init := parents[..|parents| - 1];
      var last := parents[|parents| - 1];
      var mid := RecordParents(classes, init, bp, index, element);
      RecordParentsIndices(classes, init, bp, index, element, name, b);
      RecordParentsUnique(classes, init, bp, index, element);
      RecordParentIndices(mid, last, bp, index, element, name);
      AppendMember(ClassIndices(mid, name), ClassIndices(RecordParent(mid, last, bp, index, element), name),
                   name == last.name, index, b);
      assert RecordParents(classes, parents, bp, index, element) == RecordParent(mid, last, bp, index, element);
      NamesSnoc(parents, name);
    }
  }

  /** The parents' names are exactly the names the Blueprint derives
      from. */
  lemma NamesDerives(bp: BlueprintClass, name: string)
    ensures name in Names(NativeParents(bp.supers)) <==> DerivesFrom(bp, name)
  {
    var parents := NativeParents(bp.supers);
    if name in Names(parents) {
      var i :| 0 <= i < |parents| && Names(parents)[i] == name;
      assert parents[i] in parents;
    }
    if DerivesFrom(bp, name) {
      var c :| c in parents && c.name == name;
      var i :| 0 <= i < |parents| && parents[i] == c;
      assert Names(parents)[i] == name;
    }
  }

  /** One instance of `Indexed`. */
  lemma IndexedAt(classes: ClassMap, blueprints: seq<BlueprintClass>, name: string, b: int)
    requires Indexed(classes, blueprints)
    ensures b in ClassIndices(classes, name) <==> 0 <= b < |blueprints| && DerivesFrom(blueprints[b], name)
  {
    if b in ClassIndices(classes, name) {
      var k :| 0 <= k < |ClassIndices(classes, name)| && ClassIndices(classes, name)[k] == b;
    }
  }

  /** `ProcessIndexed` for one class name and one index. */
  lemma ProcessIndexedAt(classes: ClassMap, blueprints: seq<BlueprintClass>, bp: BlueprintClass,
                         element: ElementReader, name: string, b: int)
    requires OrderedMap.UniqueKeys(classes)
    requires b in ClassIndices(classes, name) <==> 0 <= b < |blueprints| && DerivesFrom(blueprints[b], name)
    requires |blueprints| !in ClassIndices(classes, name)
    ensures var parents := NativeParents(bp.supers);
      var bs := blueprints + (if |parents| > 0 then [bp] else []);
      var after := RecordParents(classes, parents, bp, |blueprints|, element);
      (b in ClassIndices(after, name) <==> 0 <= b < |bs| && DerivesFrom(bs[b], name))
  {
    var parents := NativeParents(bp.supers);
    var bs := blueprints + (if |parents| > 0 then [bp] else []);
    RecordParentsIndices(classes, parents, bp, |blueprints|, element, name, b);
    NamesDerives(bp, name);
    if 0 <= b < |blueprints| {
      assert bs[b] == blueprints[b];
    } else if b == |blueprints| && |parents| > 0 {
      assert bs[b] == bp;
    }
  }

  /** `ProcessIndexedAt` from the invariant. */
  lemma ProcessIndexedPoint(classes: ClassMap, blueprints: seq<BlueprintClass>, bp: BlueprintClass,
                            element: ElementReader, name: string, b: int)
    requires OrderedMap.UniqueKeys(classes) && Indexed(classes, blueprints)
    ensures var parents := NativeParents(bp.supers);
      var bs := blueprints + (if |parents| > 0 then [bp] else []);
      var after := RecordParents(classes, parents, bp, |blueprints|, element);
      (b in ClassIndices(after, name) <==> 0 <= b < |bs| && DerivesFrom(bs[b], name))
  {
    IndexedAt(classes, blueprints, name, b);
    IndexedAt(classes, blueprints, name, |blueprints|);
    ProcessIndexedAt(classes, blueprints, bp, element, name, b);
  }

  /** Processing a Blueprint keeps every listed index sound. */
  lemma ProcessSound(classes: ClassMap, blueprints: seq<BlueprintClass>, bp: BlueprintClass, element: ElementReader)
    requires OrderedMap.UniqueKeys(classes) && Indexed(classes, blueprints)
    ensures var parents := NativeParents(bp.supers);
      IndexSound(RecordParents(classes, parents, bp, |blueprints|, element),
                 blueprints + (if |parents| > 0 then [bp] else []))
  {
    var parents := NativeParents(bp.supers);
    var after := RecordParents(classes, parents, bp, |blueprints|, element);
    var bs := blueprints + (if |parents| > 0 then [bp] else []);
    forall name, k | 0 <= k < |ClassIndices(after, name)|
      ensures 0 <= ClassIndices(after, name)[k] < |bs| && DerivesFrom(bs[ClassIndices(after, name)[k]], name)
    {
      ProcessIndexedPoint(classes, blueprints, bp, element, name, ClassIndices(after, name)[k]);
    }
  }

  /** Processing a Blueprint keeps every deriving Blueprint listed: its own
      index is listed by each of its native parents. */
  lemma ProcessComplete(classes: ClassMap, blueprints: seq<BlueprintClass>, bp: BlueprintClass, element: ElementReader)
    requires OrderedMap.UniqueKeys(classes) && Indexed(classes, blueprints)
    ensures var parents := NativeParents(bp.supers);
      IndexComplete(RecordParents(classes, parents, bp, |blueprints|, element),
                    blueprints + (if |parents| > 0 then [bp] else []))
  {
    var parents := NativeParents(bp.supers);
    var after := RecordParents(classes, parents, bp, |blueprints|, element);
    var bs := blueprints + (if |parents| > 0 then [bp] else []);
    forall name, b | 0 <= b < |bs| && DerivesFrom(bs[b], name)
      ensures b in ClassIndices(after, name)
    {
      ProcessIndexedPoint(classes, blueprints, bp, element, name, b);
    }
  }

  /** Processing a Blueprint keeps the index exact: its index is listed by
      exactly its native parents, and it is appended exactly when it has
      one. */
  lemma ProcessIndexed(classes: ClassMap, blueprints: seq<BlueprintClass>, bp: BlueprintClass, element: ElementReader)
    requires OrderedMap.UniqueKeys(classes) && Indexed(classes, blueprints)
    ensures var parents := NativeParents(bp.supers);
      Indexed(RecordParents(classes, parents, bp, |blueprints|, element),
              blueprints + (if |parents| > 0 then [bp] else []))
  {
    ProcessSound(classes, blueprints, bp, element);
    ProcessComplete(classes, blueprints, bp, element);
  }

  /** Processing a Blueprint keeps the whole index invariant. */
  lemma ProcessValid(classes: ClassMap, blueprints: seq<BlueprintClass>, bp: BlueprintClass, element: ElementReader)
    requires ClassMapValid(classes, |blueprints|) && Indexed(classes, blueprints)
    ensures var parents := NativeParents(bp.supers);
      var after := RecordParents(classes, parents, bp, |blueprints|, element);
      var bs := blueprints + (if |parents| > 0 then [bp] else []);
      ClassMapValid(after, |bs|) && Indexed(after, bs)
  {
    var parents := NativeParents(bp.supers);
    ProcessIndexed(classes, blueprints, bp, element);
    if |parents| > 0 {
      ClassMapValidGrows(classes, |blueprints|, |blueprints| + 1);
      RecordParentsValid(classes, parents, bp, |blueprints|, element, |blueprints| + 1);
    } else {
      assert RecordParents(classes, parents, bp, |blueprints|, element) == classes;
    }
  }

  /** The index state: the class map and the indexed Blueprints. */
  type IndexState = (ClassMap, seq<BlueprintClass>)

  /** `ProcessBlueprint` on index states: a missing class changes nothing;
      otherwise the native parents record the next index, and the Blueprint
      is appended exactly when there is one. */
  function Process(state: IndexState, generated: Option<BlueprintClass>, element: ElementReader): IndexState {
    match generated
    case None => state
    case Some(bp) =>
      var parents := NativeParents(bp.supers);
      (RecordParents(state.0, parents, bp, |state.1|, element),
       state.1 + (if |parents| > 0 then [bp] else []))
  }

  /** The scan: every loaded Blueprint class in turn, from an empty
      index. */
  function BuildIndex(assets: seq<Option<BlueprintClass>>, element: ElementReader): IndexState
    decreases |assets|
  {
    if |assets| == 0 then ([], [])
    else Process(BuildIndex(assets[..|assets| - 1], element), assets[|assets| - 1], element)
  }

  /** The loaded classes that have a native parent, in scan order. */
  function Retained(assets: seq<Option<BlueprintClass>>): seq<BlueprintClass>
    decreases |assets|
  {
    if |assets| == 0 then []
    else
      var last := assets[|assets| - 1];
      Retained(assets[..|assets| - 1])
        + (if last.Some? && |NativeParents(last.value.supers)| > 0 then [last.value] else [])
  }

  /** The scan ends with a valid, exact index whose Blueprint list is
      exactly the retained classes: indices are dense and in scan order. */
  lemma {:induction false} BuildIndexValid(assets: seq<Option<BlueprintClass>>, element: ElementReader)
    ensures ClassMapValid(BuildIndex(assets, element).0, |BuildIndex(assets, element).1|)
    ensures Indexed(BuildIndex(assets, element).0, BuildIndex(assets, element).1)
    ensures BuildIndex(assets, element).1 == Retained(assets)
    decreases |assets|
  {
    if |assets| > 0 {
      var prev := BuildIndex(assets[..|assets| - 1], element);
      BuildIndexValid(assets[..|assets| - 1], element);
      if assets[|assets| - 1].Some? {
        ProcessValid(prev.0, prev.1, assets[|assets| - 1].value, element);
      }
    } else {
      assert Indexed([], []) by {
        forall name: string
          ensures ClassIndices([], name) == []
        {
        }
      }
    }
  }

  // ----- The index -----

  /** The property loop of the callback: each changed property is recorded
      under its name. */
  method RecordPropertyUses(uses: UseMap<Property>, changed: seq<Property>, index: int) returns (r: UseMap<Property>)
    ensures r == AddUses(uses, PropertyItems(changed), index)
  {
    r := uses;
    for i := 0 to |changed|
      invariant r == AddUses(uses, PropertyItems(changed[..i]), index)
    {
      assert changed[..i + 1][..i] == changed[..i];
      var items := PropertyItems(changed[..i + 1]);
      assert items[..|items| - 1] == PropertyItems(changed[..i]);
      r := AddUse(r, changed[i].name, changed[i], index);
    }
    assert changed[..|changed|] == changed;
  }

  /** Recording one more keyed item is one more `AddUse`. */
  lemma AddUsesSnoc<T>(m: UseMap<T>, items: OrderedMap.Entries<T>, x: (string, T), index: int)
    ensures AddUses(m, items + [x], index) == AddUse(AddUses(m, items, index), x.0, x.1, index)
  {
    assert (items + [x])[..|items|] == items;
  }

  /** One more parent function adds an override exactly when the
      Blueprint class declares it. */
  lemma OverridesSnoc(parentFunctions: seq<string>, blueprintFunctions: seq<string>, i: int)
    requires 0 <= i < |parentFunctions|
    ensures Overrides(parentFunctions[..i + 1], blueprintFunctions)
      == Overrides(parentFunctions[..i], blueprintFunctions)
         + (if parentFunctions[i] in blueprintFunctions then [(parentFunctions[i], parentFunctions[i])] else [])
  {
    assert parentFunctions[..i + 1][..i] == parentFunctions[..i];
  }

  /** The function loop of the callback: a parent function is recorded
      only when the Blueprint class itself declares a function of that
      name. */
  method RecordOverrides(uses: UseMap<string>, parentFunctions: seq<string>, blueprintFunctions: seq<string>,
                         index: int)
    returns (r: UseMap<string>)
    ensures r == AddUses(uses, Overrides(parentFunctions, blueprintFunctions), index)
  {
    r := uses;
    for i := 0 to |parentFunctions|
      invariant r == AddUses(uses, Overrides(parentFunctions[..i], blueprintFunctions), index)
    {
      OverridesSnoc(parentFunctions, blueprintFunctions, i);
      var fn := parentFunctions[i];
      if fn !in blueprintFunctions {
        assert Overrides(parentFunctions[..i + 1], blueprintFunctions)
          == Overrides(parentFunctions[..i], blueprintFunctions);
        continue;
      }
      AddUsesSnoc(uses, Overrides(parentFunctions[..i], blueprintFunctions), (fn, fn), index);
      r := AddUse(r, fn, fn, index);
    }
    assert parentFunctions[..|parentFunctions|] == parentFunctions;
  }

  /** The state of the commandlet's `FAssetIndex`: the class map and the
      Blueprints indexed so far. */
  class AssetIndex {
    var classes: ClassMap
    var blueprints: seq<BlueprintClass>

    /** One entry per class, every recorded index names an indexed
        Blueprint, and each class lists exactly the Blueprints deriving
        from it. */
    ghost predicate Valid()
      reads this
    {
      ClassMapValid(classes, |blueprints|) && Indexed(classes, blueprints)
    }

    /** An empty index. */
    constructor ()
      ensures Valid() && classes == [] && blueprints == []
    {
      classes := [];
      blueprints := [];
    }

    /** The callback for one native parent: add the parent's entry if it
        has none, then record the Blueprint in it. */
    method RecordParentEntry(parent: ClassInfo, bp: BlueprintClass, index: int, element: ElementReader)
      requires OrderedMap.UniqueKeys(classes)
      modifies this
      ensures classes == RecordParent(old(classes), parent, bp, index, element)
      ensures blueprints == old(blueprints)
    {
      var added := ClassEntry(parent, [], [], []);
      if OrderedMap.Get(classes, parent.name).None? {
        classes := OrderedMap.Put(classes, parent.name, added);
      }
      var entry := OrderedMap.Get(classes, parent.name).value;
      assert entry == EntryOrNew(old(classes), parent) by {
        OrderedMap.PutGet(old(classes), parent.name, added);
      }
      var changed := GetChangedPropertiesList(parent, bp.defaultObject, parent.defaultObject, element);
      var properties := RecordPropertyUses(entry.properties, changed, index);
      var functions := RecordOverrides(entry.functions, parent.functions, bp.functions, index);
      classes := OrderedMap.Put(classes, parent.name,
                                ClassEntry(entry.info, entry.blueprints + [index], properties, functions));
      if OrderedMap.Get(old(classes), parent.name).None? {
        OrderedMap.PutPut(old(classes), parent.name, added, Recorded(entry, parent, bp, index, element));
      }
    }

    /** `ProcessBlueprint`: a missing class is skipped; otherwise every
        native parent records the Blueprint under the next index, and the
        Blueprint is appended exactly when it has a native parent. */
    method ProcessBlueprint(generated: Option<BlueprintClass>, element: ElementReader)
      requires Valid()
      modifies this
      ensures Valid()
      ensures (classes, blueprints) == Process((old(classes), old(blueprints)), generated, element)
    {
      if generated.None? {
        return;
      }
      var bp := generated.value;
      var index := |blueprints|;
      ProcessValid(classes, blueprints, bp, element);
      var anyParent, parents := FindBlueprintNativeParents(bp);
      RecordAllParents(parents, bp, index, element);
      if anyParent {
        blueprints := blueprints + [bp];
      } else {
        assert blueprints + [] == blueprints;
      }
    }

    /** The callback over each native parent in turn. */
    method RecordAllParents(parents: seq<ClassInfo>, bp: BlueprintClass, index: int, element: ElementReader)
      requires OrderedMap.UniqueKeys(classes)
      modifies this
      ensures classes == RecordParents(old(classes), parents, bp, index, element)
      ensures blueprints == old(blueprints)
    {
      for i := 0 to |parents|
        invariant blueprints == old(blueprints)
        invariant classes == RecordParents(old(classes), parents[..i], bp, index, element)
        invariant OrderedMap.UniqueKeys(classes)
      {
        assert parents[..i + 1][..i] == parents[..i];
        RecordParentIndices(classes, parents[i], bp, index, element, "");
        RecordParentEntry(parents[i], bp, index, element);
      }
      assert parents[..|parents|] == parents;
    }
  }

  // ----- The JSON index -----

  /** `FJsonObjectConverter` on a property's value in a default object. */
  type ValueConverter = (Property, ObjectId) -> Json

  /** One Blueprint: `{"name", "path"}`. */
  function BlueprintJson(bp: BlueprintClass): Json {
    Object([("name", String(bp.name)), ("path", String(bp.path))])
  }

  /** The Blueprint list, in index order. */
  function BlueprintsJson(blueprints: seq<BlueprintClass>): Json {
    Array(seq(|blueprints|, i requires 0 <= i < |blueprints| => BlueprintJson(blueprints[i])))
  }

  /** A property's metadata object: `categories` only with Category
      metadata. */
  function MetadataJson(p: Property): Json {
    Object(if p.category.Some? then [("categories", String(p.category.value))] else [])
  }

  /** One value item: the Blueprint's index, and its value when the
      property's kind is serialized. */
  function ValueJson(p: Property, b: int, blueprints: seq<BlueprintClass>, convert: ValueConverter): Json
    requires 0 <= b < |blueprints|
  {
    Object([("blueprint", Number(b))]
      + (if ShouldSerializePropertyValue(p) then [("value", convert(p, blueprints[b].defaultObject))] else []))
  }

  /** One changed property with its metadata and one value per Blueprint
      that changes it. */
  function PropertyJson(name: string, u: Use<Property>, blueprints: seq<BlueprintClass>, convert: ValueConverter): Json
    requires IndicesBelow(u.blueprints, |blueprints|)
  {
    Object([
      ("name", String(name)),
      ("metadata", MetadataJson(u.item)),
      ("values", Array(seq(|u.blueprints|, k requires 0 <= k < |u.blueprints| =>
        ValueJson(u.item, u.blueprints[k], blueprints, convert))))])
  }

  /** A use map's lists are all in range. */
  lemma UsesBelowAt<T>(m: UseMap<T>, n: int, i: int)
    requires UsesBelow(m, n) && 0 <= i < |m|
    ensures IndicesBelow(m[i].1.blueprints, n)
  {
  }

  /** `SerializeProperties` as a value. */
  function PropertiesJson(props: UseMap<Property>, blueprints: seq<BlueprintClass>, convert: ValueConverter): Json
    requires UsesBelow(props, |blueprints|)
  {
    Array(seq(|props|, i requires 0 <= i < |props| =>
      UsesBelowAt(props, |blueprints|, i);
      PropertyJson(props[i].0, props[i].1, blueprints, convert)))
  }

  /** One function with the Blueprints implementing it. */
  function FunctionJson(name: string, u: Use<string>): Json {
    Object([("name", String(name)), ("blueprints", Numbers(u.blueprints))])
  }

  /** `SerializeFunctions` as a value. */
  function FunctionsJson(fns: UseMap<string>): Json {
    Array(seq(|fns|, i requires 0 <= i < |fns| => FunctionJson(fns[i].0, fns[i].1)))
  }

  /** One class: its C++ name (prefix and name), its Blueprints, changed
      properties and implemented functions. */
  function ClassJson(e: ClassEntry, blueprints: seq<BlueprintClass>, convert: ValueConverter): Json
    requires EntryValid(e, |blueprints|)
  {
    Object([
      ("name", String(e.info.prefixCpp + e.info.name)),
      ("blueprints", Numbers(e.blueprints)),
      ("properties", PropertiesJson(e.properties, blueprints, convert)),
      ("functions", FunctionsJson(e.functions))])
  }

  /** `SerializeClasses` as a value. */
  function ClassesJson(classes: ClassMap, blueprints: seq<BlueprintClass>, convert: ValueConverter): Json
    requires ClassMapValid(classes, |blueprints|)
  {
    Array(seq(|classes|, i requires 0 <= i < |classes| => ClassJson(classes[i].1, blueprints, convert)))
  }

  /** `SerializeToIndex` as a value. */
  function IndexJson(classes: ClassMap, blueprints: seq<BlueprintClass>, convert: ValueConverter): Json
    requires ClassMapValid(classes, |blueprints|)
  {
    Object([("blueprints", BlueprintsJson(blueprints)), ("classes", ClassesJson(classes, blueprints, convert))])
  }

  /** A value item always names its Blueprint, and carries `value` exactly
      when the property's kind is serialized, converted from that
      Blueprint's default object. */
  lemma ValueJsonRules(p: Property, b: int, blueprints: seq<BlueprintClass>, convert: ValueConverter)
    requires 0 <= b < |blueprints|
    ensures Get(ValueJson(p, b, blueprints, convert), "blueprint") == Some(Number(b))
    ensures Get(ValueJson(p, b, blueprints, convert), "value").Some? <==> ShouldSerializePropertyValue(p)
    ensures ShouldSerializePropertyValue(p) ==>
      Get(ValueJson(p, b, blueprints, convert), "value") == Some(convert(p, blueprints[b].defaultObject))
    ensures OrderedMap.Keys(ValueJson(p, b, blueprints, convert).members)
      == ["blueprint"] + (if ShouldSerializePropertyValue(p) then ["value"] else [])
  {
    var v := ValueJson(p, b, blueprints, convert);
    assert v.members[0] == ("blueprint", Number(b));
    if ShouldSerializePropertyValue(p) {
      assert v.members[1] == ("value", convert(p, blueprints[b].defaultObject));
    }
  }

  /** Metadata is always an object, with `categories` exactly when the
      property has a category. */
  lemma MetadataRules(p: Property)
    ensures MetadataJson(p).Object?
    ensures Get(MetadataJson(p), "categories") == if p.category.Some? then Some(String(p.category.value)) else None
    ensures OrderedMap.Keys(MetadataJson(p).members) == if p.category.Some? then ["categories"] else []
  {
    if p.category.Some? {
      assert MetadataJson(p).members[0] == ("categories", String(p.category.value));
    }
  }

  /** A property object has its name, metadata and one value item per
      recorded Blueprint, in recording order. */
  lemma PropertyJsonRules(name: string, u: Use<Property>, blueprints: seq<BlueprintClass>, convert: ValueConverter)
    requires IndicesBelow(u.blueprints, |blueprints|)
    ensures var j := PropertyJson(name, u, blueprints, convert);
      && OrderedMap.Keys(j.members) == ["name", "metadata", "values"]
      && Get(j, "name") == Some(String(name))
      && Get(j, "metadata") == Some(MetadataJson(u.item))
      && Get(j, "values").Some? && Get(j, "values").value.Array?
      && |Get(j, "values").value.items| == |u.blueprints|
      && forall k :: 0 <= k < |u.blueprints| ==>
           Get(Get(j, "values").value.items[k], "blueprint") == Some(Number(u.blueprints[k]))
  {
    var j := PropertyJson(name, u, blueprints, convert);
    assert j.members[0].0 == "name" && j.members[1].0 == "metadata" && j.members[2].0 == "values";
    var values := j.members[2].1;
    forall k | 0 <= k < |u.blueprints|
      ensures Get(values.items[k], "blueprint") == Some(Number(u.blueprints[k]))
    {
      ValueJsonRules(u.item, u.blueprints[k], blueprints, convert);
    }
  }

  /** A Blueprint item is `{"name", "path"}`. */
  lemma BlueprintJsonRules(bp: BlueprintClass)
    ensures OrderedMap.Keys(BlueprintJson(bp).members) == ["name", "path"]
    ensures Get(BlueprintJson(bp), "name") == Some(String(bp.name))
    ensures Get(BlueprintJson(bp), "path") == Some(String(bp.path))
  {
    assert BlueprintJson(bp).members[0] == ("name", String(bp.name));
    assert BlueprintJson(bp).members[1] == ("path", String(bp.path));
  }

  /** A class item is named by its C++ prefix and name, and lists only
      indices of indexed Blueprints. */
  lemma ClassJsonRules(e: ClassEntry, blueprints: seq<BlueprintClass>, convert: ValueConverter)
    requires EntryValid(e, |blueprints|)
    ensures OrderedMap.Keys(ClassJson(e, blueprints, convert).members) == ["name", "blueprints", "properties", "functions"]
    ensures Get(ClassJson(e, blueprints, convert), "name") == Some(String(e.info.prefixCpp + e.info.name))
    ensures Get(ClassJson(e, blueprints, convert), "blueprints") == Some(Numbers(e.blueprints))
    ensures forall k :: 0 <= k < |e.blueprints| ==> 0 <= e.blueprints[k] < |blueprints|
  {
    var c := ClassJson(e, blueprints, convert);
    assert c.members[0].0 == "name" && c.members[1].0 == "blueprints";
  }

  /** The document is `{"blueprints", "classes"}`: one `{name, path}` per
      indexed Blueprint in index order, one object per class entry named by
      its C++ prefix and name, and every Blueprint index a class lists
      points into the Blueprint array. */
  lemma IndexJsonShape(classes: ClassMap, blueprints: seq<BlueprintClass>, convert: ValueConverter)
    requires ClassMapValid(classes, |blueprints|)
    ensures var doc := IndexJson(classes, blueprints, convert);
      && OrderedMap.Keys(doc.members) == ["blueprints", "classes"]
      && Get(doc, "blueprints") == Some(BlueprintsJson(blueprints))
      && Get(doc, "classes") == Some(ClassesJson(classes, blueprints, convert))
    ensures var bs := BlueprintsJson(blueprints).items;
      && |bs| == |blueprints|
      && forall b :: 0 <= b < |blueprints| ==>
           && OrderedMap.Keys(bs[b].members) == ["name", "path"]
           && Get(bs[b], "name") == Some(String(blueprints[b].name))
           && Get(bs[b], "path") == Some(String(blueprints[b].path))
    ensures var cs := ClassesJson(classes, blueprints, convert).items;
      && |cs| == |classes|
      && forall i :: 0 <= i < |classes| ==>
           && OrderedMap.Keys(cs[i].members) == ["name", "blueprints", "properties", "functions"]
           && Get(cs[i], "name") == Some(String(classes[i].1.info.prefixCpp + classes[i].1.info.name))
           && Get(cs[i], "blueprints") == Some(Numbers(classes[i].1.blueprints))
           && forall k :: 0 <= k < |classes[i].1.blueprints| ==> 0 <= classes[i].1.blueprints[k] < |blueprints|
  {
    var doc := IndexJson(classes, blueprints, convert);
    assert doc.members[0].0 == "blueprints" && doc.members[1].0 == "classes";
    var bs := BlueprintsJson(blueprints).items;
    forall b | 0 <= b < |blueprints|
      ensures OrderedMap.Keys(bs[b].members) == ["name", "path"]
      ensures Get(bs[b], "name") == Some(String(blueprints[b].name))
      ensures Get(bs[b], "path") == Some(String(blueprints[b].path))
    {
      BlueprintJsonRules(blueprints[b]);
    }
    var cs := ClassesJson(classes, blueprints, convert).items;
    forall i | 0 <= i < |classes|
      ensures OrderedMap.Keys(cs[i].members) == ["name", "blueprints", "properties", "functions"]
      ensures Get(cs[i], "name") == Some(String(classes[i].1.info.prefixCpp + classes[i].1.info.name))
      ensures Get(cs[i], "blueprints") == Some(Numbers(classes[i].1.blueprints))
      ensures forall k :: 0 <= k < |classes[i].1.blueprints| ==> 0 <= classes[i].1.blueprints[k] < |blueprints|
    {
      assert EntryValid(classes[i].1, |blueprints|);
      assert cs[i] == ClassJson(classes[i].1, blueprints, convert);
      ClassJsonRules(classes[i].1, blueprints, convert);
    }
  }

  // ----- The serializer loops -----

  /** `SerializeBlueprints`. */
  method SerializeBlueprints(blueprints: seq<BlueprintClass>) returns (j: Json)
    ensures j == BlueprintsJson(blueprints)
  {
    var items: seq<Json> := [];
    for i := 0 to |blueprints|
      invariant |items| == i
      invariant forall k :: 0 <= k < i ==> items[k] == BlueprintJson(blueprints[k])
    {
      items := items + [Object([("name", String(blueprints[i].name)), ("path", String(blueprints[i].path))])];
    }
    j := Array(items);
  }

  /** The value loop of one property. */
  method SerializeValues(u: Use<Property>, blueprints: seq<BlueprintClass>, convert: ValueConverter)
    returns (items: seq<Json>)
    requires IndicesBelow(u.blueprints, |blueprints|)
    ensures |items| == |u.blueprints|
    ensures forall k :: 0 <= k < |u.blueprints| ==> items[k] == ValueJson(u.item, u.blueprints[k], blueprints, convert)
  {
    items := [];
    for k := 0 to |u.blueprints|
      invariant |items| == k
      invariant forall m :: 0 <= m < k ==> items[m] == ValueJson(u.item, u.blueprints[m], blueprints, convert)
    {
      var b := u.blueprints[k];
      var members := [("blueprint", Number(b))];
      if ShouldSerializePropertyValue(u.item) {
        members := members + [("value", convert(u.item, blueprints[b].defaultObject))];
      }
      items := items + [Object(members)];
    }
  }

  /** `SerializeProperties`. */
  method SerializeProperties(e: ClassEntry, blueprints: seq<BlueprintClass>, convert: ValueConverter) returns (j: Json)
    requires EntryValid(e, |blueprints|)
    ensures j == PropertiesJson(e.properties, blueprints, convert)
  {
    var props := e.properties;
    var items: seq<Json> := [];
    for i := 0 to |props|
      invariant |items| == i
      invariant forall k :: 0 <= k < i ==>
        IndicesBelow(props[k].1.blueprints, |blueprints|) && items[k] == PropertyJson(props[k].0, props[k].1, blueprints, convert)
    {
      UsesBelowAt(props, |blueprints|, i);
      var values := SerializeValues(props[i].1, blueprints, convert);
      var u := props[i].1;
      assert values == seq(|u.blueprints|, k requires 0 <= k < |u.blueprints| =>
        ValueJson(u.item, u.blueprints[k], blueprints, convert));
      items := items + [Object([
        ("name", String(props[i].0)),
        ("metadata", MetadataJson(props[i].1.item)),
        ("values", Array(values))])];
    }
    j := Array(items);
  }

  /** `SerializeFunctions`. */
  method SerializeFunctions(e: ClassEntry) returns (j: Json)
    ensures j == FunctionsJson(e.functions)
  {
    var items: seq<Json> := [];
    for i := 0 to |e.functions|
      invariant |items| == i
      invariant forall k :: 0 <= k < i ==> items[k] == FunctionJson(e.functions[k].0, e.functions[k].1)
    {
      items := items + [Object([("name", String(e.functions[i].0)), ("blueprints", Numbers(e.functions[i].1.blueprints))])];
    }
    j := Array(items);
  }

  /** `SerializeClasses`. */
  method SerializeClasses(classes: ClassMap, blueprints: seq<BlueprintClass>, convert: ValueConverter) returns (j: Json)
    requires ClassMapValid(classes, |blueprints|)
    ensures j == ClassesJson(classes, blueprints, convert)
  {
    var items: seq<Json> := [];
    for i := 0 to |classes|
      invariant |items| == i
      invariant forall k :: 0 <= k < i ==> items[k] == ClassJson(classes[k].1, blueprints, convert)
    {
      var e := classes[i].1;
      assert EntryValid(e, |blueprints|);
      var properties := SerializeProperties(e, blueprints, convert);
      var functions := SerializeFunctions(e);
      items := items + [Object([
        ("name", String(e.info.prefixCpp + e.info.name)),
        ("blueprints", Numbers(e.blueprints)),
        ("properties", properties),
        ("functions", functions)])];
    }
    j := Array(items);
  }

  /** `SerializeToIndex`. */
  method SerializeToIndex(index: AssetIndex, convert: ValueConverter) returns (j: Json)
    requires index.Valid()
    ensures j == IndexJson(index.classes, index.blueprints, convert)
  {
    var blueprints := SerializeBlueprints(index.blueprints);
    var classes := SerializeClasses(index.classes, index.blueprints, convert);
    j := Object([("blueprints", blueprints), ("classes", classes)]);
  }

  // ----- Run -----

  /** Which native classes the scan takes Blueprints from. */
  datatype ScanMode =
    | FilteredPath(path: string)   // modules under the `filter` path
    | ProjectDirectory             // modules under the project directory
    | AllNativeClasses             // `full`: every native class

  /** The scan the options ask for; none when `filter` and `full` are both
      given. */
  function RequestedScan(cmd: CommandLine): (r: Option<ScanMode>)
    ensures r.None? <==> Param(cmd, "filter").Some? && HasSwitch(cmd, "full")
    ensures r == Some(AllNativeClasses) <==> Param(cmd, "filter").None? && HasSwitch(cmd, "full")
    ensures r == Some(ProjectDirectory) <==> Param(cmd, "filter").None? && !HasSwitch(cmd, "full")
    ensures r.Some? && r.value.FilteredPath? <==> Param(cmd, "filter").Some? && !HasSwitch(cmd, "full")
    ensures r.Some? && r.value.FilteredPath? ==> r.value.path == Param(cmd, "filter").value
  {
    var filter := Param(cmd, "filter");
    var fullScan := HasSwitch(cmd, "full");
    if filter.Some? && fullScan then None
    else if !fullScan then Some(if filter.Some? then FilteredPath(filter.value) else ProjectDirectory)
    else Some(AllNativeClasses)
  }

  /** The document written for a scan of the given loaded classes. */
  function ScanReport(assets: seq<Option<BlueprintClass>>, element: ElementReader, convert: ValueConverter): Json {
    BuildIndexValid(assets, element);
    IndexJson(BuildIndex(assets, element).0, BuildIndex(assets, element).1, convert)
  }

  /** The asset loop: every loaded Blueprint class goes to
      `ProcessBlueprint` in turn. */
  method ScanAssets(assets: seq<Option<BlueprintClass>>, element: ElementReader) returns (index: AssetIndex)
    ensures fresh(index) && index.Valid()
    ensures (index.classes, index.blueprints) == BuildIndex(assets, element)
  {
    index := new AssetIndex();
    for i := 0 to |assets|
      invariant fresh(index) && index.Valid()
      invariant (index.classes, index.blueprints) == BuildIndex(assets[..i], element)
    {
      assert assets[..i + 1][..i] == assets[..i];
      index.ProcessBlueprint(assets[i], element);
    }
    assert assets[..|assets|] == assets;
  }

  /** `Run`: -1 before scanning when `filter` and `full` are both given;
      otherwise the Blueprints loaded for the requested scan are indexed,
      the index is written and 0 returned. `scan` stands for the asset
      registry query and loader, `element` for the reflected default-object
      reads, `convert` for the value converter. */
  method Run(cmd: CommandLine, scan: ScanMode -> seq<Option<BlueprintClass>>, element: ElementReader,
             convert: ValueConverter)
    returns (code: int, written: Option<Json>)
    ensures code == 0 || code == -1
    ensures code == -1 <==> Param(cmd, "filter").Some? && HasSwitch(cmd, "full")
    ensures code == -1 ==> written.None?
    ensures code == 0 ==> written == Some(ScanReport(scan(RequestedScan(cmd).value), element, convert))
  {
    var filter := Param(cmd, "filter");
    var fullScan := HasSwitch(cmd, "full");
    if filter.Some? && fullScan {
      return -1, None;
    }
    var mode;
    if !fullScan {
      if filter.Some? {
        mode := FilteredPath(filter.value);
      } else {
        mode := ProjectDirectory;
      }
    } else {
      mode := AllNativeClasses;
    }
    var index := ScanAssets(scan(mode), element);
    var doc := SerializeToIndex(index, convert);
    written := Some(doc);
    code := 0;
  }

  const CommandletDescription := "Commandlet for generating data used by Blueprint support in Visual Studio."
  const CommandletUsage := "<Editor-Cmd.exe> <path_to_uproject> -run=VisualStudioTools -output=<path_to_output_file> [-filter=<subdir_native_classes>|-full] [-unattended -noshadercompile -nosound -nullrhi -nocpuprofilertrace -nocrashreports -nosplash]"
  const FilterDescription := "[Optional] Scan only blueprints derived from native classes under the provided path. Defaults to `FPaths::ProjectDir`. Incompatible with `-full`."
  const FullDescription := "[Optional] Scan blueprints derived from native classes from ALL modules, include the Engine. This can be _very slow_ for large projects. Incompatible with `-filter`."

  /** The constructor: the base's help entries followed by `filter` and
      `full`. */
  method NewCommandlet() returns (help: CommandletHelp)
    ensures fresh(help) && help.Valid()
    ensures help.helpDescription == CommandletDescription && help.helpUsage == CommandletUsage
    ensures help.helpParamNames == ["output", "help", "filter", "full"]
    ensures help.helpParamDescriptions == [OutputDescription, HelpDescription, FilterDescription, FullDescription]
  {
    help := new CommandletHelp.ToolsBase();
    help.SetUsage(CommandletDescription, CommandletUsage);
    help.AddHelpParam("filter", FilterDescription);
    help.AddHelpParam("full", FullDescription);
  }
}
