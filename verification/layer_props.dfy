/**
 * Model of `createProps` and its helpers: how a layer class's merged prop
 * definitions are built once per class from the class chain and cached, what
 * the merged default-props object holds, and how a layer's props object is
 * built on top of it, written to and read.
 */
module LayerProps {
  import opened JsValue
  import PropTypes
  import AsyncProps

  // ---------------------------------------------------------------------
  // Layer classes

  /**
   * A layer class as `createProps` sees it: its `name`, its own static
   * properties and the class it extends. A base class extends
   * `Function.prototype`, which has no `prototype` property and ends the walk.
   */
  datatype LayerClass =
    | FunctionPrototype
    | Class(name: string, statics: map<string, Value>, parent: LayerClass)

  /** `getOwnProperty`: a static the class defines itself, or `false`; inherited statics are never seen. */
  function GetOwnProperty(statics: map<string, Value>, key: string): (r: Value)
    ensures Truthy(r) <==> key in statics && Truthy(statics[key])
    ensures Truthy(r) ==> r == statics[key]
  {
    if key in statics then statics[key] else Bool(false)
  }

  /** `getLayerName`: the class's own truthy `layerName`, else its constructor name. */
  function LayerName(c: LayerClass): (r: Value)
    requires c.Class?
  {
    var layerName := GetOwnProperty(c.statics, "layerName");
    if Truthy(layerName) then layerName else Str(c.name)
  }

  /**
   * The name is the class's own `layerName` when that is truthy, and the
   * constructor name otherwise (also when `layerName` is set but falsy).
   */
  lemma LayerNameIsOwnOrConstructorName(c: LayerClass)
    requires c.Class?
    ensures "layerName" in c.statics && Truthy(c.statics["layerName"]) ==> LayerName(c) == c.statics["layerName"]
    ensures !("layerName" in c.statics && Truthy(c.statics["layerName"])) ==> LayerName(c) == Str(c.name)
  {
  }

  /**
   * A consequence of the definition, kept as documentation: the name does not
   * depend on the parent class, so a subclass without its own `layerName` is
   * named after its constructor whatever its ancestors declare.
   */
  lemma InheritedLayerNameIgnored(name: string, statics: map<string, Value>, parent1: LayerClass, parent2: LayerClass)
    ensures LayerName(Class(name, statics, parent1)) == LayerName(Class(name, statics, parent2))
    ensures "layerName" !in statics ==> LayerName(Class(name, statics, parent1)) == Str(name)
  {
  }

  /** The class's own `defaultProps` (`getOwnProperty(layerClass, 'defaultProps') || {}`), as `parsePropTypes` walks them. */
  function OwnDefaultProps(c: LayerClass): map<string, Value>
    requires c.Class?
  {
    Fields(GetOwnProperty(c.statics, "defaultProps"))
  }

  // ---------------------------------------------------------------------
  // Merged default props

  const RewritableDefaultsKey: string := "_rewritablePropDefaults"

  /** A property of a merged default-props object: a plain value, or the getter/setter pair of an async prop. */
  datatype Entry = Data(value: Value) | Accessor(defaultValue: Value)

  /**
   * A merged default-props object (it has no prototype): its properties, the
   * ones among them that are enumerable (what a subclass's `Object.assign`
   * copies), and the non-enumerable `_rewritablePropDefaults` table holding
   * the default of every async prop.
   */
  datatype DefaultProps = DefaultProps(
    entries: map<string, Entry>,
    enumerable: set<string>,
    rewritablePropDefaults: map<string, Value>)

  /** What `getPropDefs` returns for a class. */
  datatype PropDefs = PropDefs(defaultProps: DefaultProps, propTypes: map<string, PropTypes.Descriptor>)

  function NoPropDefs(): PropDefs {
    PropDefs(DefaultProps(map[], {}, map[]), map[])
  }

  /**
   * Reading an entry on the default-props object itself. An async getter
   * finds neither `_layer` nor `_rewritableProps` there and returns the
   * default it captured.
   */
  function EntryValue(e: Entry): Value {
    match e
    case Data(v) => v
    case Accessor(d) => d
  }

  /** The descriptor of `key` is marked `async`. */
  predicate IsAsync(propTypes: map<string, PropTypes.Descriptor>, key: string) {
    key in propTypes && Truthy(Get(propTypes[key], "async"))
  }

  function AsyncKeys(propTypes: map<string, PropTypes.Descriptor>): set<string> {
    set k | k in propTypes && IsAsync(propTypes, k)
  }

  /** The values `Object.assign(defaultProps, parentProps, props)` puts into the fresh object. */
  function AssignedDefaults(props: map<string, Value>, parent: DefaultProps): map<string, Value> {
    map k | k in props.Keys + (parent.enumerable * parent.entries.Keys) ::
      if k in props then props[k] else EntryValue(parent.entries[k])
  }

  /** The property `buildDefaultProps` leaves under `key`, given the assigned values. */
  function DefaultEntry(copied: map<string, Value>, propTypes: map<string, PropTypes.Descriptor>, layerName: Value, key: string): Entry {
    if IsAsync(propTypes, key) then Accessor(Get(copied, key))
    else if key == "id" then Data(layerName)
    else Data(Get(copied, key))
  }

  /**
   * The merged default-props object `buildDefaultProps` builds. Redefining an
   * existing property keeps it enumerable, and a new one (`id` when no class
   * declared it) is not, so the enumerable properties are exactly the
   * assigned ones.
   */
  function DefaultPropsOf(props: map<string, Value>, parent: DefaultProps, propTypes: map<string, PropTypes.Descriptor>, layerName: Value): DefaultProps {
    var copied := AssignedDefaults(props, parent);
    DefaultProps(
      map k | k in (copied.Keys + {"id"} + AsyncKeys(propTypes)) - {RewritableDefaultsKey} ::
        DefaultEntry(copied, propTypes, layerName, k),
      copied.Keys - {RewritableDefaultsKey},
      map k | k in AsyncKeys(propTypes) :: Get(copied, k))
  }

  /** What `buildPropDefs` computes for a class: the parent's definitions merged with the class's own `defaultProps`. */
  function MergedPropDefs(c: LayerClass): PropDefs
    decreases c
  {
    match c
    case FunctionPrototype => NoPropDefs()
    case Class(_, _, parent) =>
      var parentDefs := MergedPropDefs(parent);
      var parsed := PropTypes.ParsedPropTypes(OwnDefaultProps(c));
      var propTypes := parentDefs.propTypes + parsed.propTypes;
      PropDefs(DefaultPropsOf(parsed.defaultProps, parentDefs.defaultProps, propTypes, LayerName(c)), propTypes)
  }

  /** `buildDefaultProps`: one pass over the merged prop types turns each async prop into an accessor. */
  method BuildDefaultProps(props: map<string, Value>, parentProps: DefaultProps, propTypes: map<string, PropTypes.Descriptor>, layerClass: LayerClass)
    returns (defaultProps: DefaultProps)
    requires layerClass.Class?
    ensures defaultProps == DefaultPropsOf(props, parentProps, propTypes, LayerName(layerClass))
  {
    var copied := AssignedDefaults(props, parentProps);
    var id := LayerName(layerClass);
    var rewritablePropDefaults: map<string, Value> := map[];
    var remaining := propTypes.Keys;
    while remaining != {}
      invariant remaining <= propTypes.Keys
      invariant forall k :: k in rewritablePropDefaults <==> k !in remaining && IsAsync(propTypes, k)
      invariant forall k :: k in rewritablePropDefaults ==> rewritablePropDefaults[k] == Get(copied, k)
      decreases remaining
    {
      var prop :| prop in remaining;
      if Truthy(Get(propTypes[prop], "async")) {
        rewritablePropDefaults := rewritablePropDefaults[prop := Get(copied, prop)];
      }
      remaining := remaining - {prop};
    }
    // `Object.defineProperties` with the `id`, `_rewritablePropDefaults` and accessor descriptors
    var entries := map k | k in (copied.Keys + {"id"} + rewritablePropDefaults.Keys) - {RewritableDefaultsKey} ::
      if k in rewritablePropDefaults then Accessor(rewritablePropDefaults[k])
      else if k == "id" then Data(id) else Data(Get(copied, k));
    defaultProps := DefaultProps(entries, copied.Keys - {RewritableDefaultsKey}, rewritablePropDefaults);
    DefaultPropsByKey(props, parentProps, propTypes, id, defaultProps);
  }

  /** A default-props object that agrees with `DefaultPropsOf` key by key is `DefaultPropsOf`. */
  lemma DefaultPropsByKey(props: map<string, Value>, parent: DefaultProps, propTypes: map<string, PropTypes.Descriptor>, layerName: Value, d: DefaultProps)
    requires var copied := AssignedDefaults(props, parent);
      && (forall k :: k in d.entries <==> k != RewritableDefaultsKey && (k in copied || k == "id" || IsAsync(propTypes, k)))
      && (forall k :: k in d.entries ==> d.entries[k] == DefaultEntry(copied, propTypes, layerName, k))
      && d.enumerable == copied.Keys - {RewritableDefaultsKey}
      && (forall k :: k in d.rewritablePropDefaults <==> IsAsync(propTypes, k))
      && (forall k :: k in d.rewritablePropDefaults ==> d.rewritablePropDefaults[k] == Get(copied, k))
    ensures d == DefaultPropsOf(props, parent, propTypes, layerName)
  {
    var spec := DefaultPropsOf(props, parent, propTypes, layerName);
    EqualByKey(d.entries, spec.entries);
    EqualByKey(d.rewritablePropDefaults, spec.rewritablePropDefaults);
  }

  // ---------------------------------------------------------------------
  // Properties of the merged definitions

  /**
   * The shape of every object `buildDefaultProps` builds: each enumerable key
   * is a property, the accessors are exactly the async props, and the hidden
   * table holds exactly the async props.
   */
  lemma DefaultPropsOfShape(props: map<string, Value>, parent: DefaultProps, propTypes: map<string, PropTypes.Descriptor>, layerName: Value)
    ensures var d := DefaultPropsOf(props, parent, propTypes, layerName);
      && d.enumerable == (props.Keys + (parent.enumerable * parent.entries.Keys)) - {RewritableDefaultsKey}
      && d.enumerable <= d.entries.Keys
      && d.rewritablePropDefaults.Keys == AsyncKeys(propTypes)
      && (forall k :: k in d.entries ==> (d.entries[k].Accessor? <==> IsAsync(propTypes, k)))
  {
  }

  /**
   * In every class's merged defaults each enumerable key is a property, the
   * accessors are exactly the async props, and the hidden table holds exactly
   * the async props.
   */
  lemma MergedAccessorsAreAsync(c: LayerClass)
    ensures var defs := MergedPropDefs(c);
      && defs.defaultProps.enumerable <= defs.defaultProps.entries.Keys
      && defs.defaultProps.rewritablePropDefaults.Keys == AsyncKeys(defs.propTypes)
      && (forall k :: k in defs.defaultProps.entries ==>
            (defs.defaultProps.entries[k].Accessor? <==> IsAsync(defs.propTypes, k)))
  {
    if c.Class? {
      var parentDefs := MergedPropDefs(c.parent);
      var parsed := PropTypes.ParsedPropTypes(OwnDefaultProps(c));
      DefaultPropsOfShape(parsed.defaultProps, parentDefs.defaultProps, parentDefs.propTypes + parsed.propTypes, LayerName(c));
    }
  }

  /** A class's typed props are its parent's and its own declared props. */
  lemma MergedTypeKeys(c: LayerClass)
    requires c.Class?
    ensures MergedPropDefs(c).propTypes.Keys == MergedPropDefs(c.parent).propTypes.Keys + OwnDefaultProps(c).Keys
  {
    ParsedKeys(OwnDefaultProps(c));
  }

  /** A class's enumerable defaults are its own declared props and the enumerable properties of its parent's defaults. */
  lemma MergedEnumerableKeys(c: LayerClass)
    requires c.Class?
    ensures var parentDefaults := MergedPropDefs(c.parent).defaultProps;
      MergedPropDefs(c).defaultProps.enumerable
      == (OwnDefaultProps(c).Keys + (parentDefaults.enumerable * parentDefaults.entries.Keys)) - {RewritableDefaultsKey}
  {
    var parsed := PropTypes.ParsedPropTypes(OwnDefaultProps(c));
    ParsedKeys(OwnDefaultProps(c));
    CopiedKeys(parsed.defaultProps, MergedPropDefs(c.parent).defaultProps);
  }

  /** `Object.assign(defaultProps, parentProps, props)` copies the parent's enumerable properties and the class's own. */
  lemma CopiedKeys(props: map<string, Value>, parent: DefaultProps)
    ensures AssignedDefaults(props, parent).Keys == props.Keys + (parent.enumerable * parent.entries.Keys)
  {
  }

  /** The enumerable keys of a subclass, given that those of its parent are its parent's typed props. */
  lemma EnumerableStep(own: set<string>, enumerable: set<string>, entries: set<string>, typed: set<string>)
    requires enumerable == typed - {RewritableDefaultsKey} && enumerable <= entries
    ensures (own + (enumerable * entries)) - {RewritableDefaultsKey} == (typed + own) - {RewritableDefaultsKey}
  {
  }

  /**
   * The enumerable defaults of every class are exactly its typed props, so
   * a subclass's `Object.assign` inherits every prop its ancestors declared.
   */
  lemma {:induction false} EnumerableDefaultsAreTyped(c: LayerClass)
    ensures MergedPropDefs(c).defaultProps.enumerable == MergedPropDefs(c).propTypes.Keys - {RewritableDefaultsKey}
    decreases c
  {
    match c
    case FunctionPrototype =>
    case Class(_, _, parent) =>
      EnumerableDefaultsAreTyped(parent);
      MergedAccessorsAreAsync(parent);
      MergedTypeKeys(c);
      MergedEnumerableKeys(c);
      var parentDefaults := MergedPropDefs(parent).defaultProps;
      EnumerableStep(OwnDefaultProps(c).Keys, parentDefaults.enumerable, parentDefaults.entries.Keys, MergedPropDefs(parent).propTypes.Keys);
  }

  /** `parsePropTypes` gives one descriptor and one default per declared prop. */
  lemma ParsedKeys(propDefs: map<string, Value>)
    ensures PropTypes.ParsedPropTypes(propDefs).propTypes.Keys == propDefs.Keys
    ensures PropTypes.ParsedPropTypes(propDefs).defaultProps.Keys == propDefs.Keys
  {
  }

  /** The nearest class in the chain, starting with `c`, whose own `defaultProps` declare `key`, and the declaration it finds. */
  function NearestDeclaration(c: LayerClass, key: string): Option<Value>
    decreases c
  {
    match c
    case FunctionPrototype => None
    case Class(_, _, parent) =>
      if key in OwnDefaultProps(c) then Some(OwnDefaultProps(c)[key]) else NearestDeclaration(parent, key)
  }

  /**
   * Inheritance of defaults: a prop takes its type and its default from the
   * nearest class that declares it (a subclass overrides its ancestors), it
   * is an accessor exactly when that type is async, and a prop nobody
   * declares has neither a type nor a default.
   */
  lemma {:induction false} InheritedDefault(c: LayerClass, key: string)
    requires key != "id" && key != RewritableDefaultsKey
    ensures var defs := MergedPropDefs(c);
      match NearestDeclaration(c, key)
      case None => key !in defs.propTypes && key !in defs.defaultProps.entries
      case Some(propDef) =>
        && key in defs.propTypes && defs.propTypes[key] == PropTypes.ParsePropType(key, propDef)
        && key in defs.defaultProps.entries
        && EntryValue(defs.defaultProps.entries[key]) == PropTypes.DeclaredDefault(propDef)
        && (defs.defaultProps.entries[key].Accessor? <==> IsAsync(defs.propTypes, key))
    decreases c
  {
    match c
    case FunctionPrototype =>
    case Class(_, _, parent) =>
      InheritedDefault(parent, key);
      EnumerableDefaultsAreTyped(parent);
      MergedAccessorsAreAsync(parent);
      var own := OwnDefaultProps(c);
      if key in own {
        PropTypes.ParsedValueIsDeclaredDefault(key, own[key]);
      }
  }

  /** Unless a class declares an async `id`, the merged `id` default is the class's layer name, whatever its ancestors declare. */
  lemma IdIsLayerName(c: LayerClass)
    requires c.Class? && !IsAsync(MergedPropDefs(c).propTypes, "id")
    ensures "id" in MergedPropDefs(c).defaultProps.entries
    ensures MergedPropDefs(c).defaultProps.entries["id"] == Data(LayerName(c))
  {
  }

  /** The hidden table of async defaults agrees with the accessors' own defaults. */
  lemma AsyncDefaultsAgree(c: LayerClass, key: string)
    requires IsAsync(MergedPropDefs(c).propTypes, key) && key != RewritableDefaultsKey
    ensures var d := MergedPropDefs(c).defaultProps;
      && key in d.entries && key in d.rewritablePropDefaults
      && d.entries[key] == Accessor(d.rewritablePropDefaults[key])
  {
    MergedAccessorsAreAsync(c);
  }

  // ---------------------------------------------------------------------
  // The per-class cache

  /**
   * The `_mergedDefaultProps` and `_propTypes` statics that `buildPropDefs`
   * stores on each class it has built, kept here as one table keyed by class.
   */
  class PropDefsCache {
    var merged: map<LayerClass, PropDefs>

    ghost predicate Valid()
      reads this
    {
      forall c :: c in merged ==> c.Class? && merged[c] == MergedPropDefs(c)
    }

    constructor ()
      ensures Valid() && merged == map[]
    {
      merged := map[];
    }

    /** `getPropDefs`: the cached definitions when the class has them, else builds (and caches) them. */
    method GetPropDefs(c: LayerClass) returns (defs: PropDefs)
      requires Valid()
      modifies this
      ensures Valid()
      ensures defs == MergedPropDefs(c)
      ensures c in old(merged) ==> merged == old(merged) && defs == old(merged)[c]
      ensures old(merged).Keys <= merged.Keys
      ensures c.Class? ==> c in merged
      decreases c, 1
    {
      if c in merged {
        return merged[c];
      }
      defs := BuildPropDefs(c);
    }

    /** `buildPropDefs`: walks up the class chain, merges, and caches the result on the class. */
    method BuildPropDefs(c: LayerClass) returns (defs: PropDefs)
      requires Valid()
      modifies this
      ensures Valid()
      ensures defs == MergedPropDefs(c)
      ensures old(merged).Keys <= merged.Keys
      ensures c.Class? ==> c in merged
      ensures c.FunctionPrototype? ==> defs == NoPropDefs() && merged == old(merged)
      decreases c, 0
    {
      if c.FunctionPrototype? {
        return NoPropDefs();
      }
      var parentDefs := GetPropDefs(c.parent);
      defs := MergePropDefs(c, parentDefs);
      CachedStaysValid(merged, c, defs);
      merged := merged[c := defs];
    }
  }

  /** Caching a class's merged definitions keeps every cached entry correct. */
  lemma CachedStaysValid(merged: map<LayerClass, PropDefs>, c: LayerClass, defs: PropDefs)
    requires forall c' :: c' in merged ==> c'.Class? && merged[c'] == MergedPropDefs(c')
    requires c.Class? && defs == MergedPropDefs(c)
    ensures forall c' :: c' in merged[c := defs] ==> c'.Class? && merged[c := defs][c'] == MergedPropDefs(c')
  {
  }

  /** The middle of `buildPropDefs`: parses the class's own `defaultProps` and merges them over its parent's definitions. */
  method MergePropDefs(c: LayerClass, parentDefs: PropDefs) returns (defs: PropDefs)
    requires c.Class? && parentDefs == MergedPropDefs(c.parent)
    ensures defs == MergedPropDefs(c)
  {
    var parsed := PropTypes.ParsePropTypes(OwnDefaultProps(c));
    var propTypes := parentDefs.propTypes + parsed.propTypes;
    var defaultProps := BuildDefaultProps(parsed.defaultProps, parentDefs.defaultProps, propTypes, c);
    defs := PropDefs(defaultProps, propTypes);
  }

  // ---------------------------------------------------------------------
  // Props objects

  /**
   * The own properties `_layer` and `_rewritableProps` of a props object, and
   * the inherited `_rewritablePropDefaults`. All three are non-writable,
   * except `_rewritablePropDefaults` for a class whose own `defaultProps`
   * declare it: `Object.assign` creates it writable there, and the descriptor
   * `defineProperties` applies sets only `enumerable` and `value`, so it stays
   * writable. The model treats that key as hidden for every class.
   */
  predicate IsHidden(key: string) {
    key == "_layer" || key == "_rewritableProps" || key == RewritableDefaultsKey
  }

  /** An argument carries one of the hidden names (spelled out so that no quantifier is needed; see `HasHiddenKeyMeansSomeKeyIsHidden`). */
  predicate HasHiddenKey(arg: map<string, Value>) {
    "_layer" in arg || "_rewritableProps" in arg || RewritableDefaultsKey in arg
  }

  /** `HasHiddenKey` and `IsHidden` name the same three keys. */
  lemma HasHiddenKeyMeansSomeKeyIsHidden(arg: map<string, Value>)
    ensures HasHiddenKey(arg) <==> exists k | k in arg :: IsHidden(k)
  {
  }

  /** A layer, as far as its props read it: its class and its current state (none before it is initialized). */
  class Layer {
    const layerClass: LayerClass
    var internalState: AsyncProps.LayerState?

    constructor (layerClass: LayerClass)
      ensures this.layerClass == layerClass && internalState == null
    {
      this.layerClass := layerClass;
      internalState := null;
    }
  }

  /** The mutable part of a props object: its own sync props and its `_rewritableProps`. */
  datatype PropsState = PropsState(own: map<string, Value>, rewritable: map<string, Value>)

  /** `key` is an async prop of these defaults, so writes go through its setter. */
  predicate IsAccessor(defaults: DefaultProps, key: string) {
    key in defaults.entries && defaults.entries[key].Accessor?
  }

  /**
   * An assignment `props[key] = value` as `Object.assign` performs it (it
   * throws on failure): `None` for a TypeError. Freezing is shallow, so the
   * setter of an async prop still writes into `_rewritableProps`.
   */
  function SetProp(defaults: DefaultProps, frozen: bool, s: PropsState, key: string, value: Value): Option<PropsState> {
    if IsHidden(key) then None
    else if key in s.own then (if frozen then None else Some(s.(own := s.own[key := value])))
    else if IsAccessor(defaults, key) then Some(s.(rewritable := s.rewritable[key := value]))
    else if frozen then None
    else Some(s.(own := s.own[key := value]))
  }

  /** The sync part of an argument: the keys that become own properties. */
  function SyncPart(defaults: DefaultProps, arg: map<string, Value>): map<string, Value> {
    map k | k in arg && !IsAccessor(defaults, k) :: arg[k]
  }

  /** The async part of an argument: the keys whose setter stores them in `_rewritableProps`. */
  function AsyncPart(defaults: DefaultProps, arg: map<string, Value>): map<string, Value> {
    map k | k in arg && IsAccessor(defaults, k) :: arg[k]
  }

  /** `Object.assign(props, arg)` on a props object that is not frozen yet. */
  function AssignArg(defaults: DefaultProps, s: PropsState, arg: map<string, Value>): Option<PropsState> {
    if HasHiddenKey(arg) then None
    else Some(PropsState(s.own + SyncPart(defaults, arg), s.rewritable + AsyncPart(defaults, arg)))
  }

  /** Own sync props never carry a hidden name nor shadow an async prop's accessor. */
  predicate Consistent(defaults: DefaultProps, s: PropsState) {
    forall k :: k in s.own ==> !IsHidden(k) && !IsAccessor(defaults, k)
  }

  /** `t` is `s` after `Object.assign` has assigned the keys `done` of `arg`. */
  ghost predicate AssignedKeys(defaults: DefaultProps, s: PropsState, arg: map<string, Value>, done: set<string>, t: PropsState) {
    && (forall k :: k in t.own <==> k in s.own || (k in arg && k in done && !IsAccessor(defaults, k)))
    && (forall k :: k in t.own ==>
          t.own[k] == if k in arg && k in done && !IsAccessor(defaults, k) then arg[k] else s.own[k])
    && (forall k :: k in t.rewritable <==> k in s.rewritable || (k in arg && k in done && IsAccessor(defaults, k)))
    && (forall k :: k in t.rewritable ==>
          t.rewritable[k] == if k in arg && k in done && IsAccessor(defaults, k) then arg[k] else s.rewritable[k])
  }

  /** One successful assignment during `Object.assign` on a props object that is not frozen. */
  lemma AssignedKeysStep(defaults: DefaultProps, s: PropsState, arg: map<string, Value>, done: set<string>,
                         t: PropsState, key: string, u: PropsState)
    requires AssignedKeys(defaults, s, arg, done, t) && Consistent(defaults, t)
    requires key in arg && key !in done
    requires SetProp(defaults, false, t, key, arg[key]) == Some(u)
    ensures AssignedKeys(defaults, s, arg, done + {key}, u) && Consistent(defaults, u)
  {
  }

  /** A state that agrees key by key with `Object.assign(props, arg)` is its result. */
  lemma AssignArgByKey(defaults: DefaultProps, s: PropsState, arg: map<string, Value>, t: PropsState)
    requires !HasHiddenKey(arg) && AssignedKeys(defaults, s, arg, arg.Keys, t)
    ensures AssignArg(defaults, s, arg) == Some(t)
  {
    MergedByKey(s.own, SyncPart(defaults, arg), t.own);
    MergedByKey(s.rewritable, AsyncPart(defaults, arg), t.rewritable);
  }

  /** A map that agrees key by key with `m + n` is `m + n`. */
  lemma MergedByKey(m: map<string, Value>, n: map<string, Value>, t: map<string, Value>)
    requires forall k :: k in t <==> k in m || k in n
    requires forall k :: k in t ==> t[k] == if k in n then n[k] else m[k]
    ensures t == m + n
  {
    EqualByKey(t, m + n);
  }

  /** The argument loop of `createProps`, from an object with no own props. */
  function AssignAll(defaults: DefaultProps, args: seq<map<string, Value>>): Option<PropsState>
    decreases |args|
  {
    if |args| == 0 then Some(PropsState(map[], map[]))
    else
      match AssignAll(defaults, args[..|args| - 1])
      case None => None
      case Some(s) => AssignArg(defaults, s, args[|args| - 1])
  }

  /** The value the last argument supplying `key` gives it. */
  function LastSupplied(args: seq<map<string, Value>>, key: string): Option<Value>
    decreases |args|
  {
    if |args| == 0 then None
    else if key in args[|args| - 1] then Some(args[|args| - 1][key])
    else LastSupplied(args[..|args| - 1], key)
  }

  /**
   * Reading `props[key]` for a key other than the hidden ones: an own sync
   * prop, else the inherited default or, for an async prop, what its getter
   * returns: the layer's override when the layer has state and one exists,
   * else the raw supplied value (undefined when none was supplied).
   */
  function PropValue(defaults: DefaultProps, s: PropsState, overrides: Option<map<string, AsyncProps.OverrideView>>, key: string): Value
    requires !IsHidden(key)
  {
    if key in s.own then s.own[key]
    else if key in defaults.entries then
      match defaults.entries[key]
      case Data(v) => v
      case Accessor(_) =>
        if overrides.Some? && key in overrides.value then overrides.value[key].value else Get(s.rewritable, key)
    else Undefined
  }

  /** A props object: its back pointer to the layer, its prototype (the class's merged defaults) and its mutable state. */
  class PropsObject {
    const layer: Layer
    const defaults: DefaultProps
    var own: map<string, Value>
    var rewritableProps: map<string, Value>
    var frozen: bool

    function State(): PropsState
      reads this
    {
      PropsState(own, rewritableProps)
    }

    /** `Object.create(defaultProps, {_layer, _rewritableProps: {}})`. */
    constructor (layer: Layer, defaults: DefaultProps)
      ensures this.layer == layer && this.defaults == defaults
      ensures State() == PropsState(map[], map[]) && !frozen
    {
      this.layer := layer;
      this.defaults := defaults;
      own := map[];
      rewritableProps := map[];
      frozen := false;
    }

    /** `props[key] = value`: reports whether it succeeded (a TypeError otherwise). */
    method Set(key: string, value: Value) returns (ok: bool)
      modifies this
      ensures var r := SetProp(defaults, frozen, old(State()), key, value);
        && (ok <==> r.Some?)
        && State() == (if ok then r.value else old(State()))
      ensures frozen == old(frozen)
    {
      if IsHidden(key) {
        return false;
      }
      if key in own {
        if frozen {
          return false;
        }
        own := own[key := value];
        return true;
      }
      if key in defaults.entries && defaults.entries[key].Accessor? {
        rewritableProps := rewritableProps[key := value];
        return true;
      }
      if frozen {
        return false;
      }
      own := own[key := value];
      ok := true;
    }

    /** `Object.assign(props, arg)` on a props object that is not frozen: it stops at the first key whose assignment throws. */
    method Assign(arg: map<string, Value>) returns (ok: bool)
      requires !frozen && Consistent(defaults, State())
      modifies this
      ensures ok <==> !HasHiddenKey(arg)
      ensures ok ==> State() == AssignArg(defaults, old(State()), arg).value
      ensures !frozen && Consistent(defaults, State())
    {
      var remaining := arg.Keys;
      while remaining != {}
        invariant remaining <= arg.Keys && !frozen && Consistent(defaults, State())
        invariant forall k :: k in arg && k !in remaining ==> !IsHidden(k)
        invariant AssignedKeys(defaults, old(State()), arg, arg.Keys - remaining, State())
        decreases remaining
      {
        var key :| key in remaining;
        ghost var before := State();
        ok := Set(key, arg[key]);
        if !ok {
          return;
        }
        AssignedKeysStep(defaults, old(State()), arg, arg.Keys - remaining, before, key, State());
        assert arg.Keys - (remaining - {key}) == (arg.Keys - remaining) + {key};
        remaining := remaining - {key};
      }
      AssignArgByKey(defaults, old(State()), arg, State());
      ok := true;
    }

    /** The loop of `createProps` that assigns each argument in turn, stopping at the first that throws. */
    method AssignEach(args: seq<map<string, Value>>) returns (ok: bool)
      requires !frozen && State() == PropsState(map[], map[])
      modifies this
      ensures ok <==> forall i :: 0 <= i < |args| ==> !HasHiddenKey(args[i])
      ensures ok ==> AssignAll(defaults, args) == Some(State())
      ensures !frozen
    {
      for i := 0 to |args|
        invariant forall j :: 0 <= j < i ==> !HasHiddenKey(args[j])
        invariant AssignAll(defaults, args[..i]) == Some(State())
        invariant !frozen && Consistent(defaults, State())
      {
        ghost var before := State();
        ok := Assign(args[i]);
        if !ok {
          return;
        }
        assert args[..i + 1][..i] == args[..i];
        assert AssignAll(defaults, args[..i + 1]) == AssignArg(defaults, before, args[i]);
      }
      assert args[..|args|] == args;
      ok := true;
    }

    /** `Object.freeze(props)`. */
    method Freeze()
      modifies this
      ensures frozen && State() == old(State())
    {
      frozen := true;
    }

    /** `props[key]` for a key other than the hidden ones. */
    function Read(key: string): (r: Value)
      requires !IsHidden(key)
      requires layer.internalState != null ==> layer.internalState.Valid()
      reads this, layer, layer.internalState
      reads if layer.internalState != null then layer.internalState.propOverrides.Values else {}
      ensures r == PropValue(defaults, State(),
        if layer.internalState == null then None else Some(layer.internalState.overrides), key)
    {
      if key in own then own[key]
      else if key in defaults.entries then
        match defaults.entries[key]
        case Data(v) => v
        case Accessor(_) =>
          if layer.internalState != null then layer.internalState.GetAsyncProp(key, rewritableProps)
          else Get(rewritableProps, key)
      else Undefined
    }
  }

  datatype PropsError = TypeError

  /**
   * `createProps` called on `layer` with the prop objects `args`: the class's
   * merged defaults become the prototype, every argument is copied in
   * order, and the result is frozen. It throws when an argument carries one
   * of the hidden names.
   */
  method CreateProps(cache: PropDefsCache, layer: Layer, args: seq<map<string, Value>>)
    returns (r: Result<PropsObject, PropsError>)
    requires cache.Valid() && layer.layerClass.Class?
    modifies cache
    ensures cache.Valid() && old(cache.merged).Keys <= cache.merged.Keys
    ensures r.Failure? <==> exists i :: 0 <= i < |args| && HasHiddenKey(args[i])
    ensures r.Success? ==>
      && fresh(r.value) && r.value.layer == layer && r.value.frozen
      && r.value.defaults == MergedPropDefs(layer.layerClass).defaultProps
      && AssignAll(r.value.defaults, args) == Some(r.value.State())
  {
    var defs := cache.GetPropDefs(layer.layerClass);
    var props := new PropsObject(layer, defs.defaultProps);
    var ok := props.AssignEach(args);
    if !ok {
      return Failure(TypeError);
    }
    props.Freeze();
    r := Success(props);
  }

  // ---------------------------------------------------------------------
  // Properties of props objects

  /** The argument loop fails exactly when some argument carries a hidden name. */
  lemma {:induction false} AssignAllFailsIffHidden(defaults: DefaultProps, args: seq<map<string, Value>>)
    ensures AssignAll(defaults, args).None? <==> exists i :: 0 <= i < |args| && HasHiddenKey(args[i])
    decreases |args|
  {
    if |args| > 0 {
      var init := args[..|args| - 1];
      AssignAllFailsIffHidden(defaults, init);
      if exists i :: 0 <= i < |init| && HasHiddenKey(init[i]) {
        var i :| 0 <= i < |init| && HasHiddenKey(init[i]);
        assert args[i] == init[i];
      }
      if exists i :: 0 <= i < |args| && HasHiddenKey(args[i]) {
        var i :| 0 <= i < |args| && HasHiddenKey(args[i]);
        if i < |init| {
          assert init[i] == args[i];
        }
      }
    }
  }

  /**
   * The last argument that supplies a prop wins: a sync prop becomes an own
   * property with that value, an async prop a raw value in
   * `_rewritableProps`, and a prop nobody supplies is in neither.
   */
  lemma {:induction false} LastSuppliedWins(defaults: DefaultProps, args: seq<map<string, Value>>, key: string, s: PropsState)
    requires AssignAll(defaults, args) == Some(s)
    ensures IsAccessor(defaults, key) ==> key !in s.own
    ensures IsAccessor(defaults, key) ==>
      (key in s.rewritable <==> LastSupplied(args, key).Some?)
      && (key in s.rewritable ==> s.rewritable[key] == LastSupplied(args, key).value)
    ensures !IsAccessor(defaults, key) ==> key !in s.rewritable
    ensures !IsAccessor(defaults, key) ==>
      (key in s.own <==> LastSupplied(args, key).Some?)
      && (key in s.own ==> s.own[key] == LastSupplied(args, key).value)
    decreases |args|
  {
    if |args| > 0 {
      var init := args[..|args| - 1];
      var prev :| AssignAll(defaults, init) == Some(prev);
      LastSuppliedWins(defaults, init, key, prev);
    }
  }

  /** The default a read of `key` falls back to on a props object. */
  function InheritedValue(defaults: DefaultProps, key: string): Value {
    if key in defaults.entries then EntryValue(defaults.entries[key]) else Undefined
  }

  /** A sync prop reads as the last value supplied for it, else as the class default. */
  lemma ReadSyncProp(defaults: DefaultProps, args: seq<map<string, Value>>, s: PropsState,
                     overrides: Option<map<string, AsyncProps.OverrideView>>, key: string)
    requires AssignAll(defaults, args) == Some(s) && !IsAccessor(defaults, key) && !IsHidden(key)
    ensures PropValue(defaults, s, overrides, key) ==
      match LastSupplied(args, key)
      case Some(v) => v
      case None => InheritedValue(defaults, key)
  {
    LastSuppliedWins(defaults, args, key, s);
  }

  /**
   * An async prop reads as the layer's override when there is one, else as
   * the last raw value supplied, and as undefined (not its default) when
   * none was supplied.
   */
  lemma ReadAsyncProp(defaults: DefaultProps, args: seq<map<string, Value>>, s: PropsState,
                      overrides: Option<map<string, AsyncProps.OverrideView>>, key: string)
    requires AssignAll(defaults, args) == Some(s) && IsAccessor(defaults, key) && !IsHidden(key)
    ensures PropValue(defaults, s, overrides, key) ==
      if overrides.Some? && key in overrides.value then overrides.value[key].value
      else match LastSupplied(args, key)
        case Some(v) => v
        case None => Undefined
  {
    LastSuppliedWins(defaults, args, key, s);
  }

  /** After freezing, only async props can still be written (through their setters), and own props never change. */
  lemma FrozenAcceptsOnlyAsyncWrites(defaults: DefaultProps, s: PropsState, key: string, value: Value)
    ensures SetProp(defaults, true, s, key, value).Some? <==>
      !IsHidden(key) && key !in s.own && IsAccessor(defaults, key)
    ensures SetProp(defaults, true, s, key, value).Some? ==>
      SetProp(defaults, true, s, key, value).value == s.(rewritable := s.rewritable[key := value])
  {
  }

  /**
   * End to end, for a sync prop of a class: the props object reads the value
   * the last argument supplied, else the default declared by the nearest
   * class in the chain.
   */
  lemma ReadDeclaredDefault(c: LayerClass, args: seq<map<string, Value>>, s: PropsState,
                            overrides: Option<map<string, AsyncProps.OverrideView>>, key: string, propDef: Value)
    requires AssignAll(MergedPropDefs(c).defaultProps, args) == Some(s)
    requires key != "id" && !IsHidden(key)
    requires NearestDeclaration(c, key) == Some(propDef) && !IsAsync(MergedPropDefs(c).propTypes, key)
    ensures PropValue(MergedPropDefs(c).defaultProps, s, overrides, key) ==
      match LastSupplied(args, key)
      case Some(v) => v
      case None => PropTypes.DeclaredDefault(propDef)
  {
    InheritedDefault(c, key);
    ReadSyncProp(MergedPropDefs(c).defaultProps, args, s, overrides, key);
  }

  /**
   * For an async prop nobody supplied and the layer has no override for, the
   * props object reads undefined: the getter returns the missing
   * `_rewritableProps` entry rather than the declared default.
   */
  lemma UnsuppliedAsyncPropReadsUndefined(c: LayerClass, args: seq<map<string, Value>>, s: PropsState,
                                          overrides: Option<map<string, AsyncProps.OverrideView>>, key: string, propDef: Value)
    requires AssignAll(MergedPropDefs(c).defaultProps, args) == Some(s)
    requires key != "id" && !IsHidden(key)
    requires NearestDeclaration(c, key) == Some(propDef) && IsAsync(MergedPropDefs(c).propTypes, key)
    requires LastSupplied(args, key).None? && (overrides.Some? ==> key !in overrides.value)
    ensures PropValue(MergedPropDefs(c).defaultProps, s, overrides, key) == Undefined
  {
    InheritedDefault(c, key);
    ReadAsyncProp(MergedPropDefs(c).defaultProps, args, s, overrides, key);
  }
}
