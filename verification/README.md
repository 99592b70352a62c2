# deck.gl layer prop lifecycle, modelled in Dafny

This project models how a deck.gl layer gets its props, in three parts.

- **Prop-type inference** (`src/core/lifecycle/prop-types.js`, module `PropTypes` in `prop_types.dfy`).
  Each entry of a layer class's `defaultProps` becomes a descriptor with `name`, `type`, `value` and, for numbers, `min`/`max`.
  The descriptor is inferred from a bare default or taken from an explicit `{type, …}` / `{value, …}` definition.
  `parsePropTypes` collects the descriptors and the defaults they declare.
- **Default-prop merging and props objects** (`src/core/lifecycle/create-props.js`, module `LayerProps` in `layer_props.dfy`).
  `buildPropDefs` walks the class chain. It merges parent and own prop types, and `buildDefaultProps` builds the merged default-props object: `id` becomes the layer name, and every `async` prop becomes a getter/setter pair.
  The result is cached per class (`PropDefsCache`).
  `createProps` builds a props object whose prototype is those defaults. It assigns every argument in order and then freezes the object (`PropsObject`, `CreateProps`).
- **Async prop overrides** (`src/core/lib/layer-state.js`, module `AsyncProps` in `async_props.dfy`).
  A layer's `LayerState` keeps one override record per async prop.
  A URL string starts a load and bumps the record's `loadCount`. The same URL again is ignored, and any other value removes the record.
  A finished load is applied only if the counter it captured is still current, so the last request wins.

`js_value.dfy` (module `JsValue`) holds the JavaScript values these files inspect, with truthiness and `typeof`. It also holds the case-folding and substring tests that the regular expressions perform.

JavaScript objects appear in two forms.
- Objects whose fields the code updates in place are Dafny classes: `LayerState`, its `PropOverride` records, the per-class cache and the props object.
- Descriptors, class statics and merged defaults are values: maps and datatypes.

Property descriptors are written out explicitly. An `Entry` of the merged defaults is `Data(value)` or `Accessor(defaultValue)`, and `DefaultProps` records which keys are enumerable. `SetProp` states the strict-mode `[[Set]]` that `Object.assign` performs: own non-writable `_layer`/`_rewritableProps`, the inherited non-writable `_rewritablePropDefaults` (see "## Left out" for the one class where it stays writable), setters, and non-extensibility after `Object.freeze`.

Loading is outside the model: `fetch`, `dataTransform` and the promise chain. `UpdateAsyncProps` hands back one `Load` ticket per started load, carrying the record and the counter the continuation captured. The environment runs the continuation by calling `CompleteLoad(load, data)`.

### Behaviour a reader might not expect (the model follows the code)

- **Unset async props read as `undefined`, not as their default.**
  One might expect an async prop with no override to fall back to its declared default, as a sync prop does through the prototype.
  The getter (`create-props.js:167-176`) returns `_rewritableProps[prop]` whenever `_rewritableProps` exists. It always exists on a props object, as `{}`, so an unsupplied async prop reads `undefined` there.
  `getAsyncProp` (`layer-state.js:22-26`) does the same when a state exists and there is no override.
  The captured default is returned only when the getter runs on the default-props object itself.
  See `LayerProps.ReadAsyncProp` and `LayerProps.UnsuppliedAsyncPropReadsUndefined`.
- **A `Promise` value removes the override.**
  One might expect a promise to be left alone, since only URL strings start a load. `_updateAsyncProp` switches on `'Promise'`, which has no case of its own, so it falls into `default` and `_removePropOverride` (`layer-state.js:38-57`).
  See `AsyncProps.NonStringDropsOverride`.
- **Frozen props objects still accept async writes.**
  `Object.freeze` is shallow, so after freezing the setter of an async prop still writes into `_rewritableProps` (`create-props.js:163-165`, `41`).
  See `LayerProps.FrozenAcceptsOnlyAsyncWrites`.
- **Accessors and `id` are not always non-enumerable.**
  `defineProperties` (`create-props.js:182`) keeps the enumerability of a key that `Object.assign` already created.
  Async props are always declared props, so their accessors stay enumerable, and a subclass's `Object.assign` copies them: the getter, run on the parent's defaults, returns the captured default.
  `id` is non-enumerable only when no class in the chain declares it.
  See `LayerProps.DefaultPropsOfShape` and `LayerProps.EnumerableDefaultsAreTyped`.
- **A completion updates the record it captured, not whatever record the prop has at the time.**
  The continuation keeps the record object (`layer-state.js:74-82`). After the override was removed and recreated, an old load updates only the orphaned record, yet it still raises `dataChanged`.
  The update methods modify only the record of a prop written with a string, so a dropped record keeps its fields until its own load finishes.
  See `AsyncProps.OrphanedLoadScenario`.
- **The `scale` exclusion is case-sensitive and fails on line terminators.**
  `/^((?!scale).)*$/` (`prop-types.js:162`) has no `i` flag, and its `.` does not match line terminators. See `PropTypes.ScaleExclusionExamples`.

## Model

| member | source | states |
|---|---|---|
| PropTypes.GetTypeOf | src/core/lifecycle/prop-types.js:175-183 | 'array' exactly for arrays and typed-array views, 'null' exactly for null, `typeof` otherwise; 'object' exactly for plain objects and promises |
| PropTypes.NumberValidateType | src/core/lifecycle/prop-types.js:14-20 | a number descriptor is well formed iff it has a `value` and every `min`/`max` it gives is a number |
| PropTypes.NumberValidate | src/core/lifecycle/prop-types.js:21-27 | only numbers pass, and a bound that converts to no number (NaN) rejects every value |
| PropTypes.NumberValidateRange | src/core/lifecycle/prop-types.js:21-27 | when every bound present is a number, `number.validate` accepts exactly the numbers that respect each bound present (only `min`, only `max`, both or neither) |
| PropTypes.NumberValidateInBounds | src/core/lifecycle/prop-types.js:21-27 | with numeric `min` and `max` present, `number.validate` accepts exactly the numbers between them |
| PropTypes.NumberValidateUnbounded | src/core/lifecycle/prop-types.js:21-27 | with neither bound present, `number.validate` accepts every number and nothing else |
| PropTypes.InferredNumberValidates | src/core/lifecycle/prop-types.js:14-27 | the descriptor inferred for a number default passes both `validateType` and `validate` |
| PropTypes.GuessArrayType | src/core/lifecycle/prop-types.js:131-136 | `{name, type, value}` with the array unchanged; type is 'color' iff the name contains `color` case-insensitively and there are 3 or 4 elements, else 'array' |
| PropTypes.GuessNumberType | src/core/lifecycle/prop-types.js:160-172 | a 'number' descriptor with `min <= value <= max`, `min` = min(value, 0), `max` = max(value, 100) for magnitude-like names without a lower-case `scale`, else max(value, 1) |
| PropTypes.NormalizePropDefinition | src/core/lifecycle/prop-types.js:138-147 | an object with neither `type` nor `value` becomes the default of an 'object' prop; otherwise every own field of the definition is kept over `{name}` and, without `type`, over the type of its `value` |
| PropTypes.ParsePropDefinition | src/core/lifecycle/prop-types.js:149-158 | no type definition has a `typeValidator`, so the assertion never runs and every definition is returned unchanged |
| PropTypes.ParsePropType | src/core/lifecycle/prop-types.js:107-129 | the result always has `name` and `type`; objects are normalized, arrays and numbers inferred, booleans and functions typed directly, everything else 'unknown', and for non-objects the value is the definition itself |
| PropTypes.ParsedValueIsDeclaredDefault | src/core/lifecycle/prop-types.js:107-147 | the `value` of a parsed descriptor is the default the definition declares (its `value` field for a `{type}`/`{value}` object, else the definition itself) |
| PropTypes.ParsePropTypes | src/core/lifecycle/prop-types.js:92-101 | both dictionaries have exactly the input's keys, each descriptor is `parsePropType` of its entry and each default is that descriptor's `value` |
| PropTypes.NumberBoundsExamples | src/core/lifecycle/prop-types.js:160-172 | `radius` = 5 gets bounds [0, 100]; `opacity` = 0.4 gets [0, 1] |
| PropTypes.RadiusIsSizeLike | src/core/lifecycle/prop-types.js:161-162 | `radius` passes both name tests |
| PropTypes.OpacityIsNotSizeLike | src/core/lifecycle/prop-types.js:161-162 | `opacity` fails the magnitude-name test |
| PropTypes.ScaleExclusionExamples | src/core/lifecycle/prop-types.js:161-163 | the `scale` exclusion is case-sensitive: `getScale` is magnitude-like, `scaleFactor` is not |
| PropTypes.ColorInferenceExamples | src/core/lifecycle/prop-types.js:113-136 | a 3-element `fillColor` is a colour, a 2-element one an array, a function default a function |
| AsyncProps.StringCaseIsStr | src/core/lib/layer-state.js:38-41 | the switch reaches the 'string' case exactly for string values; a promise is switched on as 'Promise' |
| AsyncProps.RepeatedUrlIsIgnored | src/core/lib/layer-state.js:44-47 | a URL equal to the record's `lastValue` leaves the whole override table unchanged |
| AsyncProps.NewUrlStartsOneLoad | src/core/lib/layer-state.js:44-71 | a different URL becomes `lastValue`, raises `loadCount` by exactly one, records a pending load under the new count, keeps the visible value and leaves other props' records alone |
| AsyncProps.NonStringDropsOverride | src/core/lib/layer-state.js:38-57 | any non-string value, a promise included, removes that prop's record and only that one |
| AsyncProps.UpdateLeavesOthers | src/core/lib/layer-state.js:37-59 | whatever is written to one prop, every other prop's record is unchanged |
| AsyncProps.RunKeepsCounterMonotone | src/core/lib/layer-state.js:68-82 | over any sequence of requests and completions, `loadCount` never decreases |
| AsyncProps.StaleCompletionsChangeNothing | src/core/lib/layer-state.js:74-82 | completions whose captured count is not the current `loadCount` leave the record unchanged, in any number and order |
| AsyncProps.LatestRequestWins | src/core/lib/layer-state.js:44-82 | after a new URL, older loads finishing before or after it change nothing; the record ends with the new load's data as `value` and `loadValue`, no pending load, that URL as `lastValue` and the counter one higher |
| AsyncProps.PropOverride.constructor | src/core/lib/layer-state.js:87-93 | a new record has null `lastValue`/`loadValue`/`loadPromise`, `loadCount` 0 and the prop's default as `value` |
| AsyncProps.LayerState.constructor | src/core/lib/layer-state.js:5-15 | with an attribute manager, the state has `needsRedraw` set and no overrides |
| AsyncProps.LayerState.Create | src/core/lib/layer-state.js:5-15 | construction fails exactly when the attribute manager is falsy; otherwise a fresh state with `needsRedraw` and an empty table |
| AsyncProps.LayerState.GetAsyncProp | src/core/lib/layer-state.js:22-26 | the override's value when the prop has a record, else the supplied raw value (undefined when absent) |
| AsyncProps.LayerState.CreatePropOverride | src/core/lib/layer-state.js:86-96 | an existing record is returned as it is (same object, same fields); otherwise a fresh record holding `_rewritablePropDefaults[p]` is stored; no other entry changes |
| AsyncProps.LayerState.RemovePropOverride | src/core/lib/layer-state.js:99-101 | exactly that prop's record leaves the table |
| AsyncProps.LayerState.LoadAsyncProp | src/core/lib/layer-state.js:62-71 | the record's counter goes up by one, its pending load is the URL under the new count, and the returned ticket captures that count |
| AsyncProps.LayerState.RequestAsyncUrl | src/core/lib/layer-state.js:41-53 | only the prop's own record may change; the table becomes the state machine's `RequestUrl` step for that prop; a load starts iff the URL differs from the last one seen (or the prop had no record), with the record's new counter |
| AsyncProps.LayerState.RecordAndLoad | src/core/lib/layer-state.js:48-52 | the URL becomes `lastValue` and a load is issued on the same record |
| AsyncProps.LayerState.UpdateAsyncProp | src/core/lib/layer-state.js:37-59 | always returns false; only the prop's record may change, and only for a string (a dropped record is untouched); the table becomes `UpdateOverrides` of the old one; a load starts iff the value is a string other than the last one seen |
| AsyncProps.LayerState.UpdateAsyncProps | src/core/lib/layer-state.js:30-34 | processes exactly the keys of `_rewritableProps`, changing only the records of props written with a string: the table becomes their combined update, and the loads started are exactly the props written with a new URL, each under its record's current counter |
| AsyncProps.LayerState.UpdateNextAsyncProp | src/core/lib/layer-state.js:31-33 | one iteration extends the combined update and the started loads by one key, changing at most that key's record |
| AsyncProps.LayerState.CompleteLoad | src/core/lib/layer-state.js:74-82 | a completion takes effect (value and `loadValue` := data, no pending load, `dataChanged` raised) iff its captured count is the record's current `loadCount`, and changes nothing else |
| AsyncProps.SupersededLoadScenario | src/core/lib/layer-state.js:30-82 | two URLs in a row: the first load's late result is discarded and the default stays visible; the second load's data becomes the prop's value |
| AsyncProps.OrphanedLoadScenario | src/core/lib/layer-state.js:37-82 | URL, non-string, URL: the first load, finishing on its dropped record, sets that record's value and raises `dataChanged` while the prop still shows its default; the second load's data becomes the prop's value |
| LayerProps.GetOwnProperty | src/core/lifecycle/create-props.js:63-65 | the result is truthy iff the class itself defines the static with a truthy value, and is then that value; inherited statics are never seen |
| LayerProps.LayerNameIsOwnOrConstructorName | src/core/lifecycle/create-props.js:67-73 | `getLayerName` gives the class's own `layerName` when it is truthy, else the constructor name (also when `layerName` is set but falsy) |
| LayerProps.InheritedLayerNameIgnored | src/core/lifecycle/create-props.js:63-73 | (by definition, kept as documentation) the name does not depend on the parent class; without an own `layerName` it is the constructor name |
| LayerProps.BuildDefaultProps | src/core/lifecycle/create-props.js:129-185 | the object built is `DefaultPropsOf`: parent's enumerable values then own defaults, `id` the layer name, every async prop an accessor holding the merged default |
| LayerProps.DefaultPropsOfShape | src/core/lifecycle/create-props.js:132-182 | the enumerable keys are exactly those `Object.assign` copied; each is a property; accessors and `_rewritablePropDefaults` entries are exactly the async props |
| LayerProps.MergedAccessorsAreAsync | src/core/lifecycle/create-props.js:155-182 | in every class's merged defaults, a property is an accessor iff its type is async, and the hidden table covers exactly the async props |
| LayerProps.MergedTypeKeys | src/core/lifecycle/create-props.js:106-110 | a class's merged prop types cover its parent's and its own declared props |
| LayerProps.MergedEnumerableKeys | src/core/lifecycle/create-props.js:102-132 | a class's enumerable defaults are its own declared props plus the enumerable properties of its parent's defaults |
| LayerProps.EnumerableDefaultsAreTyped | src/core/lifecycle/create-props.js:90-132 | for every class, the enumerable defaults are exactly the typed props, so nothing an ancestor declared is lost down the chain |
| LayerProps.InheritedDefault | src/core/lifecycle/create-props.js:90-180 | a prop's type and default come from the nearest class in the chain that declares it (child wins); it is an accessor iff that type is async; an undeclared prop has neither |
| LayerProps.IdIsLayerName | src/core/lifecycle/create-props.js:137-146 | unless `id` is async, the merged `id` default is the class's own layer name, whatever any class declares for it |
| LayerProps.AsyncDefaultsAgree | src/core/lifecycle/create-props.js:155-162 | for an async prop, `_rewritablePropDefaults[p]` is the default its accessor captured |
| LayerProps.PropDefsCache.GetPropDefs | src/core/lifecycle/create-props.js:77-87 | returns the class's merged definitions; a cached class gets its cached entry back and nothing is rebuilt; entries are never evicted |
| LayerProps.PropDefsCache.BuildPropDefs | src/core/lifecycle/create-props.js:90-126 | returns the merged definitions and caches them on the class; the root without `prototype` gives empty defaults and is not cached |
| LayerProps.MergePropDefs | src/core/lifecycle/create-props.js:101-119 | parent definitions plus the parsed own `defaultProps` give the class's merged definitions |
| LayerProps.PropsObject.constructor | src/core/lifecycle/create-props.js:19-30 | a new props object points back at its layer, inherits the class defaults, has no own props and an empty `_rewritableProps` |
| LayerProps.PropsObject.Set | src/core/lifecycle/create-props.js:163-165 | an assignment follows `SetProp`: hidden names throw, async props go to `_rewritableProps`, others become own props unless frozen |
| LayerProps.PropsObject.Assign | src/core/lifecycle/create-props.js:33-35 | `Object.assign` throws iff the argument carries a hidden name; otherwise each of the argument's values replaces the current one: sync keys as own props, async keys as raw values in `_rewritableProps`, every other prop unchanged |
| LayerProps.PropsObject.AssignEach | src/core/lifecycle/create-props.js:33-35 | the argument loop fails iff some argument carries a hidden name, and otherwise leaves the state `AssignAll` describes |
| LayerProps.PropsObject.Freeze | src/core/lifecycle/create-props.js:41 | freezing keeps every prop and marks the object frozen |
| LayerProps.PropsObject.Read | src/core/lifecycle/create-props.js:167-176 | a read gives the own value, else the default, else for an async prop the layer's override (when the layer has state) or the raw supplied value |
| LayerProps.CreateProps | src/core/lifecycle/create-props.js:12-44 | fails iff an argument carries a hidden name; otherwise a fresh, frozen props object for the layer whose prototype is the class's merged defaults and whose state is every argument assigned in order |
| LayerProps.HasHiddenKeyMeansSomeKeyIsHidden | src/core/lifecycle/create-props.js:19-30 | an argument carries a hidden name iff one of its keys is one of the three non-writable names |
| LayerProps.AssignAllFailsIffHidden | src/core/lifecycle/create-props.js:19-35 | assigning the arguments fails exactly when one of them carries `_layer`, `_rewritableProps` or `_rewritablePropDefaults` |
| LayerProps.LastSuppliedWins | src/core/lifecycle/create-props.js:33-35 | the last argument supplying a prop wins; a sync prop becomes an own prop, an async one a raw value in `_rewritableProps`, an unsupplied one neither |
| LayerProps.ReadSyncProp | src/core/lifecycle/create-props.js:16-35 | a sync prop reads as the last value supplied, else as the class default |
| LayerProps.ReadAsyncProp | src/core/lifecycle/create-props.js:167-176 | an async prop reads as the layer's override if any, else the last raw value supplied, else undefined |
| LayerProps.FrozenAcceptsOnlyAsyncWrites | src/core/lifecycle/create-props.js:41 | on a frozen props object, a write succeeds iff it goes through an async setter, and it never changes an own prop |
| LayerProps.ReadDeclaredDefault | src/core/lifecycle/create-props.js:16-35 | end to end: an unsupplied sync prop reads as the default declared by the nearest class that declares it |
| LayerProps.UnsuppliedAsyncPropReadsUndefined | src/core/lifecycle/create-props.js:167-176 | an async prop that nobody supplied and has no override reads undefined, not its declared default |

## Left out

- Floating point: numbers are finite reals, with no NaN or Infinity. `Number.isFinite` is therefore true of every number, and `Math.max`/`Math.min` are the real maximum and minimum.
- PropTypes.NumberValidate: a bound that is not a number, `true`, `false` or `null` is treated as failing the comparison. JavaScript's `ToNumber` coercion of strings and objects is not modelled.
- Symbols, BigInt and property order are not modelled. Typed-array views are folded into `Arr`.
- The static tables `defaultDataArrayType`, `defaultDataType` and `defaultLightSettingsType` at `prop-types.js:63-90` are data with unresolved references; they are not modelled.
- `log.once` in `getLayerName`: the warning is output only.
- `applyPropOverrides` (the Seer debug hook) is a foreign call, taken as the identity.
- A non-object truthy `defaultProps` static, and non-object arguments to `createProps`, are treated as having no entries.
- LayerProps.DefaultPropsOf: a prop declared under one of the names `_layer`, `_rewritableProps` or `_rewritablePropDefaults` is not modelled. A declared `_rewritablePropDefaults` is dropped from the merged defaults. In JavaScript the declaring class keeps it as a writable, non-enumerable property: `Object.assign` (`create-props.js:132`) creates it writable, and the descriptor from `create-props.js:147` sets only `enumerable` and `value`.
- LayerProps.AssignAllFailsIffHidden: for a class that itself declares `_rewritablePropDefaults`, JavaScript's `createProps` accepts an argument with that key, and the resulting own property hides the table from later lookups. The model (`IsHidden`, `HasHiddenKey`) rejects the key for every class. For every other class the property is non-writable, because the parent's copy is non-enumerable and `Object.assign` skips it.
- LayerProps.PropValue: reads of the hidden names themselves (the `_layer` back pointer, the `_rewritableProps` table) are not modelled; `Read` and the read lemmas exclude them.
- Names inherited from `Object.prototype` (`'toString' in propOverrides`) are not modelled: override tables are plain maps.
- Mutating a class's statics after its definitions were cached is not modelled, because classes are values.
- `LayerState` fields that the async props do not use are left out: `model`, `subLayers`, `stats` (a foreign `Stats` object), `layer`. Also left out is `propOverride.data` (`layer-state.js:65`), which is written but never read.
- The `fetch` and `dataTransform` promise chain is the environment's. The model does not cover a rejected load (the record then stays pending forever), nor the TypeError raised if `this.layer` is unset when a load completes. Raising `dataChanged` is returned as a boolean instead of calling `setChangeFlags`.
- Identity of the objects returned by `getPropDefs` is replaced by equality of values.
