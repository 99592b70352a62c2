/**
 * Async prop resolution (src/core/lib/layer-state.js): each layer's
 * `LayerState` keeps one override record per async prop. A URL string starts
 * a load and bumps the record's `loadCount`; any other value drops the
 * record; a finished load is applied only when the counter value it captured
 * is still the record's current one, so the last request wins.
 *
 * `fetch` and `dataTransform` are outside the model: a started load is handed
 * back as a `Load` ticket, and its continuation runs when the environment
 * calls `CompleteLoad` with the transformed data.
 */
module AsyncProps {
  import opened JsValue

  /** The in-flight load a record remembers in `loadPromise`: its URL and captured counter. */
  datatype PendingLoad = PendingLoad(url: string, count: nat)

  /** The fields of a prop-override record, as a value. */
  datatype OverrideView = OverrideView(
    lastValue: Value,
    loadValue: Value,
    loadPromise: Option<PendingLoad>,
    loadCount: nat,
    value: Value)

  // ---------------------------------------------------------------------------
  // The record's state machine, on values

  /** The record `_createPropOverride` creates: nothing requested yet, the prop's default visible. */
  function NewOverride(defaultValue: Value): OverrideView {
    OverrideView(Null, Null, None, 0, defaultValue)
  }

  /** What `_loadAsyncProp` does to the record: `++loadCount` and a new `loadPromise`. */
  function IssueLoad(o: OverrideView, url: string): OverrideView {
    o.(loadCount := o.loadCount + 1, loadPromise := Some(PendingLoad(url, o.loadCount + 1)))
  }

  /** The continuation of a load that captured `count`, run with the transformed `data`. */
  function FinishLoad(o: OverrideView, count: nat, data: Value): OverrideView {
    if count == o.loadCount then o.(loadValue := data, loadPromise := None, value := data) else o
  }

  /**
   * The `'string'` branch of `_updateAsyncProp` on the prop's record (`None`
   * when there is none yet): a URL equal to `lastValue` changes nothing,
   * another one is recorded and loaded.
   */
  function RequestUrl(o: Option<OverrideView>, url: string, defaultValue: Value): OverrideView {
    var r := if o.Some? then o.value else NewOverride(defaultValue);
    if Str(url) == r.lastValue then r else IssueLoad(r.(lastValue := Str(url)), url)
  }

  /** The type `_updateAsyncProp` switches on: 'Promise' for a promise, `typeof` otherwise. */
  function AsyncValueType(value: Value): string {
    if value.Promise? then "Promise" else TypeOf(value)
  }

  /** Only a string value reaches the 'string' case; a promise is switched on as 'Promise'. */
  lemma StringCaseIsStr(value: Value)
    ensures AsyncValueType(value) == "string" <==> value.Str?
  {
    if !value.Str? {
      assert AsyncValueType(value)[0] != 's';
    }
  }

  /**
   * `_updateAsyncProp` on the whole override table (`defaults` is
   * `props._rewritablePropDefaults`); by `StringCaseIsStr`, the 'string' case
   * is taken exactly for `Str` values.
   */
  function UpdateOverrides(overrides: map<string, OverrideView>, propName: string, value: Value,
                           defaults: map<string, Value>): map<string, OverrideView>
  {
    if value.Str? then
      var current := if propName in overrides then Some(overrides[propName]) else None;
      overrides[propName := RequestUrl(current, value.s, Get(defaults, propName))]
    else
      overrides - {propName}
  }

  /** `updateAsyncProps`: every key of `props._rewritableProps` updated on its own. */
  function UpdateAllOverrides(overrides: map<string, OverrideView>, rewritableProps: map<string, Value>,
                              defaults: map<string, Value>): map<string, OverrideView>
  {
    map p | p in overrides.Keys + rewritableProps.Keys && (p in rewritableProps ==> rewritableProps[p].Str?) ::
      if p in rewritableProps then
        RequestUrl(if p in overrides then Some(overrides[p]) else None, rewritableProps[p].s, Get(defaults, p))
      else
        overrides[p]
  }

  /** The same URL again starts no load and leaves the table as it is. */
  lemma RepeatedUrlIsIgnored(overrides: map<string, OverrideView>, propName: string, url: string,
                             defaults: map<string, Value>)
    requires propName in overrides && overrides[propName].lastValue == Str(url)
    ensures UpdateOverrides(overrides, propName, Str(url), defaults) == overrides
  {
  }

  /**
   * A URL different from the last one is recorded and raises the counter by
   * exactly one; the visible value is not touched until the load finishes,
   * and no other prop's record changes.
   */
  lemma NewUrlStartsOneLoad(overrides: map<string, OverrideView>, propName: string, url: string,
                            defaults: map<string, Value>)
    requires propName !in overrides || overrides[propName].lastValue != Str(url)
    ensures var r := UpdateOverrides(overrides, propName, Str(url), defaults);
      var before := if propName in overrides then overrides[propName] else NewOverride(Get(defaults, propName));
      && r.Keys == overrides.Keys + {propName}
      && r[propName].lastValue == Str(url)
      && r[propName].loadCount == before.loadCount + 1
      && r[propName].loadPromise == Some(PendingLoad(url, r[propName].loadCount))
      && r[propName].value == before.value
      && r[propName].loadValue == before.loadValue
      && (forall p :: p in overrides && p != propName ==> r[p] == overrides[p])
  {
  }

  /** Any value that is not a string, a promise included, drops the prop's record and only that one. */
  lemma NonStringDropsOverride(overrides: map<string, OverrideView>, propName: string, value: Value,
                               defaults: map<string, Value>)
    requires !value.Str?
    ensures var r := UpdateOverrides(overrides, propName, value, defaults);
      && propName !in r
      && r.Keys == overrides.Keys - {propName}
      && (forall p :: p in r ==> r[p] == overrides[p])
  {
  }

  lemma OverwriteTwice(m: map<string, OverrideView>, k: string, first: OverrideView, second: OverrideView)
    ensures m[k := first][k := second] == m[k := second]
  {
  }

  /** Whatever is written to one prop, every other prop's record stays as it was. */
  lemma UpdateLeavesOthers(overrides: map<string, OverrideView>, propName: string, value: Value,
                           defaults: map<string, Value>)
    ensures var r := UpdateOverrides(overrides, propName, value, defaults);
      forall p :: p in overrides && p != propName ==> p in r && r[p] == overrides[p]
  {
  }

  /** Updating one more key of `_rewritableProps` extends the table-wide update by that key. */
  lemma UpdateAllStep(overrides: map<string, OverrideView>, done: map<string, Value>, propName: string,
                      value: Value, defaults: map<string, Value>)
    requires propName !in done
    ensures UpdateOverrides(UpdateAllOverrides(overrides, done, defaults), propName, value, defaults)
         == UpdateAllOverrides(overrides, done[propName := value], defaults)
  {
    var lhs := UpdateOverrides(UpdateAllOverrides(overrides, done, defaults), propName, value, defaults);
    var rhs := UpdateAllOverrides(overrides, done[propName := value], defaults);
    assert lhs.Keys == rhs.Keys;
    forall p | p in lhs ensures lhs[p] == rhs[p] {
    }
  }

  // ---------------------------------------------------------------------------
  // Last request wins

  /** What can happen to one record: a URL is written, or a load's continuation runs. */
  datatype Event = Request(url: string) | Completion(count: nat, data: Value)

  function Step(o: OverrideView, e: Event): OverrideView {
    match e
    case Request(url) => RequestUrl(Some(o), url, o.value)
    case Completion(count, data) => FinishLoad(o, count, data)
  }

  function Run(o: OverrideView, events: seq<Event>): OverrideView
    decreases |events|
  {
    if events == [] then o else Run(Step(o, events[0]), events[1..])
  }

  /** The counter never goes down. */
  lemma {:induction false} RunKeepsCounterMonotone(o: OverrideView, events: seq<Event>)
    ensures Run(o, events).loadCount >= o.loadCount
    decreases |events|
  {
    if events != [] {
      RunKeepsCounterMonotone(Step(o, events[0]), events[1..]);
    }
  }

  /** Continuations of loads other than the current one change nothing, in any number and order. */
  lemma {:induction false} StaleCompletionsChangeNothing(o: OverrideView, events: seq<Event>)
    requires forall i :: 0 <= i < |events| ==> events[i].Completion? && events[i].count != o.loadCount
    ensures Run(o, events) == o
    decreases |events|
  {
    if events != [] {
      assert Step(o, events[0]) == o;
      StaleCompletionsChangeNothing(o, events[1..]);
    }
  }

  /**
   * After a new URL is requested, loads issued earlier may finish before or
   * after the new one, in any order: the record ends up holding the new
   * load's data, for that URL, with nothing pending; until then the visible
   * value is the one from before the request.
   */
  lemma {:induction false} LatestRequestWins(o: OverrideView, url: string, earlier: seq<Event>, data: Value,
                                             later: seq<Event>)
    requires Str(url) != o.lastValue
    requires forall i :: 0 <= i < |earlier| ==> earlier[i].Completion? && earlier[i].count <= o.loadCount
    requires forall i :: 0 <= i < |later| ==> later[i].Completion? && later[i].count <= o.loadCount
    ensures var requested := Step(o, Request(url));
      var beforeLatest := Run(requested, earlier);
      var final := Run(Step(beforeLatest, Completion(requested.loadCount, data)), later);
      && beforeLatest.value == o.value
      && final.value == data && final.loadValue == data
      && final.loadPromise == None
      && final.lastValue == Str(url)
      && final.loadCount == o.loadCount + 1
  {
    var requested := Step(o, Request(url));
    assert requested.loadCount == o.loadCount + 1;
    StaleCompletionsChangeNothing(requested, earlier);
    var finished := Step(requested, Completion(requested.loadCount, data));
    StaleCompletionsChangeNothing(finished, later);
  }

  /**
   * The loads `updateAsyncProps` starts, one per prop: exactly the props
   * written with a string other than the last one seen, each for that URL
   * and under the counter value its record now holds.
   */
  ghost predicate LoadsStarted(overrides: map<string, OverrideView>, written: map<string, Value>,
                               current: map<string, OverrideView>, loads: map<string, Load>)
  {
    && (forall p :: p in loads <==>
          p in written && written[p].Str? && (p !in overrides || overrides[p].lastValue != written[p]))
    && (forall p :: p in loads ==> written[p] == Str(loads[p].url) && p in current && loads[p].count == current[p].loadCount)
  }

  lemma LoadsStartedStep(overrides: map<string, OverrideView>, done: map<string, Value>,
                         before: map<string, OverrideView>, after: map<string, OverrideView>,
                         loads: map<string, Load>, loads': map<string, Load>,
                         propName: string, value: Value, started: Option<Load>)
    requires propName !in done
    requires LoadsStarted(overrides, done, before, loads)
    requires propName in before <==> propName in overrides
    requires propName in before ==> before[propName] == overrides[propName]
    requires forall p :: p in before && p != propName ==> p in after && after[p] == before[p]
    requires started.Some? <==> value.Str? && (propName !in before || before[propName].lastValue != value)
    requires started.Some? ==> propName in after && started.value.url == value.s && started.value.count == after[propName].loadCount
    requires loads' == if started.Some? then loads[propName := started.value] else loads
    ensures LoadsStarted(overrides, done[propName := value], after, loads')
  {
  }

  // ---------------------------------------------------------------------------
  // The objects

  /** One prop's override record; a load's continuation keeps a reference to it. */
  class PropOverride {
    var lastValue: Value
    var loadValue: Value
    var loadPromise: Option<PendingLoad>
    var loadCount: nat
    var value: Value

    constructor (defaultValue: Value)
      ensures View() == NewOverride(defaultValue)
    {
      lastValue := Null;
      loadValue := Null;
      loadPromise := None;
      loadCount := 0;
      value := defaultValue;
    }

    function View(): OverrideView
      reads this
    {
      OverrideView(lastValue, loadValue, loadPromise, loadCount, value)
    }
  }

  /** A started load: the record and the counter value its continuation captured. */
  datatype Load = Load(record: PropOverride, url: string, count: nat)

  datatype StateError = MissingAttributeManager

  /** Per-layer lifecycle state; only the fields the async props use are modelled. */
  class LayerState {
    const attributeManager: Value
    var needsRedraw: bool
    var propOverrides: map<string, PropOverride>
    /** The override table, record contents included, as a value. */
    ghost var overrides: map<string, OverrideView>

    /** `overrides` describes the records, and distinct props never share a record. */
    ghost predicate Valid()
      reads this, propOverrides.Values
    {
      && propOverrides.Keys == overrides.Keys
      && (forall p :: p in propOverrides ==> propOverrides[p].View() == overrides[p])
      && (forall p, q :: p in propOverrides && q in propOverrides && p != q ==> propOverrides[p] != propOverrides[q])
    }

    /** The part of the constructor after its assertion. */
    constructor (attributeManager: Value)
      requires Truthy(attributeManager)
      ensures this.attributeManager == attributeManager
      ensures needsRedraw && propOverrides == map[] && overrides == map[] && Valid()
    {
      this.attributeManager := attributeManager;
      needsRedraw := true;
      propOverrides := map[];
      overrides := map[];
    }

    /** The constructor: it asserts that an attribute manager was supplied. */
    static method Create(attributeManager: Value) returns (r: Result<LayerState, StateError>)
      ensures r.Failure? <==> !Truthy(attributeManager)
      ensures r.Failure? ==> r.error == MissingAttributeManager
      ensures r.Success? ==> && fresh(r.value) && r.value.Valid()
                             && r.value.attributeManager == attributeManager && r.value.needsRedraw
                             && r.value.propOverrides == map[] && r.value.overrides == map[]
    {
      if !Truthy(attributeManager) {
        return Failure(MissingAttributeManager);
      }
      var state := new LayerState(attributeManager);
      r := Success(state);
    }

    /** `getAsyncProp`: the override's value when there is one, the supplied raw value otherwise. */
    function GetAsyncProp(propName: string, rewritableProps: map<string, Value>): (r: Value)
      requires Valid()
      reads this, propOverrides.Values
      ensures propName in overrides ==> r == overrides[propName].value
      ensures propName !in overrides ==> r == Get(rewritableProps, propName)
    {
      if propName in propOverrides then propOverrides[propName].value else Get(rewritableProps, propName)
    }

    /** `_createPropOverride`: the existing record, or a fresh one holding the prop's default. */
    method CreatePropOverride(propName: string, rewritablePropDefaults: map<string, Value>) returns (o: PropOverride)
      requires Valid()
      modifies this
      ensures Valid() && needsRedraw == old(needsRedraw)
      ensures propOverrides == old(propOverrides)[propName := o]
      ensures propName in old(propOverrides) ==> o == old(propOverrides[propName])
      ensures propName !in old(propOverrides) ==> fresh(o)
      ensures overrides == old(overrides)[propName := o.View()]
      ensures o.View() == if propName in old(overrides) then old(overrides)[propName]
                          else NewOverride(Get(rewritablePropDefaults, propName))
    {
      if propName in propOverrides {
        o := propOverrides[propName];
      } else {
        o := new PropOverride(Get(rewritablePropDefaults, propName));
      }
      propOverrides := propOverrides[propName := o];
      overrides := overrides[propName := o.View()];
    }

    /** `_removePropOverride`. */
    method RemovePropOverride(propName: string)
      requires Valid()
      modifies this
      ensures Valid() && needsRedraw == old(needsRedraw)
      ensures propOverrides == old(propOverrides) - {propName}
      ensures overrides == old(overrides) - {propName}
    {
      propOverrides := propOverrides - {propName};
      overrides := overrides - {propName};
    }

    /** `_loadAsyncProp`: bump the record's counter and hand the load to the environment. */
    method LoadAsyncProp(url: string, propOverride: PropOverride) returns (load: Load)
      modifies propOverride
      ensures propOverride.View() == IssueLoad(old(propOverride.View()), url)
      ensures load == Load(propOverride, url, propOverride.loadCount)
    {
      propOverride.loadCount := propOverride.loadCount + 1;
      var count := propOverride.loadCount;
      propOverride.loadPromise := Some(PendingLoad(url, count));
      load := Load(propOverride, url, count);
    }

    /** The 'string' case of `_updateAsyncProp`: record the URL and load it, unless it is the last one seen. */
    method RequestAsyncUrl(propName: string, url: string, rewritablePropDefaults: map<string, Value>)
      returns (started: Option<Load>)
      requires Valid()
      modifies this, if propName in propOverrides then {propOverrides[propName]} else {}
      ensures Valid() && needsRedraw == old(needsRedraw)
      ensures overrides == old(overrides)[propName := RequestUrl(
        if propName in old(overrides) then Some(old(overrides)[propName]) else None,
        url, Get(rewritablePropDefaults, propName))]
      ensures propName in propOverrides && propOverrides == old(propOverrides)[propName := propOverrides[propName]]
      ensures propName in old(propOverrides) ==> propOverrides[propName] == old(propOverrides[propName])
      ensures propName !in old(propOverrides) ==> fresh(propOverrides[propName])
      ensures started.Some? <==> propName !in old(overrides) || old(overrides)[propName].lastValue != Str(url)
      ensures started.Some? ==> started.value == Load(propOverrides[propName], url, overrides[propName].loadCount)
    {
      ghost var current := if propName in overrides then Some(overrides[propName]) else None;
      ghost var requested := RequestUrl(current, url, Get(rewritablePropDefaults, propName));
      var propOverride := CreatePropOverride(propName, rewritablePropDefaults);
      if Str(url) == propOverride.lastValue {
        assert requested == propOverride.View();
        return None;
      }
      ghost var created := propOverride.View();
      var load := RecordAndLoad(propName, url, propOverride);
      assert overrides[propName] == requested;
      OverwriteTwice(old(overrides), propName, created, requested);
      started := Some(load);
    }

    /** The tail of the 'string' case: remember the URL as `lastValue`, then `_loadAsyncProp`. */
    method RecordAndLoad(propName: string, url: string, propOverride: PropOverride) returns (load: Load)
      requires Valid() && propName in propOverrides && propOverrides[propName] == propOverride
      modifies this, propOverride
      ensures Valid() && propOverrides == old(propOverrides) && needsRedraw == old(needsRedraw)
      ensures overrides == old(overrides)[propName := IssueLoad(old(overrides)[propName].(lastValue := Str(url)), url)]
      ensures load == Load(propOverride, url, overrides[propName].loadCount)
    {
      propOverride.lastValue := Str(url);
      load := LoadAsyncProp(url, propOverride);
      overrides := overrides[propName := propOverride.View()];
      forall p | p in propOverrides && p != propName
        ensures propOverrides[p].View() == overrides[p]
      {
        assert propOverrides[p] != propOverride;
      }
    }

    /** `_updateAsyncProp`: a string is loaded as a URL, anything else drops the override. */
    method UpdateAsyncProp(propName: string, value: Value, rewritablePropDefaults: map<string, Value>)
      returns (r: bool, started: Option<Load>)
      requires Valid()
      modifies this, if value.Str? && propName in propOverrides then {propOverrides[propName]} else {}
      ensures Valid() && needsRedraw == old(needsRedraw)
      ensures !r
      ensures overrides == UpdateOverrides(old(overrides), propName, value, rewritablePropDefaults)
      ensures propOverrides.Keys <= old(propOverrides).Keys + {propName}
      ensures forall p :: p in old(propOverrides) && p in propOverrides ==> propOverrides[p] == old(propOverrides[p])
      ensures forall p :: p in propOverrides && p !in old(propOverrides) ==> fresh(propOverrides[p])
      ensures started.Some? <==>
        value.Str? && (propName !in old(overrides) || old(overrides)[propName].lastValue != value)
      ensures started.Some? ==>
        && propName in propOverrides && started.value.record == propOverrides[propName]
        && started.value.url == value.s && started.value.count == overrides[propName].loadCount
    {
      var valueType := AsyncValueType(value);
      StringCaseIsStr(value);
      if valueType == "string" {
        started := RequestAsyncUrl(propName, value.s, rewritablePropDefaults);
      } else {
        RemovePropOverride(propName);
        started := None;
      }
      r := false;
    }

    /** `updateAsyncProps`: `_updateAsyncProp` for every key of `props._rewritableProps`. */
    method UpdateAsyncProps(rewritableProps: map<string, Value>, rewritablePropDefaults: map<string, Value>)
      returns (loads: map<string, Load>)
      requires Valid()
      modifies this, set p | p in propOverrides && p in rewritableProps && rewritableProps[p].Str? :: propOverrides[p]
      ensures Valid() && needsRedraw == old(needsRedraw)
      ensures overrides == UpdateAllOverrides(old(overrides), rewritableProps, rewritablePropDefaults)
      ensures forall p :: p in old(propOverrides) && p in propOverrides ==> propOverrides[p] == old(propOverrides[p])
      ensures forall p :: p in propOverrides && p !in old(propOverrides) ==> fresh(propOverrides[p])
      ensures LoadsStarted(old(overrides), rewritableProps, overrides, loads)
      ensures forall p :: p in loads ==> p in propOverrides && loads[p].record == propOverrides[p]
    {
      loads := map[];
      var done: map<string, Value> := map[];
      var remaining := rewritableProps.Keys;
      while remaining != {}
        invariant remaining <= rewritableProps.Keys
        invariant done.Keys == rewritableProps.Keys - remaining
        invariant forall p :: p in done ==> done[p] == rewritableProps[p]
        invariant Valid() && needsRedraw == old(needsRedraw)
        invariant overrides == UpdateAllOverrides(old(overrides), done, rewritablePropDefaults)
        invariant forall p :: p in old(propOverrides) && p in propOverrides ==> propOverrides[p] == old(propOverrides[p])
        invariant forall p :: p in propOverrides && p !in old(propOverrides) ==> fresh(propOverrides[p])
        invariant LoadsStarted(old(overrides), done, overrides, loads)
        invariant forall p :: p in loads ==> p in propOverrides && loads[p].record == propOverrides[p]
        decreases remaining
      {
        var propName :| propName in remaining;
        loads := UpdateNextAsyncProp(propName, rewritableProps[propName], rewritablePropDefaults,
                                     old(overrides), done, loads);
        done := done[propName := rewritableProps[propName]];
        remaining := remaining - {propName};
      }
      assert done == rewritableProps;
    }

    /** One round of the `updateAsyncProps` loop: `_updateAsyncProp` on the next key, its load recorded. */
    method UpdateNextAsyncProp(propName: string, value: Value, rewritablePropDefaults: map<string, Value>,
                               ghost original: map<string, OverrideView>, ghost done: map<string, Value>,
                               loads: map<string, Load>)
      returns (loads': map<string, Load>)
      requires Valid() && propName !in done
      requires overrides == UpdateAllOverrides(original, done, rewritablePropDefaults)
      requires LoadsStarted(original, done, overrides, loads)
      requires forall p :: p in loads ==> p in propOverrides && loads[p].record == propOverrides[p]
      modifies this, if value.Str? && propName in propOverrides then {propOverrides[propName]} else {}
      ensures Valid() && needsRedraw == old(needsRedraw)
      ensures overrides == UpdateAllOverrides(original, done[propName := value], rewritablePropDefaults)
      ensures propOverrides.Keys <= old(propOverrides).Keys + {propName}
      ensures forall p :: p in old(propOverrides) && p in propOverrides ==> propOverrides[p] == old(propOverrides[p])
      ensures forall p :: p in propOverrides && p !in old(propOverrides) ==> fresh(propOverrides[p])
      ensures LoadsStarted(original, done[propName := value], overrides, loads')
      ensures forall p :: p in loads' ==> p in propOverrides && loads'[p].record == propOverrides[p]
    {
      ghost var before := overrides;
      var _, started := UpdateAsyncProp(propName, value, rewritablePropDefaults);
      loads' := if started.Some? then loads[propName := started.value] else loads;
      UpdateAllStep(original, done, propName, value, rewritablePropDefaults);
      UpdateLeavesOthers(before, propName, value, rewritablePropDefaults);
      assert propName in before <==> propName in original;
      assert propName in before ==> before[propName] == original[propName];
      LoadsStartedStep(original, done, before, overrides, loads, loads', propName, value, started);
    }

    /**
     * The continuation of a load: it takes effect only when the captured
     * counter is still the record's current one, and then raises
     * `dataChanged` on the layer (the result says whether it did). The record
     * may since have been dropped from the table; it is updated all the same.
     */
    method CompleteLoad(load: Load, data: Value) returns (dataChanged: bool)
      requires Valid()
      modifies this, load.record
      ensures Valid() && propOverrides == old(propOverrides) && needsRedraw == old(needsRedraw)
      ensures load.record.View() == FinishLoad(old(load.record.View()), load.count, data)
      ensures dataChanged <==> load.count == old(load.record.loadCount)
      ensures overrides.Keys == old(overrides).Keys
      ensures forall p :: p in overrides ==>
        overrides[p] == if propOverrides[p] == load.record
                        then FinishLoad(old(overrides)[p], load.count, data)
                        else old(overrides)[p]
    {
      var propOverride := load.record;
      ghost var table := overrides;
      ghost var finished := FinishLoad(propOverride.View(), load.count, data);
      dataChanged := false;
      if load.count == propOverride.loadCount {
        propOverride.loadValue := data;
        propOverride.loadPromise := None;
        propOverride.value := data;
        dataChanged := true;
      }
      assert propOverride.View() == finished;
      overrides := map p | p in table :: if propOverrides[p] == propOverride then finished else table[p];
      forall p | p in propOverrides ensures propOverrides[p].View() == overrides[p] {
        if propOverrides[p] != propOverride {
          assert propOverrides[p].View() == old(propOverrides[p].View());
        }
      }
    }
  }

  /**
   * Two URLs written one after the other: the first load finishing late is
   * discarded and leaves the default visible; the second one's data is what
   * the prop then shows.
   */
  method SupersededLoadScenario(url1: string, url2: string, data1: Value, data2: Value, defaultValue: Value)
    returns (afterStale: Value, afterLatest: Value, staleChanged: bool, latestChanged: bool)
    requires url1 != url2
    ensures afterStale == defaultValue && !staleChanged
    ensures afterLatest == data2 && latestChanged
  {
    var created := LayerState.Create(Bool(true));
    var state := created.value;
    var defaults := map["data" := defaultValue];
    var loads1 := state.UpdateAsyncProps(map["data" := Str(url1)], defaults);
    assert "data" in loads1;
    var loads2 := state.UpdateAsyncProps(map["data" := Str(url2)], defaults);
    assert "data" in loads2;
    staleChanged := state.CompleteLoad(loads1["data"], data1);
    afterStale := state.GetAsyncProp("data", map["data" := Str(url2)]);
    latestChanged := state.CompleteLoad(loads2["data"], data2);
    afterLatest := state.GetAsyncProp("data", map["data" := Str(url2)]);
  }

  /** The first half of `OrphanedLoadScenario`: a URL starts a load, then a non-string value drops its record. */
  method StartThenDrop(url: string, defaultValue: Value) returns (state: LayerState, first: Load)
    ensures fresh(state) && fresh(first.record) && state.Valid()
    ensures state.propOverrides == map[] && state.overrides == map[]
    ensures first.count == first.record.loadCount
  {
    var created := LayerState.Create(Bool(true));
    state := created.value;
    var defaults := map["data" := defaultValue];
    var loads := state.UpdateAsyncProps(map["data" := Str(url)], defaults);
    assert "data" in loads;
    first := loads["data"];
    assert first.count == first.record.loadCount;
    var none := state.UpdateAsyncProps(map["data" := Null], defaults);
    assert state.overrides == map[];
  }

  /**
   * A URL, then a value that is not a string, then a URL again: the first
   * load's record has left the table when that load finishes. Its
   * continuation still updates that orphaned record and raises
   * `dataChanged`, while the prop goes on showing the default held by its
   * new record until the second load finishes.
   */
  method OrphanedLoadScenario(url1: string, url2: string, data1: Value, data2: Value, defaultValue: Value)
    returns (orphanChanged: bool, orphanValue: Value, afterOrphan: Value, latestChanged: bool, afterLatest: Value)
    ensures orphanChanged && orphanValue == data1 && afterOrphan == defaultValue
    ensures latestChanged && afterLatest == data2
  {
    var state, first := StartThenDrop(url1, defaultValue);
    var loads2 := state.UpdateAsyncProps(map["data" := Str(url2)], map["data" := defaultValue]);
    assert state.overrides["data"] == RequestUrl(None, url2, defaultValue);
    assert "data" in loads2;
    orphanChanged := state.CompleteLoad(first, data1);
    orphanValue := first.record.value;
    assert state.overrides["data"].value == defaultValue;
    afterOrphan := state.GetAsyncProp("data", map["data" := Str(url2)]);
    latestChanged := state.CompleteLoad(loads2["data"], data2);
    afterLatest := state.GetAsyncProp("data", map["data" := Str(url2)]);
  }
}
