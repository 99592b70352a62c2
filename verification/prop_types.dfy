/**
 * Prop-type inference (src/core/lifecycle/prop-types.js): every entry of a
 * layer class's `defaultProps` becomes a descriptor object (`name`, `type`,
 * `value`, and for numbers `min`/`max`), inferred from a bare default value or
 * taken from an explicit `{type, ...}` definition.
 */
module PropTypes {
  import opened JsValue

  /** A prop-type descriptor: an object, given by its own properties. */
  type Descriptor = map<string, Value>

  /** The result of `parsePropTypes`: two dictionaries keyed by prop name. */
  datatype ParsedProps = ParsedProps(propTypes: map<string, Descriptor>, defaultProps: map<string, Value>)

  /** `getTypeOf`: `typeof`, except that arrays and typed-array views are 'array' and `null` is 'null'. */
  function GetTypeOf(v: Value): (r: string)
    ensures r == "array" <==> v.Arr?
    ensures r == "null" <==> v.Null?
    ensures !v.Arr? && !v.Null? ==> r == TypeOf(v)
    ensures r == "object" <==> v.Obj? || v.Promise?
  {
    if v.Arr? then "array"
    else if v.Null? then "null"
    else TypeOf(v)
  }

  // ---------------------------------------------------------------------------
  // TYPE_DEFINITIONS and the number validators

  /**
   * The member names of the `TYPE_DEFINITIONS` entry for a type; a type with no
   * entry reads as `{}` (the `|| {}` of `parsePropDefinition`). The entries for
   * object, array, fixed-array, position, color and function are empty.
   */
  function TypeDefinitionMembers(t: Value): set<string> {
    if t == Str("boolean") then {"validate"}
    else if t == Str("number") then {"validateType", "validate"}
    else {}
  }

  /** `Number.isFinite`: only numbers, and every modelled number is finite. */
  predicate IsFinite(v: Value) {
    v.Num?
  }

  /** JavaScript's ToNumber on a bound, where the model knows it; `None` is NaN or an unmodelled coercion. */
  function BoundAsNumber(v: Value): Option<real> {
    match v
    case Num(n) => Some(n)
    case Bool(b) => Some(if b then 1.0 else 0.0)
    case Null => Some(0.0)
    case _ => None
  }

  /**
   * `TYPE_DEFINITIONS.number.validateType(value, propType)`: a descriptor
   * needs a default, and every bound it gives must be a number.
   */
  predicate NumberValidateType(value: Value, propType: Descriptor): (ok: bool)
    ensures ok <==> "value" in propType && forall bound | bound in propType && IsBoundName(bound) :: propType[bound].Num?
  {
    && "value" in propType
    && ("max" !in propType || IsFinite(propType["max"]))
    && ("min" !in propType || IsFinite(propType["min"]))
  }

  /** The two names a number descriptor may bound its values with. */
  predicate IsBoundName(key: string) {
    key == "min" || key == "max"
  }

  /**
   * `TYPE_DEFINITIONS.number.validate(value, propType)`: only numbers pass,
   * and a bound that does not convert to a number (a comparison with NaN)
   * rejects every value.
   */
  predicate NumberValidate(value: Value, propType: Descriptor): (ok: bool)
    ensures ok ==> value.Num?
    ensures (exists bound | bound in propType && IsBoundName(bound) :: BoundAsNumber(propType[bound]).None?) ==> !ok
  {
    && IsFinite(value)
    && ("max" !in propType || (BoundAsNumber(propType["max"]).Some? && value.n <= BoundAsNumber(propType["max"]).value))
    && ("min" !in propType || (BoundAsNumber(propType["min"]).Some? && value.n >= BoundAsNumber(propType["min"]).value))
  }

  /**
   * With every bound that is present a number, `validate` accepts exactly
   * the numbers that respect each bound present: one bound, both or none.
   */
  lemma NumberValidateRange(value: Value, propType: Descriptor)
    requires "min" in propType ==> propType["min"].Num?
    requires "max" in propType ==> propType["max"].Num?
    ensures NumberValidate(value, propType) <==>
      && value.Num?
      && ("min" in propType ==> propType["min"].n <= value.n)
      && ("max" in propType ==> value.n <= propType["max"].n)
  {
  }

  /** With numeric bounds present, `validate` accepts exactly the numbers between them. */
  lemma NumberValidateInBounds(value: Value, propType: Descriptor)
    requires "min" in propType && "max" in propType
    requires propType["min"].Num? && propType["max"].Num?
    ensures NumberValidate(value, propType) <==>
      value.Num? && propType["min"].n <= value.n <= propType["max"].n
  {
  }

  /** Without bounds, `validate` accepts every number and nothing else. */
  lemma NumberValidateUnbounded(value: Value, propType: Descriptor)
    requires "min" !in propType && "max" !in propType
    ensures NumberValidate(value, propType) <==> value.Num?
  {
  }

  // ---------------------------------------------------------------------------
  // Name tests of guessArrayType and guessNumberType

  /** `/color/i.test(name)`. */
  predicate IsColorName(name: string) {
    Contains(Lower(name), "color")
  }

  /** `/radius|scale|width|height|pixel|size|miter/i.test(name)`. */
  predicate MentionsSize(name: string) {
    var l := Lower(name);
    Contains(l, "radius") || Contains(l, "scale") || Contains(l, "width") || Contains(l, "height")
    || Contains(l, "pixel") || Contains(l, "size") || Contains(l, "miter")
  }

  /**
   * `/^((?!scale).)*$/.test(name)`: no lower-case `scale` anywhere (the test
   * is case-sensitive), and no line terminator, at which `.` fails.
   */
  predicate FreeOfScale(name: string) {
    !Contains(name, "scale") && forall i | 0 <= i < |name| :: !IsLineTerminator(name[i])
  }

  /** The `isKnownProp` of `guessNumberType`: a magnitude-like prop name. */
  predicate IsKnownProp(name: string) {
    MentionsSize(name) && FreeOfScale(name)
  }

  /** The upper-bound candidate: 100 for magnitude-like names, 1 otherwise. */
  function MaxCandidate(name: string): real {
    if IsKnownProp(name) then 100.0 else 1.0
  }

  /** `Math.max` and `Math.min` on finite numbers. */
  function MathMax(a: real, b: real): real { if a >= b then a else b }
  function MathMin(a: real, b: real): real { if a <= b then a else b }

  // ---------------------------------------------------------------------------
  // Inference

  /** `guessArrayType`: a colour when the name mentions color and there are 3 or 4 elements. */
  function GuessArrayType(name: string, elems: seq<Value>): (r: Descriptor)
    ensures r.Keys == {"name", "type", "value"}
    ensures r["name"] == Str(name) && r["value"] == Arr(elems)
    ensures r["type"] == Str("color") || r["type"] == Str("array")
    ensures r["type"] == Str("color") <==> IsColorName(name) && (|elems| == 3 || |elems| == 4)
  {
    if IsColorName(name) && (|elems| == 3 || |elems| == 4) then
      map["name" := Str(name), "type" := Str("color"), "value" := Arr(elems)]
    else
      map["name" := Str(name), "type" := Str("array"), "value" := Arr(elems)]
  }

  /**
   * `guessNumberType`: a number descriptor whose bounds always enclose the
   * default: `min` is the smaller of the value and 0, `max` the larger of the
   * value and the name's candidate.
   */
  function GuessNumberType(name: string, value: real): (r: Descriptor)
    ensures r.Keys == {"name", "type", "max", "min", "value"}
    ensures r["name"] == Str(name) && r["type"] == Str("number") && r["value"] == Num(value)
    ensures r["min"].Num? && r["max"].Num?
    ensures r["min"].n <= value <= r["max"].n
    ensures r["min"].n <= 0.0 && (r["min"].n == 0.0 || r["min"].n == value)
    ensures r["max"].n >= MaxCandidate(name) && (r["max"].n == MaxCandidate(name) || r["max"].n == value)
  {
    var max := if IsKnownProp(name) then 100.0 else 1.0;
    var min := 0.0;
    map[
      "name" := Str(name),
      "type" := Str("number"),
      "max" := Num(MathMax(value, max)),
      "min" := Num(MathMin(value, min)),
      "value" := Num(value)
    ]
  }

  /**
   * `normalizePropDefinition` for an object definition: without `type` and
   * `value` the object itself is the default of an 'object' prop; otherwise
   * the definition's own fields are kept on top of `{name}` (and of the type
   * inferred from `value` when `type` is missing).
   */
  function NormalizePropDefinition(name: string, propDef: Value): (r: Descriptor)
    ensures var f := Fields(propDef);
      "type" !in f && "value" !in f ==>
        r == map["name" := Str(name), "type" := Str("object"), "value" := propDef]
    ensures var f := Fields(propDef);
      "type" in f || "value" in f ==>
        && r.Keys == f.Keys + {"name", "type"}
        && (forall k :: k in f ==> r[k] == f[k])
        && ("name" !in f ==> r["name"] == Str(name))
        && ("type" !in f ==> r["type"] == Str(GetTypeOf(f["value"])))
  {
    var f := Fields(propDef);
    if "type" !in f then
      if "value" !in f then
        map["name" := Str(name), "type" := Str("object"), "value" := propDef]
      else
        map["name" := Str(name), "type" := Str(GetTypeOf(f["value"]))] + f
    else
      map["name" := Str(name)] + f
  }

  /**
   * `parsePropDefinition`: it looks up a `typeValidator` member of the type's
   * entry and asserts it when present. No entry has such a member, so the
   * assertion never runs and every definition is returned as it is.
   */
  function ParsePropDefinition(propDef: Descriptor): (r: Descriptor)
    ensures "typeValidator" !in TypeDefinitionMembers(Get(propDef, "type"))
    ensures r == propDef
  {
    var typeDefinition := TypeDefinitionMembers(Get(propDef, "type"));
    if "typeValidator" in typeDefinition then assert false; propDef else propDef
  }

  /** `parsePropType`: the switch on `getTypeOf` of the definition. */
  function ParsePropType(name: string, propDef: Value): (r: Descriptor)
    ensures "name" in r && "type" in r
    ensures GetTypeOf(propDef) != "object" ==> r["name"] == Str(name) && Get(r, "value") == propDef
    ensures GetTypeOf(propDef) == "object" ==> r == NormalizePropDefinition(name, propDef)
    ensures propDef.Arr? ==> r == GuessArrayType(name, propDef.elems)
    ensures propDef.Num? ==> r == GuessNumberType(name, propDef.n)
    ensures propDef.Bool? ==> r["type"] == Str("boolean")
    ensures propDef.Fun? ==> r["type"] == Str("function")
    ensures propDef.Str? || propDef.Null? || propDef.Undefined? ==> r["type"] == Str("unknown")
  {
    var t := GetTypeOf(propDef);
    if t == "object" then
      ParsePropDefinition(NormalizePropDefinition(name, propDef))
    else if t == "array" then
      GuessArrayType(name, propDef.elems)
    else if t == "boolean" then
      map["name" := Str(name), "type" := Str("boolean"), "value" := propDef]
    else if t == "number" then
      GuessNumberType(name, propDef.n)
    else if t == "function" then
      map["name" := Str(name), "type" := Str("function"), "value" := propDef]
    else
      map["name" := Str(name), "type" := Str("unknown"), "value" := propDef]
  }

  /**
   * The default a definition declares: an object definition carrying `type`
   * or `value` declares its `value` (undefined when absent); any other
   * definition, a bare object included, is its own default.
   */
  function DeclaredDefault(propDef: Value): Value {
    if propDef.Obj? && ("type" in propDef.fields || "value" in propDef.fields) then
      Get(propDef.fields, "value")
    else
      propDef
  }

  /** The `value` of the descriptor parsed from a definition is the default it declares. */
  lemma ParsedValueIsDeclaredDefault(name: string, propDef: Value)
    ensures Get(ParsePropType(name, propDef), "value") == DeclaredDefault(propDef)
  {
    if propDef.Obj? {
      var f := propDef.fields;
      if "type" in f || "value" in f {
        var r := ParsePropType(name, propDef);
        assert "value" in r <==> "value" in f;
      }
    }
  }

  /** A number default always lies within the bounds inferred for it, so `validate` accepts it. */
  lemma InferredNumberValidates(name: string, value: real)
    ensures NumberValidateType(Num(value), GuessNumberType(name, value))
    ensures NumberValidate(Num(value), GuessNumberType(name, value))
  {
    NumberValidateInBounds(Num(value), GuessNumberType(name, value));
  }

  /** What `parsePropTypes` computes: one descriptor per key, and its `value` as the default. */
  function ParsedPropTypes(propDefs: map<string, Value>): ParsedProps {
    var propTypes := map k | k in propDefs :: ParsePropType(k, propDefs[k]);
    ParsedProps(propTypes, map k | k in propDefs :: Get(propTypes[k], "value"))
  }

  /**
   * `parsePropTypes`: the loop over `Object.entries(propDefs)` filling
   * `propTypes` and `defaultProps`.
   */
  method ParsePropTypes(propDefs: map<string, Value>) returns (parsed: ParsedProps)
    ensures parsed.propTypes.Keys == propDefs.Keys && parsed.defaultProps.Keys == propDefs.Keys
    ensures forall k :: k in propDefs ==>
      parsed.propTypes[k] == ParsePropType(k, propDefs[k])
      && parsed.defaultProps[k] == Get(parsed.propTypes[k], "value")
    ensures forall k :: k in propDefs ==> parsed.defaultProps[k] == DeclaredDefault(propDefs[k])
    ensures parsed == ParsedPropTypes(propDefs)
  {
    var propTypes: map<string, Descriptor> := map[];
    var defaultProps: map<string, Value> := map[];
    var remaining := propDefs.Keys;
    while remaining != {}
      invariant remaining <= propDefs.Keys
      invariant propTypes.Keys == propDefs.Keys - remaining
      invariant defaultProps.Keys == propTypes.Keys
      invariant forall k :: k in propTypes ==> propTypes[k] == ParsePropType(k, propDefs[k])
      invariant forall k :: k in defaultProps ==> defaultProps[k] == Get(propTypes[k], "value")
      decreases remaining
    {
      var propName :| propName in remaining;
      var propType := ParsePropType(propName, propDefs[propName]);
      propTypes := propTypes[propName := propType];
      defaultProps := defaultProps[propName := Get(propType, "value")];
      remaining := remaining - {propName};
    }
    parsed := ParsedProps(propTypes, defaultProps);
    ParsedPropTypesByKey(propDefs, parsed);
    forall k | k in propDefs
      ensures parsed.defaultProps[k] == DeclaredDefault(propDefs[k])
    {
      ParsedValueIsDeclaredDefault(k, propDefs[k]);
    }
  }

  /** Two dictionaries that agree key by key with `ParsedPropTypes` are its result. */
  lemma ParsedPropTypesByKey(propDefs: map<string, Value>, parsed: ParsedProps)
    requires parsed.propTypes.Keys == propDefs.Keys && parsed.defaultProps.Keys == propDefs.Keys
    requires forall k :: k in propDefs ==> parsed.propTypes[k] == ParsePropType(k, propDefs[k])
    requires forall k :: k in propDefs ==> parsed.defaultProps[k] == Get(parsed.propTypes[k], "value")
    ensures parsed == ParsedPropTypes(propDefs)
  {
    var spec := ParsedPropTypes(propDefs);
    EqualByKey(spec.propTypes, parsed.propTypes);
    EqualByKey(spec.defaultProps, parsed.defaultProps);
  }

  // ---------------------------------------------------------------------------
  // Worked examples

  /** A `radius` of 5 gets the bounds [0, 100]; an `opacity` of 0.4 gets [0, 1]. */
  lemma NumberBoundsExamples()
    ensures GuessNumberType("radius", 5.0)["min"] == Num(0.0)
    ensures GuessNumberType("radius", 5.0)["max"] == Num(100.0)
    ensures GuessNumberType("opacity", 0.4)["min"] == Num(0.0)
    ensures GuessNumberType("opacity", 0.4)["max"] == Num(1.0)
  {
    RadiusIsSizeLike();
    OpacityIsNotSizeLike();
  }

  lemma RadiusIsSizeLike()
    ensures IsKnownProp("radius")
  {
    assert forall i | 0 <= i < |"radius"| :: !IsLineTerminator("radius"[i]);
    assert !Contains("radius", "scale") by {
      MissingCharRulesOut("radius", "scale", 1);
    }
    assert MentionsSize("radius") by {
      assert Lower("radius") == "radius";
      assert OccursAt("radius", "radius", 0);
    }
  }

  lemma OpacityIsNotSizeLike()
    ensures !IsKnownProp("opacity")
  {
    assert Lower("opacity") == "opacity";
    var l := "opacity";
    MissingCharRulesOut(l, "radius", 0);
    MissingCharRulesOut(l, "scale", 0);
    MissingCharRulesOut(l, "width", 0);
    MissingCharRulesOut(l, "height", 0);
    MissingCharRulesOut(l, "pixel", 2);
    MissingCharRulesOut(l, "size", 0);
    MissingCharRulesOut(l, "miter", 0);
  }

  /**
   * The `scale` exclusion is case-sensitive: `getScale` is magnitude-like
   * (max 100), while `scaleFactor` is not (max 1).
   */
  lemma ScaleExclusionExamples()
    ensures IsKnownProp("getScale")
    ensures !IsKnownProp("scaleFactor")
  {
    assert Lower("getScale") == "getscale";
    assert OccursAt("getscale", "scale", 3);
    MissingCharRulesOut("getScale", "scale", 0);
    assert OccursAt("scaleFactor", "scale", 0);
  }

  /** `fillColor: [100, 100, 200]` is a colour; a function-valued `getFillColor` stays a function. */
  lemma ColorInferenceExamples(f: nat)
    ensures ParsePropType("fillColor", Arr([Num(100.0), Num(100.0), Num(200.0)]))["type"] == Str("color")
    ensures ParsePropType("getFillColor", Fun(f))["type"] == Str("function")
    ensures ParsePropType("fillColor", Arr([Num(1.0), Num(2.0)]))["type"] == Str("array")
  {
    assert Lower("fillColor") == "fillcolor";
    assert OccursAt("fillcolor", "color", 4);
  }
}
