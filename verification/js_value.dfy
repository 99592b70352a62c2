/**
 * The JavaScript values that the layer prop lifecycle inspects, and the few
 * JavaScript operations on them that it relies on: truthiness, reading a
 * possibly missing key, and the case-insensitive substring tests that its
 * regular expressions perform.
 */
module JsValue {

  datatype Option<+T> = None | Some(value: T)

  datatype Result<+T, +E> = Success(value: T) | Failure(error: E)

  /**
   * A JavaScript value. Numbers are finite reals (NaN and the infinities are
   * not modelled); `Arr` stands for an Array or a typed-array view (both are
   * what `getTypeOf` calls 'array'); functions and promises are known only by
   * identity; `Obj` is a plain object given by its own enumerable properties.
   */
  datatype Value =
    | Undefined
    | Null
    | Bool(b: bool)
    | Num(n: real)
    | Str(s: string)
    | Arr(elems: seq<Value>)
    | Fun(fid: nat)
    | Promise(pid: nat)
    | Obj(fields: map<string, Value>)

  /** The JavaScript `typeof` operator. */
  function TypeOf(v: Value): string {
    match v
    case Undefined => "undefined"
    case Null => "object"
    case Bool(_) => "boolean"
    case Num(_) => "number"
    case Str(_) => "string"
    case Arr(_) => "object"
    case Fun(_) => "function"
    case Promise(_) => "object"
    case Obj(_) => "object"
  }

  /** JavaScript truthiness (`if (v)`, `v || w`, `v && w`). */
  predicate Truthy(v: Value) {
    match v
    case Undefined => false
    case Null => false
    case Bool(b) => b
    case Num(n) => n != 0.0
    case Str(s) => s != ""
    case _ => true
  }

  /** `obj[key]` on an object without a prototype: `undefined` when absent. */
  function Get(m: map<string, Value>, key: string): Value {
    if key in m then m[key] else Undefined
  }

  /** The own properties of a value that `'k' in v` and `Object.assign` see. */
  function Fields(v: Value): map<string, Value> {
    if v.Obj? then v.fields else map[]
  }

  /**
   * Case folding of a non-unicode `/…/i` regular expression, restricted to
   * what matters when the pattern is lower-case ASCII: only the letters A-Z
   * fold onto the pattern's letters.
   */
  function LowerChar(c: char): char {
    if 'A' <= c <= 'Z' then (c as int + 32) as char else c
  }

  function Lower(s: string): (r: string)
    ensures |r| == |s|
  {
    seq(|s|, i requires 0 <= i < |s| => LowerChar(s[i]))
  }

  /** `w` occurs in `s` starting at index `i`. */
  predicate OccursAt(s: string, w: string, i: int) {
    0 <= i && i + |w| <= |s| && forall j :: 0 <= j < |w| ==> s[i + j] == w[j]
  }

  /** `w` occurs in `s` as a contiguous substring (what an unanchored regular expression made of one word tests). */
  predicate Contains(s: string, w: string) {
    exists i | 0 <= i <= |s| - |w| :: OccursAt(s, w, i)
  }

  /** A character of `w` that `s` lacks rules out every occurrence of `w` in `s`. */
  lemma MissingCharRulesOut(s: string, w: string, j: int)
    requires 0 <= j < |w| && w[j] !in s
    ensures !Contains(s, w)
  {
  }

  /** The characters at which the regular-expression `.` refuses to match. */
  predicate IsLineTerminator(c: char) {
    c == '\n' || c == '\r' || c == '\U{2028}' || c == '\U{2029}'
  }

  /** Two maps with the same keys that agree at every key are equal. */
  lemma EqualByKey<V>(m: map<string, V>, n: map<string, V>)
    requires m.Keys == n.Keys && forall k :: k in m ==> m[k] == n[k]
    ensures m == n
  {
  }
}
