/**
 * JSON-ish values as the server sees them after `JSON.parse`, records as
 * string-keyed maps of such values, and the two JavaScript primitives the
 * store relies on: truthiness and `String.prototype.toLowerCase`.
 */
module Json {

  /** A parsed JSON value. Numbers are reals; a literal that `JSON.parse` overflows to Infinity is not represented. */
  datatype Value =
    | Null
    | Bool(b: bool)
    | Num(n: real)
    | Str(s: string)
    | Arr(items: seq<Value>)
    | Obj(fields: map<string, Value>)

  /** An anime record: a plain object, keyed by property name. */
  type Record = map<string, Value>

  /** JavaScript truthiness of a JSON value: "", 0, false and null are falsy; arrays and objects are truthy. */
  predicate Truthy(v: Value) {
    match v
    case Null => false
    case Bool(b) => b
    case Num(n) => n != 0.0
    case Str(s) => s != ""
    case Arr(_) => true
    case Obj(_) => true
  }

  /** Truthiness of the property read `r.k`; a missing property reads as `undefined`, which is falsy. */
  predicate FieldTruthy(r: Record, k: string) {
    k in r && Truthy(r[k])
  }

  predicate IsUpper(c: char) {
    ('A' <= c <= 'Z') || ('\U{C0}' <= c <= '\U{DE}' && c != '\U{D7}')
  }

  /** `toLowerCase` on one character, for ASCII and the Latin-1 capitals (U+00C0 to U+00DE, except U+00D7). */
  function LowerChar(c: char): (d: char)
    ensures !IsUpper(d)
    ensures IsUpper(c) ==> d as int == c as int + 32
    ensures !IsUpper(c) ==> d == c
  {
    if IsUpper(c) then (c as int + 32) as char else c
  }

  /** `toLowerCase` on a string, character by character. */
  function Lower(s: string): (r: string)
    ensures |r| == |s| && forall i :: 0 <= i < |r| ==> !IsUpper(r[i])
    ensures forall i :: 0 <= i < |s| && !IsUpper(s[i]) ==> r[i] == s[i]
    ensures r == s <==> forall i :: 0 <= i < |s| ==> !IsUpper(s[i])
  {
    seq(|s|, i requires 0 <= i < |s| => LowerChar(s[i]))
  }

  lemma LowerIdempotent(s: string)
    ensures Lower(Lower(s)) == Lower(s)
  {
  }
}
