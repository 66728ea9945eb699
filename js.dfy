/**
 * The fragment of JavaScript's runtime semantics that the contracts' runtime
 * guards and string helpers rely on: a JSON-like value, truthiness, `typeof`,
 * the `in` operator, property reads and the `String.prototype` tests
 * `startsWith` and `includes`.
 */
module Js {

  /** A JavaScript number other than NaN, taken as an exact real. */
  type Number = real

  /** A JSON-like JavaScript value. Functions and symbols do not occur in the contracts' messages. */
  datatype Value =
    | Undefined
    | Null
    | Bool(b: bool)
    | Num(n: Number)
    | NaN
    | Str(s: string)
    | Arr(items: seq<Value>)
    | Obj(fields: map<string, Value>)

  /** How an expression ends: with a value, or by throwing an error of the named kind. */
  datatype Completion = Returned(value: Value) | Threw(error: string)

  /** ToBoolean: `undefined`, `null`, `false`, `0`, `NaN` and `""` are the falsy values. */
  predicate Truthy(v: Value) {
    match v
    case Undefined => false
    case Null => false
    case Bool(b) => b
    case Num(n) => n != 0.0
    case NaN => false
    case Str(s) => s != ""
    case Arr(_) => true
    case Obj(_) => true
  }

  /** The string `typeof v` evaluates to; note that `typeof null` is "object". */
  function TypeOf(v: Value): (r: string)
    ensures r == "object" <==> v.Null? || v.Arr? || v.Obj?
  {
    match v
    case Undefined => "undefined"
    case Null => "object"
    case Bool(_) => "boolean"
    case Num(_) => "number"
    case NaN => "number"
    case Str(_) => "string"
    case Arr(_) => "object"
    case Obj(_) => "object"
  }

  lemma {:induction false} TruthyObjectsAreArraysOrPlainObjects(v: Value)
    ensures Truthy(v) && TypeOf(v) == "object" <==> v.Arr? || v.Obj?
  {
  }

  predicate IsDigit(c: char) {
    '0' <= c <= '9'
  }

  predicate AllDigits(s: string) {
    forall i | 0 <= i < |s| :: IsDigit(s[i])
  }

  /** The number a string of decimal digits denotes. */
  function DecimalValue(s: string): (r: nat)
    requires AllDigits(s)
  {
    if |s| == 0 then 0 else 10 * DecimalValue(s[..|s| - 1]) + (s[|s| - 1] as int - '0' as int)
  }

  /** `k` names an element of an array of length `n`: a canonical decimal numeral below `n`. */
  predicate IsArrayIndexKey(k: string, n: nat) {
    |k| > 0 && AllDigits(k) && (k == "0" || k[0] != '0') && DecimalValue(k) < n
  }

  /**
   * `k in v` for an array or a plain object: whether `k` is an own property of `v`.
   * An array's own properties are its indices and "length".
   */
  predicate HasKey(v: Value, k: string)
    requires v.Arr? || v.Obj?
  {
    match v
    case Arr(items) => k == "length" || IsArrayIndexKey(k, |items|)
    case Obj(fields) => k in fields
  }

  /** The property read `v[k]` on an array or a plain object; a missing property reads as `undefined`. */
  function Get(v: Value, k: string): (r: Value)
    requires v.Arr? || v.Obj?
    ensures !HasKey(v, k) ==> r == Undefined
    ensures v.Obj? && k in v.fields ==> r == v.fields[k]
  {
    match v
    case Arr(items) =>
      if k == "length" then Num(|items| as real)
      else if IsArrayIndexKey(k, |items|) then items[DecimalValue(k)]
      else Undefined
    case Obj(fields) => if k in fields then fields[k] else Undefined
  }

  /** A property name made only of letters is never an array index, so `k in` an array fails for it unless it is "length". */
  lemma LetterKeyNotIndex(k: string, n: nat)
    requires |k| > 0 && !IsDigit(k[0])
    ensures !IsArrayIndexKey(k, n)
  {
  }

  /** `s.startsWith(p)`. */
  predicate StartsWith(s: string, p: string) {
    |p| <= |s| && s[..|p|] == p
  }

  /** `s.includes(t)`: the search moves along `s` until `t` is found at the current position. */
  function Includes(s: string, t: string): (r: bool)
    ensures StartsWith(s, t) ==> r
    ensures |t| > |s| ==> !r
    decreases |s|
  {
    if StartsWith(s, t) then true
    else if |s| == 0 then false
    else Includes(s[1..], t)
  }

  /** `t` occurs in `s` starting at index `i`. */
  predicate OccursAt(t: string, s: string, i: int) {
    0 <= i <= |s| - |t| && s[i..i + |t|] == t
  }

  /** `t` occurs in `s` at some index. */
  ghost predicate OccursIn(t: string, s: string) {
    exists i :: OccursAt(t, s, i)
  }

  /** The search finds `t` exactly when `t` occurs somewhere in `s`. */
  lemma {:induction false} IncludesIffOccurs(s: string, t: string)
    ensures Includes(s, t) <==> OccursIn(t, s)
    decreases |s|
  {
    if StartsWith(s, t) {
      assert OccursAt(t, s, 0);
    } else if |s| == 0 {
      assert |t| > 0;
      forall i
        ensures !OccursAt(t, s, i)
      {
      }
    } else {
      var rest := s[1..];
      IncludesIffOccurs(rest, t);
      if OccursIn(t, rest) {
        var i :| OccursAt(t, rest, i);
        SliceOfTail(s, i + 1, |t|);
        assert OccursAt(t, s, i + 1);
      } else {
        forall i
          ensures !OccursAt(t, s, i)
        {
          if i == 0 && |t| <= |s| {
            assert s[..|t|] == s[0..0 + |t|];
          } else if 0 < i <= |s| - |t| {
            SliceOfTail(s, i, |t|);
            assert !OccursAt(t, rest, i - 1);
          }
        }
      }
    }
  }

  /** Finding `t` at any index is enough for the search to succeed. */
  lemma OccursAtIncludes(s: string, t: string, i: int)
    requires OccursAt(t, s, i)
    ensures Includes(s, t)
  {
    IncludesIffOccurs(s, t);
  }

  lemma SliceOfTail(s: string, i: int, n: int)
    requires 1 <= i && 0 <= n && i + n <= |s|
    ensures s[i..i + n] == s[1..][i - 1..i - 1 + n]
  {
    var here := s[i..i + n];
    var there := s[1..][i - 1..i - 1 + n];
    forall k | 0 <= k < n
      ensures here[k] == there[k]
    {
    }
  }

  /** A string begins with each of its prefixes, and a prefix occurs in it. */
  lemma {:induction false} StartsWithAppend(p: string, s: string)
    ensures StartsWith(p + s, p)
    ensures Includes(p + s, p)
  {
    assert (p + s)[..|p|] == p;
    assert (p + s)[0..0 + |p|] == p;
  }
}
