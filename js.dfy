/** The JavaScript semantics that lib/tplink.js relies on: a model of the
    values a caller can pass, their truthiness and `typeof`, and the two
    string built-ins `toLowerCase` and `includes`. */
module Js {

  /** A JavaScript value. `O` is what the model keeps of an object: the
      properties the core reads from it. Numbers are modelled as integers. */
  datatype Value<+O> =
    | Undefined
    | Null
    | Boolean(b: bool)
    | Number(n: int)
    | Str(s: string)
    | Object(obj: O)
    | Function
    | Symbol

  /** `!!v`: false exactly for undefined, null, false, 0 and the empty string. */
  predicate Truthy<O>(v: Value<O>) {
    match v
    case Undefined => false
    case Null => false
    case Boolean(b) => b
    case Number(n) => n != 0
    case Str(s) => s != ""
    case _ => true
  }

  /** The `typeof` operator (note that `typeof null` is "object"). */
  function TypeOf<O>(v: Value<O>): string {
    match v
    case Undefined => "undefined"
    case Null => "object"
    case Boolean(_) => "boolean"
    case Number(_) => "number"
    case Str(_) => "string"
    case Object(_) => "object"
    case Function => "function"
    case Symbol => "symbol"
  }

  /** Lower-casing of one character, on the ASCII letters A to Z. */
  function LowerChar(c: char): char {
    if 'A' <= c <= 'Z' then (c as int + 32) as char else c
  }

  /** `s.toLowerCase()`: every character lowered, the length unchanged. */
  function ToLower(s: string): (r: string)
    ensures |r| == |s|
    ensures forall i :: 0 <= i < |s| ==> r[i] == LowerChar(s[i])
  {
    seq(|s|, i requires 0 <= i < |s| => LowerChar(s[i]))
  }

  /** Lowering an already lowered string changes nothing. */
  lemma ToLowerIdempotent(s: string)
    ensures ToLower(ToLower(s)) == ToLower(s)
  {
  }

  /** `sub` occurs in `s` starting at index `i`. */
  ghost predicate OccursAt(s: string, sub: string, i: int) {
    0 <= i && i + |sub| <= |s| && s[i..i + |sub|] == sub
  }

  /** The reference meaning of a substring test: some occurrence exists. */
  ghost predicate Contains(s: string, sub: string) {
    exists i :: OccursAt(s, sub, i)
  }

  lemma OccursAtShift(s: string, sub: string, i: int)
    requires s != [] && 0 <= i
    ensures OccursAt(s[1..], sub, i) <==> OccursAt(s, sub, i + 1)
  {
  }

  /** When `sub` is not a prefix of `s`, it occurs in `s` exactly when it
      occurs in the tail of `s`. */
  lemma ContainsInTail(s: string, sub: string)
    requires |sub| <= |s| && s[..|sub|] != sub
    ensures s != [] && (Contains(s[1..], sub) <==> Contains(s, sub))
  {
    if Contains(s, sub) {
      var i :| OccursAt(s, sub, i);
      assert i != 0;
      OccursAtShift(s, sub, i - 1);
    }
    if Contains(s[1..], sub) {
      var i :| OccursAt(s[1..], sub, i);
      OccursAtShift(s, sub, i);
    }
  }

  /** An occurrence of `sub` at `i` puts its `k`-th character at `i + k`. */
  lemma OccursAtChar(s: string, sub: string, i: int, k: int)
    requires OccursAt(s, sub, i) && 0 <= k < |sub|
    ensures s[i + k] == sub[k]
  {
  }

  /** A string that lacks one of the characters of `sub` does not contain `sub`. */
  lemma MissingCharExcludes(s: string, sub: string, k: int)
    requires 0 <= k < |sub| && sub[k] !in s
    ensures !Contains(s, sub)
  {
  }

  /** `s.includes(sub)`: a case-sensitive substring test; the empty string
      is included in every string. */
  function Includes(s: string, sub: string): (r: bool)
    ensures r <==> Contains(s, sub)
    decreases |s|
  {
    if |s| < |sub| then
      false
    else if s[..|sub|] == sub then
      assert OccursAt(s, sub, 0);
      true
    else
      ContainsInTail(s, sub);
      Includes(s[1..], sub)
  }
}
