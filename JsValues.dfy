/** The few pieces of JavaScript semantics the admin gate relies on:
    optional (possibly `undefined`) strings, truthiness, `String.prototype.startsWith`,
    `String.prototype.substring` with one argument, the `+` operator applied to two
    values that are each a string or `undefined`, and strict equality `===`. */
module JsValues {

  /** A value that is either `undefined` or a string: a request header or an
      environment variable. */
  datatype Option<+T> = None | Some(value: T)

  /** A JavaScript value as far as the gate compares values: a string, the number
      `NaN`, or an object, identified by its reference. */
  datatype Value = Str(s: string) | NaN | Object(ref: nat)

  /** `!!v` for a value that is `undefined` or a string: only the non-empty string is truthy. */
  predicate Truthy(v: Option<string>) {
    v.Some? && v.value != ""
  }

  /** `s.startsWith(prefix)`, compared character by character (case-sensitive). */
  function StartsWith(s: string, prefix: string): (b: bool)
    decreases prefix
  {
    if prefix == [] then true
    else if s == [] then false
    else s[0] == prefix[0] && StartsWith(s[1..], prefix[1..])
  }

  /** `s.substring(start)`: a start beyond the end is clamped to the length. */
  function Substring(s: string, start: nat): (r: string)
    ensures |r| == if start <= |s| then |s| - start else 0
    ensures start <= |s| ==> s[..start] + r == s
  {
    if start <= |s| then s[start..] else ""
  }

  /** `String(v)` for `undefined` or a string. */
  function ToJsString(v: Option<string>): (s: string) {
    match v
    case None => "undefined"
    case Some(s) => s
  }

  /** `a + b` where each operand is `undefined` or a string. Two `undefined`
      operands are added as numbers (`NaN`); otherwise the operands are
      converted to strings and concatenated. */
  function Plus(a: Option<string>, b: Option<string>): (r: Value) {
    if a.None? && b.None? then NaN else Str(ToJsString(a) + ToJsString(b))
  }

  /** `a === b`. */
  predicate StrictEquals(a: Value, b: Value) {
    match (a, b)
    case (Str(x), Str(y)) => x == y
    case (Object(p), Object(q)) => p == q
    case _ => false
  }

  /** `startsWith` agrees with the sequence prefix relation. */
  lemma {:induction false} StartsWithIsPrefix(s: string, prefix: string)
    ensures StartsWith(s, prefix) <==> prefix <= s
    decreases prefix
  {
    if prefix != [] && s != [] {
      StartsWithIsPrefix(s[1..], prefix[1..]);
      assert prefix <= s <==> s[0] == prefix[0] && prefix[1..] <= s[1..];
    }
  }

  /** Whatever follows a matched prefix is what `substring(|prefix|)` returns, and
      putting the prefix back in front gives the original string. */
  lemma AfterPrefix(s: string, prefix: string)
    requires StartsWith(s, prefix)
    ensures |prefix| <= |s|
    ensures prefix + Substring(s, |prefix|) == s
  {
  }
}
