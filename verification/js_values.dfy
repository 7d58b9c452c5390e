/** The JavaScript values the modelled code inspects: optional fields, numbers
    (with NaN and the infinities), request-body values, truthiness and
    `String.prototype.includes`.
 */
module JsValues {

  /** A field that may be absent (`undefined` or `null`) or hold a value. */
  datatype Option<+T> = None | Some(value: T)

  /** A JavaScript number. Doubles are abstracted to exact reals; no arithmetic
      is performed on them anywhere in the model, so rounding never matters. */
  datatype Number = Finite(value: real) | NaN | Infinity(negative: bool)

  /** The kinds of value a decoded JSON request field can hold. */
  datatype JsValue =
    | Undefined
    | Null
    | Bool(b: bool)
    | Num(n: Number)
    | Str(s: string)
    | Composite // an object or an array

  /** JavaScript truthiness of an optional string: present and non-empty. */
  predicate Truthy(o: Option<string>) {
    o.Some? && o.value != ""
  }

  /** `s.includes(t)`: `t` occurs in `s` as a contiguous block. */
  predicate Includes(s: string, t: string)
    decreases |s|
  {
    t <= s || (|s| > 0 && Includes(s[1..], t))
  }

  /** `Includes` means exactly: some offset of `s` starts a copy of `t`. */
  lemma {:induction false} IncludesAtOffset(s: string, t: string)
    ensures Includes(s, t) <==> exists i :: 0 <= i <= |s| && t <= s[i..]
    decreases |s|
  {
    if Includes(s, t) {
      if t <= s {
        assert t <= s[0..];
      } else {
        IncludesAtOffset(s[1..], t);
        var i :| 0 <= i <= |s[1..]| && t <= s[1..][i..];
        assert s[1..][i..] == s[i + 1..];
      }
    }
    if exists i :: 0 <= i <= |s| && t <= s[i..] {
      var i :| 0 <= i <= |s| && t <= s[i..];
      if i == 0 {
        assert s[0..] == s;
      } else {
        assert s[1..][i - 1..] == s[i..];
        IncludesAtOffset(s[1..], t);
      }
    }
  }

  /** A string that contains `t` somewhere cannot be shorter than `t`; in
      particular the empty string contains only the empty string. */
  lemma {:induction false} IncludesNeedsLength(s: string, t: string)
    requires Includes(s, t)
    ensures |t| <= |s|
    decreases |s|
  {
    if !(t <= s) {
      IncludesNeedsLength(s[1..], t);
    }
  }
}
