// What the data-integrity validators have in common: they run a fixed
// series of checks, push the message of each check that fails, and answer
// `{ isValid, errors }`, or throw a TypeError on a value they cannot read.
// The messages are kept as the values of an enumeration; each validator
// gives their texts.
module Verdicts {
  import opened Wrappers
  import opened Strings
  import opened JsValue

  /** `{ isValid, errors }`. */
  datatype Verdict<E> = Verdict(isValid: bool, errors: seq<E>)

  /** A validator either returns its verdict or throws a TypeError. */
  datatype Checked<E> = Returns(verdict: Verdict<E>) | Throws

  /** `!!v` for a property that may be missing. */
  predicate Present(v: Option<Value>)
  {
    v.Some? && Truthy(v.value)
  }

  /** A string property with a character that is not whitespace: what
      `!v || typeof v !== 'string' || v.trim().length === 0` rejects (see
      `FilledTextTrim`). */
  predicate FilledText(v: Option<Value>)
  {
    v.Some? && v.value.Str? && HasNonSpace(v.value.s)
  }

  lemma FilledTextTrim(v: Option<Value>)
    ensures FilledText(v) <==> v.Some? && v.value.Str? && Trim(v.value.s) != ""
  {
    if v.Some? && v.value.Str? {
      TrimNonEmptyIff(v.value.s);
    }
  }

  /** `[message]` when the check fails, `[]` otherwise: one `push`. */
  function Flag<E>(failed: bool, message: E): seq<E>
  {
    if failed then [message] else []
  }

  /** `if (failed) errors.push(message)`. */
  method PushIf<E>(errors: seq<E>, failed: bool, message: E) returns (r: seq<E>)
    ensures r == errors + Flag(failed, message)
  {
    r := errors;
    if failed {
      r := r + [message];
    }
  }

  /** One more check adds its message exactly when it fails. */
  lemma FlagIn<E>(errors: seq<E>, failed: bool, message: E, m: E)
    ensures m in errors + Flag(failed, message) <==> m in errors || (failed && message == m)
  {
  }

  /** The texts of a list of messages, in order. */
  function Texts<E>(errors: seq<E>, text: E -> string): (r: seq<string>)
    ensures |r| == |errors| && forall i :: 0 <= i < |errors| ==> r[i] == text(errors[i])
  {
    if errors == [] then [] else [text(errors[0])] + Texts(errors[1..], text)
  }
}
