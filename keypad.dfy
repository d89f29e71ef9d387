/**
 * `Keypad`: a stateless digit pad. Each key press maps the current value to the value handed to
 * `onChange`, or to nothing when a character key would push the value past `maxLength`.
 */
module Keypad {
  import opened Wrappers

  /** `maxLength = 10` when the prop is not given. */
  const DefaultMaxLength: int := 10

  /** The twelve keys the pad shows, in grid order. */
  const Keys: seq<string> := ["1", "2", "3", "4", "5", "6", "7", "8", "9", "clear", "0", "backspace"]

  /** `handleKeyPress(key)`: `Some(v)` when `onChange(v)` is called, `None` when the press is ignored. */
  function HandleKeyPress(value: string, key: string, maxLength: int): (emitted: Option<string>)
    ensures key == "clear" ==> emitted == Some("")
    ensures key == "backspace" ==> emitted.Some? && (|value| > 0 ==> emitted.value + [value[|value| - 1]] == value)
    ensures key == "backspace" && |value| == 0 ==> emitted == Some("")
    ensures key != "clear" && key != "backspace" ==>
      (emitted.None? <==> maxLength != 0 && |value| >= maxLength)
    ensures key != "clear" && key != "backspace" && emitted.Some? ==> emitted.value == value + key
  {
    if key == "clear" then Some("")
    else if key == "backspace" then Some(if |value| == 0 then "" else value[..|value| - 1])
    // `maxLength && ...`: a limit of 0 is falsy and disables the check.
    else if maxLength != 0 && |value| >= maxLength then None
    else Some(value + key)
  }

  /** A press of one of the pad's keys keeps a value within a positive limit. */
  lemma KeypadKeepsLimit(value: string, key: string, maxLength: int)
    requires key in Keys && 0 < maxLength && |value| <= maxLength
    ensures var e := HandleKeyPress(value, key, maxLength); e.Some? ==> |e.value| <= maxLength
  {
  }

  /** At the limit a digit is ignored, while clear and backspace still act. */
  lemma AtLimit(value: string, digit: string, maxLength: int)
    requires digit in Keys && digit != "clear" && digit != "backspace"
    requires maxLength != 0 && |value| >= maxLength
    ensures HandleKeyPress(value, digit, maxLength) == None
    ensures HandleKeyPress(value, "clear", maxLength) == Some("")
    ensures HandleKeyPress(value, "backspace", maxLength).Some?
  {
  }

  /** A limit of 0 lets every character key through. */
  lemma ZeroDisablesLimit(value: string, key: string)
    requires key != "clear" && key != "backspace"
    ensures HandleKeyPress(value, key, 0) == Some(value + key)
  {
  }

  /** With the default limit, ten digits fit and the eleventh is refused. */
  lemma DefaultLimitIsTen(value: string)
    ensures |value| < 10 ==> HandleKeyPress(value, "7", DefaultMaxLength) == Some(value + "7")
    ensures |value| >= 10 ==> HandleKeyPress(value, "7", DefaultMaxLength) == None
  {
  }
}
