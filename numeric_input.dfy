/**
 * `useNumericInput`: the shared entry buffer behind the on-screen numeric keypad. Tokens are
 * appended to a string; a sign is only taken at the start or while the buffer has no sign yet,
 * so a buffer fed from the keypad never holds two signs.
 */
module NumericInput {
  import opened Wrappers

  /** `input === '+' || input === '-'`. */
  predicate IsSign(input: string) { input == "+" || input == "-" }

  /** `prev.includes('+') || prev.includes('-')`. */
  predicate HasSign(s: string) { '+' in s || '-' in s }

  /** `prev.slice(0, -1)`: everything but the last character; `""` stays `""`. */
  function DropLast(s: string): (r: string)
    ensures |s| == 0 ==> r == ""
    ensures |s| > 0 ==> |r| == |s| - 1 && s == r + [s[|s| - 1]]
  {
    if |s| == 0 then "" else s[..|s| - 1]
  }

  /** The value `handleInput(input)` leaves when the buffer held `prev`. */
  function Next(prev: string, input: string): (next: string)
    ensures input == "backspace" ==> next == DropLast(prev)
    ensures input != "backspace" && IsSign(input) && prev == "" ==> next == input
    ensures input != "backspace" && IsSign(input) && prev != "" && HasSign(prev) ==> next == prev
    ensures input != "backspace" && !(IsSign(input) && (prev == "" || HasSign(prev))) ==> next == prev + input
  {
    if input == "backspace" then DropLast(prev)
    else if IsSign(input) && prev == "" then input
    else if IsSign(input) && HasSign(prev) then prev
    else prev + input
  }

  /** The tokens the numeric keypad sends: ten digits, both signs and backspace. */
  predicate IsKeypadToken(input: string)
  {
    || (|input| == 1 && '0' <= input[0] <= '9')
    || input == "+" || input == "-" || input == "backspace"
  }

  /** How many sign characters `s` holds. */
  function SignCount(s: string): (n: nat)
    ensures n <= |s|
    ensures n == 0 <==> !HasSign(s)
  {
    if s == [] then 0
    else SignCount(s[..|s| - 1]) + (if s[|s| - 1] == '+' || s[|s| - 1] == '-' then 1 else 0)
  }

  /** A keypad token never brings the buffer to more than one sign. */
  lemma {:induction false} NextKeepsOneSign(prev: string, input: string)
    requires SignCount(prev) <= 1 && IsKeypadToken(input)
    ensures SignCount(Next(prev, input)) <= 1
  {
    var next := Next(prev, input);
    if input == "backspace" {
      if |prev| > 0 {
        assert prev[..|prev| - 1] == next;
      }
    } else if IsSign(input) && prev == "" {
      assert next[..0] == "";
    } else if IsSign(input) && HasSign(prev) {
    } else {
      assert next[..|next| - 1] == prev;
      if IsSign(input) {
        assert SignCount(prev) == 0;
      }
    }
  }

  /** What the keypad can do to the buffer: send a token, or clear it. */
  datatype Action = Input(token: string) | Clear

  /** The buffer after a sequence of actions, starting from `value`. */
  function Replay(value: string, actions: seq<Action>): (r: string)
    ensures actions != [] && actions[|actions| - 1] == Clear ==> r == ""
    ensures actions == [] ==> r == value
    decreases |actions|
  {
    if actions == [] then value
    else
      var v := match actions[0] case Input(t) => Next(value, t) case Clear => "";
      Replay(v, actions[1..])
  }

  /** Replaying two runs of actions is replaying the first, then the second from where it ended. */
  lemma {:induction false} ReplayAppend(value: string, first: seq<Action>, second: seq<Action>)
    ensures Replay(value, first + second) == Replay(Replay(value, first), second)
    decreases |first|
  {
    if first == [] {
      assert first + second == second;
    } else {
      var v := match first[0] case Input(t) => Next(value, t) case Clear => "";
      assert (first + second)[0] == first[0];
      assert (first + second)[1..] == first[1..] + second;
      ReplayAppend(v, first[1..], second);
    }
  }

  /** Starting from `""`, keypad tokens and clearing keep at most one sign in the buffer. */
  lemma {:induction false} KeypadBufferHoldsOneSign(value: string, actions: seq<Action>)
    requires SignCount(value) <= 1
    requires forall i :: 0 <= i < |actions| && actions[i].Input? ==> IsKeypadToken(actions[i].token)
    ensures SignCount(Replay(value, actions)) <= 1
    decreases |actions|
  {
    if actions != [] {
      var v := match actions[0] case Input(t) => Next(value, t) case Clear => "";
      if actions[0].Input? {
        NextKeepsOneSign(value, actions[0].token);
      }
      KeypadBufferHoldsOneSign(v, actions[1..]);
    }
  }

  /** `NumericInputProvider`'s state. */
  class NumericInputBuffer {
    var value: string

    constructor()
      ensures value == ""
    {
      value := "";
    }

    /** `handleInput`. */
    method HandleInput(input: string)
      modifies this
      ensures value == Next(old(value), input)
      ensures IsKeypadToken(input) && SignCount(old(value)) <= 1 ==> SignCount(value) <= 1
    {
      if IsKeypadToken(input) && SignCount(value) <= 1 {
        NextKeepsOneSign(value, input);
      }
      if input == "backspace" {
        value := DropLast(value);
        return;
      }
      if IsSign(input) && value == "" {
        value := input;
      } else if IsSign(input) && HasSign(value) {
      } else {
        value := value + input;
      }
    }

    /** `clearValue`. */
    method ClearValue()
      modifies this
      ensures value == ""
    {
      value := "";
    }
  }

  /** The message `useNumericInput` throws with outside a provider. */
  const OutsideProviderMessage: string := "useNumericInput must be used within a NumericInputProvider"

  /** `useNumericInput`: the provider's buffer, or the error thrown when there is no provider. */
  function UseNumericInput(context: Option<NumericInputBuffer>): (r: Result<NumericInputBuffer, string>)
    ensures context.None? <==> r.Err?
    ensures r.Err? ==> r.error == OutsideProviderMessage
    ensures r.Ok? ==> Some(r.value) == context
  {
    match context
    case None => Err(OutsideProviderMessage)
    case Some(buffer) => Ok(buffer)
  }
}
