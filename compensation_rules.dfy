/**
 * The rules the two compensation forms share: the value pattern `^[+-]?\d*\.?\d+$` (an optional
 * sign, any digits, an optional decimal point and at least one digit after it), and the refinement
 * that at least one of coordinate system, tool and number is given.
 */
module CompensationRules {
  import opened Wrappers
  import opened Text
  import opened Records

  /** The refinement `coordinateSystem || tool || number`: some location field is non-empty. */
  predicate HasLocation(coordinateSystem: Option<string>, tool: Option<string>, number: Option<string>)
  {
    PresentOrAbsent(coordinateSystem).Some? || PresentOrAbsent(tool).Some? || PresentOrAbsent(number).Some?
  }

  /** The refinement read on the raw fields: one of them is present and not empty. */
  lemma LocationRule(coordinateSystem: Option<string>, tool: Option<string>, number: Option<string>)
    ensures HasLocation(coordinateSystem, tool, number) <==>
      || (coordinateSystem.Some? && coordinateSystem.value != "")
      || (tool.Some? && tool.value != "")
      || (number.Some? && number.value != "")
  {
  }

  /** A location that is only whitespace still satisfies the refinement. */
  lemma WhitespaceIsALocation(space: string)
    requires space != "" && AllWhitespace(space)
    ensures HasLocation(Some(space), None, None)
    ensures !HasLocation(Some(""), None, Some(""))
  {
  }

  predicate IsSignChar(c: char) { c == '+' || c == '-' }

  /** `s` is an optional sign, digits, an optional point and at least one digit, in that order. */
  ghost predicate SplitsInto(s: string, sign: string, whole: string, point: string, fraction: string)
  {
    && s == sign + whole + point + fraction
    && (sign == "" || sign == "+" || sign == "-")
    && AllDigits(whole)
    && (point == "" || point == ".")
    && fraction != [] && AllDigits(fraction)
  }

  /** The pattern read as a decomposition into its four parts. */
  ghost predicate Decomposes(s: string)
  {
    exists sign, whole, point, fraction :: SplitsInto(s, sign, whole, point, fraction)
  }

  /** The text after an optional leading sign. */
  function Unsigned(s: string): (body: string)
    ensures |s| > 0 && IsSignChar(s[0]) ==> s == [s[0]] + body
    ensures !(|s| > 0 && IsSignChar(s[0])) ==> body == s
  {
    if |s| > 0 && IsSignChar(s[0]) then s[1..] else s
  }

  /** The matcher on the text after the sign: digits only (at least one), or digits, the first
   * `.` and at least one digit after it. */
  predicate IsUnsignedValue(body: string)
  {
    var k := IndexOf(body, '.');
    var fraction := if k < |body| then body[k + 1..] else body;
    AllDigits(body[..k]) && fraction != [] && AllDigits(fraction)
  }

  /** The matcher: an optional sign, then an unsigned value. */
  predicate IsValue(s: string)
  {
    IsUnsignedValue(Unsigned(s))
  }

  /** The first `c` is at `j` when `s[j]` is `c` and nothing before it is. */
  lemma IndexOfAt(s: string, c: char, j: nat)
    requires j <= |s| && c !in s[..j]
    requires j < |s| ==> s[j] == c
    ensures IndexOf(s, c) == j
  {
  }

  lemma SplitWitness(s: string, sign: string, whole: string, point: string, fraction: string)
    requires SplitsInto(s, sign, whole, point, fraction)
    ensures Decomposes(s)
  {
  }

  /** Cutting the unsigned text at a point gives the four parts back. */
  lemma RecomposeAtPoint(s: string, sign: string, body: string, k: nat)
    requires s == sign + body && k < |body| && body[k] == '.'
    ensures s == sign + body[..k] + "." + body[k + 1..]
  {
    assert body == body[..k] + "." + body[k + 1..];
  }

  /** Every string the matcher accepts has a decomposition. */
  lemma IsValueDecomposes(s: string)
    requires IsValue(s)
    ensures Decomposes(s)
  {
    var body := Unsigned(s);
    var sign: string := if |s| > 0 && IsSignChar(s[0]) then [s[0]] else "";
    assert s == sign + body;
    var k := IndexOf(body, '.');
    if k < |body| {
      RecomposeAtPoint(s, sign, body, k);
      SplitWitness(s, sign, body[..k], ".", body[k + 1..]);
    } else {
      assert body[..k] == body;
      assert s == sign + "" + "" + body;
      SplitWitness(s, sign, "", "", body);
    }
  }

  /** Digits, an optional point and at least one digit pass the unsigned matcher. */
  lemma UnsignedPartsMatch(whole: string, point: string, fraction: string)
    requires AllDigits(whole)
    requires point == "" || point == "."
    requires fraction != [] && AllDigits(fraction)
    ensures IsUnsignedValue(whole + point + fraction)
  {
    var body := whole + point + fraction;
    assert '.' !in whole;
    if point == "." {
      assert body[..|whole|] == whole;
      IndexOfAt(body, '.', |whole|);
      assert body[|whole| + 1..] == fraction;
    } else {
      assert body == whole + fraction;
      assert '.' !in body;
      assert body[..|body|] == body;
      IndexOfAt(body, '.', |body|);
    }
  }

  /** Such parts never start with a sign, so a sign in front is the only one. */
  lemma UnsignedOfParts(sign: string, whole: string, point: string, fraction: string)
    requires sign == "" || sign == "+" || sign == "-"
    requires AllDigits(whole)
    requires point == "" || point == "."
    requires fraction != [] && AllDigits(fraction)
    ensures Unsigned(sign + (whole + point + fraction)) == whole + point + fraction
  {
    var body := whole + point + fraction;
    assert !IsSignChar(body[0]) by {
      if whole != [] { assert body[0] == whole[0]; }
      else if point != "" { assert body[0] == '.'; }
      else { assert body[0] == fraction[0]; }
    }
    if sign == "" {
      assert sign + body == body;
    } else {
      assert (sign + body)[1..] == body;
    }
  }

  /** Every decomposition is accepted by the matcher. */
  lemma DecompositionIsValue(sign: string, whole: string, point: string, fraction: string)
    requires sign == "" || sign == "+" || sign == "-"
    requires AllDigits(whole)
    requires point == "" || point == "."
    requires fraction != [] && AllDigits(fraction)
    ensures IsValue(sign + whole + point + fraction)
  {
    var body := whole + point + fraction;
    assert sign + whole + point + fraction == sign + body;
    UnsignedOfParts(sign, whole, point, fraction);
    UnsignedPartsMatch(whole, point, fraction);
  }

  /** The matcher accepts exactly the strings the pattern describes. */
  lemma IsValueIffDecomposes(s: string)
    ensures IsValue(s) <==> Decomposes(s)
  {
    if IsValue(s) {
      IsValueDecomposes(s);
    }
    if Decomposes(s) {
      var sign, whole, point, fraction :| SplitsInto(s, sign, whole, point, fraction);
      DecompositionIsValue(sign, whole, point, fraction);
    }
  }

  /** The value field's two rules, the pattern and a minimum length of one, are the pattern alone. */
  lemma ValueRule(s: string)
    ensures (IsValue(s) && |s| >= 1) <==> Decomposes(s)
  {
    IsValueIffDecomposes(s);
    if Decomposes(s) {
      var sign, whole, point, fraction :| SplitsInto(s, sign, whole, point, fraction);
    }
  }

  /** Values the form's hint describes as numbers with an optional sign. */
  lemma AcceptedExamples()
    ensures Decomposes("+0.15") && Decomposes("-.5") && Decomposes("7")
  {
    assert SplitsInto("+0.15", "+", "0", ".", "15");
    assert SplitsInto("-.5", "-", "", ".", "5");
    assert SplitsInto("7", "", "", "", "7");
  }

  /** A trailing point, a bare sign, two points and the empty string are rejected. */
  lemma RejectedExamples()
    ensures !Decomposes("5.") && !Decomposes("+") && !Decomposes("1.2.3") && !Decomposes("")
  {
    IsValueIffDecomposes("5.");
    IsValueIffDecomposes("+");
    IsValueIffDecomposes("1.2.3");
    IsValueIffDecomposes("");
  }
}
