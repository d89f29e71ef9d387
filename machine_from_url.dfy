/**
 * `useMachineFromUrl`: the machines a page offers come from the first path segment that is one
 * or more 4-digit machine numbers joined by single hyphens (`/5701-5702-5703/...`). Any 4-digit
 * number is accepted; there is no lookup against a machine table.
 */
module MachineFromUrl {
  import opened Wrappers
  import opened Text
  import opened Seqs
  import opened MachineIds

  /** What the hook returns. */
  datatype Selection = Selection(availableMachines: seq<string>, activeMachine: string, isValidUrl: bool)

  /** The active machine reported for a path without machine numbers. */
  const InvalidActiveMachine: string := "0000 Fanuc Robodrill"

  predicate IsFourDigits(g: string) { |g| == 4 && AllDigits(g) }

  /** `/^\d{4}(-\d{4})*$/.test(part)`: four digits, then any number of `-` and four more digits. */
  predicate IsMachinePattern(part: string)
    decreases |part|
  {
    if |part| <= 4 then IsFourDigits(part)
    else IsFourDigits(part[..4]) && part[4] == '-' && IsMachinePattern(part[5..])
  }

  /** `pathname.split('/').filter(Boolean)`: the non-empty segments, in order. */
  function PathParts(path: string): (parts: seq<string>)
    ensures forall i :: 0 <= i < |parts| ==> parts[i] != ""
  {
    Filter(SplitOn(path, '/'), (part: string) => part != "")
  }

  /** `k` is the first position whose segment matches the machine pattern. */
  ghost predicate FirstMatchAt(parts: seq<string>, k: nat)
  {
    && k < |parts| && IsMachinePattern(parts[k])
    && forall i :: 0 <= i < k ==> !IsMachinePattern(parts[i])
  }

  /** `pathParts.find(part => pattern.test(part))`. */
  function FindMachinePattern(parts: seq<string>): (found: Option<string>)
    ensures found.None? <==> forall i :: 0 <= i < |parts| ==> !IsMachinePattern(parts[i])
    ensures found.Some? ==> found.value in parts && IsMachinePattern(found.value)
  {
    if parts == [] then None
    else if IsMachinePattern(parts[0]) then Some(parts[0])
    else FindMachinePattern(parts[1..])
  }

  /** What `find` returns is the segment at the first matching position. */
  lemma {:induction false} FindMachinePatternIsFirst(parts: seq<string>)
    requires FindMachinePattern(parts).Some?
    ensures exists k: nat :: FirstMatchAt(parts, k) && parts[k] == FindMachinePattern(parts).value
  {
    if IsMachinePattern(parts[0]) {
      assert FirstMatchAt(parts, 0);
    } else {
      FindMachinePatternIsFirst(parts[1..]);
      var k: nat :| FirstMatchAt(parts[1..], k) && parts[1..][k] == FindMachinePattern(parts[1..]).value;
      assert FirstMatchAt(parts, k + 1);
    }
  }

  /** `machinePattern.split('-').map(num => `${num} Fanuc Robodrill`)`. */
  function MachinesOf(segment: string): (machines: seq<string>)
    ensures |machines| == |SplitOn(segment, '-')|
    ensures forall i :: 0 <= i < |machines| ==> machines[i] == FullMachineId(SplitOn(segment, '-')[i])
  {
    var groups := SplitOn(segment, '-');
    seq(|groups|, i requires 0 <= i < |groups| => FullMachineId(groups[i]))
  }

  /** The hook's result for a location's path name. */
  function Resolve(path: string): (sel: Selection)
    ensures sel.isValidUrl ==> |sel.availableMachines| >= 1 && sel.activeMachine == sel.availableMachines[0]
    ensures !sel.isValidUrl ==> sel == Selection([], InvalidActiveMachine, false)
  {
    match FindMachinePattern(PathParts(path))
    case Some(segment) =>
      var machines := MachinesOf(segment);
      if |machines| > 0 then Selection(machines, machines[0], true)
      else Selection([], InvalidActiveMachine, false)
    case None => Selection([], InvalidActiveMachine, false)
  }

  lemma ResolveFound(path: string)
    ensures var found := FindMachinePattern(PathParts(path));
      && (found.None? ==> !Resolve(path).isValidUrl)
      && (found.Some? ==> Resolve(path).isValidUrl && Resolve(path).availableMachines == MachinesOf(found.value))
  {
  }

  /** A matching segment splits into 4-digit groups, one more than it has hyphens. */
  lemma {:induction false} PatternGroups(part: string)
    requires IsMachinePattern(part)
    ensures |SplitOn(part, '-')| == (|part| + 1) / 5
    ensures forall i :: 0 <= i < |SplitOn(part, '-')| ==> IsFourDigits(SplitOn(part, '-')[i])
  {
    if |part| <= 4 {
      SplitNoSeparator(part, '-');
    } else {
      PatternGroups(part[5..]);
      assert part == part[..4] + ['-'] + part[5..];
      SplitAppend(part[..4], '-', part[5..]);
    }
  }

  /** Conversely, a string whose hyphen-separated groups are all 4 digits matches the pattern. */
  lemma {:induction false} GroupsMakePattern(part: string)
    requires forall i :: 0 <= i < |SplitOn(part, '-')| ==> IsFourDigits(SplitOn(part, '-')[i])
    ensures IsMachinePattern(part)
  {
    SplitAtFirst(part, '-');
    SplitHead(part, '-');
    var k := IndexOf(part, '-');
    assert IsFourDigits(SplitOn(part, '-')[0]);
    if k < |part| {
      var rest := part[k + 1..];
      assert SplitOn(part, '-') == [part[..k]] + SplitOn(rest, '-');
      assert forall i :: 0 <= i < |SplitOn(rest, '-')| ==> SplitOn(rest, '-')[i] == SplitOn(part, '-')[i + 1];
      GroupsMakePattern(rest);
      assert |part| > 5 by { assert |rest| >= 4 by { PatternGroups(rest); } }
      assert part[..4] == part[..k] && part[5..] == rest;
    } else {
      assert part[..k] == part;
    }
  }

  /** The URL is valid exactly when some `/`-separated segment matches; empty segments never do. */
  lemma ValidIffSomeSegmentMatches(path: string)
    ensures Resolve(path).isValidUrl <==>
      exists i :: 0 <= i < |SplitOn(path, '/')| && IsMachinePattern(SplitOn(path, '/')[i])
  {
    var segments := SplitOn(path, '/');
    var parts := PathParts(path);
    ResolveFound(path);
    if exists i :: 0 <= i < |segments| && IsMachinePattern(segments[i]) {
      var i :| 0 <= i < |segments| && IsMachinePattern(segments[i]);
      assert segments[i] != "";
      assert segments[i] in parts;
      var j :| 0 <= j < |parts| && parts[j] == segments[i];
      assert IsMachinePattern(parts[j]);
      assert IsMachinePattern(SplitOn(path, '/')[i]);
    } else {
      forall j | 0 <= j < |parts| ensures !IsMachinePattern(parts[j]) {
        assert parts[j] in segments;
      }
    }
  }

  /**
   * When valid, the machines are the groups of the FIRST matching segment, in URL order and with
   * duplicates kept, each with the Robodrill name; later matching segments are ignored.
   */
  lemma ResolveUsesFirstMatch(path: string, k: nat)
    requires FirstMatchAt(PathParts(path), k)
    ensures var segment := PathParts(path)[k];
      && Resolve(path).isValidUrl
      && Resolve(path).availableMachines == MachinesOf(segment)
      && |Resolve(path).availableMachines| == (|segment| + 1) / 5
  {
    var parts := PathParts(path);
    var found := FindMachinePattern(parts);
    assert found.Some?;
    FindMachinePatternIsFirst(parts);
    var k': nat :| FirstMatchAt(parts, k') && parts[k'] == found.value;
    assert k' == k;
    PatternGroups(parts[k]);
  }

  /** Each offered machine is `"<4 digits> Fanuc Robodrill"`. */
  lemma MachinesAreRobodrills(path: string)
    ensures forall i :: 0 <= i < |Resolve(path).availableMachines| ==>
      exists g :: IsFourDigits(g) && Resolve(path).availableMachines[i] == FullMachineId(g)
  {
    var found := FindMachinePattern(PathParts(path));
    ResolveFound(path);
    if found.Some? {
      var segment := found.value;
      PatternGroups(segment);
      var groups := SplitOn(segment, '-');
      forall i | 0 <= i < |Resolve(path).availableMachines|
        ensures exists g :: IsFourDigits(g) && Resolve(path).availableMachines[i] == FullMachineId(g)
      {
        assert IsFourDigits(groups[i]);
        assert Resolve(path).availableMachines[i] == FullMachineId(groups[i]);
      }
    }
  }

  /** Taking the number of each offered machine and joining with `-` gives the matched segment back. */
  lemma NumbersRejoinSegment(path: string, k: nat)
    requires FirstMatchAt(PathParts(path), k)
    ensures var machines := Resolve(path).availableMachines;
      Join(seq(|machines|, i requires 0 <= i < |machines| => MachineNumber(machines[i])), "-") == PathParts(path)[k]
  {
    var segment := PathParts(path)[k];
    ResolveUsesFirstMatch(path, k);
    PatternGroups(segment);
    var groups := SplitOn(segment, '-');
    var machines := Resolve(path).availableMachines;
    var numbers := seq(|machines|, i requires 0 <= i < |machines| => MachineNumber(machines[i]));
    forall i | 0 <= i < |groups| ensures numbers[i] == groups[i] {
      NumberOfFullMachineId(groups[i]);
    }
    assert numbers == groups;
    JoinSplit(segment, '-');
  }

  /** A path of one segment is valid exactly when that segment matches the pattern. */
  lemma SingleSegmentPath(segment: string)
    requires '/' !in segment
    ensures Resolve("/" + segment).isValidUrl <==> IsMachinePattern(segment)
  {
    var path := "/" + segment;
    assert path == "" + ['/'] + segment;
    SplitAppend("", '/', segment);
    SplitNoSeparator(segment, '/');
    var segments := SplitOn(path, '/');
    assert segments == [""] + [segment];
    var parts := PathParts(path);
    var nonEmpty := (part: string) => part != "";
    assert segments[1..] == [segment];
    assert parts == Filter([segment], nonEmpty);
    assert Filter([segment], nonEmpty) == (if segment == "" then [] else [segment]) by {
      assert [segment][1..] == [];
    }
    ResolveFound(path);
  }

  /** The single-machine address the not-found page lists as an example of a correct one. */
  lemma NotFoundValidExample()
    ensures Resolve("/5503").isValidUrl
  {
    assert IsMachinePattern("5503");
    assert "/5503" == "/" + "5503";
    SingleSegmentPath("5503");
  }

  /** Two machines joined by a hyphen, listed by the not-found page as a correct address. */
  lemma NotFoundPairExample()
    ensures Resolve("/5701-5704").isValidUrl
  {
    var segment := "5701-5704";
    assert segment[..4] == "5701" && segment[4] == '-' && segment[5..] == "5704";
    assert IsMachinePattern(segment[5..]);
    assert IsMachinePattern(segment);
    assert "/5701-5704" == "/" + segment;
    SingleSegmentPath(segment);
  }

  /** Three machines, listed by the not-found page as a correct address. */
  lemma NotFoundTripleExample()
    ensures Resolve("/5401-5402-5403").isValidUrl
  {
    var segment := "5401-5402-5403";
    var tail := segment[5..];
    assert tail == "5402-5403";
    assert tail[..4] == "5402" && tail[4] == '-' && tail[5..] == "5403";
    assert IsMachinePattern(tail[5..]);
    assert IsMachinePattern(tail);
    assert segment[..4] == "5401" && segment[4] == '-';
    assert IsMachinePattern(segment);
    assert "/5401-5402-5403" == "/" + segment;
    SingleSegmentPath(segment);
  }

  /** A bare slash and a three-digit number, listed by the not-found page as incorrect. */
  lemma NotFoundInvalidExamples()
    ensures !Resolve("/").isValidUrl && !Resolve("/570").isValidUrl
  {
    assert "/" == "/" + "";
    SingleSegmentPath("");
    assert !IsMachinePattern("570");
    assert "/570" == "/" + "570";
    SingleSegmentPath("570");
  }

  /** A short second group and letters, listed by the not-found page as incorrect. */
  lemma NotFoundMalformedExamples()
    ensures !Resolve("/5701-570").isValidUrl && !Resolve("/abc-5701").isValidUrl
  {
    assert !IsMachinePattern("5701-570");
    assert "/5701-570" == "/" + "5701-570";
    SingleSegmentPath("5701-570");
    assert !IsMachinePattern("abc-5701");
    assert "/abc-5701" == "/" + "abc-5701";
    SingleSegmentPath("abc-5701");
  }
}
