/** `extractWorkCenterFromMachineId`: the work centre a machine status request is made for. */
module MachineStatus {
  import opened Text
  import opened MachineIds

  /** The longest prefix of ASCII digits. */
  function LeadingDigits(s: string): (d: string)
    ensures StartsWith(s, d) && AllDigits(d)
    ensures |d| < |s| ==> !IsDigit(s[|d|])
  {
    if s == [] || !IsDigit(s[0]) then []
    else [s[0]] + LeadingDigits(s[1..])
  }

  /** `machineId.match(/^(\d+)/)`: the leading digit run when there is one, else the identifier itself. */
  function ExtractWorkCenter(machineId: string): (wc: string)
    ensures StartsWith(machineId, wc)
    ensures |machineId| > 0 && IsDigit(machineId[0]) ==>
      && |wc| >= 1 && AllDigits(wc)
      && (|wc| < |machineId| ==> !IsDigit(machineId[|wc|]))
    ensures (|machineId| == 0 || !IsDigit(machineId[0])) ==> wc == machineId
  {
    var d := LeadingDigits(machineId);
    if d != [] then d else machineId
  }

  /** Extracting from an extracted work centre changes nothing. */
  lemma {:induction false} ExtractWorkCenterIdempotent(machineId: string)
    ensures ExtractWorkCenter(ExtractWorkCenter(machineId)) == ExtractWorkCenter(machineId)
  {
    var wc := ExtractWorkCenter(machineId);
    if |machineId| > 0 && IsDigit(machineId[0]) {
      AllDigitsAreLeading(wc);
    }
  }

  lemma {:induction false} AllDigitsAreLeading(s: string)
    requires AllDigits(s)
    ensures LeadingDigits(s) == s
  {
    if s != [] {
      AllDigitsAreLeading(s[1..]);
    }
  }

  /** The full identifier of a machine with a digit number maps back to that number. */
  lemma {:induction false} WorkCenterOfFullMachineId(machineNumber: string)
    requires |machineNumber| >= 1 && AllDigits(machineNumber)
    ensures ExtractWorkCenter(FullMachineId(machineNumber)) == machineNumber
  {
    var id := FullMachineId(machineNumber);
    var wc := ExtractWorkCenter(id);
    assert id[|machineNumber|] == ' ';
    assert |wc| == |machineNumber|;
  }

  /** `"5701 Fanuc Robodrill"`, the full identifier of machine 5701, maps to `"5701"`. */
  lemma RobodrillWorkCenter()
    ensures ExtractWorkCenter(FullMachineId("5701")) == "5701"
  {
    WorkCenterOfFullMachineId("5701");
  }
}
