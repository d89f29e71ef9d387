/**
 * Stop codes reported by the machine monitor: the label the status bar shows for a code and the
 * colour it paints the bar in. `None` stands for a `null` or `undefined` code.
 */
module StopCodes {
  import opened Wrappers
  import opened Text

  datatype StopCodeInfo = StopCodeInfo(code: string, name: string, description: Option<string>)

  /** `STOP_CODES`: the only configured code is 300, "Order saknas". */
  const StopCodeTable: map<string, StopCodeInfo> :=
    map["300" := StopCodeInfo("300", "Order saknas", Some("No active manufacturing order"))]

  /**
   * The label for a running machine. The source holds the UTF-8 bytes of "Körs" read as Latin-1,
   * so the label really is these five characters.
   */
  const RunningLabel: string := "K\U{00C3}\U{00B6}rs"

  const Green: string := "bg-green-600"
  const Blue: string := "bg-blue-600"
  const Red: string := "bg-red-600"

  /** `!code`: absent or the empty string. */
  predicate IsFalsy(code: Option<string>) { code.None? || code.value == "" }

  /** `!code || code.trim() === ""`: absent, empty or only white space. */
  predicate IsBlank(code: Option<string>) { code.None? || Trim(code.value) == "" }

  /** `getStopCodeInfo`: the table entry for exactly `"300"`, nothing for anything else. */
  function GetStopCodeInfo(code: Option<string>): (info: Option<StopCodeInfo>)
    ensures info.Some? <==> code == Some("300")
    ensures info.Some? ==> info.value.code == "300" && info.value.name == "Order saknas"
  {
    if IsFalsy(code) then None
    else if code.value in StopCodeTable then Some(StopCodeTable[code.value])
    else None
  }

  /** `getStopCodeDisplayName`. */
  function GetStopCodeDisplayName(code: Option<string>): (shown: string)
    ensures IsBlank(code) ==> shown == RunningLabel
    ensures code == Some("300") ==> shown == "300" + " " + "Order saknas"
    ensures !IsBlank(code) && code != Some("300") ==> shown == code.value
  {
    if code.None? || Trim(code.value) == "" then RunningLabel
    else
      match GetStopCodeInfo(code)
      case Some(info) => info.code + " " + info.name
      case None => code.value
  }

  /** The status contains "running" in any letter case. */
  predicate ReportsRunning(status: string) { Contains(ToLower(status), "running") }

  /** `getStatusBarColor`: green while running, blue for a missing order, red for any other stop. */
  function GetStatusBarColor(stopCode: Option<string>, status: string): (colour: string)
    ensures colour == Green <==> IsBlank(stopCode) || ReportsRunning(status)
    ensures colour == Blue <==> !IsBlank(stopCode) && !ReportsRunning(status) && stopCode == Some("300")
    ensures colour == Red <==> !IsBlank(stopCode) && !ReportsRunning(status) && stopCode != Some("300")
  {
    if stopCode.None? || Trim(stopCode.value) == "" || ReportsRunning(status) then Green
    else if stopCode == Some("300") then Blue
    else Red
  }

  /** A code with surrounding white space is not looked up: `" 300"` is shown as it is, in red. */
  lemma PaddedCodeNotFound(status: string)
    requires !ReportsRunning(status)
    ensures GetStopCodeInfo(Some(" 300")) == None
    ensures GetStopCodeDisplayName(Some(" 300")) == " 300"
    ensures GetStatusBarColor(Some(" 300"), status) == Red
  {
    assert " 300"[1] == '3';
    assert !AllWhitespace(" 300");
  }

  /** A blank code is shown as running and painted green, whatever the status says. */
  lemma BlankCodeIsRunning(code: Option<string>, status: string)
    requires IsBlank(code)
    ensures GetStopCodeDisplayName(code) == RunningLabel
    ensures GetStatusBarColor(code, status) == Green
  {
  }

  /** A running status wins over stop code 300. */
  lemma RunningStatusWins()
    ensures GetStatusBarColor(Some("300"), "RUNNING") == Green
  {
    var status := "RUNNING";
    assert ToLower(status) == "running";
    assert StartsWith("running", "running");
  }
}
