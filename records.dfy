/**
 * The records the views pass around (tool changes, compensations, disturbances) and the closed
 * sets of values some of their fields take. Timestamps are milliseconds since the epoch.
 */
module Records {
  import opened Wrappers

  /** Why a tool was changed. */
  datatype Reason = Slitage | Verktygsbrott | Ovrigt

  function ReasonText(r: Reason): string
  {
    match r
    case Slitage => "Slitage"
    case Verktygsbrott => "Verktygsbrott"
    case Ovrigt => "\U{00D6}vrigt"
  }

  /** The axis a compensation applies to. */
  datatype Direction = X | Y | Z | R | L

  function DirectionText(d: Direction): string
  {
    match d
    case X => "X"
    case Y => "Y"
    case Z => "Z"
    case R => "R"
    case L => "L"
  }

  /** Where on the cell a disturbance happened. */
  datatype Area = Robot | Spantransportor | InOchUtbana | Annat

  function AreaText(a: Area): string
  {
    match a
    case Robot => "Robot"
    case Spantransportor => "Sp\U{00E5}ntransport\U{00F6}r"
    case InOchUtbana => "In- och utbana"
    case Annat => "Annat"
  }

  /** The text of a direction, read back; `None` for any other text. */
  function ParseDirection(s: string): (d: Option<Direction>)
    ensures d.Some? <==> s in {"X", "Y", "Z", "R", "L"}
    ensures d.Some? ==> DirectionText(d.value) == s
  {
    if s == "X" then Some(X)
    else if s == "Y" then Some(Y)
    else if s == "Z" then Some(Z)
    else if s == "R" then Some(R)
    else if s == "L" then Some(L)
    else None
  }

  /** Every direction is read back from its text. */
  lemma ParseDirectionText(d: Direction)
    ensures ParseDirection(DirectionText(d)) == Some(d)
  {
  }

  /** The text of an area, read back; `None` for any other text. */
  function ParseArea(s: string): (a: Option<Area>)
    ensures a.Some? ==> AreaText(a.value) == s
  {
    if s == AreaText(Robot) then Some(Robot)
    else if s == AreaText(Spantransportor) then Some(Spantransportor)
    else if s == AreaText(InOchUtbana) then Some(InOchUtbana)
    else if s == AreaText(Annat) then Some(Annat)
    else None
  }

  /** Every area is read back from its text. */
  lemma ParseAreaText(a: Area)
    ensures ParseArea(AreaText(a)) == Some(a)
  {
  }

  /** Who may sign a tool change or compensation in the dialogs. */
  datatype Signature = Fredrik | Joel | Per

  function SignatureText(s: Signature): string
  {
    match s
    case Fredrik => "Fredrik"
    case Joel => "Joel"
    case Per => "Per"
  }

  /** The text of a signature, read back; `None` for any other text. */
  function ParseSignature(s: string): (sig: Option<Signature>)
    ensures sig.Some? <==> s in {"Fredrik", "Joel", "Per"}
    ensures sig.Some? ==> SignatureText(sig.value) == s
  {
    if s == "Fredrik" then Some(Fredrik)
    else if s == "Joel" then Some(Joel)
    else if s == "Per" then Some(Per)
    else None
  }

  /** `ToolChange`. */
  datatype ToolChange = ToolChange(
    id: string, machineId: string, toolNumber: string, reason: Reason, comment: string,
    signature: string, timestamp: int, manufacturingOrder: Option<string>,
    numberOfPartsAdam: Option<int>, amountSinceLastChange: Option<int>)

  /** `ToolCompensation`; the three location fields are optional. */
  datatype ToolCompensation = ToolCompensation(
    id: string, machineId: string, coordinateSystem: Option<string>, tool: Option<string>,
    number: Option<string>, direction: Direction, value: string, comment: string,
    signature: string, timestamp: int, manufacturingOrder: Option<string>)

  /** `text || ""`: an absent or empty optional text becomes `""`, any other is kept. */
  function OrEmpty(text: Option<string>): (s: string)
    ensures text.Some? ==> s == text.value
    ensures text.None? ==> s == ""
  {
    if text.Some? then text.value else ""
  }

  /**
   * `text || undefined` (or `|| null`): an absent or empty optional text becomes absent, any other
   * is kept.
   */
  function PresentOrAbsent(text: Option<string>): (r: Option<string>)
    ensures r.Some? <==> text.Some? && text.value != ""
    ensures r.Some? ==> r == text
  {
    if text.Some? && text.value != "" then text else None
  }
}
