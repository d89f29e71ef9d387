/**
 * `CreateDisturbance`: the form that reports a disturbance on the active machine. It offers
 * canned comments for the chosen area, enables saving once every field is filled, and inserts a
 * row for the machine found by number. The machine table and the insert are outcomes supplied by
 * the caller.
 */
module CreateDisturbance {
  import opened Wrappers
  import opened Records
  import opened MachineIds

  /** The form's values; the area enum may be unset. */
  datatype FormValues = FormValues(area: Option<string>, comment: string, signature: string)

  /** `defaultValues`, also what a successful save resets to. */
  const Defaults: FormValues := FormValues(None, "", "")

  /** `formSchema`: an area from the enum, a comment and a signature. */
  predicate FormSchema(v: FormValues)
  {
    v.area.Some? && ParseArea(v.area.value).Some? && |v.comment| >= 1 && |v.signature| >= 1
  }

  /** `getCommentSuggestions`: canned comments per area; none for "Annat" or no area. */
  function CommentSuggestions(area: Option<string>): (suggestions: seq<string>)
    ensures suggestions != [] ==> area.Some? && ParseArea(area.value).Some? && area.value != AreaText(Annat)
    ensures forall i :: 0 <= i < |suggestions| ==> suggestions[i] != ""
  {
    if area == Some(AreaText(Robot)) then
      ["Krock vid materialplock", "Krock vid detaljl\U{00E4}mning i tr\U{00E5}g",
       "Krock vid byte av tempo 1", "Krock vid byte av tempo 2"]
    else if area == Some(AreaText(Spantransportor)) then ["\U{00D6}versv\U{00E4}ming"]
    else if area == Some(AreaText(InOchUtbana)) then
      ["Fylld pallet in fastnat", "Tom pallet ut fastnat", "Tom tr\U{00E5}g in fastnat", "Fyllt tr\U{00E5}g ut fastnat"]
    else []
  }

  /** How many suggestions each area offers; every suggestion is a comment the schema accepts. */
  lemma SuggestionCounts(area: Option<string>)
    ensures area == Some(AreaText(Robot)) ==> |CommentSuggestions(area)| == 4
    ensures area == Some(AreaText(Spantransportor)) ==> CommentSuggestions(area) == ["\U{00D6}versv\U{00E4}ming"]
    ensures area == Some(AreaText(InOchUtbana)) ==> |CommentSuggestions(area)| == 4
    ensures area.None? || area == Some(AreaText(Annat)) ==> CommentSuggestions(area) == []
    ensures forall i :: 0 <= i < |CommentSuggestions(area)| ==> CommentSuggestions(area)[i] != ""
  {
  }

  /** `isFormValid`: the save button is enabled when area, comment and signature are all non-empty. */
  predicate IsFormValid(v: FormValues)
  {
    v.area.Some? && v.area.value != "" && v.comment != "" && v.signature != ""
  }

  /** Values the schema accepts always enable saving; the button does not check the area's enum. */
  lemma SaveEnabledBySchema(v: FormValues)
    ensures FormSchema(v) ==> IsFormValid(v)
    ensures IsFormValid(v) && ParseArea(v.area.value).Some? ==> FormSchema(v)
    ensures !IsFormValid(Defaults)
  {
  }

  /** The row sent to the disturbance table. */
  datatype InsertRow = InsertRow(maskinId: string, omrade: string, kommentar: string, signatur: string)

  /** How the insert ended: stored, refused with an error, or thrown. */
  datatype InsertOutcome = Inserted | InsertError | Thrown

  /** A toast: title, description, and whether it is shown as an error. */
  datatype Toast = Toast(title: string, description: string, destructive: bool)

  const MachineNotFound: Toast := Toast("Fel", "Kunde inte hitta maskinen", true)
  const SaveFailed: Toast := Toast("Fel", "Kunde inte spara st\U{00F6}rningen", true)
  const Unexpected: Toast := Toast("Fel", "Ett ov\U{00E4}ntat fel uppstod", true)
  const Saved: Toast := Toast("Sparat", "St\U{00F6}rningen har sparats", false)

  /**
   * `machine?.id` from `useMachineByNumber(activeMachine.split(' ')[0])`: the query runs only for a
   * four-character number, `.maybeSingle()` gives data only for exactly one row, and an empty id
   * counts as missing.
   */
  function MachineRowId(activeMachine: string, machines: seq<MachineRow>): (id: Option<string>)
    ensures id.Some? <==>
      && |MachineNumber(activeMachine)| == 4
      && MachineByNumber(machines, MachineNumber(activeMachine)).Some?
      && MachineByNumber(machines, MachineNumber(activeMachine)).value.id != ""
    ensures id.Some? ==> MachineRow(id.value, MachineNumber(activeMachine)) in machines
  {
    var machineNumber := MachineNumber(activeMachine);
    var row := MachineByNumber(machines, machineNumber);
    if |machineNumber| == 4 && row.Some? && row.value.id != "" then Some(row.value.id) else None
  }

  /** A machine number that is not four characters long is never looked up. */
  lemma ShortNumberNotFound(machines: seq<MachineRow>)
    ensures MachineRowId("570 X", machines) == None
  {
    assert MachineNumber("570 X") == "570" by {
      assert "570 X"[..3] == "570";
    }
  }

  class DisturbanceForm {
    const activeMachine: string
    var values: FormValues
    var inserted: seq<InsertRow>
    var toast: Option<Toast>

    constructor(activeMachine: string)
      ensures this.activeMachine == activeMachine && values == Defaults && inserted == [] && toast == None
    {
      this.activeMachine := activeMachine;
      values := Defaults;
      inserted := [];
      toast := None;
    }

    /** Picking a suggestion replaces the comment and nothing else. */
    method PickSuggestion(suggestion: string)
      requires suggestion in CommentSuggestions(values.area)
      modifies this
      ensures values == old(values).(comment := suggestion)
      ensures inserted == old(inserted) && toast == old(toast)
    {
      values := values.(comment := suggestion);
    }

    /**
     * `onSubmit` with the current values: without a machine row nothing is inserted; a failed or
     * thrown insert keeps the values; a stored row resets the form to its defaults.
     */
    method OnSubmit(machines: seq<MachineRow>, outcome: InsertOutcome)
      requires FormSchema(values)
      modifies this
      ensures MachineRowId(activeMachine, machines).None? ==>
        inserted == old(inserted) && values == old(values) && toast == Some(MachineNotFound)
      ensures MachineRowId(activeMachine, machines).Some? && outcome != Inserted ==>
        inserted == old(inserted) && values == old(values)
        && toast == Some(if outcome == InsertError then SaveFailed else Unexpected)
      ensures MachineRowId(activeMachine, machines).Some? && outcome == Inserted ==>
        && inserted == old(inserted) + [InsertRow(MachineRowId(activeMachine, machines).value,
                                                  old(values).area.value, old(values).comment, old(values).signature)]
        && values == Defaults && toast == Some(Saved)
    {
      var machineId := MachineRowId(activeMachine, machines);
      if machineId.None? {
        toast := Some(MachineNotFound);
        return;
      }
      match outcome {
        case Thrown =>
          toast := Some(Unexpected);
        case InsertError =>
          toast := Some(SaveFailed);
        case Inserted =>
          inserted := inserted + [InsertRow(machineId.value, values.area.value, values.comment, values.signature)];
          toast := Some(Saved);
          values := Defaults;
      }
    }
  }
}
