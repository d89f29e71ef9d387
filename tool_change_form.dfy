/**
 * `ToolChangeForm`: the dialog that builds a tool-change record for the given machine and hands it
 * to its parent, then resets itself and asks to be closed.
 */
module ToolChangeForm {
  import opened Wrappers
  import opened Records

  /** The dialog's values at submit time; the enums may be unset. */
  datatype FormValues = FormValues(toolNumber: string, reason: Option<string>, comment: Option<string>, signature: Option<string>)

  /** `defaultValues`, also what `form.reset()` restores. */
  const Defaults: FormValues := FormValues("", None, Some(""), None)

  /** The schema's reason enum: only wear and breakage; the record type's third reason is not offered. */
  function ParseFormReason(s: string): (r: Option<Reason>)
    ensures r.Some? <==> s == "Slitage" || s == "Verktygsbrott"
    ensures r.Some? ==> ReasonText(r.value) == s && r.value != Ovrigt
  {
    if s == "Slitage" then Some(Slitage)
    else if s == "Verktygsbrott" then Some(Verktygsbrott)
    else None
  }

  /** `formSchema`. */
  predicate FormSchema(v: FormValues)
  {
    && |v.toolNumber| >= 1
    && v.reason.Some? && ParseFormReason(v.reason.value).Some?
    && v.signature.Some? && ParseSignature(v.signature.value).Some?
  }

  /** The schema's rules on their own terms; `"Övrigt"` is refused and the defaults are not accepted. */
  lemma FormSchemaRules(v: FormValues)
    ensures FormSchema(v) <==>
      && v.toolNumber != ""
      && v.reason.Some? && v.reason.value in {"Slitage", "Verktygsbrott"}
      && v.signature.Some? && v.signature.value in {"Fredrik", "Joel", "Per"}
    ensures !FormSchema(v.(reason := Some(ReasonText(Ovrigt))))
    ensures !FormSchema(Defaults)
  {
  }

  /** `newToolChange`: a missing comment becomes `""`; the record carries the dialog's machine. */
  function ToolChangeOf(v: FormValues, machineId: string, id: string, timestamp: int): (c: ToolChange)
    requires FormSchema(v)
    ensures c.machineId == machineId && c.toolNumber == v.toolNumber
    ensures ReasonText(c.reason) == v.reason.value && c.signature == v.signature.value
    ensures c.comment == (if v.comment.Some? then v.comment.value else "")
    ensures c.manufacturingOrder == None && c.numberOfPartsAdam == None && c.amountSinceLastChange == None
    ensures c.id == id && c.timestamp == timestamp
  {
    ToolChange(id, machineId, v.toolNumber, ParseFormReason(v.reason.value).value, OrEmpty(v.comment),
               v.signature.value, timestamp, None, None, None)
  }

  /** The callbacks the dialog makes, in order. */
  datatype Event = Submitted(toolChange: ToolChange) | OpenChanged(open: bool)

  class ToolChangeDialog {
    const machineId: string
    var values: FormValues
    var events: seq<Event>

    constructor(machineId: string)
      ensures this.machineId == machineId && values == Defaults && events == []
    {
      this.machineId := machineId;
      values := Defaults;
      events := [];
    }

    /** `handleSubmit`: `onSubmit` with the record, then `form.reset()`, then `onOpenChange(false)`. */
    method HandleSubmit(v: FormValues, id: string, timestamp: int)
      requires FormSchema(v)
      modifies this
      ensures events == old(events) + [Submitted(ToolChangeOf(v, machineId, id, timestamp)), OpenChanged(false)]
      ensures values == Defaults
    {
      var toolChange := ToolChangeOf(v, machineId, id, timestamp);
      events := events + [Submitted(toolChange)];
      values := Defaults;
      events := events + [OpenChanged(false)];
    }
  }
}
