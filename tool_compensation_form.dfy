/**
 * `ToolCompensationForm`: the dialog that builds a compensation record for the given machine and
 * hands it to its parent, then resets itself and asks to be closed.
 */
module ToolCompensationForm {
  import opened Wrappers
  import opened Records
  import opened CompensationRules

  /** The dialog's values at submit time; the enums may be unset. */
  datatype FormValues = FormValues(
    coordinateSystem: Option<string>, tool: Option<string>, number: Option<string>,
    direction: Option<string>, value: string, comment: Option<string>, signature: Option<string>)

  /** `defaultValues`, also what `form.reset()` restores. */
  const Defaults: FormValues := FormValues(Some(""), Some(""), Some(""), None, "", Some(""), None)

  /** `formSchema`: direction and signature from their enums, the value pattern, and a location. */
  predicate FormSchema(v: FormValues)
  {
    && v.direction.Some? && ParseDirection(v.direction.value).Some?
    && IsValue(v.value) && |v.value| >= 1
    && v.signature.Some? && ParseSignature(v.signature.value).Some?
    && HasLocation(v.coordinateSystem, v.tool, v.number)
  }

  /** The schema's rules, each stated on its own terms; the defaults are not accepted. */
  lemma FormSchemaRules(v: FormValues)
    ensures FormSchema(v) <==>
      && v.direction.Some? && v.direction.value in {"X", "Y", "Z", "R", "L"}
      && Decomposes(v.value)
      && v.signature.Some? && v.signature.value in {"Fredrik", "Joel", "Per"}
      && ((v.coordinateSystem.Some? && v.coordinateSystem.value != "")
          || (v.tool.Some? && v.tool.value != "")
          || (v.number.Some? && v.number.value != ""))
    ensures !FormSchema(Defaults)
  {
    ValueRule(v.value);
    LocationRule(v.coordinateSystem, v.tool, v.number);
  }

  /**
   * `newCompensation`: empty location fields become absent, a missing comment `""`; the record
   * carries the dialog's machine and no manufacturing order.
   */
  function CompensationOf(v: FormValues, machineId: string, id: string, timestamp: int): (c: ToolCompensation)
    requires FormSchema(v)
    ensures c.machineId == machineId && c.manufacturingOrder == None
    ensures c.coordinateSystem.None? <==> v.coordinateSystem.None? || v.coordinateSystem.value == ""
    ensures c.tool.None? <==> v.tool.None? || v.tool.value == ""
    ensures c.number.None? <==> v.number.None? || v.number.value == ""
    ensures c.coordinateSystem.Some? ==> c.coordinateSystem == v.coordinateSystem
    ensures c.tool.Some? ==> c.tool == v.tool
    ensures c.number.Some? ==> c.number == v.number
    ensures c.comment == (if v.comment.Some? then v.comment.value else "")
    ensures DirectionText(c.direction) == v.direction.value && c.signature == v.signature.value
    ensures c.value == v.value && c.id == id && c.timestamp == timestamp
  {
    ToolCompensation(id, machineId, PresentOrAbsent(v.coordinateSystem), PresentOrAbsent(v.tool),
                     PresentOrAbsent(v.number), ParseDirection(v.direction.value).value, v.value,
                     OrEmpty(v.comment), v.signature.value, timestamp, None)
  }

  /** The callbacks the dialog makes, in order. */
  datatype Event = Submitted(compensation: ToolCompensation) | OpenChanged(open: bool)

  class ToolCompensationDialog {
    const machineId: string
    var values: FormValues
    var events: seq<Event>

    constructor(machineId: string)
      ensures this.machineId == machineId && values == Defaults && events == []
    {
      this.machineId := machineId;
      values := Defaults;
      events := [];
    }

    /** `handleSubmit`: `onSubmit` with the record, then `form.reset()`, then `onOpenChange(false)`. */
    method HandleSubmit(v: FormValues, id: string, timestamp: int)
      requires FormSchema(v)
      modifies this
      ensures events == old(events) + [Submitted(CompensationOf(v, machineId, id, timestamp)), OpenChanged(false)]
      ensures values == Defaults
    {
      var compensation := CompensationOf(v, machineId, id, timestamp);
      events := events + [Submitted(compensation)];
      values := Defaults;
      events := events + [OpenChanged(false)];
    }
  }
}
