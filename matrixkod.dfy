/**
 * `Matrixkod`: the form for registering a matrix code, prefilled with the order the machine's work
 * centre is currently running. The status service's answer is an outcome supplied by the caller.
 */
module Matrixkod {
  import opened Wrappers
  import opened MachineStatus

  /** The form's values; the comment is optional. */
  datatype FormValues = FormValues(manufacturingOrder: string, date: string, comment: Option<string>)

  const Defaults: FormValues := FormValues("", "", Some(""))

  /** `formSchema`: an order, and a date of exactly six characters (digits are not checked). */
  predicate FormSchema(v: FormValues)
  {
    |v.manufacturingOrder| >= 1 && 6 <= |v.date| <= 6
  }

  /** `isFormValid`: the save button is enabled when order and date are non-empty. */
  predicate IsFormValid(v: FormValues)
  {
    v.manufacturingOrder != "" && v.date != ""
  }

  /**
   * The schema implies the button is enabled, not conversely: the button ignores the date's
   * length, and the schema ignores what the six characters are.
   */
  lemma SchemaAndButton(v: FormValues)
    ensures FormSchema(v) ==> IsFormValid(v)
    ensures FormSchema(v) <==> IsFormValid(v) && |v.date| == 6
    ensures IsFormValid(FormValues("1", "1", None)) && !FormSchema(FormValues("1", "1", None))
    ensures FormSchema(FormValues("1", "ABCDEF", None))
    ensures !IsFormValid(Defaults)
  {
  }

  /** What the status service answered: a failure, or a status with an optional active order. */
  datatype StatusOutcome = StatusFailed | Status(activeOrder: Option<string>)

  /** The order to prefill: the active order's number when present and non-empty, else `""`. */
  function PrefillOrder(outcome: StatusOutcome): (order: string)
    ensures outcome.Status? && outcome.activeOrder.Some? ==> order == outcome.activeOrder.value
    ensures outcome.StatusFailed? || outcome.activeOrder.None? ==> order == ""
  {
    if outcome.Status? && outcome.activeOrder.Some? && outcome.activeOrder.value != "" then outcome.activeOrder.value
    else ""
  }

  class MatrixkodForm {
    const activeMachine: string
    var activeManufacturingOrder: string
    var values: FormValues

    constructor(activeMachine: string)
      ensures this.activeMachine == activeMachine && activeManufacturingOrder == "" && values == Defaults
    {
      this.activeMachine := activeMachine;
      activeManufacturingOrder := "";
      values := Defaults;
    }

    /**
     * `fetchManufacturingOrder`: asks for the status of the machine's work centre (returned as
     * `workCenter`) and puts its active order, or `""`, in both the page state and the order field.
     */
    method FetchManufacturingOrder(outcome: StatusOutcome) returns (workCenter: string)
      modifies this
      ensures workCenter == ExtractWorkCenter(activeMachine)
      ensures activeManufacturingOrder == PrefillOrder(outcome)
      ensures values == old(values).(manufacturingOrder := PrefillOrder(outcome))
    {
      workCenter := ExtractWorkCenter(activeMachine);
      match outcome {
        case Status(Some(order)) =>
          if order != "" {
            activeManufacturingOrder := order;
            values := values.(manufacturingOrder := order);
          } else {
            activeManufacturingOrder := "";
            values := values.(manufacturingOrder := "");
          }
        case _ =>
          activeManufacturingOrder := "";
          values := values.(manufacturingOrder := "");
      }
    }

    /** `onSubmit`: saving only logs the values; the page and the form keep their state. */
    method OnSubmit(submitted: FormValues)
      requires FormSchema(submitted)
      modifies this
      ensures activeManufacturingOrder == old(activeManufacturingOrder) && values == old(values)
    {
    }
  }
}
