/**
 * `NewToolChange`: the two-step wizard that records a tool change for the machine whose number is
 * in the `machine` query parameter. Step 1 asks for tool and reason, step 2 for order, signature
 * and comment; the ADAM part counter read at start is stored with the change. The insert, the
 * counter reading, the generated id and the clock are outcomes supplied by the caller.
 */
module NewToolChange {
  import opened Wrappers
  import opened Records
  import opened MachineIds
  import opened LastOrders
  import opened AdamBox
  import ToolChangeForm

  /** Step 1 as entered; the reason enum may be unset. */
  datatype Step1Values = Step1Values(toolNumber: string, reason: Option<string>)

  /** Step 1 as kept once it was accepted. */
  datatype Step1Data = Step1Data(toolNumber: string, reason: Reason)

  /** Step 2 as entered. */
  datatype Step2Values = Step2Values(manufacturingOrder: string, signature: string, comment: Option<string>)

  /** `step1Schema`: a tool number and a reason that is wear or breakage. */
  predicate Step1Schema(v: Step1Values)
  {
    |v.toolNumber| >= 1 && v.reason.Some? && ToolChangeForm.ParseFormReason(v.reason.value).Some?
  }

  /** `step2Schema`: order and signature are required, the comment is optional. */
  predicate Step2Schema(v: Step2Values)
  {
    |v.manufacturingOrder| >= 1 && |v.signature| >= 1
  }

  /** `adamBoxValue || null`: a reading of 0 is stored as no reading. */
  function StoredCount(adamBoxValue: Option<int>): (count: Option<int>)
    ensures count.Some? <==> adamBoxValue.Some? && adamBoxValue.value != 0
    ensures count.Some? ==> count == adamBoxValue
  {
    if adamBoxValue.Some? && adamBoxValue.value != 0 then adamBoxValue else None
  }

  /** The row sent to the tool-change table. */
  datatype InsertRow = InsertRow(
    id: string, machineNumber: string, manufacturingOrder: string, toolNumber: string, cause: string,
    comment: string, signature: string, dateCreated: string, numberOfPartsAdam: Option<int>)

  /** `newToolChange`: both steps and the counter as one record. */
  function ToolChangeOf(step1: Step1Data, v: Step2Values, machineId: string, adamBoxValue: Option<int>,
                        id: string, timestamp: int): (c: ToolChange)
    ensures c.machineId == machineId && c.toolNumber == step1.toolNumber && c.reason == step1.reason
    ensures c.manufacturingOrder == Some(v.manufacturingOrder) && c.signature == v.signature
    ensures c.comment == (if v.comment.Some? then v.comment.value else "")
    ensures c.numberOfPartsAdam == StoredCount(adamBoxValue)
    ensures c.id == id && c.timestamp == timestamp && c.amountSinceLastChange == None
  {
    ToolChange(id, machineId, step1.toolNumber, step1.reason, OrEmpty(v.comment), v.signature, timestamp,
               Some(v.manufacturingOrder), StoredCount(adamBoxValue), None)
  }

  /** The insert's column mapping; the counter column is `adamBoxValue || null` again. */
  function RowOf(c: ToolChange, adamBoxValue: Option<int>, dateCreated: string): (row: InsertRow)
    ensures row.id == c.id && row.machineNumber == c.machineId && row.toolNumber == c.toolNumber
    ensures row.manufacturingOrder == (if c.manufacturingOrder.Some? then c.manufacturingOrder.value else "")
    ensures row.numberOfPartsAdam.None? <==> adamBoxValue.None? || adamBoxValue.value == 0
    ensures row.numberOfPartsAdam.Some? ==> row.numberOfPartsAdam == adamBoxValue
    ensures row.comment == c.comment && row.signature == c.signature
    ensures row.cause == ReasonText(c.reason) && row.dateCreated == dateCreated
  {
    InsertRow(c.id, c.machineId, OrEmpty(c.manufacturingOrder), c.toolNumber, ReasonText(c.reason),
              c.comment, c.signature, dateCreated, StoredCount(adamBoxValue))
  }

  /** The stored row carries the full machine id, both steps' values and a non-zero counter or null. */
  lemma StoredRow(step1: Step1Data, v: Step2Values, machineNumber: string, adamBoxValue: Option<int>,
                  id: string, timestamp: int, dateCreated: string)
    ensures var row := RowOf(ToolChangeOf(step1, v, FullMachineId(machineNumber), adamBoxValue, id, timestamp),
                             adamBoxValue, dateCreated);
      && row.machineNumber == FullMachineId(machineNumber)
      && (' ' !in machineNumber ==> MachineNumber(row.machineNumber) == machineNumber)
      && row.toolNumber == step1.toolNumber && row.cause == ReasonText(step1.reason)
      && row.manufacturingOrder == v.manufacturingOrder
      && (row.numberOfPartsAdam.None? <==> adamBoxValue.None? || adamBoxValue.value == 0)
  {
    if ' ' !in machineNumber {
      NumberOfFullMachineId(machineNumber);
    }
  }

  const MissingMachineText: string := "Maskin-ID saknas"
  const SaveFailed: string := "Kunde inte spara verktygsbyte"
  const Saved: string := "Verktygsbyte sparat"

  /** Without a non-empty `machine` parameter there is only the message; otherwise the full id. */
  function MachineIdOf(machineParam: Option<string>): (machineId: Result<string, string>)
    ensures machineId.Err? <==> machineParam.None? || machineParam.value == ""
    ensures machineId.Err? ==> machineId.error == MissingMachineText
    ensures machineId.Ok? ==> machineId.value == FullMachineId(machineParam.value)
  {
    if machineParam.None? || machineParam.value == "" then Err(MissingMachineText)
    else Ok(FullMachineId(machineParam.value))
  }

  class ToolChangeWizard {
    const machineNumber: string
    const machineId: string
    /** The page's own `useLastManufacturingOrder` state. */
    const store: LastOrderStore
    var currentStep: nat
    var step1Data: Option<Step1Data>
    var adamBoxValue: Option<int>
    var isLoadingAdamBox: bool
    /** Step 2's default order, `getLastOrder(machineId) || ""` when the page mounts. */
    var defaultOrder: string
    var inserted: seq<InsertRow>
    var notice: Option<string>
    var navigatedTo: Option<string>

    /**
     * The wizard is on one of its two steps, step 2 only once step 1 was accepted, and a kept
     * step 1 has a tool number and a reason the schema offers.
     */
    predicate Valid()
      reads this
    {
      && (currentStep == 1 || currentStep == 2)
      && (currentStep == 2 ==> step1Data.Some?)
      && (step1Data.Some? ==> step1Data.value.toolNumber != "" && step1Data.value.reason != Ovrigt)
    }

    /**
     * The page for a non-empty `machine` parameter, before the counter is read. Its last-order
     * hook starts afresh with the seven empty orders, so step 2's order is prefilled with `""`.
     */
    constructor(machineNumber: string)
      requires machineNumber != ""
      ensures Valid() && currentStep == 1 && step1Data == None && adamBoxValue == None
      ensures this.machineNumber == machineNumber && machineId == FullMachineId(machineNumber)
      ensures fresh(store) && store.lastOrders == InitialOrders
      ensures defaultOrder == ""
      ensures inserted == [] && notice == None && navigatedTo == None
    {
      this.machineNumber := machineNumber;
      machineId := FullMachineId(machineNumber);
      var store := new LastOrderStore();
      this.store := store;
      InitialOrdersEmpty(FullMachineId(machineNumber));
      currentStep := 1;
      step1Data := None;
      adamBoxValue := None;
      isLoadingAdamBox := false;
      defaultOrder := store.GetLastOrder(FullMachineId(machineNumber));
      inserted := [];
      notice := None;
      navigatedTo := None;
    }

    /** `fetchAdamBoxValue`: the counter of the machine's box, or none. */
    method FetchAdamBoxValue(reply: BackendReply)
      requires Valid()
      modifies this
      ensures Valid() && adamBoxValue == GetAdamBoxValue(machineId, reply) && !isLoadingAdamBox
      ensures currentStep == old(currentStep) && step1Data == old(step1Data)
      ensures inserted == old(inserted) && notice == old(notice) && navigatedTo == old(navigatedTo)
    {
      isLoadingAdamBox := true;
      adamBoxValue := GetAdamBoxValue(machineId, reply);
      isLoadingAdamBox := false;
    }

    /** `handleStep1Submit`: keep step 1 and move on to step 2. */
    method HandleStep1Submit(v: Step1Values)
      requires Valid()
      requires Step1Schema(v)
      modifies this
      ensures Valid() && currentStep == 2
      ensures step1Data == Some(Step1Data(v.toolNumber, ToolChangeForm.ParseFormReason(v.reason.value).value))
      ensures adamBoxValue == old(adamBoxValue) && inserted == old(inserted) && navigatedTo == old(navigatedTo)
    {
      step1Data := Some(Step1Data(v.toolNumber, ToolChangeForm.ParseFormReason(v.reason.value).value));
      currentStep := 2;
    }

    /** "Föregående": back to step 1, keeping what step 1 stored. */
    method Back()
      requires Valid()
      modifies this
      ensures Valid() && currentStep == 1 && step1Data == old(step1Data)
      ensures adamBoxValue == old(adamBoxValue) && inserted == old(inserted) && navigatedTo == old(navigatedTo)
    {
      currentStep := 1;
    }

    /**
     * `handleStep2Submit`: nothing without step-1 data; otherwise the insert, and on success the
     * last-order update and navigation to the machine's page. A failed insert does neither.
     */
    method HandleStep2Submit(v: Step2Values, insertSucceeds: bool, id: string, timestamp: int, dateCreated: string)
      requires Valid() && Step2Schema(v)
      modifies this, store
      ensures Valid()
      ensures currentStep == old(currentStep) && step1Data == old(step1Data) && adamBoxValue == old(adamBoxValue)
      ensures old(step1Data).None? ==>
        inserted == old(inserted) && store.lastOrders == old(store.lastOrders)
        && notice == old(notice) && navigatedTo == old(navigatedTo)
      ensures old(step1Data).Some? && !insertSucceeds ==>
        inserted == old(inserted) && store.lastOrders == old(store.lastOrders)
        && notice == Some(SaveFailed) && navigatedTo == old(navigatedTo)
      ensures old(step1Data).Some? && insertSucceeds ==>
        && inserted == old(inserted) + [RowOf(ToolChangeOf(old(step1Data).value, v, machineId, adamBoxValue, id, timestamp),
                                              adamBoxValue, dateCreated)]
        && store.lastOrders == old(store.lastOrders)[machineId := v.manufacturingOrder]
        && notice == Some(Saved) && navigatedTo == Some("/" + machineNumber)
    {
      if step1Data.None? {
        return;
      }
      var toolChange := ToolChangeOf(step1Data.value, v, machineId, adamBoxValue, id, timestamp);
      var row := RowOf(toolChange, adamBoxValue, dateCreated);
      if !insertSucceeds {
        notice := Some(SaveFailed);
        return;
      }
      inserted := inserted + [row];
      if OrEmpty(toolChange.manufacturingOrder) != "" {
        store.SetLastOrder(machineId, OrEmpty(toolChange.manufacturingOrder));
      }
      notice := Some(Saved);
      navigatedTo := Some("/" + machineNumber);
    }
  }
}
