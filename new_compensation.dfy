/**
 * `NewCompensation`: the full-page form that records a tool compensation for the machine named in
 * the `machine` query parameter, stores it as a database row and remembers the order number.
 * The insert itself is an outcome supplied by the caller, as are the generated id and the clock.
 */
module NewCompensation {
  import opened Wrappers
  import opened Text
  import opened Records
  import opened CompensationRules
  import opened LastOrders

  /** The form's values at submit time; optional fields may be absent, the enum may be unset. */
  datatype FormValues = FormValues(
    manufacturingOrder: string, coordinateSystem: Option<string>, tool: Option<string>,
    number: Option<string>, direction: Option<string>, value: string, comment: Option<string>,
    signature: string)

  /** `formSchema`: every rule of the schema and its refinement. */
  predicate FormSchema(v: FormValues)
  {
    && |v.manufacturingOrder| >= 1
    && v.direction.Some? && ParseDirection(v.direction.value).Some?
    && IsValue(v.value) && |v.value| >= 1
    && |v.signature| >= 1
    && HasLocation(v.coordinateSystem, v.tool, v.number)
  }

  /** The schema's rules, each stated on its own terms. */
  lemma FormSchemaRules(v: FormValues)
    ensures FormSchema(v) <==>
      && v.manufacturingOrder != ""
      && v.direction.Some? && v.direction.value in {"X", "Y", "Z", "R", "L"}
      && Decomposes(v.value)
      && v.signature != ""
      && ((v.coordinateSystem.Some? && v.coordinateSystem.value != "")
          || (v.tool.Some? && v.tool.value != "")
          || (v.number.Some? && v.number.value != ""))
  {
    ValueRule(v.value);
    LocationRule(v.coordinateSystem, v.tool, v.number);
  }

  /** `defaultValues`: the machine's last order (or `""`), no direction, everything else empty. */
  function DefaultValues(lastOrders: map<string, string>, machineId: string): (v: FormValues)
    ensures v.manufacturingOrder == OrderIn(lastOrders, machineId)
    ensures !FormSchema(v)
  {
    FormValues(OrderIn(lastOrders, machineId), Some(""), Some(""), Some(""), None, "", Some(""), "")
  }

  /** `newCompensation`: the validated values as a record for `machineId`. */
  function CompensationOf(v: FormValues, machineId: string, id: string, timestamp: int): (c: ToolCompensation)
    requires FormSchema(v)
    ensures DirectionText(c.direction) == v.direction.value
    ensures c.machineId == machineId && c.manufacturingOrder == Some(v.manufacturingOrder)
    ensures c.coordinateSystem.None? <==> v.coordinateSystem.None? || v.coordinateSystem.value == ""
    ensures c.tool.None? <==> v.tool.None? || v.tool.value == ""
    ensures c.number.None? <==> v.number.None? || v.number.value == ""
    ensures c.coordinateSystem.Some? ==> c.coordinateSystem == v.coordinateSystem
    ensures c.tool.Some? ==> c.tool == v.tool
    ensures c.number.Some? ==> c.number == v.number
    ensures c.comment == (if v.comment.Some? then v.comment.value else "")
    ensures c.value == v.value && c.signature == v.signature
    ensures c.id == id && c.timestamp == timestamp
  {
    ToolCompensation(id, machineId, PresentOrAbsent(v.coordinateSystem), PresentOrAbsent(v.tool),
                     PresentOrAbsent(v.number), ParseDirection(v.direction.value).value, v.value,
                     OrEmpty(v.comment), v.signature, timestamp,
                     Some(v.manufacturingOrder))
  }

  /** The row sent to the compensation table. */
  datatype InsertRow = InsertRow(
    id: string, machineNumber: string, manufacturingOrder: string,
    compnumCoordinateSystem: Option<string>, compnumTool: Option<string>, compnumNumber: Option<string>,
    compensationDirection: string, compensationValue: string, comment: string, signature: string,
    dateCreated: string)

  /**
   * The insert's column mapping; `dateCreated` is the record's timestamp as ISO text. A location
   * column is null exactly when the record's field is absent or empty (`|| null`), and the
   * direction column reads back as the record's direction.
   */
  function RowOf(c: ToolCompensation, dateCreated: string): (row: InsertRow)
    ensures row.id == c.id && row.machineNumber == c.machineId
    ensures ParseDirection(row.compensationDirection) == Some(c.direction)
    ensures row.compnumCoordinateSystem.None? <==> c.coordinateSystem.None? || c.coordinateSystem.value == ""
    ensures row.compnumTool.None? <==> c.tool.None? || c.tool.value == ""
    ensures row.compnumNumber.None? <==> c.number.None? || c.number.value == ""
    ensures row.compnumCoordinateSystem.Some? ==> row.compnumCoordinateSystem == c.coordinateSystem
    ensures row.compnumTool.Some? ==> row.compnumTool == c.tool
    ensures row.compnumNumber.Some? ==> row.compnumNumber == c.number
    ensures row.compensationValue == c.value && row.comment == c.comment && row.signature == c.signature
    ensures row.manufacturingOrder == (if c.manufacturingOrder.Some? then c.manufacturingOrder.value else "")
    ensures row.dateCreated == dateCreated
  {
    ParseDirectionText(c.direction);
    InsertRow(c.id, c.machineId, OrEmpty(c.manufacturingOrder), PresentOrAbsent(c.coordinateSystem),
              PresentOrAbsent(c.tool), PresentOrAbsent(c.number), DirectionText(c.direction), c.value,
              c.comment, c.signature, dateCreated)
  }

  /**
   * In the stored row the three location columns are null exactly when the field was absent or
   * empty, a missing comment is `""`, and the other columns carry the form's values.
   */
  lemma StoredRow(v: FormValues, machineId: string, id: string, timestamp: int, dateCreated: string)
    requires FormSchema(v)
    ensures var row := RowOf(CompensationOf(v, machineId, id, timestamp), dateCreated);
      && (row.compnumCoordinateSystem.None? <==> v.coordinateSystem.None? || v.coordinateSystem.value == "")
      && (row.compnumCoordinateSystem.Some? ==> row.compnumCoordinateSystem == v.coordinateSystem)
      && (row.compnumTool.None? <==> v.tool.None? || v.tool.value == "")
      && (row.compnumTool.Some? ==> row.compnumTool == v.tool)
      && (row.compnumNumber.None? <==> v.number.None? || v.number.value == "")
      && (row.compnumNumber.Some? ==> row.compnumNumber == v.number)
      && (v.comment.None? ==> row.comment == "")
      && (v.comment.Some? ==> row.comment == v.comment.value)
      && row.machineNumber == machineId && row.manufacturingOrder == v.manufacturingOrder
      && row.compensationDirection == v.direction.value && row.compensationValue == v.value
      && row.signature == v.signature
  {
  }

  const MissingMachineText: string := "Maskin-ID saknas"
  const SaveFailed: string := "Kunde inte spara verktygskompensation"
  const Saved: string := "Verktygskompensation sparad"

  /** What the page shows. */
  datatype Screen = MissingMachine(message: string) | CompensationForm(machineId: string, defaults: FormValues)

  /**
   * Without a (non-empty) `machine` parameter there is only the message. Otherwise the form's
   * defaults come from the page's own last-order hook, which every mount starts afresh with the
   * seven empty orders: the order field is always prefilled with `""`.
   */
  function Render(machineParam: Option<string>): (screen: Screen)
    ensures screen.MissingMachine? <==> machineParam.None? || machineParam.value == ""
    ensures screen.MissingMachine? ==> screen.message == MissingMachineText
    ensures screen.CompensationForm? ==>
      screen.machineId == machineParam.value && screen.defaults.manufacturingOrder == ""
  {
    if machineParam.None? || machineParam.value == "" then MissingMachine(MissingMachineText)
    else
      InitialOrdersEmpty(machineParam.value);
      CompensationForm(machineParam.value, DefaultValues(InitialOrders, machineParam.value))
  }

  /** The rendered form page and the effects of its submit. */
  class NewCompensationPage {
    const machineId: string
    /** The page's own `useLastManufacturingOrder` state. */
    const store: LastOrderStore
    /** The form's `defaultValues`, read from the page's store when it mounts. */
    const defaults: FormValues
    /** The rows the database accepted. */
    var inserted: seq<InsertRow>
    var notice: Option<string>
    var navigatedTo: Option<string>

    /** Mounting the page: a fresh store of seven empty orders, so the order is prefilled with `""`. */
    constructor(machineId: string)
      ensures this.machineId == machineId && fresh(store) && store.lastOrders == InitialOrders
      ensures defaults == DefaultValues(InitialOrders, machineId) && defaults.manufacturingOrder == ""
      ensures inserted == [] && notice == None && navigatedTo == None
    {
      this.machineId := machineId;
      var store := new LastOrderStore();
      this.store := store;
      InitialOrdersEmpty(machineId);
      defaults := DefaultValues(store.lastOrders, machineId);
      inserted := [];
      notice := None;
      navigatedTo := None;
    }

    /**
     * `handleSubmit` for validated values: the insert, then on success the last-order update and
     * the navigation back to the machine's compensation tab. A failed insert does neither.
     */
    method HandleSubmit(v: FormValues, insertSucceeds: bool, id: string, timestamp: int, dateCreated: string)
      requires FormSchema(v)
      modifies this, store
      ensures var row := RowOf(CompensationOf(v, machineId, id, timestamp), dateCreated);
        && (!insertSucceeds ==>
              && inserted == old(inserted) && store.lastOrders == old(store.lastOrders)
              && navigatedTo == old(navigatedTo) && notice == Some(SaveFailed))
        && (insertSucceeds ==>
              && inserted == old(inserted) + [row]
              && store.lastOrders == old(store.lastOrders)[machineId := v.manufacturingOrder]
              && navigatedTo == Some("/" + machineId + "?tab=kompensering") && notice == Some(Saved))
    {
      var compensation := CompensationOf(v, machineId, id, timestamp);
      var row := RowOf(compensation, dateCreated);
      if !insertSucceeds {
        notice := Some(SaveFailed);
        return;
      }
      inserted := inserted + [row];
      if OrEmpty(compensation.manufacturingOrder) != "" {
        store.SetLastOrder(machineId, OrEmpty(compensation.manufacturingOrder));
      }
      notice := Some(Saved);
      navigatedTo := Some("/" + machineId + "?tab=kompensering");
    }
  }
}
