/**
 * `CreateToolChange`: the "Nytt verktygsbyte" button leads to the tool-change wizard with the
 * active machine's number as the `machine` query parameter.
 */
module CreateToolChange {
  import opened Text
  import opened MachineIds

  /** The wizard route, up to and including the query parameter name. */
  const NewToolChangePrefix: string := "/new-tool-change?machine="

  /** The location the button navigates to: `getMachineNumber` is `MachineNumber`. */
  function NavigationTarget(activeMachine: string): (url: string)
    ensures StartsWith(url, NewToolChangePrefix)
    ensures url[|NewToolChangePrefix|..] == MachineNumber(activeMachine)
  {
    NewToolChangePrefix + MachineNumber(activeMachine)
  }

  /**
   * The wizard turns the parameter back into a full identifier; for an identifier built from a
   * number without spaces, that gives back the machine the button was pressed for.
   */
  lemma WizardRebuildsActiveMachine(machineNumber: string)
    requires ' ' !in machineNumber
    ensures var activeMachine := FullMachineId(machineNumber);
      FullMachineId(NavigationTarget(activeMachine)[|NewToolChangePrefix|..]) == activeMachine
  {
    NumberOfFullMachineId(machineNumber);
  }
}
