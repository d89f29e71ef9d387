/**
 * `AppSidebar`: one menu entry per available machine, in order, showing the machine number in
 * large type and the rest of the identifier as its name; the entry equal to the active machine
 * is highlighted, and clicking an entry selects exactly that identifier.
 */
module AppSidebar {
  import opened Text
  import opened MachineIds
  import MachineFromUrl

  /** What one rendered menu entry shows and does. */
  datatype Entry = Entry(machine: string, isActive: bool, machineNumber: string, machineName: string)

  /** The entries `availableMachines.map(...)` renders. */
  function Entries(availableMachines: seq<string>, activeMachine: string): (entries: seq<Entry>)
    ensures |entries| == |availableMachines|
    ensures forall i :: 0 <= i < |entries| ==>
      && entries[i].machine == availableMachines[i]
      && (entries[i].isActive <==> availableMachines[i] == activeMachine)
      && ' ' !in entries[i].machineNumber
  {
    seq(|availableMachines|, i requires 0 <= i < |availableMachines| =>
      var machine := availableMachines[i];
      Entry(machine, activeMachine == machine, MachineNumber(machine), MachineName(machine)))
  }

  /** The identifier `onMachineChange` receives when an entry is clicked. */
  function Clicked(entry: Entry): (machine: string)
  {
    entry.machine
  }

  /**
   * The number and name an entry shows put back together with a space give its identifier; when
   * the identifier holds no space the number is the whole identifier and the name is empty.
   */
  lemma EntryLabelsRebuildId(availableMachines: seq<string>, activeMachine: string, i: nat)
    requires i < |availableMachines|
    ensures var e := Entries(availableMachines, activeMachine)[i];
      && (' ' in e.machine ==> e.machineNumber + " " + e.machineName == e.machine)
      && (' ' !in e.machine ==> e.machineNumber == e.machine && e.machineName == "")
  {
    var machine := availableMachines[i];
    if ' ' in machine {
      NumberAndNameRebuildId(machine);
    } else {
      assert IndexOf(machine, ' ') == |machine|;
      assert machine[..|machine|] == machine;
    }
  }

  /** Clicking the `i`-th entry selects the `i`-th available machine. */
  lemma ClickSelectsEntry(availableMachines: seq<string>, activeMachine: string, i: nat)
    requires i < |availableMachines|
    ensures Clicked(Entries(availableMachines, activeMachine)[i]) == availableMachines[i]
  {
  }

  /**
   * For a valid machine URL the first entry is highlighted, and an entry is highlighted exactly
   * when it repeats the first machine number of the URL.
   */
  lemma ResolvedSidebarHighlightsFirst(path: string)
    requires MachineFromUrl.Resolve(path).isValidUrl
    ensures var sel := MachineFromUrl.Resolve(path);
      var entries := Entries(sel.availableMachines, sel.activeMachine);
      && |entries| >= 1 && entries[0].isActive
      && forall i :: 0 <= i < |entries| ==> (entries[i].isActive <==> entries[i].machine == entries[0].machine)
  {
  }
}
