/**
 * `ToolChange`: the in-memory tool-change page. Changes entered in the dialog are appended to a
 * list kept by the page; the list view shows those of the active machine.
 */
module ToolChangePage {
  import opened Seqs
  import opened Records
  import ToolChangeForm

  /** The shown list: the changes of `activeMachine`, in the order they were added. */
  function ShownChanges(toolChanges: seq<ToolChange>, activeMachine: string): (shown: seq<ToolChange>)
    ensures forall i :: 0 <= i < |shown| ==> shown[i] in toolChanges && shown[i].machineId == activeMachine
    ensures forall c :: c in toolChanges && c.machineId == activeMachine ==> c in shown
    ensures IsSubsequence(shown, toolChanges)
  {
    Filter(toolChanges, (c: ToolChange) => c.machineId == activeMachine)
  }

  /** Appending a change shows it after the earlier ones exactly when it is for the active machine. */
  lemma AddedChangeIsShownLast(toolChanges: seq<ToolChange>, c: ToolChange, activeMachine: string)
    ensures ShownChanges(toolChanges + [c], activeMachine)
      == ShownChanges(toolChanges, activeMachine) + (if c.machineId == activeMachine then [c] else [])
  {
    FilterAppend(toolChanges, [c], (x: ToolChange) => x.machineId == activeMachine);
  }

  /** A change entered in the page's dialog carries the active machine, so it is always shown. */
  lemma DialogChangeIsShown(toolChanges: seq<ToolChange>, v: ToolChangeForm.FormValues, activeMachine: string,
                            id: string, timestamp: int)
    requires ToolChangeForm.FormSchema(v)
    ensures var c := ToolChangeForm.ToolChangeOf(v, activeMachine, id, timestamp);
      ShownChanges(toolChanges + [c], activeMachine) == ShownChanges(toolChanges, activeMachine) + [c]
  {
    AddedChangeIsShownLast(toolChanges, ToolChangeForm.ToolChangeOf(v, activeMachine, id, timestamp), activeMachine);
  }

  class ToolChangeView {
    const activeMachine: string
    var toolChanges: seq<ToolChange>
    var showDialog: bool

    constructor(activeMachine: string)
      ensures this.activeMachine == activeMachine && toolChanges == [] && !showDialog
    {
      this.activeMachine := activeMachine;
      toolChanges := [];
      showDialog := false;
    }

    /** `handleAddToolChange`: appends at the end; earlier entries are untouched. */
    method HandleAddToolChange(c: ToolChange)
      modifies this
      ensures toolChanges == old(toolChanges) + [c]
      ensures showDialog == old(showDialog)
    {
      toolChanges := toolChanges + [c];
    }

    /** `setShowDialog`: the button opens the dialog, the dialog's `onOpenChange` closes it. */
    method SetShowDialog(open: bool)
      modifies this
      ensures showDialog == open && toolChanges == old(toolChanges)
    {
      showDialog := open;
    }

    /** What `ToolChangeList` is given. */
    function Shown(): seq<ToolChange>
      reads this
    {
      ShownChanges(toolChanges, activeMachine)
    }
  }
}
