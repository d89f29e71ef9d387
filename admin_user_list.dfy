/**
 * `AdminUserList`: the admin table of users and their machine access. One user at a time can be
 * edited: the machine list is ticked and unticked, and saving replaces that user's rows of the
 * `user_machines` table by one row per ticked machine. The table is kept here as a sequence of
 * rows; whether the delete and each insert succeed are outcomes supplied by the caller.
 */
module AdminUserList {
  import opened Wrappers
  import opened Seqs

  /** A row of `user_machines`. */
  datatype Assignment = Assignment(userId: string, machine: string)

  /** The first insert that fails, by position in the edited list, and its message. */
  datatype InsertFailure = InsertFailure(at: nat, message: string)

  /** The rows inserted for `userId`, one per machine, in order. */
  function RowsFor(userId: string, machines: seq<string>): (rows: seq<Assignment>)
    ensures |rows| == |machines|
    ensures forall i :: 0 <= i < |rows| ==> rows[i] == Assignment(userId, machines[i])
  {
    if machines == [] then [] else RowsFor(userId, machines[..|machines| - 1]) + [Assignment(userId, machines[|machines| - 1])]
  }

  /** The table after `delete().eq("user_id", userId)`: every other user's rows, in order. */
  function WithoutUser(table: seq<Assignment>, userId: string): (rest: seq<Assignment>)
    ensures forall a :: a in rest <==> a in table && a.userId != userId
    ensures IsSubsequence(rest, table)
  {
    var kept := Filter(table, (a: Assignment) => a.userId != userId);
    assert forall a :: a in table && a.userId != userId ==> a in kept by {
      forall a | a in table && a.userId != userId ensures a in kept {
        var i :| 0 <= i < |table| && table[i] == a;
      }
    }
    kept
  }

  /** The edited list after unticking `m`: every copy of it goes, the others keep their order. */
  function Unticked(machines: seq<string>, m: string): (rest: seq<string>)
    ensures m !in rest && IsSubsequence(rest, machines)
    ensures forall x :: x in machines && x != m ==> x in rest
  {
    var kept := Filter(machines, (x: string) => x != m);
    assert forall x :: x in machines && x != m ==> x in kept by {
      forall x | x in machines && x != m ensures x in kept {
        var i :| 0 <= i < |machines| && machines[i] == x;
      }
    }
    kept
  }

  /** Ticking a machine that was not ticked and unticking it again restores the list. */
  lemma TickThenUntick(machines: seq<string>, m: string)
    requires m !in machines
    ensures Unticked(machines + [m], m) == machines
  {
    var p := (x: string) => x != m;
    FilterAppend(machines, [m], p);
    FilterKeepsAll(machines, p);
  }

  const DeleteFailedPrefix: string := "Kunde inte spara: "
  const InsertFailedPrefix: string := "Fel n\U{00E4}r maskiner sparades: "

  class UserListEditor {
    var editId: Option<string>
    var editMachines: seq<string>
    var editError: Option<string>
    /** The `user_machines` table. */
    var table: seq<Assignment>
    /** How often `onUpdate` was called. */
    var updates: nat

    constructor(table: seq<Assignment>)
      ensures editId == None && editMachines == [] && editError == None && this.table == table && updates == 0
    {
      editId := None;
      editMachines := [];
      editError := None;
      this.table := table;
      updates := 0;
    }

    /** `handleEdit`: this user, and only this one, is in edit mode, starting from their machines. */
    method HandleEdit(userId: string, current: seq<string>)
      modifies this
      ensures editId == Some(userId) && editMachines == current && editError == None
      ensures table == old(table) && updates == old(updates)
    {
      editId := Some(userId);
      editMachines := current;
      editError := None;
    }

    /** `handleCancel`: nobody is in edit mode. */
    method HandleCancel()
      modifies this
      ensures editId == None && editMachines == [] && editError == None
      ensures table == old(table) && updates == old(updates)
    {
      editId := None;
      editMachines := [];
      editError := None;
    }

    /**
     * The checkbox of machine `m`: ticking appends it; unticking removes every copy of it and
     * keeps the other machines in their order.
     */
    method Toggle(m: string, checked: bool)
      modifies this
      ensures checked ==> editMachines == old(editMachines) + [m]
      ensures !checked ==> editMachines == Unticked(old(editMachines), m)
      ensures editId == old(editId) && editError == old(editError) && table == old(table) && updates == old(updates)
    {
      if checked {
        editMachines := editMachines + [m];
      } else {
        editMachines := Unticked(editMachines, m);
      }
    }

    /**
     * `saveMachines`: delete the user's rows, then insert one row per edited machine in order. A
     * failed delete inserts nothing; a failed insert stops there, keeping the rows already
     * inserted; either failure keeps edit mode and shows a message. Full success leaves edit mode
     * and calls `onUpdate`.
     */
    method SaveMachines(userId: string, deleteError: Option<string>, insertFailure: Option<InsertFailure>)
      modifies this
      ensures deleteError.Some? ==>
        && table == old(table) && editError == Some(DeleteFailedPrefix + deleteError.value)
        && editId == old(editId) && editMachines == old(editMachines) && updates == old(updates)
      ensures deleteError.None? && insertFailure.Some? && insertFailure.value.at < |old(editMachines)| ==>
        && table == WithoutUser(old(table), userId) + RowsFor(userId, old(editMachines)[..insertFailure.value.at])
        && editError == Some(InsertFailedPrefix + insertFailure.value.message)
        && editId == old(editId) && editMachines == old(editMachines) && updates == old(updates)
      ensures deleteError.None? && (insertFailure.None? || insertFailure.value.at >= |old(editMachines)|) ==>
        && table == WithoutUser(old(table), userId) + RowsFor(userId, old(editMachines))
        && editError == None && editId == None && editMachines == [] && updates == old(updates) + 1
    {
      if deleteError.Some? {
        editError := Some(DeleteFailedPrefix + deleteError.value);
        return;
      }
      var rows, failed := InsertRows(WithoutUser(table, userId), userId, editMachines, insertFailure);
      if failed {
        table, editError := rows, Some(InsertFailedPrefix + insertFailure.value.message);
      } else {
        table, editError, editId, editMachines, updates := rows, None, None, [], updates + 1;
      }
    }
  }

  /**
   * The insert loop of `saveMachines`: one row per machine, in order, after `base`; when the
   * insert at position `insertFailure.at` fails, it stops there with the rows before it.
   */
  method InsertRows(base: seq<Assignment>, userId: string, machines: seq<string>, insertFailure: Option<InsertFailure>)
    returns (rows: seq<Assignment>, failed: bool)
    ensures failed <==> insertFailure.Some? && insertFailure.value.at < |machines|
    ensures failed ==> rows == base + RowsFor(userId, machines[..insertFailure.value.at])
    ensures !failed ==> rows == base + RowsFor(userId, machines)
  {
    rows := base;
    failed := false;
    var i := 0;
    while i < |machines| && !failed
      invariant i <= |machines|
      invariant rows == base + RowsFor(userId, machines[..i])
      invariant failed ==> i < |machines| && insertFailure.Some? && insertFailure.value.at == i
      invariant !failed && insertFailure.Some? ==> i <= insertFailure.value.at
      decreases |machines| - i, if failed then 0 else 1
    {
      if insertFailure.Some? && insertFailure.value.at == i {
        failed := true;
      } else {
        RowsForExtend(userId, machines, i);
        rows := rows + [Assignment(userId, machines[i])];
        i := i + 1;
      }
    }
    assert machines[..|machines|] == machines;
  }

  /** One more machine adds one more row at the end. */
  lemma RowsForExtend(userId: string, machines: seq<string>, i: nat)
    requires i < |machines|
    ensures RowsFor(userId, machines[..i + 1]) == RowsFor(userId, machines[..i]) + [Assignment(userId, machines[i])]
  {
    assert machines[..i + 1][..i] == machines[..i];
  }

  /** Saving after a successful delete gives the user exactly the edited machines, in order. */
  lemma SavedRowsOfUser(table: seq<Assignment>, userId: string, machines: seq<string>, a: Assignment)
    ensures a in WithoutUser(table, userId) + RowsFor(userId, machines) && a.userId == userId
      <==> a.userId == userId && a.machine in machines
  {
    var rows := RowsFor(userId, machines);
    if a.userId == userId && a.machine in machines {
      var i :| 0 <= i < |machines| && machines[i] == a.machine;
      assert rows[i] == a;
    }
  }
}
