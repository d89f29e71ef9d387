/**
 * Machine identifiers of the form `"<number> <name>"` (for example `"5701 Fanuc Robodrill"`):
 * the full identifier built from a number, and the two halves the views split it into.
 */
module MachineIds {
  import opened Wrappers
  import opened Text
  import opened Seqs

  /** The name every identifier built from a bare machine number carries. */
  const RobodrillSuffix: string := " Fanuc Robodrill"

  /** `getFullMachineId`: the number followed by the Robodrill name. */
  function FullMachineId(machineNumber: string): (id: string)
    ensures StartsWith(id, machineNumber)
    ensures id[|machineNumber|..] == RobodrillSuffix
  {
    machineNumber + RobodrillSuffix
  }

  /**
   * `machineId.split(' ')[0]`: the text before the first space, or the whole identifier when it
   * has no space. It never contains a space.
   */
  function MachineNumber(id: string): (n: string)
    ensures n == id[..IndexOf(id, ' ')]
    ensures ' ' !in n
    ensures ' ' !in id ==> n == id
    ensures ' ' in id ==> StartsWith(id, n + " ")
  {
    SplitHead(id, ' ');
    var n := SplitOn(id, ' ')[0];
    if ' ' !in id then
      assert id[..IndexOf(id, ' ')] == id;
      n
    else
      assert n + " " == id[..IndexOf(id, ' ') + 1];
      n
  }

  /**
   * `machineId.split(' ').slice(1).join(' ')`: everything after the first space, later spaces
   * kept; empty when there is no space.
   */
  function MachineName(id: string): (name: string)
    ensures ' ' in id ==> name == id[IndexOf(id, ' ') + 1..]
    ensures ' ' !in id ==> name == ""
  {
    SplitAtFirst(id, ' ');
    var k := IndexOf(id, ' ');
    if k < |id| then
      assert SplitOn(id, ' ')[1..] == SplitOn(id[k + 1..], ' ');
      JoinSplit(id[k + 1..], ' ');
      Join(SplitOn(id, ' ')[1..], " ")
    else
      assert id[..k] == id;
      Join(SplitOn(id, ' ')[1..], " ")
  }

  /** Number, a space and name give the identifier back whenever it holds a space. */
  lemma NumberAndNameRebuildId(id: string)
    requires ' ' in id
    ensures MachineNumber(id) + " " + MachineName(id) == id
  {
    var k := IndexOf(id, ' ');
    assert k < |id|;
    assert id == id[..k] + [id[k]] + id[k + 1..];
  }

  /** The number of a full identifier built from a number without spaces is that number. */
  lemma NumberOfFullMachineId(machineNumber: string)
    requires ' ' !in machineNumber
    ensures MachineNumber(FullMachineId(machineNumber)) == machineNumber
  {
    var id := FullMachineId(machineNumber);
    var k := IndexOf(id, ' ');
    assert id[|machineNumber|] == ' ';
    assert k == |machineNumber|;
  }

  /** A row of the machine table: its row id and its four-digit machine number. */
  datatype MachineRow = MachineRow(id: string, number: string)

  /** The rows `.eq("maskiner_nummer", number)` selects. */
  function RowsNumbered(machines: seq<MachineRow>, number: string): (rows: seq<MachineRow>)
    ensures forall i :: 0 <= i < |rows| ==> rows[i] in machines && rows[i].number == number
    ensures forall m :: m in machines && m.number == number ==> m in rows
  {
    var rows := Filter(machines, (m: MachineRow) => m.number == number);
    assert forall m :: m in machines && m.number == number ==> m in rows by {
      forall m | m in machines && m.number == number ensures m in rows {
        var i :| 0 <= i < |machines| && machines[i] == m;
      }
    }
    rows
  }

  /**
   * The machine row for a number as `.single()` and `.maybeSingle()` give it to the pages: the
   * row when exactly one has that number; no row, or an error for several, gives no data.
   */
  function MachineByNumber(machines: seq<MachineRow>, number: string): (row: Option<MachineRow>)
    ensures row.Some? <==> |RowsNumbered(machines, number)| == 1
    ensures row.Some? ==> row.value in machines && row.value.number == number
    ensures row.Some? ==> forall m :: m in machines && m.number == number ==> m == row.value
  {
    var rows := RowsNumbered(machines, number);
    if |rows| == 1 then Some(rows[0]) else None
  }

  /** Two rows with the same number hide the machine: the lookup gives no data. */
  lemma DuplicateNumberNotFound(a: MachineRow, b: MachineRow)
    requires a.number == b.number
    ensures MachineByNumber([a, b], a.number) == None
  {
    var rows := RowsNumbered([a, b], a.number);
    assert a in rows;
    assert |Filter([b], (m: MachineRow) => m.number == a.number)| == 1;
  }
}
