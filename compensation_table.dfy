/**
 * `CompensationTable`: the compensation list read from a `;`-separated CSV file. After splitting,
 * empty rows are dropped, everything up to the `ID-#` header row is skipped, cells are trimmed and
 * rows without an id are left out; the search box then filters the rows. CSV tokenising and the
 * fetch are not modelled: loading starts from the already-split rows or from the way it failed.
 */
module CompensationTable {
  import opened Wrappers
  import opened Text
  import opened Seqs

  /** `RawRow`: the nine columns of a compensation row. */
  datatype RawRow = RawRow(
    id: string, property: string, toolNumber: string, toolDescription: string,
    axisPrimary: string, axisSecondary: string, machineSide: string, operatorSide: string,
    comment: string)

  const Sant: string := "SANT"
  const Falskt: string := "FALSKT"

  /** `sanitiseBoolean`: the yes/no columns as `"SANT"`, `"FALSKT"` or `""`; `None` is `undefined`. */
  function SanitiseBoolean(value: Option<string>): (shown: string)
    ensures shown == Sant || shown == Falskt || shown == ""
    ensures shown == Sant <==> value.Some? && ToUpper(Trim(value.value)) == Sant
    ensures shown == Falskt <==> value.Some? && ToUpper(Trim(value.value)) == Falskt
  {
    var normalised := if value.None? then "" else ToUpper(Trim(value.value));
    if normalised == "" then ""
    else if normalised == Sant then Sant
    else if normalised == Falskt then Falskt
    else ""
  }

  /** Sanitising a label again leaves it as it is. */
  lemma SanitiseBooleanIdempotent(value: Option<string>)
    ensures SanitiseBoolean(Some(SanitiseBoolean(value))) == SanitiseBoolean(value)
  {
    var b := SanitiseBoolean(value);
    if b != "" {
      NormalisedLabel(b);
    }
  }

  lemma NormalisedLabel(b: string)
    requires b == Sant || b == Falskt
    ensures ToUpper(Trim(b)) == b
  {
    if b == Sant {
      CapitalsAreNormalised("SANT");
    } else {
      CapitalsAreNormalised("FALSKT");
    }
  }

  /** `hasContent`: some cell is not blank. */
  predicate HasContent(row: seq<string>)
  {
    exists i :: 0 <= i < |row| && Trim(row[i]) != ""
  }

  /** Neither end is white space. */
  predicate IsTrimmed(f: string)
  {
    f == [] || (!IsJsWhitespace(f[0]) && !IsJsWhitespace(f[|f| - 1]))
  }

  /** `row[i]` trimmed, with a missing cell read as `""`. */
  function Cell(row: seq<string>, i: nat): (cell: string)
    ensures IsTrimmed(cell)
  {
    if i < |row| then Trim(row[i]) else ""
  }

  /** `row[0]?.trim().toUpperCase() === "ID-#"`. */
  predicate IsHeader(row: seq<string>)
  {
    |row| > 0 && ToUpper(Trim(row[0])) == "ID-#"
  }

  /** The rows after the first header row, or all rows when there is none. */
  function DataRows(rows: seq<seq<string>>): seq<seq<string>>
  {
    AfterFirst(rows, IsHeader)
  }

  /** One data row as a record; `None` when its first cell is blank. */
  function CleanRow(row: seq<string>): (record: Option<RawRow>)
    ensures record.Some? <==> Cell(row, 0) != ""
    ensures record.Some? ==> record.value.id == Cell(row, 0) && IsTrimmedRow(record.value)
  {
    var id := Cell(row, 0);
    if id == "" then None
    else Some(RawRow(id, Cell(row, 1), Cell(row, 2), Cell(row, 3), Cell(row, 4),
                     Cell(row, 5), Cell(row, 6), Cell(row, 7), Cell(row, 8)))
  }

  /** No field starts or ends with white space. */
  predicate IsTrimmedRow(r: RawRow)
  {
    && IsTrimmed(r.id) && IsTrimmed(r.property) && IsTrimmed(r.toolNumber)
    && IsTrimmed(r.toolDescription) && IsTrimmed(r.axisPrimary) && IsTrimmed(r.axisSecondary)
    && IsTrimmed(r.machineSide) && IsTrimmed(r.operatorSide) && IsTrimmed(r.comment)
  }

  /** `dataRows.map(...).filter(value => value !== null)`. */
  function CleanRows(data: seq<seq<string>>): (records: seq<RawRow>)
    ensures |records| <= |data|
    ensures forall r :: r in records ==> r.id != "" && IsTrimmedRow(r)
  {
    var records := FilterMap(data, CleanRow);
    assert forall r :: r in records ==> r.id != "" && IsTrimmedRow(r) by {
      forall r | r in records ensures r.id != "" && IsTrimmedRow(r) {
        var row :| row in data && CleanRow(row) == Some(r);
      }
    }
    records
  }

  /** A data row with an id gives exactly one record, and it is the row's own. */
  lemma CleanRowsSingle(row: seq<string>)
    ensures CleanRows([row]) == if Cell(row, 0) == "" then [] else [CleanRow(row).value]
  {
    assert [row][1..] == [];
  }

  /** The pipeline in `loadData`: drop empty rows, skip to after the header, clean the rest. */
  function LoadRows(parsed: seq<seq<string>>): (records: seq<RawRow>)
    ensures forall r :: r in records ==> r.id != "" && IsTrimmedRow(r)
  {
    CleanRows(DataRows(Filter(parsed, HasContent)))
  }

  /** Rows before the header, the header itself and blank rows never produce records. */
  lemma LoadRowsSkipsPreamble(preamble: seq<seq<string>>, header: seq<string>, data: seq<seq<string>>)
    requires IsHeader(header)
    requires forall row :: row in preamble ==> !IsHeader(row)
    ensures LoadRows(preamble + [header] + data) == CleanRows(Filter(data, HasContent))
  {
    var kept := Filter(preamble, HasContent);
    HeaderHasContent(header);
    FilterAround(preamble, header, data, HasContent);
    assert forall row :: row in kept ==> !IsHeader(row);
    MarkerIsFirst(kept, header, Filter(data, HasContent), IsHeader);
  }

  /** The header's first cell is not blank. */
  lemma HeaderHasContent(header: seq<string>)
    requires IsHeader(header)
    ensures HasContent(header)
  {
    assert |ToUpper(Trim(header[0]))| == |Trim(header[0])|;
    assert Trim(header[0]) != "";
  }

  /** The columns the search box looks in: all but the two side columns. */
  function SearchText(r: RawRow): string
  {
    Join([r.id, r.property, r.toolNumber, r.toolDescription, r.axisPrimary, r.axisSecondary, r.comment], " ")
  }

  /** `filteredRows`: all rows for a blank search, else those whose text contains the query. */
  function FilterRows(rows: seq<RawRow>, searchTerm: string): (shown: seq<RawRow>)
    ensures IsSubsequence(shown, rows)
    ensures AllWhitespace(searchTerm) ==> shown == rows
    ensures !AllWhitespace(searchTerm) ==>
      forall i :: 0 <= i < |rows| ==>
        (rows[i] in shown <== Contains(ToLower(SearchText(rows[i])), ToLower(Trim(searchTerm))))
    ensures !AllWhitespace(searchTerm) ==>
      forall i :: 0 <= i < |shown| ==> Contains(ToLower(SearchText(shown[i])), ToLower(Trim(searchTerm)))
  {
    var query := ToLower(Trim(searchTerm));
    if query == "" then
      SubsequenceOfItself(rows);
      rows
    else Filter(rows, (r: RawRow) => Contains(ToLower(SearchText(r)), query))
  }

  /** The side columns are not searched: rows that differ only there are shown or hidden together. */
  lemma SideColumnsNotSearched(r: RawRow, machineSide: string, operatorSide: string, searchTerm: string)
    ensures var s := r.(machineSide := machineSide, operatorSide := operatorSide);
      (r in FilterRows([r], searchTerm)) <==> (s in FilterRows([s], searchTerm))
  {
    var s := r.(machineSide := machineSide, operatorSide := operatorSide);
    assert SearchText(r) == SearchText(s);
  }

  /** How fetching the file ended: the split rows, a non-OK HTTP status, or a thrown value. */
  datatype CsvFetch = Parsed(rows: seq<seq<string>>) | HttpError(status: int) | Thrown(message: Option<string>)

  /**
   * The error shown when loading fails; `None` is a thrown value that is not an `Error`. Both
   * CSV tables show the same messages.
   */
  function FetchErrorMessage(fetch: CsvFetch): (message: string)
    requires !fetch.Parsed?
    ensures fetch.HttpError? ==> message == "Kunde inte l\U{00E4}sa filen (" + IntToString(fetch.status) + ")"
    ensures fetch.Thrown? && fetch.message.Some? ==> message == fetch.message.value
    ensures fetch.Thrown? && fetch.message.None? ==> message == "Ok\U{00E4}nt fel"
  {
    match fetch
    case HttpError(status) => "Kunde inte l\U{00E4}sa filen (" + IntToString(status) + ")"
    case Thrown(m) => if m.Some? then m.value else "Ok\U{00E4}nt fel"
  }

  /** The component's state. */
  class CompensationTableView {
    var rows: seq<RawRow>
    var searchTerm: string
    var error: Option<string>
    var isLoading: bool

    constructor()
      ensures rows == [] && searchTerm == "" && error == None && isLoading
    {
      rows := [];
      searchTerm := "";
      error := None;
      isLoading := true;
    }

    /** `loadData` once the fetch has ended. */
    method LoadData(fetch: CsvFetch)
      modifies this
      ensures searchTerm == old(searchTerm) && !isLoading
      ensures fetch.Parsed? ==> rows == LoadRows(fetch.rows) && error == None
      ensures !fetch.Parsed? ==> rows == old(rows) && error == Some(FetchErrorMessage(fetch))
    {
      isLoading := true;
      error := None;
      if fetch.Parsed? {
        rows := LoadRows(fetch.rows);
      } else {
        error := Some(FetchErrorMessage(fetch));
      }
      isLoading := false;
    }

    method SetSearchTerm(term: string)
      modifies this
      ensures searchTerm == term && rows == old(rows) && error == old(error) && isLoading == old(isLoading)
    {
      searchTerm := term;
    }

    /** The rows the table shows. */
    function FilteredRows(): (shown: seq<RawRow>)
      reads this
      ensures IsSubsequence(shown, rows)
    {
      FilterRows(rows, searchTerm)
    }
  }
}
