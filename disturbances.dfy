/**
 * `Disturbances`: the disturbance log of the active machine, newest first, narrowed by two
 * optional search terms. The machine row is looked up by machine number; the database queries
 * themselves are inputs (the machine table, and how the disturbance query ended).
 */
module Disturbances {
  import opened Wrappers
  import opened Text
  import opened Seqs
  import opened MachineIds

  /** A row as the database returns it. */
  datatype DbRow = DbRow(id: string, maskinId: string, omrade: string, kommentar: string, signatur: string, createdAt: string)

  /** `DisturbanceData`: a row as the page keeps it. */
  datatype DisturbanceData = DisturbanceData(id: string, machineId: string, area: string, comment: string, signature: string, createdAt: string)

  /** The column mapping of `fetchDisturbances`. */
  function FromDb(row: DbRow): (d: DisturbanceData)
    ensures ToDb(d) == row
  {
    DisturbanceData(row.id, row.maskinId, row.omrade, row.kommentar, row.signatur, row.createdAt)
  }

  /** The mapping read backwards: page field to database column. */
  function ToDb(d: DisturbanceData): (row: DbRow)
    ensures row.id == d.id && row.maskinId == d.machineId && row.omrade == d.area
    ensures row.kommentar == d.comment && row.signatur == d.signature && row.createdAt == d.createdAt
  {
    DbRow(d.id, d.machineId, d.area, d.comment, d.signature, d.createdAt)
  }

  /** The mapping loses and invents nothing: each column lands in exactly one field and back. */
  lemma ColumnMappingRoundTrip(row: DbRow, d: DisturbanceData)
    ensures ToDb(FromDb(row)) == row
    ensures FromDb(ToDb(d)) == d
    ensures FromDb(row).id == row.id && FromDb(row).createdAt == row.createdAt
  {
  }

  /** An empty term passes everything; otherwise a case-insensitive substring test. */
  predicate AreaMatches(d: DisturbanceData, searchArea: string)
  {
    searchArea == "" || Contains(ToLower(d.area), ToLower(searchArea))
  }

  predicate CommentMatches(d: DisturbanceData, searchComment: string)
  {
    searchComment == "" || Contains(ToLower(d.comment), ToLower(searchComment))
  }

  /** The filter effect: the area filter, then the comment filter, each only for a non-empty term. */
  function FilterDisturbances(disturbances: seq<DisturbanceData>, searchArea: string, searchComment: string): (shown: seq<DisturbanceData>)
    ensures forall d :: d in shown ==> d in disturbances && AreaMatches(d, searchArea) && CommentMatches(d, searchComment)
    ensures forall i :: 0 <= i < |disturbances| ==>
      (AreaMatches(disturbances[i], searchArea) && CommentMatches(disturbances[i], searchComment) ==> disturbances[i] in shown)
  {
    var byArea := if searchArea != "" then Filter(disturbances, (d: DisturbanceData) => AreaMatches(d, searchArea)) else disturbances;
    if searchComment != "" then Filter(byArea, (d: DisturbanceData) => CommentMatches(d, searchComment)) else byArea
  }

  /** The two filters in a row are one filter by both terms. */
  lemma FiltersAreConjunctive(disturbances: seq<DisturbanceData>, searchArea: string, searchComment: string)
    ensures FilterDisturbances(disturbances, searchArea, searchComment)
      == Filter(disturbances, (d: DisturbanceData) => AreaMatches(d, searchArea) && CommentMatches(d, searchComment))
  {
    var area := (d: DisturbanceData) => AreaMatches(d, searchArea);
    var comment := (d: DisturbanceData) => CommentMatches(d, searchComment);
    var both := (d: DisturbanceData) => AreaMatches(d, searchArea) && CommentMatches(d, searchComment);
    var byArea := Filter(disturbances, area);
    assert searchArea == "" ==> byArea == disturbances by {
      if searchArea == "" { FilterKeepsAll(disturbances, area); }
    }
    assert searchComment == "" ==> Filter(byArea, comment) == byArea by {
      if searchComment == "" { FilterKeepsAll(byArea, comment); }
    }
    assert FilterDisturbances(disturbances, searchArea, searchComment) == Filter(byArea, comment);
    FilterTwice(disturbances, area, comment, both);
  }

  /** What is shown is a subsequence of the list, and a row is shown iff it passes both terms. */
  lemma ShownIffBothMatch(disturbances: seq<DisturbanceData>, searchArea: string, searchComment: string, i: nat)
    requires i < |disturbances|
    ensures IsSubsequence(FilterDisturbances(disturbances, searchArea, searchComment), disturbances)
    ensures AreaMatches(disturbances[i], searchArea) && CommentMatches(disturbances[i], searchComment) ==>
      disturbances[i] in FilterDisturbances(disturbances, searchArea, searchComment)
    ensures forall d :: d in FilterDisturbances(disturbances, searchArea, searchComment) ==>
      d in disturbances && AreaMatches(d, searchArea) && CommentMatches(d, searchComment)
  {
    FiltersAreConjunctive(disturbances, searchArea, searchComment);
  }

  /** The filtered list keeps the newest-first order the query delivered. */
  lemma FilterKeepsQueryOrder(disturbances: seq<DisturbanceData>, searchArea: string, searchComment: string,
                              before: (DisturbanceData, DisturbanceData) -> bool)
    requires OrderedBy(disturbances, before)
    ensures OrderedBy(FilterDisturbances(disturbances, searchArea, searchComment), before)
  {
    FiltersAreConjunctive(disturbances, searchArea, searchComment);
    FilterKeepsOrder(disturbances,
      (d: DisturbanceData) => AreaMatches(d, searchArea) && CommentMatches(d, searchComment), before);
  }

  /** How the disturbance query ended; `Data(None)` is a `null` result. */
  datatype QueryOutcome = QueryError | Data(rows: Option<seq<DbRow>>)

  const MachineNotFound: string := "Maskin hittades inte"
  const LoadFailed: string := "Ett fel uppstod vid laddning av st\U{00F6}rningar"

  /** The page's state. */
  class DisturbancesView {
    var disturbances: seq<DisturbanceData>
    var filteredDisturbances: seq<DisturbanceData>
    var isLoading: bool
    var error: Option<string>
    var searchArea: string
    var searchComment: string

    /** The filter effect has run on the current list and terms. */
    predicate Valid()
      reads this
    {
      filteredDisturbances == FilterDisturbances(disturbances, searchArea, searchComment)
    }

    constructor()
      ensures Valid() && disturbances == [] && isLoading && error == None
      ensures searchArea == "" && searchComment == ""
    {
      disturbances := [];
      filteredDisturbances := [];
      isLoading := true;
      error := None;
      searchArea := "";
      searchComment := "";
    }

    /** The filter effect, reassigning a local list as the source does. */
    method ApplyFilters()
      modifies this
      ensures Valid()
      ensures disturbances == old(disturbances) && searchArea == old(searchArea) && searchComment == old(searchComment)
      ensures isLoading == old(isLoading) && error == old(error)
    {
      var area, comment := searchArea, searchComment;
      var filtered := disturbances;
      if area != "" {
        filtered := Filter(filtered, (d: DisturbanceData) => AreaMatches(d, area));
      }
      if comment != "" {
        filtered := Filter(filtered, (d: DisturbanceData) => CommentMatches(d, comment));
      }
      filteredDisturbances := filtered;
    }

    method SetSearchArea(term: string)
      modifies this
      ensures Valid() && searchArea == term && searchComment == old(searchComment)
      ensures disturbances == old(disturbances) && isLoading == old(isLoading) && error == old(error)
    {
      searchArea := term;
      ApplyFilters();
    }

    method SetSearchComment(term: string)
      modifies this
      ensures Valid() && searchComment == term && searchArea == old(searchArea)
      ensures disturbances == old(disturbances) && isLoading == old(isLoading) && error == old(error)
    {
      searchComment := term;
      ApplyFilters();
    }

    /**
     * `fetchDisturbances` for `activeMachine`. `machines` is the machine table, looked up with
     * `.single()`; `queried` is the machine row id the disturbance query was made for, `None` when
     * it was skipped.
     */
    method FetchDisturbances(activeMachine: string, machines: seq<MachineRow>, outcome: QueryOutcome)
      returns (queried: Option<string>)
      modifies this
      ensures Valid() && !isLoading
      ensures searchArea == old(searchArea) && searchComment == old(searchComment)
      ensures MachineByNumber(machines, MachineNumber(activeMachine)).None? ==>
        queried == None && error == Some(MachineNotFound) && disturbances == old(disturbances)
      ensures MachineByNumber(machines, MachineNumber(activeMachine)).Some? ==>
        queried == Some(MachineByNumber(machines, MachineNumber(activeMachine)).value.id)
      ensures queried.Some? && outcome.QueryError? ==> error == Some(LoadFailed) && disturbances == old(disturbances)
      ensures queried.Some? && outcome.Data? ==>
        error == None
        && disturbances == (var rows := if outcome.rows.None? then [] else outcome.rows.value;
                            seq(|rows|, i requires 0 <= i < |rows| => FromDb(rows[i])))
    {
      isLoading := true;
      error := None;
      var machineData := MachineByNumber(machines, MachineNumber(activeMachine));
      if machineData.None? {
        error := Some(MachineNotFound);
        queried := None;
        isLoading := false;
        ApplyFilters();
        return;
      }
      queried := Some(machineData.value.id);
      match outcome {
        case QueryError =>
          error := Some(LoadFailed);
        case Data(data) =>
          var rows := if data.None? then [] else data.value;
          var mapped := seq(|rows|, i requires 0 <= i < |rows| => FromDb(rows[i]));
          disturbances := mapped;
          filteredDisturbances := mapped;
      }
      isLoading := false;
      ApplyFilters();
    }
  }
}
