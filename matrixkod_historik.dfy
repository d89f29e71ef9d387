/**
 * `MatrixkodHistorik`: every registered matrix code, latest code date first, narrowed by an
 * order-number term and a code-date term. The list is fetched again whenever the active machine
 * changes, but the query itself is not restricted to that machine.
 */
module MatrixkodHistorik {
  import opened Wrappers
  import opened Text
  import opened Seqs

  /** `MatrixkodData`: a row of the matrix-code table. */
  datatype MatrixkodData = MatrixkodData(id: string, tillverkningsorder: string, matrixkodDatum: string,
                                         kommentar: Option<string>, createdAt: string)

  /** An empty term passes everything; otherwise a case-insensitive substring test. */
  predicate OrderMatches(m: MatrixkodData, searchOrder: string)
  {
    searchOrder == "" || Contains(ToLower(m.tillverkningsorder), ToLower(searchOrder))
  }

  predicate DateMatches(m: MatrixkodData, searchMatrixkod: string)
  {
    searchMatrixkod == "" || Contains(ToLower(m.matrixkodDatum), ToLower(searchMatrixkod))
  }

  /** The filter effect: the order filter, then the code-date filter, each only for a non-empty term. */
  function FilterMatrixkoder(matrixkoder: seq<MatrixkodData>, searchOrder: string, searchMatrixkod: string): (shown: seq<MatrixkodData>)
    ensures forall m :: m in shown ==> m in matrixkoder && OrderMatches(m, searchOrder) && DateMatches(m, searchMatrixkod)
    ensures forall i :: 0 <= i < |matrixkoder| ==>
      (OrderMatches(matrixkoder[i], searchOrder) && DateMatches(matrixkoder[i], searchMatrixkod) ==> matrixkoder[i] in shown)
  {
    var byOrder := if searchOrder != "" then Filter(matrixkoder, (m: MatrixkodData) => OrderMatches(m, searchOrder)) else matrixkoder;
    if searchMatrixkod != "" then Filter(byOrder, (m: MatrixkodData) => DateMatches(m, searchMatrixkod)) else byOrder
  }

  /** The two filters in a row are one filter by both terms; the comment is never searched. */
  lemma FiltersAreConjunctive(matrixkoder: seq<MatrixkodData>, searchOrder: string, searchMatrixkod: string)
    ensures FilterMatrixkoder(matrixkoder, searchOrder, searchMatrixkod)
      == Filter(matrixkoder, (m: MatrixkodData) => OrderMatches(m, searchOrder) && DateMatches(m, searchMatrixkod))
  {
    var order := (m: MatrixkodData) => OrderMatches(m, searchOrder);
    var date := (m: MatrixkodData) => DateMatches(m, searchMatrixkod);
    var both := (m: MatrixkodData) => OrderMatches(m, searchOrder) && DateMatches(m, searchMatrixkod);
    var byOrder := Filter(matrixkoder, order);
    assert searchOrder == "" ==> byOrder == matrixkoder by {
      if searchOrder == "" { FilterKeepsAll(matrixkoder, order); }
    }
    assert searchMatrixkod == "" ==> Filter(byOrder, date) == byOrder by {
      if searchMatrixkod == "" { FilterKeepsAll(byOrder, date); }
    }
    assert FilterMatrixkoder(matrixkoder, searchOrder, searchMatrixkod) == Filter(byOrder, date);
    FilterTwice(matrixkoder, order, date, both);
  }

  /** A code is shown iff it passes both terms; what is shown keeps the query's order. */
  lemma ShownIffBothMatch(matrixkoder: seq<MatrixkodData>, searchOrder: string, searchMatrixkod: string,
                          before: (MatrixkodData, MatrixkodData) -> bool)
    requires OrderedBy(matrixkoder, before)
    ensures forall m :: m in FilterMatrixkoder(matrixkoder, searchOrder, searchMatrixkod) <==>
      m in matrixkoder && OrderMatches(m, searchOrder) && DateMatches(m, searchMatrixkod)
    ensures OrderedBy(FilterMatrixkoder(matrixkoder, searchOrder, searchMatrixkod), before)
  {
    FiltersAreConjunctive(matrixkoder, searchOrder, searchMatrixkod);
    var both := (m: MatrixkodData) => OrderMatches(m, searchOrder) && DateMatches(m, searchMatrixkod);
    var shown := Filter(matrixkoder, both);
    forall m | m in matrixkoder && both(m) ensures m in shown {
      var i :| 0 <= i < |matrixkoder| && matrixkoder[i] == m;
    }
    FilterKeepsOrder(matrixkoder, both, before);
  }

  /** How the query ended; `Data(None)` is a `null` result. */
  datatype QueryOutcome = QueryError | Data(rows: Option<seq<MatrixkodData>>)

  const LoadFailed: string := "Ett fel uppstod vid laddning av matrixkoder"

  class MatrixkodHistorikView {
    var matrixkoder: seq<MatrixkodData>
    var filteredMatrixkoder: seq<MatrixkodData>
    var isLoading: bool
    var error: Option<string>
    var searchOrder: string
    var searchMatrixkod: string
    var activeMachine: string

    /** The filter effect has run on the current list and terms. */
    predicate Valid()
      reads this
    {
      filteredMatrixkoder == FilterMatrixkoder(matrixkoder, searchOrder, searchMatrixkod)
    }

    constructor(machine: string)
      ensures Valid() && matrixkoder == [] && isLoading && error == None && activeMachine == machine
      ensures searchOrder == "" && searchMatrixkod == ""
    {
      matrixkoder := [];
      filteredMatrixkoder := [];
      isLoading := true;
      error := None;
      searchOrder := "";
      searchMatrixkod := "";
      activeMachine := machine;
    }

    /** The filter effect, reassigning a local list as the source does. */
    method ApplyFilters()
      modifies this
      ensures Valid()
      ensures matrixkoder == old(matrixkoder) && searchOrder == old(searchOrder) && searchMatrixkod == old(searchMatrixkod)
      ensures isLoading == old(isLoading) && error == old(error) && activeMachine == old(activeMachine)
    {
      var order, date := searchOrder, searchMatrixkod;
      var filtered := matrixkoder;
      if order != "" {
        filtered := Filter(filtered, (m: MatrixkodData) => OrderMatches(m, order));
      }
      if date != "" {
        filtered := Filter(filtered, (m: MatrixkodData) => DateMatches(m, date));
      }
      filteredMatrixkoder := filtered;
    }

    method SetSearchOrder(term: string)
      modifies this
      ensures Valid() && searchOrder == term && searchMatrixkod == old(searchMatrixkod)
      ensures matrixkoder == old(matrixkoder) && isLoading == old(isLoading) && error == old(error)
    {
      searchOrder := term;
      ApplyFilters();
    }

    method SetSearchMatrixkod(term: string)
      modifies this
      ensures Valid() && searchMatrixkod == term && searchOrder == old(searchOrder)
      ensures matrixkoder == old(matrixkoder) && isLoading == old(isLoading) && error == old(error)
    {
      searchMatrixkod := term;
      ApplyFilters();
    }

    /** `fetchMatrixkoder`: the whole table, or the error text with the previous list kept. */
    method FetchMatrixkoder(outcome: QueryOutcome)
      modifies this
      ensures Valid() && !isLoading && activeMachine == old(activeMachine)
      ensures searchOrder == old(searchOrder) && searchMatrixkod == old(searchMatrixkod)
      ensures outcome.QueryError? ==> error == Some(LoadFailed) && matrixkoder == old(matrixkoder)
      ensures outcome.Data? ==> error == None && matrixkoder == (if outcome.rows.None? then [] else outcome.rows.value)
    {
      isLoading := true;
      error := None;
      match outcome {
        case QueryError =>
          error := Some(LoadFailed);
        case Data(data) =>
          var rows := if data.None? then [] else data.value;
          matrixkoder := rows;
          filteredMatrixkoder := rows;
      }
      isLoading := false;
      ApplyFilters();
    }

    /** A new active machine triggers a fetch whose result does not depend on the machine. */
    method SetActiveMachine(machine: string, outcome: QueryOutcome)
      modifies this
      ensures Valid() && !isLoading && activeMachine == machine
      ensures outcome.QueryError? ==> error == Some(LoadFailed) && matrixkoder == old(matrixkoder)
      ensures outcome.Data? ==> error == None && matrixkoder == (if outcome.rows.None? then [] else outcome.rows.value)
    {
      activeMachine := machine;
      FetchMatrixkoder(outcome);
    }
  }
}
