/**
 * `ToolCompensationTable`: the tool compensation sheet read from a `;`-separated CSV file. Rows
 * above the `Plats/koord` header are metadata (label and value), rows below it are tools
 * (location, name, compensation); the search box filters the tools. CSV tokenising and the fetch
 * are not modelled: loading starts from the already-split rows or from the way it failed.
 */
module ToolCompensationTable {
  import opened Wrappers
  import opened Text
  import opened Seqs
  import CompensationTable

  datatype ToolRow = ToolRow(location: string, name: string, compensation: string)
  datatype MetadataRow = MetadataRow(labelText: string, value: string)

  /** `normalise(row[i])`: the trimmed cell, `""` for a missing one. */
  function Normalise(row: seq<string>, i: nat): (cell: string)
    ensures cell == [] || (!IsJsWhitespace(cell[0]) && !IsJsWhitespace(cell[|cell| - 1]))
    ensures i >= |row| ==> cell == ""
  {
    if i < |row| then Trim(row[i]) else ""
  }

  /** `hasData`: some cell is not blank. */
  predicate HasData(row: seq<string>)
  {
    exists i :: 0 <= i < |row| && Trim(row[i]) != ""
  }

  /** The header row: its first cell, trimmed and lower-cased, starts with `plats/koord`. */
  predicate IsToolHeader(row: seq<string>)
  {
    StartsWith(ToLower(Normalise(row, 0)), "plats/koord")
  }

  /** `.replace(/:$/, "")`: one trailing colon removed. */
  function DropTrailingColon(s: string): (r: string)
    ensures r == s || (r + ":" == s)
    ensures |s| > 0 && s[|s| - 1] == ':' ==> r + ":" == s
  {
    if |s| > 0 && s[|s| - 1] == ':' then s[..|s| - 1] else s
  }

  /** One metadata row: the first cell as label, the other cells joined by a space as value. */
  function MetadataItem(row: seq<string>): (item: MetadataRow)
    ensures item.labelText == DropTrailingColon(Normalise(row, 0))
    ensures item.value == Trim(if |row| == 0 then "" else Join(row[1..], " "))
  {
    MetadataRow(DropTrailingColon(Normalise(row, 0)), Trim(Join(if |row| == 0 then [] else row[1..], " ")))
  }

  /** An item with a label or a value. */
  predicate IsFilled(item: MetadataRow) { item.labelText != "" || item.value != "" }

  /** `metadataRows.map(...).filter(item => item.labelText.length > 0 || item.value.length > 0)`. */
  function MetadataItems(rows: seq<seq<string>>): (items: seq<MetadataRow>)
    ensures |items| <= |rows|
    ensures forall item :: item in items ==> IsFilled(item)
    ensures forall i :: 0 <= i < |rows| && IsFilled(MetadataItem(rows[i])) ==> MetadataItem(rows[i]) in items
  {
    Filter(Map(rows, MetadataItem), IsFilled)
  }

  /** One data row as a tool; `None` when location and name are both blank. */
  function ToolOf(row: seq<string>): (tool: Option<ToolRow>)
    ensures tool.Some? <==> Normalise(row, 0) != "" || Normalise(row, 1) != ""
    ensures tool.Some? ==> tool.value == ToolRow(Normalise(row, 0), Normalise(row, 1), Normalise(row, 2))
  {
    var location := Normalise(row, 0);
    var name := Normalise(row, 1);
    if location == "" && name == "" then None
    else Some(ToolRow(location, name, Normalise(row, 2)))
  }

  /** `dataRows.map(...).filter(value => value !== null)`. */
  function ToolRows(data: seq<seq<string>>): (tools: seq<ToolRow>)
    ensures |tools| <= |data|
    ensures forall tool :: tool in tools ==> tool.location != "" || tool.name != ""
    ensures forall tool :: tool in tools ==> exists row :: row in data && ToolOf(row) == Some(tool)
    ensures forall i :: 0 <= i < |data| && ToolOf(data[i]).Some? ==> ToolOf(data[i]).value in tools
  {
    var tools := FilterMap(data, ToolOf);
    assert forall tool :: tool in tools ==> tool.location != "" || tool.name != "" by {
      forall tool | tool in tools ensures tool.location != "" || tool.name != "" {
        var row :| row in data && ToolOf(row) == Some(tool);
      }
    }
    tools
  }

  /** A single data row yields its tool, or nothing when location and name are blank. */
  lemma ToolRowsSingle(row: seq<string>)
    ensures ToolRows([row]) == if ToolOf(row).Some? then [ToolOf(row).value] else []
  {
    assert [row][1..] == [];
  }

  /**
   * A row whose location and name cells are blank is dropped wherever it stands, whatever its
   * compensation cell holds.
   */
  lemma CompensationAloneIsDropped(before: seq<seq<string>>, location: string, name: string,
                                   compensation: string, after: seq<seq<string>>)
    requires AllWhitespace(location) && AllWhitespace(name)
    ensures ToolRows(before + [[location, name, compensation]] + after) == ToolRows(before + after)
  {
    var row: seq<string> := [location, name, compensation];
    assert ToolOf(row) == None;
    assert FilterMap([row], ToolOf) == [];
    FilterMapAppend(before + [row], after, ToolOf);
    FilterMapAppend(before, [row], ToolOf);
    FilterMapAppend(before, after, ToolOf);
  }

  /** Every tool row from position `start` on is among the tools read from that suffix. */
  lemma ToolRowsSuffix(data: seq<seq<string>>, start: nat)
    requires start <= |data|
    ensures forall i :: start <= i < |data| && ToolOf(data[i]).Some? ==> ToolOf(data[i]).value in ToolRows(data[start..])
  {
    forall i | start <= i < |data| && ToolOf(data[i]).Some?
      ensures ToolOf(data[i]).value in ToolRows(data[start..])
    {
      assert data[start..][i - start] == data[i];
    }
  }

  /** Every filled item before position `end` is among the items read from that prefix. */
  lemma MetadataItemsPrefix(rows: seq<seq<string>>, end: nat)
    requires end <= |rows|
    ensures forall i :: 0 <= i < end && IsFilled(MetadataItem(rows[i])) ==> MetadataItem(rows[i]) in MetadataItems(rows[..end])
  {
    forall i | 0 <= i < end && IsFilled(MetadataItem(rows[i]))
      ensures MetadataItem(rows[i]) in MetadataItems(rows[..end])
    {
      assert rows[..end][i] == rows[i];
    }
  }

  /** What `load` stores: the metadata items and the tool rows. */
  function LoadSheet(parsed: seq<seq<string>>): (sheet: (seq<MetadataRow>, seq<ToolRow>))
    ensures forall item :: item in sheet.0 ==> IsFilled(item)
    ensures forall tool :: tool in sheet.1 ==> tool.location != "" || tool.name != ""
    ensures |sheet.0| + |sheet.1| <= |parsed|
    ensures FirstIndex(Filter(parsed, HasData), IsToolHeader).None? ==> sheet.0 == []
    ensures var kept := Filter(parsed, HasData);
      var h := FirstIndex(kept, IsToolHeader);
      forall i :: (if h.None? then 0 else h.value + 1) <= i < |kept| && ToolOf(kept[i]).Some? ==>
        ToolOf(kept[i]).value in sheet.1
    ensures var kept := Filter(parsed, HasData);
      var h := FirstIndex(kept, IsToolHeader);
      h.Some? ==> forall i :: 0 <= i < h.value && IsFilled(MetadataItem(kept[i])) ==>
        MetadataItem(kept[i]) in sheet.0
  {
    var kept := Filter(parsed, HasData);
    var sections := AroundFirst(kept, IsToolHeader);
    var h := FirstIndex(kept, IsToolHeader);
    ToolRowsSuffix(kept, if h.None? then 0 else h.value + 1);
    MetadataItemsPrefix(kept, if h.None? then 0 else h.value);
    (MetadataItems(sections.0), ToolRows(sections.1))
  }

  /** Without a header row every kept row is a tool row and there is no metadata. */
  lemma NoHeaderAllTools(parsed: seq<seq<string>>)
    requires FirstIndex(Filter(parsed, HasData), IsToolHeader).None?
    ensures LoadSheet(parsed) == ([], ToolRows(Filter(parsed, HasData)))
  {
    assert MetadataItems([]) == [];
  }

  /** Every kept row is metadata, the header, or data, in that order. */
  lemma LoadSheetPartitions(parsed: seq<seq<string>>)
    requires FirstIndex(Filter(parsed, HasData), IsToolHeader).Some?
    ensures var kept := Filter(parsed, HasData);
      var h := FirstIndex(kept, IsToolHeader).value;
      LoadSheet(parsed) == (MetadataItems(kept[..h]), ToolRows(kept[h + 1..]))
  {
  }

  /** `resolvedSource`'s test `/^https?:\/\//i.test(source) || source.startsWith("//")`. */
  predicate IsAbsolute(source: string)
  {
    StartsWith(ToLower(source), "http://") || StartsWith(ToLower(source), "https://") || StartsWith(source, "//")
  }

  predicate EndsWithSlash(s: string) { |s| > 0 && s[|s| - 1] == '/' }

  /** The backend base, `(VITE_BACKEND_URL || "")` with one trailing `/` removed. */
  function BackendBase(backendUrl: Option<string>): (base: string)
    ensures backendUrl.None? ==> base == ""
    ensures backendUrl.Some? && EndsWithSlash(backendUrl.value) ==> base + "/" == backendUrl.value
    ensures backendUrl.Some? && !EndsWithSlash(backendUrl.value) ==> base == backendUrl.value
  {
    var url := if backendUrl.None? then "" else backendUrl.value;
    if |url| > 0 && url[|url| - 1] == '/' then url[..|url| - 1] else url
  }

  /** `resolvedSource`: absolute sources as they are, root-relative ones under the backend base. */
  function ResolvedSource(source: string, backendUrl: Option<string>): (url: string)
    ensures IsAbsolute(source) ==> url == source
    ensures !IsAbsolute(source) && StartsWith(source, "/") ==> url == BackendBase(backendUrl) + source
    ensures !StartsWith(source, "/") ==> url == source
  {
    if IsAbsolute(source) then source
    else if StartsWith(source, "/") then
      var joined := BackendBase(backendUrl) + source;
      // `|| source` never applies: `joined` holds at least the leading slash.
      if joined != "" then joined else source
    else source
  }

  /** A base with a trailing slash and a root-relative source meet in exactly one slash. */
  lemma NoDoubleSlash(host: string, path: string)
    requires |host| > 0 && host[|host| - 1] != '/' && !IsAbsolute("/" + path)
    ensures ResolvedSource("/" + path, Some(host + "/")) == host + "/" + path
  {
    assert (host + "/")[..|host + "/"| - 1] == host;
  }

  /** The search text of a tool: its three columns joined by a space. */
  function SearchText(r: ToolRow): string
  {
    Join([r.location, r.name, r.compensation], " ")
  }

  /** `filteredRows`: all tools for a blank search, else those whose text contains the query. */
  function FilterRows(rows: seq<ToolRow>, searchTerm: string): (shown: seq<ToolRow>)
    ensures IsSubsequence(shown, rows)
    ensures AllWhitespace(searchTerm) ==> shown == rows
    ensures !AllWhitespace(searchTerm) ==>
      forall i :: 0 <= i < |rows| ==>
        (rows[i] in shown <== Contains(ToLower(SearchText(rows[i])), ToLower(Trim(searchTerm))))
    ensures !AllWhitespace(searchTerm) ==>
      forall i :: 0 <= i < |shown| ==> Contains(ToLower(SearchText(shown[i])), ToLower(Trim(searchTerm)))
  {
    var query := ToLower(Trim(searchTerm));
    if query == "" then
      SubsequenceOfItself(rows);
      rows
    else Filter(rows, (r: ToolRow) => Contains(ToLower(SearchText(r)), query))
  }

  /** The component's state. */
  class ToolCompensationTableView {
    var metadata: seq<MetadataRow>
    var rows: seq<ToolRow>
    var searchTerm: string
    var error: Option<string>
    var isLoading: bool

    constructor()
      ensures metadata == [] && rows == [] && searchTerm == "" && error == None && isLoading
    {
      metadata := [];
      rows := [];
      searchTerm := "";
      error := None;
      isLoading := true;
    }

    /** `load` once the fetch has ended. */
    method Load(fetch: CompensationTable.CsvFetch)
      modifies this
      ensures searchTerm == old(searchTerm) && !isLoading
      ensures fetch.Parsed? ==> (metadata, rows) == LoadSheet(fetch.rows) && error == None
      ensures !fetch.Parsed? ==>
        metadata == old(metadata) && rows == old(rows) && error == Some(CompensationTable.FetchErrorMessage(fetch))
    {
      if fetch.Parsed? {
        ShowSheet(LoadSheet(fetch.rows));
      } else {
        ShowError(CompensationTable.FetchErrorMessage(fetch));
      }
    }

    /** The success path of `load`: both lists replaced, loading over. */
    method ShowSheet(sheet: (seq<MetadataRow>, seq<ToolRow>))
      modifies this
      ensures (metadata, rows) == sheet && error == None && !isLoading && searchTerm == old(searchTerm)
    {
      metadata, rows, error, isLoading := sheet.0, sheet.1, None, false;
    }

    /** The failure path of `load`: the lists kept, the message shown, loading over. */
    method ShowError(message: string)
      modifies this
      ensures metadata == old(metadata) && rows == old(rows) && error == Some(message)
      ensures !isLoading && searchTerm == old(searchTerm)
    {
      error, isLoading := Some(message), false;
    }

    method SetSearchTerm(term: string)
      modifies this
      ensures searchTerm == term && rows == old(rows) && metadata == old(metadata)
      ensures error == old(error) && isLoading == old(isLoading)
    {
      searchTerm := term;
    }

    /** The tools the table shows. */
    function FilteredRows(): (shown: seq<ToolRow>)
      reads this
      ensures IsSubsequence(shown, rows)
    {
      FilterRows(rows, searchTerm)
    }
  }
}
