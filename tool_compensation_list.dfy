/** `ToolCompensationList`: the compensation history, searched by a free-text query and shown newest first. */
module ToolCompensationList {
  import opened Wrappers
  import opened Text
  import opened Seqs
  import opened Records

  /** `field?.toLowerCase().includes(query) ?? false`: an absent field never matches. */
  predicate OptionalContains(field: Option<string>, query: string)
  {
    field.Some? && Contains(ToLower(field.value), query)
  }

  /** One of the seven searched fields contains the (already lower-cased) query. */
  predicate Matches(c: ToolCompensation, query: string)
  {
    || OptionalContains(c.coordinateSystem, query)
    || OptionalContains(c.tool, query)
    || OptionalContains(c.number, query)
    || Contains(ToLower(DirectionText(c.direction)), query)
    || Contains(ToLower(c.value), query)
    || Contains(ToLower(c.comment), query)
    || Contains(ToLower(c.signature), query)
  }

  /** `filteredCompensations`: the query is lower-cased but not trimmed. */
  function FilterCompensations(compensations: seq<ToolCompensation>, searchQuery: string): (kept: seq<ToolCompensation>)
    ensures IsSubsequence(kept, compensations)
    ensures forall i :: 0 <= i < |kept| ==> Matches(kept[i], ToLower(searchQuery))
    ensures forall i :: 0 <= i < |compensations| && Matches(compensations[i], ToLower(searchQuery)) ==>
      compensations[i] in kept
  {
    Filter(compensations, (c: ToolCompensation) => Matches(c, ToLower(searchQuery)))
  }

  function Timestamp(c: ToolCompensation): int { c.timestamp }

  /** `sortedCompensations`: the kept compensations, newest first, in a copy of the list. */
  function SortedCompensations(compensations: seq<ToolCompensation>, searchQuery: string): (shown: seq<ToolCompensation>)
    ensures multiset(shown) == multiset(FilterCompensations(compensations, searchQuery))
    ensures NewestFirst(shown, Timestamp)
  {
    SortNewestFirst(FilterCompensations(compensations, searchQuery), Timestamp)
  }

  /** An empty query keeps every compensation: the direction always contains it. */
  lemma EmptyQueryKeepsAll(compensations: seq<ToolCompensation>)
    ensures FilterCompensations(compensations, "") == compensations
  {
    forall c | c in compensations ensures Matches(c, ToLower("")) {
      EmptyIsContained(ToLower(DirectionText(c.direction)));
    }
    FilterKeepsAll(compensations, (c: ToolCompensation) => Matches(c, ToLower("")));
  }

  /** The manufacturing order is not searched: changing it never changes whether an entry is shown. */
  lemma OrderNotSearched(c: ToolCompensation, order: Option<string>, searchQuery: string)
    ensures Matches(c, ToLower(searchQuery)) <==> Matches(c.(manufacturingOrder := order), ToLower(searchQuery))
  {
  }

  /** A compensation is shown exactly when it matches the query. */
  lemma ShownIffMatches(compensations: seq<ToolCompensation>, searchQuery: string, c: ToolCompensation)
    requires c in compensations
    ensures c in SortedCompensations(compensations, searchQuery) <==> Matches(c, ToLower(searchQuery))
  {
    var kept := FilterCompensations(compensations, searchQuery);
    assert c in SortedCompensations(compensations, searchQuery) <==> c in multiset(kept);
    if c in kept {
      var i :| 0 <= i < |kept| && kept[i] == c;
    }
  }
}
