/** `ToolChangeList`: the tool-change history, searched by a free-text query and shown newest first. */
module ToolChangeList {
  import opened Text
  import opened Seqs
  import opened Records

  /** One of the four searched fields contains the (already lower-cased) query. */
  predicate Matches(change: ToolChange, query: string)
  {
    || Contains(ToLower(change.toolNumber), query)
    || Contains(ToLower(ReasonText(change.reason)), query)
    || Contains(ToLower(change.comment), query)
    || Contains(ToLower(change.signature), query)
  }

  /** `filteredChanges`: the query is lower-cased but not trimmed. */
  function FilterChanges(changes: seq<ToolChange>, searchQuery: string): (kept: seq<ToolChange>)
    ensures IsSubsequence(kept, changes)
    ensures forall i :: 0 <= i < |kept| ==> Matches(kept[i], ToLower(searchQuery))
    ensures forall i :: 0 <= i < |changes| && Matches(changes[i], ToLower(searchQuery)) ==> changes[i] in kept
  {
    Filter(changes, (c: ToolChange) => Matches(c, ToLower(searchQuery)))
  }

  function Timestamp(c: ToolChange): int { c.timestamp }

  /** `sortedChanges`: the kept changes, newest first, in a copy of the list. */
  function SortedChanges(changes: seq<ToolChange>, searchQuery: string): (shown: seq<ToolChange>)
    ensures multiset(shown) == multiset(FilterChanges(changes, searchQuery))
    ensures NewestFirst(shown, Timestamp)
  {
    SortNewestFirst(FilterChanges(changes, searchQuery), Timestamp)
  }

  /** An empty query keeps every change. */
  lemma EmptyQueryKeepsAll(changes: seq<ToolChange>)
    ensures FilterChanges(changes, "") == changes
  {
    forall c | c in changes ensures Matches(c, ToLower("")) {
      EmptyIsContained(ToLower(c.toolNumber));
    }
    FilterKeepsAll(changes, (c: ToolChange) => Matches(c, ToLower("")));
  }

  /** A change is shown exactly when it matches the query. */
  lemma ShownIffMatches(changes: seq<ToolChange>, searchQuery: string, c: ToolChange)
    requires c in changes
    ensures c in SortedChanges(changes, searchQuery) <==> Matches(c, ToLower(searchQuery))
  {
    var kept := FilterChanges(changes, searchQuery);
    assert c in SortedChanges(changes, searchQuery) <==> c in multiset(kept);
    if c in kept {
      var i :| 0 <= i < |kept| && kept[i] == c;
    }
  }
}
