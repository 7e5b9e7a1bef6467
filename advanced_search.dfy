/** The advanced search bar: a search term, eight filters, the chips that show
    what is active, and the saved searches. */
module AdvancedSearch {
  import opened Js
  import opened Seqs
  import opened Objects

  const FilterKeys: seq<string> := ["project", "assignee", "priority", "status", "from", "to", "tags", "createdBy"]

  /** Every filter set to ''. */
  function DefaultFilters(): (r: Obj)
    ensures Keys(r) == FilterKeys
    ensures forall i :: 0 <= i < |r| ==> r[i].1 == Str("")
  {
    seq(|FilterKeys|, i requires 0 <= i < |FilterKeys| => (FilterKeys[i], Str("")))
  }

  /** `v !== ''` */
  function NotBlank(v: Value): bool
  {
    v != Str("")
  }

  /** `getActiveFilterCount` */
  function ActiveFilterCount(filters: Obj, searchTerm: string): nat
  {
    Count(Values(filters), NotBlank) + if searchTerm != "" then 1 else 0
  }

  /** The `activeFilters` flag: 1 when some filter value is not ''. */
  function ActiveFlag(filters: Obj): (r: nat)
    ensures r <= 1
    ensures r == 1 <==> exists i :: 0 <= i < |filters| && filters[i].1 != Str("")
  {
    if exists i :: 0 <= i < |filters| && filters[i].1 != Str("") then 1 else 0
  }

  lemma {:induction false} CountPositive(vs: seq<Value>)
    ensures Count(vs, NotBlank) > 0 <==> exists i :: 0 <= i < |vs| && vs[i] != Str("")
  {
    if vs != [] {
      CountPositive(vs[1..]);
      if vs[0] == Str("") {
        assert forall i :: 1 <= i < |vs| ==> vs[i] == vs[1..][i - 1];
      }
    }
  }

  /** The flag is set exactly when the count without the search term is
      positive: the search term alone never sets it, and a set flag means the
      count is at least one whatever the term. */
  lemma ActiveFlagSpec(filters: Obj, searchTerm: string)
    ensures ActiveFlag(filters) == 1 <==> ActiveFilterCount(filters, "") > 0
    ensures ActiveFlag(filters) <= ActiveFilterCount(filters, searchTerm)
  {
    CountPositive(Values(filters));
  }

  /** Cleared filters count nothing. */
  lemma ClearedCountsNothing()
    ensures ActiveFilterCount(DefaultFilters(), "") == 0
    ensures ActiveFlag(DefaultFilters()) == 0
  {
    CountPositive(Values(DefaultFilters()));
  }

  /** `{ q: term, ...filters }`, the object the debounced search sends. */
  function SearchQuery(term: string, filters: Obj): Obj
  {
    Spread([("q", Str(term))], filters)
  }

  /** The query starts with `q`; each filter is sent with its value, and `q`
      is the term unless a filter is itself named `q`. */
  lemma SearchQuerySpec(term: string, filters: Obj, k: string)
    requires WellFormed(filters)
    ensures Keys(SearchQuery(term, filters))[0] == "q"
    ensures Get(SearchQuery(term, filters), k) ==
      if k in Keys(filters) then Get(filters, k) else if k == "q" then Str(term) else Undefined
  {
    SpreadKeys([("q", Str(term))], filters);
    SpreadGet([("q", Str(term))], filters, k);
  }

  // ---------------------------------------------------------------------------
  // Chips

  /** A project or user as the pickers list them. */
  datatype Named = Named(id: string, name: string)

  datatype Chip = Chip(text: string, key: string)

  /** `list[k]` is the first entity whose id is `value`. */
  predicate FirstWithId(list: seq<Named>, value: Value, k: int)
  {
    && 0 <= k < |list|
    && Str(list[k].id) == value
    && forall j :: 0 <= j < k ==> Str(list[j].id) != value
  }

  /** `list.find(x => x._id === value)?.name || value`, as text. */
  function NameOf(list: seq<Named>, value: Value): (r: string)
    ensures (forall i :: 0 <= i < |list| ==> Str(list[i].id) != value) ==> r == ToText(value)
    ensures forall k :: FirstWithId(list, value, k) ==>
      r == if list[k].name != "" then list[k].name else ToText(value)
  {
    if list == [] then ToText(value)
    else if Str(list[0].id) == value then (if list[0].name != "" then list[0].name else ToText(value))
    else NameOf(list[1..], value)
  }

  /** The label of the chip for one truthy filter. */
  function ChipLabel(key: string, value: Value, projects: seq<Named>, users: seq<Named>): string
  {
    if key == "project" then "Project: " + NameOf(projects, value)
    else if key == "assignee" then
      (if value == Str("unassigned") then "Unassigned" else "Assignee: " + NameOf(users, value))
    else if key == "priority" then "Priority: " + ToText(value)
    else if key == "status" then "Status: " + ToText(value)
    else if key == "from" then "From: " + ToText(value)
    else if key == "to" then "To: " + ToText(value)
    else if key == "tags" then "Tags: " + ToText(value)
    else if key == "createdBy" then "Created By: " + NameOf(users, value)
    else key + ": " + ToText(value)
  }

  /** One chip per truthy filter, in key order. */
  function EntryChips(filters: Obj, projects: seq<Named>, users: seq<Named>): seq<Chip>
  {
    if filters == [] then []
    else
      var rest := EntryChips(filters[1..], projects, users);
      if Truthy(filters[0].1) then [Chip(ChipLabel(filters[0].0, filters[0].1, projects, users), filters[0].0)] + rest
      else rest
  }

  /** `filterChips`: the search chip first, then the filter chips. */
  function Chips(searchTerm: string, filters: Obj, projects: seq<Named>, users: seq<Named>): seq<Chip>
  {
    (if searchTerm != "" then [Chip("Search: \"" + searchTerm + "\"", "q")] else [])
      + EntryChips(filters, projects, users)
  }

  function IsTruthy(e: (string, Value)): bool { Truthy(e.1) }

  lemma {:induction false} EntryChipKeys(filters: Obj, projects: seq<Named>, users: seq<Named>)
    ensures var cs := EntryChips(filters, projects, users);
      var on := Filter(filters, IsTruthy);
      |cs| == |on| && forall i :: 0 <= i < |cs| ==> cs[i].key == on[i].0
  {
    if filters != [] {
      EntryChipKeys(filters[1..], projects, users);
    }
  }

  /** The chips are the search chip (key 'q') when there is a term, then one
      chip for each truthy filter, carrying its key, in the filters' order. */
  lemma ChipsSpec(searchTerm: string, filters: Obj, projects: seq<Named>, users: seq<Named>)
    ensures var cs := Chips(searchTerm, filters, projects, users);
      var on := Filter(filters, IsTruthy);
      var d := if searchTerm != "" then 1 else 0;
      && |cs| == d + |on|
      && (searchTerm != "" ==> cs[0] == Chip("Search: \"" + searchTerm + "\"", "q"))
      && forall i :: 0 <= i < |on| ==> cs[d + i].key == on[i].0
  {
    EntryChipKeys(filters, projects, users);
  }

  lemma {:induction false} StringChipCount(filters: Obj, projects: seq<Named>, users: seq<Named>)
    requires forall i :: 0 <= i < |filters| ==> filters[i].1.Str?
    ensures |EntryChips(filters, projects, users)| == Count(Values(filters), NotBlank)
  {
    if filters != [] {
      StringChipCount(filters[1..], projects, users);
      assert Values(filters)[1..] == Values(filters[1..]);
    }
  }

  /** With string filter values there is one chip per counted filter, so the
      badge count and the chips agree. */
  lemma ChipCountMatches(searchTerm: string, filters: Obj, projects: seq<Named>, users: seq<Named>)
    requires forall i :: 0 <= i < |filters| ==> filters[i].1.Str?
    ensures |Chips(searchTerm, filters, projects, users)| == ActiveFilterCount(filters, searchTerm)
  {
    StringChipCount(filters, projects, users);
  }

  /** A loaded filter set whose value is null is counted (null !== '') but
      gets no chip (null is falsy). */
  lemma NullFilterCountedWithoutChip()
    ensures |Chips("", [("status", Value.Null)], [], [])| == 0
    ensures ActiveFilterCount([("status", Value.Null)], "") == 1
  {
    assert Values([("status", Value.Null)]) == [Value.Null];
  }

  /** The chips of two runs of filters are those of each, in order. */
  lemma {:induction false} EntryChipsConcat(a: Obj, b: Obj, projects: seq<Named>, users: seq<Named>)
    ensures EntryChips(a + b, projects, users) == EntryChips(a, projects, users) + EntryChips(b, projects, users)
  {
    if a == [] {
      assert a + b == b;
    } else {
      assert (a + b)[0] == a[0] && (a + b)[1..] == a[1..] + b;
      EntryChipsConcat(a[1..], b, projects, users);
    }
  }

  /** The forEach that builds the chips, pushing front to back. */
  method FilterChips(searchTerm: string, filters: Obj, projects: seq<Named>, users: seq<Named>)
    returns (chips: seq<Chip>)
    ensures chips == Chips(searchTerm, filters, projects, users)
  {
    chips := [];
    if searchTerm != "" {
      chips := chips + [Chip("Search: \"" + searchTerm + "\"", "q")];
    }
    ghost var head := chips;
    var i := 0;
    while i < |filters|
      invariant 0 <= i <= |filters|
      invariant chips == head + EntryChips(filters[..i], projects, users)
    {
      var (key, value) := filters[i];
      assert filters[..i + 1] == filters[..i] + [filters[i]];
      EntryChipsConcat(filters[..i], [filters[i]], projects, users);
      if Truthy(value) {
        chips := chips + [Chip(ChipLabel(key, value, projects, users), key)];
      }
      i := i + 1;
    }
    assert filters[..i] == filters;
  }

  // ---------------------------------------------------------------------------
  // State

  /** What `onSaveSearch` receives. */
  datatype SearchConfig = SearchConfig(name: string, searchTerm: string, filters: Obj)

  /** A saved search as the server returns it; its term and filters may be
      missing. */
  datatype SavedSearch = SavedSearch(name: string, searchTerm: Option<string>, filters: Option<Obj>)

  /** The callbacks the bar makes to its parent, in order. */
  datatype Call = Cleared | SaveCall(config: SearchConfig) | LoadCall(saved: SavedSearch)

  class SearchBar {
    var searchTerm: string
    var filters: Obj
    var searchName: string
    var showSaveDialog: bool
    var calls: seq<Call>

    constructor()
      ensures searchTerm == "" && filters == DefaultFilters() && searchName == ""
      ensures !showSaveDialog && calls == []
    {
      searchTerm := "";
      filters := DefaultFilters();
      searchName := "";
      showSaveDialog := false;
      calls := [];
    }

    /** `handleFilterChange` */
    method ChangeFilter(key: string, value: Value)
      modifies this
      ensures filters == Set(old(filters), key, value)
      ensures Get(filters, key) == value
      ensures forall k :: k != key ==> Get(filters, k) == Get(old(filters), k)
      ensures searchTerm == old(searchTerm) && calls == old(calls)
      ensures searchName == old(searchName) && showSaveDialog == old(showSaveDialog)
    {
      filters := Set(filters, key, value);
      forall k ensures Get(filters, k) == if k == key then value else Get(old(filters), k) {
        SetGet(old(filters), key, value, k);
      }
    }

    /** `clearFilters` */
    method ClearFilters()
      modifies this
      ensures filters == DefaultFilters() && searchTerm == ""
      ensures ActiveFilterCount(filters, searchTerm) == 0
      ensures calls == old(calls) + [Cleared]
      ensures searchName == old(searchName) && showSaveDialog == old(showSaveDialog)
    {
      filters := DefaultFilters();
      searchTerm := "";
      calls := calls + [Cleared];
      ClearedCountsNothing();
    }

    /** The close button of a chip. */
    method RemoveChip(key: string)
      modifies this
      ensures key == "q" ==> searchTerm == "" && filters == old(filters)
      ensures key != "q" ==> searchTerm == old(searchTerm) && filters == Set(old(filters), key, Str(""))
      ensures forall k :: k != key ==> Get(filters, k) == Get(old(filters), k)
      ensures key != "q" && key in Keys(old(filters)) ==> Keys(filters) == Keys(old(filters))
      ensures calls == old(calls) && searchName == old(searchName) && showSaveDialog == old(showSaveDialog)
    {
      if key == "q" {
        searchTerm := "";
      } else {
        filters := Set(filters, key, Str(""));
        SetKeys(old(filters), key, Str(""));
        forall k ensures Get(filters, k) == if k == key then Str("") else Get(old(filters), k) {
          SetGet(old(filters), key, Str(""), k);
        }
      }
    }

    /** `handleSaveSearch`: a blank name does nothing. */
    method SaveSearch()
      modifies this
      ensures Trim(old(searchName)) == "" ==>
        calls == old(calls) && searchName == old(searchName) && showSaveDialog == old(showSaveDialog)
      ensures Trim(old(searchName)) != "" ==>
        && calls == old(calls) + [SaveCall(SearchConfig(old(searchName), searchTerm, filters))]
        && searchName == "" && !showSaveDialog
      ensures searchTerm == old(searchTerm) && filters == old(filters)
    {
      if Trim(searchName) == "" {
        return;
      }
      calls := calls + [SaveCall(SearchConfig(searchName, searchTerm, filters))];
      searchName := "";
      showSaveDialog := false;
    }

    /** `handleLoadSearch`: a missing term becomes '' and missing filters {}. */
    method LoadSearch(saved: SavedSearch)
      modifies this
      ensures searchTerm == (if saved.searchTerm.Some? then saved.searchTerm.value else "")
      ensures filters == (if saved.filters.Some? then saved.filters.value else [])
      ensures calls == old(calls) + [LoadCall(saved)]
      ensures searchName == old(searchName) && showSaveDialog == old(showSaveDialog)
    {
      searchTerm := if saved.searchTerm.Some? then saved.searchTerm.value else "";
      filters := if saved.filters.Some? then saved.filters.value else [];
      calls := calls + [LoadCall(saved)];
    }
  }
}
