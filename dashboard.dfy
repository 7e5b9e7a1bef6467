/** The dashboard's bug list: three filters, the sort picker and the four stat
    cards computed from the sorted list. */
module Dashboard {
  import opened Js
  import opened Seqs
  import opened Sorting
  import opened Priority

  /** `createdAt` is a timestamp in milliseconds. */
  datatype Bug = Bug(id: string, status: string, priority: string, project: Ref, createdAt: int)

  /** The view's filter and sort state. `searchTerm` is bound to the search
      box, which no expression of the list reads. */
  datatype View = View(filterStatus: string, filterPriority: string, projectFilter: string, sortBy: string, searchTerm: string)

  function StatusPass(status: string): Bug -> bool
  {
    (b: Bug) => status != "" ==> b.status == status
  }

  function PriorityPass(priority: string): Bug -> bool
  {
    (b: Bug) => priority != "" ==> b.priority == priority
  }

  function ProjectPass(project: string): Bug -> bool
  {
    (b: Bug) => project != "" ==> RefKey(b.project) == project
  }

  /** `filteredBugs` */
  function FilteredBugs(bugs: seq<Bug>, v: View): seq<Bug>
  {
    Filter(Filter(Filter(bugs, StatusPass(v.filterStatus)), PriorityPass(v.filterPriority)), ProjectPass(v.projectFilter))
  }

  /** The filtered list keeps, in order, the bugs passing every non-empty
      filter. */
  lemma FilteredSpec(bugs: seq<Bug>, v: View)
    ensures IsSubseq(FilteredBugs(bugs, v), bugs)
    ensures forall b :: b in FilteredBugs(bugs, v) <==>
      b in bugs && StatusPass(v.filterStatus)(b) && PriorityPass(v.filterPriority)(b) && ProjectPass(v.projectFilter)(b)
  {
    var a := Filter(bugs, StatusPass(v.filterStatus));
    var c := Filter(a, PriorityPass(v.filterPriority));
    var e := Filter(c, ProjectPass(v.projectFilter));
    FilterSpec(bugs, StatusPass(v.filterStatus));
    FilterSpec(a, PriorityPass(v.filterPriority));
    FilterSpec(c, ProjectPass(v.projectFilter));
    SubseqTrans(c, a, bugs);
    SubseqTrans(e, c, bugs);
  }

  /** With all three filters empty every bug is listed. */
  lemma NoFiltersShowAll(bugs: seq<Bug>, v: View)
    requires v.filterStatus == "" && v.filterPriority == "" && v.projectFilter == ""
    ensures FilteredBugs(bugs, v) == bugs
  {
    FilterAll(bugs, StatusPass(v.filterStatus));
    FilterAll(bugs, PriorityPass(v.filterPriority));
    FilterAll(bugs, ProjectPass(v.projectFilter));
  }

  /** The project filter accepts a bug whose project is the raw id and one
      whose project is populated with that id. */
  lemma ProjectFilterMatchesBoth(id: string, b: Bug)
    requires id != ""
    ensures b.project == Id(id) ==> ProjectPass(id)(b)
    ensures b.project == Object(id) ==> ProjectPass(id)(b)
    ensures b.project.Id? || b.project.Object? ==> (ProjectPass(id)(b) <==> RefKey(b.project) == id)
  {
  }

  /** The sort picker's comparator. */
  function Compare(sortBy: string): (Bug, Bug) -> int
  {
    (a: Bug, b: Bug) =>
      if sortBy == "newest" then b.createdAt - a.createdAt
      else if sortBy == "oldest" then a.createdAt - b.createdAt
      else if sortBy == "priority" then RankDiff(a.priority, b.priority)
      else 0
  }

  /** `sortedBugs` */
  function SortedBugs(bugs: seq<Bug>, v: View): seq<Bug>
  {
    SortBy(FilteredBugs(bugs, v), Compare(v.sortBy))
  }

  /** The sorted list is a permutation of the filtered one; an unknown sort
      keeps the filtered order; the search term plays no part. */
  lemma SortedSpec(bugs: seq<Bug>, v: View, term: string)
    ensures multiset(SortedBugs(bugs, v)) == multiset(FilteredBugs(bugs, v))
    ensures v.sortBy !in {"newest", "oldest", "priority"} ==> SortedBugs(bugs, v) == FilteredBugs(bugs, v)
    ensures SortedBugs(bugs, v.(searchTerm := term)) == SortedBugs(bugs, v)
  {
    SortPerm(FilteredBugs(bugs, v), Compare(v.sortBy));
    if v.sortBy !in {"newest", "oldest", "priority"} {
      SortAllTied(FilteredBugs(bugs, v), Compare(v.sortBy));
    }
  }

  /** 'newest' puts later bugs first, 'oldest' earlier bugs first. */
  lemma SortedByDate(bugs: seq<Bug>, v: View)
    requires v.sortBy == "newest" || v.sortBy == "oldest"
    ensures var s := SortedBugs(bugs, v);
      forall i, j :: 0 <= i < j < |s| ==>
        if v.sortBy == "newest" then s[i].createdAt >= s[j].createdAt else s[i].createdAt <= s[j].createdAt
  {
    var f := FilteredBugs(bugs, v);
    SortSorted(f, Compare(v.sortBy), set b | b in f);
  }

  /** With every priority known, 'priority' puts High before Medium before Low. */
  lemma SortedByPriority(bugs: seq<Bug>, v: View)
    requires v.sortBy == "priority"
    requires forall i :: 0 <= i < |bugs| ==> Rank(bugs[i].priority).Some?
    ensures var s := SortedBugs(bugs, v);
      forall i, j :: 0 <= i < j < |s| ==>
        && Rank(s[i].priority).Some? && Rank(s[j].priority).Some?
        && Rank(s[i].priority).value <= Rank(s[j].priority).value
  {
    var f := FilteredBugs(bugs, v);
    FilteredSpec(bugs, v);
    forall i | 0 <= i < |f| ensures Rank(f[i].priority).Some? {
      assert f[i] in bugs;
    }
    var s := SortedBugs(bugs, v);
    assert s == SortBy(f, Compare("priority"));
    SortKnownRanks(f, s);
  }

  /** Sorting bugs whose priorities are all known orders them by rank. */
  lemma SortKnownRanks(f: seq<Bug>, s: seq<Bug>)
    requires forall i :: 0 <= i < |f| ==> Rank(f[i].priority).Some?
    requires s == SortBy(f, Compare("priority"))
    ensures forall i :: 0 <= i < |s| ==> Rank(s[i].priority).Some?
    ensures forall i, j :: 0 <= i < j < |s| ==> Rank(s[i].priority).value <= Rank(s[j].priority).value
  {
    var cmp := Compare("priority");
    var d := set b | b in f;
    PriorityOrdering(d);
    SortSorted(f, cmp, d);
    SortPerm(f, cmp);
    forall i | 0 <= i < |s| ensures Rank(s[i].priority).Some? {
      assert s[i] in multiset(f);
    }
    RanksInOrder(s);
  }

  lemma RanksInOrder(s: seq<Bug>)
    requires SortedBy(s, Compare("priority"))
    requires forall i :: 0 <= i < |s| ==> Rank(s[i].priority).Some?
    ensures forall i, j :: 0 <= i < j < |s| ==> Rank(s[i].priority).value <= Rank(s[j].priority).value
  {
    forall i, j | 0 <= i < j < |s| ensures Rank(s[i].priority).value <= Rank(s[j].priority).value {
      assert RankDiff(s[i].priority, s[j].priority) == Compare("priority")(s[i], s[j]) <= 0;
    }
  }

  lemma PriorityOrdering(d: set<Bug>)
    requires forall b :: b in d ==> Rank(b.priority).Some?
    ensures OrderingOn(Compare("priority"), d)
  {
  }

  // ---------------------------------------------------------------------------
  // Stat cards

  function HasStatus(status: string): Bug -> bool
  {
    (b: Bug) => b.status == status
  }

  function HasPriority(priority: string): Bug -> bool
  {
    (b: Bug) => b.priority == priority
  }

  datatype Stats = Stats(total: nat, open: nat, closed: nat, high: nat)

  /** `totalBugs`, `openBugs`, `closedBugs` and `highPriorityBugs`. */
  function StatsOf(sorted: seq<Bug>): Stats
  {
    Stats(|sorted|, Count(sorted, HasStatus("Open")), Count(sorted, HasStatus("Closed")),
      Count(sorted, HasPriority("High")))
  }

  lemma {:induction false} DisjointCounts(s: seq<Bug>)
    ensures Count(s, HasStatus("Open")) + Count(s, HasStatus("Closed")) <= |s|
  {
    if s != [] {
      DisjointCounts(s[1..]);
    }
  }

  /** The cards describe the filtered list whatever the sort: the total is its
      length, the counts are those of the filtered list, and open and closed
      bugs never add up to more than the total. */
  lemma StatsSpec(bugs: seq<Bug>, v: View)
    ensures var st := StatsOf(SortedBugs(bugs, v));
      && st.total == |FilteredBugs(bugs, v)|
      && st.open == Count(FilteredBugs(bugs, v), HasStatus("Open"))
      && st.closed == Count(FilteredBugs(bugs, v), HasStatus("Closed"))
      && st.high == Count(FilteredBugs(bugs, v), HasPriority("High"))
      && st.open + st.closed <= st.total
      && st.high <= st.total
  {
    var f := FilteredBugs(bugs, v);
    var s := SortedBugs(bugs, v);
    SortedSpec(bugs, v, v.searchTerm);
    assert |s| == |multiset(s)| == |multiset(f)| == |f|;
    CountPerm(s, f, HasStatus("Open"));
    CountPerm(s, f, HasStatus("Closed"));
    CountPerm(s, f, HasPriority("High"));
    DisjointCounts(s);
  }
}
