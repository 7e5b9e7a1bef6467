/** The projects table: search, column sort, favourites, row selection and the
    archive request's loading marks. */
module ProjectTable {
  import opened Js
  import opened Seqs
  import opened Sorting

  /** A project row. `members` is `members?.length` (None when the list is
      missing), `totalBugs` None when null or missing, `createdAt` a timestamp,
      None when missing. */
  datatype Project = Project(
    id: string, name: string, description: Option<string>, status: Option<string>,
    members: Option<nat>, totalBugs: Option<int>, createdAt: Option<int>)

  /** The sortable columns in header order; 'description' is listed but the
      comparator has no case for it. */
  const Columns: seq<string> := ["name", "description", "status", "members", "bugs", "createdAt"]

  // ---------------------------------------------------------------------------
  // Search

  function NameOrDescription(q: string): Project -> bool
  {
    (p: Project) => Includes(Lower(p.name), q) || Includes(Lower(OrEmpty(p.description)), q)
  }

  /** `p.description || ''` */
  function OrEmpty(v: Option<string>): string
  {
    if v.Some? then v.value else ""
  }

  /** `filteredProjects` */
  function Filtered(projects: seq<Project>, filter: string): seq<Project>
  {
    Filter(projects, NameOrDescription(Lower(filter)))
  }

  /** The search keeps, in order, the projects whose lower-cased name or
      description contains the lower-cased query, whatever the query's case;
      an empty query keeps them all. */
  lemma FilteredSpec(projects: seq<Project>, filter: string)
    ensures IsSubseq(Filtered(projects, filter), projects)
    ensures forall p :: p in Filtered(projects, filter) <==>
      p in projects && (Includes(Lower(p.name), Lower(filter)) || Includes(Lower(OrEmpty(p.description)), Lower(filter)))
    ensures Filtered(projects, Lower(filter)) == Filtered(projects, filter)
    ensures Filtered(projects, "") == projects
  {
    FilterSpec(projects, NameOrDescription(Lower(filter)));
    LowerTwice(filter);
    forall i | 0 <= i < |projects| ensures NameOrDescription(Lower(""))(projects[i]) {
      IncludesEmpty(Lower(projects[i].name));
    }
    FilterAll(projects, NameOrDescription(Lower("")));
  }

  // ---------------------------------------------------------------------------
  // Sort

  /** The value a column sorts by: a string or a number. */
  datatype Key = Text(s: string) | Number(n: int)

  /** `aValue` for the sort column. */
  function KeyOf(p: Project, sortBy: string): Key
  {
    if sortBy == "name" then Text(Lower(p.name))
    else if sortBy == "status" then Text(Lower(if p.status.Some? && p.status.value != "" then p.status.value else "Active"))
    else if sortBy == "members" then Number(if p.members.Some? then p.members.value else 0)
    else if sortBy == "bugs" then Number(if p.totalBugs.Some? then p.totalBugs.value else 0)
    else if sortBy == "createdAt" then Number(if p.createdAt.Some? && p.createdAt.value != 0 then p.createdAt.value else 0)
    else Text("")
  }

  /** `aValue < bValue` on two keys of the same column. */
  predicate KeyLess(x: Key, y: Key)
  {
    match (x, y)
    case (Text(a), Text(b)) => StrLess(a, b)
    case (Number(a), Number(b)) => a < b
    case _ => false
  }

  /** The comparator: -1/1 for a strictly smaller key by direction, 0 for
      equal keys. Any direction other than 'asc' sorts descending. */
  function Compare(sortBy: string, sortDir: string): (Project, Project) -> int
  {
    (a: Project, b: Project) =>
      if KeyLess(KeyOf(a, sortBy), KeyOf(b, sortBy)) then (if sortDir == "asc" then -1 else 1)
      else if KeyLess(KeyOf(b, sortBy), KeyOf(a, sortBy)) then (if sortDir == "asc" then 1 else -1)
      else 0
  }

  /** `sortedProjects` */
  function Sorted(filtered: seq<Project>, sortBy: string, sortDir: string): seq<Project>
  {
    SortBy(filtered, Compare(sortBy, sortDir))
  }

  lemma KeyLessTrichotomy(x: Key, y: Key)
    requires x.Text? == y.Text?
    ensures KeyLess(x, y) ==> !KeyLess(y, x) && x != y
    ensures x != y ==> KeyLess(x, y) || KeyLess(y, x)
  {
    if x.Text? {
      StrLessTrichotomy(x.s, y.s);
    }
  }

  /** The keys of one column are all strings or all numbers. */
  lemma SameKind(a: Project, b: Project, sortBy: string)
    ensures KeyOf(a, sortBy).Text? == KeyOf(b, sortBy).Text?
  {
  }

  /** 'desc' is 'asc' with the sign flipped. */
  lemma DescNegatesAsc(sortBy: string, a: Project, b: Project)
    ensures Compare(sortBy, "desc")(a, b) == -Compare(sortBy, "asc")(a, b)
  {
    SameKind(a, b, sortBy);
    KeyLessTrichotomy(KeyOf(a, sortBy), KeyOf(b, sortBy));
  }

  /** The comparator is a consistent ordering for every column and direction. */
  lemma CompareOrdering(sortBy: string, sortDir: string, d: set<Project>)
    ensures OrderingOn(Compare(sortBy, sortDir), d)
  {
    var cmp := Compare(sortBy, sortDir);
    forall a, b | a in d && b in d ensures cmp(a, b) < 0 <==> cmp(b, a) > 0 {
      SameKind(a, b, sortBy);
      KeyLessTrichotomy(KeyOf(a, sortBy), KeyOf(b, sortBy));
    }
    forall a, b, c | a in d && b in d && c in d && cmp(a, b) <= 0 && cmp(b, c) <= 0
      ensures cmp(a, c) <= 0
    {
      var x, y, z := KeyOf(a, sortBy), KeyOf(b, sortBy), KeyOf(c, sortBy);
      SameKind(a, b, sortBy);
      SameKind(b, c, sortBy);
      KeyLessTrichotomy(x, y);
      KeyLessTrichotomy(y, z);
      KeyLessTrichotomy(x, z);
      if sortDir == "asc" {
        KeyTransitive(z, y, x);
      } else {
        KeyTransitive(x, y, z);
      }
    }
  }

  /** "not after" chains: if x is not above y and y not above z, x is not above z. */
  lemma KeyTransitive(x: Key, y: Key, z: Key)
    requires x.Text? == y.Text? == z.Text?
    requires !KeyLess(x, y) && !KeyLess(y, z)
    ensures !KeyLess(x, z)
  {
    if x.Text? {
      StrLessTrichotomy(x.s, y.s);
      StrLessTrichotomy(y.s, z.s);
      StrLessTrichotomy(x.s, z.s);
      if y.s != x.s && z.s != y.s {
        StrLessTransitive(z.s, y.s, x.s);
      }
    }
  }

  /** The sorted list is a permutation of the filtered one in comparator
      order; a column without a case (such as 'description') keeps the
      filtered order. */
  lemma SortedSpec(filtered: seq<Project>, sortBy: string, sortDir: string)
    ensures multiset(Sorted(filtered, sortBy, sortDir)) == multiset(filtered)
    ensures SortedBy(Sorted(filtered, sortBy, sortDir), Compare(sortBy, sortDir))
    ensures sortBy !in {"name", "status", "members", "bugs", "createdAt"} ==>
      Sorted(filtered, sortBy, sortDir) == filtered
  {
    var cmp := Compare(sortBy, sortDir);
    SortPerm(filtered, cmp);
    CompareOrdering(sortBy, sortDir, set p | p in filtered);
    SortSorted(filtered, cmp, set p | p in filtered);
    if sortBy !in {"name", "status", "members", "bugs", "createdAt"} {
      SortAllTied(filtered, cmp);
    }
  }

  /** A missing status sorts as 'Active', missing members and bug totals as 0,
      and a missing creation date as the epoch. */
  lemma MissingValuesDefault(p: Project)
    ensures KeyOf(p.(status := None), "status") == KeyOf(p.(status := Some("active")), "status")
    ensures KeyOf(p.(members := None), "members") == KeyOf(p.(members := Some(0)), "members")
    ensures KeyOf(p.(totalBugs := None), "bugs") == KeyOf(p.(totalBugs := Some(0)), "bugs")
    ensures KeyOf(p.(createdAt := None), "createdAt") == KeyOf(p.(createdAt := Some(0)), "createdAt")
  {
    var a, b := Lower("Active"), Lower("active");
    assert a[0] == b[0] == 'a';
    assert a == b;
  }

  function ProjectId(x: Project): string
  {
    x.id
  }

  /** How the archive request settled. */
  datatype ArchiveOutcome = Archived | Refused(message: Option<string>) | ArchiveThrew

  // ---------------------------------------------------------------------------
  // The table state

  class Table {
    var projects: seq<Project>
    var filter: string
    var sortBy: string
    var sortDir: string
    var favoriteIds: seq<string>
    var selectedIds: seq<string>
    var archiveLoadingIds: seq<string>
    var archiveError: string

    constructor(projects: seq<Project>)
      ensures this.projects == projects && filter == "" && sortBy == "name" && sortDir == "asc"
      ensures favoriteIds == [] && selectedIds == [] && archiveLoadingIds == [] && archiveError == ""
    {
      this.projects := projects;
      filter := "";
      sortBy := "name";
      sortDir := "asc";
      favoriteIds := [];
      selectedIds := [];
      archiveLoadingIds := [];
      archiveError := "";
    }

    function SortedProjects(): seq<Project>
      reads this
    {
      Sorted(Filtered(projects, filter), sortBy, sortDir)
    }

    /** The header checkbox. */
    predicate HeaderChecked()
      reads this
    {
      |selectedIds| == |SortedProjects()| && |SortedProjects()| > 0
    }

    /** `handleSort`: the same column flips the direction, another column is
        selected ascending. */
    method Sort(col: string)
      modifies this
      ensures old(sortBy) == col ==> sortBy == col && sortDir == (if old(sortDir) == "asc" then "desc" else "asc")
      ensures old(sortBy) != col ==> sortBy == col && sortDir == "asc"
      ensures projects == old(projects) && filter == old(filter) && favoriteIds == old(favoriteIds)
      ensures selectedIds == old(selectedIds) && archiveLoadingIds == old(archiveLoadingIds)
      ensures archiveError == old(archiveError)
    {
      if sortBy == col {
        sortDir := if sortDir == "asc" then "desc" else "asc";
      } else {
        sortBy := col;
        sortDir := "asc";
      }
    }

    method Favorite(id: string)
      modifies this
      ensures favoriteIds == Toggle(old(favoriteIds), id)
      ensures projects == old(projects) && filter == old(filter) && sortBy == old(sortBy) && sortDir == old(sortDir)
      ensures selectedIds == old(selectedIds) && archiveLoadingIds == old(archiveLoadingIds)
      ensures archiveError == old(archiveError)
    {
      favoriteIds := Toggle(favoriteIds, id);
    }

    method SelectRow(id: string)
      modifies this
      ensures selectedIds == Toggle(old(selectedIds), id)
      ensures projects == old(projects) && filter == old(filter) && sortBy == old(sortBy) && sortDir == old(sortDir)
      ensures favoriteIds == old(favoriteIds) && archiveLoadingIds == old(archiveLoadingIds)
      ensures archiveError == old(archiveError)
    {
      selectedIds := Toggle(selectedIds, id);
    }

    /** `handleSelectAll`: the ids of the shown rows in their order, or none;
        checking it with rows shown checks the header box. */
    method SelectAll(checked: bool)
      modifies this
      ensures selectedIds == if checked then Map(SortedProjects(), ProjectId) else []
      ensures checked && SortedProjects() != [] ==> HeaderChecked()
      ensures !checked ==> !HeaderChecked()
      ensures projects == old(projects) && filter == old(filter) && sortBy == old(sortBy) && sortDir == old(sortDir)
      ensures favoriteIds == old(favoriteIds) && archiveLoadingIds == old(archiveLoadingIds)
      ensures archiveError == old(archiveError)
    {
      if checked {
        selectedIds := Map(SortedProjects(), ProjectId);
      } else {
        selectedIds := [];
      }
    }

    /** The start of `handleArchive`: the row is marked as loading. */
    method BeginArchive(id: string)
      modifies this
      ensures archiveLoadingIds == old(archiveLoadingIds) + [id] && id in archiveLoadingIds
      ensures archiveError == ""
      ensures projects == old(projects) && filter == old(filter) && sortBy == old(sortBy) && sortDir == old(sortDir)
      ensures favoriteIds == old(favoriteIds) && selectedIds == old(selectedIds)
    {
      archiveLoadingIds := archiveLoadingIds + [id];
      archiveError := "";
    }

    /** The end of `handleArchive`: the error for the outcome, and the `finally`
        that unmarks the row whatever the outcome. An accepted request also
        reloads the page, which is not modelled. */
    method FinishArchive(id: string, outcome: ArchiveOutcome)
      modifies this
      ensures archiveLoadingIds == Filter(old(archiveLoadingIds), NotEqual(id))
      ensures id !in archiveLoadingIds
      ensures forall x :: x in archiveLoadingIds <==> x in old(archiveLoadingIds) && x != id
      ensures archiveError == match outcome
        case Archived => old(archiveError)
        case Refused(m) => if m.Some? && m.value != "" then m.value else "Failed to update archive status."
        case ArchiveThrew => "An unexpected error occurred."
      ensures projects == old(projects) && filter == old(filter) && sortBy == old(sortBy) && sortDir == old(sortDir)
      ensures favoriteIds == old(favoriteIds) && selectedIds == old(selectedIds)
    {
      match outcome {
        case Archived =>
        case Refused(m) =>
          archiveError := if m.Some? && m.value != "" then m.value else "Failed to update archive status.";
        case ArchiveThrew =>
          archiveError := "An unexpected error occurred.";
      }
      archiveLoadingIds := Filter(archiveLoadingIds, NotEqual(id));
      FilterSpec(old(archiveLoadingIds), NotEqual(id));
    }
  }
}
