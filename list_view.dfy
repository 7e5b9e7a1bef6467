/** The ticket list of a project: the six chained filters and the sort behind
    the table, row selection, saved filters, and the CSV import loop. */
module ListView {
  import opened Js
  import opened Seqs
  import opened Sorting
  import opened Priority

  /** `createdAt` is a timestamp in milliseconds. */
  datatype Ticket = Ticket(
    id: string, title: Option<string>, description: Option<string>,
    status: string, priority: string, assignee: Ref, createdAt: int)

  /** The filter state; an empty string means "no filter". The two dates are
      the instants the inputs denote, None for an empty input: `dateTo` is
      already the last millisecond of its day. */
  datatype Filters = Filters(
    status: string, priority: string, assignee: string, search: string,
    dateFrom: Option<int>, dateTo: Option<int>)

  const NoFilters: Filters := Filters("", "", "", "", None, None)

  predicate StatusPass(f: Filters, t: Ticket) { f.status != "" ==> t.status == f.status }
  predicate PriorityPass(f: Filters, t: Ticket) { f.priority != "" ==> t.priority == f.priority }
  predicate AssigneePass(f: Filters, t: Ticket) { f.assignee != "" ==> RefKey(t.assignee) == f.assignee }

  /** `t.title?.toLowerCase().includes(q) || t.description?.toLowerCase().includes(q)` */
  predicate FieldMatches(field: Option<string>, q: string)
  {
    field.Some? && Includes(Lower(field.value), q)
  }

  predicate SearchPass(f: Filters, t: Ticket)
  {
    f.search != "" ==> FieldMatches(t.title, Lower(f.search)) || FieldMatches(t.description, Lower(f.search))
  }

  predicate FromPass(f: Filters, t: Ticket) { f.dateFrom.Some? ==> t.createdAt >= f.dateFrom.value }
  predicate ToPass(f: Filters, t: Ticket) { f.dateTo.Some? ==> t.createdAt <= f.dateTo.value }

  /** Every filter together. */
  predicate Passes(f: Filters, t: Ticket)
  {
    StatusPass(f, t) && PriorityPass(f, t) && AssigneePass(f, t) && SearchPass(f, t) && FromPass(f, t) && ToPass(f, t)
  }

  /** `filtered`: the six `.filter` calls in their order. */
  function Filtered(tickets: seq<Ticket>, f: Filters): seq<Ticket>
  {
    var a := Filter(tickets, (t: Ticket) => StatusPass(f, t));
    var b := Filter(a, (t: Ticket) => PriorityPass(f, t));
    var c := Filter(b, (t: Ticket) => AssigneePass(f, t));
    var d := Filter(c, (t: Ticket) => SearchPass(f, t));
    var e := Filter(d, (t: Ticket) => FromPass(f, t));
    Filter(e, (t: Ticket) => ToPass(f, t))
  }

  /** The filtered list keeps, in their order, exactly the tickets that pass
      every filter. */
  lemma FilteredSpec(tickets: seq<Ticket>, f: Filters)
    ensures IsSubseq(Filtered(tickets, f), tickets)
    ensures forall t :: t in Filtered(tickets, f) <==> t in tickets && Passes(f, t)
  {
    var a := Filter(tickets, (t: Ticket) => StatusPass(f, t));
    var b := Filter(a, (t: Ticket) => PriorityPass(f, t));
    var c := Filter(b, (t: Ticket) => AssigneePass(f, t));
    var d := Filter(c, (t: Ticket) => SearchPass(f, t));
    var e := Filter(d, (t: Ticket) => FromPass(f, t));
    var g := Filter(e, (t: Ticket) => ToPass(f, t));
    FilterSpec(tickets, (t: Ticket) => StatusPass(f, t));
    FilterSpec(a, (t: Ticket) => PriorityPass(f, t));
    FilterSpec(b, (t: Ticket) => AssigneePass(f, t));
    FilterSpec(c, (t: Ticket) => SearchPass(f, t));
    FilterSpec(d, (t: Ticket) => FromPass(f, t));
    FilterSpec(e, (t: Ticket) => ToPass(f, t));
    SubseqTrans(b, a, tickets);
    SubseqTrans(c, b, tickets);
    SubseqTrans(d, c, tickets);
    SubseqTrans(e, d, tickets);
    SubseqTrans(g, e, tickets);
  }

  /** With every filter empty the list is shown in full. */
  lemma NoFiltersShowAll(tickets: seq<Ticket>)
    ensures Filtered(tickets, NoFilters) == tickets
  {
    var f := NoFilters;
    FilterAll(tickets, (t: Ticket) => StatusPass(f, t));
    FilterAll(tickets, (t: Ticket) => PriorityPass(f, t));
    FilterAll(tickets, (t: Ticket) => AssigneePass(f, t));
    FilterAll(tickets, (t: Ticket) => SearchPass(f, t));
    FilterAll(tickets, (t: Ticket) => FromPass(f, t));
    FilterAll(tickets, (t: Ticket) => ToPass(f, t));
  }

  /** The search ignores the case of the query and of the ticket's text. */
  lemma SearchIgnoresCase(f: Filters, t: Ticket)
    ensures SearchPass(f, t) == SearchPass(f.(search := Lower(f.search)), t)
    ensures t.title.Some? ==> SearchPass(f, t) == SearchPass(f, t.(title := Some(Lower(t.title.value))))
    ensures t.description.Some? ==>
      SearchPass(f, t) == SearchPass(f, t.(description := Some(Lower(t.description.value))))
  {
    LowerTwice(f.search);
    if t.title.Some? {
      LowerTwice(t.title.value);
    }
    if t.description.Some? {
      LowerTwice(t.description.value);
    }
  }

  // ---------------------------------------------------------------------------
  // Sorting

  /** `new Date(b.createdAt) - new Date(a.createdAt)` for 'desc', the reverse
      for 'asc'. */
  function DateCompare(desc: bool): (Ticket, Ticket) -> int
  {
    (a: Ticket, b: Ticket) => if desc then b.createdAt - a.createdAt else a.createdAt - b.createdAt
  }

  /** The priority comparator: `order[a] - order[b]` for 'desc', the reverse
      for 'asc'. */
  function PriorityCompare(desc: bool): (Ticket, Ticket) -> int
  {
    (a: Ticket, b: Ticket) => if desc then RankDiff(a.priority, b.priority) else RankDiff(b.priority, a.priority)
  }

  function Comparator(sortBy: string, sortOrder: string): (Ticket, Ticket) -> int
  {
    if sortBy == "createdAt" then DateCompare(sortOrder == "desc")
    else if sortBy == "priority" then PriorityCompare(sortOrder == "desc")
    else (a: Ticket, b: Ticket) => 0
  }

  /** `sorted` */
  function Sorted(filtered: seq<Ticket>, sortBy: string, sortOrder: string): seq<Ticket>
  {
    SortBy(filtered, Comparator(sortBy, sortOrder))
  }

  ghost function Elements(s: seq<Ticket>): set<Ticket>
  {
    set t | t in s
  }

  /** The sorted list is a permutation of the filtered one, and any key other
      than the two known ones keeps the filtered order. */
  lemma SortedSpec(filtered: seq<Ticket>, sortBy: string, sortOrder: string)
    ensures multiset(Sorted(filtered, sortBy, sortOrder)) == multiset(filtered)
    ensures sortBy != "createdAt" && sortBy != "priority" ==> Sorted(filtered, sortBy, sortOrder) == filtered
  {
    SortPerm(filtered, Comparator(sortBy, sortOrder));
    if sortBy != "createdAt" && sortBy != "priority" {
      SortAllTied(filtered, Comparator(sortBy, sortOrder));
    }
  }

  /** Sorting by date orders the list newest first for 'desc' and oldest first
      otherwise. */
  lemma SortedByDate(filtered: seq<Ticket>, sortOrder: string)
    ensures var s := Sorted(filtered, "createdAt", sortOrder);
      forall i, j :: 0 <= i < j < |s| ==>
        if sortOrder == "desc" then s[i].createdAt >= s[j].createdAt else s[i].createdAt <= s[j].createdAt
  {
    var cmp := DateCompare(sortOrder == "desc");
    SortSorted(filtered, cmp, Elements(filtered));
  }

  /** With every priority known, 'desc' puts High before Medium before Low and
      'asc' the other way round. */
  lemma SortedByPriority(filtered: seq<Ticket>, sortOrder: string)
    requires forall i :: 0 <= i < |filtered| ==> Rank(filtered[i].priority).Some?
    ensures var s := Sorted(filtered, "priority", sortOrder);
      forall i, j :: 0 <= i < j < |s| ==>
        && Rank(s[i].priority).Some? && Rank(s[j].priority).Some?
        && if sortOrder == "desc" then Rank(s[i].priority).value <= Rank(s[j].priority).value
           else Rank(s[i].priority).value >= Rank(s[j].priority).value
  {
    SortKnownRanks(filtered, sortOrder == "desc", Sorted(filtered, "priority", sortOrder));
  }

  /** Sorting tickets whose priorities are all known orders them by rank, in
      the direction asked for. */
  lemma SortKnownRanks(f: seq<Ticket>, desc: bool, s: seq<Ticket>)
    requires forall i :: 0 <= i < |f| ==> Rank(f[i].priority).Some?
    requires s == SortBy(f, PriorityCompare(desc))
    ensures forall i :: 0 <= i < |s| ==> Rank(s[i].priority).Some?
    ensures forall i, j :: 0 <= i < j < |s| ==>
      if desc then Rank(s[i].priority).value <= Rank(s[j].priority).value
      else Rank(s[i].priority).value >= Rank(s[j].priority).value
  {
    var cmp := PriorityCompare(desc);
    var d := Elements(f);
    PriorityOrdering(desc, d);
    SortSorted(f, cmp, d);
    SortPerm(f, cmp);
    forall i | 0 <= i < |s| ensures Rank(s[i].priority).Some? {
      assert s[i] in multiset(f);
    }
    forall i, j | 0 <= i < j < |s|
      ensures if desc then Rank(s[i].priority).value <= Rank(s[j].priority).value
              else Rank(s[i].priority).value >= Rank(s[j].priority).value
    {
      assert cmp(s[i], s[j]) <= 0;
    }
  }

  lemma PriorityOrdering(desc: bool, d: set<Ticket>)
    requires forall t :: t in d ==> Rank(t.priority).Some?
    ensures OrderingOn(PriorityCompare(desc), d)
  {
  }

  // ---------------------------------------------------------------------------
  // Selection

  predicate AllSelected(tickets: seq<Ticket>, sel: seq<string>)
  {
    |tickets| > 0 && |sel| == |tickets|
  }

  predicate SomeSelected(tickets: seq<Ticket>, sel: seq<string>)
  {
    |sel| > 0 && |sel| < |tickets|
  }

  function TicketId(x: Ticket): string
  {
    x.id
  }

  /** The header checkbox is never both checked and indeterminate; selecting
      all from anything but a full selection checks it, and from a full one
      clears it. */
  lemma SelectAllSpec(tickets: seq<Ticket>, sel: seq<string>)
    ensures !(AllSelected(tickets, sel) && SomeSelected(tickets, sel))
    ensures AllSelected(tickets, sel) ==> SelectAllIds(tickets, sel) == []
    ensures !AllSelected(tickets, sel) ==> SelectAllIds(tickets, sel) == Map(tickets, TicketId)
    ensures tickets != [] ==> AllSelected(tickets, SelectAllIds(tickets, sel)) != AllSelected(tickets, sel)
  {
  }

  /** `handleSelectAll` */
  function SelectAllIds(tickets: seq<Ticket>, sel: seq<string>): seq<string>
  {
    if AllSelected(tickets, sel) then [] else Map(tickets, TicketId)
  }

  // ---------------------------------------------------------------------------
  // Saved filters

  /** A saved filter: a name and the filter and sort state it restores. */
  datatype SavedFilter = SavedFilter(name: string, filters: Filters, sortBy: string, sortOrder: string)

  /** `s.filter((_, i) => i !== idx)` */
  function RemoveAt<T>(s: seq<T>, idx: int): (r: seq<T>)
    ensures 0 <= idx < |s| ==> r == s[..idx] + s[idx + 1..]
    ensures !(0 <= idx < |s|) ==> r == s
  {
    if s == [] then []
    else if idx == 0 then s[1..]
    else [s[0]] + RemoveAt(s[1..], idx - 1)
  }

  // ---------------------------------------------------------------------------
  // CSV import

  /** A parsed CSV row; a column the file lacks is None. */
  datatype Row = Row(
    title: Option<string>, status: Option<string>, priority: Option<string>,
    assignee: Option<string>, description: Option<string>)

  datatype User = User(id: string, name: Option<string>, email: Option<string>)

  /** The body posted for one row. */
  datatype NewBug = NewBug(
    title: string, status: string, priority: string,
    assignedTo: Option<string>, project: string, description: string)

  /** `users[k]` is the first user whose name or email is `a`. */
  predicate FirstMatch(users: seq<User>, a: Option<string>, k: int)
  {
    && 0 <= k < |users|
    && (users[k].name == a || users[k].email == a)
    && forall j :: 0 <= j < k ==> users[j].name != a && users[j].email != a
  }

  /** `users.find(u => u.name === a || u.email === a)?._id`; as in the source,
      a row without an Assignee column matches a user without a name. */
  function FindUser(users: seq<User>, a: Option<string>): (r: Option<string>)
    ensures r.Some? ==> exists k :: FirstMatch(users, a, k) && users[k].id == r.value
    ensures r.None? ==> forall u :: u in users ==> u.name != a && u.email != a
  {
    if users == [] then None
    else if users[0].name == a || users[0].email == a then Some(users[0].id)
    else FindUser(users[1..], a)
  }

  /** The body posted for a row, or None for a row without a title. */
  function RowBody(row: Row, users: seq<User>, project: string): (r: Option<NewBug>)
    ensures r.None? <==> row.title.None? || row.title.value == ""
    ensures r.Some? ==>
      && r.value.title == row.title.value && r.value.title != ""
      && r.value.status != "" && r.value.priority != "" && r.value.project == project
    ensures r.Some? && (row.status.None? || row.status.value == "") ==> r.value.status == "Open"
    ensures r.Some? && (row.priority.None? || row.priority.value == "") ==> r.value.priority == "Medium"
    ensures r.Some? && (row.description.None? || row.description.value == "") ==> r.value.description == ""
    ensures r.Some? && row.status.Some? && row.status.value != "" ==> r.value.status == row.status.value
    ensures r.Some? && row.priority.Some? && row.priority.value != "" ==> r.value.priority == row.priority.value
    ensures r.Some? && row.description.Some? && row.description.value != "" ==>
      r.value.description == row.description.value
    ensures r.Some? ==> r.value.assignedTo == FindUser(users, row.assignee)
  {
    if row.title.None? || row.title.value == "" then None
    else Some(NewBug(row.title.value, Or(row.status, "Open"), Or(row.priority, "Medium"),
      FindUser(users, row.assignee), project, Or(row.description, "")))
  }

  predicate HasTitle(row: Row)
  {
    row.title.Some? && row.title.value != ""
  }

  datatype ImportResult = ImportResult(posted: seq<NewBug>, success: nat, fail: nat)

  /** The outcome of the import after the rows in order: `threw[i]` says
      whether the request for row `i` threw. Only a thrown request counts as a
      failure: a response that is not ok still counts as a success. */
  function ImportRun(rows: seq<Row>, threw: seq<bool>, users: seq<User>, project: string): (r: ImportResult)
    requires |threw| == |rows|
    ensures r.success + r.fail == |r.posted| == |Filter(rows, HasTitle)|
  {
    if rows == [] then ImportResult([], 0, 0)
    else
      var n := |rows| - 1;
      var prev := ImportRun(rows[..n], threw[..n], users, project);
      FilterSnoc(rows[..n], rows[n], HasTitle);
      assert rows == rows[..n] + [rows[n]];
      match RowBody(rows[n], users, project)
      case None => prev
      case Some(body) =>
        ImportResult(prev.posted + [body], prev.success + (if threw[n] then 0 else 1), prev.fail + (if threw[n] then 1 else 0))
  }

  /** Every posted body comes from a titled row, with the defaults filled in. */
  lemma {:induction false} ImportPostsTitledRows(rows: seq<Row>, threw: seq<bool>, users: seq<User>, project: string)
    requires |threw| == |rows|
    ensures forall b :: b in ImportRun(rows, threw, users, project).posted ==>
      exists row :: row in rows && HasTitle(row) && RowBody(row, users, project) == Some(b)
  {
    if rows != [] {
      var n := |rows| - 1;
      ImportPostsTitledRows(rows[..n], threw[..n], users, project);
      forall b | b in ImportRun(rows, threw, users, project).posted
        ensures exists row :: row in rows && HasTitle(row) && RowBody(row, users, project) == Some(b)
      {
        if b in ImportRun(rows[..n], threw[..n], users, project).posted {
          var row :| row in rows[..n] && HasTitle(row) && RowBody(row, users, project) == Some(b);
          assert row in rows;
        } else {
          assert RowBody(rows[n], users, project) == Some(b);
        }
      }
    }
  }

  // ---------------------------------------------------------------------------
  // The page state

  class Page {
    var tickets: seq<Ticket>
    var selected: seq<string>
    var savedFilters: seq<SavedFilter>

    constructor(saved: seq<SavedFilter>)
      ensures tickets == [] && selected == [] && savedFilters == saved
    {
      tickets := [];
      selected := [];
      savedFilters := saved;
    }

    method Select(id: string)
      modifies this
      ensures selected == Toggle(old(selected), id)
      ensures tickets == old(tickets) && savedFilters == old(savedFilters)
    {
      selected := Toggle(selected, id);
    }

    method SelectAllRows()
      modifies this
      ensures selected == SelectAllIds(old(tickets), old(selected))
      ensures tickets == old(tickets) && savedFilters == old(savedFilters)
    {
      selected := SelectAllIds(tickets, selected);
    }

    /** `handleSaveFilter`; `name` is what the prompt returned (None when it
        was cancelled). */
    method SaveFilter(name: Option<string>, current: Filters, sortBy: string, sortOrder: string)
      modifies this
      ensures name.None? || name.value == "" ==> savedFilters == old(savedFilters)
      ensures name.Some? && name.value != "" ==>
        savedFilters == old(savedFilters) + [SavedFilter(name.value, current, sortBy, sortOrder)]
      ensures tickets == old(tickets) && selected == old(selected)
    {
      if name.None? || name.value == "" {
        return;
      }
      savedFilters := savedFilters + [SavedFilter(name.value, current, sortBy, sortOrder)];
    }

    method DeleteFilter(idx: int)
      modifies this
      ensures savedFilters == RemoveAt(old(savedFilters), idx)
      ensures tickets == old(tickets) && selected == old(selected)
    {
      savedFilters := RemoveAt(savedFilters, idx);
    }
  }

  /** The import loop with its two counters. */
  method Import(rows: seq<Row>, threw: seq<bool>, users: seq<User>, project: string)
    returns (posted: seq<NewBug>, success: nat, fail: nat)
    requires |threw| == |rows|
    ensures ImportResult(posted, success, fail) == ImportRun(rows, threw, users, project)
    ensures success + fail == |Filter(rows, HasTitle)|
  {
    posted, success, fail := [], 0, 0;
    var i := 0;
    while i < |rows|
      invariant 0 <= i <= |rows|
      invariant ImportResult(posted, success, fail) == ImportRun(rows[..i], threw[..i], users, project)
    {
      assert rows[..i + 1][..i] == rows[..i] && threw[..i + 1][..i] == threw[..i];
      assert rows[..i + 1][i] == rows[i] && threw[..i + 1][i] == threw[i];
      var body := RowBody(rows[i], users, project);
      if body.Some? {
        posted := posted + [body.value];
        if threw[i] {
          fail := fail + 1;
        } else {
          success := success + 1;
        }
      }
      i := i + 1;
    }
    assert rows[..i] == rows && threw[..i] == threw;
  }
}
