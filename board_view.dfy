/** The Kanban board of a project: four columns of bug cards, filled by
    bucketing the fetched bugs by status, rearranged by drag and drop, with an
    optimistic status update sent to the server for a move between columns and
    never reverted. */
module BoardView {
  import opened Js
  import opened Seqs

  datatype Column = Backlog | InProgress | InReview | Done

  /** The keys of the board state, in the order the object literal declares
      them and `Object.keys` returns them. */
  const Columns: seq<Column> := [Backlog, InProgress, InReview, Done]

  /** A bug card. Only the fields the board logic reads are kept. */
  datatype Bug = Bug(id: string, title: string, status: string)

  type Tasks = map<Column, seq<Bug>>

  /** The status update issued to the server for a move between columns. */
  datatype StatusUpdate = StatusUpdate(bugId: string, status: string)

  /** How a drop ended: returned before touching the state, reordered a column,
      moved a card between columns (issuing one update), or threw a TypeError
      before any state was set. */
  datatype Outcome = Ignored | Reordered | Moved(update: StatusUpdate) | Threw

  datatype DropResult = DropResult(tasks: Tasks, outcome: Outcome)

  /** What the bug list request came back with. */
  datatype FetchResponse = FetchThrew | FetchNotOk | FetchOk(bugs: Option<seq<Bug>>)

  /** What the status update request came back with. */
  datatype UpdateResponse = UpdateOk | UpdateNotOk | UpdateThrew(error: string)

  // ---------------------------------------------------------------------------
  // Column names and the status tables

  /** The key of a column in the board state (and the droppable id of its
      area). */
  function ColumnName(c: Column): string
  {
    match c
    case Backlog => "Backlog"
    case InProgress => "In Progress"
    case InReview => "In Review"
    case Done => "Done"
  }

  /** Looks a droppable id up among the column keys. */
  function ColumnNamed(name: string): (r: Option<Column>)
    ensures r.Some? ==> ColumnName(r.value) == name
    ensures r.None? ==> forall c :: ColumnName(c) != name
  {
    if name == "Backlog" then Some(Backlog)
    else if name == "In Progress" then Some(InProgress)
    else if name == "In Review" then Some(InReview)
    else if name == "Done" then Some(Done)
    else None
  }

  /** `mapStatusToColumn`: a total map from status to column. */
  function MapStatusToColumn(status: string): Column
  {
    if status == "Open" then Backlog
    else if status == "In Progress" then InProgress
    else if status == "In Review" then InReview
    else if status == "Closed" then Done
    else Backlog
  }

  /** `statusMap`: the status sent to the server for a card dropped on a
      column; it is a right inverse of `mapStatusToColumn`. */
  function StatusMap(c: Column): (s: string)
    ensures MapStatusToColumn(s) == c
  {
    match c
    case Backlog => "Open"
    case InProgress => "In Progress"
    case InReview => "In Review"
    case Done => "Closed"
  }

  const KnownStatuses: set<string> := {"Open", "In Progress", "In Review", "Closed"}

  /** A known status survives the trip to a column and back; every other status
      lands in the backlog and would come back as "Open". */
  lemma StatusRoundTrip(s: string)
    ensures s in KnownStatuses <==> StatusMap(MapStatusToColumn(s)) == s
    ensures s !in KnownStatuses ==> MapStatusToColumn(s) == Backlog && StatusMap(MapStatusToColumn(s)) == "Open"
  {
  }

  // ---------------------------------------------------------------------------
  // Board states

  /** The board state has all four column keys. */
  ghost predicate Complete(t: Tasks)
  {
    forall c: Column :: c in t
  }

  /** Every column is one of the four. */
  lemma ColumnCases(c: Column)
    ensures c in Columns
  {
    match c
    case Backlog =>
    case InProgress =>
    case InReview =>
    case Done =>
  }

  lemma LiteralComplete(a: seq<Bug>, b: seq<Bug>, c: seq<Bug>, d: seq<Bug>)
    ensures Complete(map[Backlog := a, InProgress := b, InReview := c, Done := d])
  {
    forall col: Column ensures col in map[Backlog := a, InProgress := b, InReview := c, Done := d] {
      ColumnCases(col);
    }
  }

  function EmptyTasks(): (t: Tasks)
    ensures Complete(t)
    ensures forall c :: c in t ==> t[c] == []
  {
    LiteralComplete([], [], [], []);
    map[Backlog := [], InProgress := [], InReview := [], Done := []]
  }

  /** All the cards on the board, counted with multiplicity. */
  ghost function Cards(t: Tasks): multiset<Bug>
    requires Complete(t)
  {
    multiset(t[Backlog]) + multiset(t[InProgress]) + multiset(t[InReview]) + multiset(t[Done])
  }

  /** No two cards in one list share an id. */
  ghost predicate UniqueIds(s: seq<Bug>)
  {
    forall i, j :: 0 <= i < |s| && 0 <= j < |s| && s[i].id == s[j].id ==> i == j
  }

  /** The columns one after another, in key order. */
  function AllTasks(t: Tasks): seq<Bug>
    requires Complete(t)
  {
    t[Backlog] + t[InProgress] + t[InReview] + t[Done]
  }

  /** No two cards on the board share an id. */
  ghost predicate BoardUnique(t: Tasks)
    requires Complete(t)
  {
    UniqueIds(AllTasks(t))
  }

  // ---------------------------------------------------------------------------
  // Loading

  function BelongsTo(c: Column): Bug -> bool
  {
    (b: Bug) => MapStatusToColumn(b.status) == c
  }

  /** The bugs that the load puts in column `c`. */
  function InColumn(bugs: seq<Bug>, c: Column): seq<Bug>
  {
    Filter(bugs, BelongsTo(c))
  }

  /** The board a successful load builds. */
  function Bucket(bugs: seq<Bug>): (t: Tasks)
    ensures Complete(t)
  {
    LiteralComplete(InColumn(bugs, Backlog), InColumn(bugs, InProgress), InColumn(bugs, InReview), InColumn(bugs, Done));
    map[Backlog := InColumn(bugs, Backlog), InProgress := InColumn(bugs, InProgress),
        InReview := InColumn(bugs, InReview), Done := InColumn(bugs, Done)]
  }

  lemma BucketSnoc(bugs: seq<Bug>, b: Bug)
    ensures var c := MapStatusToColumn(b.status);
      Bucket(bugs + [b]) == Bucket(bugs)[c := Bucket(bugs)[c] + [b]]
  {
    var c := MapStatusToColumn(b.status);
    var t, u := Bucket(bugs), Bucket(bugs + [b]);
    var v := t[c := t[c] + [b]];
    forall col: Column ensures u[col] == v[col] {
      FilterSnoc(bugs, b, BelongsTo(col));
      assert u[col] == InColumn(bugs + [b], col) && t[col] == InColumn(bugs, col) by {
        match col
        case Backlog =>
        case InProgress =>
        case InReview =>
        case Done =>
      }
    }
    assert u.Keys == v.Keys;
  }

  /** Replacing one column changes the cards on the board by exactly the
      difference between the old and the new column. */
  lemma CardsUpdate(t: Tasks, c: Column, s: seq<Bug>)
    requires Complete(t)
    ensures Complete(t[c := s])
    ensures Cards(t[c := s]) + multiset(t[c]) == Cards(t) + multiset(s)
  {
    match c
    case Backlog =>
    case InProgress =>
    case InReview =>
    case Done =>
  }

  lemma {:induction false} BucketCards(bugs: seq<Bug>)
    ensures Cards(Bucket(bugs)) == multiset(bugs)
  {
    if bugs != [] {
      var init, last := bugs[..|bugs| - 1], bugs[|bugs| - 1];
      assert bugs == init + [last];
      BucketCards(init);
      BucketSnoc(init, last);
      CardsSnoc(Bucket(init), MapStatusToColumn(last.status), last);
    }
  }

  /** Appending a card to one column adds it to the board's cards. */
  lemma CardsSnoc(t: Tasks, c: Column, b: Bug)
    requires Complete(t)
    ensures Complete(t[c := t[c] + [b]])
    ensures Cards(t[c := t[c] + [b]]) == Cards(t) + multiset{b}
  {
    CardsUpdate(t, c, t[c] + [b]);
    assert multiset(t[c] + [b]) == multiset(t[c]) + multiset{b};
  }

  /** After a successful load every fetched bug is in exactly the column its
      status maps to, each column keeps the fetch order, and the columns
      together hold the fetched bugs and nothing else. */
  lemma LoadSpec(bugs: seq<Bug>)
    ensures Complete(Bucket(bugs))
    ensures forall c :: IsSubseq(Bucket(bugs)[c], bugs)
    ensures forall b, c :: b in Bucket(bugs)[c] <==> b in bugs && MapStatusToColumn(b.status) == c
  {
    var t := Bucket(bugs);
    forall c ensures IsSubseq(t[c], bugs) && forall b :: b in t[c] <==> b in bugs && MapStatusToColumn(b.status) == c {
      BucketColumn(bugs, c);
      FilterSpec(bugs, BelongsTo(c));
    }
  }

  lemma BucketColumn(bugs: seq<Bug>, c: Column)
    ensures Bucket(bugs)[c] == InColumn(bugs, c)
  {
    match c
    case Backlog =>
    case InProgress =>
    case InReview =>
    case Done =>
  }

  /** The loaded columns hold the fetched bugs and nothing else, so their
      lengths add up to the number fetched and unique ids stay unique. */
  lemma LoadCounts(bugs: seq<Bug>)
    ensures Complete(Bucket(bugs)) && Cards(Bucket(bugs)) == multiset(bugs)
    ensures |Bucket(bugs)[Backlog]| + |Bucket(bugs)[InProgress]| + |Bucket(bugs)[InReview]| + |Bucket(bugs)[Done]| == |bugs|
    ensures UniqueIds(bugs) ==> BoardUnique(Bucket(bugs))
  {
    var t := Bucket(bugs);
    BucketCards(bugs);
    assert |Cards(t)| == |multiset(bugs)|;
    AllTasksCards(t);
    if UniqueIds(bugs) {
      PermUnique(AllTasks(t), bugs);
    }
  }

  // ---------------------------------------------------------------------------
  // Dropping a card

  /** `findIndex(task => task._id === id)`: the first position holding that
      id, or -1. */
  function FindIndex(s: seq<Bug>, id: string): (r: int)
    ensures -1 <= r < |s|
    ensures r == -1 <==> forall i :: 0 <= i < |s| ==> s[i].id != id
    ensures r >= 0 ==> s[r].id == id && forall i :: 0 <= i < r ==> s[i].id != id
  {
    if s == [] then -1
    else if s[0].id == id then 0
    else var k := FindIndex(s[1..], id); if k == -1 then -1 else k + 1
  }

  /** `Object.keys(tasks).find(column => tasks[column].some(...))`: the first
      column, in key order, holding a card with the id. */
  function SourceColumn(t: Tasks, id: string): (r: Option<Column>)
    requires Complete(t)
    ensures r.Some? ==> FindIndex(t[r.value], id) >= 0
    ensures r.None? ==> forall c :: FindIndex(t[c], id) == -1
  {
    var r := FirstColumnWith(t, Columns, id);
    assert r.None? ==> forall c :: FindIndex(t[c], id) == -1 by {
      forall c ensures r.None? ==> FindIndex(t[c], id) == -1 {
        ColumnCases(c);
      }
    }
    r
  }

  function FirstColumnWith(t: Tasks, cols: seq<Column>, id: string): (r: Option<Column>)
    requires Complete(t)
    ensures r.Some? ==> FindIndex(t[r.value], id) >= 0
    ensures r.None? ==> forall i :: 0 <= i < |cols| ==> FindIndex(t[cols[i]], id) == -1
  {
    if cols == [] then None
    else if FindIndex(t[cols[0]], id) >= 0 then Some(cols[0])
    else FirstColumnWith(t, cols[1..], id)
  }

  function NotId(id: string): Bug -> bool
  {
    (b: Bug) => b.id != id
  }

  /** `s.filter(t => t._id !== id)` */
  function Without(s: seq<Bug>, id: string): seq<Bug>
  {
    Filter(s, NotId(id))
  }

  /** dnd-kit's `arrayMove`: takes the element at `from` out and inserts it at
      `to`, a negative `to` counting from the end of the original list. */
  function ArrayMove<T>(s: seq<T>, from: int, to: int): (r: seq<T>)
    requires 0 <= from < |s| && -|s| <= to < |s|
    ensures |r| == |s|
  {
    var rest := s[..from] + s[from + 1..];
    var at := if to < 0 then |s| + to else to;
    rest[..at] + [s[from]] + rest[at..]
  }

  /** The moved element lands at `to`, the others keep their relative order,
      and nothing is lost or duplicated. */
  lemma ArrayMoveSpec<T>(s: seq<T>, from: int, to: int)
    requires 0 <= from < |s| && -|s| <= to < |s|
    ensures var r, at := ArrayMove(s, from, to), if to < 0 then |s| + to else to;
      r[at] == s[from] && r[..at] + r[at + 1..] == s[..from] + s[from + 1..]
    ensures multiset(ArrayMove(s, from, to)) == multiset(s)
  {
    var rest := s[..from] + s[from + 1..];
    var at := if to < 0 then |s| + to else to;
    var r := ArrayMove(s, from, to);
    assert s == s[..from] + [s[from]] + s[from + 1..];
    assert rest == rest[..at] + rest[at..];
    assert r[..at] == rest[..at] && r[at + 1..] == rest[at..];
    assert multiset(r) == multiset(rest) + multiset{s[from]};
  }

  /** `handleDragEnd` on the board `t`, as a new board and an outcome. */
  function Drop(t: Tasks, activeId: string, over: Option<string>): DropResult
    requires Complete(t)
  {
    match over
    case None => DropResult(t, Ignored)
    case Some(dest) =>
      match SourceColumn(t, activeId)
      // `tasks[undefined].find(...)` throws a TypeError
      case None => DropResult(t, Threw)
      case Some(src) =>
        if ColumnName(src) == dest then
          var oldIndex := FindIndex(t[src], activeId);
          var newIndex := FindIndex(t[src], dest);
          if oldIndex == newIndex then DropResult(t, Ignored)
          else DropResult(t[src := ArrayMove(t[src], oldIndex, newIndex)], Reordered)
        else
          match ColumnNamed(dest)
          // `[...tasks[destinationColumn]]` spreads undefined and throws
          case None => DropResult(t, Threw)
          case Some(d) =>
            var task := t[src][FindIndex(t[src], activeId)];
            DropResult(t[src := Without(t[src], activeId)][d := t[d] + [task]],
                       Moved(StatusUpdate(activeId, StatusMap(d))))
  }

  // ---------------------------------------------------------------------------
  // The board component

  class Board {
    var tasks: Tasks
    var loading: bool

    ghost predicate Valid()
      reads this
    {
      Complete(tasks)
    }

    constructor()
      ensures Valid()
      ensures tasks == EmptyTasks() && loading
    {
      tasks := EmptyTasks();
      loading := true;
    }

    /** `fetchBugs`: with no project nothing happens; otherwise a successful
        response rebuilds the board from `data.bugs || []`, a failed one keeps
        it, and loading ends either way. */
    method Load(project: Option<string>, response: FetchResponse)
      requires Valid()
      modifies this
      ensures Valid()
      ensures project.None? ==> tasks == old(tasks) && loading == old(loading)
      ensures project.Some? ==> !loading
      ensures project.Some? && response.FetchOk? ==>
        tasks == Bucket(if response.bugs.Some? then response.bugs.value else [])
      ensures project.Some? && !response.FetchOk? ==> tasks == old(tasks)
    {
      if project.None? {
        return;
      }
      loading := true;
      if response.FetchOk? {
        var bugs := if response.bugs.Some? then response.bugs.value else [];
        var newTasks := EmptyTasks();
        var i := 0;
        while i < |bugs|
          invariant 0 <= i <= |bugs|
          invariant newTasks == Bucket(bugs[..i])
        {
          var columnName := MapStatusToColumn(bugs[i].status);
          // `if (newTasks[columnName])` always holds: every column key is present
          newTasks := newTasks[columnName := newTasks[columnName] + [bugs[i]]];
          BucketSnoc(bugs[..i], bugs[i]);
          assert bugs[..i + 1] == bugs[..i] + [bugs[i]];
          i := i + 1;
        }
        assert bugs[..i] == bugs;
        tasks := newTasks;
      }
      loading := false;
    }

    /** `handleDragEnd` for a drag of card `activeId` released over the
        droppable `over` (None when released outside every droppable). */
    method DragEnd(activeId: string, over: Option<string>) returns (outcome: Outcome)
      requires Valid()
      modifies this
      ensures Valid()
      ensures tasks == Drop(old(tasks), activeId, over).tasks
      ensures outcome == Drop(old(tasks), activeId, over).outcome
      ensures loading == old(loading)
    {
      if over.None? {
        return Ignored;
      }
      var destinationColumn := over.value;
      var sourceColumn := SourceColumn(tasks, activeId);
      if sourceColumn.Some? && ColumnName(sourceColumn.value) == destinationColumn {
        var columnTasks := tasks[sourceColumn.value];
        var oldIndex := FindIndex(columnTasks, activeId);
        var newIndex := FindIndex(columnTasks, destinationColumn);
        if oldIndex != newIndex {
          tasks := tasks[sourceColumn.value := ArrayMove(columnTasks, oldIndex, newIndex)];
          return Reordered;
        }
        return Ignored;
      }
      if sourceColumn.None? {
        return Threw;
      }
      var sourceTasks := tasks[sourceColumn.value];
      var task := sourceTasks[FindIndex(sourceTasks, activeId)];
      var destination := ColumnNamed(destinationColumn);
      if destination.None? {
        return Threw;
      }
      tasks := tasks[sourceColumn.value := Without(sourceTasks, activeId)][destination.value := tasks[destination.value] + [task]];
      outcome := Moved(StatusUpdate(activeId, StatusMap(destination.value)));
    }

    /** `updateBugStatus` once its request settles: a failure is logged and
        nothing else happens. The method may modify nothing, so the optimistic
        move stays on the board whatever the server said. */
    method UpdateBugStatus(update: StatusUpdate, response: UpdateResponse) returns (logged: Option<string>)
      requires Valid()
      ensures logged.None? <==> response.UpdateOk?
      ensures response.UpdateThrew? ==> logged == Some("Error updating bug status: " + response.error)
    {
      match response
      case UpdateOk => logged := None;
      case UpdateNotOk => logged := Some("Failed to update bug status");
      case UpdateThrew(error) => logged := Some("Error updating bug status: " + error);
    }
  }

  // ---------------------------------------------------------------------------
  // Properties of a drop

  /** A drop outside every droppable, a drop of a card that is on no column and
      a drop on something that is not a column key leave the board as it was,
      and none of them issues an update. */
  lemma DropRejected(t: Tasks, activeId: string, over: Option<string>)
    requires Complete(t)
    requires over.None? || ColumnNamed(over.value).None? || forall c :: FindIndex(t[c], activeId) == -1
    ensures Drop(t, activeId, over).tasks == t
    ensures !Drop(t, activeId, over).outcome.Moved?
  {
    if over.Some? && SourceColumn(t, activeId).Some? {
      var src := SourceColumn(t, activeId).value;
      NameFacts(src, src);
    }
  }

  lemma NameFacts(a: Column, b: Column)
    ensures ColumnNamed(ColumnName(a)) == Some(a)
    ensures ColumnName(a) == ColumnName(b) <==> a == b
  {
    match a
    case Backlog =>
    case InProgress =>
    case InReview =>
    case Done =>
  }

  /** Where column `c` starts in `AllTasks`. */
  function Offset(t: Tasks, c: Column): nat
    requires Complete(t)
  {
    match c
    case Backlog => 0
    case InProgress => |t[Backlog]|
    case InReview => |t[Backlog]| + |t[InProgress]|
    case Done => |t[Backlog]| + |t[InProgress]| + |t[InReview]|
  }

  lemma OffsetIndex(t: Tasks, c: Column, i: int)
    requires Complete(t) && 0 <= i < |t[c]|
    ensures Offset(t, c) + i < |AllTasks(t)| && AllTasks(t)[Offset(t, c) + i] == t[c][i]
  {
    match c
    case Backlog =>
    case InProgress =>
    case InReview =>
    case Done =>
  }

  lemma OffsetsApart(t: Tasks, c: Column, c': Column)
    requires Complete(t)
    ensures c != c' ==> Offset(t, c) + |t[c]| <= Offset(t, c') || Offset(t, c') + |t[c']| <= Offset(t, c)
  {
    match c
    case Backlog =>
    case InProgress =>
    case InReview =>
    case Done =>
  }

  /** On a board with unique ids, two positions holding the same id are the
      same position. */
  lemma UniqueAcross(t: Tasks, c: Column, i: int, c': Column, j: int)
    requires Complete(t) && BoardUnique(t)
    requires 0 <= i < |t[c]| && 0 <= j < |t[c']| && t[c][i].id == t[c'][j].id
    ensures c == c' && i == j
  {
    OffsetIndex(t, c, i);
    OffsetIndex(t, c', j);
    OffsetsApart(t, c, c');
  }

  lemma ColumnUnique(t: Tasks, c: Column)
    requires Complete(t) && BoardUnique(t)
    ensures UniqueIds(t[c])
  {
    forall i, j | 0 <= i < |t[c]| && 0 <= j < |t[c]| && t[c][i].id == t[c][j].id ensures i == j {
      UniqueAcross(t, c, i, c, j);
    }
  }

  /** With unique ids, the column holding the dragged card is the source. */
  lemma SourceIsHolder(t: Tasks, id: string, c: Column)
    requires Complete(t) && BoardUnique(t)
    requires FindIndex(t[c], id) >= 0
    ensures SourceColumn(t, id) == Some(c)
  {
    var s := SourceColumn(t, id).value;
    UniqueAcross(t, c, FindIndex(t[c], id), s, FindIndex(t[s], id));
  }

  /** Filtering a unique-id list by an id that is present removes exactly that
      one element. */
  lemma WithoutRemovesOne(s: seq<Bug>, k: int)
    requires UniqueIds(s) && 0 <= k < |s|
    ensures Without(s, s[k].id) == s[..k] + s[k + 1..]
  {
    var id := s[k].id;
    var a, b := s[..k], s[k + 1..];
    OthersDiffer(s, k, a, b);
    FilterAll(a, NotId(id));
    FilterAll(b, NotId(id));
    assert s == a + ([s[k]] + b);
    FilterConcat(a, [s[k]] + b, NotId(id));
    FilterConcat([s[k]], b, NotId(id));
  }

  lemma OthersDiffer(s: seq<Bug>, k: int, a: seq<Bug>, b: seq<Bug>)
    requires UniqueIds(s) && 0 <= k < |s| && a == s[..k] && b == s[k + 1..]
    ensures forall i :: 0 <= i < |a| ==> NotId(s[k].id)(a[i])
    ensures forall i :: 0 <= i < |b| ==> NotId(s[k].id)(b[i])
  {
    forall i | 0 <= i < |a| ensures a[i].id != s[k].id {
      assert a[i] == s[i];
    }
    forall i | 0 <= i < |b| ensures b[i].id != s[k].id {
      assert b[i] == s[k + 1 + i];
    }
  }

  /** The drop of a card from column `src` onto the other column `dest`. */
  lemma CrossDrop(t: Tasks, id: string, src: Column, dest: Column)
    requires Complete(t) && SourceColumn(t, id) == Some(src) && src != dest
    ensures var k := FindIndex(t[src], id);
      Drop(t, id, Some(ColumnName(dest))) ==
        DropResult(t[src := Without(t[src], id)][dest := t[dest] + [t[src][k]]],
                   Moved(StatusUpdate(id, StatusMap(dest))))
  {
    NameFacts(src, dest);
  }

  /** A move between columns takes exactly the dragged card out of its column,
      appends that same card (its status field untouched) to the destination,
      leaves the other columns alone and issues one update with the
      destination's status. */
  lemma CrossMove(t: Tasks, id: string, src: Column, dest: Column)
    requires Complete(t) && BoardUnique(t)
    requires FindIndex(t[src], id) >= 0 && src != dest
    ensures var k := FindIndex(t[src], id);
      var r := Drop(t, id, Some(ColumnName(dest)));
      && r.outcome == Moved(StatusUpdate(id, StatusMap(dest)))
      && r.tasks[src] == t[src][..k] + t[src][k + 1..]
      && r.tasks[dest] == t[dest] + [t[src][k]]
      && (forall c :: c != src && c != dest ==> r.tasks[c] == t[c])
  {
    SourceIsHolder(t, id, src);
    CrossDrop(t, id, src, dest);
    var k := FindIndex(t[src], id);
    ColumnUnique(t, src);
    WithoutRemovesOne(t[src], k);
  }

  /** Dropping a card on its own column (whose droppable id is the column key,
      which no card id equals) moves it to the end of the column, since
      `findIndex` gives -1 and `arrayMove` reads -1 as the last position. */
  lemma SameColumnDrop(t: Tasks, id: string, c: Column)
    requires Complete(t) && BoardUnique(t)
    requires FindIndex(t[c], id) >= 0 && FindIndex(t[c], ColumnName(c)) == -1
    ensures var k := FindIndex(t[c], id);
      var r := Drop(t, id, Some(ColumnName(c)));
      && r.outcome == Reordered
      && r.tasks == t[c := t[c][..k] + t[c][k + 1..] + [t[c][k]]]
  {
    SourceIsHolder(t, id, c);
    var k := FindIndex(t[c], id);
    var s := t[c];
    var m := ArrayMove(s, k, -1);
    ArrayMoveSpec(s, k, -1);
    assert Drop(t, id, Some(ColumnName(c))) == DropResult(t[c := m], Reordered);
    assert m[..|s| - 1] == s[..k] + s[k + 1..];
    assert m == m[..|s| - 1] + [m[|s| - 1]];
  }

  /** A permutation of a unique-id list has unique ids. */
  lemma PermUnique(a: seq<Bug>, b: seq<Bug>)
    requires multiset(a) == multiset(b) && UniqueIds(b)
    ensures UniqueIds(a)
  {
    forall i, j | 0 <= i < |a| && 0 <= j < |a| && a[i].id == a[j].id ensures i == j {
      assert a[i] in multiset(b) && a[j] in multiset(b);
      SameId(b, a[i], a[j]);
      DuplicateCounted(a, i, j);
      UniqueOnce(b, a[i]);
    }
  }

  /** In a unique-id list, two members with the same id are the same card. */
  lemma SameId(b: seq<Bug>, x: Bug, y: Bug)
    requires UniqueIds(b) && x in b && y in b && x.id == y.id
    ensures x == y
  {
    var p :| 0 <= p < |b| && b[p] == x;
    var q :| 0 <= q < |b| && b[q] == y;
  }

  lemma DuplicateCounted(a: seq<Bug>, i: int, j: int)
    requires 0 <= i < |a| && 0 <= j < |a| && a[i] == a[j]
    ensures i != j ==> multiset(a)[a[i]] >= 2
  {
    if i != j {
      var lo, hi := if i < j then i else j, if i < j then j else i;
      var x := a[i];
      assert a == a[..hi] + a[hi..];
      assert a[..hi][lo] == x && a[hi..][0] == x;
      assert x in multiset(a[..hi]) && x in multiset(a[hi..]);
      assert multiset(a) == multiset(a[..hi]) + multiset(a[hi..]);
    }
  }

  lemma {:induction false} UniqueOnce(b: seq<Bug>, x: Bug)
    requires UniqueIds(b)
    ensures multiset(b)[x] <= 1
  {
    if b != [] {
      assert UniqueIds(b[1..]) by {
        forall i, j | 0 <= i < |b[1..]| && 0 <= j < |b[1..]| && b[1..][i].id == b[1..][j].id ensures i == j {
          assert b[i + 1] == b[1..][i] && b[j + 1] == b[1..][j];
        }
      }
      UniqueOnce(b[1..], x);
      assert b == [b[0]] + b[1..];
      if b[0] == x {
        assert x !in b[1..] by {
          forall m | 0 <= m < |b[1..]| ensures b[1..][m] != x {
            assert b[m + 1] == b[1..][m];
          }
        }
      }
    }
  }

  lemma AllTasksCards(t: Tasks)
    requires Complete(t)
    ensures multiset(AllTasks(t)) == Cards(t)
  {
  }

  lemma RemoveCounted<T>(s: seq<T>, k: int)
    requires 0 <= k < |s|
    ensures multiset(s[..k] + s[k + 1..]) + multiset{s[k]} == multiset(s)
  {
    assert s == s[..k] + [s[k]] + s[k + 1..];
  }

  /** Taking card `k` out of column `src` and appending it to column `d` keeps
      the cards. */
  lemma MoveCard(t: Tasks, src: Column, d: Column, k: int)
    requires Complete(t) && src != d && 0 <= k < |t[src]|
    ensures var r := t[src := t[src][..k] + t[src][k + 1..]][d := t[d] + [t[src][k]]];
      Complete(r) && Cards(r) == Cards(t)
  {
    var s := t[src];
    var task := s[k];
    var a := s[..k] + s[k + 1..];
    var t1 := t[src := a];
    var r := t1[d := t[d] + [task]];
    RemoveCounted(s, k);
    CardsUpdate(t, src, a);
    Shift(Cards(t1), Cards(t), multiset(a), multiset(s), task);
    CardsUpdate(t1, d, t[d] + [task]);
    assert t1[d] == t[d];
    assert multiset(t[d] + [task]) == multiset(t[d]) + multiset{task};
    Grow(Cards(r), Cards(t1), multiset(t[d]), multiset(t[d] + [task]), task);
  }

  lemma Shift(x: multiset<Bug>, y: multiset<Bug>, a: multiset<Bug>, b: multiset<Bug>, z: Bug)
    requires x + b == y + a && a + multiset{z} == b
    ensures x + multiset{z} == y
  {
    forall o ensures (x + multiset{z})[o] == y[o] {
      assert (x + b)[o] == (y + a)[o] && (a + multiset{z})[o] == b[o];
    }
  }

  lemma Grow(x: multiset<Bug>, y: multiset<Bug>, a: multiset<Bug>, b: multiset<Bug>, z: Bug)
    requires x + a == y + b && a + multiset{z} == b
    ensures x == y + multiset{z}
  {
    forall o ensures x[o] == (y + multiset{z})[o] {
      assert (x + a)[o] == (y + b)[o] && (a + multiset{z})[o] == b[o];
    }
  }

  /** A reorder inside one column keeps the cards. */
  lemma ReorderKeepsCards(t: Tasks, src: Column, k: int, newIndex: int)
    requires Complete(t) && 0 <= k < |t[src]| && -1 <= newIndex < |t[src]|
    ensures Complete(t[src := ArrayMove(t[src], k, newIndex)])
    ensures Cards(t[src := ArrayMove(t[src], k, newIndex)]) == Cards(t)
  {
    CardsUpdate(t, src, ArrayMove(t[src], k, newIndex));
    ArrayMoveSpec(t[src], k, newIndex);
  }

  /** Every drop keeps the four columns and the same cards on the board (a card
      is never lost or duplicated), and so keeps ids unique. */
  lemma DropKeepsCards(t: Tasks, activeId: string, over: Option<string>)
    requires Complete(t) && BoardUnique(t)
    ensures var r := Drop(t, activeId, over).tasks;
      Complete(r) && Cards(r) == Cards(t) && BoardUnique(r)
  {
    var r := Drop(t, activeId, over).tasks;
    if over.Some? && SourceColumn(t, activeId).Some? {
      var dest, src := over.value, SourceColumn(t, activeId).value;
      var k := FindIndex(t[src], activeId);
      if ColumnName(src) == dest {
        var newIndex := FindIndex(t[src], dest);
        if k != newIndex {
          ReorderKeepsCards(t, src, k, newIndex);
        }
      } else if ColumnNamed(dest).Some? {
        var d := ColumnNamed(dest).value;
        NameFacts(d, src);
        CrossKeepsCards(t, activeId, src, d);
      }
    }
    AllTasksCards(t);
    AllTasksCards(r);
    PermUnique(AllTasks(r), AllTasks(t));
  }

  lemma CrossKeepsCards(t: Tasks, id: string, src: Column, d: Column)
    requires Complete(t) && BoardUnique(t) && SourceColumn(t, id) == Some(src) && src != d
    ensures Complete(Drop(t, id, Some(ColumnName(d))).tasks)
    ensures Cards(Drop(t, id, Some(ColumnName(d))).tasks) == Cards(t)
  {
    var k := FindIndex(t[src], id);
    CrossDrop(t, id, src, d);
    ColumnUnique(t, src);
    WithoutRemovesOne(t[src], k);
    MoveCard(t, src, d, k);
  }
}
