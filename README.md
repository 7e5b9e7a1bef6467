# Bug tracker front end: a verified model of its state logic

The repository is a React single-page front end for a bug and project
tracker. Almost all of it is markup, network calls and charts. This project
models the logic underneath:

- the Kanban board: the status-to-column mapping and its inverse table,
  loading bugs into four ordered columns, and the drag handler that reorders
  a card within a column or moves it across columns optimistically;
- the three-column grouping and the drag guards of the project detail page,
  with its toasts, comment updates and mention-menu index cycling;
- the filter, sort and selection pipelines of the list view, the project
  table, the dashboard and the advanced search bar;
- the count dictionaries behind the charts, the CSV export text, tag
  splitting and joining, and relative ages;
- the small string and record helpers: URL joining, header merging, initials,
  badge colours and notification updates.

There is one Dafny module per source file. Pure expressions become functions
and lemmas. Component state that handlers update becomes a `class`, whose
methods state the whole new state.

The JavaScript semantics the code relies on are written out in a few shared
modules:

- `Js`: `||` defaults, `toLowerCase`/`toUpperCase` on ASCII letters, `split`,
  `join`, `trim`, `includes`, string `<`, and `data.x || data` unwrapping.
- `Objects`: JSON-like objects as ordered key/value lists. `Set` and `Spread`
  keep insertion order, as JavaScript objects do for string keys.
- `Seqs`: order-preserving filters and subsequences.
- `Sorting`: `Array.prototype.sort` is stable, so it is modelled as a stable
  insertion sort by a comparator.
- `Tally`: count dictionaries filled key by key in first-seen order.
- `Names`: word initials.
- `Priority`: the High/Medium/Low rank table.

Network replies, clocks and user input are parameters of the operations.

## Model

| member | source | states |
|---|---|---|
| BoardView.ColumnNamed | src/components/BoardView.jsx:143-153 | looking up a column by its key gives the column with that name, or none when no column has it |
| BoardView.StatusMap | src/components/BoardView.jsx:158-163 | the status sent for a column maps back to that same column |
| BoardView.StatusRoundTrip | src/components/BoardView.jsx:84-92 | a status survives the round trip through its column exactly when it is one of Open, In Progress, In Review, Closed; any other status lands in Backlog and comes back as 'Open' |
| BoardView.EmptyTasks | src/components/BoardView.jsx:80 | the initial board has all four columns, each empty |
| BoardView.Bucket | src/components/BoardView.jsx:103-112 | bucketing the fetched bugs yields a board with all four columns |
| BoardView.LoadSpec | src/components/BoardView.jsx:103-112 | each column is an order-preserving subsequence of the fetched list and holds exactly the bugs whose status maps to it |
| BoardView.BucketColumn | src/components/BoardView.jsx:103-112 | each column equals the fetched list filtered to that column, so fetch order is kept |
| BoardView.BucketCards | src/components/BoardView.jsx:103-112 | the cards on the loaded board are exactly the fetched bugs, as a multiset |
| BoardView.LoadCounts | src/components/BoardView.jsx:103-112 | every fetched bug is in exactly one column; the column lengths sum to the number of bugs; unique ids stay unique across the board |
| BoardView.FindIndex | src/components/BoardView.jsx:125-135 | `findIndex` by id: -1 exactly when no card has the id, otherwise the first card with it |
| BoardView.SourceColumn | src/components/BoardView.jsx:125-127 | the column found for the dragged id holds it; when none is found, no column holds it |
| BoardView.ArrayMove | src/components/BoardView.jsx:130-142 | moving one element keeps the length |
| BoardView.ArrayMoveSpec | src/components/BoardView.jsx:130-142 | `arrayMove` removes the element at `from` and reinserts it at `to`, with a negative `to` counted from the end, so the result is a permutation |
| BoardView.Board.constructor | src/components/BoardView.jsx:80 | the board starts with four empty columns and is loading |
| BoardView.Board.Load | src/components/BoardView.jsx:95-116 | without a project nothing happens; a good response replaces the columns with the bucketed bugs; a non-ok response or a thrown fetch leaves the columns unchanged; loading ends |
| BoardView.Board.DragEnd | src/components/BoardView.jsx:120-171 | the new columns and the outcome are those of the drop function on the old columns; the board stays valid |
| BoardView.Board.UpdateBugStatus | src/components/BoardView.jsx:173-194 | a failed update only logs an error; the columns are never reverted |
| BoardView.DropRejected | src/components/BoardView.jsx:122-127 | a drop with no target, or with an id in no column, leaves the board unchanged and issues no update |
| BoardView.CrossMove | src/components/BoardView.jsx:143-169 | a cross-column move removes exactly the dragged card from its source, appends it to the destination, leaves the other columns identical, and issues one update with `statusMap[destination]` |
| BoardView.CrossDrop | src/components/BoardView.jsx:143-169 | a drop on another column is a move whose update names the dragged id and the destination's status |
| BoardView.SameColumnDrop | src/components/BoardView.jsx:130-142 | a drop on the card's own column changes only that column, by `arrayMove` from its index to the index of the target id, and issues no update |
| BoardView.ReorderKeepsCards | src/components/BoardView.jsx:130-142 | a reorder keeps the cards on the board |
| BoardView.DropKeepsCards | src/components/BoardView.jsx:120-171 | every drop keeps the multiset of cards on the board |
| BoardView.CrossKeepsCards | src/components/BoardView.jsx:143-169 | a cross-column move keeps the multiset of cards on the board |
| ProjectDetail.ColourFallbacks | src/pages/ProjectDetail.jsx:41-58 | the priority badge is blue exactly for anything but High/Medium; the status badge is green exactly for anything but Open/In Progress/In Review; the status colour is gray exactly for an unknown status |
| ProjectDetail.AssigneeInitials | src/pages/ProjectDetail.jsx:59-64 | no user gives 'U'; a named user gets the initials of the name; a user with only an email gets its first character upper-cased; a user with neither gets 'U'; never more than two characters |
| ProjectDetail.GroupedSpec | src/pages/ProjectDetail.jsx:265-268 | the groups are exactly the three status options (Open, In Progress, Closed, lines 17-21); each group holds exactly the tickets with its status, in their original order; a ticket with any other status is in no group |
| ProjectDetail.FindTicket | src/pages/ProjectDetail.jsx:271-275 | the ticket is found exactly when some ticket has the id, and the one found has it |
| ProjectDetail.DragRequest | src/pages/ProjectDetail.jsx:269-287 | a request is sent exactly when there is a target, the target differs from the dragged id, the ticket exists and its status differs from the target; the request carries the target as the new status |
| ProjectDetail.DragToastAsWritten | src/pages/ProjectDetail.jsx:276-293 | as written, every drag that sends a request ends in the failure toast |
| ProjectDetail.AcceptedMoveReportedAsFailure | src/pages/ProjectDetail.jsx:287-290 | a move the server accepted is still reported as an error |
| ProjectDetail.DragToast | src/pages/ProjectDetail.jsx:276-293 | the intended toast: success exactly when the update resolved, error exactly when it threw |
| ProjectDetail.RemoveToastSpec | src/pages/ProjectDetail.jsx:94-97 | removing a toast keeps the others in order and drops exactly those with its id; adding a fresh toast and then removing it restores the list |
| ProjectDetail.EditText | src/pages/ProjectDetail.jsx:594 | editing changes the text of the comment with the id and nothing else |
| ProjectDetail.Replace | src/pages/ProjectDetail.jsx:628-642 | an edit event replaces the comments with the event's id by the event's comment |
| ProjectDetail.EditThenDelete | src/pages/ProjectDetail.jsx:594 | editing keeps ids and authors; deleting after an edit is the same as deleting without it |
| ProjectDetail.DeleteCommentSpec | src/pages/ProjectDetail.jsx:614 | deleting keeps the other comments in order and removes exactly those with the id |
| ProjectDetail.JsRem | src/pages/ProjectDetail.jsx:690-693 | the JavaScript `%`: NaN exactly for a zero divisor; for a non-negative operand it is the ordinary remainder |
| ProjectDetail.MentionCycle | src/pages/ProjectDetail.jsx:686-700 | with n > 0 options, ArrowDown moves to the next index, wrapping to 0; ArrowUp moves to the previous one, wrapping to n-1; each undoes the other |
| ProjectDetail.MentionEmpty | src/pages/ProjectDetail.jsx:690-693 | with no options both keys give NaN |
| ProjectDetail.Page.constructor | src/pages/ProjectDetail.jsx:94-122 | no tickets, toasts or comments; the mention menu is closed; no comment error |
| ProjectDetail.Page.AddToast | src/pages/ProjectDetail.jsx:94-96 | the toast is appended; nothing else changes |
| ProjectDetail.Page.RemoveToast | src/pages/ProjectDetail.jsx:97 | the toasts with the id are removed; nothing else changes |
| ProjectDetail.Page.DragEnd | src/pages/ProjectDetail.jsx:269-294 | the request sent is the drag request; without one nothing changes; with one the toast added is the intended one, success once the update resolves; tickets and comments are untouched |
| ProjectDetail.Page.AddComment | src/pages/ProjectDetail.jsx:534-553 | a blank text changes no comment and clears the error; otherwise an ok reply appends the returned comment and a failed one leaves the comments alone, and the comment error is the intended one (none after success, the failure message otherwise); toasts are untouched |
| ProjectDetail.Page.EditComment | src/pages/ProjectDetail.jsx:585-601 | on an ok reply the comments become the edited list and a 'Comment updated!' success toast of 3500 ms is appended; on a failed request the comments stay and the failure message is appended as an error toast |
| ProjectDetail.Page.RemoveComment | src/pages/ProjectDetail.jsx:606-621 | on an ok reply the comments lose those with the id and a 'Comment deleted!' success toast of 3500 ms is appended; a reply that is not ok appends the error toast 'Failed to delete comment', an exception its own message, and the comments stay |
| ProjectDetail.Failure | src/pages/ProjectDetail.jsx:546 | the message a comment handler's catch receives: for a reply that is not ok, the reply's message when it is a non-empty string and the fallback otherwise (so never empty when the fallback is not); for an exception, its own message |
| ProjectDetail.AddCommentErrorAsWritten | src/pages/ProjectDetail.jsx:534-553 | as written, the comment error is empty only after an exception with an empty message; a failed request leaves `data.message \|\| 'Failed to add comment'` or the exception's message; an accepted comment leaves an error |
| ProjectDetail.AddCommentError | src/pages/ProjectDetail.jsx:534-553 | the intended comment error: none after an ok reply; after a failed request the Failure message with the fallback 'Failed to add comment', so `data.message \|\| 'Failed to add comment'` for a reply that is not ok (never empty) and the exception's message otherwise |
| ProjectDetail.AddedCommentReportedAsError | src/pages/ProjectDetail.jsx:550 | as written an accepted comment leaves an error, and that is the only reply on which the written and the intended error differ |
| ProjectDetail.Page.CommentEvent | src/pages/ProjectDetail.jsx:628-642 | events for another ticket change nothing; for the open ticket a new comment is appended, an edit replaced, a delete removed |
| ProjectDetail.Page.CommentInput | src/pages/ProjectDetail.jsx:659-672 | an '@' query with members opens the menu on the matching members at index 0; otherwise the menu closes; the menu's index stays valid |
| ProjectDetail.Page.MentionKeyDown | src/pages/ProjectDetail.jsx:686-700 | with the menu closed nothing happens; the arrows cycle the index; Enter with options selects exactly the member at the highlighted index and closes the menu, and selects nothing otherwise; Enter without options and any other key leave the menu as it was; Escape closes it |
| ListView.FilteredSpec | src/pages/ListView.jsx:91-97 | the filtered list is an order-preserving subsequence holding exactly the tickets that pass every filter |
| ListView.NoFiltersShowAll | src/pages/ListView.jsx:91-97 | with every filter empty, all tickets are shown in order |
| ListView.SearchIgnoresCase | src/pages/ListView.jsx:95 | the search matches the same tickets whatever the case of the term, the title or the description |
| ListView.SortedSpec | src/pages/ListView.jsx:98-105 | the sorted list is a permutation of the filtered one; any key other than createdAt or priority keeps the filtered order |
| ListView.SortedByDate | src/pages/ListView.jsx:99 | by createdAt, 'desc' puts newer tickets first and any other order puts older ones first |
| ListView.SortedByPriority | src/pages/ListView.jsx:100-103 | when every priority is known, 'desc' orders High, Medium, Low and 'asc' reverses that |
| ListView.PriorityOrdering | src/pages/ListView.jsx:101-102 | the priority comparator is a consistent ordering on tickets with known priorities |
| Seqs.Map | src/pages/ListView.jsx:252 | `s.map(f)`: one result per element, in order, each `f` of its element (the ids of the rows for select-all in the ticket list and the project table) |
| ListView.SelectAllSpec | src/pages/ListView.jsx:43-44 | 'all selected' and 'some selected' are never both true; select-all (line 252) clears the selection when all are selected, otherwise selects every ticket id; on a non-empty list it flips 'all selected' |
| ListView.RemoveAt | src/pages/ListView.jsx:342 | deleting index idx removes exactly that entry and keeps the others in order; an index outside the list removes nothing |
| Js.Or | src/pages/ListView.jsx:303-307 | `v \|\| fallback` on strings: the value unless it is missing or empty |
| ListView.FindUser | src/pages/ListView.jsx:305 | the assignee id is that of the first user whose name or email equals the cell; none when no user matches |
| ListView.RowBody | src/pages/ListView.jsx:296-308 | a row without a title is skipped; otherwise the body carries the title and the project, a non-empty status, priority or description of the row unchanged, with status defaulting to 'Open', priority to 'Medium' and description to '', and the assignee found by FindUser |
| ListView.ImportRun | src/pages/ListView.jsx:294-311 | one request per titled row; successes plus failures equal the number of titled rows |
| ListView.ImportPostsTitledRows | src/pages/ListView.jsx:295-308 | every request body posted is the body of some titled row |
| ListView.Import | src/pages/ListView.jsx:288-318 | the import loop posts what ImportRun describes, with the counters adding up to the titled rows |
| ListView.Page.constructor | src/pages/ListView.jsx:43-44 | no tickets, no selection, the saved filters as loaded |
| ListView.Page.Select | src/pages/ListView.jsx:251 | the selection toggles the id; nothing else changes |
| ListView.Page.SelectAllRows | src/pages/ListView.jsx:252 | the selection becomes the select-all result |
| ListView.Page.SaveFilter | src/pages/ListView.jsx:321-328 | an empty or cancelled name saves nothing; otherwise the filter is appended at the end |
| ListView.Page.DeleteFilter | src/pages/ListView.jsx:341-346 | the saved filter at the index is removed |
| Seqs.ToggleSpec | src/pages/ListView.jsx:251 | toggling adds an absent id or removes a present one; toggling twice restores the membership, and the list itself when the id was absent |
| ProjectTable.FilteredSpec | src/components/ProjectTable.jsx:33-38 | an order-preserving subsequence of the projects whose name or description, a missing one read as '', contains the filter case-insensitively; the empty filter shows everything |
| ProjectTable.KeyLessTrichotomy | src/components/ProjectTable.jsx:69-71 | of two distinct sort keys exactly one is less than the other |
| ProjectTable.DescNegatesAsc | src/components/ProjectTable.jsx:69-71 | 'desc' negates the 'asc' comparison |
| ProjectTable.CompareOrdering | src/components/ProjectTable.jsx:40-74 | the comparator is a consistent ordering for every column and direction |
| ProjectTable.KeyTransitive | src/components/ProjectTable.jsx:69-71 | the order on sort keys is transitive |
| ProjectTable.SortedSpec | src/components/ProjectTable.jsx:40-74 | the sorted list is a permutation of the filtered one, ordered by the comparator; any other column, including the listed 'description', keeps the filtered order |
| ProjectTable.MissingValuesDefault | src/components/ProjectTable.jsx:44-68 | a missing status sorts as 'active'; missing members, bug totals or creation dates sort as 0 |
| ProjectTable.Table.constructor | src/components/ProjectTable.jsx:16-27 | sorted by name ascending, no filter, nothing favourite, selected or archiving |
| ProjectTable.Table.Sort | src/components/ProjectTable.jsx:76-83 | the same column flips the direction; a new column is chosen ascending; nothing else changes |
| ProjectTable.Table.Favorite | src/components/ProjectTable.jsx:86-88 | the favourites toggle the id |
| ProjectTable.Table.SelectRow | src/components/ProjectTable.jsx:127-129 | the selection toggles the id |
| ProjectTable.Table.SelectAll | src/components/ProjectTable.jsx:120-126 | checked selects the ids of the sorted projects in order, unchecked selects none; the header checkbox follows |
| ProjectTable.Table.BeginArchive | src/components/ProjectTable.jsx:95-96 | the id joins the archiving ids and the error is cleared |
| ProjectTable.Table.FinishArchive | src/components/ProjectTable.jsx:104-115 | on every outcome the id leaves the archiving ids and the others stay; an error outcome sets the message |
| Dashboard.FilteredSpec | src/pages/Dashboard.jsx:213-216 | the filtered list is an order-preserving subsequence holding exactly the bugs that pass the status, priority and project filters |
| Dashboard.NoFiltersShowAll | src/pages/Dashboard.jsx:213-216 | with every filter empty, all bugs are shown in order |
| Dashboard.ProjectFilterMatchesBoth | src/pages/Dashboard.jsx:216 | the project filter matches a bug whose project is the id itself or an object with that `_id` |
| Dashboard.SortedSpec | src/pages/Dashboard.jsx:218-226 | the sorted list is a permutation of the filtered one; an unknown key keeps the filtered order; the search term changes nothing |
| Dashboard.SortedByDate | src/pages/Dashboard.jsx:219-220 | 'newest' is descending by creation time and 'oldest' ascending |
| Dashboard.SortedByPriority | src/pages/Dashboard.jsx:221-224 | with known priorities, High comes before Medium before Low |
| Dashboard.PriorityOrdering | src/pages/Dashboard.jsx:221-224 | the priority comparator is a consistent ordering |
| Dashboard.DisjointCounts | src/pages/Dashboard.jsx:229-232 | open plus closed never exceeds the total |
| Dashboard.StatsSpec | src/pages/Dashboard.jsx:229-232 | the total is the length of the sorted list, and the open, closed and high counts are taken over it |
| EnhancedDashboard.EscapeChar | src/pages/EnhancedDashboard.jsx:38 | `JSON.stringify` escaping of one character never produces a line break, and produces a comma only for a comma |
| EnhancedDashboard.Escape | src/pages/EnhancedDashboard.jsx:38 | an escaped string contains no line break, and contains a comma exactly when the input does |
| EnhancedDashboard.IntDigits | src/pages/EnhancedDashboard.jsx:38 | a number is written with digits and a minus sign only |
| EnhancedDashboard.Field | src/pages/EnhancedDashboard.jsx:34-38 | null and undefined are written as an empty quoted string; a field never contains a line break, nor a comma unless it is a string that has one |
| EnhancedDashboard.Fields | src/pages/EnhancedDashboard.jsx:38 | each row has exactly one field per header key, in header order |
| EnhancedDashboard.CsvLines | src/pages/EnhancedDashboard.jsx:35-39 | the first line is the first row's keys joined by ','; then one line per row |
| EnhancedDashboard.ExportCsv | src/pages/EnhancedDashboard.jsx:33 | empty data produces nothing, other data a text |
| EnhancedDashboard.JoinCrLf | src/pages/EnhancedDashboard.jsx:39 | joining by CR LF is joining the CR-terminated lines by LF |
| EnhancedDashboard.CsvLineCount | src/pages/EnhancedDashboard.jsx:35-39 | split at line feeds, the text has one line per row plus the header |
| EnhancedDashboard.CsvFields | src/pages/EnhancedDashboard.jsx:38 | when no string value holds a comma, splitting a row line at commas gives back its fields |
| EnhancedDashboard.ParseTags | src/pages/EnhancedDashboard.jsx:325 | the empty string gives no tags; otherwise the pieces between commas, each trimmed |
| EnhancedDashboard.ParsedTagsClean | src/pages/EnhancedDashboard.jsx:378 | every parsed tag is trimmed |
| EnhancedDashboard.JoinSpaced | src/pages/EnhancedDashboard.jsx:361 | joining by ', ' is joining the space-prefixed tags by ',' |
| EnhancedDashboard.TagsRoundTrip | src/pages/EnhancedDashboard.jsx:361 | tags without commas or surrounding blanks, joined for the edit form and parsed back, are the same tags |
| EnhancedDashboard.BugsByStatus | src/pages/EnhancedDashboard.jsx:445 | entry j counts the bugs with the j-th status option |
| EnhancedDashboard.BugsByPriorityStatus | src/pages/EnhancedDashboard.jsx:538 | entry (i, j) counts the bugs with the i-th priority and the j-th status |
| EnhancedDashboard.ChartCounts | src/pages/EnhancedDashboard.jsx:445-538 | summed over the priorities, each status's count is at most its status count; the status counts sum to at most the number of bugs |
| EnhancedDashboard.Defaults | src/pages/EnhancedDashboard.jsx:203-207 | the defaults are page, limit, sortBy and sortOrder, in that order |
| EnhancedDashboard.QueryOrder | src/pages/EnhancedDashboard.jsx:203-209 | the query starts with the four default keys in order |
| EnhancedDashboard.QueryValues | src/pages/EnhancedDashboard.jsx:203-209 | a key the caller gives keeps the caller's value, because the spread comes last; otherwise page 1, limit 20, sortBy createdAt and sortOrder desc |
| EnhancedDashboard.SearchDedupe | src/pages/EnhancedDashboard.jsx:258-264 | searching again with JSON-equal parameters changes nothing, even with undefined keys added; a search issues at most one request |
| EnhancedDashboard.Page.constructor | src/pages/EnhancedDashboard.jsx:258-270 | no current search and no request yet; the mount fetch is EnhancedDashboard.Page.Mount |
| EnhancedDashboard.Page.Mount | src/pages/EnhancedDashboard.jsx:226-240 | the mount effect requests the bugs for the current search once (the empty search on a fresh page) and keeps the search |
| EnhancedDashboard.Page.HandleSearch | src/pages/EnhancedDashboard.jsx:258-264 | the new search and requests are the search function's |
| EnhancedDashboard.Page.ClearSearch | src/pages/EnhancedDashboard.jsx:267-270 | the search becomes empty and one request with the default query is issued |
| AdvancedSearch.DefaultFilters | src/components/AdvancedSearch.jsx:21-30 | the eight filter keys, in order, all empty |
| AdvancedSearch.ActiveFlag | src/components/AdvancedSearch.jsx:47-48 | a 0/1 flag that is 1 exactly when some filter value is not '' |
| AdvancedSearch.CountPositive | src/components/AdvancedSearch.jsx:110 | the count of non-blank values is positive exactly when some value is not '' |
| AdvancedSearch.ActiveFlagSpec | src/components/AdvancedSearch.jsx:47-48 | the flag is set exactly when the count without the search term is positive; the search term is ignored, so the flag never exceeds the count |
| AdvancedSearch.ClearedCountsNothing | src/components/AdvancedSearch.jsx:57-70 | after clearing, the count and the flag are 0 |
| AdvancedSearch.SearchQuerySpec | src/components/AdvancedSearch.jsx:38-43 | the query sent puts 'q' first and lets a filter with the same key override it |
| AdvancedSearch.NameOf | src/components/AdvancedSearch.jsx:119-126 | a value naming no listed entity is shown as itself; otherwise the first entity with that id gives its name, or the value itself when that name is empty |
| AdvancedSearch.EntryChipKeys | src/components/AdvancedSearch.jsx:116-130 | one chip per truthy filter, in key order, keyed by that filter |
| AdvancedSearch.ChipsSpec | src/components/AdvancedSearch.jsx:114-130 | the search chip comes first exactly when there is a search term; then the filter chips |
| AdvancedSearch.StringChipCount | src/components/AdvancedSearch.jsx:116-130 | when all filter values are strings, there is one chip per non-blank value |
| AdvancedSearch.ChipCountMatches | src/components/AdvancedSearch.jsx:109-130 | when all filter values are strings, the number of chips equals the active filter count |
| AdvancedSearch.NullFilterCountedWithoutChip | src/components/AdvancedSearch.jsx:110-117 | a null filter value is counted as active but gets no chip |
| AdvancedSearch.EntryChipsConcat | src/components/AdvancedSearch.jsx:116-130 | the filter chips of two runs of entries are the chips of each, in order |
| AdvancedSearch.FilterChips | src/components/AdvancedSearch.jsx:114-130 | the push loop, front to back, builds exactly the chip list |
| AdvancedSearch.SearchBar.constructor | src/components/AdvancedSearch.jsx:20-35 | no search term, the default filters, no save name |
| AdvancedSearch.SearchBar.ChangeFilter | src/components/AdvancedSearch.jsx:53-55 | only the changed key takes the new value |
| AdvancedSearch.SearchBar.ClearFilters | src/components/AdvancedSearch.jsx:57-70 | all eight filters and the term are reset, so the count is 0, and the clear callback is called |
| AdvancedSearch.SearchBar.RemoveChip | src/components/AdvancedSearch.jsx:144-147 | chip 'q' clears only the term; any other chip clears only its key, keeping the key order |
| AdvancedSearch.SearchBar.SaveSearch | src/components/AdvancedSearch.jsx:80-93 | a blank or whitespace-only name does nothing; otherwise the search is saved and the name cleared |
| AdvancedSearch.SearchBar.LoadSearch | src/components/AdvancedSearch.jsx:95-100 | the term becomes the saved one or ''; the filters become the saved ones or {} |
| Bugs.AgeBuckets | src/pages/Bugs.jsx:14-17 | seconds below 60; then whole minutes 1-59, whole hours 1-23 and at least one day, each the floor of the elapsed time in its unit |
| Bugs.AgeBoundaries | src/pages/Bugs.jsx:10-18 | 59 s gives '59s ago', 60 s '1m ago', an hour '1h ago', a day '1d ago', and 999 ms '0s ago' |
| Bugs.StatusOccurrences | src/pages/Bugs.jsx:48 | a status occurs in the status list as often as bugs have it |
| Bugs.Analytics | src/pages/Bugs.jsx:48-54 | each dictionary's counts sum to the number of bugs; each status, priority and creation day is counted as often as it occurs; the created keys are the distinct days |
| Bugs.GroupedBugs | src/pages/Bugs.jsx:45 | 'none' gives one group holding all bugs; every other mode gives none |
| Bugs.GroupedShowsAll | src/pages/Bugs.jsx:45 | the groups show every bug exactly when the mode is 'none' or there are no bugs |
| Bugs.Page.constructor | src/pages/Bugs.jsx:30-42 | no bugs, loading, no error |
| Bugs.Page.Load | src/pages/Bugs.jsx:30-42 | the list is `data.bugs \|\| data`; a failure keeps the old list and sets the message |
| Js.Unwrap | src/pages/Bugs.jsx:34 | `data.x \|\| data`: the list itself, or the field when present; nothing is left only for an object without the field |
| Tally.CountKeys | src/pages/Bugs.jsx:48-54 | the counting loop gives the tally: the counts sum to the number of keys and each key's count is its number of occurrences |
| Tally.TallySpec | src/pages/Projects.jsx:52-56 | one entry per distinct key, counts summing to the number of keys, each count the key's occurrences |
| Projects.StatusKey | src/pages/Projects.jsx:46 | the key is 'Active' exactly for a missing, empty or 'Active' status |
| Projects.MemberKey | src/pages/Projects.jsx:49 | the key is the member count, 0 when there are no members |
| Projects.KeysOf | src/pages/Projects.jsx:46-56 | the key of every project, in order |
| Projects.Occurrences | src/pages/Projects.jsx:46-56 | a key occurs as often as projects have it |
| Projects.CountBy | src/pages/Projects.jsx:46-56 | one entry per distinct key, each counting the projects with that key, the counts summing to the number of projects |
| Projects.Analytics | src/pages/Projects.jsx:46-58 | the status, member and created counts each sum to the number of projects; each status, member count and creation day counts the projects that have it; the created keys are the distinct days |
| Projects.MissingFieldsDefault | src/pages/Projects.jsx:46-51 | a missing status counts as 'Active' and a missing member list as 0 members |
| Projects.Page.constructor | src/pages/Projects.jsx:8-10 | the initial state: an empty project list, loading, no error |
| Projects.Page.Load | src/pages/Projects.jsx:30-42 | the list is `data.projects \|\| data`; a failure keeps the old list and sets the message |
| ProjectsList.BugCount | src/pages/ProjectsList.jsx:35-49 | `stats.total` on an ok reply, 0 on a non-ok reply or an exception |
| ProjectsList.BugCountsWellFormed | src/pages/ProjectsList.jsx:35-49 | the bug-count object never repeats an id |
| ProjectsList.BugCountsKeys | src/pages/ProjectsList.jsx:35-49 | every project gets an entry and nothing else does |
| ProjectsList.BugCountsValues | src/pages/ProjectsList.jsx:35-49 | a project's entry is what its own request gave |
| ProjectsList.Page.constructor | src/pages/ProjectsList.jsx:11-20 | the initial state: an empty project list and no bug counts, loading, no error, an empty form that is not submitting, no success message, no reload yet |
| ProjectsList.Page.Load | src/pages/ProjectsList.jsx:26-55 | a list body replaces the projects and the loop fills the bug-count object; a body that is not an array is stored in place of the list before `data.map` throws, so the counts stay and the message is set; a request that fails before its body is read keeps the old list and sets the message |
| ProjectsList.Page.Submit | src/pages/ProjectsList.jsx:61-82 | a created project resets the form to an empty name and description and reloads the list; a failure keeps the form and shows why |
| Header.GetInitials | src/components/Header.jsx:9-16 | an empty name gives ''; otherwise the upper-cased first letter of each word, never longer than the name |
| Header.MarkRead | src/components/Header.jsx:111 | only the notification with the id becomes read |
| Header.MarkAll | src/components/Header.jsx:120 | every notification becomes read, nothing else changes |
| Header.MarkAllClearsUnread | src/components/Header.jsx:71 | after marking all, the unread count is 0 |
| Header.MarkReadCount | src/components/Header.jsx:71 | marking one id read lowers the unread count by the unread notifications with that id; marking twice is marking once |
| Header.NotificationBell.constructor | src/components/Header.jsx:71-88 | no notifications, no error |
| Header.NotificationBell.FetchSettled | src/components/Header.jsx:76-88 | a fetched list replaces the notifications; a failure keeps them and sets the message |
| Header.NotificationBell.Receive | src/components/Header.jsx:96-99 | a notification is prepended only when the user's id is the payload's |
| Header.NotificationBell.MarkAsRead | src/components/Header.jsx:106-113 | the notifications become the marked list, unless the request threw |
| Header.NotificationBell.MarkAllAsRead | src/components/Header.jsx:115-122 | all become read, so the unread count is 0, unless the request threw |
| AuthFetch.StripSlash | src/utils/authFetch.js:5 | exactly one trailing slash is removed, if there is one |
| AuthFetch.JoinUrlSpec | src/utils/authFetch.js:5 | a url starting with 'http' is used as given; otherwise base and path meet with exactly one '/' added only when the path has none; the result always ends with the url |
| AuthFetch.NoDoubleSlash | src/utils/authFetch.js:5 | a relative path joined to a base not ending in two slashes has exactly one slash at the joint |
| AuthFetch.HeadersSpec | src/utils/authFetch.js:13-17 | the caller's headers are kept, but Authorization and Content-Type are always the helper's own |
| AuthFetch.UnauthorizedMessage | src/utils/authFetch.js:20-31 | the reply's message when it has one, 'Unauthorized' otherwise |
| AuthFetch.Session.constructor | src/utils/authFetch.js:7-12 | the token and location as given, no alerts, no requests |
| AuthFetch.Session.Fetch | src/utils/authFetch.js:1-35 | a missing token throws before any request and redirects to login; a 401 removes the token and throws; any other status, ok or not, is returned |
| Names.FirstLettersAreWordStarts | src/components/Header.jsx:12-15 | the first letters of the space-separated words are the characters that start a word |
| Names.BlankNameHasNoInitials | src/components/Avatar.jsx:5 | a name of spaces only has no initials |
| Names.OneWordInitial | src/pages/ProjectDetail.jsx:25 | a single word's initial is its first letter |
| Names.Slice | src/pages/ProjectDetail.jsx:25 | `s.slice(0, n)`: a prefix of the string, of length n or the whole string when it is shorter |
| Names.ShortInitials | src/pages/ProjectDetail.jsx:23-26 | an empty name gives 'U'; otherwise the upper-cased word initials, cut to two characters |
| Avatar.Render | src/components/Avatar.jsx:4-15 | a non-empty `src` always gives the image; otherwise the badge shows at most two initials; the size class comes from the size |
| Avatar.BlankNameShowsNothing | src/components/Avatar.jsx:5 | a name of spaces only shows '' rather than 'U' |
| Avatar.TwoWordName | src/components/Avatar.jsx:5 | a two-word name shows both initials upper-cased |
| Badge.StatusColor | src/components/Badge.jsx:3-8 | the status table has exactly Open, In Progress, Closed and In Review |
| Badge.PriorityColor | src/components/Badge.jsx:9-13 | the priority table has exactly High, Medium and Low |
| Badge.ColorClassSpec | src/components/Badge.jsx:16 | a known priority gets its table entry; an unknown priority gets no colour, and the class ends in 'undefined'; a known status gets its table entry; any other status gets gray |
| Badge.UnknownPriorityUncoloured | src/components/Badge.jsx:16 | for every label and kind: the badge as written differs from the intended lookup exactly when a priority label is missing from its table; such a label gets no colour as written and gray as intended |
| Badge.IntendedColorClass | src/components/Badge.jsx:16 | the intended lookup: a known label gets its entry in the table for its kind, and a label missing from that table gets gray, for priorities as for statuses |
| Priority.Rank | src/pages/ListView.jsx:101 | ranks 1-3 are given exactly to High, Medium and Low |
| Priority.RankDiff | src/pages/Dashboard.jsx:222 | the difference is negative exactly when the first rank is higher; an unknown priority compares as equal |
| Sorting.SortPerm | src/pages/ListView.jsx:98 | sorting yields a permutation of its input |
| Sorting.SortSorted | src/components/ProjectTable.jsx:69-71 | sorting by a consistent comparator yields a list ordered by it |
| Sorting.SortStable | src/pages/Dashboard.jsx:218-226 | sorting keeps the relative order of elements that compare equal |
| Sorting.SortAllTied | src/pages/ListView.jsx:104 | a comparator that returns 0 everywhere leaves the order unchanged |
| Seqs.Filter | src/pages/ListView.jsx:95 | `s.filter(p)`: never longer than the input; which elements it keeps and in what order is Seqs.FilterSpec |
| Seqs.FilterSpec | src/pages/ListView.jsx:91-97 | a filter yields an order-preserving subsequence holding exactly the elements that pass |
| Js.IncludesIffOccurs | src/pages/ListView.jsx:95 | `includes` holds exactly when the substring occurs at some index |
| Js.Lower | src/pages/ListView.jsx:95 | `s.toLowerCase()`: the same length, each character lower-cased |
| Js.Upper | src/components/Header.jsx:15 | `s.toUpperCase()`: the same length, each character upper-cased |
| Js.ToText | src/components/AdvancedSearch.jsx:119 | `${v}` in a template literal: a string value is its own text |
| Js.RefKey | src/pages/Dashboard.jsx:216 | `String(r?._id \|\| r)`: a raw id is itself, and a populated reference with a non-empty `_id` gives that id |
| Js.LowerTwice | src/pages/ListView.jsx:95 | lower-casing twice is lower-casing once |
| Js.Split | src/components/Header.jsx:12 | `s.split(sep)`: at least one part, and no part holds the separator |
| Js.JoinSplit | src/pages/EnhancedDashboard.jsx:325 | joining the pieces of a split restores the string |
| Js.SplitJoin | src/pages/EnhancedDashboard.jsx:361 | splitting a join of pieces without the separator gives back the pieces |
| Js.TrimIsTrimmed | src/pages/EnhancedDashboard.jsx:325 | a trimmed string has no blank at either end |
| Js.NatToStringRoundTrip | src/pages/Bugs.jsx:17 | the decimal text of a number reads back as that number |
| Js.StrLessTrichotomy | src/components/ProjectTable.jsx:69-71 | string `<`: of two distinct strings exactly one is less |
| Js.StrLessTransitive | src/components/ProjectTable.jsx:69-71 | string `<` is transitive |
| Objects.Keys | src/pages/EnhancedDashboard.jsx:35 | `Object.keys(o)`: one key per property, in property order |
| Objects.Values | src/components/AdvancedSearch.jsx:47 | `Object.values(o)`: one value per property, in property order |
| Objects.SetGet | src/components/AdvancedSearch.jsx:54 | after setting a key, reading it gives the new value and every other key is unchanged |
| Objects.SetKeys | src/components/AdvancedSearch.jsx:54 | setting a present key keeps the key order; a new key goes last |
| Objects.SpreadGet | src/pages/EnhancedDashboard.jsx:203-209 | in a spread, a key of the later object wins |
| Objects.SpreadKeys | src/pages/EnhancedDashboard.jsx:203-209 | a spread keeps the keys of the earlier object first, in their order |

## Left out

- Network, storage and the browser: fetch, axios, socket.io, `localStorage`, `window.location`, `alert`, `confirm` and `prompt` are out of scope. Each reply, stored value or answer is a parameter of the operation that receives it.
- Concurrency: overlapping requests are not modelled. The per-project statistics requests of the projects list settle in any order, and they are applied in list order.
- Timers: the 300 ms search debounce, polling and toast auto-dismiss are left out. A search is modelled as immediate.
- Dates: parsing and `toLocaleDateString` are not modelled. Timestamps are integers, and the day key of a bug or project is given as a string.
- Projects.Analytics: the member counts are kept in first-seen order. JavaScript lists integer-like keys in numeric order, which only matters for display.
- Js.Lower: case mapping covers ASCII letters only. Unicode case mapping is not modelled.
- ProjectDetail.Page.CommentInput: the regular expression that extracts the '@' query is not modelled. The query is a parameter. `highlightMentions` is left out.
- ProjectDetail.MemberLabel: a member always has a name and an email string. A member whose user has neither makes `toLowerCase` throw a TypeError in the source; the model cannot express that member.
- ProjectDetail.Page.AddComment: the comment text field, its clearing after success and the input focus are not modelled.
- ProjectDetail.Page.EditComment and ProjectDetail.Page.RemoveComment: the editing and deleting markers (`editingCommentId`, `deletingCommentId`) are not modelled.
- The member invite handlers of the project page are left out: each only sends one request and shows its outcome. After their success toasts they also call the undeclared `fetchActivityLogs`, which throws as in ProjectDetail.AddCommentErrorAsWritten.
- Badge.ColorClass: only the four status and three priority labels are in the tables. Lookups of inherited object properties such as 'constructor' are not modelled.
- AuthFetch.HeadersSpec: header names are compared exactly. The case-insensitive matching of the Headers API is not modelled.
- EnhancedDashboard.Field: numbers are integers. NaN and fractional numbers are not modelled.
- EnhancedDashboard.Field and EnhancedDashboard.CsvFields: values are scalars only. The exported bugs and projects also hold nested objects and arrays (a populated project or assignee, member lists). `JSON.stringify` writes those with commas of their own, so the comma-free and split-back claims hold only for rows of scalar values.
- Js.StrLess: compares Unicode characters. JavaScript compares UTF-16 code units, so the two orders differ for characters above U+FFFF against characters from U+E000 to U+FFFF.
- EnhancedDashboard.EscapeChar: lone UTF-16 surrogates are escaped as ordinary characters.
- Names.Head: takes the first Unicode character of a word. The source's `w[0]` and `slice(0, 2)` count UTF-16 code units, so for a word starting with a character above U+FFFF the source keeps a lone high surrogate, which a Dafny string cannot hold (the name '😀 Bob' gives a lone surrogate and 'B' there, '😀B' here). This also holds for Names.ShortInitials, Header.GetInitials and Avatar.Render.
- EnhancedDashboard.Page.Mount: the other loads of the mount effect (user, projects, users, saved searches) and the initial spinner are left out.
- EnhancedDashboard.ExportCsv: the Blob and the download link are left out, and so is the PDF export.
- AdvancedSearch.SearchBar.SaveSearch: the toasts the search bar shows are left out.
- The bulk status and bulk assign actions of the list view are left out. They pass an argument that the edit handler ignores.
- The charts of every page are left out. Only the counts behind them are modelled.
- ProjectTable.Table.FinishArchive: the page reload after a successful archive is left out.
- ProjectDetail.Page.DragEnd: the ticket list is not reloaded after a move. The reload call fails as written (see Findings), so the list never changes.
- BoardView.Board.DragEnd: the moved card keeps its old `status` field in the destination column, as in the code. The local copy is never updated.
- BoardView.ArrayMove: its own contract states only the length. The element positions and the permutation are stated by BoardView.ArrayMoveSpec.
- ListView.SortedByPriority: stated only for tickets whose priorities are all known. An unknown priority makes the comparator return NaN, and JavaScript then allows any order.
- Dashboard.SortedByPriority: stated only for bugs whose priorities are all known, for the same reason.
- The list view's `handleSelectFilter`, which copies a saved filter's fields back into the filter state, is left out.
- Drag-and-drop collision detection is left out. A drop is given by the dragged id and the target id.

## Findings

| source | as written | input that shows it | evidently intended | confidence | as-written member | corrected member |
|---|---|---|---|---|---|---|
| src/pages/ProjectDetail.jsx:287 | after the status update, `fetchTickets()` is called. It is defined only inside an effect, so the call throws a ReferenceError, and the catch shows 'Failed to move ticket' | a drag of a ticket to another status that the server accepts | the success toast when the update resolves, the error toast only when it throws | not executed | ProjectDetail.AcceptedMoveReportedAsFailure | ProjectDetail.DragToast |
| src/pages/ProjectDetail.jsx:550 | after an accepted comment, `fetchActivityLogs && fetchActivityLogs()` runs. The page never declares `fetchActivityLogs`, so the guard itself throws a ReferenceError and the catch sets the comment error to 'fetchActivityLogs is not defined' | any comment the server accepts | no comment error after success | not executed | ProjectDetail.AddedCommentReportedAsError | ProjectDetail.AddCommentError |
| src/components/Badge.jsx:16 | `type === 'priority' ? PRIORITY_COLORS[x] : STATUS_COLORS[x] \|\| gray` applies the gray fallback only to statuses | a priority badge with the label 'Urgent' gets no colour class (the class text ends in 'undefined') | the gray fallback for an unknown label of either kind | not executed | Badge.UnknownPriorityUncoloured | Badge.IntendedColorClass |
