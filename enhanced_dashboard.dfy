/** The analytics dashboard: the CSV export, the tag field of the bug forms,
    the two status charts, and the search that refetches the bug list. */
module EnhancedDashboard {
  import opened Js
  import opened Seqs
  import opened Objects

  const StatusOptions: seq<string> := ["Open", "In Progress", "Closed"]
  const PriorityOptions: seq<string> := ["Low", "Medium", "High"]

  // ---------------------------------------------------------------------------
  // CSV export

  function HexDigit(d: nat): (c: char)
    requires d < 16
  {
    if d < 10 then DigitChar(d) else (d - 10 + 'a' as int) as char
  }

  /** How `JSON.stringify` writes one character inside a string literal. */
  function EscapeChar(c: char): (r: string)
    ensures '\n' !in r && '\r' !in r
    ensures ',' in r <==> c == ','
  {
    if c == '\"' then "\\\""
    else if c == '\\' then "\\\\"
    else if c == '\U{0008}' then "\\b"
    else if c == '\U{000C}' then "\\f"
    else if c == '\n' then "\\n"
    else if c == '\r' then "\\r"
    else if c == '\t' then "\\t"
    else if c < ' ' then "\\u00" + [HexDigit(c as int / 16), HexDigit(c as int % 16)]
    else [c]
  }

  /** The inside of a JSON string literal: no raw line break survives, and a
      comma appears exactly when the text has one. */
  function Escape(s: string): (r: string)
    ensures '\n' !in r && '\r' !in r
    ensures ',' in r <==> ',' in s
  {
    if s == [] then [] else EscapeChar(s[0]) + Escape(s[1..])
  }

  lemma IntDigits(n: int)
    ensures forall i :: 0 <= i < |IntToString(n)| ==> IntToString(n)[i] == '-' || IsDigit(IntToString(n)[i])
  {
    NatToStringRoundTrip(if n < 0 then -n else n);
  }

  /** `JSON.stringify(v, replacer)`, where the replacer turns null and
      undefined into ''. */
  function Field(v: Value): (r: string)
    ensures v.Undefined? || v.Null? ==> r == "\"\""
    ensures '\n' !in r && '\r' !in r
    ensures (v.Str? ==> ',' !in v.s) ==> ',' !in r
  {
    match v
    case Undefined => "\"\""
    case Null => "\"\""
    case Bool(b) => if b then "true" else "false"
    case Num(n) => IntDigits(n); IntToString(n)
    case Str(s) => "\"" + Escape(s) + "\""
  }

  /** One data line: the row's value for each header key, in header order. */
  function Fields(row: Obj, header: seq<string>): (r: seq<string>)
    ensures |r| == |header|
    ensures forall i :: 0 <= i < |header| ==> r[i] == Field(Get(row, header[i]))
  {
    if header == [] then [] else [Field(Get(row, header[0]))] + Fields(row, header[1..])
  }

  /** The header line and one line per row. */
  function CsvLines(data: seq<Obj>): (r: seq<string>)
    requires data != []
    ensures |r| == |data| + 1
    ensures r[0] == Join(Keys(data[0]), ",")
    ensures forall i :: 0 <= i < |data| ==> r[i + 1] == Join(Fields(data[i], Keys(data[0])), ",")
  {
    [Join(Keys(data[0]), ",")] + seq(|data|, i requires 0 <= i < |data| => Join(Fields(data[i], Keys(data[0])), ","))
  }

  /** `exportToCSV`'s text, or None for an empty list, which exports nothing. */
  function ExportCsv(data: seq<Obj>): (r: Option<string>)
    ensures r.None? <==> data == []
  {
    if data == [] then None else Some(Join(CsvLines(data), "\r\n"))
  }

  /** `l + "\r"` for every line but the last. */
  function CrTerminated(lines: seq<string>): (r: seq<string>)
    ensures |r| == |lines|
  {
    if |lines| <= 1 then lines else [lines[0] + "\r"] + CrTerminated(lines[1..])
  }

  lemma {:induction false} JoinCrLf(lines: seq<string>)
    ensures Join(lines, "\r\n") == Join(CrTerminated(lines), "\n")
  {
    if |lines| > 1 {
      JoinCrLf(lines[1..]);
      var rest := CrTerminated(lines[1..]);
      assert CrTerminated(lines)[1..] == rest;
      if |rest| == 1 {
        assert Join(rest, "\n") == rest[0];
      }
    }
  }

  lemma {:induction false} CrTerminatedNoLf(lines: seq<string>)
    requires forall i :: 0 <= i < |lines| ==> '\n' !in lines[i]
    ensures forall i :: 0 <= i < |lines| ==> '\n' !in CrTerminated(lines)[i]
  {
    if |lines| > 1 {
      CrTerminatedNoLf(lines[1..]);
      assert forall i :: 1 <= i < |lines| ==> CrTerminated(lines)[i] == CrTerminated(lines[1..])[i - 1];
    }
  }

  lemma {:induction false} JoinNoChar(parts: seq<string>, sep: string, c: char)
    requires c !in sep && forall i :: 0 <= i < |parts| ==> c !in parts[i]
    ensures c !in Join(parts, sep)
  {
    if |parts| > 1 {
      JoinNoChar(parts[1..], sep, c);
    }
  }

  lemma CsvLinesNoLf(data: seq<Obj>)
    requires data != []
    requires forall i :: 0 <= i < |Keys(data[0])| ==> '\n' !in Keys(data[0])[i]
    ensures forall i :: 0 <= i < |CsvLines(data)| ==> '\n' !in CsvLines(data)[i]
  {
    var lines := CsvLines(data);
    forall i | 0 <= i < |lines| ensures '\n' !in lines[i] {
      if i == 0 {
        JoinNoChar(Keys(data[0]), ",", '\n');
      } else {
        JoinNoChar(Fields(data[i - 1], Keys(data[0])), ",", '\n');
      }
    }
  }

  /** Split at line feeds, the export has exactly one line for the header and
      one per row: no value breaks a line. */
  lemma CsvLineCount(data: seq<Obj>)
    requires data != []
    requires forall i :: 0 <= i < |Keys(data[0])| ==> '\n' !in Keys(data[0])[i]
    ensures |Split(ExportCsv(data).value, '\n')| == |data| + 1
  {
    var lines := CsvLines(data);
    CsvLinesNoLf(data);
    JoinCrLf(lines);
    CrTerminatedNoLf(lines);
    SplitJoin(CrTerminated(lines), '\n');
  }

  /** A row whose string values have no comma splits at commas into exactly as
      many fields as the header has keys, each the JSON text of its value under
      that key. */
  lemma CsvFields(data: seq<Obj>, i: nat)
    requires i < |data| && Keys(data[0]) != []
    requires forall k :: k in Keys(data[0]) && Get(data[i], k).Str? ==> ',' !in Get(data[i], k).s
    ensures Split(CsvLines(data)[i + 1], ',') == Fields(data[i], Keys(data[0]))
  {
    var header := Keys(data[0]);
    var fs := Fields(data[i], header);
    forall j | 0 <= j < |fs| ensures ',' !in fs[j] {
      assert fs[j] == Field(Get(data[i], header[j]));
    }
    SplitJoin(fs, ',');
  }

  // ---------------------------------------------------------------------------
  // Tags

  /** `tags ? tags.split(',').map(tag => tag.trim()) : []` */
  function ParseTags(s: string): (r: seq<string>)
    ensures s == "" ==> r == []
    ensures s != "" ==> |r| == |Split(s, ',')| && forall i :: 0 <= i < |r| ==> r[i] == Trim(Split(s, ',')[i])
  {
    if s == "" then [] else TrimAll(Split(s, ','))
  }

  function TrimAll(parts: seq<string>): (r: seq<string>)
    ensures |r| == |parts|
    ensures forall i :: 0 <= i < |parts| ==> r[i] == Trim(parts[i])
  {
    if parts == [] then [] else [Trim(parts[0])] + TrimAll(parts[1..])
  }

  /** `bug.tags?.join(', ') || ''` */
  function JoinTags(tags: Option<seq<string>>): string
  {
    if tags.None? then "" else Join(tags.value, ", ")
  }

  /** Every parsed tag is free of commas and of surrounding white space. */
  lemma ParsedTagsClean(s: string)
    ensures forall i :: 0 <= i < |ParseTags(s)| ==> Trimmed(ParseTags(s)[i])
  {
    forall i | 0 <= i < |ParseTags(s)| ensures Trimmed(ParseTags(s)[i]) {
      TrimIsTrimmed(Split(s, ',')[i]);
    }
  }

  /** The tags as the edit form shows them after the first: one blank each. */
  function Spaced(tags: seq<string>): (r: seq<string>)
    requires tags != []
    ensures |r| == |tags| && r[0] == tags[0]
    ensures forall i :: 1 <= i < |tags| ==> r[i] == " " + tags[i]
  {
    [tags[0]] + seq(|tags| - 1, i requires 0 <= i < |tags| - 1 => " " + tags[i + 1])
  }

  lemma {:induction false} JoinSpaced(tags: seq<string>)
    requires tags != []
    ensures Join(tags, ", ") == Join(Spaced(tags), ",")
  {
    if |tags| > 1 {
      var rest := tags[1..];
      var sp := Spaced(tags);
      JoinSpaced(rest);
      var srest := Spaced(rest);
      assert Join(sp, ",") == sp[0] + "," + Join(sp[1..], ",");
      if |rest| == 1 {
        assert Join(sp[1..], ",") == " " + rest[0];
      } else {
        assert Join(sp[1..], ",") == " " + Join(srest, ",") by {
          assert sp[1..][0] == " " + srest[0];
          assert sp[1..][1..] == srest[1..];
          assert Join(sp[1..], ",") == sp[1..][0] + "," + Join(sp[1..][1..], ",");
          assert Join(srest, ",") == srest[0] + "," + Join(srest[1..], ",");
        }
      }
    }
  }

  /** Showing a bug's tags in the edit form and saving the form gives the same
      tags back, provided no tag has a comma or surrounding white space and the
      list is not a single empty tag. */
  lemma TagsRoundTrip(tags: seq<string>)
    requires tags != [""]
    requires forall i :: 0 <= i < |tags| ==> ',' !in tags[i] && Trimmed(tags[i])
    ensures ParseTags(JoinTags(Some(tags))) == tags
  {
    if tags != [] {
      var sp := Spaced(tags);
      JoinSpaced(tags);
      SplitJoin(sp, ',');
      if |tags| == 1 {
        assert JoinTags(Some(tags)) == tags[0] != "";
      } else {
        assert JoinTags(Some(tags)) == tags[0] + ", " + Join(tags[1..], ", ");
      }
      forall i | 0 <= i < |tags| ensures Trim(sp[i]) == tags[i] {
        TrimBlankPrefixed(tags[i]);
      }
    }
  }

  // ---------------------------------------------------------------------------
  // Charts

  datatype Bug = Bug(id: string, status: string, priority: string)

  function HasStatus(status: string): Bug -> bool
  {
    (b: Bug) => b.status == status
  }

  function HasBoth(priority: string, status: string): Bug -> bool
  {
    (b: Bug) => b.priority == priority && b.status == status
  }

  /** `bugsByStatus` */
  function BugsByStatus(bugs: seq<Bug>): (r: seq<nat>)
    ensures |r| == |StatusOptions|
    ensures forall j :: 0 <= j < |r| ==> r[j] == Count(bugs, HasStatus(StatusOptions[j]))
  {
    seq(|StatusOptions|, j requires 0 <= j < |StatusOptions| => Count(bugs, HasStatus(StatusOptions[j])))
  }

  /** `bugsByPriorityStatus`: one row per priority, one column per status. */
  function BugsByPriorityStatus(bugs: seq<Bug>): (r: seq<seq<nat>>)
    ensures |r| == |PriorityOptions|
    ensures forall i :: 0 <= i < |r| ==> |r[i]| == |StatusOptions|
    ensures forall i, j :: 0 <= i < |r| && 0 <= j < |StatusOptions| ==>
      r[i][j] == Count(bugs, HasBoth(PriorityOptions[i], StatusOptions[j]))
  {
    seq(|PriorityOptions|, i requires 0 <= i < |PriorityOptions| =>
      seq(|StatusOptions|, j requires 0 <= j < |StatusOptions| => Count(bugs, HasBoth(PriorityOptions[i], StatusOptions[j]))))
  }

  lemma {:induction false} ThreeWithin(s: seq<Bug>, status: string)
    ensures Count(s, HasBoth("Low", status)) + Count(s, HasBoth("Medium", status)) + Count(s, HasBoth("High", status))
      <= Count(s, HasStatus(status))
  {
    if s != [] {
      ThreeWithin(s[1..], status);
    }
  }

  lemma {:induction false} ThreeStatuses(s: seq<Bug>)
    ensures Count(s, HasStatus("Open")) + Count(s, HasStatus("In Progress")) + Count(s, HasStatus("Closed")) <= |s|
  {
    if s != [] {
      ThreeStatuses(s[1..]);
    }
  }

  /** The stacked bars never exceed the status bars: per status, the bugs
      counted by priority are at most the bugs with that status, and the status
      bars together count at most every bug (a bug with another status, such as
      'In Review', is in no bar). */
  lemma ChartCounts(bugs: seq<Bug>)
    ensures var ps, st := BugsByPriorityStatus(bugs), BugsByStatus(bugs);
      && (forall j :: 0 <= j < |StatusOptions| ==> ps[0][j] + ps[1][j] + ps[2][j] <= st[j])
      && st[0] + st[1] + st[2] <= |bugs|
  {
    forall j | 0 <= j < |StatusOptions|
      ensures Count(bugs, HasBoth("Low", StatusOptions[j])) + Count(bugs, HasBoth("Medium", StatusOptions[j]))
        + Count(bugs, HasBoth("High", StatusOptions[j])) <= Count(bugs, HasStatus(StatusOptions[j]))
    {
      ThreeWithin(bugs, StatusOptions[j]);
    }
    ThreeStatuses(bugs);
  }

  // ---------------------------------------------------------------------------
  // Search

  /** `page || 1` and the like. */
  function OrValue(v: Value, fallback: Value): Value
  {
    if Truthy(v) then v else fallback
  }

  /** The four defaults, each taken from the search parameters when truthy. */
  function Defaults(sp: Obj): (r: Obj)
    ensures Keys(r) == ["page", "limit", "sortBy", "sortOrder"]
  {
    [("page", OrValue(Get(sp, "page"), Num(1))),
     ("limit", OrValue(Get(sp, "limit"), Num(20))),
     ("sortBy", OrValue(Get(sp, "sortBy"), Str("createdAt"))),
     ("sortOrder", OrValue(Get(sp, "sortOrder"), Str("desc")))]
  }

  /** The object handed to `URLSearchParams`: the defaults, then every search
      parameter spread over them. */
  function Query(sp: Obj): Obj
  {
    Spread(Defaults(sp), sp)
  }

  /** The query starts with page, limit, sortBy and sortOrder. */
  lemma QueryOrder(sp: Obj)
    ensures |Query(sp)| >= 4 && Keys(Query(sp))[..4] == ["page", "limit", "sortBy", "sortOrder"]
  {
    SpreadKeys(Defaults(sp), sp);
  }

  /** Every search parameter keeps its value because the spread comes last;
      a missing one of the four takes its default. */
  lemma QueryValues(sp: Obj, k: string)
    requires WellFormed(sp)
    ensures k in Keys(sp) ==> Get(Query(sp), k) == Get(sp, k)
    ensures k !in Keys(sp) && k == "page" ==> Get(Query(sp), k) == Num(1)
    ensures k !in Keys(sp) && k == "limit" ==> Get(Query(sp), k) == Num(20)
    ensures k !in Keys(sp) && k == "sortBy" ==> Get(Query(sp), k) == Str("createdAt")
    ensures k !in Keys(sp) && k == "sortOrder" ==> Get(Query(sp), k) == Str("desc")
  {
    SpreadGet(Defaults(sp), sp, k);
    GetAbsent(sp, k);
    var d := Defaults(sp);
    GetFirst(d, 0);
    GetFirst(d, 1);
    GetFirst(d, 2);
    GetFirst(d, 3);
  }

  function IsDefined(e: (string, Value)): bool
  {
    !e.1.Undefined?
  }

  /** `JSON.stringify(a) === JSON.stringify(b)` for flat objects: the same
      properties in the same order, once the undefined ones, which JSON leaves
      out, are dropped. */
  predicate JsonEqual(a: Obj, b: Obj)
  {
    Filter(a, IsDefined) == Filter(b, IsDefined)
  }

  /** The current search and the queries sent so far. */
  datatype SearchState = SearchState(current: Obj, requests: seq<Obj>)

  /** `handleSearch` */
  function Search(st: SearchState, params: Obj): SearchState
  {
    if JsonEqual(params, st.current) then st else SearchState(params, st.requests + [Query(params)])
  }

  /** A search is sent only when it differs from the current one as JSON, so
      repeating it, or adding an undefined parameter to it, sends nothing. */
  lemma SearchDedupe(st: SearchState, params: Obj, k: string)
    ensures Search(Search(st, params), params) == Search(st, params)
    ensures |Search(st, params).requests| <= |st.requests| + 1
    ensures Search(Search(st, params), params + [(k, Undefined)]) == Search(st, params)
  {
    FilterSnoc(params, (k, Undefined), IsDefined);
  }

  class Page {
    var currentSearch: Obj
    var requests: seq<Obj>

    constructor()
      ensures currentSearch == [] && requests == []
    {
      currentSearch := [];
      requests := [];
    }

    /** The mount effect: among its parallel loads, one fetch of the bugs
        for the current search (the empty one on a fresh page). */
    method Mount()
      modifies this
      ensures currentSearch == old(currentSearch) && requests == old(requests) + [Query(currentSearch)]
    {
      requests := requests + [Query(currentSearch)];
    }

    method HandleSearch(params: Obj)
      modifies this
      ensures SearchState(currentSearch, requests) == Search(SearchState(old(currentSearch), old(requests)), params)
    {
      if !JsonEqual(params, currentSearch) {
        currentSearch := params;
        requests := requests + [Query(params)];
      }
    }

    /** `handleClearSearch` always refetches with the defaults. */
    method ClearSearch()
      modifies this
      ensures currentSearch == [] && requests == old(requests) + [Query([])]
    {
      currentSearch := [];
      requests := requests + [Query([])];
    }
  }
}
