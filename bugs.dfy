/** The bug analytics page: relative ages, the grouping stub and the count
    dictionaries behind its charts. */
module Bugs {
  import opened Js
  import opened Seqs
  import opened Tally

  // ---------------------------------------------------------------------------
  // Relative time

  /** The whole seconds between two millisecond timestamps, rounded down as
      `Math.floor` does (Dafny's division by a positive number also floors). */
  function ElapsedSeconds(now: int, past: int): int
  {
    (now - past) / 1000
  }

  /** The age in the largest unit that fits: seconds below a minute, then
      minutes below an hour, hours below a day, and days. */
  function Age(diff: int): (r: (int, string))
  {
    if diff < 60 then (diff, "s")
    else if diff < 3600 then (diff / 60, "m")
    else if diff < 86400 then (diff / 3600, "h")
    else (diff / 86400, "d")
  }

  /** `relativeTime` */
  function RelativeTime(now: int, past: int): string
  {
    var (amount, unit) := Age(ElapsedSeconds(now, past));
    IntToString(amount) + unit + " ago"
  }

  /** Each unit shows the whole number of its units elapsed, and that number
      stays below the next unit: seconds below 60 (negative for a date in the
      future), then 1-59 minutes, 1-23 hours, and at least one day. */
  lemma AgeBuckets(diff: int)
    ensures var (amount, unit) := Age(diff);
      && (unit == "s" ==> amount == diff < 60)
      && (unit == "m" ==> 1 <= amount <= 59 && amount * 60 <= diff < (amount + 1) * 60)
      && (unit == "h" ==> 1 <= amount <= 23 && amount * 3600 <= diff < (amount + 1) * 3600)
      && (unit == "d" ==> 1 <= amount && amount * 86400 <= diff < (amount + 1) * 86400)
  {
  }

  /** The bucket edges. */
  lemma AgeBoundaries()
    ensures RelativeTime(59000, 0) == "59s ago"
    ensures RelativeTime(60000, 0) == "1m ago"
    ensures RelativeTime(3600000, 0) == "1h ago"
    ensures RelativeTime(86400000, 0) == "1d ago"
    ensures RelativeTime(1999, 1000) == "0s ago"
  {
    assert NatToString(59) == "59" by {
      assert NatToString(5) == "5";
    }
  }

  // ---------------------------------------------------------------------------
  // Counts

  /** `createdDay` is the bug's creation date as `toLocaleDateString` renders
      it; the rendering itself is not modelled. */
  datatype Bug = Bug(id: string, status: string, priority: string, createdDay: string)

  function Statuses(bugs: seq<Bug>): (r: seq<string>)
    ensures |r| == |bugs| && forall i :: 0 <= i < |bugs| ==> r[i] == bugs[i].status
  {
    seq(|bugs|, i requires 0 <= i < |bugs| => bugs[i].status)
  }

  function Priorities(bugs: seq<Bug>): (r: seq<string>)
    ensures |r| == |bugs| && forall i :: 0 <= i < |bugs| ==> r[i] == bugs[i].priority
  {
    seq(|bugs|, i requires 0 <= i < |bugs| => bugs[i].priority)
  }

  function Days(bugs: seq<Bug>): (r: seq<string>)
    ensures |r| == |bugs| && forall i :: 0 <= i < |bugs| ==> r[i] == bugs[i].createdDay
  {
    seq(|bugs|, i requires 0 <= i < |bugs| => bugs[i].createdDay)
  }

  function HasStatus(status: string): Bug -> bool
  {
    (b: Bug) => b.status == status
  }

  lemma {:induction false} StatusOccurrences(bugs: seq<Bug>, status: string)
    ensures multiset(Statuses(bugs))[status] == Count(bugs, HasStatus(status))
  {
    if bugs != [] {
      StatusOccurrences(bugs[1..], status);
      assert Statuses(bugs) == [bugs[0].status] + Statuses(bugs[1..]);
    }
  }

  /** The three dictionaries of the page, each filled by one pass over the
      bugs. */
  method Analytics(bugs: seq<Bug>) returns (statusCounts: seq<Entry<string>>, priorityCounts: seq<Entry<string>>, createdCounts: seq<Entry<string>>)
    ensures Total(statusCounts) == |bugs| && Total(priorityCounts) == |bugs| && Total(createdCounts) == |bugs|
    ensures forall s :: Get(statusCounts, s) == Count(bugs, HasStatus(s))
    ensures forall p :: Get(priorityCounts, p) == multiset(Priorities(bugs))[p]
    ensures DistinctKeys(createdCounts) && KeySet(createdCounts) == set d | d in Days(bugs)
    ensures forall d :: Get(createdCounts, d) == multiset(Days(bugs))[d]
  {
    statusCounts := CountKeys(Statuses(bugs));
    priorityCounts := CountKeys(Priorities(bugs));
    createdCounts := CountKeys(Days(bugs));
    TallySpec(Days(bugs));
    forall s ensures Get(statusCounts, s) == Count(bugs, HasStatus(s)) {
      StatusOccurrences(bugs, s);
    }
  }

  // ---------------------------------------------------------------------------
  // Grouping and loading

  datatype Group = Group(group: string, bugs: seq<Bug>)

  /** `groupedBugs`: grouping is a stub, so only 'none' shows anything. */
  function GroupedBugs(groupBy: string, bugs: seq<Bug>): (r: seq<Group>)
    ensures groupBy == "none" ==> |r| == 1 && r[0].bugs == bugs
    ensures groupBy != "none" ==> r == []
  {
    if groupBy == "none" then [Group("", bugs)] else []
  }

  /** The flattened groups show every bug exactly when the mode is 'none'
      (or there is nothing to show). */
  lemma GroupedShowsAll(groupBy: string, bugs: seq<Bug>)
    ensures Flatten(GroupedBugs(groupBy, bugs)) == bugs <==> groupBy == "none" || bugs == []
  {
  }

  function Flatten(groups: seq<Group>): seq<Bug>
  {
    if groups == [] then [] else groups[0].bugs + Flatten(groups[1..])
  }

  /** The result of the list request. */
  datatype Fetch = Loaded(payload: Payload<Bug>) | Failed

  class Page {
    /** None stands for a response object kept in place of a list. */
    var bugs: Option<seq<Bug>>
    var loading: bool
    var error: string

    constructor()
      ensures bugs == Some([]) && loading && error == ""
    {
      bugs := Some([]);
      loading := true;
      error := "";
    }

    /** `fetchBugs`: a failure keeps the old list and sets the message. */
    method Load(result: Fetch)
      modifies this
      ensures result.Loaded? ==> bugs == Unwrap(result.payload) && error == ""
      ensures result.Failed? ==> bugs == old(bugs) && error == "Could not load bugs"
      ensures !loading
    {
      loading := true;
      error := "";
      if result.Failed? {
        error := "Could not load bugs";
      } else {
        bugs := Unwrap(result.payload);
      }
      loading := false;
    }
  }
}
