/** The `{ High: 1, Medium: 2, Low: 3 }` table two list views sort by. */
module Priority {
  import opened Js

  /** `order[p]`, None for `undefined`. */
  function Rank(p: string): (r: Option<int>)
    ensures r.Some? <==> p in {"High", "Medium", "Low"}
    ensures r.Some? ==> 1 <= r.value <= 3
  {
    if p == "High" then Some(1) else if p == "Medium" then Some(2) else if p == "Low" then Some(3) else None
  }

  /** `order[a] - order[b]` as the sort reads it: a difference with
      `undefined` is NaN, which the sort takes as +0, a tie. */
  function RankDiff(a: string, b: string): (r: int)
    ensures Rank(a).Some? && Rank(b).Some? ==> (r < 0 <==> Rank(a).value < Rank(b).value)
    ensures Rank(a).None? || Rank(b).None? ==> r == 0
  {
    if Rank(a).None? || Rank(b).None? then 0 else Rank(a).value - Rank(b).value
  }

  /** High comes before Medium, Medium before Low. */
  lemma RankOrder()
    ensures RankDiff("High", "Medium") < 0 && RankDiff("Medium", "Low") < 0 && RankDiff("High", "Low") < 0
  {
  }
}
