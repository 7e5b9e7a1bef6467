/** The projects analytics page: the list response and the three count
    dictionaries behind its charts (the projects list page computes the same
    three). */
module Projects {
  import opened Js
  import opened Seqs
  import opened Tally

  /** `createdDay` is the creation date as `toLocaleDateString` renders it. */
  datatype Project = Project(id: string, status: Option<string>, members: Option<seq<string>>, createdDay: string)

  /** `p.status || 'Active'` */
  function StatusKey(p: Project): (r: string)
    ensures r == "Active" <==> p.status.None? || p.status.value in {"", "Active"}
  {
    if p.status.Some? && p.status.value != "" then p.status.value else "Active"
  }

  /** `(p.members && p.members.length) || 0` */
  function MemberKey(p: Project): (r: nat)
    ensures p.members.None? ==> r == 0
    ensures p.members.Some? ==> r == |p.members.value|
  {
    if p.members.Some? then |p.members.value| else 0
  }

  function DayKey(p: Project): string
  {
    p.createdDay
  }

  /** The key of every project, in order. */
  function KeysOf<K>(projects: seq<Project>, key: Project -> K): (r: seq<K>)
    ensures |r| == |projects| && forall i :: 0 <= i < |projects| ==> r[i] == key(projects[i])
  {
    seq(|projects|, i requires 0 <= i < |projects| => key(projects[i]))
  }

  function KeyIs<K(==)>(key: Project -> K, k: K): Project -> bool
  {
    (p: Project) => key(p) == k
  }

  lemma {:induction false} Occurrences<K>(projects: seq<Project>, key: Project -> K, k: K)
    ensures multiset(KeysOf(projects, key))[k] == Count(projects, KeyIs(key, k))
  {
    if projects != [] {
      Occurrences(projects[1..], key, k);
      assert KeysOf(projects, key) == [key(projects[0])] + KeysOf(projects[1..], key);
    }
  }

  /** One count dictionary: an entry per distinct key, each counting the
      projects with that key, the counts adding up to the number of projects. */
  method CountBy<K(==)>(projects: seq<Project>, key: Project -> K) returns (counts: seq<Entry<K>>)
    ensures DistinctKeys(counts) && KeySet(counts) == set p | p in projects :: key(p)
    ensures Total(counts) == |projects|
    ensures forall k :: Get(counts, k) == Count(projects, KeyIs(key, k))
  {
    counts := CountKeys(KeysOf(projects, key));
    TallySpec(KeysOf(projects, key));
    forall k ensures Get(counts, k) == Count(projects, KeyIs(key, k)) {
      Occurrences(projects, key, k);
    }
    assert (set k | k in KeysOf(projects, key)) == set p | p in projects :: key(p) by {
      forall k | k in KeysOf(projects, key) ensures k in set p | p in projects :: key(p) {
        var i :| 0 <= i < |projects| && KeysOf(projects, key)[i] == k;
        assert projects[i] in projects;
      }
    }
  }

  /** `statusCounts`, `memberCounts` and `createdCounts`. */
  method Analytics(projects: seq<Project>)
    returns (statusCounts: seq<Entry<string>>, memberCounts: seq<Entry<nat>>, createdCounts: seq<Entry<string>>)
    ensures Total(statusCounts) == |projects| && Total(memberCounts) == |projects| && Total(createdCounts) == |projects|
    ensures forall s :: Get(statusCounts, s) == Count(projects, KeyIs(StatusKey, s))
    ensures forall n :: Get(memberCounts, n) == Count(projects, KeyIs(MemberKey, n))
    ensures DistinctKeys(createdCounts) && KeySet(createdCounts) == set p | p in projects :: p.createdDay
    ensures forall d :: Get(createdCounts, d) == Count(projects, KeyIs(DayKey, d))
  {
    statusCounts := CountBy(projects, StatusKey);
    memberCounts := CountBy(projects, MemberKey);
    createdCounts := CountBy(projects, DayKey);
  }

  /** A project with no status (or an empty one) is counted as 'Active', and a
      project without a member list under 0 members. */
  lemma MissingFieldsDefault(projects: seq<Project>)
    ensures Count(projects, KeyIs(StatusKey, "Active")) ==
      Count(projects, (p: Project) => p.status.None? || p.status.value in {"", "Active"})
    ensures Count(projects, KeyIs(MemberKey, 0)) ==
      Count(projects, (p: Project) => p.members.None? || p.members.value == [])
  {
    var a := KeyIs(StatusKey, "Active");
    var b := (p: Project) => p.status.None? || p.status.value in {"", "Active"};
    assert forall p :: a(p) == b(p);
    SameCount(projects, a, b);
    var c := KeyIs(MemberKey, 0);
    var d := (p: Project) => p.members.None? || p.members.value == [];
    assert forall p :: c(p) == d(p);
    SameCount(projects, c, d);
  }

  lemma {:induction false} SameCount(s: seq<Project>, p: Project -> bool, q: Project -> bool)
    requires forall x :: p(x) == q(x)
    ensures Count(s, p) == Count(s, q)
  {
    if s != [] {
      SameCount(s[1..], p, q);
    }
  }

  /** The result of the list request. */
  datatype Fetch = Loaded(payload: Payload<Project>) | Failed

  class Page {
    /** None stands for a response object kept in place of a list. */
    var projects: Option<seq<Project>>
    var loading: bool
    var error: string

    constructor()
      ensures projects == Some([]) && loading && error == ""
    {
      projects := Some([]);
      loading := true;
      error := "";
    }

    /** `fetchProjects`: `data.projects || data`; a failure keeps the old list. */
    method Load(result: Fetch)
      modifies this
      ensures result.Loaded? ==> projects == Unwrap(result.payload) && error == ""
      ensures result.Failed? ==> projects == old(projects) && error == "Could not load projects"
      ensures !loading
    {
      loading := true;
      error := "";
      if result.Failed? {
        error := "Could not load projects";
      } else {
        projects := Unwrap(result.payload);
      }
      loading := false;
    }
  }
}
