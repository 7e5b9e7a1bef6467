/** The projects list page: the bug count fetched for every project and the
    create form. Its three count dictionaries are those of the projects page. */
module ProjectsList {
  import opened Js
  import opened Objects
  import Projects

  /** How the statistics request for one project ended. */
  datatype StatsOutcome = StatsOk(total: Value) | StatsNotOk | StatsThrew

  /** The value stored for one project: `stats.total`, or 0. */
  function BugCount(o: StatsOutcome): (r: Value)
    ensures o.StatsOk? ==> r == o.total
    ensures !o.StatsOk? ==> r == Num(0)
  {
    if o.StatsOk? then o.total else Num(0)
  }

  /** `bugCountsObj` once every request has settled, in list order. */
  function BugCounts(projects: seq<Projects.Project>, outcomes: seq<StatsOutcome>): Obj
    requires |outcomes| == |projects|
  {
    if projects == [] then []
    else
      var n := |projects| - 1;
      Set(BugCounts(projects[..n], outcomes[..n]), projects[n].id, BugCount(outcomes[n]))
  }

  /** No id appears twice in the dictionary. */
  lemma {:induction false} BugCountsWellFormed(projects: seq<Projects.Project>, outcomes: seq<StatsOutcome>)
    requires |outcomes| == |projects|
    ensures WellFormed(BugCounts(projects, outcomes))
  {
    if projects != [] {
      var n := |projects| - 1;
      BugCountsWellFormed(projects[..n], outcomes[..n]);
      SetWellFormed(BugCounts(projects[..n], outcomes[..n]), projects[n].id, BugCount(outcomes[n]));
    }
  }

  /** Every project gets an entry and nothing else does. */
  lemma {:induction false} BugCountsKeys(projects: seq<Projects.Project>, outcomes: seq<StatsOutcome>)
    requires |outcomes| == |projects|
    ensures forall k :: k in Keys(BugCounts(projects, outcomes)) <==> exists i :: 0 <= i < |projects| && projects[i].id == k
  {
    if projects != [] {
      var n := |projects| - 1;
      var init := projects[..n];
      var prev := BugCounts(init, outcomes[..n]);
      BugCountsKeys(init, outcomes[..n]);
      SetKeys(prev, projects[n].id, BugCount(outcomes[n]));
      forall k | k in Keys(BugCounts(projects, outcomes)) ensures exists i :: 0 <= i < |projects| && projects[i].id == k {
        if k != projects[n].id {
          var i :| 0 <= i < |init| && init[i].id == k;
          assert projects[i].id == k;
        }
      }
      forall k | exists i :: 0 <= i < |projects| && projects[i].id == k ensures k in Keys(BugCounts(projects, outcomes)) {
        var i :| 0 <= i < |projects| && projects[i].id == k;
        if i < n {
          assert init[i].id == k;
        }
      }
    }
  }

  /** The entry of a project is what its own request gave; for a repeated id,
      its last occurrence wins. */
  lemma {:induction false} BugCountsValues(projects: seq<Projects.Project>, outcomes: seq<StatsOutcome>, i: nat)
    requires |outcomes| == |projects| && i < |projects|
    requires forall j :: i < j < |projects| ==> projects[j].id != projects[i].id
    ensures Get(BugCounts(projects, outcomes), projects[i].id) == BugCount(outcomes[i])
  {
    var n := |projects| - 1;
    var init, inits := projects[..n], outcomes[..n];
    SetGet(BugCounts(init, inits), projects[n].id, BugCount(outcomes[n]), projects[i].id);
    if i < n {
      assert init[i] == projects[i] && inits[i] == outcomes[i];
      forall j | i < j < |init| ensures init[j].id != init[i].id {
        assert init[j] == projects[j];
      }
      BugCountsValues(init, inits, i);
    }
  }

  /** How the list request ended: it failed before a body was read (a reply
      that is not ok, the network, a body that is not JSON), or it gave a body
      that is not an array, or a list of projects. */
  datatype ListReply = ListFailed | NotAList | ProjectList(items: seq<Projects.Project>)

  /** How the create request ended; a rejection may carry the server's message. */
  datatype CreateOutcome = Created | Rejected(message: Option<string>) | CreateThrew(reason: string)

  class Page {
    /** None once a body that is not an array has been stored. */
    var projects: Option<seq<Projects.Project>>
    var bugCounts: Obj
    var error: string
    var loading: bool
    var formName: string
    var formDescription: string
    var formError: string
    var formLoading: bool
    var successMsg: string
    /** How many times the list has been requested again after a create. */
    var reloads: nat

    constructor()
      ensures projects == Some([]) && bugCounts == [] && error == "" && loading
      ensures formName == "" && formDescription == "" && formError == "" && !formLoading
      ensures successMsg == "" && reloads == 0
    {
      projects := Some([]);
      bugCounts := [];
      error := "";
      loading := true;
      formName := "";
      formDescription := "";
      formError := "";
      formLoading := false;
      successMsg := "";
      reloads := 0;
    }

    /** `fetchProjects`: the list, then one statistics request per project.
        The requests run concurrently; they are applied here in list order.
        A body that is not an array is stored before `data.map` throws on it,
        so it replaces the list while the counts stay and the error is set. */
    method Load(reply: ListReply, outcomes: seq<StatsOutcome>)
      requires reply.ProjectList? ==> |outcomes| == |reply.items|
      modifies this
      ensures reply.ProjectList? ==>
        projects == Some(reply.items) && bugCounts == BugCounts(reply.items, outcomes) && error == ""
      ensures reply.NotAList? ==> projects == None && bugCounts == old(bugCounts) && error == "Could not load projects"
      ensures reply.ListFailed? ==>
        projects == old(projects) && bugCounts == old(bugCounts) && error == "Could not load projects"
      ensures !loading
      ensures formName == old(formName) && formDescription == old(formDescription) && formError == old(formError)
      ensures formLoading == old(formLoading) && successMsg == old(successMsg) && reloads == old(reloads)
    {
      loading := true;
      error := "";
      match reply {
        case ListFailed =>
          error := "Could not load projects";
        case NotAList =>
          projects := None;
          error := "Could not load projects";
        case ProjectList(data) =>
          projects := Some(data);
          var counts: Obj := [];
          var i := 0;
          while i < |data|
            invariant 0 <= i <= |data|
            invariant counts == BugCounts(data[..i], outcomes[..i])
          {
            assert data[..i + 1][..i] == data[..i] && outcomes[..i + 1][..i] == outcomes[..i];
            counts := Set(counts, data[i].id, BugCount(outcomes[i]));
            i := i + 1;
          }
          assert data[..i] == data && outcomes[..i] == outcomes;
          bugCounts := counts;
      }
      loading := false;
    }

    /** `handleFormSubmit`: a created project clears the form and asks for the
        list again; a failure keeps the form and shows why. */
    method Submit(outcome: CreateOutcome)
      modifies this
      ensures outcome.Created? ==>
        && formName == "" && formDescription == "" && formError == ""
        && successMsg == "Project created successfully!" && reloads == old(reloads) + 1
      ensures outcome.Rejected? ==>
        && formName == old(formName) && formDescription == old(formDescription)
        && formError == (if outcome.message.Some? && outcome.message.value != "" then outcome.message.value else "Failed to create project")
        && successMsg == old(successMsg) && reloads == old(reloads)
      ensures outcome.CreateThrew? ==>
        && formName == old(formName) && formDescription == old(formDescription)
        && formError == outcome.reason && successMsg == old(successMsg) && reloads == old(reloads)
      ensures !formLoading
      ensures projects == old(projects) && bugCounts == old(bugCounts) && error == old(error) && loading == old(loading)
    {
      formError := "";
      formLoading := true;
      match outcome {
        case Created =>
          formName, formDescription := "", "";
          successMsg := "Project created successfully!";
          reloads := reloads + 1;
        case Rejected(message) =>
          formError := if message.Some? && message.value != "" then message.value else "Failed to create project";
        case CreateThrew(reason) =>
          formError := reason;
      }
      formLoading := false;
    }
  }
}
