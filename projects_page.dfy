/** The admin's project picker: the loaded list, the search over it, the
    three counters above it, and the prepending of a newly created
    project. The server's answers are parameters. */
module ProjectsPage {
  import opened Wrappers
  import opened Strings
  import opened Lists
  import opened MockStore

  /** The case-insensitive search over name and description. */
  predicate MatchesProject(p: Project, query: string) {
    ContainsIgnoreCase(p.fields.name, query)
    || (p.fields.description.Some? && ContainsIgnoreCase(p.fields.description.value, query))
  }

  function Matches(query: string): Project -> bool {
    (p: Project) => MatchesProject(p, query)
  }

  /** `filteredProjects`. */
  function FilterProjects(ps: seq<Project>, query: string): (r: seq<Project>)
    ensures forall p :: p in r <==> p in ps && MatchesProject(p, query)
    ensures IsSubsequence(r, ps)
  {
    FilterIsSubsequence(ps, Matches(query));
    Filter(ps, Matches(query))
  }

  /** An empty search lists every project. */
  lemma EmptySearchKeepsAll(ps: seq<Project>)
    ensures FilterProjects(ps, "") == ps
  {
    forall k | 0 <= k < |ps| ensures Matches("")(ps[k]) {
      ContainsEmpty(ps[k].fields.name);
    }
    FilterAll(ps, Matches(""));
  }

  /** The counters: all projects, one active event when there is any
      project, the rest upcoming. */
  datatype Stats = Stats(total: nat, active: nat, upcoming: nat)

  function StatsOf(ps: seq<Project>): (s: Stats)
    ensures s.total == |ps|
    ensures s.active == (if |ps| > 0 then 1 else 0)
    ensures s.upcoming == (if |ps| > 1 then |ps| - 1 else 0)
  {
    Stats(|ps|, if |ps| > 0 then 1 else 0, if |ps| > 1 then |ps| - 1 else 0)
  }

  /** The active and upcoming counters split the total. */
  lemma StatsAddUp(ps: seq<Project>)
    ensures StatsOf(ps).active + StatsOf(ps).upcoming == StatsOf(ps).total
    ensures StatsOf(ps).active <= 1
  {
  }

  class ProjectsPageState {
    var projects: seq<Project>
    var loading: bool
    var isCreateOpen: bool
    var searchQuery: string

    constructor ()
      ensures projects == [] && loading && !isCreateOpen && searchQuery == ""
    {
      projects := [];
      loading := true;
      isCreateOpen := false;
      searchQuery := "";
    }

    /** `fetchProjects` once `getProjects` answered: the list is replaced
        only on success, and loading ends either way. */
    method OnFetched(result: Option<seq<Project>>)
      modifies this`projects, this`loading
      ensures projects == if result.Some? then result.value else old(projects)
      ensures !loading
    {
      if result.Some? {
        projects := result.value;
      }
      loading := false;
    }

    /** `handleCreateProject` once `createProject` answered: a created
        project goes first and closes the dialog. */
    method OnCreated(result: Option<Project>)
      modifies this`projects, this`isCreateOpen
      ensures projects == if result.Some? then [result.value] + old(projects) else old(projects)
      ensures isCreateOpen == (old(isCreateOpen) && result.None?)
    {
      if result.Some? {
        projects := [result.value] + projects;
        isCreateOpen := false;
      }
    }

    method SetSearchQuery(q: string)
      modifies this`searchQuery
      ensures searchQuery == q
    {
      searchQuery := q;
    }

    function Filtered(): (r: seq<Project>)
      reads this
      ensures IsSubsequence(r, projects)
    {
      FilterProjects(projects, searchQuery)
    }

    function Counters(): (s: Stats)
      reads this
      ensures s.active + s.upcoming == s.total && s.total == |projects|
    {
      StatsAddUp(projects);
      StatsOf(projects)
    }
  }

  /** A created project becomes the first one and the others keep their
      order behind it; the total grows by one. */
  lemma PrependKeepsOrder(p: Project, ps: seq<Project>)
    ensures ([p] + ps)[0] == p && ([p] + ps)[1..] == ps
    ensures StatsOf([p] + ps).total == StatsOf(ps).total + 1
  {
  }
}
