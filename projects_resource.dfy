/** src/resources/static/projects.ts: counts by status and the first five projects. */
module ProjectsResource {
  import opened Wrappers
  import opened Json
  import opened Errors
  import opened Entities
  import opened Seqs
  import opened ResourceCommon

  function StatusOf(p: Project): Option<string> {
    p.status
  }

  /** The four statuses the summary counts. */
  const CountedStatuses: seq<string> := ["active", "draft", "archived", "completed"]

  datatype StatusSummary = StatusSummary(active: nat, draft: nat, archived: nat, completed: nat)

  function Summary(projects: seq<Project>): (s: StatusSummary)
    ensures s.active == KeyCount(projects, StatusOf, Active.Name())
    ensures s.draft == KeyCount(projects, StatusOf, Draft.Name())
    ensures s.archived == KeyCount(projects, StatusOf, Archived.Name())
    ensures s.completed == KeyCount(projects, StatusOf, Completed.Name())
  {
    StatusSummary(KeyCount(projects, StatusOf, "active"), KeyCount(projects, StatusOf, "draft"),
                  KeyCount(projects, StatusOf, "archived"), KeyCount(projects, StatusOf, "completed"))
  }

  /** A project has one status, so the four counts add up to at most the number of
      projects (projects without one of these statuses are in none of them). */
  lemma SummaryTotal(projects: seq<Project>)
    ensures var s := Summary(projects); s.active + s.draft + s.archived + s.completed <= |projects|
  {
    KeyCountsBound(projects, StatusOf, CountedStatuses);
    var cs := CountedStatuses;
    assert cs[..3] == ["active", "draft", "archived"] && cs[..3][..2] == ["active", "draft"];
    assert cs[..3][..2][..1] == ["active"] && cs[..3][..2][..1][..0] == [];
    assert KeyCounts(projects, StatusOf, cs[..3][..2][..1]) == KeyCount(projects, StatusOf, "active");
    assert KeyCounts(projects, StatusOf, cs[..3][..2]) ==
      KeyCount(projects, StatusOf, "active") + KeyCount(projects, StatusOf, "draft");
    assert KeyCounts(projects, StatusOf, cs[..3]) ==
      KeyCount(projects, StatusOf, "active") + KeyCount(projects, StatusOf, "draft") +
      KeyCount(projects, StatusOf, "archived");
    assert KeyCounts(projects, StatusOf, cs) ==
      KeyCount(projects, StatusOf, "active") + KeyCount(projects, StatusOf, "draft") +
      KeyCount(projects, StatusOf, "archived") + KeyCount(projects, StatusOf, "completed");
  }

  /** One entry of `recentProjects`. */
  datatype ProjectEntry = ProjectEntry(id: string, name: string, status: Option<string>, workflowCount: nat)

  function Entry(p: Project): (e: ProjectEntry)
    ensures e.id == p.id && e.name == p.name && e.status == p.status
    ensures e.workflowCount == if p.workflowIds.Some? then |p.workflowIds.value| else 0
  {
    ProjectEntry(p.id, p.name, p.status, if p.workflowIds.Some? then |p.workflowIds.value| else 0)
  }

  datatype ProjectsResource = ProjectsResource(count: nat, summary: StatusSummary, recentProjects: seq<ProjectEntry>)

  const FailurePrefix := "Failed to retrieve projects: "

  /** getProjectsResource; `listed` is the outcome of listProjects. */
  function GetProjectsResource(listed: Result<seq<Project>, Thrown>): (r: Result<ProjectsResource, Thrown>)
    ensures listed.Failure? ==> r == Failure(ResourceFailure(FailurePrefix, listed.error))
    ensures listed.Success? ==>
      r.Success? && r.value.count == |listed.value| && r.value.summary == Summary(listed.value) &&
      |r.value.recentProjects| == (if |listed.value| < 5 then |listed.value| else 5) &&
      forall i :: 0 <= i < |r.value.recentProjects| ==> r.value.recentProjects[i] == Entry(listed.value[i])
  {
    match listed
    case Failure(t) => Failure(ResourceFailure(FailurePrefix, t))
    case Success(ps) =>
      var recent := Take(ps, 5);
      Success(ProjectsResource(|ps|, Summary(ps), seq(|recent|, i requires 0 <= i < |recent| => Entry(recent[i]))))
  }
}
