/** The in-memory project store of lib/actions.ts: a module-level list of
    projects that the server actions read, push to, overwrite by index and
    replace by a filtered copy. */
module Actions {
  import opened Types
  import Text

  /** The four seeded projects the store starts with. */
  function InitialProjects(): (r: seq<Project>)
    ensures |r| == 4
    ensures forall i, j :: 0 <= i < j < |r| ==> r[i].id != r[j].id
    ensures forall i :: 0 <= i < |r| ==> r[i].dots == [] && r[i].comment == ""
  {
    [ Project("project-tools-tab", "Tools Tab", [], ""),
      Project("project-surfy-writer-assistant", "Surfy Writer/Assistant Mode", [], ""),
      Project("project-pocs-cleanup",
              "POCs (Outline Templates, Custom Voices in Surfy, and Repurposing in CE) Cleanup", [], ""),
      Project("project-view-only-shared-ces", "View-only Shared CEs", [], "") ]
  }

  /** `findIndex` by id: the position of the first project with that id. */
  function FindIndex(s: seq<Project>, id: string): (r: Option<nat>)
    ensures r.None? <==> forall j :: 0 <= j < |s| ==> s[j].id != id
    ensures r.Some? ==> r.value < |s| && s[r.value].id == id
    ensures r.Some? ==> forall j :: 0 <= j < r.value ==> s[j].id != id
    decreases |s|
  {
    if |s| == 0 then None
    else if s[0].id == id then Some(0)
    else match FindIndex(s[1..], id)
      case None => None
      case Some(k) => Some(k + 1)
  }

  /** A position holding the id, with no earlier one, is what FindIndex returns. */
  lemma FindIndexFirst(s: seq<Project>, id: string, i: nat)
    requires i < |s| && s[i].id == id
    requires forall j :: 0 <= j < i ==> s[j].id != id
    ensures FindIndex(s, id) == Some(i)
  {
    assert FindIndex(s, id).Some?;
  }

  /** The store after `saveProject(p)`: appended when no project has its id,
      otherwise written over the first project with its id. */
  function Upsert(s: seq<Project>, p: Project): seq<Project>
  {
    match FindIndex(s, p.id)
    case None => s + [p]
    case Some(i) => s[i := p]
  }

  /** The store after `deleteProject(id)`: `filter` keeping the other ids. */
  function RemoveProject(s: seq<Project>, id: string): (r: seq<Project>)
    ensures |r| <= |s|
    ensures forall q :: q in r ==> q in s && q.id != id
    ensures forall q :: q in s && q.id != id ==> q in r
    decreases |s|
  {
    if |s| == 0 then []
    else if s[0].id == id then RemoveProject(s[1..], id)
    else [s[0]] + RemoveProject(s[1..], id)
  }

  /** Saving a project whose id is absent appends it; nothing else moves. */
  lemma UpsertAbsent(s: seq<Project>, p: Project)
    requires forall j :: 0 <= j < |s| ==> s[j].id != p.id
    ensures |Upsert(s, p)| == |s| + 1
    ensures Upsert(s, p)[|s|] == p
    ensures forall j :: 0 <= j < |s| ==> Upsert(s, p)[j] == s[j]
  {
  }

  /** Saving a project whose id is present replaces the first project with
      that id and only it; the length stays. */
  lemma UpsertPresent(s: seq<Project>, p: Project, i: nat)
    requires i < |s| && s[i].id == p.id
    requires forall j :: 0 <= j < i ==> s[j].id != p.id
    ensures |Upsert(s, p)| == |s|
    ensures Upsert(s, p)[i] == p
    ensures forall j :: 0 <= j < |s| && j != i ==> Upsert(s, p)[j] == s[j]
  {
    FindIndexFirst(s, p.id, i);
  }

  /** Saving the same project twice leaves the store as one save did. */
  lemma {:induction false} UpsertIdempotent(s: seq<Project>, p: Project)
    ensures Upsert(Upsert(s, p), p) == Upsert(s, p)
  {
    var t := Upsert(s, p);
    match FindIndex(s, p.id)
    case None =>
      assert forall j :: 0 <= j < |s| ==> t[j] == s[j];
      FindIndexFirst(t, p.id, |s|);
    case Some(i) =>
      assert forall j :: 0 <= j < i ==> t[j] == s[j];
      FindIndexFirst(t, p.id, i);
  }

  /** After `deleteProject(id)` no project with that id is left. */
  lemma RemoveProjectGone(s: seq<Project>, id: string)
    ensures forall j :: 0 <= j < |RemoveProject(s, id)| ==> RemoveProject(s, id)[j].id != id
  {
    var r := RemoveProject(s, id);
    forall j | 0 <= j < |r| ensures r[j].id != id {
      assert r[j] in r;
    }
  }

  /** Deleting keeps the relative order of the rest: filtering a
      concatenation filters each part and joins them in the same order. */
  lemma {:induction false} RemoveProjectConcat(a: seq<Project>, b: seq<Project>, id: string)
    ensures RemoveProject(a + b, id) == RemoveProject(a, id) + RemoveProject(b, id)
    decreases |a|
  {
    if |a| > 0 {
      assert (a + b)[1..] == a[1..] + b;
      RemoveProjectConcat(a[1..], b, id);
    } else {
      assert a + b == b;
    }
  }

  /** Deleting an id no project has leaves the store unchanged. */
  lemma {:induction false} RemoveProjectAbsent(s: seq<Project>, id: string)
    requires forall j :: 0 <= j < |s| ==> s[j].id != id
    ensures RemoveProject(s, id) == s
    decreases |s|
  {
    if |s| > 0 {
      RemoveProjectAbsent(s[1..], id);
      assert [s[0]] + s[1..] == s;
    }
  }

  /** The store. `projects` is the module-level `let projects`. */
  class ProjectStore {
    var projects: seq<Project>

    constructor ()
      ensures projects == InitialProjects()
    {
      projects := InitialProjects();
    }

    /** `getProjects()`: a copy of the whole list, in store order. */
    method GetProjects() returns (r: seq<Project>)
      ensures |r| == |projects|
      ensures forall i :: 0 <= i < |r| ==> r[i] == projects[i]
    {
      r := projects;
    }

    /** `getProject(id)`: the first project with that id, or not-found. */
    method GetProject(id: string) returns (r: Result<Project>)
      ensures r.Err? <==> forall j :: 0 <= j < |projects| ==> projects[j].id != id
      ensures r.Err? ==> r.error == NotFound(id)
      ensures r.Ok? ==> exists i :: 0 <= i < |projects| && projects[i] == r.value
                                    && r.value.id == id
                                    && forall j :: 0 <= j < i ==> projects[j].id != id
    {
      match FindIndex(projects, id)
      case None =>
        r := Err(NotFound(id));
      case Some(i) =>
        r := Ok(projects[i]);
    }

    /** `createProject(name)`: a fresh project with id `project-<now>`, no
        dots and an empty comment, pushed at the end. */
    method CreateProject(name: string, now: nat) returns (p: Project)
      modifies this
      ensures p == Project("project-" + Text.NatToString(now), name, [], "")
      ensures |projects| == |old(projects)| + 1 && projects[|old(projects)|] == p
      ensures forall j :: 0 <= j < |old(projects)| ==> projects[j] == old(projects)[j]
    {
      p := Project("project-" + Text.NatToString(now), name, [], "");
      projects := projects + [p];
    }

    /** `saveProject(project)`: upsert by id; returns its argument. */
    method SaveProject(project: Project) returns (r: Project)
      modifies this
      ensures r == project
      ensures projects == Upsert(old(projects), project)
    {
      var index := FindIndex(projects, project.id);
      if index.None? {
        projects := projects + [project];
      } else {
        projects := projects[index.value := project];
      }
      r := project;
    }

    /** `deleteProject(id)`: the list replaced by its filtered copy. */
    method DeleteProject(id: string)
      modifies this
      ensures projects == RemoveProject(old(projects), id)
    {
      projects := RemoveProject(projects, id);
    }
  }
}
