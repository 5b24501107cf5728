/** The session state of components/hill-chart-app.tsx: which project is
    shown, its dot list, the `newDotId` marker and the `usePhysics` flag
    that follows the dot count. The new dot lists are the pure spread,
    `map` and `filter` expressions below; the handlers are the methods of
    `Session`. */
module HillChartApp {
  import opened Types
  import Text
  import Actions

  /** The dot `handleAddDot` creates when the list holds `n` dots: id
      `dot-<now>`, name `Task n+1`, on the left of the hill at 0.2. */
  function NewDot(n: nat, now: nat, color: string): (d: Dot)
    ensures d.x == 0.2 && d.y == 0.0 && d.color == color
    ensures d.name == Text.TaskName(n + 1)
    ensures d.id == "dot-" + Text.NatToString(now)
  {
    Dot("dot-" + Text.NatToString(now), Text.TaskName(n + 1), 0.2, 0.0, color)
  }

  /** Dots created at different times get different ids. */
  lemma NewDotIdsDistinct(n1: nat, n2: nat, now1: nat, now2: nat, c1: string, c2: string)
    requires now1 != now2
    ensures NewDot(n1, now1, c1).id != NewDot(n2, now2, c2).id
  {
    var a, b := Text.NatToString(now1), Text.NatToString(now2);
    if "dot-" + a == "dot-" + b {
      assert ("dot-" + a)[4..] == a && ("dot-" + b)[4..] == b;
      Text.NatToStringInjective(now1, now2);
    }
  }

  /** `dots.map((dot) => (dot.id === updated.id ? updated : dot))`. */
  function ReplaceDot(dots: seq<Dot>, updated: Dot): (r: seq<Dot>)
    ensures |r| == |dots|
    ensures forall i :: 0 <= i < |dots| && dots[i].id == updated.id ==> r[i] == updated
    ensures forall i :: 0 <= i < |dots| && dots[i].id != updated.id ==> r[i] == dots[i]
    decreases |dots|
  {
    if |dots| == 0 then []
    else [if dots[0].id == updated.id then updated else dots[0]] + ReplaceDot(dots[1..], updated)
  }

  /** `dots.filter((dot) => dot.id !== id)`. */
  function RemoveDot(dots: seq<Dot>, id: string): (r: seq<Dot>)
    ensures |r| <= |dots|
    ensures forall d :: d in r ==> d in dots && d.id != id
    ensures forall d :: d in dots && d.id != id ==> d in r
    decreases |dots|
  {
    if |dots| == 0 then []
    else if dots[0].id == id then RemoveDot(dots[1..], id)
    else [dots[0]] + RemoveDot(dots[1..], id)
  }

  /** Deleting keeps the other dots in order: the filter of a concatenation
      is the concatenation of the filters. */
  lemma {:induction false} RemoveDotConcat(a: seq<Dot>, b: seq<Dot>, id: string)
    ensures RemoveDot(a + b, id) == RemoveDot(a, id) + RemoveDot(b, id)
    decreases |a|
  {
    if |a| > 0 {
      assert (a + b)[1..] == a[1..] + b;
      RemoveDotConcat(a[1..], b, id);
    } else {
      assert a + b == b;
    }
  }

  /** Deleting an id no dot has leaves the list as it was. */
  lemma {:induction false} RemoveDotAbsent(dots: seq<Dot>, id: string)
    requires forall j :: 0 <= j < |dots| ==> dots[j].id != id
    ensures RemoveDot(dots, id) == dots
    decreases |dots|
  {
    if |dots| > 0 {
      RemoveDotAbsent(dots[1..], id);
      assert [dots[0]] + dots[1..] == dots;
    }
  }

  /** Replacing by an id no dot has leaves the list as it was. */
  lemma ReplaceDotAbsent(dots: seq<Dot>, updated: Dot)
    requires forall j :: 0 <= j < |dots| ==> dots[j].id != updated.id
    ensures ReplaceDot(dots, updated) == dots
  {
  }

  /** The V-shaped chart is shown only while the project has two dots. */
  predicate PhysicsConsistent(usePhysics: bool, current: Option<Project>)
  {
    usePhysics ==> current.Some? && |current.value.dots| >= 2
  }

  /** The `HillChartApp` component's state. Fields that only drive
      decoration (the save animation, the saved image URL) are left out. */
  class Session {
    var projects: seq<Project>
    var currentProject: Option<Project>
    var isLoading: bool
    var showFixUXPopup: bool
    var showFixButton: bool
    var usePhysics: bool
    var newDotId: Option<string>

    predicate Consistent()
      reads this
    {
      PhysicsConsistent(usePhysics, currentProject)
    }

    /** The initial `useState` values. */
    constructor ()
      ensures projects == [] && currentProject == None && isLoading
      ensures !showFixUXPopup && !showFixButton && !usePhysics && newDotId == None
      ensures Consistent()
    {
      projects := [];
      currentProject := None;
      isLoading := true;
      showFixUXPopup := false;
      showFixButton := false;
      usePhysics := false;
      newDotId := None;
    }

    /** `loadProjects`: list the store, then show the project named by
        `initialProjectId` when it is given (non-empty) and found, else the
        first project; with an empty store there is no current project.
        Physics is switched on when the loaded project has two dots. */
    method Load(store: Actions.ProjectStore, initialProjectId: Option<string>)
      modifies this
      ensures projects == store.projects && !isLoading
      ensures store.projects == [] ==> currentProject == None && usePhysics == old(usePhysics)
      ensures store.projects != [] ==> currentProject.Some?
      ensures store.projects != [] && initialProjectId.Some? && initialProjectId.value != ""
              && Actions.FindIndex(store.projects, initialProjectId.value).Some?
              ==> currentProject == Some(store.projects[Actions.FindIndex(store.projects, initialProjectId.value).value])
      ensures store.projects != []
              && (initialProjectId.None? || initialProjectId.value == ""
                  || Actions.FindIndex(store.projects, initialProjectId.value).None?)
              ==> currentProject == Some(store.projects[0])
      ensures store.projects != [] ==>
                usePhysics == (old(usePhysics) || |currentProject.value.dots| >= 2)
      ensures showFixUXPopup == old(showFixUXPopup) && showFixButton == old(showFixButton)
      ensures newDotId == old(newDotId)
      ensures !old(usePhysics) ==> Consistent()
    {
      var projectList := store.GetProjects();
      projects := projectList;
      if |projectList| > 0 {
        var projectToLoad: Option<Project> := None;
        if initialProjectId.Some? && initialProjectId.value != "" {
          var r := store.GetProject(initialProjectId.value);
          if r.Ok? {
            projectToLoad := Some(r.value);
            LoadedIsFound(store.projects, initialProjectId.value, r.value);
          }
        }
        if projectToLoad.None? {
          var r := store.GetProject(projectList[0].id);
          assert r.Ok?;
          Actions.FindIndexFirst(store.projects, projectList[0].id, 0);
          LoadedIsFound(store.projects, projectList[0].id, r.value);
          projectToLoad := Some(r.value);
        }
        currentProject := projectToLoad;
        if |projectToLoad.value.dots| >= 2 {
          usePhysics := true;
        }
      } else {
        currentProject := None;
      }
      isLoading := false;
    }

    /** `handleProjectChange`: show the project with that id and set physics
        to "it has two dots"; a failed lookup changes nothing. */
    method ProjectChange(store: Actions.ProjectStore, projectId: string)
      modifies this
      ensures Actions.FindIndex(store.projects, projectId).None? ==>
                currentProject == old(currentProject) && usePhysics == old(usePhysics)
      ensures Actions.FindIndex(store.projects, projectId).Some? ==>
                currentProject == Some(store.projects[Actions.FindIndex(store.projects, projectId).value])
                && usePhysics == (|currentProject.value.dots| >= 2)
      ensures projects == old(projects) && isLoading == old(isLoading) && newDotId == old(newDotId)
      ensures showFixUXPopup == old(showFixUXPopup) && showFixButton == old(showFixButton)
      ensures old(Consistent()) ==> Consistent()
    {
      var r := store.GetProject(projectId);
      if r.Ok? {
        LoadedIsFound(store.projects, projectId, r.value);
        currentProject := Some(r.value);
        usePhysics := |r.value.dots| >= 2;
      }
    }

    /** `handleSave`: upsert the current project into the store and refresh
        the project list from it. */
    method Save(store: Actions.ProjectStore) returns (saved: bool)
      modifies this, store
      ensures currentProject.None? ==> !saved && store.projects == old(store.projects) && projects == old(projects)
      ensures currentProject.Some? ==> saved && store.projects == Actions.Upsert(old(store.projects), currentProject.value)
                                        && projects == store.projects
      ensures currentProject == old(currentProject) && usePhysics == old(usePhysics)
      ensures newDotId == old(newDotId) && isLoading == old(isLoading)
      ensures showFixUXPopup == old(showFixUXPopup) && showFixButton == old(showFixButton)
    {
      if currentProject.None? {
        return false;
      }
      var _ := store.SaveProject(currentProject.value);
      var projectList := store.GetProjects();
      projects := projectList;
      saved := true;
    }

    /** `handleAddDot`: append a new dot at 0.2 named `Task n+1`, mark it as
        the new dot, and switch physics on when the list reaches two dots
        (also hiding the fix button). */
    method AddDot(now: nat, color: string)
      modifies this
      ensures old(currentProject).None? ==>
                currentProject == None && newDotId == old(newDotId)
                && usePhysics == old(usePhysics) && showFixButton == old(showFixButton)
      ensures old(currentProject).Some? ==>
                var before := old(currentProject.value);
                var d := NewDot(|before.dots|, now, color);
                currentProject == Some(before.(dots := before.dots + [d]))
                && newDotId == Some(d.id)
                && (|before.dots| + 1 >= 2 && !old(usePhysics) ==> usePhysics && !showFixButton)
                && (!(|before.dots| + 1 >= 2 && !old(usePhysics)) ==>
                      usePhysics == old(usePhysics) && showFixButton == old(showFixButton))
      ensures projects == old(projects) && isLoading == old(isLoading)
      ensures showFixUXPopup == old(showFixUXPopup)
      ensures old(Consistent()) ==> Consistent()
    {
      if currentProject.None? {
        return;
      }
      var current := currentProject.value;
      var newDot := NewDot(|current.dots|, now, color);
      var updatedDots := current.dots + [newDot];
      currentProject := Some(current.(dots := updatedDots));
      newDotId := Some(newDot.id);
      if |updatedDots| >= 2 && !usePhysics {
        usePhysics := true;
        showFixButton := false;
      }
    }

    /** `handleUpdateDot`: replace every dot with the record's id by the
        record; the new-dot marker is cleared when it named that id. */
    method UpdateDot(updatedDot: Dot)
      modifies this
      ensures old(currentProject).None? ==> currentProject == None && newDotId == old(newDotId)
      ensures old(currentProject).Some? ==>
                currentProject == Some(old(currentProject.value).(dots := ReplaceDot(old(currentProject.value.dots), updatedDot)))
                && newDotId == (if old(newDotId) == Some(updatedDot.id) then None else old(newDotId))
      ensures usePhysics == old(usePhysics) && showFixButton == old(showFixButton)
      ensures projects == old(projects) && isLoading == old(isLoading)
      ensures showFixUXPopup == old(showFixUXPopup)
      ensures old(Consistent()) ==> Consistent()
    {
      if currentProject.None? {
        return;
      }
      var current := currentProject.value;
      currentProject := Some(current.(dots := ReplaceDot(current.dots, updatedDot)));
      if newDotId == Some(updatedDot.id) {
        newDotId := None;
      }
    }

    /** `handleDeleteDot`: drop the dots with that id, clear the new-dot
        marker when it named it, and switch physics off (hiding the fix
        button) when fewer than two dots remain. */
    method DeleteDot(dotId: string)
      modifies this
      ensures old(currentProject).None? ==>
                currentProject == None && newDotId == old(newDotId)
                && usePhysics == old(usePhysics) && showFixButton == old(showFixButton)
      ensures old(currentProject).Some? ==>
                var remaining := RemoveDot(old(currentProject.value.dots), dotId);
                currentProject == Some(old(currentProject.value).(dots := remaining))
                && newDotId == (if old(newDotId) == Some(dotId) then None else old(newDotId))
                && (|remaining| < 2 && old(usePhysics) ==> !usePhysics && !showFixButton)
                && (!(|remaining| < 2 && old(usePhysics)) ==>
                      usePhysics == old(usePhysics) && showFixButton == old(showFixButton))
      ensures projects == old(projects) && isLoading == old(isLoading)
      ensures showFixUXPopup == old(showFixUXPopup)
      ensures old(Consistent()) ==> Consistent()
    {
      if currentProject.None? {
        return;
      }
      var current := currentProject.value;
      var updatedDots := RemoveDot(current.dots, dotId);
      currentProject := Some(current.(dots := updatedDots));
      if newDotId == Some(dotId) {
        newDotId := None;
      }
      if |updatedDots| < 2 && usePhysics {
        usePhysics := false;
        showFixButton := false;
      }
    }

    /** `handleFixUX`: open the popup and hide the fix button. */
    method FixUX()
      modifies this
      ensures showFixUXPopup && !showFixButton
      ensures usePhysics == old(usePhysics) && currentProject == old(currentProject)
      ensures newDotId == old(newDotId) && projects == old(projects) && isLoading == old(isLoading)
      ensures old(Consistent()) ==> Consistent()
    {
      showFixUXPopup := true;
      showFixButton := false;
    }

    /** `handleFixUXClose`: close the popup and force physics off, which
        makes the session consistent whatever it was before. */
    method FixUXClose()
      modifies this
      ensures !showFixUXPopup && !usePhysics
      ensures showFixButton == old(showFixButton) && currentProject == old(currentProject)
      ensures newDotId == old(newDotId) && projects == old(projects) && isLoading == old(isLoading)
      ensures Consistent()
    {
      showFixUXPopup := false;
      usePhysics := false;
    }

    /** What the project selector does with a freshly created project: add
        it to the list and make it current, leaving `usePhysics` alone. */
    method SelectCreatedProject(newProject: Project)
      modifies this
      ensures projects == old(projects) + [newProject]
      ensures currentProject == Some(newProject)
      ensures usePhysics == old(usePhysics) && showFixButton == old(showFixButton)
      ensures newDotId == old(newDotId) && isLoading == old(isLoading)
      ensures showFixUXPopup == old(showFixUXPopup)
    {
      projects := projects + [newProject];
      currentProject := Some(newProject);
    }
  }

  /** What `getProject(id)` returned is the first project with that id. */
  lemma LoadedIsFound(s: seq<Project>, id: string, p: Project)
    requires exists i :: 0 <= i < |s| && s[i] == p && p.id == id
                         && forall j :: 0 <= j < i ==> s[j].id != id
    ensures Actions.FindIndex(s, id).Some? && s[Actions.FindIndex(s, id).value] == p
  {
    var i :| 0 <= i < |s| && s[i] == p && p.id == id && forall j :: 0 <= j < i ==> s[j].id != id;
    Actions.FindIndexFirst(s, id, i);
  }

  /** Creating a project while two dots keep physics on leaves physics on
      over a project with no dots: `SelectCreatedProject` does not keep
      `Consistent`. */
  method CreationBreaksConsistency(now: nat) returns (usePhysics: bool, dotCount: nat)
    ensures usePhysics && dotCount == 0
  {
    var store := new Actions.ProjectStore();
    var session := new Session();
    session.Load(store, None);
    session.AddDot(now, "c1");
    session.AddDot(now + 1, "c2");
    assert session.usePhysics && session.Consistent();
    var created := store.CreateProject("New", now + 2);
    session.SelectCreatedProject(created);
    assert !session.Consistent();
    usePhysics, dotCount := session.usePhysics, |session.currentProject.value.dots|;
  }
}
