/** How the components work together: the chart's move handler feeds the
    session's `handleUpdateDot`, the dot list's commit feeds it too, and the
    session decides which chart is shown. */
module Scenarios {
  import opened Types
  import Text
  import Actions
  import HillChartApp
  import DotList
  import HillChart
  import DraggableDot

  /** Committing a blank draft for the dot `handleAddDot` just appended
      gives back that dot unchanged: the default name is its creation-time
      name. */
  lemma FreshDotBlankCommit(dots: seq<Dot>, now: nat, color: string, draft: string)
    requires Text.IsBlank(draft)
    ensures var d := HillChartApp.NewDot(|dots|, now, color);
            DotList.CommittedDot((dots + [d])[|dots|], draft, |dots| + 1) == d
  {
    DotList.CommitBlank(HillChartApp.NewDot(|dots|, now, color), draft, |dots| + 1);
  }

  /** Committing a move and then receiving the same pointer offset again
      emits the record already stored: no drift accumulates. */
  lemma MoveCommitIdempotent(dots: seq<Dot>, dotId: string, x: real, width: real, hill: real -> real)
    requires width >= 0.0
    requires HillChart.DotMove(dots, dotId, x, width, hill).Update?
    ensures var d := HillChart.DotMove(dots, dotId, x, width, hill).dot;
            HillChart.DotMove(HillChartApp.ReplaceDot(dots, d), dotId, x, width, hill) == HillChart.Update(d)
  {
    var d := HillChart.DotMove(dots, dotId, x, width, hill).dot;
    var i :| 0 <= i < |dots| && (forall j :: 0 <= j < i ==> dots[j].id != dotId)
             && d == dots[i].(x := d.x, y := d.y);
    var replaced := HillChartApp.ReplaceDot(dots, d);
    assert replaced[i] == d;
    assert forall j :: 0 <= j < i ==> replaced[j] == dots[j];
    assert FindDot(replaced, dotId) == Some(d);
  }

  /** A new project with one added dot: the dot starts at 0.2, its name is
      being edited, the standard chart is shown; deleting it empties the
      project again. */
  method OneDotScenario(now: nat)
    returns (added: Dot, editing: Option<string>, draft: string, remaining: seq<Dot>, physics: bool)
    ensures added.x == 0.2 && added.name == Text.TaskName(1)
    ensures editing == Some(added.id) && draft == ""
    ensures remaining == [] && !physics
  {
    var store := new Actions.ProjectStore();
    var session := new HillChartApp.Session();
    session.Load(store, None);
    var editor := new DotList.NameEditor();
    session.AddDot(now, "#783AFB");
    var dots := session.currentProject.value.dots;
    assert |dots| == 1 && !session.usePhysics;
    added := dots[0];
    editor.AutoEdit(session.newDotId, dots);
    editing, draft := editor.editingDotId, editor.editingName;
    session.DeleteDot(added.id);
    remaining, physics := session.currentProject.value.dots, session.usePhysics;
  }

  /** Two dots switch to the V-shaped chart and a third keeps it. */
  method AddModeScenario(session: HillChartApp.Session, now: nat)
    requires session.currentProject.Some? && session.currentProject.value.dots == []
    requires !session.usePhysics
    modifies session
    ensures session.currentProject.Some? && session.usePhysics
    ensures session.currentProject.value.dots
            == [HillChartApp.NewDot(0, now, "a"), HillChartApp.NewDot(1, now + 1, "b"),
                HillChartApp.NewDot(2, now + 2, "c")]
  {
    session.AddDot(now, "a");
    assert !session.usePhysics;
    session.AddDot(now + 1, "b");
    assert session.usePhysics;
    session.AddDot(now + 2, "c");
  }

  /** Deleting from three dots down to one switches back to the standard
      chart. */
  method DeleteModeScenario(session: HillChartApp.Session, now: nat)
    requires session.currentProject.Some? && session.usePhysics
    requires session.currentProject.value.dots
             == [HillChartApp.NewDot(0, now, "a"), HillChartApp.NewDot(1, now + 1, "b"),
                 HillChartApp.NewDot(2, now + 2, "c")]
    modifies session
    ensures session.currentProject.Some? && !session.usePhysics
    ensures session.currentProject.value.dots == [HillChartApp.NewDot(0, now, "a")]
  {
    var d0, d1, d2 := HillChartApp.NewDot(0, now, "a"), HillChartApp.NewDot(1, now + 1, "b"),
                      HillChartApp.NewDot(2, now + 2, "c");
    HillChartApp.NewDotIdsDistinct(0, 2, now, now + 2, "a", "c");
    HillChartApp.NewDotIdsDistinct(1, 2, now + 1, now + 2, "b", "c");
    HillChartApp.NewDotIdsDistinct(0, 1, now, now + 1, "a", "b");
    assert [d0, d1, d2] == [d0, d1] + [d2];
    HillChartApp.RemoveDotConcat([d0, d1], [d2], d2.id);
    HillChartApp.RemoveDotAbsent([d0, d1], d2.id);
    assert HillChartApp.RemoveDot([d2], d2.id) == [];
    session.DeleteDot(d2.id);
    assert session.currentProject.value.dots == [d0, d1] && session.usePhysics;
    HillChartApp.RemoveDotConcat([d0], [d1], d1.id);
    HillChartApp.RemoveDotAbsent([d0], d1.id);
    assert HillChartApp.RemoveDot([d1], d1.id) == [];
    assert [d0, d1] == [d0] + [d1];
    session.DeleteDot(d1.id);
    assert session.currentProject.value.dots == [d0] && !session.usePhysics;
  }

  /** Dragging a dot from 0.2 to the offset of progress 0.9 on an 800-pixel
      chart commits x = 0.9 and y = hill(0.9). */
  method DragScenario(now: nat, hill: real -> real) returns (moved: Dot, dragging: bool)
    ensures moved.x == 0.9 && moved.y == hill(0.9) && moved.name == Text.TaskName(1)
    ensures !dragging
  {
    var store := new Actions.ProjectStore();
    var session := new HillChartApp.Session();
    session.Load(store, None);
    session.AddDot(now, "a");
    var dots := session.currentProject.value.dots;
    var drag := new DraggableDot.DragController();
    drag.MouseDown();
    var ev := drag.DocumentMouseMove(820.0, Some(100.0), 800.0);
    assert ev == Some(DraggableDot.MoveEvent(720.0, 0.0));
    var outcome := HillChart.DotMove(dots, dots[0].id, ev.value.x, 800.0, hill);
    assert outcome.Update?;
    session.UpdateDot(outcome.dot);
    drag.DocumentMouseUp();
    moved, dragging := session.currentProject.value.dots[0], drag.isDragging;
  }

  /** Renaming the first dot to spaces only emits it under its positional
      default name, and the session stores that record. */
  method BlankRenameScenario(session: HillChartApp.Session, editor: DotList.NameEditor)
    requires session.currentProject.Some? && |session.currentProject.value.dots| > 0
    modifies session, editor
    ensures session.currentProject.Some? && |session.currentProject.value.dots| > 0
    ensures session.currentProject.value.dots[0].name == Text.TaskName(1)
    ensures editor.editingDotId == None
  {
    var dots := session.currentProject.value.dots;
    editor.StartEdit(dots[0]);
    editor.ChangeDraft("   ");
    var update := editor.SaveEdit(dots, 0);
    DotList.CommitBlank(dots[0], "   ", 1);
    assert update == dots[0].(name := Text.TaskName(1));
    session.UpdateDot(update);
    assert session.currentProject.value.dots[0] == update;
  }

  /** The auto-edit effect runs again whenever the dot list changes while
      `newDotId` is set, and only an update or delete of that dot clears it.
      So a freshly added dot whose editing was cancelled is put back into
      editing, with an empty draft, by the next update of another dot. */
  method AutoEditReturnsScenario(session: HillChartApp.Session, editor: DotList.NameEditor,
                                 d0: Dot, now: nat)
    requires session.currentProject.Some? && session.currentProject.value.dots == [d0]
    requires d0.id != HillChartApp.NewDot(1, now, "f").id
    modifies session, editor
    ensures var added := HillChartApp.NewDot(1, now, "f");
            editor.editingDotId == Some(added.id) && editor.editingName == ""
  {
    var added := HillChartApp.NewDot(1, now, "f");
    session.AddDot(now, "f");
    editor.AutoEdit(session.newDotId, session.currentProject.value.dots);
    editor.CancelEdit();
    assert editor.editingDotId == None;
    session.UpdateDot(d0.(x := 0.7));
    assert session.newDotId == Some(added.id);
    var dots := session.currentProject.value.dots;
    assert dots[1] == added;
    editor.AutoEdit(session.newDotId, dots);
  }
}
