# Hill chart tracker — a Dafny model of its core

The application tracks projects as hill charts. Each task is a dot whose
progress `x` in [0, 1] places it on a hill from "Figuring things out" to
"Making it happen". This project models the parts of the application that
hold logic:

- **the project store** (`lib/actions.ts`): a module-level list of projects
  with list, find-by-id, create, upsert and delete. It is modelled as the
  class `Actions.ProjectStore` with a `seq<Project>` field, specified by the
  pure functions `FindIndex`, `Upsert` and `RemoveProject`.
- **the chart session** (`components/hill-chart-app.tsx`): the current
  project, its dot list, the `newDotId` marker and the `usePhysics` flag that
  picks the V-shaped chart once a project has two dots. It is modelled as the
  class `HillChartApp.Session`. Its handlers build new dot lists with the pure
  functions `NewDot`, `ReplaceDot` and `RemoveDot`. The predicate
  `Consistent` says that physics on implies two dots. The dot handlers, the
  project change and the fix-UX handlers keep it. `Load` keeps it only when
  physics was off before, since it only ever switches physics on and runs
  again whenever the requested project id changes. Selecting a newly created
  project does not keep it.
- **name editing and the progress label** (`components/dot-list.tsx`):
  `DotList.NameEditor` holds `editingDotId` and `editingName`. Commit stores
  the draft as typed, or `Task k` when the draft is blank. `ProgressText` and
  `ProgressPercentage` give the label.
- **dragging** (`components/draggable-dot.tsx`, `components/hill-chart.tsx`):
  `DraggableDot.DragController` is the `isDragging` state machine, with the
  document listeners tracked by `listening`. `HillChart.NormalizedX` converts
  a pointer offset into progress. `HillChart.DotMove` is the record the chart
  emits.
- **the V-shaped chart** (`components/physics-hill-chart.tsx`):
  `PhysicsHillChart.CalculatePosition` and the drawn polyline.

`Geometry` holds the clamp and the chart-height rule, which two components
share. `Text` holds decimal rendering (template literals such as `Task ${n}`)
and `String.prototype.trim`. `Scenarios` ties the components together: a drag
that commits progress 0.9, a blank rename, and the chart switching modes as
dots come and go.

All numbers are `real`. The sine hill `x => Math.sin(x * Math.PI)` is the
function parameter `hill`: only its argument and where its value is stored
matter. Ids that come from `Date.now()` and colours from
`generateRandomColor()` are parameters (`now`, `color`).

Behaviours of the code that are easy to misread:

- A committed name is stored exactly as typed, untrimmed (`dot-list.tsx:40-43`).
  Only the blank test uses `trim`.
- At width 0 the conversion at `hill-chart.tsx:53` computes `0 / 0`, which is
  NaN, not 0. `NormalizedX` returns `None` there, and `DotMove` returns
  `UpdateNaN`: the source then emits the dot with NaN in `x` and `y`.
- The stored `y` is the unit hill value `hill(x)` (`hill-chart.tsx:56`), not
  the on-screen height. The V-shaped chart never lets a dot be dragged: it
  receives `onUpdateDot` but attaches no handler.
- `if (initialProjectId)` and `if (newDotId)` treat the empty string as
  absent. `Session.Load` and `NameEditor.AutoEdit` do the same.

## Model

| member | source | states |
|---|---|---|
| Types.FindDot | components/hill-chart.tsx:58 | `find` by id: `None` exactly when no dot has the id; otherwise the first dot with that id |
| Text.NatToString | components/hill-chart-app.tsx:151-152 | a count renders as a non-empty string of decimal digits, with no leading zero unless it is 0 |
| Text.ParseNatToString | components/hill-chart-app.tsx:151-152 | reading the rendered digits back gives the number (the round trip of the rendering) |
| Text.NatToStringInjective | components/hill-chart-app.tsx:151 | distinct numbers render to distinct strings |
| Text.TaskName | components/dot-list.tsx:48 | `Task ${k}` starts with "Task " and its digits read back as k |
| Text.TrimEmptyIffBlank | components/dot-list.tsx:39 | `draft.trim()` is empty exactly when every character of the draft is ECMAScript whitespace or a line terminator |
| Actions.InitialProjects | lib/actions.ts:7-36 | the store starts with four projects whose ids are pairwise distinct, with no dots and empty comments |
| Actions.FindIndex | lib/actions.ts:64 | `findIndex` by id: `None` exactly when no project has the id; otherwise the first index holding it |
| Actions.FindIndexFirst | lib/actions.ts:64 | an index holding the id, with no earlier one, is what `findIndex` returns |
| Actions.UpsertAbsent | lib/actions.ts:63-68 | saving a project whose id is absent appends it at the end and leaves every earlier entry unchanged |
| Actions.UpsertPresent | lib/actions.ts:64-70 | saving a project whose id is present replaces only the first entry with that id; the length and all other entries are unchanged |
| Actions.UpsertIdempotent | lib/actions.ts:63-74 | saving the same project twice leaves the store as one save did |
| Actions.RemoveProject | lib/actions.ts:77 | the filtered list holds exactly the projects of the store whose id differs, and is no longer |
| Actions.RemoveProjectGone | lib/actions.ts:76-79 | after deleting, no project with that id is left |
| Actions.RemoveProjectConcat | lib/actions.ts:77 | filtering keeps the relative order of the rest: the filter of a concatenation is the concatenation of the filters |
| Actions.RemoveProjectAbsent | lib/actions.ts:76-79 | deleting an id no project has leaves the store unchanged |
| Actions.ProjectStore.constructor | lib/actions.ts:36 | the store starts as the four initial projects |
| Actions.ProjectStore.GetProjects | lib/actions.ts:38-40 | returns exactly the store's contents in store order |
| Actions.ProjectStore.GetProject | lib/actions.ts:42-48 | returns the first project with the id, or fails with not-found exactly when none has it |
| Actions.ProjectStore.CreateProject | lib/actions.ts:50-61 | appends one project with id `project-<now>`, the given name, no dots and an empty comment; every earlier entry is unchanged |
| Actions.ProjectStore.SaveProject | lib/actions.ts:63-74 | returns its argument; the new store is the upsert of the project into the old one |
| Actions.ProjectStore.DeleteProject | lib/actions.ts:76-79 | the new store is the old one filtered by id |
| HillChartApp.NewDot | components/hill-chart-app.tsx:150-156 | a new dot starts at x = 0.2, y = 0, with name `Task n+1`, id `dot-<now>` and the given colour |
| HillChartApp.NewDotIdsDistinct | components/hill-chart-app.tsx:151 | dots created at different times get different ids |
| HillChartApp.ReplaceDot | components/hill-chart-app.tsx:180 | the `map` keeps length and order, puts the record at every position with its id and leaves the other dots unchanged |
| HillChartApp.ReplaceDotAbsent | components/hill-chart-app.tsx:180 | an update for an id no dot has leaves the list unchanged |
| HillChartApp.RemoveDot | components/hill-chart-app.tsx:192 | the `filter` holds exactly the dots whose id differs, and is no longer |
| HillChartApp.RemoveDotConcat | components/hill-chart-app.tsx:192 | deleting keeps the other dots in their order |
| HillChartApp.RemoveDotAbsent | components/hill-chart-app.tsx:192 | deleting an id no dot has leaves the list unchanged |
| HillChartApp.Session.constructor | components/hill-chart-app.tsx:25-33 | the initial state: no projects, no current project, loading, every flag off, no new dot; consistent |
| HillChartApp.Session.Load | components/hill-chart-app.tsx:47-83 | lists the store; shows the requested project when it is given and found, else the first; an empty store leaves no current project; physics is switched on when the loaded project has two dots |
| HillChartApp.Session.ProjectChange | components/hill-chart-app.tsx:88-101 | shows the found project and sets physics to "it has at least two dots"; a failed lookup changes nothing; keeps `Consistent` |
| HillChartApp.Session.Save | components/hill-chart-app.tsx:103-110 | with a current project, upserts it into the store and refreshes the list from the store; without one, changes nothing |
| HillChartApp.Session.AddDot | components/hill-chart-app.tsx:147-173 | changes nothing without a current project; otherwise appends `NewDot` after the existing dots, sets `newDotId` to its id, and turns physics on (hiding the fix button) exactly when the count reaches two while it was off; keeps `Consistent` |
| HillChartApp.Session.UpdateDot | components/hill-chart-app.tsx:175-187 | changes nothing without a current project; otherwise replaces the dots with the record's id and clears `newDotId` exactly when it held that id; keeps `Consistent` |
| HillChartApp.Session.DeleteDot | components/hill-chart-app.tsx:189-209 | changes nothing without a current project; otherwise removes the dots with the id, clears `newDotId` when it named it, and turns physics off (hiding the fix button) when fewer than two dots remain; keeps `Consistent` |
| HillChartApp.Session.FixUX | components/hill-chart-app.tsx:211-214 | opens the popup and hides the fix button; keeps `Consistent` |
| HillChartApp.Session.FixUXClose | components/hill-chart-app.tsx:216-219 | closes the popup and forces physics off, so the session is consistent afterwards whatever it was before |
| HillChartApp.Session.SelectCreatedProject | components/project-selector.tsx:39-40 | a created project is appended to the list and made current while `usePhysics` is left as it was |
| HillChartApp.LoadedIsFound | lib/actions.ts:42-48 | the project `getProject` returns sits at the index `findIndex` gives for its id |
| DotList.CommitNonBlank | components/dot-list.tsx:38-43 | a draft with a non-whitespace character is stored untrimmed as the name; no other field changes |
| DotList.CommitBlank | components/dot-list.tsx:44-49 | a blank or whitespace-only draft stores `Task k`, k being the dot's 1-based position |
| DotList.AtMostOneEditingRow | components/dot-list.tsx:94 | with distinct ids, the single `editingDotId` puts at most one row into editing |
| DotList.Round | components/dot-list.tsx:69 | `Math.round` gives the integer within half a unit, halves rounded up |
| DotList.RoundMonotone | components/dot-list.tsx:69-72 | rounding keeps order |
| DotList.ProgressText | components/dot-list.tsx:58-64 | "Figuring things out" exactly below 0.5, "Making it happen" exactly from 0.5 |
| DotList.ProgressPercentage | components/dot-list.tsx:66-74 | both branches equal round(100 x); the value lies in 0..100 for x in [0, 1], is at most 50 on the first branch and at least 50 on the second |
| DotList.NameEditor.constructor | components/dot-list.tsx:18-19 | nothing is being edited and the draft is empty |
| DotList.NameEditor.AutoEdit | components/dot-list.tsx:22-31 | when `newDotId` names a dot in the list, that dot enters editing with an empty draft; otherwise nothing changes |
| DotList.NameEditor.ChangeDraft | components/dot-list.tsx:98 | typing replaces the draft and keeps the editing row |
| DotList.NameEditor.StartEdit | components/dot-list.tsx:33-36 | the chosen dot enters editing with its current name as the draft |
| DotList.NameEditor.SaveEdit | components/dot-list.tsx:38-52 | emits the dot with the committed name and every other field kept, and leaves editing |
| DotList.NameEditor.CancelEdit | components/dot-list.tsx:54-56 | leaves editing and emits nothing |
| Geometry.Clamp | components/hill-chart.tsx:53 | `Math.max(lo, Math.min(hi, v))` lies in [lo, hi] when lo ≤ hi, is v inside the range, lo below it and hi above it |
| Geometry.ClampMonotone | components/hill-chart.tsx:53 | clamping keeps order |
| Geometry.ChartHeight | components/hill-chart.tsx:24 | the height is the smaller of 400 and half the width; `physics-hill-chart.tsx:24` uses the same rule |
| DraggableDot.PointerOffset | components/draggable-dot.tsx:30 | the reported offset lies in [0, width], and is the pointer minus the parent's left edge whenever that already lies in range |
| DraggableDot.RenderPosition | components/draggable-dot.tsx:20-21 | the dot is drawn at `posX = x * width` |
| DraggableDot.PosXInWidth | components/draggable-dot.tsx:20 | `posX` lies in [0, width] for progress in [0, 1] |
| DraggableDot.PosYInHeight | components/draggable-dot.tsx:21 | with a hill value in [0, 1], `posY` lies in [0.2 h, h] |
| DraggableDot.DragController.constructor | components/draggable-dot.tsx:16 | a dot starts not dragging, with no document listeners |
| DraggableDot.DragController.MouseDown | components/draggable-dot.tsx:49-52 | from any state, dragging starts and the listeners are registered |
| DraggableDot.DragController.TouchStart | components/draggable-dot.tsx:54-57 | from any state, dragging starts and the listeners are registered |
| DraggableDot.DragController.DocumentMouseUp | components/draggable-dot.tsx:34-46 | while registered, a mouse-up ends dragging and removes the listeners; unregistered, nothing happens |
| DraggableDot.DragController.TouchEnd | components/draggable-dot.tsx:70-72 | ends dragging; the listeners go with it |
| DraggableDot.DragController.DocumentMouseMove | components/draggable-dot.tsx:24-32 | emits exactly one move, with the clamped offset and y = 0, exactly when the listener is registered, dragging is on and the parent rectangle exists; otherwise emits nothing |
| DraggableDot.DragController.TouchMove | components/draggable-dot.tsx:59-68 | emits exactly one move, with the clamped offset and y = 0, exactly when dragging is on and the parent rectangle exists; otherwise emits nothing |
| HillChart.NormalizedX | components/hill-chart.tsx:53 | for a positive width, progress is the clamped `x / width` in [0, 1]; the result is NaN exactly at 0 / 0 |
| HillChart.NormalizedInRange | components/hill-chart.tsx:53 | for a positive width progress is a number in [0, 1] whatever the pointer offset |
| HillChart.NormalizedMonotone | components/hill-chart.tsx:53 | progress is non-decreasing in the pointer offset |
| HillChart.PosXRoundTrip | components/hill-chart.tsx:53 | converting the drawn `posX = x * width` back gives x, for x in [0, 1] and a positive width |
| HillChart.ZeroWidthIsNaN | components/hill-chart.tsx:53 | at width 0 the conversion of the only possible offset, 0, is NaN |
| HillChart.DotMove | components/hill-chart.tsx:51-66 | no update exactly when no dot has the id; NaN exactly when a dot has it and the conversion is NaN, carrying the dot `find` returns; otherwise the first dot with that id, with only `x` (the converted progress, in [0, 1]) and `y` (= hill(x)) changed |
| PhysicsHillChart.CalculatePosition | components/physics-hill-chart.tsx:35-40 | `posX = x * width` |
| PhysicsHillChart.Polyline | components/physics-hill-chart.tsx:98 | the drawn V has three vertices |
| PhysicsHillChart.PosXInWidth | components/physics-hill-chart.tsx:37 | `posX` lies in [0, width] for x in [0, 1] |
| PhysicsHillChart.PosYInRange | components/physics-hill-chart.tsx:38 | for x in [0, 1] and h ≥ 0, `posY` lies in [0.2 h, 0.8 h] |
| PhysicsHillChart.PosYSymmetric | components/physics-hill-chart.tsx:38 | x and 1 − x are drawn at the same height |
| PhysicsHillChart.PosYMonotone | components/physics-hill-chart.tsx:38 | `posY` is non-decreasing on [0, 0.5] and non-increasing on [0.5, 1] |
| PhysicsHillChart.VerticesHit | components/physics-hill-chart.tsx:38 | progress 0, 0.5 and 1 land on the V's three vertices (0, 0.2 h), (w/2, 0.8 h), (w, 0.2 h) |
| PhysicsHillChart.OnDrawnV | components/physics-hill-chart.tsx:98-109 | every dot with progress in [0, 1] lies on one of the two segments of the drawn V |
| Scenarios.FreshDotBlankCommit | components/dot-list.tsx:44-49 | committing a blank draft for a freshly appended dot gives back the dot unchanged: the default name is its creation-time name |
| Scenarios.MoveCommitIdempotent | components/hill-chart.tsx:51-66 | after a move is stored, the same pointer offset emits the stored record again: no drift |
| Scenarios.AddModeScenario | components/hill-chart-app.tsx:166-172 | from an empty project, two added dots switch to the V-shaped chart and a third keeps it |
| Scenarios.DeleteModeScenario | components/hill-chart-app.tsx:204-208 | deleting from three dots down to one switches back to the standard chart, leaving the first dot |
| Scenarios.OneDotScenario | components/hill-chart-app.tsx:147-173 | in a loaded project, one added dot starts at 0.2 named `Task 1` and enters editing with an empty draft; deleting it empties the project with physics off |
| Scenarios.DragScenario | components/hill-chart.tsx:51-66 | a drag to the offset of progress 0.9 on an 800-pixel chart commits x = 0.9 and y = hill(0.9), and releasing ends the drag |
| Scenarios.BlankRenameScenario | components/dot-list.tsx:44-51 | renaming the first dot to spaces stores `Task 1` and leaves editing |
| Scenarios.AutoEditReturnsScenario | components/dot-list.tsx:22-31 | after cancelling the edit of a freshly added dot, updating another dot puts the fresh dot back into editing with an empty draft, because `newDotId` is still set |
| HillChartApp.CreationBreaksConsistency | components/project-selector.tsx:39-40 | after two dots switch physics on, selecting a newly created project leaves physics on over a project with no dots |

## Left out

- Image export and the clipboard (`action-bar.tsx`, the `html2canvas` capture in `handleSave`): foreign calls into the browser.
- Toasts, `router.push`, `revalidatePath`, `console.error` and the `async`/`await` wrapping: I/O. The store's methods are synchronous, and not-found is the `Err(NotFound(id))` result.
- `Math.sin`: the hill is the parameter `hill`. The SVG path sampling loop in `hill-chart.tsx` (floating step, string building) is not modelled.
- `Math.random` colours and `Date.now()` ids: parameters. As in the source, nothing checks that ids are unique.
- The seven-second fix-button timer, the save animation, the avatar, the animated title, the fix-UX popup's content, the 180° rotation and the window resize listeners: decoration and timers. `ChartHeight` models the height rule that the resize handlers apply.
- The `.d.ts` declarations for external libraries and the comment section, which renders nothing. The `comment` field is carried but never read.
- The project selector beyond its selection step (`SelectCreatedProject`). Its blank-name guard is not a precondition of `CreateProject`, because the server action itself accepts any name.
- JavaScript number semantics: reals replace doubles, so there is no rounding error, no −0 and no infinities. NaN appears only where the model makes it explicit (`NormalizedX`, `UpdateNaN`).
- Object identity: the shallow copy in `getProject` shares its `dots` array with the store, and `indexOf` finds a dot by identity. The model passes values and finds the dot by its index.
- React scheduling: effects and state setters are applied in the order the handlers call them, and the listener effect is the `listening` field.
- DotList.NameEditor.AutoEdit: the model does not run it by itself. The source re-runs the effect after every change of `dots` while `newDotId` is set (`dot-list.tsx:31`), and only an update or delete of that dot clears `newDotId`. So after a cancel, or after editing another dot, the next drag or rename of any dot puts the fresh dot back into editing and empties the draft. `Scenarios.AutoEditReturnsScenario` shows one such sequence, calling `AutoEdit` where the source would re-run the effect.
- `showSaveAnimation`, `savedImageUrl` and the loading screen: presentation state.
- `preventDefault` on pointer-down, and `e.touches[0]`, which is assumed present during a touch move.
- HillChart.NormalizedX: requires a non-negative width, which every bounding rectangle has.
