/** components/dot-list.tsx: the name-editing state (`editingDotId`,
    `editingName`) that moves a dot from viewing to editing and back, and
    the progress label shown under each dot. */
module DotList {
  import opened Types
  import Text

  /** The record `handleSaveEdit` emits for the dot at 1-based position `k`:
      the draft as typed when its trim is non-empty, else `Task k`. */
  function CommittedDot(dot: Dot, draft: string, k: nat): Dot
  {
    dot.(name := if Text.Trim(draft) != [] then draft else Text.TaskName(k))
  }

  /** A draft with a non-blank character is stored exactly as typed
      (untrimmed); no other field of the dot changes. */
  lemma CommitNonBlank(dot: Dot, draft: string, k: nat)
    requires !Text.IsBlank(draft)
    ensures CommittedDot(dot, draft, k).name == draft
    ensures CommittedDot(dot, draft, k).(name := dot.name) == dot
  {
    Text.TrimEmptyIffBlank(draft);
  }

  /** A blank or whitespace-only draft stores the positional default name. */
  lemma CommitBlank(dot: Dot, draft: string, k: nat)
    requires Text.IsBlank(draft)
    ensures CommittedDot(dot, draft, k) == dot.(name := Text.TaskName(k))
  {
    Text.TrimEmptyIffBlank(draft);
  }

  /** Whether the row of `dot` shows the input field. */
  predicate IsEditingRow(editingDotId: Option<string>, dot: Dot)
  {
    editingDotId == Some(dot.id)
  }

  /** With distinct dot ids, the single `editingDotId` puts at most one row
      into editing. */
  lemma AtMostOneEditingRow(editingDotId: Option<string>, dots: seq<Dot>, i: nat, j: nat)
    requires forall a, b :: 0 <= a < b < |dots| ==> dots[a].id != dots[b].id
    requires i < |dots| && j < |dots|
    requires IsEditingRow(editingDotId, dots[i]) && IsEditingRow(editingDotId, dots[j])
    ensures i == j
  {
  }

  /** `Math.round` on a real: the nearest integer, halves rounded up. */
  function Round(v: real): (n: int)
    ensures n as real - 0.5 <= v < n as real + 0.5
  {
    (v + 0.5).Floor
  }

  /** Round never reverses the order of its arguments. */
  lemma RoundMonotone(a: real, b: real)
    requires a <= b
    ensures Round(a) <= Round(b)
  {
  }

  /** `getProgressText`: the label of the half of the hill the dot is on. */
  function ProgressText(x: real): (t: string)
    ensures t == "Figuring things out" <==> x < 0.5
    ensures t == "Making it happen" <==> x >= 0.5
  {
    if x < 0.5 then "Figuring things out" else "Making it happen"
  }

  /** `getProgressPercentage`: on both branches it is `round(100 x)`; it
      stays within 0..100 for progress in [0, 1], at most 50 on the first
      half and at least 50 on the second. */
  function ProgressPercentage(x: real): (r: int)
    ensures r == Round(100.0 * x)
    ensures 0.0 <= x <= 1.0 ==> 0 <= r <= 100
    ensures x < 0.5 ==> r <= 50
    ensures x >= 0.5 ==> r >= 50
  {
    if x < 0.5 then Round(x * 100.0) else Round(50.0 + (x - 0.5) * 100.0)
  }

  /** The editing state of the `DotList` component. */
  class NameEditor {
    var editingDotId: Option<string>
    var editingName: string

    constructor ()
      ensures editingDotId == None && editingName == ""
    {
      editingDotId := None;
      editingName := "";
    }

    /** The auto-edit effect: when `newDotId` is set (a non-empty id) and a
        dot in the list has it, that dot enters editing with an empty draft. */
    method AutoEdit(newDotId: Option<string>, dots: seq<Dot>)
      modifies this
      ensures newDotId.Some? && newDotId.value != "" && FindDot(dots, newDotId.value).Some? ==>
                editingDotId == newDotId && editingName == ""
      ensures !(newDotId.Some? && newDotId.value != "" && FindDot(dots, newDotId.value).Some?) ==>
                editingDotId == old(editingDotId) && editingName == old(editingName)
    {
      if newDotId.Some? && newDotId.value != "" {
        var dot := FindDot(dots, newDotId.value);
        if dot.Some? {
          editingDotId := newDotId;
          editingName := "";
        }
      }
    }

    /** The input's `onChange`: the draft follows what is typed. */
    method ChangeDraft(value: string)
      modifies this
      ensures editingName == value && editingDotId == old(editingDotId)
    {
      editingName := value;
    }

    /** `handleStartEdit`: edit this dot, starting from its current name. */
    method StartEdit(dot: Dot)
      modifies this
      ensures editingDotId == Some(dot.id) && editingName == dot.name
    {
      editingDotId := Some(dot.id);
      editingName := dot.name;
    }

    /** `handleSaveEdit` for the dot at index `i`: emit the dot with the
        committed name and leave editing. The draft itself is kept. */
    method SaveEdit(dots: seq<Dot>, i: nat) returns (update: Dot)
      requires i < |dots|
      modifies this
      ensures update == CommittedDot(dots[i], old(editingName), i + 1)
      ensures update.id == dots[i].id && update.x == dots[i].x && update.y == dots[i].y
      ensures update.color == dots[i].color
      ensures editingDotId == None && editingName == old(editingName)
    {
      var dot := dots[i];
      if Text.Trim(editingName) != [] {
        update := dot.(name := editingName);
      } else {
        update := dot.(name := Text.TaskName(i + 1));
      }
      editingDotId := None;
    }

    /** `handleCancelEdit`: leave editing; nothing is emitted. */
    method CancelEdit()
      modifies this
      ensures editingDotId == None && editingName == old(editingName)
    {
      editingDotId := None;
    }
  }
}
