/** The file-structure step of the creation wizard: a whole-area drop zone with a
    plain boolean overlay flag, drops staged under `uploads`, and a list of selected
    files whose entries can be removed by position. */
module FileStructureStep {
  import opened Common
  import opened FileManager

  /** The folder that dropped files are staged under. */
  const UploadsPath: seq<string> := ["uploads"]

  /** The list with the entry at `index` cut out, as `splice(index, 1)` leaves it;
      an index past the end cuts nothing. */
  function Spliced(files: seq<Staged>, index: nat): seq<Staged>
  {
    if index < |files| then files[..index] + files[index + 1..] else files
  }

  /** Removing one position drops exactly that occurrence: one entry fewer, and
      the removed entry plus the rest make up the same multiset. */
  lemma SplicedDropsOne(files: seq<Staged>, index: nat)
    requires index < |files|
    ensures |Spliced(files, index)| == |files| - 1
    ensures multiset(Spliced(files, index)) + multiset{files[index]} == multiset(files)
  {
    assert files == files[..index] + [files[index]] + files[index + 1..];
  }

  class FileStructureStepPanel {
    var isDragging: bool
    /** Upload percentages by file name; nothing ever writes it. */
    var uploadProgress: map<string, nat>

    constructor ()
      ensures !isDragging && uploadProgress == map[]
    {
      isDragging := false;
      uploadProgress := map[];
    }

    method HandleDragEnter()
      modifies this`isDragging
      ensures isDragging
    {
      isDragging := true;
    }

    method HandleDragLeave()
      modifies this`isDragging
      ensures !isDragging
    {
      isDragging := false;
    }

    /** A drop hides the overlay and hands every dropped file, in drop order, to
        onFileSelect under the uploads folder. */
    method HandleDrop(files: seq<FileHandle>) returns (selection: seq<Staged>)
      modifies this`isDragging
      ensures !isDragging
      ensures selection == StageAll(files, UploadsPath)
    {
      isDragging := false;
      selection := StageAll(files, UploadsPath);
    }

    /** removeFile: a copy of the list with the entry at `index` spliced out; the
        whole new list is what onFileSelect receives. */
    method RemoveFile(files: seq<Staged>, index: nat) returns (newFiles: seq<Staged>)
      ensures newFiles == Spliced(files, index)
    {
      newFiles := [];
      for k := 0 to |files|
        invariant newFiles == if k <= index then files[..k] else files[..index] + files[index + 1..k]
      {
        if k != index {
          newFiles := newFiles + [files[k]];
        }
      }
      assert files[..|files|] == files;
    }
  }

  /** The boolean flag after one event: enter shows the overlay, leave and drop hide it. */
  function FlagStep(flag: bool, e: DragEvent): bool
  {
    e == DragEnter
  }

  function FlagAfter(flag: bool, events: seq<DragEvent>): bool
    decreases |events|
  {
    if events == [] then flag else FlagStep(FlagAfter(flag, events[..|events| - 1]), events[|events| - 1])
  }

  /** The flag has no memory of nesting: it is whatever the last event made it. */
  lemma {:induction false} FlagIsLastEvent(flag: bool, events: seq<DragEvent>)
    requires events != []
    ensures FlagAfter(flag, events) <==> events[|events| - 1] == DragEnter
  {
  }

  /** The step's flag and the folder panel's nesting counter compared on the same
      abstract events (enter the area, enter a nested element, leave it): the flag
      is cleared while the counter would still show its overlay. In the app the two
      components do not receive one event stream; this compares their handlers. */
  lemma NestedLeaveHidesFlag()
    ensures !FlagAfter(false, [DragEnter, DragEnter, DragLeave])
    ensures RunDrag(Idle, [DragEnter, DragEnter, DragLeave]).dragging
  {
    var evs := [DragEnter, DragEnter, DragLeave];
    assert evs[..2] == [DragEnter, DragEnter];
    assert evs[..2][..1] == [DragEnter];
    assert evs[..2][..1][..0] == [];
    assert RunDrag(Idle, evs[..2][..1]) == DragState(1, true);
    assert RunDrag(Idle, evs[..2]) == DragState(2, true);
  }
}
