/** The project-structure panel of the creation wizard: a tree of folders that are
    addressed by their name paths, the staging of `(file, path)` entries onto
    folders, and the drop overlay driven by a nesting counter. */
module FileManager {
  import opened Common

  /** A browser `File`; `handle` stands for its object identity (`===`). */
  datatype FileHandle = FileHandle(handle: nat, name: string, size: nat, mime: string)

  /** A staged entry: a file assigned to the folder addressed by `path`. */
  datatype Staged = Staged(file: FileHandle, path: seq<string>)

  /** A folder node; `path` is meant to be the names from the root down to it. */
  datatype Node = Node(id: string, name: string, path: seq<string>, children: seq<Node>)

  /** Positions of children, from a list of roots down to a list of siblings. */
  type Address = seq<nat>

  // ---------------------------------------------------------------------------
  // Addresses into the tree

  predicate ValidAddr(level: seq<Node>, addr: Address)
    decreases |addr|
  {
    addr == [] || (addr[0] < |level| && ValidAddr(level[addr[0]].children, addr[1..]))
  }

  /** The list of siblings that `addr` leads to. */
  function LevelAt(level: seq<Node>, addr: Address): seq<Node>
    requires ValidAddr(level, addr)
    decreases |addr|
  {
    if addr == [] then level else LevelAt(level[addr[0]].children, addr[1..])
  }

  /** The path of the node whose children `LevelAt(level, addr)` are (`parent` at the top). */
  function ParentPathAt(parent: seq<string>, level: seq<Node>, addr: Address): seq<string>
    requires ValidAddr(level, addr)
    decreases |addr|
  {
    if addr == [] then parent
    else ParentPathAt(level[addr[0]].path, level[addr[0]].children, addr[1..])
  }

  lemma {:induction false} LevelAtExtend(level: seq<Node>, addr: Address, i: nat)
    requires ValidAddr(level, addr) && i < |LevelAt(level, addr)|
    ensures ValidAddr(level, addr + [i])
    ensures LevelAt(level, addr + [i]) == LevelAt(level, addr)[i].children
    decreases |addr|
  {
    if addr != [] {
      assert (addr + [i])[1..] == addr[1..] + [i];
      LevelAtExtend(level[addr[0]].children, addr[1..], i);
    }
  }

  lemma {:induction false} ParentPathAtExtend(parent: seq<string>, level: seq<Node>, addr: Address, i: nat)
    requires ValidAddr(level, addr) && i < |LevelAt(level, addr)|
    ensures ValidAddr(level, addr + [i])
    ensures ParentPathAt(parent, level, addr + [i]) == LevelAt(level, addr)[i].path
    decreases |addr|
  {
    LevelAtExtend(level, addr, i);
    if addr != [] {
      assert (addr + [i])[1..] == addr[1..] + [i];
      ParentPathAtExtend(level[addr[0]].path, level[addr[0]].children, addr[1..], i);
    }
  }

  // ---------------------------------------------------------------------------
  // The traversal of addNewFolder

  /** `level.find(node => node.name === name)` from position `from`, as an index. */
  function FindFrom(level: seq<Node>, name: string, from: nat): (r: Option<nat>)
    ensures r.Some? ==> (from <= r.value < |level| && level[r.value].name == name
      && forall j :: from <= j < r.value ==> level[j].name != name)
    ensures r.None? ==> forall j :: from <= j < |level| ==> level[j].name != name
    decreases |level| - from
  {
    if from >= |level| then None
    else if level[from].name == name then Some(from)
    else FindFrom(level, name, from + 1)
  }

  function FindByName(level: seq<Node>, name: string): Option<nat>
  {
    FindFrom(level, name, 0)
  }

  /** Where the segment loop of addNewFolder ends: each segment descends into the
      first sibling of that name; a segment with no match leaves the cursor where it
      is and the next segment is looked up at the same level. */
  function Walk(roots: seq<Node>, segments: seq<string>): (addr: Address)
    ensures ValidAddr(roots, addr) && |addr| <= |segments|
    decreases |segments|
  {
    if segments == [] then []
    else
      var a := Walk(roots, segments[..|segments| - 1]);
      match FindByName(LevelAt(roots, a), segments[|segments| - 1])
      case None => a
      case Some(i) => LevelAtExtend(roots, a, i); a + [i]
  }

  /** Every segment of the path found a folder. */
  predicate Resolves(roots: seq<Node>, segments: seq<string>)
  {
    |Walk(roots, segments)| == |segments|
  }

  /** One more segment: the walk descends into its first match, or stays put. */
  lemma WalkStep(roots: seq<Node>, segments: seq<string>, s: string)
    ensures var a := Walk(roots, segments);
      Walk(roots, segments + [s]) ==
        match FindByName(LevelAt(roots, a), s)
        case None => a
        case Some(i) => a + [i]
  {
    assert (segments + [s])[..|segments|] == segments;
  }

  // ---------------------------------------------------------------------------
  // Appending a folder

  /** The tree with `n` pushed onto the end of the siblings at `addr`. */
  function InsertAt(level: seq<Node>, addr: Address, n: Node): (r: seq<Node>)
    requires ValidAddr(level, addr)
    decreases |addr|
  {
    if addr == [] then level + [n]
    else
      var k := addr[0];
      level[k := level[k].(children := InsertAt(level[k].children, addr[1..], n))]
  }

  /** The id addNewFolder gives a folder created at time `now` (milliseconds). */
  function FolderId(now: nat): string
  {
    "folder-" + NatToString(now)
  }

  /** The effect of addNewFolder on the tree once a name was entered. */
  function AddFolder(roots: seq<Node>, parentPath: seq<string>, name: string, id: string): seq<Node>
  {
    InsertAt(roots, Walk(roots, parentPath), Node(id, name, parentPath + [name], []))
  }

  /** The new node lands last among the siblings the walk reached; the siblings
      already there keep their order. */
  lemma {:induction false} InsertAtAppends(level: seq<Node>, addr: Address, n: Node)
    requires ValidAddr(level, addr)
    ensures ValidAddr(InsertAt(level, addr, n), addr)
    ensures LevelAt(InsertAt(level, addr, n), addr) == LevelAt(level, addr) + [n]
    decreases |addr|
  {
    if addr != [] {
      InsertAtAppends(level[addr[0]].children, addr[1..], n);
    }
  }

  lemma AddFolderAppends(roots: seq<Node>, parentPath: seq<string>, name: string, id: string)
    ensures var a := Walk(roots, parentPath);
      && ValidAddr(AddFolder(roots, parentPath, name, id), a)
      && LevelAt(AddFolder(roots, parentPath, name, id), a)
           == LevelAt(roots, a) + [Node(id, name, parentPath + [name], [])]
  {
    InsertAtAppends(roots, Walk(roots, parentPath), Node(id, name, parentPath + [name], []));
  }

  // ---------------------------------------------------------------------------
  // The path invariant: every node's path is its parent's path plus its own name

  predicate PathsConsistent(parent: seq<string>, level: seq<Node>)
    decreases level
  {
    forall i :: 0 <= i < |level| ==>
      level[i].path == parent + [level[i].name] && PathsConsistent(level[i].path, level[i].children)
  }

  predicate WellFormed(roots: seq<Node>)
  {
    PathsConsistent([], roots)
  }

  lemma {:induction false} ConsistentAt(parent: seq<string>, level: seq<Node>, addr: Address)
    requires PathsConsistent(parent, level) && ValidAddr(level, addr)
    ensures PathsConsistent(ParentPathAt(parent, level, addr), LevelAt(level, addr))
    decreases |addr|
  {
    if addr != [] {
      ConsistentAt(level[addr[0]].path, level[addr[0]].children, addr[1..]);
    }
  }

  lemma {:induction false} InsertKeepsConsistent(parent: seq<string>, level: seq<Node>, addr: Address, n: Node)
    requires PathsConsistent(parent, level) && ValidAddr(level, addr)
    requires n.path == ParentPathAt(parent, level, addr) + [n.name] && n.children == []
    ensures PathsConsistent(parent, InsertAt(level, addr, n))
    decreases |addr|
  {
    if addr == [] {
      assert PathsConsistent(n.path, n.children);
    } else {
      var k := addr[0];
      InsertKeepsConsistent(level[k].path, level[k].children, addr[1..], n);
    }
  }

  /** In a well-formed tree, a path all of whose segments resolve leads to the
      children of a folder whose own path is exactly that path. */
  lemma {:induction false} WalkParentPath(roots: seq<Node>, segments: seq<string>)
    requires WellFormed(roots) && Resolves(roots, segments)
    ensures ParentPathAt([], roots, Walk(roots, segments)) == segments
    decreases |segments|
  {
    if segments != [] {
      var init := segments[..|segments| - 1];
      var s := segments[|segments| - 1];
      assert segments == init + [s];
      WalkStep(roots, init, s);
      var a := Walk(roots, init);
      var i := FindByName(LevelAt(roots, a), s).value;
      WalkParentPath(roots, init);
      ConsistentAt([], roots, a);
      ParentPathAtExtend([], roots, a, i);
    }
  }

  /** addNewFolder keeps the path invariant whenever every segment of the parent
      path resolves. */
  lemma AddFolderKeepsWellFormed(roots: seq<Node>, parentPath: seq<string>, name: string, id: string)
    requires WellFormed(roots) && Resolves(roots, parentPath)
    ensures WellFormed(AddFolder(roots, parentPath, name, id))
  {
    WalkParentPath(roots, parentPath);
    InsertKeepsConsistent([], roots, Walk(roots, parentPath), Node(id, name, parentPath + [name], []));
  }

  /** Sibling folders have distinct names, at every level. */
  predicate UniqueSiblingNames(level: seq<Node>)
    decreases level
  {
    && (forall i, j :: 0 <= i < j < |level| ==> level[i].name != level[j].name)
    && (forall i :: 0 <= i < |level| ==> UniqueSiblingNames(level[i].children))
  }

  lemma {:induction false} UniqueAt(level: seq<Node>, addr: Address)
    requires UniqueSiblingNames(level) && ValidAddr(level, addr)
    ensures UniqueSiblingNames(LevelAt(level, addr))
    decreases |addr|
  {
    if addr != [] {
      UniqueAt(level[addr[0]].children, addr[1..]);
    }
  }

  /** With distinct sibling names, walking the path of the folder whose children
      are at `addr` leads back to `addr`: the "add folder" button of a folder adds
      under that very folder. */
  lemma {:induction false} WalkFindsFolder(roots: seq<Node>, addr: Address)
    requires WellFormed(roots) && UniqueSiblingNames(roots) && ValidAddr(roots, addr)
    ensures Walk(roots, ParentPathAt([], roots, addr)) == addr
    decreases |addr|
  {
    if addr != [] {
      var a := addr[..|addr| - 1];
      var i := addr[|addr| - 1];
      assert addr == a + [i];
      assert ValidAddr(roots, a) && i < |LevelAt(roots, a)| by {
        PrefixValid(roots, a, i);
      }
      WalkFindsFolder(roots, a);
      var pp := ParentPathAt([], roots, a);
      var lvl := LevelAt(roots, a);
      ParentPathAtExtend([], roots, a, i);
      ConsistentAt([], roots, a);
      assert ParentPathAt([], roots, addr) == pp + [lvl[i].name];
      UniqueAt(roots, a);
      WalkStep(roots, pp, lvl[i].name);
      assert FindByName(lvl, lvl[i].name) == Some(i);
    }
  }

  lemma {:induction false} PrefixValid(level: seq<Node>, a: Address, i: nat)
    requires ValidAddr(level, a + [i])
    ensures ValidAddr(level, a) && i < |LevelAt(level, a)|
    decreases |a|
  {
    if a == [] {
      assert (a + [i])[1..] == [];
    } else {
      assert (a + [i])[1..] == a[1..] + [i];
      PrefixValid(level[a[0]].children, a[1..], i);
    }
  }

  /** A parent path that does not resolve puts the new folder where its path does
      not describe it: here a root-level folder whose path has two segments. */
  lemma UnresolvedPathBreaksPaths()
    ensures WellFormed(DefaultTree())
    ensures !WellFormed(AddFolder(DefaultTree(), ["Nope"], "X", FolderId(1)))
  {
    DefaultTreeWellFormed();
    var roots := DefaultTree();
    assert FindByName(roots, "Nope") == None;
    assert Walk(roots, ["Nope"]) == [] by {
      WalkStep(roots, [], "Nope");
    }
    var after := AddFolder(roots, ["Nope"], "X", FolderId(1));
    assert after[1].path == ["Nope", "X"];
  }

  /** Two sibling folders of the same name: adding under the child of the second
      one walks into the first, which has no such child, and appends there. */
  lemma SiblingNameClashMisplaces()
    ensures var roots := [
        Node("a1", "A", ["A"], []),
        Node("a2", "A", ["A"], [Node("b", "B", ["A", "B"], [])])];
      WellFormed(roots) && !WellFormed(AddFolder(roots, ["A", "B"], "C", "c"))
  {
    var roots := [
        Node("a1", "A", ["A"], []),
        Node("a2", "A", ["A"], [Node("b", "B", ["A", "B"], [])])];
    assert FindByName(roots, "A") == Some(0);
    WalkStep(roots, [], "A");
    assert Walk(roots, ["A"]) == [0];
    assert FindByName(roots[0].children, "B") == None;
    WalkStep(roots, ["A"], "B");
    assert ["A", "B"][..1] == ["A"];
    assert Walk(roots, ["A", "B"]) == [0];
    var after := AddFolder(roots, ["A", "B"], "C", "c");
    var c := Node("c", "C", ["A", "B", "C"], []);
    assert ["A", "B"] + ["C"] == ["A", "B", "C"];
    assert [0][1..] == [];
    assert InsertAt(roots[0].children, [], c) == [c];
    assert after == InsertAt(roots, [0], c);
    assert after[0].children == [c];
    assert after[0].path == ["A"];
    assert after[0].children[0].path != after[0].path + [after[0].children[0].name];
    assert !PathsConsistent(after[0].path, after[0].children);
  }

  // ---------------------------------------------------------------------------
  // The default tree

  function DefaultTree(): seq<Node>
  {
    var level := ["Level 01 - First floor"];
    var arch := level + ["Architectural"];
    var struct := level + ["Structural"];
    [Node("level-01", "Level 01 - First floor", level, [
      Node("architectural", "Architectural", arch, [
        Node("plan-drawings", "Plan drawings", arch + ["Plan drawings"], [])]),
      Node("structural", "Structural", struct, [
        Node("plan-drawings-structural", "Plan drawings", struct + ["Plan drawings"], [])])])]
  }

  /** The seeded tree satisfies the path invariant and has distinct sibling names. */
  lemma DefaultTreeWellFormed()
    ensures WellFormed(DefaultTree()) && UniqueSiblingNames(DefaultTree())
  {
    var level := DefaultTree()[0];
    var arch, struct := level.children[0], level.children[1];
    assert PathsConsistent(arch.children[0].path, []) && UniqueSiblingNames([]);
    assert PathsConsistent(arch.path, arch.children) && UniqueSiblingNames(arch.children);
    assert PathsConsistent(struct.path, struct.children) && UniqueSiblingNames(struct.children);
    assert PathsConsistent(level.path, level.children) && UniqueSiblingNames(level.children);
  }

  // ---------------------------------------------------------------------------
  // Expanded folders

  /** toggleFolder: remove the id if present, otherwise add it. */
  function ToggleMember(s: set<string>, id: string): set<string>
  {
    if id in s then s - {id} else s + {id}
  }

  /** Toggling flips the membership of that one id and no other. */
  lemma ToggleFlipsOne(s: set<string>, id: string, x: string)
    ensures x in ToggleMember(s, id) <==> (if x == id then x !in s else x in s)
  {
  }

  lemma ToggleTwice(s: set<string>, id: string)
    ensures ToggleMember(ToggleMember(s, id), id) == s
  {
  }

  // ---------------------------------------------------------------------------
  // Staging and lookup

  /** `files.map(file => ({ file, path }))`. */
  function StageAll(files: seq<FileHandle>, path: seq<string>): (r: seq<Staged>)
    ensures |r| == |files|
    ensures forall i :: 0 <= i < |files| ==> r[i] == Staged(files[i], path)
  {
    seq(|files|, i requires 0 <= i < |files| => Staged(files[i], path))
  }

  /** handleFileUpload: the list handed to onFileSelect, or None when the picker
      returned no file and no call is made. */
  function PickerSelection(files: seq<FileHandle>, targetPath: seq<string>): (r: Option<seq<Staged>>)
    ensures r.None? <==> files == []
    ensures r.Some? ==> r.value == StageAll(files, targetPath)
  {
    if |files| == 0 then None else Some(StageAll(files, targetPath))
  }

  /** The membership test of getFilesInFolder: same length, equal segment by segment. */
  predicate InFolder(entry: Staged, path: seq<string>)
  {
    |entry.path| == |path| && forall i :: 0 <= i < |path| ==> entry.path[i] == path[i]
  }

  function InFolderOf(path: seq<string>): Staged -> bool
  {
    (entry: Staged) => InFolder(entry, path)
  }

  function FilesInFolder(selected: seq<Staged>, path: seq<string>): seq<Staged>
  {
    Filter(selected, InFolderOf(path))
  }

  function OtherFileThan(handle: nat): Staged -> bool
  {
    (entry: Staged) => entry.file.handle != handle
  }

  /** removeFile: the list without every entry that shares the file's handle. */
  function RemoveFile(selected: seq<Staged>, entry: Staged): seq<Staged>
  {
    Filter(selected, OtherFileThan(entry.file.handle))
  }

  lemma InFolderIsEquality(entry: Staged, path: seq<string>)
    ensures InFolder(entry, path) <==> entry.path == path
  {
    if InFolder(entry, path) {
      assert entry.path == path;
    }
  }

  /** A folder shows exactly the staged entries whose path equals its own. */
  lemma FilesInFolderExact(selected: seq<Staged>, path: seq<string>, e: Staged)
    ensures e in FilesInFolder(selected, path) <==> e in selected && e.path == path
  {
    FilterMember(selected, InFolderOf(path), e);
    InFolderIsEquality(e, path);
  }

  /** No prefix matching: an entry staged below a folder is not in that folder. */
  lemma NotInAncestorFolder(selected: seq<Staged>, path: seq<string>, e: Staged)
    requires |e.path| > |path|
    ensures e !in FilesInFolder(selected, path)
  {
    FilesInFolderExact(selected, path, e);
  }

  /** Files staged onto a folder are listed by that folder after the ones it already
      had, in staging order, duplicates included. */
  lemma StagedFilesAreListed(selected: seq<Staged>, files: seq<FileHandle>, path: seq<string>)
    ensures FilesInFolder(selected + StageAll(files, path), path)
      == FilesInFolder(selected, path) + StageAll(files, path)
  {
    var staged := StageAll(files, path);
    FilterConcat(selected, staged, InFolderOf(path));
    forall i | 0 <= i < |staged| ensures InFolderOf(path)(staged[i]) {
      InFolderIsEquality(staged[i], path);
    }
    FilterKeepsAll(staged, InFolderOf(path));
  }

  /** removeFile keeps exactly the entries of other files. */
  lemma RemoveFileKeepsOthers(selected: seq<Staged>, entry: Staged, e: Staged)
    ensures e in RemoveFile(selected, entry) <==> e in selected && e.file.handle != entry.file.handle
  {
    FilterMember(selected, OtherFileThan(entry.file.handle), e);
  }

  /** removeFile never grows the list, and shrinks it when the file was staged. */
  lemma RemoveFileShrinks(selected: seq<Staged>, entry: Staged)
    requires entry in selected
    ensures |RemoveFile(selected, entry)| < |selected|
  {
    var keep := OtherFileThan(entry.file.handle);
    FilterLength(selected, keep);
    CountMissesOne(selected, keep, entry);
  }

  // ---------------------------------------------------------------------------
  // The drop overlay

  datatype DragEvent = DragEnter | DragLeave | Drop

  /** The nesting counter and the overlay flag. */
  datatype DragState = DragState(counter: int, dragging: bool)

  const Idle := DragState(0, false)

  /** handleDragEnter / handleDragLeave / handleDrop on the counter and the flag. */
  function DragStep(d: DragState, e: DragEvent): DragState
  {
    match e
    case DragEnter => DragState(d.counter + 1, if d.counter + 1 == 1 then true else d.dragging)
    case DragLeave => DragState(d.counter - 1, if d.counter - 1 == 0 then false else d.dragging)
    case Drop => Idle
  }

  function RunDrag(d: DragState, events: seq<DragEvent>): DragState
    decreases |events|
  {
    if events == [] then d else DragStep(RunDrag(d, events[..|events| - 1]), events[|events| - 1])
  }

  /** The overlay shows exactly while the counter is positive. */
  predicate OverlayMatchesCounter(d: DragState)
  {
    d.dragging <==> d.counter > 0
  }

  lemma DragStepKeepsOverlay(d: DragState, e: DragEvent)
    requires OverlayMatchesCounter(d)
    ensures OverlayMatchesCounter(DragStep(d, e))
  {
  }

  function Enters(events: seq<DragEvent>): nat
    decreases |events|
  {
    if events == [] then 0
    else Enters(events[..|events| - 1]) + (if events[|events| - 1] == DragEnter then 1 else 0)
  }

  function Leaves(events: seq<DragEvent>): nat
    decreases |events|
  {
    if events == [] then 0
    else Leaves(events[..|events| - 1]) + (if events[|events| - 1] == DragLeave then 1 else 0)
  }

  /** Without a drop, the counter is the number of enters minus the number of leaves,
      in whatever order they came, and the overlay shows exactly when that is positive. */
  lemma {:induction false} CounterCountsNesting(events: seq<DragEvent>)
    requires Drop !in events
    ensures RunDrag(Idle, events) == DragState(Enters(events) - Leaves(events), Enters(events) > Leaves(events))
    decreases |events|
  {
    if events != [] {
      var init := events[..|events| - 1];
      assert Drop !in init by {
        forall k | 0 <= k < |init| ensures init[k] != Drop {
          assert init[k] == events[k];
        }
      }
      CounterCountsNesting(init);
    }
  }

  /** As many leaves as enters, in any interleaving, hide the overlay with the
      counter back at zero; a drop resets both from any state. */
  lemma BalancedDragEndsIdle(events: seq<DragEvent>)
    requires Drop !in events && Enters(events) == Leaves(events)
    ensures RunDrag(Idle, events) == Idle
    ensures RunDrag(Idle, events + [Drop]) == Idle
  {
    CounterCountsNesting(events);
  }

  /** A leave with no matching enter drives the counter below zero, and the next
      enter then shows no overlay. */
  lemma StrayLeaveHidesNextDrag()
    ensures RunDrag(Idle, [DragLeave, DragEnter]) == Idle
  {
    assert [DragLeave, DragEnter][..1] == [DragLeave];
    assert [DragLeave][..0] == [];
  }

  /** Every leave arrives while the counter is positive. */
  predicate LeavesMatched(events: seq<DragEvent>)
  {
    forall k :: 0 <= k < |events| && events[k] == DragLeave ==> RunDrag(Idle, events[..k]).counter > 0
  }

  /** When leaves only arrive while the counter is positive, it never drops below zero. */
  lemma {:induction false} CounterNeverNegative(events: seq<DragEvent>)
    requires LeavesMatched(events)
    ensures RunDrag(Idle, events).counter >= 0
    decreases |events|
  {
    if events != [] {
      var n := |events|;
      var init := events[..n - 1];
      assert LeavesMatched(init) by {
        forall k | 0 <= k < |init| && init[k] == DragLeave
          ensures RunDrag(Idle, init[..k]).counter > 0
        {
          assert init[k] == events[k] && init[..k] == events[..k];
        }
      }
      CounterNeverNegative(init);
      assert events[..n - 1] == init;
    }
  }

  // ---------------------------------------------------------------------------
  // The component's state

  class FileManagerPanel {
    var structure: seq<Node>
    var expandedFolders: set<string>
    var selectedFolder: Option<string>
    var dragOver: Option<string>
    var isDraggingFile: bool
    var dragCounter: int

    function Drag(): DragState
      reads this
    {
      DragState(dragCounter, isDraggingFile)
    }

    constructor ()
      ensures structure == DefaultTree() && expandedFolders == {"level-01"}
      ensures selectedFolder == None && dragOver == None && Drag() == Idle
    {
      structure := DefaultTree();
      expandedFolders := {"level-01"};
      selectedFolder := None;
      dragOver := None;
      isDraggingFile := false;
      dragCounter := 0;
    }

    method ToggleFolder(id: string)
      modifies this`expandedFolders
      ensures expandedFolders == ToggleMember(old(expandedFolders), id)
    {
      if id in expandedFolders {
        expandedFolders := expandedFolders - {id};
      } else {
        expandedFolders := expandedFolders + {id};
      }
    }

    /** A click on a folder row toggles it and selects it. */
    method ClickFolder(id: string)
      modifies this`expandedFolders, this`selectedFolder
      ensures expandedFolders == ToggleMember(old(expandedFolders), id)
      ensures selectedFolder == Some(id)
    {
      ToggleFolder(id);
      selectedFolder := Some(id);
    }

    /** Dragging over a folder row highlights it and expands it if it was collapsed. */
    method DragEnterFolder(id: string)
      modifies this`expandedFolders, this`dragOver
      ensures dragOver == Some(id)
      ensures expandedFolders == old(expandedFolders) + {id}
    {
      dragOver := Some(id);
      if id !in expandedFolders {
        ToggleFolder(id);
      }
    }

    /** Every drag-over on a folder row marks it as the drop target again, so a
        target cleared by a nested leave is restored by the next drag-over. */
    method DragOverFolder(id: string)
      modifies this`dragOver
      ensures dragOver == Some(id)
    {
      dragOver := Some(id);
    }

    method DragLeaveFolder()
      modifies this`dragOver
      ensures dragOver == None
    {
      dragOver := None;
    }

    method HandleDragEnter()
      modifies this`dragCounter, this`isDraggingFile
      ensures Drag() == DragStep(old(Drag()), DragEnter)
    {
      dragCounter := dragCounter + 1;
      if dragCounter == 1 {
        isDraggingFile := true;
      }
    }

    method HandleDragLeave()
      modifies this`dragCounter, this`isDraggingFile
      ensures Drag() == DragStep(old(Drag()), DragLeave)
    {
      dragCounter := dragCounter - 1;
      if dragCounter == 0 {
        isDraggingFile := false;
      }
    }

    /** A drop resets the overlay and hands every dropped file, in order, to
        onFileSelect with the folder's path. */
    method HandleDrop(files: seq<FileHandle>, targetPath: seq<string>) returns (selection: seq<Staged>)
      modifies this`dragOver, this`dragCounter, this`isDraggingFile
      ensures dragOver == None && Drag() == Idle
      ensures selection == StageAll(files, targetPath)
    {
      dragOver := None;
      isDraggingFile := false;
      dragCounter := 0;
      selection := StageAll(files, targetPath);
    }

    /** addNewFolder. `folderName` is the prompt's answer (None when cancelled) and
        `now` the clock reading that names the folder. */
    method AddNewFolder(parentPath: seq<string>, folderName: Option<string>, now: nat)
      modifies this`structure, this`expandedFolders
      ensures folderName == None || folderName == Some("") ==>
        structure == old(structure) && expandedFolders == old(expandedFolders)
      ensures folderName.Some? && folderName.value != "" ==>
        && structure == AddFolder(old(structure), parentPath, folderName.value, FolderId(now))
        && expandedFolders == old(expandedFolders) + {FolderId(now)}
    {
      if folderName == None || folderName == Some("") {
        return;
      }
      var name := folderName.value;
      var addr: Address := [];
      var current := structure;
      for k := 0 to |parentPath|
        invariant ValidAddr(structure, addr) && current == LevelAt(structure, addr)
        invariant addr == Walk(structure, parentPath[..k])
        invariant structure == old(structure) && expandedFolders == old(expandedFolders)
      {
        WalkStep(structure, parentPath[..k], parentPath[k]);
        assert parentPath[..k + 1] == parentPath[..k] + [parentPath[k]];
        var target := FindByName(current, parentPath[k]);
        if target.Some? {
          LevelAtExtend(structure, addr, target.value);
          current := current[target.value].children;
          addr := addr + [target.value];
        }
      }
      assert parentPath[..|parentPath|] == parentPath;
      var newFolder := Node(FolderId(now), name, parentPath + [name], []);
      structure := InsertAt(structure, addr, newFolder);
      expandedFolders := expandedFolders + {newFolder.id};
    }
  }
}
