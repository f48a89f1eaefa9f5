/** The drawing grid of a project: drawing types as columns, asset types as rows.
    Every handler of the view replaces a piece of state by a new array computed
    from the old one, so the view is modelled as a state value and pure
    transitions over it. */
module ProjectContent {
  import opened Common
  import opened ProjectData

  const ColumnWidth := 320
  const CollapsedWidth := 48

  // ---------------------------------------------------------------------------
  // Drawing types

  /** Every type with its selection cleared, everything else kept. */
  function Unselect(types: seq<DrawingType>): (r: seq<DrawingType>)
    ensures |r| == |types|
    ensures forall i :: 0 <= i < |r| ==> !r[i].isSelected && r[i].(isSelected := types[i].isSelected) == types[i]
  {
    seq(|types|, i requires 0 <= i < |types| => types[i].(isSelected := false))
  }

  /** The types the view starts from. */
  function InitialTypes(): seq<DrawingType>
  {
    Unselect(DrawingTypes)
  }

  /** The seed types are unselected already, so the view starts from them unchanged. */
  lemma InitialTypesAreSeed()
    ensures InitialTypes() == DrawingTypes
  {
    SeedTypes();
    var r := InitialTypes();
    forall i | 0 <= i < |r|
      ensures r[i] == DrawingTypes[i]
    {
      assert DrawingTypes[i] in DrawingTypes;
    }
  }

  predicate IsExpanded(t: DrawingType)
  {
    t.isExpanded
  }

  predicate IsCollapsed(t: DrawingType)
  {
    !t.isExpanded
  }

  /** sortedTypes: the expanded types, then the collapsed ones, each group in its
      original order. */
  function SortedTypes(types: seq<DrawingType>): seq<DrawingType>
  {
    Filter(types, IsExpanded) + Filter(types, IsCollapsed)
  }

  /** The sorted view is a permutation of the types in which no expanded type
      follows a collapsed one. */
  lemma SortedTypesPermutes(types: seq<DrawingType>)
    ensures multiset(SortedTypes(types)) == multiset(types)
    ensures |SortedTypes(types)| == |types|
    ensures forall i, j :: 0 <= i < j < |SortedTypes(types)| && !SortedTypes(types)[i].isExpanded ==>
      !SortedTypes(types)[j].isExpanded
  {
    var e, c := Filter(types, IsExpanded), Filter(types, IsCollapsed);
    FilterPartition(types, IsExpanded, IsCollapsed);
    assert |multiset(SortedTypes(types))| == |multiset(types)|;
    forall k | 0 <= k < |e|
      ensures e[k].isExpanded
    {
      FilterMember(types, IsExpanded, e[k]);
    }
    forall k | 0 <= k < |c|
      ensures !c[k].isExpanded
    {
      FilterMember(types, IsCollapsed, c[k]);
    }
  }

  /** With every type expanded, or every type collapsed, sorting changes nothing. */
  lemma SortedWhenUniform(types: seq<DrawingType>)
    requires (forall i :: 0 <= i < |types| ==> types[i].isExpanded)
          || (forall i :: 0 <= i < |types| ==> !types[i].isExpanded)
    ensures SortedTypes(types) == types
  {
    if forall i :: 0 <= i < |types| ==> types[i].isExpanded {
      FilterKeepsAll(types, IsExpanded);
      FilterDropsAll(types, IsCollapsed);
    } else {
      FilterDropsAll(types, IsExpanded);
      FilterKeepsAll(types, IsCollapsed);
    }
  }

  /** The first column of the sorted view: the first expanded type, or the first
      type when none is expanded. */
  lemma SortedHead(types: seq<DrawingType>, k: nat)
    requires k < |types|
    requires forall j :: 0 <= j < k ==> !types[j].isExpanded
    requires types[k].isExpanded || (k == 0 && forall i :: 0 <= i < |types| ==> !types[i].isExpanded)
    ensures SortedTypes(types) != [] && SortedTypes(types)[0] == types[k]
  {
    if types[k].isExpanded {
      FilterFirst(types, IsExpanded, k);
    } else {
      SortedWhenUniform(types);
    }
  }

  /** toggleDrawingType: flips isExpanded of the types with that id. */
  function ToggleExpandedById(types: seq<DrawingType>, id: string): (r: seq<DrawingType>)
    ensures |r| == |types|
    ensures forall i :: 0 <= i < |r| ==>
      && r[i].(isExpanded := types[i].isExpanded) == types[i]
      && (r[i].isExpanded <==> (types[i].isExpanded <==> types[i].id != id))
  {
    seq(|types|, i requires 0 <= i < |types| =>
      if types[i].id == id then types[i].(isExpanded := !types[i].isExpanded) else types[i])
  }

  lemma ToggleExpandedTwice(types: seq<DrawingType>, id: string)
    ensures ToggleExpandedById(ToggleExpandedById(types, id), id) == types
  {
    var r := ToggleExpandedById(ToggleExpandedById(types, id), id);
    assert forall i :: 0 <= i < |r| ==> r[i] == types[i];
  }

  /** The types half of toggleTypeSelection: flips isSelected of the types with that id. */
  function ToggleSelectedById(types: seq<DrawingType>, id: string): (r: seq<DrawingType>)
    ensures |r| == |types|
    ensures forall i :: 0 <= i < |r| ==>
      && r[i].(isSelected := types[i].isSelected) == types[i]
      && (r[i].isSelected <==> (types[i].isSelected <==> types[i].id != id))
  {
    seq(|types|, i requires 0 <= i < |types| =>
      if types[i].id == id then types[i].(isSelected := !types[i].isSelected) else types[i])
  }

  lemma ToggleSelectedTwice(types: seq<DrawingType>, id: string)
    ensures ToggleSelectedById(ToggleSelectedById(types, id), id) == types
  {
    var r := ToggleSelectedById(ToggleSelectedById(types, id), id);
    assert forall i :: 0 <= i < |r| ==> r[i] == types[i];
  }

  function Differs(id: string): string -> bool
  {
    (x: string) => x != id
  }

  /** The selectedTypes half of toggleTypeSelection: drop the id if listed, else
      append it. */
  function ToggleSelection(selected: seq<string>, id: string): seq<string>
  {
    if id in selected then Filter(selected, Differs(id)) else selected + [id]
  }

  /** Toggling flips the membership of the id and of no other id. */
  lemma ToggleSelectionFlips(selected: seq<string>, id: string)
    ensures id in ToggleSelection(selected, id) <==> id !in selected
    ensures forall x :: x != id ==> (x in ToggleSelection(selected, id) <==> x in selected)
  {
    if id in selected {
      FilterMember(selected, Differs(id), id);
      forall x | x != id
        ensures x in ToggleSelection(selected, id) <==> x in selected
      {
        FilterMember(selected, Differs(id), x);
      }
    }
  }

  /** The selection list never holds an id twice. */
  lemma ToggleSelectionNoDup(selected: seq<string>, id: string)
    requires NoDup(selected)
    ensures NoDup(ToggleSelection(selected, id))
  {
    if id in selected {
      FilterNoDup(selected, Differs(id));
    } else {
      var r := selected + [id];
      forall i, j | 0 <= i < j < |r|
        ensures r[i] != r[j]
      {
        if j == |selected| {
          assert r[i] == selected[i] && selected[i] in selected;
        }
      }
    }
  }

  /** Selecting an unlisted id and toggling it again restores the list. */
  lemma ToggleSelectionTwice(selected: seq<string>, id: string)
    requires id !in selected
    ensures ToggleSelection(ToggleSelection(selected, id), id) == selected
  {
    FilterConcat(selected, [id], Differs(id));
    FilterKeepsAll(selected, Differs(id));
    FilterDropsAll([id], Differs(id));
  }

  // ---------------------------------------------------------------------------
  // Asset types

  /** toggleAssetType: flips isExpanded of the assets with that id. It mirrors
      ToggleExpandedById over the asset record, as the source writes the same map
      a second time for a different record type. */
  function ToggleAssetById(assets: seq<AssetType>, id: string): (r: seq<AssetType>)
    ensures |r| == |assets|
    ensures forall i :: 0 <= i < |r| ==>
      && r[i].(isExpanded := assets[i].isExpanded) == assets[i]
      && (r[i].isExpanded <==> (assets[i].isExpanded <==> assets[i].id != id))
  {
    seq(|assets|, i requires 0 <= i < |assets| =>
      if assets[i].id == id then assets[i].(isExpanded := !assets[i].isExpanded) else assets[i])
  }

  lemma ToggleAssetTwice(assets: seq<AssetType>, id: string)
    ensures ToggleAssetById(ToggleAssetById(assets, id), id) == assets
  {
    var r := ToggleAssetById(ToggleAssetById(assets, id), id);
    assert forall i :: 0 <= i < |r| ==> r[i] == assets[i];
  }

  // ---------------------------------------------------------------------------
  // File details

  /** `assets.find(a => a.id === id)`: the first asset with that id. */
  function FindAsset(assets: seq<AssetType>, id: string): (r: Option<AssetType>)
    ensures r.Some? ==> r.value in assets && r.value.id == id
    ensures r.Some? ==> exists k :: 0 <= k < |assets| && assets[k] == r.value
                                   && forall j :: 0 <= j < k ==> assets[j].id != id
    ensures r.None? <==> forall a :: a in assets ==> a.id != id
    decreases |assets|
  {
    if assets == [] then None
    else if assets[0].id == id then Some(assets[0])
    else FindAsset(assets[1..], id)
  }

  /** `types.find(t => t.id === id)`: the first type with that id. */
  function FindType(types: seq<DrawingType>, id: string): (r: Option<DrawingType>)
    ensures r.Some? ==> r.value in types && r.value.id == id
    ensures r.Some? ==> exists k :: 0 <= k < |types| && types[k] == r.value
                                   && forall j :: 0 <= j < k ==> types[j].id != id
    ensures r.None? <==> forall t :: t in types ==> t.id != id
    decreases |types|
  {
    if types == [] then None
    else if types[0].id == id then Some(types[0])
    else FindType(types[1..], id)
  }

  const DetailsLevel := "Level 01 - First floor"
  const AssetsSuffix := " assets"

  /** What the details sidebar shows of a file; the version list and the file
      facts the view shows are constants and are not modelled. */
  datatype FileDetails = FileDetails(name: string, level: string, category: string, typeName: string,
                                     contentType: seq<string>)

  /** getFileDetails: null unless the asset, its drawing for the type, and the type
      are all found; the category is the asset's name without its first " assets". */
  function GetFileDetails(assets: seq<AssetType>, types: seq<DrawingType>, assetId: string, typeId: string)
    : (r: Option<FileDetails>)
    ensures r.Some? <==>
      && FindAsset(assets, assetId).Some?
      && typeId in FindAsset(assets, assetId).value.drawings
      && FindType(types, typeId).Some?
    ensures r.Some? ==>
      && r.value.name == FindAsset(assets, assetId).value.drawings[typeId].name
      && r.value.category == ReplaceFirst(FindAsset(assets, assetId).value.name, AssetsSuffix, "")
      && r.value.typeName == FindType(types, typeId).value.name
      && r.value.contentType == [r.value.typeName, "Working drawing"]
  {
    match FindAsset(assets, assetId)
    case None => None
    case Some(asset) =>
      if typeId !in asset.drawings then None
      else match FindType(types, typeId)
        case None => None
        case Some(t) =>
          Some(FileDetails(asset.drawings[typeId].name, DetailsLevel,
                           ReplaceFirst(asset.name, AssetsSuffix, ""), t.name, [t.name, "Working drawing"]))
  }

  /** The plan drawing of the architectural assets, as the sidebar shows it. */
  lemma SeedDetails()
    ensures GetFileDetails(AssetTypes(), InitialTypes(), "architectural", "plan")
      == Some(FileDetails(SeedDrawingName, DetailsLevel, "Architectural", "Plan drawings",
                          ["Plan drawings", "Working drawing"]))
  {
    var arch := AssetTypes()[0];
    assert FindAsset(AssetTypes(), "architectural") == Some(arch) by {
    }
    assert FindType(InitialTypes(), "plan") == Some(DrawingTypes[0]) by {
      InitialTypesAreSeed();
    }
    assert "plan" in arch.drawings && arch.drawings["plan"].name == SeedDrawingName by {
      DrawingsMapEntries("arch", DrawingTypes);
      assert DrawingTypes[0] in DrawingTypes;
    }
    assert ReplaceFirst(arch.name, AssetsSuffix, "") == "Architectural" by {
      assert arch.name == "Architectural" + AssetsSuffix;
      ReplaceTrailing("Architectural", AssetsSuffix);
    }
  }

  // ---------------------------------------------------------------------------
  // The view's state

  datatype FileRef = FileRef(assetId: string, typeId: string)

  datatype ContentState = ContentState(
    types: seq<DrawingType>,
    assets: seq<AssetType>,
    activeType: Option<string>,
    hoveredType: Option<string>,
    selectedTypes: seq<string>,
    isFileDetailsOpen: bool,
    selectedFile: Option<FileRef>)

  function Initial(): ContentState
  {
    ContentState(InitialTypes(), AssetTypes(), None, None, [], false, None)
  }

  function ToggleDrawingType(s: ContentState, id: string): ContentState
  {
    s.(types := ToggleExpandedById(s.types, id))
  }

  function ToggleTypeSelection(s: ContentState, id: string): ContentState
  {
    s.(types := ToggleSelectedById(s.types, id), selectedTypes := ToggleSelection(s.selectedTypes, id))
  }

  function ToggleAssetType(s: ContentState, id: string): ContentState
  {
    s.(assets := ToggleAssetById(s.assets, id))
  }

  /** An asset row's image click. The row reports the clicked column, but the
      handler it is wired to opens the first sorted type instead. */
  function ImageClick(s: ContentState, assetId: string, clickedType: string): ContentState
    requires |s.types| > 0
  {
    s.(selectedFile := Some(FileRef(assetId, SortedTypes(s.types)[0].id)), isFileDetailsOpen := true)
  }

  /** The click opens the first expanded type (or the first type when none is
      expanded), whichever column was clicked. */
  lemma ImageClickOpensFirstColumn(s: ContentState, assetId: string, clickedType: string, k: nat)
    requires k < |s.types|
    requires forall j :: 0 <= j < k ==> !s.types[j].isExpanded
    requires s.types[k].isExpanded || (k == 0 && forall i :: 0 <= i < |s.types| ==> !s.types[i].isExpanded)
    ensures ImageClick(s, assetId, clickedType).selectedFile == Some(FileRef(assetId, s.types[k].id))
    ensures ImageClick(s, assetId, clickedType).isFileDetailsOpen
  {
    SortedHead(s.types, k);
  }

  /** The sidebar's close button. */
  function CloseDetails(s: ContentState): ContentState
  {
    s.(isFileDetailsOpen := false, selectedFile := None)
  }

  /** The header's onHover is the hoveredType setter. */
  function Hover(s: ContentState, hovered: Option<string>): ContentState
  {
    s.(hoveredType := hovered)
  }

  /** What the user can do in the grid. An image click names the rendered row it
      happened in; there is no row beyond the last asset. */
  datatype ContentEvent =
    | ToggleType(id: string)
    | SelectType(id: string)
    | ToggleAsset(id: string)
    | ClickImage(row: nat, column: string)
    | CloseSidebar
    | HoverType(hovered: Option<string>)

  function Step(s: ContentState, e: ContentEvent): (r: ContentState)
    requires |s.types| > 0
    ensures |r.types| == |s.types|
  {
    match e
    case ToggleType(id) => ToggleDrawingType(s, id)
    case SelectType(id) => ToggleTypeSelection(s, id)
    case ToggleAsset(id) => ToggleAssetType(s, id)
    case ClickImage(row, column) => if row < |s.assets| then ImageClick(s, s.assets[row].id, column) else s
    case CloseSidebar => CloseDetails(s)
    case HoverType(h) => Hover(s, h)
  }

  function Run(s: ContentState, events: seq<ContentEvent>): (r: ContentState)
    requires |s.types| > 0
    ensures |r.types| == |s.types|
    decreases |events|
  {
    if events == [] then s else Step(Run(s, events[..|events| - 1]), events[|events| - 1])
  }

  // ---------------------------------------------------------------------------
  // The invariant of the view

  /** A type is marked selected exactly when its id is in the selection list. */
  predicate Synced(s: ContentState)
  {
    forall i :: 0 <= i < |s.types| ==> (s.types[i].isSelected <==> s.types[i].id in s.selectedTypes)
  }

  predicate HasAsset(assets: seq<AssetType>, id: string)
  {
    exists j :: 0 <= j < |assets| && assets[j].id == id
  }

  predicate HasType(types: seq<DrawingType>, id: string)
  {
    exists i :: 0 <= i < |types| && types[i].id == id
  }

  /** Every asset holds a drawing for every type column. */
  predicate Covered(types: seq<DrawingType>, assets: seq<AssetType>)
  {
    forall i, j :: 0 <= i < |types| && 0 <= j < |assets| ==> types[i].id in assets[j].drawings
  }

  predicate Valid(s: ContentState)
  {
    && |s.types| > 0
    && Synced(s)
    && NoDup(s.selectedTypes)
    && Covered(s.types, s.assets)
    && (s.isFileDetailsOpen ==> s.selectedFile.Some?)
    && (s.selectedFile.Some? ==>
          HasAsset(s.assets, s.selectedFile.value.assetId) && HasType(s.types, s.selectedFile.value.typeId))
    && s.activeType == None
  }

  lemma InitialValid()
    ensures Valid(Initial())
  {
    InitialTypesAreSeed();
    SeedAssets();
    var s := Initial();
    forall i, j | 0 <= i < |s.types| && 0 <= j < |s.assets|
      ensures s.types[i].id in s.assets[j].drawings
    {
      assert s.types[i] in DrawingTypes && s.assets[j] in AssetTypes();
    }
  }

  lemma ToggleDrawingTypeKeepsValid(s: ContentState, id: string)
    requires Valid(s)
    ensures Valid(ToggleDrawingType(s, id))
  {
    var r := ToggleDrawingType(s, id);
    if s.selectedFile.Some? {
      var i :| 0 <= i < |s.types| && s.types[i].id == s.selectedFile.value.typeId;
      assert r.types[i].id == s.types[i].id;
    }
  }

  lemma ToggleTypeSelectionKeepsValid(s: ContentState, id: string)
    requires Valid(s)
    ensures Valid(ToggleTypeSelection(s, id))
  {
    var r := ToggleTypeSelection(s, id);
    ToggleSelectionFlips(s.selectedTypes, id);
    ToggleSelectionNoDup(s.selectedTypes, id);
    forall i | 0 <= i < |r.types|
      ensures r.types[i].isSelected <==> r.types[i].id in r.selectedTypes
    {
      assert r.types[i].id == s.types[i].id;
    }
    if s.selectedFile.Some? {
      var i :| 0 <= i < |s.types| && s.types[i].id == s.selectedFile.value.typeId;
      assert r.types[i].id == s.types[i].id;
    }
  }

  lemma ToggleAssetTypeKeepsValid(s: ContentState, id: string)
    requires Valid(s)
    ensures Valid(ToggleAssetType(s, id))
  {
    var r := ToggleAssetType(s, id);
    forall i, j | 0 <= i < |r.types| && 0 <= j < |r.assets|
      ensures r.types[i].id in r.assets[j].drawings
    {
      assert r.assets[j].drawings == s.assets[j].drawings;
    }
    if s.selectedFile.Some? {
      var j :| 0 <= j < |s.assets| && s.assets[j].id == s.selectedFile.value.assetId;
      assert r.assets[j].id == s.assets[j].id;
    }
  }

  lemma ImageClickKeepsValid(s: ContentState, row: nat, column: string)
    requires Valid(s) && row < |s.assets|
    ensures Valid(ImageClick(s, s.assets[row].id, column))
  {
    var head := SortedTypes(s.types)[0];
    SortedTypesPermutes(s.types);
    assert head in multiset(SortedTypes(s.types));
    assert head in s.types;
  }

  lemma StepKeepsValid(s: ContentState, e: ContentEvent)
    requires Valid(s)
    ensures Valid(Step(s, e))
  {
    match e
    case ToggleType(id) => ToggleDrawingTypeKeepsValid(s, id);
    case SelectType(id) => ToggleTypeSelectionKeepsValid(s, id);
    case ToggleAsset(id) => ToggleAssetTypeKeepsValid(s, id);
    case ClickImage(row, column) =>
      if row < |s.assets| {
        ImageClickKeepsValid(s, row, column);
      }
    case CloseSidebar =>
    case HoverType(h) =>
  }

  /** Every state the grid reaches keeps the invariant; in particular no handler
      ever sets activeType, so it stays null. */
  lemma {:induction false} ReachableValid(events: seq<ContentEvent>)
    ensures Valid(Run(Initial(), events))
    decreases |events|
  {
    InitialValid();
    if events != [] {
      ReachableValid(events[..|events| - 1]);
      StepKeepsValid(Run(Initial(), events[..|events| - 1]), events[|events| - 1]);
    }
  }

  /** In a valid state the selected file's details are found. */
  lemma DetailsFound(s: ContentState)
    requires Valid(s) && s.selectedFile.Some?
    ensures GetFileDetails(s.assets, s.types, s.selectedFile.value.assetId, s.selectedFile.value.typeId).Some?
  {
    var ref := s.selectedFile.value;
    var j :| 0 <= j < |s.assets| && s.assets[j].id == ref.assetId;
    var i :| 0 <= i < |s.types| && s.types[i].id == ref.typeId;
    assert s.assets[j] in s.assets && s.types[i] in s.types;
    var a := FindAsset(s.assets, ref.assetId).value;
    var k :| 0 <= k < |s.assets| && s.assets[k] == a;
    assert s.types[i].id in s.assets[k].drawings;
  }

  /** The sidebar's non-null assertion on getFileDetails holds in every reachable
      state: once a file is selected, its details are found. */
  lemma SidebarDetailsNeverNull(events: seq<ContentEvent>)
    ensures var s := Run(Initial(), events);
      s.selectedFile.Some? ==>
        GetFileDetails(s.assets, s.types, s.selectedFile.value.assetId, s.selectedFile.value.typeId).Some?
  {
    ReachableValid(events);
    var s := Run(Initial(), events);
    if s.selectedFile.Some? {
      DetailsFound(s);
    }
  }
}
