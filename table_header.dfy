/** The header of the drawing grid: one button per drawing type. A shift-click
    selects the type, a plain click expands or collapses it; hovering opens the
    column and is reported to the grid; the button's style marks selection
    before activity. */
module TableHeader {
  import opened Common
  import opened ProjectData
  import opened ProjectContent
  import opened AssetRow

  /** What a click on a header button asks of the grid. */
  datatype HeaderAction = Select(id: string) | Toggle(id: string)

  /** The button's onClick: shift selects, anything else toggles; only one of the
      two callbacks is called. */
  function ClickDispatch(shiftKey: bool, id: string): (a: HeaderAction)
    ensures a.id == id
    ensures a.Select? <==> shiftKey
  {
    if shiftKey then Select(id) else Toggle(id)
  }

  /** The grid's onSelect is toggleTypeSelection and its onToggle is toggleDrawingType. */
  function Apply(s: ContentState, a: HeaderAction): ContentState
  {
    match a
    case Select(id) => ToggleTypeSelection(s, id)
    case Toggle(id) => ToggleDrawingType(s, id)
  }

  /** A shift-click changes the selection and leaves every column's expansion
      alone; a plain click changes expansion and leaves the selection alone. */
  lemma ClickTouchesOneConcern(s: ContentState, shiftKey: bool, id: string)
    ensures var r := Apply(s, ClickDispatch(shiftKey, id));
      && |r.types| == |s.types| && r.assets == s.assets
      && (shiftKey ==>
            && (forall i :: 0 <= i < |r.types| ==> r.types[i].isExpanded == s.types[i].isExpanded)
            && (id in r.selectedTypes <==> id !in s.selectedTypes))
      && (!shiftKey ==>
            && r.selectedTypes == s.selectedTypes
            && (forall i :: 0 <= i < |r.types| ==> r.types[i].isSelected == s.types[i].isSelected))
  {
    ToggleSelectionFlips(s.selectedTypes, id);
  }

  /** The header's two clicks keep the grid's invariant. */
  lemma ClickKeepsValid(s: ContentState, shiftKey: bool, id: string)
    requires Valid(s)
    ensures Valid(Apply(s, ClickDispatch(shiftKey, id)))
  {
    if shiftKey {
      ToggleTypeSelectionKeepsValid(s, id);
    } else {
      ToggleDrawingTypeKeepsValid(s, id);
    }
  }

  datatype ButtonStyle = SelectedStyle | ActiveStyle | PlainStyle

  /** The button's colours: selected wins over active, active over the default. */
  function StyleOf(t: DrawingType, activeType: Option<string>): (st: ButtonStyle)
    ensures st == SelectedStyle <==> t.isSelected
    ensures st == ActiveStyle <==> !t.isSelected && activeType == Some(t.id)
    ensures st == PlainStyle <==> !t.isSelected && activeType != Some(t.id)
  {
    if t.isSelected then SelectedStyle
    else if activeType == Some(t.id) then ActiveStyle
    else PlainStyle
  }

  /** In the grid's states the active style never shows, and a button is marked
      selected exactly when its id is in the selection list. */
  lemma StyleInGrid(s: ContentState, i: nat)
    requires Valid(s) && i < |s.types|
    ensures StyleOf(s.types[i], s.activeType) != ActiveStyle
    ensures StyleOf(s.types[i], s.activeType) == SelectedStyle <==> s.types[i].id in s.selectedTypes
  {
  }

  /** The header's own hover state. */
  class TableHeaderState {
    var hoveredType: Option<string>

    constructor ()
      ensures hoveredType == None
    {
      hoveredType := None;
    }

    /** A header button is open when its type is expanded or this header hovers it. */
    predicate ShowsExpanded(t: DrawingType)
      reads this
    {
      ShowExpanded(t, hoveredType)
    }

    function Width(t: DrawingType): (w: int)
      reads this
      ensures w == ColumnWidth <==> ShowsExpanded(t)
      ensures w == CollapsedWidth <==> !ShowsExpanded(t)
    {
      ColumnWidthOf(t, hoveredType, ColumnWidth, CollapsedWidth)
    }

    /** onMouseEnter: hover this type and report it to the grid. */
    method MouseEnter(id: string) returns (reported: Option<string>)
      modifies this`hoveredType
      ensures hoveredType == Some(id) && reported == hoveredType
    {
      hoveredType := Some(id);
      reported := Some(id);
    }

    /** onMouseLeave: clear the hover and report that to the grid. */
    method MouseLeave() returns (reported: Option<string>)
      modifies this`hoveredType
      ensures hoveredType == None && reported == None
    {
      hoveredType := None;
      reported := None;
    }
  }

  /** The header reports every hover change to the grid, so after the grid stores
      the report the header and every asset row agree on each column's width. */
  method HoverThenReport(header: TableHeaderState, s: ContentState, enter: bool, id: string)
    returns (r: ContentState)
    modifies header`hoveredType
    ensures r == Hover(s, header.hoveredType)
    ensures header.hoveredType == (if enter then Some(id) else None)
    ensures forall t :: header.Width(t) == ColumnWidthOf(t, r.hoveredType, ColumnWidth, CollapsedWidth)
  {
    var reported;
    if enter {
      reported := header.MouseEnter(id);
    } else {
      reported := header.MouseLeave();
    }
    r := Hover(s, reported);
  }
}
