/** One asset row of the drawing grid: which columns are dimmed, how wide each
    column is, which columns show a drawing card, and which cards are active. */
module AssetRow {
  import opened Common
  import opened ProjectData
  import opened ProjectContent

  /** isTypeVisible: with nothing selected every type is visible; otherwise only
      the selected ones. */
  predicate IsTypeVisible(selectedTypes: seq<string>, typeId: string)
  {
    |selectedTypes| == 0 || typeId in selectedTypes
  }

  /** A column is shown open when its type is expanded or hovered in the header. */
  predicate ShowExpanded(t: DrawingType, hoveredType: Option<string>)
  {
    t.isExpanded || hoveredType == Some(t.id)
  }

  function ColumnWidthOf(t: DrawingType, hoveredType: Option<string>, columnWidth: int, collapsedWidth: int)
    : (w: int)
    ensures w == columnWidth <==> ShowExpanded(t, hoveredType) || columnWidth == collapsedWidth
    ensures !ShowExpanded(t, hoveredType) ==> w == collapsedWidth
  {
    if ShowExpanded(t, hoveredType) then columnWidth else collapsedWidth
  }

  /** A drawing card is rendered for a column only inside an expanded row and
      only for an open column. */
  predicate CardShown(asset: AssetType, t: DrawingType, hoveredType: Option<string>)
  {
    asset.isExpanded && ShowExpanded(t, hoveredType)
  }

  /** A card is active when its type is visible and no other type is active. */
  predicate CardActive(selectedTypes: seq<string>, activeType: Option<string>, typeId: string)
  {
    IsTypeVisible(selectedTypes, typeId) && (activeType.None? || activeType == Some(typeId))
  }

  /** With the grid's own widths, an open column is 320 wide and a closed one 48,
      so a column is wide exactly when it is open. */
  lemma GridWidths(t: DrawingType, hoveredType: Option<string>)
    ensures ColumnWidthOf(t, hoveredType, ColumnWidth, CollapsedWidth) == ColumnWidth <==> ShowExpanded(t, hoveredType)
    ensures ColumnWidthOf(t, hoveredType, ColumnWidth, CollapsedWidth) > CollapsedWidth <==> ShowExpanded(t, hoveredType)
  {
  }

  /** In the grid's states a column is dimmed exactly when some type is selected
      and this one is not: the row's visibility agrees with the header's
      selection marks. */
  lemma VisibleMatchesSelection(s: ContentState, i: nat)
    requires Valid(s) && i < |s.types|
    ensures IsTypeVisible(s.selectedTypes, s.types[i].id) <==> (|s.selectedTypes| == 0 || s.types[i].isSelected)
  {
  }

  /** activeType is never set, so a card is active exactly when its type is
      visible: every card is active while nothing is selected. */
  lemma ActiveIsVisible(s: ContentState, typeId: string)
    requires Valid(s)
    ensures CardActive(s.selectedTypes, s.activeType, typeId) <==> IsTypeVisible(s.selectedTypes, typeId)
    ensures s.selectedTypes == [] ==> CardActive(s.selectedTypes, s.activeType, typeId)
  {
  }

  /** Every card the grid renders has a drawing to show: the row's asset holds a
      drawing for each of the view's columns. */
  lemma ShownCardHasDrawing(s: ContentState, row: nat, column: nat)
    requires Valid(s) && row < |s.assets|
    requires column < |SortedTypes(s.types)|
    ensures SortedTypes(s.types)[column].id in s.assets[row].drawings
  {
    SortedTypesPermutes(s.types);
    var t := SortedTypes(s.types)[column];
    assert t in multiset(SortedTypes(s.types));
    assert t in s.types;
    var i :| 0 <= i < |s.types| && s.types[i] == t;
  }
}
