/** The seed data of the drawing grid: six drawing types, and three asset types
    whose drawings map holds one drawing per drawing type. */
module ProjectData {
  import opened Common

  datatype DrawingType = DrawingType(id: string, name: string, isExpanded: bool, isSelected: bool)

  datatype Drawing = Drawing(id: string, name: string, level: string, imageUrl: string)

  datatype AssetType = AssetType(id: string, name: string, isExpanded: bool, drawings: map<string, Drawing>)

  const DrawingTypes: seq<DrawingType> := [
    DrawingType("plan", "Plan drawings", true, false),
    DrawingType("section", "Section drawings", true, false),
    DrawingType("elevation", "Elevation drawings", true, false),
    DrawingType("detail", "Detail drawings", true, false),
    DrawingType("schematic", "Schematic drawings", true, false),
    DrawingType("specification", "Specification documents", true, false)]

  const SeedDrawingName := "L0 - AW101"
  const SeedLevel := "Level 0"
  const SeedImageUrl := "https://images.unsplash.com/photo-1574359411659-15573a27fd0c?q=80&w=1000&auto=format&fit=crop"

  /** The drawing stored under a type id: its id is `prefix-typeId`, the rest is fixed. */
  function DrawingFor(prefix: string, typeId: string): (d: Drawing)
    ensures d.id == prefix + "-" + typeId
    ensures d.name == SeedDrawingName && d.level == SeedLevel && d.imageUrl == SeedImageUrl
  {
    Drawing(prefix + "-" + typeId, SeedDrawingName, SeedLevel, SeedImageUrl)
  }

  /** The record built by assigning each type's drawing in turn. */
  function DrawingsMap(prefix: string, types: seq<DrawingType>): map<string, Drawing>
    decreases |types|
  {
    if types == [] then map[]
    else DrawingsMap(prefix, types[..|types| - 1])[types[|types| - 1].id := DrawingFor(prefix, types[|types| - 1].id)]
  }

  function TypeIds(types: seq<DrawingType>): set<string>
  {
    set t | t in types :: t.id
  }

  /** One entry per drawing-type id and no other, each the drawing for that id. */
  lemma {:induction false} DrawingsMapEntries(prefix: string, types: seq<DrawingType>)
    ensures DrawingsMap(prefix, types).Keys == TypeIds(types)
    ensures forall id :: id in DrawingsMap(prefix, types) ==> DrawingsMap(prefix, types)[id] == DrawingFor(prefix, id)
    decreases |types|
  {
    if types != [] {
      var init := types[..|types| - 1];
      DrawingsMapEntries(prefix, init);
      assert types == init + [types[|types| - 1]];
      assert TypeIds(types) == TypeIds(init) + {types[|types| - 1].id};
    }
  }

  /** createDrawingsMap: the forEach over the drawing types, filling the record in place. */
  method CreateDrawingsMap(prefix: string, types: seq<DrawingType>) returns (drawings: map<string, Drawing>)
    ensures drawings == DrawingsMap(prefix, types)
    ensures drawings.Keys == TypeIds(types)
    ensures forall id :: id in drawings ==> drawings[id] == DrawingFor(prefix, id)
  {
    drawings := map[];
    for i := 0 to |types|
      invariant drawings == DrawingsMap(prefix, types[..i])
    {
      assert types[..i + 1][..i] == types[..i];
      drawings := drawings[types[i].id := DrawingFor(prefix, types[i].id)];
    }
    assert types[..|types|] == types;
    DrawingsMapEntries(prefix, types);
  }

  function AssetTypes(): seq<AssetType>
  {
    [AssetType("architectural", "Architectural assets", true, DrawingsMap("arch", DrawingTypes)),
     AssetType("structural", "Structural assets", true, DrawingsMap("struct", DrawingTypes)),
     AssetType("electrical", "Electrical assets", true, DrawingsMap("elec", DrawingTypes))]
  }

  /** Six drawing types with distinct ids, all expanded and unselected. */
  lemma SeedTypes()
    ensures |DrawingTypes| == 6
    ensures forall i, j :: 0 <= i < j < |DrawingTypes| ==> DrawingTypes[i].id != DrawingTypes[j].id
    ensures forall t :: t in DrawingTypes ==> t.isExpanded && !t.isSelected
  {
  }

  /** Three expanded assets, each holding exactly one drawing per type, whose id
      carries the asset's prefix. */
  lemma SeedAssets()
    ensures |AssetTypes()| == 3
    ensures forall a :: a in AssetTypes() ==> a.isExpanded && a.drawings.Keys == TypeIds(DrawingTypes)
    ensures "plan" in AssetTypes()[0].drawings && AssetTypes()[0].drawings["plan"].id == "arch-plan"
  {
    var assets := AssetTypes();
    assert assets[0].drawings.Keys == TypeIds(DrawingTypes) by {
      DrawingsMapEntries("arch", DrawingTypes);
    }
    assert assets[1].drawings.Keys == TypeIds(DrawingTypes) by {
      DrawingsMapEntries("struct", DrawingTypes);
    }
    assert assets[2].drawings.Keys == TypeIds(DrawingTypes) by {
      DrawingsMapEntries("elec", DrawingTypes);
    }
    assert "plan" in assets[0].drawings && assets[0].drawings["plan"] == DrawingFor("arch", "plan") by {
      DrawingsMapEntries("arch", DrawingTypes);
      assert DrawingTypes[0] in DrawingTypes;
    }
  }
}
