/**
 * The layered editor's document: the base markdown, the content blocks of
 * each layer and the set of active layers (kept in insertion order, as a
 * JavaScript `Set` iterates), with the error list recomputed after every
 * change to the active set.
 */
module LayeredEditor {
  import opened Wrappers
  import opened Sorting
  import opened LayerTypes
  import opened SeqSet

  /** `toggleLayer(layerId, event)` on the active set. */
  function AfterToggle(active: seq<string>, layerId: string, checked: bool): seq<string> {
    if checked then SetAdd(active, layerId) else SetDelete(active, layerId)
  }

  /** `canToggleLayer(layerId)`. */
  predicate CanToggle(active: seq<string>, layerId: string) {
    layerId != "base" && forall dep :: dep in DependenciesOf(layerId) ==> dep in active
  }

  /** The active set after `clear()` and adding each of `layers` in turn. */
  function Applied(layers: seq<string>): (r: seq<string>)
    ensures forall x :: x in r <==> x in layers
    ensures Distinct(r)
  {
    if layers == [] then [] else SetAdd(Applied(layers[..|layers| - 1]), layers[|layers| - 1])
  }

  /** `isPresetActive(layers)`. */
  predicate IsPresetActive(active: seq<string>, layers: seq<string>) {
    |layers| == |active| && forall l :: l in layers ==> l in active
  }

  /** `getLayerDefinition(id)?.zIndex || 0`. */
  function ZOf(layerId: string): int {
    match GetLayerDefinition(layerId)
    case Some(d) => d.zIndex
    case None => 0
  }

  function WithoutBase(active: seq<string>): (r: seq<string>)
    ensures forall x :: x in r <==> x in active && x != "base"
  {
    SetDelete(active, "base")
  }

  /** `getActiveLayers()`. */
  function ActiveLayersView(active: seq<string>): seq<string> {
    SortBy(WithoutBase(active), ZOf)
  }

  /** The index of the block with that id, if any. */
  function FindBlock(contents: seq<LayerContent>, blockId: string): (r: Option<nat>)
    ensures r.Some? ==> (r.value < |contents| && contents[r.value].blockId == blockId
                         && forall k :: 0 <= k < r.value ==> contents[k].blockId != blockId)
    ensures r.None? ==> forall k :: 0 <= k < |contents| ==> contents[k].blockId != blockId
  {
    if contents == [] then None
    else if contents[0].blockId == blockId then Some(0)
    else match FindBlock(contents[1..], blockId)
      case Some(k) => Some(k + 1)
      case None => None
  }

  /** The block list after saving `c`: the block with the same id replaced, else `c` appended. */
  function Upserted(contents: seq<LayerContent>, c: LayerContent): seq<LayerContent> {
    match FindBlock(contents, c.blockId)
    case Some(k) => contents[k := c]
    case None => contents + [c]
  }

  /** `layers.get(id) || []`. */
  function ContentOf(layers: map<string, seq<LayerContent>>, layerId: string): seq<LayerContent> {
    if layerId in layers then layers[layerId] else []
  }

  /** The layer map after `saveLayerContent()` with `editing` in the editor. */
  function AfterSave(layers: map<string, seq<LayerContent>>, editing: Option<LayerContent>): map<string, seq<LayerContent>> {
    match editing
    case None => layers
    case Some(c) => layers[c.layerId := Upserted(ContentOf(layers, c.layerId), c)]
  }

  /** A lookup with a fallback for an unknown layer or an empty field, as `?.field || fallback` does. */
  function FieldOr(layerId: string, field: LayerDefinition -> string, fallback: string): (r: string)
    ensures GetLayerDefinition(layerId).None? ==> r == fallback
    ensures GetLayerDefinition(layerId).Some? && field(GetLayerDefinition(layerId).value) != "" ==>
      r == field(GetLayerDefinition(layerId).value)
  {
    match GetLayerDefinition(layerId)
    case Some(d) => if field(d) != "" then field(d) else fallback
    case None => fallback
  }

  const InitialActive: seq<string> := ["base", "structure"]

  // ----------------------------------------------------------------- lemmas

  /** The document starts with the base and structure layers on and nothing to report. */
  lemma InitialActiveIsValid()
    ensures DependencyErrors(InitialActive) == []
  {
    LookupBase();
    LookupStructure();
    BaseAndStructureValid(InitialActive[0], InitialActive[1]);
  }

  /** The first two layers on their own form a valid set: structure needs only the base. */
  lemma BaseAndStructureValid(base: string, structure: string)
    requires GetLayerDefinition(base) == Some(LayerDefinitions[0])
    requires GetLayerDefinition(structure) == Some(LayerDefinitions[1])
    ensures DependencyErrors([base, structure]) == []
  {
    DependencyIds();
    LookupAt(0);
    ChainValid(base, structure);
  }

  /** A layer with no dependencies and a layer that needs only it form a valid set. */
  lemma ChainValid(a: string, b: string)
    requires DependenciesOf(a) == [] && DependenciesOf(b) == [a]
    ensures DependencyErrors([a, b]) == []
  {
    ChainMissesNothing(DependenciesOf, a, b);
  }

  /** The base layer can never be toggled; any other layer can be once its dependencies are all on. */
  lemma CanToggleFacts(active: seq<string>, layerId: string)
    ensures !CanToggle(active, "base")
    ensures layerId != "base" && DependenciesOf(layerId) == [] ==> CanToggle(active, layerId)
    ensures CanToggle(active, layerId) ==> forall l :: l in AfterToggle(active, layerId, true) ==> l in active || l == layerId
  {
  }

  /** Switching on a layer that may be toggled keeps a valid set valid. */
  lemma ToggleOnAllowedKeepsValid(active: seq<string>, layerId: string)
    requires DependencyErrors(active) == []
    requires CanToggle(active, layerId)
    ensures DependencyErrors(AfterToggle(active, layerId, true)) == []
  {
    var next := AfterToggle(active, layerId, true);
    NoErrorsIffClosed(active);
    forall l, d | l in next && d in DependenciesOf(l) ensures d in next {
      assert l in active || l == layerId;
    }
    NoErrorsIffClosed(next);
  }

  /** Switching a layer off keeps a valid set valid unless an active layer depends on it. */
  lemma ToggleOffKeepsValidUnlessNeeded(active: seq<string>, layerId: string)
    requires DependencyErrors(active) == []
    requires forall l :: l in active && l != layerId ==> layerId !in DependenciesOf(l)
    ensures DependencyErrors(AfterToggle(active, layerId, false)) == []
  {
    var next := AfterToggle(active, layerId, false);
    NoErrorsIffClosed(active);
    forall l, d | l in next && d in DependenciesOf(l) ensures d in next {
      assert l in active && d in active;
    }
    NoErrorsIffClosed(next);
  }

  lemma {:induction false} AppliedLength(layers: seq<string>)
    requires Distinct(layers)
    ensures |Applied(layers)| == |layers|
  {
    if layers != [] {
      var init := layers[..|layers| - 1];
      assert Distinct(init) by {
        forall i, j | 0 <= i < j < |init| ensures init[i] != init[j] {
          assert init[i] == layers[i] && init[j] == layers[j];
        }
      }
      AppliedLength(init);
      assert layers[|layers| - 1] !in init by {
        forall k | 0 <= k < |init| ensures init[k] != layers[|layers| - 1] {
          assert init[k] == layers[k];
        }
      }
    }
  }

  /** After applying a preset with distinct layers the active set is its layers and the preset shows as active. */
  lemma ApplyThenPresetActive(layers: seq<string>)
    requires Distinct(layers)
    ensures forall l :: l in Applied(layers) <==> l in layers
    ensures IsPresetActive(Applied(layers), layers)
  {
    AppliedLength(layers);
  }

  /** Every zoom preset lists distinct layers, so applying any of them makes it the active preset. */
  lemma PresetsApplyActive(i: nat)
    requires i < |ZoomPresets|
    ensures IsPresetActive(Applied(ZoomPresets[i].layers), ZoomPresets[i].layers)
  {
    var ls := ZoomPresets[i].layers;
    assert Distinct(ls);
    ApplyThenPresetActive(ls);
  }

  /** A preset shows as active exactly when the active set has its size and holds each of its layers. */
  lemma PresetActiveMeansSameMembers(active: seq<string>, layers: seq<string>)
    requires Distinct(active) && Distinct(layers)
    ensures IsPresetActive(active, layers) <==> (|active| == |layers| && forall l :: l in layers ==> l in active)
    ensures IsPresetActive(active, layers) ==> forall l :: l in active ==> l in layers
  {
    if IsPresetActive(active, layers) {
      DistinctSubsetSameSize(layers, active);
    }
  }

  lemma DistinctSubsetSameSize(a: seq<string>, b: seq<string>)
    requires Distinct(a) && Distinct(b) && |a| == |b|
    requires forall x :: x in a ==> x in b
    ensures forall x :: x in b ==> x in a
  {
    DistinctCard(a);
    DistinctCard(b);
    var sa := set x | x in a;
    var sb := set x | x in b;
    assert sa <= sb;
    assert sb * sa == sa;
    assert |sb - sa| == 0;
    forall x | x in b ensures x in a {
      assert x in sb && x !in sb - sa;
    }
  }

  lemma {:induction false} DistinctCard(s: seq<string>)
    requires Distinct(s)
    ensures |set x | x in s| == |s|
  {
    if s != [] {
      var init := s[..|s| - 1];
      assert Distinct(init) by {
        forall i, j | 0 <= i < j < |init| ensures init[i] != init[j] {
          assert init[i] == s[i] && init[j] == s[j];
        }
      }
      DistinctCard(init);
      assert (set x | x in s) == (set x | x in init) + {s[|s| - 1]} by {
        assert s == init + [s[|s| - 1]];
      }
      assert s[|s| - 1] !in init by {
        forall k | 0 <= k < |init| ensures init[k] != s[|s| - 1] {
          assert init[k] == s[k];
        }
      }
    }
  }

  /** `getActiveLayers()` leaves out the base layer, keeps every other active layer and is ordered by z-index. */
  lemma ActiveLayersViewFacts(active: seq<string>)
    ensures forall x :: x in ActiveLayersView(active) <==> x in active && x != "base"
    ensures SortedBy(ActiveLayersView(active), ZOf)
    ensures multiset(ActiveLayersView(active)) == multiset(WithoutBase(active))
  {
    SortByMembers(WithoutBase(active), ZOf);
  }

  /** Saving replaces the block with the same id in place, or appends it; the other layers are untouched. */
  lemma SaveUpserts(layers: map<string, seq<LayerContent>>, c: LayerContent)
    ensures var after := AfterSave(layers, Some(c));
      c.layerId in after
      && (forall id :: id in layers && id != c.layerId ==> id in after && after[id] == layers[id])
      && (forall id :: id in after ==> id in layers || id == c.layerId)
    ensures var before := ContentOf(layers, c.layerId);
      var saved := AfterSave(layers, Some(c))[c.layerId];
      match FindBlock(before, c.blockId)
      case Some(k) => |saved| == |before| && saved[k] == c && forall j :: 0 <= j < |before| && j != k ==> saved[j] == before[j]
      case None => saved == before + [c]
  {
  }

  /** With no block in the editor, saving changes nothing. */
  lemma SaveWithoutEditingIsNoop(layers: map<string, seq<LayerContent>>)
    ensures AfterSave(layers, None) == layers
  {
  }

  /** Block ids that were distinct within a layer stay distinct after a save. */
  lemma SaveKeepsBlockIdsDistinct(contents: seq<LayerContent>, c: LayerContent)
    requires forall i, j :: 0 <= i < j < |contents| ==> contents[i].blockId != contents[j].blockId
    ensures var r := Upserted(contents, c);
      forall i, j :: 0 <= i < j < |r| ==> r[i].blockId != r[j].blockId
  {
  }

  // ------------------------------------------------------------------ class

  class LayeredEditorState {
    var baseContent: string
    var layers: map<string, seq<LayerContent>>
    var activeLayers: seq<string>
    var layerErrors: seq<string>
    var editingContent: Option<LayerContent>
    const layerService: LayerService

    /** The document before the sample layers are loaded, with the errors already validated. */
    constructor (sample: string)
      ensures baseContent == sample && layers == map[] && activeLayers == InitialActive
      ensures layerErrors == [] && editingContent.None?
    {
      baseContent := sample;
      layers := map[];
      activeLayers := InitialActive;
      layerErrors := [];
      editingContent := None;
      layerService := new LayerService();
    }

    method ValidateLayers()
      modifies this
      ensures layerErrors == DependencyErrors(activeLayers)
      ensures activeLayers == old(activeLayers) && layers == old(layers)
      ensures baseContent == old(baseContent) && editingContent == old(editingContent)
    {
      layerErrors := layerService.ValidateLayerDependencies(activeLayers);
    }

    method ToggleLayer(layerId: string, checked: bool)
      modifies this
      ensures activeLayers == AfterToggle(old(activeLayers), layerId, checked)
      ensures layerErrors == DependencyErrors(activeLayers)
      ensures layers == old(layers) && baseContent == old(baseContent) && editingContent == old(editingContent)
    {
      if checked {
        activeLayers := SetAdd(activeLayers, layerId);
      } else {
        activeLayers := SetDelete(activeLayers, layerId);
      }
      ValidateLayers();
    }

    function CanToggleLayer(layerId: string): (b: bool)
      reads this
      ensures b <==> layerId != "base" && forall dep :: dep in DependenciesOf(layerId) ==> dep in activeLayers
    {
      CanToggle(activeLayers, layerId)
    }

    method ApplyZoomPreset(presetLayers: seq<string>)
      modifies this
      ensures activeLayers == Applied(presetLayers)
      ensures layerErrors == DependencyErrors(activeLayers)
      ensures layers == old(layers) && baseContent == old(baseContent) && editingContent == old(editingContent)
    {
      activeLayers := [];
      for i := 0 to |presetLayers|
        invariant activeLayers == Applied(presetLayers[..i])
        invariant layers == old(layers) && baseContent == old(baseContent) && editingContent == old(editingContent)
      {
        assert presetLayers[..i + 1][..i] == presetLayers[..i];
        activeLayers := SetAdd(activeLayers, presetLayers[i]);
      }
      assert presetLayers[..|presetLayers|] == presetLayers;
      ValidateLayers();
    }

    function IsPresetActiveNow(presetLayers: seq<string>): (b: bool)
      reads this
      ensures b <==> |presetLayers| == |activeLayers| && forall l :: l in presetLayers ==> l in activeLayers
    {
      IsPresetActive(activeLayers, presetLayers)
    }

    function GetActiveLayers(): (r: seq<string>)
      reads this
      ensures forall x :: x in r <==> x in activeLayers && x != "base"
      ensures SortedBy(r, ZOf)
    {
      ActiveLayersViewFacts(activeLayers);
      ActiveLayersView(activeLayers)
    }

    function GetLayerContent(layerId: string): (r: seq<LayerContent>)
      reads this
      ensures layerId in layers ==> r == layers[layerId]
      ensures layerId !in layers ==> r == []
    {
      ContentOf(layers, layerId)
    }

    function GetLayerColor(layerId: string): string {
      FieldOr(layerId, (d: LayerDefinition) => d.color, "#666")
    }

    function GetLayerIcon(layerId: string): string {
      FieldOr(layerId, (d: LayerDefinition) => d.icon, "\U{1F4C4}")
    }

    function GetLayerName(layerId: string): string {
      FieldOr(layerId, (d: LayerDefinition) => d.name, layerId)
    }

    /** `getLayerZIndex(layerId)`. */
    function GetLayerZIndex(layerId: string): int {
      ZOf(layerId)
    }

    function GetRenderedContent(): string
      reads this
    {
      baseContent
    }

    method OnContentChange(content: string)
      modifies this
      ensures baseContent == content
      ensures layers == old(layers) && activeLayers == old(activeLayers)
      ensures layerErrors == old(layerErrors) && editingContent == old(editingContent)
    {
      baseContent := content;
    }

    method EditLayerContent(content: LayerContent)
      modifies this
      ensures editingContent == Some(content)
      ensures layers == old(layers) && activeLayers == old(activeLayers)
      ensures layerErrors == old(layerErrors) && baseContent == old(baseContent)
    {
      editingContent := Some(content);
    }

    method SaveLayerContent()
      modifies this
      ensures layers == AfterSave(old(layers), old(editingContent))
      ensures old(editingContent).Some? ==> editingContent.None?
      ensures old(editingContent).None? ==> editingContent.None?
      ensures activeLayers == old(activeLayers) && layerErrors == old(layerErrors) && baseContent == old(baseContent)
    {
      if editingContent.None? {
        return;
      }
      var c := editingContent.value;
      var contents := ContentOf(layers, c.layerId);
      var index := FindBlock(contents, c.blockId);
      if index.Some? {
        contents := contents[index.value := c];
      } else {
        contents := contents + [c];
      }
      layers := layers[c.layerId := contents];
      CloseEditor();
    }

    method CloseEditor()
      modifies this
      ensures editingContent.None?
      ensures layers == old(layers) && activeLayers == old(activeLayers)
      ensures layerErrors == old(layerErrors) && baseContent == old(baseContent)
    {
      editingContent := None;
    }
  }
}
