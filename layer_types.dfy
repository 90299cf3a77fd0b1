/**
 * The layers of the layered document editor, the zoom presets that switch
 * groups of them on, and the layer service: lookup by id, the dependency
 * check over a set of active layers and ordering by z-index.
 */
module LayerTypes {
  import opened Wrappers
  import opened Sorting
  import opened JsText
  import opened Arrays

  /** A layer; `dependencies` empty stands for an absent list (both check nothing). */
  datatype LayerDefinition = LayerDefinition(
    id: string, name: string, description: string, icon: string, color: string,
    zIndex: int, dependencies: seq<string>)

  datatype Placement = Inline | Sidebar | Overlay | Expandable

  /** A block of content attached to a layer; the free-form metadata is not modelled. */
  datatype LayerContent = LayerContent(layerId: string, blockId: string, content: string, position: Option<Placement>)

  datatype ZoomPreset = ZoomPreset(name: string, description: string, layers: seq<string>, icon: string)

  const LayerDefinitions: seq<LayerDefinition> := [
    LayerDefinition("base", "Markdown Base", "Texto limpo, conceitos principais", "\U{1F4DD}", "#6c757d", 0, []),
    LayerDefinition("structure", "Estrutura", "Organização, hierarquia, relacionamentos", "\U{1F3D7}\U{FE0F}", "#17a2b8", 1, ["base"]),
    LayerDefinition("requirements", "Requisitos", "Specs funcionais, regras de negócio", "\U{1F4CB}", "#ffc107", 2, ["base", "structure"]),
    LayerDefinition("agents", "Agentes IA", "Chamadas para agentes, prompts, automações", "\U{1F916}", "#6f42c1", 3, ["requirements"]),
    LayerDefinition("code", "Código", "Implementação, snippets, arquivos", "\U{1F4BB}", "#28a745", 4, ["requirements"]),
    LayerDefinition("tests", "Testes", "Unit tests, validação, coverage", "\U{1F9EA}", "#dc3545", 5, ["code"]),
    LayerDefinition("docs", "Documentação", "API docs, guides, exemplos", "\U{1F4DA}", "#fd7e14", 6, ["code"])
  ]

  const AllLayerIds: seq<string> := ["base", "structure", "requirements", "agents", "code", "tests", "docs"]

  const ZoomPresets: seq<ZoomPreset> := [
    ZoomPreset("Visão Executiva", "Apenas conceitos principais", ["base"], "\U{1F454}"),
    ZoomPreset("Visão Arquitetural", "Estrutura e requisitos", ["base", "structure", "requirements"], "\U{1F3DB}\U{FE0F}"),
    ZoomPreset("Visão Desenvolvedor", "Código e implementação", ["base", "structure", "requirements", "code"],
               "\U{1F468}\U{200D}\U{1F4BB}"),
    ZoomPreset("Visão QA", "Testes e validação", ["base", "requirements", "code", "tests"], "\U{1F50D}"),
    ZoomPreset("Visão Completa", "Todas as camadas", AllLayerIds, "\U{1F310}")
  ]

  /** The first entry of `defs` with that id. */
  function FindIn(defs: seq<LayerDefinition>, layerId: string): (r: Option<LayerDefinition>)
    ensures r.Some? ==> r.value in defs && r.value.id == layerId
    ensures r.None? <==> forall d :: d in defs ==> d.id != layerId
  {
    if defs == [] then None
    else if defs[0].id == layerId then Some(defs[0])
    else FindIn(defs[1..], layerId)
  }

  /** `getLayerDefinition(layerId)`. */
  function GetLayerDefinition(layerId: string): Option<LayerDefinition> {
    FindIn(LayerDefinitions, layerId)
  }

  /** The `i`-th listed id finds the `i`-th definition, whose z-index is `i`. */
  lemma LookupAt(i: nat)
    requires i < |AllLayerIds|
    ensures i < |LayerDefinitions| && LayerDefinitions[i].id == AllLayerIds[i] && LayerDefinitions[i].zIndex == i
    ensures GetLayerDefinition(AllLayerIds[i]) == Some(LayerDefinitions[i])
  {
    if i == 0 { LookupBase(); }
    else if i == 1 { LookupStructure(); }
    else if i == 2 { LookupRequirements(); }
    else if i == 3 { LookupAgents(); }
    else if i == 4 { LookupCode(); }
    else if i == 5 { LookupTests(); }
    else { LookupDocs(); }
  }

  /** A lookup finds the first definition with the id. */
  lemma {:induction false} FindAt(defs: seq<LayerDefinition>, layerId: string, k: nat)
    requires k < |defs| && defs[k].id == layerId
    requires forall j :: 0 <= j < k ==> defs[j].id != layerId
    ensures FindIn(defs, layerId) == Some(defs[k])
    decreases k
  {
    if k > 0 {
      assert defs[0].id != layerId;
      FindAt(defs[1..], layerId, k - 1);
    }
  }

  /** The ids start with distinct letters. */
  lemma IdInitials()
    ensures LayerDefinitions[0].id[0] == 'b' && LayerDefinitions[1].id[0] == 's'
    ensures LayerDefinitions[2].id[0] == 'r' && LayerDefinitions[3].id[0] == 'a'
    ensures LayerDefinitions[4].id[0] == 'c' && LayerDefinitions[5].id[0] == 't'
    ensures LayerDefinitions[6].id[0] == 'd'
  {
  }

  lemma LookupBase() ensures GetLayerDefinition("base") == Some(LayerDefinitions[0]) { FindAt(LayerDefinitions, "base", 0); }
  lemma LookupStructure() ensures GetLayerDefinition("structure") == Some(LayerDefinitions[1]) {
    IdInitials();
    FindAt(LayerDefinitions, "structure", 1);
  }
  lemma LookupRequirements() ensures GetLayerDefinition("requirements") == Some(LayerDefinitions[2]) {
    IdInitials();
    FindAt(LayerDefinitions, "requirements", 2);
  }
  lemma LookupAgents() ensures GetLayerDefinition("agents") == Some(LayerDefinitions[3]) {
    IdInitials();
    FindAt(LayerDefinitions, "agents", 3);
  }
  lemma LookupCode() ensures GetLayerDefinition("code") == Some(LayerDefinitions[4]) {
    IdInitials();
    FindAt(LayerDefinitions, "code", 4);
  }
  lemma LookupTests() ensures GetLayerDefinition("tests") == Some(LayerDefinitions[5]) {
    IdInitials();
    FindAt(LayerDefinitions, "tests", 5);
  }
  lemma LookupDocs() ensures GetLayerDefinition("docs") == Some(LayerDefinitions[6]) {
    IdInitials();
    FindAt(LayerDefinitions, "docs", 6);
  }

  /** Exactly the seven listed ids are known. */
  lemma KnownIffListed(layerId: string)
    ensures GetLayerDefinition(layerId).Some? <==> layerId in AllLayerIds
  {
    if GetLayerDefinition(layerId).Some? {
      var d := GetLayerDefinition(layerId).value;
      var k :| 0 <= k < |LayerDefinitions| && LayerDefinitions[k] == d;
      LookupAt(k);
    } else if layerId in AllLayerIds {
      var k :| 0 <= k < |AllLayerIds| && AllLayerIds[k] == layerId;
      LookupAt(k);
    }
  }

  /** The dependencies a layer declares; none for an unknown id. */
  function DependenciesOf(layerId: string): seq<string> {
    match GetLayerDefinition(layerId)
    case Some(d) => d.dependencies
    case None => []
  }

  /** `getLayerDefinition(dep)?.name` interpolated into a template: "undefined" when unknown. */
  function NameInMessage(layerId: string): string {
    match GetLayerDefinition(layerId)
    case Some(d) => d.name
    case None => "undefined"
  }

  /** The message for an active layer whose dependency is inactive. */
  function DependencyMessage(layerId: string, dep: string): string {
    "Camada \"" + NameInMessage(layerId) + "\" requer \"" + NameInMessage(dep) + "\""
  }

  /** The dependencies among `deps` that are not active, in order. */
  function MissingAmong(active: seq<string>, deps: seq<string>): (r: seq<string>)
    ensures forall d :: d in r <==> d in deps && d !in active
  {
    if deps == [] then []
    else MissingAmong(active, deps[..|deps| - 1]) + (if deps[|deps| - 1] in active then [] else [deps[|deps| - 1]])
  }

  /** The (layer, missing dependency) pairs for the layers `ids`, layer by layer. */
  function MissingPairs(active: seq<string>, ids: seq<string>): (r: seq<(string, string)>)
    ensures forall l, d :: (l, d) in r <==> l in ids && d in DependenciesOf(l) && d !in active
  {
    MissingPairsBy(DependenciesOf, active, ids)
  }

  /** The same pairs for any dependency table `deps`. */
  function MissingPairsBy(deps: string -> seq<string>, active: seq<string>, ids: seq<string>): (r: seq<(string, string)>)
    ensures forall l, d :: (l, d) in r <==> l in ids && d in deps(l) && d !in active
  {
    if ids == [] then []
    else
      var l := ids[|ids| - 1];
      var rest := MissingPairsBy(deps, active, ids[..|ids| - 1]);
      var here := LayerPairs(l, MissingAmong(active, deps(l)));
      LayerPairsMembers(l, MissingAmong(active, deps(l)));
      assert ids == ids[..|ids| - 1] + [l];
      rest + here
  }

  /** Under any table, a layer with no dependencies and one that needs only it miss nothing. */
  lemma ChainMissesNothing(deps: string -> seq<string>, a: string, b: string)
    requires deps(a) == [] && deps(b) == [a]
    ensures MissingPairsBy(deps, [a, b], [a, b]) == []
  {
    var active := [a, b];
    assert active[..1] == [a] && [a][..0] == [];
    assert MissingAmong(active, deps(a)) == [] && MissingAmong(active, deps(b)) == [];
    assert LayerPairs(a, []) == [] && LayerPairs(b, []) == [];
    assert MissingPairsBy(deps, active, [a]) == [];
  }

  function Messages(pairs: seq<(string, string)>): (r: seq<string>)
    ensures |r| == |pairs|
    ensures forall k :: 0 <= k < |pairs| ==> r[k] == DependencyMessage(pairs[k].0, pairs[k].1)
  {
    Map(pairs, PairMessage)
  }

  function PairMessage(p: (string, string)): string {
    DependencyMessage(p.0, p.1)
  }

  /** What `validateLayerDependencies` returns for a set listed in insertion order. */
  function DependencyErrors(active: seq<string>): seq<string> {
    Messages(MissingPairs(active, active))
  }

  /** No error exactly when every dependency of every active layer is active. */
  lemma NoErrorsIffClosed(active: seq<string>)
    ensures DependencyErrors(active) == [] <==>
      forall l, d :: l in active && d in DependenciesOf(l) ==> d in active
  {
    var pairs := MissingPairs(active, active);
    assert |DependencyErrors(active)| == |pairs|;
    if pairs != [] {
      var p := pairs[0];
      assert p in pairs;
      assert p.0 in active && p.1 in DependenciesOf(p.0) && p.1 !in active;
    } else {
      forall l, d | l in active && d in DependenciesOf(l) ensures d in active {
        assert (l, d) !in pairs;
      }
    }
  }

  /** One error per (active layer, missing dependency) pair, and the errors are those pairs' messages. */
  lemma ErrorPerMissingPair(active: seq<string>)
    ensures |DependencyErrors(active)| == |MissingPairs(active, active)|
    ensures forall l, d :: (l, d) in MissingPairs(active, active) <==>
      l in active && d in DependenciesOf(l) && d !in active
    ensures forall k :: 0 <= k < |DependencyErrors(active)| ==>
      var p := MissingPairs(active, active)[k];
      DependencyErrors(active)[k] == DependencyMessage(p.0, p.1)
  {
  }

  /** The preset that switches every layer on leaves nothing to report. */
  lemma FullPresetIsValid()
    ensures ZoomPresets[4].layers == AllLayerIds
    ensures DependencyErrors(AllLayerIds) == []
  {
    forall l, d | l in AllLayerIds && d in DependenciesOf(l) ensures d in AllLayerIds {
      var k :| 0 <= k < |AllLayerIds| && AllLayerIds[k] == l;
      LookupAt(k);
      DependenciesListed(k);
    }
    NoErrorsIffClosed(AllLayerIds);
  }

  /** Every dependency of a definition is a listed id. */
  lemma DependenciesListed(k: nat)
    requires k < |LayerDefinitions|
    ensures forall d :: d in LayerDefinitions[k].dependencies ==> d in AllLayerIds
  {
    DependencyIds();
    if k == 1 {
      assert LayerDefinitions[k].dependencies == [AllLayerIds[0]];
    } else if k == 2 {
      assert LayerDefinitions[k].dependencies == [AllLayerIds[0], AllLayerIds[1]];
    } else if k == 3 || k == 4 {
      assert LayerDefinitions[k].dependencies == [AllLayerIds[2]];
    } else if k == 5 || k == 6 {
      assert LayerDefinitions[k].dependencies == [AllLayerIds[4]];
    }
  }

  /** The dependency lists, written with the listed ids. */
  lemma DependencyIds()
    ensures LayerDefinitions[0].dependencies == []
    ensures LayerDefinitions[1].dependencies == [AllLayerIds[0]]
    ensures LayerDefinitions[2].dependencies == [AllLayerIds[0], AllLayerIds[1]]
    ensures LayerDefinitions[3].dependencies == [AllLayerIds[2]] && LayerDefinitions[4].dependencies == [AllLayerIds[2]]
    ensures LayerDefinitions[5].dependencies == [AllLayerIds[4]] && LayerDefinitions[6].dependencies == [AllLayerIds[4]]
  {
  }


  /** `getLayersByZIndex(layerIds)`: known ids only, ascending by z-index. */
  function LayersByZIndex(layerIds: seq<string>): seq<LayerDefinition> {
    SortBy(KnownLayers(layerIds), (d: LayerDefinition) => d.zIndex)
  }

  /** The definitions of the known ids, in order. */
  function KnownLayers(layerIds: seq<string>): (r: seq<LayerDefinition>)
    ensures |r| <= |layerIds|
  {
    KnownBy(GetLayerDefinition, layerIds)
  }

  /** The definitions `find` gives for `layerIds`, in order, for any lookup `find`. */
  function KnownBy(find: string -> Option<LayerDefinition>, layerIds: seq<string>): (r: seq<LayerDefinition>)
    ensures |r| <= |layerIds|
  {
    if layerIds == [] then []
    else
      var rest := KnownBy(find, layerIds[1..]);
      match find(layerIds[0])
      case Some(d) => [d] + rest
      case None => rest
  }

  lemma KnownLayersMembers(layerIds: seq<string>)
    ensures forall d :: d in KnownLayers(layerIds) <==> exists id :: id in layerIds && GetLayerDefinition(id) == Some(d)
  {
    KnownByMembers(GetLayerDefinition, layerIds);
  }

  /** A definition is kept exactly when `find` gives it for one of the ids. */
  lemma {:induction false} KnownByMembers(find: string -> Option<LayerDefinition>, layerIds: seq<string>)
    ensures forall d :: d in KnownBy(find, layerIds) <==> exists id :: id in layerIds && find(id) == Some(d)
  {
    if layerIds != [] {
      KnownByMembers(find, layerIds[1..]);
      forall d | (exists id :: id in layerIds && find(id) == Some(d))
        ensures d in KnownBy(find, layerIds)
      {
        var id :| id in layerIds && find(id) == Some(d);
        if id != layerIds[0] {
          assert id in layerIds[1..];
        }
      }
    }
  }

  /** The result is sorted by z-index and holds exactly the definitions of the known ids given. */
  lemma LayersByZIndexFacts(layerIds: seq<string>)
    ensures SortedBy(LayersByZIndex(layerIds), (d: LayerDefinition) => d.zIndex)
    ensures forall d :: d in LayersByZIndex(layerIds) <==>
      exists id :: id in layerIds && GetLayerDefinition(id) == Some(d)
    ensures multiset(LayersByZIndex(layerIds)) == multiset(KnownLayers(layerIds))
  {
    KnownLayersMembers(layerIds);
    SortByMembers(KnownLayers(layerIds), (d: LayerDefinition) => d.zIndex);
  }

  /** The layer service; it holds no state of its own. */
  class LayerService {
    constructor () {}

    /** `validateLayerDependencies(activeLayers)`, the set given in insertion order. */
    method ValidateLayerDependencies(activeLayers: seq<string>) returns (errors: seq<string>)
      ensures errors == DependencyErrors(activeLayers)
    {
      errors := [];
      for i := 0 to |activeLayers|
        invariant errors == Messages(MissingPairs(activeLayers, activeLayers[..i]))
      {
        var layerId := activeLayers[i];
        var here := LayerErrors(activeLayers, layerId, DependenciesOf(layerId));
        assert activeLayers[..i + 1][..i] == activeLayers[..i];
        MissingPairsStep(activeLayers, activeLayers[..i + 1]);
        MessagesAppend(MissingPairs(activeLayers, activeLayers[..i]),
                       LayerPairs(layerId, MissingAmong(activeLayers, DependenciesOf(layerId))));
        errors := errors + here;
      }
      assert activeLayers[..|activeLayers|] == activeLayers;
    }

    /**
     * The inner loop of `validateLayerDependencies` over the dependencies
     * `deps` of `layerId`: one message per inactive dependency, in order.
     */
    method LayerErrors(activeLayers: seq<string>, layerId: string, deps: seq<string>) returns (errors: seq<string>)
      ensures errors == Messages(LayerPairs(layerId, MissingAmong(activeLayers, deps)))
    {
      errors := [];
      for j := 0 to |deps|
        invariant errors == Messages(LayerPairs(layerId, MissingAmong(activeLayers, deps[..j])))
      {
        var dep := deps[j];
        assert deps[..j + 1][..j] == deps[..j];
        if dep !in activeLayers {
          MessagesOfLayerPairsAppend(layerId, MissingAmong(activeLayers, deps[..j]), dep);
          errors := errors + [DependencyMessage(layerId, dep)];
        }
      }
      assert deps[..|deps|] == deps;
    }
  }

  /** The pairs (layerId, d) for the dependencies `ds`. */
  function LayerPairs(layerId: string, ds: seq<string>): (r: seq<(string, string)>)
    ensures |r| == |ds| && forall k :: 0 <= k < |ds| ==> r[k] == (layerId, ds[k])
  {
    seq(|ds|, k requires 0 <= k < |ds| => (layerId, ds[k]))
  }

  /** The pairs for `layerId` are exactly `layerId` with each of `ds`. */
  lemma LayerPairsMembers(layerId: string, ds: seq<string>)
    ensures forall l, d :: (l, d) in LayerPairs(layerId, ds) <==> l == layerId && d in ds
  {
    var r := LayerPairs(layerId, ds);
    forall l, d | (l, d) in r ensures l == layerId && d in ds {
      var k :| 0 <= k < |r| && r[k] == (l, d);
    }
    forall d | d in ds ensures (layerId, d) in r {
      var k :| 0 <= k < |ds| && ds[k] == d;
      assert r[k] == (layerId, d);
    }
  }

  lemma MessagesAppend(a: seq<(string, string)>, b: seq<(string, string)>)
    ensures Messages(a + b) == Messages(a) + Messages(b)
  {
    MapAppend(a, b, PairMessage);
  }

  lemma MessagesOfLayerPairsAppend(layerId: string, ds: seq<string>, dep: string)
    ensures Messages(LayerPairs(layerId, ds + [dep])) == Messages(LayerPairs(layerId, ds)) + [DependencyMessage(layerId, dep)]
  {
    assert LayerPairs(layerId, ds + [dep]) == LayerPairs(layerId, ds) + [(layerId, dep)];
    MessagesAppend(LayerPairs(layerId, ds), [(layerId, dep)]);
    assert Messages([(layerId, dep)]) == [DependencyMessage(layerId, dep)];
  }

  lemma MissingPairsStep(active: seq<string>, ids: seq<string>)
    requires ids != []
    ensures MissingPairs(active, ids) ==
      MissingPairs(active, ids[..|ids| - 1]) + LayerPairs(Last(ids), MissingAmong(active, DependenciesOf(Last(ids))))
  {
  }
}
