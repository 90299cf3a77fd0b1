/**
 * The in-memory layer database of the living screenplay: overlay layers kept
 * per document (a `Map` from document id to an array of layers, in insertion
 * order), the screenplay documents themselves, and the log of layer events.
 *
 * Generated ids, the clock and the text fetched from disk are parameters.
 * A layer's free-form `content` and the event timestamps are not modelled.
 */
module LayerDatabase {
  import opened Wrappers
  import opened OrderedMap
  import opened JsText
  import opened StringHash

  datatype LayerType = Agent | Requirement | Code | Test | Note | Modal
  datatype Anchor = Absolute | RelativeToLine | RelativeToWord
  datatype Priority = Low | Medium | High | Critical

  datatype Position = Position(x: int, y: int, anchor: Anchor, lineNumber: Option<int>, wordIndex: Option<int>)
  datatype LayerData = LayerData(title: string, description: string, status: string, priority: Priority)
  datatype Metadata = Metadata(createdBy: string, createdAt: int, lastModified: int,
                               tags: seq<string>, dependencies: seq<string>)
  datatype Visibility = Visibility(showInCleanMode: bool, showInAgentMode: bool, showInFullMode: bool,
                                   showForRoles: seq<string>)
  datatype Interactions = Interactions(clickAction: Option<string>, hoverTooltip: Option<string>,
                                       doubleClickAction: Option<string>)

  datatype Layer = Layer(id: string, documentId: string, layerType: LayerType, position: Position,
                         data: LayerData, metadata: Metadata, visibility: Visibility, interactions: Interactions)

  /** A `Partial<OverlayLayer>`: the top-level fields an update replaces. */
  datatype LayerPatch = LayerPatch(id: Option<string>, documentId: Option<string>, layerType: Option<LayerType>,
                                   position: Option<Position>, data: Option<LayerData>, metadata: Option<Metadata>,
                                   visibility: Option<Visibility>, interactions: Option<Interactions>)

  datatype Document = Document(id: string, filePath: string, content: string, version: int, lastModified: int,
                               checksum: string)

  datatype LayerEventType = LayerCreated | LayerUpdated | LayerDeleted

  datatype LayerEvent = LayerEvent(eventType: LayerEventType, layerId: string, documentId: string, userId: string,
                                   data: Layer)

  /** The layers by document, the documents by id, and the events emitted so far. */
  datatype Db = Db(layers: Entries<seq<Layer>>, documents: Entries<Document>, events: seq<LayerEvent>)

  const MainDocumentId := "screenplay-main"
  const DefaultDocumentId := "default"

  /** The data the service starts with: the sample layers of the main screenplay and its empty document. */
  function Initial(sampleLayers: seq<Layer>): (db: Db)
    ensures GetLayers(db, MainDocumentId) == sampleLayers
    ensures Get(db.documents, MainDocumentId) == Some(Document(MainDocumentId, "/screenplay.md", "", 1, 0, ""))
  {
    Db([(MainDocumentId, sampleLayers)], [(MainDocumentId, Document(MainDocumentId, "/screenplay.md", "", 1, 0, ""))], [])
  }

  // ---------------------------------------------------------------- lookups

  /** `getLayers`: the document's layers, or none. */
  function GetLayers(db: Db, documentId: string): seq<Layer> {
    Get(db.layers, documentId).GetOr([])
  }

  /** `layers.findIndex(l => l.id === id)`. */
  function LayerIndex(xs: seq<Layer>, id: string): (r: Option<nat>)
    ensures r.Some? ==> r.value < |xs| && xs[r.value].id == id && forall j :: 0 <= j < r.value ==> xs[j].id != id
    ensures r.None? <==> forall j :: 0 <= j < |xs| ==> xs[j].id != id
  {
    if xs == [] then None
    else if xs[0].id == id then Some(0)
    else match LayerIndex(xs[1..], id)
      case Some(j) => Some(j + 1)
      case None =>
        assert forall j :: 0 < j < |xs| ==> xs[j] == xs[1..][j - 1];
        None
  }

  /** The first document, in map order, holding a layer with this id, and that layer's position in it. */
  function FindLayer(ls: Entries<seq<Layer>>, id: string): (r: Option<(nat, nat)>)
    ensures r.Some? ==>
      && r.value.0 < |ls| && LayerIndex(ls[r.value.0].1, id) == Some(r.value.1)
      && forall k :: 0 <= k < r.value.0 ==> LayerIndex(ls[k].1, id).None?
    ensures r.None? <==> forall k :: 0 <= k < |ls| ==> LayerIndex(ls[k].1, id).None?
  {
    if ls == [] then None
    else match LayerIndex(ls[0].1, id)
      case Some(j) => Some((0, j))
      case None =>
        match FindLayer(ls[1..], id)
        case Some(p) => Some((p.0 + 1, p.1))
        case None =>
          assert forall k :: 0 < k < |ls| ==> ls[k] == ls[1..][k - 1];
          None
  }

  /** Some document holds a layer with this id. */
  predicate HasLayer(db: Db, id: string) {
    exists k, j :: 0 <= k < |db.layers| && 0 <= j < |db.layers[k].1| && db.layers[k].1[j].id == id
  }

  lemma FindLayerIffHasLayer(db: Db, id: string)
    ensures FindLayer(db.layers, id).Some? <==> HasLayer(db, id)
  {
    if HasLayer(db, id) {
      var k, j :| 0 <= k < |db.layers| && 0 <= j < |db.layers[k].1| && db.layers[k].1[j].id == id;
      assert LayerIndex(db.layers[k].1, id).Some?;
    }
  }

  /** The number of layers over all documents. */
  function TotalLayers(ls: Entries<seq<Layer>>): nat {
    if ls == [] then 0 else |ls[0].1| + TotalLayers(ls[1..])
  }

  // ------------------------------------------------------------- operations

  /** `{...layer, ...updates}`, shallow: a given top-level field replaces the old one whole. */
  function MergeLayer(l: Layer, p: LayerPatch): (r: Layer)
    ensures r.id == p.id.GetOr(l.id) && r.documentId == p.documentId.GetOr(l.documentId)
    ensures r.layerType == p.layerType.GetOr(l.layerType) && r.position == p.position.GetOr(l.position)
    ensures r.data == p.data.GetOr(l.data) && r.metadata == p.metadata.GetOr(l.metadata)
    ensures r.visibility == p.visibility.GetOr(l.visibility) && r.interactions == p.interactions.GetOr(l.interactions)
  {
    Layer(p.id.GetOr(l.id), p.documentId.GetOr(l.documentId), p.layerType.GetOr(l.layerType), p.position.GetOr(l.position),
          p.data.GetOr(l.data), p.metadata.GetOr(l.metadata), p.visibility.GetOr(l.visibility),
          p.interactions.GetOr(l.interactions))
  }

  /** `createLayer`: the layer with the generated id, appended to its document's layers, and the event. */
  function LayerCreatedIn(db: Db, layer: Layer, newId: string): (Db, Layer) {
    var created := layer.(id := newId);
    (db.(layers := Put(db.layers, layer.documentId, GetLayers(db, layer.documentId) + [created]),
         events := db.events + [LayerEvent(LayerCreated, newId, layer.documentId, layer.metadata.createdBy, created)]),
     created)
  }

  /** `updateLayer`: the first layer with this id gets the merge; with none, `Layer <id> not found` is thrown. */
  function LayerUpdatedIn(db: Db, id: string, p: LayerPatch): (Db, Outcome<Layer>) {
    match FindLayer(db.layers, id)
    case None => (db, Thrown("Layer " + id + " not found"))
    case Some(at) =>
      var (k, j) := at;
      var updated := MergeLayer(db.layers[k].1[j], p);
      (db.(layers := db.layers[k := (db.layers[k].0, db.layers[k].1[j := updated])],
           events := db.events + [LayerEvent(LayerUpdated, id, db.layers[k].0, updated.metadata.createdBy, updated)]),
       Ok(updated))
  }

  /** `deleteLayer`: the first layer with this id is spliced out and `true` returned; else nothing changes. */
  function LayerDeletedIn(db: Db, id: string): (Db, bool) {
    match FindLayer(db.layers, id)
    case None => (db, false)
    case Some(at) =>
      var (k, j) := at;
      var gone := db.layers[k].1[j];
      (db.(layers := db.layers[k := (db.layers[k].0, db.layers[k].1[..j] + db.layers[k].1[j + 1..])],
           events := db.events + [LayerEvent(LayerDeleted, id, db.layers[k].0, gone.metadata.createdBy, gone)]),
       true)
  }

  /** `getDocument`. */
  function GetDocument(db: Db, id: string): (r: Outcome<Document>)
    ensures r.Ok? <==> HasKey(db.documents, id)
  {
    match Get(db.documents, id)
    case None => Thrown("Document " + id + " not found")
    case Some(d) => Ok(d)
  }

  /** The text `calculateChecksum` returns: the 32-bit hash of the content in decimal. */
  function Checksum(content: string): string {
    IntToString(Hash(content))
  }

  /** `updateDocument`: new content, the next version, the time and the content's checksum. */
  function DocumentUpdatedIn(db: Db, id: string, content: string, now: int): (Db, Outcome<Document>) {
    match Get(db.documents, id)
    case None => (db, Thrown("Document " + id + " not found"))
    case Some(d) =>
      var updated := d.(content := content, version := d.version + 1, lastModified := now,
                        checksum := Checksum(content));
      (db.(documents := Put(db.documents, id, updated)), Ok(updated))
  }

  /** `getDocumentIdFromPath`: the last path segment with its first `.md` removed, or `default` if that is empty. */
  function DocumentIdFromPath(filePath: string): (r: string)
    ensures r != "" && (r == DefaultDocumentId || !Has(r, '/'))
  {
    var name := ReplaceFirst(Last(Split(filePath, '/')), ".md", "");
    if name == "" then DefaultDocumentId else
      assert !Has(Last(Split(filePath, '/')), '/');
      NoSlashAfterReplace(Last(Split(filePath, '/')));
      name
  }

  lemma NoSlashAfterReplace(s: string)
    requires !Has(s, '/')
    ensures !Has(ReplaceFirst(s, ".md", ""), '/')
  {
    match IndexOf(s, ".md")
    case None =>
    case Some(i) =>
      var r := ReplaceFirst(s, ".md", "");
      assert r == s[..i] + s[i + 3..];
      forall k | 0 <= k < |r| ensures r[k] != '/' {
        if k < i { assert r[k] == s[k]; } else { assert r[k] == s[k + 3]; }
      }
  }

  /**
   * `syncWithDisk` once the file's text has been fetched: the document at the
   * id derived from the path is replaced, one version past the old one, or 1.
   */
  function DiskSyncedIn(db: Db, filePath: string, content: string, now: int): (Db, Document) {
    StoredUnder(db, DocumentIdFromPath(filePath), filePath, content, now, Checksum(content))
  }

  /** The document stored under `id`, one version past the one it replaces, or 1. */
  function StoredUnder(db: Db, id: string, filePath: string, content: string, now: int, checksum: string): (Db, Document) {
    var existing := Get(db.documents, id);
    var d := Document(id, filePath, content, if existing.Some? then existing.value.version + 1 else 1, now, checksum);
    (db.(documents := Put(db.documents, id, d)), d)
  }

  /** `getLayersByType`. */
  function LayersByType(db: Db, documentId: string, t: LayerType): seq<Layer> {
    FilterLayers(GetLayers(db, documentId), (l: Layer) => l.layerType == t)
  }

  /** `getLayersByUser`: over all documents in map order. */
  function LayersByUser(ls: Entries<seq<Layer>>, userId: string): seq<Layer> {
    if ls == [] then [] else FilterLayers(ls[0].1, (l: Layer) => l.metadata.createdBy == userId) + LayersByUser(ls[1..], userId)
  }

  /** `getDependentLayers`: the layers that list this id among their dependencies. */
  function DependentLayers(ls: Entries<seq<Layer>>, layerId: string): seq<Layer> {
    if ls == [] then [] else FilterLayers(ls[0].1, (l: Layer) => layerId in l.metadata.dependencies) + DependentLayers(ls[1..], layerId)
  }

  /**
   * `getLayersByPosition`: the layers whose distance from (x, y) is at most
   * `radius`; for a non-negative radius, `sqrt(d) <= radius` is `d <= radius * radius`.
   */
  function LayersByPosition(db: Db, documentId: string, x: int, y: int, radius: int): seq<Layer> {
    FilterLayers(GetLayers(db, documentId), (l: Layer) => WithinRadius(l.position, x, y, radius))
  }

  predicate WithinRadius(p: Position, x: int, y: int, radius: int) {
    radius >= 0 && (p.x - x) * (p.x - x) + (p.y - y) * (p.y - y) <= radius * radius
  }

  function FilterLayers(xs: seq<Layer>, p: Layer -> bool): (r: seq<Layer>)
    ensures forall l :: l in r <==> l in xs && p(l)
  {
    if xs == [] then [] else (if p(xs[0]) then [xs[0]] else []) + FilterLayers(xs[1..], p)
  }

  // ----------------------------------------------------------------- lemmas

  /** Creating a layer appends it, with the new id, to its document's layers; other documents keep theirs. */
  lemma CreateFacts(db: Db, layer: Layer, newId: string, doc: string)
    requires DistinctKeys(db.layers)
    ensures var (db', created) := LayerCreatedIn(db, layer, newId);
      && created == layer.(id := newId)
      && GetLayers(db', doc) == (if doc == layer.documentId then GetLayers(db, doc) + [created] else GetLayers(db, doc))
      && db'.documents == db.documents
      && db'.events == db.events + [LayerEvent(LayerCreated, newId, layer.documentId, layer.metadata.createdBy, created)]
  {
    GetAfterPut(db.layers, layer.documentId, GetLayers(db, layer.documentId) + [layer.(id := newId)], doc);
  }

  /**
   * Updating: with no layer of that id the error is thrown and nothing changes;
   * otherwise exactly the first such layer is replaced by the merge, in place.
   */
  lemma UpdateFacts(db: Db, id: string, p: LayerPatch)
    ensures var (db', r) := LayerUpdatedIn(db, id, p);
      && (!HasLayer(db, id) <==> r == Thrown("Layer " + id + " not found"))
      && (!HasLayer(db, id) ==> db' == db)
      && (HasLayer(db, id) ==>
            var (k, j) := FindLayer(db.layers, id).value;
            && r == Ok(MergeLayer(db.layers[k].1[j], p))
            && |db'.layers| == |db.layers|
            && (forall m :: 0 <= m < |db.layers| && m != k ==> db'.layers[m] == db.layers[m])
            && db'.layers[k].0 == db.layers[k].0
            && db'.layers[k].1 == db.layers[k].1[j := MergeLayer(db.layers[k].1[j], p)]
            && |db'.events| == |db.events| + 1)
  {
    FindLayerIffHasLayer(db, id);
  }

  /** Deleting returns `true` exactly when a layer with that id existed; then one layer fewer remains. */
  lemma DeleteFacts(db: Db, id: string)
    ensures var (db', deleted) := LayerDeletedIn(db, id);
      && (deleted <==> HasLayer(db, id))
      && (!deleted ==> db' == db)
      && (deleted ==> TotalLayers(db'.layers) + 1 == TotalLayers(db.layers) && Keys(db'.layers) == Keys(db.layers))
  {
    FindLayerIffHasLayer(db, id);
    match FindLayer(db.layers, id)
    case None =>
    case Some(at) =>
      var (k, j) := at;
      var xs := db.layers[k].1;
      var shorter := xs[..j] + xs[j + 1..];
      TotalAfterReplace(db.layers, k, (db.layers[k].0, shorter));
      KeysAfterReplace(db.layers, k, (db.layers[k].0, shorter));
  }

  /** Replacing an entry's value under the same key keeps the keys. */
  lemma KeysAfterReplace(ls: Entries<seq<Layer>>, k: nat, e: (string, seq<Layer>))
    requires k < |ls| && e.0 == ls[k].0
    ensures Keys(ls[k := e]) == Keys(ls)
  {
    assert forall i :: 0 <= i < |ls| ==> Keys(ls[k := e])[i] == Keys(ls)[i];
  }

  /** Replacing one document's list changes the total by the difference in length. */
  lemma {:induction false} TotalAfterReplace(ls: Entries<seq<Layer>>, k: nat, e: (string, seq<Layer>))
    requires k < |ls|
    ensures TotalLayers(ls[k := e]) == TotalLayers(ls) - |ls[k].1| + |e.1|
  {
    if k == 0 {
      assert ls[k := e][1..] == ls[1..];
    } else {
      assert ls[k := e][1..] == ls[1..][k - 1 := e];
      TotalAfterReplace(ls[1..], k - 1, e);
    }
  }

  /** Updating a document: a missing id throws and changes nothing; otherwise the version goes up by one. */
  lemma DocumentUpdateFacts(db: Db, id: string, content: string, now: int)
    requires DistinctKeys(db.documents)
    ensures var (db', r) := DocumentUpdatedIn(db, id, content, now);
      && (!HasKey(db.documents, id) ==> r == Thrown("Document " + id + " not found") && db' == db)
      && (HasKey(db.documents, id) ==>
            var d := Get(db.documents, id).value;
            && r.Ok? && r.value.version == d.version + 1
            && r.value.content == content && r.value.checksum == Checksum(content)
            && r.value.id == d.id && r.value.filePath == d.filePath
            && Get(db'.documents, id) == Some(r.value)
            && |db'.documents| == |db.documents|
            && db'.layers == db.layers)
  {
    if HasKey(db.documents, id) {
      var d := Get(db.documents, id).value;
      var updated := d.(content := content, version := d.version + 1, lastModified := now, checksum := Checksum(content));
      GetAfterPut(db.documents, id, updated, id);
      PutKeepsDistinct(db.documents, id, updated);
    }
  }

  /**
   * Syncing stores the fetched text under the id derived from the path, one
   * version past the stored document or version 1 for a new one; no other
   * document and no layer changes.
   */
  lemma SyncFacts(db: Db, filePath: string, content: string, now: int, other: string)
    requires DistinctKeys(db.documents)
    ensures var (db', d) := DiskSyncedIn(db, filePath, content, now);
      var id := DocumentIdFromPath(filePath);
      && d.id == id && d.filePath == filePath && d.content == content && d.checksum == Checksum(content)
      && d.version == (if HasKey(db.documents, id) then Get(db.documents, id).value.version + 1 else 1)
      && Get(db'.documents, id) == Some(d)
      && (other != id ==> Get(db'.documents, other) == Get(db.documents, other))
      && DistinctKeys(db'.documents) && db'.layers == db.layers && db'.events == db.events
  {
    var (db', d) := DiskSyncedIn(db, filePath, content, now);
    var id := DocumentIdFromPath(filePath);
    GetAfterPut(db.documents, id, d, id);
    GetAfterPut(db.documents, id, d, other);
    PutKeepsDistinct(db.documents, id, d);
  }

  /** The user and dependency queries return exactly the matching layers of every document. */
  lemma {:induction false} QueriesOverDocuments(ls: Entries<seq<Layer>>, userId: string, layerId: string, l: Layer)
    ensures l in LayersByUser(ls, userId) <==>
      (exists k :: 0 <= k < |ls| && l in ls[k].1) && l.metadata.createdBy == userId
    ensures l in DependentLayers(ls, layerId) <==>
      (exists k :: 0 <= k < |ls| && l in ls[k].1) && layerId in l.metadata.dependencies
  {
    if ls != [] {
      QueriesOverDocuments(ls[1..], userId, layerId, l);
      if l in ls[0].1 {
        assert exists k :: 0 <= k < |ls| && l in ls[k].1 by { assert l in ls[0].1; }
      }
      if exists k :: 0 <= k < |ls| && l in ls[k].1 {
        var k :| 0 <= k < |ls| && l in ls[k].1;
        if k > 0 { assert l in ls[1..][k - 1].1; }
      }
      if exists k :: 0 <= k < |ls[1..]| && l in ls[1..][k].1 {
        var k :| 0 <= k < |ls[1..]| && l in ls[1..][k].1;
        assert l in ls[k + 1].1;
      }
    }
  }

  /** A layer is near exactly when it is at most `radius` away on the grid; nothing is near a negative radius. */
  lemma PositionQueryFacts(db: Db, documentId: string, x: int, y: int, radius: int, l: Layer)
    ensures l in LayersByPosition(db, documentId, x, y, radius) <==>
      l in GetLayers(db, documentId) && WithinRadius(l.position, x, y, radius)
    ensures radius < 0 ==> LayersByPosition(db, documentId, x, y, radius) == []
    ensures l in GetLayers(db, documentId) && l.position.x == x && l.position.y == y && radius >= 0 ==>
      l in LayersByPosition(db, documentId, x, y, radius)
  {
    if radius < 0 {
      FilterNothing(GetLayers(db, documentId), (l: Layer) => WithinRadius(l.position, x, y, radius));
    }
  }

  lemma {:induction false} FilterNothing(xs: seq<Layer>, p: Layer -> bool)
    requires forall l :: l in xs ==> !p(l)
    ensures FilterLayers(xs, p) == []
  {
    if xs != [] {
      FilterNothing(xs[1..], p);
    }
  }

  /** Two contents with the same checksum text have the same 32-bit hash; the checksum of nothing is `0`. */
  lemma ChecksumFacts(a: string, b: string)
    ensures Checksum(a) == Checksum(b) <==> Hash(a) == Hash(b)
    ensures Checksum("") == "0"
  {
    if Checksum(a) == Checksum(b) {
      IntToStringInjective(Hash(a), Hash(b));
    }
  }

  /** A path ending in a plain `.md` file name yields that name without the extension. */
  lemma DocumentIdOfMarkdownPath(dir: string, name: string)
    requires name != "" && !Has(name, '/') && !Has(name, '.')
    ensures DocumentIdFromPath(dir + "/" + name + ".md") == name
  {
    var last := name + ".md";
    MdNameHasNoSlash(name);
    assert dir + "/" + name + ".md" == dir + "/" + last;
    LastSegment(dir, last);
    MdExtensionFound(name);
  }

  /** Appending `.md` to a name without `/` brings in no `/`. */
  lemma MdNameHasNoSlash(name: string)
    requires !Has(name, '/')
    ensures !Has(name + ".md", '/')
  {
    var last := name + ".md";
    forall k | 0 <= k < |last| ensures last[k] != '/' {
      if k < |name| { assert last[k] == name[k]; }
    }
  }

  /** In a name without `.` followed by `.md`, the first `.md` is the appended one, and removing it gives the name. */
  lemma MdExtensionFound(name: string)
    requires !Has(name, '.')
    ensures ReplaceFirst(name + ".md", ".md", "") == name
  {
    var last := name + ".md";
    assert IndexOf(last, ".md") == Some(|name|) by {
      assert last[|name|..|name| + 3] == ".md";
      forall i | 0 <= i < |name| ensures !OccursAt(last, ".md", i) {
        assert last[i] == name[i] && name[i] != '.';
      }
      assert OccursAt(last, ".md", |name|);
    }
    assert last[..|name|] + last[|name| + 3..] == name;
  }

  lemma LastSegment(dir: string, last: string)
    requires !Has(last, '/')
    ensures Last(Split(dir + "/" + last, '/')) == last
  {
    var s := dir + "/" + last;
    assert s[|dir|] == '/' && s[|dir| + 1..] == last;
    forall k | |dir| < k < |s| ensures s[k] != '/' {
      assert s[k] == last[k - |dir| - 1];
    }
    SplitLastSegment(s, '/', |dir|);
  }

  /** A path without `/` is its own segment; no segment and no `.md` at all gives `default`. */
  lemma DocumentIdExamples()
    ensures DocumentIdFromPath("") == DefaultDocumentId
    ensures DocumentIdFromPath(".md") == DefaultDocumentId
  {
    assert Split("", '/') == [""];
    assert IndexOf("", ".md").None?;
    assert !Has(".md", '/');
    assert Split(".md", '/') == [".md"];
    assert ".md"[0..3] == ".md";
  }

  // ----------------------------------------------------------------- service

  class LayerDatabaseService {
    var layers: Entries<seq<Layer>>
    var documents: Entries<Document>
    var events: seq<LayerEvent>

    function State(): Db
      reads this
    {
      Db(layers, documents, events)
    }

    predicate Valid()
      reads this
    {
      DistinctKeys(layers) && DistinctKeys(documents)
    }

    /** The service starts from the sample data; `sampleLayers` stands for the built-in sample layers. */
    constructor(sampleLayers: seq<Layer>)
      ensures State() == Initial(sampleLayers) && Valid()
    {
      layers := [(MainDocumentId, sampleLayers)];
      documents := [(MainDocumentId, Document(MainDocumentId, "/screenplay.md", "", 1, 0, ""))];
      events := [];
    }

    /** `createLayer`, with `newId` the generated id. */
    method CreateLayer(layer: Layer, newId: string) returns (created: Layer)
      requires Valid()
      modifies this
      ensures (State(), created) == LayerCreatedIn(old(State()), layer, newId) && Valid()
    {
      created := layer.(id := newId);
      var existing := Get(layers, layer.documentId).GetOr([]);
      PutKeepsDistinct(layers, layer.documentId, existing + [created]);
      layers := Put(layers, layer.documentId, existing + [created]);
      events := events + [LayerEvent(LayerCreated, newId, layer.documentId, layer.metadata.createdBy, created)];
    }

    /** `updateLayer`: search the documents in map order for the layer. */
    method UpdateLayer(id: string, updates: LayerPatch) returns (r: Outcome<Layer>)
      requires Valid()
      modifies this
      ensures (State(), r) == LayerUpdatedIn(old(State()), id, updates) && Valid()
    {
      var k := 0;
      while k < |layers|
        invariant 0 <= k <= |layers|
        invariant forall m :: 0 <= m < k ==> LayerIndex(layers[m].1, id).None?
      {
        var j := LayerIndex(layers[k].1, id);
        if j.Some? {
          var updated := MergeLayer(layers[k].1[j.value], updates);
          assert FindLayer(layers, id) == Some((k, j.value));
          layers := layers[k := (layers[k].0, layers[k].1[j.value := updated])];
          events := events + [LayerEvent(LayerUpdated, id, layers[k].0, updated.metadata.createdBy, updated)];
          return Ok(updated);
        }
        k := k + 1;
      }
      r := Thrown("Layer " + id + " not found");
    }

    /** `deleteLayer`: search the documents in map order and splice the layer out. */
    method DeleteLayer(id: string) returns (deleted: bool)
      requires Valid()
      modifies this
      ensures (State(), deleted) == LayerDeletedIn(old(State()), id) && Valid()
    {
      var k := 0;
      while k < |layers|
        invariant 0 <= k <= |layers|
        invariant forall m :: 0 <= m < k ==> LayerIndex(layers[m].1, id).None?
      {
        var j := LayerIndex(layers[k].1, id);
        if j.Some? {
          var gone := layers[k].1[j.value];
          assert FindLayer(layers, id) == Some((k, j.value));
          layers := layers[k := (layers[k].0, layers[k].1[..j.value] + layers[k].1[j.value + 1..])];
          events := events + [LayerEvent(LayerDeleted, id, layers[k].0, gone.metadata.createdBy, gone)];
          return true;
        }
        k := k + 1;
      }
      deleted := false;
    }

    /** `calculateChecksum`: the shift-and-subtract loop, truncated to 32 bits at each step. */
    method CalculateChecksum(content: string) returns (r: string)
      ensures r == Checksum(content)
    {
      var hash := 0;
      for i := 0 to |content|
        invariant hash == Hash(content[..i])
      {
        var c := content[i];
        ShiftFormIsStep(hash, c);
        assert content[..i + 1] == content[..i] + [c];
        HashAppend(content[..i], c);
        hash := ToInt32(ToInt32(hash * 32) - hash + c as int);
      }
      assert content[..|content|] == content;
      r := IntToString(hash);
    }

    method UpdateDocument(id: string, content: string, now: int) returns (r: Outcome<Document>)
      requires Valid()
      modifies this
      ensures (State(), r) == DocumentUpdatedIn(old(State()), id, content, now) && Valid()
    {
      var doc := Get(documents, id);
      if doc.None? {
        return Thrown("Document " + id + " not found");
      }
      var checksum := CalculateChecksum(content);
      var updated := doc.value.(content := content, version := doc.value.version + 1, lastModified := now,
                                checksum := checksum);
      PutKeepsDistinct(documents, id, updated);
      documents := Put(documents, id, updated);
      r := Ok(updated);
    }

    /** `syncWithDisk`, given the text the fetch of `filePath` returned. */
    method SyncWithDisk(filePath: string, content: string, now: int) returns (d: Document)
      requires Valid()
      modifies this
      ensures (State(), d) == DiskSyncedIn(old(State()), filePath, content, now) && Valid()
    {
      var id := DocumentIdFromPath(filePath);
      var checksum := CalculateChecksum(content);
      d := StoreUnder(id, filePath, content, now, checksum);
    }

    /** `documents.set(id, d)` with the document `syncWithDisk` builds for `id`. */
    method StoreUnder(id: string, filePath: string, content: string, now: int, checksum: string) returns (d: Document)
      requires Valid()
      modifies this
      ensures (State(), d) == StoredUnder(old(State()), id, filePath, content, now, checksum) && Valid()
    {
      d := StoredUnder(State(), id, filePath, content, now, checksum).1;
      StoreDocument(id, d);
    }

    /** `documents.set(id, d)`. */
    method StoreDocument(id: string, d: Document)
      requires Valid()
      modifies this
      ensures State() == old(State()).(documents := Put(old(documents), id, d)) && Valid()
    {
      PutKeepsDistinct(documents, id, d);
      documents := Put(documents, id, d);
    }
  }
}
