/**
 * The event-sourced screenplay backend: editor intents become events in the
 * log, and the document shown is the fold of `projectState` over the log,
 * starting from an empty TipTap document.
 */
module EventSourcedBackend {
  import opened EventStore
  import opened Arrays

  /** A node of the TipTap document: a heading, or any other node kept as it is. */
  datatype Node = Heading(level: int, text: string) | Other(kind: string)

  datatype Doc = Doc(docType: string, content: seq<Node>)

  /** An editor intent; its optional payload is never read. */
  datatype EditorChange = EditorChange(intent: string)

  const TitleAddedType: string := "TITLE_ADDED"
  const AddTitleIntent: string := "add_title"

  /** The heading every `TITLE_ADDED` event inserts. */
  const TitleHeading: Node := Heading(1, "Título Inserido via LSA")

  /** The title carried in the payload of the event `add_title` produces (the projection does not read it). */
  const InsertedTitle: string := "<h1>Título Inserido via LSA</h1><p></p>"

  /** `getInitialState()`: `{ type: 'doc', content: [] }`. */
  const InitialState: Doc := Doc("doc", [])

  // -------------------------------------------------------------- splice

  /** Where `splice(start, ...)` starts on a list of length `len`: negative counts from the end, all clamped. */
  function SpliceStart(len: nat, start: int): (k: nat)
    ensures k <= len
    ensures 0 <= start <= len ==> k == start
    ensures start > len ==> k == len
    ensures start < 0 ==> k == if len + start < 0 then 0 else len + start
  {
    if start < 0 then (if len + start < 0 then 0 else len + start)
    else if start > len then len
    else start
  }

  /** `xs.splice(start, 0, x)` on a copy: `x` is inserted before the element at the start position. */
  function SpliceInsert<T>(xs: seq<T>, start: int, x: T): (r: seq<T>)
    ensures |r| == |xs| + 1
    ensures var k := SpliceStart(|xs|, start);
      r[k] == x && (forall i :: 0 <= i < k ==> r[i] == xs[i]) && (forall i :: k <= i < |xs| ==> r[i + 1] == xs[i])
    ensures multiset(r) == multiset(xs) + multiset{x}
  {
    var k := SpliceStart(|xs|, start);
    assert xs == xs[..k] + xs[k..];
    xs[..k] + [x] + xs[k..]
  }

  /**
   * `event.payload.position`. A payload without a position reads `undefined`,
   * which `splice` takes as 0.
   */
  function PositionOf(p: Payload): int {
    match p
    case TitleAdded(_, position) => position
    case Fields(_) => 0
  }

  // ---------------------------------------------------------- projection

  predicate IsTitleAdded(e: ScreenplayEvent) { e.eventType == TitleAddedType }

  /** `projectState(currentState, event)`. */
  function ProjectState(s: Doc, e: ScreenplayEvent): Doc {
    if IsTitleAdded(e) then s.(content := SpliceInsert(s.content, PositionOf(e.payload), TitleHeading))
    else s
  }

  /** A `TITLE_ADDED` event inserts one title heading at the clamped payload position and shifts the rest. */
  lemma ProjectTitleAdded(s: Doc, e: ScreenplayEvent)
    requires IsTitleAdded(e)
    ensures var r := ProjectState(s, e); var k := SpliceStart(|s.content|, PositionOf(e.payload));
      r.docType == s.docType && |r.content| == |s.content| + 1 && r.content[k] == TitleHeading
      && r.content[..k] == s.content[..k] && r.content[k + 1..] == s.content[k..]
  {
    var r := ProjectState(s, e);
    var k := SpliceStart(|s.content|, PositionOf(e.payload));
    assert forall i :: k + 1 <= i <= |s.content| ==> r.content[i] == s.content[i - 1];
  }

  /** Any other event leaves the document as it was. */
  lemma ProjectOtherEvent(s: Doc, e: ScreenplayEvent)
    requires !IsTitleAdded(e)
    ensures ProjectState(s, e) == s
  {
  }

  /** The document after the whole log: `scan(projectState, getInitialState())`. */
  function Projection(events: seq<ScreenplayEvent>): Doc
    decreases |events|
  {
    if events == [] then InitialState
    else ProjectState(Projection(events[..|events| - 1]), events[|events| - 1])
  }

  /** An empty log projects to the empty document. */
  lemma ProjectionOfEmptyLog()
    ensures Projection([]) == InitialState
    ensures Projection([]).docType == "doc" && Projection([]).content == []
  {
  }

  /** Appending an event projects the previous document once more. */
  lemma ProjectionAppend(events: seq<ScreenplayEvent>, e: ScreenplayEvent)
    ensures Projection(events + [e]) == ProjectState(Projection(events), e)
  {
    assert (events + [e])[..|events|] == events;
  }

  /**
   * The projected document holds exactly one title heading per
   * `TITLE_ADDED` event in the log, and nothing else.
   */
  lemma {:induction false} ProjectionHeadings(events: seq<ScreenplayEvent>)
    ensures |Projection(events).content| == |Filter(events, IsTitleAdded)|
    ensures forall i :: 0 <= i < |Projection(events).content| ==> Projection(events).content[i] == TitleHeading
    ensures Projection(events).docType == "doc"
    decreases |events|
  {
    if events != [] {
      var prefix := events[..|events| - 1];
      var last := events[|events| - 1];
      ProjectionHeadings(prefix);
      assert events == prefix + [last];
      FilterAppend(prefix, [last], IsTitleAdded);
      var before := Projection(prefix).content;
      var after := Projection(events).content;
      if IsTitleAdded(last) {
        var k := SpliceStart(|before|, PositionOf(last.payload));
        assert after == SpliceInsert(before, PositionOf(last.payload), TitleHeading);
        forall i | 0 <= i < |after| ensures after[i] == TitleHeading {
          if i < k {
            assert after[i] == before[i];
          } else if i > k {
            assert after[i] == before[i - 1];
          }
        }
      }
    }
  }

  // ------------------------------------------------------------- changes

  /** The events `applyChange(change)` appends: one `TITLE_ADDED` at position 0 for `add_title`, none otherwise. */
  function ChangeEvents(change: EditorChange, id: string, now: int): (r: seq<ScreenplayEvent>)
    ensures |r| <= 1
    ensures r != [] <==> change.intent == AddTitleIntent
    ensures forall i :: 0 <= i < |r| ==> IsTitleAdded(r[i]) && PositionOf(r[i].payload) == 0
  {
    if change.intent == AddTitleIntent then
      [CreateEvent(TitleAddedType, TitleAdded(InsertedTitle, 0), id, now)]
    else []
  }

  /** After `add_title` the document gains a title heading at its top; other intents leave it unchanged. */
  lemma ChangeProjection(events: seq<ScreenplayEvent>, change: EditorChange, id: string, now: int)
    ensures change.intent == AddTitleIntent ==>
      Projection(events + ChangeEvents(change, id, now)).content == [TitleHeading] + Projection(events).content
    ensures change.intent != AddTitleIntent ==>
      Projection(events + ChangeEvents(change, id, now)) == Projection(events)
  {
    var added := ChangeEvents(change, id, now);
    if added == [] {
      assert events + added == events;
    } else {
      ProjectionAppend(events, added[0]);
      assert added == [added[0]];
      var before := Projection(events).content;
      var after := Projection(events + added).content;
      assert SpliceStart(|before|, 0) == 0;
      assert after == [TitleHeading] + before by {
        assert |after| == |before| + 1;
        forall i | 0 <= i < |after| ensures after[i] == ([TitleHeading] + before)[i] {
          if i > 0 {
            assert after[i] == before[i - 1];
          }
        }
      }
    }
  }

  // ------------------------------------------------------------- backend

  class EventSourcedBackendService {
    const eventStore: EventStoreService

    constructor (eventStore: EventStoreService)
      ensures this.eventStore == eventStore
    {
      this.eventStore := eventStore;
    }

    /** The latest document on the state stream, for a subscriber that saw the whole log. */
    function CurrentDoc(): Doc
      reads this, eventStore
    {
      Projection(eventStore.events)
    }

    /** `applyChange(change)`: the change's events go to the end of the log. */
    method ApplyChange(change: EditorChange, id: string, now: int)
      modifies eventStore
      ensures eventStore.events == old(eventStore.events) + ChangeEvents(change, id, now)
      ensures change.intent == AddTitleIntent ==> CurrentDoc().content == [TitleHeading] + old(CurrentDoc()).content
      ensures change.intent != AddTitleIntent ==> CurrentDoc() == old(CurrentDoc())
    {
      ChangeProjection(eventStore.events, change, id, now);
      if change.intent == AddTitleIntent {
        var event := CreateEvent(TitleAddedType, TitleAdded(InsertedTitle, 0), id, now);
        eventStore.Append(event);
      }
    }
  }
}
