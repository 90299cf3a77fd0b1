/**
 * The navigation selection (screenplay, conversation, agent instance) and
 * the FIFO queue of saves that are sent to the server, which drops saves for
 * conversations marked as deleted.
 *
 * The server's answers to the state lookups are parameters; a save that
 * leaves the queue is recorded in `sent`, whatever the server answers. The
 * drain of the queue is asynchronous: it sends one save, suspends until the
 * PUT settles, and goes on from the queue as it then is. `processing` is the
 * `isProcessingQueue` flag, set exactly while such a drain is suspended.
 */
module NavigationState {
  import opened Wrappers
  import opened JsText
  import opened Arrays

  datatype Selection = Selection(screenplayId: Option<string>, conversationId: Option<string>, instanceId: Option<string>)

  datatype SaveItem = SaveItem(screenplayId: string, conversationId: Option<string>, instanceId: Option<string>)

  /** A state record fetched from the server. */
  datatype SavedState = SavedState(conversationId: Option<string>, instanceId: Option<string>)

  datatype NavState = NavState(sel: Selection, queue: seq<SaveItem>, deleted: set<string>, sent: seq<SaveItem>, processing: bool)

  /** One field of a `Partial<NavigationState>`: left undefined, or given (possibly as null). */
  datatype Patch = Keep | Put(value: Option<string>)

  const NoSelection := Selection(None, None, None)

  const InitialNav := NavState(NoSelection, [], {}, [], false)

  /** A save for this conversation is refused: it is set and marked as deleted. */
  predicate Blocked(deleted: set<string>, conv: Option<string>) {
    Truthy(conv) && conv.value in deleted
  }

  /** No queued save refers to a deleted conversation. */
  predicate QueueClean(st: NavState) {
    forall i :: 0 <= i < |st.queue| ==> !Blocked(st.deleted, st.queue[i].conversationId)
  }

  /** Saves wait in the queue only while a drain is running (suspended at a PUT). */
  predicate DrainingWhenQueued(st: NavState) {
    st.queue != [] ==> st.processing
  }

  /** The filter predicate of `clearQueueForConversation(c)`. */
  function OtherConversation(c: string): SaveItem -> bool {
    (x: SaveItem) => x.conversationId != Some(c)
  }

  /** The saves the drain does not skip. */
  function Live(deleted: set<string>): SaveItem -> bool {
    (x: SaveItem) => !Blocked(deleted, x.conversationId)
  }

  // ------------------------------------------------------------------ queue

  /** `saveQueue.filter(item => item.conversationId !== c)`. */
  function Purge(q: seq<SaveItem>, c: string): (r: seq<SaveItem>)
    ensures forall i :: 0 <= i < |r| ==> r[i].conversationId != Some(c) && r[i] in q
    ensures forall x :: x in q && x.conversationId != Some(c) ==> x in r
  {
    if q == [] then []
    else if q[0].conversationId == Some(c) then Purge(q[1..], c)
    else [q[0]] + Purge(q[1..], c)
  }

  /** The saves of `q` that a drain sends, in queue order: those of conversations not deleted. */
  function Sendable(q: seq<SaveItem>, deleted: set<string>): (r: seq<SaveItem>)
    ensures forall i :: 0 <= i < |r| ==> !Blocked(deleted, r[i].conversationId) && r[i] in q
    ensures forall x :: x in q && !Blocked(deleted, x.conversationId) ==> x in r
  {
    if q == [] then []
    else if Blocked(deleted, q[0].conversationId) then Sendable(q[1..], deleted)
    else [q[0]] + Sendable(q[1..], deleted)
  }

  /** Purging is the array filter that keeps the saves of other conversations, in order. */
  lemma {:induction false} PurgeIsFilter(q: seq<SaveItem>, c: string)
    ensures Purge(q, c) == Filter(q, OtherConversation(c))
  {
    if q != [] {
      PurgeIsFilter(q[1..], c);
    }
  }

  /** What a drain sends is the array filter that keeps the live saves, in order. */
  lemma {:induction false} SendableIsFilter(q: seq<SaveItem>, deleted: set<string>)
    ensures Sendable(q, deleted) == Filter(q, Live(deleted))
  {
    if q != [] {
      SendableIsFilter(q[1..], deleted);
    }
  }

  lemma {:induction false} SendableAppend(q: seq<SaveItem>, x: SaveItem, deleted: set<string>)
    ensures Sendable(q + [x], deleted) == Sendable(q, deleted) + Sendable([x], deleted)
  {
    if q != [] {
      assert (q + [x])[1..] == q[1..] + [x];
      SendableAppend(q[1..], x, deleted);
    }
  }

  /** A clean queue is sent in full, in FIFO order. */
  lemma {:induction false} SendableOfCleanQueue(q: seq<SaveItem>, deleted: set<string>)
    requires forall i :: 0 <= i < |q| ==> !Blocked(deleted, q[i].conversationId)
    ensures Sendable(q, deleted) == q
  {
    if q != [] {
      SendableOfCleanQueue(q[1..], deleted);
    }
  }

  /** What has gone out followed by what the queue will still send. */
  function Outbox(st: NavState): seq<SaveItem> {
    st.sent + Sendable(st.queue, st.deleted)
  }

  /**
   * The `while` loop of `processQueue`, run with the flag set until its
   * next `await`: the saves at the front whose conversation was deleted are
   * shifted off and skipped; the first live one is shifted off and its PUT
   * sent, and the drain suspends; an empty queue ends the drain and clears
   * the flag. The same loop goes on each time an awaited PUT settles.
   */
  function Drain(st: NavState): (r: NavState)
    requires st.processing
    ensures Outbox(r) == Outbox(st)
    ensures r.sel == st.sel && r.deleted == st.deleted
    ensures st.queue != [] ==> |r.queue| < |st.queue|
    ensures st.queue == [] ==> r == st.(processing := false)
    ensures !r.processing ==> r.queue == []
    decreases |st.queue|
  {
    if st.queue == [] then st.(processing := false)
    else if Blocked(st.deleted, st.queue[0].conversationId) then Drain(st.(queue := st.queue[1..]))
    else st.(queue := st.queue[1..], sent := st.sent + [st.queue[0]])
  }

  /** A turn of the drain leaves a clean queue clean: it only shifts saves off the front. */
  lemma DrainKeepsClean(st: NavState)
    requires st.processing && QueueClean(st)
    ensures QueueClean(Drain(st))
  {
    if st.queue != [] {
      assert Drain(st).queue == st.queue[1..];
    }
  }

  /** `processQueue()`: start a drain unless one is running or there is nothing to send. */
  function StartDrain(st: NavState): (r: NavState)
    ensures Outbox(r) == Outbox(st)
    ensures r.sel == st.sel && r.deleted == st.deleted
    ensures st.processing ==> r == st
    ensures DrainingWhenQueued(r)
    ensures QueueClean(st) ==> QueueClean(r)
  {
    if st.processing || st.queue == [] then st
    else
      var s1 := st.(processing := true);
      if QueueClean(st) then DrainKeepsClean(s1); Drain(s1) else Drain(s1)
  }

  /**
   * `enqueueSave`: a save for a deleted conversation is dropped; any other
   * is pushed and `processQueue()` is called, so that with no drain running
   * the save is shifted off and its PUT sent before `enqueueSave` returns.
   */
  function Enqueue(st: NavState, item: SaveItem): (r: NavState)
    ensures Blocked(st.deleted, item.conversationId) ==> r == st
    ensures !Blocked(st.deleted, item.conversationId) ==> Outbox(r) == Outbox(st) + [item]
    ensures r.sel == st.sel && r.deleted == st.deleted
    ensures QueueClean(st) ==> QueueClean(r)
    ensures st.processing && !Blocked(st.deleted, item.conversationId) ==> r == st.(queue := st.queue + [item])
    ensures !st.processing && st.queue == [] && !Blocked(st.deleted, item.conversationId) ==>
      r == st.(sent := st.sent + [item], processing := true)
  {
    if Blocked(st.deleted, item.conversationId) then st
    else
      SendableAppend(st.queue, item, st.deleted);
      StartDrain(st.(queue := st.queue + [item]))
  }

  /**
   * `deleteConversationState`: mark the conversation deleted and purge its
   * queued saves (the DELETE request itself is not modelled).
   */
  function AfterDelete(st: NavState, conv: string): NavState {
    st.(deleted := st.deleted + {conv}, queue := Purge(st.queue, conv))
  }

  /** The deletion is settled (the DELETE answered, or its retention delay passed): unmark it. */
  function AfterDeleteSettled(st: NavState, conv: string): NavState {
    st.(deleted := st.deleted - {conv})
  }

  // -------------------------------------------------------------- selection

  /** `persistAndUpdateUrl`: enqueue a save of the current selection when there is a screenplay. */
  function Persist(st: NavState): NavState {
    if Truthy(st.sel.screenplayId) then
      Enqueue(st, SaveItem(st.sel.screenplayId.value, st.sel.conversationId, st.sel.instanceId))
    else st
  }

  /**
   * `setScreenplay(id)`, with `saved` the server's state for the new screenplay
   * (absent when the lookup fails).
   */
  function AfterSetScreenplay(st: NavState, id: Option<string>, saved: Option<SavedState>): NavState {
    if !Truthy(id) then st.(sel := NoSelection)
    else
      var prev := st.sel.screenplayId;
      var s1 := if Truthy(prev) && prev != id
                then Enqueue(st, SaveItem(prev.value, st.sel.conversationId, st.sel.instanceId)) else st;
      var conv := if saved.Some? then OrNull(saved.value.conversationId) else None;
      var inst := if saved.Some? then OrNull(saved.value.instanceId) else None;
      Enqueue(s1.(sel := Selection(id, conv, inst)), SaveItem(id.value, conv, inst))
  }

  /**
   * `setConversation(conv)`, with `saved` the server's state for that
   * conversation; returns the instance restored.
   */
  function AfterSetConversation(st: NavState, conv: Option<string>, saved: Option<SavedState>): (Option<string>, NavState) {
    if !Truthy(st.sel.screenplayId) then (None, st)
    else
      var sp := st.sel.screenplayId.value;
      var prev := st.sel.conversationId;
      var s1 := if Truthy(prev) && prev != conv && Truthy(st.sel.instanceId)
                then Enqueue(st, SaveItem(sp, prev, st.sel.instanceId)) else st;
      if !Truthy(conv) then (None, s1.(sel := s1.sel.(conversationId := None, instanceId := None)))
      else
        var inst := if saved.Some? then OrNull(saved.value.instanceId) else None;
        (inst, Enqueue(s1.(sel := s1.sel.(conversationId := conv, instanceId := inst)), SaveItem(sp, conv, inst)))
  }

  /** `setConversationWithInstance(conv, inst)`. */
  function AfterSetConversationWithInstance(st: NavState, conv: Option<string>, inst: Option<string>): NavState {
    if !Truthy(st.sel.screenplayId) then st
    else
      var prev := st.sel.conversationId;
      var s1 := if Truthy(prev) && prev != conv
                then Enqueue(st, SaveItem(st.sel.screenplayId.value, prev, st.sel.instanceId)) else st;
      Persist(s1.(sel := s1.sel.(conversationId := conv, instanceId := inst)))
  }

  /** `setInstance(inst)`. */
  function AfterSetInstance(st: NavState, inst: Option<string>): NavState {
    if !Truthy(st.sel.screenplayId) then st
    else Persist(st.(sel := st.sel.(instanceId := inst)))
  }

  /** `setScreenplayPreservingSelections(id)`. */
  function AfterSetScreenplayPreserving(st: NavState, id: Option<string>): NavState {
    if !Truthy(id) then st
    else Persist(st.(sel := st.sel.(screenplayId := id)))
  }

  function ApplyPatch(current: Option<string>, p: Patch): Option<string> {
    match p
    case Keep => current
    case Put(v) => v
  }

  /** `setState(partial)`: overwrite the given fields, then persist if there is a screenplay. */
  function AfterSetState(st: NavState, sp: Patch, conv: Patch, inst: Patch): NavState {
    var sel := Selection(ApplyPatch(st.sel.screenplayId, sp), ApplyPatch(st.sel.conversationId, conv),
                         ApplyPatch(st.sel.instanceId, inst));
    Persist(st.(sel := sel))
  }

  // ----------------------------------------------------------------- lemmas

  /** A save for a deleted conversation is never queued. */
  lemma EnqueueDeletedIgnored(st: NavState, item: SaveItem)
    requires Truthy(item.conversationId) && item.conversationId.value in st.deleted
    ensures Enqueue(st, item) == st
  {
  }

  lemma EnqueueKeepsClean(st: NavState, item: SaveItem)
    requires QueueClean(st)
    ensures QueueClean(Enqueue(st, item))
  {
  }

  lemma PersistKeepsClean(st: NavState)
    requires QueueClean(st)
    ensures QueueClean(Persist(st)) && Persist(st).deleted == st.deleted && Persist(st).sel == st.sel
  {
  }

  /** After deleting a conversation, it is marked and none of its saves is queued. */
  lemma DeletePurges(st: NavState, conv: string)
    ensures conv in AfterDelete(st, conv).deleted
    ensures forall i :: 0 <= i < |AfterDelete(st, conv).queue| ==>
      AfterDelete(st, conv).queue[i].conversationId != Some(conv)
    ensures forall x :: x in st.queue && x.conversationId != Some(conv) ==> x in AfterDelete(st, conv).queue
    ensures AfterDelete(st, conv).queue == Filter(st.queue, OtherConversation(conv))
    ensures AfterDelete(st, conv).sel == st.sel && AfterDelete(st, conv).sent == st.sent
    ensures AfterDelete(st, conv).processing == st.processing
  {
    PurgeIsFilter(st.queue, conv);
  }

  /** No selection change lets a save of a deleted conversation into the queue. */
  lemma SetScreenplayKeepsClean(st: NavState, id: Option<string>, saved: Option<SavedState>)
    requires QueueClean(st)
    ensures QueueClean(AfterSetScreenplay(st, id, saved))
  {
    var prev := st.sel.screenplayId;
    if Truthy(id) && Truthy(prev) && prev != id {
      EnqueueKeepsClean(st, SaveItem(prev.value, st.sel.conversationId, st.sel.instanceId));
    }
  }

  lemma SetConversationKeepsClean(st: NavState, conv: Option<string>, saved: Option<SavedState>)
    requires QueueClean(st)
    ensures QueueClean(AfterSetConversation(st, conv, saved).1)
  {
    if Truthy(st.sel.screenplayId) {
      var sp := st.sel.screenplayId.value;
      var prev := st.sel.conversationId;
      var s1 := if Truthy(prev) && prev != conv && Truthy(st.sel.instanceId)
                then Enqueue(st, SaveItem(sp, prev, st.sel.instanceId)) else st;
      assert QueueClean(s1);
      if Truthy(conv) {
        var inst := if saved.Some? then OrNull(saved.value.instanceId) else None;
        var s2 := s1.(sel := s1.sel.(conversationId := conv, instanceId := inst));
        assert AfterSetConversation(st, conv, saved).1 == Enqueue(s2, SaveItem(sp, conv, inst));
      }
    }
  }

  lemma SetConversationWithInstanceKeepsClean(st: NavState, conv: Option<string>, inst: Option<string>)
    requires QueueClean(st)
    ensures QueueClean(AfterSetConversationWithInstance(st, conv, inst))
  {
    if Truthy(st.sel.screenplayId) && Truthy(st.sel.conversationId) && st.sel.conversationId != conv {
      EnqueueKeepsClean(st, SaveItem(st.sel.screenplayId.value, st.sel.conversationId, st.sel.instanceId));
    }
  }

  lemma SelectionSettersKeepClean(st: NavState, id: Option<string>, inst: Option<string>, p: Patch, q: Patch, r: Patch)
    requires QueueClean(st)
    ensures QueueClean(AfterSetInstance(st, inst))
    ensures QueueClean(AfterSetScreenplayPreserving(st, id))
    ensures QueueClean(AfterSetState(st, p, q, r))
  {
  }

  /** Deleting, settling a deletion and a turn of the drain keep the queue clean as well. */
  lemma QueueOperationsKeepClean(st: NavState, c: string)
    requires QueueClean(st)
    ensures QueueClean(AfterDelete(st, c))
    ensures QueueClean(AfterDeleteSettled(st, c))
    ensures st.processing ==> QueueClean(Drain(st))
  {
    var d := AfterDelete(st, c);
    forall i | 0 <= i < |d.queue| ensures !Blocked(d.deleted, d.queue[i].conversationId) {
      assert d.queue[i] in st.queue;
    }
    if st.processing {
      DrainKeepsClean(st);
    }
  }

  /** Saves wait only while a drain is running, whatever the queue operation. */
  lemma QueueOperationsKeepDraining(st: NavState, item: SaveItem, c: string)
    requires DrainingWhenQueued(st)
    ensures DrainingWhenQueued(Enqueue(st, item))
    ensures DrainingWhenQueued(AfterDelete(st, c))
    ensures DrainingWhenQueued(AfterDeleteSettled(st, c))
    ensures DrainingWhenQueued(Persist(st))
    ensures st.processing ==> DrainingWhenQueued(Drain(st))
  {
  }

  /**
   * With no drain running, a save is shifted off and its PUT sent at once;
   * while one is suspended, the save waits at the back of the queue.
   */
  lemma EnqueueSendsOrWaits(st: NavState, item: SaveItem)
    requires DrainingWhenQueued(st) && !Blocked(st.deleted, item.conversationId)
    ensures !st.processing ==> Enqueue(st, item) == st.(sent := st.sent + [item], processing := true)
    ensures st.processing ==> Enqueue(st, item) == st.(queue := st.queue + [item])
  {
  }

  /**
   * The drain run to its end with nothing else happening in between: each
   * awaited PUT settles and the loop goes on, until the queue is empty.
   */
  function Settle(st: NavState): (r: NavState)
    requires DrainingWhenQueued(st)
    ensures !r.processing && r.queue == []
    ensures r.sent == Outbox(st)
    ensures r.sel == st.sel && r.deleted == st.deleted
    decreases |st.queue|, st.processing
  {
    if !st.processing then st else Settle(Drain(st))
  }

  /**
   * A drain run to its end sends the saves of conversations not deleted, in
   * queue order, after those already sent; when the queue is clean, that is
   * all of them.
   */
  lemma ProcessSendsFifo(st: NavState)
    requires DrainingWhenQueued(st)
    ensures Settle(st).sent == st.sent + Sendable(st.queue, st.deleted)
    ensures QueueClean(st) ==> Settle(st).sent == st.sent + st.queue
  {
    if QueueClean(st) {
      SendableOfCleanQueue(st.queue, st.deleted);
    }
  }

  /** `setScreenplay(null)` (or an empty id) clears all three ids and queues nothing. */
  lemma SetScreenplayNullClears(st: NavState, id: Option<string>, saved: Option<SavedState>)
    requires !Truthy(id)
    ensures AfterSetScreenplay(st, id, saved) == st.(sel := NoSelection)
  {
  }

  /**
   * Switching to a different screenplay sends (now or later) a save of the
   * previous selection first, then one of the new selection.
   */
  lemma SwitchSavesPreviousFirst(st: NavState, id: Option<string>, saved: Option<SavedState>)
    requires Truthy(id) && Truthy(st.sel.screenplayId) && st.sel.screenplayId != id
    requires !Blocked(st.deleted, st.sel.conversationId)
    ensures var r := AfterSetScreenplay(st, id, saved);
      |Outbox(r)| >= |Outbox(st)| + 1 && Outbox(r)[..|Outbox(st)|] == Outbox(st)
      && Outbox(r)[|Outbox(st)|] == SaveItem(st.sel.screenplayId.value, st.sel.conversationId, st.sel.instanceId)
      && r.sel.screenplayId == id
  {
    var prevItem := SaveItem(st.sel.screenplayId.value, st.sel.conversationId, st.sel.instanceId);
    var s1 := Enqueue(st, prevItem);
    assert Outbox(s1) == Outbox(st) + [prevItem];
    var conv := if saved.Some? then OrNull(saved.value.conversationId) else None;
    var inst := if saved.Some? then OrNull(saved.value.instanceId) else None;
    var s2 := s1.(sel := Selection(id, conv, inst));
    assert Outbox(s2) == Outbox(s1);
    var r := AfterSetScreenplay(st, id, saved);
    assert r == Enqueue(s2, SaveItem(id.value, conv, inst));
    assert Outbox(r)[..|Outbox(s1)|] == Outbox(s1);
    assert Outbox(r)[..|Outbox(st)|] == Outbox(s1)[..|Outbox(st)|];
  }

  /** Staying on the same screenplay sends at most one save. */
  lemma SameScreenplayQueuesOnce(st: NavState, id: Option<string>, saved: Option<SavedState>)
    requires Truthy(id) && st.sel.screenplayId == id
    ensures |Outbox(AfterSetScreenplay(st, id, saved))| <= |Outbox(st)| + 1
  {
  }

  /** Without a screenplay, setting an instance or a conversation does nothing. */
  lemma NoScreenplayNoop(st: NavState, conv: Option<string>, inst: Option<string>, saved: Option<SavedState>)
    requires !Truthy(st.sel.screenplayId)
    ensures AfterSetInstance(st, inst) == st
    ensures AfterSetConversationWithInstance(st, conv, inst) == st
    ensures AfterSetConversation(st, conv, saved) == (None, st)
  {
  }

  /** `setInstance` changes only the instance id of the selection, and queues at most one save of it. */
  lemma SetInstanceOnlyInstance(st: NavState, inst: Option<string>)
    requires Truthy(st.sel.screenplayId)
    ensures AfterSetInstance(st, inst).sel == st.sel.(instanceId := inst)
    ensures AfterSetInstance(st, inst).deleted == st.deleted
    ensures Blocked(st.deleted, st.sel.conversationId) ==> Outbox(AfterSetInstance(st, inst)) == Outbox(st)
    ensures !Blocked(st.deleted, st.sel.conversationId) ==>
      Outbox(AfterSetInstance(st, inst)) == Outbox(st) + [SaveItem(st.sel.screenplayId.value, st.sel.conversationId, inst)]
  {
  }

  /** `setConversationWithInstance` selects both ids and keeps the screenplay. */
  lemma SetConversationWithInstanceSelects(st: NavState, conv: Option<string>, inst: Option<string>)
    requires Truthy(st.sel.screenplayId)
    ensures AfterSetConversationWithInstance(st, conv, inst).sel == Selection(st.sel.screenplayId, conv, inst)
  {
  }

  /** `setState` overwrites exactly the fields that are given. */
  lemma SetStateOverwritesGiven(st: NavState, sp: Patch, conv: Patch, inst: Patch)
    ensures var s := AfterSetState(st, sp, conv, inst).sel;
      (sp.Keep? ==> s.screenplayId == st.sel.screenplayId) && (sp.Put? ==> s.screenplayId == sp.value)
      && (conv.Keep? ==> s.conversationId == st.sel.conversationId) && (conv.Put? ==> s.conversationId == conv.value)
      && (inst.Keep? ==> s.instanceId == st.sel.instanceId) && (inst.Put? ==> s.instanceId == inst.value)
  {
  }

  // ------------------------------------------------------------------ class

  class NavigationStateService {
    var screenplayId: Option<string>
    var conversationId: Option<string>
    var instanceId: Option<string>
    var saveQueue: seq<SaveItem>
    var deletedConversations: set<string>
    var sent: seq<SaveItem>
    var isProcessingQueue: bool

    function State(): NavState
      reads this
    {
      NavState(Selection(screenplayId, conversationId, instanceId), saveQueue, deletedConversations, sent, isProcessingQueue)
    }

    constructor ()
      ensures State() == InitialNav
    {
      screenplayId, conversationId, instanceId := None, None, None;
      saveQueue, deletedConversations, sent, isProcessingQueue := [], {}, [], false;
    }

    method EnqueueSave(sp: string, conv: Option<string>, inst: Option<string>)
      modifies this
      ensures State() == Enqueue(old(State()), SaveItem(sp, conv, inst))
    {
      if Truthy(conv) && conv.value in deletedConversations {
        return;
      }
      SendableAppend(saveQueue, SaveItem(sp, conv, inst), deletedConversations);
      saveQueue := saveQueue + [SaveItem(sp, conv, inst)];
      ProcessQueue();
    }

    method PersistAndUpdateUrl()
      modifies this
      ensures State() == Persist(old(State()))
    {
      if !Truthy(screenplayId) {
        return;
      }
      EnqueueSave(screenplayId.value, conversationId, instanceId);
    }

    /** `processQueue`: start the drain unless it is running or the queue is empty. */
    method ProcessQueue()
      modifies this
      ensures State() == StartDrain(old(State()))
    {
      if isProcessingQueue || |saveQueue| == 0 {
        return;
      }
      isProcessingQueue := true;
      ContinueDrain();
    }

    /**
     * The drain's `while` loop up to its next `await`: run by `processQueue`
     * after it sets the flag, and again each time the awaited PUT settles,
     * whether it succeeds or fails.
     */
    method ContinueDrain()
      requires isProcessingQueue
      modifies this
      ensures State() == Drain(old(State()))
    {
      while |saveQueue| > 0
        invariant isProcessingQueue
        invariant Drain(State()) == Drain(old(State()))
        decreases |saveQueue|
      {
        ghost var before := State();
        var item := saveQueue[0];
        saveQueue := saveQueue[1..];
        if Truthy(item.conversationId) && item.conversationId.value in deletedConversations {
          continue;
        }
        sent := sent + [item];
        assert State() == Drain(before);
        return;
      }
      isProcessingQueue := false;
    }

    method DeleteConversationState(sp: string, conv: string)
      modifies this
      ensures State() == AfterDelete(old(State()), conv)
    {
      deletedConversations := deletedConversations + {conv};
      saveQueue := Purge(saveQueue, conv);
    }

    method DeleteSettled(conv: string)
      modifies this
      ensures State() == AfterDeleteSettled(old(State()), conv)
    {
      deletedConversations := deletedConversations - {conv};
    }

    method SetScreenplay(id: Option<string>, saved: Option<SavedState>)
      modifies this
      ensures State() == AfterSetScreenplay(old(State()), id, saved)
    {
      var prev := screenplayId;
      if !Truthy(id) {
        screenplayId, conversationId, instanceId := None, None, None;
        return;
      }
      if Truthy(prev) && prev != id {
        EnqueueSave(prev.value, conversationId, instanceId);
      }
      screenplayId := id;
      conversationId := if saved.Some? then OrNull(saved.value.conversationId) else None;
      instanceId := if saved.Some? then OrNull(saved.value.instanceId) else None;
      EnqueueSave(id.value, conversationId, instanceId);
    }

    method SetConversation(conv: Option<string>, saved: Option<SavedState>) returns (restored: Option<string>)
      modifies this
      ensures (restored, State()) == AfterSetConversation(old(State()), conv, saved)
    {
      if !Truthy(screenplayId) {
        return None;
      }
      var prev := conversationId;
      if Truthy(prev) && prev != conv && Truthy(instanceId) {
        EnqueueSave(screenplayId.value, prev, instanceId);
      }
      if !Truthy(conv) {
        conversationId, instanceId := None, None;
        return None;
      }
      restored := if saved.Some? then OrNull(saved.value.instanceId) else None;
      conversationId, instanceId := conv, restored;
      EnqueueSave(screenplayId.value, conv, restored);
    }

    method SetConversationWithInstance(conv: Option<string>, inst: Option<string>)
      modifies this
      ensures State() == AfterSetConversationWithInstance(old(State()), conv, inst)
    {
      if !Truthy(screenplayId) {
        return;
      }
      var prev := conversationId;
      if Truthy(prev) && prev != conv {
        EnqueueSave(screenplayId.value, prev, instanceId);
      }
      conversationId, instanceId := conv, inst;
      PersistAndUpdateUrl();
    }

    method SetInstance(inst: Option<string>)
      modifies this
      ensures State() == AfterSetInstance(old(State()), inst)
    {
      if !Truthy(screenplayId) {
        return;
      }
      instanceId := inst;
      PersistAndUpdateUrl();
    }

    method SetScreenplayPreservingSelections(id: Option<string>)
      modifies this
      ensures State() == AfterSetScreenplayPreserving(old(State()), id)
    {
      if !Truthy(id) {
        return;
      }
      screenplayId := id;
      PersistAndUpdateUrl();
    }

    method SetState(sp: Patch, conv: Patch, inst: Patch)
      modifies this
      ensures State() == AfterSetState(old(State()), sp, conv, inst)
    {
      if sp.Put? {
        screenplayId := sp.value;
      }
      if conv.Put? {
        conversationId := conv.value;
      }
      if inst.Put? {
        instanceId := inst.value;
      }
      PersistAndUpdateUrl();
    }
  }
}
