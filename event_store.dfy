/**
 * The append-only log of screenplay events. Every event carries an id and a
 * timestamp that `createEvent` draws from `crypto.randomUUID()` and
 * `Date.now()`; here the caller supplies both.
 */
module EventStore {

  /**
   * The payload of an event. `TITLE_ADDED` events carry a title and an
   * insertion position; any other payload is a record of named fields.
   */
  datatype Payload = TitleAdded(title: string, position: int) | Fields(fields: map<string, string>)

  datatype ScreenplayEvent = ScreenplayEvent(id: string, timestamp: int, eventType: string, payload: Payload)

  /** `createEvent(type, payload)` with the id and the clock reading given. */
  function CreateEvent(eventType: string, payload: Payload, id: string, now: int): ScreenplayEvent {
    ScreenplayEvent(id, now, eventType, payload)
  }

  class EventStoreService {
    var events: seq<ScreenplayEvent>

    /** The log starts empty. */
    constructor ()
      ensures events == []
    {
      events := [];
    }

    /** `append(event)`: the event goes to the end of the log; nothing before it changes. */
    method Append(event: ScreenplayEvent)
      modifies this
      ensures events == old(events) + [event]
    {
      events := events + [event];
    }

    /** `getAllEvents()`: the whole log in append order (a value, so a copy). */
    method GetAllEvents() returns (r: seq<ScreenplayEvent>)
      ensures r == events
    {
      r := events;
    }
  }

  /** Appending to a fresh log and reading it back gives the one event, type and payload unchanged. */
  method AppendReadBack(event: ScreenplayEvent) returns (r: seq<ScreenplayEvent>)
    ensures |r| == 1 && r[0].eventType == event.eventType && r[0].payload == event.payload
  {
    var store := new EventStoreService();
    var before := store.GetAllEvents();
    assert before == [];
    store.Append(event);
    r := store.GetAllEvents();
  }
}
