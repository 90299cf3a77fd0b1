/**
 * The gamification event feed: a list of at most 50 events, and the success
 * events derived from agent metrics whenever an agent's execution total grows.
 */
module GamificationEvents {
  import opened Wrappers
  import opened JsText
  import opened OrderedMap
  import opened AgentMetrics
  import opened AgentPersonalization

  const MaxEvents: nat := 50

  datatype Severity = Info | Warning | Error

  datatype Category = Build | Critical | Analysis | Success | Alert

  /** The metadata of a success event; the free-form metadata of other events is not modelled. */
  datatype ExecutionMeta = ExecutionMeta(agentId: string, totalExecutions: int, lastExecutionTime: Option<int>)

  /** An event; its random id and clock timestamp are not modelled. */
  datatype GamificationEvent = GamificationEvent(
    title: string, severity: Severity, category: Option<Category>, meta: Option<ExecutionMeta>)

  datatype FeedState = FeedState(events: seq<GamificationEvent>, lastTotals: map<string, int>)

  const NoDataTitle := "Sem dados de agentes ainda — aguardando sincronização"

  const NoDataEvent := GamificationEvent(NoDataTitle, Warning, Some(Alert), None)

  /** `pushEvent(event)`: appended, then only the newest 50 kept. */
  function Pushed(list: seq<GamificationEvent>, e: GamificationEvent): seq<GamificationEvent> {
    var l := list + [e];
    if |l| > MaxEvents then l[|l| - MaxEvents..] else l
  }

  function Reverse<T>(s: seq<T>): (r: seq<T>)
    ensures |r| == |s| && forall k :: 0 <= k < |s| ==> r[k] == s[|s| - 1 - k]
  {
    seq(|s|, k requires 0 <= k < |s| => s[|s| - 1 - k])
  }

  /** `getRecent(limit)`: `list.slice(-limit).reverse()`. */
  function Recent(list: seq<GamificationEvent>, limit: int): seq<GamificationEvent> {
    Reverse(Slice(list, -limit, |list|))
  }

  /** `concluiu N execuções` or `concluiu uma execução`. */
  function ActionText(delta: int): string {
    if delta > 1 then "concluiu " + IntToString(delta) + " execuções" else "concluiu uma execução"
  }

  /** `humanizeExecution(agentId, delta)` with the agent's profile. */
  function Humanized(profile: AgentProfile, delta: int): string {
    profile.emoji + " " + Split(profile.role, ' ')[0] + " " + profile.displayName + " " + ActionText(delta)
  }

  function SuccessEvent(profile: AgentProfile, agentId: string, total: int, m: Metrics, prev: int): GamificationEvent {
    GamificationEvent(Humanized(profile, total - prev), Info, Some(Success),
                      Some(ExecutionMeta(agentId, total, m.lastExecutionTime)))
  }

  /** `lastTotalsByAgentId.get(id) ?? 0`. */
  function PrevTotal(lastTotals: map<string, int>, agentId: string): int {
    if agentId in lastTotals then lastTotals[agentId] else 0
  }

  /** One iteration of the loop of `deriveExecutionEvents`. */
  function DeriveEntry(st: FeedState, e: Entry, profiles: Entries<AgentProfile>): FeedState {
    var prev := PrevTotal(st.lastTotals, e.agentId);
    var total := Max0(e.metrics.totalExecutions);
    var events :=
      if total > prev then Pushed(st.events, SuccessEvent(ProfileFrom(profiles, e.agentId), e.agentId, total, e.metrics, prev))
      else st.events;
    FeedState(events, st.lastTotals[e.agentId := total])
  }

  /** The loop of `deriveExecutionEvents` over the metrics entries in map order. */
  function DeriveAll(st: FeedState, entries: seq<Entry>, profiles: Entries<AgentProfile>): FeedState {
    if entries == [] then st
    else DeriveEntry(DeriveAll(st, entries[..|entries| - 1], profiles), entries[|entries| - 1], profiles)
  }

  /** `deriveExecutionEvents(metricsMap)`: the loop, then the warning for an empty map and an empty feed. */
  function Derived(st: FeedState, entries: seq<Entry>, profiles: Entries<AgentProfile>): FeedState {
    var s := DeriveAll(st, entries, profiles);
    if |entries| == 0 && |s.events| == 0 then s.(events := Pushed(s.events, NoDataEvent)) else s
  }

  // ----------------------------------------------------------------- lemmas

  /** The feed never holds more than 50 events; the new one is last and the rest are the newest old ones. */
  lemma PushedFacts(list: seq<GamificationEvent>, e: GamificationEvent)
    ensures var r := Pushed(list, e);
      |r| <= MaxEvents && |r| > 0 && r[|r| - 1] == e
      && r[..|r| - 1] == list[|list| - (|r| - 1)..]
    ensures |list| < MaxEvents ==> Pushed(list, e) == list + [e]
    ensures |list| >= MaxEvents ==> |Pushed(list, e)| == MaxEvents
  {
    var l := list + [e];
    var r := Pushed(list, e);
    if |l| > MaxEvents {
      assert r[..|r| - 1] == l[|l| - MaxEvents..|l| - 1];
    }
  }

  /** `getRecent(n)`: the newest events, newest first; for a positive `n` the newest `n` (or all). */
  lemma RecentNewestFirst(list: seq<GamificationEvent>, limit: int)
    ensures var r := Recent(list, limit);
      |r| == RecentCount(|list|, limit)
      && forall k :: 0 <= k < |r| ==> r[k] == list[|list| - 1 - k]
  {
    var start := SliceIndex(-limit, |list|);
    assert Slice(list, -limit, |list|) == list[start..];
  }

  /**
   * How many events `slice(-limit)` keeps of `n`: the last `limit` for a
   * positive limit, and for zero or a negative one all but the first `-limit`.
   */
  function RecentCount(n: nat, limit: int): nat {
    if limit > 0 then (if limit < n then limit else n)
    else if -limit < n then n + limit else 0
  }

  /** `getRecent(0)` reads `slice(-0)`, which is `slice(0)`: the whole feed, reversed. */
  lemma RecentZeroIsWholeFeed(list: seq<GamificationEvent>)
    ensures Recent(list, 0) == Reverse(list)
  {
    assert Slice(list, 0, |list|) == list;
  }

  /**
   * One agent: its new total is the clamped `totalExecutions`; a success event
   * is pushed exactly when that total exceeds the last one seen.
   */
  lemma DeriveEntryFacts(st: FeedState, e: Entry, profiles: Entries<AgentProfile>)
    ensures var r := DeriveEntry(st, e, profiles);
      var total := Max0(e.metrics.totalExecutions);
      var prev := PrevTotal(st.lastTotals, e.agentId);
      e.agentId in r.lastTotals && r.lastTotals[e.agentId] == total && total >= 0
      && (forall id :: id in st.lastTotals && id != e.agentId ==> id in r.lastTotals && r.lastTotals[id] == st.lastTotals[id])
      && (total > prev ==> r.events == Pushed(st.events, SuccessEvent(ProfileFrom(profiles, e.agentId), e.agentId, total, e.metrics, prev)))
      && (total <= prev ==> r.events == st.events)
  {
  }

  /** The success event names the agent and says how many new executions it saw: one, or the count. */
  lemma SuccessTitleFacts(profile: AgentProfile, delta: int)
    ensures delta <= 1 ==> EndsWith(Humanized(profile, delta), "concluiu uma execução")
    ensures delta > 1 ==> EndsWith(Humanized(profile, delta), "concluiu " + IntToString(delta) + " execuções")
    ensures StartsWith(Humanized(profile, delta), profile.emoji + " ")
  {
    var head := profile.emoji + " ";
    var mid := Split(profile.role, ' ')[0] + " " + profile.displayName + " ";
    HumanizedParts(profile, delta, head, mid, ActionText(delta));
    ConcatEnds(head + mid, ActionText(delta));
    assert (head + mid) + ActionText(delta) == head + (mid + ActionText(delta));
    ConcatEnds(head, mid + ActionText(delta));
  }

  /** The message is the emoji, the role's first word and the name, each followed by a space, then the action. */
  lemma HumanizedParts(profile: AgentProfile, delta: int, head: string, mid: string, a: string)
    requires head == profile.emoji + " "
    requires mid == Split(profile.role, ' ')[0] + " " + profile.displayName + " "
    requires a == ActionText(delta)
    ensures Humanized(profile, delta) == (head + mid) + a
  {
  }

  /** The "no data" warning is pushed exactly when the metrics map and the feed are both empty. */
  lemma NoDataWarningIff(st: FeedState, entries: seq<Entry>, profiles: Entries<AgentProfile>)
    ensures entries == [] && st.events == [] ==> Derived(st, entries, profiles).events == [NoDataEvent]
    ensures entries == [] && st.events != [] ==> Derived(st, entries, profiles) == st
    ensures entries != [] ==> Derived(st, entries, profiles) == DeriveAll(st, entries, profiles)
  {
  }

  /** Deriving again from unchanged metrics pushes nothing new. */
  lemma {:induction false} RederiveSameTotalsIsQuiet(st: FeedState, e: Entry, profiles: Entries<AgentProfile>)
    ensures var once := DeriveEntry(st, e, profiles);
      DeriveEntry(once, e, profiles).events == once.events
  {
  }

  // ------------------------------------------------------------------ class

  class GamificationEventsService {
    var events: seq<GamificationEvent>
    var lastTotals: map<string, int>
    const personalization: AgentPersonalizationService

    function State(): FeedState
      reads this
    {
      FeedState(events, lastTotals)
    }

    constructor (personalization: AgentPersonalizationService)
      ensures events == [] && lastTotals == map[] && this.personalization == personalization
    {
      events := [];
      lastTotals := map[];
      this.personalization := personalization;
    }

    function GetRecent(limit: int): (r: seq<GamificationEvent>)
      reads this
      ensures |r| == RecentCount(|events|, limit)
      ensures forall k :: 0 <= k < |r| ==> r[k] == events[|events| - 1 - k]
    {
      RecentNewestFirst(events, limit);
      Recent(events, limit)
    }

    method PushEvent(e: GamificationEvent)
      modifies this
      ensures events == Pushed(old(events), e) && lastTotals == old(lastTotals)
    {
      var list := events + [e];
      if |list| > MaxEvents {
        events := list[|list| - MaxEvents..];
      } else {
        events := list;
      }
    }

    /** `deriveExecutionEvents(metricsMap)`, profiles read from the loaded personalization cache. */
    method DeriveExecutionEvents(metricsMap: seq<Entry>)
      requires personalization.Valid()
      modifies this, personalization
      ensures personalization.initialized && personalization.Valid()
      ensures State() == Derived(old(State()), metricsMap, personalization.cache)
    {
      personalization.EnsureLoaded();
      ghost var profiles := personalization.cache;
      for i := 0 to |metricsMap|
        invariant State() == DeriveAll(old(State()), metricsMap[..i], profiles)
        invariant personalization.initialized && personalization.Valid() && personalization.cache == profiles
      {
        var agentId := metricsMap[i].agentId;
        var metrics := metricsMap[i].metrics;
        var prevTotal := if agentId in lastTotals then lastTotals[agentId] else 0;
        var currentTotal := Max0(metrics.totalExecutions);
        if currentTotal > prevTotal {
          var profile := personalization.GetProfile(agentId);
          PushEvent(SuccessEvent(profile, agentId, currentTotal, metrics, prevTotal));
        }
        lastTotals := lastTotals[agentId := currentTotal];
        assert metricsMap[..i + 1][..i] == metricsMap[..i];
      }
      assert metricsMap[..|metricsMap|] == metricsMap;
      if |metricsMap| == 0 && |events| == 0 {
        PushEvent(NoDataEvent);
      }
    }

    method PushBuildEvent(message: string)
      modifies this
      ensures events == Pushed(old(events), GamificationEvent("\U{1F3D7}\U{FE0F} " + message, Info, Some(Build), None))
      ensures lastTotals == old(lastTotals)
    {
      PushEvent(GamificationEvent("\U{1F3D7}\U{FE0F} " + message, Info, Some(Build), None));
    }

    method PushCriticalEvent(message: string)
      modifies this
      ensures events == Pushed(old(events), GamificationEvent("\U{1F525} " + message, Error, Some(Critical), None))
      ensures lastTotals == old(lastTotals)
    {
      PushEvent(GamificationEvent("\U{1F525} " + message, Error, Some(Critical), None));
    }

    method PushAnalysisEvent(message: string)
      modifies this
      ensures events == Pushed(old(events), GamificationEvent("\U{1F4CA} " + message, Info, Some(Analysis), None))
      ensures lastTotals == old(lastTotals)
    {
      PushEvent(GamificationEvent("\U{1F4CA} " + message, Info, Some(Analysis), None));
    }
  }
}
