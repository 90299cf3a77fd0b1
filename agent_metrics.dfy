/**
 * Per-agent execution metrics: a start time per running agent, a count,
 * total and average execution time per agent, the pending update queue and
 * global statistics.
 *
 * The metrics map is a sequence of entries with distinct agent ids, in
 * insertion order (the order `Map` iterates in). Times are whole
 * milliseconds; the clock reading is a parameter.
 */
module AgentMetrics {
  import opened Wrappers

  datatype Metrics = Metrics(totalExecutions: int, totalExecutionTime: int, averageExecutionTime: int,
                             lastExecutionTime: Option<int>, isCurrentlyExecuting: bool)

  datatype Entry = Entry(agentId: string, metrics: Metrics)

  datatype Action = StartAction | EndAction

  datatype QueuedUpdate = QueuedUpdate(agentId: string, action: Action)

  datatype MetricsState = MetricsState(entries: seq<Entry>, startTimes: map<string, int>, updateQueue: seq<QueuedUpdate>)

  const ZeroMetrics := Metrics(0, 0, 0, None, false)

  const EmptyMetrics := MetricsState([], map[], [])

  function Max0(x: int): (r: int)
    ensures r >= 0 && r >= x && (x >= 0 ==> r == x)
  {
    if x < 0 then 0 else x
  }

  // ---------------------------------------------------------------- entries

  predicate DistinctIds(es: seq<Entry>) {
    forall i, j :: 0 <= i < j < |es| ==> es[i].agentId != es[j].agentId
  }

  /** The position of the agent's entry, if it has one. */
  function FindIndex(es: seq<Entry>, id: string): (r: Option<nat>)
    ensures r.Some? ==> r.value < |es| && es[r.value].agentId == id
    ensures r.Some? ==> forall j :: 0 <= j < r.value ==> es[j].agentId != id
    ensures r.None? ==> forall j :: 0 <= j < |es| ==> es[j].agentId != id
  {
    if es == [] then None
    else if es[0].agentId == id then Some(0)
    else match FindIndex(es[1..], id)
      case None => None
      case Some(k) => Some(k + 1)
  }

  /** `metrics.get(id)`. */
  function Lookup(es: seq<Entry>, id: string): (r: Option<Metrics>)
    ensures r.Some? <==> exists i :: 0 <= i < |es| && es[i].agentId == id
    ensures r.Some? ==> exists i :: 0 <= i < |es| && es[i] == Entry(id, r.value)
  {
    match FindIndex(es, id)
    case None => None
    case Some(k) => Some(es[k].metrics)
  }

  /** Sequences with the same ids at the same positions find every id at the same place. */
  lemma FindIndexSameIds(a: seq<Entry>, b: seq<Entry>, id: string)
    requires |a| == |b| && forall j :: 0 <= j < |a| ==> a[j].agentId == b[j].agentId
    ensures FindIndex(a, id) == FindIndex(b, id)
  {
    var fa, fb := FindIndex(a, id), FindIndex(b, id);
    if fa.Some? {
      assert b[fa.value].agentId == id;
    }
    if fb.Some? {
      assert a[fb.value].agentId == id;
    }
  }

  /** `metrics.set(id, m)`: replace the entry in place, or append a new one. */
  function SetEntry(es: seq<Entry>, id: string, m: Metrics): (r: seq<Entry>)
    ensures Lookup(r, id) == Some(m)
    ensures forall k :: k != id ==> Lookup(r, k) == Lookup(es, k)
    ensures DistinctIds(es) ==> DistinctIds(r)
    ensures |r| == |es| || |r| == |es| + 1
  {
    match FindIndex(es, id)
    case Some(k) =>
      ReplacedEntryFacts(es, k, id, m);
      es[k := Entry(id, m)]
    case None =>
      AppendedEntryFacts(es, id, m);
      es + [Entry(id, m)]
  }

  /** Overwriting the entry found for `id` keeps every position of every id. */
  lemma ReplacedEntryFacts(es: seq<Entry>, k: nat, id: string, m: Metrics)
    requires FindIndex(es, id) == Some(k)
    ensures var r := es[k := Entry(id, m)];
      Lookup(r, id) == Some(m) && (forall other :: other != id ==> Lookup(r, other) == Lookup(es, other))
      && (DistinctIds(es) ==> DistinctIds(r))
  {
    var r := es[k := Entry(id, m)];
    forall other ensures FindIndex(r, other) == FindIndex(es, other) {
      FindIndexSameIds(r, es, other);
    }
  }

  /** Appending an entry for an id not yet present finds it at the end and every other id where it was. */
  lemma AppendedEntryFacts(es: seq<Entry>, id: string, m: Metrics)
    requires FindIndex(es, id) == None
    ensures var r := es + [Entry(id, m)];
      Lookup(r, id) == Some(m) && (forall other :: other != id ==> Lookup(r, other) == Lookup(es, other))
      && (DistinctIds(es) ==> DistinctIds(r))
  {
    var r := es + [Entry(id, m)];
    assert FindIndex(r, id) == Some(|es|) by {
      assert r[|es|].agentId == id;
    }
    forall other | other != id ensures FindIndex(r, other) == FindIndex(es, other) {
      AppendKeepsOther(es, Entry(id, m), other);
    }
    if DistinctIds(es) {
      AppendKeepsDistinct(es, Entry(id, m));
    }
  }

  /** Appending an entry for another id leaves where `other` is found unchanged. */
  lemma AppendKeepsOther(es: seq<Entry>, e: Entry, other: string)
    requires e.agentId != other
    ensures FindIndex(es + [e], other) == FindIndex(es, other)
  {
    var r := es + [e];
    var fr, fe := FindIndex(r, other), FindIndex(es, other);
    if fe.Some? {
      assert r[fe.value].agentId == other;
    }
    if fr.Some? {
      assert fr.value < |es|;
      assert es[fr.value].agentId == other;
    }
  }

  /** Appending an entry for an id not yet present keeps the ids distinct. */
  lemma AppendKeepsDistinct(es: seq<Entry>, e: Entry)
    requires DistinctIds(es) && FindIndex(es, e.agentId) == None
    ensures DistinctIds(es + [e])
  {
    var r := es + [e];
    forall i, j | 0 <= i < j < |r| ensures r[i].agentId != r[j].agentId {
      if j == |es| {
        assert es[i].agentId != e.agentId;
      }
    }
  }

  /** `getCurrentMetrics(id)`: the stored metrics, or all zeros. */
  function CurrentMetrics(st: MetricsState, id: string): Metrics {
    Lookup(st.entries, id).GetOr(ZeroMetrics)
  }

  /** Every stored number is a non-negative whole number. */
  predicate ValidMetrics(m: Metrics) {
    m.totalExecutions >= 0 && m.totalExecutionTime >= 0 && m.averageExecutionTime >= 0
  }

  predicate Valid(st: MetricsState) {
    DistinctIds(st.entries) && forall i :: 0 <= i < |st.entries| ==> ValidMetrics(st.entries[i].metrics)
  }

  // ------------------------------------------------------------- operations

  /** The numeric checks of `updateMetrics`: floor (whole numbers already) and clamp at 0. */
  function Validated(m: Metrics): (r: Metrics)
    ensures ValidMetrics(r)
    ensures r.totalExecutions == Max0(m.totalExecutions) && r.totalExecutionTime == Max0(m.totalExecutionTime)
    ensures r.averageExecutionTime == Max0(m.averageExecutionTime)
    ensures r.lastExecutionTime == m.lastExecutionTime && r.isCurrentlyExecuting == m.isCurrentlyExecuting
  {
    Metrics(Max0(m.totalExecutions), Max0(m.totalExecutionTime), Max0(m.averageExecutionTime),
            m.lastExecutionTime, m.isCurrentlyExecuting)
  }

  /** `updateMetrics(id, m)`; an empty id is refused. */
  function AfterUpdateMetrics(st: MetricsState, id: string, m: Metrics): MetricsState {
    if id == "" then st else st.(entries := SetEntry(st.entries, id, Validated(m)))
  }

  /** `startExecution(id)` at time `now`. */
  function AfterStart(st: MetricsState, id: string, now: int): MetricsState {
    if id == "" || id in st.startTimes then st
    else
      var s1 := st.(startTimes := st.startTimes[id := now]);
      AfterUpdateMetrics(s1, id, CurrentMetrics(s1, id).(isCurrentlyExecuting := true))
  }

  /** The metrics `endExecution` computes after a run of `elapsed` milliseconds. */
  function Ended(current: Metrics, elapsed: int, now: int): (r: Metrics)
    ensures r.totalExecutions == Max0(current.totalExecutions + 1)
    ensures r.totalExecutionTime == Max0(current.totalExecutionTime + elapsed)
    ensures r.totalExecutions > 0 ==> r.averageExecutionTime == r.totalExecutionTime / r.totalExecutions
    ensures !r.isCurrentlyExecuting && r.lastExecutionTime == Some(now)
  {
    var count := Max0(current.totalExecutions + 1);
    var total := Max0(current.totalExecutionTime + elapsed);
    Metrics(count, total, if count > 0 then total / count else 0, Some(now), false)
  }

  /** `endExecution(id)` at time `now`; a missing (or zero) start time means nothing is tracked. */
  function AfterEnd(st: MetricsState, id: string, now: int): MetricsState {
    if id == "" || id !in st.startTimes || st.startTimes[id] == 0 then st
    else
      var elapsed := now - st.startTimes[id];
      var s1 := st.(startTimes := st.startTimes - {id});
      AfterUpdateMetrics(s1, id, Ended(CurrentMetrics(s1, id), elapsed, now))
  }

  /** `resetMetrics(id)`. */
  function AfterReset(st: MetricsState, id: string): MetricsState {
    AfterUpdateMetrics(st, id, ZeroMetrics)
  }

  /** `updateQueue.filter(u => u.agentId !== id)`. */
  function DropAgent(q: seq<QueuedUpdate>, id: string): (r: seq<QueuedUpdate>)
    ensures forall i :: 0 <= i < |r| ==> r[i].agentId != id && r[i] in q
    ensures forall u :: u in q && u.agentId != id ==> u in r
  {
    if q == [] then []
    else if q[0].agentId == id then DropAgent(q[1..], id)
    else [q[0]] + DropAgent(q[1..], id)
  }

  /** `addToUpdateQueue(id, action)`: drop the agent's earlier update, append the new one. */
  function Enqueued(q: seq<QueuedUpdate>, id: string, action: Action): seq<QueuedUpdate> {
    DropAgent(q, id) + [QueuedUpdate(id, action)]
  }

  predicate OnePerAgent(q: seq<QueuedUpdate>) {
    forall i, j :: 0 <= i < j < |q| ==> q[i].agentId != q[j].agentId
  }

  /** The entries of agents in the active list, in order. */
  function KeepActive(es: seq<Entry>, active: set<string>): (r: seq<Entry>)
    ensures |r| <= |es|
    ensures forall i :: 0 <= i < |r| ==> r[i] in es && r[i].agentId in active
    ensures forall e :: e in es && e.agentId in active ==> e in r
  {
    if es == [] then []
    else if es[0].agentId in active then [es[0]] + KeepActive(es[1..], active)
    else KeepActive(es[1..], active)
  }

  function IdsOf(es: seq<Entry>): set<string> {
    set i | 0 <= i < |es| :: es[i].agentId
  }

  /** `cleanupOrphanedMetrics(active)`: forget every agent not in the list, and its start time. */
  function AfterCleanup(st: MetricsState, active: seq<string>): MetricsState {
    var activeIds := set a | a in active;
    st.(entries := KeepActive(st.entries, activeIds),
        startTimes := st.startTimes - (IdsOf(st.entries) - activeIds))
  }

  function SumExecutions(es: seq<Entry>): int {
    if es == [] then 0 else SumExecutions(es[..|es| - 1]) + es[|es| - 1].metrics.totalExecutions
  }

  function SumTime(es: seq<Entry>): int {
    if es == [] then 0 else SumTime(es[..|es| - 1]) + es[|es| - 1].metrics.totalExecutionTime
  }

  // ----------------------------------------------------------------- lemmas

  lemma EmptyValid()
    ensures Valid(EmptyMetrics)
  {
  }

  lemma UpdateKeepsValid(st: MetricsState, id: string, m: Metrics)
    requires Valid(st)
    ensures Valid(AfterUpdateMetrics(st, id, m))
  {
    if id != "" {
      var es := SetEntry(st.entries, id, Validated(m));
      forall i | 0 <= i < |es| ensures ValidMetrics(es[i].metrics) {
        var k := es[i].agentId;
        if k != id {
          assert Lookup(es, k) == Lookup(st.entries, k);
          LookupOfDistinct(es, i);
          var j :| 0 <= j < |st.entries| && st.entries[j] == Entry(k, Lookup(st.entries, k).value);
        } else {
          LookupOfDistinct(es, i);
        }
      }
    }
  }

  lemma LookupOfDistinct(es: seq<Entry>, i: nat)
    requires DistinctIds(es) && i < |es|
    ensures Lookup(es, es[i].agentId) == Some(es[i].metrics)
  {
    if i > 0 {
      assert es[0].agentId != es[i].agentId;
      assert es[1..][i - 1] == es[i];
      LookupOfDistinct(es[1..], i - 1);
    }
  }

  /** `updateMetrics` stores the numbers clamped at 0 and touches no other agent. */
  lemma UpdateClamps(st: MetricsState, id: string, m: Metrics)
    requires id != ""
    ensures CurrentMetrics(AfterUpdateMetrics(st, id, m), id) == Validated(m)
    ensures CurrentMetrics(AfterUpdateMetrics(st, id, m), id).totalExecutions == Max0(m.totalExecutions)
    ensures forall k :: k != id ==> CurrentMetrics(AfterUpdateMetrics(st, id, m), k) == CurrentMetrics(st, k)
  {
  }

  /** A second `startExecution` while the agent is tracked is ignored. */
  lemma DuplicateStartIgnored(st: MetricsState, id: string, now: int)
    requires id in st.startTimes
    ensures AfterStart(st, id, now) == st
  {
  }

  /** A first `startExecution` records the start time and marks the agent as executing, counts kept. */
  lemma StartTracks(st: MetricsState, id: string, now: int)
    requires Valid(st) && id != "" && id !in st.startTimes
    ensures var r := AfterStart(st, id, now);
      r.startTimes == st.startTimes[id := now] && CurrentMetrics(r, id).isCurrentlyExecuting
      && CurrentMetrics(r, id).totalExecutions == CurrentMetrics(st, id).totalExecutions
      && CurrentMetrics(r, id).totalExecutionTime == CurrentMetrics(st, id).totalExecutionTime
  {
    match Lookup(st.entries, id)
    case None =>
    case Some(m) =>
      var i :| 0 <= i < |st.entries| && st.entries[i] == Entry(id, m);
      assert ValidMetrics(st.entries[i].metrics);
  }

  /** `endExecution` without a tracked start is ignored. */
  lemma EndWithoutStartIgnored(st: MetricsState, id: string, now: int)
    requires id !in st.startTimes
    ensures AfterEnd(st, id, now) == st
  {
  }

  /**
   * `endExecution` adds one run and its elapsed time, stores the mean (whole
   * milliseconds, rounded down), clears the executing flag and forgets the start.
   */
  lemma EndAccumulates(st: MetricsState, id: string, now: int)
    requires Valid(st) && id != "" && id in st.startTimes && st.startTimes[id] != 0
    ensures var r := AfterEnd(st, id, now);
      var before := CurrentMetrics(st, id);
      var after := CurrentMetrics(r, id);
      after.totalExecutions == before.totalExecutions + 1
      && after.totalExecutionTime == Max0(before.totalExecutionTime + (now - st.startTimes[id]))
      && after.averageExecutionTime == after.totalExecutionTime / after.totalExecutions
      && !after.isCurrentlyExecuting && id !in r.startTimes
  {
    match Lookup(st.entries, id)
    case None =>
    case Some(m) =>
      var i :| 0 <= i < |st.entries| && st.entries[i] == Entry(id, m);
      assert ValidMetrics(st.entries[i].metrics);
  }

  lemma {:induction false} DropAgentKeepsOnePerAgent(q: seq<QueuedUpdate>, id: string)
    requires OnePerAgent(q)
    ensures OnePerAgent(DropAgent(q, id))
  {
    if q != [] {
      DropAgentKeepsOnePerAgent(q[1..], id);
      var tail := DropAgent(q[1..], id);
      if q[0].agentId != id {
        forall j | 0 <= j < |tail| ensures q[0].agentId != tail[j].agentId {
          assert tail[j] in q[1..];
        }
      }
    }
  }

  /** The update queue holds at most one update per agent, and the agent's latest wins. */
  lemma UpdateQueueLastWins(q: seq<QueuedUpdate>, id: string, action: Action)
    requires OnePerAgent(q)
    ensures OnePerAgent(Enqueued(q, id, action))
    ensures var r := Enqueued(q, id, action);
      r[|r| - 1] == QueuedUpdate(id, action)
      && forall i :: 0 <= i < |r| - 1 ==> r[i].agentId != id
  {
    DropAgentKeepsOnePerAgent(q, id);
  }

  lemma InIdsOf(es: seq<Entry>, k: string)
    ensures k in IdsOf(es) <==> Lookup(es, k).Some?
  {
    if k in IdsOf(es) {
      var i :| 0 <= i < |es| && es[i].agentId == k;
    }
  }

  /** Cleanup keeps exactly the agents that are both tracked and active. */
  lemma CleanupKeepsExactlyActive(st: MetricsState, active: seq<string>, k: string)
    ensures (exists i :: 0 <= i < |AfterCleanup(st, active).entries| && AfterCleanup(st, active).entries[i].agentId == k)
      <==> (exists i :: 0 <= i < |st.entries| && st.entries[i].agentId == k) && k in active
    ensures k in active && k in st.startTimes ==> k in AfterCleanup(st, active).startTimes
  {
    var r := AfterCleanup(st, active).entries;
    if exists i :: 0 <= i < |st.entries| && st.entries[i].agentId == k {
      if k in active {
        var i :| 0 <= i < |st.entries| && st.entries[i].agentId == k;
        assert st.entries[i] in r;
        var j :| 0 <= j < |r| && r[j] == st.entries[i];
      }
    }
    if exists i :: 0 <= i < |r| && r[i].agentId == k {
      var i :| 0 <= i < |r| && r[i].agentId == k;
      assert r[i] in st.entries;
    }
  }

  /** Cleanup removes the start times of exactly the untracked-now agents and keeps validity. */
  lemma CleanupKeepsValid(st: MetricsState, active: seq<string>)
    requires Valid(st)
    ensures Valid(AfterCleanup(st, active))
  {
    var r := KeepActive(st.entries, set a | a in active);
    KeepActiveDistinct(st.entries, set a | a in active);
    forall i | 0 <= i < |r| ensures ValidMetrics(r[i].metrics) {
      assert r[i] in st.entries;
    }
  }

  lemma {:induction false} KeepActiveDistinct(es: seq<Entry>, active: set<string>)
    requires DistinctIds(es)
    ensures DistinctIds(KeepActive(es, active))
  {
    if es != [] {
      KeepActiveDistinct(es[1..], active);
      var tail := KeepActive(es[1..], active);
      if es[0].agentId in active {
        forall j | 0 <= j < |tail| ensures es[0].agentId != tail[j].agentId {
          assert tail[j] in es[1..];
        }
      }
    }
  }

  /** Summed over valid entries, the global totals are non-negative. */
  lemma {:induction false} SumsNonNegative(es: seq<Entry>)
    requires forall i :: 0 <= i < |es| ==> ValidMetrics(es[i].metrics)
    ensures SumExecutions(es) >= 0 && SumTime(es) >= 0
  {
    if es != [] {
      SumsNonNegative(es[..|es| - 1]);
    }
  }

  /** Each agent's count is at most the global count. */
  lemma {:induction false} EachAtMostSum(es: seq<Entry>, i: nat)
    requires forall j :: 0 <= j < |es| ==> ValidMetrics(es[j].metrics)
    requires i < |es|
    ensures es[i].metrics.totalExecutions <= SumExecutions(es)
  {
    var init := es[..|es| - 1];
    if i < |es| - 1 {
      EachAtMostSum(init, i);
    } else {
      SumsNonNegative(init);
    }
  }

  // ------------------------------------------------------------------ class

  class AgentMetricsService {
    var entries: seq<Entry>
    var executionStartTimes: map<string, int>
    var updateQueue: seq<QueuedUpdate>

    function State(): MetricsState
      reads this
    {
      MetricsState(entries, executionStartTimes, updateQueue)
    }

    constructor ()
      ensures State() == EmptyMetrics
    {
      entries, executionStartTimes, updateQueue := [], map[], [];
    }

    method UpdateMetrics(id: string, m: Metrics)
      modifies this
      ensures State() == AfterUpdateMetrics(old(State()), id, m)
    {
      if id == "" {
        return;
      }
      entries := SetEntry(entries, id, Validated(m));
    }

    method StartExecution(id: string, now: int)
      modifies this
      ensures State() == AfterStart(old(State()), id, now)
    {
      if id == "" || id in executionStartTimes {
        return;
      }
      executionStartTimes := executionStartTimes[id := now];
      var current := CurrentMetrics(State(), id);
      UpdateMetrics(id, current.(isCurrentlyExecuting := true));
    }

    method EndExecution(id: string, now: int)
      modifies this
      ensures State() == AfterEnd(old(State()), id, now)
    {
      if id == "" || id !in executionStartTimes || executionStartTimes[id] == 0 {
        return;
      }
      var elapsed := now - executionStartTimes[id];
      executionStartTimes := executionStartTimes - {id};
      var current := CurrentMetrics(State(), id);
      UpdateMetrics(id, Ended(current, elapsed, now));
    }

    method ResetMetrics(id: string)
      modifies this
      ensures State() == AfterReset(old(State()), id)
    {
      UpdateMetrics(id, ZeroMetrics);
    }

    method AddToUpdateQueue(id: string, action: Action)
      modifies this
      ensures State() == old(State()).(updateQueue := Enqueued(old(updateQueue), id, action))
    {
      updateQueue := DropAgent(updateQueue, id) + [QueuedUpdate(id, action)];
    }

    method CleanupOrphanedMetrics(active: seq<string>)
      modifies this
      ensures State() == AfterCleanup(old(State()), active)
    {
      var activeIds := set a | a in active;
      executionStartTimes := executionStartTimes - (IdsOf(entries) - activeIds);
      entries := KeepActive(entries, activeIds);
    }

    /** `getGlobalStats()`: the number of agents and the summed counts and times. */
    method GetGlobalStats() returns (totalAgents: int, totalExecutions: int, totalExecutionTime: int)
      ensures totalAgents == |entries|
      ensures totalExecutions == SumExecutions(entries) && totalExecutionTime == SumTime(entries)
    {
      totalAgents, totalExecutions, totalExecutionTime := 0, 0, 0;
      for i := 0 to |entries|
        invariant totalAgents == i
        invariant totalExecutions == SumExecutions(entries[..i])
        invariant totalExecutionTime == SumTime(entries[..i])
      {
        assert entries[..i + 1][..i] == entries[..i];
        totalAgents := totalAgents + 1;
        totalExecutions := totalExecutions + entries[i].metrics.totalExecutions;
        totalExecutionTime := totalExecutionTime + entries[i].metrics.totalExecutionTime;
      }
      assert entries[..|entries|] == entries;
    }
  }
}
