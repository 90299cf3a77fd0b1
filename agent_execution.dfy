/**
 * The agent execution queue: at most five agents run at once, the others
 * wait in a FIFO queue, and every agent's state record is kept in a map.
 *
 * "Running" is an abstract set of agent ids: starting an agent takes a slot
 * at once, and the HTTP request and event stream that follow are not
 * modelled; their outcomes reach the model as calls of `Finalize`.
 */
module AgentExecution {
  import opened Wrappers
  import opened JsText
  import Arrays

  const MaxConcurrentAgents: nat := 5

  datatype Status = Pending | Queued | Running | Completed | Error

  /** An agent's execution record; its timestamps and result payload are not modelled. */
  datatype AgentRecord = AgentRecord(id: string, emoji: string, title: string, prompt: string,
                                     status: Status, logs: seq<string>, error: Option<string>)

  /** A `Partial<AgentExecutionState>`: the fields it sets. */
  datatype AgentPatch = AgentPatch(emoji: Option<string>, title: Option<string>, prompt: Option<string>,
                                   status: Option<Status>, logs: Option<seq<string>>, error: Option<string>)

  datatype ExecState = ExecState(pending: seq<AgentRecord>, running: set<string>, states: map<string, AgentRecord>)

  const EmptyExec := ExecState([], {}, map[])

  /** The record `updateAgentState` starts from for an agent it has not seen. */
  function DefaultRecord(id: string): AgentRecord {
    AgentRecord(id, "🤖", "Unknown Agent", "", Pending, [], None)
  }

  function Current(st: ExecState, id: string): AgentRecord {
    if id in st.states then st.states[id] else DefaultRecord(id)
  }

  function LogsOf(st: ExecState, id: string): seq<string> {
    Current(st, id).logs
  }

  /** `{ ...current, ...patch }`. */
  function Merge(r: AgentRecord, p: AgentPatch): (m: AgentRecord)
    ensures m.id == r.id
    ensures p.status.Some? ==> m.status == p.status.value
    ensures p.status.None? ==> m.status == r.status
    ensures p.logs.Some? ==> m.logs == p.logs.value
    ensures p.logs.None? ==> m.logs == r.logs
    ensures p.error.Some? ==> m.error == p.error
    ensures p.error.None? ==> m.error == r.error
    ensures p.emoji.Some? ==> m.emoji == p.emoji.value
    ensures p.emoji.None? ==> m.emoji == r.emoji
    ensures p.title.Some? ==> m.title == p.title.value
    ensures p.title.None? ==> m.title == r.title
    ensures p.prompt.Some? ==> m.prompt == p.prompt.value
    ensures p.prompt.None? ==> m.prompt == r.prompt
  {
    AgentRecord(r.id, p.emoji.GetOr(r.emoji), p.title.GetOr(r.title), p.prompt.GetOr(r.prompt),
                p.status.GetOr(r.status), p.logs.GetOr(r.logs), if p.error.Some? then p.error else r.error)
  }

  function SetStatusLogs(status: Status, logs: seq<string>): AgentPatch {
    AgentPatch(None, None, None, Some(status), Some(logs), None)
  }

  function SetLogs(logs: seq<string>): AgentPatch {
    AgentPatch(None, None, None, None, Some(logs), None)
  }

  /** `updateAgentState(id, patch)`. */
  function Update(st: ExecState, id: string, p: AgentPatch): ExecState {
    st.(states := st.states[id := Merge(Current(st, id), p)])
  }

  /** `_startAgentExecution`: mark the agent running and take a slot. */
  function Start(st: ExecState, a: AgentRecord): ExecState {
    var s1 := Update(st, a.id, SetStatusLogs(Running, LogsOf(st, a.id) + ["Starting agent execution..."]));
    s1.(running := s1.running + {a.id})
  }

  /** `_processNextInQueue`: start the first waiting agent if a slot is free. */
  function ProcessNext(st: ExecState): ExecState {
    if |st.pending| > 0 && |st.running| < MaxConcurrentAgents then
      Start(st.(pending := st.pending[1..]), st.pending[0])
    else st
  }

  /** `executeAgent(agent)`. */
  function AfterExecute(st: ExecState, a: AgentRecord): ExecState {
    var s1 := Update(st, a.id, AgentPatch(Some(a.emoji), Some(a.title), Some(a.prompt), Some(Queued),
                                          Some(["Agent added to queue..."]), a.error));
    if |s1.running| < MaxConcurrentAgents then Start(s1, a)
    else
      var s2 := s1.(pending := s1.pending + [a]);
      Update(s2, a.id, SetLogs(LogsOf(s2, a.id) + ["Waiting in queue (position " + IntToString(|s2.pending|) + ")..."]))
  }

  /** The filter predicate of `cancelAgent(id)` on the queue. */
  function NotAgent(id: string): AgentRecord -> bool {
    (a: AgentRecord) => a.id != id
  }

  /** The waiting agents other than `id`, in order. */
  function WithoutAgent(q: seq<AgentRecord>, id: string): (r: seq<AgentRecord>)
    ensures |r| <= |q|
    ensures forall i :: 0 <= i < |r| ==> r[i].id != id && r[i] in q
    ensures forall a :: a in q && a.id != id ==> a in r
  {
    if q == [] then []
    else if q[0].id == id then WithoutAgent(q[1..], id)
    else [q[0]] + WithoutAgent(q[1..], id)
  }

  /** Dropping the agent from the queue is the order-keeping array filter by a different id. */
  lemma {:induction false} WithoutAgentIsFilter(q: seq<AgentRecord>, id: string)
    ensures WithoutAgent(q, id) == Arrays.Filter(q, NotAgent(id))
  {
    if q != [] {
      WithoutAgentIsFilter(q[1..], id);
    }
  }

  /** `cancelAgent(id)`. */
  function AfterCancel(st: ExecState, id: string): ExecState {
    var s1 := st.(pending := WithoutAgent(st.pending, id));
    if id in s1.running then
      var s2 := s1.(running := s1.running - {id});
      var s3 := Update(s2, id, AgentPatch(None, None, None, Some(Error), Some(LogsOf(s2, id) + ["Agent execution cancelled"]),
                                          Some("Cancelled by user")));
      ProcessNext(s3)
    else s1
  }

  /** `_finalizeExecution(id, isError, message)`. */
  function AfterFinalize(st: ExecState, id: string, isError: bool, message: Option<string>): ExecState {
    var s1 := st.(running := st.running - {id});
    var msg := if Truthy(message) then message.value else "Unknown error";
    var s2 := if isError then
                Update(s1, id, AgentPatch(None, None, None, Some(Error), Some(LogsOf(s1, id) + ["❌ Error: " + msg]), Some(msg)))
              else if Current(s1, id).status != Completed then
                Update(s1, id, AgentPatch(None, None, None, Some(Completed), None, None))
              else s1;
    ProcessNext(s2)
  }

  /** At most five agents hold a slot. */
  predicate Valid(st: ExecState) { |st.running| <= MaxConcurrentAgents }

  // ----------------------------------------------------------------- lemmas

  /** `updateAgentState` merges into this agent's record and leaves every other agent unchanged. */
  lemma UpdateMergesOnly(st: ExecState, id: string, p: AgentPatch)
    ensures id in Update(st, id, p).states && Update(st, id, p).states[id] == Merge(Current(st, id), p)
    ensures forall k :: k != id ==> (k in Update(st, id, p).states <==> k in st.states)
    ensures forall k :: k in st.states && k != id ==> Update(st, id, p).states[k] == st.states[k]
    ensures Update(st, id, p).pending == st.pending && Update(st, id, p).running == st.running
  {
  }

  lemma StartFacts(st: ExecState, a: AgentRecord)
    ensures Start(st, a).running == st.running + {a.id} && Start(st, a).pending == st.pending
    ensures a.id in Start(st, a).states && Start(st, a).states[a.id].status == Running
  {
  }

  /**
   * Under the limit `executeAgent` starts the agent at once; at the limit it
   * queues the agent at the back, marked as queued.
   */
  lemma ExecuteStartsOrQueues(st: ExecState, a: AgentRecord)
    ensures |st.running| < MaxConcurrentAgents ==>
      var r := AfterExecute(st, a);
      r.running == st.running + {a.id} && r.pending == st.pending && r.states[a.id].status == Running
    ensures |st.running| >= MaxConcurrentAgents ==>
      var r := AfterExecute(st, a);
      r.running == st.running && r.pending == st.pending + [a] && r.states[a.id].status == Queued
      && r.states[a.id].logs == ["Agent added to queue...", "Waiting in queue (position " + IntToString(|st.pending| + 1) + ")..."]
  {
  }

  /** The next agent is dequeued from the front, and only while a slot is free. */
  lemma ProcessNextFifo(st: ExecState)
    ensures |st.pending| > 0 && |st.running| < MaxConcurrentAgents ==>
      ProcessNext(st).pending == st.pending[1..] && ProcessNext(st).running == st.running + {st.pending[0].id}
    ensures !(|st.pending| > 0 && |st.running| < MaxConcurrentAgents) ==> ProcessNext(st) == st
  {
  }

  /**
   * Cancelling removes the agent from the queue; a running agent loses its
   * slot and gets status error with 'Cancelled by user', and the next
   * waiting agent, necessarily another one, is started; an agent that was
   * not running is only dequeued.
   */
  lemma CancelFacts(st: ExecState, id: string)
    requires Valid(st)
    ensures forall i :: 0 <= i < |AfterCancel(st, id).pending| ==> AfterCancel(st, id).pending[i].id != id
    ensures id !in st.running ==> AfterCancel(st, id) == st.(pending := WithoutAgent(st.pending, id))
    ensures id in st.running ==>
      var q := WithoutAgent(st.pending, id);
      var r := AfterCancel(st, id);
      id !in r.running && id in r.states && r.states[id].status == Error && r.states[id].error == Some("Cancelled by user")
      && (q == [] ==> r.pending == [] && r.running == st.running - {id})
      && (q != [] ==> r.pending == q[1..] && r.running == (st.running - {id}) + {q[0].id})
  {
    if id in st.running {
      var s1 := st.(pending := WithoutAgent(st.pending, id));
      var s2 := s1.(running := s1.running - {id});
      var s3 := Update(s2, id, AgentPatch(None, None, None, Some(Error), Some(LogsOf(s2, id) + ["Agent execution cancelled"]),
                                          Some("Cancelled by user")));
      assert |s2.running| < |st.running| by {
        assert st.running == s2.running + {id};
      }
      assert s3.states[id].status == Error && s3.states[id].error == Some("Cancelled by user");
      if s1.pending != [] {
        StartOther(s3.(pending := s3.pending[1..]), s3.pending[0], id);
      }
    }
  }

  /** Starting one agent leaves another agent's slot and record as they were. */
  lemma StartOther(st: ExecState, a: AgentRecord, id: string)
    requires a.id != id
    ensures id in Start(st, a).running <==> id in st.running
    ensures id in st.states ==> id in Start(st, a).states && Start(st, a).states[id] == st.states[id]
    ensures Start(st, a).pending == st.pending && Start(st, a).running == st.running + {a.id}
  {
  }

  /**
   * Finalizing frees the agent's slot; with an error the agent gets status
   * error and the message (or 'Unknown error'), otherwise it is (or stays)
   * completed; then the first waiting agent is started if a slot is free.
   * Only when that agent is the same one is it running again.
   */
  lemma FinalizeFacts(st: ExecState, id: string, isError: bool, message: Option<string>)
    ensures var r := AfterFinalize(st, id, isError, message);
      var next := |st.pending| > 0 && |st.running - {id}| < MaxConcurrentAgents;
      (next ==> r.pending == st.pending[1..] && r.running == (st.running - {id}) + {st.pending[0].id})
      && (!next ==> r.pending == st.pending && r.running == st.running - {id})
      && (next && st.pending[0].id == id ==> id in r.states && r.states[id].status == Running)
      && (!(next && st.pending[0].id == id) ==>
            id !in r.running && id in r.states
            && (isError ==> r.states[id].status == Error
                            && r.states[id].error == Some(if Truthy(message) then message.value else "Unknown error"))
            && (!isError ==> r.states[id].status == Completed))
  {
    var s1 := st.(running := st.running - {id});
    var msg := if Truthy(message) then message.value else "Unknown error";
    var s2 := if isError then
                Update(s1, id, AgentPatch(None, None, None, Some(Error), Some(LogsOf(s1, id) + ["❌ Error: " + msg]), Some(msg)))
              else if Current(s1, id).status != Completed then
                Update(s1, id, AgentPatch(None, None, None, Some(Completed), None, None))
              else s1;
    assert id in s2.states && id !in s2.running;
    assert isError ==> s2.states[id].status == Error && s2.states[id].error == Some(msg);
    assert !isError ==> s2.states[id].status == Completed;
    if |st.pending| > 0 && |st.running - {id}| < MaxConcurrentAgents && st.pending[0].id != id {
      StartOther(s2.(pending := s2.pending[1..]), s2.pending[0], id);
    }
  }

  /** Every operation keeps at most five agents running. */
  lemma ExecuteKeepsBound(st: ExecState, a: AgentRecord)
    requires Valid(st)
    ensures Valid(AfterExecute(st, a))
  {
    if |st.running| < MaxConcurrentAgents {
      assert |st.running + {a.id}| <= |st.running| + 1;
    }
  }

  lemma ProcessNextKeepsBound(st: ExecState)
    requires Valid(st)
    ensures Valid(ProcessNext(st))
  {
    if |st.pending| > 0 && |st.running| < MaxConcurrentAgents {
      assert |st.running + {st.pending[0].id}| <= |st.running| + 1;
    }
  }

  lemma CancelKeepsBound(st: ExecState, id: string)
    requires Valid(st)
    ensures Valid(AfterCancel(st, id))
  {
    var s1 := st.(pending := WithoutAgent(st.pending, id));
    if id in s1.running {
      var s2 := s1.(running := s1.running - {id});
      var s3 := Update(s2, id, AgentPatch(None, None, None, Some(Error), Some(LogsOf(s2, id) + ["Agent execution cancelled"]),
                                          Some("Cancelled by user")));
      assert |s2.running| <= |st.running|;
      ProcessNextKeepsBound(s3);
    }
  }

  lemma FinalizeKeepsBound(st: ExecState, id: string, isError: bool, message: Option<string>)
    requires Valid(st)
    ensures Valid(AfterFinalize(st, id, isError, message))
  {
    var s1 := st.(running := st.running - {id});
    assert |s1.running| <= |st.running|;
    var msg := if Truthy(message) then message.value else "Unknown error";
    var s2 := if isError then
                Update(s1, id, AgentPatch(None, None, None, Some(Error), Some(LogsOf(s1, id) + ["❌ Error: " + msg]), Some(msg)))
              else if Current(s1, id).status != Completed then
                Update(s1, id, AgentPatch(None, None, None, Some(Completed), None, None))
              else s1;
    ProcessNextKeepsBound(s2);
  }

  // ------------------------------------------------------------------ class

  class AgentExecutionService {
    var pendingAgentsQueue: seq<AgentRecord>
    var runningAgents: set<string>
    var agentStates: map<string, AgentRecord>

    function State(): ExecState
      reads this
    {
      ExecState(pendingAgentsQueue, runningAgents, agentStates)
    }

    constructor ()
      ensures State() == EmptyExec
    {
      pendingAgentsQueue, runningAgents, agentStates := [], {}, map[];
    }

    /** `getAgentState(id)`. */
    function GetAgentState(id: string): (r: Option<AgentRecord>)
      reads this
      ensures r.Some? <==> id in agentStates
      ensures r.Some? ==> r.value == agentStates[id]
    {
      if id in agentStates then Some(agentStates[id]) else None
    }

    method UpdateAgentState(id: string, p: AgentPatch)
      modifies this
      ensures State() == Update(old(State()), id, p)
    {
      var current := if id in agentStates then agentStates[id] else DefaultRecord(id);
      agentStates := agentStates[id := Merge(current, p)];
    }

    method StartAgentExecution(a: AgentRecord)
      modifies this
      ensures State() == Start(old(State()), a)
    {
      UpdateAgentState(a.id, SetStatusLogs(Running, LogsOf(State(), a.id) + ["Starting agent execution..."]));
      runningAgents := runningAgents + {a.id};
    }

    method ProcessNextInQueue()
      modifies this
      ensures State() == ProcessNext(old(State()))
    {
      if |pendingAgentsQueue| > 0 && |runningAgents| < MaxConcurrentAgents {
        var next := pendingAgentsQueue[0];
        pendingAgentsQueue := pendingAgentsQueue[1..];
        StartAgentExecution(next);
      }
    }

    method ExecuteAgent(a: AgentRecord)
      modifies this
      ensures State() == AfterExecute(old(State()), a)
    {
      UpdateAgentState(a.id, AgentPatch(Some(a.emoji), Some(a.title), Some(a.prompt), Some(Queued),
                                        Some(["Agent added to queue..."]), a.error));
      if |runningAgents| < MaxConcurrentAgents {
        StartAgentExecution(a);
      } else {
        pendingAgentsQueue := pendingAgentsQueue + [a];
        UpdateAgentState(a.id, SetLogs(LogsOf(State(), a.id) + ["Waiting in queue (position " + IntToString(|pendingAgentsQueue|) + ")..."]));
      }
    }

    method CancelAgent(id: string)
      modifies this
      ensures State() == AfterCancel(old(State()), id)
    {
      pendingAgentsQueue := WithoutAgent(pendingAgentsQueue, id);
      if id in runningAgents {
        runningAgents := runningAgents - {id};
        UpdateAgentState(id, AgentPatch(None, None, None, Some(Error), Some(LogsOf(State(), id) + ["Agent execution cancelled"]),
                                        Some("Cancelled by user")));
        ProcessNextInQueue();
      }
    }

    method FinalizeExecution(id: string, isError: bool, message: Option<string>)
      modifies this
      ensures State() == AfterFinalize(old(State()), id, isError, message)
    {
      runningAgents := runningAgents - {id};
      if isError {
        var msg := if Truthy(message) then message.value else "Unknown error";
        UpdateAgentState(id, AgentPatch(None, None, None, Some(Error), Some(LogsOf(State(), id) + ["❌ Error: " + msg]), Some(msg)));
      } else if Current(State(), id).status != Completed {
        UpdateAgentState(id, AgentPatch(None, None, None, Some(Completed), None, None));
      }
      ProcessNextInQueue();
    }
  }
}
