/**
 * The registry of agent instances on the screenplay canvas: a `Map` from
 * instance id to instance (in insertion order), the currently selected
 * instance, soft and hard deletion, filtered queries and statistics.
 *
 * Optional boolean flags of an instance (`is_system_default`, `is_hidden`,
 * `isDeleted`) are only ever read for truthiness, so an absent flag is `false`.
 */
module AgentInstanceManagement {
  import opened Wrappers
  import opened OrderedMap
  import opened Arrays
  import AgentExecution

  datatype Status = Pending | Queued | Running | Completed | Error

  datatype Position = Position(x: int, y: int)

  datatype Definition = Definition(title: string, description: string, unicode: string)

  /** An agent instance; the creation and update dates of its `config` are not modelled. */
  datatype AgentInstance = AgentInstance(
    id: string,
    agentId: Option<string>,
    conversationId: Option<string>,
    emoji: string,
    definition: Definition,
    status: Status,
    position: Position,
    executionState: Option<AgentExecution.AgentRecord>,
    isSystemDefault: bool,
    isHidden: bool,
    isDeleted: bool,
    deletedAt: Option<string>,
    cwd: Option<string>)

  /** A `Partial<AgentInstance>` without `id`: the fields an update sets. */
  datatype Patch = Patch(
    agentId: Option<string>,
    conversationId: Option<string>,
    emoji: Option<string>,
    definition: Option<Definition>,
    status: Option<Status>,
    position: Option<Position>,
    executionState: Option<AgentExecution.AgentRecord>,
    isSystemDefault: Option<bool>,
    isHidden: Option<bool>,
    isDeleted: Option<bool>,
    deletedAt: Option<string>,
    cwd: Option<string>)

  const NoChange := Patch(None, None, None, None, None, None, None, None, None, None, None, None)

  /** The optional settings `createInstance` accepts. */
  datatype CreateOptions = CreateOptions(
    agentId: Option<string>,
    conversationId: Option<string>,
    isSystemDefault: Option<bool>,
    isHidden: Option<bool>,
    cwd: Option<string>)

  /** The registry: instances keyed by id in insertion order, and the selection. */
  datatype Registry = Registry(instances: Entries<AgentInstance>, selected: Option<AgentInstance>)

  const EmptyRegistry := Registry([], None)

  /** Every entry is stored under its own instance's id. */
  predicate KeysMatchIds(es: Entries<AgentInstance>) {
    forall i :: 0 <= i < |es| ==> es[i].0 == es[i].1.id
  }

  predicate WellFormed(es: Entries<AgentInstance>) {
    DistinctKeys(es) && KeysMatchIds(es)
  }

  // ------------------------------------------------------------ definitions

  /** The emoji-to-definition table every new instance is looked up in. */
  const AgentDefinitions: Entries<Definition> := [
    ("\U{1F680}", Definition("Performance Agent", "Monitors application performance", "\\u{1F680}")),
    ("\U{1F510}", Definition("Auth Agent", "Manages user authentication", "\\u{1F510}")),
    ("\U{1F4CA}", Definition("Analytics Agent", "Collects usage metrics", "\\u{1F4CA}")),
    ("\U{1F6E1}\U{FE0F}", Definition("Security Agent", "Verifies vulnerabilities", "\\u{1F6E1}")),
    ("\U{26A1}", Definition("Speed Agent", "Optimizes response speed", "\\u{26A1}")),
    ("\U{1F3AF}", Definition("Target Agent", "Focuses on specific goals", "\\u{1F3AF}")),
    ("\U{1F9E0}", Definition("AI Agent", "AI processing", "\\u{1F9E0}")),
    ("\U{1F4BB}", Definition("System Agent", "Manages system resources", "\\u{1F4BB}")),
    ("\U{1F4F1}", Definition("Mobile Agent", "Responsive mobile interface", "\\u{1F4F1}")),
    ("\U{1F310}", Definition("Network Agent", "Connectivity and network", "\\u{1F310}")),
    ("\U{1F50D}", Definition("Search Agent", "Search and indexing", "\\u{1F50D}")),
    ("\U{1F3AA}", Definition("Entertainment Agent", "Entertainment and gamification", "\\u{1F3AA}")),
    ("\U{1F3C6}", Definition("Achievement Agent", "Achievements and awards", "\\u{1F3C6}")),
    ("\U{1F52E}", Definition("Prediction Agent", "Predictions and trends", "\\u{1F52E}")),
    ("\U{1F48E}", Definition("Premium Agent", "Premium resources", "\\u{1F48E}")),
    ("\U{2B50}", Definition("Star Agent", "Reviews and favorites", "\\u{2B50}")),
    ("\U{1F31F}", Definition("Featured Agent", "Special highlights", "\\u{1F31F}")),
    ("\U{1F9EA}", Definition("Test Agent", "Runs automated tests and validations", "\\u{1F9EA}")),
    ("\U{1F4C4}", Definition("README Resume Agent", "Analyzes and summarizes README files", "\\u{1F4C4}"))
  ]

  /** The definition a new instance with this emoji gets: the table's, or a placeholder. */
  function DefinitionFor(emoji: string): (d: Definition)
    ensures HasKey(AgentDefinitions, emoji) ==> Some(d) == Get(AgentDefinitions, emoji)
    ensures !HasKey(AgentDefinitions, emoji) ==> d == Definition("Unknown Agent", "No description", emoji)
  {
    Get(AgentDefinitions, emoji).GetOr(Definition("Unknown Agent", "No description", emoji))
  }

  lemma RocketIsPerformanceAgent()
    ensures DefinitionFor("\U{1F680}").title == "Performance Agent"
  {
  }

  /** A text that is no emoji of the table gets the placeholder. */
  lemma PlainTextIsUnknownAgent()
    ensures DefinitionFor("x") == Definition("Unknown Agent", "No description", "x")
  {
    assert !HasKey(AgentDefinitions, "x") by {
      forall i | 0 <= i < |AgentDefinitions| ensures AgentDefinitions[i].0 != "x" {
        assert AgentDefinitions[i].0[0] != 'x';
      }
    }
  }

  // ----------------------------------------------------------- operations

  /** `{...existing, ...updates}`. */
  function Merge(inst: AgentInstance, p: Patch): (r: AgentInstance)
    ensures r.id == inst.id
  {
    AgentInstance(inst.id,
                  if p.agentId.Some? then p.agentId else inst.agentId,
                  if p.conversationId.Some? then p.conversationId else inst.conversationId,
                  p.emoji.GetOr(inst.emoji),
                  p.definition.GetOr(inst.definition),
                  p.status.GetOr(inst.status),
                  p.position.GetOr(inst.position),
                  if p.executionState.Some? then p.executionState else inst.executionState,
                  p.isSystemDefault.GetOr(inst.isSystemDefault),
                  p.isHidden.GetOr(inst.isHidden),
                  p.isDeleted.GetOr(inst.isDeleted),
                  if p.deletedAt.Some? then p.deletedAt else inst.deletedAt,
                  if p.cwd.Some? then p.cwd else inst.cwd)
  }

  /** `addInstance`: stored under its id, replacing an instance with the same id. */
  function AfterAdd(r: Registry, inst: AgentInstance): Registry {
    r.(instances := Put(r.instances, inst.id, inst))
  }

  /** `updateInstance`: merge into the stored instance; an unknown id changes nothing. */
  function AfterUpdate(r: Registry, id: string, p: Patch): Registry {
    match Get(r.instances, id)
    case None => r
    case Some(existing) => r.(instances := Put(r.instances, id, Merge(existing, p)))
  }

  /** The instance as a soft delete leaves it. */
  function MarkedDeleted(inst: AgentInstance, now: string): AgentInstance {
    inst.(isDeleted := true, deletedAt := Some(now))
  }

  /**
   * `removeInstance`: an unknown id changes nothing; otherwise the instance is
   * marked deleted (soft) or dropped (hard), and a selection with that id is cleared.
   */
  function AfterRemove(r: Registry, id: string, softDelete: bool, now: string): Registry {
    match Get(r.instances, id)
    case None => r
    case Some(inst) =>
      Registry(if softDelete then Put(r.instances, id, MarkedDeleted(inst, now)) else Remove(r.instances, id),
               if r.selected.Some? && r.selected.value.id == id then None else r.selected)
  }

  /** `clearInstances`. */
  function AfterClear(r: Registry): (r': Registry)
    ensures r'.instances == [] && r'.selected.None?
  {
    EmptyRegistry
  }

  /** `loadInstances`: a fresh map filled in array order, so the last instance with an id wins. */
  function Loaded(xs: seq<AgentInstance>): Entries<AgentInstance> {
    if xs == [] then [] else Put(Loaded(xs[..|xs| - 1]), xs[|xs| - 1].id, xs[|xs| - 1])
  }

  /** The last instance in `xs` with this id. */
  function LastWithId(xs: seq<AgentInstance>, id: string): (r: Option<AgentInstance>)
    ensures r.Some? ==> r.value in xs && r.value.id == id
    ensures r.None? <==> forall x :: x in xs ==> x.id != id
  {
    if xs == [] then None
    else if xs[|xs| - 1].id == id then Some(xs[|xs| - 1])
    else
      assert xs == xs[..|xs| - 1] + [xs[|xs| - 1]];
      LastWithId(xs[..|xs| - 1], id)
  }

  /** `createInstance`: a pending instance built from the emoji, position, options and generated id. */
  function NewInstance(emoji: string, position: Position, options: CreateOptions, id: string): AgentInstance {
    AgentInstance(id, options.agentId, options.conversationId, emoji, DefinitionFor(emoji), Pending, position,
                  None, options.isSystemDefault.GetOr(false), options.isHidden.GetOr(false), false, None,
                  options.cwd)
  }

  // --------------------------------------------------------------- queries

  predicate IsActive(i: AgentInstance) { !i.isDeleted }
  predicate IsDeleted(i: AgentInstance) { i.isDeleted }
  predicate IsVisible(i: AgentInstance) { !i.isDeleted && !i.isHidden }
  predicate IsHiddenActive(i: AgentInstance) { i.isHidden && !i.isDeleted }
  predicate IsSystemDefaultActive(i: AgentInstance) { i.isSystemDefault && !i.isDeleted }

  /** `getActiveInstances`. */
  function ActiveInstances(r: Registry): seq<AgentInstance> {
    Filter(Values(r.instances), IsActive)
  }

  /** `getVisibleInstances`. */
  function VisibleInstances(r: Registry): seq<AgentInstance> {
    Filter(Values(r.instances), IsVisible)
  }

  /** `getInstancesByEmoji`. */
  function InstancesByEmoji(r: Registry, emoji: string): seq<AgentInstance> {
    Filter(Values(r.instances), (i: AgentInstance) => i.emoji == emoji && !i.isDeleted)
  }

  /** `getInstancesByConversation`. */
  function InstancesByConversation(r: Registry, conversationId: string): seq<AgentInstance> {
    Filter(Values(r.instances), (i: AgentInstance) => i.conversationId == Some(conversationId) && !i.isDeleted)
  }

  /** `getInstancesByStatus`. */
  function InstancesByStatus(r: Registry, status: Status): seq<AgentInstance> {
    Filter(Values(r.instances), (i: AgentInstance) => i.status == status && !i.isDeleted)
  }

  /** `getSystemDefaultInstances`. */
  function SystemDefaultInstances(r: Registry): seq<AgentInstance> {
    Filter(Values(r.instances), IsSystemDefaultActive)
  }

  /** The legacy configuration of one visible instance, with its title and description as data. */
  datatype AgentConfig = AgentConfig(id: string, emoji: string, position: Position, title: string, description: string)

  /** `toLegacyAgentConfigs`: one entry per visible instance, in order. */
  function LegacyAgentConfigs(r: Registry): (cs: seq<AgentConfig>)
    ensures |cs| == |VisibleInstances(r)|
    ensures forall k :: 0 <= k < |cs| ==>
      var i := VisibleInstances(r)[k];
      cs[k] == AgentConfig(i.id, i.emoji, i.position, i.definition.title, i.definition.description)
  {
    var vs := VisibleInstances(r);
    seq(|vs|, k requires 0 <= k < |vs| =>
      AgentConfig(vs[k].id, vs[k].emoji, vs[k].position, vs[k].definition.title, vs[k].definition.description))
  }

  datatype Statistics = Statistics(total: nat, active: nat, deleted: nat, hidden: nat, systemDefault: nat,
                                   pending: nat, queued: nat, running: nat, completed: nat, error: nat)

  /** `getStatistics`. */
  function GetStatistics(r: Registry): Statistics {
    var vs := Values(r.instances);
    Statistics(|vs|, |Filter(vs, IsActive)|, |Filter(vs, IsDeleted)|, |Filter(vs, IsHiddenActive)|,
               |Filter(vs, IsSystemDefaultActive)|,
               |Filter(vs, (i: AgentInstance) => i.status == Pending && !i.isDeleted)|,
               |Filter(vs, (i: AgentInstance) => i.status == Queued && !i.isDeleted)|,
               |Filter(vs, (i: AgentInstance) => i.status == Running && !i.isDeleted)|,
               |Filter(vs, (i: AgentInstance) => i.status == Completed && !i.isDeleted)|,
               |Filter(vs, (i: AgentInstance) => i.status == Error && !i.isDeleted)|)
  }

  // ---------------------------------------------------------------- lemmas

  /** Updating: an unknown id changes nothing; a known one gets the merge, and every other id reads as before. */
  lemma UpdateFacts(r: Registry, id: string, p: Patch, k: string)
    requires WellFormed(r.instances)
    ensures Get(r.instances, id).None? ==> AfterUpdate(r, id, p) == r
    ensures Get(AfterUpdate(r, id, p).instances, k) ==
      if k == id && Get(r.instances, id).Some? then Some(Merge(Get(r.instances, id).value, p))
      else Get(r.instances, k)
    ensures |AfterUpdate(r, id, p).instances| == |r.instances|
    ensures AfterUpdate(r, id, p).selected == r.selected
  {
    match Get(r.instances, id)
    case None =>
    case Some(e) =>
      GetAfterPut(r.instances, id, Merge(e, p), k);
      PutKeepsDistinct(r.instances, id, Merge(e, p));
  }

  /** An empty patch leaves the registry as it was. */
  lemma EmptyPatchChangesNothing(r: Registry, id: string)
    requires WellFormed(r.instances)
    ensures AfterUpdate(r, id, NoChange) == r
  {
    match Get(r.instances, id)
    case None =>
    case Some(e) =>
      var i := IndexOfKey(r.instances, id).value;
      assert r.instances[i := (id, e)] == r.instances;
  }

  /**
   * Removing: an unknown id changes nothing; a soft delete keeps the entry,
   * marked deleted with the given time; a hard delete drops it; other ids read
   * as before; the selection is cleared exactly when it had this id.
   */
  lemma RemoveFacts(r: Registry, id: string, softDelete: bool, now: string, k: string)
    requires WellFormed(r.instances)
    ensures Get(r.instances, id).None? ==> AfterRemove(r, id, softDelete, now) == r
    ensures Get(r.instances, id).Some? ==>
      var r' := AfterRemove(r, id, softDelete, now);
      && Get(r'.instances, k) == (if k != id then Get(r.instances, k)
                                  else if softDelete then Some(MarkedDeleted(Get(r.instances, id).value, now))
                                  else None)
      && (r'.selected.None? <==> r.selected.None? || r.selected.value.id == id)
      && (r'.selected.Some? ==> r'.selected == r.selected)
  {
    match Get(r.instances, id)
    case None =>
    case Some(inst) =>
      if softDelete {
        GetAfterPut(r.instances, id, MarkedDeleted(inst, now), k);
      } else {
        GetAfterRemove(r.instances, id, k);
      }
  }

  /** A soft delete keeps the number of instances; a hard delete of a present id takes one away. */
  lemma RemoveCounts(r: Registry, id: string, now: string)
    requires WellFormed(r.instances) && HasKey(r.instances, id)
    ensures |AfterRemove(r, id, true, now).instances| == |r.instances|
    ensures |AfterRemove(r, id, false, now).instances| == |r.instances| - 1
  {
    var inst := Get(r.instances, id).value;
    PutKeepsDistinct(r.instances, id, MarkedDeleted(inst, now));
    RemoveOneOfDistinct(r.instances, id);
  }

  lemma {:induction false} RemoveOneOfDistinct(es: Entries<AgentInstance>, k: string)
    requires DistinctKeys(es) && HasKey(es, k)
    ensures |Remove(es, k)| == |es| - 1
  {
    if es[0].0 == k {
      assert !HasKey(es[1..], k) by {
        forall j | 0 <= j < |es[1..]| ensures es[1..][j].0 != k {
          assert es[1..][j] == es[j + 1];
        }
      }
      RemoveAbsent(es[1..], k);
    } else {
      var j :| 0 <= j < |es| && es[j].0 == k;
      assert es[1..][j - 1].0 == k;
      RemoveOneOfDistinct(es[1..], k);
    }
  }

  lemma {:induction false} RemoveAbsent(es: Entries<AgentInstance>, k: string)
    requires !HasKey(es, k)
    ensures Remove(es, k) == es
  {
    if es != [] {
      assert !HasKey(es[1..], k) by {
        forall j | 0 <= j < |es[1..]| ensures es[1..][j].0 != k {
          assert es[1..][j] == es[j + 1];
        }
      }
      RemoveAbsent(es[1..], k);
    }
  }

  /** Adding keeps every instance stored under its own id, once. */
  lemma AddKeepsWellFormed(r: Registry, inst: AgentInstance)
    requires WellFormed(r.instances)
    ensures WellFormed(AfterAdd(r, inst).instances)
  {
    PutKeepsDistinct(r.instances, inst.id, inst);
  }

  /** Updating and removing keep every instance stored under its own id, once. */
  lemma UpdateAndRemoveKeepWellFormed(r: Registry, id: string, p: Patch, soft: bool, now: string)
    requires WellFormed(r.instances)
    ensures WellFormed(AfterUpdate(r, id, p).instances)
    ensures WellFormed(AfterRemove(r, id, soft, now).instances)
  {
    match Get(r.instances, id)
    case None =>
    case Some(e) =>
      var i := IndexOfKey(r.instances, id).value;
      assert e.id == id;
      PutKeepsDistinct(r.instances, id, Merge(e, p));
      PutKeepsDistinct(r.instances, id, MarkedDeleted(e, now));
      RemoveKeepsDistinct(r.instances, id);
      var rm := Remove(r.instances, id);
      forall j | 0 <= j < |rm| ensures rm[j].0 == rm[j].1.id {
        assert rm[j] in r.instances;
      }
  }

  /** Loading keeps one entry per id, each under its own id, holding the last instance with that id. */
  lemma {:induction false} LoadedFacts(xs: seq<AgentInstance>, k: string)
    ensures WellFormed(Loaded(xs))
    ensures Get(Loaded(xs), k) == LastWithId(xs, k)
  {
    if xs != [] {
      var init := xs[..|xs| - 1];
      var x := xs[|xs| - 1];
      LoadedFacts(init, k);
      LoadedFacts(init, x.id);
      PutKeepsDistinct(Loaded(init), x.id, x);
      GetAfterPut(Loaded(init), x.id, x, k);
    }
  }

  /** A new instance: pending, not deleted, with the emoji's definition and the options' flags. */
  lemma NewInstanceFacts(emoji: string, position: Position, options: CreateOptions, id: string)
    ensures var i := NewInstance(emoji, position, options, id);
      && i.id == id && i.emoji == emoji && i.position == position
      && i.status == Pending && !i.isDeleted && i.deletedAt.None?
      && (i.isHidden <==> options.isHidden == Some(true))
      && (i.isSystemDefault <==> options.isSystemDefault == Some(true))
      && (!HasKey(AgentDefinitions, emoji) ==> i.definition == Definition("Unknown Agent", "No description", emoji))
      && IsActive(i) && (IsVisible(i) <==> options.isHidden != Some(true))
  {
  }

  /** Every query returns exactly the stored instances that satisfy its filter. */
  lemma QueryMembers(r: Registry, x: AgentInstance, emoji: string, conversationId: string, status: Status)
    ensures x in ActiveInstances(r) <==> x in Values(r.instances) && !x.isDeleted
    ensures x in VisibleInstances(r) <==> x in Values(r.instances) && !x.isDeleted && !x.isHidden
    ensures x in InstancesByEmoji(r, emoji) <==> x in Values(r.instances) && x.emoji == emoji && !x.isDeleted
    ensures x in InstancesByConversation(r, conversationId) <==>
      x in Values(r.instances) && x.conversationId == Some(conversationId) && !x.isDeleted
    ensures x in InstancesByStatus(r, status) <==> x in Values(r.instances) && x.status == status && !x.isDeleted
    ensures x in SystemDefaultInstances(r) <==> x in Values(r.instances) && x.isSystemDefault && !x.isDeleted
  {
    var vs := Values(r.instances);
    FilterMembers(vs, IsActive, x);
    FilterMembers(vs, IsVisible, x);
    FilterMembers(vs, (i: AgentInstance) => i.emoji == emoji && !i.isDeleted, x);
    FilterMembers(vs, (i: AgentInstance) => i.conversationId == Some(conversationId) && !i.isDeleted, x);
    FilterMembers(vs, (i: AgentInstance) => i.status == status && !i.isDeleted, x);
    FilterMembers(vs, IsSystemDefaultActive, x);
  }

  /** Active plus deleted is the total; hidden, system default and each status count within the active. */
  lemma StatisticsFacts(r: Registry)
    ensures var s := GetStatistics(r);
      && s.active + s.deleted == s.total
      && s.hidden <= s.active && s.systemDefault <= s.active
      && s.pending + s.queued + s.running + s.completed + s.error == s.active
      && s.total == |r.instances|
      && s.active == |ActiveInstances(r)|
  {
    var vs := Values(r.instances);
    FilterSplits(vs, IsActive, IsDeleted);
    FilterMonotone(vs, IsHiddenActive, IsActive);
    FilterMonotone(vs, IsSystemDefaultActive, IsActive);
    StatusCountsSum(vs);
  }

  lemma {:induction false} StatusCountsSum(vs: seq<AgentInstance>)
    ensures |Filter(vs, (i: AgentInstance) => i.status == Pending && !i.isDeleted)|
          + |Filter(vs, (i: AgentInstance) => i.status == Queued && !i.isDeleted)|
          + |Filter(vs, (i: AgentInstance) => i.status == Running && !i.isDeleted)|
          + |Filter(vs, (i: AgentInstance) => i.status == Completed && !i.isDeleted)|
          + |Filter(vs, (i: AgentInstance) => i.status == Error && !i.isDeleted)| == |Filter(vs, IsActive)|
  {
    if vs != [] {
      StatusCountsSum(vs[1..]);
    }
  }

  /** Soft-deleting an active instance moves it from the active count to the deleted count. */
  lemma SoftDeleteMovesToDeleted(r: Registry, id: string, now: string)
    requires WellFormed(r.instances) && Get(r.instances, id).Some? && !Get(r.instances, id).value.isDeleted
    ensures var s := GetStatistics(r);
      var s' := GetStatistics(AfterRemove(r, id, true, now));
      s'.active == s.active - 1 && s'.deleted == s.deleted + 1 && s'.total == s.total
  {
    var inst := Get(r.instances, id).value;
    var i := IndexOfKey(r.instances, id).value;
    ValuesAfterPut(r.instances, id, MarkedDeleted(inst, now));
    var vs := Values(r.instances);
    FilterAfterUpdate(vs, i, MarkedDeleted(inst, now), IsActive);
    FilterAfterUpdate(vs, i, MarkedDeleted(inst, now), IsDeleted);
  }

  /** How a filter's count changes when one element is replaced. */
  lemma {:induction false} FilterAfterUpdate(xs: seq<AgentInstance>, i: nat, v: AgentInstance, p: AgentInstance -> bool)
    requires i < |xs|
    ensures |Filter(xs[i := v], p)| == |Filter(xs, p)| - (if p(xs[i]) then 1 else 0) + (if p(v) then 1 else 0)
  {
    if i == 0 {
      assert xs[i := v][1..] == xs[1..];
    } else {
      assert xs[i := v][1..] == xs[1..][i - 1 := v];
      FilterAfterUpdate(xs[1..], i - 1, v, p);
    }
  }

  // ----------------------------------------------------------------- service

  /** The service: the instance map and the selected instance, changed in place. */
  class AgentInstanceManagementService {
    var instances: Entries<AgentInstance>
    var selected: Option<AgentInstance>

    function State(): Registry
      reads this
    {
      Registry(instances, selected)
    }

    predicate Valid()
      reads this
    {
      WellFormed(instances)
    }

    constructor()
      ensures State() == EmptyRegistry && Valid()
    {
      instances := [];
      selected := None;
    }

    /** `getInstance`. */
    function GetInstance(id: string): (r: Option<AgentInstance>)
      reads this
      requires Valid()
      ensures r.Some? ==> r.value.id == id
      ensures r.Some? <==> HasKey(instances, id)
    {
      var r := Get(instances, id);
      if r.Some? then
        assert instances[IndexOfKey(instances, id).value].0 == id;
        r
      else r
    }

    method AddInstance(inst: AgentInstance)
      requires Valid()
      modifies this
      ensures State() == AfterAdd(old(State()), inst) && Valid()
    {
      AddKeepsWellFormed(State(), inst);
      instances := Put(instances, inst.id, inst);
    }

    method UpdateInstance(id: string, updates: Patch)
      requires Valid()
      modifies this
      ensures State() == AfterUpdate(old(State()), id, updates) && Valid()
    {
      UpdateAndRemoveKeepWellFormed(State(), id, updates, true, "");
      var existing := Get(instances, id);
      if existing.None? {
        return;
      }
      instances := Put(instances, id, Merge(existing.value, updates));
    }

    /** `removeInstance(id, softDelete = true)`, with `now` the deletion timestamp. */
    method RemoveInstance(id: string, now: string, softDelete: bool := true)
      requires Valid()
      modifies this
      ensures State() == AfterRemove(old(State()), id, softDelete, now) && Valid()
    {
      UpdateAndRemoveKeepWellFormed(State(), id, NoChange, softDelete, now);
      var instance := Get(instances, id);
      if instance.None? {
        return;
      }
      if softDelete {
        instances := Put(instances, id, MarkedDeleted(instance.value, now));
      } else {
        instances := Remove(instances, id);
      }
      if selected.Some? && selected.value.id == id {
        SetSelectedAgent(None);
      }
    }

    method ClearInstances()
      modifies this
      ensures State() == AfterClear(old(State())) && Valid()
    {
      instances := [];
      SetSelectedAgent(None);
    }

    /** `loadInstances`: the map is rebuilt from the array; the selection is kept. */
    method LoadInstances(xs: seq<AgentInstance>)
      modifies this
      ensures instances == Loaded(xs) && selected == old(selected) && Valid()
    {
      var m: Entries<AgentInstance> := [];
      var i := 0;
      while i < |xs|
        invariant 0 <= i <= |xs|
        invariant m == Loaded(xs[..i])
      {
        assert xs[..i + 1][..i] == xs[..i];
        m := Put(m, xs[i].id, xs[i]);
        i := i + 1;
      }
      assert xs[..|xs|] == xs;
      LoadedFacts(xs, "");
      instances := m;
    }

    method SetSelectedAgent(agent: Option<AgentInstance>)
      modifies this
      ensures instances == old(instances) && selected == agent
    {
      selected := agent;
    }

    /** `createInstance`, with `id` the generated instance id. */
    method CreateInstance(emoji: string, position: Position, options: CreateOptions, id: string)
      returns (inst: AgentInstance)
      requires Valid()
      modifies this
      ensures inst == NewInstance(emoji, position, options, id)
      ensures State() == AfterAdd(old(State()), inst) && Valid()
    {
      inst := NewInstance(emoji, position, options, id);
      AddInstance(inst);
    }

    method UpdatePosition(id: string, position: Position)
      requires Valid()
      modifies this
      ensures State() == AfterUpdate(old(State()), id, NoChange.(position := Some(position))) && Valid()
    {
      UpdateInstance(id, NoChange.(position := Some(position)));
    }

    method UpdateStatus(id: string, status: Status)
      requires Valid()
      modifies this
      ensures State() == AfterUpdate(old(State()), id, NoChange.(status := Some(status))) && Valid()
    {
      UpdateInstance(id, NoChange.(status := Some(status)));
    }

    method UpdateExecutionState(id: string, state: AgentExecution.AgentRecord)
      requires Valid()
      modifies this
      ensures State() == AfterUpdate(old(State()), id, NoChange.(executionState := Some(state))) && Valid()
    {
      UpdateInstance(id, NoChange.(executionState := Some(state)));
    }
  }
}
