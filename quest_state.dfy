/**
 * Quest progress for the guild-banner quest: the player's level and XP,
 * the quest's objectives, quest completion and its reward, the quest items
 * handed out by NPCs and the dialogue flags.
 *
 * `Game` is the whole state; the `After…` functions give each operation's new
 * state and the class `QuestStateService` performs the operations on its
 * fields. Saving to and loading from browser storage is not modelled.
 */
module QuestState {
  import opened Wrappers

  /** XP needed to be promoted out of each level (index = level). */
  const XpPerLevel: seq<int> := [0, 100, 300, 600, 1000]

  /** `XP_PER_LEVEL.length - 1`: the highest level `grantXP` promotes to. */
  const MaxLevel: nat := 4

  const RewardXp: int := 1000
  const RewardTitle: string := "Condutor"

  datatype ObjectiveType = Talk | Create | Refine

  datatype Objective = Objective(id: string, text: string, kind: ObjectiveType, target: Option<string>,
                                 completed: bool, optional: bool)

  /** A quest item held by the player (the quest log's own list, not the inventory service). */
  datatype QuestItem = QuestItem(id: string, name: string, description: string, icon: string)

  datatype Player = Player(
    level: nat,
    xp: int,
    xpToNextLevel: int,
    title: string,
    inventory: seq<QuestItem>,
    unlockedNpcs: seq<string>,
    completedObjectives: seq<string>,
    flags: map<string, bool>)

  datatype Game = Game(player: Player, objectives: seq<Objective>, currentObjective: int, questCompleted: bool)

  function Obj(id: string, text: string, kind: ObjectiveType, target: Option<string>, optional: bool): Objective {
    Objective(id, text, kind, target, false, optional)
  }

  /** The objectives of 'O Estandarte da Guilda', in order; only `refine_banner` is optional. */
  const InitialObjectives: seq<Objective> := [
    Obj("talk_to_guide", "Fale com o Guia", Talk, Some("elder_guide"), false),
    Obj("talk_to_scribe", "Peça ao Escriba para criar o plano", Talk, Some("requirements_scribe"), false),
    Obj("get_plan", "Obtenha o plano do estandarte", Create, None, false),
    Obj("talk_to_artisan", "Leve o plano à Artesã", Talk, Some("artisan"), false),
    Obj("banner_created", "Veja a criação do estandarte", Create, None, false),
    Obj("talk_to_critic", "Mostre o estandarte à Crítica", Talk, Some("critic"), false),
    Obj("refine_banner", "Refine o estandarte com base no feedback", Refine, None, true),
    Obj("return_to_guide", "Retorne ao Guia", Talk, Some("elder_guide"), false)
  ]

  const InitialPlayer := Player(1, 0, 100, "Iniciado", [], ["elder_guide"], [], map[])

  const InitialGame := Game(InitialPlayer, InitialObjectives, 0, false)

  predicate DistinctObjectiveIds(objs: seq<Objective>) {
    forall i, j :: 0 <= i < j < |objs| ==> objs[i].id != objs[j].id
  }

  /** A new game: level 1, no XP, 100 XP to the next level, every objective open. */
  lemma InitialGameFacts()
    ensures InitialGame.player.level == 1 && InitialGame.player.xp == 0
    ensures InitialGame.player.xpToNextLevel == XpPerLevel[1] - InitialGame.player.xp
    ensures |InitialObjectives| == 8 && DistinctObjectiveIds(InitialObjectives)
    ensures forall k :: 0 <= k < |InitialObjectives| ==> !InitialObjectives[k].completed
    ensures forall k :: 0 <= k < |InitialObjectives| ==> (InitialObjectives[k].optional <==> InitialObjectives[k].id == "refine_banner")
  {
    InitialObjectivesDistinct();
    InitialObjectivesOpen();
  }

  lemma InitialObjectivesDistinct()
    ensures DistinctObjectiveIds(InitialObjectives)
  {
  }

  lemma InitialObjectivesOpen()
    ensures |InitialObjectives| == 8
    ensures forall k :: 0 <= k < |InitialObjectives| ==> !InitialObjectives[k].completed
    ensures forall k :: 0 <= k < |InitialObjectives| ==> (InitialObjectives[k].optional <==> InitialObjectives[k].id == "refine_banner")
  {
  }

  // ------------------------------------------------------------- experience

  /** The level the promotion loop of `grantXP` stops at. */
  function LevelAfter(level: nat, xp: int): (r: nat)
    ensures r >= level
    ensures level <= MaxLevel ==> r <= MaxLevel
    decreases if level < MaxLevel then MaxLevel - level else 0
  {
    if level < MaxLevel && xp >= XpPerLevel[level] then LevelAfter(level + 1, xp) else level
  }

  /** `xpToNextLevel`: what is still missing for the next level, 0 at the top. */
  function XpToNext(level: nat, xp: int): int {
    if level < MaxLevel then XpPerLevel[level] - xp else 0
  }

  /** `grantXP(amount)` on the player. */
  function AfterGrantXp(p: Player, amount: int): (r: Player)
    ensures r == p.(level := r.level, xp := p.xp + amount, xpToNextLevel := r.xpToNextLevel)
  {
    var xp := p.xp + amount;
    var level := LevelAfter(p.level, xp);
    p.(xp := xp, level := level, xpToNextLevel := XpToNext(level, xp))
  }

  /** The threshold of every level passed through was reached, and the loop stopped below the next one. */
  lemma {:induction false} LevelAfterIsFirstUnreached(level: nat, xp: int)
    ensures forall k :: level <= k < LevelAfter(level, xp) ==> XpPerLevel[k] <= xp
    ensures LevelAfter(level, xp) < MaxLevel ==> xp < XpPerLevel[LevelAfter(level, xp)]
    decreases if level < MaxLevel then MaxLevel - level else 0
  {
    if level < MaxLevel && xp >= XpPerLevel[level] {
      LevelAfterIsFirstUnreached(level + 1, xp);
    }
  }

  /**
   * After `grantXP` the level never passes 4 (from a level that had not), and
   * below the top the XP still needed is positive; at the top it is 0.
   */
  lemma GrantXpBounds(p: Player, amount: int)
    ensures p.level <= MaxLevel ==> AfterGrantXp(p, amount).level <= MaxLevel
    ensures AfterGrantXp(p, amount).level >= p.level
    ensures AfterGrantXp(p, amount).level < MaxLevel ==>
      AfterGrantXp(p, amount).xpToNextLevel == XpPerLevel[AfterGrantXp(p, amount).level] - AfterGrantXp(p, amount).xp > 0
    ensures AfterGrantXp(p, amount).level >= MaxLevel ==> AfterGrantXp(p, amount).xpToNextLevel == 0
  {
    LevelAfterIsFirstUnreached(p.level, p.xp + amount);
  }

  /**
   * From level 1, 600 XP already reaches the top level (4) and 599 does not:
   * the 1000 entry of the table is never a promotion threshold.
   */
  lemma TopLevelThreshold()
    ensures LevelAfter(1, 600) == MaxLevel
    ensures LevelAfter(1, 599) == 3
  {
  }

  // ------------------------------------------------------------- objectives

  /** `objectives.find(o => o.id === id)`, as the index of the first match. */
  function FindObjective(objs: seq<Objective>, id: string): (r: Option<nat>)
    ensures r.Some? ==> r.value < |objs| && objs[r.value].id == id
    ensures r.Some? ==> forall j :: 0 <= j < r.value ==> objs[j].id != id
    ensures r.None? ==> forall j :: 0 <= j < |objs| ==> objs[j].id != id
  {
    if objs == [] then None
    else if objs[0].id == id then Some(0)
    else match FindObjective(objs[1..], id)
      case None => None
      case Some(k) => Some(k + 1)
  }

  predicate OpenRequired(o: Objective) { !o.completed && !o.optional }

  /** `findIndex(o => !o.completed && !o.optional)`, as an option. */
  function FirstOpenRequired(objs: seq<Objective>): (r: Option<nat>)
    ensures r.Some? ==> r.value < |objs| && OpenRequired(objs[r.value])
    ensures r.Some? ==> forall j :: 0 <= j < r.value ==> !OpenRequired(objs[j])
    ensures r.None? ==> forall j :: 0 <= j < |objs| ==> !OpenRequired(objs[j])
  {
    if objs == [] then None
    else if OpenRequired(objs[0]) then Some(0)
    else match FirstOpenRequired(objs[1..])
      case None => None
      case Some(k) => Some(k + 1)
  }

  /** Every objective that is not optional is completed. */
  predicate AllRequiredDone(objs: seq<Objective>) {
    forall j :: 0 <= j < |objs| ==> objs[j].optional || objs[j].completed
  }

  lemma AllRequiredDoneIffNoOpen(objs: seq<Objective>)
    ensures AllRequiredDone(objs) <==> FirstOpenRequired(objs).None?
  {
    if FirstOpenRequired(objs).Some? {
      assert !AllRequiredDone(objs) by {
        var k := FirstOpenRequired(objs).value;
        assert !(objs[k].optional || objs[k].completed);
      }
    }
  }

  /** `completeQuest`: mark the quest done, grant 1000 XP, the title and the open-world flag. */
  function AfterCompleteQuest(g: Game): (r: Game)
    ensures r.questCompleted && r.objectives == g.objectives && r.currentObjective == g.currentObjective
    ensures r.player.title == RewardTitle && r.player.flags == g.player.flags["open_world_unlocked" := true]
  {
    var p := AfterGrantXp(g.player, RewardXp);
    g.(questCompleted := true,
       player := p.(title := RewardTitle, flags := p.flags["open_world_unlocked" := true]))
  }

  /**
   * Marks objective `k` done, records its id and moves `currentObjective` to the
   * first open required objective (kept when there is none).
   */
  function MarkObjective(g: Game, k: nat, id: string): Game
    requires k < |g.objectives|
  {
    var objs := g.objectives[k := g.objectives[k].(completed := true)];
    var cur := match FirstOpenRequired(objs) case Some(i) => i as int case None => g.currentObjective;
    g.(objectives := objs, currentObjective := cur,
       player := g.player.(completedObjectives := g.player.completedObjectives + [id]))
  }

  /**
   * `completeObjective(id)` as written: whenever every required objective is
   * done after marking, `completeQuest` runs, even if the quest was already
   * complete.
   */
  function AfterCompleteObjectiveAsWritten(g: Game, id: string): Game {
    match FindObjective(g.objectives, id)
    case None => g
    case Some(k) =>
      if g.objectives[k].completed then g
      else
        var m := MarkObjective(g, k, id);
        if AllRequiredDone(m.objectives) then AfterCompleteQuest(m) else m
  }

  /** `completeObjective(id)` with the quest reward granted only on the quest's first completion. */
  function AfterCompleteObjective(g: Game, id: string): Game {
    match FindObjective(g.objectives, id)
    case None => g
    case Some(k) =>
      if g.objectives[k].completed then g
      else
        var m := MarkObjective(g, k, id);
        if AllRequiredDone(m.objectives) && !g.questCompleted then AfterCompleteQuest(m) else m
  }

  /** Unknown or already completed objectives leave the game unchanged. */
  lemma CompleteObjectiveNoop(g: Game, id: string)
    requires FindObjective(g.objectives, id).None? || g.objectives[FindObjective(g.objectives, id).value].completed
    ensures AfterCompleteObjective(g, id) == g
  {
  }

  /**
   * Otherwise the objective is now completed, its id is recorded once, no
   * other objective changes, and `currentObjective` is the first open required
   * objective when there is one.
   */
  lemma CompleteObjectiveMarks(g: Game, id: string)
    requires FindObjective(g.objectives, id).Some?
    requires !g.objectives[FindObjective(g.objectives, id).value].completed
    ensures var k := FindObjective(g.objectives, id).value;
      var r := AfterCompleteObjective(g, id);
      |r.objectives| == |g.objectives| && r.objectives[k].completed
      && (forall j :: 0 <= j < |g.objectives| && j != k ==> r.objectives[j] == g.objectives[j])
      && r.player.completedObjectives == g.player.completedObjectives + [id]
      && (FirstOpenRequired(r.objectives).Some? ==> r.currentObjective == FirstOpenRequired(r.objectives).value)
      && (FirstOpenRequired(r.objectives).None? ==> r.currentObjective == g.currentObjective)
  {
  }

  /**
   * The quest completes, with the reward XP, exactly when the last open
   * required objective is completed.
   */
  lemma CompleteObjectiveFinishesQuest(g: Game, id: string)
    requires !g.questCompleted
    requires FindObjective(g.objectives, id).Some?
    requires !g.objectives[FindObjective(g.objectives, id).value].completed
    ensures var r := AfterCompleteObjective(g, id);
      (r.questCompleted <==> AllRequiredDone(r.objectives))
      && (r.questCompleted ==> r.player.xp == g.player.xp + RewardXp && r.player.title == RewardTitle)
      && (!r.questCompleted ==> r.player.xp == g.player.xp)
  {
  }

  /** Once the quest is complete, completing an objective grants no more XP. */
  lemma RewardGrantedOnce(g: Game, id: string)
    requires g.questCompleted
    ensures AfterCompleteObjective(g, id).player.xp == g.player.xp
    ensures AfterCompleteObjective(g, id).questCompleted
  {
  }

  /**
   * As written, completing the optional objective after the quest is done
   * grants the 1000 XP reward a second time.
   */
  lemma OptionalAfterCompletionRewardsAgain(g: Game)
    requires g.questCompleted
    requires AllRequiredDone(g.objectives)
    requires FindObjective(g.objectives, "refine_banner").Some?
    requires !g.objectives[FindObjective(g.objectives, "refine_banner").value].completed
    ensures AfterCompleteObjectiveAsWritten(g, "refine_banner").player.xp == g.player.xp + RewardXp
    ensures AfterCompleteObjective(g, "refine_banner").player.xp == g.player.xp
  {
    var k := FindObjective(g.objectives, "refine_banner").value;
    var m := MarkObjective(g, k, "refine_banner");
    assert AllRequiredDone(m.objectives) by {
      forall j | 0 <= j < |m.objectives| ensures m.objectives[j].optional || m.objectives[j].completed {
        if j != k {
          assert m.objectives[j] == g.objectives[j];
        }
      }
    }
  }

  // ------------------------------------------------------------ interaction

  /** The first open talk objective whose target is `npc`. */
  function FindTalk(objs: seq<Objective>, npc: string): (r: Option<nat>)
    ensures r.Some? ==> (r.value < |objs| && objs[r.value].kind == Talk
                         && objs[r.value].target == Some(npc) && !objs[r.value].completed)
    ensures r.None? ==> forall j :: 0 <= j < |objs| ==>
      !(objs[j].kind == Talk && objs[j].target == Some(npc) && !objs[j].completed)
  {
    if objs == [] then None
    else if objs[0].kind == Talk && objs[0].target == Some(npc) && !objs[0].completed then Some(0)
    else match FindTalk(objs[1..], npc)
      case None => None
      case Some(k) => Some(k + 1)
  }

  function TalkFlag(npc: string): string { "talked_to_" + npc }

  /** `onNPCInteraction(npc)`: set the talk flag, then complete the matching talk objective. */
  function AfterNpcInteraction(g: Game, npc: string): Game {
    var g1 := g.(player := g.player.(flags := g.player.flags[TalkFlag(npc) := true]));
    match FindTalk(g.objectives, npc)
    case None => g1
    case Some(k) => AfterCompleteObjective(g1, g.objectives[k].id)
  }

  lemma DistinctFind(objs: seq<Objective>, k: nat)
    requires DistinctObjectiveIds(objs) && k < |objs|
    ensures FindObjective(objs, objs[k].id) == Some(k)
  {
    var r := FindObjective(objs, objs[k].id);
    assert r.Some?;
    assert r.value <= k;
  }

  /**
   * Talking to an NPC sets `talked_to_<npc>`; with distinct objective ids the
   * first open talk objective for that NPC becomes completed, and with none
   * nothing else changes.
   */
  lemma NpcInteractionCompletesTalk(g: Game, npc: string)
    requires DistinctObjectiveIds(g.objectives)
    ensures TalkFlag(npc) in AfterNpcInteraction(g, npc).player.flags
    ensures FindTalk(g.objectives, npc).None? ==>
      AfterNpcInteraction(g, npc) == g.(player := g.player.(flags := g.player.flags[TalkFlag(npc) := true]))
    ensures FindTalk(g.objectives, npc).Some? ==>
      AfterNpcInteraction(g, npc).objectives[FindTalk(g.objectives, npc).value].completed
  {
    match FindTalk(g.objectives, npc)
    case None =>
    case Some(k) => DistinctFind(g.objectives, k);
  }

  // ------------------------------------------------------------- quest items

  /** The three quest items `addToInventory` knows. */
  function QuestItemCatalog(id: string): (r: Option<QuestItem>)
    ensures r.Some? ==> r.value.id == id
    ensures r.Some? <==> id in {"requirements_document", "guild_banner_v1", "guild_banner_v2"}
  {
    if id == "requirements_document" then
      Some(QuestItem(id, "Plano do Estandarte", "Um plano detalhado para criar o estandarte da guilda", "📋"))
    else if id == "guild_banner_v1" then
      Some(QuestItem(id, "Estandarte da Guilda v1.0", "O estandarte criado pela Artesã", "🏳️"))
    else if id == "guild_banner_v2" then
      Some(QuestItem(id, "Estandarte da Guilda v2.0", "O estandarte refinado com base no feedback", "🏳️"))
    else None
  }

  predicate HoldsQuestItem(inv: seq<QuestItem>, id: string) {
    exists j :: 0 <= j < |inv| && inv[j].id == id
  }

  function HasQuestItem(inv: seq<QuestItem>, id: string): (b: bool)
    ensures b <==> HoldsQuestItem(inv, id)
  {
    if inv == [] then false
    else if inv[0].id == id then true
    else
      var b := HasQuestItem(inv[1..], id);
      assert HoldsQuestItem(inv[1..], id) ==> HoldsQuestItem(inv, id) by {
        if HoldsQuestItem(inv[1..], id) {
          var j :| 0 <= j < |inv[1..]| && inv[1..][j].id == id;
          assert inv[j + 1].id == id;
        }
      }
      b
  }

  /** `addToInventory(id)`: append a known item not yet held. */
  function AfterAddToInventory(p: Player, id: string): Player {
    match QuestItemCatalog(id)
    case None => p
    case Some(item) => if HasQuestItem(p.inventory, id) then p else p.(inventory := p.inventory + [item])
  }

  /** Unknown ids and items already held change nothing; otherwise the item is appended. */
  lemma AddToInventoryCases(p: Player, id: string)
    ensures QuestItemCatalog(id).None? || HoldsQuestItem(p.inventory, id) ==> AfterAddToInventory(p, id) == p
    ensures QuestItemCatalog(id).Some? && !HoldsQuestItem(p.inventory, id) ==>
      AfterAddToInventory(p, id) == p.(inventory := p.inventory + [QuestItemCatalog(id).value])
  {
  }

  /** Each id is held at most once, however often it is added. */
  lemma AddToInventoryKeepsDistinct(p: Player, id: string)
    requires forall i, j :: 0 <= i < j < |p.inventory| ==> p.inventory[i].id != p.inventory[j].id
    ensures var inv := AfterAddToInventory(p, id).inventory;
      forall i, j :: 0 <= i < j < |inv| ==> inv[i].id != inv[j].id
  {
  }

  /** `setFlag(flag, value)`. */
  function AfterSetFlag(p: Player, flag: string, value: bool): (r: Player)
    ensures flag in r.flags && r.flags[flag] == value
    ensures forall f :: f in p.flags && f != flag ==> f in r.flags && r.flags[f] == p.flags[f]
    ensures r.(flags := p.flags) == p
  {
    p.(flags := p.flags[flag := value])
  }

  // ------------------------------------------------------------------ class

  class QuestStateService {
    var level: nat
    var xp: int
    var xpToNextLevel: int
    var title: string
    var inventory: seq<QuestItem>
    var unlockedNpcs: seq<string>
    var completedObjectives: seq<string>
    var flags: map<string, bool>
    var objectives: seq<Objective>
    var currentObjective: int
    var questCompleted: bool

    function PlayerState(): Player
      reads this
    {
      Player(level, xp, xpToNextLevel, title, inventory, unlockedNpcs, completedObjectives, flags)
    }

    function State(): Game
      reads this
    {
      Game(PlayerState(), objectives, currentObjective, questCompleted)
    }

    /** A new game; restoring a saved game is not modelled. */
    constructor ()
      ensures State() == InitialGame
    {
      level, xp, xpToNextLevel, title := 1, 0, 100, "Iniciado";
      inventory, unlockedNpcs, completedObjectives, flags := [], ["elder_guide"], [], map[];
      objectives, currentObjective, questCompleted := InitialObjectives, 0, false;
    }

    /** `grantXP(amount)`: add the XP, promote while the next threshold is reached, update the gap. */
    method GrantXp(amount: int)
      modifies this
      ensures State() == old(State()).(player := AfterGrantXp(old(PlayerState()), amount))
    {
      xp := xp + amount;
      while level < MaxLevel && xp >= XpPerLevel[level]
        invariant level >= old(level)
        invariant LevelAfter(level, xp) == LevelAfter(old(level), xp)
        invariant xp == old(xp) + amount
        invariant objectives == old(objectives) && currentObjective == old(currentObjective)
        invariant questCompleted == old(questCompleted) && title == old(title) && flags == old(flags)
        invariant inventory == old(inventory) && unlockedNpcs == old(unlockedNpcs)
        invariant completedObjectives == old(completedObjectives)
        decreases MaxLevel - level
      {
        level := level + 1;
      }
      if level < MaxLevel {
        xpToNextLevel := XpPerLevel[level] - xp;
      } else {
        xpToNextLevel := 0;
      }
    }

    method CompleteQuest()
      modifies this
      ensures State() == AfterCompleteQuest(old(State()))
    {
      questCompleted := true;
      GrantXp(RewardXp);
      title := RewardTitle;
      flags := flags["open_world_unlocked" := true];
    }

    /** `completeObjective(id)`, granting the quest reward only once. */
    method CompleteObjective(id: string)
      modifies this
      ensures State() == AfterCompleteObjective(old(State()), id)
    {
      var found := FindObjective(objectives, id);
      if found.None? || objectives[found.value].completed {
        return;
      }
      var k := found.value;
      var wasCompleted := questCompleted;
      objectives := objectives[k := objectives[k].(completed := true)];
      completedObjectives := completedObjectives + [id];
      var next := FirstOpenRequired(objectives);
      if next.Some? {
        currentObjective := next.value;
      }
      if AllRequiredDone(objectives) && !wasCompleted {
        CompleteQuest();
      }
    }

    /** `addToInventory(id)`. */
    method AddToInventory(id: string)
      modifies this
      ensures State() == old(State()).(player := AfterAddToInventory(old(PlayerState()), id))
    {
      var item := QuestItemCatalog(id);
      if item.Some? && !HasQuestItem(inventory, id) {
        inventory := inventory + [item.value];
      }
    }

    /** `onNPCInteraction(npc)`. */
    method OnNpcInteraction(npc: string)
      modifies this
      ensures State() == AfterNpcInteraction(old(State()), npc)
    {
      flags := flags[TalkFlag(npc) := true];
      var talk := FindTalk(objectives, npc);
      if talk.Some? {
        CompleteObjective(objectives[talk.value].id);
      }
    }

    /** `setFlag(flag, value)`. */
    method SetFlag(flag: string, value: bool := true)
      modifies this
      ensures State() == old(State()).(player := AfterSetFlag(old(PlayerState()), flag, value))
    {
      flags := flags[flag := value];
    }

    /** `getCurrentObjective()`: the objective at `currentObjective`, if that index exists. */
    function GetCurrentObjective(): (r: Option<Objective>)
      reads this
      ensures r.Some? <==> 0 <= currentObjective < |objectives|
      ensures r.Some? ==> r.value == objectives[currentObjective]
    {
      if 0 <= currentObjective < |objectives| then Some(objectives[currentObjective]) else None
    }

    /** `hasFlag(flag)`: the flag is set to true. */
    function HasFlag(flag: string): (b: bool)
      reads this
      ensures b <==> flag in flags && flags[flag]
    {
      flag in flags && flags[flag]
    }
  }
}
