# conductor-web: a verified model of its state and validation cores

This project is a Dafny model of the state and validation cores that sit under conductor-web, the Angular front end of the Conductor "living screenplay" application, with proofs of what those cores promise.

The front end is mostly UI, HTTP and timers. Underneath lie small sequential cores, and each one becomes a Dafny module of the same name:

- **Quest game.** The inventory (`InventoryModels`, `InventoryService`) has slots, stacking, trading with NPCs, consumables and a transaction log of at most 100 entries. Quest progress (`QuestState`) covers the objectives, the XP and level table and quest completion. The player's map position (`PlayerMovement`) is always clamped into the map bounds.
- **Navigation** (`NavigationState`). It tracks the current screenplay, conversation and agent instance, and a FIFO queue of saves. The queue is drained one PUT at a time, and saves for deleted conversations are dropped.
- **Agent execution** (`AgentExecution`). The service aims to run at most five agents at once, and the others wait in a FIFO queue. Per-agent metrics are kept in `AgentMetrics`.
- **Chat modals.** `ModalState` is the registry of open chat modals. The modal footer's buttons are in `ModalFooter`, and the export, working-directory, councilor-edit and conflict-resolution dialogs are in their own modules.
- **Layered editor.** It has layer definitions, dependency validation and zoom presets (`LayerTypes`), and the editor's active-layer set (`LayeredEditor`). The in-memory layer and document database (`LayerDatabase`) keeps a version counter and a checksum.
- **Event-sourced screenplay backend.** `EventStore` is an append-only log, and `EventSourcedBackend` folds a projection over it.
- **Agents and tasks.**
  - The agent-instance registry with soft delete (`AgentInstanceManagement`).
  - Task status tracking (`TaskObservability`).
  - The gamification event feed (`GamificationEvents`) and the ticker that shows it (`EventTicker`).
  - Agent display profiles (`AgentPersonalization`) and persona editing (`PersonaEdit`).
  - The councilor scheduler's rules (`CouncilorScheduler`).
- **Text rules.**
  - Markdown import and export: file names, conflicts, previews and structure (`ScreenplayFileManagement`).
  - Agent names and tags (`AgentCreator`).
  - The screenplay tree's project names (`ScreenplayTree`).
  - The shared 31-multiplier string hash (`StringHash`).

Shared modules model the JavaScript library behaviour the services rely on:

- `Wrappers`: optional fields.
- `JsText`: `trim`, `split`, `slice`, `indexOf`, `startsWith`, number printing and lower-casing.
- `OrderedMap`: `Map` in insertion order.
- `SeqSet`: `Set` in insertion order.
- `Arrays`: `filter`.
- `Sorting`: a stable `sort` by a numeric key.

How each core is modelled depends on its form:

- **Services that update their fields in place** are classes. Each class has a `State()` function over its fields, and every method is proved to move the state to the value of a pure `After…`/`…In` function of the old state. The promised properties are lemmas about those functions.
- **Loops in the source** stay loops with invariants, for example:
  - the hash loop;
  - the metrics totals;
  - tree building;
  - task cleanup;
  - instance loading.
- **Pure helpers** are functions with contracts and lemmas.

Values outside the program come in as parameters:

- the clock (`Date.now()`);
- random and UUID ids;
- the server's answers;
- text read from disk.

Browser storage is a map field. rxjs subjects become plain fields, or sequences recording what was emitted.

## Model

| member | source | states |
|---|---|---|
| InventoryModels.RarityIndex | src/app/quest-adventure/models/inventory.models.ts:39-46 | the six rarities get distinct ranks 0 to 5 in declaration order |
| InventoryModels.ConfigValues | src/app/quest-adventure/models/inventory.models.ts:242-249 | 20 initial slots, 5 per row, stacks of at most 99, 300 ms animation, drag and drop and auto-sort on |
| InventoryModels.TemplateFlags | src/app/quest-adventure/models/inventory.models.ts:122-225 | there are five templates, each indestructible, tradeable, not stackable and naming its NPC |
| InventoryModels.UnlockChain | src/app/quest-adventure/models/inventory.models.ts:135-196 | each template unlocks exactly the next one, and the last unlocks an id that is not a template |
| InventoryModels.FindTemplate | src/app/quest-adventure/services/inventory.service.ts:81 | a found template is in the list with that id; none is found only when no template has the id |
| InventoryService.QuantityOrOne | src/app/quest-adventure/services/inventory.service.ts:134 | an absent or zero quantity counts as one, any other as itself |
| InventoryService.FindItem | src/app/quest-adventure/services/inventory.service.ts:131 | the index of the first item with the id, or none when no item has it |
| InventoryService.CreateItemFromTemplate | src/app/quest-adventure/services/inventory.service.ts:80-91 | an item exists exactly for a template id, and it is that template with quantity 1 |
| InventoryService.Record | src/app/quest-adventure/services/inventory.service.ts:529-537 | the transaction is appended and the log keeps at most 100 entries, dropping the oldest |
| InventoryService.InsertPos | src/app/quest-adventure/services/inventory.service.ts:429-445 | the stable sort places a new item behind every item at least as rare and ahead of every rarer one |
| InventoryService.InsertAt | src/app/quest-adventure/services/inventory.service.ts:429-445 | the item lands at the position and the other items keep their order; the multiset grows by that item |
| InventoryService.InsertKeepsSorted | src/app/quest-adventure/services/inventory.service.ts:429-445 | inserting at that position keeps the list sorted by rarity |
| InventoryService.SortByRarity | src/app/quest-adventure/services/inventory.service.ts:429-445 | the result is sorted from the rarest down and is a permutation of the items |
| InventoryService.SortSortedIsIdentity | src/app/quest-adventure/services/inventory.service.ts:429-445 | sorting a list that is already sorted changes nothing, as a stable sort must |
| InventoryService.SortAppended | src/app/quest-adventure/services/inventory.service.ts:169-190 | adding an item and sorting inserts it behind the items at least as rare; the others keep their order |
| InventoryService.RemoveAt | src/app/quest-adventure/services/inventory.service.ts:236 | splicing one item out keeps the rarity order and distinct ids and removes just that item |
| InventoryService.Stacked | src/app/quest-adventure/services/inventory.service.ts:134-139 | a merged stack holds the sum of the two quantities, capped at 99 |
| InventoryService.KeepIndestructible | src/app/quest-adventure/services/inventory.service.ts:458-462 | exactly the indestructible items are kept |
| InventoryService.KeepIndestructibleSorted | src/app/quest-adventure/services/inventory.service.ts:458-462 | clearing keeps the rarity order |
| InventoryService.KeepIndestructibleDistinct | src/app/quest-adventure/services/inventory.service.ts:458-462 | clearing keeps the ids distinct |
| InventoryService.ItemCount | src/app/quest-adventure/services/inventory.service.ts:398-401 | 0 for an item not held, otherwise the held item's quantity or 1 |
| InventoryService.EmptyValid | src/app/quest-adventure/services/inventory.service.ts:71-75 | the new inventory of 20 empty slots satisfies the invariant |
| InventoryService.AddWhenFull | src/app/quest-adventure/services/inventory.service.ts:104-108 | a full inventory refuses every item and changes nothing |
| InventoryService.AddSucceedsIff | src/app/quest-adventure/services/inventory.service.ts:96-202 | adding succeeds exactly when there is room, the template exists, and the item is stackable or not yet held; a refusal changes nothing |
| InventoryService.AddStacks | src/app/quest-adventure/services/inventory.service.ts:129-153 | a held stackable item gains the quantity, capped at 99, and no slot is used |
| InventoryService.InsertDistinct | src/app/quest-adventure/services/inventory.service.ts:169-174 | inserting an item whose id is not held keeps the ids distinct |
| InventoryService.AddNew | src/app/quest-adventure/services/inventory.service.ts:169-175 | a new item is marked as new, inserted in rarity order, and one more slot is used |
| InventoryService.AddPreservesValid | src/app/quest-adventure/services/inventory.service.ts:96-202 | adding keeps the invariant: sorted, distinct ids, slot count matching the items, log within 100 |
| InventoryService.AddDuplicateRejected | src/app/quest-adventure/services/inventory.service.ts:158-163 | a held non-stackable item is refused and nothing changes |
| InventoryService.RemoveCases | src/app/quest-adventure/services/inventory.service.ts:207-250 | removing fails and changes nothing for a missing or indestructible item; otherwise a stack larger than the amount is lowered by exactly that amount in place, and any other item is dropped from its position, freeing its slot |
| InventoryService.RemoveSucceeds | src/app/quest-adventure/services/inventory.service.ts:221-248 | for a destroyable item that is found, the stack is lowered in place or the item is dropped, and after a drop its id is gone |
| InventoryService.GiveFailsIff | src/app/quest-adventure/services/inventory.service.ts:264-292 | giving fails, changing nothing, exactly when the item is missing, untradeable or meant for another NPC |
| InventoryService.GiveRemovesOnlyDestroyable | src/app/quest-adventure/services/inventory.service.ts:264-292 | an indestructible item stays; a destroyable one is dropped from its position, freeing its slot, then the reward it unlocks is added, and the item is gone unless the reward has the same id |
| InventoryService.AddKeepsAbsent | src/app/quest-adventure/services/inventory.service.ts:96-199 | adding an item with another id never brings back an absent id |
| InventoryService.StackKeepsAbsent | src/app/quest-adventure/services/inventory.service.ts:129-152 | stacking onto a held item keeps every id in the inventory as it was |
| InventoryService.StackKeepsValid | src/app/quest-adventure/services/inventory.service.ts:129-152 | stacking changes one quantity only, so a valid inventory stays valid |
| InventoryService.FreshKeepsAbsent | src/app/quest-adventure/services/inventory.service.ts:167-191 | adding a new entry brings in only the id of the item added |
| InventoryService.AddKeepsHeld | src/app/quest-adventure/services/inventory.service.ts:96-202 | adding never loses an item that was held |
| InventoryService.LogBounded | src/app/quest-adventure/services/inventory.service.ts:529-537 | every operation keeps the invariant, so the log stays within 100 entries |
| InventoryService.GivePreservesValid | src/app/quest-adventure/services/inventory.service.ts:255-328 | giving keeps the invariant |
| InventoryService.UsePreservesValid | src/app/quest-adventure/services/inventory.service.ts:333-372 | using an item keeps the invariant |
| InventoryService.ClearKeepsIndestructible | src/app/quest-adventure/services/inventory.service.ts:458-462 | after clearing every item left is indestructible, none of those was lost, and the slot count equals the item count |
| InventoryService.Inventory.constructor | src/app/quest-adventure/services/inventory.service.ts:71-75 | a new inventory is empty with 20 slots and satisfies the invariant |
| InventoryService.Inventory.RecordTransaction | src/app/quest-adventure/services/inventory.service.ts:529-537 | the log becomes the bounded append of the transaction; nothing else changes |
| InventoryService.Inventory.SortInventory | src/app/quest-adventure/services/inventory.service.ts:429-445 | the items become their rarity sort; nothing else changes |
| InventoryService.SortedItemsFacts | src/app/quest-adventure/services/inventory.service.ts:429-445 | each sort mode keeps exactly the items: by rarity the rarest first, by type or by name in the order of the given collation |
| InventoryService.Inventory.SortInventoryBy | src/app/quest-adventure/services/inventory.service.ts:429-445 | the items become the sort for the chosen mode; nothing else changes |
| InventoryService.Inventory.AddItem | src/app/quest-adventure/services/inventory.service.ts:96-202 | the result and the new state are those of the add specification |
| InventoryService.Inventory.StackItem | src/app/quest-adventure/services/inventory.service.ts:129-153 | the entry's quantity is raised, capped at 99 |
| InventoryService.Inventory.AddNewItem | src/app/quest-adventure/services/inventory.service.ts:169-190 | the item is added as new and the list re-sorted |
| InventoryService.Inventory.RemoveItem | src/app/quest-adventure/services/inventory.service.ts:207-250 | the result and the new state are those of the remove specification |
| InventoryService.Inventory.GiveItemToNpc | src/app/quest-adventure/services/inventory.service.ts:255-328 | success, reward and new state are those of the give specification |
| InventoryService.Inventory.UseItem | src/app/quest-adventure/services/inventory.service.ts:333-372 | the result and the new state are those of the use specification |
| InventoryService.Inventory.GetItemCount | src/app/quest-adventure/services/inventory.service.ts:398-401 | 0 for an item not held, otherwise its quantity or 1 |
| InventoryService.Inventory.ClearDestroyableItems | src/app/quest-adventure/services/inventory.service.ts:458-462 | the new state is the clear specification |
| InventoryService.Inventory.ExpandInventory | src/app/quest-adventure/services/inventory.service.ts:450-453 | the slot limit grows by the given amount; nothing else changes |
| InventoryService.Inventory.ResetInventory | src/app/quest-adventure/services/inventory.service.ts:511-522 | the inventory is empty again |
| QuestState.InitialGameFacts | src/app/quest-adventure/services/quest-state.service.ts:142-159 | a new game starts at level 1 with no XP and 100 XP to go, with eight distinct objectives all open |
| QuestState.LevelAfter | src/app/quest-adventure/services/quest-state.service.ts:281-284 | the promotion loop never lowers the level and never passes level 4 from a level at most 4 |
| QuestState.AfterGrantXp | src/app/quest-adventure/services/quest-state.service.ts:277-295 | granting XP adds the amount and changes only the level and the XP still needed |
| QuestState.LevelAfterIsFirstUnreached | src/app/quest-adventure/services/quest-state.service.ts:281-284 | every threshold passed was reached, and below the top the loop stops at the first threshold not reached |
| QuestState.GrantXpBounds | src/app/quest-adventure/services/quest-state.service.ts:277-292 | the level never passes 4 nor drops; below the top the XP still needed is the next threshold minus the XP and positive; at the top it is 0 |
| QuestState.TopLevelThreshold | src/app/quest-adventure/services/quest-state.service.ts:110-116 | from level 1, 600 XP reaches the top level and 599 does not, so the 1000 entry is never a threshold |
| QuestState.FindObjective | src/app/quest-adventure/services/quest-state.service.ts:228 | the index of the first objective with the id, or none when no objective has it |
| QuestState.FirstOpenRequired | src/app/quest-adventure/services/quest-state.service.ts:235 | the index of the first open required objective, or none when every required objective is done |
| QuestState.AllRequiredDoneIffNoOpen | src/app/quest-adventure/services/quest-state.service.ts:241-242 | every required objective is done exactly when no open required objective remains |
| QuestState.AfterCompleteQuest | src/app/quest-adventure/services/quest-state.service.ts:258-272 | completing the quest marks it done, grants the title and sets open_world_unlocked, keeping the objectives |
| QuestState.CompleteObjectiveNoop | src/app/quest-adventure/services/quest-state.service.ts:228-229 | an unknown or already completed objective leaves the game unchanged |
| QuestState.CompleteObjectiveMarks | src/app/quest-adventure/services/quest-state.service.ts:231-238 | the objective is completed and its id recorded once; no other objective changes; the current objective becomes the first open required one |
| QuestState.CompleteObjectiveFinishesQuest | src/app/quest-adventure/services/quest-state.service.ts:241-246 | the quest completes, and its reward XP is granted, exactly when the last open required objective is completed |
| QuestState.RewardGrantedOnce | src/app/quest-adventure/services/quest-state.service.ts:241-246 | once the quest is complete, completing another objective grants no more XP |
| QuestState.OptionalAfterCompletionRewardsAgain | src/app/quest-adventure/services/quest-state.service.ts:241-246 | as written, completing the optional objective after the quest grants the 1000 XP a second time; the corrected version does not |
| QuestState.FindTalk | src/app/quest-adventure/services/quest-state.service.ts:347-361 | the first open talk objective for the NPC, or none when there is none |
| QuestState.DistinctFind | src/app/quest-adventure/services/quest-state.service.ts:228 | with distinct ids, looking up an objective's id finds that objective |
| QuestState.NpcInteractionCompletesTalk | src/app/quest-adventure/services/quest-state.service.ts:346-361 | talking sets talked_to_ for the NPC and completes the matching open talk objective; without one nothing else changes |
| QuestState.QuestItemCatalog | src/app/quest-adventure/services/quest-state.service.ts:314-333 | exactly the three quest item ids are known, each giving its own item |
| QuestState.HasQuestItem | src/app/quest-adventure/services/quest-state.service.ts:335 | the check holds exactly when an item with the id is held |
| QuestState.AddToInventoryCases | src/app/quest-adventure/services/quest-state.service.ts:335-341 | unknown ids and items already held change nothing; otherwise the item is appended |
| QuestState.AddToInventoryKeepsDistinct | src/app/quest-adventure/services/quest-state.service.ts:335-341 | each item id is held at most once however often it is added |
| QuestState.AfterSetFlag | src/app/quest-adventure/services/quest-state.service.ts:406-409 | the flag gets the value and no other part of the player changes |
| QuestState.QuestStateService.constructor | src/app/quest-adventure/services/quest-state.service.ts:142-159 | a new service holds the initial game |
| QuestState.QuestStateService.GrantXp | src/app/quest-adventure/services/quest-state.service.ts:277-295 | the loop leaves the player in the state the XP specification gives |
| QuestState.QuestStateService.CompleteQuest | src/app/quest-adventure/services/quest-state.service.ts:258-272 | the new state is the quest completion specification |
| QuestState.QuestStateService.CompleteObjective | src/app/quest-adventure/services/quest-state.service.ts:227-253 | the new state is the objective completion specification, with the reward granted once |
| QuestState.QuestStateService.AddToInventory | src/app/quest-adventure/services/quest-state.service.ts:313-342 | the new state is the add specification |
| QuestState.QuestStateService.OnNpcInteraction | src/app/quest-adventure/services/quest-state.service.ts:347-361 | the new state is the interaction specification |
| QuestState.QuestStateService.SetFlag | src/app/quest-adventure/services/quest-state.service.ts:406-409 | the new state is the flag specification |
| QuestState.QuestStateService.GetCurrentObjective | src/app/quest-adventure/services/quest-state.service.ts:394-396 | the objective at the current index, present exactly when that index is in range |
| QuestState.QuestStateService.HasFlag | src/app/quest-adventure/services/quest-state.service.ts:402-404 | true exactly when the flag is set to true |
| NavigationState.Enqueue | src/app/services/navigation-state.service.ts:546-555 | a save for a deleted conversation is dropped; any other is added after everything already sent or queued; with a drain running it just joins the back of the queue, and with none running and an empty queue it is sent at once |
| NavigationState.Purge | src/app/services/navigation-state.service.ts:560-567 | the purged queue holds exactly the saves of other conversations, all from the old queue |
| NavigationState.PurgeIsFilter | src/app/services/navigation-state.service.ts:560-567 | purging is the order-keeping filter of the queue by a different conversation id |
| NavigationState.SendableIsFilter | src/app/services/navigation-state.service.ts:578-584 | what the drain sends is the order-keeping filter of the queue by conversations not deleted |
| NavigationState.Sendable | src/app/services/navigation-state.service.ts:572-598 | the saves the drain sends are exactly those of conversations not deleted, taken from the queue |
| NavigationState.SendableAppend | src/app/services/navigation-state.service.ts:572-598 | what a drain sends of a longer queue is what it sends of the front followed by what it sends of the rest |
| NavigationState.SendableOfCleanQueue | src/app/services/navigation-state.service.ts:572-598 | a queue without deleted conversations is sent in full, in FIFO order |
| NavigationState.EnqueueDeletedIgnored | src/app/services/navigation-state.service.ts:546-555 | a save for a conversation marked deleted is never queued |
| NavigationState.EnqueueKeepsClean | src/app/services/navigation-state.service.ts:546-555 | enqueueing keeps the queue free of deleted conversations |
| NavigationState.PersistKeepsClean | src/app/services/navigation-state.service.ts:499-513 | persisting keeps the queue clean and leaves the selection and the deleted set alone |
| NavigationState.DeletePurges | src/app/services/navigation-state.service.ts:635-642 | after a delete the conversation is marked, the queue is the old queue filtered by other conversations, and the selection, what was sent and the drain flag are unchanged |
| NavigationState.SetScreenplayKeepsClean | src/app/services/navigation-state.service.ts:217-271 | switching screenplays keeps the queue clean |
| NavigationState.SetConversationKeepsClean | src/app/services/navigation-state.service.ts:288-346 | selecting a conversation keeps the queue clean |
| NavigationState.SetConversationWithInstanceKeepsClean | src/app/services/navigation-state.service.ts:354-390 | selecting a conversation with an instance keeps the queue clean |
| NavigationState.SelectionSettersKeepClean | src/app/services/navigation-state.service.ts:406-493 | setting the instance, the preserving screenplay switch and setState keep the queue clean |
| NavigationState.QueueOperationsKeepClean | src/app/services/navigation-state.service.ts:560-660 | deleting, settling a deletion and a turn of the drain keep the queue clean |
| NavigationState.Drain | src/app/services/navigation-state.service.ts:578-597 | a turn of the drain leaves what goes out (sent, then what the queue will still send) unchanged, keeps the selection and the deleted set, shortens a non-empty queue, and ends the drain only on an empty queue |
| NavigationState.DrainKeepsClean | src/app/services/navigation-state.service.ts:578-597 | a turn of the drain keeps a clean queue clean |
| NavigationState.StartDrain | src/app/services/navigation-state.service.ts:572-577 | a running drain is left alone; afterwards saves wait only while a drain runs, and what goes out and a clean queue are kept |
| NavigationState.QueueOperationsKeepDraining | src/app/services/navigation-state.service.ts:546-598 | enqueueing, persisting, deleting, settling a deletion and a turn of the drain keep saves waiting only while a drain runs |
| NavigationState.EnqueueSendsOrWaits | src/app/services/navigation-state.service.ts:546-577 | with no drain running a live save is sent at once and the drain suspends on it; with one running the save joins the back of the queue |
| NavigationState.Settle | src/app/services/navigation-state.service.ts:578-598 | a drain run to its end with nothing in between empties the queue, clears the flag and has sent exactly what went out before |
| NavigationState.ProcessSendsFifo | src/app/services/navigation-state.service.ts:572-598 | a drain run to its end sends, after what was already sent, the saves of live conversations in queue order; for a clean queue, all of them |
| NavigationState.SetScreenplayNullClears | src/app/services/navigation-state.service.ts:223-233 | a null or empty screenplay clears all three ids and changes nothing else |
| NavigationState.SwitchSavesPreviousFirst | src/app/services/navigation-state.service.ts:236-239 | switching to another screenplay sends a save of the previous selection right after everything already going out, and before the new one |
| NavigationState.SameScreenplayQueuesOnce | src/app/services/navigation-state.service.ts:217-271 | staying on the same screenplay sends at most one save |
| NavigationState.NoScreenplayNoop | src/app/services/navigation-state.service.ts:357-360 | without a screenplay, setting an instance or a conversation does nothing |
| NavigationState.SetInstanceOnlyInstance | src/app/services/navigation-state.service.ts:409-417 | setInstance changes only the instance id and sends exactly one save of the new selection unless its conversation is deleted |
| NavigationState.SetConversationWithInstanceSelects | src/app/services/navigation-state.service.ts:354-390 | both ids are selected and the screenplay is kept |
| NavigationState.SetStateOverwritesGiven | src/app/services/navigation-state.service.ts:464-472 | exactly the fields that are given are overwritten |
| NavigationState.NavigationStateService.constructor | src/app/services/navigation-state.service.ts:56-68 | the service starts with no selection, an empty queue, nothing deleted and no drain running |
| NavigationState.NavigationStateService.EnqueueSave | src/app/services/navigation-state.service.ts:546-555 | the new state is the enqueue specification, including the drain it starts |
| NavigationState.NavigationStateService.PersistAndUpdateUrl | src/app/services/navigation-state.service.ts:499-513 | the new state is the persist specification |
| NavigationState.NavigationStateService.ProcessQueue | src/app/services/navigation-state.service.ts:572-577 | the new state is the start-drain specification |
| NavigationState.NavigationStateService.ContinueDrain | src/app/services/navigation-state.service.ts:578-597 | the loop up to its next await leaves the state a turn of the drain specifies |
| NavigationState.NavigationStateService.DeleteConversationState | src/app/services/navigation-state.service.ts:635-642 | the new state is the delete specification |
| NavigationState.NavigationStateService.DeleteSettled | src/app/services/navigation-state.service.ts:647-657 | the conversation leaves the deleted set |
| NavigationState.NavigationStateService.SetScreenplay | src/app/services/navigation-state.service.ts:217-271 | the new state is the screenplay switch specification |
| NavigationState.NavigationStateService.SetConversation | src/app/services/navigation-state.service.ts:288-346 | the restored instance and the new state are those of the conversation specification |
| NavigationState.NavigationStateService.SetConversationWithInstance | src/app/services/navigation-state.service.ts:354-390 | the new state is the specification of selecting both ids |
| NavigationState.NavigationStateService.SetInstance | src/app/services/navigation-state.service.ts:406-426 | the new state is the instance specification |
| NavigationState.NavigationStateService.SetScreenplayPreservingSelections | src/app/services/navigation-state.service.ts:436-453 | the new state is the preserving switch specification |
| NavigationState.NavigationStateService.SetState | src/app/services/navigation-state.service.ts:459-493 | the new state is the setState specification |
| AgentExecution.Merge | src/app/services/agent-execution.ts:329-343 | the merged record keeps the id, takes each of emoji, title, prompt, status, logs and error that the patch gives, and keeps every other field |
| AgentExecution.WithoutAgent | src/app/services/agent-execution.ts:89 | the queue without the agent keeps exactly the other waiting agents |
| AgentExecution.WithoutAgentIsFilter | src/app/services/agent-execution.ts:89 | dropping the agent is the order-keeping filter of the queue by a different id |
| AgentExecution.UpdateMergesOnly | src/app/services/agent-execution.ts:329-343 | the agent's record is the merge; every other agent, the queue and the running set are unchanged |
| AgentExecution.StartFacts | src/app/services/agent-execution.ts:120-124 | starting takes a slot for the agent and marks it running |
| AgentExecution.StartOther | src/app/services/agent-execution.ts:120-124 | starting one agent leaves every other agent's slot and record as they were |
| AgentExecution.ExecuteStartsOrQueues | src/app/services/agent-execution.ts:57-68 | under five running agents the agent starts at once; otherwise it is queued at the back, marked queued |
| AgentExecution.ProcessNextFifo | src/app/services/agent-execution.ts:109-114 | the front of the queue starts only while a slot is free; otherwise nothing changes |
| AgentExecution.CancelFacts | src/app/services/agent-execution.ts:87-104 | the agent leaves the queue; a running one loses its slot and ends with status error and 'Cancelled by user' while the first other waiting agent, if any, is dequeued and takes a slot; one not running is only dequeued |
| AgentExecution.FinalizeFacts | src/app/services/agent-execution.ts:301-324 | the slot is freed and the first waiting agent is dequeued and started exactly when then a slot is free; unless that is the same agent, it ends with status error and the message or 'Unknown error' on error, and completed otherwise |
| AgentExecution.ExecuteKeepsBound | src/app/services/agent-execution.ts:35 | executing keeps at most five agents running, with the slot taken at once |
| AgentExecution.ProcessNextKeepsBound | src/app/services/agent-execution.ts:109-114 | dequeuing keeps at most five agents running |
| AgentExecution.CancelKeepsBound | src/app/services/agent-execution.ts:87-104 | cancelling keeps at most five agents running |
| AgentExecution.FinalizeKeepsBound | src/app/services/agent-execution.ts:301-324 | finalizing keeps at most five agents running |
| AgentExecution.AgentExecutionService.constructor | src/app/services/agent-execution.ts:38-52 | nothing runs, nothing waits and no agent has a state |
| AgentExecution.AgentExecutionService.GetAgentState | src/app/services/agent-execution.ts:73-75 | the stored state of the agent, present exactly when it has one |
| AgentExecution.AgentExecutionService.UpdateAgentState | src/app/services/agent-execution.ts:329-343 | the new state is the merge specification |
| AgentExecution.AgentExecutionService.StartAgentExecution | src/app/services/agent-execution.ts:120-124 | the new state is the start specification |
| AgentExecution.AgentExecutionService.ProcessNextInQueue | src/app/services/agent-execution.ts:109-114 | the new state is the dequeue specification |
| AgentExecution.AgentExecutionService.ExecuteAgent | src/app/services/agent-execution.ts:57-68 | the new state is the execute specification |
| AgentExecution.AgentExecutionService.CancelAgent | src/app/services/agent-execution.ts:87-104 | the new state is the cancel specification |
| AgentExecution.AgentExecutionService.FinalizeExecution | src/app/services/agent-execution.ts:301-324 | the new state is the finalize specification |
| AgentMetrics.Lookup | src/app/services/agent-metrics.service.ts:188-196 | an agent's stored metrics are found exactly when some entry carries its id |
| AgentMetrics.SetEntry | src/app/services/agent-metrics.service.ts:280-283 | after the write the agent maps to the new metrics, every other agent keeps its own, and ids stay distinct |
| AgentMetrics.Validated | src/app/services/agent-metrics.service.ts:272-278 | every count and time is floored and clamped at zero; the timestamp and executing flag pass through |
| AgentMetrics.Ended | src/app/services/agent-metrics.service.ts:165-178 | one more run, the elapsed time added, the average is total over count, executing cleared, last run stamped now |
| AgentMetrics.DropAgent | src/app/services/agent-metrics.service.ts:87 | the filtered queue holds no update for the agent and keeps every other update |
| AgentMetrics.KeepActive | src/app/services/agent-metrics.service.ts:380-401 | the kept entries are exactly the stored entries whose agent is in the active list |
| AgentMetrics.EmptyValid | src/app/services/agent-metrics.service.ts:22-28 | the empty service state holds distinct ids and valid numbers |
| AgentMetrics.UpdateKeepsValid | src/app/services/agent-metrics.service.ts:258-287 | an update keeps one entry per agent with non-negative numbers |
| AgentMetrics.UpdateClamps | src/app/services/agent-metrics.service.ts:272-278 | the stored metrics are the clamped ones and no other agent's metrics change |
| AgentMetrics.DuplicateStartIgnored | src/app/services/agent-metrics.service.ts:123-126 | starting an agent that is already tracked leaves the whole state unchanged |
| AgentMetrics.StartTracks | src/app/services/agent-metrics.service.ts:129-131 | a first start records the start time and marks the agent executing, keeping its counts |
| AgentMetrics.EndWithoutStartIgnored | src/app/services/agent-metrics.service.ts:150-153 | ending an agent with no start time leaves the whole state unchanged |
| AgentMetrics.EndAccumulates | src/app/services/agent-metrics.service.ts:165-178 | ending adds one run and the elapsed time, stores the rounded-down mean, clears executing and forgets the start |
| AgentMetrics.DropAgentKeepsOnePerAgent | src/app/services/agent-metrics.service.ts:87 | filtering keeps the queue at one update per agent |
| AgentMetrics.UpdateQueueLastWins | src/app/services/agent-metrics.service.ts:85-89 | the queue keeps one update per agent and the agent's update is the latest one |
| AgentMetrics.CleanupKeepsExactlyActive | src/app/services/agent-metrics.service.ts:380-401 | after cleanup an agent has metrics iff it had them and is in the active list; active start times survive |
| AgentMetrics.CleanupKeepsValid | src/app/services/agent-metrics.service.ts:380-401 | cleanup keeps one entry per agent with valid numbers |
| AgentMetrics.SumsNonNegative | src/app/services/agent-metrics.service.ts:316-329 | over valid entries the global execution count and time are non-negative |
| AgentMetrics.EachAtMostSum | src/app/services/agent-metrics.service.ts:316-329 | each agent's execution count is at most the global count |
| AgentMetrics.AgentMetricsService.constructor | src/app/services/agent-metrics.service.ts:22-28 | the service starts with no metrics, no start times and an empty queue |
| AgentMetrics.AgentMetricsService.UpdateMetrics | src/app/services/agent-metrics.service.ts:258-287 | the new state is the update of the old one |
| AgentMetrics.AgentMetricsService.StartExecution | src/app/services/agent-metrics.service.ts:114-136 | the new state is the start of the old one |
| AgentMetrics.AgentMetricsService.EndExecution | src/app/services/agent-metrics.service.ts:141-183 | the new state is the end of the old one |
| AgentMetrics.AgentMetricsService.ResetMetrics | src/app/services/agent-metrics.service.ts:245-253 | the agent's metrics become all zeros through the validated update |
| AgentMetrics.AgentMetricsService.AddToUpdateQueue | src/app/services/agent-metrics.service.ts:85-89 | only the queue changes: the agent's old update dropped and the new one appended |
| AgentMetrics.AgentMetricsService.CleanupOrphanedMetrics | src/app/services/agent-metrics.service.ts:380-401 | the new state keeps only active agents' metrics and removes the orphans' start times |
| AgentMetrics.AgentMetricsService.GetGlobalStats | src/app/services/agent-metrics.service.ts:316-329 | the agent count and the summed execution counts and times over all entries |
| ModalState.Put | src/app/shared/conductor-chat/services/modal-state.service.ts:101-105 | the spread record sets that one modal's flag and keeps every other flag |
| ModalState.OpenAmong | src/app/shared/conductor-chat/services/modal-state.service.ts:168-171 | the filtered keys are exactly the listed modals whose flag is set |
| ModalState.InitiallyClosed | src/app/shared/conductor-chat/services/modal-state.service.ts:45-53 | every modal starts closed, so none is open and the open list is empty |
| ModalState.OpenFacts | src/app/shared/conductor-chat/services/modal-state.service.ts:95-108 | opening sets that modal; opening any other modal also closes the options menu; no other flag changes |
| ModalState.CloseAndToggleFacts | src/app/shared/conductor-chat/services/modal-state.service.ts:113-138 | closing clears that modal only; toggling flips it, by closing an open modal and opening a closed one |
| ModalState.ToggleMenuTwice | src/app/shared/conductor-chat/services/modal-state.service.ts:127-138 | toggling the options menu twice restores the state |
| ModalState.OpenAmongOrdered | src/app/shared/conductor-chat/services/modal-state.service.ts:168-171 | filtering keeps the keys in declaration order |
| ModalState.OpenModalsExact | src/app/shared/conductor-chat/services/modal-state.service.ts:168-171 | the open list holds each modal exactly when it is open, in declaration order |
| ModalState.AnyOpenIffOpenModals | src/app/shared/conductor-chat/services/modal-state.service.ts:151-154 | some modal is open exactly when the open list is non-empty |
| ModalState.EscapeClosesLastOpen | src/app/shared/conductor-chat/services/modal-state.service.ts:176-185 | escape closes the last open modal in declaration order and no other; with none open it changes nothing |
| ModalState.ModalStateService.constructor | src/app/shared/conductor-chat/services/modal-state.service.ts:45-67 | the service starts with the all-closed record |
| ModalState.ModalStateService.IsOpen | src/app/shared/conductor-chat/services/modal-state.service.ts:79-81 | the answer is that modal's flag |
| ModalState.ModalStateService.GetOpenModals | src/app/shared/conductor-chat/services/modal-state.service.ts:168-171 | the result holds a modal exactly when its flag is set |
| ModalState.ModalStateService.IsAnyModalOpen | src/app/shared/conductor-chat/services/modal-state.service.ts:151-154 | true exactly when the open list is non-empty |
| ModalState.ModalStateService.Open | src/app/shared/conductor-chat/services/modal-state.service.ts:95-108 | the new record is the opened one |
| ModalState.ModalStateService.Close | src/app/shared/conductor-chat/services/modal-state.service.ts:113-122 | the new record is the closed one |
| ModalState.ModalStateService.Toggle | src/app/shared/conductor-chat/services/modal-state.service.ts:127-138 | the new record is the toggled one |
| ModalState.ModalStateService.CloseAll | src/app/shared/conductor-chat/services/modal-state.service.ts:143-146 | every modal is closed again |
| ModalState.ModalStateService.HandleEscapeKey | src/app/shared/conductor-chat/services/modal-state.service.ts:176-185 | the new record is the one after escape |
| LayerTypes.FindIn | src/app/layered-editor/layer-types.ts:127-129 | the lookup yields a definition with that id, and nothing exactly when no definition has it |
| LayerTypes.LookupAt | src/app/layered-editor/layer-types.ts:27-90 | the i-th listed id finds the i-th definition, whose z-index is i |
| LayerTypes.KnownIffListed | src/app/layered-editor/layer-types.ts:127-129 | exactly the seven defined ids are known |
| LayerTypes.MissingAmong | src/app/layered-editor/layer-types.ts:136-140 | the result holds exactly the dependencies that are not active |
| LayerTypes.MissingPairs | src/app/layered-editor/layer-types.ts:134-143 | a (layer, dependency) pair is listed exactly when the layer is given, the dependency is its own and the dependency is inactive |
| LayerTypes.Messages | src/app/layered-editor/layer-types.ts:139 | one message per pair, each naming the layer and the dependency it needs |
| LayerTypes.NoErrorsIffClosed | src/app/layered-editor/layer-types.ts:131-146 | there is no error exactly when every dependency of every active layer is active |
| LayerTypes.ErrorPerMissingPair | src/app/layered-editor/layer-types.ts:131-146 | one error per active layer and missing dependency, each that pair's message |
| LayerTypes.FullPresetIsValid | src/app/layered-editor/layer-types.ts:93-124 | the preset that switches every layer on has no dependency error |
| LayerTypes.DependenciesListed | src/app/layered-editor/layer-types.ts:27-90 | every dependency of a definition is a defined id |
| LayerTypes.KnownLayers | src/app/layered-editor/layer-types.ts:148-153 | the known definitions are never more than the ids given |
| LayerTypes.KnownLayersMembers | src/app/layered-editor/layer-types.ts:148-153 | a definition is kept exactly when one of the given ids finds it |
| LayerTypes.LayersByZIndexFacts | src/app/layered-editor/layer-types.ts:148-153 | the result is sorted by z-index and a permutation of the known ids' definitions |
| LayerTypes.LayerService.ValidateLayerDependencies | src/app/layered-editor/layer-types.ts:131-146 | the loop returns exactly the dependency errors of the active layers |
| LayerTypes.LayerService.LayerErrors | src/app/layered-editor/layer-types.ts:135-142 | the inner loop returns one message per inactive dependency of the layer |
| LayerTypes.LayerPairs | src/app/layered-editor/layer-types.ts:137-139 | one pair per dependency, pairing it with the layer |
| LayerTypes.MessagesAppend | src/app/layered-editor/layer-types.ts:139 | the messages of joined pair lists are the joined messages |
| LayeredEditor.Applied | src/app/layered-editor/layered-editor.ts:315-319 | after clearing and adding each preset layer the active set holds exactly those layers, once each |
| LayeredEditor.WithoutBase | src/app/layered-editor/layered-editor.ts:330-332 | the filtered list holds exactly the active layers other than the base |
| LayeredEditor.FindBlock | src/app/layered-editor/layered-editor.ts:381 | the index found holds a block with that id, and none is found exactly when no block has it |
| LayeredEditor.FieldOr | src/app/layered-editor/layered-editor.ts:348-358 | an unknown layer or an empty field gives the fallback; otherwise the definition's field |
| LayeredEditor.InitialActiveIsValid | src/app/layered-editor/layered-editor.ts:176-191 | the document starts with the base and structure layers and no dependency error |
| LayeredEditor.CanToggleFacts | src/app/layered-editor/layered-editor.ts:306-313 | the base layer can never be toggled; a layer without dependencies always can; switching on a toggleable layer adds only it |
| LayeredEditor.ToggleOnAllowedKeepsValid | src/app/layered-editor/layered-editor.ts:297-304 | switching on a layer the check allows keeps a valid active set valid |
| LayeredEditor.ToggleOffKeepsValidUnlessNeeded | src/app/layered-editor/layered-editor.ts:297-304 | switching a layer off keeps a valid set valid when no active layer depends on it |
| LayeredEditor.AppliedLength | src/app/layered-editor/layered-editor.ts:315-319 | a preset with distinct layers gives an active set of the same size |
| LayeredEditor.ApplyThenPresetActive | src/app/layered-editor/layered-editor.ts:315-324 | after applying a preset with distinct layers that preset shows as active |
| LayeredEditor.PresetsApplyActive | src/app/layered-editor/layered-editor.ts:315-324 | each defined zoom preset shows as active right after it is applied |
| LayeredEditor.PresetActiveMeansSameMembers | src/app/layered-editor/layered-editor.ts:321-324 | for distinct lists a preset shows as active exactly when it and the active set have the same members |
| LayeredEditor.ActiveLayersViewFacts | src/app/layered-editor/layered-editor.ts:330-338 | the view leaves out the base layer, keeps every other active layer once and is sorted by z-index |
| LayeredEditor.SaveUpserts | src/app/layered-editor/layered-editor.ts:377-391 | saving replaces the block with the same id in place or appends it, and other layers are untouched |
| LayeredEditor.SaveWithoutEditingIsNoop | src/app/layered-editor/layered-editor.ts:377-378 | with nothing in the editor saving changes nothing |
| LayeredEditor.SaveKeepsBlockIdsDistinct | src/app/layered-editor/layered-editor.ts:377-391 | block ids distinct within a layer stay distinct after a save |
| LayeredEditor.LayeredEditorState.constructor | src/app/layered-editor/layered-editor.ts:176-191 | the document starts with its base text, no layer content, the base and structure layers on and no errors |
| LayeredEditor.LayeredEditorState.ValidateLayers | src/app/layered-editor/layered-editor.ts:326-328 | the errors become the dependency errors of the active layers, nothing else changes |
| LayeredEditor.LayeredEditorState.ToggleLayer | src/app/layered-editor/layered-editor.ts:297-304 | the active set is the toggled one and the errors are revalidated |
| LayeredEditor.LayeredEditorState.CanToggleLayer | src/app/layered-editor/layered-editor.ts:306-313 | true exactly for a non-base layer whose dependencies are all active |
| LayeredEditor.LayeredEditorState.ApplyZoomPreset | src/app/layered-editor/layered-editor.ts:315-319 | the active set is the preset's layers and the errors are revalidated |
| LayeredEditor.LayeredEditorState.IsPresetActiveNow | src/app/layered-editor/layered-editor.ts:321-324 | true exactly when the preset has the active set's size and each of its layers is active |
| LayeredEditor.LayeredEditorState.GetActiveLayers | src/app/layered-editor/layered-editor.ts:330-338 | the active non-base layers, sorted by z-index |
| LayeredEditor.LayeredEditorState.GetLayerContent | src/app/layered-editor/layered-editor.ts:340-342 | a layer's blocks, or none for a layer without content |
| LayeredEditor.LayeredEditorState.OnContentChange | src/app/layered-editor/layered-editor.ts:369-371 | only the base text changes |
| LayeredEditor.LayeredEditorState.EditLayerContent | src/app/layered-editor/layered-editor.ts:373-375 | only the block in the editor changes |
| LayeredEditor.LayeredEditorState.SaveLayerContent | src/app/layered-editor/layered-editor.ts:377-391 | the layers are the saved ones and the editor is closed |
| LayeredEditor.LayeredEditorState.CloseEditor | src/app/layered-editor/layered-editor.ts:393-395 | the editor is emptied and nothing else changes |
| AgentPersonalization.LetterFor | src/app/services/agent-personalization.service.ts:97-101 | the picked letter is an upper-case letter A to Z |
| AgentPersonalization.PutAll | src/app/services/agent-personalization.service.ts:21-35 | setting each stored entry into the cache keeps one entry per id |
| AgentPersonalization.Upserted | src/app/services/agent-personalization.service.ts:73-77 | setting each given profile keeps one entry per id |
| AgentPersonalization.DefaultProfileFacts | src/app/services/agent-personalization.service.ts:79-101 | the default profile is an inspector named after a letter, with one of the four roles, both picked by the absolute hash of the id modulo the list length |
| AgentPersonalization.ProfileFromCases | src/app/services/agent-personalization.service.ts:47-53 | a stored profile wins; an id not stored gets the default profile |
| AgentPersonalization.SetThenGet | src/app/services/agent-personalization.service.ts:55-66 | after setting, the agent reads back the patched profile and every other agent reads as before |
| AgentPersonalization.EmptyPatchKeepsProfile | src/app/services/agent-personalization.service.ts:58-63 | an empty patch stores the current profile under the given id |
| AgentPersonalization.UpsertLastWins | src/app/services/agent-personalization.service.ts:73-77 | the last profile given for an id is the one read back |
| AgentPersonalization.AgentPersonalizationService.constructor | src/app/services/agent-personalization.service.ts:17-19 | the service starts unloaded with an empty cache over the given storage |
| AgentPersonalization.AgentPersonalizationService.EnsureLoaded | src/app/services/agent-personalization.service.ts:21-35 | the first call loads every stored entry into the cache; later calls change nothing |
| AgentPersonalization.AgentPersonalizationService.Persist | src/app/services/agent-personalization.service.ts:37-45 | the stored value becomes the cache and nothing else changes |
| AgentPersonalization.AgentPersonalizationService.GetProfile | src/app/services/agent-personalization.service.ts:47-53 | after loading, the result is the stored profile or the default one |
| AgentPersonalization.AgentPersonalizationService.SetProfile | src/app/services/agent-personalization.service.ts:55-66 | after loading, the agent's patched profile is set into the cache and the cache is persisted |
| AgentPersonalization.AgentPersonalizationService.GetAllProfiles | src/app/services/agent-personalization.service.ts:68-71 | after loading, the result is every cached profile in order |
| AgentPersonalization.AgentPersonalizationService.UpsertMany | src/app/services/agent-personalization.service.ts:73-77 | after loading, each profile is set in turn and the cache is persisted |
| GamificationEvents.Reverse | src/app/services/gamification-events.service.ts:46 | the reversed list has the same length with each event mirrored |
| GamificationEvents.PushedFacts | src/app/services/gamification-events.service.ts:49-53 | the feed never exceeds 50 events; the new event is last and the others are the newest old ones, in order |
| GamificationEvents.RecentNewestFirst | src/app/services/gamification-events.service.ts:44-47 | the events read are the newest ones, newest first: min(limit, length) of them for a positive limit, and all but the first -limit for any other |
| GamificationEvents.RecentZeroIsWholeFeed | src/app/services/gamification-events.service.ts:44-47 | a zero limit reads the whole feed, reversed |
| GamificationEvents.DeriveEntryFacts | src/app/services/gamification-events.service.ts:56-77 | an agent's remembered total becomes its clamped count, and a success event is pushed exactly when that count grew |
| GamificationEvents.SuccessTitleFacts | src/app/services/gamification-events.service.ts:91-99 | the success title starts with the agent's emoji and ends with one execution or with the count of new executions |
| GamificationEvents.NoDataWarningIff | src/app/services/gamification-events.service.ts:80-88 | the no-data warning is pushed exactly when there are no metrics and the feed is empty |
| GamificationEvents.RederiveSameTotalsIsQuiet | src/app/services/gamification-events.service.ts:59-61 | deriving again from unchanged counts pushes nothing new |
| GamificationEvents.GamificationEventsService.constructor | src/app/services/gamification-events.service.ts:25-29 | the feed and the remembered totals start empty |
| GamificationEvents.GamificationEventsService.GetRecent | src/app/services/gamification-events.service.ts:44-47 | exactly min(limit, length) events for a positive limit, and all but the first -limit otherwise, always the newest ones, newest first |
| GamificationEvents.GamificationEventsService.PushEvent | src/app/services/gamification-events.service.ts:49-53 | the feed is the bounded push and the remembered totals are unchanged |
| GamificationEvents.GamificationEventsService.DeriveExecutionEvents | src/app/services/gamification-events.service.ts:55-89 | the loop leaves the feed and totals the derivation over all metrics entries gives |
| GamificationEvents.GamificationEventsService.PushBuildEvent | src/app/services/gamification-events.service.ts:102-104 | pushes an info event in the build category, titled with the construction emoji |
| GamificationEvents.GamificationEventsService.PushCriticalEvent | src/app/services/gamification-events.service.ts:106-108 | pushes an error event in the critical category, titled with the fire emoji |
| GamificationEvents.GamificationEventsService.PushAnalysisEvent | src/app/services/gamification-events.service.ts:110-112 | pushes an info event in the analysis category, titled with the chart emoji |
| ScreenplayFileManagement.ReplaceInvalid | src/app/services/screenplay-file-management.service.ts:238 | each invalid file-name character becomes an underscore and every other character is kept |
| ScreenplayFileManagement.DropRun | src/app/services/screenplay-file-management.service.ts:239-240 | the rest after a leading run is a suffix of the text that does not start inside the run |
| ScreenplayFileManagement.CollapseRuns | src/app/services/screenplay-file-management.service.ts:239-240 | collapsing leaves empty text empty and starts with the replacement exactly when the text starts with a run |
| ScreenplayFileManagement.CollapseKeepsOut | src/app/services/screenplay-file-management.service.ts:238-240 | collapsing brings back no character that was absent and that the replacement is not |
| ScreenplayFileManagement.CollapseRemovesRuns | src/app/services/screenplay-file-management.service.ts:239 | after replacing white-space runs by an underscore no white space is left |
| ScreenplayFileManagement.CollapseNoRepeat | src/app/services/screenplay-file-management.service.ts:240 | after squashing underscore runs no two underscores are neighbours |
| ScreenplayFileManagement.SanitizeFilenameFacts | src/app/services/screenplay-file-management.service.ts:235-242 | the cleaned name has no invalid character, no white space, no two underscores in a row and at most 200 characters |
| ScreenplayFileManagement.LowerOfMd | src/app/services/screenplay-file-management.service.ts:442 | a name ending in .md passes the case-insensitive extension test |
| ScreenplayFileManagement.MdNameRoundTrip | src/app/services/screenplay-file-management.service.ts:421-446 | a name free of invalid characters with .md appended is valid and its base name is the name given |
| ScreenplayFileManagement.GeneratedFilenameRoundTrip | src/app/services/screenplay-file-management.service.ts:451-454 | a generated file name is valid and its base name is the cleaned title |
| ScreenplayFileManagement.ValidFilenameSplits | src/app/services/screenplay-file-management.service.ts:421-446 | a valid name is its base name followed by .md in some letter case |
| ScreenplayFileManagement.FileChecksInOrder | src/app/services/screenplay-file-management.service.ts:125-152 | a file passes exactly with a .md extension, non-blank content and at most 10 MB, and each failure gives its own message in that order |
| ScreenplayFileManagement.CrlfToLf | src/app/services/screenplay-file-management.service.ts:284 | replacing CR LF pairs never lengthens the text |
| ScreenplayFileManagement.TabsToSpaces | src/app/services/screenplay-file-management.service.ts:285 | no tab is left |
| ScreenplayFileManagement.SpaceRun | src/app/services/screenplay-file-management.service.ts:286 | the leading run of spaces is measured exactly |
| ScreenplayFileManagement.StripLineEndsFacts | src/app/services/screenplay-file-management.service.ts:286 | no space is left at the end of a line or of the text, and no tab is brought in |
| ScreenplayFileManagement.StripLineEndsNoSpace | src/app/services/screenplay-file-management.service.ts:286 | no space is left before a line end or at the end of the text |
| ScreenplayFileManagement.StripLineEndsKeepsOut | src/app/services/screenplay-file-management.service.ts:286 | stripping only removes characters, so a character absent from the input is absent from the output |
| ScreenplayFileManagement.NormalizedShape | src/app/services/screenplay-file-management.service.ts:281-287 | normalised content has no tab and no space at the end of any line |
| ScreenplayFileManagement.ConflictIsInequality | src/app/services/screenplay-file-management.service.ts:255-287 | content never conflicts with itself, conflict is symmetric, and texts equal up to outer white space never conflict |
| ScreenplayFileManagement.ContentPreviewFacts | src/app/services/screenplay-file-management.service.ts:472-478 | short content is returned unchanged; longer content is cut to the limit and followed by three dots |
| ScreenplayFileManagement.CloseBracket | src/app/services/screenplay-file-management.service.ts:518 | the first closing bracket from a position on, or the end of the text |
| ScreenplayFileManagement.EmptyLinkAt | src/app/services/screenplay-file-management.service.ts:518 | an empty link found at a position ends after it and within the text |
| ScreenplayFileManagement.StructureFacts | src/app/services/screenplay-file-management.service.ts:510-533 | the structure is valid exactly when there is no warning, and an odd count of code fences always warns |
| ScreenplayFileManagement.HeadedPlainTextIsValid | src/app/services/screenplay-file-management.service.ts:510-533 | a text that opens with a heading and has no link and no fence has no warning |
| ScreenplayFileManagement.ResolveConflictFacts | src/app/services/screenplay-file-management.service.ts:337-393 | overwriting keeps the stored identity with the disk text; keeping both makes an unsaved copy named after the original; cancelling changes nothing |
| ScreenplayFileManagement.FilePathInfoFacts | src/app/services/screenplay-file-management.service.ts:402-416 | the location line shows the identifier, or unknown when it is absent or empty |
| ScreenplayFileManagement.ExportFilenameFacts | src/app/services/screenplay-file-management.service.ts:165-166 | the exported name is the one given, else the cleaned screenplay name with .md, which is valid |
| CouncilorScheduler.ParseIntervalOfUnits | src/app/services/councilor-scheduler.service.ts:329-347 | N followed by m, h or d reads back as N minutes, hours or days in milliseconds |
| CouncilorScheduler.ParseIntervalDefault | src/app/services/councilor-scheduler.service.ts:332-335 | text that does not match digits then a unit, such as a bare number, a sign or a space, gets the 30-minute default |
| CouncilorScheduler.SeverityPrecedence | src/app/services/councilor-scheduler.service.ts:225-241 | error exactly when an error keyword occurs; warning exactly when only a warning keyword does; success when neither does |
| CouncilorScheduler.ShouldNotifyIffFlag | src/app/services/councilor-scheduler.service.ts:246-251 | notification happens exactly when the flag for that severity is set |
| CouncilorScheduler.ResultSummaryFacts | src/app/services/councilor-scheduler.service.ts:306-311 | empty output has the fixed summary; otherwise the first line, cut to 100 characters plus three dots |
| CouncilorScheduler.PanelEventFacts | src/app/services/councilor-scheduler.service.ts:256-284 | a panel event is pushed exactly when the panel channel is on, with the matching feed severity and the critical category only for errors |
| CouncilorScheduler.ScheduleFacts | src/app/services/councilor-scheduler.service.ts:109-137 | an interval councilor ends with exactly the new timer, a cron councilor with none, and one without configuration is untouched |
| CouncilorScheduler.LockIsExclusive | src/app/services/councilor-scheduler.service.ts:148-153 | while a councilor holds the lock a second run starts nothing |
| CouncilorScheduler.CouncilorSchedulerService.constructor | src/app/services/councilor-scheduler.service.ts:36-41 | the service starts with no timers, no locks and no active investigations |
| CouncilorScheduler.CouncilorSchedulerService.CancelTask | src/app/services/councilor-scheduler.service.ts:352-360 | the councilor's timer is dropped |
| CouncilorScheduler.CouncilorSchedulerService.ScheduleTask | src/app/services/councilor-scheduler.service.ts:109-137 | the new state is the scheduled one |
| CouncilorScheduler.CouncilorSchedulerService.BeginExecution | src/app/services/councilor-scheduler.service.ts:148-155 | the lock is taken unless the councilor already holds it, and the result says whether the run starts |
| CouncilorScheduler.CouncilorSchedulerService.EndExecution | src/app/services/councilor-scheduler.service.ts:217-219 | the councilor's lock is released |
| CouncilorScheduler.CouncilorSchedulerService.IncrementActiveInvestigations | src/app/services/councilor-scheduler.service.ts:428-430 | the count goes up by one and nothing else changes |
| CouncilorScheduler.CouncilorSchedulerService.DecrementActiveInvestigations | src/app/services/councilor-scheduler.service.ts:435-438 | the count goes down by one but never below zero |
| CouncilorScheduler.CouncilorSchedulerService.Destroy | src/app/services/councilor-scheduler.service.ts:454-467 | every timer and lock is dropped |
| AgentCreator.Keep | src/app/living-screenplay-simple/agent-creator/agent-creator.component.ts:762 | the kept characters all satisfy the predicate, come from the text and are never more than it |
| AgentCreator.KeepAll | src/app/living-screenplay-simple/agent-creator/agent-creator.component.ts:762 | text made only of allowed characters is kept as it is |
| AgentCreator.CleanNameFacts | src/app/living-screenplay-simple/agent-creator/agent-creator.component.ts:760-763 | a cleaned name holds only ASCII letters, digits and underscores, and cleaning it again changes nothing |
| AgentCreator.NameMessageAgreesWithValidity | src/app/living-screenplay-simple/agent-creator/agent-creator.component.ts:765-779 | on a cleaned name the message announces the saved name, the name plus _Agent, exactly when the name is valid; the saved name always ends in _Agent |
| AgentCreator.DescriptionMessageFacts | src/app/living-screenplay-simple/agent-creator/agent-creator.component.ts:782-792 | the message reads valid whenever the description is valid, and also past 200 trimmed characters, where the check fails |
| AgentCreator.PersonaMessageAgrees | src/app/living-screenplay-simple/agent-creator/agent-creator.component.ts:808-819 | the persona message reads valid exactly when the trimmed persona starts with a hash and has at least 50 characters |
| AgentCreator.AddTagFacts | src/app/living-screenplay-simple/agent-creator/agent-creator.component.ts:795-801 | a tag is added exactly when it normalises to something non-empty and new while fewer than ten are held, and the input is then cleared; the list stays unique and normalised |
| AgentCreator.SpliceOne | src/app/living-screenplay-simple/agent-creator/agent-creator.component.ts:803-805 | splicing one element removes at most one |
| AgentCreator.SpliceStart | src/app/living-screenplay-simple/agent-creator/agent-creator.component.ts:803-805 | the splice start is within the list, and is the index when that is in range |
| AgentCreator.RemoveTagFacts | src/app/living-screenplay-simple/agent-creator/agent-creator.component.ts:803-805 | removal keeps the list unique and normalised, and an index in range drops exactly that tag |
| AgentCreator.RemoveFirst | src/app/living-screenplay-simple/agent-creator/agent-creator.component.ts:831-833 | removing an absent sidecar changes nothing and removal adds nothing |
| AgentCreator.RemoveFirstOfDistinct | src/app/living-screenplay-simple/agent-creator/agent-creator.component.ts:831-833 | on a list without repeats, removal drops exactly that sidecar |
| AgentCreator.ToggleSidecarFacts | src/app/living-screenplay-simple/agent-creator/agent-creator.component.ts:829-836 | toggling keeps the selection free of repeats and flips the membership of that sidecar only |
| AgentCreator.ToggleSidecarTwice | src/app/living-screenplay-simple/agent-creator/agent-creator.component.ts:829-836 | toggling twice restores every membership, and the list itself when the sidecar was not selected |
| AgentCreator.RemoveAppended | src/app/living-screenplay-simple/agent-creator/agent-creator.component.ts:829-836 | removing the sidecar just appended gives the list back |
| AgentCreator.FormatSidecarNameFacts | src/app/living-screenplay-simple/agent-creator/agent-creator.component.ts:842-845 | a shown name is at most 25 characters: short names whole, long ones cut to 22 plus three dots |
| AgentCreator.FilterSidecars | src/app/living-screenplay-simple/agent-creator/agent-creator.component.ts:822-827 | a sidecar is listed exactly when it is available and its lower-cased name includes the lower-cased filter |
| AgentCreator.FilterSidecarsIsFilter | src/app/living-screenplay-simple/agent-creator/agent-creator.component.ts:822-827 | the listed sidecars are the order-keeping filter of the available ones |
| AgentCreator.EmptyFilterKeepsAll | src/app/living-screenplay-simple/agent-creator/agent-creator.component.ts:822-827 | an empty filter lists every available sidecar |
| AgentCreator.FormValidIffNoIssues | src/app/living-screenplay-simple/agent-creator/agent-creator.component.ts:848-858 | the form is valid exactly when no check is listed as failing |
| AgentCreator.AgentCreatorForm.constructor | src/app/living-screenplay-simple/agent-creator/agent-creator.component.ts:715-741 | the form starts with its initial values and the loaded sidecars sorted, the same ones, all of them shown |
| Sorting.SortTexts | src/app/living-screenplay-simple/agent-creator/agent-creator.component.ts:735 | sort() without a comparator gives the same strings in ascending character order |
| AgentCreator.AgentCreatorForm.SelectEmoji | src/app/living-screenplay-simple/agent-creator/agent-creator.component.ts:744-747 | the chosen emoji is selected and the custom one cleared; every other field of the form is kept |
| AgentCreator.AgentCreatorForm.OnCustomEmojiInput | src/app/living-screenplay-simple/agent-creator/agent-creator.component.ts:749-753 | a non-empty custom emoji clears the selected one; every other field is kept |
| AgentCreator.AgentCreatorForm.OnNameInput | src/app/living-screenplay-simple/agent-creator/agent-creator.component.ts:760-763 | the name becomes its cleaned form; every other field is kept |
| AgentCreator.AgentCreatorForm.AddTag | src/app/living-screenplay-simple/agent-creator/agent-creator.component.ts:795-801 | the tags and input become the result of adding the tag, every other field is kept, and the form stays valid |
| AgentCreator.AgentCreatorForm.RemoveTag | src/app/living-screenplay-simple/agent-creator/agent-creator.component.ts:803-805 | the tags become the spliced list, every other field is kept, and the form stays valid |
| AgentCreator.AgentCreatorForm.FilterSidecarList | src/app/living-screenplay-simple/agent-creator/agent-creator.component.ts:822-827 | the shown sidecars become the filter of the available ones by the current filter text; every other field is kept |
| AgentCreator.AgentCreatorForm.ToggleSidecar | src/app/living-screenplay-simple/agent-creator/agent-creator.component.ts:829-836 | the selection becomes the toggled one and stays free of repeats; every other field is kept |
| AgentCreator.AgentCreatorForm.ResetForm | src/app/living-screenplay-simple/agent-creator/agent-creator.component.ts:890-901 | every field is back to its start value and all sidecars are listed |
| AgentCreator.AgentCreatorForm.OnClose | src/app/living-screenplay-simple/agent-creator/agent-creator.component.ts:877-880 | closing resets the form |
| AgentCreator.AgentCreatorForm.OnBackdropClick | src/app/living-screenplay-simple/agent-creator/agent-creator.component.ts:882-884 | a backdrop click closes and resets the form |
| AgentCreator.AgentCreatorForm.OnCreate | src/app/living-screenplay-simple/agent-creator/agent-creator.component.ts:860-875 | data is produced exactly when the form is valid, holding the chosen emoji, the full name, the trimmed texts, tags and sidecars, and the form is then reset; otherwise nothing changes |
| PersonaEdit.PersonaSize | src/app/services/persona-edit.service.ts:172-174 | the encoded size is between one and four bytes per character |
| PersonaEdit.BlankPersonaOneError | src/app/services/persona-edit.service.ts:140-143 | a blank persona gets exactly the one empty-persona error, no warning, and fails the simple check too |
| PersonaEdit.AdvancedValidityFacts | src/app/services/persona-edit.service.ts:146-164 | valid exactly when there is no error, exactly when the persona is not blank and fits in 10240 bytes; at most one error |
| PersonaEdit.WarningsFacts | src/app/services/persona-edit.service.ts:152-158 | the size warning appears exactly past 80 percent of the limit, the length warning exactly under 50 characters, in that order |
| PersonaEdit.AdvancedWarningFacts | src/app/services/persona-edit.service.ts:146-164 | a non-blank persona gets the warnings of its byte size and length |
| PersonaEdit.Prepended | src/app/services/persona-edit.service.ts:253-256 | the capped history is at most five long or just one longer than before |
| PersonaEdit.SaveThenLoad | src/app/services/persona-edit.service.ts:39-119 | a saved persona loads back, counts as edited exactly when it is not blank, and no other instance changes |
| PersonaEdit.InvalidSaveIsIgnored | src/app/services/persona-edit.service.ts:39-52 | an empty id or persona is refused and changes nothing, and an empty id loads nothing |
| PersonaEdit.ClearThenLoad | src/app/services/persona-edit.service.ts:86-99 | after clearing the persona is gone and not counted as edited |
| PersonaEdit.BackupThenRestore | src/app/services/persona-edit.service.ts:181-236 | restoring after a backup makes the backup the persona that loads |
| PersonaEdit.PrependedFacts | src/app/services/persona-edit.service.ts:243-263 | the newest edit comes first, older ones follow in order, and at most five are kept |
| PersonaEdit.SaveWithHistoryFacts | src/app/services/persona-edit.service.ts:290-307 | saving with history keeps every history at most five long, with the saved persona first |
| PersonaEdit.ClearAllFacts | src/app/services/persona-edit.service.ts:373-389 | clearing all data leaves no persona, no backup and an empty history for the instance |
| PersonaEdit.PersonaEditService.constructor | src/app/services/persona-edit.service.ts:26-30 | the service starts over the given browser storage |
| PersonaEdit.PersonaEditService.SavePersona | src/app/services/persona-edit.service.ts:39-52 | the storage becomes the one after the save |
| PersonaEdit.PersonaEditService.Load | src/app/services/persona-edit.service.ts:59-80 | a persona is returned exactly when a non-empty one is stored for a non-empty id, and it is the stored one |
| PersonaEdit.PersonaEditService.ClearPersona | src/app/services/persona-edit.service.ts:86-99 | the storage becomes the one after clearing |
| PersonaEdit.PersonaEditService.SaveOriginalPersona | src/app/services/persona-edit.service.ts:181-194 | the storage becomes the one after the backup |
| PersonaEdit.PersonaEditService.RestoreOriginalPersona | src/app/services/persona-edit.service.ts:219-236 | the storage becomes the one after restoring |
| PersonaEdit.PersonaEditService.AddToHistory | src/app/services/persona-edit.service.ts:243-263 | the storage becomes the one after adding to the history, which stays bounded |
| PersonaEdit.PersonaEditService.SavePersonaWithHistory | src/app/services/persona-edit.service.ts:290-307 | the storage becomes the one after saving and adding to the history |
| PersonaEdit.PersonaEditService.ClearHistory | src/app/services/persona-edit.service.ts:355-367 | the storage becomes the one without the instance's history |
| PersonaEdit.PersonaEditService.ClearAllData | src/app/services/persona-edit.service.ts:373-389 | the storage becomes the one with the instance's persona, backup and history removed |
| AgentInstanceManagement.DefinitionFor | src/app/services/agent-instance-management.service.ts:339-348 | a listed emoji gets its table definition; any other text gets the unknown-agent placeholder carrying that text |
| AgentInstanceManagement.RocketIsPerformanceAgent | src/app/services/agent-instance-management.service.ts:62-82 | the rocket emoji's definition is the performance agent |
| AgentInstanceManagement.PlainTextIsUnknownAgent | src/app/services/agent-instance-management.service.ts:339-348 | a text that is not in the table gets the placeholder |
| AgentInstanceManagement.Merge | src/app/services/agent-instance-management.service.ts:159 | the merged instance keeps the stored id |
| AgentInstanceManagement.AfterClear | src/app/services/agent-instance-management.service.ts:217-222 | clearing leaves no instance and no selection |
| AgentInstanceManagement.LastWithId | src/app/services/agent-instance-management.service.ts:227-240 | the last instance with the id, found exactly when one has it |
| AgentInstanceManagement.LegacyAgentConfigs | src/app/services/agent-instance-management.service.ts:388-398 | one legacy entry per visible instance, in order, carrying its fields |
| AgentInstanceManagement.UpdateFacts | src/app/services/agent-instance-management.service.ts:147-169 | an unknown id changes nothing; a known one reads back as the merge, every other id reads as before, the size and selection are kept |
| AgentInstanceManagement.EmptyPatchChangesNothing | src/app/services/agent-instance-management.service.ts:159 | an empty patch leaves the registry as it was |
| AgentInstanceManagement.RemoveFacts | src/app/services/agent-instance-management.service.ts:174-212 | an unknown id changes nothing; a soft delete marks the entry deleted at the given time; a hard delete drops it; other ids are kept; the selection is cleared exactly when it had that id |
| AgentInstanceManagement.RemoveCounts | src/app/services/agent-instance-management.service.ts:174-212 | a soft delete keeps the number of instances and a hard delete takes one away |
| AgentInstanceManagement.RemoveOneOfDistinct | src/app/services/agent-instance-management.service.ts:198 | deleting a present key from a map takes exactly one entry away |
| AgentInstanceManagement.RemoveAbsent | src/app/services/agent-instance-management.service.ts:198 | deleting an absent key changes nothing |
| AgentInstanceManagement.AddKeepsWellFormed | src/app/services/agent-instance-management.service.ts:131-142 | adding keeps every instance stored once, under its own id |
| AgentInstanceManagement.UpdateAndRemoveKeepWellFormed | src/app/services/agent-instance-management.service.ts:147-212 | updating and removing keep every instance stored once, under its own id |
| AgentInstanceManagement.LoadedFacts | src/app/services/agent-instance-management.service.ts:227-240 | loading keeps one entry per id, each holding the last instance given with that id |
| AgentInstanceManagement.NewInstanceFacts | src/app/services/agent-instance-management.service.ts:328-370 | a created instance is pending, not deleted, with the emoji's definition and the options' flags |
| AgentInstanceManagement.QueryMembers | src/app/services/agent-instance-management.service.ts:272-315 | each query returns exactly the stored instances that satisfy its filter |
| AgentInstanceManagement.StatisticsFacts | src/app/services/agent-instance-management.service.ts:428-445 | active plus deleted is the total, and the hidden, system-default and status counts stay within the active count |
| AgentInstanceManagement.StatusCountsSum | src/app/services/agent-instance-management.service.ts:428-445 | the four status counts add up to the active count |
| AgentInstanceManagement.SoftDeleteMovesToDeleted | src/app/services/agent-instance-management.service.ts:174-212 | soft-deleting an active instance moves it from the active count to the deleted count, total kept |
| AgentInstanceManagement.FilterAfterUpdate | src/app/services/agent-instance-management.service.ts:428-445 | replacing one element changes a filter's count by that element's change of membership |
| AgentInstanceManagement.AgentInstanceManagementService.constructor | src/app/services/agent-instance-management.service.ts:106-108 | the service starts with no instances and no selection |
| AgentInstanceManagement.AgentInstanceManagementService.GetInstance | src/app/services/agent-instance-management.service.ts:124-126 | an instance is found exactly when one is stored under the id, and it carries that id |
| AgentInstanceManagement.AgentInstanceManagementService.AddInstance | src/app/services/agent-instance-management.service.ts:131-142 | the registry becomes the one after adding, and stays well formed |
| AgentInstanceManagement.AgentInstanceManagementService.UpdateInstance | src/app/services/agent-instance-management.service.ts:147-169 | the registry becomes the one after the update, and stays well formed |
| AgentInstanceManagement.AgentInstanceManagementService.RemoveInstance | src/app/services/agent-instance-management.service.ts:174-212 | the registry becomes the one after the removal, soft by default, and stays well formed |
| AgentInstanceManagement.AgentInstanceManagementService.ClearInstances | src/app/services/agent-instance-management.service.ts:217-222 | no instance and no selection remain |
| AgentInstanceManagement.AgentInstanceManagementService.LoadInstances | src/app/services/agent-instance-management.service.ts:227-240 | the map is rebuilt from the list and the selection is kept |
| AgentInstanceManagement.AgentInstanceManagementService.SetSelectedAgent | src/app/services/agent-instance-management.service.ts:249-256 | only the selection changes |
| AgentInstanceManagement.AgentInstanceManagementService.CreateInstance | src/app/services/agent-instance-management.service.ts:328-370 | the new instance is built from the emoji, position, options and id, and added |
| AgentInstanceManagement.AgentInstanceManagementService.UpdatePosition | src/app/services/agent-instance-management.service.ts:403-405 | the registry becomes the one after a position-only update |
| AgentInstanceManagement.AgentInstanceManagementService.UpdateStatus | src/app/services/agent-instance-management.service.ts:410-412 | the registry becomes the one after a status-only update |
| AgentInstanceManagement.AgentInstanceManagementService.UpdateExecutionState | src/app/services/agent-instance-management.service.ts:417-419 | the registry becomes the one after an execution-state-only update |
| TaskObservability.LevelFacts | src/app/services/task-observability.service.ts:318-332 | inputted and submitted are debug, pending and processing are info, completed and error are results, each exactly |
| TaskObservability.Summary | src/app/services/task-observability.service.ts:306 | the summary is absent exactly when the result is, is a prefix of at most 200 characters, and is the whole result when that is short |
| TaskObservability.LocalEvent | src/app/services/task-observability.service.ts:291-313 | the event carries the type, the id and status of the tracked task, the level of its status, its result summary and duration |
| TaskObservability.InputtedTask | src/app/services/task-observability.service.ts:129-146 | the recorded task has the given id or a fresh one, the given emoji or the default, status inputted, both times now and no outcome |
| TaskObservability.SubmittedTask | src/app/services/task-observability.service.ts:164-180 | the entry recorded before sending has the payload's id, status inputted and update time now |
| TaskObservability.StatusUpdateFacts | src/app/services/task-observability.service.ts:215-227 | an unknown task is ignored; a known one gets the status and update time, and error, result and duration only when given; others stay |
| TaskObservability.WebSocketFacts | src/app/services/task-observability.service.ts:232-255 | picked and processing reports mean processing, completed stores the summary as result with the duration, error stores the summary as error; echoes and unknown tasks change nothing |
| TaskObservability.CleanupFacts | src/app/services/task-observability.service.ts:267-286 | cleanup keeps exactly the tasks that are unfinished or younger than the age limit, in order |
| TaskObservability.StaleIdsStep | src/app/services/task-observability.service.ts:271-276 | one more entry adds its id to the list to remove exactly when it is stale |
| TaskObservability.DeletedAllIsFilter | src/app/services/task-observability.service.ts:278-281 | deleting ids one after another drops exactly the entries with those ids |
| TaskObservability.FilterAll | src/app/services/task-observability.service.ts:267-286 | keeping every entry keeps the list |
| TaskObservability.RemoveIsFilter | src/app/services/task-observability.service.ts:278-281 | deleting one key drops exactly the entries with that key |
| TaskObservability.FilterTwice | src/app/services/task-observability.service.ts:267-286 | filtering twice is filtering by both predicates |
| TaskObservability.DeletingStaleIdsCleans | src/app/services/task-observability.service.ts:267-286 | with distinct keys, deleting the collected stale ids drops exactly the stale tasks |
| TaskObservability.RecordKeepsWellFormed | src/app/services/task-observability.service.ts:129-156 | recording keeps every task stored once, under its own id |
| TaskObservability.StatusKeepsWellFormed | src/app/services/task-observability.service.ts:215-227 | a status update keeps every task stored once, under its own id |
| TaskObservability.CleanedKeepsWellFormed | src/app/services/task-observability.service.ts:267-286 | cleanup keeps every task stored once, under its own id |
| TaskObservability.OrderKept | src/app/services/task-observability.service.ts:267-286 | the tasks kept appear in the same order as before |
| TaskObservability.TaskObservabilityService.constructor | src/app/services/task-observability.service.ts:103-105 | the service starts with no active task |
| TaskObservability.TaskObservabilityService.GetTask | src/app/services/task-observability.service.ts:260-262 | a task is found exactly when one is stored under the id, and it carries that id |
| TaskObservability.TaskObservabilityService.EmitInputtedEvent | src/app/services/task-observability.service.ts:129-156 | the typed task is recorded and its inputted event returned |
| TaskObservability.TaskObservabilityService.SubmitTask | src/app/services/task-observability.service.ts:164-187 | the submitted task is recorded as inputted and its inputted event returned |
| TaskObservability.TaskObservabilityService.OnSubmitAccepted | src/app/services/task-observability.service.ts:193-199 | the tracked entry becomes submitted, and a submitted event is returned exactly when that task id is known |
| TaskObservability.TaskObservabilityService.OnSubmitFailed | src/app/services/task-observability.service.ts:200-208 | the tracked entry becomes an error with the submission message, and an error event is returned exactly when that task id is known |
| TaskObservability.TaskObservabilityService.UpdateTaskStatus | src/app/services/task-observability.service.ts:215-227 | the tasks become the ones after the status update |
| TaskObservability.TaskObservabilityService.HandleWebSocketEvent | src/app/services/task-observability.service.ts:232-255 | the tasks become the ones after the backend report |
| TaskObservability.TaskObservabilityService.CleanupOldTasks | src/app/services/task-observability.service.ts:267-286 | the loops leave exactly the cleaned tasks, with a 300000 ms age limit by default |
| TaskObservability.CollectStale | src/app/services/task-observability.service.ts:271-276 | the first loop collects the ids of exactly the stale tasks, in map order |
| TaskObservability.DeleteEach | src/app/services/task-observability.service.ts:278-281 | the second loop deletes every collected id in turn |
| LayerDatabase.Initial | src/app/living-screenplay-simple/layer-database.service.ts:178-452 | the service starts with the sample layers under the main screenplay and its empty version-1 document |
| LayerDatabase.LayerIndex | src/app/living-screenplay-simple/layer-database.service.ts:53 | the index found is the first layer with that id, and none is found exactly when no layer has it |
| LayerDatabase.FindLayer | src/app/living-screenplay-simple/layer-database.service.ts:52-54 | the first document in map order holding the id, with the layer's position; none exactly when no document holds it |
| LayerDatabase.FindLayerIffHasLayer | src/app/living-screenplay-simple/layer-database.service.ts:51-93 | the search finds a layer exactly when some document holds one with that id |
| LayerDatabase.MergeLayer | src/app/living-screenplay-simple/layer-database.service.ts:51-55 | each top-level field the patch gives, the id included, replaces the layer's own whole; every other field is kept |
| LayerDatabase.GetDocument | src/app/living-screenplay-simple/layer-database.service.ts:95-99 | a document is returned exactly when one is stored under the id; otherwise the error is thrown |
| LayerDatabase.DocumentIdFromPath | src/app/living-screenplay-simple/layer-database.service.ts:468-470 | the id is never empty and is either the default or free of slashes |
| LayerDatabase.NoSlashAfterReplace | src/app/living-screenplay-simple/layer-database.service.ts:469 | removing the first .md from a segment brings in no slash |
| LayerDatabase.FilterLayers | src/app/living-screenplay-simple/layer-database.service.ts:141-172 | the filtered layers are exactly those that satisfy the predicate |
| LayerDatabase.CreateFacts | src/app/living-screenplay-simple/layer-database.service.ts:29-49 | the new layer, with the generated id, is appended to its document's layers, a creation event is logged, and other documents keep theirs |
| LayerDatabase.UpdateFacts | src/app/living-screenplay-simple/layer-database.service.ts:51-71 | with no layer of that id the error is thrown and nothing changes; otherwise the first such layer is replaced in place by the merge and an update event is logged |
| LayerDatabase.DeleteFacts | src/app/living-screenplay-simple/layer-database.service.ts:73-93 | the result is true exactly when a layer with that id existed, and then exactly one layer fewer remains |
| LayerDatabase.TotalAfterReplace | src/app/living-screenplay-simple/layer-database.service.ts:73-93 | replacing one document's list changes the total by the difference in length |
| LayerDatabase.DocumentUpdateFacts | src/app/living-screenplay-simple/layer-database.service.ts:101-115 | a missing document throws and changes nothing; otherwise the content and checksum are replaced and the version goes up by one |
| LayerDatabase.SyncFacts | src/app/living-screenplay-simple/layer-database.service.ts:117-139 | the fetched text is stored under the id from the path, one version past the stored document or version 1; no other document or layer changes |
| LayerDatabase.QueriesOverDocuments | src/app/living-screenplay-simple/layer-database.service.ts:156-172 | the user and dependency queries return exactly the matching layers of every document |
| LayerDatabase.PositionQueryFacts | src/app/living-screenplay-simple/layer-database.service.ts:146-154 | a layer is returned exactly when it lies within the radius; a negative radius returns nothing; a layer at the point itself is returned |
| LayerDatabase.FilterNothing | src/app/living-screenplay-simple/layer-database.service.ts:146-154 | a filter no layer passes returns nothing |
| LayerDatabase.ChecksumFacts | src/app/living-screenplay-simple/layer-database.service.ts:458-466 | two contents have the same checksum text exactly when their 32-bit hashes agree; empty content gives 0 |
| LayerDatabase.DocumentIdOfMarkdownPath | src/app/living-screenplay-simple/layer-database.service.ts:468-470 | a path ending in a plain .md file name gives that name without the extension |
| LayerDatabase.LastSegment | src/app/living-screenplay-simple/layer-database.service.ts:469 | the last segment of a path is the text after its final slash |
| LayerDatabase.DocumentIdExamples | src/app/living-screenplay-simple/layer-database.service.ts:468-470 | an empty path and a bare .md both give the default id |
| LayerDatabase.LayerDatabaseService.constructor | src/app/living-screenplay-simple/layer-database.service.ts:21-23 | the service starts from the sample data |
| LayerDatabase.LayerDatabaseService.CreateLayer | src/app/living-screenplay-simple/layer-database.service.ts:29-49 | the state and result are those of creating the layer |
| LayerDatabase.LayerDatabaseService.UpdateLayer | src/app/living-screenplay-simple/layer-database.service.ts:51-71 | the loop over documents leaves the state and result of the update |
| LayerDatabase.LayerDatabaseService.DeleteLayer | src/app/living-screenplay-simple/layer-database.service.ts:73-93 | the loop over documents leaves the state and result of the deletion |
| LayerDatabase.LayerDatabaseService.CalculateChecksum | src/app/living-screenplay-simple/layer-database.service.ts:458-466 | the shift-and-subtract loop truncated to 32 bits gives the checksum text |
| LayerDatabase.LayerDatabaseService.UpdateDocument | src/app/living-screenplay-simple/layer-database.service.ts:101-115 | the state and result are those of the document update |
| LayerDatabase.LayerDatabaseService.SyncWithDisk | src/app/living-screenplay-simple/layer-database.service.ts:117-139 | the state and document are those of syncing the fetched text |
| LayerDatabase.LayerDatabaseService.StoreUnder | src/app/living-screenplay-simple/layer-database.service.ts:123-134 | the document stored under the id is one version past the one it replaces, or version 1, and only that entry of the documents changes |
| ScreenplayTree.StripFirstFacts | src/app/living-screenplay-simple/screenplay-tree/screenplay-tree.component.ts:131-136 | a path with no matching prefix is returned unchanged; otherwise exactly the first matching prefix is cut off its front |
| ScreenplayTree.SanitizeKeeps | src/app/living-screenplay-simple/screenplay-tree/screenplay-tree.component.ts:120-139 | a path that cannot begin with any sensitive prefix is left alone |
| ScreenplayTree.SanitizeUserFolder | src/app/living-screenplay-simple/screenplay-tree/screenplay-tree.component.ts:122-128 | "C:\Users\" is tried before "C:\", so a Windows user folder loses the whole prefix |
| ScreenplayTree.ExtractProjectName | src/app/living-screenplay-simple/screenplay-tree/screenplay-tree.component.ts:93-118 | the project is "[Sem Projeto]" or a single path segment; a missing or empty path, or a sanitized path without a separator, has no project |
| ScreenplayTree.ProjectOfParts | src/app/living-screenplay-simple/screenplay-tree/screenplay-tree.component.ts:105-117 | the project chosen from the segments is "[Sem Projeto]" or one of the segments |
| ScreenplayTree.ProjectOfSplit | src/app/living-screenplay-simple/screenplay-tree/screenplay-tree.component.ts:96-105 | a path belongs to the project named by the segments of its sanitized form |
| ScreenplayTree.SanitizedJoin | src/app/living-screenplay-simple/screenplay-tree/screenplay-tree.component.ts:96-105 | a relative path joined from separator-free segments survives sanitizing and splits back into those segments |
| ScreenplayTree.ProjectOfDirFile | src/app/living-screenplay-simple/screenplay-tree/screenplay-tree.component.ts:105-117 | a file directly inside a top-level directory belongs to that directory, generic or not |
| ScreenplayTree.ProjectOfCommonDir | src/app/living-screenplay-simple/screenplay-tree/screenplay-tree.component.ts:112-114 | a file inside src, lib, app, components, services or docs belongs to the directory one level up |
| ScreenplayTree.ConductorExamples | src/app/living-screenplay-simple/screenplay-tree/screenplay-tree.component.ts:99-102 | "conductor/README.md" and "conductor-community/src/conductor/README.md" both belong to "conductor" |
| ScreenplayTree.BareFileHasNoProject | src/app/living-screenplay-simple/screenplay-tree/screenplay-tree.component.ts:94-106 | no path, or a bare file name, has no project |
| ScreenplayTree.ProjectOfNestedDir | src/app/living-screenplay-simple/screenplay-tree/screenplay-tree.component.ts:108-117 | deeper down, the directory holding the file names the project when it is not a generic one |
| ScreenplayTree.InProjectMembers | src/app/living-screenplay-simple/screenplay-tree/screenplay-tree.component.ts:53-61 | a screenplay is in a project's list exactly when it is in the input and extracts to that project |
| ScreenplayTree.GroupedFacts | src/app/living-screenplay-simple/screenplay-tree/screenplay-tree.component.ts:50-61 | the project map has each project once, and the group under a project is exactly its screenplays in input order; a project with none has no entry |
| ScreenplayTree.GroupAt | src/app/living-screenplay-simple/screenplay-tree/screenplay-tree.component.ts:50-61 | every entry of the project map holds the non-empty list of its project's screenplays |
| ScreenplayTree.AtMostOneUnnamed | src/app/living-screenplay-simple/screenplay-tree/screenplay-tree.component.ts:64-70 | a map with distinct keys holds at most one "[Sem Projeto]" entry |
| ScreenplayTree.OrderedFacts | src/app/living-screenplay-simple/screenplay-tree/screenplay-tree.component.ts:64-70 | sorting the entries is a permutation and puts named projects in collation order with "[Sem Projeto]" last |
| ScreenplayTree.SortedAreNamed | src/app/living-screenplay-simple/screenplay-tree/screenplay-tree.component.ts:66-69 | the collated part holds named projects only |
| ScreenplayTree.OrderedShown | src/app/living-screenplay-simple/screenplay-tree/screenplay-tree.component.ts:64-70 | after sorting, named projects appear in collation order and "[Sem Projeto]" comes last |
| ScreenplayTree.FileNodes | src/app/living-screenplay-simple/screenplay-tree/screenplay-tree.component.ts:82-87 | one collapsed file node per screenplay, named after it, in the same order |
| ScreenplayTree.Nodes | src/app/living-screenplay-simple/screenplay-tree/screenplay-tree.component.ts:71-89 | one project node per group, in the groups' order |
| ScreenplayTree.GroupsAt | src/app/living-screenplay-simple/screenplay-tree/screenplay-tree.component.ts:52-70 | each ordered group holds live screenplays of its own project |
| ScreenplayTree.TreeChildren | src/app/living-screenplay-simple/screenplay-tree/screenplay-tree.component.ts:71-89 | each file node stands for a live screenplay of its project node, and a project's files are newest first |
| ScreenplayTree.TreeCoversLive | src/app/living-screenplay-simple/screenplay-tree/screenplay-tree.component.ts:52-61 | every live screenplay is filed under the node of its own project; deleted ones never appear |
| ScreenplayTree.GroupOfLive | src/app/living-screenplay-simple/screenplay-tree/screenplay-tree.component.ts:52-61 | a live screenplay lies in the ordered group of its project |
| ScreenplayTree.TreeOrder | src/app/living-screenplay-simple/screenplay-tree/screenplay-tree.component.ts:64-70 | project names in the tree are distinct, named projects are in collation order and "[Sem Projeto]" is last |
| ScreenplayTree.Names | src/app/living-screenplay-simple/screenplay-tree/screenplay-tree.component.ts:78-80 | the names of the nodes, position by position |
| ScreenplayTree.NodeNames | src/app/living-screenplay-simple/screenplay-tree/screenplay-tree.component.ts:71-80 | the project nodes carry the group names in the groups' order |
| ScreenplayTree.GroupNamesDistinct | src/app/living-screenplay-simple/screenplay-tree/screenplay-tree.component.ts:50-70 | each project has exactly one group after sorting |
| ScreenplayTree.DistinctAfterPermutation | src/app/living-screenplay-simple/screenplay-tree/screenplay-tree.component.ts:64-70 | sorting a map with distinct keys keeps the keys distinct |
| ScreenplayTree.MultiplicityOfDistinct | src/app/living-screenplay-simple/screenplay-tree/screenplay-tree.component.ts:50-61 | an entry of a map with distinct keys occurs in it once |
| ScreenplayTree.ProjectNodeFlag | src/app/living-screenplay-simple/screenplay-tree/screenplay-tree.component.ts:72-75 | a node's expansion depends only on the saved flag of its own project, expanded by default |
| ScreenplayTree.ToggleSurvivesRebuild | src/app/living-screenplay-simple/screenplay-tree/screenplay-tree.component.ts:141-147 | toggling a node flips it, and rebuilding with the saved flags gives the old tree with only that node flipped |
| ScreenplayTree.NodesToggle | src/app/living-screenplay-simple/screenplay-tree/screenplay-tree.component.ts:72-75 | for any groups with distinct names, a saved toggle changes exactly its own node on rebuild |
| ScreenplayTree.GroupedStep | src/app/living-screenplay-simple/screenplay-tree/screenplay-tree.component.ts:55-60 | one more screenplay is pushed at the end of its project's group, creating the group if absent |
| ScreenplayTree.PutEmptyThenAppend | src/app/living-screenplay-simple/screenplay-tree/screenplay-tree.component.ts:57-60 | creating an empty group and pushing onto it is putting a one-element group |
| ScreenplayTree.TreeOfGroups | src/app/living-screenplay-simple/screenplay-tree/screenplay-tree.component.ts:64-90 | the tree is laid out from the project map of the live screenplays |
| ScreenplayTree.ScreenplayTreeComponent.constructor | src/app/living-screenplay-simple/screenplay-tree/screenplay-tree.component.ts:23-31 | the component starts with its screenplays, no nodes and no saved expansion flags |
| ScreenplayTree.ScreenplayTreeComponent.BuildTree | src/app/living-screenplay-simple/screenplay-tree/screenplay-tree.component.ts:49-91 | the loop over the live screenplays builds the project map, and the nodes are the tree of the screenplays under the saved flags |
| ScreenplayTree.ScreenplayTreeComponent.ToggleProject | src/app/living-screenplay-simple/screenplay-tree/screenplay-tree.component.ts:141-147 | the toggled node flips and its flag is saved; every other node is unchanged |
| EventStore.EventStoreService.constructor | src/app/services/screenplay/lsa/event-store.service.ts:9-14 | the event log starts empty |
| EventStore.EventStoreService.Append | src/app/services/screenplay/lsa/event-store.service.ts:22-26 | the event is pushed at the end of the log and nothing before it changes |
| EventStore.EventStoreService.GetAllEvents | src/app/services/screenplay/lsa/event-store.service.ts:31-33 | the whole log in append order, returned as a value |
| EventStore.AppendReadBack | src/app/services/screenplay/lsa/event-store.service.spec.ts:21-28 | after one append to a fresh log, reading back gives exactly that event with its type and payload |
| EventSourcedBackend.SpliceStart | src/app/services/screenplay/lsa/event-sourced.backend.ts:68 | where `splice` starts: a negative position counts from the end, and the result is clamped into the list |
| EventSourcedBackend.SpliceInsert | src/app/services/screenplay/lsa/event-sourced.backend.ts:67-72 | inserting into a copy adds one element before the start position, keeps the elements on both sides in order, and is a permutation of the old list plus the new element |
| EventSourcedBackend.ProjectTitleAdded | src/app/services/screenplay/lsa/event-sourced.backend.ts:65-73 | a `TITLE_ADDED` event inserts one level-1 title heading at the clamped payload position and keeps the document type |
| EventSourcedBackend.ProjectOtherEvent | src/app/services/screenplay/lsa/event-sourced.backend.ts:77-78 | any other event returns the state unchanged |
| EventSourcedBackend.ProjectionOfEmptyLog | src/app/services/screenplay/lsa/event-sourced.backend.ts:82-84 | an empty log projects to the initial document, of type "doc" with no content |
| EventSourcedBackend.ProjectionAppend | src/app/services/screenplay/lsa/event-sourced.backend.ts:19-23 | the projection of a longer log is the projection of the shorter one folded with the new event |
| EventSourcedBackend.ProjectionHeadings | src/app/services/screenplay/lsa/event-sourced.backend.ts:62-84 | the projected document holds exactly one title heading per `TITLE_ADDED` event in the log and nothing else |
| EventSourcedBackend.ChangeEvents | src/app/services/screenplay/lsa/event-sourced.backend.ts:43-53 | `applyChange` produces one `TITLE_ADDED` event at position 0 exactly for the `add_title` intent, and none otherwise |
| EventSourcedBackend.ChangeProjection | src/app/services/screenplay/lsa/event-sourced.backend.ts:43-73 | after `add_title` the projected document gains a title heading at its top; other intents leave it unchanged |
| EventSourcedBackend.EventSourcedBackendService.constructor | src/app/services/screenplay/lsa/event-sourced.backend.ts:16-24 | the backend projects the log of the event store it is given |
| EventSourcedBackend.EventSourcedBackendService.ApplyChange | src/app/services/screenplay/lsa/event-sourced.backend.ts:43-53 | the change's events are appended to the store's log, and the current document gains a heading at the top exactly for `add_title` |
| ExportModal.CheckExportAccepts | src/app/shared/modals/export-modal/export-modal.component.ts:76-98 | a name passes exactly when its trimmed form is non-empty, ends in ".md" and holds no separator; what passes is the trimmed name |
| ExportModal.CheckExportOrder | src/app/shared/modals/export-modal/export-modal.component.ts:79-93 | the refusing check is the first to fail: blank name, then missing ".md", then a separator |
| ExportModal.SlashNamesRejected | src/app/shared/modals/export-modal/export-modal.component.spec.ts:148-160 | a name with "/" or "\" anywhere in it is refused |
| ExportModal.DefaultFilenameAccepted | src/app/shared/modals/export-modal/export-modal.component.ts:60 | the default name "roteiro-vivo.md" passes every check |
| ExportModal.ExportedInIsWith | src/app/shared/modals/export-modal/export-modal.component.ts:76-98 | a refused name only sets the refusing check's message; an accepted one clears the error, emits the trimmed name and closes |
| ExportModal.ExportEmitsOnlyValidNames | src/app/shared/modals/export-modal/export-modal.component.ts:76-98 | exporting emits at most one name, and only a trimmed, non-empty ".md" name without separators; the dialog closes exactly when it emits; the edited name and the input never change |
| ExportModal.ExportErrorMessage | src/app/shared/modals/export-modal/export-modal.component.ts:79-95 | the error is cleared exactly when the name is emitted; otherwise it is the message of the first failing check |
| ExportModal.EnterKeyOnlyWhenValid | src/app/shared/modals/export-modal/export-modal.component.ts:103-107 | Enter does nothing on an invalid form; on a valid one it exports, which can then fail only on a separator |
| ExportModal.OpenThenExportDefault | src/app/shared/modals/export-modal/export-modal.component.ts:58-63 | opening with no name offers "roteiro-vivo.md" with no error, and confirming exports that name |
| ExportModal.ExportModalComponent.constructor | src/app/shared/modals/export-modal/export-modal.component.ts:30-46 | the component starts hidden with the given name, an empty edited name, no error and nothing emitted |
| ExportModal.ExportModalComponent.IsValid | src/app/shared/modals/export-modal/export-modal.component.ts:68-71 | valid exactly when the trimmed name is non-empty and ends in ".md" |
| ExportModal.ExportModalComponent.OnChanges | src/app/shared/modals/export-modal/export-modal.component.ts:58-63 | a visible modal resets the edited name to the input name or the default, and clears the error; a hidden one is unchanged |
| ExportModal.ExportModalComponent.OnExport | src/app/shared/modals/export-modal/export-modal.component.ts:76-98 | the component moves to the export step's state: emits only a valid trimmed name and closes then, otherwise shows the first failing check's message |
| ExportModal.ExportModalComponent.OnEnterKey | src/app/shared/modals/export-modal/export-modal.component.ts:103-107 | Enter leaves an invalid form untouched and otherwise runs the export or save step |
| WorkingDirModal.CheckSaveAccepts | src/app/shared/modals/working-dir-modal/working-dir-modal.component.ts:75-92 | a path passes exactly when its trimmed form is non-empty and starts with "/"; what passes is the trimmed path |
| WorkingDirModal.CheckSaveOrder | src/app/shared/modals/working-dir-modal/working-dir-modal.component.ts:76-87 | a blank path is refused first, then a relative one |
| WorkingDirModal.AbsolutePathSavedAsIs | src/app/shared/modals/working-dir-modal/working-dir-modal.component.ts:81-90 | an absolute path without surrounding white space is saved exactly as typed |
| WorkingDirModal.SavedInCases | src/app/shared/modals/working-dir-modal/working-dir-modal.component.ts:75-92 | an invalid path sets the blank-path message, a relative one the absolute-path message, and an absolute one clears the error, emits the trimmed path and closes |
| WorkingDirModal.OpenResets | src/app/shared/modals/working-dir-modal/working-dir-modal.component.ts:58-63 | opening restarts from the current directory, or from "" when there is none, and clears the error |
| WorkingDirModal.SaveEmitsOnlyAbsolutePaths | src/app/shared/modals/working-dir-modal/working-dir-modal.component.ts:75-92 | saving emits at most one path, and only a trimmed absolute one; the dialog closes and the error clears exactly when it emits |
| WorkingDirModal.EnterKeyOnlyWhenValid | src/app/shared/modals/working-dir-modal/working-dir-modal.component.ts:97-101 | Enter does nothing on an invalid form; on a valid one it saves, which can then fail only on a relative path |
| WorkingDirModal.WorkingDirModalComponent.constructor | src/app/shared/modals/working-dir-modal/working-dir-modal.component.ts:30-46 | the component starts hidden with the given directory, an empty edited path, no error and nothing emitted |
| WorkingDirModal.WorkingDirModalComponent.IsValid | src/app/shared/modals/working-dir-modal/working-dir-modal.component.ts:68-70 | valid exactly when the trimmed path is non-empty |
| WorkingDirModal.WorkingDirModalComponent.OnChanges | src/app/shared/modals/working-dir-modal/working-dir-modal.component.ts:58-63 | a visible modal resets the edited path and clears the error; a hidden one is unchanged |
| WorkingDirModal.WorkingDirModalComponent.OnSave | src/app/shared/modals/working-dir-modal/working-dir-modal.component.ts:75-92 | the component moves to the save step's state: emits only a trimmed absolute path and closes then, otherwise shows the failing check's message |
| WorkingDirModal.WorkingDirModalComponent.OnEnterKey | src/app/shared/modals/working-dir-modal/working-dir-modal.component.ts:97-101 | Enter leaves an invalid form untouched and otherwise runs the export or save step |
| CouncilorEditModal.SavedInCases | src/app/living-screenplay-simple/councilor-edit-modal/councilor-edit-modal.component.ts:105-131 | an invalid form only gets the validation message; with no councilor nothing more happens; otherwise the modal turns busy, clears the error and emits the update |
| CouncilorEditModal.InitAlwaysNotifiesWarningsAndErrors | src/app/living-screenplay-simple/councilor-edit-modal/councilor-edit-modal.component.ts:54-56 | after loading a configuration, warnings and errors are always notified, since their fallback to `true` applies whatever the configuration says; success is notified only when the configuration asks |
| CouncilorEditModal.InitDefaultInterval | src/app/living-screenplay-simple/councilor-edit-modal/councilor-edit-modal.component.ts:51 | a configuration without a usable interval loads "30m", which passes the interval check |
| CouncilorEditModal.InitWithoutConfig | src/app/living-screenplay-simple/councilor-edit-modal/councilor-edit-modal.component.ts:43-44 | without a councilor or a configuration the form keeps its initial values |
| CouncilorEditModal.ValidateIffAllPass | src/app/living-screenplay-simple/councilor-edit-modal/councilor-edit-modal.component.ts:76-100 | the form is valid exactly when title, task name and prompt are not blank and the interval matches digits then m, h or d; a valid form leaves no message, and only the message changes |
| CouncilorEditModal.ValidateOrder | src/app/living-screenplay-simple/councilor-edit-modal/councilor-edit-modal.component.ts:79-97 | the checks run in order title, task name, prompt, interval, and the message is that of the first that fails |
| CouncilorEditModal.ScheduleExamplesAreValid | src/app/living-screenplay-simple/councilor-edit-modal/councilor-edit-modal.component.ts:164-166 | every suggested interval passes the interval check |
| CouncilorEditModal.SaveEmitsOnValidForm | src/app/living-screenplay-simple/councilor-edit-modal/councilor-edit-modal.component.ts:105-144 | saving emits one update exactly when the form is valid and there is a councilor; the update holds the trimmed texts, is always enabled, and uses the panel channel only when none is configured |
| CouncilorEditModal.CloseBlockedWhileSaving | src/app/living-screenplay-simple/councilor-edit-modal/councilor-edit-modal.component.ts:63-66 | closing is refused while a save is in flight, and emits one close otherwise |
| CouncilorEditModal.ErrorSetAllowsClose | src/app/living-screenplay-simple/councilor-edit-modal/councilor-edit-modal.component.ts:156-159 | `setError` shows the message and ends the busy state, so the modal can be closed again |
| CouncilorEditModal.CouncilorEditModalComponent.constructor | src/app/living-screenplay-simple/councilor-edit-modal/councilor-edit-modal.component.ts:24-41 | the form starts with empty texts, success off, warnings and errors on, not busy and no message |
| CouncilorEditModal.CouncilorEditModalComponent.NgOnInit | src/app/living-screenplay-simple/councilor-edit-modal/councilor-edit-modal.component.ts:43-58 | the form is loaded from the councilor's configuration when there is one, else kept |
| CouncilorEditModal.CouncilorEditModalComponent.LoadConfig | src/app/living-screenplay-simple/councilor-edit-modal/councilor-edit-modal.component.ts:45-56 | the texts and flags are loaded from the configuration with their fallbacks |
| CouncilorEditModal.CouncilorEditModalComponent.LoadTexts | src/app/living-screenplay-simple/councilor-edit-modal/councilor-edit-modal.component.ts:48-51 | title, task name and prompt fall back to "", the interval to "30m" |
| CouncilorEditModal.CouncilorEditModalComponent.LoadFlags | src/app/living-screenplay-simple/councilor-edit-modal/councilor-edit-modal.component.ts:54-56 | success falls back to false; warnings and errors are always true |
| CouncilorEditModal.CouncilorEditModalComponent.ValidateForm | src/app/living-screenplay-simple/councilor-edit-modal/councilor-edit-modal.component.ts:76-100 | the result is true exactly when all checks pass, and only the message changes, to that of the first failing check or "" |
| CouncilorEditModal.CouncilorEditModalComponent.ShowError | src/app/living-screenplay-simple/councilor-edit-modal/councilor-edit-modal.component.ts:80-95 | only the message changes |
| CouncilorEditModal.CouncilorEditModalComponent.OnSave | src/app/living-screenplay-simple/councilor-edit-modal/councilor-edit-modal.component.ts:105-144 | the form moves to the save step's state: one update emitted exactly when valid and a councilor is set |
| CouncilorEditModal.CouncilorEditModalComponent.StartSaving | src/app/living-screenplay-simple/councilor-edit-modal/councilor-edit-modal.component.ts:109-134 | the modal turns busy, with no error, and the update is emitted |
| CouncilorEditModal.CouncilorEditModalComponent.OnClose | src/app/living-screenplay-simple/councilor-edit-modal/councilor-edit-modal.component.ts:63-66 | a close is emitted unless a save is in flight |
| CouncilorEditModal.CouncilorEditModalComponent.SetLoadingState | src/app/living-screenplay-simple/councilor-edit-modal/councilor-edit-modal.component.ts:149-151 | only the busy flag changes, to the given value |
| CouncilorEditModal.CouncilorEditModalComponent.SetError | src/app/living-screenplay-simple/councilor-edit-modal/councilor-edit-modal.component.ts:156-159 | the message is the given one and the modal is no longer busy |
| CouncilorEditModal.CouncilorEditModalComponent.SetScheduleValue | src/app/living-screenplay-simple/councilor-edit-modal/councilor-edit-modal.component.ts:171-173 | only the interval changes, to the given value |
| ModalFooter.NamesHaveNoSpace | src/app/shared/modals/base/modal-footer.component.ts:246 | no `btn-<type>` class holds a space, so joining on spaces can be undone |
| ModalFooter.FixedClassesHaveNoSpace | src/app/shared/modals/base/modal-footer.component.ts:246-253 | the fixed classes hold no space |
| ModalFooter.GetButtonClassTokens | src/app/shared/modals/base/modal-footer.component.ts:245-257 | the class attribute splits back into `btn` and `btn-<type>` first, then `btn-loading` exactly when the button is loading and `btn-full-width` exactly when it is full width, and nothing else |
| ModalFooter.SplitButtonClass | src/app/shared/modals/base/modal-footer.component.ts:256 | splitting the class attribute on spaces gives back the class list it was joined from |
| ModalFooter.ButtonClassesMembers | src/app/shared/modals/base/modal-footer.component.ts:246-254 | the class list is the two fixed classes, then one class per flag that is on |
| ModalFooter.TypeClassIsNotAFlag | src/app/shared/modals/base/modal-footer.component.ts:246-253 | the type class never coincides with a flag class |
| ModalFooter.ClickEmitsIffEnabled | src/app/shared/modals/base/modal-footer.component.ts:266-275 | a click emits exactly when the button is neither disabled nor loading, and emits the button's action; a loading button is blocked and shows `btn-loading` |
| ModalFooter.OverridesTakePrecedence | src/app/shared/modals/base/modal-footer.component.ts:294-342 | every key the overrides give wins over the default, even when given as undefined; every other key keeps its default; no overrides give the defaults |
| ModalFooter.FactoryDefaults | src/app/shared/modals/base/modal-footer.component.ts:294-342 | the cancel, confirm and delete factories without overrides give their standard label, style and action |
| ModalFooter.DefaultButtonsLoseLabels | src/app/shared/modals/base/modal-footer.component.ts:359-373 | as written, a label option that is not set wipes the default label, so with no options both buttons have no label; the actions are still cancel, then confirm |
| ModalFooter.DefaultButtonsKeepLabels | src/app/shared/modals/base/modal-footer.component.ts:359-373 | passing on only the options that are set, the pair is cancel then confirm; each label is the option or the factory default, and the confirm button is disabled or loading exactly as the options say |
| StringHash.ToInt32 | src/app/services/agent-personalization.service.ts:105 | the conversion by a bitwise or with 0: the signed 32-bit value congruent to the input modulo 2^32, identity on 32-bit values |
| StringHash.ToInt32Congruent | src/app/living-screenplay-simple/layer-database.service.ts:462-463 | values that agree modulo 2^32 convert to the same 32-bit value |
| StringHash.Hash | src/app/services/agent-personalization.service.ts:103-107 | the hash of any text is a signed 32-bit value |
| StringHash.ShiftFormIsStep | src/app/living-screenplay-simple/layer-database.service.ts:462-463 | the checksum's shift form `((h << 5) - h) + c` followed by `& itself` is the same step as multiplying by 31, adding the code and converting to 32 bits, so the checksum and the personalization hash agree |
| StringHash.HashAppend | src/app/services/agent-personalization.service.ts:105 | hashing text with one more character continues from the hash of the prefix |
| StringHash.AbsMod | src/app/services/agent-personalization.service.ts:87-99 | `Math.abs(h) % n` picks an index below `n` |
| StringHash.HashOf | src/app/services/agent-personalization.service.ts:103-107 | the loop computes the hash of the whole text |
| PlayerMovement.ClampIntoBounds | src/app/quest-adventure/services/player-movement.service.ts:207-212 | on bounds that are not inverted, the clamped position lies within them, a position already inside is kept, and a coordinate beyond an edge is moved onto that edge |
| PlayerMovement.ClampIdempotent | src/app/quest-adventure/services/player-movement.service.ts:207-212 | clamping twice is clamping once |
| PlayerMovement.ClampOnInvertedBounds | src/app/quest-adventure/services/player-movement.service.ts:209 | on an axis whose minimum exceeds its maximum, `Math.max` wins and the position falls outside the bounds |
| PlayerMovement.BoundsForInset | src/app/quest-adventure/services/player-movement.service.ts:42-49 | the bounds are the canvas inset by 50 on every side, and are not inverted exactly when the canvas is at least 100 each way |
| PlayerMovement.ClampSpeedRange | src/app/quest-adventure/services/player-movement.service.ts:258-260 | the speed always ends between 50 and 500, and a speed already in range is kept |
| PlayerMovement.InitialStateConsistent | src/app/quest-adventure/services/player-movement.service.ts:10-35 | the start position lies within the start bounds, which are those of a 1024 by 768 canvas, and the start speed is in range |
| PlayerMovement.SetPositionClamps | src/app/quest-adventure/services/player-movement.service.ts:68-71 | the stored and published position is the clamped one, which lies within bounds that are not inverted; bounds, speed and motion are unchanged |
| PlayerMovement.TeleportStops | src/app/quest-adventure/services/player-movement.service.ts:238-242 | a teleport leaves the player idle with no target and frame 0, at the clamped point |
| PlayerMovement.PlayerMovementService.constructor | src/app/quest-adventure/services/player-movement.service.ts:10-35 | the player starts idle at (512, 400), speed 200, with the 1024 by 768 bounds, and that position published |
| PlayerMovement.PlayerMovementService.UpdateMapBounds | src/app/quest-adventure/services/player-movement.service.ts:42-49 | only the bounds change, to the canvas inset by 50 |
| PlayerMovement.PlayerMovementService.SetPosition | src/app/quest-adventure/services/player-movement.service.ts:68-71 | the clamped position is stored and published; nothing else changes |
| PlayerMovement.PlayerMovementService.Stop | src/app/quest-adventure/services/player-movement.service.ts:145-156 | motion stops: not moving, no target, idle, frame 0 |
| PlayerMovement.PlayerMovementService.Teleport | src/app/quest-adventure/services/player-movement.service.ts:238-242 | motion stops, then the clamped position is stored and published |
| PlayerMovement.PlayerMovementService.SetMoveSpeed | src/app/quest-adventure/services/player-movement.service.ts:258-260 | only the speed changes, to the given speed clamped into 50 to 500 |
| PlayerMovement.PlayerMovementService.GetPosition | src/app/quest-adventure/services/player-movement.service.ts:217-219 | returns the stored position |
| PlayerMovement.PlayerMovementService.GetMoveSpeed | src/app/quest-adventure/services/player-movement.service.ts:262-264 | returns the stored speed |
| EventTicker.JsRem | src/app/living-screenplay-simple/event-ticker/event-ticker.component.ts:105 | JavaScript's `%`: the remainder takes the sign of the dividend and lies strictly between `-n` and `n` |
| EventTicker.JsRemAsSliceIndex | src/app/living-screenplay-simple/event-ticker/event-ticker.component.ts:105-106 | a negative remainder, read as a `slice` position, counts back from the end, which gives the non-negative remainder |
| EventTicker.RotateIsRotation | src/app/living-screenplay-simple/event-ticker/event-ticker.component.ts:103-107 | the result is the list rotated by the index taken modulo the length, a negative index counting back; same length and same elements; index 0 gives the list unchanged |
| EventTicker.VisibleOnUpdateIsRecentWindow | src/app/living-screenplay-simple/event-ticker/event-ticker.component.ts:78-82 | an update shows exactly the last `maxItems` events, or all of them when there are fewer, in some rotation; with `maxItems` 0, `slice(-0)` keeps the whole feed |
| EventTicker.TickAndUpdateShowSameEvents | src/app/living-screenplay-simple/event-ticker/event-ticker.component.ts:78-89 | the timer and the update handler show the same events, as many of each; only the order differs |
| EventTicker.NextRotationIndexInRange | src/app/living-screenplay-simple/event-ticker/event-ticker.component.ts:87 | the next rotation index points into the list and wraps to 0 after the last event; on a list of at most one event it stays 0 |
| EventTicker.TruncateFits | src/app/living-screenplay-simple/event-ticker/event-ticker.component.ts:137-139 | a text that fits is kept; a longer one keeps its first `max - 1` characters and ends in an ellipsis, `max` characters in all |
| EventTicker.TruncateZeroLimit | src/app/living-screenplay-simple/event-ticker/event-ticker.component.ts:138 | with limit 0 the negative `slice` end counts from the end, so only the last character gives way to the ellipsis |
| EventTicker.FormatRelativeUnits | src/app/living-screenplay-simple/event-ticker/event-ticker.component.ts:113-123 | the age is the whole number of seconds under a minute, minutes under an hour, hours under a day and days beyond, followed by that unit's letter, and the number reads back as the age in those units |
| EventTicker.CategorySymbolFallback | src/app/living-screenplay-simple/event-ticker/event-ticker.component.ts:125-135 | an event with a category shows that category's symbol whatever its severity; only an event without one falls back to its severity |
| ConflictResolutionModal.LengthsDefaultToZero | src/app/living-screenplay-simple/conflict-resolution-modal/conflict-resolution-modal.component.ts:64-74 | a missing screenplay or content counts as 0 characters, a present one by its length |
| ConflictResolutionModal.ContentDifferenceCases | src/app/living-screenplay-simple/conflict-resolution-modal/conflict-resolution-modal.component.ts:78-83 | "mesmo tamanho" exactly when the lengths are equal; otherwise a signed character count, "+" when the new content is longer and "-" when shorter, whose digits read back as the size of the difference |
| ConflictResolutionModal.TrailingDigitCount | src/app/living-screenplay-simple/conflict-resolution-modal/conflict-resolution-modal.component.ts:181 | the digits counted at the end of a name are all digits, and the character before them is not |
| ConflictResolutionModal.CounterOpen | src/app/living-screenplay-simple/conflict-resolution-modal/conflict-resolution-modal.component.ts:181 | where a final counter `(digits)` opens: the position of a "(" followed by digits and ")" up to the end |
| ConflictResolutionModal.TrailingDigitsOf | src/app/living-screenplay-simple/conflict-resolution-modal/conflict-resolution-modal.component.ts:181 | digits after a non-digit are counted exactly |
| ConflictResolutionModal.CounterOpenOf | src/app/living-screenplay-simple/conflict-resolution-modal/conflict-resolution-modal.component.ts:181 | a name ending in `(digits)` has its counter found where it opens |
| ConflictResolutionModal.TrimEndOfSpaces | src/app/living-screenplay-simple/conflict-resolution-modal/conflict-resolution-modal.component.ts:181 | the white space run before the counter is removed exactly |
| ConflictResolutionModal.StripCounterRemovesCounter | src/app/living-screenplay-simple/conflict-resolution-modal/conflict-resolution-modal.component.ts:181 | a base not ending in white space, then white space, then a counter, loses everything after the base |
| ConflictResolutionModal.StripCounterShape | src/app/living-screenplay-simple/conflict-resolution-modal/conflict-resolution-modal.component.ts:181 | whatever the replacement removes is a counter with its leading white space, and what it keeps is a prefix of the name not ending in white space, or the whole name when there is no counter |
| ConflictResolutionModal.TrimEndKeeps | src/app/living-screenplay-simple/conflict-resolution-modal/conflict-resolution-modal.component.ts:181 | a name without trailing white space keeps everything before its counter |
| ConflictResolutionModal.StripSuggestion | src/app/living-screenplay-simple/conflict-resolution-modal/conflict-resolution-modal.component.ts:181-182 | stripping a suggestion gives back its base, trimmed at the end |
| ConflictResolutionModal.RenameSuggestionStable | src/app/living-screenplay-simple/conflict-resolution-modal/conflict-resolution-modal.component.ts:178-183 | the suggestion always ends in " (1)", and showing the rename input again suggests the same name unless the original base ended in white space |
| ConflictResolutionModal.SuggestionOfCounted | src/app/living-screenplay-simple/conflict-resolution-modal/conflict-resolution-modal.component.ts:178-183 | a base that does not end in white space, followed by white space and a counter, is suggested as the base followed by ` (1)` |
| ConflictResolutionModal.RenameSuggestionResetsCounter | src/app/living-screenplay-simple/conflict-resolution-modal/conflict-resolution-modal.component.ts:181-182 | "cena (3)" is suggested as "cena (1)" |
| ConflictResolutionModal.RenameSuggestionReplacesLongCounter | src/app/living-screenplay-simple/conflict-resolution-modal/conflict-resolution-modal.component.ts:181-182 | "cena(12)" is suggested as "cena (1)" |
| ConflictResolutionModal.RenameSuggestionAddsCounter | src/app/living-screenplay-simple/conflict-resolution-modal/conflict-resolution-modal.component.ts:181-182 | "cena" is suggested as "cena (1)" |
| ConflictResolutionModal.CloseEmitsTwiceAsWritten | src/app/living-screenplay-simple/conflict-resolution-modal/conflict-resolution-modal.component.ts:216-220 | composing the override with the base class onClose and its preventClose, one close of the modal as written emits `closeModal` twice, one more than the corrected close |
| ConflictResolutionModal.ChoiceClosesTwiceAsWritten | src/app/living-screenplay-simple/conflict-resolution-modal/conflict-resolution-modal.component.ts:162-165 | a choice as written, going through close() and onClose(), resolves once and closes twice, and differs from the corrected choice only by that extra close |
| ConflictResolutionModal.ChoiceResolvesOnce | src/app/living-screenplay-simple/conflict-resolution-modal/conflict-resolution-modal.component.ts:162-206 | each choice emits exactly one resolution, for that choice and without a name, closes once and hides the rename input |
| ConflictResolutionModal.RenameRejectsBlank | src/app/living-screenplay-simple/conflict-resolution-modal/conflict-resolution-modal.component.ts:188-198 | renaming does nothing while the name is blank; otherwise it emits one rename carrying the trimmed, non-empty name and closes once |
| ConflictResolutionModal.ConfirmButtonMatchesRename | src/app/living-screenplay-simple/conflict-resolution-modal/conflict-resolution-modal.component.ts:117-133 | the confirm button is disabled exactly when renaming would be refused, and its action then emits the trimmed name |
| ConflictResolutionModal.DefaultButtonsDispatch | src/app/living-screenplay-simple/conflict-resolution-modal/conflict-resolution-modal.component.ts:88-157 | the three default buttons are always enabled; overwrite and keep emit their choice, rename shows the input with the suggested name |
| ConflictResolutionModal.BackKeepsName | src/app/living-screenplay-simple/conflict-resolution-modal/conflict-resolution-modal.component.ts:150-151 | going back hides the rename input, keeps the edited name and emits nothing |
| ConflictResolutionModal.BackdropCancels | src/app/living-screenplay-simple/conflict-resolution-modal/conflict-resolution-modal.component.ts:226-230 | a click on the backdrop cancels and closes once; a click inside the dialog does nothing |
| ConflictResolutionModal.ConflictResolutionModalComponent.constructor | src/app/living-screenplay-simple/conflict-resolution-modal/conflict-resolution-modal.component.ts:41-53 | the modal starts with its inputs, the rename input hidden, an empty name and nothing emitted |
| ConflictResolutionModal.ConflictResolutionModalComponent.NgOnInit | src/app/living-screenplay-simple/conflict-resolution-modal/conflict-resolution-modal.component.ts:55-59 | the edited name starts as the new file's name when there is one |
| ConflictResolutionModal.ConflictResolutionModalComponent.OnClose | src/app/living-screenplay-simple/conflict-resolution-modal/conflict-resolution-modal.component.ts:216-220 | the rename input is hidden and the close is emitted once, as the corrected model has it |
| ConflictResolutionModal.ConflictResolutionModalComponent.Choose | src/app/living-screenplay-simple/conflict-resolution-modal/conflict-resolution-modal.component.ts:162-206 | the choice is emitted and the modal closes |
| ConflictResolutionModal.ConflictResolutionModalComponent.OnOverwrite | src/app/living-screenplay-simple/conflict-resolution-modal/conflict-resolution-modal.component.ts:162-165 | an overwrite is emitted and the modal closes |
| ConflictResolutionModal.ConflictResolutionModalComponent.OnKeepExisting | src/app/living-screenplay-simple/conflict-resolution-modal/conflict-resolution-modal.component.ts:170-173 | a keep is emitted and the modal closes |
| ConflictResolutionModal.ConflictResolutionModalComponent.OnCancel | src/app/living-screenplay-simple/conflict-resolution-modal/conflict-resolution-modal.component.ts:203-206 | a cancel is emitted and the modal closes |
| ConflictResolutionModal.ConflictResolutionModalComponent.OnShowRename | src/app/living-screenplay-simple/conflict-resolution-modal/conflict-resolution-modal.component.ts:178-183 | the rename input is shown with the counter of the name reset to " (1)" |
| ConflictResolutionModal.ConflictResolutionModalComponent.OnRename | src/app/living-screenplay-simple/conflict-resolution-modal/conflict-resolution-modal.component.ts:188-198 | a blank name changes nothing; otherwise the trimmed name is emitted and the modal closes |
| ConflictResolutionModal.ConflictResolutionModalComponent.HandleFooterAction | src/app/living-screenplay-simple/conflict-resolution-modal/conflict-resolution-modal.component.ts:139-157 | each footer action runs its handler; an unknown action changes nothing |
| ConflictResolutionModal.ConflictResolutionModalComponent.OnBackdropClick | src/app/living-screenplay-simple/conflict-resolution-modal/conflict-resolution-modal.component.ts:226-230 | a click on the backdrop itself cancels; any other click changes nothing |


## Left out

- Network clients are not part of this model: HTTP, `fetch`, EventSource and WebSocket. Only the state they feed is modelled. Server answers, the text read from disk and backend reports arrive as parameters.
- rxjs is not modelled: subjects, `debounceTime`, `distinctUntilChanged`, subscriptions and `requestAnimationFrame` batching. A subject is a field, or the sequence of values it emitted.
- The clock, `Math.random()` ids and `crypto.randomUUID()` ids are parameters supplied by the caller. Values that only record them, such as event and transaction timestamps, are not modelled.
- Browser `localStorage` is modelled as a map field in `PersonaEdit` and `AgentPersonalization`. The inventory and quest `saveState`/`loadState` are not modelled, since they only copy state to storage.
- `console.log` and `console.error` are not modelled, since they are logging only. The `try`/`catch` blocks around browser storage in `PersonaEdit` and the one in the councilor-edit save are not modelled either: storage and emitting never throw in the model.
- `AgentExecution.ExecuteAgent`: the request that starts a run is not modelled. A slot is taken at once, and the outcome of the run arrives as a later `FinalizeExecution` call. In the source, `_startAgentExecution` adds the agent to `runningAgents` only after `await fetch(...)` and `await response.json()` (agent-execution.ts:146-170). The model leaves out two consequences of that:
  - every `executeAgent` call made while those requests are in flight finds a free slot and starts, so more than five agents can run;
  - `cancelAgent` made during the request finds no event source, so it does not cancel the agent, which connects anyway.
- AgentExecution.ExecuteKeepsBound: the bound of five holds for the model, where the slot is taken at once. The source keeps it only when every starting request has settled before the next `executeAgent` call.
- Timers and animation are not modelled because they depend on the clock and scheduling:
  - `moveToPosition`, `moveRelative`, the easing, `createPath` and `updateDirection` in the player movement service;
  - the ticker's 5-second interval and its 400 ms busy flag;
  - the scheduler's `setInterval` and the body of `executeTask`, including `notifyResult`.
  The scheduler's timers appear only as the set of scheduled councilors and the per-councilor lock.
- `getLayersByPosition` uses a floating-point square root. Positions are integers in the model, and the distance test compares squared distances, so floating-point rounding is not modelled.
- The model's strings are sequences of Unicode scalar values, while JavaScript counts UTF-16 code units, so a character outside the Basic Multilingual Plane counts as one here and two in the source. The export preview's `Blob` size is counted the same way.
- `toLowerCase` is modelled for ASCII and Latin-1 letters only. The locale collation that orders project names is a parameter.
- The TipTap editor wiring of the event-sourced backend (`setEditor`, `setContent`) is not modelled because it is DOM work. So are the markdown rendering the layered editor hands to TipTap, and the templates of all components.
- `BaseModalComponent`: only `onClose` and its `preventClose` test, which the conflict modal does not override and which never prevents a close, are modelled, as far as the conflict modal needs them. Escape handling is not modelled.
- The event ticker's `formatTooltip` (`toLocaleString`) and `trackById` are not modelled: they only format dates for the view or serve as view helpers.
- `EventTicker.VisibleOnUpdateIsRecentWindow`: stated for `maxItems >= 0` only. A negative `maxItems` makes `slice(-maxItems)` drop events from the front.
- In `AgentMetrics`, `formatExecutionTime` is not modelled: it is display formatting over floating-point seconds. Neither are `processBatchUpdates`, `syncFromBackend`, `getServiceStats` and the execution-state subscription that drive updates from rxjs streams and the backend.
- `ConflictResolutionModal`: the existing screenplay is modelled only by its optional content, the one field the modal reads.
- `AgentCreator.AgentCreatorForm.OnClose`: models the form reset. The `close` event it emits is not recorded.
- `AgentInstanceManagement.AgentInstanceManagementService.UpdateInstance` and `AgentInstanceManagement.Merge`: the patch is modelled without an `id` field, so a patch can never change the instance's id. In the source, `{ ...existing, ...updates }` (agent-instance-management.service.ts:159) lets a patch that carries an `id` overwrite the stored one.
- `PlayerMovement.PlayerMovementService.UpdateMapBounds`: like the source, it does not re-clamp the stored position into the new bounds.
- The icon generator script `generate-pwa-icons.py` is not part of this model. It draws rasters through a foreign imaging library and writes image files.
- NavigationState.Settle: a drain that runs to its end with nothing in between is one of the interleavings. Any other order of calls is modelled by calling `ContinueDrain` (a settled PUT) between the other operations at the points the caller chooses.
- InventoryService.SortedItems: the `'type'` and `'name'` modes use `localeCompare`, which is a collation parameter here. The order the sort leaves among items that compare equal is not stated. Sorting by type or name drops the rarity order that `Valid` keeps, so `SortInventoryBy` promises only the sorted permutation for those two modes.
- PlayerMovement.ClampSpeedRange: speeds are integers in the model. In the source they are JavaScript numbers, and `Math.max(50, Math.min(500, NaN))` is NaN, so the range holds only for speeds that are not NaN. Fractional speeds are not modelled.
- PlayerMovement.ClampIntoBounds: coordinates are integers in the model. In the source a NaN coordinate stays NaN through `clampPosition`, so the bounds hold only for numbers that are not NaN. Fractional coordinates are not modelled.
- AgentInstanceManagement.DefinitionFor: the lookup falls back for every emoji that is not a key of the table. In the source, `AGENT_DEFINITIONS[emoji]` with a key such as `"constructor"` finds an inherited `Object.prototype` member instead.
- PersonaEdit.PersonaEditService.constructor: it requires the stored edit histories to be within their bound. The source reads whatever browser storage holds.
- TaskObservability.TaskObservabilityService.OnSubmitFailed: for a task already cleaned up the model emits nothing. The source's `catchError` handler reads `get(id)!`, which is then undefined.
- EventSourcedBackend.PositionOf: a payload position is an integer or absent. A string position, which `splice` would coerce to a number, is not modelled.
- InventoryService.AfterAdd: the stored copy of an added item is marked new. The source's `item.metadata.isNew = true` also changes the caller's object, and that aliasing is not modelled.


## Findings

| source | as written | input that shows it | evidently intended | confidence | as-written member | corrected member |
|---|---|---|---|---|---|---|
| src/app/quest-adventure/services/quest-state.service.ts:241-246 | `completeObjective` calls `completeQuest` whenever every required objective is done, even when the quest is already complete, so the 1000 XP reward is granted again | after the quest is complete, completing the optional objective "refine_banner" | the quest reward is granted once; completing another objective afterwards adds no XP | not executed | QuestState.OptionalAfterCompletionRewardsAgain | QuestState.RewardGrantedOnce |
| src/app/shared/modals/base/modal-footer.component.ts:359-373 | `createDefaultButtons` passes `{ label: options?.cancelLabel }` to the factories; the spread of a label that is `undefined` overwrites the default label | `createDefaultButtons()` with no options: both buttons get an `undefined` label instead of "Cancelar" and "Confirmar" | each label is the option when given and the factory's default otherwise | not executed | ModalFooter.DefaultButtonsLoseLabels | ModalFooter.DefaultButtonsKeepLabels |
| src/app/living-screenplay-simple/conflict-resolution-modal/conflict-resolution-modal.component.ts:216-220 | the override emits `closeModal` and then calls `super.onClose()`, which emits `closeModal` again (base-modal.component.ts lines 124-128) | any choice, for example `onOverwrite()`, which closes through the private `close()` at lines 235-237: the parent receives two close events | one close event per close of the modal | not executed | ConflictResolutionModal.ChoiceClosesTwiceAsWritten | ConflictResolutionModal.ChoiceResolvesOnce |
