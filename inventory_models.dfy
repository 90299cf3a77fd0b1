/**
 * The quest inventory's item model: item kinds, rarities, the five item
 * templates the quest hands out and the inventory configuration.
 */
module InventoryModels {
  import opened Wrappers

  datatype ItemType = Key | Document | Tool | Artifact | Quest | Consumable

  /** Declared in this order; the order is what sorting by rarity uses. */
  datatype ItemRarity = Common | Uncommon | Rare | Epic | Legendary | Mythic

  /** `Object.values(ItemRarity)`: the rarities in declaration order, each once. */
  const Rarities: seq<ItemRarity> := [Common, Uncommon, Rare, Epic, Legendary, Mythic]

  /** Position of a rarity in the declaration order (`Object.values(ItemRarity).indexOf`). */
  function RarityIndex(r: ItemRarity): (i: nat)
    ensures i < |Rarities| && Rarities[i] == r
  {
    match r
    case Common => 0
    case Uncommon => 1
    case Rare => 2
    case Epic => 3
    case Legendary => 4
    case Mythic => 5
  }

  /**
   * An inventory item. `quantity` is the optional count; `npcTarget`, `unlocks`,
   * `questId`, `uses`, `maxUses` and `isNew` are the metadata fields the
   * inventory reads. An absent `unlocks` is the empty list and an absent
   * `maxUses` is 0: the service only ever tests them for truthiness.
   */
  datatype Item = Item(
    id: string,
    name: string,
    itemType: ItemType,
    rarity: ItemRarity,
    destroyable: bool,
    tradeable: bool,
    stackable: bool,
    quantity: Option<int>,
    npcTarget: Option<string>,
    unlocks: seq<string>,
    questId: Option<string>,
    uses: Option<int>,
    maxUses: int,
    isNew: bool)

  function Template(id: string, name: string, t: ItemType, r: ItemRarity, npc: string, unlock: string, quest: Option<string>): Item {
    Item(id, name, t, r, false, true, false, None, Some(npc), [unlock], quest, None, 0, false)
  }

  /** The item templates, in declaration order. */
  const InitialItems: seq<Item> := [
    Template("primordial_code", "Código Primordial", Key, Mythic, "librarian", "activation_key_alpha", Some("main_quest_activation")),
    Template("activation_key_alpha", "Chave de Ativação Alpha", Key, Epic, "requirements_scribe", "execution_core_beta", None),
    Template("execution_core_beta", "Núcleo de Execução Beta", Artifact, Epic, "artisan", "optimization_module_gamma", None),
    Template("optimization_module_gamma", "Módulo de Otimização Gamma", Tool, Rare, "critic", "synchronization_protocol_omega", None),
    Template("synchronization_protocol_omega", "Protocolo de Sincronização Omega", Artifact, Legendary, "elder_guide", "collective_consciousness", Some("main_quest_synchronization"))
  ]

  datatype InventoryConfig = InventoryConfig(
    initialMaxSlots: nat,
    slotsPerRow: nat,
    maxStackSize: nat,
    animationDuration: nat,
    dragDropEnabled: bool,
    autoSort: bool)

  const Config := InventoryConfig(20, 5, 99, 300, true, true)

  /** The configuration's values. */
  lemma ConfigValues()
    ensures Config.initialMaxSlots == 20 && Config.slotsPerRow == 5
    ensures Config.maxStackSize == 99 && Config.animationDuration == 300
    ensures Config.dragDropEnabled && Config.autoSort
  {
  }

  /** Every template is indestructible, tradeable, not stackable and names the NPC it is for. */
  lemma TemplateFlags()
    ensures |InitialItems| == 5
    ensures forall t :: t in InitialItems ==>
      !t.destroyable && t.tradeable && !t.stackable && t.npcTarget.Some? && t.npcTarget.value != ""
  {
  }

  /** Each template unlocks exactly the next one; the last unlocks something that is not a template. */
  lemma UnlockChain()
    ensures forall i :: 0 <= i < |InitialItems| - 1 ==> InitialItems[i].unlocks == [InitialItems[i + 1].id]
    ensures InitialItems[4].unlocks == ["collective_consciousness"]
    ensures forall t :: t in InitialItems ==> t.id != "collective_consciousness"
  {
  }

  /** `INITIAL_ITEMS.find(item => item.id === id)`. */
  function FindTemplate(id: string): (r: Option<Item>)
    ensures r.Some? ==> r.value in InitialItems && r.value.id == id
    ensures r.None? ==> forall t :: t in InitialItems ==> t.id != id
  {
    FindTemplateIn(InitialItems, id)
  }

  function FindTemplateIn(ts: seq<Item>, id: string): (r: Option<Item>)
    ensures r.Some? ==> r.value in ts && r.value.id == id
    ensures r.None? ==> forall t :: t in ts ==> t.id != id
  {
    if ts == [] then None else if ts[0].id == id then Some(ts[0]) else FindTemplateIn(ts[1..], id)
  }
}
