/**
 * The quest inventory: a bounded list of items with stacking, removal,
 * trading with NPCs, consumables and a transaction log capped at 100 entries.
 *
 * The functions `AfterAdd`, `AfterRemove`, `AfterGive`, `AfterUse` and
 * `AfterClear` give each operation's result and new state; the class
 * `Inventory` performs the same operations on its fields, and each method
 * is proved to agree with its function.
 */
module InventoryService {
  import opened Wrappers
  import opened JsText
  import opened InventoryModels
  import Sorting

  const MaxTransactions: nat := 100

  datatype TransactionType = Give | Receive | Use | Destroy

  /** A logged transaction; its generated id and timestamp are not modelled. */
  datatype Transaction = Transaction(kind: TransactionType, itemId: string, to: Option<string>, reason: string)

  datatype InventoryState = InventoryState(items: seq<Item>, maxSlots: int, usedSlots: int, transactions: seq<Transaction>)

  /** `addItem` takes either a template id or an item object. */
  datatype ItemOrId = ById(id: string) | Object(item: Item)

  const EmptyInventory := InventoryState([], Config.initialMaxSlots, 0, [])

  /** `quantity || 1`: an absent or zero quantity counts as one. */
  function QuantityOrOne(q: Option<int>): (n: int)
    ensures q.Some? && q.value != 0 ==> n == q.value
    ensures q.None? || q.value == 0 ==> n == 1
  {
    if q.Some? && q.value != 0 then q.value else 1
  }

  /** `items.find(i => i.id === id)`, as the index of the first match. */
  function FindItem(items: seq<Item>, id: string): (r: Option<nat>)
    ensures r.Some? ==> r.value < |items| && items[r.value].id == id
    ensures r.Some? ==> forall j :: 0 <= j < r.value ==> items[j].id != id
    ensures r.None? ==> forall j :: 0 <= j < |items| ==> items[j].id != id
  {
    if items == [] then None
    else if items[0].id == id then Some(0)
    else match FindItem(items[1..], id)
      case None => None
      case Some(k) => Some(k + 1)
  }

  predicate Holds(items: seq<Item>, id: string) { exists j :: 0 <= j < |items| && items[j].id == id }

  /** `createItemFromTemplate`: a copy of the template with quantity 1, or nothing for an unknown id. */
  function CreateItemFromTemplate(id: string): (r: Option<Item>)
    ensures r.Some? <==> exists t :: t in InitialItems && t.id == id
    ensures r.Some? ==> r.value.id == id && r.value.quantity == Some(1) && r.value.(quantity := None) in InitialItems
  {
    match FindTemplate(id)
    case None => None
    case Some(t) => Some(t.(quantity := Some(1)))
  }

  function Resolve(arg: ItemOrId): Option<Item> {
    match arg
    case ById(id) => CreateItemFromTemplate(id)
    case Object(item) => Some(item)
  }

  // ---------------------------------------------------------------- the log

  /** `recordTransaction`: append, then drop the oldest entry once there are more than 100. */
  function Record(log: seq<Transaction>, t: Transaction): (r: seq<Transaction>)
    ensures |r| > 0 && r[|r| - 1] == t
    ensures |log| < MaxTransactions ==> r == log + [t]
    ensures |log| <= MaxTransactions ==> |r| <= MaxTransactions
    ensures |log| >= MaxTransactions ==> |r| == |log| && r == log[1..] + [t]
  {
    var grown := log + [t];
    if |grown| > MaxTransactions then grown[1..] else grown
  }

  // ------------------------------------------------------------- ordering

  function Rank(item: Item): nat { RarityIndex(item.rarity) }

  /** Highest rarity first. */
  predicate SortedByRarity(items: seq<Item>) {
    forall i, j :: 0 <= i < j < |items| ==> Rank(items[i]) >= Rank(items[j])
  }

  /** Where a stable sort places `x` after `items`: behind every item at least as rare. */
  function InsertPos(items: seq<Item>, x: Item): (k: nat)
    requires SortedByRarity(items)
    ensures k <= |items|
    ensures forall j :: 0 <= j < k ==> Rank(items[j]) >= Rank(x)
    ensures forall j :: k <= j < |items| ==> Rank(items[j]) < Rank(x)
  {
    if items == [] then 0
    else if Rank(items[|items| - 1]) >= Rank(x) then |items|
    else InsertPos(items[..|items| - 1], x)
  }

  /** `s` with `x` inserted at position `k`. */
  function InsertAt(s: seq<Item>, k: nat, x: Item): (r: seq<Item>)
    requires k <= |s|
    ensures |r| == |s| + 1 && r[k] == x
    ensures forall i :: 0 <= i < k ==> r[i] == s[i]
    ensures forall i :: k < i < |r| ==> r[i] == s[i - 1]
    ensures multiset(r) == multiset(s) + multiset{x}
  {
    assert s == s[..k] + s[k..];
    s[..k] + [x] + s[k..]
  }

  lemma InsertKeepsSorted(s: seq<Item>, x: Item)
    requires SortedByRarity(s)
    ensures SortedByRarity(InsertAt(s, InsertPos(s, x), x))
  {
    var k := InsertPos(s, x);
    var r := InsertAt(s, k, x);
    forall i, j | 0 <= i < j < |r| ensures Rank(r[i]) >= Rank(r[j]) {
      if j < k {
        assert r[i] == s[i] && r[j] == s[j];
      } else if j == k {
        assert r[i] == s[i];
      } else if i < k {
        assert r[i] == s[i] && r[j] == s[j - 1];
      } else if i == k {
        assert r[j] == s[j - 1];
      } else {
        assert r[i] == s[i - 1] && r[j] == s[j - 1];
      }
    }
  }

  /** The comparator `rank(b) - rank(a)` used by `Array.prototype.sort`, which is stable: insertion sort. */
  function SortByRarity(items: seq<Item>): (r: seq<Item>)
    ensures SortedByRarity(r)
    ensures multiset(r) == multiset(items)
    decreases |items|
  {
    if items == [] then []
    else
      var init := items[..|items| - 1];
      var x := items[|items| - 1];
      var sorted := SortByRarity(init);
      InsertKeepsSorted(sorted, x);
      assert items == init + [x];
      InsertAt(sorted, InsertPos(sorted, x), x)
  }

  /** The `sortBy` argument of `sortInventory`. */
  datatype SortKey = ByType | ByRarity | ByName

  /** The string value of an `ItemType` member, which `'type'` sorting compares. */
  function TypeName(t: ItemType): string {
    match t
    case Key => "key"
    case Document => "document"
    case Tool => "tool"
    case Artifact => "artifact"
    case Quest => "quest"
    case Consumable => "consumable"
  }

  /**
   * `sortInventory(sortBy)`. `localeCompare` is given as `collate`, a string's
   * position in the locale's collation; `'type'` compares the type names and
   * `'name'` the item names, `'rarity'` puts the rarest first.
   */
  function SortedItems(items: seq<Item>, sortBy: SortKey, collate: string -> int): seq<Item> {
    match sortBy
    case ByRarity => SortByRarity(items)
    case ByType => Sorting.SortBy(items, TypeKey(collate))
    case ByName => Sorting.SortBy(items, NameKey(collate))
  }

  function TypeKey(collate: string -> int): Item -> int {
    (it: Item) => collate(TypeName(it.itemType))
  }

  function NameKey(collate: string -> int): Item -> int {
    (it: Item) => collate(it.name)
  }

  /** Every mode reorders the items and nothing more, in the order its comparator asks for. */
  lemma SortedItemsFacts(items: seq<Item>, sortBy: SortKey, collate: string -> int)
    ensures multiset(SortedItems(items, sortBy, collate)) == multiset(items)
    ensures sortBy == ByRarity ==> SortedByRarity(SortedItems(items, sortBy, collate))
    ensures sortBy == ByType ==> Sorting.SortedBy(SortedItems(items, sortBy, collate), TypeKey(collate))
    ensures sortBy == ByName ==> Sorting.SortedBy(SortedItems(items, sortBy, collate), NameKey(collate))
  {
  }

  /** Sorting a list that is already sorted changes nothing. */
  lemma {:induction false} SortSortedIsIdentity(items: seq<Item>)
    requires SortedByRarity(items)
    ensures SortByRarity(items) == items
    decreases |items|
  {
    if items != [] {
      var init := items[..|items| - 1];
      var x := items[|items| - 1];
      InitSorted(items);
      SortSortedIsIdentity(init);
      assert SortByRarity(items) == InsertAt(init, InsertPos(init, x), x);
      InsertAtEnd(init, x);
      assert items == init + [x];
    }
  }

  /** An item no rarer than the last of a sorted list is inserted at its end. */
  lemma InsertAtEnd(s: seq<Item>, x: Item)
    requires SortedByRarity(s)
    requires |s| > 0 ==> Rank(s[|s| - 1]) >= Rank(x)
    ensures InsertAt(s, InsertPos(s, x), x) == s + [x]
  {
    assert InsertPos(s, x) == |s|;
    assert s[..|s|] == s;
  }

  /** In a list sorted by rarity, all but the last item are sorted and the last is no rarer than the one before. */
  lemma InitSorted(items: seq<Item>)
    requires SortedByRarity(items) && items != []
    ensures SortedByRarity(items[..|items| - 1])
    ensures |items| > 1 ==> Rank(items[..|items| - 1][|items| - 2]) >= Rank(items[|items| - 1])
  {
    var init := items[..|items| - 1];
    forall i | 0 <= i < |init| ensures init[i] == items[i] { }
  }

  /**
   * Adding `x` behind a sorted list and sorting places `x` behind every item
   * at least as rare and ahead of every rarer one; the others keep their order.
   */
  lemma SortAppended(items: seq<Item>, x: Item)
    requires SortedByRarity(items)
    ensures var k := InsertPos(items, x);
      SortByRarity(items + [x]) == InsertAt(items, k, x)
  {
    SortSortedIsIdentity(items);
    assert (items + [x])[..|items|] == items;
  }

  predicate DistinctIds(items: seq<Item>) {
    forall i, j :: 0 <= i < j < |items| ==> items[i].id != items[j].id
  }

  /** What every operation keeps: the slot counter, the log bound, unique ids and the rarity order. */
  predicate Valid(st: InventoryState) {
    st.usedSlots == |st.items| && |st.transactions| <= MaxTransactions
    && DistinctIds(st.items) && SortedByRarity(st.items)
  }

  function RemoveAt(items: seq<Item>, k: nat): (r: seq<Item>)
    requires k < |items|
    ensures |r| == |items| - 1
    ensures SortedByRarity(items) ==> SortedByRarity(r)
    ensures DistinctIds(items) ==> DistinctIds(r)
    ensures multiset(r) == multiset(items) - multiset{items[k]}
  {
    assert items == items[..k] + [items[k]] + items[k + 1..];
    var r := items[..k] + items[k + 1..];
    assert forall i :: 0 <= i < |r| ==> r[i] == items[if i < k then i else i + 1];
    r
  }

  // ------------------------------------------------------------ operations

  function Stacked(existing: Item, incoming: Item): (r: int)
    ensures r <= Config.maxStackSize
    ensures QuantityOrOne(existing.quantity) + QuantityOrOne(incoming.quantity) <= Config.maxStackSize ==>
      r == QuantityOrOne(existing.quantity) + QuantityOrOne(incoming.quantity)
  {
    var q := QuantityOrOne(existing.quantity) + QuantityOrOne(incoming.quantity);
    if q > Config.maxStackSize then Config.maxStackSize else q
  }

  /** The stacking branch of `addItem`: the held entry at `k` takes the incoming quantity. */
  function StackInto(st: InventoryState, k: nat, it: Item): InventoryState
    requires k < |st.items|
  {
    var e := st.items[k];
    st.(items := st.items[k := e.(quantity := Some(Stacked(e, it)))],
        transactions := Record(st.transactions, Transaction(Receive, it.id, None, "Item stacked")))
  }

  /** The new-entry branch of `addItem`: marked new, appended, re-sorted by rarity. */
  function AddFresh(st: InventoryState, it: Item): InventoryState {
    st.(items := SortByRarity(st.items + [it.(isNew := true)]), usedSlots := st.usedSlots + 1,
        transactions := Record(st.transactions, Transaction(Receive, it.id, None, "Item added to inventory")))
  }

  /** `addItem`: whether it succeeded and the new state. */
  function AfterAdd(st: InventoryState, arg: ItemOrId): (bool, InventoryState) {
    if st.usedSlots >= st.maxSlots then (false, st)
    else match Resolve(arg)
      case None => (false, st)
      case Some(it) =>
        match FindItem(st.items, it.id)
        case Some(k) => if it.stackable then (true, StackInto(st, k, it)) else (false, st)
        case None => (true, AddFresh(st, it))
  }

  /** `removeItem(itemId, quantity)`. */
  function AfterRemove(st: InventoryState, id: string, quantity: int): (bool, InventoryState) {
    match FindItem(st.items, id)
    case None => (false, st)
    case Some(k) =>
      var it := st.items[k];
      if !it.destroyable then (false, st)
      else if Lowers(it, quantity) then (true, StackLowered(st, k, id, quantity))
      else (true, Dropped(st, k, id))
  }

  /** `item.stackable && item.quantity && item.quantity > quantity`: the stack is lowered rather than dropped. */
  predicate Lowers(it: Item, quantity: int) {
    it.stackable && it.quantity.Some? && it.quantity.value != 0 && it.quantity.value > quantity
  }

  /** `item.quantity -= quantity` on the entry at `k`, logged. */
  function StackLowered(st: InventoryState, k: nat, id: string, quantity: int): InventoryState
    requires k < |st.items| && st.items[k].quantity.Some?
  {
    var it := st.items[k];
    st.(items := st.items[k := it.(quantity := Some(it.quantity.value - quantity))],
        transactions := Record(st.transactions, Transaction(Destroy, id, None, "Removed " + IntToString(quantity) + " unit(s)")))
  }

  /** The entry at `k` spliced out, one slot freed, logged. */
  function Dropped(st: InventoryState, k: nat, id: string): InventoryState
    requires k < |st.items|
  {
    st.(items := RemoveAt(st.items, k), usedSlots := st.usedSlots - 1,
        transactions := Record(st.transactions, Transaction(Destroy, id, None, "Item removed from inventory")))
  }

  /** Whether `giveItemToNPC` accepts the item for this NPC. */
  predicate CanGive(it: Item, npcId: string) {
    it.tradeable && !(Truthy(it.npcTarget) && it.npcTarget.value != npcId)
  }

  /** The hand-over step of `giveItemToNPC`: a destroyable item at `k` leaves the inventory and the gift is logged. */
  function HandedOver(st: InventoryState, k: nat, id: string, npcId: string): InventoryState
    requires k < |st.items|
  {
    var s1 := if st.items[k].destroyable then st.(items := RemoveAt(st.items, k), usedSlots := st.usedSlots - 1) else st;
    s1.(transactions := Record(s1.transactions, Transaction(Give, id, Some(npcId), "Given to " + npcId)))
  }

  /** `giveItemToNPC`: success, the reward item created, and the new state. */
  function AfterGive(st: InventoryState, id: string, npcId: string): (bool, Option<Item>, InventoryState) {
    match FindItem(st.items, id)
    case None => (false, None, st)
    case Some(k) =>
      var it := st.items[k];
      if !CanGive(it, npcId) then (false, None, st)
      else
        var s2 := HandedOver(st, k, id, npcId);
        if |it.unlocks| == 0 then (true, None, s2)
        else match CreateItemFromTemplate(it.unlocks[0])
          case None => (true, None, s2)
          case Some(reward) => (true, Some(reward), AfterAdd(s2, Object(reward)).1)
  }

  /** One more use counted on the consumable at `k`. */
  function UseCounted(st: InventoryState, k: nat): InventoryState
    requires k < |st.items| && st.items[k].uses.Some?
  {
    var it := st.items[k];
    st.(items := st.items[k := it.(uses := Some(it.uses.value + 1))])
  }

  /** The log entry `useItem` writes last. */
  function Consumed(st: InventoryState, id: string): InventoryState {
    st.(transactions := Record(st.transactions, Transaction(Use, id, None, "Item consumed")))
  }

  /** `useItem`. */
  function AfterUse(st: InventoryState, id: string): (bool, InventoryState) {
    match FindItem(st.items, id)
    case None => (false, st)
    case Some(k) =>
      var it := st.items[k];
      if it.itemType != Consumable then (false, st)
      else if it.uses.Some? && it.maxUses != 0 then
        if it.uses.value >= it.maxUses then (false, st)
        else
          var s1 := UseCounted(st, k);
          var s2 := if it.uses.value + 1 >= it.maxUses then AfterRemove(s1, id, 1).1 else s1;
          (true, Consumed(s2, id))
      else
        (true, Consumed(AfterRemove(st, id, 1).1, id))
  }

  function KeepIndestructible(items: seq<Item>): (r: seq<Item>)
    ensures forall i :: 0 <= i < |r| ==> !r[i].destroyable
    ensures forall x :: x in items && !x.destroyable ==> x in r
    ensures forall x :: x in r ==> x in items
  {
    if items == [] then []
    else
      var rest := KeepIndestructible(items[1..]);
      if items[0].destroyable then rest else [items[0]] + rest
  }

  lemma {:induction false} KeepIndestructibleSorted(items: seq<Item>)
    requires SortedByRarity(items)
    ensures SortedByRarity(KeepIndestructible(items))
  {
    if items != [] {
      var tail := items[1..];
      HeadAndTailSorted(items);
      KeepIndestructibleSorted(tail);
      if !items[0].destroyable {
        PrependSorted(items[0], KeepIndestructible(tail));
      }
    }
  }

  /** In a list sorted by rarity, the tail is sorted and the head is at least as rare as every later item. */
  lemma HeadAndTailSorted(items: seq<Item>)
    requires SortedByRarity(items) && items != []
    ensures SortedByRarity(items[1..])
    ensures forall y :: y in items[1..] ==> Rank(y) <= Rank(items[0])
  {
    var tail := items[1..];
    forall i | 0 <= i < |tail| ensures tail[i] == items[i + 1] { }
  }

  /** A head at least as rare as every item of a sorted list keeps it sorted. */
  lemma PrependSorted(h: Item, rest: seq<Item>)
    requires SortedByRarity(rest)
    requires forall y :: y in rest ==> Rank(y) <= Rank(h)
    ensures SortedByRarity([h] + rest)
  {
    var r := [h] + rest;
    forall i, j | 0 <= i < j < |r| ensures Rank(r[i]) >= Rank(r[j]) {
      assert r[j] == rest[j - 1];
      if i > 0 { assert r[i] == rest[i - 1]; } else { assert r[j] in rest; }
    }
  }

  lemma {:induction false} KeepIndestructibleDistinct(items: seq<Item>)
    requires DistinctIds(items)
    ensures DistinctIds(KeepIndestructible(items))
  {
    if items != [] {
      var tail := items[1..];
      HeadAndTailDistinct(items);
      KeepIndestructibleDistinct(tail);
      if !items[0].destroyable {
        PrependDistinct(items[0], KeepIndestructible(tail));
      }
    }
  }

  /** In a list of distinct ids, the tail has distinct ids and none of them is the head's. */
  lemma HeadAndTailDistinct(items: seq<Item>)
    requires DistinctIds(items) && items != []
    ensures DistinctIds(items[1..])
    ensures forall y :: y in items[1..] ==> y.id != items[0].id
  {
    var tail := items[1..];
    forall i | 0 <= i < |tail| ensures tail[i] == items[i + 1] { }
  }

  /** A head whose id no item of a distinct-id list has keeps the ids distinct. */
  lemma PrependDistinct(h: Item, rest: seq<Item>)
    requires DistinctIds(rest)
    requires forall y :: y in rest ==> y.id != h.id
    ensures DistinctIds([h] + rest)
  {
    var r := [h] + rest;
    forall i, j | 0 <= i < j < |r| ensures r[i].id != r[j].id {
      assert r[j] == rest[j - 1];
      if i > 0 { assert r[i] == rest[i - 1]; } else { assert r[j] in rest; }
    }
  }

  /** `clearDestroyableItems`. */
  function AfterClear(st: InventoryState): InventoryState {
    var kept := KeepIndestructible(st.items);
    st.(items := kept, usedSlots := |kept|)
  }

  /** `getItemCount`. */
  function ItemCount(st: InventoryState, id: string): (n: int)
    ensures !Holds(st.items, id) ==> n == 0
    ensures Holds(st.items, id) ==> exists j :: 0 <= j < |st.items| && st.items[j].id == id && n == QuantityOrOne(st.items[j].quantity)
  {
    match FindItem(st.items, id)
    case None => 0
    case Some(k) => QuantityOrOne(st.items[k].quantity)
  }

  // ---------------------------------------------------------------- lemmas

  /** The empty inventory satisfies the invariant. */
  lemma EmptyValid()
    ensures Valid(EmptyInventory) && EmptyInventory.maxSlots == 20
  {
  }

  /** A full inventory rejects every item and changes nothing. */
  lemma AddWhenFull(st: InventoryState, arg: ItemOrId)
    requires st.usedSlots >= st.maxSlots
    ensures AfterAdd(st, arg) == (false, st)
  {
  }

  /** Adding succeeds exactly when there is room, the template exists and the item is stackable or not yet held. */
  lemma AddSucceedsIff(st: InventoryState, arg: ItemOrId)
    ensures AfterAdd(st, arg).0 <==>
      st.usedSlots < st.maxSlots && Resolve(arg).Some?
      && (Resolve(arg).value.stackable || !Holds(st.items, Resolve(arg).value.id))
    ensures !AfterAdd(st, arg).0 ==> AfterAdd(st, arg).1 == st
  {
  }

  /** A stackable item already held raises that item's quantity, capped at 99; slots are unchanged. */
  lemma AddStacks(st: InventoryState, it: Item, k: nat)
    requires Valid(st) && st.usedSlots < st.maxSlots && it.stackable
    requires k < |st.items| && st.items[k].id == it.id
    ensures var (ok, st') := AfterAdd(st, Object(it));
      ok && Valid(st') && st'.usedSlots == st.usedSlots && |st'.items| == |st.items|
      && st'.items[k].quantity == Some(Stacked(st.items[k], it))
      && (forall j :: 0 <= j < |st.items| && j != k ==> st'.items[j] == st.items[j])
  {
    assert FindItem(st.items, it.id) == Some(k);
    StackKeepsValid(st, k, it);
  }

  /** Stacking changes one quantity, so ranks and ids, hence validity, are kept. */
  lemma StackKeepsValid(st: InventoryState, k: nat, it: Item)
    requires Valid(st) && k < |st.items|
    ensures Valid(StackInto(st, k, it))
  {
    var e := st.items[k];
    var items' := st.items[k := e.(quantity := Some(Stacked(e, it)))];
    assert forall j :: 0 <= j < |items'| ==> Rank(items'[j]) == Rank(st.items[j]) && items'[j].id == st.items[j].id;
  }

  lemma InsertDistinct(s: seq<Item>, k: nat, x: Item)
    requires k <= |s| && DistinctIds(s) && !Holds(s, x.id)
    ensures DistinctIds(InsertAt(s, k, x))
  {
    var r := InsertAt(s, k, x);
    forall i, j | 0 <= i < j < |r| ensures r[i].id != r[j].id {
      if j < k {
        assert r[i] == s[i] && r[j] == s[j];
      } else if j == k {
        assert r[i] == s[i];
      } else if i < k {
        assert r[i] == s[i] && r[j] == s[j - 1];
      } else if i == k {
        assert r[j] == s[j - 1];
      } else {
        assert r[i] == s[i - 1] && r[j] == s[j - 1];
      }
    }
  }

  /** A new item is added marked as new, the sorted order is kept and one more slot is used. */
  lemma AddNew(st: InventoryState, it: Item)
    requires Valid(st) && st.usedSlots < st.maxSlots && !Holds(st.items, it.id)
    ensures var (ok, st') := AfterAdd(st, Object(it));
      ok && Valid(st') && st'.usedSlots == st.usedSlots + 1
      && multiset(st'.items) == multiset(st.items) + multiset{it.(isNew := true)}
      && Holds(st'.items, it.id)
  {
    assert FindItem(st.items, it.id).None?;
    assert AfterAdd(st, Object(it)) == (true, AddFresh(st, it));
    AddFreshFacts(st, it);
  }

  /** The new-entry branch keeps the invariant and holds the new item besides the old ones. */
  lemma AddFreshFacts(st: InventoryState, it: Item)
    requires Valid(st) && !Holds(st.items, it.id)
    ensures var st' := AddFresh(st, it);
      Valid(st') && st'.usedSlots == st.usedSlots + 1
      && multiset(st'.items) == multiset(st.items) + multiset{it.(isNew := true)}
      && Holds(st'.items, it.id)
  {
    var added := it.(isNew := true);
    var k := InsertPos(st.items, added);
    SortAppended(st.items, added);
    InsertKeepsSorted(st.items, added);
    InsertDistinct(st.items, k, added);
    var items' := SortByRarity(st.items + [added]);
    assert items' == InsertAt(st.items, k, added);
    assert items'[k].id == it.id;
    RecordKeepsValid(st.(items := items', usedSlots := st.usedSlots + 1), Transaction(Receive, it.id, None, "Item added to inventory"));
  }

  /** `addItem` keeps the invariant. */
  lemma AddPreservesValid(st: InventoryState, arg: ItemOrId)
    requires Valid(st)
    ensures Valid(AfterAdd(st, arg).1)
  {
    if st.usedSlots < st.maxSlots && Resolve(arg).Some? {
      var it := Resolve(arg).value;
      AddItemKeepsValid(st, it);
      assert AfterAdd(st, arg) == AfterAdd(st, Object(it));
    }
  }

  /** Adding a given item keeps the invariant. */
  lemma AddItemKeepsValid(st: InventoryState, it: Item)
    requires Valid(st) && st.usedSlots < st.maxSlots
    ensures Valid(AfterAdd(st, Object(it)).1)
  {
    match FindItem(st.items, it.id)
    case Some(k) =>
      if it.stackable { AddStacks(st, it, k); }
    case None =>
      AddNew(st, it);
  }

  /** A non-stackable item that is already held is rejected and nothing changes. */
  lemma AddDuplicateRejected(st: InventoryState, it: Item)
    requires !it.stackable && Holds(st.items, it.id)
    ensures AfterAdd(st, Object(it)) == (false, st)
  {
  }

  /** `removeItem` fails on a missing or indestructible item; otherwise it lowers the stack or drops the item. */
  lemma RemoveCases(st: InventoryState, id: string, quantity: int)
    requires Valid(st)
    ensures var (ok, st') := AfterRemove(st, id, quantity);
      Valid(st')
      && (!ok <==> !Holds(st.items, id) || !st.items[FindItem(st.items, id).value].destroyable)
      && (!ok ==> st' == st)
      && (ok ==>
            var k := FindItem(st.items, id).value;
            var it := st.items[k];
            if Lowers(it, quantity) then
              st'.items == st.items[k := it.(quantity := Some(it.quantity.value - quantity))]
              && st'.usedSlots == st.usedSlots
            else
              st'.items == RemoveAt(st.items, k) && st'.usedSlots == st.usedSlots - 1 && !Holds(st'.items, id))
  {
    RemoveKeepsValid(st, id, quantity);
    var found := FindItem(st.items, id);
    if found.Some? && st.items[found.value].destroyable {
      RemoveSucceeds(st, id, quantity);
    }
  }

  /** A successful `removeItem` lowers the stack at the item's position or splices that entry out. */
  lemma RemoveSucceeds(st: InventoryState, id: string, quantity: int)
    requires DistinctIds(st.items)
    requires FindItem(st.items, id).Some? && st.items[FindItem(st.items, id).value].destroyable
    ensures var st' := AfterRemove(st, id, quantity).1;
      var k := FindItem(st.items, id).value;
      var it := st.items[k];
      if Lowers(it, quantity) then
        st'.items == st.items[k := it.(quantity := Some(it.quantity.value - quantity))]
        && st'.usedSlots == st.usedSlots
      else
        st'.items == RemoveAt(st.items, k) && st'.usedSlots == st.usedSlots - 1 && !Holds(st'.items, id)
  {
    var k := FindItem(st.items, id).value;
    if !Lowers(st.items[k], quantity) {
      RemoveAtDropsId(st.items, k, id);
    }
  }

  /** `removeItem` keeps the invariant. */
  lemma RemoveKeepsValid(st: InventoryState, id: string, quantity: int)
    requires Valid(st)
    ensures Valid(AfterRemove(st, id, quantity).1)
  {
    match FindItem(st.items, id)
    case None =>
    case Some(k) =>
      var it := st.items[k];
      if it.destroyable && Lowers(it, quantity) {
        SameKeysKeepValid(st, st.items[k := it.(quantity := Some(it.quantity.value - quantity))]);
      }
  }

  /** Replacing the items by ones with the same ids and rarities keeps the invariant. */
  lemma SameKeysKeepValid(st: InventoryState, items': seq<Item>)
    requires Valid(st) && |items'| == |st.items|
    requires forall j :: 0 <= j < |items'| ==> Rank(items'[j]) == Rank(st.items[j]) && items'[j].id == st.items[j].id
    ensures Valid(st.(items := items'))
  {
  }

  /** Removing the entry that holds `id` leaves no entry with that id, when ids are distinct. */
  lemma RemoveAtDropsId(items: seq<Item>, k: nat, id: string)
    requires DistinctIds(items) && k < |items| && items[k].id == id
    ensures !Holds(RemoveAt(items, k), id)
  {
    var items' := RemoveAt(items, k);
    forall j | 0 <= j < |items'| ensures items'[j].id != id {
      assert items'[j] == items[if j < k then j else j + 1];
    }
  }

  /** `giveItemToNPC` fails, changing nothing, for a missing or untradeable item or the wrong NPC. */
  lemma GiveFailsIff(st: InventoryState, id: string, npcId: string)
    ensures var (ok, reward, st') := AfterGive(st, id, npcId);
      (!ok <==> !Holds(st.items, id) || !CanGive(st.items[FindItem(st.items, id).value], npcId))
      && (!ok ==> reward.None? && st' == st)
  {
  }

  /**
   * An indestructible item stays in the inventory when given. A destroyable
   * one is spliced out, one slot is freed, and then only the reward, if its
   * template exists, is added; so the item is gone unless the reward has its id.
   */
  lemma GiveRemovesOnlyDestroyable(st: InventoryState, id: string, npcId: string)
    requires Valid(st)
    requires AfterGive(st, id, npcId).0
    ensures var k := FindItem(st.items, id).value;
      var it := st.items[k];
      var (_, reward, st') := AfterGive(st, id, npcId);
      (!it.destroyable ==> Holds(st'.items, id))
      && (it.destroyable ==>
            var s2 := HandedOver(st, k, id, npcId);
            s2.items == RemoveAt(st.items, k) && s2.usedSlots == st.usedSlots - 1
            && (if reward.Some? then st' == AfterAdd(s2, Object(reward.value)).1 else st' == s2)
            && (reward.None? || reward.value.id != id ==> !Holds(st'.items, id)))
  {
    var k := FindItem(st.items, id).value;
    var it := st.items[k];
    var s2 := HandedOver(st, k, id, npcId);
    if it.destroyable {
      RemoveAtDropsId(st.items, k, id);
      if |it.unlocks| > 0 {
        match CreateItemFromTemplate(it.unlocks[0])
        case None =>
        case Some(reward) =>
          if reward.id != id {
            AddKeepsAbsent(s2, Object(reward), id);
          }
      }
    } else if |it.unlocks| > 0 {
      match CreateItemFromTemplate(it.unlocks[0])
      case None =>
      case Some(reward) => AddKeepsHeld(s2, Object(reward), id, k);
    }
  }

  /** Adding an item with another id never brings in `id`. */
  lemma AddKeepsAbsent(st: InventoryState, arg: ItemOrId, id: string)
    requires !Holds(st.items, id)
    requires Resolve(arg).Some? && Resolve(arg).value.id != id
    ensures !Holds(AfterAdd(st, arg).1.items, id)
  {
    if st.usedSlots < st.maxSlots {
      var it := Resolve(arg).value;
      match FindItem(st.items, it.id)
      case Some(k) => StackKeepsAbsent(st, k, it, id);
      case None => FreshKeepsAbsent(st, it, id);
    }
  }

  lemma StackKeepsAbsent(st: InventoryState, k: nat, it: Item, id: string)
    requires k < |st.items| && !Holds(st.items, id)
    ensures !Holds(StackInto(st, k, it).items, id)
  {
    var r := StackInto(st, k, it).items;
    forall m | 0 <= m < |r| ensures r[m].id != id {
      assert r[m].id == st.items[m].id;
    }
  }

  lemma FreshKeepsAbsent(st: InventoryState, it: Item, id: string)
    requires !Holds(st.items, id) && it.id != id
    ensures !Holds(AddFresh(st, it).items, id)
  {
    var r := AddFresh(st, it).items;
    var grown := st.items + [it.(isNew := true)];
    forall m | 0 <= m < |r| ensures r[m].id != id {
      var x := r[m];
      assert x in multiset(r);
      assert x in multiset(grown);
      assert x in grown;
    }
  }

  /** Adding never loses an item that was held. */
  lemma AddKeepsHeld(st: InventoryState, arg: ItemOrId, id: string, k: nat)
    requires k < |st.items| && st.items[k].id == id
    ensures Holds(AfterAdd(st, arg).1.items, id)
  {
    var st' := AfterAdd(st, arg).1;
    if st'.items != st.items {
      var it := Resolve(arg).value;
      match FindItem(st.items, it.id)
      case Some(j) =>
        assert st'.items[k].id == id;
      case None =>
        var grown := st.items + [it.(isNew := true)];
        assert grown[k] in multiset(st'.items);
        var x := grown[k];
        assert x in st'.items;
    }
  }

  /** The log stays within 100 entries and ends with the newest transaction. */
  lemma LogBounded(st: InventoryState, arg: ItemOrId, id: string, npcId: string, q: int)
    requires Valid(st)
    ensures Valid(AfterRemove(st, id, q).1)
    ensures Valid(AfterGive(st, id, npcId).2)
    ensures Valid(AfterUse(st, id).1)
    ensures Valid(AfterClear(st))
  {
    RemoveKeepsValid(st, id, q);
    GivePreservesValid(st, id, npcId);
    UsePreservesValid(st, id);
    KeepIndestructibleSorted(st.items);
    KeepIndestructibleDistinct(st.items);
  }

  lemma GivePreservesValid(st: InventoryState, id: string, npcId: string)
    requires Valid(st)
    ensures Valid(AfterGive(st, id, npcId).2)
  {
    match FindItem(st.items, id)
    case None =>
    case Some(k) =>
      var it := st.items[k];
      if CanGive(it, npcId) {
        var s2 := HandedOver(st, k, id, npcId);
        HandOverKeepsValid(st, k, id, npcId);
        if |it.unlocks| > 0 {
          match CreateItemFromTemplate(it.unlocks[0])
          case None =>
          case Some(reward) => AddPreservesValid(s2, Object(reward));
        }
      }
  }

  /** The hand-over step keeps the invariant. */
  lemma HandOverKeepsValid(st: InventoryState, k: nat, id: string, npcId: string)
    requires Valid(st) && k < |st.items|
    ensures Valid(HandedOver(st, k, id, npcId))
  {
  }

  lemma UsePreservesValid(st: InventoryState, id: string)
    requires Valid(st)
    ensures Valid(AfterUse(st, id).1)
  {
    match FindItem(st.items, id)
    case None =>
    case Some(k) =>
      var it := st.items[k];
      if it.itemType == Consumable {
        if it.uses.Some? && it.maxUses != 0 {
          if it.uses.value < it.maxUses {
            var s1 := UseCounted(st, k);
            UseCountKeepsValid(st, k);
            RemoveKeepsValid(s1, id, 1);
            ConsumedKeepsValid(if it.uses.value + 1 >= it.maxUses then AfterRemove(s1, id, 1).1 else s1, id);
          }
        } else {
          RemoveKeepsValid(st, id, 1);
          ConsumedKeepsValid(AfterRemove(st, id, 1).1, id);
        }
      }
  }

  /** Logging the use keeps the invariant. */
  lemma ConsumedKeepsValid(st: InventoryState, id: string)
    requires Valid(st)
    ensures Valid(Consumed(st, id))
  {
  }

  /** Logging a transaction keeps the invariant. */
  lemma RecordKeepsValid(st: InventoryState, t: Transaction)
    requires Valid(st)
    ensures Valid(st.(transactions := Record(st.transactions, t)))
  {
  }

  /** Counting one more use of an item keeps the inventory valid: ids and rarities are unchanged. */
  lemma UseCountKeepsValid(st: InventoryState, k: nat)
    requires Valid(st) && k < |st.items| && st.items[k].uses.Some?
    ensures Valid(UseCounted(st, k))
  {
    var s1 := UseCounted(st, k);
    assert forall j :: 0 <= j < |s1.items| ==> Rank(s1.items[j]) == Rank(st.items[j]) && s1.items[j].id == st.items[j].id;
  }

  /** After clearing, every item left is indestructible, none was lost, and the slot count matches. */
  lemma ClearKeepsIndestructible(st: InventoryState)
    ensures var st' := AfterClear(st);
      st'.usedSlots == |st'.items|
      && (forall i :: 0 <= i < |st'.items| ==> !st'.items[i].destroyable)
      && (forall x :: x in st.items && !x.destroyable ==> x in st'.items)
  {
  }

  // ----------------------------------------------------------- the service

  class Inventory {
    var items: seq<Item>
    var maxSlots: int
    var usedSlots: int
    var transactions: seq<Transaction>

    function State(): InventoryState
      reads this
    {
      InventoryState(items, maxSlots, usedSlots, transactions)
    }

    /** A new, empty inventory of 20 slots; loading a saved one is not modelled. */
    constructor ()
      ensures State() == EmptyInventory && Valid(State())
    {
      items := [];
      maxSlots := Config.initialMaxSlots;
      usedSlots := 0;
      transactions := [];
    }

    method RecordTransaction(t: Transaction)
      modifies this
      ensures transactions == Record(old(transactions), t)
      ensures items == old(items) && maxSlots == old(maxSlots) && usedSlots == old(usedSlots)
    {
      transactions := transactions + [t];
      if |transactions| > MaxTransactions {
        transactions := transactions[1..];
      }
    }

    /** `sortInventory('rarity')`. */
    method SortInventory()
      modifies this
      ensures items == SortByRarity(old(items))
      ensures maxSlots == old(maxSlots) && usedSlots == old(usedSlots) && transactions == old(transactions)
    {
      items := SortByRarity(items);
    }

    /** `sortInventory(sortBy)` for any of the three modes. */
    method SortInventoryBy(sortBy: SortKey, collate: string -> int)
      modifies this
      ensures items == SortedItems(old(items), sortBy, collate)
      ensures maxSlots == old(maxSlots) && usedSlots == old(usedSlots) && transactions == old(transactions)
    {
      if sortBy == ByRarity {
        SortInventory();
      } else {
        items := Sorting.SortBy(items, if sortBy == ByType then TypeKey(collate) else NameKey(collate));
      }
    }

    method AddItem(arg: ItemOrId) returns (ok: bool)
      modifies this
      ensures (ok, State()) == AfterAdd(old(State()), arg)
    {
      if usedSlots >= maxSlots {
        return false;
      }
      var item := Resolve(arg);
      if item.None? {
        return false;
      }
      var it := item.value;
      var existing := FindItem(items, it.id);
      if it.stackable {
        if existing.Some? {
          StackItem(existing.value, it);
          return true;
        }
      } else if existing.Some? {
        return false;
      }
      AddNewItem(it);
      return true;
    }

    /** Raises the quantity of the entry at `k`, capped at the maximum stack size. */
    method StackItem(k: nat, it: Item)
      requires k < |items|
      modifies this
      ensures State() == StackInto(old(State()), k, it)
    {
      var e := items[k];
      var q := QuantityOrOne(e.quantity) + QuantityOrOne(it.quantity);
      if q > Config.maxStackSize {
        q := Config.maxStackSize;
      }
      items := items[k := e.(quantity := Some(q))];
      RecordTransaction(Transaction(Receive, it.id, None, "Item stacked"));
    }

    /** Appends `it` as a new entry and sorts by rarity (`autoSort` is on). */
    method AddNewItem(it: Item)
      modifies this
      ensures State() == AddFresh(old(State()), it)
    {
      ghost var before := State();
      items := items + [it.(isNew := true)];
      usedSlots := usedSlots + 1;
      RecordTransaction(Transaction(Receive, it.id, None, "Item added to inventory"));
      assert transactions == AddFresh(before, it).transactions;
      if Config.autoSort {
        SortInventory();
      }
    }

    method RemoveItem(id: string, quantity: int := 1) returns (ok: bool)
      modifies this
      ensures (ok, State()) == AfterRemove(old(State()), id, quantity)
    {
      var found := FindItem(items, id);
      if found.None? {
        return false;
      }
      var k := found.value;
      var it := items[k];
      if !it.destroyable {
        return false;
      }
      if Lowers(it, quantity) {
        LowerStack(k, id, quantity);
      } else {
        Drop(k, id);
      }
      return true;
    }

    method LowerStack(k: nat, id: string, quantity: int)
      requires k < |items| && items[k].quantity.Some?
      modifies this
      ensures State() == StackLowered(old(State()), k, id, quantity)
    {
      var it := items[k];
      items := items[k := it.(quantity := Some(it.quantity.value - quantity))];
      RecordTransaction(Transaction(Destroy, id, None, "Removed " + IntToString(quantity) + " unit(s)"));
    }

    method Drop(k: nat, id: string)
      requires k < |items|
      modifies this
      ensures State() == Dropped(old(State()), k, id)
    {
      items := RemoveAt(items, k);
      usedSlots := usedSlots - 1;
      RecordTransaction(Transaction(Destroy, id, None, "Item removed from inventory"));
    }

    method GiveItemToNpc(id: string, npcId: string) returns (success: bool, reward: Option<Item>)
      modifies this
      ensures (success, reward, State()) == AfterGive(old(State()), id, npcId)
    {
      var found := FindItem(items, id);
      if found.None? {
        return false, None;
      }
      var k := found.value;
      var it := items[k];
      if !it.tradeable {
        return false, None;
      }
      if Truthy(it.npcTarget) && it.npcTarget.value != npcId {
        return false, None;
      }
      HandOver(k, id, npcId);
      reward := None;
      if |it.unlocks| > 0 {
        reward := CreateItemFromTemplate(it.unlocks[0]);
        if reward.Some? {
          var _ := AddItem(Object(reward.value));
        }
      }
      success := true;
    }

    /** Drops a destroyable item at `k` and logs the gift. */
    method HandOver(k: nat, id: string, npcId: string)
      requires k < |items|
      modifies this
      ensures State() == HandedOver(old(State()), k, id, npcId)
    {
      if items[k].destroyable {
        items := RemoveAt(items, k);
        usedSlots := usedSlots - 1;
      }
      RecordTransaction(Transaction(Give, id, Some(npcId), "Given to " + npcId));
    }

    method UseItem(id: string) returns (ok: bool)
      modifies this
      ensures (ok, State()) == AfterUse(old(State()), id)
    {
      var found := FindItem(items, id);
      if found.None? {
        return false;
      }
      var k := found.value;
      var it := items[k];
      if it.itemType != Consumable {
        return false;
      }
      if it.uses.Some? && it.maxUses != 0 {
        if it.uses.value >= it.maxUses {
          return false;
        }
        items := items[k := it.(uses := Some(it.uses.value + 1))];
        if it.uses.value + 1 >= it.maxUses {
          var _ := RemoveItem(id);
        }
      } else {
        var _ := RemoveItem(id);
      }
      RecordTransaction(Transaction(Use, id, None, "Item consumed"));
      return true;
    }

    function GetItemCount(id: string): (n: int)
      reads this
      ensures !Holds(items, id) ==> n == 0
    {
      ItemCount(State(), id)
    }

    method ClearDestroyableItems()
      modifies this
      ensures State() == AfterClear(old(State()))
    {
      items := KeepIndestructible(items);
      usedSlots := |items|;
    }

    /** `expandInventory`. */
    method ExpandInventory(additionalSlots: int)
      modifies this
      ensures maxSlots == old(maxSlots) + additionalSlots
      ensures items == old(items) && usedSlots == old(usedSlots) && transactions == old(transactions)
    {
      maxSlots := maxSlots + additionalSlots;
    }

    /** `resetInventory`, apart from clearing the saved copy. */
    method ResetInventory()
      modifies this
      ensures State() == EmptyInventory
    {
      items := [];
      maxSlots := Config.initialMaxSlots;
      usedSlots := 0;
      transactions := [];
    }
  }
}
