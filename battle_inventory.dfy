/**
 * The battle inventory: a 27-slot chest per player whose slots 11..15 hold
 * up to five accessories, addressed as indices 1..5. Every other slot is
 * filled with a grey glass pane. Two copies of the logic exist in the
 * plugin: BattleInventoryManager, which keeps one inventory per player,
 * and the stand-alone BattleInventory data class.
 *
 * A Bukkit inventory is its slot array; an empty slot is `None`. Display
 * names are not part of `Item`, so the glass pane and the five core
 * markers are told apart by material and lore only.
 */
module BattleInventories {
  import opened JavaText
  import opened Bukkit

  /** The chest size. */
  const Size := 27

  /** BATTLE_SLOTS: the accessory slots, in index order. */
  const BattleSlots: seq<int> := [11, 12, 13, 14, 15]

  /** The background pane placed in every non-battle slot. */
  const Glass := Item("STAINED_GLASS_PANE", [])

  /** The core marker placed in the battle slots (its display name is not modelled). */
  const Core := Item("ENDER_PEARL", [Color('7') + "将特定装备放入此位置", Color('7') + "以获得额外属性加成"])

  /** isBattleSlot: the slot is one of BATTLE_SLOTS. */
  function IsBattleSlot(slot: int): (r: bool)
    ensures r <==> 11 <= slot <= 15
  {
    slot in BattleSlots
  }

  /** BATTLE_SLOTS[index - 1] for an index the guard 1..5 accepts. */
  function BattleSlot(index: int): (slot: int)
    requires 1 <= index <= 5
    ensures slot == 10 + index && IsBattleSlot(slot)
  {
    BattleSlots[index - 1]
  }

  // ------------------------------------------------------------ slot contents

  /** The background fill: glass in every non-battle slot, battle slots kept. */
  function Background(s: seq<Option<Item>>): (r: seq<Option<Item>>)
    ensures |r| == |s|
  {
    seq(|s|, i requires 0 <= i < |s| => if IsBattleSlot(i) then s[i] else Some(Glass))
  }

  /** A freshly created inventory after the background fill. */
  function NewInventory(): (r: seq<Option<Item>>)
    ensures |r| == Size
    ensures forall i :: 0 <= i < Size ==> r[i] == if IsBattleSlot(i) then None else Some(Glass)
  {
    Background(seq(Size, i => None))
  }

  /** The battle slots emptied, everything else kept. */
  function Emptied(s: seq<Option<Item>>): (r: seq<Option<Item>>)
    ensures |r| == |s|
  {
    seq(|s|, i requires 0 <= i < |s| => if IsBattleSlot(i) then None else s[i])
  }

  /** A core marker in each of the five slots first..first+4, everything else kept. */
  function WithCores(s: seq<Option<Item>>, first: int): (r: seq<Option<Item>>)
    ensures |r| == |s|
  {
    seq(|s|, i requires 0 <= i < |s| => if first <= i < first + 5 then Some(Core) else s[i])
  }

  /** The five accessories, in index order. */
  function BattleItems(s: seq<Option<Item>>): (r: seq<Option<Item>>)
    requires |s| == Size
    ensures |r| == 5 && forall k :: 1 <= k <= 5 ==> r[k - 1] == s[BattleSlot(k)]
  {
    s[11..16]
  }

  /** The number of present entries. */
  function Present(items: seq<Option<Item>>): (n: nat)
    ensures n <= |items|
    ensures n == |items| <==> forall k :: 0 <= k < |items| ==> items[k].Some?
  {
    if items == [] then 0
    else (if items[|items| - 1].Some? then 1 else 0) + Present(items[..|items| - 1])
  }

  /** getRequiredLoreForSlot: the '&'-coded marker text for each battle slot, "" elsewhere. */
  function RequiredLore(slot: int): string
  {
    if slot == 11 then "&e战斗背包&9①&e号栏核心"
    else if slot == 12 then "&e战斗背包&9②&e号栏核心"
    else if slot == 13 then "&e战斗背包&9③&e号栏核心"
    else if slot == 14 then "&e战斗背包&9④&e号栏核心"
    else if slot == 15 then "&e战斗背包&c⑤&e号栏核心"
    else ""
  }

  /** The circled digit naming each battle slot in its marker: ① (U+2460) for slot 11 up to ⑤ for slot 15. */
  function SlotNumber(slot: int): string
    requires IsBattleSlot(slot)
  {
    [(0x2460 + slot - 11) as char]
  }

  /** The shape of every marker: a yellow title, a coloured circled digit, a yellow tail. */
  function Marker(code: char, number: string): string
  {
    "&e" + "战斗背包" + ['&', code] + number + "&e" + "号栏核心"
  }

  // ------------------------------------------------------------ fills

  /** initializeBattleInventory / initializeInventory: glass into every non-battle slot. */
  method FillBackground(inv: array<Option<Item>>)
    requires inv.Length == Size
    modifies inv
    ensures inv[..] == Background(old(inv[..]))
  {
    var i := 0;
    while i < Size
      invariant 0 <= i <= Size
      invariant forall k :: 0 <= k < i ==> inv[k] == if IsBattleSlot(k) then old(inv[k]) else Some(Glass)
      invariant forall k :: i <= k < Size ==> inv[k] == old(inv[k])
    {
      if !IsBattleSlot(i) {
        inv[i] := Some(Glass);
      }
      i := i + 1;
    }
  }

  /** The loop both clear operations start with: every battle slot set to null. */
  method EmptyBattleSlots(inv: array<Option<Item>>)
    requires inv.Length == Size
    modifies inv
    ensures inv[..] == Emptied(old(inv[..]))
  {
    var k := 0;
    while k < |BattleSlots|
      invariant 0 <= k <= |BattleSlots|
      invariant forall i :: 0 <= i < Size ==> inv[i] == if 11 <= i < 11 + k then None else old(inv[i])
    {
      inv[BattleSlots[k]] := None;
      k := k + 1;
    }
  }

  // ------------------------------------------------------------ the manager

  /** One battle inventory per player, created on first use. */
  class BattleInventoryManager {
    var battleInventories: map<nat, array<Option<Item>>>

    /** Every inventory has 27 slots, and no two players share one. */
    ghost predicate Valid()
      reads this
    {
      (forall p | p in battleInventories :: battleInventories[p].Length == Size) &&
      (forall p, q | p in battleInventories && q in battleInventories && p != q :: battleInventories[p] != battleInventories[q])
    }

    /** What getBattleInventory shows for `player`: the stored slots, or those of a new inventory. */
    ghost function SlotsOf(player: nat): (r: seq<Option<Item>>)
      requires Valid()
      reads this, battleInventories.Values
      ensures |r| == Size
    {
      if player in battleInventories then battleInventories[player][..] else NewInventory()
    }

    /** The player now has an inventory: the old one, or a new one added to the map. */
    twostate predicate Opened(player: nat)
      reads this
    {
      player in battleInventories &&
      (player in old(battleInventories) ==> battleInventories == old(battleInventories)) &&
      (player !in old(battleInventories) ==>
        fresh(battleInventories[player]) && battleInventories == old(battleInventories)[player := battleInventories[player]])
    }

    constructor()
      ensures battleInventories == map[] && Valid()
    {
      battleInventories := map[];
    }

    /** getBattleInventory: the player's inventory, created with the background fill when absent. */
    method GetBattleInventory(player: nat) returns (inv: array<Option<Item>>)
      requires Valid()
      modifies this
      ensures Valid() && Opened(player)
      ensures inv == battleInventories[player]
      ensures SlotsOf(player) == old(SlotsOf(player))
    {
      if player in battleInventories {
        inv := battleInventories[player];
      } else {
        inv := new Option<Item>[Size](_ => None);
        FillBackground(inv);
        battleInventories := battleInventories[player := inv];
      }
    }

    /** setCoreIndicators: a core marker into each slot of BATTLE_SLOTS. */
    static method SetCoreIndicators(inv: array<Option<Item>>)
      requires inv.Length == Size
      modifies inv
      ensures inv[..] == WithCores(old(inv[..]), 11)
    {
      var k := 0;
      while k < |BattleSlots|
        invariant 0 <= k <= |BattleSlots|
        invariant forall i :: 0 <= i < Size ==> inv[i] == if 11 <= i < 11 + k then Some(Core) else old(inv[i])
      {
        inv[BattleSlots[k]] := Some(Core);
        k := k + 1;
      }
    }

    /** getBattleItem: null outside 1..5, otherwise the index-th battle slot. */
    method GetBattleItem(player: nat, index: int) returns (item: Option<Item>)
      requires Valid()
      modifies this
      ensures Valid()
      ensures 1 <= index <= 5 ==> Opened(player)
      ensures !(1 <= index <= 5) ==> battleInventories == old(battleInventories)
      ensures SlotsOf(player) == old(SlotsOf(player))
      ensures item == if 1 <= index <= 5 then SlotsOf(player)[BattleSlot(index)] else None
    {
      if index < 1 || index > 5 {
        return None;
      }
      var inv := GetBattleInventory(player);
      item := inv[BattleSlots[index - 1]];
    }

    /** setBattleItem: false outside 1..5, otherwise the index-th battle slot alone is replaced. */
    method SetBattleItem(player: nat, index: int, item: Option<Item>) returns (ok: bool)
      requires Valid()
      modifies this, battleInventories.Values
      ensures Valid()
      ensures ok <==> 1 <= index <= 5
      ensures !ok ==> battleInventories == old(battleInventories) && SlotsOf(player) == old(SlotsOf(player))
      ensures ok ==> Opened(player) && SlotsOf(player) == old(SlotsOf(player))[BattleSlot(index) := item]
      ensures forall p | p in old(battleInventories) && p != player :: old(battleInventories[p][..]) == battleInventories[p][..]
    {
      if index < 1 || index > 5 {
        return false;
      }
      var inv := GetBattleInventory(player);
      inv[BattleSlots[index - 1]] := item;
      ok := true;
    }

    /** getAllBattleItems: the five accessories, read through getBattleItem(1..5). */
    method GetAllBattleItems(player: nat) returns (items: array<Option<Item>>)
      requires Valid()
      modifies this
      ensures Valid() && Opened(player) && fresh(items)
      ensures SlotsOf(player) == old(SlotsOf(player))
      ensures items[..] == BattleItems(SlotsOf(player))
    {
      items := new Option<Item>[5](_ => None);
      var i := 0;
      while i < 5
        invariant 0 <= i <= 5
        invariant Valid() && fresh(items) && items.Length == 5
        invariant SlotsOf(player) == old(SlotsOf(player))
        invariant i == 0 ==> battleInventories == old(battleInventories)
        invariant i > 0 ==> Opened(player)
        invariant forall k :: 0 <= k < i ==> items[k] == SlotsOf(player)[11 + k]
      {
        var item := GetBattleItem(player, i + 1);
        items[i] := item;
        i := i + 1;
      }
      assert items[..] == SlotsOf(player)[11..16];
    }

    /** getBattleItemCount: the number of non-null battle slots, read through getBattleItem(1..5). */
    method GetBattleItemCount(player: nat) returns (count: nat)
      requires Valid()
      modifies this
      ensures Valid() && Opened(player)
      ensures SlotsOf(player) == old(SlotsOf(player))
      ensures count == Present(BattleItems(SlotsOf(player))) && count <= 5
    {
      ghost var items := BattleItems(SlotsOf(player));
      count := 0;
      var i := 1;
      while i <= 5
        invariant 1 <= i <= 6
        invariant Valid()
        invariant SlotsOf(player) == old(SlotsOf(player))
        invariant i == 1 ==> battleInventories == old(battleInventories)
        invariant i > 1 ==> Opened(player)
        invariant count == Present(items[..i - 1])
      {
        var item := GetBattleItem(player, i);
        assert items[..i] == items[..i - 1] + [item];
        if item.Some? {
          count := count + 1;
        }
        i := i + 1;
      }
      assert items[..5] == items;
    }

    /** clearBattleInventory: null every battle slot, then put a core marker into each. */
    method ClearBattleInventory(player: nat)
      requires Valid()
      modifies this, battleInventories.Values
      ensures Valid() && Opened(player)
      ensures SlotsOf(player) == WithCores(Emptied(old(SlotsOf(player))), 11)
      ensures forall p | p in old(battleInventories) && p != player :: old(battleInventories[p][..]) == battleInventories[p][..]
    {
      var inv := GetBattleInventory(player);
      EmptyBattleSlots(inv);
      SetCoreIndicators(inv);
    }

    /**
     * canPlaceItem: only a present, non-AIR item with lore may go into a
     * battle slot, and only when one of its colour-stripped lines
     * contains the translated, colour-stripped marker of that slot.
     */
    static predicate CanPlaceItem(slot: int, item: Option<Item>)
    {
      IsBattleSlot(slot) && item.Some? && !IsAir(item.value) && HasLore(item.value) &&
      exists i | 0 <= i < |item.value.lore| ::
        Contains(StripColor(item.value.lore[i]), StripColor(Translate(RequiredLore(slot))))
    }

    /** removeBattleInventory: the player's inventory is forgotten. */
    method RemoveBattleInventory(player: nat)
      requires Valid()
      modifies this
      ensures Valid()
      ensures battleInventories == old(battleInventories) - {player}
      ensures !HasBattleInventory(player)
    {
      battleInventories := battleInventories - {player};
    }

    /** hasBattleInventory. */
    function HasBattleInventory(player: nat): bool
      reads this
    {
      player in battleInventories
    }
  }

  // ------------------------------------------------------------ the data class

  /** The stand-alone battle inventory of one player. */
  class BattleInventory {
    const playerId: nat
    const playerName: string
    const inventory: array<Option<Item>>

    ghost predicate Valid() { inventory.Length == Size }

    /** A new inventory: the background fill, then the core markers of setCoreItems. */
    constructor(playerId: nat, playerName: string)
      ensures Valid() && fresh(inventory)
      ensures this.playerId == playerId && this.playerName == playerName
      ensures inventory[..] == WithCores(NewInventory(), 10)
    {
      this.playerId := playerId;
      this.playerName := playerName;
      inventory := new Option<Item>[Size](_ => None);
      new;
      FillBackground(inventory);
      SetCoreItems();
    }

    /** setCore: one core marker into `slot`. */
    method SetCore(slot: int)
      requires Valid() && 0 <= slot < Size
      modifies inventory
      ensures inventory[..] == old(inventory[..])[slot := Some(Core)]
    {
      inventory[slot] := Some(Core);
    }

    /** setCoreItems: core markers into slots 10, 11, 12, 13 and 14. */
    method SetCoreItems()
      requires Valid()
      modifies inventory
      ensures inventory[..] == WithCores(old(inventory[..]), 10)
    {
      SetCore(10);
      SetCore(11);
      SetCore(12);
      SetCore(13);
      SetCore(14);
    }

    /** getBattleItem: null outside 1..5, otherwise the index-th battle slot. */
    function GetBattleItem(index: int): (r: Option<Item>)
      requires Valid()
      reads inventory
      ensures !(1 <= index <= 5) ==> r.None?
      ensures 1 <= index <= 5 ==> r == inventory[10 + index]
    {
      if index < 1 || index > 5 then None else inventory[BattleSlots[index - 1]]
    }

    /** setBattleItem: false outside 1..5, otherwise the index-th battle slot alone is replaced. */
    method SetBattleItem(index: int, item: Option<Item>) returns (ok: bool)
      requires Valid()
      modifies inventory
      ensures ok <==> 1 <= index <= 5
      ensures ok ==> inventory[..] == old(inventory[..])[BattleSlot(index) := item] && GetBattleItem(index) == item
      ensures !ok ==> inventory[..] == old(inventory[..])
    {
      if index < 1 || index > 5 {
        return false;
      }
      inventory[BattleSlots[index - 1]] := item;
      return true;
    }

    /** getAllBattleItems: slots 11..15 in order. */
    method GetAllBattleItems() returns (items: array<Option<Item>>)
      requires Valid()
      ensures fresh(items)
      ensures items[..] == BattleItems(inventory[..])
    {
      items := new Option<Item>[5](_ => None);
      var i := 0;
      while i < 5
        invariant 0 <= i <= 5
        invariant forall k :: 0 <= k < i ==> items[k] == inventory[BattleSlots[k]]
      {
        items[i] := inventory[BattleSlots[i]];
        i := i + 1;
      }
      assert items[..] == inventory[11..16];
    }

    /** clearAllBattleItems: null every battle slot, then setCoreItems. */
    method ClearAllBattleItems()
      requires Valid()
      modifies inventory
      ensures inventory[..] == WithCores(Emptied(old(inventory[..])), 10)
    {
      EmptyBattleSlots(inventory);
      SetCoreItems();
    }

    /**
     * canPlaceItem as this class writes it: the marker is colour-stripped
     * but never translated, so its '&' codes stay in the text searched for.
     */
    static predicate CanPlaceItem(slot: int, item: Option<Item>)
    {
      IsBattleSlot(slot) && item.Some? && !IsAir(item.value) && HasLore(item.value) &&
      exists i | 0 <= i < |item.value.lore| ::
        Contains(StripColor(item.value.lore[i]), StripColor(RequiredLore(slot)))
    }
  }

  // ------------------------------------------------------------ lemmas

  /** Entries that are all null count as none. */
  lemma {:induction false} PresentNone(items: seq<Option<Item>>)
    requires forall k :: 0 <= k < |items| ==> items[k].None?
    ensures Present(items) == 0
  {
    if items != [] {
      PresentNone(items[..|items| - 1]);
    }
  }

  /** A new inventory holds no accessory: all five battle slots are empty. */
  lemma {:induction false} NewInventoryEmpty()
    ensures Present(BattleItems(NewInventory())) == 0
  {
    PresentNone(BattleItems(NewInventory()));
  }

  /**
   * clearBattleInventory leaves a core marker in each of the five battle
   * slots, so the accessory count is 5 afterwards, and touches no other
   * slot.
   */
  lemma {:induction false} ClearedHoldsCores(s: seq<Option<Item>>)
    requires |s| == Size
    ensures forall k :: 1 <= k <= 5 ==> WithCores(Emptied(s), 11)[BattleSlot(k)] == Some(Core)
    ensures forall i :: 0 <= i < Size && !IsBattleSlot(i) ==> WithCores(Emptied(s), 11)[i] == s[i]
    ensures Present(BattleItems(WithCores(Emptied(s), 11))) == 5
  {
    var items := BattleItems(WithCores(Emptied(s), 11));
    assert forall k :: 0 <= k < 5 ==> items[k] == Some(Core);
  }

  /**
   * The data class puts its markers one slot early: a new inventory has a
   * core on the non-battle slot 10 in place of the glass pane, and battle
   * slot 15 (index 5) stays empty, both after construction and after
   * clearAllBattleItems.
   */
  lemma {:induction false} CoreItemsOffByOne(s: seq<Option<Item>>)
    requires |s| == Size
    ensures !IsBattleSlot(10) && NewInventory()[10] == Some(Glass)
    ensures WithCores(NewInventory(), 10)[10] == Some(Core)
    ensures WithCores(NewInventory(), 10)[15] == None
    ensures WithCores(Emptied(s), 10)[15] == None
    ensures Present(BattleItems(WithCores(Emptied(s), 10))) < 5
  {
    var items := BattleItems(WithCores(Emptied(s), 10));
    assert items[4] == None;
  }

  /** The markers of slots 11 to 13 have the common shape, with a blue digit. */
  lemma {:induction false} BlueMarkers(slot: int)
    requires 11 <= slot <= 13
    ensures RequiredLore(slot) == Marker('9', SlotNumber(slot))
  {
  }

  /** The markers of slots 14 and 15 have the common shape, the last with a red digit. */
  lemma {:induction false} LastMarkers(slot: int)
    requires 14 <= slot <= 15
    ensures RequiredLore(slot) == Marker(if slot == 15 then 'c' else '9', SlotNumber(slot))
  {
  }

  /** Each slot's marker has the common shape, with a blue digit (a red one for slot 15). */
  lemma {:induction false} RequiredLoreIsMarker(slot: int)
    requires IsBattleSlot(slot)
    ensures RequiredLore(slot) == Marker(if slot == 15 then 'c' else '9', SlotNumber(slot))
  {
    if slot <= 13 {
      BlueMarkers(slot);
    } else {
      LastMarkers(slot);
    }
  }

  /** translateAlternateColorCodes on text of the marker's shape: three '&' codes become '§' codes. */
  lemma {:induction false} TranslateShape(head: string, code: char, number: string, tail: string)
    requires code == '9' || code == 'c'
    requires '&' !in head && '&' !in number && '&' !in tail
    ensures Translate(['&', 'e'] + (head + (['&', code] + (number + (['&', 'e'] + tail))))) ==
      Color('e') + (head + (Color(code) + (number + (Color('e') + tail))))
  {
    var r4 := ['&', 'e'] + tail;
    var r3 := number + r4;
    var r2 := ['&', code] + r3;
    var r1 := head + r2;
    TranslatePlain(tail, []);
    assert tail + [] == tail;
    TranslateCode('e', tail);
    assert Translate(r4) == Color('e') + tail;
    TranslatePlain(number, r4);
    TranslateCode(code, r3);
    assert Translate(r2) == Color(code) + (number + (Color('e') + tail));
    TranslatePlain(head, r2);
    TranslateCode('e', r1);
  }

  /** stripColor on translated text of the marker's shape leaves the plain parts. */
  lemma {:induction false} StripShape(head: string, code: char, number: string, tail: string)
    requires code == '9' || code == 'c'
    requires '§' !in head && '§' !in number && '§' !in tail
    ensures StripColor(Color('e') + (head + (Color(code) + (number + (Color('e') + tail))))) == head + (number + tail)
  {
    var r4 := Color('e') + tail;
    var r3 := number + r4;
    var r2 := Color(code) + r3;
    var r1 := head + r2;
    StripColorNoSection(tail);
    StripColorCode('e', tail);
    StripColorPlain(number, r4);
    StripColorCode(code, r3);
    StripColorPlain(head, r2);
    StripColorCode('e', r1);
  }

  /** A marker, translated and then colour-stripped, is its plain text. */
  lemma {:induction false} MarkerCleaned(code: char, number: string)
    requires code == '9' || code == 'c'
    requires '&' !in number && '§' !in number
    ensures StripColor(Translate(Marker(code, number))) == "战斗背包" + number + "号栏核心"
    ensures StripColor(Marker(code, number)) == Marker(code, number)
  {
    var head, tail := "战斗背包", "号栏核心";
    assert '&' !in head && '&' !in tail && '§' !in head && '§' !in tail;
    assert Marker(code, number) == ['&', 'e'] + (head + (['&', code] + (number + (['&', 'e'] + tail))));
    TranslateShape(head, code, number, tail);
    StripShape(head, code, number, tail);
    assert head + (number + tail) == head + number + tail;
    assert '§' !in Marker(code, number);
    StripColorNoSection(Marker(code, number));
  }

  /** A found text is no longer than the text it is found in. */
  lemma {:induction false} ContainsShorter(s: string, t: string)
    requires Contains(s, t)
    ensures |t| <= |s|
  {
    var i := ContainsWitness(s, t);
  }

  /**
   * The manager's placement check, read off: an item fits a battle slot
   * iff it is present, not AIR, and one of its colour-stripped lines
   * contains the plain marker text, e.g. 战斗背包①号栏核心 for slot 11.
   */
  lemma {:induction false} CanPlaceMarked(slot: int, item: Option<Item>)
    requires IsBattleSlot(slot)
    ensures BattleInventoryManager.CanPlaceItem(slot, item) <==>
      item.Some? && !IsAir(item.value) &&
      exists i | 0 <= i < |item.value.lore| :: Contains(StripColor(item.value.lore[i]), "战斗背包" + SlotNumber(slot) + "号栏核心")
  {
    var code := if slot == 15 then 'c' else '9';
    RequiredLoreIsMarker(slot);
    MarkerCleaned(code, SlotNumber(slot));
  }

  /**
   * The data class rejects an item carrying its own slot's marker as the
   * plugin writes it (with '§' codes), which the manager accepts.
   */
  lemma {:induction false} UntranslatedMarkerRejects(slot: int)
    requires IsBattleSlot(slot)
    ensures var item := Some(Item("DIAMOND_SWORD", [Translate(RequiredLore(slot))]));
      !BattleInventory.CanPlaceItem(slot, item) && BattleInventoryManager.CanPlaceItem(slot, item)
  {
    var code := if slot == 15 then 'c' else '9';
    var number := SlotNumber(slot);
    var item := Some(Item("DIAMOND_SWORD", [Translate(RequiredLore(slot))]));
    RequiredLoreIsMarker(slot);
    MarkerCleaned(code, number);
    var plain := "战斗背包" + number + "号栏核心";
    assert StripColor(item.value.lore[0]) == plain;
    assert |plain| < |RequiredLore(slot)|;
    if Contains(plain, RequiredLore(slot)) {
      ContainsShorter(plain, RequiredLore(slot));
      assert false;
    }
    CanPlaceMarked(slot, item);
    assert StartsWith(plain, plain);
  }
}
