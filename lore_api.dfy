/**
 * The public LoreAttributeAPI: item-lore helpers that hand back an edited
 * copy (type line, attribute lines, the remove* filters), the per-type
 * attribute tables, the battle-slot guards and the display-name-to-key
 * lookup behind hasAttribute / getItemAttributeValue.
 *
 * The static `plugin` field becomes the `initialized` flag of a
 * LoreAttributeApi object; every call that passes checkInitialized first
 * answers IllegalState while it is unset. Thrown exceptions become the
 * IllegalState / IllegalArgument results. Items are values, so the clone
 * the API edits is simply the returned item and the caller's item is
 * never touched.
 */
module LoreApi {
  import opened JavaText
  import opened Bukkit
  import opened LoreLines
  import AttributeManager
  import AttributeProperties
  import AttributeCommands
  import BattleInventories

  /** A value, or the exception the API throws instead. */
  datatype ApiResult<T> = Ok(value: T) | IllegalState | IllegalArgument

  /** getSupportedAttributes. */
  const SupportedAttributes: seq<string> := [
    "攻击伤害", "致命几率", "致命伤害", "生命偷取", "真实伤害", "护甲穿透", "弱化几率", "范围伤害", "范围距离",
    "生命值", "伤害减免", "真实抗性", "闪避几率", "格挡几率", "生命恢复", "反伤几率",
    "移动速度"
  ]

  /** getAttributeKey's table, display name to key. */
  const AttributeKeys: seq<(string, string)> := [
    ("攻击伤害", "damage"),
    ("致命几率", "crit"),
    ("致命伤害", "critDamage"),
    ("生命偷取", "lifeSteal"),
    ("真实伤害", "trueDamage"),
    ("护甲穿透", "penetration"),
    ("弱化几率", "weaken"),
    ("范围伤害", "aoeDamage"),
    ("范围距离", "aoeRange"),
    ("生命值", "health"),
    ("伤害减免", "armor"),
    ("真实抗性", "trueArmor"),
    ("闪避几率", "dodge"),
    ("格挡几率", "block"),
    ("生命恢复", "regen"),
    ("反伤几率", "injury"),
    ("移动速度", "speed"),
    ("总伤害", "sumDamage")
  ]

  // ------------------------------------------------------------ lore tests

  /** The API's type-line test: the stripped, trimmed line starts with `类型: `. */
  predicate IsApiTypeLine(line: string)
  {
    StartsWith(AttributeManager.CleanLine(line), "类型: ")
  }

  /** The API's attribute-line test: the stripped, trimmed line starts with `<name>:`. */
  predicate NamesApi(line: string, name: string)
  {
    StartsWith(AttributeManager.CleanLine(line), name + ":")
  }

  /** removeAllItemAttributes' test: the line names one of the supported attributes. */
  predicate IsSupportedAttributeLine(line: string)
  {
    exists i :: 0 <= i < |SupportedAttributes| && NamesApi(line, SupportedAttributes[i])
  }

  /** A name whose first char survives trim, so the written line still starts with it. */
  predicate VisibleName(name: string)
  {
    name != [] && !IsWhite(name[0]) && '§' !in name
  }

  /** The line setItemType appends: `类型: <type>`, the label in grey and the type in yellow. */
  function ApiTypeLine(t: string): string
  {
    Color('7') + "类型: " + Color('e') + t
  }

  /** The line modifyItemLore appends: `<name>: +<value>`, the name in grey and the value in green. */
  function ApiAttributeLine(name: string, value: real, fmt: AttributeCommands.Formatter): string
  {
    Color('7') + name + ": " + Color('a') + "+" + fmt(value)
  }

  // ------------------------------------------------------------ lore editing

  /** setItemType's edit: old type lines removed, the new one appended. */
  function TypedLore(lore: seq<string>, t: string): (r: seq<string>)
    ensures |r| >= 1 && r[|r| - 1] == ApiTypeLine(t)
    ensures forall k :: 0 <= k < |r| - 1 ==> !IsApiTypeLine(r[k])
    ensures forall x :: x in lore && !IsApiTypeLine(x) ==> x in r
    ensures |r| <= |lore| + 1 && forall k :: 0 <= k < |r| - 1 ==> r[k] in lore
  {
    RemoveIf(lore, IsApiTypeLine) + [ApiTypeLine(t)]
  }

  /** modifyItemLore: with `replace` every `<name>:` line goes first; then one line is appended. */
  function ModifiedLore(lore: seq<string>, name: string, value: real, replace: bool, fmt: AttributeCommands.Formatter): (r: seq<string>)
    ensures |r| >= 1 && r[|r| - 1] == ApiAttributeLine(name, value, fmt)
    ensures !replace ==> r[..|r| - 1] == lore
    ensures replace ==> forall x :: x in lore && !NamesApi(x, name) ==> x in r
    ensures replace && VisibleName(name) ==>
      forall k :: 0 <= k < |r| ==> (NamesApi(r[k], name) <==> k == |r| - 1)
  {
    var kept := if replace then RemoveIf(lore, l => NamesApi(l, name)) else lore;
    assert VisibleName(name) ==> NamesApi(ApiAttributeLine(name, value, fmt), name) by {
      if VisibleName(name) {
        ApiAttributeLineNamed(name, fmt(value));
      }
    }
    kept + [ApiAttributeLine(name, value, fmt)]
  }

  /** The shape shared by the remove* helpers: an item without lore is returned as it is. */
  function Pruned(item: Item, drop: string -> bool): (r: Item)
    ensures r.material == item.material && |r.lore| <= |item.lore|
    ensures forall k :: 0 <= k < |r.lore| ==> !drop(r.lore[k])
    ensures forall x :: x in r.lore <==> x in item.lore && !drop(x)
  {
    if item.lore == [] then item else item.(lore := RemoveIf(item.lore, drop))
  }

  // ------------------------------------------------------------ getAttributeKey

  /** Exact lookup in a name-to-key table. */
  function KeyLookup(table: seq<(string, string)>, name: string): (r: Option<string>)
    ensures r.Some? ==> (name, r.value) in table
    ensures r.None? <==> forall i :: 0 <= i < |table| ==> table[i].0 != name
  {
    if table == [] then None
    else if table[0].0 == name then Some(table[0].1)
    else
      var r := KeyLookup(table[1..], name);
      assert forall i :: 1 <= i < |table| ==> table[i] == table[1..][i - 1];
      r
  }

  /** The table lists `name`. */
  predicate HasApiKey(name: string)
  {
    exists i :: 0 <= i < |AttributeKeys| && AttributeKeys[i].0 == name
  }

  /** getAttributeKey: the table's key for a listed name, else the lowercased name. */
  function ApiKey(name: string): (r: string)
    ensures HasApiKey(name) ==> (name, r) in AttributeKeys
    ensures !HasApiKey(name) ==> r == ToLower(name)
  {
    match KeyLookup(AttributeKeys, name)
    case Some(key) => key
    case None => ToLower(name)
  }

  // ------------------------------------------------------------ the API object

  class LoreAttributeApi {
    /** The plugin reference is set. */
    var initialized: bool

    /** Before initialize every checked call throws. */
    constructor()
      ensures !initialized
    {
      initialized := false;
    }

    /** initialize: from now on checkInitialized passes. */
    method Initialize()
      modifies this
      ensures initialized
    {
      initialized := true;
    }

    /** getItemType: no lore gives "", otherwise the type parseItemAttributes' check reads. */
    function GetItemType(item: Item): (r: ApiResult<string>)
      reads this
      ensures r.IllegalState? <==> !initialized
      ensures !r.IllegalArgument?
      ensures r.Ok? ==> r.value == AttributeManager.ItemType(Some(item))
    {
      if !initialized then IllegalState
      else if item.lore == [] then Ok("")
      else Ok(AttributeManager.ItemType(Some(item)))
    }

    /** setItemType: one of the three types becomes the item's type; any other text is refused. */
    function SetItemType(item: Item, t: string): (r: ApiResult<Item>)
      reads this
      ensures r.IllegalState? <==> !initialized
      ensures r.IllegalArgument? <==> initialized && t !in AttributeCommands.ItemTypes
      ensures r.Ok? ==> r.value.material == item.material && GetItemType(r.value) == Ok(t)
      ensures r.Ok? ==> forall x :: x in item.lore && !IsApiTypeLine(x) ==> x in r.value.lore
    {
      if !initialized then IllegalState
      else if t !in AttributeCommands.ItemTypes then IllegalArgument
      else
        var edited := item.(lore := TypedLore(item.lore, t));
        assert AttributeManager.ItemType(Some(edited)) == t by {
          TypedLoreRead(item.material, item.lore, t);
        }
        Ok(edited)
    }

    /** addItemAttribute: one `<name>: +<value>` line appended. */
    function AddItemAttribute(item: Item, name: string, value: real, fmt: AttributeCommands.Formatter): (r: ApiResult<Item>)
      reads this
      ensures r.IllegalState? <==> !initialized
      ensures r.Ok? ==> r.value == item.(lore := ModifiedLore(item.lore, name, value, false, fmt))
    {
      if !initialized then IllegalState
      else Ok(item.(lore := ModifiedLore(item.lore, name, value, false, fmt)))
    }

    /** setItemAttribute: the attribute's lines replaced by one. */
    function SetItemAttribute(item: Item, name: string, value: real, fmt: AttributeCommands.Formatter): (r: ApiResult<Item>)
      reads this
      ensures r.IllegalState? <==> !initialized
      ensures r.Ok? ==> r.value == item.(lore := ModifiedLore(item.lore, name, value, true, fmt))
    {
      if !initialized then IllegalState
      else Ok(item.(lore := ModifiedLore(item.lore, name, value, true, fmt)))
    }

    /** removeItemAttribute: no line naming the attribute is left. */
    function RemoveItemAttribute(item: Item, name: string): (r: ApiResult<Item>)
      reads this
      ensures r.IllegalState? <==> !initialized
      ensures r.Ok? ==> r.value == Pruned(item, l => NamesApi(l, name))
    {
      if !initialized then IllegalState else Ok(Pruned(item, l => NamesApi(l, name)))
    }

    /** removeAllItemAttributes: every supported attribute line goes, the type stays. */
    function RemoveAllItemAttributes(item: Item): (r: ApiResult<Item>)
      reads this
      ensures r.IllegalState? <==> !initialized
      ensures r.Ok? ==> r.value == Pruned(item, IsSupportedAttributeLine)
      ensures r.Ok? ==> AttributeManager.ItemType(Some(r.value)) == AttributeManager.ItemType(Some(item))
    {
      if !initialized then IllegalState
      else
        assert AttributeManager.TypeOfLines(RemoveIf(item.lore, IsSupportedAttributeLine)) == AttributeManager.TypeOfLines(item.lore) by {
          AttributeLinesAreNoTypeLines(item.lore);
          TypeOfLinesFilter(item.lore, IsSupportedAttributeLine);
        }
        Ok(Pruned(item, IsSupportedAttributeLine))
    }

    /** removeItemType: afterwards the item has no type. */
    function RemoveItemType(item: Item): (r: ApiResult<Item>)
      reads this
      ensures r.IllegalState? <==> !initialized
      ensures r.Ok? ==> r.value == Pruned(item, IsApiTypeLine)
      ensures r.Ok? ==> GetItemType(r.value) == Ok("")
    {
      if !initialized then IllegalState
      else
        var pruned := Pruned(item, IsApiTypeLine);
        assert AttributeManager.TypeOfLines(pruned.lore) == "" by {
          TypeOfLinesSkip(pruned.lore, []);
          assert pruned.lore + [] == pruned.lore;
        }
        Ok(pruned)
    }

    /** getAttributesForItemType: the type's table; any other text is refused. */
    function GetAttributesForItemType(t: string): (r: ApiResult<seq<string>>)
      reads this
      ensures r.IllegalState? <==> !initialized
      ensures r.IllegalArgument? <==> initialized && t !in AttributeCommands.ItemTypes
      ensures r.Ok? ==> r.value == AttributeCommands.AttributesFor(t)
      ensures r.Ok? ==> forall a :: a in r.value ==> a in SupportedAttributes
    {
      if !initialized then IllegalState
      else if t == "武器" then Ok(AttributeCommands.WeaponAttributes)
      else if t == "防具" then Ok(AttributeCommands.ArmorAttributes)
      else if t == "饰品" then Ok(AttributeCommands.AccessoryAttributes)
      else IllegalArgument
    }

    /** isValidAttributeForItemType: membership in the type's table, refusing unknown types. */
    function IsValidAttributeForItemType(t: string, name: string): (r: ApiResult<bool>)
      reads this
      ensures r.IllegalState? <==> !initialized
      ensures r.IllegalArgument? <==> initialized && t !in AttributeCommands.ItemTypes
      ensures r.Ok? ==> (r.value <==> name in AttributeCommands.AttributesFor(t))
    {
      match GetAttributesForItemType(t)
      case Ok(names) => Ok(name in names)
      case IllegalState => IllegalState
      case IllegalArgument => IllegalArgument
    }

    /** isValidAttributeForItem: false for an untyped item, else the check for its type. */
    function IsValidAttributeForItem(item: Item, name: string): (r: ApiResult<bool>)
      reads this
      ensures r.IllegalState? <==> !initialized
      ensures initialized && AttributeManager.ItemType(Some(item)) == "" ==> r == Ok(false)
      ensures r.IllegalArgument? <==> initialized && AttributeManager.ItemType(Some(item)) !in [""] + AttributeCommands.ItemTypes
      ensures r.Ok? ==> (r.value <==> AttributeManager.ItemType(Some(item)) != "" &&
                                      name in AttributeCommands.AttributesFor(AttributeManager.ItemType(Some(item))))
    {
      if !initialized then IllegalState
      else
        var t := GetItemType(item).value;
        if t == "" then Ok(false) else IsValidAttributeForItemType(t, name)
    }

    /** canPlaceItemInBattleSlot: slot k in 1..5 is checked as inventory slot BATTLE_SLOTS[k - 1]. */
    function CanPlaceItemInBattleSlot(slot: int, item: Item): (r: ApiResult<bool>)
      reads this
      ensures r.IllegalState? <==> !initialized
      ensures r.IllegalArgument? <==> initialized && !(1 <= slot <= 5)
      ensures r.Ok? ==> r.value == BattleInventories.BattleInventoryManager.CanPlaceItem(BattleInventories.BattleSlot(slot), Some(item))
    {
      if !initialized then IllegalState
      else if slot < 1 || slot > 5 then IllegalArgument
      else Ok(BattleInventories.BattleInventoryManager.CanPlaceItem(BattleInventories.BattleSlots[slot - 1], Some(item)))
    }

    /** getBattleInventoryItem: slot k in 1..5 reads the player's battle slot k. */
    method GetBattleInventoryItem(manager: BattleInventories.BattleInventoryManager, player: nat, slot: int)
      returns (r: ApiResult<Option<Item>>)
      requires manager.Valid()
      modifies manager
      ensures manager.Valid()
      ensures r.IllegalState? <==> !initialized
      ensures r.IllegalArgument? <==> initialized && !(1 <= slot <= 5)
      ensures !r.Ok? ==> manager.battleInventories == old(manager.battleInventories)
      ensures manager.SlotsOf(player) == old(manager.SlotsOf(player))
      ensures r.Ok? ==> r.value == manager.SlotsOf(player)[BattleInventories.BattleSlot(slot)]
    {
      if !initialized {
        return IllegalState;
      }
      if slot < 1 || slot > 5 {
        return IllegalArgument;
      }
      var found := manager.GetBattleItem(player, slot);
      return Ok(found);
    }

    /** setBattleInventoryItem: slot k in 1..5 of the player's battle inventory is overwritten. */
    method SetBattleInventoryItem(manager: BattleInventories.BattleInventoryManager, player: nat, slot: int, item: Option<Item>)
      returns (r: ApiResult<bool>)
      requires manager.Valid()
      modifies manager, manager.battleInventories.Values
      ensures manager.Valid()
      ensures r.IllegalState? <==> !initialized
      ensures r.IllegalArgument? <==> initialized && !(1 <= slot <= 5)
      ensures !r.Ok? ==> manager.battleInventories == old(manager.battleInventories) && manager.SlotsOf(player) == old(manager.SlotsOf(player))
      ensures r.Ok? ==> r.value && manager.SlotsOf(player) == old(manager.SlotsOf(player))[BattleInventories.BattleSlot(slot) := item]
      ensures old(manager.battleInventories).Keys <= manager.battleInventories.Keys
      ensures forall p | p in old(manager.battleInventories) && p != player ::
        old(manager.battleInventories[p][..]) == manager.battleInventories[p][..]
    {
      if !initialized {
        return IllegalState;
      }
      if slot < 1 || slot > 5 {
        return IllegalArgument;
      }
      var ok := manager.SetBattleItem(player, slot, item);
      return Ok(ok);
    }

    /** hasAttribute as written: the parsed lore holds getAttributeKey's key for the name. */
    function HasAttribute(item: Item, name: string, order: AttributeManager.AliasOrder): (r: ApiResult<bool>)
      reads this
      ensures r.IllegalState? <==> !initialized
      ensures r.Ok? ==> (r.value <==> ApiKey(name) in AttributeManager.ItemAttributes(Some(item), order))
      ensures r.Ok? && r.value ==> AttributeManager.IsKey(ApiKey(name))
    {
      if !initialized then IllegalState
      else
        assert ApiKey(name) in AttributeManager.ItemAttributes(Some(item), order) ==> AttributeManager.IsKey(ApiKey(name)) by {
          AttributeProperties.ParsedKeysCanonical(item.lore, order);
        }
        Ok(ApiKey(name) in AttributeManager.ItemAttributes(Some(item), order))
    }

    /** getItemAttributeValue as written: the parsed value under getAttributeKey's key, 0.0 when absent. */
    function GetItemAttributeValue(item: Item, name: string, order: AttributeManager.AliasOrder): (r: ApiResult<real>)
      reads this
      ensures r.IllegalState? <==> !initialized
      ensures r.Ok? && HasAttribute(item, name, order) == Ok(false) ==> r.value == 0.0
      ensures r.Ok? && ApiKey(name) in AttributeManager.ItemAttributes(Some(item), order) ==>
        r.value == AttributeManager.ItemAttributes(Some(item), order)[ApiKey(name)]
    {
      if !initialized then IllegalState
      else Ok(AttributeManager.Get(AttributeManager.ItemAttributes(Some(item), order), ApiKey(name)))
    }

    /** hasAttribute looking the name up in the parser's own label table. */
    function HasParsedAttribute(item: Item, name: string, order: AttributeManager.AliasOrder): (r: ApiResult<bool>)
      reads this
      ensures r.IllegalState? <==> !initialized
      ensures r.Ok? && AttributeManager.AttributeKey(name).None? ==> !r.value
      ensures r.Ok? && AttributeManager.AttributeKey(name).Some? ==>
        (r.value <==> AttributeManager.AttributeKey(name).value in AttributeManager.ItemAttributes(Some(item), order))
    {
      if !initialized then IllegalState
      else
        match AttributeManager.AttributeKey(name)
        case Some(key) => Ok(key in AttributeManager.ItemAttributes(Some(item), order))
        case None => Ok(false)
    }

    /** getItemAttributeValue looking the name up in the parser's own label table. */
    function GetParsedAttributeValue(item: Item, name: string, order: AttributeManager.AliasOrder): (r: ApiResult<real>)
      reads this
      ensures r.IllegalState? <==> !initialized
      ensures r.Ok? && HasParsedAttribute(item, name, order) == Ok(false) ==> r.value == 0.0
      ensures r.Ok? && AttributeManager.AttributeKey(name).Some? &&
              AttributeManager.AttributeKey(name).value in AttributeManager.ItemAttributes(Some(item), order) ==>
        r.value == AttributeManager.ItemAttributes(Some(item), order)[AttributeManager.AttributeKey(name).value]
    {
      if !initialized then IllegalState
      else
        match AttributeManager.AttributeKey(name)
        case Some(key) => Ok(AttributeManager.Get(AttributeManager.ItemAttributes(Some(item), order), key))
        case None => Ok(0.0)
    }
  }

  // ------------------------------------------------------------ lemmas: written lines

  /** The written attribute line is one the API's own `<name>:` test finds. */
  lemma {:induction false} ApiAttributeLineNamed(name: string, text: string)
    requires VisibleName(name)
    ensures NamesApi(Color('7') + name + ": " + Color('a') + "+" + text, name)
  {
    var s := StripColor(Color('7') + name + ": " + Color('a') + "+" + text);
    ApiAttributeLineStripped(name, text);
    assert s[|name| + 2] == '+' && s[0] == name[0];
    TrimKeepsVisiblePrefix(s, |name| + 1);
    assert s[..|name| + 1] == name + ":";
  }

  lemma {:induction false} ApiAttributeLineStripped(name: string, text: string)
    requires '§' !in name
    ensures StripColor(Color('7') + name + ": " + Color('a') + "+" + text) == (name + ": ") + ("+" + StripColor(text))
  {
    var tail := Color('a') + ("+" + text);
    assert Color('7') + name + ": " + Color('a') + "+" + text == Color('7') + ((name + ": ") + tail);
    StripColorCode('7', (name + ": ") + tail);
    StripColorPlain(name + ": ", tail);
    StripColorCode('a', "+" + text);
    StripColorPlain("+", text);
  }

  /** Lines that are not type lines are passed over by the type scan. */
  lemma {:induction false} TypeOfLinesSkip(lines: seq<string>, rest: seq<string>)
    requires forall k :: 0 <= k < |lines| ==> !IsApiTypeLine(lines[k])
    ensures AttributeManager.TypeOfLines(lines + rest) == AttributeManager.TypeOfLines(rest)
    decreases |lines|
  {
    if lines != [] {
      assert (lines + rest)[0] == lines[0] && (lines + rest)[1..] == lines[1..] + rest;
      TypeOfLinesSkip(lines[1..], rest);
    } else {
      assert lines + rest == rest;
    }
  }

  /** Filtering out only non-type lines leaves the type scan's answer as it was. */
  lemma {:induction false} TypeOfLinesFilter(lines: seq<string>, drop: string -> bool)
    requires forall k :: 0 <= k < |lines| && drop(lines[k]) ==> !IsApiTypeLine(lines[k])
    ensures AttributeManager.TypeOfLines(RemoveIf(lines, drop)) == AttributeManager.TypeOfLines(lines)
    decreases |lines|
  {
    if lines != [] {
      assert forall k :: 0 <= k < |lines| - 1 ==> lines[1..][k] == lines[k + 1];
      TypeOfLinesFilter(lines[1..], drop);
      var rest := RemoveIf(lines[1..], drop);
      assert RemoveIf(lines, drop) == (if drop(lines[0]) then [] else [lines[0]]) + rest;
      if !drop(lines[0]) {
        assert ([lines[0]] + rest)[0] == lines[0] && ([lines[0]] + rest)[1..] == rest;
      } else {
        assert !IsApiTypeLine(lines[0]);
        assert [] + rest == rest;
      }
    }
  }

  /** No supported attribute starts with `类`, so no attribute line is a type line. */
  lemma {:induction false} AttributeLinesAreNoTypeLines(lines: seq<string>)
    ensures forall k :: 0 <= k < |lines| && IsSupportedAttributeLine(lines[k]) ==> !IsApiTypeLine(lines[k])
  {
    forall k | 0 <= k < |lines| && IsSupportedAttributeLine(lines[k])
      ensures !IsApiTypeLine(lines[k])
    {
      AttributeLineIsNoTypeLine(lines[k]);
    }
  }

  lemma {:induction false} AttributeLineIsNoTypeLine(line: string)
    requires IsSupportedAttributeLine(line)
    ensures !IsApiTypeLine(line)
  {
    var clean := AttributeManager.CleanLine(line);
    var i :| 0 <= i < |SupportedAttributes| && NamesApi(line, SupportedAttributes[i]);
    SupportedFirstChars(i);
    var prefix := SupportedAttributes[i] + ":";
    assert clean[..|prefix|] == prefix;
    assert clean[0] == prefix[0] == SupportedAttributes[i][0];
    FirstCharBlocksPrefix(clean, "类型: ");
  }

  /** A text cannot start with a prefix whose first char it does not share. */
  lemma {:induction false} FirstCharBlocksPrefix(s: string, p: string)
    requires s != [] && p != [] && s[0] != p[0]
    ensures !StartsWith(s, p)
  {
    if |p| <= |s| {
      assert s[..|p|][0] == s[0];
    }
  }

  lemma {:induction false} SupportedFirstChars(i: nat)
    requires i < |SupportedAttributes|
    ensures SupportedAttributes[i] != [] && SupportedAttributes[i][0] != '类'
  {
  }

  /** The appended type line is what the type scan finds. */
  lemma {:induction false} TypedLoreRead(material: string, lore: seq<string>, t: string)
    requires t in AttributeCommands.ItemTypes
    ensures AttributeManager.ItemType(Some(Item(material, TypedLore(lore, t)))) == t
  {
    var kept := RemoveIf(lore, IsApiTypeLine);
    TypeOfLinesSkip(kept, [ApiTypeLine(t)]);
    AttributeProperties.TypeLineRead(material, '7', 'e', t, []);
    assert [ApiTypeLine(t)] + [] == [ApiTypeLine(t)];
  }

  // ------------------------------------------------------------ lemmas: API behaviour

  /** The remove* filters keep the surviving lines in their original order. */
  lemma {:induction false} PrunedKeepsOrder(a: seq<string>, b: seq<string>, drop: string -> bool, material: string)
    requires a + b != []
    ensures Pruned(Item(material, a + b), drop).lore == RemoveIf(a, drop) + RemoveIf(b, drop)
  {
    RemoveIfAppend(a, b, drop);
  }

  /** A type written by the /latr type command is also the type the API reads. */
  lemma {:induction false} ApiReadsCommandType(api: LoreAttributeApi, item: Item, t: string)
    requires api.initialized && t in AttributeCommands.ItemTypes
    ensures api.GetItemType(AttributeCommands.SetTypeToItem(item, t)) == Ok(t)
  {
    AttributeCommands.TypeLineCountsForParser(item, t);
  }

  /** After setItemType(t) exactly t's attributes are valid for the item. */
  lemma {:induction false} TypedItemValidity(api: LoreAttributeApi, item: Item, t: string, name: string)
    requires api.initialized && t in AttributeCommands.ItemTypes
    ensures api.SetItemType(item, t).Ok?
    ensures api.IsValidAttributeForItem(api.SetItemType(item, t).value, name) == Ok(name in AttributeCommands.AttributesFor(t))
  {
  }

  /** Removing the type after setting it leaves an untyped item, for which no attribute is valid. */
  lemma {:induction false} RemovedTypeInvalidates(api: LoreAttributeApi, item: Item, t: string, name: string)
    requires api.initialized && t in AttributeCommands.ItemTypes
    ensures api.SetItemType(item, t).Ok?
    ensures api.RemoveItemType(api.SetItemType(item, t).value).Ok?
    ensures api.IsValidAttributeForItem(api.RemoveItemType(api.SetItemType(item, t).value).value, name) == Ok(false)
  {
  }

  /** setItemAttribute twice keeps one line for the attribute, the later value's. */
  lemma {:induction false} SetTwiceKeepsOne(lore: seq<string>, name: string, a: real, b: real, fmt: AttributeCommands.Formatter)
    requires VisibleName(name)
    ensures var r := ModifiedLore(ModifiedLore(lore, name, a, true, fmt), name, b, true, fmt);
      r[|r| - 1] == ApiAttributeLine(name, b, fmt) &&
      forall k :: 0 <= k < |r| - 1 ==> !NamesApi(r[k], name)
  {
  }

  // ------------------------------------------------------------ lemmas: attribute keys

  lemma {:induction false} KeyLookupAt(table: seq<(string, string)>, name: string, j: nat)
    requires j < |table| && table[j].0 == name
    requires forall m :: 0 <= m < j ==> table[m].0 != name
    ensures KeyLookup(table, name) == Some(table[j].1)
    decreases j
  {
    if j > 0 {
      assert table[1..][j - 1] == table[j];
      KeyLookupAt(table[1..], name, j - 1);
    }
  }

  /** The API's keys for 护甲穿透, 生命恢复 and 移动速度. */
  lemma {:induction false} MismatchedApiKeys()
    ensures ApiKey("护甲穿透") == "penetration"
    ensures ApiKey("生命恢复") == "regen"
    ensures ApiKey("移动速度") == "speed"
  {
    PenetrationApiKey();
    RegenApiKey();
    SpeedApiKey();
  }

  lemma {:induction false} PenetrationApiKey()
    ensures KeyLookup(AttributeKeys, "护甲穿透") == Some("penetration")
  {
    forall m | 0 <= m < 5
      ensures AttributeKeys[m].0 != "护甲穿透"
    {
      assert AttributeKeys[m].0[0] != '护';
    }
    KeyLookupAt(AttributeKeys, "护甲穿透", 5);
  }

  lemma {:induction false} RegenApiKey()
    ensures KeyLookup(AttributeKeys, "生命恢复") == Some("regen")
  {
    forall m | 0 <= m < 14
      ensures AttributeKeys[m].0 != "生命恢复"
    {
      assert AttributeKeys[m].0[0] != '生' || AttributeKeys[m].0[2] != '恢';
    }
    KeyLookupAt(AttributeKeys, "生命恢复", 14);
  }

  lemma {:induction false} SpeedApiKey()
    ensures KeyLookup(AttributeKeys, "移动速度") == Some("speed")
  {
    forall m | 0 <= m < 16
      ensures AttributeKeys[m].0 != "移动速度"
    {
      assert AttributeKeys[m].0[0] != '移';
    }
    KeyLookupAt(AttributeKeys, "移动速度", 16);
  }

  /**
   * As written, hasAttribute never finds 护甲穿透, 生命恢复 or 移动速度 on
   * any item, and getItemAttributeValue reads 0 for them: the parser
   * stores armorBreak, healthHeal and moveSpeed.
   */
  lemma {:induction false} MismatchedKeysNeverFound(api: LoreAttributeApi, item: Item, order: AttributeManager.AliasOrder)
    requires api.initialized
    ensures api.HasAttribute(item, "护甲穿透", order) == Ok(false)
    ensures api.HasAttribute(item, "生命恢复", order) == Ok(false)
    ensures api.HasAttribute(item, "移动速度", order) == Ok(false)
    ensures api.GetItemAttributeValue(item, "护甲穿透", order) == Ok(0.0)
  {
    MismatchedApiKeys();
    AttributeProperties.PenetrationIsNoKey();
    AttributeProperties.RegenIsNoKey();
    AttributeProperties.SpeedIsNoKey();
    UnparsedKeyNeverFound(api, item, "护甲穿透", order);
    UnparsedKeyNeverFound(api, item, "生命恢复", order);
    UnparsedKeyNeverFound(api, item, "移动速度", order);
  }

  /** A name whose API key the parser never produces is never found. */
  lemma {:induction false} UnparsedKeyNeverFound(api: LoreAttributeApi, item: Item, name: string, order: AttributeManager.AliasOrder)
    requires api.initialized && !AttributeManager.IsKey(ApiKey(name))
    ensures api.HasAttribute(item, name, order) == Ok(false)
    ensures api.GetItemAttributeValue(item, name, order) == Ok(0.0)
  {
  }

  /** The parser's key for 护甲穿透. */
  lemma {:induction false} ArmorBreakLabel()
    ensures AttributeManager.AttributeKey("护甲穿透") == Some("armorBreak")
  {
    AttributeManager.LookupInFirst(AttributeManager.Aliases, "护甲穿透", 0, 18);
  }

  /** The item `护甲穿透: 5` parses to armorBreak 5, yet hasAttribute(item, 护甲穿透) is false. */
  lemma {:induction false} ArmorBreakLineMissed(api: LoreAttributeApi, material: string, order: AttributeManager.AliasOrder)
    requires api.initialized
    ensures AttributeManager.ItemAttributes(Some(Item(material, ["护甲穿透: 5"])), order) == map["armorBreak" := 5.0]
    ensures api.HasAttribute(Item(material, ["护甲穿透: 5"]), "护甲穿透", order) == Ok(false)
  {
    ArmorBreakParse(material, order);
    MismatchedKeysNeverFound(api, Item(material, ["护甲穿透: 5"]), order);
  }

  lemma {:induction false} ArmorBreakParse(material: string, order: AttributeManager.AliasOrder)
    ensures AttributeManager.ItemAttributes(Some(Item(material, ["护甲穿透: 5"])), order) == map["armorBreak" := 5.0]
  {
    ArmorBreakLabel();
    ArmorBreakPlainLine();
    AttributeProperties.PlainLoreLine("护甲穿透", "5", map[], order);
    assert "护甲穿透" + ": " + "5" == "护甲穿透: 5";
    SingleLineParse(material, "护甲穿透: 5", order);
  }

  lemma {:induction false} ArmorBreakPlainLine()
    ensures AttributeProperties.PlainAttributeLine("护甲穿透", "5")
    ensures AttributeProperties.LeadingNumber("5") == Some(5.0)
  {
  }

  lemma {:induction false} SingleLineParse(material: string, line: string, order: AttributeManager.AliasOrder)
    ensures AttributeManager.ItemAttributes(Some(Item(material, [line])), order) ==
      AttributeManager.LoreLineInto(line, map[], order)
  {
    AttributeManager.LinesIntoStep([line], 0, order);
    assert [line][..1] == [line] && [line][..0] == [] && [line][0] == line;
  }

  /**
   * Looked up through the parser's label table, a plain `name: number`
   * line is found under its name and reads back as its number.
   */
  lemma {:induction false} ParsedKeyFindsLine(api: LoreAttributeApi, material: string, name: string, number: string, order: AttributeManager.AliasOrder)
    requires api.initialized
    requires AttributeProperties.PlainAttributeLine(name, number) && AttributeManager.AttributeKey(name).Some?
    ensures AttributeProperties.LeadingNumber(number).Some?
    ensures api.HasParsedAttribute(Item(material, [name + ": " + number]), name, order) == Ok(true)
    ensures api.GetParsedAttributeValue(Item(material, [name + ": " + number]), name, order) ==
      Ok(AttributeProperties.LeadingNumber(number).value)
  {
    AttributeProperties.PlainLoreLine(name, number, map[], order);
    SingleLineParse(material, name + ": " + number, order);
  }
}
