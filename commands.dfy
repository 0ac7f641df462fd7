/**
 * The lore-editing half of the /latr command (AttributeCommandExecutor):
 * `add` accumulates onto an existing attribute line, `set` replaces every
 * line of the attribute, `type` rewrites the type line, the per-type
 * attribute tables decide what may be added, and tab completion filters
 * fixed candidate lists by the typed prefix.
 *
 * Items are values: the executor's in-place ItemMeta update is modelled as
 * returning the edited item. formatValue is the caller-supplied `fmt`.
 */
module AttributeCommands {
  import opened JavaText
  import opened Bukkit
  import opened LoreLines
  import AttributeManager
  import AttributeProperties

  const WeaponAttributes: seq<string> :=
    ["攻击伤害", "致命几率", "致命伤害", "生命偷取", "真实伤害", "护甲穿透", "弱化几率", "范围伤害", "范围距离"]
  const ArmorAttributes: seq<string> :=
    ["生命值", "伤害减免", "真实抗性", "闪避几率", "格挡几率", "生命恢复", "反伤几率"]
  const AccessoryAttributes: seq<string> :=
    ["移动速度", "致命几率", "生命值", "生命恢复", "攻击伤害"]
  const ReadOnlyAttributes: seq<string> := ["总伤害"]
  const ItemTypes: seq<string> := ["武器", "防具", "饰品"]

  /** formatValue: how a number is printed on a lore line. */
  type Formatter = real -> string

  // ------------------------------------------------------------ attribute lines

  /** The line add and set write: `§e<name>: §a+<value>`. */
  function AttributeLine(name: string, value: real, fmt: Formatter): string
  {
    Color('e') + name + ": " + Color('a') + "+" + fmt(value)
  }

  /** The stripped line starts with `<name>:`. */
  predicate NamesAttribute(line: string, name: string)
  {
    StartsWith(StripColor(line), name + ":")
  }

  /** A line add stops at: it names the attribute and split(":") yields a second piece. */
  predicate HasValuePart(line: string, name: string)
  {
    NamesAttribute(line, name) && |Split(StripColor(line))| > 1
  }

  /** String.replace("+", ""). */
  function WithoutPlus(s: string): (r: string)
    ensures '+' !in r && |r| <= |s|
  {
    if s == [] then [] else (if s[0] == '+' then [] else [s[0]]) + WithoutPlus(s[1..])
  }

  /** The number an attribute line holds: the second piece, trimmed, without '+', parsed. */
  function OldValue(line: string): Option<real>
    requires |Split(StripColor(line))| > 1
  {
    ParseDouble(WithoutPlus(Trim(Split(StripColor(line))[1])))
  }

  /** The test add's scan applies to each line. */
  function ValueLineTest(name: string): string -> bool
  {
    line => HasValuePart(line, name)
  }

  /** The index of the first line add would remove, if any. */
  function FirstValueLine(lore: seq<string>, name: string): (r: Option<nat>)
    ensures r.Some? ==> r.value < |lore| && HasValuePart(lore[r.value], name)
  {
    FirstIndex(lore, ValueLineTest(name), 0)
  }

  /** The value the new line holds: the old value plus the added one, or the added one alone. */
  function Accumulate(existing: Option<real>, value: real): real
  {
    if existing.Some? then existing.value + value else value
  }

  /**
   * The lore addAttributeToItem leaves: the first line with a value part is
   * removed and one line is appended holding that line's value plus `value`,
   * or `value` alone when there was no such line or its value did not parse.
   */
  function AddedLore(lore: seq<string>, name: string, value: real, fmt: Formatter): seq<string>
  {
    match FirstValueLine(lore, name)
    case None => lore + [AttributeLine(name, value, fmt)]
    case Some(i) => lore[..i] + lore[i + 1..] + [AttributeLine(name, Accumulate(OldValue(lore[i]), value), fmt)]
  }

  /** addAttributeToItem: the scan for the old line, its removal and the appended line. */
  method AddAttributeToItem(item: Item, name: string, value: real, fmt: Formatter) returns (r: Item)
    ensures r == item.(lore := AddedLore(item.lore, name, value, fmt))
  {
    var lore := item.lore;
    var existingValue := 0.0;
    var foundExisting := false;
    ghost var hit := false;
    ghost var accumulated := value;
    var i := 0;
    while i < |lore|
      invariant 0 <= i <= |lore| && lore == item.lore && !foundExisting && !hit && accumulated == value
      invariant forall j :: 0 <= j < i ==> !HasValuePart(lore[j], name)
    {
      var cleanLine := StripColor(lore[i]);
      if StartsWith(cleanLine, name + ":") {
        var parts := Split(cleanLine);
        if |parts| > 1 {
          var parsed := ParseDouble(WithoutPlus(Trim(parts[1])));
          FirstValueLineAt(lore, name, i);
          AddedAt(lore, name, value, fmt, i);
          assert parsed == OldValue(lore[i]);
          accumulated := Accumulate(parsed, value);
          if parsed.Some? {
            existingValue := parsed.value;
            foundExisting := true;
          }
          assert (if foundExisting then existingValue + value else value) == accumulated;
          hit := true;
          lore := lore[..i] + lore[i + 1..];
          assert AddedLore(item.lore, name, value, fmt) == lore + [AttributeLine(name, accumulated, fmt)];
          break;
        }
      }
      i := i + 1;
    }
    if !hit {
      FirstValueLineNone(lore, name);
      AddedAtEnd(lore, name, value, fmt);
      assert AddedLore(item.lore, name, value, fmt) == lore + [AttributeLine(name, accumulated, fmt)];
    }
    assert AddedLore(item.lore, name, value, fmt) == lore + [AttributeLine(name, accumulated, fmt)];
    var newValue := if foundExisting then existingValue + value else value;
    assert newValue == accumulated;
    lore := lore + [AttributeLine(name, newValue, fmt)];
    r := item.(lore := lore);
  }

  /** AddedLore once the line to remove is known. */
  lemma {:induction false} AddedAt(lore: seq<string>, name: string, value: real, fmt: Formatter, i: nat)
    requires i < |lore| && FirstValueLine(lore, name) == Some(i)
    ensures AddedLore(lore, name, value, fmt) == lore[..i] + lore[i + 1..] + [AttributeLine(name, Accumulate(OldValue(lore[i]), value), fmt)]
  {
  }

  /** AddedLore when no line has a value part. */
  lemma {:induction false} AddedAtEnd(lore: seq<string>, name: string, value: real, fmt: Formatter)
    requires FirstValueLine(lore, name) == None
    ensures AddedLore(lore, name, value, fmt) == lore + [AttributeLine(name, value, fmt)]
  {
  }

  /** setAttributeToItem: every line naming the attribute is removed and one new line appended. */
  function SetAttributeToItem(item: Item, name: string, value: real, fmt: Formatter): (r: Item)
    ensures r.material == item.material && |r.lore| >= 1
    ensures r.lore[|r.lore| - 1] == AttributeLine(name, value, fmt)
    ensures forall x :: x in item.lore && !NamesAttribute(x, name) ==> x in r.lore
    ensures '§' !in name ==>
      forall k :: 0 <= k < |r.lore| ==> (NamesAttribute(r.lore[k], name) <==> k == |r.lore| - 1)
  {
    var kept := RemoveIf(item.lore, l => NamesAttribute(l, name));
    assert '§' !in name ==> NamesAttribute(AttributeLine(name, value, fmt), name) by {
      if '§' !in name {
        AttributeLineNamed(name, value, fmt);
      }
    }
    item.(lore := kept + [AttributeLine(name, value, fmt)])
  }

  // ------------------------------------------------------------ stripped attribute lines

  /** A printed value the add path reads back as the same number. */
  predicate Faithful(text: string, v: real)
  {
    '§' !in text && ':' !in text && '+' !in text && Trimmed(text) && ParseDouble(text) == Some(v)
  }

  lemma {:induction false} AttributeLineStripped(name: string, text: string)
    requires '§' !in name && '§' !in text
    ensures StripColor(Color('e') + name + ": " + Color('a') + "+" + text) == name + ": +" + text
  {
    var tail := Color('a') + ("+" + text);
    assert Color('e') + name + ": " + Color('a') + "+" + text == Color('e') + ((name + ": ") + tail);
    StripColorCode('e', (name + ": ") + tail);
    StripColorPlain(name + ": ", tail);
    StripColorCode('a', "+" + text);
    StripColorNoSection("+" + text);
    assert name + ": " + ("+" + text) == name + ": +" + text;
  }

  /** A written attribute line names its attribute. */
  lemma {:induction false} AttributeLineNamed(name: string, value: real, fmt: Formatter)
    requires '§' !in name
    ensures NamesAttribute(AttributeLine(name, value, fmt), name)
  {
    var text := fmt(value);
    var s := Color('e') + name + ": " + Color('a') + "+" + text;
    var tail := Color('a') + ("+" + text);
    assert s == Color('e') + ((name + ": ") + tail);
    StripColorCode('e', (name + ": ") + tail);
    StripColorPlain(name + ": ", tail);
    assert (name + ": " + StripColor(tail))[..|name + ":"|] == name + ":";
  }

  /** With a faithful number, the written line is one add finds again and reads back as `v`. */
  lemma {:induction false} AttributeLineReadBack(name: string, v: real, fmt: Formatter, added: real)
    requires '§' !in name && ':' !in name && Faithful(fmt(v), v)
    ensures HasValuePart(AttributeLine(name, v, fmt), name)
    ensures Accumulate(OldValue(AttributeLine(name, v, fmt)), added) == v + added
  {
    var text := fmt(v);
    AttributeLineStripped(name, text);
    AttributeTextPrefix(name, text);
    SplitAttributeText(name, text);
    PlusTextValue(text);
  }

  lemma {:induction false} AttributeTextPrefix(name: string, text: string)
    ensures StartsWith(name + ": +" + text, name + ":")
  {
    assert (name + ": +" + text)[..|name + ":"|] == name + ":";
  }

  /** split(":") of `<name>: +<text>` has `" +<text>"` as its second piece. */
  lemma {:induction false} SplitAttributeText(name: string, text: string)
    requires ':' !in name && ':' !in text
    ensures |Split(name + ": +" + text)| > 1 && Split(name + ": +" + text)[1] == " +" + text
  {
    assert name + ": +" + text == name + ":" + (" +" + text);
    SplitAfterFirstColon(name, " +" + text);
    assert ':' !in " +" + text;
    SplitPiecesNoColon(" +" + text);
  }

  /** The second piece `" +<text>"`, trimmed and without '+', is the printed text again. */
  lemma {:induction false} PlusTextValue(text: string)
    requires '+' !in text && Trimmed(text)
    ensures WithoutPlus(Trim(" +" + text)) == text
  {
    PlusTextTrimmed(text);
    TrimPlusText(text);
    WithoutLeadingPlus(text);
  }

  lemma {:induction false} PlusTextTrimmed(text: string)
    requires Trimmed(text)
    ensures Trimmed("+" + text)
  {
    if text != [] {
      assert ("+" + text)[|"+" + text| - 1] == text[|text| - 1];
    }
  }

  lemma {:induction false} TrimPlusText(text: string)
    requires Trimmed("+" + text)
    ensures Trim(" +" + text) == "+" + text
  {
    assert " +" + text == " " + ("+" + text);
    TrimPaddedLeft("+" + text);
  }

  lemma {:induction false} WithoutLeadingPlus(text: string)
    requires '+' !in text
    ensures WithoutPlus("+" + text) == text
  {
    assert ("+" + text)[1..] == text;
    assert WithoutPlus("+" + text) == WithoutPlus(text);
    WithoutPlusNone(text);
  }

  lemma {:induction false} WithoutPlusNone(s: string)
    requires '+' !in s
    ensures WithoutPlus(s) == s
  {
    if s != [] {
      WithoutPlusNone(s[1..]);
    }
  }

  // ------------------------------------------------------------ properties of add

  /**
   * Adding twice accumulates: on lore without the attribute, adding `a` and
   * then `b` leaves the original lore plus one line holding `a + b`,
   * provided the printed `a` parses back to `a`.
   */
  lemma {:induction false} AddAccumulates(lore: seq<string>, name: string, a: real, b: real, fmt: Formatter)
    requires '§' !in name && ':' !in name && Faithful(fmt(a), a)
    requires forall k :: 0 <= k < |lore| ==> !HasValuePart(lore[k], name)
    ensures AddedLore(lore, name, a, fmt) == lore + [AttributeLine(name, a, fmt)]
    ensures AddedLore(AddedLore(lore, name, a, fmt), name, b, fmt) == lore + [AttributeLine(name, a + b, fmt)]
  {
    FirstValueLineNone(lore, name);
    AddedAtEnd(lore, name, a, fmt);
    AttributeLineReadBack(name, a, fmt, b);
    AddOnto(lore, AttributeLine(name, a, fmt), name, b, a + b, fmt);
  }

  /** Adding onto lore whose only value line is the appended `line` replaces that line. */
  lemma {:induction false} AddOnto(lore: seq<string>, line: string, name: string, b: real, v: real, fmt: Formatter)
    requires forall k :: 0 <= k < |lore| ==> !HasValuePart(lore[k], name)
    requires HasValuePart(line, name) && Accumulate(OldValue(line), b) == v
    ensures AddedLore(lore + [line], name, b, fmt) == lore + [AttributeLine(name, v, fmt)]
  {
    var once := lore + [line];
    AppendedLineFound(lore, line, name);
    AddedAt(once, name, b, fmt, |lore|);
    assert once[|lore|] == line;
    assert once[..|lore|] + once[|lore| + 1..] == lore;
  }

  /** A line with a value part appended to lore without one is the line add finds. */
  lemma {:induction false} AppendedLineFound(lore: seq<string>, line: string, name: string)
    requires forall k :: 0 <= k < |lore| ==> !HasValuePart(lore[k], name)
    requires HasValuePart(line, name)
    ensures FirstValueLine(lore + [line], name) == Some(|lore|)
  {
    var once := lore + [line];
    assert forall k :: 0 <= k < |lore| ==> once[k] == lore[k];
    FirstValueLineAt(once, name, |lore|);
  }

  /** No line has a value part: add removes nothing. */
  lemma {:induction false} FirstValueLineNone(lore: seq<string>, name: string)
    requires forall k :: 0 <= k < |lore| ==> !HasValuePart(lore[k], name)
    ensures FirstValueLine(lore, name) == None
  {
    FirstIndexNone(lore, ValueLineTest(name), 0);
  }

  /** add removes at most one line and appends one, keeping every line it does not remove. */
  lemma {:induction false} AddKeepsOtherLines(lore: seq<string>, name: string, value: real, fmt: Formatter)
    ensures |lore| <= |AddedLore(lore, name, value, fmt)| <= |lore| + 1
    ensures forall x :: x in lore && !HasValuePart(x, name) ==> x in AddedLore(lore, name, value, fmt)
  {
    match FirstValueLine(lore, name)
    case None =>
    case Some(i) =>
      forall x | x in lore && !HasValuePart(x, name)
        ensures x in AddedLore(lore, name, value, fmt)
      {
        var j :| 0 <= j < |lore| && lore[j] == x;
        if j < i {
          assert (lore[..i] + lore[i + 1..])[j] == x;
        } else {
          assert j > i;
          assert (lore[..i] + lore[i + 1..])[j - 1] == x;
        }
      }
  }

  /** A malformed old value is dropped and the new line holds `value` alone. */
  lemma {:induction false} AddOverUnparsable(lore: seq<string>, name: string, value: real, fmt: Formatter, i: nat)
    requires i < |lore| && HasValuePart(lore[i], name) && OldValue(lore[i]).None?
    requires forall j :: 0 <= j < i ==> !HasValuePart(lore[j], name)
    ensures AddedLore(lore, name, value, fmt) == lore[..i] + lore[i + 1..] + [AttributeLine(name, value, fmt)]
  {
    FirstValueLineAt(lore, name, i);
    AddedAt(lore, name, value, fmt, i);
  }

  /** The line add removes is the first with a value part. */
  lemma {:induction false} FirstValueLineAt(lore: seq<string>, name: string, i: nat)
    requires i < |lore| && HasValuePart(lore[i], name)
    requires forall j :: 0 <= j < i ==> !HasValuePart(lore[j], name)
    ensures FirstValueLine(lore, name) == Some(i)
  {
    FirstIndexAt(lore, ValueLineTest(name), 0, i);
  }

  // ------------------------------------------------------------ the type line

  /** The line setTypeToItem writes: `类型: <type>`, the label in grey and the type in aqua. */
  function TypeLine(t: string): string
  {
    Color('7') + "类型: " + Color('b') + t
  }

  /** The lines setTypeToItem removes: a stripped `类型:` prefix, or any type name anywhere. */
  predicate IsTypeLine(line: string)
  {
    var clean := StripColor(line);
    StartsWith(clean, "类型:") || Contains(clean, ItemTypes[0]) || Contains(clean, ItemTypes[1]) || Contains(clean, ItemTypes[2])
  }

  /** setTypeToItem: old type lines removed, the new one inserted first. */
  function SetTypeToItem(item: Item, t: string): (r: Item)
    ensures r.material == item.material && r.lore != [] && r.lore[0] == TypeLine(t)
    ensures forall k :: 1 <= k < |r.lore| ==> !IsTypeLine(r.lore[k])
    ensures forall x :: x in item.lore && !IsTypeLine(x) ==> x in r.lore
    ensures |r.lore| <= |item.lore| + 1 && forall k :: 1 <= k < |r.lore| ==> r.lore[k] in item.lore
  {
    item.(lore := [TypeLine(t)] + RemoveIf(item.lore, IsTypeLine))
  }

  /** The type a stripped `类型:` line names, when it is one of the three. */
  function LoreType(lore: seq<string>): (r: Option<string>)
    ensures r.Some? ==> r.value in ItemTypes
  {
    if lore == [] then None
    else
      var clean := StripColor(lore[0]);
      if StartsWith(clean, "类型:") && Trim(clean[3..]) in ItemTypes then Some(Trim(clean[3..]))
      else LoreType(lore[1..])
  }

  /** The material fallback: armour names, then weapon names, else accessory. */
  function MaterialType(material: string): (r: string)
    ensures r in ItemTypes
  {
    if Contains(material, "HELMET") || Contains(material, "CHESTPLATE") ||
       Contains(material, "LEGGINGS") || Contains(material, "BOOTS") then "防具"
    else if Contains(material, "SWORD") || Contains(material, "BOW") || Contains(material, "AXE") then "武器"
    else "饰品"
  }

  /** getItemType (command): 未知 for no item, else the lore's type, else the material's. */
  function ItemTypeOf(item: Option<Item>): (r: string)
    ensures item.Some? ==> r in ItemTypes
    ensures item.None? <==> r == "未知"
  {
    if item.None? then "未知"
    else
      match LoreType(item.value.lore)
      case Some(t) => t
      case None => MaterialType(item.value.material)
  }

  /** The attributes the command accepts for a type; none for any other text. */
  function AttributesFor(t: string): seq<string>
  {
    if t == "武器" then WeaponAttributes
    else if t == "防具" then ArmorAttributes
    else if t == "饰品" then AccessoryAttributes
    else []
  }

  /** isValidAttributeForItem: membership in the table of the item's type. */
  function IsValidAttributeForItem(item: Option<Item>, name: string): (r: bool)
    ensures item.None? ==> !r
    ensures r <==> name in AttributesFor(ItemTypeOf(item))
  {
    name in AttributesFor(ItemTypeOf(item))
  }

  lemma {:induction false} TypeLineStripped(t: string)
    requires t in ItemTypes
    ensures StripColor(TypeLine(t)) == "类型: " + t
    ensures Trim(("类型: " + t)[3..]) == t
  {
    assert '§' !in t;
    AttributeProperties.StripTypeLine('7', 'b', t);
    assert ("类型: " + t)[3..] == " " + t;
    TrimPaddedLeft(t);
  }

  /** The type written by `type` is the type the command then reads, whatever the lore held. */
  lemma {:induction false} TypeRoundTrip(item: Item, t: string)
    requires t in ItemTypes
    ensures ItemTypeOf(Some(SetTypeToItem(item, t))) == t
  {
    TypeLineStripped(t);
    var lore := SetTypeToItem(item, t).lore;
    assert StartsWith(StripColor(lore[0]), "类型:");
  }

  /** The written type line is also the one the attribute parser's type check reads. */
  lemma {:induction false} TypeLineCountsForParser(item: Item, t: string)
    requires t in ItemTypes
    ensures AttributeManager.ItemType(Some(SetTypeToItem(item, t))) == t
  {
    var rest := RemoveIf(item.lore, IsTypeLine);
    AttributeProperties.TypeLineRead(item.material, '7', 'b', t, rest);
  }

  /** After `type t`, exactly the attributes of t's table are valid for the item. */
  lemma {:induction false} TypedItemAttributes(item: Item, t: string, name: string)
    requires t in ItemTypes
    ensures IsValidAttributeForItem(Some(SetTypeToItem(item, t)), name) <==> name in AttributesFor(t)
  {
    TypeRoundTrip(item, t);
  }

  /** No table lists the read-only total damage. */
  lemma {:induction false} ReadOnlyInNoTable(item: Option<Item>)
    ensures !IsValidAttributeForItem(item, ReadOnlyAttributes[0])
  {
  }

  // ------------------------------------------------------------ the commands

  datatype Outcome = NoItem | ReadOnly | NotForType | BadNumber | BadType | Updated(item: Item)

  /** The item held for an edit: present and not AIR. */
  predicate Editable(held: Option<Item>)
  {
    held.Some? && !IsAir(held.value)
  }

  /** /latr add: item check, read-only guard, type table, then the number. */
  function AddCommand(held: Option<Item>, name: string, text: string, fmt: Formatter): (r: Outcome)
    ensures r.Updated? <==>
      Editable(held) && name !in ReadOnlyAttributes && IsValidAttributeForItem(held, name) && ParseDouble(text).Some?
    ensures r.Updated? ==> r.item.material == held.value.material
  {
    if !Editable(held) then NoItem
    else if name in ReadOnlyAttributes then ReadOnly
    else if !IsValidAttributeForItem(held, name) then NotForType
    else
      match ParseDouble(text)
      case None => BadNumber
      case Some(v) => Updated(held.value.(lore := AddedLore(held.value.lore, name, v, fmt)))
  }

  /** /latr set: item check, then the number; no read-only or type check. */
  function SetCommand(held: Option<Item>, name: string, text: string, fmt: Formatter): (r: Outcome)
    ensures r.Updated? <==> Editable(held) && ParseDouble(text).Some?
    ensures r.Updated? && '§' !in name ==>
      forall k :: 0 <= k < |r.item.lore| ==> (NamesAttribute(r.item.lore[k], name) <==> k == |r.item.lore| - 1)
  {
    if !Editable(held) then NoItem
    else
      match ParseDouble(text)
      case None => BadNumber
      case Some(v) => Updated(SetAttributeToItem(held.value, name, v, fmt))
  }

  /** /latr type: item check, then the type list. */
  function TypeCommand(held: Option<Item>, t: string): (r: Outcome)
    ensures r.Updated? <==> Editable(held) && t in ItemTypes
    ensures r.Updated? ==> ItemTypeOf(Some(r.item)) == t
  {
    if !Editable(held) then NoItem
    else if t !in ItemTypes then BadType
    else
      TypeRoundTrip(held.value, t);
      Updated(SetTypeToItem(held.value, t))
  }

  /** add refuses the read-only total damage, while set writes it. */
  lemma {:induction false} ReadOnlyOnlyGuardsAdd(held: Option<Item>, text: string, fmt: Formatter)
    requires Editable(held) && ParseDouble(text).Some?
    ensures AddCommand(held, "总伤害", text, fmt) == ReadOnly
    ensures SetCommand(held, "总伤害", text, fmt).Updated?
  {
  }

  // ------------------------------------------------------------ tab completion

  const SubCommands: seq<string> := ["help", "add", "set", "type", "view", "battle", "edit", "debug", "reload"]
  const DebugTypes: seq<string> := ["item", "update", "show"]
  const EditActions: seq<string> := ["save", "cancel"]

  /** getAllAttributes: the three tables one after another, repeats kept. */
  function AllAttributes(): seq<string>
  {
    WeaponAttributes + ArmorAttributes + AccessoryAttributes
  }

  /** The candidates that start with the typed prefix, in their order. */
  function Matching(candidates: seq<string>, prefix: string): (r: seq<string>)
    ensures |r| <= |candidates|
    ensures forall x :: x in r <==> x in candidates && StartsWith(x, prefix)
  {
    if candidates == [] then []
    else
      var last := candidates[|candidates| - 1];
      Matching(candidates[..|candidates| - 1], prefix) + (if StartsWith(last, prefix) then [last] else [])
  }

  /** onTabComplete's answer for the arguments typed so far. */
  function Completion(args: seq<string>): seq<string>
  {
    if |args| == 1 then Matching(SubCommands, ToLower(args[0]))
    else if |args| == 2 then
      var sub := ToLower(args[0]);
      if sub == "add" || sub == "set" then Matching(AllAttributes(), args[1])
      else if sub == "type" then Matching(ItemTypes, args[1])
      else if sub == "debug" then Matching(DebugTypes, ToLower(args[1]))
      else if sub == "edit" then Matching(EditActions, ToLower(args[1]))
      else []
    else []
  }

  /** One candidate loop of onTabComplete. */
  method CompleteFrom(candidates: seq<string>, prefix: string) returns (completions: seq<string>)
    ensures completions == Matching(candidates, prefix)
  {
    completions := [];
    for i := 0 to |candidates|
      invariant completions == Matching(candidates[..i], prefix)
    {
      assert candidates[..i + 1][..i] == candidates[..i];
      if StartsWith(candidates[i], prefix) {
        completions := completions + [candidates[i]];
      }
    }
    assert candidates[..|candidates|] == candidates;
  }

  /** onTabComplete: one filtered list for one or two arguments, nothing otherwise. */
  method TabComplete(args: seq<string>) returns (completions: seq<string>)
    ensures completions == Completion(args)
    ensures |args| != 1 && |args| != 2 ==> completions == []
    ensures forall x :: x in completions ==> x in SubCommands || x in AllAttributes() || x in ItemTypes || x in DebugTypes || x in EditActions
  {
    completions := [];
    if |args| == 1 {
      completions := CompleteFrom(SubCommands, ToLower(args[0]));
    } else if |args| == 2 {
      var sub := ToLower(args[0]);
      if sub == "add" || sub == "set" {
        completions := CompleteFrom(AllAttributes(), args[1]);
      } else if sub == "type" {
        completions := CompleteFrom(ItemTypes, args[1]);
      } else if sub == "debug" {
        completions := CompleteFrom(DebugTypes, ToLower(args[1]));
      } else if sub == "edit" {
        completions := CompleteFrom(EditActions, ToLower(args[1]));
      }
    }
  }

  /** An empty prefix offers every candidate, in order. */
  lemma {:induction false} EmptyPrefixKeepsAll(candidates: seq<string>)
    ensures Matching(candidates, "") == candidates
    decreases |candidates|
  {
    if candidates != [] {
      EmptyPrefixKeepsAll(candidates[..|candidates| - 1]);
    }
  }

  /** Filtering two lists one after the other gives the two filtered lists in order. */
  lemma {:induction false} MatchingAppend(a: seq<string>, b: seq<string>, prefix: string)
    ensures Matching(a + b, prefix) == Matching(a, prefix) + Matching(b, prefix)
    decreases |b|
  {
    if b == [] {
      assert a + b == a;
    } else {
      var c := a + b;
      var front := b[..|b| - 1];
      var last := b[|b| - 1];
      var tail := if StartsWith(last, prefix) then [last] else [];
      assert c[..|c| - 1] == a + front;
      assert c[|c| - 1] == last;
      assert Matching(c, prefix) == Matching(a + front, prefix) + tail;
      assert Matching(b, prefix) == Matching(front, prefix) + tail;
      MatchingAppend(a, front, prefix);
      assert Matching(a, prefix) + Matching(front, prefix) + tail == Matching(a, prefix) + (Matching(front, prefix) + tail);
    }
  }

  /** The sub-command is completed case-insensitively. */
  lemma {:induction false} SubCommandIgnoresCase(typed: string)
    ensures Completion([typed]) == Completion([ToLower(typed)])
  {
    ToLowerIdempotent(typed);
  }
}
