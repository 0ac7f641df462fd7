/**
 * AttributeManager: reads attribute lines such as `攻击伤害: +5` from an
 * item's lore, sums them per attribute key over the equipped items whose
 * type line matches their slot, caches the totals per player and applies
 * the walk-speed and maximum-health side effects.
 */
module AttributeManager {
  import opened JavaText
  import opened Bukkit

  /** An attribute snapshot: attribute key to summed value. */
  type Attrs = map<string, real>

  /** Map.getOrDefault(key, 0.0). */
  function Get(m: Attrs, key: string): real
  {
    if key in m then m[key] else 0.0
  }

  /** attributes.put(key, attributes.getOrDefault(key, 0.0) + value). */
  function Add(m: Attrs, key: string, value: real): (r: Attrs)
    ensures r.Keys == m.Keys + {key}
    ensures Get(r, key) == Get(m, key) + value
    ensures forall k :: k != key ==> Get(r, k) == Get(m, k)
  {
    m[key := Get(m, key) + value]
  }

  /** One entry of the label-to-key table: a lore label and the attribute key it names. */
  datatype Alias = Alias(text: string, key: string)

  /**
   * The label-to-key table filled by initializeAttributeKeys, in the order
   * of its puts (the repeated lower-case puts change nothing). Its labels
   * are pairwise distinct, so it is the map the source builds.
   */
  const Aliases: seq<Alias> := [
    Alias("攻击伤害", "damage"),
    Alias("致命几率", "crit"),
    Alias("致命伤害", "critDamage"),
    Alias("致命抗性", "critArmor"),
    Alias("生命恢复", "healthHeal"),
    Alias("生命值", "health"),
    Alias("生命偷取", "lifeSteal"),
    Alias("移动速度", "moveSpeed"),
    Alias("伤害减免", "armor"),
    Alias("对怪物造成的额外伤害", "mobDamage"),
    Alias("对怪物造成的总额外伤害", "sumMobDamage"),
    Alias("对怪物的伤害免疫", "mobDamageRemove"),
    Alias("总伤害", "sumDamage"),
    Alias("招架几率", "critBreaker"),
    Alias("范围伤害", "aoeDamage"),
    Alias("范围距离", "aoeRange"),
    Alias("攻击速度", "attackSpeed"),
    Alias("真实伤害", "trueDamage"),
    Alias("护甲穿透", "armorBreak"),
    Alias("闪避几率", "dodge"),
    Alias("破闪几率", "dodgeBreaker"),
    Alias("格挡几率", "block"),
    Alias("强化重击", "blockBreaker"),
    Alias("百分比伤害", "finalDamage"),
    Alias("百分比真实伤害", "finalTrueDamage"),
    Alias("反伤几率", "injury"),
    Alias("真实抗性", "trueArmor"),
    Alias("弱化几率", "weaken"),
    Alias("百分比生命", "finalHealth"),
    Alias("damage", "damage"),
    Alias("crit", "crit"),
    Alias("critdamage", "critDamage"),
    Alias("attackspeed", "attackSpeed")
  ]

  /** The labels of the table, in the order of its puts. */
  function Labels(): (r: seq<string>)
    ensures |r| == |Aliases| && forall i :: 0 <= i < |r| ==> r[i] == Aliases[i].text
  {
    seq(|Aliases|, i requires 0 <= i < |Aliases| => Aliases[i].text)
  }

  /** `order` lists every label of the table exactly once: an iteration order of the HashMap's keys. */
  predicate IsAliasOrder(order: seq<string>)
  {
    multiset(order) == multiset(Labels())
  }

  /** The order in which parseAlternativeFormat meets the table's labels, which the HashMap leaves unspecified. */
  type AliasOrder = order: seq<string> | IsAliasOrder(order) witness Labels()

  /** `table` holds `name` as a label at index `i` or later. */
  predicate IsLabelIn(table: seq<Alias>, name: string, i: nat)
    decreases |table| - i
  {
    i < |table| && (table[i].text == name || IsLabelIn(table, name, i + 1))
  }

  /** `table` holds `key` as a key at index `i` or later. */
  predicate IsKeyIn(table: seq<Alias>, key: string, i: nat)
    decreases |table| - i
  {
    i < |table| && (table[i].key == key || IsKeyIn(table, key, i + 1))
  }

  /** `name` is one of the labels of the attribute table. */
  predicate IsLabel(name: string) { IsLabelIn(Aliases, name, 0) }

  /** `key` is one of the attribute keys of the table. */
  predicate IsKey(key: string) { IsKeyIn(Aliases, key, 0) }

  /** HashMap.get on the table: the key of the first entry from index `i` whose label is `name`. */
  function LookupIn(table: seq<Alias>, name: string, i: nat): Option<string>
    decreases |table| - i
  {
    if i >= |table| then None
    else if table[i].text == name then Some(table[i].key)
    else LookupIn(table, name, i + 1)
  }

  /** The lookup finds a key exactly when the label is in the table, and what it finds is one of the table's keys. */
  lemma {:induction false} LookupInFound(table: seq<Alias>, name: string, i: nat)
    ensures LookupIn(table, name, i).Some? ==> IsKeyIn(table, LookupIn(table, name, i).value, i)
    ensures LookupIn(table, name, i).None? <==> !IsLabelIn(table, name, i)
    decreases |table| - i
  {
    if i < |table| && table[i].text != name {
      LookupInFound(table, name, i + 1);
    }
  }

  /** An entry at index `j` is found by the walk from any earlier index. */
  lemma {:induction false} LabelInAt(table: seq<Alias>, name: string, i: nat, j: nat)
    requires i <= j < |table| && table[j].text == name
    ensures IsLabelIn(table, name, i)
    decreases j - i
  {
    if i < j && table[i].text != name {
      LabelInAt(table, name, i + 1, j);
    }
  }

  /** A text no entry from index `i` on carries as its label is no label there. */
  lemma {:induction false} NotLabelIn(table: seq<Alias>, name: string, i: nat)
    requires forall j :: i <= j < |table| ==> table[j].text != name
    ensures !IsLabelIn(table, name, i)
    decreases |table| - i
  {
    if i < |table| {
      NotLabelIn(table, name, i + 1);
    }
  }

  lemma {:induction false} NotKeyIn(table: seq<Alias>, key: string, i: nat)
    requires forall j :: i <= j < |table| ==> table[j].key != key
    ensures !IsKeyIn(table, key, i)
    decreases |table| - i
  {
    if i < |table| {
      NotKeyIn(table, key, i + 1);
    }
  }

  /** The lookup returns the key of the first entry carrying the label. */
  lemma {:induction false} LookupInFirst(table: seq<Alias>, name: string, i: nat, j: nat)
    requires i <= j < |table| && table[j].text == name
    requires forall m :: i <= m < j ==> table[m].text != name
    ensures LookupIn(table, name, i) == Some(table[j].key)
    decreases j - i
  {
    if i < j {
      LookupInFirst(table, name, i + 1, j);
    }
  }

  /** getAttributeKey: the exact label, else its lower case; None when neither is a label. */
  function AttributeKey(name: string): (r: Option<string>)
    ensures r.Some? ==> IsKey(r.value)
    ensures IsLabel(name) ==> r == LookupIn(Aliases, name, 0)
    ensures !IsLabel(name) ==> r == LookupIn(Aliases, ToLower(name), 0)
    ensures r.None? <==> (!IsLabel(name) && !IsLabel(ToLower(name)))
  {
    LookupInFound(Aliases, name, 0);
    LookupInFound(Aliases, ToLower(name), 0);
    var exact := LookupIn(Aliases, name, 0);
    if exact.Some? then exact else LookupIn(Aliases, ToLower(name), 0)
  }

  // ------------------------------------------------ the attribute line pattern

  /** The chars `.` does not match in a java.util.regex pattern. */
  predicate IsLineTerminator(c: char)
  {
    c == '\n' || c == '\r' || c == '\U{0085}' || c == '\U{2028}' || c == '\U{2029}'
  }

  predicate LabelChars(s: string, p: nat, k: nat)
    requires p <= k <= |s|
  {
    forall i :: p <= i < k ==> !IsLineTerminator(s[i])
  }

  /** `s` has ": " at `k` directly followed by a [+-]?\d+(?:\.\d+)? number. */
  predicate ColonNumberAt(s: string, k: nat)
  {
    k + 2 <= |s| && s[k] == ':' && s[k + 1] == ' ' && NumberAt(s, k + 2)
  }

  /** (.+?): ([+-]?\d+(?:\.\d+)?) matches with its label in s[p..k]. */
  predicate AttributeMatch(s: string, p: nat, k: nat)
  {
    p < k <= |s| && LabelChars(s, p, k) && ColonNumberAt(s, k)
  }

  /** The lazy label `.+?` starting at `p`: the first colon position from `k` on that completes a match. */
  function LazyColon(s: string, p: nat, k: nat): (r: Option<nat>)
    requires p < k <= |s| && LabelChars(s, p, k - 1)
    ensures r.Some? ==> k <= r.value && AttributeMatch(s, p, r.value)
    decreases |s| - k
  {
    if IsLineTerminator(s[k - 1]) then None
    else
      LabelCharsExtend(s, p, k);
      if ColonNumberAt(s, k) then Some(k)
      else if k < |s| then LazyColon(s, p, k + 1)
      else None
  }

  lemma {:induction false} LabelCharsExtend(s: string, p: nat, k: nat)
    requires p < k <= |s| && LabelChars(s, p, k - 1) && !IsLineTerminator(s[k - 1])
    ensures LabelChars(s, p, k)
  {
  }

  /** A line terminator inside the label rules out every longer label. */
  lemma {:induction false} TerminatorEndsLabel(s: string, p: nat, k: nat)
    requires p < k <= |s| && IsLineTerminator(s[k - 1])
    ensures forall j :: k <= j <= |s| ==> !AttributeMatch(s, p, j)
  {
    forall j | k <= j <= |s|
      ensures !AttributeMatch(s, p, j)
    {
      assert !LabelChars(s, p, j) by {
        assert p <= k - 1 < j;
      }
    }
  }

  /** The lazy label is the shortest one: no colon between `k` and the one found completes a match, and None means none does. */
  lemma {:induction false} LazyColonShortest(s: string, p: nat, k: nat)
    requires p < k <= |s| && LabelChars(s, p, k - 1)
    ensures LazyColon(s, p, k).Some? ==> forall j :: k <= j < LazyColon(s, p, k).value ==> !AttributeMatch(s, p, j)
    ensures LazyColon(s, p, k).None? ==> forall j :: k <= j <= |s| ==> !AttributeMatch(s, p, j)
    decreases |s| - k
  {
    var r := LazyColon(s, p, k);
    if IsLineTerminator(s[k - 1]) {
      assert r == None;
      TerminatorEndsLabel(s, p, k);
    } else {
      LabelCharsExtend(s, p, k);
      if ColonNumberAt(s, k) {
        assert r == Some(k);
      } else if k < |s| {
        assert r == LazyColon(s, p, k + 1);
        LazyColonShortest(s, p, k + 1);
      } else {
        assert r == None;
      }
    }
  }

  /** Matcher.find for the attribute pattern: the leftmost start, then the shortest label. */
  function FindAttribute(s: string, p: nat): (r: Option<(nat, nat)>)
    ensures r.Some? ==> p <= r.value.0 && AttributeMatch(s, r.value.0, r.value.1)
    decreases |s| - p
  {
    if p >= |s| then None
    else
      match LazyColon(s, p, p + 1)
      case Some(k) => Some((p, k))
      case None => FindAttribute(s, p + 1)
  }

  /**
   * What Matcher.find promises: the match found starts leftmost and, from
   * that start, has the shortest label; None means the pattern occurs nowhere.
   */
  lemma {:induction false} FindAttributeLeftmost(s: string, p: nat)
    ensures FindAttribute(s, p).Some? ==>
      forall j :: FindAttribute(s, p).value.0 < j < FindAttribute(s, p).value.1 ==> !AttributeMatch(s, FindAttribute(s, p).value.0, j)
    ensures FindAttribute(s, p).Some? ==>
      forall q, j :: p <= q < FindAttribute(s, p).value.0 ==> !AttributeMatch(s, q, j)
    ensures FindAttribute(s, p).None? ==> forall q, j :: p <= q ==> !AttributeMatch(s, q, j)
    decreases |s| - p
  {
    if p >= |s| {
      forall q: nat, j: nat | p <= q
        ensures !AttributeMatch(s, q, j)
      {
        assert !(q < j <= |s|);
      }
    } else {
      LazyColonShortest(s, p, p + 1);
      var lazy := LazyColon(s, p, p + 1);
      if lazy.None? {
        assert FindAttribute(s, p) == FindAttribute(s, p + 1);
        FindAttributeLeftmost(s, p + 1);
        forall q: nat, j: nat | p <= q && (FindAttribute(s, p).Some? ==> q < FindAttribute(s, p).value.0)
          ensures !AttributeMatch(s, q, j)
        {
        }
      } else {
        assert FindAttribute(s, p) == Some((p, lazy.value));
      }
    }
  }

  // ------------------------------------------------------ one lore line

  /** The alternative format for one alias: add the first number of the line under the alias's key. */
  function AddFirstNumber(line: string, alias: string, attrs: Attrs): Attrs
  {
    var found := FindNumber(line, 0);
    if found.None? then attrs
    else
      var p := found.value;
      var value := ParseDouble(line[p..p + SignedNumberLen(line[p..])]);
      var key := AttributeKey(alias);
      if value.Some? && key.Some? then Add(attrs, key.value, value.value) else attrs
  }

  /** parseAlternativeFormat: the first alias (in table iteration order) the line contains decides, then the scan stops. */
  function AlternativeFormat(line: string, attrs: Attrs, order: seq<string>): Attrs
  {
    if order == [] then attrs
    else if Contains(line, order[0]) then AddFirstNumber(line, order[0], attrs)
    else AlternativeFormat(line, attrs, order[1..])
  }

  /** The first branch of parseAttributeLine: the label in line[p..k] names the key, the number after ": " is added. */
  function MatchedLine(line: string, p: nat, k: nat, attrs: Attrs): Attrs
    requires AttributeMatch(line, p, k)
  {
    var name := Trim(line[p..k]);
    var valueStr := Trim(line[k + 2..k + 2 + SignedNumberLen(line[k + 2..])]);
    var value := ParseDouble(valueStr);
    var key := AttributeKey(name);
    if value.Some? && key.Some? then Add(attrs, key.value, value.value) else attrs
  }

  /** parseAttributeLine on a colour-stripped, trimmed line. */
  function AttributeLine(line: string, attrs: Attrs, order: AliasOrder): Attrs
  {
    var found := FindAttribute(line, 0);
    if found.None? then AlternativeFormat(line, attrs, order)
    else MatchedLine(line, found.value.0, found.value.1, attrs)
  }

  /** The text parseItemAttributes hands to the line parser. */
  function CleanLine(line: string): string
  {
    Trim(StripColor(line))
  }

  /** One iteration of parseItemAttributes: the colour-stripped, trimmed line is parsed into `attrs`. */
  function LoreLineInto(line: string, attrs: Attrs, order: AliasOrder): Attrs
  {
    AttributeLine(CleanLine(line), attrs, order)
  }

  /** The snapshot after parsing `lines` in order into `attrs`. */
  function LinesInto(lines: seq<string>, attrs: Attrs, order: AliasOrder): Attrs
    decreases |lines|
  {
    if lines == [] then attrs
    else LoreLineInto(lines[|lines| - 1], LinesInto(lines[..|lines| - 1], attrs, order), order)
  }

  /** parseItemAttributes: a missing item, or one without lore, has no attributes. */
  function ItemAttributes(item: Option<Item>, order: AliasOrder): (r: Attrs)
    ensures item.None? || item.value.lore == [] ==> r == map[]
  {
    if item.None? then map[] else LinesInto(item.value.lore, map[], order)
  }

  // ------------------------------------------------------ the imperative parser

  lemma {:induction false} LinesIntoStep(lines: seq<string>, i: nat, order: AliasOrder)
    requires i < |lines|
    ensures LinesInto(lines[..i + 1], map[], order) == LoreLineInto(lines[i], LinesInto(lines[..i], map[], order), order)
  {
    var prefix := lines[..i + 1];
    assert prefix[..i] == lines[..i] && prefix[i] == lines[i];
  }

  /** parseAlternativeFormat's loop with its break. */
  method ParseAlternativeFormat(line: string, attrs: Attrs, order: AliasOrder) returns (r: Attrs)
    ensures r == AlternativeFormat(line, attrs, order)
  {
    var i := 0;
    r := attrs;
    while i < |order|
      invariant 0 <= i <= |order|
      invariant AlternativeFormat(line, attrs, order) == AlternativeFormat(line, attrs, order[i..])
      invariant r == attrs
    {
      assert order[i..][1..] == order[i + 1..];
      if Contains(line, order[i]) {
        r := AddFirstNumber(line, order[i], attrs);
        return;
      }
      i := i + 1;
    }
  }

  /** parseAttributeLine: the attribute pattern first, the alternative format only when it does not match. */
  method ParseAttributeLine(line: string, attrs: Attrs, order: AliasOrder) returns (r: Attrs)
    ensures r == AttributeLine(line, attrs, order)
  {
    var found := FindAttribute(line, 0);
    if found.None? {
      r := ParseAlternativeFormat(line, attrs, order);
    } else {
      r := MatchedLine(line, found.value.0, found.value.1, attrs);
    }
  }

  /** parseItemAttributes: every lore line, colour-stripped and trimmed, is parsed into one map. */
  method ParseItemAttributes(item: Option<Item>, order: AliasOrder) returns (attrs: Attrs)
    ensures attrs == ItemAttributes(item, order)
  {
    attrs := map[];
    if item.None? {
      return;
    }
    var lore := item.value.lore;
    var i := 0;
    while i < |lore|
      invariant 0 <= i <= |lore|
      invariant attrs == LinesInto(lore[..i], map[], order)
    {
      LinesIntoStep(lore, i, order);
      var clean := CleanLine(lore[i]);
      attrs := ParseAttributeLine(clean, attrs, order);
      i := i + 1;
    }
    assert lore[..|lore|] == lore;
    assert ItemAttributes(item, order) == LinesInto(lore, map[], order);
  }

  // ------------------------------------------------------ merging

  /** The keywise sum mergeAttributes produces. */
  function Merge(target: Attrs, source: Attrs): (r: Attrs)
    ensures r.Keys == target.Keys + source.Keys
    ensures forall k :: Get(r, k) == Get(target, k) + Get(source, k)
  {
    map k | k in target.Keys + source.Keys :: Get(target, k) + Get(source, k)
  }

  /** mergeAttributes: each source entry is added into the target. */
  method MergeAttributes(target: Attrs, source: Attrs) returns (r: Attrs)
    ensures r == Merge(target, source)
  {
    r := target;
    var pending := source.Keys;
    while pending != {}
      invariant pending <= source.Keys
      invariant r.Keys == target.Keys + (source.Keys - pending)
      invariant forall k :: k in r ==> r[k] == Get(target, k) + (if k in source && k !in pending then source[k] else 0.0)
      decreases pending
    {
      var k :| k in pending;
      r := r[k := Get(r, k) + source[k]];
      pending := pending - {k};
    }
  }

  // ------------------------------------------------------ item types

  /** getItemType: the text after `类型: ` on the first line that starts with it, else "". */
  function ItemType(item: Option<Item>): string
  {
    if item.None? then "" else TypeOfLines(item.value.lore)
  }

  function TypeOfLines(lines: seq<string>): string
  {
    if lines == [] then ""
    else
      var clean := CleanLine(lines[0]);
      if StartsWith(clean, "类型: ") then Trim(clean[4..]) else TypeOfLines(lines[1..])
  }

  /** getItemType's loop with its early return. */
  method GetItemType(item: Option<Item>) returns (t: string)
    ensures t == ItemType(item)
  {
    if item.None? {
      return "";
    }
    var lore := item.value.lore;
    assert ItemType(item) == TypeOfLines(lore);
    var i := 0;
    while i < |lore|
      invariant 0 <= i <= |lore|
      invariant TypeOfLines(lore) == TypeOfLines(lore[i..])
    {
      assert lore[i..][1..] == lore[i + 1..];
      var clean := CleanLine(lore[i]);
      if StartsWith(clean, "类型: ") {
        assert lore[i..][0] == lore[i];
        assert TypeOfLines(lore[i..]) == Trim(clean[4..]);
        return Trim(clean[4..]);
      }
      i := i + 1;
    }
    return "";
  }

  /** parseItemAttributesWithTypeCheck: an item whose type line is not `expected` contributes nothing. */
  function TypedAttributes(item: Option<Item>, expected: string, order: AliasOrder): (r: Attrs)
    ensures ItemType(item) != expected ==> r == map[]
    ensures ItemType(item) == expected ==> r == ItemAttributes(item, order)
  {
    if ItemType(item) != expected then map[] else ItemAttributes(item, order)
  }

  // ------------------------------------------------------ per-player totals

  /** The battle-bag lookup: its five items, or the exception the plugin swallows. */
  datatype BattleLookup = BattleItems(items: seq<Option<Item>>) | BattleFailed

  /** What calculatePlayerAttributes reads from the player. */
  datatype Equipment = Equipment(mainHand: Option<Item>, armor: seq<Option<Item>>, battle: BattleLookup)

  const Weapon: string := "武器"
  const Armour: string := "防具"
  const Accessory: string := "饰品"

  /** The accumulator after merging the attributes of `items` in order, each only when its type is `expected`. */
  function MergeTyped(acc: Attrs, items: seq<Option<Item>>, expected: string, order: AliasOrder): Attrs
    decreases |items|
  {
    if items == [] then acc
    else Merge(MergeTyped(acc, items[..|items| - 1], expected, order), TypedAttributes(items[|items| - 1], expected, order))
  }

  /** calculatePlayerAttributes: weapon in hand, then armour, then battle-bag accessories. */
  function PlayerTotals(eq: Equipment, order: AliasOrder): Attrs
  {
    var weapon := if eq.mainHand.Some? && ItemType(eq.mainHand) == Weapon
      then Merge(map[], TypedAttributes(eq.mainHand, Weapon, order)) else map[];
    var withArmour := MergeTyped(weapon, eq.armor, Armour, order);
    match eq.battle
    case BattleFailed => withArmour
    case BattleItems(items) => MergeTyped(withArmour, items, Accessory, order)
  }

  /** parseItemAttributesWithTypeCheck. */
  method ParseItemAttributesWithTypeCheck(item: Option<Item>, expected: string, order: AliasOrder) returns (r: Attrs)
    ensures r == TypedAttributes(item, expected, order)
  {
    var t := GetItemType(item);
    if t != expected {
      return map[];
    }
    r := ParseItemAttributes(item, order);
  }

  lemma {:induction false} TypedAttributesOfNone(expected: string, order: AliasOrder)
    ensures TypedAttributes(None, expected, order) == map[]
  {
  }

  lemma {:induction false} MergeTypedStep(acc: Attrs, items: seq<Option<Item>>, i: nat, expected: string, order: AliasOrder)
    requires i < |items|
    ensures MergeTyped(acc, items[..i + 1], expected, order) == Merge(MergeTyped(acc, items[..i], expected, order), TypedAttributes(items[i], expected, order))
  {
    var prefix := items[..i + 1];
    assert prefix[..i] == items[..i] && prefix[i] == items[i];
  }

  /** One pass of those loops: a present item of the expected type adds its attributes; an empty slot adds nothing. */
  method MergeTypedItem(acc: Attrs, item: Option<Item>, expected: string, order: AliasOrder) returns (r: Attrs)
    ensures r == Merge(acc, TypedAttributes(item, expected, order))
  {
    var parsed: Attrs := map[];
    if item.Some? {
      parsed := ParseItemAttributesWithTypeCheck(item, expected, order);
    } else {
      TypedAttributesOfNone(expected, order);
    }
    r := MergeAttributes(acc, parsed);
  }

  /** The loops of calculatePlayerAttributes over the armour and the battle items. */
  method MergeTypedItems(acc: Attrs, items: seq<Option<Item>>, expected: string, order: AliasOrder) returns (r: Attrs)
    ensures r == MergeTyped(acc, items, expected, order)
  {
    r := acc;
    var i := 0;
    while i < |items|
      invariant 0 <= i <= |items|
      invariant r == MergeTyped(acc, items[..i], expected, order)
    {
      MergeTypedStep(acc, items, i, expected, order);
      r := MergeTypedItem(r, items[i], expected, order);
      i := i + 1;
    }
    assert items[..|items|] == items;
  }

  // ------------------------------------------------------ special attributes

  /** The walk speed and health figures applySpecialAttributes reads and writes. */
  datatype PlayerStats = PlayerStats(walkSpeed: real, maxHealth: real, health: real)

  function Clamp(lo: real, hi: real, x: real): real
  {
    if x < lo then lo else if x > hi then hi else x
  }

  function Abs(x: real): real { if x < 0.0 then -x else x }

  /** applySpecialAttributes: walk speed from `speed`, maximum health from `health`, keeping the health fraction. */
  function SpecialAttributes(stats: PlayerStats, attrs: Attrs): (r: PlayerStats)
    ensures r.walkSpeed == stats.walkSpeed || 0.0 <= r.walkSpeed <= 1.0
    ensures r.maxHealth == stats.maxHealth || 1.0 <= r.maxHealth <= 2048.0
    ensures var target := Clamp(0.0, 1.0, 0.2 + Get(attrs, "speed") / 100.0 * 0.2);
      r.walkSpeed == (if Abs(stats.walkSpeed - target) > 0.01 then target else stats.walkSpeed)
    ensures var target := Clamp(1.0, 2048.0, 20.0 + Get(attrs, "health"));
      Get(attrs, "health") > 0.0 && stats.maxHealth != 0.0 && Abs(stats.maxHealth - target) > 0.1 ==>
        r.maxHealth == target && r.health == target * (stats.health / stats.maxHealth)
    ensures var target := Clamp(1.0, 2048.0, 20.0 + Get(attrs, "health"));
      Abs(stats.maxHealth - target) <= 0.1 ==> r.maxHealth == stats.maxHealth && r.health == stats.health
    ensures Get(attrs, "health") <= 0.0 ==> r.maxHealth == stats.maxHealth && r.health == stats.health
  {
    var newSpeed := Clamp(0.0, 1.0, 0.2 + Get(attrs, "speed") / 100.0 * 0.2);
    var walk := if Abs(stats.walkSpeed - newSpeed) > 0.01 then newSpeed else stats.walkSpeed;
    var health := Get(attrs, "health");
    if health > 0.0 then
      var newMax := Clamp(1.0, 2048.0, 20.0 + health);
      if Abs(stats.maxHealth - newMax) > 0.1 && stats.maxHealth != 0.0 then
        PlayerStats(walk, newMax, newMax * (stats.health / stats.maxHealth))
      else PlayerStats(walk, stats.maxHealth, stats.health)
    else PlayerStats(walk, stats.maxHealth, stats.health)
  }

  // ------------------------------------------------------ the manager

  class AttributeManager {
    /** The iteration order of the alias table's keys, fixed once the table is built. */
    const order: AliasOrder
    /** The cached snapshot per player id. */
    var playerAttributes: map<nat, Attrs>

    constructor (order: AliasOrder)
      ensures this.order == order && playerAttributes == map[]
      ensures multiset(this.order) == multiset(Labels())
    {
      this.order := order;
      playerAttributes := map[];
    }

    /** calculatePlayerAttributes: recompute the totals, replace the cached entry, apply the side effects. */
    method CalculatePlayerAttributes(player: nat, eq: Equipment, stats: PlayerStats) returns (total: Attrs, newStats: PlayerStats)
      modifies this
      ensures total == PlayerTotals(eq, order)
      ensures playerAttributes == old(playerAttributes)[player := total]
      ensures newStats == SpecialAttributes(stats, total)
    {
      total := map[];
      var t := GetItemType(eq.mainHand);
      if eq.mainHand.Some? && t == Weapon {
        var weaponAttrs := ParseItemAttributesWithTypeCheck(eq.mainHand, Weapon, order);
        total := MergeAttributes(total, weaponAttrs);
      }
      total := MergeTypedItems(total, eq.armor, Armour, order);
      if eq.battle.BattleItems? {
        total := MergeTypedItems(total, eq.battle.items, Accessory, order);
      }
      playerAttributes := playerAttributes[player := total];
      newStats := SpecialAttributes(stats, total);
    }

    /** getCachedPlayerAttributes: the cached snapshot, empty for a player without one. */
    function GetCachedPlayerAttributes(player: nat): (r: Attrs)
      reads this
      ensures player !in playerAttributes ==> r == map[]
      ensures player in playerAttributes ==> r == playerAttributes[player]
    {
      if player in playerAttributes then playerAttributes[player] else map[]
    }

    /** getPlayerAttribute: the value under the label's key, or under the raw name when it is no label. */
    function GetPlayerAttribute(player: nat, name: string): (r: real)
      reads this
      ensures AttributeKey(name).Some? ==> r == Get(GetCachedPlayerAttributes(player), AttributeKey(name).value)
      ensures AttributeKey(name).None? ==> r == Get(GetCachedPlayerAttributes(player), name)
    {
      var attrs := GetCachedPlayerAttributes(player);
      match AttributeKey(name)
      case Some(key) => Get(attrs, key)
      case None => Get(attrs, name)
    }

    /** clearPlayerAttributes: forget the player's snapshot. */
    method ClearPlayerAttributes(player: nat)
      modifies this
      ensures playerAttributes == old(playerAttributes) - {player}
    {
      playerAttributes := playerAttributes - {player};
    }

    /** updatePlayerAttributes: a full recomputation. */
    method UpdatePlayerAttributes(player: nat, eq: Equipment, stats: PlayerStats) returns (newStats: PlayerStats)
      modifies this
      ensures playerAttributes == old(playerAttributes)[player := PlayerTotals(eq, order)]
      ensures newStats == SpecialAttributes(stats, PlayerTotals(eq, order))
    {
      var total;
      total, newStats := CalculatePlayerAttributes(player, eq, stats);
    }
  }

  /** isValidAttributeName: the lower-cased name is a label or a key of the table. */
  predicate IsValidAttributeName(name: string)
  {
    IsLabel(ToLower(name)) || IsKey(ToLower(name))
  }
}
