/**
 * What the attribute parser and aggregator promise: a well-formed
 * `name: number` line adds its number under the name's key, repeated
 * labels sum, an unknown name is ignored even when it contains an alias,
 * the alternative format is decided by the first alias the table's order
 * lists, only the table's keys ever reach a snapshot, and the type line
 * gates which slot an item counts in.
 */
module AttributeProperties {
  import opened JavaText
  import opened Bukkit
  import opened AttributeManager

  /** A name the attribute pattern reads whole: not blank-padded, no ':' and no line terminator. */
  predicate PlainLabel(name: string)
  {
    name != [] && Trimmed(name) && ':' !in name &&
    forall i :: 0 <= i < |name| ==> !IsLineTerminator(name[i])
  }

  /** The number a [+-]?\d+(?:\.\d+)? match at the start of `rest` stands for, trimmed and parsed as the matcher's group is. */
  function LeadingNumber(rest: string): Option<real>
  {
    ParseDouble(Trim(rest[..SignedNumberLen(rest)]))
  }

  /** The pattern finds `name: number` with exactly this name and this number. */
  lemma {:induction false} LabelledLineMatch(name: string, rest: string)
    requires PlainLabel(name) && SignedNumberLen(rest) > 0
    ensures FindAttribute(name + ": " + rest, 0).Some?
    ensures FindAttribute(name + ": " + rest, 0).value.0 == 0 && FindAttribute(name + ": " + rest, 0).value.1 == |name|
  {
    var s := name + ": " + rest;
    var K := |name|;
    assert s[K] == ':' && s[K + 1] == ' ' && s[K + 2..] == rest;
    NumberAtMatches(s, K + 2);
    assert LabelChars(s, 0, K) by {
      forall i | 0 <= i < K ensures !IsLineTerminator(s[i]) {
        assert s[i] == name[i];
      }
    }
    assert AttributeMatch(s, 0, K);
    FindAttributeLeftmost(s, 0);
    var found := FindAttribute(s, 0);
    assert found.Some?;
    var (q, k) := found.value;
    assert q == 0;
    assert k == K;
  }

  lemma {:induction false} AttributeLineFound(s: string, attrs: Attrs, order: AliasOrder, k: nat)
    requires FindAttribute(s, 0).Some? && FindAttribute(s, 0).value.0 == 0 && FindAttribute(s, 0).value.1 == k
    ensures AttributeMatch(s, 0, k)
    ensures AttributeLine(s, attrs, order) == MatchedLine(s, 0, k, attrs)
  {
  }

  /** A matched line adds its parsed number text under the key of its trimmed label, when both exist. */
  lemma {:induction false} MatchedLineParts(line: string, k: nat, attrs: Attrs, name: string, number: string)
    requires AttributeMatch(line, 0, k)
    requires Trim(line[0..k]) == name
    requires line[k + 2..k + 2 + SignedNumberLen(line[k + 2..])] == number
    ensures MatchedLine(line, 0, k, attrs) ==
      (if ParseDouble(Trim(number)).Some? && AttributeKey(name).Some?
       then Add(attrs, AttributeKey(name).value, ParseDouble(Trim(number)).value) else attrs)
  {
  }

  /** Whatever precedes it, the number text cut after position `k` is the leading number text of what follows. */
  lemma {:induction false} NumberAfter(line: string, k: nat, rest: string)
    requires k <= |line| && line[k..] == rest
    ensures line[k..k + SignedNumberLen(line[k..])] == rest[..SignedNumberLen(rest)]
  {
    assert line[k..k + SignedNumberLen(rest)] == rest[..SignedNumberLen(rest)];
  }

  /** `name: rest` holds the name before the separator and `rest` after it. */
  lemma {:induction false} LabelledLineParts(name: string, rest: string)
    ensures (name + ": " + rest)[0..|name|] == name
    ensures (name + ": " + rest)[|name| + 2..] == rest
  {
  }

  /**
   * A line `name: number…` adds the number under the name's key; a name
   * the table does not know leaves the snapshot unchanged and the
   * alternative format is not tried.
   */
  lemma {:induction false} LabelledLine(name: string, rest: string, attrs: Attrs, order: AliasOrder)
    requires PlainLabel(name) && SignedNumberLen(rest) > 0
    ensures LeadingNumber(rest).Some?
    ensures AttributeKey(name).Some? ==>
      AttributeLine(name + ": " + rest, attrs, order) == Add(attrs, AttributeKey(name).value, LeadingNumber(rest).value)
    ensures AttributeKey(name).None? ==> AttributeLine(name + ": " + rest, attrs, order) == attrs
  {
    LabelledLineMatch(name, rest);
    SignedNumberParses(rest);
    AttributeLineFound(name + ": " + rest, attrs, order, |name|);
    LabelledLineParts(name, rest);
    LabelledLineMatched(name + ": " + rest, name, rest, attrs);
  }

  /** A matched line made of a plain name, the separator and `rest` adds the leading number of `rest` under the key of the name. */
  lemma {:induction false} LabelledLineMatched(line: string, name: string, rest: string, attrs: Attrs)
    requires PlainLabel(name) && AttributeMatch(line, 0, |name|)
    requires line[0..|name|] == name && line[|name| + 2..] == rest
    ensures MatchedLine(line, 0, |name|, attrs) ==
      (if LeadingNumber(rest).Some? && AttributeKey(name).Some? then Add(attrs, AttributeKey(name).value, LeadingNumber(rest).value) else attrs)
  {
    TrimOfTrimmed(name);
    NumberAfter(line, |name| + 2, rest);
    MatchedLineParts(line, |name|, attrs, name, rest[..SignedNumberLen(rest)]);
  }

  /** A lore line without colour codes and without padding reaches the parser as it is. */
  lemma {:induction false} CleanPlainLine(line: string)
    requires '§' !in line && Trimmed(line)
    ensures CleanLine(line) == line
  {
    StripColorNoSection(line);
    TrimOfTrimmed(line);
  }

  /** A plain `name: number` lore line with nothing after the number. */
  predicate PlainAttributeLine(name: string, number: string)
  {
    PlainLabel(name) && '§' !in name && |number| > 0 && SignedNumberLen(number) == |number|
  }

  lemma {:induction false} PlainAttributeLineClean(name: string, number: string)
    requires PlainAttributeLine(name, number)
    ensures CleanLine(name + ": " + number) == name + ": " + number
  {
    var line := name + ": " + number;
    UnsignedOrSignedEndsInDigit(number);
    assert line[|line| - 1] == number[|number| - 1];
    assert line[0] == name[0];
    assert '§' !in number by {
      if '§' in number {
        var i :| 0 <= i < |number| && number[i] == '§';
        NumberChars(number, i);
      }
    }
    assert '§' !in line;
    CleanPlainLine(line);
  }

  lemma {:induction false} UnsignedOrSignedEndsInDigit(s: string)
    requires SignedNumberLen(s) > 0
    ensures IsDigit(s[SignedNumberLen(s) - 1])
  {
    if IsSign(s[0]) && UnsignedNumberLen(s[1..]) > 0 {
      UnsignedNumberEndsInDigit(s[1..]);
    } else {
      UnsignedNumberEndsInDigit(s);
    }
  }

  /** A number match consists of signs, digits and '.' only. */
  lemma {:induction false} NumberChars(s: string, i: nat)
    requires i < SignedNumberLen(s)
    ensures IsSign(s[i]) || IsDigit(s[i]) || s[i] == '.'
  {
    if IsSign(s[0]) && UnsignedNumberLen(s[1..]) > 0 {
      if i > 0 {
        UnsignedNumberChars(s[1..], i - 1);
      }
    } else {
      UnsignedNumberChars(s, i);
    }
  }

  /** An unsigned number match consists of digits and '.' only. */
  lemma {:induction false} UnsignedNumberChars(u: string, j: nat)
    requires j < UnsignedNumberLen(u)
    ensures IsDigit(u[j]) || u[j] == '.'
  {
    var d := Digits(u);
    if j < d {
      assert IsDigit(u[..d][j]);
    } else if j > d {
      var d2 := Digits(u[d + 1..]);
      assert IsDigit(u[d + 1..][..d2][j - d - 1]);
    }
  }

  /** Two lines with the same known name sum their numbers under its key. */
  lemma {:induction false} RepeatedLabelSums(material: string, name: string, n1: string, n2: string, order: AliasOrder)
    requires PlainAttributeLine(name, n1) && PlainAttributeLine(name, n2)
    requires AttributeKey(name).Some?
    ensures LeadingNumber(n1).Some? && LeadingNumber(n2).Some?
    ensures var r := ItemAttributes(Some(Item(material, [name + ": " + n1, name + ": " + n2])), order);
      r.Keys == {AttributeKey(name).value} &&
      Get(r, AttributeKey(name).value) == LeadingNumber(n1).value + LeadingNumber(n2).value
  {
    var key := AttributeKey(name).value;
    PlainLoreLine(name, n1, map[], order);
    var m1 := Add(map[], key, LeadingNumber(n1).value);
    PlainLoreLine(name, n2, m1, order);
    TwoLines(name + ": " + n1, name + ": " + n2, order);
  }

  /** A plain lore line with a known name adds its number under the name's key. */
  lemma {:induction false} PlainLoreLine(name: string, number: string, attrs: Attrs, order: AliasOrder)
    requires PlainAttributeLine(name, number) && AttributeKey(name).Some?
    ensures LeadingNumber(number).Some?
    ensures LoreLineInto(name + ": " + number, attrs, order) == Add(attrs, AttributeKey(name).value, LeadingNumber(number).value)
  {
    PlainAttributeLineClean(name, number);
    LabelledLine(name, number, attrs, order);
  }

  /** Two lore lines are parsed first to last into an empty snapshot. */
  lemma {:induction false} TwoLines(l1: string, l2: string, order: AliasOrder)
    ensures LinesInto([l1, l2], map[], order) == LoreLineInto(l2, LoreLineInto(l1, map[], order), order)
  {
    var lines := [l1, l2];
    LinesIntoStep(lines, 0, order);
    LinesIntoStep(lines, 1, order);
    assert lines[..2] == lines && lines[..0] == [];
    assert lines[0] == l1 && lines[1] == l2;
  }

  /** A run of digits is a whole unsigned number match. */
  lemma {:induction false} DigitsLen(ds: string)
    requires ds != [] && AllDigits(ds)
    ensures Digits(ds) == |ds| && UnsignedNumberLen(ds) == |ds|
  {
    DigitsOfPrefix(ds, []);
    assert ds + [] == ds;
  }

  /** parseDouble reads a run of digits as its value. */
  lemma {:induction false} DigitsParse(ds: string)
    requires ds != [] && AllDigits(ds)
    ensures ParseUnsigned(ds) == Some(NatValue(ds) as real)
  {
    DigitsLen(ds);
    assert ds[..|ds|] == ds;
    assert ds[|ds|..] == [];
    assert ParseExponent(NatValue(ds) as real, []) == Some(NatValue(ds) as real);
  }

  /** `+ds` for a run of digits ds is a whole number match, and parseDouble reads it as the digits' value. */
  lemma {:induction false} PlusDigitsValue(ds: string)
    requires ds != [] && AllDigits(ds)
    ensures SignedNumberLen("+" + ds) == |ds| + 1
    ensures ParseDouble("+" + ds) == Some(NatValue(ds) as real)
  {
    var t := "+" + ds;
    assert t[0] == '+' && t[1..] == ds;
    DigitsLen(ds);
    DigitsParse(ds);
    assert t[|t| - 1] == ds[|ds| - 1];
    assert Trimmed(t);
    TrimOfTrimmed(t);
    assert ParseTrimmed(t) == Some(NatValue(ds) as real);
  }

  /**
   * `攻击伤害加成` contains the alias `攻击伤害` but is itself no label. The
   * line `攻击伤害加成: 5` matches the primary pattern, so the alternative
   * format that would find the alias is never tried, and the line
   * contributes nothing.
   */
  lemma {:induction false} AliasInsideUnknownLabel(attrs: Attrs, order: AliasOrder)
    ensures Contains("攻击伤害加成", "攻击伤害")
    ensures PlainLabel("攻击伤害加成") && AttributeKey("攻击伤害加成").None?
    ensures FindAttribute("攻击伤害加成" + ": " + "5", 0).Some?
    ensures LoreLineInto("攻击伤害加成" + ": " + "5", attrs, order) == attrs
  {
    UnknownLabelContainsAlias();
    UnknownLabelIsPlain();
    UnknownLabelHasNoKey();
    DigitsLen("5");
    UnknownPlainLoreLine("攻击伤害加成", "5", attrs, order);
  }

  /** A plain lore line whose name the table does not know is matched by the pattern and contributes nothing. */
  lemma {:induction false} UnknownPlainLoreLine(name: string, number: string, attrs: Attrs, order: AliasOrder)
    requires PlainAttributeLine(name, number) && AttributeKey(name).None?
    ensures FindAttribute(name + ": " + number, 0).Some?
    ensures LoreLineInto(name + ": " + number, attrs, order) == attrs
  {
    PlainAttributeLineClean(name, number);
    LabelledLineMatch(name, number);
    LabelledLine(name, number, attrs, order);
  }

  lemma {:induction false} UnknownLabelContainsAlias()
    ensures Contains("攻击伤害加成", "攻击伤害")
  {
    ContainsSelf([], "攻击伤害", "加成");
    assert [] + "攻击伤害" + "加成" == "攻击伤害加成";
  }

  lemma {:induction false} UnknownLabelIsPlain()
    ensures PlainLabel("攻击伤害加成")
  {
  }

  lemma {:induction false} UnknownLabelHasNoKey()
    ensures AttributeKey("攻击伤害加成").None?
  {
    UnknownLabelIsNoLabel();
    ToLowerOfLower("攻击伤害加成");
  }

  // ------------------------------------------------------------ the alternative format

  /**
   * The alternative format is decided by the first alias, in table order,
   * that the line contains: its key receives the line's first number.
   */
  lemma {:induction false} AlternativeFormatFirstAlias(line: string, attrs: Attrs, order: seq<string>, i: nat)
    requires i < |order| && Contains(line, order[i])
    requires forall j :: 0 <= j < i ==> !Contains(line, order[j])
    ensures AlternativeFormat(line, attrs, order) == AddFirstNumber(line, order[i], attrs)
    decreases i
  {
    if i > 0 {
      AlternativeFormatSkip(line, attrs, order);
      assert order[1..][i - 1] == order[i];
      forall j | 0 <= j < i - 1
        ensures !Contains(line, order[1..][j])
      {
        assert order[1..][j] == order[j + 1];
      }
      AlternativeFormatFirstAlias(line, attrs, order[1..], i - 1);
    }
  }

  /** An alias the line does not contain is passed over. */
  lemma {:induction false} AlternativeFormatSkip(line: string, attrs: Attrs, order: seq<string>)
    requires order != [] && !Contains(line, order[0])
    ensures AlternativeFormat(line, attrs, order) == AlternativeFormat(line, attrs, order[1..])
  {
  }

  /** A line containing no alias leaves the snapshot unchanged. */
  lemma {:induction false} AlternativeFormatNoAlias(line: string, attrs: Attrs, order: seq<string>)
    requires forall j :: 0 <= j < |order| ==> !Contains(line, order[j])
    ensures AlternativeFormat(line, attrs, order) == attrs
    decreases |order|
  {
    if order != [] {
      assert !Contains(line, order[0]);
      assert forall j :: 0 <= j < |order| - 1 ==> order[1..][j] == order[j + 1];
      AlternativeFormatNoAlias(line, attrs, order[1..]);
    }
  }

  /** Every entry of an alias order is one of the table's labels, and every label occurs in it. */
  lemma {:induction false} AliasOrderLabels(order: AliasOrder)
    ensures forall i :: 0 <= i < |order| ==> IsLabel(order[i])
    ensures forall j :: 0 <= j < |Aliases| ==> Aliases[j].text in order
  {
    forall i | 0 <= i < |order|
      ensures IsLabel(order[i])
    {
      assert order[i] in multiset(order);
      assert order[i] in multiset(Labels());
      var j :| 0 <= j < |Labels()| && Labels()[j] == order[i];
      LabelInAt(Aliases, order[i], 0, j);
    }
    forall j | 0 <= j < |Aliases|
      ensures Aliases[j].text in order
    {
      assert Labels()[j] == Aliases[j].text;
      assert Aliases[j].text in multiset(Labels());
      assert Aliases[j].text in multiset(order);
    }
  }

  /**
   * A line the primary pattern does not match is read by the first label,
   * in table order, that it contains: that label has a key, and the line's
   * first number is added under it.
   */
  lemma {:induction false} FallbackFirstLabel(line: string, attrs: Attrs, order: AliasOrder, i: nat)
    requires FindAttribute(line, 0).None?
    requires i < |order| && Contains(line, order[i])
    requires forall j :: 0 <= j < i ==> !Contains(line, order[j])
    ensures AttributeKey(order[i]).Some?
    ensures AttributeLine(line, attrs, order) == AddFirstNumber(line, order[i], attrs)
  {
    AliasOrderLabels(order);
    AlternativeFormatFirstAlias(line, attrs, order, i);
  }

  /** A line the primary pattern does not match and that contains none of the table's labels contributes nothing. */
  lemma {:induction false} FallbackNoLabel(line: string, attrs: Attrs, order: AliasOrder)
    requires FindAttribute(line, 0).None?
    requires forall j :: 0 <= j < |Aliases| ==> !Contains(line, Aliases[j].text)
    ensures AttributeLine(line, attrs, order) == attrs
  {
    forall i | 0 <= i < |order|
      ensures !Contains(line, order[i])
    {
      assert order[i] in multiset(order);
      assert order[i] in multiset(Labels());
      var j :| 0 <= j < |Labels()| && Labels()[j] == order[i];
    }
    AlternativeFormatNoAlias(line, attrs, order);
  }

  /** `真实伤害` sits inside `百分比真实伤害`, so for such a line the table order picks trueDamage or finalTrueDamage. */
  lemma {:induction false} OverlappingAliases(line: string)
    requires Contains(line, "百分比真实伤害")
    ensures Contains(line, "真实伤害")
    ensures AttributeKey("真实伤害") == Some("trueDamage") && AttributeKey("百分比真实伤害") == Some("finalTrueDamage")
  {
    var i := ContainsWitness(line, "百分比真实伤害");
    assert line[i + 3..i + 7] == "百分比真实伤害"[3..7];
    assert "百分比真实伤害"[3..7] == "真实伤害";
    ContainsAt(line, "真实伤害", i + 3);
    TrueDamageLabel();
    FinalTrueDamageLabel();
  }

  // ------------------------------------------------------------ keys that reach a snapshot

  predicate KeysWithin(m: Attrs, base: set<string>)
  {
    forall k :: k in m ==> k in base || IsKey(k)
  }

  lemma {:induction false} AlternativeFormatKeys(line: string, attrs: Attrs, order: seq<string>)
    ensures KeysWithin(AlternativeFormat(line, attrs, order), attrs.Keys)
    decreases |order|
  {
    if order != [] && !Contains(line, order[0]) {
      AlternativeFormatKeys(line, attrs, order[1..]);
    }
  }

  lemma {:induction false} AttributeLineKeys(line: string, attrs: Attrs, order: AliasOrder)
    ensures KeysWithin(AttributeLine(line, attrs, order), attrs.Keys)
  {
    if FindAttribute(line, 0).None? {
      AlternativeFormatKeys(line, attrs, order);
    }
  }

  /** Only the table's keys ever enter a snapshot parsed from lore. */
  lemma {:induction false} ParsedKeysCanonical(lines: seq<string>, order: AliasOrder)
    ensures forall k :: k in LinesInto(lines, map[], order) ==> IsKey(k)
    decreases |lines|
  {
    if lines != [] {
      ParsedKeysCanonical(lines[..|lines| - 1], order);
      AttributeLineKeys(CleanLine(lines[|lines| - 1]), LinesInto(lines[..|lines| - 1], map[], order), order);
    }
  }

  lemma {:induction false} MergeTypedKeys(acc: Attrs, items: seq<Option<Item>>, expected: string, order: AliasOrder)
    requires forall k :: k in acc ==> IsKey(k)
    ensures forall k :: k in MergeTyped(acc, items, expected, order) ==> IsKey(k)
    decreases |items|
  {
    if items != [] {
      MergeTypedKeys(acc, items[..|items| - 1], expected, order);
      var item := items[|items| - 1];
      if item.Some? {
        ParsedKeysCanonical(item.value.lore, order);
      }
    }
  }

  /** Every key of a player's totals is one of the table's keys. */
  lemma {:induction false} TotalsKeysCanonical(eq: Equipment, order: AliasOrder)
    ensures forall k :: k in PlayerTotals(eq, order) ==> IsKey(k)
  {
    if eq.mainHand.Some? {
      ParsedKeysCanonical(eq.mainHand.value.lore, order);
    }
    var weapon := if eq.mainHand.Some? && ItemType(eq.mainHand) == Weapon
      then Merge(map[], TypedAttributes(eq.mainHand, Weapon, order)) else map[];
    MergeTypedKeys(weapon, eq.armor, Armour, order);
    if eq.battle.BattleItems? {
      MergeTypedKeys(MergeTyped(weapon, eq.armor, Armour, order), eq.battle.items, Accessory, order);
    }
  }

  /**
   * The keys `speed`, `regen` and `penetration`, which applySpecialAttributes
   * and the damage mitigation read, are never produced: the cached totals
   * never hold them.
   */
  lemma {:induction false} UnreadKeysNeverCached(eq: Equipment, order: AliasOrder)
    ensures "speed" !in PlayerTotals(eq, order)
    ensures "regen" !in PlayerTotals(eq, order)
    ensures "penetration" !in PlayerTotals(eq, order)
  {
    TotalsKeysCanonical(eq, order);
    SpeedIsNoKey();
    RegenIsNoKey();
    PenetrationIsNoKey();
  }

  lemma {:induction false} SpeedIsNoKey()
    ensures !IsKey("speed")
  {
    NotKeyIn(Aliases, "speed", 0);
  }

  lemma {:induction false} RegenIsNoKey()
    ensures !IsKey("regen")
  {
    NotKeyIn(Aliases, "regen", 0);
  }

  lemma {:induction false} PenetrationIsNoKey()
    ensures !IsKey("penetration")
  {
    NotKeyIn(Aliases, "penetration", 0);
  }

  /** Hence the walk speed applySpecialAttributes aims at is always the base 0.2. */
  lemma {:induction false} WalkSpeedAlwaysBase(eq: Equipment, stats: PlayerStats, order: AliasOrder)
    ensures var r := SpecialAttributes(stats, PlayerTotals(eq, order));
      r.walkSpeed == (if Abs(stats.walkSpeed - 0.2) > 0.01 then 0.2 else stats.walkSpeed)
  {
    UnreadKeysNeverCached(eq, order);
  }

  // ------------------------------------------------------------ special attributes

  /** Raising the maximum health keeps the player's health fraction. */
  lemma {:induction false} HealthFractionKept(stats: PlayerStats, attrs: Attrs)
    requires stats.maxHealth > 0.0
    ensures var r := SpecialAttributes(stats, attrs);
      r.maxHealth > 0.0 && r.health / r.maxHealth == stats.health / stats.maxHealth
  {
    var r := SpecialAttributes(stats, attrs);
    if r.maxHealth != stats.maxHealth {
      var f := stats.health / stats.maxHealth;
      assert r.health == r.maxHealth * f;
      assert r.health / r.maxHealth == f;
    }
  }

  // ------------------------------------------------------------ types and slots

  lemma {:induction false} StripTypeLine(c1: char, c2: char, t: string)
    requires IsAnyCaseCodeChar(c1) && IsAnyCaseCodeChar(c2) && '§' !in t
    ensures StripColor(Color(c1) + "类型: " + Color(c2) + t) == "类型: " + t
  {
    assert Color(c1) + "类型: " + Color(c2) + t == Color(c1) + ("类型: " + (Color(c2) + t));
    StripColorCode(c1, "类型: " + (Color(c2) + t));
    StripColorPlain("类型: ", Color(c2) + t);
    StripColorCode(c2, t);
    StripColorNoSection(t);
  }

  lemma {:induction false} TypeOfCleanLine(t: string)
    requires t != [] && Trimmed(t)
    ensures Trim("类型: " + t) == "类型: " + t
    ensures StartsWith("类型: " + t, "类型: ") && Trim(("类型: " + t)[4..]) == t
  {
    var clean := "类型: " + t;
    assert clean[0] == '类' && clean[|clean| - 1] == t[|t| - 1];
    TrimOfTrimmed(clean);
    assert clean[..4] == "类型: ";
    assert clean[4..] == t;
    TrimOfTrimmed(t);
  }

  /** The type line `类型: <t>` (any two colour codes around the prefix) is read back as `t`. */
  lemma {:induction false} TypeLineRead(material: string, c1: char, c2: char, t: string, rest: seq<string>)
    requires IsAnyCaseCodeChar(c1) && IsAnyCaseCodeChar(c2)
    requires t != [] && Trimmed(t) && '§' !in t
    ensures ItemType(Some(Item(material, [Color(c1) + "类型: " + Color(c2) + t] + rest))) == t
  {
    var line := Color(c1) + "类型: " + Color(c2) + t;
    StripTypeLine(c1, c2, t);
    TypeOfCleanLine(t);
    assert CleanLine(line) == "类型: " + t;
    var lines := [line] + rest;
    assert lines[0] == line;
  }

  /** An item without a type line never counts, whatever its attribute lines say. */
  lemma {:induction false} UntypedItemsIgnored(eq: Equipment, order: AliasOrder)
    requires eq.mainHand.Some? && ItemType(eq.mainHand) == ""
    ensures PlayerTotals(eq, order) == PlayerTotals(eq.(mainHand := None), order)
  {
  }

  /** A failed battle-bag lookup keeps the weapon and armour totals. */
  lemma {:induction false} BattleFailureKeepsWeaponAndArmour(eq: Equipment, order: AliasOrder)
    ensures PlayerTotals(eq.(battle := BattleFailed), order) == PlayerTotals(eq.(battle := BattleItems([])), order)
  {
  }

  /** isValidAttributeName lower-cases first, so a camel-case key such as moveSpeed is rejected. */
  lemma {:induction false} CamelCaseKeyRejected()
    ensures !IsValidAttributeName("moveSpeed")
  {
    LowerMoveSpeed();
    MoveSpeedLowerIsNoLabel();
    MoveSpeedLowerIsNoKey();
  }

  /** critDamage passes only because its lower case is one of the table's labels. */
  lemma {:induction false} CritDamageAccepted()
    ensures IsValidAttributeName("critDamage")
  {
    LowerCritDamage();
    CritDamageLowerIsLabel();
  }

  // ------------------------------------------------------------ single facts about the table

  lemma {:induction false} LowerMoveSpeed()
    ensures ToLower("moveSpeed") == "movespeed"
  {
    ToLowerOneChar("move", 'S', "peed");
    assert "move" + ['S'] + "peed" == "moveSpeed";
    assert "move" + ['s'] + "peed" == "movespeed";
  }

  lemma {:induction false} LowerCritDamage()
    ensures ToLower("critDamage") == "critdamage"
  {
    ToLowerOneChar("crit", 'D', "amage");
    assert "crit" + ['D'] + "amage" == "critDamage";
    assert "crit" + ['d'] + "amage" == "critdamage";
  }

  lemma {:induction false} DamageLabel()
    ensures AttributeKey("攻击伤害") == Some("damage")
  {
    LookupInFirst(Aliases, "攻击伤害", 0, 0);
  }

  lemma {:induction false} TrueDamageLabel()
    ensures AttributeKey("真实伤害") == Some("trueDamage")
  {
    LookupInFirst(Aliases, "真实伤害", 0, 17);
  }

  lemma {:induction false} FinalTrueDamageLabel()
    ensures AttributeKey("百分比真实伤害") == Some("finalTrueDamage")
  {
    LookupInFirst(Aliases, "百分比真实伤害", 0, 24);
  }

  lemma {:induction false} UnknownLabelIsNoLabel()
    ensures !IsLabel("攻击伤害加成")
  {
    NotLabelIn(Aliases, "攻击伤害加成", 0);
  }

  lemma {:induction false} MoveSpeedLowerIsNoLabel()
    ensures !IsLabel("movespeed")
  {
    NotLabelIn(Aliases, "movespeed", 0);
  }

  lemma {:induction false} MoveSpeedLowerIsNoKey()
    ensures !IsKey("movespeed")
  {
    NotKeyIn(Aliases, "movespeed", 0);
  }

  lemma {:induction false} CritDamageLowerIsLabel()
    ensures IsLabel("critdamage")
  {
    LabelInAt(Aliases, "critdamage", 0, 31);
  }
}
