/**
 * EquipmentRestrictionManager: the three rules that keep an item from
 * being equipped, decided from the colour-stripped lore of the target
 * item and of the items already equipped. The rule sets are read from a
 * YAML file in the plugin; here they are a value of their own.
 */
module Restrictions {
  import opened JavaText
  import opened Bukkit

  /**
   * The loaded rules: named conflict groups (lore fragments that may not
   * be worn together), exclusive lore fragments and prerequisite lore
   * fragments.
   */
  datatype Rules = Rules(conflictGroups: map<string, set<string>>, exclusive: set<string>, prerequisite: set<string>)

  /** A lore line with the lower-case colour codes removed, then trimmed. */
  function Cleaned(line: string): string
  {
    Trim(StripCodes(line))
  }

  /** extractLoreTexts: empty for a missing item, otherwise the cleaned lines of its lore. */
  function LoreTexts(item: Option<Item>): (r: set<string>)
    ensures item.None? ==> r == {}
    ensures item.Some? ==> forall i :: 0 <= i < |item.value.lore| ==> Cleaned(item.value.lore[i]) in r
    ensures item.Some? ==> forall t | t in r :: exists i :: 0 <= i < |item.value.lore| && Cleaned(item.value.lore[i]) == t
  {
    match item
    case None => {}
    case Some(it) => set i | 0 <= i < |it.lore| :: Cleaned(it.lore[i])
  }

  /** Some text of `texts` contains `fragment`. */
  predicate Mentions(texts: set<string>, fragment: string)
  {
    exists t | t in texts :: Contains(t, fragment)
  }

  /** hasLore: some cleaned line of the item contains `target`. */
  predicate CarriesLore(item: Option<Item>, target: string)
  {
    Mentions(LoreTexts(item), target)
  }

  /** Some text of `texts` contains some member of `group`. */
  predicate InGroup(texts: set<string>, group: set<string>)
  {
    exists g | g in group :: Mentions(texts, g)
  }

  /** The equipped entries the checks look at: present and not equal to the target. */
  predicate Other(equipped: Option<Item>, target: Option<Item>)
  {
    equipped.Some? && equipped != target
  }

  /** Some other equipped item has a line containing a member of `group`. */
  predicate OtherInGroup(equipped: seq<Option<Item>>, target: Option<Item>, group: set<string>)
  {
    exists i | 0 <= i < |equipped| :: Other(equipped[i], target) && InGroup(LoreTexts(equipped[i]), group)
  }

  /** Some other equipped item carries `fragment`. */
  predicate OtherCarries(equipped: seq<Option<Item>>, target: Option<Item>, fragment: string)
  {
    exists i | 0 <= i < |equipped| :: Other(equipped[i], target) && CarriesLore(equipped[i], fragment)
  }

  /**
   * hasConflictRestriction: some conflict group has a member in a line of
   * the target and a member in a line of another equipped item.
   */
  predicate HasConflict(rules: Rules, equipped: seq<Option<Item>>, target: Option<Item>)
  {
    exists name | name in rules.conflictGroups ::
      InGroup(LoreTexts(target), rules.conflictGroups[name]) &&
      OtherInGroup(equipped, target, rules.conflictGroups[name])
  }

  /** The exclusive fragments carried by the other equipped items. */
  function EquippedExclusive(rules: Rules, equipped: seq<Option<Item>>, target: Option<Item>): (r: set<string>)
    ensures r <= rules.exclusive
    ensures equipped == [] ==> r == {}
  {
    set x | x in rules.exclusive && OtherCarries(equipped, target, x)
  }

  /**
   * hasExclusiveRestriction: false when no other equipped item carries an
   * exclusive fragment; otherwise true iff the target lacks one of them.
   */
  predicate HasExclusive(rules: Rules, equipped: seq<Option<Item>>, target: Option<Item>)
  {
    var worn := EquippedExclusive(rules, equipped, target);
    if worn == {} then false
    else exists x | x in worn :: !CarriesLore(target, x)
  }

  /**
   * hasPrerequisiteRestriction: the target carries a prerequisite fragment
   * that no other equipped item carries.
   */
  predicate HasPrerequisite(rules: Rules, equipped: seq<Option<Item>>, target: Option<Item>)
  {
    exists p | p in rules.prerequisite :: CarriesLore(target, p) && !OtherCarries(equipped, target, p)
  }

  /** isRestricted: never for a missing target, otherwise any of the three rules. */
  predicate IsRestricted(rules: Rules, equipped: seq<Option<Item>>, target: Option<Item>)
    ensures target.None? ==> !IsRestricted(rules, equipped, target)
  {
    target.Some? &&
    (HasConflict(rules, equipped, target) || HasExclusive(rules, equipped, target) || HasPrerequisite(rules, equipped, target))
  }

  // ------------------------------------------------------------ lemmas

  /** hasLore reads the item's own lines: some line, once cleaned, contains the fragment. */
  lemma {:induction false} CarriesLoreLines(item: Option<Item>, target: string)
    ensures CarriesLore(item, target) <==>
      item.Some? && exists i :: 0 <= i < |item.value.lore| && Contains(Cleaned(item.value.lore[i]), target)
  {
    if item.Some? {
      var lore := item.value.lore;
      if CarriesLore(item, target) {
        var t :| t in LoreTexts(item) && Contains(t, target);
        var i :| 0 <= i < |lore| && Cleaned(lore[i]) == t;
        assert Contains(Cleaned(lore[i]), target);
      }
      if exists i :: 0 <= i < |lore| && Contains(Cleaned(lore[i]), target) {
        var i :| 0 <= i < |lore| && Contains(Cleaned(lore[i]), target);
        assert Cleaned(lore[i]) in LoreTexts(item);
      }
    }
  }

  /** With every rule set empty, nothing is restricted. */
  lemma {:induction false} NoRulesNoRestriction(equipped: seq<Option<Item>>, target: Option<Item>)
    ensures !IsRestricted(Rules(map[], {}, {}), equipped, target)
  {
    assert EquippedExclusive(Rules(map[], {}, {}), equipped, target) == {};
  }

  /**
   * With nothing equipped, conflict and exclusive never hold, and the
   * prerequisite rule holds exactly when the target carries a
   * prerequisite fragment.
   */
  lemma {:induction false} NothingEquipped(rules: Rules, target: Option<Item>)
    ensures !HasConflict(rules, [], target)
    ensures !HasExclusive(rules, [], target)
    ensures HasPrerequisite(rules, [], target) <==> exists p | p in rules.prerequisite :: CarriesLore(target, p)
  {
    if HasPrerequisite(rules, [], target) {
      var p :| p in rules.prerequisite && CarriesLore(target, p);
    }
    if exists p | p in rules.prerequisite :: CarriesLore(target, p) {
      var p :| p in rules.prerequisite && CarriesLore(target, p);
      assert !OtherCarries([], target, p);
    }
  }

  /**
   * The exclusive rule, flattened: it holds iff some exclusive fragment is
   * carried by another equipped item and not by the target.
   */
  lemma {:induction false} ExclusiveViolated(rules: Rules, equipped: seq<Option<Item>>, target: Option<Item>)
    ensures HasExclusive(rules, equipped, target) <==>
      exists x | x in rules.exclusive :: OtherCarries(equipped, target, x) && !CarriesLore(target, x)
  {
    var worn := EquippedExclusive(rules, equipped, target);
    if HasExclusive(rules, equipped, target) {
      var x :| x in worn && !CarriesLore(target, x);
      assert x in rules.exclusive && OtherCarries(equipped, target, x);
    }
    if exists x | x in rules.exclusive :: OtherCarries(equipped, target, x) && !CarriesLore(target, x) {
      var x :| x in rules.exclusive && OtherCarries(equipped, target, x) && !CarriesLore(target, x);
      assert x in worn;
      assert worn != {};
    }
  }

  /**
   * A conflict goes both ways: if item `b` conflicts with equipped item
   * `a`, then `a` conflicts with `b` once `b` is equipped.
   */
  lemma {:induction false} ConflictSymmetric(rules: Rules, a: Item, b: Item)
    requires HasConflict(rules, [Some(a)], Some(b))
    ensures HasConflict(rules, [Some(b)], Some(a))
  {
    var name :| name in rules.conflictGroups &&
      InGroup(LoreTexts(Some(b)), rules.conflictGroups[name]) &&
      OtherInGroup([Some(a)], Some(b), rules.conflictGroups[name]);
    var i :| 0 <= i < 1 && Other([Some(a)][i], Some(b)) && InGroup(LoreTexts([Some(a)][i]), rules.conflictGroups[name]);
    assert Other([Some(b)][0], Some(a)) && InGroup(LoreTexts([Some(b)][0]), rules.conflictGroups[name]);
  }

  /**
   * The same group member on both items is a conflict: a fragment of a
   * group appearing on the target and on another equipped item is enough,
   * even when no second member of the group is involved.
   */
  lemma {:induction false} SameFragmentConflicts(rules: Rules, name: string, g: string, a: Item, b: Item, i: nat, j: nat)
    requires name in rules.conflictGroups && g in rules.conflictGroups[name]
    requires a != b
    requires i < |a.lore| && Contains(Cleaned(a.lore[i]), g)
    requires j < |b.lore| && Contains(Cleaned(b.lore[j]), g)
    ensures HasConflict(rules, [Some(b)], Some(a))
  {
    var group := rules.conflictGroups[name];
    assert Cleaned(a.lore[i]) in LoreTexts(Some(a));
    assert Cleaned(b.lore[j]) in LoreTexts(Some(b));
    assert InGroup(LoreTexts(Some(a)), group);
    assert Other([Some(b)][0], Some(a)) && InGroup(LoreTexts([Some(b)][0]), group);
    assert OtherInGroup([Some(b)], Some(a), group);
  }

  /** An entry that is a copy of the target or empty adds no other item to a group. */
  lemma {:induction false} OtherInGroupExtra(equipped: seq<Option<Item>>, target: Option<Item>, extra: Option<Item>, group: set<string>)
    requires extra == target || extra.None?
    ensures OtherInGroup(equipped + [extra], target, group) == OtherInGroup(equipped, target, group)
  {
    var more := equipped + [extra];
    if OtherInGroup(more, target, group) {
      var i :| 0 <= i < |more| && Other(more[i], target) && InGroup(LoreTexts(more[i]), group);
      assert i < |equipped| && more[i] == equipped[i];
    }
    if OtherInGroup(equipped, target, group) {
      var i :| 0 <= i < |equipped| && Other(equipped[i], target) && InGroup(LoreTexts(equipped[i]), group);
      assert more[i] == equipped[i];
    }
  }

  /** An entry that is a copy of the target or empty adds no other carrier of a fragment. */
  lemma {:induction false} OtherCarriesExtra(equipped: seq<Option<Item>>, target: Option<Item>, extra: Option<Item>, x: string)
    requires extra == target || extra.None?
    ensures OtherCarries(equipped + [extra], target, x) == OtherCarries(equipped, target, x)
  {
    var more := equipped + [extra];
    if OtherCarries(more, target, x) {
      var i :| 0 <= i < |more| && Other(more[i], target) && CarriesLore(more[i], x);
      assert i < |equipped| && more[i] == equipped[i];
    }
    if OtherCarries(equipped, target, x) {
      var i :| 0 <= i < |equipped| && Other(equipped[i], target) && CarriesLore(equipped[i], x);
      assert more[i] == equipped[i];
    }
  }

  /**
   * Copies of the target and empty entries in the equipped list change
   * none of the three rules.
   */
  lemma {:induction false} SkipsTargetAndEmpty(rules: Rules, equipped: seq<Option<Item>>, target: Option<Item>, extra: Option<Item>)
    requires extra == target || extra.None?
    ensures HasConflict(rules, equipped + [extra], target) == HasConflict(rules, equipped, target)
    ensures HasExclusive(rules, equipped + [extra], target) == HasExclusive(rules, equipped, target)
    ensures HasPrerequisite(rules, equipped + [extra], target) == HasPrerequisite(rules, equipped, target)
  {
    var more := equipped + [extra];
    forall group: set<string>
      ensures OtherInGroup(more, target, group) == OtherInGroup(equipped, target, group)
    {
      OtherInGroupExtra(equipped, target, extra, group);
    }
    forall x: string
      ensures OtherCarries(more, target, x) == OtherCarries(equipped, target, x)
    {
      OtherCarriesExtra(equipped, target, extra, x);
    }
    assert EquippedExclusive(rules, more, target) == EquippedExclusive(rules, equipped, target);
  }
}
