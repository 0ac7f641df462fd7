/**
 * CombatListener: the damage pipeline run on every entity-damage event.
 * A hit by a player (or by a Flans bullet whose shooter is known) goes
 * through base replacement, flat bonuses, crit, true damage and the two
 * percentage stages; a player defender then gets dodge, block, armour
 * mitigation with penetration and retaliation; afterwards come lifesteal,
 * weaken and an area splash. While a splash is being dealt a re-entrancy
 * flag cuts every splash sub-hit down to the defender-side stages.
 *
 * Every `random.nextDouble() * 100` is an input roll in [0, 100); a roll
 * succeeds when it is below the chance. Distances are inputs.
 */
module CombatListener {
  import opened JavaText
  import opened AttributeManager

  /** One value of `random.nextDouble() * 100`. */
  type Roll = r: real | 0.0 <= r < 100.0

  /** A chance check: the roll falls below the chance (in percent). */
  predicate Chance(roll: Roll, chance: real) { roll < chance }

  /** The rolls one event handler may consume, one per check. */
  datatype Rolls = Rolls(crit: Roll, dodge: Roll, block: Roll, injury: Roll, weaken: Roll)

  /** A distance between two locations. */
  type Distance = d: real | d >= 0.0

  datatype EntityKind = PlayerKind | MobKind | ObjectKind

  /** An entity: players and mobs are living, objects (item frames, arrows, ...) are not. */
  datatype Entity = Entity(id: nat, kind: EntityKind)

  predicate IsLiving(e: Entity) { e.kind != ObjectKind }

  /**
   * What caused the damage: a player, a Flans bullet (its shooter when it
   * can be resolved, and the attributes of the Flans gun the shooter holds),
   * any other entity, or nothing (a plain damage event).
   */
  datatype Damager = PlayerDamager(id: nat) | FlansBullet(shooter: Option<nat>, gun: Attrs) | OtherDamager | NoDamager

  datatype DamageEvent = DamageEvent(damager: Damager, target: Entity, damage: real, cancelled: bool)

  /** The attacker's health when lifesteal is applied. */
  datatype Vitals = Vitals(health: real, maxHealth: real)

  /** A scheduled area splash: who caused it, around which entity, from what damage. */
  datatype Splash = Splash(attacker: nat, primary: Entity, damage: real, aoeDamage: real, aoeRange: real)

  /**
   * The side effects of a hit: damage reflected to the attacker, the
   * attacker's new health after lifesteal, whether weakness is applied and
   * the splash scheduled for the next tick.
   */
  datatype Effects = Effects(reflected: Option<real>, healedTo: Option<real>, weakened: bool, splash: Option<Splash>)

  const NoEffects: Effects := Effects(None, None, false, None)

  /** What a handler does to the event: nothing, cancel it, or set its damage (with side effects). */
  datatype Outcome = Untouched | Cancelled | Damaged(damage: real, effects: Effects)

  function Min(a: real, b: real): real { if a <= b then a else b }

  function Max(a: real, b: real): real { if a >= b then a else b }

  // ------------------------------------------------------ the attacker

  /** The attacking player: a player damager, or the resolved shooter of a Flans bullet. */
  function AttackerOf(d: Damager): Option<nat>
  {
    match d
    case PlayerDamager(id) => Some(id)
    case FlansBullet(shooter, _) => shooter
    case OtherDamager => None
    case NoDamager => None
  }

  /** The weapon attributes merged into the attacker's: those of the gun behind a bullet, none otherwise. */
  function WeaponAttrs(d: Damager): Attrs
  {
    if d.FlansBullet? then d.gun else map[]
  }

  /** The keys mergeWeaponAttributes merges by maximum rather than by sum. */
  predicate KeepsMax(key: string)
  {
    key == "crit" || key == "critDamage" || key == "armorPiercing" || key == "lifeSteal"
  }

  /** mergeWeaponAttributes: the weapon's value is added in, or taken when larger for the KeepsMax keys. */
  function MergeWeapon(player: Attrs, weapon: Attrs): (r: Attrs)
    ensures r.Keys == player.Keys + weapon.Keys
  {
    map k | k in player.Keys + weapon.Keys :: MergedValue(player, weapon, k)
  }

  /** The value mergeWeaponAttributes leaves under a key the player or the weapon has. */
  function MergedValue(player: Attrs, weapon: Attrs, k: string): real
  {
    if k !in weapon then Get(player, k)
    else if KeepsMax(k) then Max(Get(player, k), weapon[k])
    else Get(player, k) + weapon[k]
  }

  /** Each key of the merge: the player's value when the weapon lacks it, else the maximum or the sum. */
  lemma {:induction false} MergeWeaponValue(player: Attrs, weapon: Attrs, k: string)
    ensures k !in weapon ==> Get(MergeWeapon(player, weapon), k) == Get(player, k)
    ensures k in weapon && KeepsMax(k) ==> Get(MergeWeapon(player, weapon), k) == Max(Get(player, k), weapon[k])
    ensures k in weapon && !KeepsMax(k) ==> Get(MergeWeapon(player, weapon), k) == Get(player, k) + weapon[k]
  {
  }

  /** The loop of mergeWeaponAttributes over the weapon's entries. */
  method MergeWeaponAttributes(player: Attrs, weapon: Attrs) returns (r: Attrs)
    ensures r == MergeWeapon(player, weapon)
  {
    r := player;
    var pending := weapon.Keys;
    while pending != {}
      invariant pending <= weapon.Keys
      invariant r.Keys == player.Keys + (weapon.Keys - pending)
      invariant forall k :: k in r ==> r[k] == (if k in weapon && k !in pending then MergedValue(player, weapon, k) else player[k])
      decreases pending
    {
      var k :| k in pending;
      if KeepsMax(k) {
        r := r[k := Max(Get(r, k), weapon[k])];
      } else {
        r := r[k := Get(r, k) + weapon[k]];
      }
      pending := pending - {k};
    }
  }

  /** Without any KeepsMax key in the weapon, the merge is the plain keywise sum. */
  lemma {:induction false} MergeWeaponIsSum(player: Attrs, weapon: Attrs)
    requires forall k :: k in weapon ==> !KeepsMax(k)
    ensures MergeWeapon(player, weapon) == Merge(player, weapon)
  {
    var a := MergeWeapon(player, weapon);
    var b := Merge(player, weapon);
    forall k | k in a.Keys
      ensures a[k] == b[k]
    {
      MergeWeaponValue(player, weapon, k);
      assert Get(a, k) == Get(b, k);
    }
  }

  /** The KeepsMax keys never drop below the player's own value, and the summed keys never change by more than the weapon's value. */
  lemma {:induction false} MergeWeaponKeepsPlayerMax(player: Attrs, weapon: Attrs, k: string)
    requires KeepsMax(k)
    ensures Get(MergeWeapon(player, weapon), k) >= Get(player, k)
    ensures k in weapon ==> Get(MergeWeapon(player, weapon), k) >= weapon[k]
  {
    MergeWeaponValue(player, weapon, k);
  }

  // ------------------------------------------------------ the attack

  /** The base the formula starts from: the event's damage, or 0 when the `damage` attribute is set. */
  function WeaponBase(eventDamage: real, combined: Attrs): (r: real)
    ensures Get(combined, "damage") > 0.0 ==> r == 0.0
    ensures Get(combined, "damage") <= 0.0 ==> r == eventDamage
  {
    if Get(combined, "damage") > 0.0 then 0.0 else eventDamage
  }

  /** The flat stage: base, `damage` and `sumDamage`, and `mobDamage` against a non-player. */
  function Flat(base: real, attrs: Attrs, target: Entity): real
  {
    base + Get(attrs, "damage") + Get(attrs, "sumDamage") + (if target.kind != PlayerKind then Get(attrs, "mobDamage") else 0.0)
  }

  /** The crit stage: a crit multiplies by 1 + critDamage/100. */
  function Crit(x: real, attrs: Attrs, isCrit: bool): real
  {
    if isCrit then x * (1.0 + Get(attrs, "critDamage") / 100.0) else x
  }

  /** The percentage stage: a positive `finalDamage` multiplies by 1 + finalDamage/100. */
  function Percent(x: real, attrs: Attrs): real
  {
    var percent := Get(attrs, "finalDamage");
    if percent > 0.0 then x * (1.0 + percent / 100.0) else x
  }

  /** The last stage: a positive `finalTrueDamage` adds that percentage of the base. */
  function PercentTrue(x: real, base: real, attrs: Attrs): real
  {
    var percent := Get(attrs, "finalTrueDamage");
    if percent > 0.0 then x + base * percent / 100.0 else x
  }

  /**
   * calculateDamageWithTarget: flat bonuses, crit, true damage, percentage
   * damage, then the percentage of the base as true damage, in that order.
   */
  function DamageWithTarget(base: real, attrs: Attrs, target: Entity, critRoll: Roll): real
  {
    var crit := Crit(Flat(base, attrs, target), attrs, Chance(critRoll, Get(attrs, "crit")));
    PercentTrue(Percent(crit + Get(attrs, "trueDamage"), attrs), base, attrs)
  }

  lemma {:induction false} ScaleUp(x: real, y: real, f: real)
    requires x <= y && f >= 0.0
    ensures x * f <= y * f
  {
    assert y * f - x * f == (y - x) * f;
  }

  /** The percentage stage preserves order. */
  lemma {:induction false} PercentMonotone(x: real, y: real, attrs: Attrs)
    requires x <= y
    ensures Percent(x, attrs) <= Percent(y, attrs)
  {
    var percent := Get(attrs, "finalDamage");
    if percent > 0.0 {
      ScaleUp(x, y, 1.0 + percent / 100.0);
    }
  }

  /** A crit with non-negative critDamage never lowers a non-negative damage. */
  lemma {:induction false} CritRaises(x: real, attrs: Attrs)
    requires x >= 0.0 && Get(attrs, "critDamage") >= 0.0
    ensures Crit(x, attrs, true) >= Crit(x, attrs, false)
  {
    ScaleUp(1.0, 1.0 + Get(attrs, "critDamage") / 100.0, x);
  }

  /** The keys the attack formula adds or multiplies by are all non-negative. */
  predicate NoNegativeDamageKeys(attrs: Attrs)
  {
    Get(attrs, "damage") >= 0.0 && Get(attrs, "sumDamage") >= 0.0 && Get(attrs, "mobDamage") >= 0.0
    && Get(attrs, "critDamage") >= 0.0 && Get(attrs, "trueDamage") >= 0.0
  }

  /** Non-negative attributes never bring the damage below the base. */
  lemma {:induction false} DamageAtLeastBase(base: real, attrs: Attrs, target: Entity, critRoll: Roll)
    requires base >= 0.0 && NoNegativeDamageKeys(attrs)
    ensures DamageWithTarget(base, attrs, target, critRoll) >= base
  {
    var flat := Flat(base, attrs, target);
    CritRaises(flat, attrs);
    var crit := Crit(flat, attrs, Chance(critRoll, Get(attrs, "crit")));
    PercentMonotone(base, crit + Get(attrs, "trueDamage"), attrs);
    PercentMonotone(0.0, base, attrs);
    if Get(attrs, "finalTrueDamage") > 0.0 {
      ScaleUp(0.0, base, Get(attrs, "finalTrueDamage") / 100.0);
    }
  }

  /** With no attributes the formula passes the base through. */
  lemma {:induction false} DamageWithoutAttributes(base: real, target: Entity, critRoll: Roll)
    ensures DamageWithTarget(base, map[], target, critRoll) == base
  {
  }

  /** damage 10, crit 100 and critDamage 50 (with the base replaced by 0) always give 15. */
  lemma {:induction false} CritWorkedExample(target: Entity, critRoll: Roll)
    requires target.kind == PlayerKind
    ensures DamageWithTarget(0.0, map["damage" := 10.0, "crit" := 100.0, "critDamage" := 50.0], target, critRoll) == 15.0
  {
    var attrs := map["damage" := 10.0, "crit" := 100.0, "critDamage" := 50.0];
    assert Get(attrs, "damage") == 10.0;
    assert Get(attrs, "sumDamage") == 0.0;
    assert Get(attrs, "crit") == 100.0;
    assert Get(attrs, "critDamage") == 50.0;
    assert Get(attrs, "trueDamage") == 0.0;
    assert Get(attrs, "finalDamage") == 0.0;
    assert Get(attrs, "finalTrueDamage") == 0.0;
  }

  /** A crit never lowers the damage when critDamage and the flat part are non-negative. */
  lemma {:induction false} CritNeverLowers(base: real, attrs: Attrs, target: Entity, hit: Roll, miss: Roll)
    requires Chance(hit, Get(attrs, "crit")) && !Chance(miss, Get(attrs, "crit"))
    requires base >= 0.0 && NoNegativeDamageKeys(attrs)
    ensures DamageWithTarget(base, attrs, target, hit) >= DamageWithTarget(base, attrs, target, miss)
  {
    var flat := Flat(base, attrs, target);
    CritRaises(flat, attrs);
    PercentMonotone(Crit(flat, attrs, false) + Get(attrs, "trueDamage"), Crit(flat, attrs, true) + Get(attrs, "trueDamage"), attrs);
  }

  // ------------------------------------------------------ the defender

  /** applyDamageReductionWithPenetration: armour less the attacker's `penetration` (not below 0) plus true armour, capped at 75%. */
  function Mitigate(damage: real, victim: Attrs, attacker: Attrs): real
  {
    damage * (1.0 - Reduction(Max(0.0, Get(victim, "armor") - Get(attacker, "penetration")), Get(victim, "trueArmor")))
  }

  /** The share of the damage armour takes away: at most 75%. */
  function Reduction(armor: real, trueArmor: real): (r: real)
    ensures r <= 0.75
    ensures armor + trueArmor >= 0.0 ==> r >= 0.0
  {
    Min((armor + trueArmor) / 100.0, 0.75)
  }

  /** Mitigation always lets at least a quarter through, and never adds damage when true armour is not negative. */
  lemma {:induction false} MitigateBounds(damage: real, victim: Attrs, attacker: Attrs)
    requires damage >= 0.0
    ensures Mitigate(damage, victim, attacker) >= 0.25 * damage
    ensures Get(victim, "trueArmor") >= 0.0 ==> Mitigate(damage, victim, attacker) <= damage
  {
    var red := Reduction(Max(0.0, Get(victim, "armor") - Get(attacker, "penetration")), Get(victim, "trueArmor"));
    ScaleMonotone(damage, 0.75, red);
    if Get(victim, "trueArmor") >= 0.0 {
      ScaleMonotone(damage, red, 0.0);
    }
  }

  /** applyDamageReduction: armour plus true armour, capped at 75%, with no penetration. */
  function Reduce(damage: real, victim: Attrs): real
  {
    damage * (1.0 - Reduction(Get(victim, "armor"), Get(victim, "trueArmor")))
  }

  /** The plain reduction also lets at least a quarter through, and adds nothing when armour and true armour sum to at least 0. */
  lemma {:induction false} ReduceBounds(damage: real, victim: Attrs)
    requires damage >= 0.0
    ensures Reduce(damage, victim) >= 0.25 * damage
    ensures Get(victim, "armor") + Get(victim, "trueArmor") >= 0.0 ==> Reduce(damage, victim) <= damage
  {
    var red := Reduction(Get(victim, "armor"), Get(victim, "trueArmor"));
    ScaleMonotone(damage, 0.75, red);
    if Get(victim, "armor") + Get(victim, "trueArmor") >= 0.0 {
      ScaleMonotone(damage, red, 0.0);
    }
  }

  /** For non-negative armour, the plain reduction is the penetrating one against an attacker without penetration. */
  lemma {:induction false} ReduceWithoutPenetration(damage: real, victim: Attrs)
    requires Get(victim, "armor") >= 0.0
    ensures Reduce(damage, victim) == Mitigate(damage, victim, map[])
  {
  }

  /** armour 50 against penetration 20 leaves 70% of the damage. */
  lemma {:induction false} PenetrationExample(damage: real)
    ensures Mitigate(damage, map["armor" := 50.0], map["penetration" := 20.0]) == 0.7 * damage
  {
    assert Get(map["armor" := 50.0], "trueArmor") == 0.0;
  }

  /** armour 200 hits the 75% cap. */
  lemma {:induction false} ArmourCapExample(damage: real)
    ensures Mitigate(damage, map["armor" := 200.0], map[]) == 0.25 * damage
  {
    assert Get(map["armor" := 200.0], "trueArmor") == 0.0;
  }

  /** More penetration never lets less damage through. */
  lemma {:induction false} PenetrationMonotone(damage: real, victim: Attrs, weak: Attrs, strong: Attrs)
    requires damage >= 0.0
    requires Get(weak, "penetration") <= Get(strong, "penetration")
    ensures Mitigate(damage, victim, weak) <= Mitigate(damage, victim, strong)
  {
    var t := Get(victim, "trueArmor");
    var r1 := Reduction(Max(0.0, Get(victim, "armor") - Get(weak, "penetration")), t);
    var r2 := Reduction(Max(0.0, Get(victim, "armor") - Get(strong, "penetration")), t);
    ReductionMonotone(Max(0.0, Get(victim, "armor") - Get(strong, "penetration")), Max(0.0, Get(victim, "armor") - Get(weak, "penetration")), t);
    ScaleMonotone(damage, r1, r2);
  }

  lemma {:induction false} ReductionMonotone(low: real, high: real, trueArmor: real)
    requires low <= high
    ensures Reduction(low, trueArmor) <= Reduction(high, trueArmor)
  {
  }

  lemma {:induction false} ScaleMonotone(damage: real, r1: real, r2: real)
    requires damage >= 0.0 && r2 <= r1
    ensures damage * (1.0 - r1) <= damage * (1.0 - r2)
  {
    assert damage * (1.0 - r2) - damage * (1.0 - r1) == damage * (r1 - r2);
  }

  /** The parser's `armorBreak` key plays no part in mitigation: only `penetration` is read. */
  lemma {:induction false} ArmorBreakIgnored(damage: real, victim: Attrs, attacker: Attrs, x: real)
    ensures Mitigate(damage, victim, attacker["armorBreak" := x]) == Mitigate(damage, victim, attacker)
  {
    assert Get(attacker["armorBreak" := x], "penetration") == Get(attacker, "penetration");
  }

  /** A block halves the damage. */
  function Blocked(damage: real, victim: Attrs, roll: Roll): (r: real)
    ensures Chance(roll, Get(victim, "block")) ==> r == damage * 0.5
    ensures !Chance(roll, Get(victim, "block")) ==> r == damage
  {
    if Chance(roll, Get(victim, "block")) then damage * 0.5 else damage
  }

  /** handleInjury: on a successful injury roll a tenth of the mitigated damage goes back to the attacker. */
  function Injury(damage: real, victim: Attrs, roll: Roll): (r: Option<real>)
    ensures r.Some? <==> Chance(roll, Get(victim, "injury"))
    ensures r.Some? ==> r.value * 10.0 == damage
    ensures r.Some? && damage >= 0.0 ==> 0.0 <= r.value <= damage
  {
    if Chance(roll, Get(victim, "injury")) then Some(damage * 0.1) else None
  }

  /** The defender's checks in order: a dodge cancels (None), else the damage after block and mitigation. */
  function PlayerDefence(damage: real, victim: Attrs, attacker: Attrs, rolls: Rolls): (r: Option<real>)
    ensures r.None? <==> Chance(rolls.dodge, Get(victim, "dodge"))
  {
    if Chance(rolls.dodge, Get(victim, "dodge")) then None
    else Some(Mitigate(Blocked(damage, victim, rolls.block), victim, attacker))
  }

  /** What gets through a defence lies between an eighth of the damage (block and the armour cap) and all of it. */
  lemma {:induction false} DefenceBounds(damage: real, victim: Attrs, attacker: Attrs, rolls: Rolls)
    requires damage >= 0.0 && PlayerDefence(damage, victim, attacker, rolls).Some?
    ensures PlayerDefence(damage, victim, attacker, rolls).value >= 0.125 * damage
    ensures Get(victim, "trueArmor") >= 0.0 ==> PlayerDefence(damage, victim, attacker, rolls).value <= damage
  {
    MitigateBounds(Blocked(damage, victim, rolls.block), victim, attacker);
  }

  // ------------------------------------------------------ after the hit

  /** handleLifeSteal: the attacker's new health, when lifesteal raises it. */
  function LifeSteal(damage: real, attrs: Attrs, v: Vitals): (r: Option<real>)
    ensures r.Some? ==> Get(attrs, "lifeSteal") > 0.0 && v.health < r.value <= v.maxHealth
    ensures Get(attrs, "lifeSteal") > 0.0 && damage > 0.0 && v.health < v.maxHealth ==> r.Some?
    ensures r.Some? ==> r.value <= v.health + damage * (Get(attrs, "lifeSteal") / 100.0)
    ensures r.Some? ==> r.value == v.maxHealth || r.value == v.health + damage * (Get(attrs, "lifeSteal") / 100.0)
    ensures r.None? && Get(attrs, "lifeSteal") > 0.0 ==> v.maxHealth <= v.health || damage * (Get(attrs, "lifeSteal") / 100.0) <= 0.0
  {
    var lifeSteal := Get(attrs, "lifeSteal");
    if lifeSteal > 0.0 then
      var heal := damage * (lifeSteal / 100.0);
      var newHealth := Min(v.maxHealth, v.health + heal);
      if newHealth > v.health then Some(newHealth) else None
    else None
  }

  /** handleWeakenEffect: weakness needs a positive chance, a living target and a successful roll. */
  function Weakens(target: Entity, attrs: Attrs, roll: Roll): (r: bool)
    ensures r ==> Get(attrs, "weaken") > 0.0 && IsLiving(target)
    ensures Get(attrs, "weaken") > 0.0 && IsLiving(target) ==> (r <==> Chance(roll, Get(attrs, "weaken")))
    ensures Get(attrs, "weaken") >= 100.0 && IsLiving(target) ==> r
  {
    Get(attrs, "weaken") > 0.0 && IsLiving(target) && Chance(roll, Get(attrs, "weaken"))
  }

  /** handleAoeDamage: a splash is scheduled only with positive aoeDamage and aoeRange. */
  function AoeRequest(attacker: nat, target: Entity, damage: real, attrs: Attrs): (r: Option<Splash>)
    ensures r.Some? <==> Get(attrs, "aoeDamage") > 0.0 && Get(attrs, "aoeRange") > 0.0
    ensures r.Some? ==> r.value.aoeRange > 0.0 && r.value.primary == target && r.value.attacker == attacker
  {
    var aoeDamage := Get(attrs, "aoeDamage");
    var aoeRange := Get(attrs, "aoeRange");
    if aoeDamage <= 0.0 || aoeRange <= 0.0 then None
    else Some(Splash(attacker, target, damage, aoeDamage, aoeRange))
  }

  // ------------------------------------------------------ the handlers

  /** The damage set on the event, with lifesteal, weaken and splash following it. */
  function AfterHit(attacker: nat, target: Entity, combined: Attrs, damage: real, reflected: Option<real>, rolls: Rolls, v: Vitals): Outcome
  {
    Damaged(damage, Effects(reflected, LifeSteal(damage, combined, v), Weakens(target, combined, rolls.weaken),
                            AoeRequest(attacker, target, damage, combined)))
  }

  /** The full pipeline for a hit by `attacker` that is not part of a splash. */
  function FullOutcome(m: AttributeManager, attacker: nat, ev: DamageEvent, rolls: Rolls, v: Vitals): (o: Outcome)
    reads m
    ensures o != Untouched
    ensures o == Cancelled ==> ev.target.kind == PlayerKind
  {
    var combined := MergeWeapon(m.GetCachedPlayerAttributes(attacker), WeaponAttrs(ev.damager));
    var damage := DamageWithTarget(WeaponBase(ev.damage, combined), combined, ev.target, rolls.crit);
    if ev.target.kind == PlayerKind then
      var victim := m.GetCachedPlayerAttributes(ev.target.id);
      match PlayerDefence(damage, victim, combined, rolls)
      case None => Cancelled
      case Some(final) => AfterHit(attacker, ev.target, combined, final, Injury(final, victim, rolls.injury), rolls, v)
    else AfterHit(attacker, ev.target, combined, damage, None, rolls, v)
  }

  /** A splash sub-hit: only dodge, block and mitigation against a player; anything else takes the damage unchanged. */
  function SplashOutcome(m: AttributeManager, attacker: nat, target: Entity, damage: real, rolls: Rolls): (o: Outcome)
    reads m
    ensures o.Damaged? ==> o.effects == NoEffects
    ensures target.kind != PlayerKind ==> o == Damaged(damage, NoEffects)
  {
    if target.kind == PlayerKind then
      var victim := m.GetCachedPlayerAttributes(target.id);
      match PlayerDefence(damage, victim, m.GetCachedPlayerAttributes(attacker), rolls)
      case None => Cancelled
      case Some(final) => Damaged(final, NoEffects)
    else Damaged(damage, NoEffects)
  }

  /** onPlayerDamageEntity, with the re-entrancy flag as it stands when the event arrives. */
  function PlayerAttack(m: AttributeManager, ev: DamageEvent, rolls: Rolls, v: Vitals, processingAoe: bool): (o: Outcome)
    reads m
    ensures o == Untouched <==> ev.cancelled || AttackerOf(ev.damager).None?
    ensures processingAoe && o.Damaged? ==> o.effects == NoEffects
  {
    match AttackerOf(ev.damager)
    case None => Untouched
    case Some(attacker) =>
      if ev.cancelled then Untouched
      else if processingAoe then SplashOutcome(m, attacker, ev.target, ev.damage, rolls)
      else FullOutcome(m, attacker, ev, rolls, v)
  }

  /** onPlayerTakeDamage: a player hurt by anything but a player gets dodge, block and the plain reduction. */
  function TakeDamage(ev: DamageEvent, victim: Attrs, rolls: Rolls): (o: Outcome)
    ensures o == Untouched <==> ev.cancelled || ev.target.kind != PlayerKind || ev.damager.PlayerDamager?
    ensures o.Damaged? ==> o.effects == NoEffects
  {
    if ev.cancelled || ev.target.kind != PlayerKind || ev.damager.PlayerDamager? then Untouched
    else if Chance(rolls.dodge, Get(victim, "dodge")) then Cancelled
    else Damaged(Reduce(Blocked(ev.damage, victim, rolls.block), victim), NoEffects)
  }

  /** A player hurt by a non-player keeps at least an eighth of the damage, and takes no more than it when armour is not negative. */
  lemma {:induction false} TakeDamageBounds(ev: DamageEvent, victim: Attrs, rolls: Rolls)
    requires ev.damage >= 0.0 && TakeDamage(ev, victim, rolls).Damaged?
    ensures TakeDamage(ev, victim, rolls).damage >= 0.125 * ev.damage
    ensures Get(victim, "armor") + Get(victim, "trueArmor") >= 0.0 ==> TakeDamage(ev, victim, rolls).damage <= ev.damage
  {
    ReduceBounds(Blocked(ev.damage, victim, rolls.block), victim);
  }

  /** A defender with dodge of 100 or more dodges every hit, splash or not. */
  lemma {:induction false} CertainDodge(m: AttributeManager, ev: DamageEvent, rolls: Rolls, v: Vitals, processingAoe: bool)
    requires !ev.cancelled && AttackerOf(ev.damager).Some? && ev.target.kind == PlayerKind
    requires Get(m.GetCachedPlayerAttributes(ev.target.id), "dodge") >= 100.0
    ensures PlayerAttack(m, ev, rolls, v, processingAoe) == Cancelled
  {
  }

  /** When the `damage` attribute is set, the weapon's own damage makes no difference. */
  lemma {:induction false} BaseDamageIgnored(m: AttributeManager, ev: DamageEvent, other: real, rolls: Rolls, v: Vitals)
    requires AttackerOf(ev.damager).Some?
    requires Get(MergeWeapon(m.GetCachedPlayerAttributes(AttackerOf(ev.damager).value), WeaponAttrs(ev.damager)), "damage") > 0.0
    ensures PlayerAttack(m, ev, rolls, v, false) == PlayerAttack(m, ev.(damage := other), rolls, v, false)
  {
  }

  /** A dodged hit has no lifesteal, weaken or splash; a hit on a non-player is never mitigated or reflected. */
  lemma {:induction false} MobHitUnmitigated(m: AttributeManager, ev: DamageEvent, rolls: Rolls, v: Vitals)
    requires !ev.cancelled && AttackerOf(ev.damager).Some? && ev.target.kind != PlayerKind
    ensures PlayerAttack(m, ev, rolls, v, false).Damaged?
    ensures PlayerAttack(m, ev, rolls, v, false).effects.reflected == None
  {
  }

  /** A Flans bullet with a known shooter that hits a player is acted on by both handlers. */
  lemma {:induction false} BulletHandledTwice(m: AttributeManager, ev: DamageEvent, rolls: Rolls, v: Vitals)
    requires ev.damager.FlansBullet? && ev.damager.shooter.Some?
    requires !ev.cancelled && ev.target.kind == PlayerKind
    ensures PlayerAttack(m, ev, rolls, v, false) != Untouched
    ensures TakeDamage(ev, m.GetCachedPlayerAttributes(ev.target.id), rolls) != Untouched
  {
  }

  // ------------------------------------------------------ the splash

  /** The distance fall-off: 1 at the centre, down to 0.2 at the range and beyond. */
  function SplashMultiplier(distance: Distance, range: real): (m: real)
    requires range > 0.0
    ensures 0.2 <= m <= 1.0
    ensures distance >= range ==> m == 0.2
    ensures distance == 0.0 ==> m == 1.0
  {
    var n := Min(distance / range, 1.0);
    assert 0.0 <= n * n <= 1.0;
    Max(0.2, 1.0 - n * n * 0.8)
  }

  /** The splash never grows with distance. */
  lemma {:induction false} SplashFallsOff(near: Distance, far: Distance, range: real)
    requires range > 0.0 && near <= far
    ensures SplashMultiplier(near, range) >= SplashMultiplier(far, range)
  {
    var n1 := Min(near / range, 1.0);
    var n2 := Min(far / range, 1.0);
    assert far / range - near / range == (far - near) / range;
    assert 0.0 <= n1 <= n2;
    ScaleUp(n1, n2, n1);
    ScaleUp(n1, n2, n2);
    assert n1 * n1 <= n2 * n2;
  }

  /** One splash hit on an entity at `distance` from the centre. */
  function SplashAmount(s: Splash, distance: Distance): real
    requires s.aoeRange > 0.0
  {
    s.damage * (s.aoeDamage / 100.0) * SplashMultiplier(distance, s.aoeRange)
  }

  /** damage 100, aoeDamage 50, range 5 at distance 2.5 gives 40. */
  lemma {:induction false} SplashWorkedExample(attacker: nat, primary: Entity)
    ensures SplashAmount(Splash(attacker, primary, 100.0, 50.0, 5.0), 2.5) == 40.0
  {
    assert Min(2.5 / 5.0, 1.0) == 0.5;
    assert SplashMultiplier(2.5, 5.0) == 0.8;
  }

  /** The splash amount lies between a fifth of the splash base and the whole of it. */
  lemma {:induction false} SplashAmountBounds(s: Splash, distance: Distance)
    requires s.aoeRange > 0.0 && s.damage >= 0.0 && s.aoeDamage > 0.0
    ensures 0.2 * (s.damage * (s.aoeDamage / 100.0)) <= SplashAmount(s, distance) <= s.damage * (s.aoeDamage / 100.0)
  {
    var b := s.damage * (s.aoeDamage / 100.0);
    var k := SplashMultiplier(distance, s.aoeRange);
    assert b >= 0.0;
    assert 0.2 * b <= b * k <= b;
  }

  /** An entity near the splash centre: where it stands and the rolls its sub-hit consumes. */
  datatype Nearby = Nearby(entity: Entity, distance: Distance, rolls: Rolls)

  /** A splash hit dealt: the entity, the amount passed to damage() and what the handler made of it. */
  datatype SplashHit = SplashHit(target: Entity, amount: real, outcome: Outcome)

  /** The splash skips the primary target, the attacker and non-living entities. */
  predicate Splashable(s: Splash, e: Entity)
  {
    e.id != s.primary.id && e.id != s.attacker && IsLiving(e)
  }

  /** The event a splash hit raises: damage from the attacker, not cancelled. */
  function SplashEvent(s: Splash, e: Entity, amount: real): DamageEvent
  {
    DamageEvent(PlayerDamager(s.attacker), e, amount, false)
  }

  /** executeAoeDamage: the hits dealt, in the order the nearby entities come. */
  function SplashHits(m: AttributeManager, s: Splash, nearby: seq<Nearby>): (hits: seq<SplashHit>)
    requires s.aoeRange > 0.0
    reads m
    ensures |hits| <= |nearby|
    ensures forall h :: h in hits ==> Splashable(s, h.target)
    ensures forall h :: h in hits && h.outcome.Damaged? ==> h.outcome.effects == NoEffects
    decreases |nearby|
  {
    if nearby == [] then []
    else
      var n := nearby[|nearby| - 1];
      var before := SplashHits(m, s, nearby[..|nearby| - 1]);
      if Splashable(s, n.entity) then
        var amount := SplashAmount(s, n.distance);
        before + [SplashHit(n.entity, amount, SplashOutcome(m, s.attacker, n.entity, amount, n.rolls))]
      else before
  }

  /** A living entity other than the primary target and the attacker is hit iff it stands near the centre. */
  lemma {:induction false} SplashHitsTargets(m: AttributeManager, s: Splash, nearby: seq<Nearby>, e: Entity)
    requires s.aoeRange > 0.0
    requires Splashable(s, e)
    ensures (exists h :: h in SplashHits(m, s, nearby) && h.target == e) <==> (exists n :: n in nearby && n.entity == e)
    decreases |nearby|
  {
    if nearby != [] {
      var init := nearby[..|nearby| - 1];
      var last := nearby[|nearby| - 1];
      SplashHitsTargets(m, s, init, e);
      var before := SplashHits(m, s, init);
      var hits := SplashHits(m, s, nearby);
      assert nearby == init + [last];
      if exists h :: h in hits && h.target == e {
        var h :| h in hits && h.target == e;
        if h in before {
          var n :| n in init && n.entity == e;
          assert n in nearby;
        } else {
          assert h.target == last.entity;
          assert last in nearby;
        }
      }
      if exists n :: n in nearby && n.entity == e {
        var n :| n in nearby && n.entity == e;
        if n == last {
          var amount := SplashAmount(s, last.distance);
          var h := SplashHit(e, amount, SplashOutcome(m, s.attacker, e, amount, last.rolls));
          assert h in hits;
        } else {
          assert n in init;
          var h :| h in before && h.target == e;
          assert h in hits;
        }
      }
    }
  }

  // ------------------------------------------------------ the listener

  class CombatListener {
    const manager: AttributeManager
    /** isProcessingAoe: set while a splash is being dealt. */
    var processingAoe: bool
    /** staticAoeProcessingStatus: the same flag, readable by other listeners. */
    var staticAoe: bool

    constructor (manager: AttributeManager)
      ensures this.manager == manager && !processingAoe && !staticAoe
    {
      this.manager := manager;
      processingAoe := false;
      staticAoe := false;
    }

    /** onPlayerDamageEntity, stage by stage. */
    method OnPlayerDamageEntity(ev: DamageEvent, rolls: Rolls, v: Vitals) returns (o: Outcome)
      ensures o == PlayerAttack(manager, ev, rolls, v, processingAoe)
    {
      if ev.cancelled {
        return Untouched;
      }
      var attacker := AttackerOf(ev.damager);
      if attacker.None? {
        return Untouched;
      }
      var attackerAttrs := manager.GetCachedPlayerAttributes(attacker.value);
      var combined := MergeWeaponAttributes(attackerAttrs, WeaponAttrs(ev.damager));
      if processingAoe {
        o := HandleSplashHit(attacker.value, ev, rolls);
        return;
      }
      o := HandleFullHit(attacker.value, ev, rolls, v, combined);
    }

    /** checkDodge, checkBlock and the penetrating reduction, as both branches of onPlayerDamageEntity run them. */
    static method DefendPlayer(damage: real, victim: Attrs, attacker: Attrs, rolls: Rolls) returns (r: Option<real>)
      ensures r == PlayerDefence(damage, victim, attacker, rolls)
    {
      if Chance(rolls.dodge, Get(victim, "dodge")) {
        return None;
      }
      var d := damage;
      if Chance(rolls.block, Get(victim, "block")) {
        d := d * 0.5;
      }
      r := Some(Mitigate(d, victim, attacker));
    }

    /** The branch of onPlayerDamageEntity taken outside a splash: the whole pipeline. */
    method HandleFullHit(attacker: nat, ev: DamageEvent, rolls: Rolls, v: Vitals, combined: Attrs) returns (o: Outcome)
      requires combined == MergeWeapon(manager.GetCachedPlayerAttributes(attacker), WeaponAttrs(ev.damager))
      ensures o == FullOutcome(manager, attacker, ev, rolls, v)
    {
      var weaponBase := ev.damage;
      if Get(combined, "damage") > 0.0 {
        weaponBase := 0.0;
      }
      var finalDamage := DamageWithTarget(weaponBase, combined, ev.target, rolls.crit);
      if ev.target.kind == PlayerKind {
        var victim := manager.GetCachedPlayerAttributes(ev.target.id);
        o := HitPlayer(attacker, ev.target, combined, victim, finalDamage, rolls, v);
      } else {
        o := FinishHit(attacker, ev.target, combined, finalDamage, None, rolls, v);
      }
    }

    /** The player branch of the pipeline: dodge, block, mitigation and the injury roll before the tail. */
    static method HitPlayer(attacker: nat, target: Entity, combined: Attrs, victim: Attrs, damage: real,
                            rolls: Rolls, v: Vitals) returns (o: Outcome)
      ensures o == match PlayerDefence(damage, victim, combined, rolls)
                   case None => Cancelled
                   case Some(final) => AfterHit(attacker, target, combined, final, Injury(final, victim, rolls.injury), rolls, v)
    {
      var defended := DefendPlayer(damage, victim, combined, rolls);
      if defended.None? {
        return Cancelled;
      }
      var finalDamage := defended.value;
      var reflected: Option<real> := None;
      if Chance(rolls.injury, Get(victim, "injury")) {
        reflected := Some(finalDamage * 0.1);
      }
      o := FinishHit(attacker, target, combined, finalDamage, reflected, rolls, v);
    }

    /** The tail of onPlayerDamageEntity once the damage is set: lifesteal, weaken and the splash request. */
    static method FinishHit(attacker: nat, target: Entity, combined: Attrs, damage: real, reflected: Option<real>,
                            rolls: Rolls, v: Vitals) returns (o: Outcome)
      ensures o == AfterHit(attacker, target, combined, damage, reflected, rolls, v)
    {
      var healedTo := LifeSteal(damage, combined, v);
      var weakened := Weakens(target, combined, rolls.weaken);
      var splash := AoeRequest(attacker, target, damage, combined);
      o := Damaged(damage, Effects(reflected, healedTo, weakened, splash));
    }

    /** The branch of onPlayerDamageEntity taken while a splash is being dealt. */
    method HandleSplashHit(attacker: nat, ev: DamageEvent, rolls: Rolls) returns (o: Outcome)
      ensures o == SplashOutcome(manager, attacker, ev.target, ev.damage, rolls)
    {
      var attackerAttrs := manager.GetCachedPlayerAttributes(attacker);
      if ev.target.kind == PlayerKind {
        var victim := manager.GetCachedPlayerAttributes(ev.target.id);
        var defended := DefendPlayer(ev.damage, victim, attackerAttrs, rolls);
        if defended.None? {
          return Cancelled;
        }
        return Damaged(defended.value, NoEffects);
      }
      return Damaged(ev.damage, NoEffects);
    }

    /**
     * executeAoeDamage: both flags are raised before the loop, every eligible
     * entity is damaged (re-entering OnPlayerDamageEntity with the flag set),
     * and both flags are lowered again afterwards.
     */
    method ExecuteAoeDamage(s: Splash, nearby: seq<Nearby>) returns (hits: seq<SplashHit>)
      requires s.aoeRange > 0.0
      modifies this
      ensures hits == SplashHits(manager, s, nearby)
      ensures !processingAoe && !staticAoe
    {
      processingAoe := true;
      staticAoe := true;
      hits := [];
      var i := 0;
      while i < |nearby|
        invariant 0 <= i <= |nearby|
        invariant processingAoe && staticAoe
        invariant hits == SplashHits(manager, s, nearby[..i])
      {
        assert nearby[..i + 1][..i] == nearby[..i];
        var n := nearby[i];
        if Splashable(s, n.entity) {
          var amount := SplashAmount(s, n.distance);
          var outcome := OnPlayerDamageEntity(SplashEvent(s, n.entity, amount), n.rolls, Vitals(0.0, 0.0));
          hits := hits + [SplashHit(n.entity, amount, outcome)];
        }
        i := i + 1;
      }
      assert nearby[..|nearby|] == nearby;
      processingAoe := false;
      staticAoe := false;
    }
  }
}
