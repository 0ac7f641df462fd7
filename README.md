# lore-attribute, modelled in Dafny

A Bukkit plugin that reads RPG attributes from item lore and applies them in
combat. An item's lore lines such as `攻击伤害: 12` or `致命几率: +5` are turned
into an attribute map through a fixed alias table (Chinese labels, a few
English ones, and their lower-case forms) mapping each label to a canonical
key. A line is first read with the `<label>: <number>` pattern; if that does
not match, the first alias the line contains is paired with the first number
on it. A `类型: <type>` line restricts an item to a slot: only a weapon (武器)
counts in the main hand, only armour (防具) in the armour slots, and only
accessories (饰品) in the battle inventory's five battle slots. The
per-player totals are kept in a cache that every equipment change
recomputes.

The model covers:

- `AttributeManager` and `AttributeProperties`: the alias table, the lore-line
  parser, the typed per-slot aggregation, the special attributes (walk speed
  and maximum health) and the per-player cache;
- `CombatListener`: the damage resolver (flat damage bonuses, the bonus
  against mobs, critical hits, true damage, percentage and percentage-true
  damage; against players dodge, block, armour with penetration, and injury
  retaliation; then lifesteal, weaken, the area-of-effect splash and its
  recursion guard, and the bullet double-handling guard);
- `PlayerAttribute`: the typed record with its name-based getter and setter;
- `Restrictions`: the equipment-restriction rules (conflict groups,
  exclusive fragments and prerequisite fragments of lore);
- `BattleInventories`: the battle inventory layout, its markers, and the
  placement and clearing rules, both in the manager and in the data class;
- `AttributeCommands`, `LoreLines` and `LoreApi`: the `latr` lore editing
  commands and the public API's lore editing and lookup;
- `LoreEditor`: the in-chat lore editor session, splitting a line into text
  and number and joining them back;
- `AttributeEffects`: cooldowns, the stat formulas for maximum health, walk
  speed and regeneration, and the per-player cleanup;
- `FlansIntegration`: the gun-lore parser.

`JavaText` and `Bukkit` give the Java and Bukkit text operations the plugin
relies on (trim, split, `toLowerCase`, `contains`, `Double.parseDouble`,
`ChatColor.stripColor`, `translateAlternateColorCodes`, the regular
expressions) as functions with their own contracts.

Modelling choices. An item is a value, `Item(material, lore)`, and a missing
item is `None`. Random rolls are inputs `r` with `0 <= r < 100`; a roll
succeeds iff `r < chance`. The clock, distances and the entities near a
target are inputs. A Java `double` is a `real`: there is no rounding, no NaN
and no infinity. The iteration order of the alias `HashMap` is a parameter
`order`, any ordering of the table's labels, and number formatting (`String.format`) is a parameter `fmt`. A
`ConcurrentHashMap` is a `map` field; a `ThreadLocal` flag is a boolean
field.

Where the plugin's own description and its code differ, the model follows
the code:

- the parser never produces the keys `penetration`, `speed` or `regen`: the
  labels for penetration, movement speed and regeneration map to
  `armorBreak`, `moveSpeed` and `healthHeal`, so the branches that read the
  other keys see zero. The parser's `armorBreak` has no effect on damage;
- the pattern has no optional `%` after the number. `find()` ignores the rest
  of the line, so `致命几率: 5%` still reads 5.

## Model

| member | source | states |
|---|---|---|
| AttributeManager.Add | src/main/java/dev/charlieveg/loreattribute/manager/AttributeManager.java:325-331 | adding a value into an attribute map leaves the key present, raises its value by exactly that amount and changes no other key |
| AttributeManager.LookupInFound | src/main/java/dev/charlieveg/loreattribute/manager/AttributeManager.java:42-107 | an alias-table lookup succeeds exactly when the label occurs in the table, and what it returns is one of the table's canonical keys |
| AttributeManager.AttributeKey | src/main/java/dev/charlieveg/loreattribute/manager/AttributeManager.java:184-190 | getAttributeKey answers with a canonical key or nothing; an exact label is looked up as written, any other name by its lower-case form, and nothing is answered iff neither is in the table |
| AttributeManager.LazyColonShortest | src/main/java/dev/charlieveg/loreattribute/manager/AttributeManager.java:29 | the reluctant label group `(.+?)` stops at the first `: <number>` on the line and never crosses a line terminator |
| AttributeManager.FindAttribute | src/main/java/dev/charlieveg/loreattribute/manager/AttributeManager.java:29 | a match found by the attribute pattern starts at or after the search position and really is a `<label>: <signed number>` match (with lines 139-141) |
| AttributeManager.FindAttributeLeftmost | src/main/java/dev/charlieveg/loreattribute/manager/AttributeManager.java:29 | Matcher.find returns the leftmost match, and within it the shortest label; when it finds nothing, no position matches (with lines 139-141) |
| AttributeManager.ItemAttributes | src/main/java/dev/charlieveg/loreattribute/manager/AttributeManager.java:112-133 | an item that is missing or has no lore parses to the empty map |
| AttributeManager.ParseAlternativeFormat | src/main/java/dev/charlieveg/loreattribute/manager/AttributeManager.java:161-179 | the fallback loop produces what the alias-order specification prescribes: the first alias, in table iteration order, contained in the line, paired with the line's first signed number |
| AttributeManager.ParseAttributeLine | src/main/java/dev/charlieveg/loreattribute/manager/AttributeManager.java:138-156 | one lore line is read by the primary pattern when it matches, and by the fallback only when it does not |
| AttributeManager.ParseItemAttributes | src/main/java/dev/charlieveg/loreattribute/manager/AttributeManager.java:112-133 | the line loop equals reading every lore line, colour-stripped, into an initially empty map |
| AttributeManager.Merge | src/main/java/dev/charlieveg/loreattribute/manager/AttributeManager.java:325-331 | merging two attribute maps gives their key union with every value the keywise sum |
| AttributeManager.MergeAttributes | src/main/java/dev/charlieveg/loreattribute/manager/AttributeManager.java:325-331 | the merge loop computes the keywise sum |
| AttributeManager.GetItemType | src/main/java/dev/charlieveg/loreattribute/manager/AttributeManager.java:260-273 | the loop returns the trimmed text after the first `类型: ` line, or the empty string |
| AttributeManager.TypedAttributes | src/main/java/dev/charlieveg/loreattribute/manager/AttributeManager.java:278-284 | an item whose type differs from the slot's expected type contributes the empty map; otherwise it contributes all its parsed attributes |
| AttributeManager.ParseItemAttributesWithTypeCheck | src/main/java/dev/charlieveg/loreattribute/manager/AttributeManager.java:278-284 | computes the type-gated attributes of one item |
| AttributeManager.MergeTypedItem | src/main/java/dev/charlieveg/loreattribute/manager/AttributeManager.java:204-228 | adding one equipped item to the running total is the keywise sum with that item's type-gated attributes |
| AttributeManager.MergeTypedItems | src/main/java/dev/charlieveg/loreattribute/manager/AttributeManager.java:211-228 | the armour and battle-item loops fold every item's type-gated attributes into the running total, in order |
| AttributeManager.SpecialAttributes | src/main/java/dev/charlieveg/loreattribute/manager/AttributeManager.java:289-320 | walk speed becomes 0.2 scaled by `speed` percent, clamped to [0, 1], when that is more than 0.01 away, and is otherwise left alone; with positive `health` the max health becomes 20 + health clamped to [1, 2048] when that is more than 0.1 away, with health scaled to keep its fraction; otherwise max health and health are left alone |
| AttributeManager.AttributeManager.constructor | src/main/java/dev/charlieveg/loreattribute/manager/AttributeManager.java:27-37 | a new manager has an empty cache and a fixed iteration order that lists every alias label exactly once |
| AttributeManager.AttributeManager.CalculatePlayerAttributes | src/main/java/dev/charlieveg/loreattribute/manager/AttributeManager.java:195-234 | the total is the type-gated keywise sum over main hand, armour and battle items; it replaces the player's cache entry wholesale, leaves other players' entries alone, and the special attributes are applied to it |
| AttributeManager.AttributeManager.GetCachedPlayerAttributes | src/main/java/dev/charlieveg/loreattribute/manager/AttributeManager.java:336-338 | an unknown player reads as the empty map, a known one as the cached snapshot |
| AttributeManager.AttributeManager.GetPlayerAttribute | src/main/java/dev/charlieveg/loreattribute/manager/AttributeManager.java:343-350 | a name is translated through the alias table, or used as written when not a label, and an absent key reads as 0 |
| AttributeManager.AttributeManager.ClearPlayerAttributes | src/main/java/dev/charlieveg/loreattribute/manager/AttributeManager.java:379-381 | removes exactly the player's cache entry |
| AttributeManager.AttributeManager.UpdatePlayerAttributes | src/main/java/dev/charlieveg/loreattribute/manager/AttributeManager.java:386-388 | recomputes the player's snapshot and stores it wholesale |
| AttributeProperties.LabelledLine | src/main/java/dev/charlieveg/loreattribute/manager/AttributeManager.java:138-156 | a `<label>: <number>` line adds the number under the label's key, or leaves the map unchanged when the label is unknown (with lines 184-190) |
| AttributeProperties.RepeatedLabelSums | src/main/java/dev/charlieveg/loreattribute/manager/AttributeManager.java:138-149 | two lines with the same label give one key whose value is the sum of both numbers |
| AttributeProperties.PlainLoreLine | src/main/java/dev/charlieveg/loreattribute/manager/AttributeManager.java:123-149 | a plain attribute lore line contributes exactly its number under its key |
| AttributeProperties.AliasInsideUnknownLabel | src/main/java/dev/charlieveg/loreattribute/manager/AttributeManager.java:139-155 | the line `攻击伤害加成: 5` matches the primary pattern and contributes nothing, so the fallback that would find the contained alias `攻击伤害` is never tried (with lines 184-190) |
| AttributeProperties.AlternativeFormatFirstAlias | src/main/java/dev/charlieveg/loreattribute/manager/AttributeManager.java:161-179 | the fallback uses the first alias, in iteration order, that the line contains |
| AttributeProperties.AlternativeFormatNoAlias | src/main/java/dev/charlieveg/loreattribute/manager/AttributeManager.java:161-179 | a line containing no alias contributes nothing through the fallback |
| AttributeProperties.AliasOrderLabels | src/main/java/dev/charlieveg/loreattribute/manager/AttributeManager.java:32-107 | every entry of the iteration order is a label of the table, and every label of the table occurs in it |
| AttributeProperties.FallbackFirstLabel | src/main/java/dev/charlieveg/loreattribute/manager/AttributeManager.java:161-179 | a line the pattern does not match is read by the first table label, in iteration order, that it contains: that label has a key, and the line's first number is added under it |
| AttributeProperties.FallbackNoLabel | src/main/java/dev/charlieveg/loreattribute/manager/AttributeManager.java:161-179 | a line the pattern does not match and that contains none of the table's labels contributes nothing |
| AttributeProperties.UnknownPlainLoreLine | src/main/java/dev/charlieveg/loreattribute/manager/AttributeManager.java:138-156 | a well-formed `<name>: <number>` line whose name the table does not know is matched by the pattern and contributes nothing |
| AttributeProperties.OverlappingAliases | src/main/java/dev/charlieveg/loreattribute/manager/AttributeManager.java:42-107 | every line containing 百分比真实伤害 also contains 真实伤害, and the two aliases map to different keys (with lines 161-179) |
| AttributeProperties.ParsedKeysCanonical | src/main/java/dev/charlieveg/loreattribute/manager/AttributeManager.java:112-179 | every key the parser produces is a canonical key of the alias table |
| AttributeProperties.TotalsKeysCanonical | src/main/java/dev/charlieveg/loreattribute/manager/AttributeManager.java:195-234 | every key of a player snapshot is a canonical key |
| AttributeProperties.UnreadKeysNeverCached | src/main/java/dev/charlieveg/loreattribute/manager/AttributeManager.java:42-107 | the keys `speed`, `regen` and `penetration`, which other components read, never occur in a snapshot (with lines 195-234) |
| AttributeProperties.WalkSpeedAlwaysBase | src/main/java/dev/charlieveg/loreattribute/manager/AttributeManager.java:289-298 | since the parser never produces `speed`, the special attributes always reset walk speed to 0.2 when it is more than 0.01 away |
| AttributeProperties.HealthFractionKept | src/main/java/dev/charlieveg/loreattribute/manager/AttributeManager.java:300-312 | changing max health keeps the player's health fraction |
| AttributeProperties.TypeLineRead | src/main/java/dev/charlieveg/loreattribute/manager/AttributeManager.java:260-273 | a colour-coded `类型: t` first line gives type t |
| AttributeProperties.UntypedItemsIgnored | src/main/java/dev/charlieveg/loreattribute/manager/AttributeManager.java:198-210 | an untyped main-hand item contributes nothing, exactly as an empty hand (with lines 278-284) |
| AttributeProperties.BattleFailureKeepsWeaponAndArmour | src/main/java/dev/charlieveg/loreattribute/manager/AttributeManager.java:212-228 | a failure while reading battle items leaves the weapon and armour contributions as they are and adds nothing for accessories |
| AttributeProperties.CamelCaseKeyRejected | src/main/java/dev/charlieveg/loreattribute/manager/AttributeManager.java:400-403 | isValidAttributeName lowercases before the lookup, so the camel-case key `moveSpeed` is rejected |
| AttributeProperties.CritDamageAccepted | src/main/java/dev/charlieveg/loreattribute/manager/AttributeManager.java:400-403 | the lowercase label `critdamage` is in the table, so `critDamage` is accepted |
| CombatListener.MergeWeapon | src/main/java/dev/charlieveg/loreattribute/listener/CombatListener.java:423-449 | the merged map has every key of the player map and of the weapon map |
| CombatListener.MergeWeaponValue | src/main/java/dev/charlieveg/loreattribute/listener/CombatListener.java:423-449 | crit, critDamage, armorPiercing and lifeSteal take the larger value; every other weapon key is summed; keys absent from the weapon keep the player's value |
| CombatListener.MergeWeaponAttributes | src/main/java/dev/charlieveg/loreattribute/listener/CombatListener.java:423-449 | the merge loop computes MergeWeapon |
| CombatListener.MergeWeaponIsSum | src/main/java/dev/charlieveg/loreattribute/listener/CombatListener.java:423-449 | a weapon with no maximum-taking keys merges as a plain keywise sum |
| CombatListener.MergeWeaponKeepsPlayerMax | src/main/java/dev/charlieveg/loreattribute/listener/CombatListener.java:423-449 | a maximum-taking key never drops below either side |
| CombatListener.WeaponBase | src/main/java/dev/charlieveg/loreattribute/listener/CombatListener.java:152-164 | a positive `damage` attribute replaces the incoming weapon damage by 0; otherwise the incoming damage is kept |
| CombatListener.DamageAtLeastBase | src/main/java/dev/charlieveg/loreattribute/listener/CombatListener.java:261-299 | with non-negative bonuses the calculated damage is at least the base |
| CombatListener.DamageWithoutAttributes | src/main/java/dev/charlieveg/loreattribute/listener/CombatListener.java:261-299 | an empty attribute map leaves the base damage unchanged |
| CombatListener.CritWorkedExample | src/main/java/dev/charlieveg/loreattribute/listener/CombatListener.java:261-299 | damage 10, crit 100 and critDamage 50 give 15 |
| CombatListener.CritNeverLowers | src/main/java/dev/charlieveg/loreattribute/listener/CombatListener.java:261-307 | a successful crit roll never gives less damage than a failed one |
| CombatListener.Reduction | src/main/java/dev/charlieveg/loreattribute/listener/CombatListener.java:622-636 | the armour reduction never exceeds 0.75 and is non-negative for non-negative armour |
| CombatListener.MitigateBounds | src/main/java/dev/charlieveg/loreattribute/listener/CombatListener.java:622-636 | mitigated damage is at least a quarter of the input and, with non-negative true armour, at most the input |
| CombatListener.ReduceBounds | src/main/java/dev/charlieveg/loreattribute/listener/CombatListener.java:328-337 | the penetration-free reduction has the same quarter floor |
| CombatListener.ReduceWithoutPenetration | src/main/java/dev/charlieveg/loreattribute/listener/CombatListener.java:328-337 | it equals mitigation against an attacker with no penetration |
| CombatListener.PenetrationExample | src/main/java/dev/charlieveg/loreattribute/listener/CombatListener.java:622-636 | armour 50 against penetration 20 keeps 70% of the damage |
| CombatListener.ArmourCapExample | src/main/java/dev/charlieveg/loreattribute/listener/CombatListener.java:622-636 | armour 200 is capped at a 75% reduction |
| CombatListener.PenetrationMonotone | src/main/java/dev/charlieveg/loreattribute/listener/CombatListener.java:622-636 | more attacker penetration never gives less damage |
| CombatListener.ArmorBreakIgnored | src/main/java/dev/charlieveg/loreattribute/listener/CombatListener.java:622-636 | mitigation reads `penetration` only, so the parser's `armorBreak` key has no effect on it |
| CombatListener.Blocked | src/main/java/dev/charlieveg/loreattribute/listener/CombatListener.java:180-185 | a successful block roll halves the damage; otherwise it is unchanged (with lines 320-323) |
| CombatListener.Injury | src/main/java/dev/charlieveg/loreattribute/listener/CombatListener.java:359-368 | retaliation happens exactly on a successful injury roll and reflects a tenth of the mitigated damage |
| CombatListener.PlayerDefence | src/main/java/dev/charlieveg/loreattribute/listener/CombatListener.java:167-195 | the defence of a player target yields nothing (the event is cancelled) exactly on a successful dodge roll |
| CombatListener.DefenceBounds | src/main/java/dev/charlieveg/loreattribute/listener/CombatListener.java:167-195 | after block and mitigation at least an eighth of the damage remains, and with non-negative true armour no more than the damage |
| CombatListener.LifeSteal | src/main/java/dev/charlieveg/loreattribute/listener/CombatListener.java:342-354 | a heal happens only with positive lifeSteal and only when it raises health; the new health is the smaller of max health and health plus damage × lifeSteal / 100; with positive damage and missing health it always happens |
| CombatListener.Weakens | src/main/java/dev/charlieveg/loreattribute/listener/CombatListener.java:454-470 | weaken needs a positive weaken value and a living target, and then happens exactly when the roll is below the weaken value, so it is certain at 100 or more |
| CombatListener.AoeRequest | src/main/java/dev/charlieveg/loreattribute/listener/CombatListener.java:475-490 | a splash is scheduled iff aoeDamage > 0 and aoeRange > 0, aimed at the primary target from the attacker |
| CombatListener.FullOutcome | src/main/java/dev/charlieveg/loreattribute/listener/CombatListener.java:90-97 | a full hit is never left untouched, and it can be cancelled only against a player target (with lines 139-209) |
| CombatListener.SplashOutcome | src/main/java/dev/charlieveg/loreattribute/listener/CombatListener.java:99-138 | a splash sub-hit has no lifesteal, weaken, retaliation or further splash, and a non-player target takes the damage unchanged |
| CombatListener.PlayerAttack | src/main/java/dev/charlieveg/loreattribute/listener/CombatListener.java:53-209 | the event is left untouched iff it is already cancelled or has no resolvable attacker; while the splash flag is set, no side effects follow |
| CombatListener.TakeDamage | src/main/java/dev/charlieveg/loreattribute/listener/CombatListener.java:215-256 | non-player damage to a player is handled, everything else is left alone, and it has no side effects |
| CombatListener.TakeDamageBounds | src/main/java/dev/charlieveg/loreattribute/listener/CombatListener.java:215-256 | damage from a non-player keeps between an eighth of the input and the input |
| CombatListener.CertainDodge | src/main/java/dev/charlieveg/loreattribute/listener/CombatListener.java:167-177 | dodge 100 or more always cancels a hit on a player (with lines 312-315) |
| CombatListener.BaseDamageIgnored | src/main/java/dev/charlieveg/loreattribute/listener/CombatListener.java:152-164 | with a positive `damage` attribute the incoming damage has no influence on the outcome |
| CombatListener.MobHitUnmitigated | src/main/java/dev/charlieveg/loreattribute/listener/CombatListener.java:139-209 | a hit on a non-player is never cancelled and causes no retaliation |
| CombatListener.BulletHandledTwice | src/main/java/dev/charlieveg/loreattribute/listener/CombatListener.java:53-80 | a gun bullet whose shooter is known is handled by both damage handlers (with lines 215-230) |
| CombatListener.SplashMultiplier | src/main/java/dev/charlieveg/loreattribute/listener/CombatListener.java:524-527 | the fall-off multiplier lies in [0.2, 1], is 1 at distance 0 and 0.2 at or beyond the range |
| CombatListener.SplashFallsOff | src/main/java/dev/charlieveg/loreattribute/listener/CombatListener.java:524-527 | a nearer entity never gets a smaller multiplier |
| CombatListener.SplashWorkedExample | src/main/java/dev/charlieveg/loreattribute/listener/CombatListener.java:492-554 | damage 100, aoeDamage 50, range 5 and distance 2.5 give 40 |
| CombatListener.SplashAmountBounds | src/main/java/dev/charlieveg/loreattribute/listener/CombatListener.java:492-554 | each splash hit lies between 20% and 100% of damage × aoeDamage/100 |
| CombatListener.SplashHits | src/main/java/dev/charlieveg/loreattribute/listener/CombatListener.java:492-554 | splash hits no more entities than are nearby, only living ones other than the primary target and the attacker, and with no side effects |
| CombatListener.SplashHitsTargets | src/main/java/dev/charlieveg/loreattribute/listener/CombatListener.java:492-554 | a splashable entity is hit iff it is nearby |
| CombatListener.CombatListener.constructor | src/main/java/dev/charlieveg/loreattribute/listener/CombatListener.java:36-47 | both splash flags start cleared |
| CombatListener.CombatListener.OnPlayerDamageEntity | src/main/java/dev/charlieveg/loreattribute/listener/CombatListener.java:53-209 | the handler's outcome is PlayerAttack under the current splash flag |
| CombatListener.CombatListener.DefendPlayer | src/main/java/dev/charlieveg/loreattribute/listener/CombatListener.java:167-195 | computes the player defence |
| CombatListener.CombatListener.HandleFullHit | src/main/java/dev/charlieveg/loreattribute/listener/CombatListener.java:139-209 | computes the full-hit outcome |
| CombatListener.CombatListener.HitPlayer | src/main/java/dev/charlieveg/loreattribute/listener/CombatListener.java:167-192 | a dodge cancels; otherwise the defended damage proceeds with retaliation |
| CombatListener.CombatListener.FinishHit | src/main/java/dev/charlieveg/loreattribute/listener/CombatListener.java:195-208 | applies lifesteal, weaken and the splash request |
| CombatListener.CombatListener.HandleSplashHit | src/main/java/dev/charlieveg/loreattribute/listener/CombatListener.java:99-138 | computes the splash sub-hit outcome |
| CombatListener.CombatListener.ExecuteAoeDamage | src/main/java/dev/charlieveg/loreattribute/listener/CombatListener.java:492-554 | the splash loop produces SplashHits, and both flags are clear again afterwards |
| PlayerAttribute.SearchFound | src/main/java/dev/charlieveg/loreattribute/data/PlayerAttribute.java:104-167 | a name lookup fails iff no field answers to it, and a hit names a field that answers to it |
| PlayerAttribute.FieldOfIgnoresCase | src/main/java/dev/charlieveg/loreattribute/data/PlayerAttribute.java:105 | names are lowercased before dispatch, so case does not matter (with line 173) |
| PlayerAttribute.DamageAliases | src/main/java/dev/charlieveg/loreattribute/data/PlayerAttribute.java:106-108 | `damage`, `攻击伤害` and `Damage` all select the damage field (with lines 174-177) |
| PlayerAttribute.ReadAfterWrite | src/main/java/dev/charlieveg/loreattribute/data/PlayerAttribute.java:104-261 | setAttribute(n, v) followed by getAttribute(n) gives v for every recognised name |
| PlayerAttribute.WriteSeenThroughAlias | src/main/java/dev/charlieveg/loreattribute/data/PlayerAttribute.java:104-261 | a write under one name is read back under any alias of the same field |
| PlayerAttribute.WriteFrame | src/main/java/dev/charlieveg/loreattribute/data/PlayerAttribute.java:172-261 | setAttribute changes no other field |
| PlayerAttribute.UnknownName | src/main/java/dev/charlieveg/loreattribute/data/PlayerAttribute.java:164-261 | an unrecognised name changes nothing and reads as 0 |
| PlayerAttribute.WriteReadBack | src/main/java/dev/charlieveg/loreattribute/data/PlayerAttribute.java:104-261 | writing back the value just read changes nothing |
| PlayerAttribute.ReadAfterAdd | src/main/java/dev/charlieveg/loreattribute/data/PlayerAttribute.java:267-269 | addAttribute raises the named field by the amount and leaves every other field alone |
| PlayerAttribute.PlayerAttribute.constructor | src/main/java/dev/charlieveg/loreattribute/data/PlayerAttribute.java:24-99 | the builder defaults are all fields 0 and both effect maps empty |
| PlayerAttribute.PlayerAttribute.GetAttribute | src/main/java/dev/charlieveg/loreattribute/data/PlayerAttribute.java:104-167 | a recognised name reads its field, an unrecognised one reads 0 |
| PlayerAttribute.PlayerAttribute.SetAttribute | src/main/java/dev/charlieveg/loreattribute/data/PlayerAttribute.java:172-261 | writes exactly the selected field and leaves the effect maps alone |
| PlayerAttribute.PlayerAttribute.AddAttribute | src/main/java/dev/charlieveg/loreattribute/data/PlayerAttribute.java:267-269 | equals setAttribute(n, getAttribute(n) + v) |
| PlayerAttribute.PlayerAttribute.Reset | src/main/java/dev/charlieveg/loreattribute/data/PlayerAttribute.java:274-306 | all 29 fields are 0 and both effect maps are empty, the same state as the defaults |
| Restrictions.LoreTexts | src/main/java/dev/charlieveg/loreattribute/manager/EquipmentRestrictionManager.java:108-127 | a missing item has no lore texts; otherwise the set is exactly the item's lines with colour codes removed and trimmed |
| Restrictions.EquippedExclusive | src/main/java/dev/charlieveg/loreattribute/manager/EquipmentRestrictionManager.java:175-196 | the exclusive fragments collected from the other equipped items are among the configured ones, and none are collected when nothing is equipped |
| Restrictions.IsRestricted | src/main/java/dev/charlieveg/loreattribute/manager/EquipmentRestrictionManager.java:251-259 | a missing target is never restricted |
| Restrictions.CarriesLoreLines | src/main/java/dev/charlieveg/loreattribute/manager/EquipmentRestrictionManager.java:129-132 | hasLore holds iff some cleaned line of the item contains the fragment |
| Restrictions.NoRulesNoRestriction | src/main/java/dev/charlieveg/loreattribute/manager/EquipmentRestrictionManager.java:140-259 | with all rule sets empty nothing is restricted |
| Restrictions.NothingEquipped | src/main/java/dev/charlieveg/loreattribute/manager/EquipmentRestrictionManager.java:140-243 | with nothing equipped there is no conflict and no exclusive violation, and a prerequisite violation holds iff the target carries a prerequisite fragment |
| Restrictions.ExclusiveViolated | src/main/java/dev/charlieveg/loreattribute/manager/EquipmentRestrictionManager.java:175-207 | exclusive holds iff some exclusive fragment worn by another item is missing from the target |
| Restrictions.ConflictSymmetric | src/main/java/dev/charlieveg/loreattribute/manager/EquipmentRestrictionManager.java:140-167 | for two items, a conflict of b against a implies one of a against b |
| Restrictions.SameFragmentConflicts | src/main/java/dev/charlieveg/loreattribute/manager/EquipmentRestrictionManager.java:140-167 | two different items that both carry a fragment of one conflict group conflict |
| Restrictions.SkipsTargetAndEmpty | src/main/java/dev/charlieveg/loreattribute/manager/EquipmentRestrictionManager.java:140-243 | adding an empty slot, or the target itself, to the equipped list changes none of the three checks |
| BattleInventories.IsBattleSlot | src/main/java/dev/charlieveg/loreattribute/manager/BattleInventoryManager.java:30 | a slot is a battle slot iff it lies in 11..15 (with lines 146-153) |
| BattleInventories.BattleSlot | src/main/java/dev/charlieveg/loreattribute/manager/BattleInventoryManager.java:30 | index k in 1..5 addresses slot 10 + k, which is a battle slot (with lines 158-181) |
| BattleInventories.NewInventory | src/main/java/dev/charlieveg/loreattribute/manager/BattleInventoryManager.java:80-106 | a new inventory has 27 slots with glass in every non-battle slot and empty battle slots |
| BattleInventories.BattleItems | src/main/java/dev/charlieveg/loreattribute/manager/BattleInventoryManager.java:186-192 | the five entries are the contents of BATTLE_SLOTS[0..4], in order |
| BattleInventories.Present | src/main/java/dev/charlieveg/loreattribute/manager/BattleInventoryManager.java:273-281 | the count is at most the number of entries and reaches it iff every entry is present |
| BattleInventories.FillBackground | src/main/java/dev/charlieveg/loreattribute/manager/BattleInventoryManager.java:94-106 | the fill loop puts glass in every non-battle slot and nothing else changes |
| BattleInventories.EmptyBattleSlots | src/main/java/dev/charlieveg/loreattribute/manager/BattleInventoryManager.java:197-203 | the clearing loop empties the five battle slots |
| BattleInventories.BattleInventoryManager.constructor | src/main/java/dev/charlieveg/loreattribute/manager/BattleInventoryManager.java:28-41 | a new manager holds no inventories |
| BattleInventories.BattleInventoryManager.GetBattleInventory | src/main/java/dev/charlieveg/loreattribute/manager/BattleInventoryManager.java:80-106 | the player has an inventory afterwards and an existing one is returned unchanged |
| BattleInventories.BattleInventoryManager.SetCoreIndicators | src/main/java/dev/charlieveg/loreattribute/manager/BattleInventoryManager.java:111-127 | places a core in each of the slots 11..15 |
| BattleInventories.BattleInventoryManager.GetBattleItem | src/main/java/dev/charlieveg/loreattribute/manager/BattleInventoryManager.java:158-170 | an index outside 1..5 gives nothing and creates no inventory; otherwise it reads BATTLE_SLOTS[k-1] |
| BattleInventories.BattleInventoryManager.SetBattleItem | src/main/java/dev/charlieveg/loreattribute/manager/BattleInventoryManager.java:173-181 | succeeds iff the index is in 1..5, then writes only BATTLE_SLOTS[k-1] of that player's inventory; other players' inventories are unchanged |
| BattleInventories.BattleInventoryManager.GetAllBattleItems | src/main/java/dev/charlieveg/loreattribute/manager/BattleInventoryManager.java:186-192 | returns the five battle-slot contents in order |
| BattleInventories.BattleInventoryManager.GetBattleItemCount | src/main/java/dev/charlieveg/loreattribute/manager/BattleInventoryManager.java:273-281 | counts the occupied battle slots, at most 5 |
| BattleInventories.BattleInventoryManager.ClearBattleInventory | src/main/java/dev/charlieveg/loreattribute/manager/BattleInventoryManager.java:197-203 | empties the battle slots, then puts a core in each of slots 11..15; other players are unchanged |
| BattleInventories.BattleInventoryManager.RemoveBattleInventory | src/main/java/dev/charlieveg/loreattribute/manager/BattleInventoryManager.java:259-268 | drops exactly that player's inventory, so it no longer has one |
| BattleInventories.BattleInventory.constructor | src/main/java/dev/charlieveg/loreattribute/data/BattleInventory.java:30-59 | a new inventory is the glass background with cores placed at slots 10..14 |
| BattleInventories.BattleInventory.SetCore | src/main/java/dev/charlieveg/loreattribute/data/BattleInventory.java:77-88 | writes a core into exactly one slot |
| BattleInventories.BattleInventory.SetCoreItems | src/main/java/dev/charlieveg/loreattribute/data/BattleInventory.java:61-75 | places cores at slots 10..14, as written |
| BattleInventories.BattleInventory.GetBattleItem | src/main/java/dev/charlieveg/loreattribute/data/BattleInventory.java:105-110 | an index outside 1..5 gives nothing; otherwise slot 10 + k |
| BattleInventories.BattleInventory.SetBattleItem | src/main/java/dev/charlieveg/loreattribute/data/BattleInventory.java:115-121 | succeeds iff the index is in 1..5 and then changes only that slot, after which it reads back the item |
| BattleInventories.BattleInventory.GetAllBattleItems | src/main/java/dev/charlieveg/loreattribute/data/BattleInventory.java:126-132 | returns slots 11..15 in order |
| BattleInventories.BattleInventory.ClearAllBattleItems | src/main/java/dev/charlieveg/loreattribute/data/BattleInventory.java:137-142 | empties slots 11..15, then places cores at 10..14 |
| BattleInventories.PresentNone | src/main/java/dev/charlieveg/loreattribute/manager/BattleInventoryManager.java:273-281 | no occupied slot gives a count of 0 |
| BattleInventories.NewInventoryEmpty | src/main/java/dev/charlieveg/loreattribute/manager/BattleInventoryManager.java:80-106 | a new manager inventory has no battle items (with lines 273-281) |
| BattleInventories.ClearedHoldsCores | src/main/java/dev/charlieveg/loreattribute/manager/BattleInventoryManager.java:111-127 | after a clear all five battle slots hold cores, the count is 5 and the other slots are unchanged (with lines 197-203) |
| BattleInventories.CoreItemsOffByOne | src/main/java/dev/charlieveg/loreattribute/data/BattleInventory.java:61-75 | slot 10, a glass slot, gets a core, slot 15 stays empty, and after a clear fewer than five battle slots are filled (with lines 137-142) |
| BattleInventories.RequiredLoreIsMarker | src/main/java/dev/charlieveg/loreattribute/manager/BattleInventoryManager.java:237-246 | every battle slot's required lore is the core marker text for its number |
| BattleInventories.MarkerCleaned | src/main/java/dev/charlieveg/loreattribute/manager/BattleInventoryManager.java:224-226 | translating and then stripping a marker leaves `战斗背包<n>号栏核心`, while stripping alone leaves the `&` codes in place |
| BattleInventories.CanPlaceMarked | src/main/java/dev/charlieveg/loreattribute/manager/BattleInventoryManager.java:208-246 | an item may go into a battle slot iff it is present, not AIR, and some stripped lore line contains that slot's cleaned marker |
| BattleInventories.UntranslatedMarkerRejects | src/main/java/dev/charlieveg/loreattribute/data/BattleInventory.java:147-181 | an item carrying the translated marker is accepted by the manager but rejected by BattleInventory.canPlaceItem |
| AttributeCommands.WithoutPlus | src/main/java/dev/charlieveg/loreattribute/command/AttributeCommandExecutor.java:385 | removing `+` leaves no `+` and never lengthens the text |
| AttributeCommands.FirstValueLine | src/main/java/dev/charlieveg/loreattribute/command/AttributeCommandExecutor.java:378-398 | the line found is an `<name>:` line with a value part |
| AttributeCommands.AddAttributeToItem | src/main/java/dev/charlieveg/loreattribute/command/AttributeCommandExecutor.java:366-409 | the edit loop produces the specified new lore |
| AttributeCommands.AddedAt | src/main/java/dev/charlieveg/loreattribute/command/AttributeCommandExecutor.java:366-409 | when line i is the first value line, it is removed and one line with the accumulated value is appended |
| AttributeCommands.AddedAtEnd | src/main/java/dev/charlieveg/loreattribute/command/AttributeCommandExecutor.java:366-409 | with no value line one new line is appended |
| AttributeCommands.AddAccumulates | src/main/java/dev/charlieveg/loreattribute/command/AttributeCommandExecutor.java:366-409 | two adds of a and b leave one line with a + b |
| AttributeCommands.AddKeepsOtherLines | src/main/java/dev/charlieveg/loreattribute/command/AttributeCommandExecutor.java:366-409 | an add grows the lore by at most one line and keeps every line that is not a value line |
| AttributeCommands.AddOverUnparsable | src/main/java/dev/charlieveg/loreattribute/command/AttributeCommandExecutor.java:383-401 | an old value that does not parse is dropped and only the new value is written |
| AttributeCommands.AttributeLineReadBack | src/main/java/dev/charlieveg/loreattribute/command/AttributeCommandExecutor.java:366-409 | a written line is found again and reads back its value |
| AttributeCommands.SetAttributeToItem | src/main/java/dev/charlieveg/loreattribute/command/AttributeCommandExecutor.java:414-434 | every line naming the attribute is removed, one is appended at the end, other lines are kept, so exactly one such line remains |
| AttributeCommands.SetTypeToItem | src/main/java/dev/charlieveg/loreattribute/command/AttributeCommandExecutor.java:439-459 | the new type line is first, no other type line remains, every non-type line is kept, and no line is added besides the type line |
| AttributeCommands.LoreType | src/main/java/dev/charlieveg/loreattribute/command/AttributeCommandExecutor.java:571-583 | a type read from lore is one of 武器, 防具, 饰品 |
| AttributeCommands.MaterialType | src/main/java/dev/charlieveg/loreattribute/command/AttributeCommandExecutor.java:585-595 | the material fallback always gives one of the three types |
| AttributeCommands.ItemTypeOf | src/main/java/dev/charlieveg/loreattribute/command/AttributeCommandExecutor.java:568-596 | a present item always has one of the three types, and a missing item is 未知 |
| AttributeCommands.IsValidAttributeForItem | src/main/java/dev/charlieveg/loreattribute/command/AttributeCommandExecutor.java:29-52 | valid iff the name is in the list for the item's type; a missing item has no valid attributes (with lines 601-614) |
| AttributeCommands.TypeRoundTrip | src/main/java/dev/charlieveg/loreattribute/command/AttributeCommandExecutor.java:439-459 | setting a type and reading it back gives that type (with lines 568-596) |
| AttributeCommands.TypeLineCountsForParser | src/main/java/dev/charlieveg/loreattribute/command/AttributeCommandExecutor.java:439-459 | the line setTypeToItem writes is also the type the attribute parser reads |
| AttributeCommands.TypedItemAttributes | src/main/java/dev/charlieveg/loreattribute/command/AttributeCommandExecutor.java:439-459 | after setting type t, validity is membership in t's list (with lines 601-614) |
| AttributeCommands.ReadOnlyInNoTable | src/main/java/dev/charlieveg/loreattribute/command/AttributeCommandExecutor.java:29-52 | 总伤害 is valid for no item (with lines 601-614) |
| AttributeCommands.AddCommand | src/main/java/dev/charlieveg/loreattribute/command/AttributeCommandExecutor.java:142-195 | an add updates the item iff an item is held, the name is not read-only, it is valid for the item and the value parses |
| AttributeCommands.SetCommand | src/main/java/dev/charlieveg/loreattribute/command/AttributeCommandExecutor.java:196-231 | a set updates the item iff an item is held and the value parses, leaving exactly one line for the name |
| AttributeCommands.TypeCommand | src/main/java/dev/charlieveg/loreattribute/command/AttributeCommandExecutor.java:232-262 | a type command updates the item iff the type is one of the three, and the item then has that type |
| AttributeCommands.ReadOnlyOnlyGuardsAdd | src/main/java/dev/charlieveg/loreattribute/command/AttributeCommandExecutor.java:163-167 | add rejects 总伤害 while set accepts it (with lines 196-227) |
| AttributeCommands.Matching | src/main/java/dev/charlieveg/loreattribute/command/AttributeCommandExecutor.java:704-751 | keeps exactly the candidates with the typed prefix, in order |
| AttributeCommands.CompleteFrom | src/main/java/dev/charlieveg/loreattribute/command/AttributeCommandExecutor.java:704-751 | the filter loop computes Matching |
| AttributeCommands.TabComplete | src/main/java/dev/charlieveg/loreattribute/command/AttributeCommandExecutor.java:704-751 | completions for 3 or more arguments are empty, and every completion is a known candidate |
| AttributeCommands.EmptyPrefixKeepsAll | src/main/java/dev/charlieveg/loreattribute/command/AttributeCommandExecutor.java:704-751 | an empty prefix keeps every candidate |
| AttributeCommands.MatchingAppend | src/main/java/dev/charlieveg/loreattribute/command/AttributeCommandExecutor.java:704-751 | filtering distributes over concatenation, so order is kept |
| AttributeCommands.SubCommandIgnoresCase | src/main/java/dev/charlieveg/loreattribute/command/AttributeCommandExecutor.java:707-716 | the first argument is lowercased before matching |
| LoreLines.RemoveIf | src/main/java/dev/charlieveg/loreattribute/api/LoreAttributeAPI.java:680-757 | removeIf keeps exactly the lines the predicate rejects |
| LoreLines.RemoveIfAppend | src/main/java/dev/charlieveg/loreattribute/api/LoreAttributeAPI.java:680-757 | filtering keeps the original order |
| LoreLines.RemoveIfIdempotent | src/main/java/dev/charlieveg/loreattribute/api/LoreAttributeAPI.java:680-757 | filtering twice is filtering once |
| LoreLines.FirstIndex | src/main/java/dev/charlieveg/loreattribute/command/AttributeCommandExecutor.java:378-398 | a scan with an early exit returns an index whose line satisfies the test |
| LoreLines.FirstIndexAt | src/main/java/dev/charlieveg/loreattribute/command/AttributeCommandExecutor.java:378-398 | the scan stops at the first such line |
| LoreLines.FirstIndexNone | src/main/java/dev/charlieveg/loreattribute/command/AttributeCommandExecutor.java:378-398 | the scan finds nothing when no line satisfies the test |
| LoreApi.TypedLore | src/main/java/dev/charlieveg/loreattribute/api/LoreAttributeAPI.java:158-181 | setItemType's lore ends with the new type line, has no other type line, keeps every non-type line, and adds no line besides the type line |
| LoreApi.ModifiedLore | src/main/java/dev/charlieveg/loreattribute/api/LoreAttributeAPI.java:186-207 | modifyItemLore appends exactly one line; without replace the old lore is kept as it is, with replace exactly one line names the attribute |
| LoreApi.Pruned | src/main/java/dev/charlieveg/loreattribute/api/LoreAttributeAPI.java:680-757 | the remove helpers keep exactly the lines that fail their test |
| LoreApi.KeyLookup | src/main/java/dev/charlieveg/loreattribute/api/LoreAttributeAPI.java:801-824 | a key is found iff the name is in the table, and it is the table's key for the name |
| LoreApi.ApiKey | src/main/java/dev/charlieveg/loreattribute/api/LoreAttributeAPI.java:801-824 | getAttributeKey gives the table's key when there is one, otherwise the lowercased name |
| LoreApi.LoreAttributeApi.constructor | src/main/java/dev/charlieveg/loreattribute/api/LoreAttributeAPI.java:24 | the API starts uninitialised |
| LoreApi.LoreAttributeApi.Initialize | src/main/java/dev/charlieveg/loreattribute/api/LoreAttributeAPI.java:29-31 | the API is initialised afterwards |
| LoreApi.LoreAttributeApi.GetItemType | src/main/java/dev/charlieveg/loreattribute/api/LoreAttributeAPI.java:216-230 | fails with IllegalState before initialisation, otherwise reads the parser's type |
| LoreApi.LoreAttributeApi.SetItemType | src/main/java/dev/charlieveg/loreattribute/api/LoreAttributeAPI.java:158-181 | fails with IllegalState before initialisation and IllegalArgument for an unknown type; the result reads back the type and keeps every non-type line |
| LoreApi.LoreAttributeApi.AddItemAttribute | src/main/java/dev/charlieveg/loreattribute/api/LoreAttributeAPI.java:127-141 | appends one attribute line to a copy of the item |
| LoreApi.LoreAttributeApi.SetItemAttribute | src/main/java/dev/charlieveg/loreattribute/api/LoreAttributeAPI.java:143-156 | replaces every line of the attribute by one line |
| LoreApi.LoreAttributeApi.RemoveItemAttribute | src/main/java/dev/charlieveg/loreattribute/api/LoreAttributeAPI.java:680-703 | drops the lines naming the attribute |
| LoreApi.LoreAttributeApi.RemoveAllItemAttributes | src/main/java/dev/charlieveg/loreattribute/api/LoreAttributeAPI.java:705-732 | drops every supported attribute line and keeps the item type |
| LoreApi.LoreAttributeApi.RemoveItemType | src/main/java/dev/charlieveg/loreattribute/api/LoreAttributeAPI.java:734-757 | drops the type lines, so the item reads as untyped |
| LoreApi.LoreAttributeApi.GetAttributesForItemType | src/main/java/dev/charlieveg/loreattribute/api/LoreAttributeAPI.java:606-628 | an unknown type fails with IllegalArgument; otherwise the type's list, all of whose names are supported |
| LoreApi.LoreAttributeApi.IsValidAttributeForItemType | src/main/java/dev/charlieveg/loreattribute/api/LoreAttributeAPI.java:630-641 | an unknown type fails; otherwise membership in the type's list |
| LoreApi.LoreAttributeApi.IsValidAttributeForItem | src/main/java/dev/charlieveg/loreattribute/api/LoreAttributeAPI.java:643-655 | for an item of a known type, true exactly when the name is in its type's list; an untyped item gives false |
| LoreApi.LoreAttributeApi.CanPlaceItemInBattleSlot | src/main/java/dev/charlieveg/loreattribute/api/LoreAttributeAPI.java:371-380 | a slot outside 1..5 fails with IllegalArgument; otherwise the manager's check on BATTLE_SLOTS[k-1] |
| LoreApi.LoreAttributeApi.GetBattleInventoryItem | src/main/java/dev/charlieveg/loreattribute/api/LoreAttributeAPI.java:297-310 | a slot outside 1..5 fails before the inventory is touched; otherwise it reads BATTLE_SLOTS[k-1] |
| LoreApi.LoreAttributeApi.SetBattleInventoryItem | src/main/java/dev/charlieveg/loreattribute/api/LoreAttributeAPI.java:280-295 | a slot outside 1..5 fails and changes nothing; otherwise it writes only that slot of that player |
| LoreApi.LoreAttributeApi.HasAttribute | src/main/java/dev/charlieveg/loreattribute/api/LoreAttributeAPI.java:773-785 | true iff the parser produced the key that getAttributeKey gives for the name, and that key is then a canonical key |
| LoreApi.LoreAttributeApi.GetItemAttributeValue | src/main/java/dev/charlieveg/loreattribute/api/LoreAttributeAPI.java:787-799 | a parsed attribute reads as its parsed value, an absent one as 0 |
| LoreApi.TypedLoreRead | src/main/java/dev/charlieveg/loreattribute/api/LoreAttributeAPI.java:158-181 | getItemType(setItemType(item, t)) is t for each of the three types (with lines 216-230) |
| LoreApi.PrunedKeepsOrder | src/main/java/dev/charlieveg/loreattribute/api/LoreAttributeAPI.java:680-757 | the remove helpers keep the remaining lines in their original order |
| LoreApi.ApiReadsCommandType | src/main/java/dev/charlieveg/loreattribute/api/LoreAttributeAPI.java:216-230 | the API reads the type the command wrote |
| LoreApi.TypedItemValidity | src/main/java/dev/charlieveg/loreattribute/api/LoreAttributeAPI.java:158-181 | after setItemType(t), validity is membership in t's list (with lines 643-655) |
| LoreApi.RemovedTypeInvalidates | src/main/java/dev/charlieveg/loreattribute/api/LoreAttributeAPI.java:643-655 | after removeItemType no attribute is valid for the item (with lines 734-757) |
| LoreApi.SetTwiceKeepsOne | src/main/java/dev/charlieveg/loreattribute/api/LoreAttributeAPI.java:143-156 | two sets of one attribute leave exactly one line, holding the second value (with lines 186-207) |
| LoreApi.MismatchedApiKeys | src/main/java/dev/charlieveg/loreattribute/api/LoreAttributeAPI.java:801-824 | 护甲穿透, 生命恢复 and 移动速度 map to penetration, regen and speed |
| LoreApi.MismatchedKeysNeverFound | src/main/java/dev/charlieveg/loreattribute/api/LoreAttributeAPI.java:773-824 | those three names are never found on any item, and read as 0 |
| LoreApi.UnparsedKeyNeverFound | src/main/java/dev/charlieveg/loreattribute/api/LoreAttributeAPI.java:773-824 | a name whose key the parser never produces is never found |
| LoreApi.TypeOfLinesFilter | src/main/java/dev/charlieveg/loreattribute/api/LoreAttributeAPI.java:680-732 | removing non-type lines does not change the item type |
| LoreEditor.NumberEnd | src/main/java/dev/charlieveg/loreattribute/manager/LoreEditorManager.java:61-66 | the number token runs at least to the end of the pattern's match and never past the text (with line 25) |
| LoreEditor.BuildText | src/main/java/dev/charlieveg/loreattribute/manager/LoreEditorManager.java:78-98 | the rebuilt text starts with the line's colour codes |
| LoreEditor.ParseTextNoNumber | src/main/java/dev/charlieveg/loreattribute/manager/LoreEditorManager.java:48-73 | hasNumber holds iff the number pattern matches the code-free text; otherwise prefix is the trimmed text and number and suffix are empty |
| LoreEditor.ParseTextAt | src/main/java/dev/charlieveg/loreattribute/manager/LoreEditorManager.java:61-66 | a match at k splits the text into the trimmed text before k, the token, and the trimmed rest |
| LoreEditor.ParseJoined | src/main/java/dev/charlieveg/loreattribute/manager/LoreEditorManager.java:48-98 | parsing the joined parts of a colour-free line gives back prefix, number and suffix |
| LoreEditor.RebuildRoundTrip | src/main/java/dev/charlieveg/loreattribute/manager/LoreEditorManager.java:48-98 | for colour-free text, parsing the rebuilt text gives the same hasNumber, prefix, number and suffix |
| LoreEditor.TokenIsValid | src/main/java/dev/charlieveg/loreattribute/manager/LoreEditorManager.java:354-365 | every token the number pattern can match passes isValidNumber (with line 25) |
| LoreEditor.ParsedNumberIsValid | src/main/java/dev/charlieveg/loreattribute/manager/LoreEditorManager.java:48-73 | a number found by parseText is always accepted when typed back in number mode (with lines 354-365) |
| LoreEditor.ParsedLines | src/main/java/dev/charlieveg/loreattribute/manager/LoreEditorManager.java:136-148 | each lore line becomes one parsed line, in order |
| LoreEditor.LoadedLines | src/main/java/dev/charlieveg/loreattribute/manager/LoreEditorManager.java:136-148 | a session always starts with at least one line, one empty line when the item has no lore |
| LoreEditor.Visible | src/main/java/dev/charlieveg/loreattribute/manager/LoreEditorManager.java:153-168 | saving keeps only lines that are not blank after trimming, never more lines than given |
| LoreEditor.Rebuilt | src/main/java/dev/charlieveg/loreattribute/manager/LoreEditorManager.java:153-168 | each line is rebuilt in order |
| LoreEditor.VisibleAll | src/main/java/dev/charlieveg/loreattribute/manager/LoreEditorManager.java:153-168 | with no blank line nothing is dropped |
| LoreEditor.SavedLoreAllVisible | src/main/java/dev/charlieveg/loreattribute/manager/LoreEditorManager.java:153-168 | when no rebuilt line is blank the saved lore is every rebuilt line, in order |
| LoreEditor.EmptyLine | src/main/java/dev/charlieveg/loreattribute/manager/LoreEditorManager.java:39-73 | the empty line parses to an empty line without a number and rebuilds to a blank text (with lines 183-189) |
| LoreEditor.Deleted | src/main/java/dev/charlieveg/loreattribute/manager/LoreEditorManager.java:191-199 | deleting acts only with more than one line and a valid index: it removes exactly that line, sets modified and clamps the index; it keeps 1 <= \|lines\| and 0 <= index < \|lines\| |
| LoreEditor.Previous | src/main/java/dev/charlieveg/loreattribute/manager/LoreEditorManager.java:204-211 | moving back decrements the index unless at 0, keeps it in range and changes nothing else |
| LoreEditor.Next | src/main/java/dev/charlieveg/loreattribute/manager/LoreEditorManager.java:213-218 | moving on increments the index unless at the last line, keeps it in range and changes nothing else |
| LoreEditor.MoveBackAndForth | src/main/java/dev/charlieveg/loreattribute/manager/LoreEditorManager.java:204-218 | moving on and back, or back and on, returns to the same state where possible |
| LoreEditor.Appended | src/main/java/dev/charlieveg/loreattribute/manager/LoreEditorManager.java:183-189 | adding a line appends one empty line, sets modified and keeps the index |
| LoreEditor.AppendedSavesSame | src/main/java/dev/charlieveg/loreattribute/manager/LoreEditorManager.java:153-168 | an added empty line is dropped again on save (with lines 183-189) |
| LoreEditor.CurrentLine | src/main/java/dev/charlieveg/loreattribute/manager/LoreEditorManager.java:173-178 | there is no current line exactly when the index is out of range, which a valid session never is |
| LoreEditor.EditedLine | src/main/java/dev/charlieveg/loreattribute/manager/LoreEditorManager.java:316-343 | text mode re-parses the colour-translated input, prefix and suffix modes replace that part, number mode replaces the number iff it is valid |
| LoreEditor.Input | src/main/java/dev/charlieveg/loreattribute/manager/LoreEditorManager.java:305-349 | input is refused in VIEW mode or without a current line; otherwise the current line becomes the edit mode's edited line, modified is set and the mode returns to VIEW, except that invalid number input is taken and changes nothing |
| LoreEditor.LoreEditSession.constructor | src/main/java/dev/charlieveg/loreattribute/manager/LoreEditorManager.java:121-148 | a new session holds the loaded lines with index 0, mode VIEW and modified false |
| LoreEditor.LoreEditSession.SaveLoreToItem | src/main/java/dev/charlieveg/loreattribute/manager/LoreEditorManager.java:153-168 | the edited item's lore becomes the rebuilt, non-blank lines, and modified is set |
| LoreEditor.LoreEditSession.BuildLore | src/main/java/dev/charlieveg/loreattribute/manager/LoreEditorManager.java:157-163 | the rebuild loop computes the saved lore |
| LoreEditor.LoreEditSession.GetCurrentLine | src/main/java/dev/charlieveg/loreattribute/manager/LoreEditorManager.java:173-178 | reads the current line of the session state |
| LoreEditor.LoreEditSession.AddNewLine | src/main/java/dev/charlieveg/loreattribute/manager/LoreEditorManager.java:183-189 | the session state moves as Appended prescribes |
| LoreEditor.LoreEditSession.DeleteLine | src/main/java/dev/charlieveg/loreattribute/manager/LoreEditorManager.java:191-199 | the session state moves as Deleted prescribes |
| LoreEditor.LoreEditSession.MovePrevious | src/main/java/dev/charlieveg/loreattribute/manager/LoreEditorManager.java:204-211 | the session state moves as Previous prescribes |
| LoreEditor.LoreEditSession.MoveNext | src/main/java/dev/charlieveg/loreattribute/manager/LoreEditorManager.java:213-218 | the session state moves as Next prescribes |
| LoreEditor.LoreEditSession.HandleInput | src/main/java/dev/charlieveg/loreattribute/manager/LoreEditorManager.java:311-349 | the session state and the answer are as Input prescribes |
| LoreEditor.LoreEditSession.EditLine | src/main/java/dev/charlieveg/loreattribute/manager/LoreEditorManager.java:316-343 | computes the edited line for the mode |
| LoreEditor.LoreEditorManager.constructor | src/main/java/dev/charlieveg/loreattribute/manager/LoreEditorManager.java:21-22 | no sessions at first |
| LoreEditor.LoreEditorManager.StartEdit | src/main/java/dev/charlieveg/loreattribute/manager/LoreEditorManager.java:241-252 | a missing or AIR item starts nothing; otherwise a fresh session replaces the player's entry |
| LoreEditor.LoreEditorManager.GetEditSession | src/main/java/dev/charlieveg/loreattribute/manager/LoreEditorManager.java:254-256 | returns the player's session iff there is one |
| LoreEditor.LoreEditorManager.EndEdit | src/main/java/dev/charlieveg/loreattribute/manager/LoreEditorManager.java:261-263 | removes exactly the player's session; cancelEdit does the same (with lines 298-300) |
| LoreEditor.LoreEditorManager.HandleChatInput | src/main/java/dev/charlieveg/loreattribute/manager/LoreEditorManager.java:305-349 | false without a session; otherwise the session's answer to the input |
| LoreEditor.LoreEditorManager.SaveEdit | src/main/java/dev/charlieveg/loreattribute/manager/LoreEditorManager.java:268-296 | succeeds iff the player has a session, whose item then carries the saved lore |
| AttributeEffects.AttackInterval | src/main/java/dev/charlieveg/loreattribute/listener/AttributeEffectListener.java:92-98 | the interval is at most 600 for non-negative attack speed, at least 576 always, and exactly 576 from attack speed 200 on |
| AttributeEffects.AttackIntervalMonotone | src/main/java/dev/charlieveg/loreattribute/listener/AttributeEffectListener.java:92-98 | more attack speed never lengthens the interval |
| AttributeEffects.FloorNeverBinds | src/main/java/dev/charlieveg/loreattribute/listener/AttributeEffectListener.java:92-98 | because attack speed is capped at 200, the 50 ms floor never applies |
| AttributeEffects.IntendedAttackInterval | src/main/java/dev/charlieveg/loreattribute/listener/AttributeEffectListener.java:94-98 | the interval as the comment describes it: each point takes 12 ms (2%) off the 600 ms base until the 50 ms floor |
| AttributeEffects.OnePointOfAttackSpeed | src/main/java/dev/charlieveg/loreattribute/listener/AttributeEffectListener.java:94-98 | one point of attack speed gives 599.88 ms as written and 588 ms as described |
| AttributeEffects.Recent | src/main/java/dev/charlieveg/loreattribute/listener/AttributeEffectListener.java:241-254 | cleanup removes exactly the entries older than 600000 ms and keeps the rest unchanged |
| AttributeEffects.CleanupKeepsDecisions | src/main/java/dev/charlieveg/loreattribute/listener/AttributeEffectListener.java:101-115 | cleanup never changes whether a later attack is cancelled (with lines 241-254) |
| AttributeEffects.AcceptedAttackStartsCooldown | src/main/java/dev/charlieveg/loreattribute/listener/AttributeEffectListener.java:101-115 | after an accepted attack, the next one is cancelled iff it comes within the interval |
| AttributeEffects.AttributeEffectListener.constructor | src/main/java/dev/charlieveg/loreattribute/listener/AttributeEffectListener.java:32-36 | no cooldowns at first |
| AttributeEffects.AttributeEffectListener.OnPlayerAttack | src/main/java/dev/charlieveg/loreattribute/listener/AttributeEffectListener.java:60-121 | unchecked events (non-player damager, splash, gun) are left alone; otherwise an attack is cancelled iff a timestamp exists within the interval, and only accepted attacks record the time |
| AttributeEffects.AttributeEffectListener.CleanupOfflinePlayerCooldowns | src/main/java/dev/charlieveg/loreattribute/listener/AttributeEffectListener.java:241-254 | the pruning loop keeps exactly the recent entries |
| AttributeEffects.MaxHealthFor | src/main/java/dev/charlieveg/loreattribute/listener/AttributeEffectListener.java:172-199 | max health is (20 + health), scaled by 1 + finalHealth / 100 when finalHealth is positive, clamped to [1, 100] |
| AttributeEffects.MaxHealthMonotone | src/main/java/dev/charlieveg/loreattribute/listener/AttributeEffectListener.java:172-199 | more health never lowers max health |
| AttributeEffects.HealthAfter | src/main/java/dev/charlieveg/loreattribute/listener/AttributeEffectListener.java:191-194 | current health is lowered to the new maximum when it exceeds it, and otherwise kept |
| AttributeEffects.WalkSpeedFor | src/main/java/dev/charlieveg/loreattribute/listener/AttributeEffectListener.java:204-220 | walk speed is 0.2 × (1 + moveSpeed / 100) between -75% and +400%, 0.05 below and 1 above, so always within [0.05, 1] |
| AttributeEffects.WalkSpeedMonotone | src/main/java/dev/charlieveg/loreattribute/listener/AttributeEffectListener.java:204-220 | more moveSpeed never slows the player |
| AttributeEffects.RegenAmplifier | src/main/java/dev/charlieveg/loreattribute/listener/AttributeEffectListener.java:225-236 | regeneration applies iff healthHeal > 0, with amplifier floor(healthHeal/5) capped at 10 |
| AttributeEffects.PlayerEffects | src/main/java/dev/charlieveg/loreattribute/listener/AttributeEffectListener.java:152-167 | an offline player gets nothing; otherwise max health, current health, walk speed and regeneration within the bounds above |
| AttributeEffects.EmptyCacheBaseEffects | src/main/java/dev/charlieveg/loreattribute/listener/AttributeEffectListener.java:152-236 | an empty snapshot gives max health 20, walk speed 0.2 and no regeneration |
| FlansIntegration.NumberChars | src/main/java/dev/charlieveg/loreattribute/util/FlansModuleIntegration.java:190-210 | keeps exactly the digits and dots of the text |
| FlansIntegration.NumberCharsAppend | src/main/java/dev/charlieveg/loreattribute/util/FlansModuleIntegration.java:190-210 | the filter works piece by piece |
| FlansIntegration.LoreValue | src/main/java/dev/charlieveg/loreattribute/util/FlansModuleIntegration.java:190-192 | a value read from lore is never negative |
| FlansIntegration.LoreValueParses | src/main/java/dev/charlieveg/loreattribute/util/FlansModuleIntegration.java:190-192 | the value is parseDouble of the digits and dots |
| FlansIntegration.DamageValue | src/main/java/dev/charlieveg/loreattribute/util/FlansModuleIntegration.java:188-193 | a damage value is never negative |
| FlansIntegration.CritValue | src/main/java/dev/charlieveg/loreattribute/util/FlansModuleIntegration.java:198-206 | a crit value is never negative |
| FlansIntegration.ArmorBreakValue | src/main/java/dev/charlieveg/loreattribute/util/FlansModuleIntegration.java:208-213 | an armorBreak value is never negative |
| FlansIntegration.Put | src/main/java/dev/charlieveg/loreattribute/util/FlansModuleIntegration.java:188-213 | put overwrites only its own key and leaves the map alone without a value |
| FlansIntegration.ParsedLore | src/main/java/dev/charlieveg/loreattribute/util/FlansModuleIntegration.java:184-214 | a lore line changes only damage, crit and armorBreak, and any value it writes is non-negative |
| FlansIntegration.Puts | src/main/java/dev/charlieveg/loreattribute/util/FlansModuleIntegration.java:188-213 | the three puts overwrite exactly the keys that have values |
| FlansIntegration.PutsAgain | src/main/java/dev/charlieveg/loreattribute/util/FlansModuleIntegration.java:188-213 | doing the three puts twice is doing them once |
| FlansIntegration.DamageOverwrites | src/main/java/dev/charlieveg/loreattribute/util/FlansModuleIntegration.java:188-193 | a damage line overwrites, rather than sums, `damage` |
| FlansIntegration.DamageKept | src/main/java/dev/charlieveg/loreattribute/util/FlansModuleIntegration.java:188-193 | a line without a damage value leaves `damage` as it was |
| FlansIntegration.CritOnlyFromMarkers | src/main/java/dev/charlieveg/loreattribute/util/FlansModuleIntegration.java:198-206 | only lines containing 致命几率: or 暴击率: touch `crit` |
| FlansIntegration.CritFromSecondPiece | src/main/java/dev/charlieveg/loreattribute/util/FlansModuleIntegration.java:198-206 | crit is read from the text after the first colon |
| FlansIntegration.ArmorBreakOnlyFromPenetration | src/main/java/dev/charlieveg/loreattribute/util/FlansModuleIntegration.java:208-213 | armorBreak is written from a 穿透 line and left alone otherwise |
| FlansIntegration.ParsedLoreIdempotent | src/main/java/dev/charlieveg/loreattribute/util/FlansModuleIntegration.java:184-214 | reading the same line twice gives the same map as reading it once |
| FlansIntegration.ColorCodeIgnored | src/main/java/dev/charlieveg/loreattribute/util/FlansModuleIntegration.java:185 | colour codes are removed before any check |
| FlansIntegration.PenetratingAttackLine | src/main/java/dev/charlieveg/loreattribute/util/FlansModuleIntegration.java:188-213 | `攻击穿透 5` sets both damage and armorBreak to 5 |
| FlansIntegration.DamageAndArmorBreakAgree | src/main/java/dev/charlieveg/loreattribute/util/FlansModuleIntegration.java:188-213 | a line that sets both damage and armorBreak gives them the same value |
| FlansIntegration.NonNumberCharIgnored | src/main/java/dev/charlieveg/loreattribute/util/FlansModuleIntegration.java:190 | characters other than digits and dots do not affect the value, so the sign is dropped |
| FlansIntegration.NumbersRunTogether | src/main/java/dev/charlieveg/loreattribute/util/FlansModuleIntegration.java:190 | two digit groups separated by other characters are read as one number |
| FlansIntegration.GunAttributes.constructor | src/main/java/dev/charlieveg/loreattribute/util/FlansModuleIntegration.java:160 | gun attributes start empty |
| FlansIntegration.GunAttributes.ParseNumber | src/main/java/dev/charlieveg/loreattribute/util/FlansModuleIntegration.java:190-192 | reads the digits-and-dots value |
| FlansIntegration.GunAttributes.ParseAttributeFromLore | src/main/java/dev/charlieveg/loreattribute/util/FlansModuleIntegration.java:184-214 | the map is updated as ParsedLore prescribes |
| FlansIntegration.GunAttributes.PutDamage | src/main/java/dev/charlieveg/loreattribute/util/FlansModuleIntegration.java:188-193 | puts the damage value |
| FlansIntegration.GunAttributes.PutCrit | src/main/java/dev/charlieveg/loreattribute/util/FlansModuleIntegration.java:198-206 | puts the crit value |
| FlansIntegration.GunAttributes.PutArmorBreak | src/main/java/dev/charlieveg/loreattribute/util/FlansModuleIntegration.java:208-213 | puts the armorBreak value |
| LoreApi.ArmorBreakLineMissed | src/main/java/dev/charlieveg/loreattribute/api/LoreAttributeAPI.java:773-824 | the parser reads `护甲穿透: 5` as armorBreak 5, yet hasAttribute(item, 护甲穿透) is false |
| LoreApi.LoreAttributeApi.HasParsedAttribute | src/main/java/dev/charlieveg/loreattribute/api/LoreAttributeAPI.java:773-785 | corrected hasAttribute: true exactly when the parser's key for the name is among the item's parsed keys; a name the parser cannot translate is never found |
| LoreApi.LoreAttributeApi.GetParsedAttributeValue | src/main/java/dev/charlieveg/loreattribute/api/LoreAttributeAPI.java:787-799 | corrected getItemAttributeValue: the parsed value under the parser's key for the name, 0 when absent |
| LoreApi.ParsedKeyFindsLine | src/main/java/dev/charlieveg/loreattribute/api/LoreAttributeAPI.java:773-799 | with the corrected key, an item carrying `<label>: <number>` has that attribute, with that value |

## Left out

- Chat messages, particles, sounds and the application of potion effects: output only; the model computes the values they show or apply.
- Permission checks, argument-count checks, and help and debug output of the commands: they do not change state.
- `formatValue` and `String.format`: number formatting is the parameter `fmt`.
- `Double.parseDouble` on `NaN`, `Infinity`, hexadecimal text and other non-decimal forms: such text is treated as unparsable.
- Floating-point rounding and the `float` cast of the walk speed in `applySpecialAttributes`: values are exact reals. The regeneration amplifier's `int` truncation is exact for the non-negative values the formula produces.
- `applyColors` and `getAvailableColors` of the lore editor: they only print.
- The API's player, configuration, debug, statistics and restriction delegations, and `getSupportedItemTypes`: they forward to other managers or return constants.
- `setPlayerAttribute` and `addPlayerAttribute` of `AttributeManager`: deprecated, they only print a warning and change nothing.
- `getAllPlayerAttributes` and `getAttributeDisplayName` of `AttributeManager`: a copy of the cache, and a reverse alias lookup that depends on the `HashMap` order and only feeds the API's info text.
- `forceUpdatePlayerAttributes` and the scheduler tasks of the effect listener: the model applies the update directly.
- The Flans mod setup, `isFlansBullet`, `getBulletShooter`, `isFlansGun` and `extractFlansGunAttributes`: they use reflection on a foreign mod; whether an entity is a bullet, and who shot it, are inputs.
- A lore list that contains `null`: the model's lore lines are strings, so the skip of null lines is not modelled.
- Configuration loading and reloading of the restriction rules and the battle inventory settings: the rules and settings are parameters.
- Opening inventories and building menus: UI only.
- Concurrency: the maps are plain `map` fields and the thread-local flags plain boolean fields, so interleavings are not modelled.
- `createBattleInventoryItem` and `saveAllBattleInventories`: item building for menus and persistence.
- Bukkit setters (`setHealth`, `setMaxHealth`, `setWalkSpeed`, `setDamage`): the model computes the values passed to them.
- The one-tick scheduling of the area splash and the re-validation of entities before it: the model runs the splash as a separate, later call.
- `EquipmentRestrictionCommand`: its commands only print and reload configuration.
- `toLowerCase` lowers ASCII letters only: the table's labels are Chinese or ASCII, so other scripts' case mapping is not modelled.
- `ItemStack.equals` in the restriction checks is equality of the modelled item (material and lore): amount, durability and other meta are not part of the model.
- The `updatePlayerAttributes` call that follows a command's add, set or type edit: the recomputation itself is `AttributeManager.UpdatePlayerAttributes`.
- SpecialAttributes: a maximum health of 0, which Bukkit never reports, leaves health and maximum health unchanged instead of dividing by zero.
- MaxHealthFor, WalkSpeedFor and SpecialAttributes: the float cast and double rounding are not modelled, so boundary values may differ in the last bits.

## Findings

| source | as written | input that shows it | evidently intended | confidence | as-written member | corrected member |
|---|---|---|---|---|---|---|
| src/main/java/dev/charlieveg/loreattribute/data/BattleInventory.java:61-75 | `setCoreItems` puts the five cores at slots 10..14 | a new or cleared inventory: slot 10, a glass slot, gets a core and battle slot 15 stays empty, so fewer than five battle slots hold cores | cores at the battle slots 11..15, as `BattleInventoryManager` places them | not executed | BattleInventories.CoreItemsOffByOne | BattleInventories.ClearedHoldsCores |
| src/main/java/dev/charlieveg/loreattribute/data/BattleInventory.java:147-181 | `canPlaceItem` compares stripped lore with the required lore before its `&` codes are translated | an item whose lore line is the slot's translated marker is rejected | the marker is translated before it is stripped, as `BattleInventoryManager` does | not executed | BattleInventories.UntranslatedMarkerRejects | BattleInventories.CanPlaceMarked |
| src/main/java/dev/charlieveg/loreattribute/listener/AttributeEffectListener.java:94-98 | each attack-speed point takes 0.02% off the 600 ms interval (`/ 100.0 * 0.02`), so even 200 points leave 576 ms and the 50 ms floor is dead code | attack speed 1: 599.88 ms, where the comment's 2% gives 588 ms | 2% per point, as the comment says, floored at 50 ms | not executed | AttributeEffects.OnePointOfAttackSpeed | AttributeEffects.IntendedAttackInterval |
| src/main/java/dev/charlieveg/loreattribute/api/LoreAttributeAPI.java:801-824 | the API's name table maps `护甲穿透` to `penetration`, a key the parser never produces | an item with the lore line `护甲穿透: 5`: the parser reads armorBreak 5, but `hasAttribute(item, "护甲穿透")` is false | the API looks the name up with the parser's own alias table | not executed | LoreApi.ArmorBreakLineMissed | LoreApi.ParsedKeyFindsLine |
