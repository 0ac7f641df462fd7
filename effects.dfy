/**
 * AttributeEffectListener: the melee attack-speed limit kept in a
 * per-player map of last attack times, the pruning of that map, and the
 * values the listener computes for maximum health, walk speed and the
 * regeneration effect from a player's cached attributes.
 *
 * The clock is an input (`now`, in milliseconds); players are numbered.
 * Whether the damager is a player, whether the combat listener is in its
 * splash phase and whether the held item is a Flans gun are inputs too.
 */
module AttributeEffects {
  import opened JavaText
  import opened AttributeManager

  /** Melee attacks closer together than this many milliseconds are cancelled, before attack speed. */
  const BaseInterval: real := 600.0
  /** The shortest interval the listener allows. */
  const MinInterval: real := 50.0
  /** Entries older than ten minutes are pruned. */
  const CleanupThreshold: int := 10 * 60 * 1000

  function Min(a: real, b: real): real { if a <= b then a else b }
  function Max(a: real, b: real): real { if a >= b then a else b }

  // ------------------------------------------------------------ attack speed

  /**
   * The attack interval for an attack-speed value: each point, up to 200,
   * takes 0.02% off the 600 ms base, and the result is floored at 50 ms.
   */
  function AttackInterval(attackSpeed: real): (r: real)
    ensures r >= BaseInterval * 0.96
    ensures attackSpeed >= 0.0 ==> r <= BaseInterval
    ensures attackSpeed >= 200.0 ==> r == 576.0
    ensures attackSpeed <= 0.0 ==> r >= BaseInterval
  {
    var reduction := Min(attackSpeed, 200.0);
    var factor := reduction / 100.0 * 0.02;
    Max(BaseInterval * (1.0 - factor), MinInterval)
  }

  /** More attack speed never lengthens the interval. */
  lemma {:induction false} AttackIntervalMonotone(a: real, b: real)
    requires a <= b
    ensures AttackInterval(b) <= AttackInterval(a)
  {
    var fa := Min(a, 200.0) / 100.0 * 0.02;
    var fb := Min(b, 200.0) / 100.0 * 0.02;
    assert fa <= fb;
  }

  /** The 50 ms floor never applies: no attack speed brings the interval below 576 ms. */
  lemma {:induction false} FloorNeverBinds(attackSpeed: real)
    ensures BaseInterval * (1.0 - Min(attackSpeed, 200.0) / 100.0 * 0.02) > MinInterval
    ensures AttackInterval(attackSpeed) == BaseInterval * (1.0 - Min(attackSpeed, 200.0) / 100.0 * 0.02)
  {
  }

  /**
   * The interval as the comment beside the formula describes it: each point
   * of attack speed, up to 200, takes 2% (12 ms) off the 600 ms base, and
   * the 50 ms floor is reached a little before 46 points.
   */
  function IntendedAttackInterval(attackSpeed: real): (r: real)
    ensures MinInterval <= r
    ensures 0.0 <= attackSpeed && 12.0 * attackSpeed <= 550.0 ==> r == BaseInterval - 12.0 * attackSpeed
    ensures 12.0 * attackSpeed >= 550.0 ==> r == MinInterval
    ensures attackSpeed <= 0.0 ==> r >= BaseInterval
  {
    var points := Min(attackSpeed, 200.0);
    assert BaseInterval * (1.0 - points * 0.02) == 600.0 - 12.0 * points;
    Max(BaseInterval * (1.0 - points * 0.02), MinInterval)
  }

  /** One point of attack speed takes 0.12 ms off the interval as written, where 2% would be 12 ms. */
  lemma {:induction false} OnePointOfAttackSpeed()
    ensures AttackInterval(1.0) == 599.88
    ensures IntendedAttackInterval(1.0) == 588.0
  {
    FloorNeverBinds(1.0);
  }

  /** An attack at `now` is cancelled when the player's last recorded attack is within the interval. */
  predicate Cancels(cooldowns: map<nat, int>, player: nat, now: int, attackSpeed: real)
  {
    player in cooldowns && ((now - cooldowns[player]) as real) < AttackInterval(attackSpeed)
  }

  /** The entries cleanup keeps: those at most ten minutes old. */
  function Recent(cooldowns: map<nat, int>, now: int): (r: map<nat, int>)
    ensures r.Keys <= cooldowns.Keys
    ensures forall p :: p in r ==> r[p] == cooldowns[p] && now - r[p] <= CleanupThreshold
    ensures forall p :: p in cooldowns && p !in r ==> now - cooldowns[p] > CleanupThreshold
  {
    map p | p in cooldowns && now - cooldowns[p] <= CleanupThreshold :: cooldowns[p]
  }

  /**
   * Pruning never changes whether a later attack is cancelled, as long as
   * the interval stays within the ten-minute threshold (any attack speed
   * above -4,995,000 does).
   */
  lemma {:induction false} CleanupKeepsDecisions(cooldowns: map<nat, int>, now: int, later: int, player: nat, attackSpeed: real)
    requires now <= later && AttackInterval(attackSpeed) <= CleanupThreshold as real
    ensures Cancels(Recent(cooldowns, now), player, later, attackSpeed) == Cancels(cooldowns, player, later, attackSpeed)
  {
    if player in cooldowns && player !in Recent(cooldowns, now) {
      assert later - cooldowns[player] > CleanupThreshold;
      assert ((later - cooldowns[player]) as real) > CleanupThreshold as real;
    }
  }

  /** An attack made right after an accepted one is cancelled; one an interval later is not. */
  lemma {:induction false} AcceptedAttackStartsCooldown(cooldowns: map<nat, int>, player: nat, now: int, later: int, attackSpeed: real)
    requires now <= later
    ensures Cancels(cooldowns[player := now], player, later, attackSpeed) <==> ((later - now) as real) < AttackInterval(attackSpeed)
    ensures later - now >= 600 ==> !Cancels(cooldowns[player := now], player, later, attackSpeed) || attackSpeed < 0.0
  {
  }

  /** The attack event as the listener sees it. */
  datatype AttackEvent = AttackEvent(cancelled: bool, damagerIsPlayer: bool, attacker: nat, holdsFlansGun: bool)

  /** The attack-speed check applies: an uncancelled melee hit by a player, outside a splash, without a gun. */
  predicate Checked(event: AttackEvent, processingAoe: bool)
  {
    !event.cancelled && event.damagerIsPlayer && !processingAoe && !event.holdsFlansGun
  }

  class AttributeEffectListener {
    /** attackCooldowns: each player's last accepted melee attack time. */
    var attackCooldowns: map<nat, int>

    constructor()
      ensures attackCooldowns == map[]
    {
      attackCooldowns := map[];
    }

    /**
     * onPlayerAttack: the event's cancelled flag afterwards. A checked attack
     * inside the interval is cancelled and leaves the map alone; an accepted
     * one records `now`.
     */
    method OnPlayerAttack(event: AttackEvent, processingAoe: bool, cached: Attrs, now: int) returns (cancelled: bool)
      modifies this
      ensures !Checked(event, processingAoe) ==> cancelled == event.cancelled && attackCooldowns == old(attackCooldowns)
      ensures Checked(event, processingAoe) ==>
        (cancelled <==> Cancels(old(attackCooldowns), event.attacker, now, Get(cached, "attackSpeed")))
      ensures Checked(event, processingAoe) && cancelled ==> attackCooldowns == old(attackCooldowns)
      ensures Checked(event, processingAoe) && !cancelled ==> attackCooldowns == old(attackCooldowns)[event.attacker := now]
    {
      if event.cancelled || !event.damagerIsPlayer || processingAoe || event.holdsFlansGun {
        return event.cancelled;
      }
      var player := event.attacker;
      var attackSpeed := Get(cached, "attackSpeed");
      var speedReduction := Min(attackSpeed, 200.0);
      var reductionFactor := speedReduction / 100.0 * 0.02;
      var interval := BaseInterval * (1.0 - reductionFactor);
      interval := Max(interval, MinInterval);
      if player in attackCooldowns && ((now - attackCooldowns[player]) as real) < interval {
        return true;
      }
      attackCooldowns := attackCooldowns[player := now];
      return false;
    }

    /** cleanupOfflinePlayerCooldowns: the iterator walk removes every entry older than ten minutes. */
    method CleanupOfflinePlayerCooldowns(now: int)
      modifies this
      ensures attackCooldowns == Recent(old(attackCooldowns), now)
    {
      var pending := attackCooldowns.Keys;
      while pending != {}
        invariant pending <= attackCooldowns.Keys <= old(attackCooldowns).Keys
        invariant forall p :: p in attackCooldowns ==> attackCooldowns[p] == old(attackCooldowns)[p]
        invariant forall p :: p in old(attackCooldowns) && p !in pending ==>
          (p in attackCooldowns <==> now - old(attackCooldowns)[p] <= CleanupThreshold)
        decreases pending
      {
        var p :| p in pending;
        if now - attackCooldowns[p] > CleanupThreshold {
          attackCooldowns := attackCooldowns - {p};
        }
        pending := pending - {p};
      }
    }
  }

  // ------------------------------------------------------------ health, speed, regeneration

  /** applyHealthAttribute's maximum health: 20 plus `health`, scaled up by a positive `finalHealth`, within 1..100. */
  function MaxHealthFor(health: real, percent: real): (r: real)
    ensures 1.0 <= r <= 100.0
    ensures percent <= 0.0 && -19.0 <= health <= 80.0 ==> r == 20.0 + health
    ensures percent > 0.0 && 1.0 <= (20.0 + health) * (1.0 + percent / 100.0) <= 100.0 ==>
      r == (20.0 + health) * (1.0 + percent / 100.0)
    ensures Scaled(20.0 + health, percent) >= 100.0 ==> r == 100.0
    ensures Scaled(20.0 + health, percent) <= 1.0 ==> r == 1.0
  {
    ClampHealth(Scaled(20.0 + health, percent))
  }

  /** The base health, raised by a positive percentage. */
  function Scaled(base: real, percent: real): real
  {
    if percent > 0.0 then base * (1.0 + percent / 100.0) else base
  }

  /** Math.min(.., 100) then Math.max(.., 1). */
  function ClampHealth(x: real): real
  {
    Max(Min(x, 100.0), 1.0)
  }

  /** More flat health never lowers the maximum. */
  lemma {:induction false} MaxHealthMonotone(h1: real, h2: real, percent: real)
    requires h1 <= h2
    ensures MaxHealthFor(h1, percent) <= MaxHealthFor(h2, percent)
  {
    if percent > 0.0 {
      ScaleMonotone(20.0 + h1, 20.0 + h2, 1.0 + percent / 100.0);
    }
    ClampMonotone(Scaled(20.0 + h1, percent), Scaled(20.0 + h2, percent));
  }

  lemma {:induction false} ClampMonotone(x: real, y: real)
    requires x <= y
    ensures ClampHealth(x) <= ClampHealth(y)
  {
  }

  lemma {:induction false} ScaleMonotone(x: real, y: real, f: real)
    requires x <= y && f > 0.0
    ensures x * f <= y * f
  {
    assert (y - x) * f >= 0.0;
  }

  /** The current health after the new maximum is set: lowered to the maximum when above it. */
  function HealthAfter(current: real, maxHealth: real): (r: real)
    ensures r <= maxHealth && r <= current
    ensures r == current || r == maxHealth
  {
    if current > maxHealth then maxHealth else current
  }

  /** applySpeedAttribute's walk speed: 0.2 scaled by `moveSpeed` percent, within 0.05..1.0. */
  function WalkSpeedFor(moveSpeed: real): (r: real)
    ensures 0.05 <= r <= 1.0
    ensures -75.0 <= moveSpeed <= 400.0 ==> r == 0.2 * (1.0 + moveSpeed / 100.0)
    ensures moveSpeed == 0.0 ==> r == 0.2
    ensures moveSpeed >= 400.0 ==> r == 1.0
    ensures moveSpeed <= -75.0 ==> r == 0.05
  {
    Max(Min(0.2 * (1.0 + moveSpeed / 100.0), 1.0), 0.05)
  }

  /** More move speed never slows the player. */
  lemma {:induction false} WalkSpeedMonotone(a: real, b: real)
    requires a <= b
    ensures WalkSpeedFor(a) <= WalkSpeedFor(b)
  {
    assert 0.2 * (1.0 + a / 100.0) <= 0.2 * (1.0 + b / 100.0);
  }

  /** applyHealthRegeneration's amplifier: one level per 5 points of healthHeal, at most 10; none without healthHeal. */
  function RegenAmplifier(healthHeal: real): (r: Option<int>)
    ensures r.Some? <==> healthHeal > 0.0
    ensures r.Some? ==> 0 <= r.value <= 10
    ensures r.Some? && r.value < 10 ==> (5 * r.value) as real <= healthHeal < (5 * r.value + 5) as real
    ensures r.Some? && r.value == 10 ==> healthHeal >= 50.0
  {
    if healthHeal > 0.0 then
      var level := (healthHeal / 5.0).Floor;
      Some(if level < 10 then level else 10)
    else None
  }

  /** What applyPlayerAttributeEffects sets for an online player. */
  datatype Effects = Effects(maxHealth: real, health: real, walkSpeed: real, regenAmplifier: Option<int>)

  /** applyPlayerAttributeEffects: nothing for an offline player, else the three effects from the cache. */
  function PlayerEffects(online: bool, cached: Attrs, currentHealth: real): (r: Option<Effects>)
    ensures r.None? <==> !online
    ensures r.Some? ==> 1.0 <= r.value.maxHealth <= 100.0 && r.value.health <= r.value.maxHealth
    ensures r.Some? ==> r.value.health <= currentHealth && 0.05 <= r.value.walkSpeed <= 1.0
    ensures r.Some? ==> (r.value.regenAmplifier.Some? <==> Get(cached, "healthHeal") > 0.0)
  {
    if !online then None
    else
      var maxHealth := MaxHealthFor(Get(cached, "health"), Get(cached, "finalHealth"));
      Some(Effects(maxHealth, HealthAfter(currentHealth, maxHealth),
        WalkSpeedFor(Get(cached, "moveSpeed")), RegenAmplifier(Get(cached, "healthHeal"))))
  }

  /** A player with no cached attributes gets the base values: 20 health, speed 0.2, no regeneration. */
  lemma {:induction false} EmptyCacheBaseEffects(currentHealth: real)
    ensures PlayerEffects(true, map[], currentHealth) == Some(Effects(20.0, HealthAfter(currentHealth, 20.0), 0.2, None))
  {
  }
}
