/**
 * The cards' pick-up procedures. Each one runs on the fresh copy of the player
 * that the card engine has just built, so it is modelled as a function from the
 * player before to the player after. `now` is the clock reading the Thunderbolt
 * and Barrier procedures take.
 */
module Pickups {
  import opened Numeric
  import opened GameTypes
  import opened Catalogue

  /** Runs the pick-up procedure `pk` on `p`. */
  function RunPickup(pk: Pickup, p: Player, now: real): (r: Player)
    // Nothing outside the procedures' own fields changes.
    ensures r == p.(stats := r.stats, hasRageActive := r.hasRageActive, appliesBleed := r.appliesBleed,
                    hasFragmentation := r.hasFragmentation, triggersThunderbolts := r.triggersThunderbolts,
                    hasBarrier := r.hasBarrier, appliesCold := r.appliesCold)
    ensures r.stats == p.stats.(currentHp := r.stats.currentHp, bleedDps := r.stats.bleedDps,
                                bleedDuration := r.stats.bleedDuration,
                                fragmentationCount := r.stats.fragmentationCount,
                                thunderboltInterval := r.stats.thunderboltInterval,
                                lastThunderboltTime := r.stats.lastThunderboltTime,
                                barrierCooldown := r.stats.barrierCooldown,
                                barrierHitsRemaining := r.stats.barrierHitsRemaining,
                                lastBarrierActivationTime := r.stats.lastBarrierActivationTime)
  {
    var s := p.stats;
    match pk
    case NoPickup => p
    case Cloak => p
    case Renew => p.(stats := s.(currentHp := s.maxHp))
    case Rage => p.(hasRageActive := true)
    case Wound => p.(appliesBleed := true, stats := s.(bleedDps := 2.0, bleedDuration := 3000.0))
    case Fragmentation =>
      // `fragmentationDamageMultiplier ?? base` keeps the value, which is never undefined.
      p.(hasFragmentation := true,
         stats := s.(fragmentationCount := OrElse(s.fragmentationCount, 0.0) + FragmentationCountBase))
    case Thunderbolt =>
      p.(triggersThunderbolts := true,
         stats := s.(thunderboltInterval := OrElse(s.thunderboltInterval, ThunderboltIntervalBase),
                      lastThunderboltTime := now))
    case Barrier =>
      var cooldown := OrElse(s.barrierCooldown, BarrierCooldownBase);
      p.(hasBarrier := true,
         stats := s.(barrierCooldown := cooldown,
                      barrierHitsRemaining := OrElse(s.barrierHitsRemaining, 0.0) + BarrierHitsBase,
                      lastBarrierActivationTime := now - OrElse(cooldown, BarrierCooldownBase)))
    case Cold => p.(appliesCold := true)
  }

  /**
   * Renew heals to the maximum and no other procedure touches health; each flag
   * is raised by its own procedure and by no other.
   */
  lemma PickupFlags(pk: Pickup, p: Player, now: real)
    ensures var r := RunPickup(pk, p, now);
      && (pk == Renew ==> r.stats.currentHp == r.stats.maxHp)
      && (pk != Renew ==> r.stats.currentHp == p.stats.currentHp)
      && r.hasRageActive == (p.hasRageActive || pk == Rage)
      && r.appliesBleed == (p.appliesBleed || pk == Wound)
      && r.hasFragmentation == (p.hasFragmentation || pk == Fragmentation)
      && r.triggersThunderbolts == (p.triggersThunderbolts || pk == Thunderbolt)
      && r.hasBarrier == (p.hasBarrier || pk == Barrier)
      && r.appliesCold == (p.appliesCold || pk == Cold)
  {
  }

  /** Fragmentation adds two fragments per pick and keeps the damage multiplier. */
  lemma FragmentationPickup(p: Player, now: real)
    ensures RunPickup(Fragmentation, p, now).stats.fragmentationCount == p.stats.fragmentationCount + 2.0
    ensures RunPickup(Fragmentation, p, now).stats.fragmentationDamageMultiplier == p.stats.fragmentationDamageMultiplier
  {
  }

  /**
   * Barrier adds one hit per pick, keeps a cooldown already set (else takes 8000 ms)
   * and backdates the last activation by exactly one cooldown.
   */
  lemma BarrierPickup(p: Player, now: real)
    ensures var r := RunPickup(Barrier, p, now);
      && r.stats.barrierHitsRemaining == p.stats.barrierHitsRemaining + 1.0
      && (p.stats.barrierCooldown != 0.0 ==> r.stats.barrierCooldown == p.stats.barrierCooldown)
      && (p.stats.barrierCooldown == 0.0 ==> r.stats.barrierCooldown == BarrierCooldownBase)
      && now - r.stats.lastBarrierActivationTime == r.stats.barrierCooldown
  {
  }

  /** Cold keeps the slow factor and the cap, so a cap of 1.0 set by Freezer survives a re-pick. */
  lemma ColdPickupKeepsCap(p: Player, now: real)
    ensures RunPickup(Cold, p, now).stats.coldMaxSlow == p.stats.coldMaxSlow
    ensures RunPickup(Cold, p, now).stats.coldSlowFactor == p.stats.coldSlowFactor
  {
  }

  /** Thunderbolt keeps a damage already set, keeps a non-zero interval and restarts the timer at `now`. */
  lemma ThunderboltPickup(p: Player, now: real)
    ensures var r := RunPickup(Thunderbolt, p, now);
      && r.stats.thunderboltDamage == p.stats.thunderboltDamage
      && r.stats.thunderboltInterval != 0.0
      && (p.stats.thunderboltInterval != 0.0 ==> r.stats.thunderboltInterval == p.stats.thunderboltInterval)
      && r.stats.lastThunderboltTime == now
  {
  }

  /** `pk` picked `n` times in a row at the same instant. */
  function Repeat(pk: Pickup, p: Player, now: real, n: nat): Player
  {
    if n == 0 then p else RunPickup(pk, Repeat(pk, p, now, n - 1), now)
  }

  /** After `n` Fragmentation picks the player releases 2n more fragments per kill. */
  lemma {:induction false} FragmentationStacks(p: Player, now: real, n: nat)
    ensures Repeat(Fragmentation, p, now, n).stats.fragmentationCount
         == p.stats.fragmentationCount + 2.0 * (n as real)
  {
    if n > 0 {
      FragmentationStacks(p, now, n - 1);
      FragmentationPickup(Repeat(Fragmentation, p, now, n - 1), now);
    }
  }

  /** After `n` Barrier picks the barrier holds `n` more hits. */
  lemma {:induction false} BarrierStacks(p: Player, now: real, n: nat)
    ensures Repeat(Barrier, p, now, n).stats.barrierHitsRemaining
         == p.stats.barrierHitsRemaining + (n as real)
  {
    if n > 0 {
      BarrierStacks(p, now, n - 1);
      BarrierPickup(Repeat(Barrier, p, now, n - 1), now);
    }
  }
}
