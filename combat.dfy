/**
 * The combat rules of one game tick, one entity at a time: slowing and the
 * Freezer insta-kill, bleeding, hits on the player and the barrier, rage,
 * spawning and kill rewards, the level threshold, and the bursts of
 * projectiles that shots, fragmentation and a broken barrier release.
 * `rng(k)` is the k-th value `Math.random()` returns; each rule that draws
 * returns the cursor after its draws.
 */
module Combat {
  import opened Wrappers
  import opened Numeric
  import opened GameTypes
  import opened Catalogue
  import Pickups

  // ---------------------------------------------------------------- cold

  /** The slow cap: `coldMaxSlow`, 0.8 when unset. */
  function SlowCap(s: Stats): real
  {
    OrElse(s.coldMaxSlow, ColdMaxSlowBase)
  }

  /** A hit (projectile or thunderbolt) slows the enemy by the slow factor, up to the cap. */
  function Chill(e: Enemy, p: Player, now: real): (r: Enemy)
    ensures r == e.(slowFactor := r.slowFactor, lastSlowedTime := r.lastSlowedTime)
    // Chilling never pushes the slow past the cap.
    ensures r.slowFactor <= Max(e.slowFactor, SlowCap(p.stats))
    ensures r.slowFactor != e.slowFactor ==> p.appliesCold && r.lastSlowedTime == now
    ensures p.appliesCold && e.slowFactor < SlowCap(p.stats) && OrElse(p.stats.coldSlowFactor, ColdSlowFactorBase) > 0.0
      ==> r.slowFactor > e.slowFactor
  {
    var cap := SlowCap(p.stats);
    if p.appliesCold && e.slowFactor < cap then
      e.(slowFactor := Min(cap, e.slowFactor + OrElse(p.stats.coldSlowFactor, ColdSlowFactorBase)),
         lastSlowedTime := now)
    else e
  }

  /** After 3000 ms without a chill the slow wears off by 0.1, never below 0. */
  function DecayCold(e: Enemy, now: real): (r: Enemy)
    ensures r == e.(slowFactor := r.slowFactor, lastSlowedTime := r.lastSlowedTime)
    ensures r.slowFactor <= e.slowFactor
    ensures r.slowFactor >= 0.0 || r.slowFactor == e.slowFactor
    ensures e.slowFactor > 0.0 && now - e.lastSlowedTime > ColdEffectDuration ==>
      r.slowFactor < e.slowFactor && r.lastSlowedTime == now
    ensures r.slowFactor != e.slowFactor ==> now - e.lastSlowedTime > ColdEffectDuration
  {
    if e.slowFactor > 0.0 && now - e.lastSlowedTime > ColdEffectDuration then
      e.(slowFactor := Max(0.0, e.slowFactor - 0.1), lastSlowedTime := now)
    else e
  }

  /**
   * The Freezer check is armed on a living enemy when the insta-kill chance is
   * positive, the cap is exactly 1 and the enemy is slowed to it.
   */
  predicate InstaKillArmed(e: Enemy, s: Stats)
  {
    e.hp > 0.0 && OrElse(s.instaKillOnMaxSlowChance, 0.0) > 0.0
    && e.slowFactor >= OrElse(s.coldMaxSlow, 0.0) && OrElse(s.coldMaxSlow, 0.0) == 1.0
  }

  /** The Freezer check: when armed, one draw below the chance sets hp to 0. */
  function InstaKill(e: Enemy, s: Stats, rng: nat -> Unit, k: nat): (r: (Enemy, nat))
    ensures r.0 != e <==> InstaKillArmed(e, s) && rng(k) < OrElse(s.instaKillOnMaxSlowChance, 0.0)
    ensures r.0 != e ==> r.0 == e.(hp := 0.0)
    ensures r.1 == if InstaKillArmed(e, s) then k + 1 else k
  {
    if InstaKillArmed(e, s) then
      (if rng(k) < OrElse(s.instaKillOnMaxSlowChance, 0.0) then e.(hp := 0.0) else e, k + 1)
    else (e, k)
  }

  /** Without a cap of exactly 1 (Freezer's), no enemy is ever insta-killed. */
  lemma NoInstaKillBelowFullCap(e: Enemy, s: Stats, rng: nat -> Unit, k: nat)
    requires s.coldMaxSlow != 1.0
    ensures InstaKill(e, s, rng, k) == (e, k)
  {
  }

  // ---------------------------------------------------------------- bleed

  /**
   * One tick of bleeding: at most once per 1000 ms the enemy loses the bleed's
   * damage, the bleed's remaining duration drops by 1000 and the Freezer check
   * runs; a bleed with no duration left is removed.
   */
  function BleedStep(e: Enemy, p: Player, now: real, rng: nat -> Unit, k: nat): (r: (Enemy, nat))
    ensures r.0 == e.(hp := r.0.hp, bleeding := r.0.bleeding)
    ensures e.bleeding.None? ==> r == (e, k)
    ensures e.bleeding.Some? && now - e.bleeding.value.lastTickTime >= BleedTickInterval ==>
      r.0.hp == e.hp - e.bleeding.value.dps || r.0.hp == 0.0
    ensures e.bleeding.Some? && now - e.bleeding.value.lastTickTime < BleedTickInterval ==> r.0.hp == e.hp
    // A remaining bleed keeps its damage, has time left, and lost exactly one interval if it ticked.
    ensures r.0.bleeding.Some? ==>
      && e.bleeding.Some?
      && r.0.bleeding.value.dps == e.bleeding.value.dps
      && r.0.bleeding.value.durationRemaining > 0.0
      && r.0.bleeding.value.durationRemaining ==
           e.bleeding.value.durationRemaining
           - (if now - e.bleeding.value.lastTickTime >= BleedTickInterval then BleedTickInterval else 0.0)
    ensures r.1 >= k
  {
    match e.bleeding
    case None => (e, k)
    case Some(b) =>
      var (e1, k1) :=
        if now - b.lastTickTime >= BleedTickInterval then
          InstaKill(e.(hp := e.hp - b.dps, bleeding := Some(Bleed(b.dps, b.durationRemaining - BleedTickInterval, now))),
                    p.stats, rng, k)
        else (e, k);
      if e1.bleeding.value.durationRemaining <= 0.0 then (e1.(bleeding := None), k1) else (e1, k1)
  }

  /** A bleed of duration `d` ticked `n` times, once per interval. */
  function BleedRepeat(e: Enemy, p: Player, start: real, n: nat, rng: nat -> Unit, k: nat): (Enemy, nat)
  {
    if n == 0 then (e, k)
    else
      var (e1, k1) := BleedRepeat(e, p, start, n - 1, rng, k);
      BleedStep(e1, p, start + (n as real) * BleedTickInterval, rng, k1)
  }

  /**
   * A bleed inflicted at time `start` and then ticked once per interval is
   * still running after `n` ticks exactly when its duration exceeds 1000n, with
   * that much time left: it ticks ceil(duration/1000) times in all.
   */
  lemma {:induction false} BleedRunsOut(e: Enemy, p: Player, start: real, n: nat, rng: nat -> Unit, k: nat)
    requires e.bleeding.Some? && e.bleeding.value.lastTickTime == start
    ensures var r := BleedRepeat(e, p, start, n, rng, k).0;
      var left := e.bleeding.value.durationRemaining - (n as real) * BleedTickInterval;
      && (r.bleeding.Some? <==> n == 0 || left > 0.0)
      && (r.bleeding.Some? ==>
            r.bleeding.value.durationRemaining == left
            && r.bleeding.value.lastTickTime == start + (n as real) * BleedTickInterval
            && r.bleeding.value.dps == e.bleeding.value.dps)
  {
    if n > 0 {
      BleedRunsOut(e, p, start, n - 1, rng, k);
      var (e1, k1) := BleedRepeat(e, p, start, n - 1, rng, k);
      if e1.bleeding.Some? {
        assert (start + (n as real) * BleedTickInterval) - e1.bleeding.value.lastTickTime >= BleedTickInterval;
      }
    }
  }

  // ---------------------------------------------------------------- the player is hit

  /** The barrier's charges, `barrierHitsRemaining || 0`. */
  function BarrierHits(p: Player): real
  {
    OrElse(p.stats.barrierHitsRemaining, 0.0)
  }

  /** The barrier is up: the player has it and it holds a charge. */
  predicate BarrierUp(p: Player)
  {
    p.hasBarrier && BarrierHits(p) > 0.0
  }

  /** How long a damaging hit makes the player invulnerable: 500 ms plus 200 ms per Cloak. */
  function InvulnerabilityWindow(p: Player): (r: real)
    ensures r >= 500.0
    ensures r > 500.0 <==> Stacks(p, CloakUncommon.id) > 0
  {
    500.0 + 200.0 * (Stacks(p, CloakUncommon.id) as real)
  }

  /** The damage a hit of strength `d` does through `defense`: at least 1. */
  function DamageTaken(d: real, defense: real): (r: real)
    ensures r >= 1.0 && r >= d * (1.0 - defense)
    ensures r == 1.0 || r == d * (1.0 - defense)
  {
    Max(1.0, d * (1.0 - defense))
  }

  /**
   * A hit of strength `d` on the player: a charged barrier absorbs it and loses one
   * charge; otherwise, unless invulnerable, the player loses at least 1 hp and
   * becomes invulnerable for the window.
   */
  function TakeHit(p: Player, d: real, now: real): (r: Player)
    ensures r == p.(isInvulnerable := r.isInvulnerable,
                    stats := p.stats.(currentHp := r.stats.currentHp,
                                      barrierHitsRemaining := r.stats.barrierHitsRemaining,
                                      invulnerabilityEndTime := r.stats.invulnerabilityEndTime))
    ensures r.stats.currentHp <= p.stats.currentHp
    // The barrier absorbs the hit: health is untouched and one charge is spent.
    ensures BarrierUp(p) ==> r == p.(stats := p.stats.(barrierHitsRemaining := BarrierHits(p) - 1.0))
    // An invulnerable player without a barrier charge takes nothing.
    ensures !BarrierUp(p) && p.isInvulnerable ==> r == p
    // Otherwise the hit costs at least 1 hp and opens the invulnerability window.
    ensures !BarrierUp(p) && !p.isInvulnerable ==>
      && r.stats.currentHp == p.stats.currentHp - DamageTaken(d, p.stats.defense)
      && r.stats.currentHp <= p.stats.currentHp - 1.0
      && r.isInvulnerable
      && r.stats.invulnerabilityEndTime == now + InvulnerabilityWindow(p)
      && r.stats.barrierHitsRemaining == p.stats.barrierHitsRemaining
  {
    if BarrierUp(p) then
      p.(stats := p.stats.(barrierHitsRemaining := BarrierHits(p) - 1.0))
    else if !p.isInvulnerable then
      p.(isInvulnerable := true,
         stats := p.stats.(currentHp := p.stats.currentHp - DamageTaken(d, p.stats.defense),
                           invulnerabilityEndTime := now + InvulnerabilityWindow(p)))
    else p
  }

  /** Without a barrier charge, a second hit inside the window does no damage. */
  lemma SecondHitIsHarmless(p: Player, d1: real, d2: real, now: real, later: real)
    requires !BarrierUp(p)
    ensures TakeHit(TakeHit(p, d1, now), d2, later).stats.currentHp == TakeHit(p, d1, now).stats.currentHp
  {
  }

  /** `TakeHit` for each hit strength in turn. */
  function HitAll(p: Player, hits: seq<real>, now: real): (r: Player)
    ensures r == p.(isInvulnerable := r.isInvulnerable,
                    stats := p.stats.(currentHp := r.stats.currentHp,
                                      barrierHitsRemaining := r.stats.barrierHitsRemaining,
                                      invulnerabilityEndTime := r.stats.invulnerabilityEndTime))
    ensures r.stats.currentHp <= p.stats.currentHp
    ensures !BarrierUp(p) && p.isInvulnerable ==> r == p
  {
    if hits == [] then p else TakeHit(HitAll(p, hits[..|hits| - 1], now), hits[|hits| - 1], now)
  }

  /** A barrier with `n` charges absorbs `n` hits in a row without any loss of health. */
  lemma {:induction false} BarrierAbsorbs(p: Player, hits: seq<real>, now: real)
    requires p.hasBarrier && p.stats.barrierHitsRemaining >= |hits| as real
    ensures HitAll(p, hits, now).stats.currentHp == p.stats.currentHp
    ensures HitAll(p, hits, now).stats.barrierHitsRemaining == p.stats.barrierHitsRemaining - |hits| as real
    ensures HitAll(p, hits, now).hasBarrier
  {
    if hits != [] {
      BarrierAbsorbs(p, hits[..|hits| - 1], now);
      assert BarrierUp(HitAll(p, hits[..|hits| - 1], now));
    }
  }

  /** Without a barrier charge, the first damaging hit opens the window and the rest do nothing. */
  lemma {:induction false} OneDamagingHit(p: Player, hits: seq<real>, now: real)
    requires !BarrierUp(p) && !p.isInvulnerable && hits != []
    ensures HitAll(p, hits, now).stats.currentHp == p.stats.currentHp - DamageTaken(hits[0], p.stats.defense)
    ensures HitAll(p, hits, now).isInvulnerable && !BarrierUp(HitAll(p, hits, now))
  {
    if |hits| > 1 {
      OneDamagingHit(p, hits[..|hits| - 1], now);
      assert hits[..|hits| - 1][0] == hits[0];
    } else {
      assert hits[..0] == [];
    }
  }

  /**
   * The rage multiplier: below half health with Rage, 1 + 0.5 times the missing
   * fraction of that half; 1 otherwise.
   */
  function RageMultiplier(p: Player): (r: real)
    requires p.stats.maxHp > 0.0
    ensures r >= 1.0
    ensures p.stats.currentHp >= 0.0 ==> r <= 1.5
    ensures r > 1.0 <==> p.hasRageActive && p.stats.currentHp < p.stats.maxHp * 0.5
  {
    if p.hasRageActive && p.stats.currentHp < p.stats.maxHp * 0.5 then
      1.0 + 0.5 * (1.0 - p.stats.currentHp / (p.stats.maxHp * 0.5))
    else 1.0
  }

  // ---------------------------------------------------------------- barrier upkeep

  /**
   * An invulnerability that has run out ends, unless the barrier holds a charge.
   */
  function EndInvulnerability(p: Player, now: real): (r: Player)
    ensures r == p.(isInvulnerable := r.isInvulnerable)
    ensures r.isInvulnerable ==> p.isInvulnerable
    ensures r.isInvulnerable != p.isInvulnerable <==>
      p.isInvulnerable && now > p.stats.invulnerabilityEndTime && !BarrierUp(p)
  {
    if p.isInvulnerable && now > p.stats.invulnerabilityEndTime && !BarrierUp(p) then
      p.(isInvulnerable := false)
    else p
  }

  /** The barrier may recharge: it is spent and a full cooldown has passed since its last activation. */
  predicate RechargeDue(p: Player, now: real)
  {
    p.hasBarrier && BarrierHits(p) == 0.0
    && now - OrElse(p.stats.lastBarrierActivationTime, 0.0) > OrElse(p.stats.barrierCooldown, BarrierCooldownBase)
  }

  /**
   * The recharge: one charge per Barrier stack, or one when only the Protector
   * ascension is active.
   */
  function RechargeBarrier(p: Player, now: real): (r: Player)
    ensures r == p.(stats := p.stats.(barrierHitsRemaining := r.stats.barrierHitsRemaining))
    ensures !RechargeDue(p, now) ==> r == p
    ensures RechargeDue(p, now) && Stacks(p, BarrierEpic.id) > 0 ==>
      BarrierHits(r) == Stacks(p, BarrierEpic.id) as real && BarrierUp(r)
    ensures RechargeDue(p, now) && Stacks(p, BarrierEpic.id) == 0 && Protector.card.id in p.activeAscensions ==>
      BarrierHits(r) == 1.0 && BarrierUp(r)
    ensures RechargeDue(p, now) && Stacks(p, BarrierEpic.id) == 0 && Protector.card.id !in p.activeAscensions ==>
      r == p
  {
    if RechargeDue(p, now) then
      var stacks := Stacks(p, BarrierEpic.id);
      if stacks > 0 then p.(stats := p.stats.(barrierHitsRemaining := (stacks as real) * BarrierHitsBase))
      else if Protector.card.id in p.activeAscensions then p.(stats := p.stats.(barrierHitsRemaining := BarrierHitsBase))
      else p
    else p
  }

  /**
   * Without Protector the last activation is never reset when the barrier breaks,
   * and the pick-up backdated it by one cooldown: a barrier picked up at `t` and
   * spent recharges on the first tick after `t`.
   */
  lemma {:induction false} SpentBarrierRechargesAtOnce(p: Player, t: real, now: real)
    requires Stacks(p, BarrierEpic.id) > 0 && now > t
    ensures var q := Pickups.RunPickup(Barrier, p, t);
      var spent := q.(stats := q.stats.(barrierHitsRemaining := 0.0));
      RechargeDue(spent, now) && BarrierUp(RechargeBarrier(spent, now))
  {
    var q := Pickups.RunPickup(Barrier, p, t);
    Pickups.BarrierPickup(p, t);
  }

  /**
   * The Protector burst: when this tick took the last charge of a barrier that
   * had some and a burst count is set, the cooldown restarts now and the burst
   * fires.
   */
  predicate BarrierBroke(p: Player, oldHits: real)
  {
    oldHits > 0.0 && BarrierHits(p) == 0.0 && OrElse(p.stats.barrierBreakProjectileCount, 0.0) > 0.0
  }

  // ---------------------------------------------------------------- projectiles

  /** `n` player projectiles of the given damage and durability with the ids from `idBase` on. */
  function Burst(n: nat, damage: real, durability: real, idBase: nat): (r: seq<Projectile>)
    ensures |r| == n
    ensures forall i :: 0 <= i < n ==> r[i] == Projectile(idBase + i, damage, durability, true)
    decreases n
  {
    if n == 0 then [] else Burst(n - 1, damage, durability, idBase) + [Projectile(idBase + n - 1, damage, durability, true)]
  }

  /** The sum of the damages of `ps`. */
  function TotalDamage(ps: seq<Projectile>): real
  {
    if ps == [] then 0.0 else TotalDamage(ps[..|ps| - 1]) + ps[|ps| - 1].damage
  }

  /** A burst of `n` projectiles carries `n` times the damage of one. */
  lemma {:induction false} BurstDamage(n: nat, damage: real, durability: real, idBase: nat)
    ensures TotalDamage(Burst(n, damage, durability, idBase)) == (n as real) * damage
  {
    if n > 0 {
      var b := Burst(n, damage, durability, idBase);
      assert b[..|b| - 1] == Burst(n - 1, damage, durability, idBase);
      BurstDamage(n - 1, damage, durability, idBase);
    }
  }

  /** The staff's shot count, `shotCount || 1`. */
  function ShotCount(p: Player): (n: nat)
    ensures n >= 1
  {
    if p.activeStaff.shotCount != 0 then p.activeStaff.shotCount else 1
  }

  /** The delay between shots: the attack speed scaled by the staff's modifier. */
  function AttackDelay(p: Player): real
  {
    p.stats.attackSpeed * OrElse(p.activeStaff.baseAttackSpeedModifier, 1.0)
  }

  /**
   * The damage of one trigger pull, before it is split over the shots: damage
   * times the staff modifier, times rage, times the crit damage on a crit roll.
   */
  function ShotDamage(p: Player, critRoll: Unit): (r: real)
    requires p.stats.maxHp > 0.0
    ensures var base := p.stats.damage * OrElse(p.activeStaff.baseDamageModifier, 1.0);
      && (critRoll >= p.stats.critChance && !p.hasRageActive ==> r == base)
      && (base >= 0.0 && (critRoll < p.stats.critChance ==> p.stats.critDamage >= 1.0) ==> r >= base)
  {
    var base := p.stats.damage * OrElse(p.activeStaff.baseDamageModifier, 1.0);
    var raged := base * RageMultiplier(p);
    var r := raged * (if critRoll < p.stats.critChance then p.stats.critDamage else 1.0);
    assert base >= 0.0 ==> raged >= base by {
      if base >= 0.0 { assert base * (RageMultiplier(p) - 1.0) >= 0.0; }
    }
    assert raged >= 0.0 && critRoll < p.stats.critChance && p.stats.critDamage >= 1.0 ==> r >= raged by {
      if raged >= 0.0 && critRoll < p.stats.critChance && p.stats.critDamage >= 1.0 {
        assert raged * (p.stats.critDamage - 1.0) >= 0.0;
      }
    }
    r
  }

  /** The volley of one trigger pull: one projectile per shot, sharing the damage equally. */
  function Volley(p: Player, damage: real, idBase: nat): (r: seq<Projectile>)
    ensures |r| == ShotCount(p)
    ensures TotalDamage(r) == damage
  {
    var n := ShotCount(p);
    var share := damage / (n as real);
    assert (n as real) * share == damage;
    BurstDamage(n, share, p.stats.projectileDurability, idBase);
    Burst(n, damage / (n as real), p.stats.projectileDurability, idBase)
  }

  /** The damage of one fragment: damage times the fragmentation multiplier (0.4 when unset). */
  function FragmentDamage(p: Player): real
  {
    p.stats.damage * OrElse(p.stats.fragmentationDamageMultiplier, FragmentationDamageMultiplierBase)
  }

  /** The damage of one projectile of the Protector burst: damage times the burst multiplier. */
  function BreakDamage(p: Player): real
  {
    p.stats.damage * OrElse(p.stats.barrierBreakProjectileDamageMultiplier, 0.0)
  }

  /**
   * The number of fragments one kill releases: the trip count of the loop over
   * `fragmentationCount` when fragmentation is held and the count is non-zero.
   */
  function FragmentCount(p: Player): (n: nat)
    ensures !p.hasFragmentation || p.stats.fragmentationCount == 0.0 ==> n == 0
    ensures p.hasFragmentation ==> p.stats.fragmentationCount <= n as real
    ensures n > 0 ==> ((n - 1) as real) < p.stats.fragmentationCount
  {
    if p.hasFragmentation && p.stats.fragmentationCount != 0.0 then Iterations(p.stats.fragmentationCount) else 0
  }

  /** The fragments a kill releases: `fragmentationCount` (rounded up) shards of damage times the multiplier. */
  function Fragments(p: Player, idBase: nat): (r: seq<Projectile>)
    ensures |r| == FragmentCount(p)
    ensures !p.hasFragmentation || p.stats.fragmentationCount == 0.0 ==> r == []
    ensures forall i :: 0 <= i < |r| ==> r[i] == Projectile(idBase + i, FragmentDamage(p), 1.0, true)
  {
    if p.hasFragmentation && p.stats.fragmentationCount != 0.0 then
      Burst(FragmentCount(p), FragmentDamage(p), 1.0, idBase)
    else []
  }

  /** The Protector burst: `barrierBreakProjectileCount` (rounded up) projectiles of damage times the multiplier. */
  function BreakBurst(p: Player, idBase: nat): (r: seq<Projectile>)
    ensures (|r| as real) >= p.stats.barrierBreakProjectileCount
    ensures forall q :: q in r ==>
      (q.durability == 1.0 && q.isPlayerProjectile
       && q.damage == BreakDamage(p))
    // Exactly the trip count of the burst loop, with consecutive fresh ids.
    ensures |r| == Iterations(OrElse(p.stats.barrierBreakProjectileCount, 0.0))
    ensures forall i :: 0 <= i < |r| ==> r[i] == Projectile(idBase + i, BreakDamage(p), 1.0, true)
  {
    Burst(Iterations(OrElse(p.stats.barrierBreakProjectileCount, 0.0)), BreakDamage(p), 1.0, idBase)
  }

  /**
   * A player projectile after its pass over the enemies: one that hit nothing
   * flies on; one that hit flies on with one durability less only if it had more
   * than 1.
   */
  function AfterPass(proj: Projectile, hit: bool): (r: Option<Projectile>)
    ensures r.Some? <==> !hit || proj.durability > 1.0
    ensures r.Some? && !hit ==> r.value == proj
    ensures r.Some? && hit ==> r.value == proj.(durability := proj.durability - 1.0)
  {
    if !hit || proj.durability > 1.0 then
      Some(if hit then proj.(durability := proj.durability - 1.0) else proj)
    else None
  }

  /**
   * A projectile of durability `d` flies on after `n < d` hitting passes with
   * durability `d - n`, and is consumed by pass ceil(d) at the latest.
   */
  lemma {:induction false} DurabilityCountsPasses(proj: Projectile, n: nat)
    ensures (n as real) < proj.durability ==> PassRepeat(proj, n) == Some(proj.(durability := proj.durability - n as real))
    ensures n >= 1 && (n as real) >= proj.durability ==> PassRepeat(proj, n).None?
    decreases n
  {
    if n > 0 {
      match AfterPass(proj, true)
      case None =>
      case Some(q) =>
        DurabilityCountsPasses(q, n - 1);
    }
  }

  /** `n` hitting passes in a row; `None` once the projectile is consumed. */
  function PassRepeat(proj: Projectile, n: nat): Option<Projectile>
    decreases n
  {
    if n == 0 then Some(proj)
    else match AfterPass(proj, true)
      case None => None
      case Some(q) => PassRepeat(q, n - 1)
  }

  // ---------------------------------------------------------------- kills and spawns

  /** Score and experience for a kill at `level`: the type's points and its exp scaled by 1.1 per level. */
  function KillReward(e: Enemy, level: Level): (r: (real, real))
    ensures r.0 >= 5.0 && r.1 >= 5.0
    ensures FindEnemyType(e.kind).None? ==> r.0 == 5.0
    ensures FindEnemyType(e.kind).Some? ==> r.0 == FindEnemyType(e.kind).value.points
  {
    var points := match FindEnemyType(e.kind) case Some(t) => OrElse(t.points, 5.0) case None => 5.0;
    var expValue := match FindEnemyType(e.kind) case Some(t) => OrElse(t.expValue, 5.0) case None => 5.0;
    PowAtLeastOne(EnemyExpScalingPerLevel, (level - 1) as nat);
    assert expValue * Pow(EnemyExpScalingPerLevel, (level - 1) as nat) >= expValue by {
      assert expValue * (Pow(EnemyExpScalingPerLevel, (level - 1) as nat) - 1.0) >= 0.0;
    }
    (points, (expValue * Pow(EnemyExpScalingPerLevel, (level - 1) as nat)).Floor as real)
  }

  /** The most enemies on screen at `level`: 5 plus one per level above the first. */
  function MaxEnemies(level: Level): (r: int)
    ensures r >= MaxEnemiesOnScreenBase && r == level + 4
  {
    MaxEnemiesOnScreenBase + (level - 1) * MaxEnemiesOnScreenPerLevel
  }

  /** The spawn interval at `level`: 4000 ms less 50 per level, never under 2000. */
  function SpawnInterval(level: Level): (r: real)
    ensures EnemySpawnIntervalMin <= r < EnemySpawnIntervalMax
  {
    Max(EnemySpawnIntervalMin, EnemySpawnIntervalMax - (level as real) * 50.0)
  }

  /** `x` grown by `factor` `n` times. */
  function Grown(x: real, factor: real, n: nat): real
  {
    x * Pow(factor, n)
  }

  /** `x` scaled by `factor` once per level above the first, rounded down. */
  function Scaled(x: real, factor: real, level: Level): real
  {
    Grown(x, factor, (level - 1) as nat).Floor as real
  }

  /** A fresh enemy of type `t` at `level`: hp scaled by 1.15 and damage by 1.08 per level, speed by 5%. */
  function SpawnEnemy(t: EnemyType, level: Level, id: nat): (r: Enemy)
    ensures r.id == id && r.kind == t.id && r.hp == r.maxHp
    ensures r.slowFactor == 0.0 && r.bleeding.None? && r.lastAttackTime == 0.0
    ensures t.baseHp >= 0.0 ==> r.hp >= t.baseHp.Floor as real
    ensures t.baseDamage >= 0.0 ==> r.damage >= t.baseDamage.Floor as real
  {
    ScaledAtLeastBase(t.baseHp, EnemyHpScalingPerLevel, level);
    ScaledAtLeastBase(t.baseDamage, EnemyDamageScalingPerLevel, level);
    var hp := Scaled(t.baseHp, EnemyHpScalingPerLevel, level);
    Enemy(id, t.id, hp, hp, t.baseSpeed + ((level - 1) as real) * 0.05 * t.baseSpeed,
          Scaled(t.baseDamage, EnemyDamageScalingPerLevel, level), 0.0, 0.0, None, 0.0)
  }

  lemma ScaledAtLeastBase(x: real, factor: real, level: Level)
    requires factor >= 1.0
    ensures x >= 0.0 ==> Scaled(x, factor, level) >= x.Floor as real
  {
    var n: nat := (level - 1) as nat;
    PowAtLeastOne(factor, n);
    if x >= 0.0 {
      assert x * (Pow(factor, n) - 1.0) >= 0.0;
      assert Grown(x, factor, n) >= x;
      FlooredMono(x, Grown(x, factor, n));
    }
  }

  /** Enemies never get weaker as the level rises. */
  lemma {:induction false} ScaledGrows(x: real, factor: real, level: Level)
    requires factor >= 1.0 && x >= 0.0
    ensures Scaled(x, factor, level + 1) >= Scaled(x, factor, level)
  {
    var next: Level := level + 1;
    var n: nat := (level - 1) as nat;
    assert (next - 1) as nat == n + 1;
    PowStep(factor, n);
    assert x * (Pow(factor, n + 1) - Pow(factor, n)) >= 0.0;
    FlooredMono(Grown(x, factor, n), Grown(x, factor, n + 1));
  }

  /** Rounding down keeps the order. */
  lemma FlooredMono(a: real, b: real)
    requires a <= b
    ensures a.Floor as real <= b.Floor as real
  {
    var i, j := a.Floor, b.Floor;
    assert i <= j;
    AsRealMono(i, j);
  }

  lemma AsRealMono(i: int, j: int)
    requires i <= j
    ensures i as real <= j as real
  {
  }

  /** Every enemy type spawns alive. */
  lemma SpawnedAlive(t: EnemyType, level: Level, id: nat)
    requires t in EnemyTypes
    ensures SpawnEnemy(t, level, id).hp > 0.0
  {
    assert t.baseHp >= 15.0;
  }

  // ---------------------------------------------------------------- levels

  /** The experience needed after reaching `level`: 100 times 1.2 per level above the first, rounded down. */
  function ExpThreshold(level: Level): (r: real)
    ensures r >= BaseExpToNextLevel
  {
    ScaledAtLeastBase(BaseExpToNextLevel, ExpPerLevelScaler, level);
    Scaled(BaseExpToNextLevel, ExpPerLevelScaler, level)
  }

  /** Each level needs at least as much experience as the one before. */
  lemma ThresholdGrows(level: Level)
    ensures ExpThreshold(level + 1) >= ExpThreshold(level)
  {
    ScaledGrows(BaseExpToNextLevel, ExpPerLevelScaler, level);
  }

  /**
   * The level-up of one tick: with enough experience the level rises by one,
   * the old threshold is paid out of the experience, the next threshold is set
   * and health refilled.
   */
  function LevelUp(p: Player): (r: Player)
    ensures p.stats.exp < p.stats.expToNextLevel ==> r == p
    ensures p.stats.exp >= p.stats.expToNextLevel ==>
      && r == p.(level := r.level, stats := p.stats.(exp := r.stats.exp, expToNextLevel := r.stats.expToNextLevel,
                                                      currentHp := r.stats.currentHp))
      && r.level == p.level + 1
      && r.stats.exp == p.stats.exp - p.stats.expToNextLevel
      && r.stats.expToNextLevel == ExpThreshold(r.level)
      && r.stats.currentHp == r.stats.maxHp
  {
    if p.stats.exp >= p.stats.expToNextLevel then
      var level := p.level + 1;
      p.(level := level,
         stats := p.stats.(exp := p.stats.exp - p.stats.expToNextLevel,
                           expToNextLevel := ExpThreshold(level),
                           currentHp := p.stats.maxHp))
    else p
  }

  /** However much experience was gained, one tick raises the level by at most one. */
  lemma OneLevelPerTick(p: Player)
    requires p.stats.expToNextLevel >= BaseExpToNextLevel
    ensures LevelUp(p).level <= p.level + 1
    ensures LevelUp(p).stats.expToNextLevel >= BaseExpToNextLevel
  {
  }
}
