/**
 * The stages of one game tick, in the order the tick runs them: thunderbolts,
 * firing, the enemy update, spawning, player projectiles against enemies, enemy
 * projectiles and enemy contact against the player, and the barrier break.
 * Every spatial test is read from the tick's `Geometry`; `rng(k)` is the k-th
 * value `Math.random()` returns and every stage that draws returns the cursor.
 */
module TickStages {
  import opened Wrappers
  import opened Numeric
  import opened GameTypes
  import opened Catalogue
  import opened Combat
  import opened GameState

  // ---------------------------------------------------------------- bursts

  /** Pushes `n` player projectiles with ids from `id0` on, as the firing, fragmentation and barrier loops do. */
  method Release(ps: seq<Projectile>, n: nat, damage: real, durability: real, id0: nat) returns (r: seq<Projectile>)
    ensures r == ps + Burst(n, damage, durability, id0)
  {
    r := ps;
    for i := 0 to n
      invariant r == ps + Burst(i, damage, durability, id0)
    {
      r := r + [Projectile(id0 + i, damage, durability, true)];
    }
  }

  // ---------------------------------------------------------------- thunderbolts

  /** Thunderbolts strike when the player has them and the interval (5000 ms when unset) has passed. */
  predicate ThunderDue(p: Player, now: real)
  {
    p.triggersThunderbolts
    && now - OrElse(p.stats.lastThunderboltTime, 0.0) > OrElse(p.stats.thunderboltInterval, ThunderboltIntervalBase)
  }

  /** The damage of a thunderbolt, `thunderboltDamage || 10`. */
  function BoltDamage(p: Player): real
  {
    OrElse(p.stats.thunderboltDamage, ThunderboltDamageBase)
  }

  /** A thunderbolt on one enemy: if struck, it loses the bolt damage, is chilled and meets the Freezer check. */
  function Strike(e: Enemy, p: Player, struck: bool, now: real, rng: nat -> Unit, k: nat): (r: (Enemy, nat))
    ensures r.0 == e.(hp := r.0.hp, slowFactor := r.0.slowFactor, lastSlowedTime := r.0.lastSlowedTime)
    ensures !struck ==> r == (e, k)
    ensures struck ==> r.0.hp == e.hp - BoltDamage(p) || r.0.hp == 0.0
    ensures r.0.slowFactor <= Max(e.slowFactor, SlowCap(p.stats))
    ensures r.1 >= k
  {
    if struck then InstaKill(Chill(e.(hp := e.hp - BoltDamage(p)), p, now), p.stats, rng, k) else (e, k)
  }

  /** Thunderbolt number `bolt` over every enemy in order. */
  function StrikeAll(es: seq<Enemy>, p: Player, geo: Geometry, bolt: nat, now: real, rng: nat -> Unit, k: nat)
    : (r: (seq<Enemy>, nat))
    ensures |r.0| == |es| && r.1 >= k
    decreases |es|
  {
    if es == [] then ([], k)
    else
      var (init, k1) := StrikeAll(es[..|es| - 1], p, geo, bolt, now, rng, k);
      var (last, k2) := Strike(es[|es| - 1], p, geo.boltHits(bolt, es[|es| - 1].id), now, rng, k1);
      (init + [last], k2)
  }

  /**
   * A thunderbolt changes only the health and slow of the enemies it strikes:
   * each loses the bolt damage (or drops to 0 by the Freezer check) and is
   * slowed no further than the cap.
   */
  lemma {:induction false} StrikeAllEffect(es: seq<Enemy>, p: Player, geo: Geometry, bolt: nat, now: real,
                                           rng: nat -> Unit, k: nat, i: nat)
    requires i < |es|
    ensures var e, r := es[i], StrikeAll(es, p, geo, bolt, now, rng, k).0[i];
      && r == e.(hp := r.hp, slowFactor := r.slowFactor, lastSlowedTime := r.lastSlowedTime)
      && r.slowFactor <= Max(e.slowFactor, SlowCap(p.stats))
      && (geo.boltHits(bolt, e.id) ==> r.hp == e.hp - BoltDamage(p) || r.hp == 0.0)
      && (!geo.boltHits(bolt, e.id) ==> r == e)
    decreases |es|
  {
    if i < |es| - 1 {
      StrikeAllEffect(es[..|es| - 1], p, geo, bolt, now, rng, k, i);
    }
  }

  /** The first `n` thunderbolts of a strike, one after the other. */
  function Strikes(es: seq<Enemy>, p: Player, geo: Geometry, n: nat, now: real, rng: nat -> Unit, k: nat)
    : (r: (seq<Enemy>, nat))
    ensures |r.0| == |es| && r.1 >= k
    decreases n
  {
    if n == 0 then (es, k)
    else
      var (es1, k1) := Strikes(es, p, geo, n - 1, now, rng, k);
      StrikeAll(es1, p, geo, n - 1, now, rng, k1)
  }

  /**
   * However many bolts strike, an enemy keeps its identity and bleed, is slowed
   * no further than the cap, and (for a non-negative bolt damage) never gains health.
   */
  lemma {:induction false} StrikesEffect(es: seq<Enemy>, p: Player, geo: Geometry, n: nat, now: real,
                                         rng: nat -> Unit, k: nat, i: nat)
    requires i < |es|
    ensures var e, r := es[i], Strikes(es, p, geo, n, now, rng, k).0[i];
      && r.id == e.id && r.kind == e.kind && r.maxHp == e.maxHp && r.bleeding == e.bleeding
      && r.slowFactor <= Max(e.slowFactor, SlowCap(p.stats))
      && (BoltDamage(p) >= 0.0 ==> r.hp <= Max(e.hp, 0.0))
    decreases n
  {
    if n > 0 {
      StrikesEffect(es, p, geo, n - 1, now, rng, k, i);
      var (es1, k1) := Strikes(es, p, geo, n - 1, now, rng, k);
      StrikeAllEffect(es1, p, geo, n - 1, now, rng, k1, i);
    }
  }

  /** One thunderbolt over the enemies, updating them in place in order. */
  method StrikeEach(enemies: seq<Enemy>, p: Player, geo: Geometry, bolt: nat, now: real, rng: nat -> Unit, k0: nat)
    returns (es: seq<Enemy>, k: nat)
    ensures (es, k) == StrikeAll(enemies, p, geo, bolt, now, rng, k0)
  {
    es, k := enemies, k0;
    var j := 0;
    while j < |es|
      invariant 0 <= j <= |es| == |enemies|
      invariant es[..j] == StrikeAll(enemies[..j], p, geo, bolt, now, rng, k0).0
      invariant k == StrikeAll(enemies[..j], p, geo, bolt, now, rng, k0).1
      invariant es[j..] == enemies[j..]
    {
      assert enemies[..j + 1][..j] == enemies[..j];
      var (e, k1) := Strike(es[j], p, geo.boltHits(bolt, es[j].id), now, rng, k);
      es := es[j := e];
      k := k1;
      j := j + 1;
    }
    assert enemies[..|enemies|] == enemies;
    assert es[..|es|] == es;
  }

  /**
   * The thunderbolt stage: when due, each of the 2 bolts strikes every enemy
   * within its radius, and the last strike time becomes now.
   */
  function Thundered(p: Player, enemies: seq<Enemy>, geo: Geometry, now: real, rng: nat -> Unit, k: nat)
    : (r: (Player, seq<Enemy>, nat))
    ensures r.0 == p.(stats := p.stats.(lastThunderboltTime := r.0.stats.lastThunderboltTime))
    ensures |r.1| == |enemies| && r.2 >= k
  {
    if ThunderDue(p, now) then
      var (es, k') := Strikes(enemies, p, geo, ThunderboltCount, now, rng, k);
      (p.(stats := p.stats.(lastThunderboltTime := now)), es, k')
    else (p, enemies, k)
  }

  /** The thunderbolt stage, bolt by bolt. */
  method Thunder(p: Player, enemies: seq<Enemy>, geo: Geometry, now: real, rng: nat -> Unit, k0: nat)
    returns (p': Player, es: seq<Enemy>, k: nat)
    ensures (p', es, k) == Thundered(p, enemies, geo, now, rng, k0)
    ensures !ThunderDue(p, now) ==> p' == p && es == enemies && k == k0
    ensures ThunderDue(p, now) ==>
      && p' == p.(stats := p.stats.(lastThunderboltTime := now))
      && (es, k) == Strikes(enemies, p, geo, ThunderboltCount, now, rng, k0)
  {
    p', es, k := p, enemies, k0;
    if ThunderDue(p, now) {
      for bolt := 0 to ThunderboltCount
        invariant (es, k) == Strikes(enemies, p, geo, bolt, now, rng, k0)
      {
        es, k := StrikeEach(es, p, geo, bolt, now, rng, k);
      }
      p' := p.(stats := p.stats.(lastThunderboltTime := now));
    }
  }

  // ---------------------------------------------------------------- firing

  /** The player fires when more than the attack delay has passed since the last shot. */
  predicate FireDue(p: Player, lastShot: real, now: real)
  {
    now - lastShot > AttackDelay(p)
  }

  /**
   * The firing stage: when due, one draw decides the crit and the volley of
   * the staff's shot count joins the projectiles; the last shot time becomes now.
   */
  function Fired(p: Player, projectiles: seq<Projectile>, lastShot: real, now: real, rng: nat -> Unit, k: nat, id: nat)
    : (r: (seq<Projectile>, real, nat, nat))
    requires p.stats.maxHp > 0.0
    // Firing only adds projectiles, one fresh id each, with at most one draw.
    ensures projectiles <= r.0 && r.3 == id + |r.0| - |projectiles|
    ensures r.2 == k || r.2 == k + 1
  {
    if FireDue(p, lastShot, now) then
      (projectiles + Volley(p, ShotDamage(p, rng(k)), id), now, k + 1, id + ShotCount(p))
    else (projectiles, lastShot, k, id)
  }

  /** The firing stage, one projectile of the volley at a time. */
  method Fire(p: Player, projectiles: seq<Projectile>, lastShot: real, now: real, rng: nat -> Unit, k0: nat, id0: nat)
    returns (ps: seq<Projectile>, lastShot': real, k: nat, nextId: nat)
    requires p.stats.maxHp > 0.0
    ensures (ps, lastShot', k, nextId) == Fired(p, projectiles, lastShot, now, rng, k0, id0)
    ensures !FireDue(p, lastShot, now) ==> ps == projectiles && lastShot' == lastShot && k == k0 && nextId == id0
    ensures FireDue(p, lastShot, now) ==>
      && ps == projectiles + Volley(p, ShotDamage(p, rng(k0)), id0)
      && lastShot' == now && k == k0 + 1 && nextId == id0 + ShotCount(p)
  {
    ps, lastShot', k, nextId := projectiles, lastShot, k0, id0;
    if FireDue(p, lastShot, now) {
      var damage := ShotDamage(p, rng(k));
      k := k + 1;
      var n := ShotCount(p);
      ps := Release(projectiles, n, damage / (n as real), p.stats.projectileDurability, id0);
      nextId := id0 + n;
      lastShot' := now;
    }
  }

  // ---------------------------------------------------------------- enemy update

  /** One enemy's update: its slow decays, then its bleed ticks. */
  function Refresh(e: Enemy, p: Player, now: real, rng: nat -> Unit, k: nat): (r: (Enemy, nat))
    ensures r.0 == e.(hp := r.0.hp, bleeding := r.0.bleeding,
                      slowFactor := r.0.slowFactor, lastSlowedTime := r.0.lastSlowedTime)
    ensures r.0.slowFactor <= e.slowFactor
    ensures e.bleeding.None? ==> r.0.hp == e.hp && r.1 == k
    ensures r.1 >= k
  {
    BleedStep(DecayCold(e, now), p, now, rng, k)
  }

  /** Every enemy's update, in order (`enemies.map`). */
  function RefreshAll(es: seq<Enemy>, p: Player, now: real, rng: nat -> Unit, k: nat): (r: (seq<Enemy>, nat))
    ensures |r.0| == |es| && r.1 >= k
    decreases |es|
  {
    if es == [] then ([], k)
    else
      var (init, k1) := RefreshAll(es[..|es| - 1], p, now, rng, k);
      var (last, k2) := Refresh(es[|es| - 1], p, now, rng, k1);
      (init + [last], k2)
  }

  /** The update keeps each enemy's identity, speed, damage and attack time, and never adds slow. */
  lemma {:induction false} RefreshAllEffect(es: seq<Enemy>, p: Player, now: real, rng: nat -> Unit, k: nat, i: nat)
    requires i < |es|
    ensures var e, r := es[i], RefreshAll(es, p, now, rng, k).0[i];
      && r == e.(hp := r.hp, bleeding := r.bleeding, slowFactor := r.slowFactor, lastSlowedTime := r.lastSlowedTime)
      && r.slowFactor <= e.slowFactor
      && (e.bleeding.None? ==> r.hp == e.hp)
    decreases |es|
  {
    if i < |es| - 1 {
      RefreshAllEffect(es[..|es| - 1], p, now, rng, k, i);
    }
  }

  /** The enemies still on the field and alive, in order; the dead ones leave without a reward. */
  function OnFieldAndAlive(es: seq<Enemy>, geo: Geometry): (r: seq<Enemy>)
    ensures forall e :: e in r <==> e in es && geo.enemyOnField(e.id) && e.hp > 0.0
    ensures |r| <= |es|
  {
    if es == [] then []
    else
      (if geo.enemyOnField(es[0].id) && es[0].hp > 0.0 then [es[0]] else [])
      + OnFieldAndAlive(es[1..], geo)
  }

  /** The projectiles still within the margins after moving, in order. */
  function OnField(ps: seq<Projectile>, geo: Geometry): (r: seq<Projectile>)
    ensures forall q :: q in r <==> q in ps && geo.projectileOnField(q.id)
  {
    if ps == [] then []
    else (if geo.projectileOnField(ps[0].id) then [ps[0]] else []) + OnField(ps[1..], geo)
  }

  // ---------------------------------------------------------------- spawning

  /** An enemy spawns when there are fewer than the cap and the spawn interval has passed. */
  predicate SpawnDue(p: Player, enemies: seq<Enemy>, lastSpawn: real, now: real)
  {
    |enemies| < MaxEnemies(p.level) && now - lastSpawn > SpawnInterval(p.level)
  }

  /** The outcome of the spawn stage. */
  datatype Spawned = Spawned(enemies: seq<Enemy>, lastSpawn: real, k: nat, nextId: nat)

  /**
   * The spawn stage: when due, one draw picks the enemy type, the new enemy
   * joins the end of the list and the last spawn time becomes now.
   */
  function Spawn(p: Player, enemies: seq<Enemy>, lastSpawn: real, now: real, rng: nat -> Unit, k: nat, id: nat)
    : (r: Spawned)
    ensures !SpawnDue(p, enemies, lastSpawn, now) ==> r == Spawned(enemies, lastSpawn, k, id)
    ensures SpawnDue(p, enemies, lastSpawn, now) ==>
      && r.enemies == enemies + [SpawnEnemy(EnemyTypes[Index(rng(k), |EnemyTypes|)], p.level, id)]
      && r.lastSpawn == now && r.k == k + 1 && r.nextId == id + 1
    // The cap is never exceeded by spawning, and whoever spawns is alive.
    ensures |r.enemies| <= |enemies| || |r.enemies| <= MaxEnemies(p.level)
    ensures forall e :: e in r.enemies ==> e in enemies || e.hp > 0.0
  {
    if SpawnDue(p, enemies, lastSpawn, now) then
      var t := EnemyTypes[Index(rng(k), |EnemyTypes|)];
      SpawnedAlive(t, p.level, id);
      Spawned(enemies + [SpawnEnemy(t, p.level, id)], now, k + 1, id + 1)
    else Spawned(enemies, lastSpawn, k, id)
  }

  // ---------------------------------------------------------------- player projectiles against enemies

  /** The ids of the enemies of `es`. */
  function EnemyIds(es: seq<Enemy>): set<nat>
  {
    set e | e in es :: e.id
  }

  lemma EnemyIdsAppend(a: seq<Enemy>, b: seq<Enemy>)
    ensures EnemyIds(a + b) == EnemyIds(a) + EnemyIds(b)
  {
    assert forall e :: e in a + b <==> e in a || e in b;
  }

  /** An enemy that stays keeps the ids of the kept and the killed equal to those of the enemies seen. */
  lemma KeepStep(kept: seq<Enemy>, killed: seq<Enemy>, seen: seq<Enemy>, x: Enemy, y: Enemy)
    requires EnemyIds(kept) + EnemyIds(killed) == EnemyIds(seen) && y.id == x.id
    ensures EnemyIds(kept + [y]) + EnemyIds(killed) == EnemyIds(seen + [x])
  {
    EnemyIdsAppend(kept, [y]);
    EnemyIdsAppend(seen, [x]);
  }

  /** So does an enemy that is killed. */
  lemma KillStep(kept: seq<Enemy>, killed: seq<Enemy>, seen: seq<Enemy>, x: Enemy, y: Enemy)
    requires EnemyIds(kept) + EnemyIds(killed) == EnemyIds(seen) && y.id == x.id
    ensures EnemyIds(kept) + EnemyIds(killed + [y]) == EnemyIds(seen + [x])
  {
    EnemyIdsAppend(killed, [y]);
    EnemyIdsAppend(seen, [x]);
  }

  /** The score the kills in `killed` earn at `level`. */
  function Points(killed: seq<Enemy>, level: Level): (r: real)
    ensures r >= 5.0 * |killed| as real
    decreases |killed|
  {
    if killed == [] then 0.0
    else Points(killed[..|killed| - 1], level) + KillReward(killed[|killed| - 1], level).0
  }

  /** The experience the kills in `killed` earn at `level`. */
  function ExpGained(killed: seq<Enemy>, level: Level): (r: real)
    ensures r >= 5.0 * |killed| as real
    decreases |killed|
  {
    if killed == [] then 0.0
    else ExpGained(killed[..|killed| - 1], level) + KillReward(killed[|killed| - 1], level).1
  }

  /** Rewards add up over consecutive lists of kills. */
  lemma {:induction false} RewardsAppend(a: seq<Enemy>, b: seq<Enemy>, level: Level)
    ensures Points(a + b, level) == Points(a, level) + Points(b, level)
    ensures ExpGained(a + b, level) == ExpGained(a, level) + ExpGained(b, level)
    decreases |b|
  {
    if b == [] {
      assert a + b == a;
    } else {
      assert (a + b)[..|a + b| - 1] == a + b[..|b| - 1];
      RewardsAppend(a, b[..|b| - 1], level);
    }
  }

  /** Bleeding is applied when the player has it with a non-zero damage and duration. */
  predicate BleedArmed(p: Player)
  {
    p.appliesBleed && p.stats.bleedDps != 0.0 && p.stats.bleedDuration != 0.0
  }

  /**
   * A player projectile hitting one enemy: the enemy loses the projectile's
   * damage, is made to bleed afresh, is chilled and meets the Freezer check.
   */
  function HitEnemy(e: Enemy, proj: Projectile, p: Player, now: real, rng: nat -> Unit, k: nat): (r: (Enemy, nat))
    ensures r.0.id == e.id && r.0.kind == e.kind && r.0.maxHp == e.maxHp
    ensures r.0.hp == e.hp - proj.damage || r.0.hp == 0.0
    ensures BleedArmed(p) ==> r.0.bleeding == Some(Bleed(p.stats.bleedDps, p.stats.bleedDuration, now))
    ensures !BleedArmed(p) ==> r.0.bleeding == e.bleeding
    ensures r.0.slowFactor <= Max(e.slowFactor, SlowCap(p.stats))
    ensures r.1 >= k
  {
    var hurt := e.(hp := e.hp - proj.damage);
    var bled := if BleedArmed(p) then hurt.(bleeding := Some(Bleed(p.stats.bleedDps, p.stats.bleedDuration, now))) else hurt;
    InstaKill(Chill(bled, p, now), p.stats, rng, k)
  }

  /** Lifesteal on a hit of `damage`: health rises by the stolen share, up to the maximum. */
  function Lifesteal(hp: real, p: Player, damage: real): (r: real)
    ensures r <= Max(hp, p.stats.maxHp)
    ensures p.stats.lifesteal <= 0.0 ==> r == hp
    ensures p.stats.lifesteal > 0.0 && damage >= 0.0 && hp <= p.stats.maxHp ==> hp <= r <= p.stats.maxHp
  {
    if p.stats.lifesteal > 0.0 then
      assert damage >= 0.0 ==> damage * p.stats.lifesteal >= 0.0;
      Min(p.stats.maxHp, hp + damage * p.stats.lifesteal)
    else hp
  }

  /** A projectile hits enemy `e`: the enemy takes the hit and the player's health `hp` gains the lifesteal. */
  method Impact(e: Enemy, proj: Projectile, p: Player, hp: real, now: real, rng: nat -> Unit, k0: nat)
    returns (e': Enemy, hp': real, k: nat)
    ensures (e', k) == HitEnemy(e, proj, p, now, rng, k0)
    ensures hp' == Lifesteal(hp, p, proj.damage)
  {
    var (e1, k1) := HitEnemy(e, proj, p, now, rng, k0);
    e', k := e1, k1;
    hp' := Lifesteal(hp, p, proj.damage);
  }

  /** A kill releases the player's fragments, numbered from `id0`, when fragmentation is armed. */
  method Fall(p: Player, frags: seq<Projectile>, id0: nat) returns (frags': seq<Projectile>, nextId: nat)
    ensures frags' == frags + Fragments(p, id0)
    ensures nextId == id0 + FragmentCount(p)
  {
    frags' := frags;
    if p.hasFragmentation && p.stats.fragmentationCount != 0.0 {
      frags' := Release(frags, FragmentCount(p), FragmentDamage(p), 1.0, id0);
    }
    nextId := id0 + FragmentCount(p);
  }

  /** Where one projectile's pass over the enemies stands. */
  datatype PassState = PassState(hp: real, survivors: seq<Enemy>, killed: seq<Enemy>, hit: bool,
                                 frags: seq<Projectile>, k: nat, nextId: nat)

  /**
   * The projectile meets enemy `e`: an enemy it misses stays as it was; one it
   * overlaps is hit and the player's health gains the lifesteal, then at 0 hp
   * or less it is killed and releases its fragments, else it stays hurt.
   */
  function Meet(s: PassState, e: Enemy, proj: Projectile, p: Player, geo: Geometry, now: real, rng: nat -> Unit)
    : PassState
  {
    if !geo.overlaps(proj.id, e.id) then s.(survivors := s.survivors + [e])
    else
      var (e', k') := HitEnemy(e, proj, p, now, rng, s.k);
      var hp' := Lifesteal(s.hp, p, proj.damage);
      if e'.hp <= 0.0 then
        s.(hp := hp', killed := s.killed + [e'], hit := true, frags := s.frags + Fragments(p, s.nextId),
           k := k', nextId := s.nextId + FragmentCount(p))
      else s.(hp := hp', survivors := s.survivors + [e'], hit := true, k := k')
  }

  /** One player projectile's pass over `enemies` in order, from health `hp`, draw `k` and id `id`. */
  function Pass(enemies: seq<Enemy>, proj: Projectile, p: Player, hp: real, geo: Geometry, now: real,
                rng: nat -> Unit, k: nat, id: nat): (r: PassState)
    ensures r.k >= k && r.nextId == id + |r.frags|
    decreases |enemies|
  {
    if enemies == [] then PassState(hp, [], [], false, [], k, id)
    else
      Meet(Pass(enemies[..|enemies| - 1], proj, p, hp, geo, now, rng, k, id), enemies[|enemies| - 1],
           proj, p, geo, now, rng)
  }

  /** Enemy `e` is what a hit of `proj` leaves of an enemy of `enemies` that `proj` overlaps, at some draw. */
  ghost predicate Struck(e: Enemy, enemies: seq<Enemy>, proj: Projectile, p: Player, geo: Geometry, now: real,
                         rng: nat -> Unit)
  {
    exists x, j: nat :: x in enemies && geo.overlaps(proj.id, x.id) && e == HitEnemy(x, proj, p, now, rng, j).0
  }

  /** A struck enemy of a prefix is a struck enemy of the whole list. */
  lemma StruckGrows(e: Enemy, enemies: seq<Enemy>, proj: Projectile, p: Player, geo: Geometry, now: real,
                    rng: nat -> Unit)
    requires enemies != []
    requires Struck(e, enemies[..|enemies| - 1], proj, p, geo, now, rng)
    ensures Struck(e, enemies, proj, p, geo, now, rng)
  {
    var x, j: nat :| x in enemies[..|enemies| - 1] && geo.overlaps(proj.id, x.id)
      && e == HitEnemy(x, proj, p, now, rng, j).0;
    assert x in enemies;
  }

  /** A pass splits the enemies: every enemy is standing or killed, with the same ids. */
  lemma {:induction false} PassSplits(enemies: seq<Enemy>, proj: Projectile, p: Player, hp: real, geo: Geometry,
                                      now: real, rng: nat -> Unit, k: nat, id: nat)
    ensures var r := Pass(enemies, proj, p, hp, geo, now, rng, k, id);
      && |r.survivors| + |r.killed| == |enemies|
      && EnemyIds(r.survivors) + EnemyIds(r.killed) == EnemyIds(enemies)
    decreases |enemies|
  {
    if enemies != [] {
      var init, last := enemies[..|enemies| - 1], enemies[|enemies| - 1];
      PassSplits(init, proj, p, hp, geo, now, rng, k, id);
      var s := Pass(init, proj, p, hp, geo, now, rng, k, id);
      assert enemies == init + [last];
      if geo.overlaps(proj.id, last.id) {
        var (e', k') := HitEnemy(last, proj, p, now, rng, s.k);
        if e'.hp <= 0.0 {
          KillStep(s.survivors, s.killed, init, last, e');
        } else {
          KeepStep(s.survivors, s.killed, init, last, e');
        }
      } else {
        KeepStep(s.survivors, s.killed, init, last, last);
      }
    }
  }

  /** The killed are at 0 hp or less, and each is what a hit left of an enemy. */
  lemma {:induction false} PassKilled(enemies: seq<Enemy>, proj: Projectile, p: Player, hp: real, geo: Geometry,
                                      now: real, rng: nat -> Unit, k: nat, id: nat)
    ensures var r := Pass(enemies, proj, p, hp, geo, now, rng, k, id);
      forall e :: e in r.killed ==> e.hp <= 0.0 && Struck(e, enemies, proj, p, geo, now, rng)
    decreases |enemies|
  {
    if enemies != [] {
      var init, last := enemies[..|enemies| - 1], enemies[|enemies| - 1];
      PassKilled(init, proj, p, hp, geo, now, rng, k, id);
      var s := Pass(init, proj, p, hp, geo, now, rng, k, id);
      forall e | e in s.killed
        ensures Struck(e, enemies, proj, p, geo, now, rng)
      {
        StruckGrows(e, enemies, proj, p, geo, now, rng);
      }
      if geo.overlaps(proj.id, last.id) {
        var (e', k') := HitEnemy(last, proj, p, now, rng, s.k);
        assert Struck(e', enemies, proj, p, geo, now, rng);
      }
    }
  }

  /**
   * The enemies left standing: each enemy the projectile misses stays exactly
   * as it was, and any other standing enemy is what a hit left of an enemy, alive.
   */
  lemma {:induction false} PassSurvivors(enemies: seq<Enemy>, proj: Projectile, p: Player, hp: real, geo: Geometry,
                                         now: real, rng: nat -> Unit, k: nat, id: nat)
    ensures var r := Pass(enemies, proj, p, hp, geo, now, rng, k, id);
      && (forall e :: e in enemies && !geo.overlaps(proj.id, e.id) ==> e in r.survivors)
      && (forall e :: e in r.survivors ==>
            (e in enemies && !geo.overlaps(proj.id, e.id)) || (e.hp > 0.0 && Struck(e, enemies, proj, p, geo, now, rng)))
    decreases |enemies|
  {
    if enemies != [] {
      var init, last := enemies[..|enemies| - 1], enemies[|enemies| - 1];
      PassSurvivors(init, proj, p, hp, geo, now, rng, k, id);
      var s := Pass(init, proj, p, hp, geo, now, rng, k, id);
      assert enemies == init + [last];
      forall e | e in s.survivors && !(e in init && !geo.overlaps(proj.id, e.id))
        ensures Struck(e, enemies, proj, p, geo, now, rng)
      {
        StruckGrows(e, enemies, proj, p, geo, now, rng);
      }
      if geo.overlaps(proj.id, last.id) {
        var (e', k') := HitEnemy(last, proj, p, now, rng, s.k);
        assert Struck(e', enemies, proj, p, geo, now, rng);
      }
    }
  }

  /**
   * The projectile hit something exactly when it overlaps some enemy; health
   * never rises above the larger of its start and the maximum, and without
   * lifesteal it does not change.
   */
  lemma {:induction false} PassHealth(enemies: seq<Enemy>, proj: Projectile, p: Player, hp: real, geo: Geometry,
                                      now: real, rng: nat -> Unit, k: nat, id: nat)
    ensures var r := Pass(enemies, proj, p, hp, geo, now, rng, k, id);
      && (r.hit <==> exists e :: e in enemies && geo.overlaps(proj.id, e.id))
      && r.hp <= Max(hp, p.stats.maxHp)
      && (p.stats.lifesteal <= 0.0 ==> r.hp == hp)
    decreases |enemies|
  {
    if enemies != [] {
      var init, last := enemies[..|enemies| - 1], enemies[|enemies| - 1];
      PassHealth(init, proj, p, hp, geo, now, rng, k, id);
      assert enemies == init + [last];
    }
  }

  /** Each kill releases its fragments: `FragmentCount` player projectiles of fragment damage and durability 1. */
  lemma {:induction false} PassFragments(enemies: seq<Enemy>, proj: Projectile, p: Player, hp: real, geo: Geometry,
                                         now: real, rng: nat -> Unit, k: nat, id: nat)
    ensures var r := Pass(enemies, proj, p, hp, geo, now, rng, k, id);
      && |r.frags| == |r.killed| * FragmentCount(p)
      && (forall q :: q in r.frags ==> q.isPlayerProjectile && q.durability == 1.0 && q.damage == FragmentDamage(p))
    decreases |enemies|
  {
    if enemies != [] {
      var init := enemies[..|enemies| - 1];
      PassFragments(init, proj, p, hp, geo, now, rng, k, id);
      var s := Pass(init, proj, p, hp, geo, now, rng, k, id);
      assert (|s.killed| + 1) * FragmentCount(p) == |s.killed| * FragmentCount(p) + FragmentCount(p);
      forall q | q in Fragments(p, s.nextId)
        ensures q.isPlayerProjectile && q.durability == 1.0 && q.damage == FragmentDamage(p)
      {
        var i :| 0 <= i < |Fragments(p, s.nextId)| && Fragments(p, s.nextId)[i] == q;
      }
    }
  }

  /**
   * One player projectile's pass over the enemies, in order: each enemy it
   * overlaps is hit and the player's health `hp` gains the lifesteal; an enemy
   * brought to 0 hp or less is killed and releases its fragments, the others stay.
   */
  method ProjectilePass(proj: Projectile, p: Player, hp: real, enemies: seq<Enemy>, geo: Geometry, now: real,
                        rng: nat -> Unit, k0: nat, id0: nat)
    returns (hp': real, survivors: seq<Enemy>, killed: seq<Enemy>, hit: bool, frags: seq<Projectile>,
             k: nat, nextId: nat)
    ensures PassState(hp', survivors, killed, hit, frags, k, nextId) == Pass(enemies, proj, p, hp, geo, now, rng, k0, id0)
  {
    hp', survivors, killed, hit, frags, k, nextId := hp, [], [], false, [], k0, id0;
    for j := 0 to |enemies|
      invariant PassState(hp', survivors, killed, hit, frags, k, nextId)
             == Pass(enemies[..j], proj, p, hp, geo, now, rng, k0, id0)
    {
      assert enemies[..j + 1][..j] == enemies[..j];
      var e := enemies[j];
      var struck := geo.overlaps(proj.id, e.id);
      if struck {
        hit := true;
        e, hp', k := Impact(e, proj, p, hp', now, rng, k);
      }
      if struck && e.hp <= 0.0 {
        killed := killed + [e];
        frags, nextId := Fall(p, frags, nextId);
      } else {
        survivors := survivors + [e];
      }
    }
    assert enemies[..|enemies|] == enemies;
  }

  /** What the player-projectile stage has accumulated so far. */
  datatype Tally = Tally(hp: real, exp: real, score: real, es: seq<Enemy>, killed: seq<Enemy>, k: nat, nextId: nat)

  /**
   * The stage's bookkeeping from `enemies`, `score`, draw `k0` and id `id0`: every
   * enemy is standing or killed, the killed are dead, the standing are old or alive,
   * each kill is scored and paid in experience once, and health stays bounded.
   */
  predicate Accounts(t: Tally, p: Player, enemies: seq<Enemy>, score: real, k0: nat, id0: nat)
  {
    && |t.es| + |t.killed| == |enemies|
    && EnemyIds(t.es) + EnemyIds(t.killed) == EnemyIds(enemies)
    && (forall e :: e in t.killed ==> e.hp <= 0.0)
    && (forall e :: e in t.es ==> e in enemies || e.hp > 0.0)
    && t.score == score + Points(t.killed, p.level)
    && t.exp == p.stats.exp + ExpGained(t.killed, p.level)
    && t.hp <= Max(p.stats.currentHp, p.stats.maxHp)
    && t.k >= k0 && t.nextId >= id0
  }

  /**
   * One player projectile's pass over the standing enemies of the tally, with
   * its kills scored and paid; the projectile flies on by the durability rule
   * and the pass's fragments are released.
   */
  function Shot(proj: Projectile, p: Player, t: Tally, geo: Geometry, now: real, rng: nat -> Unit)
    : (r: (Tally, Option<Projectile>, seq<Projectile>))
    ensures r.1 == AfterPass(proj, exists e :: e in t.es && geo.overlaps(proj.id, e.id))
  {
    var s := Pass(t.es, proj, p, t.hp, geo, now, rng, t.k, t.nextId);
    PassHealth(t.es, proj, p, t.hp, geo, now, rng, t.k, t.nextId);
    (Tally(s.hp, t.exp + ExpGained(s.killed, p.level), t.score + Points(s.killed, p.level),
           s.survivors, t.killed + s.killed, s.k, s.nextId),
     AfterPass(proj, s.hit), s.frags)
  }

  /** A shot keeps the stage's bookkeeping. */
  lemma ShotAccounts(proj: Projectile, p: Player, t: Tally, enemies: seq<Enemy>, score: real, geo: Geometry,
                     now: real, rng: nat -> Unit, k0: nat, id0: nat)
    requires Accounts(t, p, enemies, score, k0, id0)
    ensures Accounts(Shot(proj, p, t, geo, now, rng).0, p, enemies, score, k0, id0)
  {
    var s := Pass(t.es, proj, p, t.hp, geo, now, rng, t.k, t.nextId);
    PassSplits(t.es, proj, p, t.hp, geo, now, rng, t.k, t.nextId);
    PassKilled(t.es, proj, p, t.hp, geo, now, rng, t.k, t.nextId);
    PassSurvivors(t.es, proj, p, t.hp, geo, now, rng, t.k, t.nextId);
    PassHealth(t.es, proj, p, t.hp, geo, now, rng, t.k, t.nextId);
    RewardsAppend(t.killed, s.killed, p.level);
    PassIds(enemies, t.es, t.killed, s.survivors, s.killed);
  }

  /** One player projectile's pass, with its kills added to the tally; the projectile flies on as `kept`. */
  method Shoot(proj: Projectile, p: Player, t: Tally, geo: Geometry, now: real, rng: nat -> Unit)
    returns (t': Tally, kept: Option<Projectile>, frags: seq<Projectile>)
    ensures (t', kept, frags) == Shot(proj, p, t, geo, now, rng)
  {
    var hp', survivors, killedHere, hit, fs, k', id' := ProjectilePass(proj, p, t.hp, t.es, geo, now, rng, t.k, t.nextId);
    t' := Tally(hp', t.exp + ExpGained(killedHere, p.level), t.score + Points(killedHere, p.level),
                survivors, t.killed + killedHere, k', id');
    kept, frags := AfterPass(proj, hit), fs;
  }

  /** What the player-projectile stage leaves: the tally, the projectiles flying on, and the fragments released. */
  datatype Barrage = Barrage(t: Tally, remaining: seq<Projectile>, fragments: seq<Projectile>)

  /**
   * The player-projectile stage over `projectiles` in order from tally `t0`: an
   * enemy projectile flies on untouched; a player projectile makes its shot.
   */
  function Shots(projectiles: seq<Projectile>, p: Player, geo: Geometry, now: real, rng: nat -> Unit, t0: Tally)
    : (r: Barrage)
    ensures |r.remaining| <= |projectiles|
    decreases |projectiles|
  {
    if projectiles == [] then Barrage(t0, [], [])
    else
      var b := Shots(projectiles[..|projectiles| - 1], p, geo, now, rng, t0);
      var proj := projectiles[|projectiles| - 1];
      if !proj.isPlayerProjectile then b.(remaining := b.remaining + [proj])
      else
        var (t, kept, frags) := Shot(proj, p, b.t, geo, now, rng);
        Barrage(t, b.remaining + (if kept.Some? then [kept.value] else []), b.fragments + frags)
  }

  /** The stage starts from an empty tally, which accounts for every enemy. */
  lemma StartAccounts(p: Player, enemies: seq<Enemy>, score: real, k0: nat, id0: nat)
    ensures Accounts(Tally(p.stats.currentHp, p.stats.exp, score, enemies, [], k0, id0), p, enemies, score, k0, id0)
  {
    EnemyIdsAppend(enemies, []);
    assert enemies + [] == enemies;
  }

  /** The stage keeps the bookkeeping, and every fragment it releases is a fragment of the player's. */
  lemma {:induction false} ShotsAccount(projectiles: seq<Projectile>, p: Player, geo: Geometry, now: real,
                                        rng: nat -> Unit, t0: Tally, enemies: seq<Enemy>, score: real, k0: nat, id0: nat)
    requires Accounts(t0, p, enemies, score, k0, id0)
    ensures var b := Shots(projectiles, p, geo, now, rng, t0);
      && Accounts(b.t, p, enemies, score, k0, id0)
      && (forall q :: q in b.fragments ==> q.isPlayerProjectile && q.durability == 1.0 && q.damage == FragmentDamage(p))
    decreases |projectiles|
  {
    if projectiles != [] {
      var init, proj := projectiles[..|projectiles| - 1], projectiles[|projectiles| - 1];
      ShotsAccount(init, p, geo, now, rng, t0, enemies, score, k0, id0);
      var b := Shots(init, p, geo, now, rng, t0);
      if proj.isPlayerProjectile {
        ShotAccounts(proj, p, b.t, enemies, score, geo, now, rng, k0, id0);
        PassFragments(b.t.es, proj, p, b.t.hp, geo, now, rng, b.t.k, b.t.nextId);
      }
    }
  }

  /**
   * What flies on: every enemy projectile, untouched, and of the player
   * projectiles only what the durability rule lets through after a pass.
   */
  lemma {:induction false} ShotsFlyOn(projectiles: seq<Projectile>, p: Player, geo: Geometry, now: real,
                                      rng: nat -> Unit, t0: Tally)
    ensures var b := Shots(projectiles, p, geo, now, rng, t0);
      && (forall q :: q in projectiles && !q.isPlayerProjectile ==> q in b.remaining)
      && (forall q :: q in b.remaining && !q.isPlayerProjectile ==> q in projectiles)
      && (forall q :: q in b.remaining && q.isPlayerProjectile ==>
            exists x, hit :: x in projectiles && x.isPlayerProjectile && AfterPass(x, hit) == Some(q))
    decreases |projectiles|
  {
    if projectiles != [] {
      var init, proj := projectiles[..|projectiles| - 1], projectiles[|projectiles| - 1];
      ShotsFlyOn(init, p, geo, now, rng, t0);
      assert projectiles == init + [proj];
      var b := Shots(init, p, geo, now, rng, t0);
      forall q | q in b.remaining && q.isPlayerProjectile
        ensures exists x, hit :: x in projectiles && x.isPlayerProjectile && AfterPass(x, hit) == Some(q)
      {
        var x, hit :| x in init && x.isPlayerProjectile && AfterPass(x, hit) == Some(q);
        assert x in projectiles;
      }
      if proj.isPlayerProjectile {
        var hit := exists e :: e in b.t.es && geo.overlaps(proj.id, e.id);
        assert Shot(proj, p, b.t, geo, now, rng).1 == AfterPass(proj, hit);
      }
    }
  }

  /**
   * The player-projectile stage: each player projectile makes its pass over the
   * enemies still standing, then flies on by the durability rule; enemy
   * projectiles are kept as they are; the fragments join after the projectiles.
   * Each kill scores and gives experience at the player's level.
   */
  method PlayerShots(p: Player, enemies: seq<Enemy>, projectiles: seq<Projectile>, score: real, geo: Geometry,
                     now: real, rng: nat -> Unit, k0: nat, id0: nat)
    returns (hp: real, exp: real, es: seq<Enemy>, ps: seq<Projectile>, score': real, killed: seq<Enemy>, k: nat, nextId: nat)
    ensures var b := Shots(projectiles, p, geo, now, rng, Tally(p.stats.currentHp, p.stats.exp, score, enemies, [], k0, id0));
      && Tally(hp, exp, score', es, killed, k, nextId) == b.t
      && ps == b.remaining + b.fragments
    ensures |es| + |killed| == |enemies|
    ensures EnemyIds(es) + EnemyIds(killed) == EnemyIds(enemies)
    ensures forall e :: e in killed ==> e.hp <= 0.0
    ensures forall e :: e in es ==> e in enemies || e.hp > 0.0
    ensures score' == score + Points(killed, p.level)
    ensures exp == p.stats.exp + ExpGained(killed, p.level)
    ensures hp <= Max(p.stats.currentHp, p.stats.maxHp)
    // Enemy projectiles go through this stage untouched.
    ensures forall q :: q in ps && !q.isPlayerProjectile ==> q in projectiles
    ensures forall q :: q in projectiles && !q.isPlayerProjectile ==> q in ps
    ensures k >= k0 && nextId >= id0
  {
    var t0 := Tally(p.stats.currentHp, p.stats.exp, score, enemies, [], k0, id0);
    var t := t0;
    var remaining: seq<Projectile>, fragments: seq<Projectile> := [], [];
    for i := 0 to |projectiles|
      invariant Barrage(t, remaining, fragments) == Shots(projectiles[..i], p, geo, now, rng, t0)
    {
      assert projectiles[..i + 1][..i] == projectiles[..i];
      var proj := projectiles[i];
      if !proj.isPlayerProjectile {
        remaining := remaining + [proj];
      } else {
        var kept, frags;
        t, kept, frags := Shoot(proj, p, t, geo, now, rng);
        match kept {
          case Some(x) => remaining := remaining + [x];
          case None =>
        }
        fragments := fragments + frags;
      }
    }
    assert projectiles[..|projectiles|] == projectiles;
    StartAccounts(p, enemies, score, k0, id0);
    ShotsAccount(projectiles, p, geo, now, rng, t0, enemies, score, k0, id0);
    ShotsFlyOn(projectiles, p, geo, now, rng, t0);
    ps := remaining + fragments;
    hp, exp, es, score', killed, k, nextId := t.hp, t.exp, t.es, t.score, t.killed, t.k, t.nextId;
  }

  /** After a pass, the standing and the killed enemies still account for every id. */
  lemma PassIds(enemies: seq<Enemy>, es: seq<Enemy>, killed: seq<Enemy>, survivors: seq<Enemy>, killedHere: seq<Enemy>)
    requires EnemyIds(es) + EnemyIds(killed) == EnemyIds(enemies)
    requires EnemyIds(survivors) + EnemyIds(killedHere) == EnemyIds(es)
    ensures EnemyIds(survivors) + EnemyIds(killed + killedHere) == EnemyIds(enemies)
  {
    EnemyIdsAppend(killed, killedHere);
  }

  /** Enemy-level facts about a stage that keeps `|es| + |killed|` and the ids: with distinct ids, no enemy is both kept and killed, and none is killed twice. */
  lemma KillsAreDistinct(enemies: seq<Enemy>, es: seq<Enemy>, killed: seq<Enemy>)
    requires |EnemyIds(enemies)| == |enemies|
    requires |es| + |killed| == |enemies|
    requires EnemyIds(es) + EnemyIds(killed) == EnemyIds(enemies)
    ensures EnemyIds(es) !! EnemyIds(killed)
    ensures |EnemyIds(killed)| == |killed|
  {
    IdsAtMostLength(es);
    IdsAtMostLength(killed);
    assert |EnemyIds(es) + EnemyIds(killed)| + |EnemyIds(es) * EnemyIds(killed)|
        == |EnemyIds(es)| + |EnemyIds(killed)|;
    assert EnemyIds(es) * EnemyIds(killed) == {};
    forall x | x in EnemyIds(es)
      ensures x !in EnemyIds(killed)
    {
      assert x !in EnemyIds(es) * EnemyIds(killed);
    }
  }

  /** A list has at most as many ids as elements. */
  lemma {:induction false} IdsAtMostLength(es: seq<Enemy>)
    ensures |EnemyIds(es)| <= |es|
    decreases |es|
  {
    if es != [] {
      IdsAtMostLength(es[..|es| - 1]);
      assert es == es[..|es| - 1] + [es[|es| - 1]];
      EnemyIdsAppend(es[..|es| - 1], [es[|es| - 1]]);
      assert EnemyIds([es[|es| - 1]]) == {es[|es| - 1].id};
    }
  }

  // ---------------------------------------------------------------- enemy projectiles against the player

  /** The damages of the enemy projectiles that hit the player, in order. */
  function HitDamages(ps: seq<Projectile>, geo: Geometry): (r: seq<real>)
    ensures |r| <= |ps|
    decreases |ps|
  {
    if ps == [] then []
    else
      var last := ps[|ps| - 1];
      HitDamages(ps[..|ps| - 1], geo) + (if !last.isPlayerProjectile && geo.hitsPlayer(last.id) then [last.damage] else [])
  }

  /** The projectiles left once those that hit the player are consumed, in order. */
  function Unconsumed(ps: seq<Projectile>, geo: Geometry): (r: seq<Projectile>)
    ensures forall q :: q in r <==> q in ps && (q.isPlayerProjectile || !geo.hitsPlayer(q.id))
    ensures |r| + |HitDamages(ps, geo)| == |ps|
    decreases |ps|
  {
    if ps == [] then []
    else
      var last := ps[|ps| - 1];
      assert ps == ps[..|ps| - 1] + [last];
      Unconsumed(ps[..|ps| - 1], geo) + (if !last.isPlayerProjectile && geo.hitsPlayer(last.id) then [] else [last])
  }

  /** The enemy-projectile stage: every enemy projectile that hits the player is a hit and is consumed. */
  method EnemyShots(p: Player, projectiles: seq<Projectile>, geo: Geometry, now: real) returns (p': Player, ps: seq<Projectile>)
    ensures p' == HitAll(p, HitDamages(projectiles, geo), now)
    ensures ps == Unconsumed(projectiles, geo)
  {
    p', ps := p, [];
    for i := 0 to |projectiles|
      invariant p' == HitAll(p, HitDamages(projectiles[..i], geo), now)
      invariant ps == Unconsumed(projectiles[..i], geo)
    {
      ShotStep(projectiles, i, geo);
      var proj := projectiles[i];
      if !proj.isPlayerProjectile && geo.hitsPlayer(proj.id) {
        HitAllSnoc(p, HitDamages(projectiles[..i], geo), proj.damage, now);
        p' := TakeHit(p', proj.damage, now);
      } else {
        ps := ps + [proj];
      }
    }
    assert projectiles[..|projectiles|] == projectiles;
  }

  /** How one more projectile extends the hits and the projectiles left. */
  lemma ShotStep(projectiles: seq<Projectile>, i: nat, geo: Geometry)
    requires i < |projectiles|
    ensures var proj, pre, post := projectiles[i], projectiles[..i], projectiles[..i + 1];
      if !proj.isPlayerProjectile && geo.hitsPlayer(proj.id) then
        HitDamages(post, geo) == HitDamages(pre, geo) + [proj.damage] && Unconsumed(post, geo) == Unconsumed(pre, geo)
      else
        HitDamages(post, geo) == HitDamages(pre, geo) && Unconsumed(post, geo) == Unconsumed(pre, geo) + [proj]
  {
    assert projectiles[..i + 1][..i] == projectiles[..i];
  }

  /** One more hit at the end of a fold is one more `TakeHit`. */
  lemma HitAllSnoc(p: Player, hits: seq<real>, d: real, now: real)
    ensures HitAll(p, hits + [d], now) == TakeHit(HitAll(p, hits, now), d, now)
  {
    assert (hits + [d])[..|hits|] == hits;
  }

  // ---------------------------------------------------------------- contact

  /** The strength of an enemy's contact: its damage raised by rage at `p`'s health. */
  function ContactStrength(e: Enemy, p: Player): real
    requires p.stats.maxHp > 0.0
  {
    e.damage * RageMultiplier(p)
  }

  /** Each enemy touching the player hits with its damage, raised by rage at the player's health at that moment. */
  function ContactAll(p: Player, es: seq<Enemy>, geo: Geometry, now: real): (r: Player)
    requires p.stats.maxHp > 0.0
    ensures r.stats.maxHp == p.stats.maxHp
    decreases |es|
  {
    if es == [] then p
    else
      var q := ContactAll(p, es[..|es| - 1], geo, now);
      var last := es[|es| - 1];
      if geo.touchesPlayer(last.id) then TakeHit(q, ContactStrength(last, q), now) else q
  }

  /** The contact strengths of the enemies touching the player, with rage taken at `p`'s health. */
  function ContactDamages(es: seq<Enemy>, geo: Geometry, p: Player): seq<real>
    requires p.stats.maxHp > 0.0
    decreases |es|
  {
    if es == [] then []
    else
      var last := es[|es| - 1];
      ContactDamages(es[..|es| - 1], geo, p) + (if geo.touchesPlayer(last.id) then [ContactStrength(last, p)] else [])
  }

  /** Once a fold of hits has cost health, the player is invulnerable and the barrier is down. */
  lemma {:induction false} DamagedStaysShielded(p: Player, hits: seq<real>, now: real)
    ensures HitAll(p, hits, now).stats.currentHp != p.stats.currentHp ==>
      HitAll(p, hits, now).isInvulnerable && !BarrierUp(HitAll(p, hits, now))
    decreases |hits|
  {
    if hits != [] {
      DamagedStaysShielded(p, hits[..|hits| - 1], now);
    }
  }

  /** A contact hits as hard at `q` as at `p` when the health is the same, and it does nothing when `q` is shielded. */
  lemma SameContact(p: Player, q: Player, e: Enemy, now: real)
    requires p.stats.maxHp > 0.0 && q.stats.maxHp == p.stats.maxHp && q.hasRageActive == p.hasRageActive
    requires q.stats.currentHp == p.stats.currentHp || (q.isInvulnerable && !BarrierUp(q))
    ensures TakeHit(q, ContactStrength(e, q), now) == TakeHit(q, ContactStrength(e, p), now)
  {
  }

  /**
   * Rage is read at the health before the first contact: only a damaging hit
   * changes health, and after it every further contact does nothing. So the
   * contact stage is the plain fold of hits with rage taken once.
   */
  lemma {:induction false} ContactIsHitAll(p: Player, es: seq<Enemy>, geo: Geometry, now: real)
    requires p.stats.maxHp > 0.0
    ensures ContactAll(p, es, geo, now) == HitAll(p, ContactDamages(es, geo, p), now)
    decreases |es|
  {
    if es != [] {
      var init, last := es[..|es| - 1], es[|es| - 1];
      var hits := ContactDamages(init, geo, p);
      ContactIsHitAll(p, init, geo, now);
      var q := HitAll(p, hits, now);
      DamagedStaysShielded(p, hits, now);
      if geo.touchesPlayer(last.id) {
        SameContact(p, q, last, now);
        HitAllSnoc(p, hits, ContactStrength(last, p), now);
        assert ContactAll(p, es, geo, now) == TakeHit(q, ContactStrength(last, q), now);
        assert ContactDamages(es, geo, p) == hits + [ContactStrength(last, p)];
        assert HitAll(p, hits + [ContactStrength(last, p)], now) == TakeHit(q, ContactStrength(last, p), now);
        assert ContactAll(p, es, geo, now) == HitAll(p, ContactDamages(es, geo, p), now);
      } else {
        assert ContactDamages(es, geo, p) == hits;
        assert ContactAll(p, es, geo, now) == q;
      }
    }
  }

  /** The contact stage, enemy by enemy. */
  method Contact(p: Player, enemies: seq<Enemy>, geo: Geometry, now: real) returns (p': Player)
    requires p.stats.maxHp > 0.0
    ensures p' == ContactAll(p, enemies, geo, now)
    ensures p' == HitAll(p, ContactDamages(enemies, geo, p), now)
  {
    ContactIsHitAll(p, enemies, geo, now);
    p' := p;
    for i := 0 to |enemies|
      invariant p' == ContactAll(p, enemies[..i], geo, now)
    {
      assert enemies[..i + 1][..i] == enemies[..i];
      if geo.touchesPlayer(enemies[i].id) {
        p' := TakeHit(p', ContactStrength(enemies[i], p'), now);
      }
    }
    assert enemies[..|enemies|] == enemies;
  }

  // ---------------------------------------------------------------- barrier break

  /**
   * The barrier-break stage: when this tick spent the last charge and a burst
   * count is set, the cooldown restarts now and the burst joins the projectiles.
   */
  function Broken(p: Player, oldHits: real, projectiles: seq<Projectile>, now: real, id: nat)
    : (r: (Player, seq<Projectile>, nat))
    ensures r.0 == p.(stats := p.stats.(lastBarrierActivationTime := r.0.stats.lastBarrierActivationTime))
    // The burst only adds projectiles, one fresh id each.
    ensures projectiles <= r.1 && r.2 == id + |r.1| - |projectiles|
  {
    if BarrierBroke(p, oldHits) then
      (p.(stats := p.stats.(lastBarrierActivationTime := now)), projectiles + BreakBurst(p, id), id + |BreakBurst(p, id)|)
    else (p, projectiles, id)
  }

  /** The barrier-break stage, one projectile of the burst at a time. */
  method BreakBarrier(p: Player, oldHits: real, projectiles: seq<Projectile>, now: real, id0: nat)
    returns (p': Player, ps: seq<Projectile>, nextId: nat)
    ensures (p', ps, nextId) == Broken(p, oldHits, projectiles, now, id0)
    ensures !BarrierBroke(p, oldHits) ==> p' == p && ps == projectiles && nextId == id0
    ensures BarrierBroke(p, oldHits) ==>
      && p' == p.(stats := p.stats.(lastBarrierActivationTime := now))
      && ps == projectiles + BreakBurst(p, id0)
      && nextId == id0 + |BreakBurst(p, id0)|
  {
    p', ps, nextId := p, projectiles, id0;
    if BarrierBroke(p, oldHits) {
      var n := Iterations(OrElse(p.stats.barrierBreakProjectileCount, 0.0));
      p' := p.(stats := p.stats.(lastBarrierActivationTime := now));
      ps := Release(projectiles, n, BreakDamage(p), 1.0, id0);
      nextId := id0 + n;
    }
  }
}
