/**
 * One game tick (`GAME_TICK`): the stages in order, then the level-up with its
 * card offer, the death check and the clock.
 */
module Tick {
  import opened Numeric
  import opened GameTypes
  import opened Catalogue
  import opened Combat
  import opened Offers
  import opened GameState
  import opened TickStages

  /** The player's build: everything a tick leaves alone. */
  predicate SameBuild(a: Player, b: Player)
  {
    b == a.(isInvulnerable := b.isInvulnerable, level := b.level,
            stats := a.stats.(currentHp := b.stats.currentHp, exp := b.stats.exp,
                              expToNextLevel := b.stats.expToNextLevel,
                              barrierHitsRemaining := b.stats.barrierHitsRemaining,
                              invulnerabilityEndTime := b.stats.invulnerabilityEndTime,
                              lastBarrierActivationTime := b.stats.lastBarrierActivationTime,
                              lastThunderboltTime := b.stats.lastThunderboltTime))
  }

  /** The build is kept through a chain of stages. */
  lemma SameBuildTrans(a: Player, b: Player, c: Player)
    requires SameBuild(a, b) && SameBuild(b, c)
    ensures SameBuild(a, c)
  {
  }

  /** The upkeep at the start of a tick: an expired invulnerability ends, then a spent barrier may recharge. */
  function Upkeep(p: Player, now: real): (r: Player)
    ensures SameBuild(p, r) && r.level == p.level
    ensures r.stats.currentHp == p.stats.currentHp && r.stats.exp == p.stats.exp
    ensures r.stats.expToNextLevel == p.stats.expToNextLevel
  {
    RechargeBarrier(EndInvulnerability(p, now), now)
  }

  /** The enemy update: every enemy's slow and bleed, then only those on the field and alive. */
  function Standing(es: seq<Enemy>, p: Player, geo: Geometry, now: real, rng: nat -> Unit, k: nat)
    : (r: (seq<Enemy>, nat))
    ensures forall e :: e in r.0 ==> e.hp > 0.0
    ensures |r.0| <= |es| && r.1 >= k
  {
    var (refreshed, k1) := RefreshAll(es, p, now, rng, k);
    (OnFieldAndAlive(refreshed, geo), k1)
  }

  /** The player's own attacks: the thunderbolts, then firing. */
  function Attacked(p: Player, enemies: seq<Enemy>, projectiles: seq<Projectile>, lastShot: real, geo: Geometry,
                    now: real, rng: nat -> Unit, k: nat, id: nat)
    : (r: (Player, seq<Enemy>, seq<Projectile>, real, nat, nat))
    requires p.stats.maxHp > 0.0
    ensures SameBuild(p, r.0) && r.0.level == p.level
    ensures r.0.stats.currentHp == p.stats.currentHp && r.0.stats.exp == p.stats.exp
    ensures r.0.stats.expToNextLevel == p.stats.expToNextLevel
    ensures |r.1| == |enemies| && r.5 >= id
  {
    var (p1, es, k1) := Thundered(p, enemies, geo, now, rng, k);
    var (ps, lastShot', k2, id2) := Fired(p1, projectiles, lastShot, now, rng, k1, id);
    (p1, es, ps, lastShot', k2, id2)
  }

  /** The attacks, stage by stage. */
  method Attacks(p: Player, enemies: seq<Enemy>, projectiles: seq<Projectile>, lastShot: real, geo: Geometry,
                 now: real, rng: nat -> Unit, k0: nat, id0: nat)
    returns (p': Player, es: seq<Enemy>, ps: seq<Projectile>, lastShot': real, k: nat, nextId: nat)
    requires p.stats.maxHp > 0.0
    ensures SameBuild(p, p') && p'.level == p.level
    ensures p'.stats.currentHp == p.stats.currentHp && p'.stats.exp == p.stats.exp
    ensures p'.stats.expToNextLevel == p.stats.expToNextLevel
    ensures |es| == |enemies| && nextId >= id0
    ensures (p', es, ps, lastShot', k, nextId) == Attacked(p, enemies, projectiles, lastShot, geo, now, rng, k0, id0)
  {
    var k1;
    p', es, k1 := Thunder(p, enemies, geo, now, rng, k0);
    ps, lastShot', k, nextId := Fire(p', projectiles, lastShot, now, rng, k1, id0);
  }

  /** What the offence leaves for the player-shot stage. */
  datatype Field = Field(player: Player, enemies: seq<Enemy>, projectiles: seq<Projectile>,
                         lastShot: real, lastSpawn: real, k: nat, nextId: nat)

  /**
   * The stages before the collisions: invulnerability and barrier upkeep,
   * thunderbolts, firing, the enemy update and spawning.
   */
  function Opening(s: State, input: TickInput): (f: Field)
    requires s.player.stats.maxHp > 0.0
    ensures SameBuild(s.player, f.player)
  {
    var now, rng, geo := input.now, input.rng, input.geometry;
    var p1 := Upkeep(s.player, now);
    var (p2, struck, projectiles, lastShot, k2, id2) :=
      Attacked(p1, s.enemies, s.projectiles, s.lastShotTime, geo, now, rng, 0, s.nextId);
    SameBuildTrans(s.player, p1, p2);
    var (standing, k3) := Standing(struck, p2, geo, now, rng, k2);
    var spawned := Spawn(p2, standing, s.lastEnemySpawnTime, now, rng, k3, id2);
    Field(p2, spawned.enemies, OnField(projectiles, geo), lastShot, spawned.lastSpawn, spawned.k, spawned.nextId)
  }

  /** The opening stages, one after the other. */
  method Offence(s: State, input: TickInput) returns (f: Field)
    requires s.player.stats.maxHp > 0.0
    ensures f == Opening(s, input)
    ensures SameBuild(s.player, f.player) && f.player.level == s.player.level
    ensures f.player.stats.currentHp == s.player.stats.currentHp && f.player.stats.exp == s.player.stats.exp
    ensures f.player.stats.expToNextLevel == s.player.stats.expToNextLevel
    ensures forall e :: e in f.enemies ==> e.hp > 0.0
    ensures |f.enemies| <= |s.enemies| || |f.enemies| <= MaxEnemies(s.player.level)
    ensures f.nextId >= s.nextId
  {
    var now, rng, geo := input.now, input.rng, input.geometry;
    var p1 := Upkeep(s.player, now);
    var p2, struck, projectiles, lastShot, k2, id2 :=
      Attacks(p1, s.enemies, s.projectiles, s.lastShotTime, geo, now, rng, 0, s.nextId);
    SameBuildTrans(s.player, p1, p2);
    var (standing, k3) := Standing(struck, p2, geo, now, rng, k2);
    var spawned := Spawn(p2, standing, s.lastEnemySpawnTime, now, rng, k3, id2);
    f := Field(p2, spawned.enemies, OnField(projectiles, geo), lastShot, spawned.lastSpawn, spawned.k, spawned.nextId);
  }

  /**
   * The stages after the player's shots: the enemy projectiles that hit, the
   * contacts with rage read at the health after those hits, and the barrier
   * break judged against the charges held before either.
   */
  function Closing(p: Player, enemies: seq<Enemy>, projectiles: seq<Projectile>, geo: Geometry, now: real, id: nat)
    : (r: (Player, seq<Projectile>, nat))
    requires p.stats.maxHp > 0.0
  {
    var p4 := HitAll(p, HitDamages(projectiles, geo), now);
    var p5 := HitAll(p4, ContactDamages(enemies, geo, p4), now);
    Broken(p5, BarrierHits(p), Unconsumed(projectiles, geo), now, id)
  }

  /** The closing stages, one after the other. */
  method Defence(p: Player, enemies: seq<Enemy>, projectiles: seq<Projectile>, geo: Geometry, now: real, id0: nat)
    returns (p': Player, ps: seq<Projectile>, nextId: nat)
    requires p.stats.maxHp > 0.0
    ensures SameBuild(p, p') && p'.level == p.level
    ensures p'.stats.exp == p.stats.exp && p'.stats.expToNextLevel == p.stats.expToNextLevel
    ensures nextId >= id0
    ensures (p', ps, nextId) == Closing(p, enemies, projectiles, geo, now, id0)
  {
    var oldHits := BarrierHits(p);
    var p4, ps4 := EnemyShots(p, projectiles, geo, now);
    var p5 := Contact(p4, enemies, geo, now);
    p', ps, nextId := BreakBarrier(p5, oldHits, ps4, now, id0);
  }

  /**
   * The stages of a tick before the level-up: the opening stages, the player's
   * projectiles against the enemies, the closing stages. Gives the new state,
   * the enemies the player's projectiles killed and the cursor after the draws.
   */
  function Staged(s: State, input: TickInput): (r: (State, seq<Enemy>, nat))
    requires s.player.stats.maxHp > 0.0
  {
    var now, rng, geo := input.now, input.rng, input.geometry;
    var f := Opening(s, input);
    var b := Shots(f.projectiles, f.player, geo, now, rng,
                   Tally(f.player.stats.currentHp, f.player.stats.exp, s.score, f.enemies, [], f.k, f.nextId));
    var p3 := f.player.(stats := f.player.stats.(currentHp := b.t.hp, exp := b.t.exp));
    var (p6, ps6, id6) := Closing(p3, b.t.es, b.remaining + b.fragments, geo, now, b.t.nextId);
    (s.(player := p6, enemies := b.t.es, projectiles := ps6, score := b.t.score, lastShotTime := f.lastShot,
        lastEnemySpawnTime := f.lastSpawn, nextId := id6),
     b.t.killed, b.t.k)
  }

  /** The stages of a tick before the level-up, one after the other. */
  method Stages(s: State, input: TickInput) returns (r: State, killed: seq<Enemy>, k: nat)
    requires s.player.stats.maxHp > 0.0
    ensures (r, killed, k) == Staged(s, input)
    ensures SameBuild(s.player, r.player) && r.player.level == s.player.level
    ensures r.player.stats.expToNextLevel == s.player.stats.expToNextLevel
    ensures r.player.stats.exp == s.player.stats.exp + ExpGained(killed, s.player.level)
    ensures r.score == s.score + Points(killed, s.player.level)
    ensures forall e :: e in killed ==> e.hp <= 0.0
    ensures forall e :: e in r.enemies ==> e.hp > 0.0
    ensures |r.enemies| + |killed| <= |s.enemies| || |r.enemies| + |killed| <= MaxEnemies(s.player.level)
    ensures r.status == s.status && r.gameTime == s.gameTime && r.offeredCards == s.offeredCards
    ensures r.nextId >= s.nextId
  {
    var now, rng, geo := input.now, input.rng, input.geometry;
    var f := Offence(s, input);
    var hp, exp, es, ps, score, killedNow, k5, id5 :=
      PlayerShots(f.player, f.enemies, f.projectiles, s.score, geo, now, rng, f.k, f.nextId);
    var p3 := f.player.(stats := f.player.stats.(currentHp := hp, exp := exp));
    assert SameBuild(f.player, p3);
    SameBuildTrans(s.player, f.player, p3);
    var p6, ps6, id6 := Defence(p3, es, ps, geo, now, id5);
    SameBuildTrans(s.player, p3, p6);
    killed, k := killedNow, k5;
    r := s.(player := p6, enemies := es, projectiles := ps6, score := score, lastShotTime := f.lastShot,
            lastEnemySpawnTime := f.lastSpawn, nextId := id6);
  }

  /**
   * The end of a playing tick, after the stages: with enough experience the
   * player levels up, is offered cards and the game moves to card selection; a
   * player at 0 hp or less ends the game; the game time advances by 16.
   */
  method Settle(st: State, rng: nat -> Unit, k0: nat) returns (r: State)
    ensures r.player == LevelUp(st.player)
    ensures r == st.(status := r.status, player := r.player, gameTime := st.gameTime + 16.0,
                     offeredCards := r.offeredCards)
    ensures r.status == Playing || r.status == CardSelection || r.status == GameOver
    ensures r.status == GameOver <==> r.player.stats.currentHp <= 0.0
    ensures r.status == CardSelection <==>
      st.player.stats.exp >= st.player.stats.expToNextLevel && r.player.stats.currentHp > 0.0
    ensures st.player.stats.exp < st.player.stats.expToNextLevel ==> r.offeredCards == st.offeredCards
    ensures st.player.stats.exp >= st.player.stats.expToNextLevel ==>
      && (forall c :: c in r.offeredCards ==> Offerable(r.player, AllCardsPool, Staffs, c))
      && DistinctIds(r.offeredCards)
      && (CardChoicesCount + r.player.stats.appraisalStacks > 0.0 ==> r.offeredCards != [])
      && (|r.offeredCards| <= 1 || ((|r.offeredCards| - 1) as real) < CardChoicesCount + r.player.stats.appraisalStacks)
  {
    var p, status, offered, k := st.player, Playing, st.offeredCards, k0;
    if p.stats.exp >= p.stats.expToNextLevel {
      p := LevelUp(p);
      offered, k := LevelUpOffer(p, rng, k);
      status := CardSelection;
    }
    if p.stats.currentHp <= 0.0 {
      status := GameOver;
    }
    r := st.(status := status, player := p, gameTime := st.gameTime + 16.0, offeredCards := offered);
  }

  /**
   * One tick. Outside PLAYING nothing happens. Otherwise the stages run; with
   * enough experience the player levels up, is offered cards and the game
   * moves to card selection; a player at 0 hp or less ends the game; the game
   * time advances by 16. `killed` lists the enemies the player's projectiles
   * killed this tick.
   */
  method Tick(s: State, input: TickInput) returns (r: State, killed: seq<Enemy>)
    requires s.status == Playing ==> s.player.stats.maxHp > 0.0
    ensures s.status != Playing ==> r == s && killed == []
    ensures s.status == Playing ==>
      && r.gameTime == s.gameTime + 16.0
      && SameBuild(s.player, r.player)
      && (r.status == Playing || r.status == CardSelection || r.status == GameOver)
      && (r.status == GameOver <==> r.player.stats.currentHp <= 0.0)
      && r.score == s.score + Points(killed, s.player.level)
      && (forall e :: e in killed ==> e.hp <= 0.0)
      && (forall e :: e in r.enemies ==> e.hp > 0.0)
      && (|r.enemies| + |killed| <= |s.enemies| || |r.enemies| + |killed| <= MaxEnemies(s.player.level))
      && r.nextId >= s.nextId
    // The tick is the stages, then the level-up, the death check and the clock.
    ensures s.status == Playing ==>
      var staged := Staged(s, input);
      && killed == staged.1
      && r.player == LevelUp(staged.0.player)
      && r == staged.0.(status := r.status, player := r.player, gameTime := s.gameTime + 16.0,
                        offeredCards := r.offeredCards)
      && (r.status == CardSelection <==>
            staged.0.player.stats.exp >= staged.0.player.stats.expToNextLevel && r.player.stats.currentHp > 0.0)
    // Without a level-up the level and the offer stay and the experience is the kills'.
    ensures s.status == Playing && r.status != CardSelection ==>
      && r.player.level == s.player.level && r.offeredCards == s.offeredCards
      && r.player.stats.exp == s.player.stats.exp + ExpGained(killed, s.player.level)
    // A level-up: one level, the threshold paid, full health, and an offer of cards the player may take.
    ensures s.status == Playing && r.status == CardSelection ==>
      && r.player.level == s.player.level + 1
      && r.player.stats.expToNextLevel == ExpThreshold(r.player.level)
      && r.player.stats.exp == s.player.stats.exp + ExpGained(killed, s.player.level) - s.player.stats.expToNextLevel
      && r.player.stats.currentHp == r.player.stats.maxHp
      && (forall c :: c in r.offeredCards ==> Offerable(r.player, AllCardsPool, Staffs, c))
      && DistinctIds(r.offeredCards)
      && (CardChoicesCount + r.player.stats.appraisalStacks > 0.0 ==> r.offeredCards != [])
      && (|r.offeredCards| <= 1 || ((|r.offeredCards| - 1) as real) < CardChoicesCount + r.player.stats.appraisalStacks)
  {
    if s.status != Playing {
      return s, [];
    }
    var st, k;
    st, killed, k := Stages(s, input);
    r := Settle(st, input.rng, k);
  }
}
