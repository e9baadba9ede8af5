/**
 * The card engine: how one card effect combines with a stat, how a card's
 * effects, its pick-up procedure and the final clamps turn a player into the
 * next one, and how a new player is built from a hat and the starting staff.
 */
module CardEngine {
  import opened Wrappers
  import opened Numeric
  import opened GameTypes
  import opened Catalogue
  import opened Pickups

  /** The value an effect's mode leaves unchanged: 1 for the multiply modes, 0 otherwise. */
  function Identity(mode: Mode): real
  {
    if mode == MultiplyBase || mode == MultiplyTotal then 1.0 else 0.0
  }

  /**
   * The number an effect starts from (intended reading of the fallback): the
   * current value, else the base value, else the mode's identity.
   */
  function Resolve(current: Option<real>, base: Option<real>, mode: Mode): (r: real)
    // Wherever the code as written yields a number, this is that number.
    ensures ResolveAsWritten(current, base, mode).Some? ==> r == ResolveAsWritten(current, base, mode).value
    // Where it yields NaN, the number is the one that leaves the effect's value unchanged.
    ensures ResolveAsWritten(current, base, mode).None? ==> r == Identity(mode)
  {
    if current.Some? then current.value
    else if base.Some? then base.value
    else Identity(mode)
  }

  /**
   * The fallback as written: a missing base value converts to NaN, whose type is
   * still 'number', so the branch meant for it never runs and NaN (`None`) goes on.
   */
  function ResolveAsWritten(current: Option<real>, base: Option<real>, mode: Mode): (r: Option<real>)
    ensures current.Some? ==> r == current
    ensures current.None? ==> r == base
  {
    if current.Some? then current else base
  }

  /** What an effect of value `v` and mode `mode` makes of the number `current`. */
  function Combine(current: real, v: real, mode: Mode): real
  {
    match mode
    case Add => current + v
    case MultiplyBase => current * v
    case MultiplyTotal => current * v
    case Set => v
  }

  /** The two multiply modes compute the same thing. */
  lemma MultiplyModesAgree(current: real, v: real)
    ensures Combine(current, v, MultiplyBase) == Combine(current, v, MultiplyTotal) == current * v
  {
  }

  /** With the intended fallback, an effect on a key that has no value anywhere yields the effect's value. */
  lemma AbsentKeyTakesEffectValue(v: real, mode: Mode)
    ensures Combine(Resolve(None, None, mode), v, mode) == v
  {
  }

  /** As written, the same effect leaves NaN behind in every mode but 'set'. */
  lemma AsWrittenAbsentKeyGivesNaN(mode: Mode)
    requires mode != Set
    ensures ResolveAsWritten(None, None, mode).None?
    ensures Resolve(None, None, mode) == Identity(mode)
  {
  }

  /** One effect applied to the statistics record, before any clamp. */
  function ApplyEffect(s: Stats, e: Effect): (r: Stats)
    // 'playerSizeModifier' never drops below 0.1.
    ensures e.stat == PlayerSizeModifier ==>
      r == s.(playerSizeModifier := Max(0.1, Combine(s.playerSizeModifier, e.value, e.mode)))
    ensures r.playerSizeModifier >= 0.1 || r.playerSizeModifier == s.playerSizeModifier
    // Any other key takes the combined value, starting from the current, base or identity value.
    ensures e.stat != PlayerSizeModifier ==>
      Get(r, e.stat) == Some(Combine(Resolve(Get(s, e.stat), Get(BaseStats, e.stat), e.mode), e.value, e.mode))
  {
    if e.stat == PlayerSizeModifier then
      s.(playerSizeModifier := Max(0.1, Combine(s.playerSizeModifier, e.value, e.mode)))
    else
      var current := Resolve(Get(s, e.stat), Get(BaseStats, e.stat), e.mode);
      var r := Put(s, e.stat, Combine(current, e.value, e.mode));
      PutOther(s, e.stat, Combine(current, e.value, e.mode), PlayerSizeModifier);
      r
  }

  /** An effect changes no key but the one it names. */
  lemma ApplyEffectFrame(s: Stats, e: Effect, j: Stat)
    requires j != e.stat
    ensures Get(ApplyEffect(s, e), j) == Get(s, j)
  {
    if e.stat != PlayerSizeModifier {
      var current := Resolve(Get(s, e.stat), Get(BaseStats, e.stat), e.mode);
      PutOther(s, e.stat, Combine(current, e.value, e.mode), j);
    }
  }

  /**
   * On a key of the record other than 'playerSizeModifier', 'add' adds the value,
   * both multiply modes multiply by it and 'set' replaces the stat with it.
   */
  lemma EffectArithmetic(s: Stats, e: Effect)
    requires e.stat != PlayerSizeModifier && e.stat != PlayerSize
    ensures Get(s, e.stat).Some? && Get(ApplyEffect(s, e), e.stat).Some?
    ensures var before, after := Get(s, e.stat).value, Get(ApplyEffect(s, e), e.stat).value;
      && (e.mode == Add ==> after == before + e.value)
      && (e.mode == MultiplyBase || e.mode == MultiplyTotal ==> after == before * e.value)
      && (e.mode == Set ==> after == e.value)
  {
    assert Get(s, e.stat).Some? by { StatIsNumber(s, e.stat); }
  }

  /** Every key but 'playerSize' always holds a number. */
  lemma StatIsNumber(s: Stats, k: Stat)
    requires k != PlayerSize
    ensures Get(s, k).Some?
  {
  }

  /**
   * An effect on another key leaves maxHp alone, and an effect that keeps a
   * positive maxHp positive does so.
   */
  lemma ApplyEffectMaxHp(s: Stats, e: Effect)
    ensures e.stat != MaxHp ==> ApplyEffect(s, e).maxHp == s.maxHp
    ensures s.maxHp > 0.0 && KeepsMaxHpPositive(e) ==> ApplyEffect(s, e).maxHp > 0.0
  {
    if e.stat == MaxHp {
      assert Get(ApplyEffect(s, e), MaxHp) == Some(Combine(s.maxHp, e.value, e.mode));
    } else {
      ApplyEffectFrame(s, e, MaxHp);
    }
  }

  /** The card's effects in order, as its `forEach` applies them (no clamp in between). */
  function ApplyEffects(s: Stats, effects: seq<Effect>): (r: Stats)
    ensures s.playerSizeModifier >= 0.1 ==> r.playerSizeModifier >= 0.1
    ensures (forall e :: e in effects ==> e.stat != MaxHp) ==> r.maxHp == s.maxHp
    ensures (forall e :: e in effects ==> KeepsMaxHpPositive(e)) && s.maxHp > 0.0 ==> r.maxHp > 0.0
    decreases |effects|
  {
    if effects == [] then s
    else
      var next := ApplyEffect(s, effects[0]);
      ApplyEffectMaxHp(s, effects[0]);
      ApplyEffects(next, effects[1..])
  }

  /**
   * The clamps every card ends with: health is cut to the maximum and then
   * raised to 0, and the attack delay is raised to 50 ms.
   */
  function Clamp(s: Stats): (r: Stats)
    ensures r == s.(currentHp := r.currentHp, attackSpeed := r.attackSpeed)
    ensures r.currentHp >= 0.0 && r.attackSpeed >= 50.0
    ensures s.maxHp >= 0.0 ==> r.currentHp <= r.maxHp
    ensures r.currentHp <= s.currentHp || r.currentHp == 0.0
    ensures 0.0 <= s.currentHp <= s.maxHp ==> r.currentHp == s.currentHp
    ensures s.attackSpeed >= 50.0 ==> r.attackSpeed == s.attackSpeed
  {
    var hp := Min(s.currentHp, s.maxHp);
    s.(currentHp := if hp < 0.0 then 0.0 else hp, attackSpeed := Max(50.0, s.attackSpeed))
  }

  /** Clamping twice is clamping once. */
  lemma ClampIdempotent(s: Stats)
    ensures Clamp(Clamp(s)) == Clamp(s)
  {
  }

  /** A card built around a single effect (a hat's, a staff's): the effect, no pick-up, then the clamps. */
  function ApplySingleEffect(p: Player, e: Effect): (r: Player)
    ensures r == p.(stats := r.stats)
    ensures r.stats.currentHp >= 0.0 && r.stats.attackSpeed >= 50.0
    ensures r.stats.maxHp >= 0.0 ==> r.stats.currentHp <= r.stats.maxHp
  {
    p.(stats := Clamp(ApplyEffect(p.stats, e)))
  }

  /** Each effect as its own single-effect card, in order. */
  function ApplyEachEffect(p: Player, effects: seq<Effect>): (r: Player)
    ensures r == p.(stats := r.stats)
    ensures p.stats.attackSpeed >= 50.0 ==> r.stats.attackSpeed >= 50.0
    ensures p.stats.currentHp >= 0.0 ==> r.stats.currentHp >= 0.0
    ensures effects != [] ==> r.stats.currentHp >= 0.0 && r.stats.attackSpeed >= 50.0
    ensures (forall e :: e in effects ==> KeepsMaxHpPositive(e)) && p.stats.maxHp > 0.0 ==> r.stats.maxHp > 0.0
    decreases |effects|
  {
    if effects == [] then p
    else
      var next := ApplySingleEffect(p, effects[0]);
      ApplyEffectMaxHp(p.stats, effects[0]);
      ApplyEachEffect(next, effects[1..])
  }

  /** `STAFFS.find(s => s.id === id)`. */
  function FindStaff(id: string): (r: Option<Staff>)
    ensures r.Some? ==> r.value in Staffs && r.value.id == id
    ensures r.None? ==> forall st :: st in Staffs ==> st.id != id
  {
    FindStaffIn(Staffs, id)
  }

  function FindStaffIn(staffs: seq<Staff>, id: string): (r: Option<Staff>)
    ensures r.Some? ==> r.value in staffs && r.value.id == id
    ensures r.None? ==> forall st :: st in staffs ==> st.id != id
  {
    if staffs == [] then None
    else if staffs[0].id == id then Some(staffs[0])
    else FindStaffIn(staffs[1..], id)
  }

  /** Whether `c` takes the staff path: a staff-unlock card that names a staff id. */
  predicate UnlocksStaff(c: Card)
  {
    c.kind == StaffUnlock && c.staffToUnlockId != ""
  }

  /** The player after the card's effects, before its pick-up procedure and the clamps. */
  function ApplyCardBody(p: Player, c: Card): (r: Player)
    ensures r.chosenCards == p.chosenCards && r.activeAscensions == p.activeAscensions
    ensures r.level == p.level
  {
    if UnlocksStaff(c) then
      match FindStaff(c.staffToUnlockId)
      case Some(st) =>
        ApplyEachEffect(p.(activeStaff := st, unlockedStaffIds := p.unlockedStaffIds + {st.id}), st.effects)
      case None => p
    else
      p.(stats := ApplyEffects(p.stats, c.effects))
  }

  /**
   * `applyCardEffects`: the card's effects (or, for a staff unlock, the staff),
   * then its pick-up procedure at time `now`, then the clamps.
   */
  function ApplyCardEffects(p: Player, c: Card, now: real): (r: Player)
    ensures r.stats.currentHp >= 0.0 && r.stats.attackSpeed >= 50.0
    ensures r.stats.maxHp >= 0.0 ==> r.stats.currentHp <= r.stats.maxHp
    // The card engine never counts stacks, triggers ascensions or changes the level.
    ensures r.chosenCards == p.chosenCards && r.activeAscensions == p.activeAscensions
    ensures r.level == p.level && r.activeHat == p.activeHat
    // Only a staff unlock that names a known staff changes the staff.
    ensures UnlocksStaff(c) && FindStaff(c.staffToUnlockId).Some? ==>
      r.activeStaff == FindStaff(c.staffToUnlockId).value
      && r.unlockedStaffIds == p.unlockedStaffIds + {c.staffToUnlockId}
    ensures !(UnlocksStaff(c) && FindStaff(c.staffToUnlockId).Some?) ==>
      r.activeStaff == p.activeStaff && r.unlockedStaffIds == p.unlockedStaffIds
  {
    var body := ApplyCardBody(p, c);
    var picked := RunPickup(c.pickup, body, now);
    picked.(stats := Clamp(picked.stats))
  }

  /** A staff unlock ignores the card's own effect list. */
  lemma StaffUnlockIgnoresCardEffects(p: Player, c: Card, effects: seq<Effect>, now: real)
    requires UnlocksStaff(c)
    ensures ApplyCardEffects(p, c, now) == ApplyCardEffects(p, c.(effects := effects), now)
  {
  }

  /** A staff unlock naming no known staff only runs the pick-up and the clamps. */
  lemma UnknownStaffOnlyClamps(p: Player, c: Card, now: real)
    requires UnlocksStaff(c) && c.pickup == NoPickup
    requires forall st :: st in Staffs ==> st.id != c.staffToUnlockId
    ensures ApplyCardEffects(p, c, now) == p.(stats := Clamp(p.stats))
  {
    assert FindStaff(c.staffToUnlockId).None?;
  }

  /** A card whose effects (and staff's effects) keep a positive maxHp positive does so. */
  lemma {:induction false} ApplyCardKeepsMaxHpPositive(p: Player, c: Card, now: real)
    requires p.stats.maxHp > 0.0
    requires CardKeepsMaxHpPositive(c)
    ensures ApplyCardEffects(p, c, now).stats.maxHp > 0.0
  {
    var body := ApplyCardBody(p, c);
    if UnlocksStaff(c) {
      match FindStaff(c.staffToUnlockId)
      case Some(st) =>
        OutfitKeepsMaxHpPositive();
        assert body.stats.maxHp > 0.0;
      case None =>
    }
    assert body.stats.maxHp > 0.0;
  }

  /** The player a new run starts with before the hat and staff effects. */
  function FreshPlayer(hat: Hat): Player
  {
    Player(
      stats := BaseStats, level := 1,
      isInvulnerable := false, appliesBleed := false, hasBarrier := false, appliesCold := false,
      triggersThunderbolts := false, hasFragmentation := false, hasRageActive := false,
      activeHat := Some(hat), activeStaff := WizardStaff,
      chosenCards := map[], activeAscensions := {}, unlockedStaffIds := {WizardStaff.id})
  }

  /**
   * `initializePlayer`: the base player with the hat, each hat effect and then
   * each starting-staff effect applied as its own card, then jumps and health
   * refilled and the first level threshold set.
   */
  function InitializePlayer(hat: Hat): (r: Player)
    ensures r.level == 1 && r.activeHat == Some(hat) && r.activeStaff == WizardStaff
    ensures r.chosenCards == map[] && r.activeAscensions == {} && r.unlockedStaffIds == {"wizard_staff"}
    ensures !r.isInvulnerable && !r.hasBarrier && !r.hasRageActive && !r.hasFragmentation
    ensures !r.appliesBleed && !r.appliesCold && !r.triggersThunderbolts
    ensures r.stats.currentHp == r.stats.maxHp && r.stats.currentJumps == r.stats.jumps
    ensures r.stats.expToNextLevel == BaseExpToNextLevel && r.stats.attackSpeed >= 50.0
    ensures (forall e :: e in hat.effects ==> KeepsMaxHpPositive(e)) ==> r.stats.maxHp > 0.0
  {
    var withHat := ApplyEachEffect(FreshPlayer(hat), hat.effects);
    var withStaff := ApplyEachEffect(withHat, WizardStaff.effects);
    withStaff.(stats := withStaff.stats.(
      currentJumps := withStaff.stats.jumps,
      currentHp := withStaff.stats.maxHp,
      expToNextLevel := BaseExpToNextLevel))
  }

  /** The default hat has no effects, so the first player carries the base statistics. */
  lemma WizardHatGivesBaseStats()
    ensures InitializePlayer(WizardHat).stats == BaseStats
  {
  }

  /** The helmet adds 0.10 defense and slows movement to 90% of its base, 3.6. */
  lemma HelmetStats()
    ensures InitializePlayer(Helmet).stats.defense == 0.1
    ensures InitializePlayer(Helmet).stats.movementSpeed == 3.6
    ensures InitializePlayer(Helmet).stats.maxHp == 50.0
  {
    var e0, e1 := Helmet.effects[0], Helmet.effects[1];
    var p0 := FreshPlayer(Helmet);
    var p1 := ApplySingleEffect(p0, e0);
    var p2 := ApplySingleEffect(p1, e1);
    // The defense effect.
    EffectArithmetic(p0.stats, e0);
    ApplyEffectFrame(p0.stats, e0, MovementSpeed);
    ApplyEffectFrame(p0.stats, e0, MaxHp);
    assert p1.stats.defense == 0.1 && p1.stats.movementSpeed == 4.0 && p1.stats.maxHp == 50.0;
    // The movement effect.
    EffectArithmetic(p1.stats, e1);
    ApplyEffectFrame(p1.stats, e1, Defense);
    ApplyEffectFrame(p1.stats, e1, MaxHp);
    assert p2.stats.defense == 0.1 && p2.stats.movementSpeed == 3.6 && p2.stats.maxHp == 50.0;
    assert Helmet.effects[1..][1..] == [];
    assert ApplyEachEffect(p0, Helmet.effects) == ApplyEachEffect(p1, Helmet.effects[1..]);
    assert ApplyEachEffect(p1, Helmet.effects[1..]) == ApplyEachEffect(p2, []);
  }
}
