/**
 * The game's fixed data: the base player statistics, the hats, staffs, cards,
 * ascensions and enemy types, and the tuning constants of the card mechanics,
 * levelling and spawning.
 */
module Catalogue {
  import opened Wrappers
  import opened GameTypes

  // Levelling.
  const BaseExpToNextLevel: real := 100.0
  const ExpPerLevelScaler: real := 1.2

  // Card mechanics.
  const BarrierCooldownBase: real := 8000.0
  const BarrierHitsBase: real := 1.0
  const ThunderboltDamageBase: real := 10.0
  const ThunderboltIntervalBase: real := 5000.0
  const ThunderboltCount: nat := 2
  const FragmentationCountBase: real := 2.0
  const FragmentationDamageMultiplierBase: real := 0.4
  const ColdSlowFactorBase: real := 0.01
  const ColdMaxSlowBase: real := 0.8
  const ColdEffectDuration: real := 3000.0
  const BleedTickInterval: real := 1000.0
  const ProtectorProjectileCountAscension: real := 8.0
  const ProtectorProjectileDamageMultiplierAscension: real := 0.3

  // Spawning and per-level scaling.
  const EnemySpawnIntervalMin: real := 2000.0
  const EnemySpawnIntervalMax: real := 4000.0
  const MaxEnemiesOnScreenBase: int := 5
  const MaxEnemiesOnScreenPerLevel: int := 1
  const EnemyHpScalingPerLevel: real := 1.15
  const EnemyDamageScalingPerLevel: real := 1.08
  const EnemyExpScalingPerLevel: real := 1.1

  const CardChoicesCount: real := 3.0

  const InitialHatId: string := "wizard_hat"
  const InitialStaffId: string := "wizard_staff"

  /** The base values of the player statistics; 'playerSize' is not among them. */
  const BaseStats: Stats := Stats(
    maxHp := 50.0, currentHp := 50.0, damage := 5.0, attackSpeed := 525.0,
    movementSpeed := 4.0, jumpStrength := 13.0, jumps := 1.0, currentJumps := 1.0,
    critChance := 0.05, critDamage := 1.5, defense := 0.0, lifesteal := 0.0,
    projectileDurability := 1.0, projectileSize := 1.0, invulnerabilityEndTime := 0.0,
    exp := 0.0, expToNextLevel := BaseExpToNextLevel,
    playerSizeModifier := 1.0, bleedDps := 0.0, bleedDuration := 0.0,
    appraisalStacks := 0.0, barrierCooldown := BarrierCooldownBase,
    lastBarrierActivationTime := 0.0, barrierHitsRemaining := 0.0,
    coldSlowFactor := ColdSlowFactorBase, coldMaxSlow := ColdMaxSlowBase,
    thunderboltDamage := ThunderboltDamageBase, thunderboltInterval := ThunderboltIntervalBase,
    lastThunderboltTime := 0.0, fragmentationCount := FragmentationCountBase,
    fragmentationDamageMultiplier := FragmentationDamageMultiplierBase,
    instaKillOnMaxSlowChance := 0.0, barrierBreakProjectileCount := 0.0,
    barrierBreakProjectileDamageMultiplier := 0.0,
    playerSize := None)

  // Hats.
  const WizardHat: Hat := Hat("wizard_hat", [])
  const PropellerBeanie: Hat := Hat("propeller_beanie", [Effect(Jumps, 1.0, Add)])
  const Helmet: Hat := Hat("helmet", [Effect(Defense, 0.10, Add), Effect(MovementSpeed, 0.9, MultiplyBase)])
  const Hats: seq<Hat> := [WizardHat, PropellerBeanie, Helmet]

  // Staffs; a modifier or unlock level of 0 is an absent field.
  const WizardStaff: Staff := Staff("wizard_staff", 0.0, 0.0, 1, 0, [])
  const EmeraldStaff: Staff := Staff("emerald_staff", 0.6, 0.7, 1, 3, [])
  const TridentStaff: Staff := Staff("trident_staff", 0.0, 1.15, 3, 5, [])
  const Boomstaff: Staff := Staff("boomstaff", 1.2, 1.2, 1, 7, [])
  const Staffs: seq<Staff> := [WizardStaff, EmeraldStaff, TridentStaff, Boomstaff]

  /** A standard card without a stack cap. */
  function Plain(id: string, rarity: Rarity, effects: seq<Effect>, pickup: Pickup): Card
  {
    Card(id, rarity, effects, 0, pickup, Standard, "")
  }

  // Common cards.
  const CatalystCommon: Card := Plain("catalyst_common", Common, [Effect(Damage, 1.0, Add)], NoPickup)
  const GrowthCommon: Card := Plain("growth_common", Common, [Effect(MaxHp, 5.0, Add)], NoPickup)
  const ResonanceCommon: Card := Plain("resonance_common", Common, [Effect(AttackSpeed, 0.92, MultiplyBase)], NoPickup)
  const SwiftCommon: Card := Plain("swift_common", Common, [Effect(MovementSpeed, 1.1, MultiplyBase)], NoPickup)
  const EyesightCommon: Card := Plain("eyesight_common", Common, [Effect(CritChance, 0.03, Add)], NoPickup)
  const RenewCommon: Card := Plain("renew_common", Common, [], Renew)
  const ResistCommon: Card := Plain("resist_common", Common, [Effect(Defense, 0.04, Add)], NoPickup)
  const StabilityCommon: Card := Plain("stability_common", Common, [Effect(ProjectileDurability, 1.0, Add)], NoPickup)

  // Uncommon cards.
  const CatalystUncommon: Card := Plain("catalyst_uncommon", Uncommon, [Effect(Damage, 3.0, Add)], NoPickup)
  const GrowthUncommon: Card := Plain("growth_uncommon", Uncommon, [Effect(MaxHp, 15.0, Add)], NoPickup)
  const GushUncommon: Card := Card("gush_uncommon", Uncommon, [Effect(Jumps, 1.0, Add)], 4, NoPickup, Standard, "")
  const LeechUncommon: Card := Plain("leech_uncommon", Uncommon, [Effect(Lifesteal, 0.01, Add)], NoPickup)
  const CloakUncommon: Card := Plain("cloak_uncommon", Uncommon, [], Cloak)
  const ChargeUncommon: Card := Plain("charge_uncommon", Uncommon, [Effect(ProjectileSize, 1.1, MultiplyBase)], NoPickup)
  const RageUncommon: Card := Plain("rage_uncommon", Uncommon, [], Rage)
  const ShrinkUncommon: Card := Plain("shrink_uncommon", Uncommon, [Effect(PlayerSizeModifier, 0.9, MultiplyBase)], NoPickup)
  const FragmentationUncommon: Card := Plain("fragmentation_uncommon", Uncommon, [], Fragmentation)
  const ThunderboltUncommon: Card := Plain("thunderbolt_uncommon", Uncommon, [], Thunderbolt)

  // Epic cards.
  const TomeEpic: Card := Plain("tome_epic", Epic, [Effect(Damage, 1.03, MultiplyTotal), Effect(MaxHp, 1.03, MultiplyTotal)], NoPickup)
  const WillOWispEpic: Card := Plain("will_o_wisp_epic", Epic, [Effect(AttackSpeed, 0.92, MultiplyBase)], NoPickup)
  const CritMasteryEpic: Card := Plain("crit_mastery_epic", Epic, [Effect(CritDamage, 0.5, Add)], NoPickup)
  const WoundEpic: Card := Plain("wound_epic", Epic, [], Wound)
  const AppraisalEpic: Card := Card("appraisal_epic", Epic, [Effect(AppraisalStacks, 1.0, Add)], 2, NoPickup, Standard, "")
  const BarrierEpic: Card := Plain("barrier_epic_stage2", Epic, [], Barrier)
  const ColdEpic: Card := Plain("cold_epic", Epic, [], Cold)

  const StageOneCommonCards: seq<Card> := [RenewCommon, ResistCommon, StabilityCommon]
  const StageOneUncommonCards: seq<Card> := [RageUncommon, ShrinkUncommon]
  const StageOneEpicCards: seq<Card> := [WoundEpic]
  const StageTwoUncommonCards: seq<Card> := [FragmentationUncommon, ThunderboltUncommon]
  const StageTwoEpicCards: seq<Card> := [AppraisalEpic, BarrierEpic, ColdEpic]

  const CommonCards: seq<Card> :=
    [CatalystCommon, GrowthCommon, ResonanceCommon, SwiftCommon, EyesightCommon] + StageOneCommonCards
  const UncommonCards: seq<Card> :=
    [CatalystUncommon, GrowthUncommon, GushUncommon, LeechUncommon, CloakUncommon, ChargeUncommon]
    + StageOneUncommonCards + StageTwoUncommonCards
  const EpicCards: seq<Card> :=
    [TomeEpic, WillOWispEpic, CritMasteryEpic] + StageOneEpicCards + StageTwoEpicCards

  /** The cards that level-ups offer: the common, then the uncommon, then the epic cards. */
  const AllCardsPool: seq<Card> := CommonCards + UncommonCards + EpicCards

  /** An ascension: a card of rarity ASCENSION tied to a base card and a stack count. */
  function Ascend(id: string, baseCardId: string, stacksNeeded: nat, effects: seq<Effect>): AscensionCard
  {
    AscensionDefinition(Plain(id, Ascension, effects, NoPickup), baseCardId, stacksNeeded)
  }

  const FlyingSorcerer: AscensionCard := Ascend("flying_sorcerer", GushUncommon.id, 4, [Effect(Jumps, 999.0, Set)])
  const BloodyMage: AscensionCard := Ascend("bloody_mage_ascension", WoundEpic.id, 2, [Effect(BleedDps, 1.0, Add)])
  const Freezer: AscensionCard := Ascend("freezer_ascension", ColdEpic.id, 2,
    [Effect(ColdMaxSlow, 1.0, Set), Effect(InstaKillOnMaxSlowChance, 0.01, Set)])
  const GodOfThunder: AscensionCard := Ascend("god_of_thunder_ascension", ThunderboltUncommon.id, 3,
    [Effect(ThunderboltDamage, 3.0, MultiplyTotal)])
  const Protector: AscensionCard := Ascend("protector_ascension", BarrierEpic.id, 2,
    [Effect(BarrierBreakProjectileCount, ProtectorProjectileCountAscension, Set),
     Effect(BarrierBreakProjectileDamageMultiplier, ProtectorProjectileDamageMultiplierAscension, Set)])
  const RamDestroyer: AscensionCard := Ascend("ram_destroyer_ascension", FragmentationUncommon.id, 2,
    [Effect(FragmentationCount, 4.0, Add), Effect(FragmentationDamageMultiplier, 0.25, Add)])

  /** The ascensions, in the order the selection reducer tests them. */
  const AllAscensions: seq<AscensionCard> := [FlyingSorcerer, BloodyMage, Freezer, GodOfThunder, Protector, RamDestroyer]

  /** An enemy type; an `attackCooldown` of 0 is an absent field. */
  datatype EnemyType = EnemyType(
    id: string,
    baseHp: real,
    baseSpeed: real,
    baseDamage: real,
    points: real,
    expValue: real,
    attackCooldown: real)

  const GruntStandard: EnemyType := EnemyType("grunt_standard", 20.0, 1.0, 5.0, 5.0, 10.0, 0.0)
  const GruntFast: EnemyType := EnemyType("grunt_fast", 15.0, 2.0, 4.0, 8.0, 15.0, 0.0)
  const GruntTough: EnemyType := EnemyType("grunt_tough", 50.0, 0.8, 8.0, 12.0, 25.0, 0.0)
  const ShooterBasic: EnemyType := EnemyType("shooter_basic", 25.0, 0.7, 6.0, 10.0, 20.0, 2200.0)

  /** The enemy types in declaration order, the order spawning draws from. */
  const EnemyTypes: seq<EnemyType> := [GruntStandard, GruntFast, GruntTough, ShooterBasic]

  /** The enemy type with id `kind`, if any. */
  function FindEnemyType(kind: string): (r: Option<EnemyType>)
    ensures r.Some? ==> r.value in EnemyTypes && r.value.id == kind
    ensures r.None? ==> forall t :: t in EnemyTypes ==> t.id != kind
  {
    if kind == GruntStandard.id then Some(GruntStandard)
    else if kind == GruntFast.id then Some(GruntFast)
    else if kind == GruntTough.id then Some(GruntTough)
    else if kind == ShooterBasic.id then Some(ShooterBasic)
    else None
  }

  /**
   * An effect that cannot make a positive maximum health zero or negative: it
   * does not name maxHp, or it adds a non-negative amount or multiplies by a
   * positive factor.
   */
  predicate KeepsMaxHpPositive(e: Effect)
  {
    e.stat != MaxHp
    || (e.mode == Add && e.value >= 0.0)
    || ((e.mode == MultiplyBase || e.mode == MultiplyTotal) && e.value > 0.0)
    || (e.mode == Set && e.value > 0.0)
  }

  /** Every effect of `c` keeps a positive maxHp positive. */
  predicate CardKeepsMaxHpPositive(c: Card)
  {
    forall e :: e in c.effects ==> KeepsMaxHpPositive(e)
  }

  /** A card that a level-up may offer from the pool: a standard, non-ascension card that keeps a positive maxHp positive. */
  predicate PoolCard(c: Card)
  {
    c.rarity != Ascension && c.kind == Standard && CardKeepsMaxHpPositive(c)
  }

  lemma CommonCardsArePoolCards()
    ensures forall c :: c in CommonCards ==> PoolCard(c) && c.rarity == Common
  {
    AllOf([CatalystCommon, GrowthCommon, ResonanceCommon], Common);
    AllOf([SwiftCommon, EyesightCommon], Common);
    AllOf(StageOneCommonCards, Common);
    assert CommonCards == [CatalystCommon, GrowthCommon, ResonanceCommon] + [SwiftCommon, EyesightCommon]
      + StageOneCommonCards;
  }

  lemma UncommonCardsArePoolCards()
    ensures forall c :: c in UncommonCards ==> PoolCard(c) && c.rarity == Uncommon
  {
    AllOf([CatalystUncommon, GrowthUncommon, GushUncommon], Uncommon);
    AllOf([LeechUncommon, CloakUncommon, ChargeUncommon], Uncommon);
    AllOf(StageOneUncommonCards, Uncommon);
    AllOf(StageTwoUncommonCards, Uncommon);
    assert UncommonCards == [CatalystUncommon, GrowthUncommon, GushUncommon]
      + [LeechUncommon, CloakUncommon, ChargeUncommon] + StageOneUncommonCards + StageTwoUncommonCards;
  }

  /** Checks a short run of table cards one by one. */
  lemma AllOf(cs: seq<Card>, rarity: Rarity)
    requires |cs| <= 3
    requires forall i :: 0 <= i < |cs| ==> PoolCard(cs[i]) && cs[i].rarity == rarity
    ensures forall c :: c in cs ==> PoolCard(c) && c.rarity == rarity
  {
  }

  lemma EpicCardsArePoolCards()
    ensures forall c :: c in EpicCards ==> PoolCard(c) && c.rarity == Epic
  {
  }

  /**
   * The pool holds no ascension and no staff unlock, and every card in it keeps
   * a positive maxHp positive.
   */
  lemma {:induction false} PoolCardsShape()
    ensures forall c :: c in AllCardsPool ==> PoolCard(c)
  {
    CommonCardsArePoolCards();
    UncommonCardsArePoolCards();
    EpicCardsArePoolCards();
  }

  /** Only Appraisal (2) and Gush (4) carry a stack cap. */
  lemma PoolStackCaps()
    ensures AppraisalEpic.maxStacks == 2 && GushUncommon.maxStacks == 4
    ensures forall c :: c in CommonCards ==> c.maxStacks == 0
    ensures forall c :: c in AllCardsPool && c.maxStacks != 0 ==> c == AppraisalEpic || c == GushUncommon
  {
    forall c | c in AllCardsPool && c.maxStacks != 0
      ensures c == AppraisalEpic || c == GushUncommon
    {
      if c in CommonCards {
      } else if c in UncommonCards {
      } else {
        assert c in EpicCards;
      }
    }
  }

  /** The pool card with the id `id`. */
  ghost predicate InPool(id: string)
  {
    exists c :: c in AllCardsPool && c.id == id
  }

  lemma UncommonBasesInPool()
    ensures InPool(GushUncommon.id) && InPool(ThunderboltUncommon.id) && InPool(FragmentationUncommon.id)
  {
    assert UncommonCards[2] == GushUncommon && UncommonCards[8] == FragmentationUncommon;
    assert UncommonCards[9] == ThunderboltUncommon;
    assert forall c :: c in UncommonCards ==> c in AllCardsPool;
  }

  lemma EpicBasesInPool()
    ensures InPool(WoundEpic.id) && InPool(BarrierEpic.id) && InPool(ColdEpic.id)
  {
    assert EpicCards[3] == WoundEpic && EpicCards[5] == BarrierEpic && EpicCards[6] == ColdEpic;
    assert forall c :: c in EpicCards ==> c in AllCardsPool;
  }

  lemma AscensionBases()
    ensures forall a :: a in AllAscensions ==>
      a.baseCardId in {GushUncommon.id, WoundEpic.id, ColdEpic.id, ThunderboltUncommon.id, BarrierEpic.id,
                       FragmentationUncommon.id}
  {
  }

  /** Every ascension names a base card of the pool. */
  lemma {:induction false} AscensionsBuildOnPool()
    ensures forall a :: a in AllAscensions ==> InPool(a.baseCardId)
  {
    AscensionBases();
    UncommonBasesInPool();
    EpicBasesInPool();
  }

  /** Every ascension keeps a positive maxHp positive. */
  lemma AscensionsKeepMaxHpPositive()
    ensures forall a :: a in AllAscensions ==> CardKeepsMaxHpPositive(a.card)
  {
  }

  /** Every hat and staff effect keeps a positive maxHp positive. */
  lemma OutfitKeepsMaxHpPositive()
    ensures forall h, e :: h in Hats && e in h.effects ==> KeepsMaxHpPositive(e)
    ensures forall s, e :: s in Staffs && e in s.effects ==> KeepsMaxHpPositive(e)
  {
  }

  /** The base statistics start at full health, above the attack-speed floor of 50. */
  lemma BaseStatsShape()
    ensures BaseStats.maxHp == BaseStats.currentHp == 50.0
    ensures BaseStats.attackSpeed == 525.0 >= 50.0
    ensures BaseStats.playerSize.None?
  {
  }
}
