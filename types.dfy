/**
 * The game's data model: player statistics and state, enemies, projectiles,
 * card, ascension, hat and staff definitions, the game status and the world
 * constants. Positions, sizes, colours and other presentation fields are not
 * part of the model.
 */
module GameTypes {
  import opened Wrappers

  datatype Rarity = Common | Uncommon | Epic | Ascension | Special

  /** How a card effect combines its value with the current stat. */
  datatype Mode = Add | MultiplyBase | MultiplyTotal | Set

  /**
   * The keys a card effect may name: the numeric fields of the statistics
   * record, and 'playerSize', which the record does not declare.
   */
  datatype Stat =
    | MaxHp | CurrentHp | Damage | AttackSpeed | MovementSpeed | JumpStrength
    | Jumps | CurrentJumps | CritChance | CritDamage | Defense | Lifesteal
    | ProjectileDurability | ProjectileSize | InvulnerabilityEndTime
    | Exp | ExpToNextLevel | PlayerSizeModifier | BleedDps | BleedDuration
    | AppraisalStacks | BarrierCooldown | LastBarrierActivationTime | BarrierHitsRemaining
    | ColdSlowFactor | ColdMaxSlow | ThunderboltDamage | ThunderboltInterval
    | LastThunderboltTime | FragmentationCount | FragmentationDamageMultiplier
    | InstaKillOnMaxSlowChance | BarrierBreakProjectileCount
    | BarrierBreakProjectileDamageMultiplier
    | PlayerSize

  /**
   * The numeric statistics of a player. The game always builds the record from
   * the base statistics, so every declared field holds a number; `playerSize`
   * is `None` (undefined) until an effect writes it.
   */
  datatype Stats = Stats(
    maxHp: real,
    currentHp: real,
    damage: real,
    attackSpeed: real,
    movementSpeed: real,
    jumpStrength: real,
    jumps: real,
    currentJumps: real,
    critChance: real,
    critDamage: real,
    defense: real,
    lifesteal: real,
    projectileDurability: real,
    projectileSize: real,
    invulnerabilityEndTime: real,
    exp: real,
    expToNextLevel: real,
    playerSizeModifier: real,
    bleedDps: real,
    bleedDuration: real,
    appraisalStacks: real,
    barrierCooldown: real,
    lastBarrierActivationTime: real,
    barrierHitsRemaining: real,
    coldSlowFactor: real,
    coldMaxSlow: real,
    thunderboltDamage: real,
    thunderboltInterval: real,
    lastThunderboltTime: real,
    fragmentationCount: real,
    fragmentationDamageMultiplier: real,
    instaKillOnMaxSlowChance: real,
    barrierBreakProjectileCount: real,
    barrierBreakProjectileDamageMultiplier: real,
    playerSize: Option<real>)

  /** `stats[k]`: the value of key `k`, `None` where the record has no such value. */
  function Get(s: Stats, k: Stat): Option<real>
  {
    match k
    case MaxHp => Some(s.maxHp)
    case CurrentHp => Some(s.currentHp)
    case Damage => Some(s.damage)
    case AttackSpeed => Some(s.attackSpeed)
    case MovementSpeed => Some(s.movementSpeed)
    case JumpStrength => Some(s.jumpStrength)
    case Jumps => Some(s.jumps)
    case CurrentJumps => Some(s.currentJumps)
    case CritChance => Some(s.critChance)
    case CritDamage => Some(s.critDamage)
    case Defense => Some(s.defense)
    case Lifesteal => Some(s.lifesteal)
    case ProjectileDurability => Some(s.projectileDurability)
    case ProjectileSize => Some(s.projectileSize)
    case InvulnerabilityEndTime => Some(s.invulnerabilityEndTime)
    case Exp => Some(s.exp)
    case ExpToNextLevel => Some(s.expToNextLevel)
    case PlayerSizeModifier => Some(s.playerSizeModifier)
    case BleedDps => Some(s.bleedDps)
    case BleedDuration => Some(s.bleedDuration)
    case AppraisalStacks => Some(s.appraisalStacks)
    case BarrierCooldown => Some(s.barrierCooldown)
    case LastBarrierActivationTime => Some(s.lastBarrierActivationTime)
    case BarrierHitsRemaining => Some(s.barrierHitsRemaining)
    case ColdSlowFactor => Some(s.coldSlowFactor)
    case ColdMaxSlow => Some(s.coldMaxSlow)
    case ThunderboltDamage => Some(s.thunderboltDamage)
    case ThunderboltInterval => Some(s.thunderboltInterval)
    case LastThunderboltTime => Some(s.lastThunderboltTime)
    case FragmentationCount => Some(s.fragmentationCount)
    case FragmentationDamageMultiplier => Some(s.fragmentationDamageMultiplier)
    case InstaKillOnMaxSlowChance => Some(s.instaKillOnMaxSlowChance)
    case BarrierBreakProjectileCount => Some(s.barrierBreakProjectileCount)
    case BarrierBreakProjectileDamageMultiplier => Some(s.barrierBreakProjectileDamageMultiplier)
    case PlayerSize => s.playerSize
  }

  /** `stats[k] = v`. */
  function Put(s: Stats, k: Stat, v: real): (r: Stats)
    ensures Get(r, k) == Some(v)
  {
    match k
    case MaxHp => s.(maxHp := v)
    case CurrentHp => s.(currentHp := v)
    case Damage => s.(damage := v)
    case AttackSpeed => s.(attackSpeed := v)
    case MovementSpeed => s.(movementSpeed := v)
    case JumpStrength => s.(jumpStrength := v)
    case Jumps => s.(jumps := v)
    case CurrentJumps => s.(currentJumps := v)
    case CritChance => s.(critChance := v)
    case CritDamage => s.(critDamage := v)
    case Defense => s.(defense := v)
    case Lifesteal => s.(lifesteal := v)
    case ProjectileDurability => s.(projectileDurability := v)
    case ProjectileSize => s.(projectileSize := v)
    case InvulnerabilityEndTime => s.(invulnerabilityEndTime := v)
    case Exp => s.(exp := v)
    case ExpToNextLevel => s.(expToNextLevel := v)
    case PlayerSizeModifier => s.(playerSizeModifier := v)
    case BleedDps => s.(bleedDps := v)
    case BleedDuration => s.(bleedDuration := v)
    case AppraisalStacks => s.(appraisalStacks := v)
    case BarrierCooldown => s.(barrierCooldown := v)
    case LastBarrierActivationTime => s.(lastBarrierActivationTime := v)
    case BarrierHitsRemaining => s.(barrierHitsRemaining := v)
    case ColdSlowFactor => s.(coldSlowFactor := v)
    case ColdMaxSlow => s.(coldMaxSlow := v)
    case ThunderboltDamage => s.(thunderboltDamage := v)
    case ThunderboltInterval => s.(thunderboltInterval := v)
    case LastThunderboltTime => s.(lastThunderboltTime := v)
    case FragmentationCount => s.(fragmentationCount := v)
    case FragmentationDamageMultiplier => s.(fragmentationDamageMultiplier := v)
    case InstaKillOnMaxSlowChance => s.(instaKillOnMaxSlowChance := v)
    case BarrierBreakProjectileCount => s.(barrierBreakProjectileCount := v)
    case BarrierBreakProjectileDamageMultiplier => s.(barrierBreakProjectileDamageMultiplier := v)
    case PlayerSize => s.(playerSize := Some(v))
  }

  /** Writing one key leaves every other key as it was. */
  lemma PutOther(s: Stats, k: Stat, v: real, j: Stat)
    requires j != k
    ensures Get(Put(s, k, v), j) == Get(s, j)
  {
    // One case split per group of four keys keeps each proof small.
    match k
    case MaxHp => PutOther1(s, k, v, j);
    case CurrentHp => PutOther1(s, k, v, j);
    case Damage => PutOther1(s, k, v, j);
    case AttackSpeed => PutOther1(s, k, v, j);
    case MovementSpeed => PutOther2(s, k, v, j);
    case JumpStrength => PutOther2(s, k, v, j);
    case Jumps => PutOther2(s, k, v, j);
    case CurrentJumps => PutOther2(s, k, v, j);
    case CritChance => PutOther3(s, k, v, j);
    case CritDamage => PutOther3(s, k, v, j);
    case Defense => PutOther3(s, k, v, j);
    case Lifesteal => PutOther3(s, k, v, j);
    case ProjectileDurability => PutOther4(s, k, v, j);
    case ProjectileSize => PutOther4(s, k, v, j);
    case InvulnerabilityEndTime => PutOther4(s, k, v, j);
    case Exp => PutOther4(s, k, v, j);
    case ExpToNextLevel => PutOther5(s, k, v, j);
    case PlayerSizeModifier => PutOther5(s, k, v, j);
    case BleedDps => PutOther5(s, k, v, j);
    case BleedDuration => PutOther5(s, k, v, j);
    case AppraisalStacks => PutOther6(s, k, v, j);
    case BarrierCooldown => PutOther6(s, k, v, j);
    case LastBarrierActivationTime => PutOther6(s, k, v, j);
    case BarrierHitsRemaining => PutOther6(s, k, v, j);
    case ColdSlowFactor => PutOther7(s, k, v, j);
    case ColdMaxSlow => PutOther7(s, k, v, j);
    case ThunderboltDamage => PutOther7(s, k, v, j);
    case ThunderboltInterval => PutOther7(s, k, v, j);
    case LastThunderboltTime => PutOther8(s, k, v, j);
    case FragmentationCount => PutOther8(s, k, v, j);
    case FragmentationDamageMultiplier => PutOther8(s, k, v, j);
    case InstaKillOnMaxSlowChance => PutOther8(s, k, v, j);
    case BarrierBreakProjectileCount => PutOther9(s, k, v, j);
    case BarrierBreakProjectileDamageMultiplier => PutOther9(s, k, v, j);
    case PlayerSize => PutOther9(s, k, v, j);
  }

  lemma PutOther1(s: Stats, k: Stat, v: real, j: Stat)
    requires j != k
    requires k.MaxHp? || k.CurrentHp? || k.Damage? || k.AttackSpeed?
    ensures Get(Put(s, k, v), j) == Get(s, j)
  {
  }

  lemma PutOther2(s: Stats, k: Stat, v: real, j: Stat)
    requires j != k
    requires k.MovementSpeed? || k.JumpStrength? || k.Jumps? || k.CurrentJumps?
    ensures Get(Put(s, k, v), j) == Get(s, j)
  {
  }

  lemma PutOther3(s: Stats, k: Stat, v: real, j: Stat)
    requires j != k
    requires k.CritChance? || k.CritDamage? || k.Defense? || k.Lifesteal?
    ensures Get(Put(s, k, v), j) == Get(s, j)
  {
  }

  lemma PutOther4(s: Stats, k: Stat, v: real, j: Stat)
    requires j != k
    requires k.ProjectileDurability? || k.ProjectileSize? || k.InvulnerabilityEndTime? || k.Exp?
    ensures Get(Put(s, k, v), j) == Get(s, j)
  {
  }

  lemma PutOther5(s: Stats, k: Stat, v: real, j: Stat)
    requires j != k
    requires k.ExpToNextLevel? || k.PlayerSizeModifier? || k.BleedDps? || k.BleedDuration?
    ensures Get(Put(s, k, v), j) == Get(s, j)
  {
  }

  lemma PutOther6(s: Stats, k: Stat, v: real, j: Stat)
    requires j != k
    requires k.AppraisalStacks? || k.BarrierCooldown? || k.LastBarrierActivationTime? || k.BarrierHitsRemaining?
    ensures Get(Put(s, k, v), j) == Get(s, j)
  {
  }

  lemma PutOther7(s: Stats, k: Stat, v: real, j: Stat)
    requires j != k
    requires k.ColdSlowFactor? || k.ColdMaxSlow? || k.ThunderboltDamage? || k.ThunderboltInterval?
    ensures Get(Put(s, k, v), j) == Get(s, j)
  {
  }

  lemma PutOther8(s: Stats, k: Stat, v: real, j: Stat)
    requires j != k
    requires k.LastThunderboltTime? || k.FragmentationCount? || k.FragmentationDamageMultiplier? || k.InstaKillOnMaxSlowChance?
    ensures Get(Put(s, k, v), j) == Get(s, j)
  {
  }

  lemma PutOther9(s: Stats, k: Stat, v: real, j: Stat)
    requires j != k
    requires k.BarrierBreakProjectileCount? || k.BarrierBreakProjectileDamageMultiplier? || k.PlayerSize?
    ensures Get(Put(s, k, v), j) == Get(s, j)
  {
  }

  /** A card effect: the stat it names, its value and how the value combines. */
  datatype Effect = Effect(stat: Stat, value: real, mode: Mode)

  /** The cards' `onPickup` procedures, by card. */
  datatype Pickup = NoPickup | Renew | Rage | Wound | Fragmentation | Thunderbolt | Barrier | Cold | Cloak

  datatype CardKind = Standard | StaffUnlock

  /**
   * A card. `maxStacks` 0 stands for an absent cap and `staffToUnlockId` "" for an
   * absent staff id: the game treats both as falsy.
   */
  datatype Card = Card(
    id: string,
    rarity: Rarity,
    effects: seq<Effect>,
    maxStacks: nat,
    pickup: Pickup,
    kind: CardKind,
    staffToUnlockId: string)

  datatype AscensionDefinition = AscensionDefinition(card: Card, baseCardId: string, stacksNeeded: nat)

  /** An ascension always has rarity ASCENSION. */
  type AscensionCard = a: AscensionDefinition | a.card.rarity == Ascension
    witness AscensionDefinition(Card("", Ascension, [], 0, NoPickup, Standard, ""), "", 0)

  datatype Hat = Hat(id: string, effects: seq<Effect>)

  /** A staff. A modifier of 0 and an `unlockLevel` of 0 stand for absent (falsy) fields. */
  datatype Staff = Staff(
    id: string,
    baseDamageModifier: real,
    baseAttackSpeedModifier: real,
    shotCount: nat,
    unlockLevel: nat,
    effects: seq<Effect>)

  datatype Status = StartScreen | Playing | CardSelection | GameOver | Paused

  type Level = n: int | n >= 1 witness 1

  /**
   * The player. `chosenCards` maps a card id to its stack count;
   * `activeAscensions` and `unlockedStaffIds` are sets of ids.
   */
  datatype Player = Player(
    stats: Stats,
    level: Level,
    isInvulnerable: bool,
    appliesBleed: bool,
    hasBarrier: bool,
    appliesCold: bool,
    triggersThunderbolts: bool,
    hasFragmentation: bool,
    hasRageActive: bool,
    activeHat: Option<Hat>,
    activeStaff: Staff,
    chosenCards: map<string, nat>,
    activeAscensions: set<string>,
    unlockedStaffIds: set<string>)

  datatype Bleed = Bleed(dps: real, durationRemaining: real, lastTickTime: real)

  datatype Enemy = Enemy(
    id: nat,
    kind: string,
    hp: real,
    maxHp: real,
    speed: real,
    damage: real,
    slowFactor: real,
    lastSlowedTime: real,
    bleeding: Option<Bleed>,
    lastAttackTime: real)

  datatype Projectile = Projectile(id: nat, damage: real, durability: real, isPlayerProjectile: bool)

  /** How often the player has picked the card `id` (`chosenCards[id] || 0`). */
  function Stacks(p: Player, id: string): nat
  {
    if id in p.chosenCards then p.chosenCards[id] else 0
  }

  // World constants.
  const GameWidth: real := 800.0
  const GameHeight: real := 600.0
  const PlayerInitialX: real := GameWidth / 2.0
  const PlayerInitialY: real := GameHeight - 80.0
  const GroundLevel: real := GameHeight - 60.0
}
