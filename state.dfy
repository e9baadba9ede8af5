/**
 * The reducer's state and actions, and what a tick takes from the outside world:
 * the clock, the random stream and the outcome of every spatial test.
 */
module GameState {
  import opened Numeric
  import opened GameTypes

  /**
   * The reducer state. `nextId` numbers the entities the game creates (the game
   * draws a fresh uuid for each). Keys, mouse, particles and card icons are not
   * part of the model.
   */
  datatype State = State(
    status: Status,
    player: Player,
    enemies: seq<Enemy>,
    projectiles: seq<Projectile>,
    score: real,
    gameTime: real,
    lastShotTime: real,
    offeredCards: seq<Card>,
    lastEnemySpawnTime: real,
    nextId: nat)

  /**
   * The outcome of the spatial tests a tick makes, by entity id.
   * `boltHits(i, e)`: enemy `e` is within the radius of thunderbolt `i`;
   * `enemyOnField(e)`: enemy `e` is still above the bottom edge after moving;
   * `projectileOnField(q)`: projectile `q` is still within the margins after moving;
   * `overlaps(q, e)`: projectile `q` overlaps enemy `e`;
   * `hitsPlayer(q)`: enemy projectile `q` overlaps the player;
   * `touchesPlayer(e)`: enemy `e` overlaps the player.
   */
  datatype Geometry = Geometry(
    boltHits: (nat, nat) -> bool,
    enemyOnField: nat -> bool,
    projectileOnField: nat -> bool,
    overlaps: (nat, nat) -> bool,
    hitsPlayer: nat -> bool,
    touchesPlayer: nat -> bool)

  /** One tick's outside world: `Date.now()`, the stream of `Math.random()` values and the geometry. */
  datatype TickInput = TickInput(now: real, rng: nat -> Unit, geometry: Geometry)

  /** The reducer's actions; `now` is the clock reading an action's handler takes. */
  datatype Action =
    | StartGame(hat: Hat)
    | RestartGame
    | SelectCard(card: Card, now: real)
    | GameTick(input: TickInput)
    | PauseGame
    | ResumeGame(now: real)
    | MainMenu
}
