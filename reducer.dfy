/**
 * The game reducer (`gameReducer`): starting and restarting a run, the main
 * menu, picking a card with its ascensions, pausing, resuming and the tick.
 */
module Reducer {
  import opened Wrappers
  import opened Numeric
  import opened GameTypes
  import opened Catalogue
  import opened CardEngine
  import opened Offers
  import opened GameState
  import opened Tick

  /** The id of the card the selection screen offers for skipping an upgrade. */
  const ContinueId: string := "continue"

  /** The hat a run starts with: the one with id `wizard_hat`, else the first. */
  const InitialHat: Hat := WizardHat

  /** A fresh run with `player`: no enemies, projectiles or offers and the clocks at 0. */
  function Fresh(s: State, player: Player): (r: State)
    ensures r.status == Playing && r.player == player && r.enemies == [] && r.projectiles == []
    ensures r.score == 0.0 && r.gameTime == 0.0 && r.lastShotTime == 0.0 && r.lastEnemySpawnTime == 0.0
    ensures r.offeredCards == [] && r.nextId == s.nextId
  {
    State(Playing, player, [], [], 0.0, 0.0, 0.0, [], 0.0, s.nextId)
  }

  /** The state the game mounts with: the start screen and a player in the initial hat. */
  function Initial(): (r: State)
    ensures r.status == StartScreen && r.player == InitializePlayer(InitialHat)
    ensures r.enemies == [] && r.projectiles == [] && r.offeredCards == [] && r.score == 0.0
  {
    State(StartScreen, InitializePlayer(InitialHat), [], [], 0.0, 0.0, 0.0, [], 0.0, 0)
  }

  /** `START_GAME`: a fresh run in the chosen hat. */
  function Start(s: State, hat: Hat): (r: State)
    ensures r.status == Playing && r.player.activeHat == Some(hat) && r.player.level == 1
    ensures r.player.stats.currentHp == r.player.stats.maxHp
    ensures r.player.chosenCards == map[] && r.player.activeAscensions == {}
    ensures r.enemies == [] && r.projectiles == [] && r.offeredCards == [] && r.score == 0.0
  {
    Fresh(s, InitializePlayer(hat))
  }

  /** The hat a restart uses: the player's own, else the initial hat. */
  function RestartHat(p: Player): (h: Hat)
    ensures p.activeHat.Some? ==> h == p.activeHat.value
    ensures p.activeHat.None? ==> h == WizardHat
  {
    match p.activeHat
    case Some(hat) => hat
    case None => InitialHat
  }

  /** `RESTART_GAME`: a fresh run in the hat the player wore. */
  function Restart(s: State): (r: State)
    ensures r.status == Playing && r.player.level == 1
    ensures r.player.activeHat == Some(RestartHat(s.player))
    ensures r.enemies == [] && r.projectiles == [] && r.offeredCards == [] && r.score == 0.0
  {
    Fresh(s, InitializePlayer(RestartHat(s.player)))
  }

  /** Restarting a run that was just started in a hat starts it again in the same hat. */
  lemma RestartKeepsHat(s: State, hat: Hat)
    ensures Restart(Start(s, hat)) == Start(s, hat)
  {
  }

  /** `MAIN_MENU`: back to the start screen, all else kept. */
  function ToMenu(s: State): (r: State)
    ensures r.status == StartScreen && r == s.(status := r.status)
  {
    s.(status := StartScreen)
  }

  /** `PAUSE_GAME`: a playing game pauses; any other state is kept. */
  function Pause(s: State): (r: State)
    ensures s.status == Playing ==> r.status == Paused
    ensures r == s.(status := r.status)
    ensures s.status != Playing ==> r == s
  {
    if s.status == Playing then s.(status := Paused) else s
  }

  /**
   * `RESUME_GAME`: a paused game plays again, with the shot clock at `now` and
   * the spawn clock set so that the next spawn is 1 second short of the longest
   * spawn interval away; any other state is kept.
   */
  function Resume(s: State, now: real): (r: State)
    ensures s.status == Paused ==> r.status == Playing && r.lastShotTime == now
    ensures s.status == Paused ==> now - r.lastEnemySpawnTime == EnemySpawnIntervalMax - 1000.0
    ensures s.status != Paused ==> r == s
  {
    if s.status == Paused then
      s.(status := Playing, lastShotTime := now, lastEnemySpawnTime := now - (EnemySpawnIntervalMax - 1000.0))
    else s
  }

  /** Pausing and resuming gives back the playing game with only its two clocks reset. */
  lemma PauseResume(s: State, now: real)
    requires s.status == Playing
    ensures Resume(Pause(s), now) == s.(lastShotTime := now, lastEnemySpawnTime := now - 3000.0)
  {
  }

  /** Pausing is idempotent, and resuming a game that is not paused does nothing. */
  lemma PauseTwice(s: State, now: real)
    ensures Pause(Pause(s)) == Pause(s)
    ensures Resume(Resume(s, now), now) == Resume(s, now)
  {
  }

  /** `chosenCards[id] += 1` for a card that is not a staff unlock. */
  function Count(p: Player, c: Card): (r: Player)
    ensures Stacks(r, c.id) == Stacks(p, c.id) + (if c.kind == StaffUnlock then 0 else 1)
    ensures forall id :: id != c.id ==> Stacks(r, id) == Stacks(p, id)
    ensures r == p.(chosenCards := r.chosenCards)
  {
    if c.kind == StaffUnlock then p else p.(chosenCards := p.chosenCards[c.id := Stacks(p, c.id) + 1])
  }

  /** The ascension `a` fires on a pick of `id`: its base card, enough stacks, not yet active. */
  predicate Triggers(p: Player, a: AscensionCard, id: string)
  {
    a.baseCardId == id && Stacks(p, id) >= a.stacksNeeded && a.card.id !in p.activeAscensions
  }

  /** Applying an ascension: its card's effects, then its id marked active. */
  function Activate(p: Player, a: AscensionCard, now: real): (r: Player)
    ensures a.card.id in r.activeAscensions && r.activeAscensions == p.activeAscensions + {a.card.id}
    ensures r.chosenCards == p.chosenCards && r.level == p.level && r.activeHat == p.activeHat
  {
    var q := ApplyCardEffects(p, a.card, now);
    q.(activeAscensions := q.activeAscensions + {a.card.id})
  }

  /** The ascension pass over `ascs`, in order, after a pick of `id`. */
  function AscendAll(p: Player, id: string, ascs: seq<AscensionCard>, now: real): (r: Player)
    ensures r.chosenCards == p.chosenCards && r.level == p.level && r.activeHat == p.activeHat
    ensures p.activeAscensions <= r.activeAscensions
    decreases |ascs|
  {
    if ascs == [] then p
    else
      var q := AscendAll(p, id, ascs[..|ascs| - 1], now);
      var a := ascs[|ascs| - 1];
      if Triggers(q, a, id) then Activate(q, a, now) else q
  }

  /**
   * After the pass, every ascension of `ascs` built on `id` whose stack count is
   * reached is active, and every newly active id is such an ascension's.
   */
  lemma {:induction false} AscendAllActivates(p: Player, id: string, ascs: seq<AscensionCard>, now: real)
    ensures forall a :: a in ascs && a.baseCardId == id && Stacks(p, id) >= a.stacksNeeded ==>
      a.card.id in AscendAll(p, id, ascs, now).activeAscensions
    ensures forall x :: x in AscendAll(p, id, ascs, now).activeAscensions ==>
      x in p.activeAscensions
      || exists a :: a in ascs && a.card.id == x && a.baseCardId == id && Stacks(p, id) >= a.stacksNeeded
    decreases |ascs|
  {
    if ascs != [] {
      var init := ascs[..|ascs| - 1];
      var a := ascs[|ascs| - 1];
      AscendAllActivates(p, id, init, now);
      var q := AscendAll(p, id, init, now);
      var r := AscendAll(p, id, ascs, now);
      assert ascs == init + [a];
      forall b | b in ascs && b.baseCardId == id && Stacks(p, id) >= b.stacksNeeded
        ensures b.card.id in r.activeAscensions
      {
        if b in init {
          assert b.card.id in q.activeAscensions;
        } else {
          assert b == a;
        }
      }
      forall x | x in r.activeAscensions
        ensures x in p.activeAscensions
          || exists b :: b in ascs && b.card.id == x && b.baseCardId == id && Stacks(p, id) >= b.stacksNeeded
      {
        if x !in q.activeAscensions {
          assert Triggers(q, a, id) && x == a.card.id;
          assert a in ascs;
        }
      }
    }
  }

  /** A pass in which no ascension fires leaves the player as it was. */
  lemma {:induction false} NothingDueIsIdentity(p: Player, id: string, ascs: seq<AscensionCard>, now: real)
    requires forall a :: a in ascs && a.baseCardId == id && Stacks(p, id) >= a.stacksNeeded ==>
      a.card.id in p.activeAscensions
    ensures AscendAll(p, id, ascs, now) == p
    decreases |ascs|
  {
    if ascs != [] {
      NothingDueIsIdentity(p, id, ascs[..|ascs| - 1], now);
      assert ascs[|ascs| - 1] in ascs;
    }
  }

  /**
   * Ascensions fire once: a second pass for the same pick, at any time, applies
   * nothing again.
   */
  lemma AscendOnce(p: Player, id: string, ascs: seq<AscensionCard>, now: real, later: real)
    ensures AscendAll(AscendAll(p, id, ascs, now), id, ascs, later) == AscendAll(p, id, ascs, now)
  {
    AscendAllActivates(p, id, ascs, now);
    NothingDueIsIdentity(AscendAll(p, id, ascs, now), id, ascs, later);
  }

  /** The ascension pass keeps a positive maxHp positive. */
  lemma {:induction false} AscendKeepsMaxHpPositive(p: Player, id: string, ascs: seq<AscensionCard>, now: real)
    requires p.stats.maxHp > 0.0
    requires forall a :: a in ascs ==> CardKeepsMaxHpPositive(a.card)
    ensures AscendAll(p, id, ascs, now).stats.maxHp > 0.0
    decreases |ascs|
  {
    if ascs != [] {
      var a := ascs[|ascs| - 1];
      AscendKeepsMaxHpPositive(p, id, ascs[..|ascs| - 1], now);
      assert a in ascs;
      ApplyCardKeepsMaxHpPositive(AscendAll(p, id, ascs[..|ascs| - 1], now), a.card, now);
    }
  }

  /** The ascension loop of `SELECT_CARD`, over every ascension in table order. */
  method Ascensions(p: Player, id: string, now: real) returns (r: Player)
    ensures r == AscendAll(p, id, AllAscensions, now)
  {
    r := p;
    for i := 0 to |AllAscensions|
      invariant r == AscendAll(p, id, AllAscensions[..i], now)
    {
      var a := AllAscensions[i];
      assert AllAscensions[..i + 1][..i] == AllAscensions[..i];
      if Triggers(r, a, id) {
        r := Activate(r, a, now);
      }
    }
    assert AllAscensions[..|AllAscensions|] == AllAscensions;
  }

  /** The player after picking `c`: its effects, its stack counted, then the ascension pass. */
  function Picked(p: Player, c: Card, now: real): (r: Player)
    ensures r.level == p.level && r.activeHat == p.activeHat
    ensures p.activeAscensions <= r.activeAscensions
  {
    AscendAll(Count(ApplyCardEffects(p, c, now), c), c.id, AllAscensions, now)
  }

  /** A pick adds exactly one stack to its own card, none for a staff unlock, and none to any other card. */
  lemma PickedStacks(p: Player, c: Card, now: real)
    ensures Stacks(Picked(p, c, now), c.id) == Stacks(p, c.id) + (if c.kind == StaffUnlock then 0 else 1)
    ensures forall id :: id != c.id ==> Stacks(Picked(p, c, now), id) == Stacks(p, id)
  {
    var q := ApplyCardEffects(p, c, now);
    var counted := Count(q, c);
    AscendKeepsStacks(counted, c.id, AllAscensions, now);
    assert q.chosenCards == p.chosenCards;
  }

  /** The ascension pass never changes a stack count. */
  lemma AscendKeepsStacks(p: Player, id: string, ascs: seq<AscensionCard>, now: real)
    ensures forall x :: Stacks(AscendAll(p, id, ascs, now), x) == Stacks(p, x)
  {
    assert AscendAll(p, id, ascs, now).chosenCards == p.chosenCards;
  }

  /** A pick of a card that keeps a positive maxHp positive does so, ascensions included. */
  lemma {:induction false} PickedKeepsMaxHpPositive(p: Player, c: Card, now: real)
    requires p.stats.maxHp > 0.0 && CardKeepsMaxHpPositive(c)
    ensures Picked(p, c, now).stats.maxHp > 0.0
  {
    ApplyCardKeepsMaxHpPositive(p, c, now);
    AscensionsKeepMaxHpPositive();
    AscendKeepsMaxHpPositive(Count(ApplyCardEffects(p, c, now), c), c.id, AllAscensions, now);
  }

  /** `SELECT_CARD`: the continue card only resumes play; any other card is picked. Both clear the offer. */
  function Select(s: State, c: Card, now: real): (r: State)
    ensures r.status == Playing && r.offeredCards == []
    ensures r == s.(status := Playing, offeredCards := [], player := r.player)
    ensures c.id == ContinueId ==> r.player == s.player
  {
    if c.id == ContinueId then s.(status := Playing, offeredCards := [])
    else s.(status := Playing, offeredCards := [], player := Picked(s.player, c, now))
  }

  /** `SELECT_CARD`, running the ascension loop. */
  method SelectCard(s: State, c: Card, now: real) returns (r: State)
    ensures r == Select(s, c, now)
  {
    if c.id == ContinueId {
      return s.(status := Playing, offeredCards := []);
    }
    var p := ApplyCardEffects(s.player, c, now);
    p := Count(p, c);
    p := Ascensions(p, c.id, now);
    r := s.(status := Playing, offeredCards := [], player := p);
  }

  /**
   * The reducer's invariant: a positive maxHp, a hat from the table (if any), and
   * an offer of cards that keep a positive maxHp positive.
   */
  predicate Sound(s: State)
  {
    && s.player.stats.maxHp > 0.0
    && (s.player.activeHat.Some? ==> s.player.activeHat.value in Hats)
    && (forall c :: c in s.offeredCards ==> CardKeepsMaxHpPositive(c))
  }

  /** What the screens can dispatch: a hat of the table, and an offered card or the continue card. */
  predicate Dispatchable(s: State, action: Action)
  {
    && (action.StartGame? ==> action.hat in Hats)
    && (action.SelectCard? ==> action.card in s.offeredCards || action.card.id == ContinueId)
  }

  /** Every hat gives the new player a positive maxHp. */
  lemma {:induction false} HatKeepsMaxHpPositive(hat: Hat)
    requires hat in Hats
    ensures InitializePlayer(hat).stats.maxHp > 0.0
  {
    OutfitKeepsMaxHpPositive();
  }

  /** The game mounts sound. */
  lemma InitialSound()
    ensures Sound(Initial())
  {
    HatKeepsMaxHpPositive(InitialHat);
  }

  /** A card a level-up offers keeps a positive maxHp positive. */
  lemma {:induction false} OfferableKeepsMaxHpPositive(p: Player, c: Card)
    requires Offerable(p, AllCardsPool, Staffs, c)
    ensures CardKeepsMaxHpPositive(c)
  {
    PoolCardsShape();
    if !(c in AllCardsPool && UnderCap(p, c)) {
      var st :| st in Staffs && StaffEligible(p, st) && c == UnlockCard(st);
      assert c.effects == [];
    }
  }

  /** A start in a hat of the table is sound. */
  lemma StartSound(s: State, hat: Hat)
    requires hat in Hats
    ensures Sound(Start(s, hat))
  {
    HatKeepsMaxHpPositive(hat);
  }

  /** A restart of a sound state is sound. */
  lemma RestartSound(s: State)
    requires Sound(s)
    ensures Sound(Restart(s))
  {
    HatKeepsMaxHpPositive(RestartHat(s.player));
  }

  /** Picking an offered card, or continuing, keeps the state sound. */
  lemma SelectSound(s: State, c: Card, now: real)
    requires Sound(s) && (c in s.offeredCards || c.id == ContinueId)
    ensures Sound(Select(s, c, now))
  {
    if c.id != ContinueId {
      PickedKeepsMaxHpPositive(s.player, c, now);
    }
  }

  /**
   * `GAME_TICK`: a tick acts only on a playing game, keeps the build, ends
   * playing, choosing a card or over, and keeps the state sound.
   */
  method PlayTick(s: State, input: TickInput) returns (r: State)
    requires s.status == Playing ==> s.player.stats.maxHp > 0.0
    ensures s.status != Playing ==> r == s
    ensures s.status == Playing ==>
      && SameBuild(s.player, r.player)
      && (r.status == Playing || r.status == CardSelection || r.status == GameOver)
      && (r.status == GameOver <==> r.player.stats.currentHp <= 0.0)
      && r.gameTime == s.gameTime + 16.0
    ensures Sound(s) ==> Sound(r)
  {
    var killed;
    r, killed := Tick.Tick(s, input);
    if s.status == Playing && r.status == CardSelection {
      forall c | c in r.offeredCards
        ensures CardKeepsMaxHpPositive(c)
      {
        OfferableKeepsMaxHpPositive(r.player, c);
      }
    }
  }

  /** `gameReducer` on every action but the tick. */
  function Apply(s: State, action: Action): (r: State)
    requires !action.GameTick?
    ensures action.StartGame? ==> r == Start(s, action.hat)
    ensures action.RestartGame? ==> r == Restart(s)
    ensures action.MainMenu? ==> r == ToMenu(s)
    ensures action.PauseGame? ==> r == Pause(s)
    ensures action.ResumeGame? ==> r == Resume(s, action.now)
    ensures action.SelectCard? ==> r == Select(s, action.card, action.now)
  {
    match action
    case StartGame(hat) => Start(s, hat)
    case RestartGame => Restart(s)
    case MainMenu => ToMenu(s)
    case PauseGame => Pause(s)
    case ResumeGame(now) => Resume(s, now)
    case SelectCard(c, now) => Select(s, c, now)
  }

  /** Every action but the tick keeps a sound state sound when the screens could dispatch it. */
  lemma {:induction false} ApplySound(s: State, action: Action)
    requires !action.GameTick? && Sound(s) && Dispatchable(s, action)
    ensures Sound(Apply(s, action))
  {
    match action
    case StartGame(hat) => StartSound(s, hat);
    case RestartGame => RestartSound(s);
    case MainMenu =>
    case PauseGame =>
    case ResumeGame(now) =>
    case SelectCard(c, now) => SelectSound(s, c, now);
  }

  /** `gameReducer`: one action applied to the state. */
  method Reduce(s: State, action: Action) returns (r: State)
    requires action.GameTick? && s.status == Playing ==> s.player.stats.maxHp > 0.0
    ensures !action.GameTick? ==> r == Apply(s, action)
    ensures action.GameTick? && s.status != Playing ==> r == s
    ensures action.GameTick? && s.status == Playing ==>
      && SameBuild(s.player, r.player)
      && (r.status == Playing || r.status == CardSelection || r.status == GameOver)
      && (r.status == GameOver <==> r.player.stats.currentHp <= 0.0)
      && r.gameTime == s.gameTime + 16.0
    ensures Sound(s) && Dispatchable(s, action) ==> Sound(r)
  {
    if action.GameTick? {
      r := PlayTick(s, action.input);
    } else if action.SelectCard? {
      r := SelectCard(s, action.card, action.now);
    } else {
      r := Apply(s, action);
    }
    if !action.GameTick? && Sound(s) && Dispatchable(s, action) {
      ApplySound(s, action);
    }
  }
}
