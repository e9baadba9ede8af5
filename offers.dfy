/**
 * The cards a level-up offers: the pool cards still under their stack cap and
 * the unlock cards of staffs the new level reaches, from which at most one epic
 * or special card is drawn first and the rest at random until the choice count
 * is reached. `rng(k)` is the k-th value `Math.random()` returns.
 */
module Offers {
  import opened Wrappers
  import opened Numeric
  import opened GameTypes
  import opened Catalogue
  import opened CardEngine

  /** The ids of the cards in `cs`. */
  function IdsOf(cs: seq<Card>): (r: set<string>)
    ensures forall c :: c in cs ==> c.id in r
  {
    set c | c in cs :: c.id
  }

  /** A card the player may still pick: it has no cap or fewer stacks than its cap. */
  predicate UnderCap(p: Player, c: Card)
  {
    c.maxStacks == 0 || Stacks(p, c.id) < c.maxStacks
  }

  /** A staff whose unlock the player's level has reached and that is still locked. */
  predicate StaffEligible(p: Player, st: Staff)
  {
    st.unlockLevel != 0 && p.level >= st.unlockLevel && st.id !in p.unlockedStaffIds
  }

  /** The special card that unlocks `st`. */
  function UnlockCard(st: Staff): (c: Card)
    ensures c.kind == StaffUnlock && c.rarity == Special && c.effects == [] && c.pickup == NoPickup
    ensures c.staffToUnlockId == st.id
  {
    Card("unlock_" + st.id, Special, [], 0, NoPickup, StaffUnlock, st.id)
  }

  /** The unlock card of a staff in the table names that staff and only that staff. */
  lemma UnlockCardUnlocks(st: Staff)
    requires st in Staffs
    ensures UnlocksStaff(UnlockCard(st))
    ensures FindStaff(UnlockCard(st).staffToUnlockId) == Some(st)
  {
  }

  /** `c` is the unlock card of a staff of `staffs` the player may unlock. */
  ghost predicate EligibleUnlock(p: Player, staffs: seq<Staff>, c: Card)
  {
    exists st :: st in staffs && StaffEligible(p, st) && c == UnlockCard(st)
  }

  /** A card a level-up may offer to `p` from `pool` and the unlocks of `staffs`. */
  ghost predicate Offerable(p: Player, pool: seq<Card>, staffs: seq<Staff>, c: Card)
  {
    (c in pool && UnderCap(p, c)) || EligibleUnlock(p, staffs, c)
  }

  /** The pool cards under their cap, in pool order (`ALL_CARDS_POOL.filter`). */
  function UnderCapCards(p: Player, cards: seq<Card>): (r: seq<Card>)
    ensures forall c :: c in r <==> c in cards && UnderCap(p, c)
    ensures |r| <= |cards|
  {
    if cards == [] then []
    else (if UnderCap(p, cards[0]) then [cards[0]] else []) + UnderCapCards(p, cards[1..])
  }

  /** The epic and special cards of `cs` (`potentialEpics`). */
  function EpicsOf(cs: seq<Card>): (r: seq<Card>)
    ensures forall c :: c in r <==> c in cs && (c.rarity == Epic || c.rarity == Special)
  {
    if cs == [] then []
    else (if cs[0].rarity == Epic || cs[0].rarity == Special then [cs[0]] else []) + EpicsOf(cs[1..])
  }

  /** `cs.findIndex(c => c.id === id)`, `None` for -1. */
  function FindIndexById(cs: seq<Card>, id: string): (r: Option<nat>)
    ensures r.Some? ==> r.value < |cs| && cs[r.value].id == id
    ensures r.None? ==> forall c :: c in cs ==> c.id != id
  {
    if cs == [] then None
    else if cs[0].id == id then Some(0)
    else match FindIndexById(cs[1..], id)
      case None => None
      case Some(i) => Some(i + 1)
  }

  /** `cs.splice(i, 1)`: the list without its i-th element. */
  function Remove(cs: seq<Card>, i: nat): (r: seq<Card>)
    requires i < |cs|
    ensures |r| == |cs| - 1
    ensures forall c :: c in r ==> c in cs
    ensures forall c :: c in cs ==> c in r || c == cs[i]
  {
    assert forall j :: 0 <= j < |cs| && j != i ==> cs[j] in cs[..i] + cs[i + 1..] by {
      forall j | 0 <= j < |cs| && j != i
        ensures cs[j] in cs[..i] + cs[i + 1..]
      {
        if j < i { assert (cs[..i] + cs[i + 1..])[j] == cs[j]; }
        else { assert (cs[..i] + cs[i + 1..])[j - 1] == cs[j]; }
      }
    }
    cs[..i] + cs[i + 1..]
  }

  /**
   * The cards a level-up chooses from: the pool cards under their cap, then the
   * unlock card of every staff the player may unlock whose id is not yet listed.
   */
  method AvailableCards(p: Player, pool: seq<Card>, staffs: seq<Staff>) returns (available: seq<Card>)
    ensures forall c :: c in available ==> Offerable(p, pool, staffs, c)
    ensures forall c :: c in pool && UnderCap(p, c) ==> c in available
    ensures forall st :: st in staffs && StaffEligible(p, st) ==> UnlockCard(st).id in IdsOf(available)
  {
    available := UnderCapCards(p, pool);
    for i := 0 to |staffs|
      invariant forall c :: c in available ==> Offerable(p, pool, staffs, c)
      invariant forall c :: c in pool && UnderCap(p, c) ==> c in available
      invariant forall j :: 0 <= j < i && StaffEligible(p, staffs[j]) ==> UnlockCard(staffs[j]).id in IdsOf(available)
    {
      var st := staffs[i];
      if StaffEligible(p, st) && FindIndexById(available, UnlockCard(st).id).None? {
        assert EligibleUnlock(p, staffs, UnlockCard(st));
        available := available + [UnlockCard(st)];
      }
    }
  }

  /** No two cards of `cs` share an id. */
  predicate DistinctIds(cs: seq<Card>)
  {
    forall i, j :: 0 <= i < j < |cs| ==> cs[i].id != cs[j].id
  }

  /**
   * The first draw of a level-up offer: when `available` holds an epic or special
   * card, with probability 0.25 + level/100 one of them, taken out of the rest.
   */
  method DrawEpic(available: seq<Card>, level: int, rng: nat -> Unit, k0: nat)
    returns (offered: seq<Card>, rest: seq<Card>, k: nat)
    ensures |offered| <= 1
    ensures forall c :: c in offered ==> c in available && (c.rarity == Epic || c.rarity == Special)
    ensures forall c :: c in rest ==> c in available
    ensures IdsOf(available) <= IdsOf(offered) + IdsOf(rest)
    ensures |offered| + |rest| == |available|
    ensures k >= k0
  {
    rest := available;
    offered := [];
    k := k0;
    var epics := EpicsOf(rest);
    if |epics| > 0 && rng(k) < 0.25 + (level as real) * 0.01 {
      var epic := epics[Index(rng(k + 1), |epics|)];
      offered := [epic];
      var at := FindIndexById(rest, epic.id);
      assert at.Some?;
      rest := Remove(rest, at.value);
      k := k + 2;
    } else if |epics| > 0 {
      k := k + 1;
    }
  }

  /**
   * Draws the offer from `available`: possibly one epic or special card first,
   * then random cards not yet offered until `numChoices` are offered or nothing
   * is left. Returns the offer and the cursor after the draws used.
   */
  method DrawOffer(available: seq<Card>, numChoices: real, level: int, rng: nat -> Unit, k0: nat)
    returns (offered: seq<Card>, k: nat)
    ensures forall c :: c in offered ==> c in available
    ensures DistinctIds(offered)
    // At most one card beyond the choice count, and only the epic drawn first.
    ensures |offered| <= 1 || ((|offered| - 1) as real) < numChoices
    ensures |offered| <= |available|
    // Short of the choice count only when every available id is offered.
    ensures (|offered| as real) < numChoices ==> IdsOf(available) <= IdsOf(offered)
    // Something is offered whenever something is available and a choice is asked for.
    ensures available != [] && numChoices > 0.0 ==> offered != []
    ensures k >= k0
  {
    var rest;
    offered, rest, k := DrawEpic(available, level, rng, k0);
    while (|offered| as real) < numChoices && |rest| > 0
      invariant forall c :: c in offered ==> c in available
      invariant forall c :: c in rest ==> c in available
      invariant DistinctIds(offered)
      invariant IdsOf(available) <= IdsOf(offered) + IdsOf(rest)
      invariant |offered| + |rest| <= |available|
      invariant |offered| <= 1 || ((|offered| - 1) as real) < numChoices
      invariant available != [] ==> offered != [] || rest != []
      invariant k >= k0
      decreases |rest|
    {
      var i := Index(rng(k), |rest|);
      var candidate := rest[i];
      rest := Remove(rest, i);
      k := k + 1;
      if candidate.id !in IdsOf(offered) {
        offered := offered + [candidate];
      }
    }
  }

  /**
   * The offer a level-up makes to `p` (who already holds the new level): drawn
   * from the available cards with 3 + appraisalStacks choices.
   */
  method LevelUpOffer(p: Player, rng: nat -> Unit, k0: nat) returns (offered: seq<Card>, k: nat)
    ensures forall c :: c in offered ==> Offerable(p, AllCardsPool, Staffs, c)
    ensures DistinctIds(offered)
    ensures |offered| <= 1 || ((|offered| - 1) as real) < CardChoicesCount + p.stats.appraisalStacks
    ensures (|offered| as real) < CardChoicesCount + p.stats.appraisalStacks ==>
      (forall c :: c in AllCardsPool && UnderCap(p, c) ==> c.id in IdsOf(offered))
      && (forall st :: st in Staffs && StaffEligible(p, st) ==> UnlockCard(st).id in IdsOf(offered))
    ensures CardChoicesCount + p.stats.appraisalStacks > 0.0 ==> offered != []
    ensures k >= k0
  {
    var available := AvailableCards(p, AllCardsPool, Staffs);
    PoolHasUncappedCard();
    assert CatalystCommon in available;
    offered, k := DrawOffer(available, CardChoicesCount + p.stats.appraisalStacks, p.level, rng, k0);
  }

  /** The pool always holds a card without a cap, so there is always something to offer. */
  lemma PoolHasUncappedCard()
    ensures CatalystCommon in AllCardsPool && CatalystCommon.maxStacks == 0
  {
    assert AllCardsPool[0] == CatalystCommon;
  }

  /** A card at its cap is never available again. */
  lemma CappedCardNotOfferable(p: Player, c: Card)
    requires c in AllCardsPool && c.maxStacks > 0 && Stacks(p, c.id) >= c.maxStacks
    ensures !Offerable(p, AllCardsPool, Staffs, c)
  {
    PoolCardsShape();
    EligibleUnlockKind(p, Staffs, c);
  }

  /** An unlock card is a special staff-unlock card, never a pool card. */
  lemma EligibleUnlockKind(p: Player, staffs: seq<Staff>, c: Card)
    ensures EligibleUnlock(p, staffs, c) ==> c.kind == StaffUnlock && c.rarity == Special
  {
    if EligibleUnlock(p, staffs, c) {
      var st :| st in staffs && StaffEligible(p, st) && c == UnlockCard(st);
    }
  }
}
