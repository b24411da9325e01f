/**
 * The modifier-choice phase between rounds: entering it starts a new round,
 * and choosing one of the offered modifiers activates it, pays its coins and
 * moves on to the shop.
 */
module ModifierChoice {
  import opened Vecs
  import opened Modifiers
  import opened GameStates
  import opened Items

  /** `on_modifier_choice`: the new round is started before any choice is shown. */
  method OnModifierChoice(game: GameState, rolls: nat -> nat) returns (info: NewRoundInfo)
    modifies game
    ensures game.Fields() == old(game.Fields()).(countdown := old(game.countdown).Reset(), points := 0,
                                                 activeModifiers := AfterEviction(old(game.activeModifiers)))
    ensures info.removedModifier == Evicted(old(game.activeModifiers))
    ensures |info.modifierChoices| <= MODIFIER_CHOICE_COUNT && NoDuplicates(info.modifierChoices)
    ensures forall i :: 0 <= i < |info.modifierChoices| ==>
      info.modifierChoices[i] !in game.activeModifiers && info.modifierChoices[i].Tabled()
    ensures forall i :: 0 <= i < |info.modifierChoices| ==> Sampled(info.modifierChoices[i], rolls)
    ensures |info.modifierChoices| < MODIFIER_CHOICE_COUNT ==>
      forall k :: 0 <= k < MAX_ATTEMPTS && Sample(rolls(k)) !in game.activeModifiers ==>
        Sample(rolls(k)) in info.modifierChoices
  {
    info := game.NewRound(rolls);
  }

  /** The "Choose" button: activate `modifier`, pay its coins, and ask for the shop phase. */
  method Choose(game: GameState, modifier: Modifier) returns (next: GamePhase)
    requires modifier.Tabled()
    modifies game
    ensures game.activeModifiers == old(game.activeModifiers) + [modifier]
    ensures game.money == old(game.money) + modifier.Difficulty().CoinsGiven()
    ensures next == Shop
    ensures game.points == old(game.points) && game.countdown == old(game.countdown)
    ensures game.charms == old(game.charms) && game.maxCharms == old(game.maxCharms)
    ensures game.sheepCount == old(game.sheepCount) && game.pointTarget == old(game.pointTarget)
    ensures game.blueSheepCount == old(game.blueSheepCount) && game.redSheepCount == old(game.redSheepCount)
    ensures game.playerBarkRadius == old(game.playerBarkRadius)
  {
    game.activeModifiers := game.activeModifiers + [modifier];
    game.money := game.money + modifier.Difficulty().CoinsGiven();
    next := Shop;
  }

  /**
   * The whole phase on the run's state: a new round, then the choice of the
   * `pick`-th offered modifier. Active modifiers stay at most three and
   * pairwise distinct, and all of them stay in the tables.
   */
  method NewRoundAndChoose(game: GameState, rolls: nat -> nat, pick: nat) returns (next: GamePhase, chosen: bool)
    requires |game.activeModifiers| <= 3 && NoDuplicates(game.activeModifiers)
    requires forall i :: 0 <= i < |game.activeModifiers| ==> game.activeModifiers[i].Tabled()
    modifies game
    ensures |game.activeModifiers| <= 3 && NoDuplicates(game.activeModifiers)
    ensures forall i :: 0 <= i < |game.activeModifiers| ==> game.activeModifiers[i].Tabled()
    ensures chosen ==> next == Shop && |game.activeModifiers| >= 1
    ensures !chosen ==> next == ModifierChoice && game.activeModifiers == AfterEviction(old(game.activeModifiers))
  {
    var info := OnModifierChoice(game, rolls);
    if pick < |info.modifierChoices| {
      var m := info.modifierChoices[pick];
      ghost var before := old(game.activeModifiers);
      EvictionBoundsActive(before, m);
      EvictionKeepsDistinct(before, m);
      next := Choose(game, m);
      chosen := true;
    } else {
      next := ModifierChoice;
      chosen := false;
    }
  }
}
