# Sheep herding: the game rules, modelled in Dafny

This project models the rule layer of a Bevy herding game. The player is a dog that barks sheep towards a goal pen before a countdown runs out. Each sheep is a small state machine: wandering, evading a nearby dog, spooked by a bark, being counted at the goal, or being abducted by a UFO. Sheep move with a hop controller that alternates between ground and air on a timer. Between rounds the run's economy applies:
- modifiers are drawn and chosen, and each choice pays coins;
- a shop offers boosts and charms, which can be bought, sold and rerolled.

Positions are pairs of reals. The engine's `Timer` in `TimerMode::Once` is a record `(elapsed, duration)`:
- ticking clamps `elapsed` at `duration`;
- `finished` means `elapsed >= duration`;
- `just_finished` holds only on the tick that finishes it.

Randomness enters as oracle parameters:
- roll functions (`rolls`);
- drawn values (`waits`, `headings`, `picks`);
- a `lucky` flag.

The Euclidean length (a square root) is a parameter `len`. The lemmas that need it to be a true length assume `IsLength(len)`. Bevy systems that iterate a query are methods that loop over sequences of objects. Sequences are positionally aligned: `positions[i]` is where `flock[i]` stands.

The source files do not all agree, and the model follows each file as written, bridging as follows:
- `Modifier` has seven variants. `Ufo`, `FeverDream` and `Space` are tested for by the UFO and herding code, but the name, description and difficulty tables and the sampler only cover the other four. The tables therefore require `Tabled()`, and the sampler provably never yields the other three.
- The sheep bundle uses a `MovementController` and a `jump_height_mult` that the movement file does not define. The hop controller's own `intent` and `move_speed_mult` stand in for that controller. `jump_height_mult` is computed and returned, but nothing receives it.
- The shop's reroll calls the item draw without owned charms, so an owned charm can be offered again.
- The `BarkPower` boost writes a `player_bark_radius`. The model adds it to `GameState` with the player's default of 8. The player's own `bark_radius`, which the bark reads, is a separate field that nothing updates.
- An evading sheep refreshes its danger position only locally, so the stored danger never changes. Selling a charm refunds its full price, while the card shows half the price rounded down. The player's intent is multiplied by the controller's speed multiplier twice: once by the input system and once by `apply_movement`. Each of these behaviours is modelled as written.
- `src/game/state.rs` and `src/game/state/mod.rs` both define a game state. The earlier, smaller one is modelled separately as `LegacyState`.

## Model

| member | source | states |
|---|---|---|
| Timers.JustFinishedOnce | src/game/state/herding.rs:41-44 | the countdown's just-finished signal, and so the return to the title screen, fires on exactly one tick; later ticks leave the finished timer unchanged |
| Timers.FinishesWhenDurationReached | src/game/movement.rs:73-76 | an unfinished timer just finishes exactly when the tick reaches its duration, and then its elapsed time is clamped to the duration |
| Geometry.NormalizeOrUnit | src/game/player.rs:110 | normalising returns the fallback exactly for the zero vector, and otherwise a unit vector that is a positive multiple of the input |
| Level.Clamp | src/game/level.rs:25-30 | the clamped value lies in [lo, hi], equals the input inside, and equals the nearer bound outside |
| Level.LevelBounds.ClampToBounds | src/game/level.rs:25-30 | the clamped point lies within the bounds, and a point already inside is returned unchanged |
| Level.ArenaWellFormed | src/game/level.rs:11-14 | the arena bounds (-34.5, -49.5) to (34.5, 9.5) have min <= max in both components and contain the origin |
| Level.ClampIdempotent | src/game/level.rs:25-30 | clamping twice gives the same point as clamping once |
| Level.ClampFixesExactlyInside | src/game/level.rs:25-30 | clamping leaves a point unchanged if and only if it is inside the bounds |
| Level.ClampComponentwise | src/game/level.rs:26-29 | each coordinate of the result depends only on the same coordinate of the input |
| Level.ClampIsNearest | src/game/level.rs:25-30 | in each coordinate, the clamped point is at least as close to the input as any point inside the bounds |
| Modifiers.Modifier.Difficulty | src/game/modifiers.rs:34-43 | HyperSheep and Placeholder2 are easy, MoonGravity is medium and Placeholder1 is hard, both ways round |
| Modifiers.ModifierDifficulty.CoinsGiven | src/game/modifiers.rs:62-70 | easy pays 4, medium 5 and hard 6, and every payment lies in [4, 6] |
| Modifiers.Sample | src/game/modifiers.rs:45-53 | every roll yields one of the four tabled modifiers |
| Modifiers.SampleCoversTabled | src/game/modifiers.rs:45-53 | each tabled modifier is yielded by exactly one roll in 0..4 |
| Modifiers.SampleNeverUntabled | src/game/modifiers.rs:45-53 | the sampler never yields Ufo, FeverDream or Space |
| Modifiers.NamesDistinct | src/game/modifiers.rs:16-24 | distinct tabled modifiers have distinct names |
| Modifiers.CoinsInRange | src/game/modifiers.rs:34-43 | every tabled modifier pays between 4 and 6 coins |
| Items.Boost.Price | src/game/state/shop/items.rs:106-113 | boosts cost 2 or 3, and exactly the sheep boosts cost 2 |
| Items.Charm.Price | src/game/state/shop/items.rs:165-174 | charms cost between 3 and 5 |
| Items.ItemType.Name | src/game/state/shop/items.rs:15-21 | an item's name is its boost's or charm's name |
| Items.ItemType.Description | src/game/state/shop/items.rs:22-28 | an item's description is its boost's or charm's description |
| Items.ItemType.Price | src/game/state/shop/items.rs:29-35 | an item's price is its boost's or charm's price, and lies in [2, 5] |
| Items.ItemType.KindLabel | src/game/state/shop/items.rs:36-41 | the label is "Boost" exactly for boosts and "Charm" exactly for charms |
| Items.Random | src/game/state/shop/items.rs:43-58 | every draw is a member of the fixed ten-item pool |
| Items.RandomUnique | src/game/state/shop/items.rs:60-76 | at most `count` items are returned, pairwise distinct, none of them an owned charm, each drawn on one of the 100 attempts; in a short result, every admissible item drawn on any attempt is already included |
| Items.PoolCoversEveryItem | src/game/state/shop/items.rs:44-57 | the pool holds every boost and every charm exactly once |
| Items.PricesAtLeastTwo | src/game/state/shop/items.rs:106-113 | every item costs at least 2 |
| Items.ItemNamesDistinct | src/game/state/shop/items.rs:15-21 | distinct items have distinct names |
| ItemEffects.Apply | src/game/state/shop/items.rs:115-127 | BlueSheep and RedSheep each add one to their own counter, BarkPower adds 2 to the bark radius, MaxCharms adds one slot when the roll is lucky, and no other field changes |
| ItemEffects.Applied | src/game/state/shop/items.rs:115-127 | the effect of a boost on the game's fields: the matching sheep counter or the bark radius grows, a lucky MaxCharms roll adds a charm slot, and every other field is unchanged |
| GameStates.AfterEviction | src/game/state/mod.rs:64-68 | with more than two active modifiers, the first is dropped and the others keep their order; otherwise nothing changes |
| GameStates.Evicted | src/game/state/mod.rs:64-68 | a modifier is reported as removed exactly when more than two are active, and it is the first one |
| GameStates.GameState.Default | src/game/state/mod.rs:43-58 | 10 sheep, one blue, one red, a 120-second countdown, no points, a target of 10, no money, modifiers or charms, three charm slots |
| GameStates.GameState.NewRound | src/game/state/mod.rs:61-74 | the countdown rewinds, points clear, the oldest modifier is evicted when more than two are active, and up to two distinct, inactive, tabled choices are drawn, each sampled on one of the 100 attempts, with every inactive sampled modifier among them when fewer than two are found; no other field changes |
| GameStates.GameState.PickRandomModifiers | src/game/state/mod.rs:88-102 | at most `count` choices, pairwise distinct, none active, each sampled on one of the 100 attempts |
| GameStates.EvictionBoundsActive | src/game/state/mod.rs:64-68 | from at most three active modifiers, eviction leaves at most two, so one more choice keeps at most three |
| GameStates.EvictionKeepsDistinct | src/game/state/mod.rs:64-68 | eviction followed by appending a modifier that is not active keeps the active modifiers distinct |
| ModifierChoice.OnModifierChoice | src/game/state/modifier_choice.rs:15-22 | entering the modifier choice runs `new_round` before any choice is offered: the countdown rewinds, points clear, the oldest modifier is evicted, every other game field stays, and the choices are drawn from the rolls, complete on a short draw |
| ModifierChoice.Choose | src/game/state/modifier_choice.rs:108-114 | the chosen modifier is appended, its difficulty's coins are paid, the next phase is the shop, and nothing else changes |
| ModifierChoice.NewRoundAndChoose | src/game/state/modifier_choice.rs:108-114 | a new round followed by one choice keeps at most three active modifiers, distinct and tabled |
| Shop.ShopOffers.Default | src/game/state/shop/mod.rs:11-14 | the shop starts with no offers |
| Shop.ShopOffers.Reroll | src/game/state/shop/mod.rs:17-22 | every previous slot is replaced by at most three offers, all filled, pairwise distinct and drawn from the rolls; a short draw means every roll's item is already on offer |
| Shop.OnShop | src/game/state/shop/mod.rs:31-33 | entering the shop always rerolls: at most three offers, all filled, each drawn from the rolls, and a short draw only when every roll's item is already on offer |
| Shop.DrawNewItems | src/game/state/shop/ui.rs:240-250 | with no money neither the game state nor the offers change; otherwise exactly one coin is paid, no other game field changes, and the offers are rerolled (filled, drawn from the rolls, complete unless every roll's item is on offer) |
| Shop.BuySheep | src/game/state/shop/ui.rs:332-338 | without a coin no game field changes; otherwise one more sheep for one coin, and every other game field stays |
| Shop.BuyShopItem | src/game/state/shop/ui.rs:340-360 | an out-of-range slot, an empty slot, too little money or a charm with all slots full changes neither the game state nor the offers; otherwise exactly the price is paid, a boost has the effect `ItemEffects.Applied` gives it, or the charm is appended, no other game field changes, and only that slot is emptied |
| Shop.SellCharm | src/game/state/shop/ui.rs:362-369 | the charm at the slot is removed, the others keep their order, its full price is refunded, and no other game field changes; an out-of-range slot changes nothing |
| Shop.DisplayedSellPrice | src/game/state/shop/ui.rs:162 | the sell button shows half the price, rounded down |
| Shop.BuyButtonMatchesPurchase | src/game/state/shop/ui.rs:292 | the buy button is enabled exactly when pressing it would buy the item |
| Shop.SellRefundExceedsDisplay | src/game/state/shop/ui.rs:362-369 | the refund is always larger than the amount the sell button shows |
| Movement.Stepped | src/game/movement.rs:72-95 | the hop step keeps the controller sane and never changes the intent, the multipliers or the hop durations |
| Movement.Ticked | src/game/movement.rs:73-74 | the hop timer, ticked by the frame time scaled by the hop speed, stays valid and keeps its duration |
| Movement.SteppedWhileRunning | src/game/movement.rs:73-75 | while the timer has not finished, only the timer changes |
| Movement.SteppedLands | src/game/movement.rs:76-81 | an airborne controller whose timer finishes lands, restarts its timer at the time between hops, and keeps the hop's source and destination |
| Movement.SteppedStartsHop | src/game/movement.rs:84-92 | a hop starts exactly when a grounded controller's timer finishes with the intent more than 0.4 (squared) away; it then records the current position and the intent and runs for the hop time |
| Movement.SteppedIdle | src/game/movement.rs:75-94 | a grounded controller whose intent is within 0.4 (squared) changes only its timer's elapsed time |
| Movement.SteppedKeepsHopKnown | src/game/movement.rs:76-92 | a controller in the air always knows its hop's source and destination, and the step preserves this |
| Movement.DefaultWaitsHalfSecond | src/game/movement.rs:51-65 | the default controller is sane, and a quarter second only advances its half-second timer |
| Movement.DefaultHopsAfterHalfSecond | src/game/movement.rs:84-92 | a default controller aimed three units away starts a 0.3-second hop from where it stands once half a second has passed |
| Movement.JumpHeightEnds | src/game/movement.rs:118-120 | the jump height is 0 at take-off and landing and 1 halfway |
| Movement.JumpHeightBounds | src/game/movement.rs:118-120 | over a hop the jump height stays within [0, 1] |
| Movement.HopTranslationBounds | src/game/movement.rs:104-114 | in the air, the ground position lies between the hop's source and destination, and the height lies between 0.5 and 1.5 |
| Movement.HopTranslationEnds | src/game/movement.rs:104-114 | a hop that has just started is drawn at its source, at height 0.5 |
| Movement.AirborneNeverFinished | src/game/movement.rs:72-95 | after `update`, an entity in the air always has time left on its hop timer, so the hop's destination frame is never drawn |
| Movement.LandingKeepsTranslation | src/game/movement.rs:102-114 | on the tick that lands a hop the translation is not rewritten |
| Movement.HopEndsInTheAir | src/game/movement.rs:72-114 | a 0.3-second hop drawn at 0.1-second frames lands two thirds of the way along and 25/18 high, and stays there |
| Movement.HopMovementController.Default | src/game/movement.rs:51-65 | the default controller: no intent or hop, move speed 3, hop speed 1, 0.2 s between hops, a 0.3 s hop, grounded, and a 0.5 s timer |
| Movement.HopMovementController.ApplyMovement | src/game/movement.rs:68-70 | the intent grows by the direction scaled by the move speed multiplier, and nothing else changes |
| Movement.HopMovementController.Update | src/game/movement.rs:72-95 | the controller's new state is the hop step of its old state |
| Movement.ApplyHopMovement | src/game/movement.rs:98-116 | every controller takes the hop step from its entity's ground position, and each entity's translation is then the hop translation of the new state (interpolated in the air, unchanged on the ground) |
| Flock.Sheep.New | src/game/sheep.rs:65-76 | a new sheep wanders with a fresh wait in [1.5, 5), a step distance of 2, normal speed 1 and spooked speed 2 |
| Flock.Sheep.Tuned | src/game/sheep.rs:168-171 | the spawned sheep's normal speed is the move speed multiplier, and its spooked speed and step distance are twice that |
| Flock.Sheep.ResetTimer | src/game/sheep.rs:93-100 | a wandering sheep gets a fresh timer for the drawn wait; any other state is unchanged |
| Flock.Sheep.BecomeSpooked | src/game/sheep.rs:102-109 | the state becomes the bark's spook transition of the old state |
| Flock.Sheep.StartAbduction | src/game/sheep.rs:115-121 | the result is true exactly when the sheep was not already being abducted, and the sheep is being abducted afterwards |
| Flock.FreshWaitRestarts | src/game/sheep.rs:93-100 | resetting a wandering sheep's timer gives an unfinished timer of the drawn wait at elapsed 0 |
| Flock.ReturnTimerOverwritten | src/game/sheep.rs:238-241 | the 0.5-second timer set when a sheep calms down is always replaced by the drawn wait |
| Flock.SpookTransitions | src/game/sheep.rs:102-109 | a wandering or evading sheep becomes spooked by the bark, and every other state is unchanged |
| Flock.SpookIdempotent | src/game/sheep.rs:102-109 | a second bark does not change a sheep the first bark spooked: the first danger is kept |
| Flock.LastInRange | src/game/sheep.rs:212-220 | no dog is found exactly when none is within five units; a found dog is one of the dogs and is in range |
| Flock.LastInRangeIsLast | src/game/sheep.rs:212-220 | the dog found is in range and no later dog is: the last one in range wins |
| Flock.ScanPlayers | src/game/sheep.rs:212-220 | the loop over the dogs finds the last dog in range |
| Flock.WanderToEvading | src/game/sheep.rs:212-220 | a wandering sheep starts evading exactly when some dog is within five units, and it then evades the last such dog; otherwise it keeps wandering |
| Flock.EvadingThreshold | src/game/sheep.rs:221-237 | an evading sheep calms down with a fresh wait exactly when the refreshed danger is at least five units away; otherwise it keeps its stored danger |
| Flock.SpookedThreshold | src/game/sheep.rs:238-247 | a spooked sheep calms down with a fresh wait exactly when the bark position is at least ten units away |
| Flock.CountedAndAbductedStay | src/game/sheep.rs:248-257 | sheep being counted or abducted keep their state through the update |
| Flock.BestFrom | src/game/sheep.rs:315-323 | the scan returns the earliest candidate with the largest clamped displacement |
| Flock.PickEvasionDir | src/game/sheep.rs:308-327 | the result is always one of the four candidates; it is the preferred direction when the clamp leaves that step alone, and otherwise the earliest candidate with the largest clamped displacement |
| Flock.EvasionNeverWorse | src/game/sheep.rs:308-327 | the chosen direction moves at least as far after clamping as the preferred one |
| Flock.Steered | src/game/sheep.rs:197-260 | steering changes only the intent and the speed multipliers, never the timer, the hop or the durations; the hop speed changes only for a sheep being counted |
| Flock.SteeredKeepsSane | src/game/sheep.rs:197-260 | steering keeps the controller sane |
| Flock.EvadingStepsAlongCandidate | src/game/sheep.rs:221-237 | an evading sheep still in range moves at normal speed by one step along one of the four evasion candidates, taken away from the refreshed danger |
| Flock.CountedHeadsToGoal | src/game/sheep.rs:248-254 | a sheep being counted, anywhere but on the goal, hops at speed 0.8 with its step a positive multiple of the way to the goal |
| Flock.AbductedStaysPut | src/game/sheep.rs:255-257 | an abducted sheep aims at where it stands, so it never starts a hop |
| Flock.UpdateEvading | src/game/sheep.rs:221-237 | the evading branch leaves the specified next state and steering |
| Flock.UpdateSpooked | src/game/sheep.rs:238-247 | the spooked branch leaves the specified next state and steering |
| Flock.UpdateCounted | src/game/sheep.rs:248-254 | the counted branch leaves the specified steering |
| Flock.UpdateSheep | src/game/sheep.rs:203-259 | one sheep's state and controller become the specified next state and steering of the old ones |
| Flock.UpdateSheepAt | src/game/sheep.rs:203-259 | one iteration of the update: sheep `k` and its controller take the specified next state and steering, and every other sheep and controller is untouched |
| Flock.SheepStateUpdate | src/game/sheep.rs:197-260 | every sheep's state and controller become the specified next state and steering, using each sheep's own position, drawn wait and tuning |
| Flock.WanderTimerNeverRestsFinished | src/game/sheep.rs:178-195 | a wandering sheep's timer restarts on the tick it runs out, so it never rests finished |
| Flock.WanderAimsOneStep | src/game/sheep.rs:178-195 | only a wander timer running out moves the intent, and then to one step along the drawn heading from where the sheep stands; for a unit heading the intent lies exactly one step length away |
| Flock.WanderOne | src/game/sheep.rs:183-193 | one sheep's state becomes its wander tick and its controller its wander intent |
| Flock.SheepWander | src/game/sheep.rs:178-195 | every sheep's state is its wander tick and every controller its wander intent, so only wandering sheep whose timer runs out are redirected |
| Flock.Ascended | src/game/sheep.rs:272-277 | the new height is the old height plus six times the frame time, capped at the UFO's height of 15 |
| Flock.AscentMonotone | src/game/sheep.rs:272-277 | an abducted sheep never sinks and never rises above the UFO |
| Flock.AscentSaturates | src/game/sheep.rs:272-277 | a sheep at the UFO's height stays there |
| Flock.SheepAbductionUpdate | src/game/sheep.rs:262-279 | only abducted sheep rise, and one is despawned exactly when it reaches two units below the UFO; the others are untouched and kept |
| Flock.GoalCheckTransitions | src/game/sheep.rs:290-303 | abducted sheep are skipped, only a sheep being counted can score, and a free sheep within six units of the goal becomes counted |
| Flock.ScoringTakesTwoChecks | src/game/sheep.rs:290-303 | a sheep that is not being counted cannot score in the same check; it must first come within six units and then within the scoring distance |
| Flock.GoalCheckAt | src/game/sheep.rs:288-303 | sheep `k` takes its goal transition and scores exactly when the goal check says so; every other sheep keeps its state |
| Flock.SheepGoalCheck | src/game/sheep.rs:281-305 | every sheep takes its goal transition, exactly the scoring sheep are removed, and the points grow by the number removed; no other game field changes |
| Flock.PointsMatchRemovedSheep | src/game/sheep.rs:290-303 | the sheep kept and the points awarded add up to the flock size |
| Vecs.KeepConcat | src/game/sheep.rs:288-303 | despawning preserves order: the sheep that survive a pass over two runs of the flock are the survivors of the first run followed by those of the second |
| Flock.SheepSpawnParameters | src/game/sheep.rs:141-157 | MoonGravity scales the hop speed by 0.8, adds 0.5 to the hop time and multiplies the jump by 6; HyperSheep scales the hop and move speeds by 1.3 and the time between hops by 0.1; all results are positive, and they are the tuning `SpawnTuning` gives for the two modifiers |
| Flock.SpawnSheep | src/game/sheep.rs:140-176 | a spawned sheep wanders with a fresh wait, its speeds follow the modifiers' tuning, and its controller is the default hop state with the derived multipliers and durations (`SpawnedHop`) |
| Ufos.Ufo.New | src/game/ufo.rs:48-57 | a new UFO's pause has run out, its abduction timer is at 0 of 8 seconds, and it has no target |
| Ufos.NewUfoReady | src/game/ufo.rs:48-57 | a new UFO can pick a target at once but cannot abduct before eight seconds have been ticked |
| Ufos.UfoCount | src/game/ufo.rs:76-95 | no UFO without the Ufo modifier, one with it, and two if FeverDream is active too |
| Ufos.SpawnUfo | src/game/ufo.rs:76-95 | the spawned UFOs number UfoCount, are fresh and distinct, and each is exactly a new UFO at (0, 15, -20): pause over, abduction timer at 0 of 8, no target |
| Ufos.TickAbductionTimers | src/game/ufo.rs:97-102 | both timers of every UFO advance by the frame time, and nothing else changes |
| Ufos.PickTargets | src/game/ufo.rs:104-117 | a pausing UFO drops its target, a UFO with a target keeps it, and any other gets one of the sheep, or none exactly when there are none |
| Ufos.IndexOf | src/game/ufo.rs:136-139 | the target is missing exactly when it is not in the flock, and otherwise its index is found |
| Ufos.StepLength | src/game/ufo.rs:147 | the step never exceeds the UFO's speed over the frame or the remaining distance, and equals one of them |
| Ufos.TowardNeverOvershoots | src/game/ufo.rs:146-151 | a step no longer than the distance lands between the UFO and its target in each coordinate |
| Ufos.TowardFullStep | src/game/ufo.rs:146-151 | a step of the whole distance lands exactly on the target |
| Ufos.UpdateUfo | src/game/ufo.rs:125-169 | the height is pinned; a pausing UFO, one without a target or one whose target is gone is left without a target; otherwise it steps toward the target, and within 0.5 it drops the target; it abducts only if the abduction timer has run out, and both timers reset only if the abduction started; only the target sheep can change |
| Ufos.UpdateUfos | src/game/ufo.rs:119-170 | each UFO ends at its height over the point it flies to (`FlownXz`) and keeps its target exactly while it tracks it from more than 0.5 away; it restarts both timers exactly when it starts an abduction (it grabs its target, which was not being abducted and which no earlier UFO took), and otherwise leaves them; a sheep ends up being abducted exactly when some UFO grabs it, and keeps its state otherwise |
| Ufos.UpdateUfoAt | src/game/ufo.rs:125-169 | one iteration of the loop: the UFO flies to `FlownXz` of its state before the frame, keeps `KeptTarget`, restarts its timers exactly when it grabs a target that was not being abducted, marks exactly the sheep it grabs, and leaves every other UFO as it was |
| Ufos.KeptTarget | src/game/ufo.rs:127-168 | a UFO keeps a target exactly when it is not pausing, the target is still in the flock, and it is more than 0.5 away; the kept target is the old one |
| Ufos.FlownNeverOvershoots | src/game/ufo.rs:141-151 | a UFO tracking a sheep lands between where it was and the sheep in each coordinate |
| Ufos.FlownArrives | src/game/ufo.rs:146-151 | a tracked sheep farther than `EPSILON` but within one frame's flight is reached exactly |
| Ufos.OneAbductionPerSheep | src/game/ufo.rs:153-163 | two UFOs chasing the same sheep never both start an abduction in one frame, since `start_abduction` succeeds only for a sheep not already being abducted |
| Ufos.GrabbedByStep | src/game/ufo.rs:125 | a sheep grabbed by one of the first n+1 UFOs is grabbed by one of the first n or by UFO n, and conversely |
| Players.Player.Default | src/game/player.rs:50-57 | the bark radius is 8 and the cooldown is a 2-second timer at elapsed 0 |
| Players.TickPlayerTimers | src/game/player.rs:59-63 | every player's cooldown advances by the frame time, and the radius is unchanged |
| Players.HandleBark | src/game/player.rs:65-86 | a bark happens exactly when E or Space went down and the cooldown is over; it resets the cooldown and spooks exactly the sheep within the radius (distance squared at most radius squared); otherwise nothing changes |
| Players.BarkCooldownTwoSeconds | src/game/player.rs:72-74 | after a bark the cooldown is unfinished, and it finishes exactly once two seconds have been ticked |
| Players.Axis | src/game/player.rs:94-106 | an axis is 1 or -1 for one key held alone and 0 when neither or both keys are held |
| Players.CollectIntent | src/game/player.rs:93-106 | the collected intent is the pair of axes for left/right and up/down, each in {-1, 0, 1} |
| Players.PlayerIntentUnitOrZero | src/game/player.rs:108-110 | the player stands still exactly when every pair of opposite keys is balanced, and otherwise moves with unit speed, straight or diagonal |
| Players.RecordPlayerDirectionalInput | src/game/player.rs:88-117 | each player controller's intent grows by the normalised input scaled by the speed multiplier and the frame time, then by the multiplier again in `apply_movement`; nothing else changes |
| Herding.TickCountdown | src/game/state/herding.rs:36-45 | the countdown advances and no other game field changes, and the screen becomes the title exactly on the tick that finishes it |
| Herding.CheckPointsGoal | src/game/state/herding.rs:92-96 | the phase moves to the modifier choice exactly when the points reach the target |
| Herding.CeilSqrtFrom | src/game/state/herding.rs:59 | the search returns a side whose square holds `n`, while the square of the next smaller side does not |
| Herding.GridSize | src/game/state/herding.rs:59 | the grid side is the smallest `g` with `g * g >= count` |
| Herding.GridSizeBounds | src/game/state/herding.rs:54-59 | only an empty flock has an empty grid, and the grid side never exceeds the flock size |
| Herding.CellInGrid | src/game/state/herding.rs:64-66 | every sheep's column and row are below the grid side |
| Herding.CellsDistinct | src/game/state/herding.rs:64-66 | different sheep get different cells |
| Herding.SpawnPositionsDistinct | src/game/state/herding.rs:64-67 | different sheep are spawned at different places |
| Herding.GridCentred | src/game/state/herding.rs:60-67 | the grid is centred on the origin: cells k and g - 1 - k are mirror images |
| Herding.OnHerding | src/game/state/herding.rs:47-90 | with no sheep nothing is spawned, not even the player; otherwise each sheep is spawned at its distinct grid place with a fresh wait, its speeds and its fresh hop controller tuned for the active MoonGravity and HyperSheep modifiers, and the player gets the space controller exactly under Space and the hop controller otherwise |
| Herding.Remaining | src/game/state/herding.rs:150-153 | the remaining time is never negative, is zero exactly when the countdown has finished, and is otherwise duration minus elapsed |
| Herding.DisplayedSeconds | src/game/state/herding.rs:154 | the label shows the remaining time rounded up to whole seconds |
| Herding.DisplayedSecondsEnds | src/game/state/herding.rs:150-155 | the label reads 0 exactly when the countdown has finished, and 120 at the start of a round |
| LegacyState.LegacyGameState.Default | src/game/state.rs:44-53 | 10 sheep, a 120-second countdown, no points and a target of 10 |
| LegacyState.LegacyGameState.NewRound | src/game/state.rs:56-59 | the countdown rewinds and the points clear; the sheep count and target are unchanged |
| LegacyState.LegacyGameState.TickCountdown | src/game/state.rs:62-71 | the countdown advances, and the screen becomes the title exactly on the tick that finishes it |
| LegacyState.NewRoundRestartsCountdown | src/game/state.rs:56-59 | a new round starts an unfinished two-minute countdown that just finishes after 120 seconds |
| LegacyState.OnHerding | src/game/state.rs:73-97 | a new round comes first; then one sheep is placed at each grid cell (i % g, i / g) in order, at pairwise distinct places, and none when the count is 0 |

## Left out

- Rendering, UI layout, audio, asset loading, the camera and Bevy's scheduling (system sets, run conditions, state transitions as engine events) are not modelled. A next phase or screen is returned as a value.
- Floating point is modelled as reals: `f32` rounding, `f32::EPSILON` aside, is not captured. The grid side `ceil(sqrt(count))` is modelled as the exact integer ceiling of the square root, which it equals for every `u16` count.
- Integer widths (`u16` sheep count, `u32` money and points, `u8` coins) are unbounded naturals. Every subtraction in the source is guarded, so it cannot wrap. The additions (coins paid for a modifier, a refunded charm, a scored point, a bought sheep, a charm slot) are assumed not to overflow.
- `sqrt` and `length` are the parameter `len`. Results that need a true Euclidean length assume `IsLength(len)`.
- Random draws are oracle parameters. Probabilities are not modelled: the 1-in-4 MaxCharms roll (`random_ratio(1, 4)`) is `lucky`, and `choose` over the sheep is an index `picks[i]` taken modulo the flock size.
- Removing the movement components from an abducted sheep is not modelled. Despawning is modelled as filtering the flock with `Vecs.Keep` by a `kept` flag per sheep.
- `HopMovementController::new` (three- and four-argument forms) and `SpaceMovementController::new` are not part of this model. The player's controller is recorded as `Herding.PlayerController` with its constructor arguments, and the player bundle's own controller is not modelled.
- The old file's sheep spawner `spawn_sheep` is not part of this model. `LegacyState.OnHerding` returns only the grid places.
- Players.HandleBark: models the one player the herding phase spawns. For several players, the first barking player in query order would spook a sheep, and later barks leave it unchanged (`Flock.SpookIdempotent`).
- Flock.SpawnSheep: `jump_height_mult` is computed but not stored, since the hop controller has no such field. Movement.JumpHeight carries no multiplier.
- Ufos.UpdateUfo: the sheep's position comes from the aligned `positions` sequence rather than a query on its transform.
- Movement.HopTranslationEnds: says nothing about a hop's last frame, because `apply_hop_movement` never draws the destination. The tick that ends the hop lands it before drawing (`AirborneNeverFinished`, `LandingKeepsTranslation`). The entity stays at its last drawn point, part-way along and above the 0.5 ground height, until its next hop starts from there (`HopEndsInTheAir`). The model keeps this behaviour as written.
- Ufos.UpdateUfos: the query's iteration order is taken to be the order of `ufos`; which UFO restarts its timers when two grab the same sheep depends on it.
- Ufos.PickTargets: the random choice is an oracle index, so the model does not capture that the choice is uniform.
- The herding and shop UI labels other than the countdown seconds, the sell price shown and the buy-button guard are layout only.
