# Rival Arena: a verified model of the match backend

Rival Arena is a two-player auto-battler. Between shop phases the server fights a round
between two 3x3 boards; the events of the fight are the only thing a client sees of it. Any
number of stateless workers drive a match through one Redis record, the roster actions of a
player run under a leased lock, and PostgreSQL holds the terminal result.

This project models that backend in Dafny and proves what it promises.

* **The combat engine.** `GameTypes`, `BattleSpec` and `BattleStart` say what a battle is, as
  functions on a board of values; `Targeting` and `TurnOrder` show that the source's filters,
  sorts and reductions compute its choices. `Engine` is the engine as it is written: mutable
  units, loops over cycles, ticks and units, a growing log that is rewritten with snapshots.
  Its methods are proved to do exactly what the functions say (`BattleEnds` carries the loops).
  The theorems about whole battles are in `BattleTrace`, `BattleActs`, `BattleReplay`,
  `BattleClient`, `BattleAmounts`, `BattleLife`, `BattleAftermath`, `BattleSlows`,
  `BattleMirror`, `BattleOrder`, `LineUps`, `BattleLog`, `BattleTurns` and `CombatTiming`.
* **The rounds of a match.** `MatchRules` is the arithmetic of damage and match length.
  `RoundProtocol` is the protocol of the workers, one Redis command a step, `RoundSafety` and
  `RoundRace` are what it keeps over every interleaving, and `RoundLaws`, `RoundPreview` and
  `RoundOvertaken` what that means for a match (`MatchPhase` names the phases). `RoundProgress`
  says what an undisturbed round comes to, `RoundBattle` what the engine makes of two stored
  rosters, and `RoundPlays` puts runs together with it.
* **The economy.** `Economy` and `EconomyLaws` are the roster actions as functions and their
  laws, `EconomyEffects` tells each action place by place, `ShopActions` is the same actions step
  by step, `ActionLog` their concurrent execution with the lock and the action log, and
  `ActionProgress` what becomes of one that nobody disturbs.
* **The edges.** `MatchEnd` is the terminal transition with its ratings, `MatchEndSteps` any
  number of such transitions at once, `RoomHandoff` the handoff of a private room to a match,
  `RoomProgress` one attempt at it, `Rng` the two random generators.

A unit is named by its side and slot (`Pos`), which are unique; a board is a map from squares
to units. `Run(...)` always ranges over arbitrary finite interleavings of the steps of
arbitrarily many workers; the Progress modules follow one worker that nobody interferes with to
its end. `BattleActs`, the Progress and Effects modules and the schedules give amounts as
numbers, not through the constants and functions of the model. In the laws of the round protocol the result of each battle is
arbitrary, so they hold whatever the battles yield. In the runs that show a failure it is what a
judge says of the two rosters, for every judge that gives a tie to two empty boards and a win to
a unit without an opponent, as the engine does with any coins (`RoundBattle.EngineDecides`).

Some facts on which the code and its comments differ; the model follows the code:

* Targeting documents a hit-point tie-break for rangers of 0 and 1 star. Slots are unique, so
  it never changes the choice (`Targeting.OneLaneCandidate`).
* A slow is documented to last until its healer acts again. It lasts until she *attacks* again
  or another healer attacks the unit (`BattleSlows.SlowStays`, `SlowEnds`), so the slow of a dead
  healer stays (`BattleAftermath.SlowOfTheDeadStays`).
* Lifesteal is documented for every attack; the event appears from one star on only.
* A tank that revives to half of a maximum of 1 hit point would stand alive at 0. Stored tanks
  have more; the exact condition is `BattleLife.ReviveSoundIff`.
* The flip to `resolved` and the write that follows it are two commands. With both as one step
  the laws of hit points and gold hold over all runs. As two steps they hold over all runs in
  which no advance to the next round comes between the two, and exactly over these
  (`RoundLaws.ScoreIsHistory`, `RoundOvertaken.RaceFreeIff`): after any advance that does, the
  match can go on to a score that its results do not have. In
  `RoundOvertaken.SplitWriteLosesDamage` damage and pay are lost for good.
* The damage preview is documented to tell what the resolution will tell. It does whenever it is
  read in the battle phase of its round; read after the next combat it tells the result of that
  one (`RoundPreview.LatePreviewMisleads`, with the exact condition in `LatePreviewIff`).

## Model

| member | source | states |
|---|---|---|
| Engine.RunBattle | backend/src/game/engine.ts:37-80 | the log of a battle between any two sound line-ups is the rendering of the specified battle on the board of their clones; the draw enters only through the side that begins |
| Engine.RunSeededBattle | backend/src/game/engine.ts:43-44 | the same with the draw taken from the first number of the round's seed, so two line-ups have two possible logs |
| Engine.Battle.RunCycles | backend/src/game/engine.ts:48-79 | at most 30 cycles, a wipe check after each, one battle_end; the loop reaches exactly the specified end |
| Engine.Battle.CloseCycle | backend/src/game/engine.ts:66-75 | cycle_end, then battle_end with the verdict of the board exactly if a side is wiped out |
| Engine.Battle.RunTicks | backend/src/game/engine.ts:49-64 | the 100 ticks of a cycle, milestone by milestone |
| Engine.Battle.RunTick | backend/src/game/engine.ts:50-63 | filtering, sorting and running the acting units is the specified queue of the tick |
| Engine.Battle.TakeTurn | backend/src/game/engine.ts:55-63 | one turn: a unit killed earlier in the tick is skipped, all others act and their events get the snapshot |
| Engine.Battle.AttachSnapshots | backend/src/game/engine.ts:60-62 | rewrites exactly the entries from the index on, each with the board as it is now |
| Engine.Battle.UnitAct | backend/src/game/engine.ts:124-178 | one act on mutable units changes board and log as specified and nothing else |
| Engine.Battle.PickTarget | backend/src/game/targeting.ts:22-67 | the unit found in the arrays stands on the specified target square, and null means there is none |
| Engine.Battle.LowestHpAlly | backend/src/game/abilities.ts:203-213 | the weakest living ally other than the excluded one, or null exactly if there is none |
| Engine.Battle.ApplyDamage | backend/src/game/damage.ts:16-81 | revive, death before attack, or attack alone, with the state each leaves |
| Engine.Battle.ApplyLifesteal | backend/src/game/abilities.ts:22-44 | the fighter regains its share, never above its maximum, and logs it |
| Engine.Battle.ApplyPierce | backend/src/game/abilities.ts:51-101 | spills onto the living enemy directly behind the target, if there is one, and onto nobody else |
| Engine.Battle.ApplyHealerSupport | backend/src/game/abilities.ts:109-123 | heals the weakest ally and, at two stars, then the weakest of the others |
| Engine.Battle.HealOne | backend/src/game/abilities.ts:173-200 | up to 10 points, no event when nothing is missing |
| Engine.Battle.ApplySlow | backend/src/game/abilities.ts:129-157 | the target runs at the rounded 0.7 of its base speed and belongs to this healer |
| Engine.Battle.ClearHealerSlows | backend/src/game/abilities.ts:163-171 | releases exactly the units that this healer had slowed |
| Engine.OrderForTick | backend/src/game/engine.ts:105-122 | a sorted list without repetitions of exactly the given units |
| Engine.NewBattle | backend/src/game/engine.ts:38-41 | fresh clones, so no unit of the caller is touched, on the board of the instances |
| TurnOrder.SortedIsActingOrder | backend/src/game/engine.ts:105-122 | any list of the acting squares that the comparator leaves in place is the one queue of the tick |
| TurnOrder.ActingOrderAscending | backend/src/game/engine.ts:50-53 | the queue holds exactly the living units whose cooldown lands on the tick, each once, in strictly rising order |
| Targeting.PickTargetIsTarget | backend/src/game/targeting.ts:22-67 | the source's filters, row scan, sort and reduce choose the least enemy: own lane first, then column and row; for a 2-star ranger by hit points, column and row; with the 2-star tank overlay |
| Targeting.TargetNoneIff | backend/src/game/targeting.ts:26-27 | null exactly when no enemy lives |
| Targeting.OneLaneCandidate | backend/src/game/targeting.ts:44-66 | with unique slots a lane offers one candidate, so the ranger tie-break is void |
| Targeting.LowestHpIsLeast | backend/src/game/targeting.ts:78-94 | sorting then reducing yields the strict minimum by hit points, column and row |
| Targeting.AllyIsLeader | backend/src/game/abilities.ts:203-213 | the reduce over allies yields the strict minimum by hit points and id |
| BattleTrace.BattleRuns | backend/src/game/engine.ts:48-79 | a whole battle is a chain of legitimate acts, each starting on the board that the last one left |
| BattleActs.RunLogs | backend/src/game/engine.ts:124-178 | every act of a battle aims at the unit that the targeting rules name, and logs exactly these events in this order: revive at half the maximum, death before attack, a lifesteal of 1 or 3 and a heal of 10 as far as they are missing, a spill of 1 onto a living unit directly behind, the second heal, the slow; and no others |
| BattleReplay.RunReplays | backend/src/game/damage.ts:16-81 | redoing the events from the initial board gives the real board at every act boundary, whether one redoes the hit points that they tell or the damage and healing that they tell |
| BattleReplay.ActReplays | backend/src/game/engine.ts:124-178 | redoing the events of one act, whatever the board, gives the board after it |
| BattleClient.EntryShowsReplay | backend/src/game/engine.ts:55-79 | the snapshot on any log entry shows, for every unit in array order, its id, kind, star and maximum as at the start, and the hit points and life that one gets by redoing all events up to the end of its act |
| BattleAmounts.RunProper | backend/src/game/constants.ts:28-57 | every event of a battle is caused by a kind and star that may cause it, with the damage of a literal table, heals of 1 to 10, a pierce of 1 and a lifesteal of at most 1 or 3 |
| BattleLife.HurtKeepsFit | backend/src/game/damage.ts:24-62 | a hit keeps 0 <= hp <= maxHp and alive iff hp > 0 |
| BattleLife.ReviveSoundIff | backend/src/game/damage.ts:26-46 | a revived tank has hit points exactly if its maximum is at least 2 |
| BattleLife.ActFair | backend/src/game/engine.ts:124-178 | an act keeps all units fit, harms only the other side, wakes nobody, and names only units that lived when it began |
| BattleLife.AtMostOnce | backend/src/game/damage.ts:24-62 | each unit has at most one death and one revive event, exactly if the boards before and after say so |
| BattleLife.DeadAreLeftAlone | backend/src/game/engine.ts:55-63 | a dead unit never acts again and no later act names it |
| BattleAftermath.OnlyItsKillerNamesIt | backend/src/game/damage.ts:48-80 | after its death event only the killing attack and that act's own slow name a unit, to the end of the battle |
| BattleLife.NeverBothWiped | backend/src/game/engine.ts:68-75 | if anybody lives at the start, somebody lives at every act boundary |
| BattleLife.WinnerIsSurvivor | backend/src/game/engine.ts:66-79 | battle_end names a side exactly if it lives and the other is wiped out; nobody exactly after 30 cycles or on a board that was dead from the start |
| BattleSlows.ActPaces | backend/src/game/abilities.ts:129-171 | what an act does to each unit's slow flag, owner and speed, for every kind of actor |
| BattleSlows.RunKeepsSlowsSound | backend/src/game/abilities.ts:129-171 | at every act boundary a unit is slowed iff it has an owner, its speed fits, the owner is an enemy healer with a star, and no healer owns two slows |
| BattleSlows.SlowStays | backend/src/game/abilities.ts:159-171 | a slow stays over every stretch of acts in which its owner does not attack and no other healer with a star attacks the unit |
| BattleSlows.SlowEnds | backend/src/game/abilities.ts:129-171 | an attack of its owner, or of another healer with a star on the unit, ends a slow: the unit runs free, or belongs to the attacker |
| BattleAftermath.SlowOfTheDeadStays | backend/src/game/abilities.ts:159-171 | the slow of a dead healer stays to the end of the battle unless another healer takes the unit over |
| LineUps.SwappedLineUps | backend/src/game/engine.ts:37-80 | calling the engine with the two line-ups swapped, and the coin with them, gives the same log with sides, squares and winner swapped, entry by entry, and the other half of each snapshot listed first |
| LineUps.PermutedLineUps | backend/src/game/engine.ts:37-80 | with at most one 2-star tank in each array, any order of the two arrays gives a sound call with the same events and the same snapshots up to their order |
| LineUps.ReorderedLineUps | backend/src/game/targeting.ts:40-41 | the same for any two orders of the arrays that list the 2-star tanks alike |
| BattleOrder.OrderIrrelevant | backend/src/game/targeting.ts:40-41 | two array orders that list the 2-star tanks alike give the same battle |
| BattleOrder.SameTankIff | backend/src/game/targeting.ts:40-41 | two listings pick the same 2-star tank in every state of the units iff they list those tanks in the same order |
| BattleTurns.SteadyTurns | backend/src/game/constants.ts:84-88 | a unit that lives through a cycle at one speed has exactly floor(100 / cooldown) turns among the acts of the cycle |
| BattleTurns.TurnsPerCycle | backend/src/game/engine.ts:48-64 | in every cycle of a battle, with slows and releases at any moments, a unit has at most 2 turns (tank, fighter), 3 (healer) or 4 (ranger) |
| BattleTurns.DueOnSchedule | backend/src/game/constants.ts:66-88 | on each tick exactly the living units act that are due: a fighter on 80 (slowed: 86), a healer on 50 and 100 (65), a ranger on 33, 66 and 99 (53), a tank on 100 |
| BattleTurns.BattleOnSchedule | backend/src/game/engine.ts:48-64 | in a whole battle, whatever happens to their pace, units act on ticks of these two schedules of their kind only |
| BattleTurns.SidesThenSpeeds | backend/src/game/engine.ts:105-122 | among those due, the side that begins goes first, within a side the faster unit, and of two equally fast ones the lower slot |
| BattleLog.BattleSize | backend/src/game/engine.ts:48-79 | n units emit at most 480n + 31 events |
| BattleLog.BattleOrdered | backend/src/game/engine.ts:48-64 | the log is ordered by cycle and tick, up to cycle 30 |
| BattleLog.BattleWellClosed | backend/src/game/engine.ts:66-79 | cycle_end 1 to k, then one battle_end at cycle k, which is the last event |
| CombatTiming.BattleTiming | backend/src/runtime/combat-timing.ts:15-46 | the cached result outlives the timeout by 30 to 31 seconds; every visible event can be played in time; the timeout is bounded by the size of the board |
| CombatTiming.TimeoutIs | backend/src/runtime/combat-timing.ts:15-42 | a setting from 250 to 300000 ms other than 60000 is used as it is; otherwise the timeout is 60 s, or 800 ms for each event shown plus 5 s where that is more |
| BattleStart.UnitsFromBoardAre | backend/src/runtime/match.runtime-state.ts:181-205 | a stored board is refused exactly for an unreadable entry; otherwise all its units are loaded by rising slot |
| BattleStart.StartIsSound | backend/src/runtime/match.runtime-state.ts:181-205 | two stored boards without a shared id meet all preconditions of the engine, and start fit iff no starred tank has a maximum below 2 |
| BattleStart.BattleOfStored | backend/src/runtime/match.runtime-state.ts:181-205 | the battle board is the two stored boards, square by square: kind, star and id as stored, the maximum and hit points where they are usable and the literal base otherwise, alive unless without hit points, at full pace |
| BattleStart.BattleOfInstances | backend/src/game/engine.ts:82-89 | the battle board holds, for every unit of the call and for nobody else, a copy of all its fields, with the defaults for those left out |
| RoundBattle.RostersFight | backend/src/runtime/combat.coordinator.ts:61-66 | the board of a round's battle is the two rosters, with the id, kind, star and hit points of each unit on its square |
| RoundBattle.JudgeNamesLast | backend/src/runtime/match.runtime.adapter.ts:780-786 | the winner of a round is the one that the last event of the engine's log on the two rosters names |
| RoundBattle.LivingSideWins | backend/src/runtime/match.runtime.adapter.ts:780-786 | a battle that starts with no living unit on one side names the other side in its log if that side has one, and nobody if neither has, whatever the coin |
| RoundBattle.EngineDecides | backend/src/runtime/combat.coordinator.ts:61-66 | from two stored rosters, whatever the coins: two empty boards tie, and one fresh unit against an empty board wins |
| MatchRules.PlayIsClosed | backend/src/runtime/match.runtime.adapter.ts:788-869 | the score is 100 minus the sum of 5 min(i, 5) over the lost rounds minus 5 per tie, for both sides, with the wipe counters |
| MatchRules.OrderOfRoundsIrrelevant | backend/src/runtime/match.runtime.adapter.ts:788-839 | matches with the same results in any order have the same score |
| MatchRules.EndsWithin21 | backend/src/runtime/match.runtime.adapter.ts:824-869 | a match that is still going on has had at most 20 rounds, so every match ends within 21 |
| MatchRules.TwentyRoundsOngoing | backend/src/matchmaking/matchmaking.service.ts:161-169 | a match that is alive after 20 rounds, so that 21 is attained |
| MatchRules.DrawIff | backend/src/runtime/match.runtime.adapter.ts:861-867 | a draw comes exactly from a tied round in which both sides have at most 5 hit points left |
| MatchRules.WonIff | backend/src/runtime/match.runtime.adapter.ts:861-867 | a side wins exactly if it has hit points left and the other has none |
| RoundProtocol.RunClimbs | backend/src/redis/scripts/phase_flip.lua:14-26 | over every interleaving, lease or no lease, (round, phase) never falls back and finished is final |
| RoundProtocol.LeftAtMostOnce | backend/src/runtime/match.runtime.adapter.ts:360-609 | each phase of each round is left at most once, so a combat is launched and resolved at most once per round |
| RoundRace.RunSound | backend/src/runtime/combat.coordinator.ts:35-119 | the whole invariant of record, cached result and pending work, over every run with flip and write as one step and over every run with two in which no advance overtakes a write, there as soon as the one pending write is done |
| RoundLaws.ScoreIsHistory | backend/src/runtime/match.runtime.adapter.ts:481-564 | over the same runs the stored hit points are the closed form of the settled results, and gold with invested gold is 5 per round begun: at rest at once, otherwise as soon as the one pending write is done |
| RoundLaws.MatchEndsBy21 | backend/src/runtime/match.runtime.adapter.ts:481-609 | over the same runs no match reaches or settles a 22nd round |
| RoundLaws.ResolvesWhatIsStored | backend/src/runtime/match.runtime.adapter.ts:481-523 | over the same runs a worker that wins the flip to resolved used the stored score and rosters, and the result of the battle that these rosters fought |
| RoundProgress.ResolverTellsAndWrites | backend/src/runtime/match.runtime.adapter.ts:481-564 | over the same runs such a worker sends, for both sides, the stored hit points, the damage (0 for the winner, 5 each for a tie, 5 to 25 for a defeat) and what is left, and its commands write exactly that, with 5 gold for both if both live and the match finished otherwise |
| RoundProgress.RoundRuns | backend/src/runtime/match.runtime.adapter.ts:360-609 | from any shop phase with the combat lock free, a worker that nobody disturbs takes the round through combat, resolution and advance to the next shop phase, or to the end, with the hit points that the message tells and the lock free again |
| RoundProgress.ForfeitRuns | backend/src/runtime/match.runtime.adapter.ts:433-447 | an undisturbed surrender or disconnect finishes a live match in whatever phase, and changes nothing else |
| RoundProgress.OutOfPhase | backend/src/runtime/match.runtime.adapter.ts:360-609 | a handler that comes too early, too late or twice changes nothing |
| RoundProgress.OvertakenStops | backend/src/runtime/combat.coordinator.ts:35-119 | a worker whose next command finds that others have overtaken it stops without running or caching a battle, and gives back the lock if it holds it |
| RoundProgress.LateWriteRestores | backend/src/runtime/match.runtime.adapter.ts:497-547 | the write of a resolution stores what was read before the flip, however late it comes, and so undoes whatever was committed since |
| RoundProgress.RosterActionRuns | backend/src/redis/scripts/action_log.lua:21-33 | an undisturbed action of the shop phase puts the roster that it yields in place of the acting side's, and a refused one changes nothing |
| RoundPreview.PreviewTellsTheRound | backend/src/runtime/match.runtime.adapter.ts:382-382 | a preview that is read while its round's battle phase lasts reads the very result with which the round is resolved, and tells the final damage in the figures of the record that is resolved, whatever was committed between the reads |
| RoundPreview.PreviewIsFinal | backend/src/runtime/match.runtime.adapter.ts:800-869 | preview and final damage message of a round agree whenever they use the same result, at whatever points of the run |
| RoundPreview.LatePreviewIff | backend/src/runtime/match.runtime.adapter.ts:805-824 | a preview of a settled round tells the settled damage if the cached result is of its own round, and otherwise only by the coincidence of an equal winner |
| RoundPreview.LatePreviewMisleads | backend/src/runtime/match.runtime.adapter.ts:805-824 | a run without a race, with every battle judged as by the engine, in which the preview of a tied first round tells player 2 of a defeat, from a second round that player 1 wins with a bought unit |
| RoundOvertaken.OvertakingLoses | backend/src/runtime/match.runtime.adapter.ts:497-609 | with flip and write as the two commands that they are: whenever an advance overtakes a pending write, lethal or not, the match can go on, overtaking nothing more and with every battle judged as by the engine, to a score that its results do not have |
| RoundOvertaken.LawfulStepIff | backend/src/runtime/match.runtime.adapter.ts:497-609 | after one more move of a run without a race every such continuation is lawful if and only if the move overtakes no write |
| RoundOvertaken.RaceFreeIff | backend/src/runtime/match.runtime.adapter.ts:497-609 | a run overtakes nothing if and only if at each of its points every continuation that overtakes nothing, with judged battles, is lawful |
| RoundOvertaken.WrittenAtOnce | backend/src/runtime/match.runtime.adapter.ts:497-547 | an overtaken write that comes before anything reads does no harm: the state is lawful, and finished, in a round already begun, if and only if the result is lethal |
| RoundOvertaken.SplitWriteLosesDamage | backend/src/runtime/match.runtime.adapter.ts:497-547 | a run of judged battles with one overtaken write, after which a player has 100 hit points and 5 gold for 95 and 10 |
| EconomyLaws.ActionKeepsWealth | backend/src/shop/shop.service.ts:95-218 | buy, sell, refresh, fuse and place preserve gold plus invested gold |
| EconomyLaws.ActionKeepsSound | backend/src/shop/shop.service.ts:95-218 | no debts, every unit worth cost * 2^star, no instance twice, after every action |
| EconomyLaws.WealthIsFivePerRound | backend/src/runtime/match.runtime.adapter.ts:528-529 | over any season of actions and rounds wealth is 5 per round |
| EconomyLaws.MergedIsFair | backend/src/shop/shop.service.ts:370-375 | merging two equal fairly priced units gives a fairly priced one of the next star |
| EconomyLaws.BuyUnits | backend/src/shop/shop.service.ts:95-117 | a purchase adds one new unit of the offered kind and changes no other |
| EconomyLaws.BuyIff | backend/src/shop/shop.service.ts:103-113 | a purchase succeeds exactly with an offer, enough gold and a free bench slot |
| EconomyLaws.SellUnits | backend/src/shop/shop.service.ts:119-137 | a sale takes exactly the unit on the spot and no other |
| EconomyLaws.SellUndoesBuy | backend/src/shop/shop.service.ts:119-137 | selling a fresh purchase restores gold and roster |
| EconomyLaws.FuseUnits | backend/src/shop/shop.service.ts:161-218 | a fuse replaces exactly two equal units by one of the next star |
| EconomyLaws.FusePairIff | backend/src/shop/shop.service.ts:177-197 | two named units fuse exactly if owned, of the kind, and of one star below 2 |
| EconomyLaws.FuseAnyIff | backend/src/shop/shop.service.ts:203-216 | without names a fuse succeeds exactly if the roster holds two equal units of the kind |
| EconomyLaws.PlaceUnits | backend/src/runtime/match.runtime.adapter.ts:292-317 | a move changes, loses and doubles no unit |
| EconomyLaws.PlaceUndoesPlace | backend/src/runtime/match.runtime.adapter.ts:292-317 | moving a unit back restores the hand |
| EconomyEffects.BuyIs | backend/src/shop/shop.service.ts:95-117 | a purchase pays 1, 1, 2 or 2 gold, removes this offer, and puts a 0-star unit at full hit points on the first free bench slot; each refusal comes exactly for its reason |
| EconomyEffects.SellIs | backend/src/shop/shop.service.ts:119-137 | a sale pays the noted gold, or the price doubled for each star where none is noted, and empties exactly that slot |
| EconomyEffects.RefreshIs | backend/src/shop/shop.service.ts:139-159 | the first refresh of a phase deals the offers of the next count and leaves the rest alone; a second one is refused |
| EconomyEffects.RefreshedOnce | backend/src/shop/shop.service.ts:139-159 | over any actions of a phase at most one refresh goes through, and the count rises with it alone |
| EconomyEffects.FusePairIs | backend/src/shop/shop.service.ts:176-200 | of two named units the target rises by a star where it stands, at full hit points and with the gold of both; the source's place is free, and every other place as before |
| EconomyEffects.FuseAnyIs | backend/src/shop/shop.service.ts:203-217 | without names the lowest star that has a pair is fused: its first unit in roster order rises and the second one goes; it is refused iff no star below 2 has a pair |
| EconomyEffects.FuseIs | backend/src/shop/shop.service.ts:170-217 | a request with both ids fuses as named, one with none fuses the lowest pair, and one with a single id is refused; what each refusal means |
| EconomyEffects.PlaceIs | backend/src/runtime/match.runtime.adapter.ts:289-317 | a unit moves to a free place of either row and leaves its own free, or stays; each refusal comes for its reason |
| ShopActions.Perform | backend/src/shop/shop.service.ts:220-248 | an action done step by step on its context commits what the value-level action yields, and nothing at all when it fails |
| ShopActions.ActionContext.Buy | backend/src/shop/shop.service.ts:102-116 | same result or same error as the value-level purchase |
| ShopActions.ActionContext.Fuse | backend/src/shop/shop.service.ts:170-217 | same result or same error as the value-level fuse, on both paths |
| ShopActions.ActionContext.Place | backend/src/runtime/match.runtime.adapter.ts:289-317 | same result or same error as the value-level move |
| ActionLog.SerialIff | backend/src/shop/shop.service.ts:220-316 | over any run, whatever leases end and whenever the round protocol writes: roster and shop are at each point the accepted actions folded in commit order, each of which succeeds, if and only if no accepted commit stores something else than its action makes of what is stored by then |
| ActionLog.SpoilsIsStale | backend/src/shop/shop.service.ts:220-316 | such a commit has read something else than what is stored: a lapse without a write between read and commit does no harm |
| ActionLog.ActionsAreSerial | backend/src/shop/shop.service.ts:401-414 | if leases outlive critical sections and no settling write lands in one, there is no such commit |
| ActionLog.CommitsOnceInItsRound | backend/src/redis/scripts/action_log.lua:21-33 | lease or no lease, an id commits at most once, in the shop phase of the round it was asked for |
| ActionLog.RetryChangesNothing | backend/src/shop/shop.service.ts:220-316 | over any run, lease or no lease: once an id has been used, no later command of a worker that runs or retries an action with it changes anything but the lock |
| ActionProgress.RequestRuns | backend/src/shop/shop.service.ts:220-316 | a request, of either kind, that nobody disturbs is committed to what its operation makes of the stored hand, exactly if its id is fresh, round, phase and shop are its own and the operation succeeds; otherwise nothing is stored; the lock is free again either way |
| ActionProgress.AbandonedLock | backend/src/shop/shop.service.ts:401-414 | as long as it keeps trying, a request waits for a lock whose holder has died, without storing anything, until the lease ends, and then goes through |
| ActionLog.OthersLockStays | backend/src/shop/shop.service.ts:469-480 | no step of one worker takes the lock from another |
| ActionLog.LateCommitLosesASale | backend/src/shop/shop.service.ts:401-414 | a run in which a lease ends too early, two sales are accepted and one is lost |
| MatchEnd.MatchStore.Finalize | backend/src/match/match.service.ts:137-231 | one call, step by step, does to row, ratings, jobs and messages what the value-level call does |
| MatchEndSteps.EndsOnce | backend/src/match/match.service.ts:137-231 | over every interleaving of the transactions, job enqueues and publishes of any number of calls, failing anywhere: either nothing is touched, or the first transaction that is not refused decides row and ratings for good, its message alone goes out, at most once, and never before a cleanup is scheduled |
| MatchEndSteps.CallIsItsSteps | backend/src/match/match.service.ts:137-231 | the steps of one call, undisturbed and with its failure, do what the value-level call does |
| MatchEnd.RatingsMove | backend/src/match/match.service.ts:160-190 | the winner never drops, the loser never rises, nobody else moves; the sum is kept iff the loser can pay, and grows by the rest otherwise |
| MatchEnd.MessageTellsStored | backend/src/match/match.service.ts:217-226 | the published ratings are those before and those stored |
| MatchEnd.EloDeltaSign | backend/src/match/match.service.ts:305-308 | the delta of a win is 0 to 32 and that of a loss -32 to 0, for every expectation between 0 and 1 |
| MatchEnd.EloDeltaIs | backend/src/match/match.service.ts:305-308 | the delta is 32 * (score - expectation) to the nearest point, a half going up |
| MatchEnd.MatchEnds | backend/src/match/match.service.ts:137-231 | a call ends a match exactly if it is in progress and names nobody or one of two known players; then the row has its winner and the status of its reason, the winner gains 32 * (1 - chance) rounded and the loser pays it down to zero, and job and message go out as far as nothing fails |
| MatchEnd.OthersEndNothing | backend/src/match/match.service.ts:143-157 | any other call leaves row, ratings and messages as they are, and on a closed match only schedules the cleanup again |
| MatchEnd.MatchStore.UpdateRating | backend/src/user/user.service.ts:122-131 | adds the delta, clamped at zero, to one player |
| RoomHandoff.AtMostOneMatch | backend/src/room/room.service.ts:333-447 | over any triggers, failures, crashes and endings, and any lapses but those under a holder that may still create: a room has at most one match in progress, and everybody is told the same match |
| RoomHandoff.OrphanIsAdopted | backend/src/room/room.service.ts:381-386 | the next claim adopts the match that a failed attempt left behind, and records it unless one is recorded |
| RoomHandoff.RecordedForGood | backend/src/redis/scripts/room_match_done.lua:22-31 | a recorded match stays recorded, claim or no claim |
| RoomHandoff.LapsedClaimMakesTwo | backend/src/redis/scripts/room_start_match.lua:15-21 | whenever a claim lapses under a holder that may still create, the run can go on, with no other such lapse, to two matches in progress |
| RoomHandoff.TimelyIff | backend/src/redis/scripts/room_start_match.lua:15-21 | no claim lapses under a holder that may still create if and only if at each point every continuation without such a lapse keeps one match |
| RoomProgress.HandoffRuns | backend/src/room/room.service.ts:333-447 | an attempt on a ready room that nobody disturbs creates the match of owner and guest, records it, tells it and leaves no claim |
| RoomProgress.FailedCreation | backend/src/room/room.service.ts:386-395 | if the match cannot be created, the claim is free again and nothing else has changed |
| RoomProgress.FailedInitialization | backend/src/room/room.service.ts:386-395 | if it fails after the row is made, the claim is free again and the row stays behind |
| RoomProgress.AdoptionRuns | backend/src/room/room.service.ts:378-385 | a match that one of the two is in already is recorded and told, and none is made |
| RoomProgress.LateAttempt | backend/src/room/room.service.ts:343-364 | a room that is not ready yields no match: a recorded one is told again, and otherwise nothing changes |
| RoomProgress.CrashedClaim | backend/src/redis/scripts/room_start_match.lua:15-21 | a claim left by a crash turns every attempt away until it lapses; then the room is ready again |
| Rng.SameStream | backend/src/game/seeded-rng.ts:14-23 | from every seed the unsigned and the signed generator emit the same numbers, all in [0, 1) |
| Rng.StateAfter | backend/src/game/seeded-rng.ts:14-18 | the state after n draws is the seed plus n * 0x6D2B79F5 modulo 2^32 |
| Rng.KnownDraw | backend/src/game/seeded-rng.ts:14-23 | the first number from seed 0 is 1144304738 / 2^32 in both generators |
| Rng.EngineRng.Draw | backend/src/game/seeded-rng.ts:16-22 | one call advances the state and returns the next number of the stream |
| Rng.ShopRng.Draw | backend/src/shop/shop.service.ts:459-467 | the same for the signed closure |
| Rng.PoolShares | backend/src/shop/shop.service.ts:28-33 | the pool answers exactly the rolls below 100, at 40, 40, 15 and 5 percent |
| Rng.GenerateOffers | backend/src/shop/shop.service.ts:68-85 | five offers from the first five draws, none of them missing |

## Left out

- Ids are ranks under the order that localeCompare induces; hit points and ratings are integers; the fractions 0.05, 0.1, 0.5 and 0.7 are exact rationals, where the source computes in floating point.
- The engine's references to units become squares; that slots are unique per side and ids unique is what the stored boards guarantee, not what the engine checks.
- Units in a roster are values in slots, so the aliasing of a unit object between roster and entry list is not modelled.
- The loops of the pure list operations (filter, sort, reduce, findIndex on entries) are recursive functions.
- ActionLog.ActionsAreSerial: assumes that leases outlive critical sections and that no settling write lands in one (`SerialIff` is the law without that); a round's shop is rolled before the round ends, and ids in the log do not expire.
- RoomHandoff.AtMostOneMatch: takes owner and guest as fixed; joins and leaves during a handoff are not modelled.
- Ready flags and combat acknowledgements only trigger handlers, which here may start at any time; nothing is claimed about both acknowledgements being fresh.
- Expiry of the runtime hash, the action log, the cached result and the room tombstone; liveness after a crash.
- Redis delivery and SQL: a script or a locked transaction is one step. Publishing, queues, cleanup jobs beyond their count, statistics, leaderboard, history, matchmaking queue.
- The expected score of a rating change is any real between 0 and 1; SHA-256 seeds and UUIDs are arbitrary values.
- An empty string as an instance id in a fuse request, which the source treats as absent.
- REST, WebSocket, validation, guards, logging and the mobile client.
