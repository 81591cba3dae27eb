# Battle server: scheduler, reply protocol and wire codec, proved

This project models three parts of a game server and proves what they promise.

**The move-gauge scheduler.** Every unit's gauge fills at its own speed; the fullest unit acts and
its gauge is emptied. A roll runs the real gauges to the next full one and publishes a queue by
simulating copied gauges under a loop budget. Ending a turn ticks damage over time, skips units
that cannot act, ages gauge blocks and breaks the deadlock in which everybody is blocked.
`GaugeRace`, `RaceRun`, `RaceCount` and `Projection` treat the race on plain gauges and speeds;
`Units`, `TurnQueue`, `Turns`, `TurnTheorems`, `Blocks`, `Calm`, `Frozen`, `Stalls`, `Unheld` and
`Steady` the battle built on it.

**The reply protocol.** The client drives the fight by asking. It has one command slot and its own
picture of who is standing, so a reply must never hold two commands, no death may go untold, a
wave may not end with news still queued, and every judge must be answered. `StatusRows`, `News`,
`Outbound`, `Replies`, `Delivery`, `ClientPicture`, `Sessions` and `NoDeathUntold` cover the
queues, the replies and whole sessions with a ghost picture of the client; `Bearings`, `Told` and
`RemovalsFound` follow every status change from the field to the client; `Lineage`, `Reach`,
`Resume` and `Lives` cover reachable battles, save and resume, and the battle record; `Witnesses`
and `StatusWitnesses` hold the inputs at which a promise is not kept.

**The wire codec.** `Bits`, `Rc4`, `Framing`, `Protobuf` and `Rpc` cover the RC4 stream, checksummed
frames over a stream that arrives in pieces, protobuf fields as in Google's Protocol Buffers
"Encoding" document (sections "Base 128 Varints", "Signed Integers" and "Length-Delimited Records"),
and the packing and parsing of remote calls.

## How it is built

Specifications are functions on values; the objects are classes whose methods update fields in
place and are proved against those functions.

* `BattleUnit.Unit`, `Battlefield.Battle` and the methods of `BattleServer` follow the program's
  objects and loops. `Battle.State()` is the battle as a value, and each method's contract equates
  the new state with a function of the old one, so that everything proved of the functions holds of
  the objects. `BattleSteps` holds the loops that touch no object and what each loop has done after
  `n` passes. `Rc4.Cipher` and `Framing.Socket` do the same for the stream.
* Most of those methods follow their functions step by step, and need proof only to keep units
  apart and the rest of the state still. The refinement has content where a loop meets a recursive
  function or a closed form: ageing statuses in place, running blocks down, filling gauges, the
  budgeted projection, the drain, and rebuilding a battle. The methods without a row of their own
  are covered by the whole operations that call them (`EndTurn`, `AdvanceWave`, `BattleReplies`).
* Gauges and speeds are reals. In exact arithmetic the guard against rounding at a full gauge is
  idle, which `BattleSteps.LeadIsFull` proves.
* The effect engine is an oracle: passives, skill resolution and the chooser may return any list
  of effects or any move for any state, except that nothing raises the dead. `Env` holds all of it,
  together with the stage. A result that asks more of passives says so in its own contract.
* The battle is `Reach.NewBattle` followed by any requests, and any restarts of the server in
  between (`Lives.Live`).

## What the proofs found

Where the code and its comments disagree the model follows the code.

* The projection's budget of n*n+n passes is called ample. It is under a bound on the speeds
  (`Projection.BudgetSuffices`) and not otherwise (`Projection.BudgetCanFail`); `Projection.PublishedIff`
  says exactly who is published.
* Queued status rows travel behind the attack's own rows although they happened earlier. This is
  harmless exactly when no unit and status is named by both with different outcomes
  (`StatusRows.DrainOrder`, `Told.AttackCatchesUp`), and can lose a status (`Told.RegrantLost`).
* The collapsing rule is meant to keep a removal from reaching a client that does not hold the
  status, which stops the fight. `RemovalsFound.AttackFinds` says exactly when it does. It fails for
  a status granted at battle start, which is reported to nobody (`StatusWitnesses.GrantBreaks`); for
  one that is on record as told though the client has counted it out
  (`StatusWitnesses.StaleRecordBreaks`); and for a removal queued when the client rejoins or when
  the battle opens (`StatusWitnesses.RejoinLevel`, `StatusWitnesses.BattleOpensLevel`).
* A wave change throws queued deaths away, and what battle-start passives do is announced by
  nothing. The client stays informed exactly when it draws no dead member of the party at that
  moment and the opening kills none who lives (`Sessions.AdvanceInforms`). The first holds in every
  session that changes waves only on a reply that ended one; out of order it fails in two requests
  (`Witnesses.OutOfOrderLoses`), and the second can fail in an orderly session too
  (`Witnesses.OrderlyLosesToo`).
* The cap on skipped turns can bite, and then the turn goes to a unit that cannot take it, even with
  somebody else alive and free (`Stalls.StallWithSomebodyFree`). On a field without blocks or passing
  speed effects `Stalls.CapBites` says exactly when, from gauges, speeds, durations and hit points;
  deaths alone never reach the cap (`Unheld.DeathsNeverCap`). Below the cap the head can act unless a
  turn-start passive has just killed it (`TurnTheorems.EndTurnHead`, `Witnesses.DeadHeadSeated`).
* Resuming a battle gives back everything that is saved, but not a slot exchange or a banked gauge
  gain, which are not saved (`Resume.ResumeIsExact`, `Witnesses.SwapIsForgotten`).

## Model

| member | source | states |
|---|---|---|
| GaugeRace.Best | server/battle.py:2573-2574 | the winner among simultaneous finishers: there is one exactly when some candidate exists, it is a candidate, and no candidate outranks it (SPD, then team, then slot, then field order) |
| GaugeRace.LeastGap | server/battle.py:2608 | the shortest time any unit that can fill still needs: none exactly when nobody can fill, otherwise attained by one of them and exceeded by none |
| GaugeRace.SettleOne | server/battle.py:1973-1976 | running the gauges on to the next full one never overshoots: a gauge that may move gains exactly its speed times the wait, and the cap at 100 is never what stops it |
| GaugeRace.SettleFills | server/battle.py:2608-2615 | after running on somebody is full, exactly when somebody was full already or can fill |
| GaugeRace.NextIsFull | server/battle.py:2624-2642 | the next to act exists exactly when somebody is full or can fill, then stands at a full gauge, and leads everybody else who is full |
| RaceRun.Conserved | server/battle.py:1973-1976 | conservation over a whole run: what a gauge gained is a hundred for each action taken plus what it holds; a blocked gauge holds its opening value until, if that was full, it is spent once |
| RaceRun.NotOverdue | server/battle.py:2616-2646 | no unit is passed over: one that has not acted was not due before the run's clock |
| RaceRun.ActedIffPicked | server/battle.py:2628-2634 | a unit has acted exactly when a pass picked it, and only units that can act are picked: one that is blocked and not already full never is |
| RaceRun.BlockedWaits | server/battle.py:2608-2612 | while a unit that is blocked but full still waits its turn, no time has passed at all |
| RaceRun.RaceIsSort | server/battle.py:2616-2646 | the event simulation is a sort: the units that acted, in order of first action, are an initial segment of the units that can act, sorted by time to fill and then rank |
| RaceCount.TurnsAddUp | server/battle.py:2621-2645 | every pass of the loop is one unit's action: the actions of all units sum to the number of picks, at most one a pass |
| RaceCount.FirstActShares | server/battle.py:2621-2645 | how many passes each rival takes before a unit's first action, exactly, as a whole-number formula of gauges and speeds |
| RaceCount.QueuedIff | server/battle.py:2621-2645 | a unit that can act has acted within p passes exactly when its turn number, computed from gauges and speeds, is at most p |
| Projection.PublishedIsSorted | server/battle.py:2616-2646 | the published queue has no repeats, holds only units that can act, is sorted by time to fill and then rank, and leaves out nobody sooner than somebody it holds |
| Projection.PublishedIff | server/battle.py:2619-2645 | who is published, exactly: a unit that can act is in the queue if and only if its turn number is within the n*n+n budget |
| Projection.QueueHead | server/battle.py:2624-2645 | with somebody full, the queue is not empty and starts with the leader of those who are full |
| Projection.FullQueueStays | server/battle.py:2622-2623 | the early exit is harmless: once the queue holds as many units as live, no later pass changes it |
| Projection.StalledStays | server/battle.py:2626-2631 | the other early exit is harmless: once nobody is full and nobody can fill, no later pass changes anything |
| Projection.TurnWithinPatience | server/battle.py:1943-1976 | from any gauges a unit that can act does so within a number of turns computed from the speeds alone |
| Projection.BudgetSuffices | server/battle.py:2619-2621 | the budget the comment calls ample is ample under a bound on speeds: a unit that can act is published whenever no living unit is n + 2 or more times as fast |
| Projection.BudgetCanFail | server/battle.py:2619-2621 | and not ample without one: of two units at SPD 100 and 1 the slow one is never published, though nothing blocks it |
| Projection.PlayedAsProjected | server/battle.py:2616-2646 | real turns on settled gauges and passes on copied gauges are the same run, pass for pass |
| Projection.ProjectionComesTrue | server/battle.py:2616-2646 | the order in which units first act over the next turns is the published queue |
| Projection.Fairness | server/battle.py:1943-1976 | between an action of u and its next one, v acts at most once more than the whole number of times it is faster than u |
| Projection.NoStarvation | server/battle.py:1943-1976 | from any turn on, every unit whose gauge moves acts again within its patience |
| Units.EffectiveSpd | server/battle.py:1955-1971 | the speed a gauge fills at is never below 1, whatever the statuses add up to, so nobody who may fill stands still |
| Units.AgeingShrinks | server/battle.py:3366-3402 | ageing gauge blocks lowers the turns left on them, strictly if any finite block is there, and changes nothing otherwise |
| Units.UsableSlots | server/battle.py:3752-3769 | every button the rules allow is legal, no other is unless none is allowed, and then the basic attack is: there is always one |
| Units.Find | server/battle.py:3221-3222 | a unit is found by its order exactly when one has it |
| StatusRows.LastWins | server/battle.py:2813-2819 | what the client shows for a unit and status after any rows is what the last row for that pair says |
| StatusRows.ToldIsHeld | server/battle.py:2932-2950 | the record of what the client was told stays equal to what it holds, whatever rows go out |
| StatusRows.QueueOneEffect | server/battle.py:2821-2853 | queueing a change replaces its pair's row and no other; an application and its removal inside one gap, never told, leave nothing |
| StatusRows.QueueHolds | server/battle.py:2821-2853 | the queue after any changes, exactly: one row a pair at most, and that the last change to it; none where nothing changed, and none where the last change took back an application never told |
| StatusRows.CollapseIsSound | server/battle.py:2813-2853 | when the record is what the client holds, the collapsed queue has one row for each pair and leaves the client exactly where every raw change would have; and its removals all find their status exactly when none lingers of a status not held |
| StatusRows.DrainOrder | server/battle.py:2911-2931 | queued changes travel behind the attack's own rows although they happened before it: the client still ends where the server is if and only if no pair is named by both with different outcomes |
| Bearings.EndTurnQueues | server/battle.py:3278-3495 | the queue after a turn is the collapse, into the queue before it, of the turn's own list of changes: what its passives report, what ageing blocks, rolls and skipped turns take off, in order; the told record does not move |
| Bearings.TurnTells | server/battle.py:3278-3495 | and that list is what happened: with the actor's own expiries put back in their place it takes the statuses of every unit, pair by pair, from what they were to what they are, and removes only what is held at that moment |
| Told.ReplyAnswers | server/titan_server.py:1384-1483 | a request of a wave leaves statuses, queue and record as they are, or plays one attack, which moves statuses as its own changes say, empties the queue and goes on record, and ends a turn |
| Told.RecordIsTrue | server/battle.py:2911-2950 | through any requests of one wave the queue is the collapse of exactly the changes since the last attack; and the told record is what a client holds that plays every status row it is sent and counts nothing out by itself |
| Told.WaveRecorded | server/battle.py:3662-3704 | a wave opens with nothing told and, queued, exactly what its roll aged off the field its battle-start passives left |
| Told.AttackCatchesUp | server/battle.py:2911-2931 | with the record true, the next attack leaves a status the client knows showing what playing every change of the gap and then the attack's own would, if and only if the two do not name it with different outcomes |
| Told.RegrantLost | server/battle.py:2911-2931 | the clash is real: an attack that grants a status whose removal is still queued leaves it on the field and takes it from the client |
| RemovalsFound.AttackFinds | server/battle.py:2834-2848 | every removal an attack sends finds its status, exactly: for any client, its own removals do, and the client having played them holds each status whose removal lingers, one that was the last change of the gap and took back nothing untold |
| RemovalsFound.AttackKeepsLevel | server/battle.py:2911-2950 | sent to a client that is level with the field, an attack's removals all find their status and nothing on the field is lost to the client if and only if it takes off only what the client holds and names nothing whose removal is queued |
| RemovalsFound.TurnKeepsLevel | server/battle.py:3278-3495 | a turn started level ends with everything on the field known to the client, and every removal it queues finds its status if and only if it takes off nothing that was told and that the client has lost since |
| RemovalsFound.EveryRemovalFound | server/battle.py:2834-2853 | through a wave that a level client starts every removal sent finds its status, while every attack fits, no turn takes off anything stale, and the client counts out only what is gone |
| RemovalsFound.NothingStale | server/battle.py:2847-2853 | for a client that counts nothing out by itself nothing is ever stale |
| StatusWitnesses.AlwaysTidy | server/engine/status.py:172-208 | through any requests and restarts no unit holds two statuses of one id |
| StatusWitnesses.BattleOpensLevel | server/battle.py:2372-2383 | a battle opens level with the client that is sent its field if and only if its first roll aged off nothing the client knows |
| StatusWitnesses.WaveOpensLevel | server/battle.py:3662-3704 | a wave opens level if and only if the client holds already whatever the field holds once the battle-start passives have fired |
| StatusWitnesses.RejoinLevel | server/titan_server.py:1861-1879 | a client that was level and rejoins is level if and only if no removal was queued |
| StatusWitnesses.GrantBreaks | server/battle.py:2727-2752 | a session, on every stage whose second wave opens with a mob, in which a battle-start block of one turn, one attack and its turn make the next attack remove from the client a status it was never told of |
| StatusWitnesses.ToldOutlives | server/battle.py:3312-3322 | an actor's own status that ends with its turn is gone from the field and named by no row, and stays on record as told |
| StatusWitnesses.StaleRecordBreaks | server/battle.py:2834-2853 | such a status, given again as a block that runs out in the same turn, is removed from a client that has counted it out |
| TurnQueue.AgeShrinks | server/battle.py:3366-3402 | the measure of the unblocking loop: turns left in the field's blocks fall whenever some living unit has a finite block |
| TurnQueue.UnblockEnds | server/battle.py:2594-2607 | the unblocking loop ends with somebody able to fill, or, every block being permanent, with the best-ranked living unit handed a full gauge |
| TurnQueue.RollFillsSomeone | server/battle.py:2608-2615 | after a roll with anybody alive, some living unit stands at a full gauge, even if every one is blocked for good |
| TurnQueue.RollSeats | server/battle.py:2567-2646 | soft-lock freedom of the roll: while anybody lives the queue is not empty and its head is a living unit at a full real gauge |
| TurnQueue.RollSorts | server/battle.py:2567-2646 | the queue on the real field: an initial segment of the units that can act, sorted by time to fill and then rank, holding exactly those whose turn number is within the budget |
| TurnQueue.RollTwice | server/battle.py:2547-2549 | rolling is idempotent: a second roll changes no gauge, no status and no queue |
| Turns.Struck | server/battle.py:2855-2878 | one effect of the engine keeps a unit's build and validity, does not raise the dead, and only a strike can kill |
| Turns.StartOfTurn | server/battle.py:3404-3495 | start-of-turn resolution terminates under its depth cap and keeps every gauge, cooldown and hit-point bound |
| News.FireFollows | server/battle.py:2896-2908 | whoever a passive kills is named by a death row of the current wave, and every such row names a unit that is dead |
| News.TickFollows | server/battle.py:3430-3446 | a fatal tick queues its death |
| News.StartFollows | server/battle.py:3404-3495 | start-of-turn housekeeping, through all its skips and deaths, queues every death it causes and adds no false one |
| News.EndTurnFollows | server/battle.py:3278-3329 | no death goes unqueued: whoever dies while a turn ends is named by a death row of the wave; the roster, the record and the flags stay |
| TurnTheorems.EndTurnRound | server/battle.py:3324-3329 | ending a turn raises the round by exactly one plus the number of turns skipped |
| TurnTheorems.EndTurnHead | server/battle.py:3404-3495 | what a turn gives whose settling was not cut short, on any field and with any passives: nobody is alive, or the head is not held; and then it can act exactly when it lives, as it does unless a turn-start passive killed it |
| TurnTheorems.EndTurnSeatsActor | server/battle.py:3404-3495 | so with passives that spare the unit whose turn starts the head can act, or nobody is alive |
| Witnesses.DeadHeadSeated | server/battle.py:3461-3471 | a turn-start passive that kills the unit whose turn begins leaves it heading the queue, dead |
| Frozen.FrozenFieldStalls | server/battle.py:3404-3413 | with blocks, damage over time and speed effects allowed: if every living unit is held by a status that never runs out, the turn goes to a unit that cannot take it exactly when anybody is left alive |
| Calm.CalmRoll | server/battle.py:2567-2646 | where nothing blocks, a roll settles the gauges as the race does and changes nothing else but the queue |
| Stalls.AgedHolds | server/engine/status.py:532-554 | whether a unit is still held after n turns of its own is read off the counts it has now: some stopping status never runs out or has more than n left |
| Stalls.EndTurnSeats | server/battle.py:3278-3329 | where a turn ends without blocks, exactly: at the first seat of the race ahead whose holder neither falls to its ticks nor is held by then, each held seat before it costing one round; with none taken among the first |units| + 1, at the next seat |
| Stalls.CapBites | server/battle.py:3404-3413 | when the cap bites, exactly: the turn goes to a unit that cannot take it if and only if none of the first |units| + 1 seats of the race ahead, computed from gauges, speeds, durations and hit points, is taken and the next goes to a held unit; otherwise the head can act unless nobody lives |
| Stalls.PainlessRace | server/battle.py:1943-1976 | without damage over time the race ahead is the plain gauge race, and a seat is passed on exactly when its holder is held |
| Stalls.FrozenCalmStalls | server/battle.py:3404-3413 | with somebody alive, no blocks and nothing to die of, statuses that never run out on everybody are a stall for certain |
| Stalls.StallWithSomebodyFree | server/battle.py:3404-3413 | an input at which it bites with somebody free: SPD 100 stunned for nine turns against SPD 10 unhindered takes the round from 1 to 5 and the turn to the stunned unit, five turns still to run |
| Unheld.DeathsNeverCap | server/battle.py:3404-3413 | deaths alone never reach the cap: with nobody living held and no passive that holds anybody, the settling runs to its end whoever dies on the way |
| Unheld.FreeFieldPlays | server/battle.py:3404-3495 | so on such a field every turn ends with a head that can act exactly while anybody lives |
| Steady.RollReady | server/battle.py:2567-2646 | a roll of any undisturbed field with somebody alive puts it in step with the race, wherever its gauges stood |
| Steady.EndTurnSteady | server/battle.py:3278-3329 | an undisturbed turn of the battle is one turn of the gauge race, on the same speeds and orders |
| Steady.TurnsArePlayed | server/battle.py:3278-3329 | any number of undisturbed turns keeps the battle in step with the race, gauges and actors alike |
| Steady.QueueComesTrue | server/battle.py:2616-2646 | the projection predicts reality: with no blocks, gauge grants, status effects on speed or deaths, the order of first actions over the coming turns is exactly the published queue |
| Steady.NobodyStarves | server/battle.py:1943-1976 | on the field, from any turn on, every living unit acts again within a number of turns computed from the speeds |
| Steady.FairOnField | server/battle.py:1943-1976 | on the field, between an action of one unit and its next one, another acts at most once more than the whole number of times it is faster |
| Blocks.EndTurnBound | server/battle.py:3366-3402 | one turn of the battle takes at least one turn off every living unit's finite gauge blocks, whoever's turn it was |
| Blocks.BlocksWearOff | server/battle.py:3366-3402 | a living unit whose gauge blocks last at most d turns holds no finite block after d turns of the battle |
| Outbound.DrainConserves | server/battle.py:3038-3082 | a drain conserves rows: the queue is, as a multiset, what was sent, kept and discarded; only undeliverable rows are discarded; and rows are kept only when the limit was reached |
| Outbound.DeathsGoFirst | server/battle.py:3015-3019 | a one-row drain sends a death whenever one can be delivered, and sends nothing only when nothing can, leaving the queue empty |
| Delivery.OneCommand | server/titan_server.py:1338 | for every request in every state a reply holds at most one of WaveBegin, StartTurn and Attack, except exactly WaveBegin then StartTurn |
| Delivery.JudgeDelivers | server/titan_server.py:1422-1437 | a judge with a deliverable death queued gets that death alone, the first in queue order, and nothing else in the fight changes |
| Delivery.BoundedDelivery | server/titan_server.py:1422-1437 | with k deliverable deaths queued the next k judges return exactly those, one each and in queue order, touch nothing else, and leave none |
| Delivery.WaveEndsEmpty | server/titan_server.py:1593-1677 | a reply that ends a wave leaves nothing queued |
| Delivery.JudgeIsAnswered | server/titan_server.py:1706-1720 | a judge gets a non-empty reply whenever somebody is seated or the fight is decided |
| ClientPicture.AttackInforms | server/battle.py:3092-3148 | an attack's own rows keep the client informed of everybody it kills |
| ClientPicture.DrainInforms | server/battle.py:3038-3082 | sending queued losses keeps the client informed: what leaves the queue is heard, what stays is still queued |
| ClientPicture.FollowsInforms | server/battle.py:2896-2908 | steps that queue the deaths they cause keep the client informed |
| Sessions.AdvanceInforms | server/battle.py:3662-3704 | a wave change throws the queue away and tells nothing of what its battle-start passives do: the client stays informed if and only if it draws no dead member of the party at that moment and the opening kills none who lives |
| Sessions.EndTurnSound | server/battle.py:3278-3329 | ending a turn keeps gauges valid, orders distinct and the queue naming units of the field, empty only when nobody lives |
| ClientPicture.HearsNextWave | server/titan_server.py:1678-1705 | every enemy of the new wave is sent, and the client draws those with hit points left and the party as before |
| ClientPicture.HearsStart | server/battle.py:3706-3713 | the whole field is sent, the dead with no hit points, and the client draws exactly the living, whatever it drew before |
| Sessions.RestartFine | server/titan_server.py:1861-1879 | accepting a reconnect leaves the battle sound and the client informed |
| NoDeathUntold.ReplyFine | server/titan_server.py:1384-1483 | every request keeps the battle sound and the client informed; only a wave change asks for anything, that nothing be queued and that its opening kill no living member of the party |
| NoDeathUntold.NoDeathGoesUntold | server/titan_server.py:1384-1483 | in every session whose wave changes follow wave ends and whose waves open without killing a living member of the party: everybody alive is drawn, each dead unit still drawn is named by a queued death, and no queued death is false |
| NoDeathUntold.WaveChangeLosesNothing | server/titan_server.py:1661-1677 | in such a session nothing is queued when a wave change is served |
| NoDeathUntold.UndisciplinedLosesDeath | server/battle.py:3662-3675 | a wave change with a dead, still drawn member of the party leaves the client drawing it with nothing left to tell it |
| Witnesses.QueuedDeathLost | server/battle.py:3662-3675 | such a state is two requests away from any state with somebody seated and a living member of the party: an attack at whose end a passive kills it, then the next wave out of turn |
| Witnesses.OutOfOrderLoses | server/titan_server.py:1678-1705 | so every battle with a living first member has a session of two requests that loses a death for good |
| Witnesses.OpeningDeathLost | server/battle.py:2727-2752 | a battle-start passive that kills a living member of the party is announced by nothing: the client draws it for good, however orderly it asked |
| Witnesses.OrderlyLosesToo | server/titan_server.py:1593-1705 | on every stage, an orderly session that loses a death: an attack wins the fight, the judge ends the wave, the next wave's opening kills |
| NoDeathUntold.SentDeathsAreTrue | server/battle.py:3052-3061 | a death that is sent is of the present wave and names a unit that is dead, though orders are used again |
| Lineage.ReplyKin | server/titan_server.py:1549-1895 | short of the next wave, no request changes who stands at which place of the field or with what build, nor the banked totals; slots may be exchanged |
| Lineage.AdvanceKeeps | server/battle.py:3662-3704 | the next wave keeps the party, puts the wave's mobs behind it, banks exactly the outgoing enemies and carries no queue over |
| Lineage.NextWaveServed | server/titan_server.py:1678-1705 | the reply to a next-wave request is the new wave, its queue and everybody's numbers, with no queued row before it |
| Reach.NewBattleReached | server/battle.py:2348-2419 | a new battle has its party and first wave in place, a queue that is empty only if nobody lives, and nothing queued |
| Reach.ReplyReached | server/titan_server.py:1384-1483 | every request, with no discipline asked of the client, keeps that |
| Reach.AllReached | server/titan_server.py:1384-1483 | so it holds in every reachable battle |
| Reach.OpeningGood | server/battle.py:2348-2419 | every battle opens in a session from which no death goes untold |
| Resume.RestoreIs | server/battle.py:3797-3832 | what resuming gives back of what is modelled, exactly: the saved battle with its flags down, nothing told, the rows of the replay queued, and each unit as it was but for its slot and banked gauge gain, which are the replay's |
| Resume.ResumeIsLossless | server/battle.py:3797-3803 | saving a resumed battle gives the same save, for every reachable battle, whatever the engine does while waves are replayed |
| Resume.ResumeIsExact | server/battle.py:2114-2140 | from the second wave on, whatever the engine does in the replay, the units come back the very same if and only if everybody stands in the slot the stage and party give it and nobody has a gauge gain banked |
| Resume.FirstWaveIsExact | server/battle.py:2114-2140 | in the first wave, if and only if everybody stands there with what the opening banked |
| Witnesses.SwapIsForgotten | server/battle.py:2114-2140 | in any wave, once the acting unit has changed places with a unit of another slot, no restart gives the units back, whatever happens in the replay |
| Witnesses.SomebodyToSwap | server/titan_server.py:1803-1819 | and every battle of two or more with a living first member has such a unit to swap in |
| Resume.ResumeIsGood | server/battle.py:3813-3832 | a resumed battle is a reachable one, and its client, sent the field afresh, is informed |
| Resume.NobodyRolls | server/battle.py:3829-3831 | the re-roll of an empty queue is harmless: with nobody alive it changes nothing |
| Lives.LifeReached | server/battle.py:3797-3832 | reachability holds through any number of requests and restarts |
| Lives.EveryJudgeAnswered | server/titan_server.py:1347-1363 | soft-lock freedom: in every battle that can be reached, with any client, any engine and any restarts, a judge gets a non-empty reply |
| Lives.NoDeathUntoldThroughRestarts | server/titan_server.py:1384-1483 | from the opening of a battle through any number of restarts no death goes untold, on the same two conditions on wave changes |
| Lives.BankAllRow | server/battle.py:3150-3161 | banking enemies adds each one's damage dealt, damage taken and healing to the row of its order and to no other |
| Lives.RecordConserved | server/battle.py:3185-3205 | a row of the final report is the sum over every enemy that ever stood under its order, over any number of wave changes and restarts |
| Lives.ColumnsConserved | server/battle.py:3163-3212 | the enemy rows of the report sum to the damage dealt, taken and healed by every enemy ever fielded |
| BattleUnit.Unit.FillGauge | server/battle.py:1973-1976 | a gauge rises by time times effective speed, capped at 100, and not at all while blocked |
| BattleUnit.Unit.Age | server/engine/status.py:532-554 | the in-place walk over the statuses leaves exactly those with turns left and returns exactly those that ran out; for gauge blocks alone the same |
| BattleUnit.Unit.SpendTurn | server/battle.py:3284-3300 | the gauge empties, and a banked gain lands, clamped, unless it is positive and the unit is blocked |
| BattleUnit.Unit.Suffer | server/battle.py:3418-3427 | damage over time then healing, and the hit points actually removed |
| BattleUnit.Unit.RestoreState | server/battle.py:2127-2140 | patching sets every saved field and no other; what is then saved is what was restored |
| Battlefield.Battle.constructor | server/battle.py:2348-2419 | a new battle is party, first wave, battle-start passives and roll, in that order |
| Battlefield.Battle.QueueStatusRows | server/battle.py:2813-2853 | the loop queues each change as the collapsing rule says and changes nothing else |
| Battlefield.Battle.AgeGaugeBlocks | server/battle.py:3366-3402 | the walk ages every living blocked unit's gauge blocks, queues their removals in order, and reports whether any block had a turn to spend |
| Battlefield.Battle.RunBlocks | server/battle.py:2594-2607 | the loop that runs the clock on blocks ends where its specification ends, forcing somebody only when nothing is left to age |
| Battlefield.Battle.FillGauges | server/battle.py:2608-2615 | the step and the rounding guard leave the gauges where the race puts them; in exact arithmetic the guard changes nothing |
| BattleSteps.ProjectQueue | server/battle.py:2616-2646 | the budgeted simulation on copied gauges, with both its early exits, computes the published queue |
| BattleSteps.LeadIsFull | server/battle.py:2613-2615 | after the step the leader is full already |
| Battlefield.Battle.RollTurnOrder | server/battle.py:2543-2646 | the whole roll, blocks, gauges and queue, does what its specification says |
| Battlefield.Battle.LandEffects | server/battle.py:2855-2908 | effects take hold in order and those that found their unit are reported |
| Battlefield.Battle.AbsorbPassive | server/battle.py:2880-2909 | each status change becomes a row, each kill a death row with the hit points removed, and nothing else is queued |
| Battlefield.Battle.TakeTick | server/battle.py:3414-3446 | the tick of the acting unit, with its loss queued, as a death if it kills |
| Battlefield.Battle.SkipTurn | server/battle.py:3484-3492 | a skipped turn reloads, runs every duration, queues the removals and costs the gauge |
| Battlefield.Battle.StartOnce | server/battle.py:3404-3495 | one level of the start-of-turn recursion: settled, or somebody else seated |
| Battlefield.Battle.StartTurn | server/battle.py:3404-3495 | the recursion under its depth cap |
| Battlefield.Battle.FinishTurn | server/battle.py:3282-3322 | the actor reloads and spends, its after-action passives fire, and only then its durations run |
| Battlefield.Battle.EndTurn | server/battle.py:3278-3329 | the whole of ending a turn, in the order the code has |
| BattleSteps.TakeRows | server/battle.py:3042-3061 | the drain's loop sends, skips and holds back exactly the rows its specification does |
| Battlefield.Battle.DotDeathCmds | server/battle.py:3038-3082 | a drain leaves the held rows queued and returns the sent ones, deaths first when limited |
| Battlefield.Battle.DrainPendingStatus | server/battle.py:2911-2950 | the attack carries its own rows and then the wave's queued ones, the queue empties, and the told record takes every row going out |
| Battlefield.Battle.AttackCmd | server/battle.py:3092-3148 | a skill resolves and its damage is put on record, its attack tells every strike and marks each unit's death on the last strike that names it |
| Battlefield.Battle.SwapUnits | server/battle.py:3228-3246 | two units exchange slots and places in the queue, or nothing happens |
| Battlefield.Battle.SpawnWave | server/battle.py:2447-2468 | the old enemies are banked and leave; the wave's mobs stand behind the party as new units |
| Battlefield.Battle.AdvanceWave | server/battle.py:3662-3704 | the wave change step by step, flags lowered last |
| Battlefield.Battle.Patch | server/battle.py:3811-3828 | every saved unit that is on the field is patched; the queue keeps the saved units that are on it |
| Battlefield.Battle.RollIfEmpty | server/battle.py:3829-3831 | an empty queue is rolled again |
| BattleServer.BattleReplies | server/titan_server.py:1384-1483 | the object's whole reply to any request, each handled by its own method in place, is the specified one with its flush: a judge meets a queued death alone; any other reply carries one queued loss in front unless it fills the slot |
| BattleServer.RestoreBattle | server/battle.py:3797-3832 | the object rebuilt from a save is the battle the save stands for |
| Rc4.EveryByteOnce | server/wire.py:45-62 | however much has been encrypted, the table holds each of the 256 bytes exactly once |
| Rc4.MaskingSplits | server/wire.py:53-62 | encryption splits over concatenation, the state carrying over |
| Rc4.MaskingTwice | server/wire.py:53-62 | decryption is encryption from the same state |
| Rc4.Cipher.constructor | server/wire.py:45-51 | the key schedule, exchanging the table in place |
| Rc4.Cipher.Crypt | server/wire.py:53-62 | each byte is masked with its byte of the keystream and the object moves on by as many steps |
| Framing.ChksumTells | server/wire.py:65-66 | what the checksum tells apart: two headers share it exactly when three times the type plus the size agree modulo thirty |
| Framing.MakeHeader | server/wire.py:69-70 | a header exists exactly when the type fits a byte and the size four, and is six bytes long |
| Framing.SizeComesBack | server/wire.py:69-70 | a size below 2^32 reads back from its four big-endian bytes |
| Framing.FramesComeBack | server/titan_server.py:4147-4160 | a receiver with the sender's key, decrypting header and body apart, accepts every checksum and recovers every frame |
| Framing.CutStream | server/titan_server.py:4147-4160 | a stream cut anywhere gives the frames that came through whole, in order, and never a bad checksum |
| Framing.LockedIsMasked | server/titan_server.py:4141-4144 | encrypting frame by frame under the lock is encrypting the concatenation |
| Framing.TwoSenders | server/titan_server.py:4129-4144 | in whatever order the lock lets two threads through, the receiver recovers exactly that merge of their frames |
| Framing.Socket.RecvExact | server/titan_server.py:4041-4048 | exactly n bytes however they were split on the way, or nothing if the peer closed first |
| Framing.Send | server/titan_server.py:4141-4144 | one locked write: a frame that fits is encrypted and moves the cipher on; one that does not leaves wire and cipher as they were |
| Framing.SendBehind | server/titan_server.py:4134-4145 | a send with the message that must go ahead of it, as before a backpack push: both in order on one keystream, and a frame that does not fit stops what comes behind it |
| Framing.ReceiveFrame | server/titan_server.py:4147-4160 | one pass of the receive loop: a frame, or the way the connection ended |
| Framing.Receive | server/titan_server.py:4146-4160 | the loop reads exactly the frames the stream holds |
| Protobuf.VarintReadsBack | server/wire.py:96-114 | varints are prefix codes for every natural number: whatever follows, the number reads back and the reader stops at its end |
| Protobuf.VarintCut | server/wire.py:96-104 | a varint cut short anywhere raises |
| Protobuf.PbEncVarint | server/wire.py:107-114 | the loop writes base 128, low digit first |
| Protobuf.PbVarint | server/wire.py:96-104 | the loop that shifts and ors reads base 128, or runs off the end |
| Protobuf.ZigzagComesBack | server/wire.py:137-176 | every 32-bit number, given signed or unsigned, comes back as the signed one |
| Protobuf.FieldReadsBack | server/wire.py:117-122 | a printed field reads back, whatever follows |
| Protobuf.FieldsReadBack | server/wire.py:75-93 | a message of printed fields reads back as those fields in order |
| Protobuf.ParseReadsBack | server/wire.py:75-93 | and by field number, each field's values in order |
| Protobuf.PbValue | server/wire.py:81-91 | one value by wire type: a slice past the end is cut off, an unknown type raises |
| Protobuf.PbParse | server/wire.py:75-93 | the loop collects each field's values in order, or raises as specified |
| Rpc.MakeRpc | server/wire.py:179-197 | the loops write index, then unsigned, 64-bit, signed and string slots, each slot a message of its own |
| Rpc.CallsComeBack | server/wire.py:141-197 | a call reads at the other end with its index, command, id, arguments and strings, for every shape of argument slots, all 32-bit signed arguments and all 32-bit indices |
| Rpc.PackComesBack | server/wire.py:200-202 | a pack unpacks to the same calls in order |

## Left out

- Skill execution, the damage formula, passive scripts and status rules: an oracle stands for them, and nothing revives, because a revive has no out-of-band announcement in the code either.
- Effects on a unit that left the field come to nothing; which unit an effect reaches is the oracle's choice, including forced targets and forced skills.
- Rounding: gauges are exact, so the epsilon in the ready test is taken as the full gauge.
- Steady.QueueComesTrue: asks for no blocks, stuns, damage over time or passives, and for statuses that bend SPD to be permanent, because the projection itself looks at none of their futures.
- Stalls.CapBites: asks for a field with no gauge blocks, no passives that act and no passing effect on speed, because those move gauges between the seats; stuns of any length, damage over time, permanent speed effects, healing and banked gains are covered.
- TurnTheorems.EndTurnHead: its condition is how the settling ran, which `Stalls.CapBites` turns into gauges, speeds, durations and hit points where nothing blocks and `Unheld.DeathsNeverCap` rules out where nobody is held; with gauge blocks and held units together it stays a condition on the run.
- Blocks.BlocksWearOff: assumes passives grant no new finite gauge block meanwhile.
- NoDeathUntold.NoDeathGoesUntold: assumes the client asks for the next wave only on a reply that ended one, and that no wave's battle-start passives kill a living member of the party; without either the statement is false, as `Witnesses.OutOfOrderLoses` and `Witnesses.OrderlyLosesToo` show.
- Resume.RestoreIs: the skill last used and the set of once-only passives already fired are not saved by the code and have no field here; after a restart the engine may fire such a passive again.
- Resume.ResumeIsLossless: covers saves written by the present format; the migration of older status records is not modelled.
- Lives.RecordConserved: covers the enemy rows; the party's rows are the units' own counters.
- Framing.Receive: what is done with a frame after it is read, and any exception there, is not modelled.
- Rpc.CallsComeBack: strings are byte sequences; UTF-8 decoding with replacement is not modelled. Unsigned arguments are naturals, on which the varint writer ends.
- Framing.SendBehind: which messages need another ahead of them, and what is in it, is a parameter; the lock is modelled as any order of whole sends.
- BattleServer.BattleReplies: a battle end and a rune choice are answered by stand-in messages; what they pay out is not modelled.
- Told.RecordIsTrue: statuses sent with a whole field on a reconnect are not counted as held, since the code's record does not count them either.
- Damage over time billed on every action, which is off by default in the status module, and nested trigger scripts as a mechanism of their own: their grants are effects of the same oracle.
- An attack that carries no row at all, on which queued status rows would stay queued: every modelled attack has at least one row.
- Stack counts: a passive that raises the stacks of a status already held reports no change, and none is modelled.
- Statuses taken, elite marking, drops, ratings, rewards and experience: short arithmetic on data.
- Move scoring: the chooser may return any move; the greedy fallback is modelled.
- Position overrides by environment variable: a slot's index is its number.
- JSON layout, client field names, cutscenes, auras, icons, stack counts and shield amounts on status rows, logging, timeouts, session files, the save editor and the inspector.
- The client's own countdown of statuses: which it counts out, and when, is a parameter (`Told.Beat.fades`), because rounds on the client need not be the server's.
