# Padel Counters: a verified model of the scoring core

This project models the rule-bearing core of the Padel Counters real-time
scoring backend, written in Dafny.

## What is modelled

**Current scoring engine** (`src/utils/padelScoring.ts`, `PadelEngine.processPoint`).
- It takes a snapshot, the pair that won the point, and the point's metadata. It returns the next snapshot, a point-history record and, when a set ends, a completed-set record.
- It covers the 0/15/30/40 ladder, deuce and advantage, and the golden-point variant.
- It covers tie-break entry at 6-6 and tie-break play, and set completion with the reset for the next set.
- A match is won only in set 3.
- The history record carries the pre-point game, set and match point flags.

**Older scoring engine** (`src/lib/padel-rules.ts`, `handlePointScored`). This is the engine the controller imports. Compared with the current engine:
- it ignores golden point;
- a tie-break point only adds to the count, and a won tie-break is recorded 6-6;
- it never finishes a match.

Its side argument is modelled as a tag (`ScorerTag`): "pair_a", "pair_b", or any other string, kept as sent because the history record repeats it. Anything other than "pair_a" is read as pair B, except in the tie-break check of `hasWonSet`. `setScore` and `winGame` are the same code in both files, so they are modelled once (`PadelScoring.SetScore`, `PadelScoring.WinGame`) and reused.

**Point controller** (`src/controllers/match.ts`, `processPointScored`).
- It finds the match and ignores a finished one.
- It places the player on a pair and credits the point: an unforced error credits the other pair.
- It runs an engine, a status rule and a column writer, all parameters of the model. The controller as written uses the rule of line 77 (`NextStatusAsWritten`) and writes the whole outcome to `matchState` (`StoredAsWritten`); the in-place `MatchStore.ProcessPointScored` does both. The corrected rule (`NextStatus`) and the corrected column (`Stored`, the new snapshot) are used to state the findings about them.
- The `matchState` column is a `StoredState`: a snapshot or a whole outcome. It is read back through `ReadBack`, and a column that holds no snapshot gives the error `StateNotASnapshot`.
- An action name outside the controller's four is `OtherAction` and is treated like "standard".
- It bumps the player's statistics.
- The `matches` and `match_stats` tables are two maps in a `MatchStore` class.

**WebSocket layer** (`src/ws/server.ts`).
- The subscriber registry (a map from match id to a set of sockets) is changed in place by subscribe, unsubscribe and clean-up. The registry keeps no empty set.
- `broadcastToMatch` sends only to OPEN subscribers.
- Also modelled: the open and close handlers, and the SUBSCRIBE, UNSUBSCRIBE and POINT_SCORED branches of the message router.
- Each socket's deliveries are a `sent` log.

**Time-based status** (`src/utils/match-status.ts`).
- `getMatchStatus` compares `now` with the start and end instants. An invalid date is `None`.
- `syncMatchStatus` updates the status in place, and only when it changes.

### Project layout

Each engine is written twice:
- as pure specification functions (`PointTransition` and its parts);
- as the in-place code the source runs: methods on `SnapshotCopy`, the `{ ...current }` shallow copy.

Each method's postcondition ties its new state to the specification function. The properties are lemmas about the specification functions. `InPlay` (in `types.dfy`) describes the snapshots that play can reach: an unfinished set of a live match.

Files:
- `types.dfy`: shared types.
- `padel_scoring.dfy` and `padel_scoring_props.dfy`: the current engine and its properties.
- `padel_rules.dfy` and `padel_rules_props.dfy`: the older engine and its properties.
- `engine_comparison.dfy`: the two engines compared.
- `match_controller.dfy` and `match_controller_props.dfy`: the controller and its properties.
- `ws_server.dfy`: the WebSocket layer.
- `match_status.dfy`: the time-based status rule.

### Where the code departs from the rules of the game

The model follows the code in each of these places.

- **Crediting the point.** In padel a fault or an unforced error gives the point to the opposing pair. In the controller only `unforced_error` does. `forced_error` (reported for the player who forced it), `standard` and any other action credit the player's own pair. A double fault is not an action the controller knows, so it too credits the player's own pair (`src/controllers/match.ts:57-66`).
- **Statistics.** An error would be expected to add to the opposing pair's points won as well as to the actor's error count. In the controller, `winner` adds to the actor's `winners` and `pointsWon`, and `unforced_error` adds to the actor's `unforcedErrors`; nothing else changes (`src/controllers/match.ts:92-119`).
- **Match end.** A best-of-three match ends when a pair has won two sets. In the code:
  - the current engine finishes a match only when a set is won while the set index is 3 (`src/utils/padelScoring.ts:239-249`);
  - the older engine never finishes a match (`src/lib/padel-rules.ts:248-262`).

  So a 2-0 finish follows from neither engine, and none is proved here.
- **Snapshot fields.** The snapshot type (`src/types/padel.ts:26-40`) has neither set counters nor a status.
  - The current engine's flags read `pairASets` and `pairBSets`, and the model adds them as fields that the engines read and never write.
  - The current engine writes `status` when it finishes a match (`src/utils/padelScoring.ts:77-79`), and the model adds that field too.

## Model

| member | source | states |
|---|---|---|
| PadelTypes.Side.Opponent | src/utils/padelScoring.ts:52 | the other side is never the side itself |
| PadelTypes.ScoreOf | src/utils/padelScoring.ts:166-169 | a tie-break count written as a string is never "AD" |
| PadelTypes.ParseInt | src/utils/padelScoring.ts:166-167 | parsing a point value fails (NaN) exactly for "AD" |
| PadelTypes.ParseScoreOf | src/utils/padelScoring.ts:166-169 | writing a count and parsing it back gives the count |
| PadelTypes.ScoreOfParse | src/utils/padelScoring.ts:166-169 | parsing a numeric value and writing it back gives the same value |
| PadelTypes.NextPointClimbsOneRung | src/utils/padelScoring.ts:20-24 | below 40 the ladder lookup moves exactly one rung and never yields "AD" or a tie-break count |
| PadelTypes.SnapshotCopy.constructor | src/utils/padelScoring.ts:41 | the shallow copy holds exactly the input snapshot |
| PadelScoring.WithScore | src/utils/padelScoring.ts:196-203 | the named side's score becomes the given value; the other score and every other field are unchanged |
| PadelScoring.AddGame | src/utils/padelScoring.ts:186-187 | the side gains one game; the opponent's games and every other field are unchanged |
| PadelScoring.AfterGameWon | src/utils/padelScoring.ts:183-194 | both scores return to "0", the side gains a game, the tie-break starts exactly when games become 6-6, nothing else changes |
| PadelScoring.PointTransition | src/utils/padelScoring.ts:43-46 | the transition fails exactly when the snapshot already has a winner |
| PadelScoring.SetScore | src/utils/padelScoring.ts:196-203 | the in-place score update gives the copy `WithScore` of its old value |
| PadelScoring.WinGame | src/utils/padelScoring.ts:183-194 | the in-place game win gives the copy `AfterGameWon` of its old value |
| PadelScoring.ApplyStandardGameLogic | src/utils/padelScoring.ts:116-159 | the in-place standard point gives the copy the standard-point transition of its old value |
| PadelScoring.ApplyTieBreakLogic | src/utils/padelScoring.ts:161-181 | the in-place tie-break point gives the copy the tie-break transition of its old value |
| PadelScoring.CloseSetIfWon | src/utils/padelScoring.ts:62-89 | a won set is recorded and either finishes the match or resets the copy for the next set; otherwise nothing changes |
| PadelScoring.ProcessPoint | src/utils/padelScoring.ts:32-110 | the copy-and-mutate engine returns exactly the transition function's result |
| PadelScoringProperties.LadderStep | src/utils/padelScoring.ts:152-158 | outside a tie-break, a point below 40 climbs exactly one rung unless the opponent holds "AD" without golden point |
| PadelScoringProperties.FortyWinsGame | src/utils/padelScoring.ts:153-156 | a point at 40 against an opponent below 40 wins the game: scores to "0", scorer's games +1 |
| PadelScoringProperties.DeuceGivesAdvantage | src/utils/padelScoring.ts:136-140 | without golden point, 40-40 gives the scorer "AD" and leaves the opponent at "40" |
| PadelScoringProperties.AdvantageConverted | src/utils/padelScoring.ts:141-144 | without golden point, a point from "AD" wins the game |
| PadelScoringProperties.AdvantageLost | src/utils/padelScoring.ts:145-149 | without golden point, a point against the opponent's "AD" returns them to "40" and leaves the scorer unchanged |
| PadelScoringProperties.GoldenPointDecides | src/utils/padelScoring.ts:128-133 | with golden point, 40-40 is decided by the next point, whoever wins it |
| PadelScoringProperties.GoldenPointNeverAdvantage | src/utils/padelScoring.ts:126-158 | with golden point, a state without "AD" never leads to one |
| PadelScoringProperties.TieBreakStartsAtSixAll | src/utils/padelScoring.ts:190-193 | the tie-break turns on exactly when the point wins a game that makes the games 6-6 |
| PadelScoringProperties.TieBreakPointCounts | src/utils/padelScoring.ts:161-181 | a tie-break point adds one to the scorer's count and adds a game exactly at 7 or more with a lead of 2 or more |
| PadelScoringProperties.TieBreakWinRecordsSevenSix | src/utils/padelScoring.ts:62-74 | a tie-break won from 6-6 is recorded 7-6 with both tie-break counts |
| PadelScoringProperties.SetWonAdvancesOrFinishes | src/utils/padelScoring.ts:76-89 | a won set is recorded under the pre-point set number and finishes the match in set 3, otherwise starts the next set at 0-0 |
| PadelScoringProperties.MatchEndsOnlyInSetThree | src/utils/padelScoring.ts:239-249 | a point finishes the match exactly when it wins a set while the set index is 3 |
| PadelScoringProperties.ConfigurationUntouched | src/utils/padelScoring.ts:41-89 | id, golden-point setting, set counters and server are never written |
| PadelScoringProperties.PlayedKeepsConfiguration | src/utils/padelScoring.ts:116-181 | the point itself changes only scores, games and the tie-break flag |
| PadelScoringProperties.CompletedSetIsLegal | src/utils/padelScoring.ts:205-237 | from a reachable state every completed set is 6-4 or better, 7-5, or 7-6 with a decided tie-break, won by the scorer |
| PadelScoringProperties.TieBreakSetIsLegal | src/utils/padelScoring.ts:161-181 | a set closed by a tie-break point is recorded 7-6 with the counts of a decided tie-break |
| PadelScoringProperties.StandardSetIsLegal | src/utils/padelScoring.ts:116-159 | a set closed by a standard point is recorded 6 against at most 4, or 7-5, without tie-break counts |
| PadelScoringProperties.InPlayPreserved | src/utils/padelScoring.ts:55-89 | play keeps a match reachable until the engine finishes it, with the scorer as winner and status "finished" |
| PadelScoringProperties.TieBreakPointStaysInPlay | src/utils/padelScoring.ts:161-181 | a tie-break point either wins the set or leaves an undecided 6-6 tie-break |
| PadelScoringProperties.StandardPointStaysInPlay | src/utils/padelScoring.ts:116-159 | a standard point either wins the set or leaves a reachable state without "AD" under golden point |
| PadelScoringProperties.HistoryRecord | src/utils/padelScoring.ts:92-107 | the history carries pre-point set and game numbers, point number 0, the scorer, method, stroke and net flag as given, post-point scores and the pre-point flags |
| PadelScoringProperties.GamePointOwnerLooksAhead | src/utils/padelScoring.ts:259-294 | the game-point owner is exactly the side (or sides) whose next point wins the game |
| PadelScoringProperties.GamePointFlagLooksAhead | src/utils/padelScoring.ts:251-294 | game point is flagged exactly when some side's next point wins the game |
| PadelScoringProperties.SetPointSideLooksAhead | src/utils/padelScoring.ts:306-322 | for one side, game point with a set-closing game count is exactly its next point winning the set |
| PadelScoringProperties.SetPointFlagLooksAhead | src/utils/padelScoring.ts:296-330 | set point is flagged exactly when some side's next point wins the set |
| PadelScoringProperties.MatchPointFlagLooksAhead | src/utils/padelScoring.ts:315-321 | match point is flagged exactly when a side that already has a set would win the set with its next point |
| PadelScoringProperties.FourPointsWinAGame | src/utils/padelScoring.ts:152-158 | four straight points from 0-0 win a game and leave the set open |
| PadelScoringProperties.LadderPointInOpenGame | src/utils/padelScoring.ts:158 | against "0", a point below 40 climbs one rung and the state stays reachable |
| PadelScoringProperties.AlternatingToAdvantage | src/utils/padelScoring.ts:136-140 | alternating points reach 40-40, and one more point for pair A gives "AD"-"40" |
| PadelRules.OtherSide | src/lib/padel-rules.ts:89 | the other side is always the opponent of the side the tag is read as |
| PadelRules.PointTransition | src/lib/padel-rules.ts:34-37 | the transition fails exactly when the snapshot already has a winner |
| PadelRules.HandleStandardPoint | src/lib/padel-rules.ts:151-185 | the in-place standard point gives the copy the older standard-point transition of its old value |
| PadelRules.HandleTieBreakPoint | src/lib/padel-rules.ts:187-197 | the in-place tie-break point gives the copy the count-only transition of its old value |
| PadelRules.CloseSetIfWon | src/lib/padel-rules.ts:100-126 | a won set is recorded and the copy always reset for the next set; otherwise nothing changes |
| PadelRules.HandlePointScored | src/lib/padel-rules.ts:26-145 | the copy-and-mutate engine returns exactly the older transition function's result |
| PadelRulesProperties.DeuceAlwaysGivesAdvantage | src/lib/padel-rules.ts:160-164 | 40-40 gives the scorer "AD" whatever the golden-point setting |
| PadelRulesProperties.AdvantageConverted | src/lib/padel-rules.ts:165-169 | a point from "AD" wins the game, whatever the golden-point setting |
| PadelRulesProperties.AdvantageLost | src/lib/padel-rules.ts:170-174 | a point against the opponent's "AD" returns the opponent to "40" and leaves the scorer unchanged, whatever the golden-point setting |
| PadelRulesProperties.LadderStep | src/lib/padel-rules.ts:183-184 | a point below 40 against an opponent without "AD" climbs exactly one rung, whatever the golden-point setting |
| PadelRulesProperties.FortyWinsGame | src/lib/padel-rules.ts:176-181 | a point at 40 against an opponent below 40 wins the game, whatever the golden-point setting |
| PadelRulesProperties.HistoryRecord | src/lib/padel-rules.ts:128-143 | the history carries the pre-point set and game numbers, the side argument as passed, the method, no stroke, point number 0, the post-point scores and the pre-point flags |
| PadelRulesProperties.TieBreakPointOnlyCounts | src/lib/padel-rules.ts:187-197 | a tie-break point adds one to the count and never changes games |
| PadelRulesProperties.NeverFinishes | src/lib/padel-rules.ts:117-126 | winner and status are never written; every won set moves to the next set at 0-0 |
| PadelRulesProperties.PlayedKeepsSetAndResult | src/lib/padel-rules.ts:151-197 | scoring a point never changes the set index, the winner or the status |
| PadelRulesProperties.CompletedSetRecord | src/lib/padel-rules.ts:101-115 | from a reachable state a set is recorded 6-4 or better, 7-5, or 6-6 with the counts of a decided tie-break |
| PadelRulesProperties.InPlayPreserved | src/lib/padel-rules.ts:89-126 | play by a named pair keeps a match reachable |
| PadelRulesProperties.TieBreakPointStaysInPlay | src/lib/padel-rules.ts:223-236 | a tie-break point either wins the set or leaves an undecided tie-break |
| PadelRulesProperties.StandardPointStaysInPlay | src/lib/padel-rules.ts:238-245 | a standard point either wins the set or leaves a reachable state |
| PadelRulesProperties.GamePointFlagLooksAhead | src/lib/padel-rules.ts:56-64 | outside a tie-break, game point is flagged exactly when some pair's next point wins the game |
| PadelRulesProperties.SetPointFlagLooksAhead | src/lib/padel-rules.ts:41-87 | set point is flagged exactly when some pair's next point wins the set; in a tie-break it equals game point; match point is never raised |
| PadelRulesProperties.UnrecognisedTagScoresForPairB | src/lib/padel-rules.ts:223-236 | any side name other than "pair_a"/"pair_b" scores for pair B but never wins a tie-break |
| EngineComparison.EnginesAgreeOnStandardPoints | src/lib/padel-rules.ts:151-185 | outside golden point, tie-break and set 3 both engines give the same snapshot, set record and game/set flags |
| EngineComparison.GoldenDeuceDiverges | src/lib/padel-rules.ts:160-164 | at golden 40-40 the current engine awards the game, the older one "AD" |
| EngineComparison.TieBreakClosesTogether | src/lib/padel-rules.ts:187-197 | both engines close a tie-break on the same point with the same counts, recorded 7-6 by the current one and 6-6 by the older one |
| EngineComparison.ThirdSetDiverges | src/lib/padel-rules.ts:248-262 | a set won in set 3 finishes the match in the current engine and opens set 4 in the older one |
| MatchController.ResolvePlayerSide | src/controllers/match.ts:48-55 | players 1-2 are pair A, players 3-4 pair B, anyone else fails |
| MatchController.ScorerSide | src/controllers/match.ts:57-66 | the opposing pair is credited exactly for an unforced error |
| MatchController.ScorerTagAsWritten | src/controllers/match.ts:62-71 | the side passed as written is never a name the engine recognises, and the string sent ("a" or "b") still tells the pairs apart |
| MatchController.ScorerTagFor | src/controllers/match.ts:71 | the engine's own side names are read back as the intended pair |
| MatchController.NextStatusAsWritten | src/controllers/match.ts:76-81 | as written the status never becomes "finished" |
| MatchController.NextStatus | src/controllers/match.ts:76-81 | "finished" exactly when the new snapshot has a winner (or it already was); never "scheduled" after a point |
| MatchController.BumpStats | src/controllers/match.ts:92-119 | winner adds to winners and points won, unforced error to unforced errors, of the actor's row only; missing rows are not created |
| MatchController.StoredAsWritten | src/controllers/match.ts:86 | the column as written holds the whole outcome, and reading it back gives no snapshot |
| MatchController.Stored | src/controllers/match.ts:69-70 | writing the new snapshot and reading the column back round-trips to that snapshot |
| MatchController.PointScored | src/controllers/match.ts:21-122 | for any engine, status rule and column writer: an error or ignored point writes nothing; a point rewrites only its match row and its player's stats row |
| MatchController.MatchStore.Commit | src/controllers/match.ts:74-122 | the transaction stores the whole outcome as `matchState` and the status line 77 as written gives, and bumps the player's stats |
| MatchController.MatchStore.ProcessPointScored | src/controllers/match.ts:16-122 | the in-place controller leaves the store and returns exactly what `PointScored` gives with the status rule and the column as written |
| MatchControllerProperties.UnknownMatchRejected | src/controllers/match.ts:25-32 | an unknown match id fails and writes nothing |
| MatchControllerProperties.FinishedMatchIgnored | src/controllers/match.ts:34-39 | a point on a finished match changes nothing and broadcasts nothing |
| MatchControllerProperties.UnknownPlayerRejected | src/controllers/match.ts:48-55 | a player not in the match fails with no writes |
| MatchControllerProperties.SuccessfulPointIsStoredAndCredited | src/controllers/match.ts:68-90 | the engine ran for the credited pair on the snapshot the column held, and the row holds the column written for the broadcast outcome and the status the rule picks, players unchanged |
| MatchControllerProperties.AsWrittenControllerNeverFinishes | src/controllers/match.ts:76-81 | as written, whatever the engine, a point never makes a match "finished" |
| MatchControllerProperties.ControllerNeverFinishesMatch | src/controllers/match.ts:70-81 | with the imported engine and any side strings, even the corrected status rule never makes a match "finished" |
| MatchControllerProperties.StatsOnlyGrow | src/controllers/match.ts:92-119 | counters never go down and grow by at most one per point |
| MatchControllerProperties.AsWrittenPointForPairAScoresForPairB | src/controllers/match.ts:58-71 | as written a point for pair A from 0-0 is scored "0"-"15" |
| MatchControllerProperties.AsWrittenTieBreakNeverEnds | src/controllers/match.ts:70-71 | as written no tie-break point ever closes the set |
| MatchControllerProperties.PointCreditsScorer | src/controllers/match.ts:70-71 | with the engine's side names a point moves the scorer, not the opponent |
| MatchControllerProperties.TieBreakCanEnd | src/controllers/match.ts:70-71 | with the engine's side names a tie-break at 6 against at most 5 can be closed |
| MatchControllerProperties.AsWrittenStatusMissesWin | src/controllers/match.ts:76-81 | as written, a won match point stores a snapshot with a winner and leaves the match "live" |
| MatchControllerProperties.ControllerFinishesWonMatch | src/controllers/match.ts:76-81 | reading the snapshot's winner, a won match point leaves the match "finished" |
| MatchControllerProperties.AsWrittenNextPointLosesSnapshot | src/controllers/match.ts:69-86 | as written, after any successful point the column no longer reads back as the snapshot the point produced, so the next call on that match never runs the engine on it; in the model that call then stops with `StateNotASnapshot`, writing and broadcasting nothing |
| MatchControllerProperties.NextPointReadsStoredSnapshot | src/controllers/match.ts:69-86 | storing the new snapshot, the next call on that match runs the engine on exactly the snapshot the point produced, and a point by the same player is that engine step |
| WsServer.SendJson | src/ws/server.ts:365-379 | the message is appended to the socket's log and nothing else changes |
| WsServer.WithSubscriber | src/ws/server.ts:126-134 | the socket is subscribed to the match and other match ids are untouched |
| WsServer.WithoutSubscriber | src/ws/server.ts:136-147 | the socket is no longer subscribed, the key goes when the set empties, an unknown id changes nothing, other ids are untouched |
| WsServer.Purged | src/ws/server.ts:149-155 | the socket is in no set and every remaining set only lost that socket |
| WsServer.Reply | src/ws/server.ts:257-347 | at most one immediate reply; a POINT_SCORED gets one exactly when a field is missing |
| WsServer.SubscribeAddsOnlyThatMembership | src/ws/server.ts:126-134 | subscribing adds exactly one membership |
| WsServer.SubscribeIdempotent | src/ws/server.ts:130-133 | subscribing twice equals subscribing once |
| WsServer.UnsubscribeRemovesOnlyThatMembership | src/ws/server.ts:136-147 | unsubscribing removes exactly one membership |
| WsServer.SubscribeThenUnsubscribe | src/ws/server.ts:126-147 | unsubscribing right after a fresh subscription restores the registry |
| WsServer.PurgeRemovesOnlyThatSocket | src/ws/server.ts:149-155 | clean-up removes the socket everywhere and no other membership |
| WsServer.SubscribeKeepsNoEmptySets | src/ws/server.ts:130-134 | subscribing keeps the no-empty-set invariant |
| WsServer.UnsubscribeKeepsNoEmptySets | src/ws/server.ts:143-145 | unsubscribing keeps the no-empty-set invariant |
| WsServer.PurgeKeepsNoEmptySets | src/ws/server.ts:149-155 | clean-up keeps the no-empty-set invariant |
| WsServer.PurgeStep | src/ws/server.ts:150-153 | visiting one entry of the clean-up loop is one `unsubscribeFromMatch` when the set holds the socket |
| WsServer.SubscriptionRegistry.constructor | src/ws/server.ts:124 | the registry starts empty |
| WsServer.SubscriptionRegistry.SubscribeToMatch | src/ws/server.ts:126-134 | the in-place subscribe gives `WithSubscriber` of the old registry |
| WsServer.SubscriptionRegistry.UnsubscribeFromMatch | src/ws/server.ts:136-147 | the in-place unsubscribe gives `WithoutSubscriber` of the old registry |
| WsServer.SubscriptionRegistry.CleanUpMatchSubscriptions | src/ws/server.ts:149-155 | the loop over the entries gives `Purged` of the old registry |
| WsServer.SubscriptionRegistry.BroadcastToMatch | src/ws/server.ts:157-166 | each subscriber gets the payload once if open and nothing otherwise; no other socket is touched |
| WsServer.SubscriptionRegistry.OnOpen | src/ws/server.ts:74-85 | the socket joins "global" and is sent the welcome |
| WsServer.SubscriptionRegistry.OnClose | src/ws/server.ts:97-101 | the socket leaves "global" and every match set |
| WsServer.SubscriptionRegistry.HandleMatchMessage | src/ws/server.ts:257-347 | SUBSCRIBE/UNSUBSCRIBE update registry and topics and reply; POINT_SCORED is handed on only with all fields given, else an error reply |
| MatchStatusRule.GetMatchStatus | src/utils/match-status.ts:18-43 | no status for an invalid date; scheduled before start, finished from end on, live in between |
| MatchStatusRule.StatusMovesForward | src/utils/match-status.ts:31-42 | as time passes the status only moves forward |
| MatchStatusRule.NeverLiveWithoutDuration | src/utils/match-status.ts:37-42 | a match whose end is not after its start is never live |
| MatchStatusRule.SyncedStatus | src/utils/match-status.ts:51-75 | a missing or invalid time keeps the status; otherwise it becomes the computed one |
| MatchStatusRule.SyncIdempotent | src/utils/match-status.ts:67-74 | syncing twice at the same instant equals syncing once |
| MatchStatusRule.SyncMatchStatus | src/utils/match-status.ts:51-75 | the row takes the synced status, the callback runs once exactly when it changed, and the result is the row's status |

## Left out

- Database access is replaced by the in-memory maps of `MatchStore`. The Drizzle queries, the transaction and the SQL increments are not modelled, and no failure of a write is modelled.
- MatchController.PointScored, MatchController.MatchStore.ProcessPointScored: where the `matchState` column holds no snapshot, the source casts it and hands it to the engine anyway, and the engine then reads undefined scores, games, tie-break flag and winner. The model stops there with `StateNotASnapshot` and writes nothing; what the engine computes on the missing fields is not modelled. The column holds no snapshot once it holds an engine outcome, which the controller as written stores at `src/controllers/match.ts:86` (see Findings). The column's initial shape (`src/db/schema.ts` and match creation) is not part of this model.
- MatchControllerProperties.AsWrittenNextPointLosesSnapshot: its no-write and no-broadcast conjuncts describe the model's `StateNotASnapshot` stop. In the source, the next call goes on. The engine reads the stored outcome as a snapshot with no winner and no tie-break flag and takes its standard branch. The controller then overwrites `matchState` with the new outcome, bumps the player's stats and broadcasts the update (`src/controllers/match.ts:83-146`). That call is not modelled.
- Id parsing. Match and player ids are integers in the model. `parseInt` of the request strings, and a NaN id, are not modelled.
- The `MATCH_UPDATE` timestamp and the console logging are not modelled; the clock is I/O.
- The publication through Bun (`broadcastToAll`, `serverRef`) is not modelled. The controller returns the update it would publish.
- JSON parsing and serialisation are not modelled. A client message is taken as already parsed (`ClientMessage`), and a sent message is logged as the value that would be serialised.
- `String(...)` coercion of non-string fields is not modelled, and neither is the falsiness of a numeric 0 field.
- `processStatsRequest` (REQUEST_STATS) is not modelled: it is database queries and date arithmetic.
- The snapshot fetch on SUBSCRIBE and the asynchronous error reply from `processPointScored` are not modelled; they are asynchronous I/O.
- `broadcastMatchCreated` and `broadcastCommentary` are thin calls into the publication and broadcast paths.
- Bun's own topic bookkeeping when a socket closes is not modelled; only the `topics` set the handlers change is.
- Concurrency and ordering are not modelled: concurrent `processPointScored` calls, promise chains, and broadcast after commit.
- `match_stats` has no uniqueness constraint on (match, player). The model keeps one row per pair; the source's update would touch every matching row.
- Score strings are modelled as the values the engines produce: "0", "15", "30", "40", "AD" and decimal counts. Other strings are not modelled.
- `syncMatchStatus` awaits its callback. A rejected callback, which leaves the status unchanged and propagates, is not modelled.
- `PadelScoringProperties.GamePointOwnerLooksAhead` is proved only for snapshots reachable by play (`InPlay`), with no "AD" under golden point. The flags are not claimed to look ahead correctly on arbitrary stored snapshots.
- `PadelScoringProperties.SetPointFlagLooksAhead` and `PadelScoringProperties.MatchPointFlagLooksAhead` have the same reachability condition.
- `PadelRulesProperties.GamePointFlagLooksAhead` and `PadelRulesProperties.SetPointFlagLooksAhead` are proved only for reachable snapshots.
- `PadelRulesProperties.InPlayPreserved` holds only for side names the engine recognises. With any other name a tie-break can run past a decided score (see Findings).
- `EngineComparison.EnginesAgreeOnStandardPoints` compares the game-point and set-point flags only. Match point differs by design: the older engine never raises it.
- The 2-0 finish some scenarios expect follows from neither engine and is not stated.

## Findings

| source | as written | input that shows it | evidently intended | confidence | as-written member | corrected member |
|---|---|---|---|---|---|---|
| src/controllers/match.ts:58-71 | the controller passes the side as "a" or "b", while `handlePointScored` compares it with "pair_a" and "pair_b" | a point credited to pair A at 0-0: the engine sets pair B to "15"; in a tie-break no point ever closes the set | pass "pair_a" / "pair_b", so the credited pair scores | not executed; high | MatchControllerProperties.AsWrittenPointForPairAScoresForPairB | MatchControllerProperties.PointCreditsScorer |
| src/controllers/match.ts:76-81 | the status check reads `winnerSide` on the engine's outcome, which only has it inside `nextSnapshot` | a set-3 match point at 5-0, 40-0 won by pair A with an engine that finishes matches: the snapshot has a winner and the status stays "live" | read `nextSnapshot.winnerSide`, so a won match becomes "finished" | not executed; medium (the imported engine never finishes a match, which hides it) | MatchControllerProperties.AsWrittenStatusMissesWin | MatchControllerProperties.ControllerFinishesWonMatch |
| src/controllers/match.ts:86 | the whole engine outcome `{ nextSnapshot, history, setCompleted }` is stored as `matchState`, and line 70 reads it back as a snapshot | any point on a match once its column holds an engine outcome, e.g. the point after any successful one: the engine reads undefined scores, games and tie-break flag | store `nextState.nextSnapshot` | not executed; high | MatchControllerProperties.AsWrittenNextPointLosesSnapshot | MatchControllerProperties.NextPointReadsStoredSnapshot |
