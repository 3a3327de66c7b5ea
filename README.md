# Lake-crossing puzzle engine and session analytics, in Dafny

This project models two parts of the Cannibals-and-Missionaries repository.

**The puzzle engine of `LakeCrossingGame`.** It exists in three variants: `lake_crossing_game_gemini6.py`, `_gemini4.py` and `_gemini2.py`. This is the classic river-crossing puzzle:
- three priests and three carnivores start on the left shore with a two-seat boat;
- the player loads units into the boat, sends it across, and unloads them;
- the game is lost when, on some shore, carnivores outnumber the priests present;
- it is won when everyone stands on the right shore and the empty boat is docked there.

**The session analytics aggregator.** This is `analyze_gameplay` in `cloud_functions/analytics/main.py`. It makes one pass over the stored game sessions and builds:
- counters;
- sums;
- a frequency map of mistake tags;
- three guarded averages.

Modules:

- `Wrappers`: `Option` and `Result`.
- `Rules`: the puzzle state shared by the three variants, as a `Game` value.
  - The predicates are `is_valid_state` and `is_win_state`.
  - Every state change is a pure transition function: `MoveCharacter`, `StartBoatMovement`, `FinishBoatMovement`, `CheckGameState`, and `HandleClick` with its game-over gate.
  - `Run` is a sequence of clicks.
  - The variants differ only in the store gate on landing. `storeConnected` models `db is not None`.
- `RulesProofs`: the invariants of the state machine.
  - Each kind is conserved, and the boat carries at most two.
  - The flags agree with the verdict, and the game-over state is frozen.
  - The dict-equality aliasing in `is_valid_state` is harmless.
  - The known eleven-crossing solution wins. A two-priest first crossing loses.
- `Gemini6`, `Gemini4`, `Gemini2`: one `LakeCrossingGame` class each.
  - The fields are updated in place, as the Python does.
  - Each method is proved to take the state to the `Rules` transition of the old state.
  - `Gemini6` also has `track_mistakes` and the state-key hint table of `get_hint`.
- `Analytics`: `AnalyzeGameplay`, a loop over session records, proved against the recursive specification functions `TallyOf` and `MistakesOf`. Lemmas then prove:
  - `completed + active == total`;
  - `optimal <= wins <= completed`;
  - every tag occurrence counts exactly once;
  - the success rate is a percentage.

Three behaviours of the code that are easy to miss (the model follows the code):
- **Verdict after every transfer.** `check_game_state` runs after every transfer as well as after every crossing. A game can be won by the last unload, and the model proves that this is the only way to win (`WinOnlyByUnloading`).
- **`track_mistakes` reads raw counts.** It looks at the shore counts without the docked cargo, so its tags do not coincide with the loss verdict (`TaggedButValid`, `LostButUntagged`).
- **No skip for malformed records.** The aggregator reads missing fields with defaults. A record whose `moves` has no length, or a dict move entry whose `mistakes` cannot be iterated or counted, makes the whole batch fail with the error result.

## Model

| member | source | states |
|---|---|---|
| Rules.CheckGameState | lake_crossing_game_gemini6.py:420-434 | a win is tested first and sets `game_over` and `win`; otherwise an invalid state sets `game_over` and clears `win`; otherwise the flags stay; no other field changes |
| Rules.MoveCharacter | lake_crossing_game_gemini6.py:357-379 | a refused transfer changes no count but still takes the verdict; the boat's side, the move counter and the crossing flag never change |
| Rules.StartBoatMovement | lake_crossing_game_gemini6.py:381-383 | a crossing starts exactly when the boat carries someone; nothing else changes |
| Rules.FinishBoatMovement | lake_crossing_game_gemini6.py:401-418 | without the store nothing changes; with it the boat's side flips, `moves` grows by exactly one, the crossing flag clears and the counts stay; a crossing with cargo cannot win |
| Rules.Cross | lake_crossing_game_gemini6.py:381-418 | an empty boat does not move; a laden boat with the store flips side, counts one move and keeps all counts; without the store it stays under way |
| Rules.HandleClick | lake_crossing_game_gemini6.py:294-308 | while the game is over only try-again (back to the initial state) acts; the program exits only on end-game after a loss; a click in play counts at most one move |
| RulesProofs.InitialSettled | lake_crossing_game_gemini6.py:165-175 | the reset state is conserved, valid, not over, and its flags agree with its verdict |
| RulesProofs.WinIsValid | lake_crossing_game_gemini6.py:436-457 | the win state is a valid, conserved state |
| RulesProofs.EqualShoresOnlyWhenBalanced | lake_crossing_game_gemini6.py:436-448 | under conservation and capacity the two shores hold equal counts only at one priest and one carnivore each, with the same in the boat |
| RulesProofs.AliasingCountsCargoTwice | lake_crossing_game_gemini6.py:438-445 | with equal shores the value comparison adds the cargo to both shores |
| RulesProofs.AliasingHarmless | lake_crossing_game_gemini6.py:436-448 | on a conserved state `is_valid_state` as written agrees with counting the cargo once, at the docked shore |
| RulesProofs.TransferEffect | lake_crossing_game_gemini6.py:357-370 | a refused transfer changes nothing; an accepted one changes only the docked shore and the boat, keeps their sum, and moves exactly one unit of that kind |
| RulesProofs.TransferKeepsConserved | lake_crossing_game_gemini6.py:357-370 | every transfer keeps three of each kind and at most two in the boat |
| RulesProofs.TransferKeepsValidity | lake_crossing_game_gemini6.py:357-370 | a transfer never changes the validity verdict |
| RulesProofs.CrossKeepsConserved | lake_crossing_game_gemini6.py:381-418 | a crossing keeps three of each kind and at most two in the boat |
| RulesProofs.VerdictIgnoresFlags | lake_crossing_game_gemini6.py:436-457 | both predicates read only the counts and the boat's side |
| RulesProofs.CheckSettles | lake_crossing_game_gemini6.py:420-434 | after `check_game_state` the flags agree with the verdict on the counts |
| RulesProofs.MoveKeepsSettled | lake_crossing_game_gemini6.py:357-379 | a transfer in play keeps the state conserved with flags matching its verdict |
| RulesProofs.CrossKeepsSettled | lake_crossing_game_gemini6.py:401-418 | a crossing in play keeps the state conserved with flags matching its verdict |
| RulesProofs.ClickKeepsSettled | lake_crossing_game_gemini6.py:294-308 | every click keeps the state conserved with flags matching its verdict |
| RulesProofs.RunKeepsSettled | lake_crossing_game_gemini6.py:294-308 | every state reachable by clicks is conserved, has at most two aboard, and has flags matching its verdict |
| RulesProofs.TransferNeverLoses | lake_crossing_game_gemini6.py:326-379 | a transfer click in play never loses the game |
| RulesProofs.WinOnlyByUnloading | lake_crossing_game_gemini6.py:294-379 | a click in play wins only if it unloads a unit |
| RulesProofs.LoadNeverWins | lake_crossing_game_gemini6.py:364-372 | loading never produces a win |
| RulesProofs.GameOverFrozen | lake_crossing_game_gemini6.py:298-304 | once the game is over, clicks that never hit try-again leave the whole state unchanged |
| RulesProofs.DisconnectedNeverWins | lake_crossing_game_gemini6.py:401-404 | without the store the boat never leaves the left shore and the game is never won |
| RulesProofs.RunAppend | lake_crossing_game_gemini6.py:294-308 | clicks that never exit can be run in two parts |
| RulesProofs.RunStep | lake_crossing_game_gemini6.py:294-308 | a click that does not exit is one step of a run |
| RulesProofs.Trip | lake_crossing_game_gemini6.py:294-308 | the clicks of one trip never include end-game |
| RulesProofs.Trips | lake_crossing_game_gemini6.py:294-308 | the clicks of a sequence of trips never include end-game |
| RulesProofs.SolutionStep | lake_crossing_game_gemini6.py:294-308 | a sequence of trips runs trip by trip |
| RulesProofs.OneUnitTrip | lake_crossing_game_gemini6.py:294-418 | a load, a crossing and an unload through given states form one trip |
| RulesProofs.TwoUnitTrip | lake_crossing_game_gemini6.py:294-418 | two loads, a crossing and two unloads through given states form one trip |
| RulesProofs.EarlyLoss | lake_crossing_game_gemini6.py:420-448 | sending two priests across first loses at once: one priest is left with three carnivores |
| RulesProofs.ElevenCrossingsWin | lake_crossing_game_gemini6.py:466-511 | the eleven-crossing solution the hints follow ends won and over with exactly eleven moves |
| Gemini6.LakeCrossingGame.constructor | lake_crossing_game_gemini6.py:165-175 | a new game holds the initial state |
| Gemini6.LakeCrossingGame.ResetGame | lake_crossing_game_gemini6.py:165-175 | the fields hold the initial state, which is settled and not over |
| Gemini6.LakeCrossingGame.CheckGameState | lake_crossing_game_gemini6.py:420-434 | the fields take `Rules.CheckGameState` of the old state: a win sets both flags, an invalid state sets `game_over` and clears `win` |
| Gemini6.LakeCrossingGame.MoveCharacter | lake_crossing_game_gemini6.py:357-379 | the in-place dict updates and the verdict take the fields to `Rules.MoveCharacter` of the old state |
| Gemini6.LakeCrossingGame.StartBoatMovement | lake_crossing_game_gemini6.py:381-383 | the fields take `Rules.StartBoatMovement` of the old state; the crossing flag is set exactly when the boat carries someone |
| Gemini6.LakeCrossingGame.FinishBoatMovement | lake_crossing_game_gemini6.py:401-418 | the fields take `Rules.FinishBoatMovement` of the old state under the store gate |
| Gemini6.LakeCrossingGame.HandleClick | lake_crossing_game_gemini6.py:294-355 | the fields and the exit take `Rules.HandleClick`; while over, every click except try-again changes nothing; a settled state stays settled |
| Gemini6.TrackMistakes | lake_crossing_game_gemini6.py:150-163 | one outnumber tag per shore endangered on its raw counts, exactly one invalid-load tag when the boat holds more than two and none otherwise, nothing else |
| Gemini6.NoInvalidLoadWhenConserved | lake_crossing_game_gemini6.py:159-161 | the invalid-load tag never appears in a conserved state |
| Gemini6.TagsMatchVerdictWithEmptyBoat | lake_crossing_game_gemini6.py:150-163 | with an empty boat, some tag is emitted exactly when the state is invalid |
| Gemini6.TagOnlyWhereCargoSaves | lake_crossing_game_gemini6.py:150-163 | in a valid state a tag means the docked shore is outnumbered on its own and rescued by priests in the boat |
| Gemini6.TaggedButValid | lake_crossing_game_gemini6.py:150-163 | a valid state can carry an outnumber tag |
| Gemini6.LostButUntagged | lake_crossing_game_gemini6.py:150-163 | a lost state can carry no tag |
| Gemini6.GetHint | lake_crossing_game_gemini6.py:470-511 | a hint is found exactly when the state key is in the table, and it is that entry's non-empty text |
| Gemini6.HintKeysAreTable | lake_crossing_game_gemini6.py:470-503 | the table holds exactly the eleven listed keys |
| Gemini6.HintsFollowSolution | lake_crossing_game_gemini6.py:470-511 | the eleven keys are the states before the eleven crossings of the solution, in order, and only they get a hint |
| Gemini6.EmptyBoatVerdict | lake_crossing_game_gemini6.py:436-448 | with an empty boat, validity is that neither shore is outnumbered |
| Gemini6.HintStatesInPlay | lake_crossing_game_gemini6.py:470-503 | every hinted state, with an empty boat, is conserved, valid and not yet won |
| Gemini4.LakeCrossingGame.constructor | lake_crossing_game_gemini4.py:110-120 | a new game holds the initial state |
| Gemini4.LakeCrossingGame.ResetGame | lake_crossing_game_gemini4.py:110-120 | the fields hold the initial state, which is settled and not over |
| Gemini4.LakeCrossingGame.CheckGameState | lake_crossing_game_gemini4.py:342-356 | the fields take `Rules.CheckGameState` of the old state: a win sets both flags, an invalid state sets `game_over` and clears `win` |
| Gemini4.LakeCrossingGame.MoveCharacter | lake_crossing_game_gemini4.py:279-301 | the in-place dict updates and the verdict take the fields to `Rules.MoveCharacter` of the old state |
| Gemini4.LakeCrossingGame.StartBoatMovement | lake_crossing_game_gemini4.py:303-305 | the fields take `Rules.StartBoatMovement` of the old state; the crossing flag is set exactly when the boat carries someone |
| Gemini4.LakeCrossingGame.FinishBoatMovement | lake_crossing_game_gemini4.py:323-340 | the fields take `Rules.FinishBoatMovement` of the old state under the store gate |
| Gemini4.LakeCrossingGame.HandleClick | lake_crossing_game_gemini4.py:229-246 | the fields and the exit take `Rules.HandleClick`; while over, every click except try-again changes nothing; a settled state stays settled |
| Gemini2.LakeCrossingGame.constructor | lake_crossing_game_gemini2.py:41-51 | a new game holds the initial state |
| Gemini2.LakeCrossingGame.ResetGame | lake_crossing_game_gemini2.py:41-51 | the fields hold the initial state, which is settled and not over |
| Gemini2.LakeCrossingGame.CheckGameState | lake_crossing_game_gemini2.py:257-267 | the fields take `Rules.CheckGameState` of the old state: a win sets both flags, an invalid state sets `game_over` and clears `win` |
| Gemini2.LakeCrossingGame.MoveCharacter | lake_crossing_game_gemini2.py:199-221 | the in-place dict updates and the verdict take the fields to `Rules.MoveCharacter` of the old state |
| Gemini2.LakeCrossingGame.StartBoatMovement | lake_crossing_game_gemini2.py:223-225 | the fields take `Rules.StartBoatMovement` of the old state; the crossing flag is set exactly when the boat carries someone |
| Gemini2.LakeCrossingGame.FinishBoatMovement | lake_crossing_game_gemini2.py:243-255 | the landing is unconditional: the side flips, `moves` grows by one, the crossing flag clears, then the verdict |
| Gemini2.LakeCrossingGame.HandleClick | lake_crossing_game_gemini2.py:149-197 | the fields and the exit take `Rules.HandleClick` with the landing always taking place; while over, every click except try-again changes nothing; a settled state stays settled |
| Analytics.Summarize | cloud_functions/analytics/main.py:69-77 | the counters and the mistake map pass through; with no completed games or no wins the averages stay 0; otherwise averages times counts give the sums and the success rate is 100 times wins over completed |
| Analytics.TallyOfStep | cloud_functions/analytics/main.py:39-67 | one more record is one more step of the counters and the mistake map |
| Analytics.CountMistakes | cloud_functions/analytics/main.py:66-67 | each tag of one move entry adds one to its count |
| Analytics.CountMoveMistakes | cloud_functions/analytics/main.py:64-67 | dict entries add their tags and other entries add nothing; a dict entry whose `mistakes` cannot be tallied raises |
| Analytics.CountSession | cloud_functions/analytics/main.py:44-61 | the counters of one session record are updated as the specification function says |
| Analytics.AnalyzeGameplay | cloud_functions/analytics/main.py:17-92 | a failed fetch gives the error result; so does the first record whose `moves` has no length or whose move entries carry `mistakes` that cannot be tallied, with no partial summary; otherwise the result is the summary of the whole sequence of records |
| Analytics.FirstFault | cloud_functions/analytics/main.py:39-67 | no error exactly when no record raises; otherwise the error of the earliest record that raises, and without an error every `moves` has a length |
| Analytics.FaultAt | cloud_functions/analytics/main.py:39-67 | the first record that raises decides the error of the whole batch, whatever follows it |
| Analytics.TallyCounts | cloud_functions/analytics/main.py:44-61 | the total is the number of records, completed plus active is the total, optimal ≤ wins ≤ completed, each counter counts the records meeting its test, and the moves total is the sum of the log lengths |
| Analytics.AddTagsCounts | cloud_functions/analytics/main.py:66-67 | each tag occurrence adds exactly one to its count, and the keys are the old keys plus the tags |
| Analytics.AddEntriesCounts | cloud_functions/analytics/main.py:64-67 | the counts are the old counts plus the multiset of the dict entries' tags |
| Analytics.MistakeCounts | cloud_functions/analytics/main.py:63-67 | each tag's count is its number of occurrences over all entries of all records, and only occurring tags are keys |
| Analytics.RateBounded | cloud_functions/analytics/main.py:70-73 | with no more wins than completed games the success rate lies between 0 and 100 |
| Analytics.SuccessRateBounded | cloud_functions/analytics/main.py:70-73 | the success rate of any sequence of records lies between 0 and 100 |
| Analytics.EmptyInput | cloud_functions/analytics/main.py:23-37 | no sessions give all-zero counters, zero averages and an empty mistake map |
| Analytics.ThreeSessions | cloud_functions/analytics/main.py:39-77 | a worked batch: an optimal win, a loss and an active session with mistake tags |

## Left out

- Rendering, asset loading, the boat animation and the hint and narration timers: these are UI. The pixel stepping in `update_boat_position` adds nothing to the puzzle state, so a crossing is one atomic step.
- Click hit-testing in `handle_character_click` and `handle_click`: this is UI geometry. A click is a `Click` value after hit-testing.
  - The unit button carries the guard that the hit-test applies: a click on an unavailable unit does nothing.
  - Clicks on the hint, narration and statistics buttons change no puzzle field.
- Transfers stay clickable while the boat is moving. This is UI timing: crossings are atomic in the model.
- Firestore I/O: session creation, saving moves, the best-score and recent-games fetches, and the `stream()` fetch of the aggregator. The store appears only as the `storeConnected` flag on landing and as the `None` source of `AnalyzeGameplay`.
  - The save-on-verdict calls in `check_game_state` are not modelled.
  - The branch of `reset_game` that creates a session is not modelled either. It needs the store, and it cannot run, since `game_over` has just been cleared.
- Gemini hint and narration generation and their retries; text-to-speech and its threads: foreign network calls and concurrency.
  - `GetHint` models only the table lookup. An unmatched key yields `None` where the program asks the generator.
- The `print` debug output and `last_move_state`: output only.
- The contents of the error result. `{"error": str(e)}` becomes an `AnalyticsError` saying why the batch failed. Other exceptions of the store client are not modelled.
- Python floats: the averages and durations are exact `real`s, without IEEE rounding. A non-numeric `moves_count` or `game_duration` is not modelled: the first is an `int` and the second a `real`.
- Mistake tags are strings. A `mistakes` value that is itself a string (iterated character by character) is not modelled; a `mistakes` value that cannot be iterated (`None`, a number) and a tag that cannot key a dict (a list, a map) are both the `MalformedDictEntry` case, which fails the batch.
- `display_analytics`, `get_game_analytics` and `resource_path`: presentation and plumbing.
