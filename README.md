# CAMINOALEXITO-PLUS in Dafny

A model of the rules of the board game "Camino al Éxito": players walk
a 40-tile square board, take side routes, draw cards, pay fines into the
common pot ("pozo") and win when their success score reaches 100. The model
covers the central reducer (`state/gameReducer.ts`) and the rule-bearing
parts of the screens and modals around it. Those are the setup form, the
dice and movement animations, the board rendering, the final ranking, the
card, dice-event, hospital, route and gift modals, and the online session
shell of `App.tsx`.

Modules, one per source file or concern:

- `GameTypes` (`types.dfy`): the entities of `types.ts` as datatypes. It
  also holds `Config`, the game's constant tables (boards, decks and
  route costs), which is passed as a parameter. `RollDie`, which maps a
  random draw to 1..6, lives here too.
- `GameReducer` (`game_reducer.dfy`): one function per action of
  `gameReducer`. `Reduce` dispatches on the action exactly as the source
  does, including the two defects listed under "## Findings";
  `ReduceCorrected` dispatches the corrected FINISH_MOVE and RESOLVE_GIFT
  instead. Every random choice (a card draw, a die) is a `nat` oracle
  argument.
- `GameReducerProperties` (`game_reducer_props.dfy`): lemmas relating
  several transitions. These cover money conservation, non-negative
  stats, the birthday gift chain, the early-end winner, sync idempotence
  and well-formedness of turns.
- `Setup` (`setup.dfy`): the player form of `SetupScreen.tsx` as a class
  `SetupForm`, with the time points, name validation and auto-balance.
- `Movement` (`movement.dfy`): `GameScreen.tsx`. The dice effect and the
  two animation loops are methods that produce the action sequences they
  dispatch, together with what those sequences do to the state.
- `Board` (`board.dfy`): `GameBoard.tsx`. It holds the 11×11 grid to tile
  index map, the highlight and the grouping of tokens by tile.
- `Ranking` (`ranking.dfy`): `WinScreen.tsx`. It ranks the other players
  and splits them into two columns.
- `CardModal`, `DiceEventModal`, `HospitalModal`, `RouteModal` and
  `GiftSelectionModal`: one per modal. These hold the buttons offered,
  the tables rolled and the values sent back.
- `Online` (`online.dfy`): the `Session` class around the reducer. It
  covers subscribe, publish with echo suppression, create and join room,
  and the STAT_UPDATE auto-advance. It also maps each modal answer to
  the action it dispatches.

JavaScript semantics are written out where they matter:

- truthiness: `IsSet` for `x && …` on amounts, `HasRoute` for a non-empty
  route id;
- the `||` fallbacks: `RouteFee`, where a cost of 0 falls back to 3000;
- `%` truncating toward zero: `JsRem`;
- `includes`: `Contains`;
- the `Math.min`/`Math.max` clamps.

Object spreads that share a nested `actual` object are modelled by their
effect. `statsChanged` always compares equal objects after a shallow copy,
so DECIDE_ROUTE, RESOLVE_CARD, RESOLVE_DICE_EVENT and RESOLVE_HOSPITAL set
`isShowingStatChanges` to false.

Behaviour of the code worth noting:

- The RESOLVE_CARD win branch (gameReducer.ts:606-607) returns the old state
  with the winner set. Because `p.actual` is shared, the new stats are
  still in `players`; only the pot and phase updates are lost.
  `ResolveCardStep` states exactly that.
- The route card category is "Ruta " followed by the route id
  (gameReducer.ts:390). The keyword test is case-sensitive, so "Ruta" does
  not match "RUTA". When the route id contains none of the style keywords,
  the card gets the plain style (`CardModal.RouteAndBirthdaySummaryArePlain`).
- The birthday summary category is "CUMPLEAÑOS", not "FELIZ CUMPLEAÑOS", so
  it is styled plainly too (same lemma).
- `validateAge` reads the age from before it clears an out-of-range value
  (SetupScreen.tsx:177-218).
- `canInteract` defaults to true and `App.tsx` never passes it. The modals
  keep it as a constructor argument.

## Model

| member | source | states |
|---|---|---|
| GameReducer.CalculateSuccess | state/gameReducer.ts:63-68 | success never exceeds the sum of the goals, and is at least the time points when stats and goals are non-negative |
| GameReducerProperties.SuccessMonotone | state/gameReducer.ts:63-68 | with the same goals, more money, health and happiness never lowers the success score |
| GameReducer.NextIndex | state/gameReducer.ts:143 | the next player index stays in range and wraps to 0 after the last player |
| GameReducer.RouteFee | state/gameReducer.ts:532 | the fee is the listed cost when it is present and non-zero, and exactly the 3000 fallback otherwise; never 0 |
| GameReducer.RouteEntryCost | state/gameReducer.ts:531-532 | entry is free exactly for a route already visited, and otherwise costs the route fee |
| GameReducer.OtherIndices | state/gameReducer.ts:470-472 | the givers of a birthday are exactly the other player indices, ascending, one fewer than the players |
| GameReducer.SavePlayerStep | state/gameReducer.ts:96-117 | the new player is appended with its setup index as id; the last player starts the game with the turn overlay, otherwise setup moves to the next player |
| GameReducer.FinishRollStep | state/gameReducer.ts:125-154 | a player in a route moves along it by the first die; a zero roll ends the turn and passes it on; otherwise the main-board move of d1+d2 from the current position starts |
| GameReducer.UpdatePositionStep | state/gameReducer.ts:156-160 | only the current player's position changes; everything else stays |
| GameReducer.LapBonus | state/gameReducer.ts:169-190 | a completed lap adds one lap, collects passive income, grows passive income by 1000 and adds 2 + laps health; nothing else changes |
| GameReducer.Donations | state/gameReducer.ts:223-275 | every player but the lander gives min(money, amount); the lander is untouched; the money given plus the money left equals the money before |
| GameReducer.TodosDonan | state/gameReducer.ts:223-275 | the corrected "Todos Donan": the donations leave the players and the card adds exactly their total to the pot, so money is conserved |
| GameReducer.TodosDonanAsWritten | state/gameReducer.ts:227-274 | as written: the players come back unchanged while the card still adds the donation total to the pot |
| GameReducer.LandedPlayers | state/gameReducer.ts:193-356 | landing changes only stats, never the lander's, and changes nobody unless the tile is "Todos Donan" |
| GameReducer.BirthdayChain | state/gameReducer.ts:278-322 | a lone player gets no gift chain; otherwise the chain asks every other player in index order for the current player, with n-2 pending |
| GameReducer.BonusLandingModal | state/gameReducer.ts:278-322 | a bonus tile shows its info exactly when it is not one of the action bonuses; a birthday opens the gift chain, or the bank card when alone; "Ganaste" opens the passive card of the tile amount, "Recita un Poema" the poem card, "Día de Suerte" the lucky-day card |
| GameReducer.LandingModal | state/gameReducer.ts:193-356 | the modal of each tile kind: info tiles, a card from the tile's deck, the route choice, the dice event, the community card, the tax card of a personal fine, the relax card, the hospital modal on HOSPITAL and VACACIONES, the pot card on SUERTE, and the bonus modal on bonus tiles |
| GameReducer.LandOn | state/gameReducer.ts:193-356 | landing sets the players, modal and animation, and TILE_INFO exactly for the info tiles, TILE_ACTION otherwise |
| GameReducer.Settled | state/gameReducer.ts:169-190 | the lap bonus applies exactly when the end position is below the start position |
| GameReducer.FinishMoveStep | state/gameReducer.ts:162-357 | corrected FINISH_MOVE: the move ends on the tile at the end position; the lander is settled; phase, modal, animation cue and players are those of landing on that tile; other players' non-stat fields stay; the pot stays; the lap banner shows exactly on a lap |
| GameReducer.FinishMoveAsWritten | state/gameReducer.ts:162-357 | as written: only the lander changes in the players, the rest of the state equals the corrected step |
| GameReducer.UpdateRouteStepStep | state/gameReducer.ts:359-363 | only the current player's route step changes |
| GameReducer.Graduated | state/gameReducer.ts:370-386 | graduation adds the fee to passive income and records the route as visited once |
| GameReducer.FinishRouteMoveStep | state/gameReducer.ts:365-396 | at the route's end the player graduates with the graduation cue and the overflow kept; otherwise a card of the route's deck is shown |
| GameReducer.EndTurn | state/gameReducer.ts:504 | ends the turn: TURN_END, overlay on, next player, banner cleared, players and pot kept |
| GameReducer.FinePayments | state/gameReducer.ts:439-460 | a personal fine costs the lander min(money, amount); a global one is the donations; money paid plus money left is conserved |
| GameReducer.ChargeFine | state/gameReducer.ts:439-460 | the pot gains exactly what the players pay, total money including the pot is conserved, the phase goes to STAT_UPDATE |
| GameReducer.GanasteStep | state/gameReducer.ts:464-468 | "Ganaste" raises only the lander's passive income by the tile amount and shows the passive card |
| GameReducer.BirthdayStep | state/gameReducer.ts:469-490 | alone, the birthday ends the turn; otherwise it opens the gift chain with zeroed gifts |
| GameReducer.AdvanceOnBonus | state/gameReducer.ts:461-500 | a bonus tile either opens a modal for the same player or ends the turn |
| GameReducer.AdvanceOnTile | state/gameReducer.ts:400-438 | other tiles keep players and pot, and either open a modal in TILE_ACTION or end the turn |
| GameReducer.AdvanceTileInfo | state/gameReducer.ts:400-506 | TILE_INFO dispatches on the tile kind: fines, bonuses, the others, and no tile ends the turn |
| GameReducer.AdvanceTurnPhaseStep | state/gameReducer.ts:398-521 | STAT_UPDATE and TURN_END pass the turn to the next player in IDLE with the overlay; other phases outside TILE_INFO are left alone |
| GameReducer.DecideRouteStep | state/gameReducer.ts:523-560 | entering pays the entry cost into the pot and puts the player on step 1 of the route; a refusal or a failed entry changes nothing but the phase, STAT_UPDATE off a route and IDLE with rolling cleared inside one; total money is conserved |
| GameReducer.EndAnimationStep | state/gameReducer.ts:562-586 | the cue is cleared; only after graduation does the player leave the route |
| GameReducer.LeaveRoute | state/gameReducer.ts:570-583 | the graduate leaves the route; leftover steps start a main-board move, otherwise the turn ends |
| GameReducer.Bump | state/gameReducer.ts:597-600 | a truthy delta is added and floored at zero; a falsy one leaves the value |
| GameReducer.ApplyCardRewards | state/gameReducer.ts:597-600 | a card bumps money, health, happiness and passive income, each floored at zero |
| GameReducer.PotAfterCard | state/gameReducer.ts:601-602 | a pot reset empties the pot, otherwise the card's pot addition is added |
| GameReducer.CardResolvedPlayer | state/gameReducer.ts:595-603 | the card's rewards apply exactly when accepted and present |
| GameReducer.ResolveCardStep | state/gameReducer.ts:588-611 | only the current player changes; reaching 100 success declares them the winner with pot and phase kept; otherwise the pot is updated and the phase goes to STAT_UPDATE |
| GameReducer.ApplyDiceRewards | state/gameReducer.ts:613-624 | a dice event bumps money, health and happiness and keeps passive income |
| GameReducer.ResolveDiceEventStep | state/gameReducer.ts:613-628 | only the current player changes; the pot gains whatever a negative money reward asks for, never less |
| GameReducer.ResolveHospitalStep | state/gameReducer.ts:630-645 | the stay costs money floored at zero, adds health and happiness, and the pot gains the full cost |
| GameReducer.ReduceBest | state/gameReducer.ts:650-658 | the best-player search returns an index in range |
| GameReducerProperties.ReduceBestIsEarliestMax | state/gameReducer.ts:650-658 | the search finds the first player with the highest success |
| GameReducer.EndGameEarlyStep | state/gameReducer.ts:647-667 | with players, the game ends celebrating the best player; with none, nothing changes |
| GameReducerProperties.EndGameEarlyWinner | state/gameReducer.ts:647-667 | the early-end winner is a player of the game with maximal success, the earliest such |
| GameReducer.Deduct | state/gameReducer.ts:678-681 | the giver loses each truthy gift field |
| GameReducer.Accumulate | state/gameReducer.ts:685-689 | the gifts so far grow by the gift, field by field |
| GameReducer.ResolveGiftStep | state/gameReducer.ts:669-760 | corrected RESOLVE_GIFT: the giver pays; the next giver is asked with the total so far; after the last, the total becomes the summary card, which waits in TILE_ACTION without stat changes on show, and the receiver is untouched |
| GameReducer.Credit | state/gameReducer.ts:708-714 | the receiver gains each field of the total |
| GameReducer.ResolveGiftAsWritten | state/gameReducer.ts:669-760 | as written: at the last giver the receiver is also credited at once with the total the card carries, and the phase becomes STAT_UPDATE with stat changes on show |
| GameReducer.Compact | state/gameReducer.ts:787-792 | `Object.values` of index-keyed players holds exactly the present players, and nothing when no slot is present |
| GameReducer.CompactSnoc | state/gameReducer.ts:787-792 | one more slot appends its player after the others when present and nothing when it is a gap, so the present players come out in slot order |
| GameReducerProperties.CompactAllPresent | state/gameReducer.ts:787-792 | a keyed object with every slot present yields the players unchanged |
| GameReducer.NormalizeDice | state/gameReducer.ts:794-797 | dice that are not a list become [0, 0] |
| GameReducer.SyncOnlineStateStep | state/gameReducer.ts:784-810 | every field the snapshot carries overrides the local one, field by field; players and dice are normalised; room, host and player id stay local; the state is marked remote |
| GameReducerProperties.SyncIdempotent | state/gameReducer.ts:784-810 | syncing the same snapshot twice gives the same state as once |
| GameReducer.LoadSavedGameStep | state/gameReducer.ts:812-820 | a saved game is restored with rolling, moving and animations cleared and everything else as saved |
| GameReducer.Reduce | state/gameReducer.ts:78-822 | the reducer as written; START_GAME and SHOW_TURN_OVERLAY change nothing; RESET_GAME restores the initial state; the other actions are the lemmas below |
| GameReducer.ReduceSavePlayer | state/gameReducer.ts:96-117 | SAVE_PLAYER is `SavePlayerStep` |
| GameReducer.ReduceFinishRoll | state/gameReducer.ts:125-154 | FINISH_ROLL is `FinishRollStep` |
| GameReducer.ReduceUpdatePosition | state/gameReducer.ts:156-160 | UPDATE_PLAYER_POSITION is `UpdatePositionStep` |
| GameReducer.ReduceFinishMove | state/gameReducer.ts:162-357 | FINISH_MOVE is the step as written, `FinishMoveAsWritten` |
| GameReducer.ReduceUpdateRouteStep | state/gameReducer.ts:359-363 | UPDATE_PLAYER_ROUTE_STEP is `UpdateRouteStepStep` |
| GameReducer.ReduceFinishRouteMove | state/gameReducer.ts:365-396 | FINISH_ROUTE_MOVE is `FinishRouteMoveStep` |
| GameReducer.ReduceAdvance | state/gameReducer.ts:398-521 | ADVANCE_TURN_PHASE is `AdvanceTurnPhaseStep` |
| GameReducer.ReduceDecideRoute | state/gameReducer.ts:523-560 | DECIDE_ROUTE is `DecideRouteStep` |
| GameReducer.ReduceEndAnimation | state/gameReducer.ts:562-586 | END_ANIMATION is `EndAnimationStep` |
| GameReducer.ReduceResolveCard | state/gameReducer.ts:588-611 | RESOLVE_CARD is `ResolveCardStep` |
| GameReducer.ReduceResolveDiceEvent | state/gameReducer.ts:613-628 | RESOLVE_DICE_EVENT is `ResolveDiceEventStep` |
| GameReducer.ReduceResolveHospital | state/gameReducer.ts:630-645 | RESOLVE_HOSPITAL is `ResolveHospitalStep` |
| GameReducer.ReduceEndGameEarly | state/gameReducer.ts:647-667 | END_GAME_EARLY is `EndGameEarlyStep` |
| GameReducer.ReduceResolveGift | state/gameReducer.ts:669-760 | RESOLVE_GIFT is the step as written, `ResolveGiftAsWritten` |
| GameReducer.ReduceSync | state/gameReducer.ts:784-810 | SYNC_ONLINE_STATE is `SyncOnlineStateStep` |
| GameReducer.ReduceSetRoom | state/gameReducer.ts:776-782 | SET_ROOM_ID records the room and the host flag and opens the setup |
| GameReducer.ReduceLoadSavedGame | state/gameReducer.ts:812-820 | LOAD_SAVED_GAME is `LoadSavedGameStep` |
| GameReducer.ReduceCorrected | state/gameReducer.ts:162-760 | the corrected reducer differs from the one as written only in FINISH_MOVE, where only the players differ, and in RESOLVE_GIFT, where the modal is the same |
| Ranking.ResetRestartsGame | state/gameReducer.ts:80-81 | every state resets to the initial state |
| GameReducerProperties.FineKeepsStatsNonNegative | state/gameReducer.ts:439-460 | a fine never drives anybody's money below zero |
| GameReducerProperties.ResolveCardKeepsStatsNonNegative | state/gameReducer.ts:588-611 | resolving a card keeps every stat non-negative |
| GameReducerProperties.ResolveCardDeclinedKeepsPlayers | state/gameReducer.ts:588-611 | a declined card changes no player |
| GameReducerProperties.DiceEventKeepsStatsNonNegative | state/gameReducer.ts:613-628 | a dice event keeps every stat non-negative |
| GameReducerProperties.HospitalKeepsStatsNonNegative | state/gameReducer.ts:630-645 | a stay with non-negative gains keeps every stat non-negative |
| GameReducerProperties.DiceEventMoneyGap | state/gameReducer.ts:613-628 | a loss larger than the player's money creates exactly the shortfall in the pot |
| GameReducerProperties.HospitalMoneyGap | state/gameReducer.ts:630-645 | a stay the player cannot afford creates exactly the shortfall in the pot |
| GameReducerProperties.DonationTotalPositive | state/gameReducer.ts:223-275 | the donation total is non-negative, and positive when some other player has money |
| GameReducerProperties.TodosDonanAsWrittenCreatesMoney | state/gameReducer.ts:227-274 | as written, "Todos Donan" adds money to the game when some other player has money |
| GameReducerProperties.TodosDonanConservesMoney | state/gameReducer.ts:162-357 | with the corrected FINISH_MOVE, landing on "Todos Donan" without a lap or a win and accepting the community card keeps money plus pot unchanged |
| GameReducerProperties.TodosDonanAsWrittenRoundCreatesMoney | state/gameReducer.ts:227-274 | as written, the same FINISH_MOVE and RESOLVE_CARD raise money plus pot when some other player has money |
| GameReducerProperties.GiftStepMoney | state/gameReducer.ts:669-760 | a gift step moves money from the giver into the accumulated total, conserving it |
| GameReducerProperties.GiftStepQueue | state/gameReducer.ts:669-760 | with givers pending, the next pending giver is asked and the queue shrinks by one |
| GameReducerProperties.GiftStepReceiver | state/gameReducer.ts:669-760 | a gift step never touches the receiver |
| GameReducerProperties.GiftChainKeepsReceiver | state/gameReducer.ts:669-760 | a whole chain of gift steps leaves the receiver as it was |
| GameReducerProperties.GiftChainAsksNext | state/gameReducer.ts:669-760 | after k gifts of a longer chain, the k-th pending giver is asked with the gifts so far |
| GameReducerProperties.GiftChainCompletes | state/gameReducer.ts:669-760 | after the last giver of the corrected chain the summary card carries all gifts, the phase is TILE_ACTION without stat changes on show, and money is conserved |
| GameReducerProperties.BirthdayCreditsReceiverOnce | state/gameReducer.ts:669-760 | with the corrected step, accepting the summary card credits the receiver with the gifts exactly once |
| GameReducerProperties.ResolveGiftAsWrittenCreditsTwice | state/gameReducer.ts:709-714 | as written, accepting the summary card of a single money gift credits the receiver twice the gift |
| GameReducerProperties.SameRoutesKeepWellFormed | state/gameReducer.ts:78-822 | a step that keeps everyone's route fields and the current index keeps the state well formed |
| GameReducerProperties.CurrentOnlyKeepsWellFormed | state/gameReducer.ts:78-822 | a step that changes only the current player, not their route fields, keeps the state well formed |
| GameReducerProperties.FinishMoveKeepsWellFormed | state/gameReducer.ts:162-357 | FINISH_MOVE keeps a valid current player and a route id for everyone in a route |
| GameReducerProperties.FinishRouteMoveKeepsWellFormed | state/gameReducer.ts:365-396 | FINISH_ROUTE_MOVE keeps the state well formed |
| GameReducerProperties.DecideRouteKeepsWellFormed | state/gameReducer.ts:523-560 | DECIDE_ROUTE keeps the state well formed; an entrant always has a route id |
| GameReducerProperties.EndAnimationKeepsWellFormed | state/gameReducer.ts:562-586 | END_ANIMATION keeps the state well formed |
| GameReducerProperties.FineKeepsWellFormed | state/gameReducer.ts:439-460 | a fine keeps the state well formed |
| GameReducerProperties.AdvanceKeepsWellFormed | state/gameReducer.ts:398-521 | ADVANCE_TURN_PHASE keeps the state well formed |
| Setup.TimePoints | components/SetupScreen.tsx:97 | the time points by age band: 30, 25, 20, 15, and 0 without an age |
| Setup.TimePointsAntitone | components/SetupScreen.tsx:97 | an older player never has more time points |
| Setup.Trim | components/SetupScreen.tsx:102-121 | the trimmed name is a slice of the input with no white space at either end, empty for a blank name |
| Setup.TrimBare | components/SetupScreen.tsx:102-121 | a name without white space at its ends trims to itself |
| Setup.Upper | components/SetupScreen.tsx:102-121 | upper-casing maps each code point by `UpperChar` and keeps the length |
| Setup.UpperPrefix2 | components/SetupScreen.tsx:102-121 | with that code-point mapping, the initials of an upper-cased name are the upper-cased initials |
| Setup.CleanIdempotent | components/SetupScreen.tsx:102-121 | cleaning a clean name changes nothing |
| Setup.NameValid | components/SetupScreen.tsx:102-121 | a name is valid exactly when it has two code points after trimming and its initials clash with no existing player |
| Setup.SaveKeepsDistinctInitials | components/SetupScreen.tsx:237-249 | saving an accepted name keeps every player's initials distinct |
| Setup.AutoBalance | components/SetupScreen.tsx:220-235 | without a positive age nothing is balanced; otherwise the points add to 100 less the time points, money at most 80, health and happiness at least 10 |
| Setup.AutoBalanceValid | components/SetupScreen.tsx:125 | an auto-balanced form is valid exactly when the name is |
| Setup.SetupForm.constructor | components/SetupScreen.tsx:140-155 | a fresh form is empty with the given colour and icon |
| Setup.SetupForm.SetName | components/SetupScreen.tsx:102 | only the name changes |
| Setup.SetupForm.SetAge | components/SetupScreen.tsx:177 | only the age changes |
| Setup.SetupForm.Slide | components/SetupScreen.tsx:302-304 | the sliders set the three allocations |
| Setup.SetupForm.ValidateAge | components/SetupScreen.tsx:177-218 | under 6 or over 99 the age is cleared with its alert; 70 to 90 shows the inspiration alert; from 6 the points are auto-balanced; over 99 the form totals 85 and can never be saved |
| Setup.SetupForm.Save | components/SetupScreen.tsx:237-249 | a draft is produced exactly when the form is valid, with the cleaned name, the goals and the starting stats; its goals add to 100 within the limits |
| Movement.RolledDice | components/GameScreen.tsx:34-44 | the first die is 1..6; the second is 0 in a route and 1..6 otherwise |
| Movement.RolledMoveAlwaysMoves | components/GameScreen.tsx:34-44 | a real roll always starts a move: 1..6 route steps, or 2..12 board steps |
| Movement.RollEffect | components/GameScreen.tsx:34-44 | the roll effect fires exactly while rolling, with FINISH_ROLL and a second die of 0 exactly in a route |
| Movement.JsRem | components/GameScreen.tsx:58 | JavaScript `%`: Dafny's modulus on non-negative operands, and always below the divisor in size |
| Movement.MoveActions | components/GameScreen.tsx:46-67 | one position update per step, wrapping around the board, then FINISH_MOVE |
| Movement.AnimateMove | components/GameScreen.tsx:56-62 | the animation loop dispatches exactly those actions |
| Movement.WrapIsLap | state/gameReducer.ts:169 | the end position is below the start exactly when the move passed the board's end |
| Movement.RunUpdates | state/gameReducer.ts:156-160 | a run of position updates keeps the players and leaves the current player at the last position |
| Movement.MovePrefix | components/GameScreen.tsx:56-62 | the position updates of a move are its first `steps` actions, the last at the target tile |
| Movement.MoveLandsOnTarget | components/GameScreen.tsx:46-67 | after the animation the player stands on start + steps modulo the board, and FINISH_MOVE awards the lap exactly when the move wrapped |
| Movement.RouteSplit | components/GameScreen.tsx:79-80 | a route move splits into steps inside the route, never past its end, and overflow that is positive only at the end |
| Movement.RouteMoveActions | components/GameScreen.tsx:69-93 | one route-step update per step inside the route, then FINISH_ROUTE_MOVE with the overflow |
| Movement.AnimateRouteMove | components/GameScreen.tsx:82-88 | the route animation loop dispatches exactly those actions, never past the route's end |
| Movement.RunRouteSteps | state/gameReducer.ts:359-363 | a run of route-step updates leaves the player at the last step of the same route |
| Movement.OverflowGraduates | components/GameScreen.tsx:69-93 | a roll past the route's end brings the player to its last step and then graduates them with the overflow kept |
| Movement.MoveDriver.constructor | components/GameScreen.tsx:22 | the driver starts idle |
| Movement.MoveDriver.OnMove | components/GameScreen.tsx:46-67 | a pending move is animated exactly when not already animating |
| Movement.MoveDriver.OnRouteMove | components/GameScreen.tsx:69-93 | a pending route move is animated exactly when not already animating |
| Board.GridToTileIndex | components/GameBoard.tsx:123-131 | only the inner 9×9 cells are empty; the corners are tiles 0, 10, 20 and 30 |
| Board.TileCell | components/GameBoard.tsx:123-131 | each tile index has a cell of the grid |
| Board.GridMapIsBijection | components/GameBoard.tsx:123-131 | the perimeter cells and the 40 tile indices correspond one to one |
| Board.OneHighlight | components/GameBoard.tsx:133-137 | on the main board exactly the current player's tile is highlighted and no route tile; in a route no main tile is |
| Board.Members | components/GameBoard.tsx:196-205 | a group holds exactly the players on its key |
| Board.MembersSnoc | components/GameBoard.tsx:196-205 | pushing a player extends exactly its own key's group |
| Board.MembersNonEmpty | components/GameBoard.tsx:196-205 | a group is non-empty exactly when some player has its key |
| Board.GroupsPush | components/GameBoard.tsx:200-204 | one iteration of the grouping loop keeps the groups exact |
| Board.GroupTokens | components/GameBoard.tsx:196-205 | the groups have exactly the keys of the players, each with its players in order |
| Ranking.OtherPlayers | components/WinScreen.tsx:34 | the others are exactly the players with another id than the winner |
| Ranking.PrependRanked | components/WinScreen.tsx:35 | a player at least as successful as the head can lead a ranked list |
| Ranking.Insert | components/WinScreen.tsx:35 | insertion keeps the ranking and adds exactly the one player |
| Ranking.RankPlayers | components/WinScreen.tsx:35 | the ranking is descending by success and a permutation of the players |
| Ranking.SplitColumns | components/WinScreen.tsx:36-39 | the columns keep the order, the left one half rounded up |
| Ranking.FinalColumnsRankOthers | components/WinScreen.tsx:26-44 | the columns hold every other player exactly as often as in the game, ranked |
| CardModal.OfferedResolutions | components/modals/CardModal.tsx:116-137 | accept is always offered; decline exactly in judgment mode |
| CardModal.UnjudgedCardsApply | components/modals/CardModal.tsx:116-137 | outside judgment mode any button applies the card |
| CardModal.JudgedCardsMayBeDeclined | components/modals/CardModal.tsx:116-137 | in judgment mode decline is offered and leaves the player as they were |
| CardModal.CardTileJudgment | components/modals/CardModal.tsx:13-15 | challenge cards are always judged, expertise cards only when the card asks |
| CardModal.CardStyle | components/modals/CardModal.tsx:27-55 | each style is chosen exactly when its keyword matches and no earlier keyword does, in the order RETO, EXPERTIS, GANASTE or SUERTE, RUTA, IMPUESTOS, COMUNIDAD or POEMA, FELIZ CUMPLEAÑOS; the plain style exactly when none matches |
| CardModal.RouteAndBirthdaySummaryArePlain | state/gameReducer.ts:390 | a route card's category "Ruta " + id is plain when the id holds no keyword, and the birthday summary's "CUMPLEAÑOS" is always plain |
| CardModal.CardTileStyles | components/modals/CardModal.tsx:27-55 | challenge and expertise categories get their own styles |
| DiceEventModal.EventRewards | components/modals/DiceEventModal.tsx:32-47 | the reward table per tile and die; an unknown tile gives nothing; no passive or pot fields |
| DiceEventModal.EventFillsPot | components/modals/DiceEventModal.tsx:32-47 | the pot grows by 1000 per pip exactly on the paying tiles, whose player's money is floored at zero |
| DiceEventModal.DiceEventDialog.constructor | components/modals/DiceEventModal.tsx:12-16 | the modal opens unrolled with no rewards |
| DiceEventModal.DiceEventDialog.Roll | components/modals/DiceEventModal.tsx:18-21 | the roll starts and is ignored while rolling |
| DiceEventModal.DiceEventDialog.Land | components/modals/DiceEventModal.tsx:24-58 | the die shows 1..6 and the rewards are the table entry for it |
| DiceEventModal.DiceEventDialog.Resolve | components/modals/DiceEventModal.tsx:61-64 | the rewards sent are the table entry of some die in 1..6 |
| HospitalModal.HospitalOutcome | components/modals/HospitalModal.tsx:37-39 | the stay costs 1000 per pip; vacation gives happiness, hospital health |
| HospitalModal.StayOutcome | components/modals/HospitalModal.tsx:37-39 | the pot gains the full cost, the player pays floored at zero and gains d points |
| HospitalModal.HospitalDialog.constructor | components/modals/HospitalModal.tsx:12-16 | the modal opens unrolled |
| HospitalModal.HospitalDialog.Roll | components/modals/HospitalModal.tsx:28-31 | the roll starts only when the player can interact |
| HospitalModal.HospitalDialog.Land | components/modals/HospitalModal.tsx:33-46 | the result is the outcome of the drawn die |
| HospitalModal.HospitalDialog.Resolve | components/modals/HospitalModal.tsx:49-53 | a result is sent exactly once rolled and interactive, and it is an outcome of some die in 1..6 |
| RouteModal.RouteView | components/modals/RouteModal.tsx:13-26 | no view without a route id; a visited route is free, another costs its fee; affordable exactly when the money covers it |
| RouteModal.Click | components/modals/RouteModal.tsx:49-58 | a click sends its choice exactly when its button is enabled |
| RouteModal.ModalAgreesWithReducer | components/modals/RouteModal.tsx:20-26 | "Enter" is enabled exactly when DECIDE_ROUTE lets the player in; a decline never does |
| RouteModal.EnterClickEnters | components/modals/RouteModal.tsx:20-26 | an enabled "Enter" puts the player on step 1 of the route with the shown cost moved to the pot |
| GiftSelectionModal.StepOf | components/modals/GiftSelectionModal.tsx:90-114 | every counter steps by a positive amount |
| GiftSelectionModal.Clicked | components/modals/GiftSelectionModal.tsx:55-62 | "+" gives min(max, v + step) and "-" gives max(0, v - step): exactly one step whenever it fits; a value in range stays in range |
| GiftSelectionModal.GiftOf | components/modals/GiftSelectionModal.tsx:18-27 | the gift carries all three counters and no other fields |
| GiftSelectionModal.GiftWithinStatsKeepsGiverSolvent | components/modals/GiftSelectionModal.tsx:90-114 | a gift within the giver's stats is deducted exactly and leaves none negative |
| GiftSelectionModal.GiftCounters.constructor | components/modals/GiftSelectionModal.tsx:12-14 | the counters start at zero, within any solvent giver's stats |
| GiftSelectionModal.GiftCounters.Rerender | App.tsx:194-201 | as written: the next giver is shown with the previous giver's counters |
| GiftSelectionModal.GiftCounters.OpenFor | components/modals/GiftSelectionModal.tsx:12-14 | corrected: the counters restart at zero for each giver |
| GiftSelectionModal.GiftCounters.Click | components/modals/GiftSelectionModal.tsx:55-62 | a click changes only its counter, by `Clicked`, and keeps the counters in range |
| GiftSelectionModal.GiftCounters.Confirm | components/modals/GiftSelectionModal.tsx:16-27 | a gift is sent exactly when something is given; in range it is affordable |
| GiftSelectionModal.StaleCountersOverdraw | App.tsx:194-201 | giver 1 with 5000 gives 5000; giver 2 with 1000 confirms the same 5000 and ends at -4000 |
| GiftSelectionModal.GiveOnce | components/modals/GiftSelectionModal.tsx:12-27 | with the modal opened afresh, any sequence of clicks yields a gift the giver can afford |
| Online.InRoom | App.tsx:59-70 | a room is joined exactly when its id is present and not empty |
| Online.Publishes | App.tsx:59-70 | the state is published only in a room, only by the host or during setup, and never when it serializes to the last snapshot received |
| Online.Session.constructor | App.tsx:32-41 | the session starts at the initial state with nothing received or published |
| Online.Session.Dispatch | App.tsx:32 | dispatch applies the reducer |
| Online.Session.OnSnapshot | App.tsx:44-55 | a snapshot is remembered serialized and synchronised into the state |
| Online.Session.PublishEffect | App.tsx:59-70 | the state is appended to what was published exactly when `Publishes` holds |
| Online.AfterStatUpdate | App.tsx:92-105 | in STAT_UPDATE the effect passes the turn to the next player in IDLE and keeps the players and the open modal; in any other phase it changes nothing |
| Online.Session.StatUpdateEffect | App.tsx:92-105 | STAT_UPDATE always advances to the next player in IDLE with the overlay, delayed exactly when stat changes are on show; the state is `AfterStatUpdate` of the old one |
| Online.Session.JoinRoom | App.tsx:158-161 | joining makes the guest sync to the room's state and publish only during setup |
| Online.Session.CreateRoom | App.tsx:141-156 | creating makes the player host, synced to the initial settings when there are any |
| Online.RenderedModal | App.tsx:176-206 | a modal is on screen exactly without an animation cue, with an active modal and a current player |
| Online.ModalAnswersAreAccepted | App.tsx:176-206 | every answer of the modal on screen dispatches an action the reducer accepts |
| Online.BirthdayThroughShellCreditsOnce | App.tsx:92-105 | with the corrected chain, the STAT_UPDATE effect leaves the summary card alone and accepting it credits the receiver once with all gifts |
| Online.BirthdayAsWrittenCreditsNextPlayer | App.tsx:92-105 | as written, the last gift credits the receiver, the effect hands the turn on with the card still open, and accepting it credits the total to the next player too |

## Left out

- Sound, music and vibration (`utils/soundManager.ts`, `assets/sounds.ts`): no effect on the rules.
- Timers and delays (`setTimeout`, animation durations): the modal timers are the `Land` methods, and the animation loops produce their actions without waiting.
- The STAT_UPDATE timer's cancellation on re-render: without time, the advance is immediate.
- Board geometry in floating point (the inner route ring's coordinates), CSS classes, gradients and card texts beyond the category keywords.
- Firebase and the network (`utils/firebase.ts`): a snapshot arrives as a datatype value plus its serialized string, and `JSON.stringify` is the abstract `encode` function of `Session`. Firebase drops empty arrays; the model restores only a missing top-level `players`, and assumes nested empty arrays (a player's `visitedRoutes`) arrive present after a sync, whereas the source would then fail at `visitedRoutes.includes` in DECIDE_ROUTE.
- Persistence in localStorage (App.tsx:107-134): only the reducer's LOAD_SAVED_GAME step is modelled.
- The card-text generator (`utils/geminiService.ts`), the accelerometer, Game Center and the native shells.
- Random distributions: every `Math.random()` is a `nat` oracle argument reduced to the source's range.
- Setup.UpperChar: maps ASCII and the Latin-1 small letters that have a one-character capital (ÿ to Ÿ and µ to Greek capital mu); `toUpperCase` of other scripts is not modelled.
- Setup.Upper: `toUpperCase` turns "ß" into the two letters "SS"; the model keeps it as one unchanged character, because a one-to-one character map is what keeps the length and the idempotence lemmas simple.
- Setup.UpperPrefix2: holds for the code-point map, but not for JavaScript on a name starting with "ß": "ßa" upper-cased and then cut to two characters is "SS", while cut and then upper-cased it is "SSA".
- Setup.NameValid: counts and cuts by code point, while `length` and `substring` count UTF-16 units, and does not widen "ß"; a name made of one character outside the Basic Multilingual Plane, such as one emoji, passes the source's two-character check and fails here.
- InfoTileModal, TurnOverlay, the status cards and the other display-only components: they dispatch nothing beyond the modal answers of `Online.ModalAction`.
- Aliasing of the `players` array written in place by the source (the FINISH_MOVE block-local `players` and shared `actual` objects) is modelled by its effect on values, not by references.
- React StrictMode double effects and stale closures other than the gift counters.
- Movement.MoveDriver.OnMove and Movement.MoveDriver.OnRouteMove: an animation runs to its end inside one call, so `isAnimating` is false between calls and the refusal of a second, overlapping animation is reached only when a caller sets the flag; the overlap of effects while an animation awaits is not modelled.
- Ranking.RankPlayers: the stability of `Array.prototype.sort` on equal success is not stated; the model proves only order and permutation.
- HospitalModal.HospitalDialog.Roll and DiceEventModal.DiceEventDialog.Roll: require an unrolled modal, because the roll button is not rendered once rolled.
- Online.Session.Dispatch: requires the reducer's precondition, which the source does not check; `Online.ModalAnswersAreAccepted` shows the modals meet it.

## Findings

| source | as written | input that shows it | evidently intended | confidence | as-written member | corrected member |
|---|---|---|---|---|---|---|
| state/gameReducer.ts:709-714 | the last RESOLVE_GIFT credits the receiver with the total, and the summary card it opens carries the same total as its reward; it also enters STAT_UPDATE, which App.tsx:92-105 advances after 1.8 s with the card still open, so a card accepted after that credits the total to the next player as well | birthday of player 0 with one other player giving 1000 money, then the card accepted | the receiver gains the gifts once, when the summary card is accepted | not executed | GameReducer.ResolveGiftAsWritten, GameReducerProperties.ResolveGiftAsWrittenCreditsTwice, Online.BirthdayAsWrittenCreditsNextPlayer | GameReducer.ResolveGiftStep, GameReducerProperties.BirthdayCreditsReceiverOnce, Online.BirthdayThroughShellCreditsOnce |
| state/gameReducer.ts:227-274 | "Todos Donan" deducts the donations from a block-local `players` that is never returned, but adds their total to the pot | landing on "Todos Donan" while another player has money | the donors pay what the pot receives, so money is conserved | not executed | GameReducer.TodosDonanAsWritten, GameReducerProperties.TodosDonanAsWrittenCreatesMoney, GameReducerProperties.TodosDonanAsWrittenRoundCreatesMoney | GameReducer.TodosDonan, GameReducerProperties.TodosDonanConservesMoney |
| App.tsx:194-201 | the gift modal is rendered without a `key`, so moving to the next giver keeps the previous giver's counters | giver 1 with 5000 presses "+" five times and confirms; giver 2 with 1000 confirms at once and ends with -4000 | each giver starts at zero and cannot give more than they have | not executed | GiftSelectionModal.GiftCounters.Rerender, GiftSelectionModal.StaleCountersOverdraw | GiftSelectionModal.GiftCounters.OpenFor, GiftSelectionModal.GiveOnce |
