# Ludo game core in Dafny

This project models the core of a small Ludo benchmark game, written in
Python, in which a language model plays Ludo against the game rules (single
player) or against a programmatic opponent (multiplayer). The modules follow
the game's source files:

- `common.dfy` (Common): the shared values. A move is the parsed reply, an ordered dictionary of
  token to target field, kept as a sequence of entries because iteration
  order matters to the game master. A roll is one die, or one die per player.
- `text.dfy` (Text): the Python string operations the game relies on: `join`,
  `split(sep)`, `split()`, `strip()` and list repetition.
- `player.dfy` (Player): the LLM player's token records and `parse_text`. That
  function is a leftmost regular-expression search for
  `MY MOVE: X -> <digits> ; Y -> <digits>`, with ASCII digits.
- `game.dfy` (Game): the `Game` object. It holds the conversation context,
  the reprompt message, the textual board and its update after a move.
- `master.dfy` (Master): the game master. It covers the legality check of a
  reply and the error it records, the first moved token, how an accepted move
  is applied to the player's tokens, and the game status.
- `instance_generator.dfy` (InstanceGenerator): the dynamic programme, with its memo, that
  decides whether a roll sequence is solvable and how few moves it needs.
  There is one version for two tokens and one for a single token, plus the
  pairing of two players' rolls.
- `minimax.dfy` (Minimax): the adversarial simulator `GameSim`. It covers
  successor states with captures, move generation, the terminal test and the
  heuristic score, and the alpha-beta `minimax` search exactly as written.
- `scoring.dfy` (Scoring): the scorer. It compares the player's move with an
  oracle's move, counts the events of an episode, and computes the guarded
  ratios and the final-status flags.

Where the source updates an object in place, the model does too. The game
(`Game.Game`), the game master (`Master.LudoGameMaster`) and the player
(`Player.LudoPlayer`) are classes. Their methods state the whole new state.
Loops are proved against specification functions. The
recursive memoised searches thread their memo through and are proved equal
to the memo-free recursion. Python's `float('inf')` sentinels are extended
integers: `Cost` in the dynamic programme, and `XInt` in the alpha-beta
search. A dictionary lookup of a missing key (`KeyError`) is excluded by a
precondition, because the source never handles it.

Some facts about the code as written, each stated by a lemma:

- The status test `elif self._is_done` looks at a bound method, which is
  always truthy, so `_check_game_status` never returns `False`.
- `while not status` therefore stops at once: before the turn limit the
  status is never the draw value 0 (`Master.PlayLoopGuard`).
- After a simultaneous move, the reprompt receives only the letters `"s"`
  and `"i"` of the error string, and explains nothing
  (`Master.RepromptAfterReject`).
- With the default `beta` of +infinity, the minimiser returns its first
  candidate (`Minimax.MinimizerFirstCandidate`).
- `is_terminal` tests player 0's tokens twice, so player 1 never wins and
  the -100 score is unreachable (`Minimax.TerminalMeaning`,
  `Minimax.ScoreMeaning`).

## Model

| member | source | states |
|---|---|---|
| Text.Repeat | games/ludo/game.py:168 | `[s] * n` has `max(n, 0)` elements, each equal to `s` |
| Text.Split | games/ludo/game.py:82 | `split(sep)` always yields at least one piece |
| Text.JoinSplit | games/ludo/game.py:82 | joining the pieces of `split(sep)` with `sep` gives back the string, and no piece contains `sep` |
| Text.Words | games/ludo/game.py:132 | `split()` of a string that starts with a non-blank character yields a first word starting with that character |
| Text.StripUnchanged | games/ludo/game.py:138 | `strip()` leaves a string unchanged when it neither starts nor ends with whitespace |
| Player.InitialTokens | games/ludo/player.py:28-37 | the player starts with exactly tokens X and Y, both at home (not in play, position 0) |
| Player.LudoPlayer.constructor | games/ludo/player.py:19-37 | a new player's `tokens` are the initial records |
| Player.DigitRun | games/ludo/player.py:159 | `\d+` extends over a maximal run of digits |
| Player.NumberAt | games/ludo/player.py:159 | a number group, when it matches, ends after at least one digit, and what follows it is not a digit |
| Player.ParseText | games/ludo/player.py:159-164 | a parsed reply maps X then Y to non-negative numbers; a failure carries "Invalid text format: " followed by the first 20 characters |
| Player.SearchFindsLeftmost | games/ludo/player.py:159 | the search returns the match at the leftmost position where the pattern matches |
| Player.SearchFailsIffNoMatch | games/ludo/player.py:159-162 | the search fails exactly when the pattern matches at no position |
| Player.ParseTextLeftmost | games/ludo/player.py:159-164 | `parse_text` fails iff no position matches, and otherwise returns the numbers of the leftmost match |
| Player.NoPrefixNoMove | games/ludo/player.py:159-162 | a text without "MY MOVE: X -> " anywhere is rejected |
| Player.RejectYFirst | games/ludo/player.py:159-162 | a reply naming Y before X is rejected |
| Player.RejectNoSpaces | games/ludo/player.py:159-162 | a reply without the spaces around "->" is rejected |
| Player.RejectMissingY | games/ludo/player.py:159-162 | a reply that omits the Y part is rejected |
| Player.MatchAtLine | games/ludo/player.py:159 | the pattern matches a well-formed line at its start, with the values of its two numerals |
| Player.NumeralSuffix | games/ludo/player.py:159 | a `\d+` group over a run of digits followed by a non-digit reads exactly that run, as its decimal value |
| Player.ParseEmbedded | games/ludo/player.py:159-164 | a well-formed line after any text without 'M', and before any text not starting with a digit, parses to its two numbers |
| Player.DecimalValue | games/ludo/player.py:164 | `int()` of the decimal numeral of `n` is `n` |
| Player.ParseRoundTrip | games/ludo/player.py:159-164 | parsing the canonical reply for targets `a` and `b` yields `{X: a, Y: b}` |
| Player.LeadingZeros | games/ludo/player.py:164 | leading zeros are accepted: "007" parses to 7 |
| Game.Prelude | games/ludo/game.py:81-89 | the first message inserts a system entry, then a user entry, and no two adjacent entries share a role |
| Game.PreludeOfLines | games/ludo/game.py:83-89 | for a prompt of newline-free lines, the system entry is the first line and the user entry is the lines from the third on joined by spaces, or empty with fewer than three lines |
| Text.SplitJoin | games/ludo/game.py:82 | `split(sep)` of the `sep`-join of pieces without `sep` gives the pieces back |
| Game.WithMessageEffect | games/ludo/game.py:91-95 | a message with the last entry's role is appended to it after "\n", keeping the length; otherwise it becomes a new entry; the earlier entries are unchanged, and on an append every old entry, the last one included, is kept; no two adjacent entries share a role |
| Game.FirstUserMessageMerges | games/ludo/game.py:81-95 | the first user message is merged into the prompt's user entry, leaving two entries |
| Game.Explanation | games/ludo/game.py:107-115 | the sentence is empty exactly for an error type other than the four known ones |
| Game.RepromptMessageShape | games/ludo/game.py:105-117 | the message starts with "INVALID MOVE: ", ends with "Please try again.", and between them holds the explanation for the error type |
| Game.UnknownTypeMessage | games/ludo/game.py:105-117 | an error type matching none of the four cases gives exactly "INVALID MOVE: Please try again." |
| Game.ResetBoardShape | games/ludo/game.py:161-168 | the blank board is `n` empty-field symbols joined by spaces, and `split()` gives them back |
| Game.PyIndex | games/ludo/game.py:136 | a negative list index counts from the end and stays in bounds |
| Game.BoardCells | games/ludo/game.py:132-136 | the board keeps its `n` cells after the writes |
| Game.BoardCellsAt | games/ludo/game.py:134-136 | a cell holds the token of the last in-play entry written to it, and otherwise the empty-field symbol |
| Game.BoardWords | games/ludo/game.py:132-138 | the stored board string splits back into exactly the board cells |
| Game.BoardCellsAreCells | games/ludo/game.py:132-136 | every cell of the board is a single non-blank word |
| Game.Game.constructor | games/ludo/game.py:49-66 | the board is blank, the context is empty, the counters are 0, the turn limit is the number of rolls and the turn is 0 |
| Game.Game.AddMessage | games/ludo/game.py:71-95 | the context becomes the merged or appended context (after the prelude if it was empty); nothing else changes; no two adjacent entries share a role |
| Game.Game.Reprompt | games/ludo/game.py:97-120 | the reprompt message is added as a user message and `reprompt_attempts` grows by exactly 1; nothing else changes |
| Game.Game.UpdateBoard | games/ludo/game.py:122-138 | `current_state` becomes the stripped join of the rewritten cells; nothing else changes |
| Master.TokensMoved | games/ludo/master.py:269-272 | one flag per move entry, in order, true iff the entry's target differs from the token's position |
| Master.BothMovedIffAllChange | games/ludo/master.py:232-249 | "both moved" holds iff every entry's target differs from its position, and holds vacuously for an empty move |
| Master.GetMovedToken | games/ludo/master.py:274-290 | returns the first key of the move if it is flagged as moved, otherwise None, whatever the later keys |
| Master.LaterMoveIgnored | games/ludo/master.py:287-290 | when the first flag is false, a later true flag is not returned: the loop ends after the first key |
| Master.EntryCheck | games/ludo/master.py:199-227 | per arm: a home token may stay unless the roll is 6; a token in play may stay only if the roll would overshoot; the moved token must advance by the roll or enter field 1 on a 6; a moved home token matches no arm |
| Master.CheckFromNoneIff | games/ludo/master.py:198-230 | the loop accepts from entry `i` iff every remaining entry passes its check |
| Master.CheckFromFirst | games/ludo/master.py:199-227 | the reported error is that of the first failing entry |
| Master.CheckAcceptIff | games/ludo/master.py:192-230 | a move is accepted iff it is not a simultaneous move and every entry passes its check |
| Master.SimultaneousFirst | games/ludo/master.py:192-194 | a move that changes every token is rejected as simultaneous before any entry is checked |
| Master.RejectIsFirstFailing | games/ludo/master.py:196-227 | a rejected move reports the first failing entry's error |
| Master.HomeTokenPlacedAnywhere | games/ludo/master.py:201-208 | a home token moved to any nonzero field is accepted as the moved token, without the 6 being checked |
| Master.FirstKeyOnly | games/ludo/master.py:196-216 | when X stays and Y moves, the moved token is None and Y is reported as not moved |
| Master.LudoGameMaster.constructor | games/ludo/master.py:49 | the recorded error starts as None |
| Master.LudoGameMaster.CheckMove | games/ludo/master.py:167-230 | returns true iff the verdict is Accept; on rejection records the verdict's error; on acceptance leaves the error unchanged |
| Common.AllTrue | games/ludo/master.py:229 | `all(...)` holds iff every element is true |
| Master.AppliedAt | games/ludo/master.py:139-141 | after an accepted move every entry's token is in play iff its target is positive and stands on its target; other tokens are unchanged |
| Master.ApplyAcceptedMove | games/ludo/master.py:139-141 | the player's tokens become the applied records |
| Game.Game.ResetRepromptAttempts | games/ludo/master.py:143 | after an accepted move `reprompt_attempts` is 0; nothing else changes |
| Master.StatusMeaning | games/ludo/master.py:301-321 | status 0 iff the turn limit is reached; otherwise 1 iff both of player 1's tokens are on the last field, else -1 |
| Master.PlayLoopGuard | games/ludo/master.py:94 | before the turn limit the status is nonzero, so the play loop's guard `not status` already fails there |
| Master.RepromptArgs | games/ludo/master.py:154-157 | a simultaneous move passes "s" and "i"; any other error passes its type string ("not_moved_to_board", "not_moved" or "incorrect_move") and its token |
| Master.RepromptAfterReject | games/ludo/master.py:157 | after a simultaneous move the reprompt is the bare "INVALID MOVE: Please try again."; every other error gets a nonempty explanation |
| InstanceGenerator.Consider | games/ludo/instancegenerator.py:130-132 | a candidate replaces the best only when strictly cheaper, so on equal counts the earlier best is kept; the result is at most both |
| InstanceGenerator.FindMinimumSound | games/ludo/instancegenerator.py:82-163 | a finite minimum comes with a plan of exactly that many allowed steps that brings both tokens to the last field |
| InstanceGenerator.FindMinimumOptimal | games/ludo/instancegenerator.py:82-163 | every allowed plan that brings both tokens to the last field is at least as long as the minimum |
| InstanceGenerator.CountBound | games/ludo/instancegenerator.py:104-163 | a finite minimum is 0 or at most the number of remaining rolls |
| InstanceGenerator.BaseCases | games/ludo/instancegenerator.py:104-110 | both tokens on the last field costs 0 and nothing else does; running out of rolls otherwise costs infinity |
| InstanceGenerator.OvershootStillCounts | games/ludo/instancegenerator.py:134-145 | an overshooting token stays put but the step still counts one move |
| InstanceGenerator.StartNeedsSix | games/ludo/instancegenerator.py:147-159 | from the start, a solvable sequence must begin with a 6 |
| InstanceGenerator.FindMinimumMemo | games/ludo/instancegenerator.py:82-163 | the memoised search returns the memo-free minimum and keeps the memo sound |
| InstanceGenerator.CheckSequence | games/ludo/instancegenerator.py:165-172 | unsolvable iff the minimum is infinite; otherwise returns True and the minimum |
| InstanceGenerator.CheckSequenceMeaning | games/ludo/instancegenerator.py:165-172 | the reported minimum is the length of a shortest winning plan from the start |
| InstanceGenerator.MonoInPlay | games/ludo/instancegenerator.py:212-222 | a single token in play is solvable iff the next roll lands it exactly on the last field, in one move |
| InstanceGenerator.MonoFromHome | games/ludo/instancegenerator.py:224-229 | a home token needs a 6 to be placed on field 1, at the cost of one move |
| InstanceGenerator.MonoUnsolvable | games/ludo/instancegenerator.py:198-233 | with die rolls in 1..6 and more than 7 fields, the single-token search never succeeds |
| InstanceGenerator.FindMinimumMonoMemo | games/ludo/instancegenerator.py:187-233 | the memoised single-token search returns the memo-free minimum and keeps the memo sound |
| InstanceGenerator.CheckMonotokenSequence | games/ludo/instancegenerator.py:235-241 | unsolvable iff the single-token minimum is infinite; otherwise returns True and the minimum |
| InstanceGenerator.PairRolls | games/ludo/instancegenerator.py:360-364 | `zip` pairs the rolls index by index, up to the shorter length |
| InstanceGenerator.PairRollsUnzip | games/ludo/instancegenerator.py:360-364 | pairing equal-length roll lists and taking first and second components gives them back |
| InstanceGenerator.GenerateRolls | games/ludo/instancegenerator.py:354-366 | one partner keeps single rolls; two partners get the pairs of both sequences |
| Minimax.Max | games/ludo/minimax.py:256 | `max` is an upper bound of both and one of them |
| Minimax.Min | games/ludo/minimax.py:270 | `min` is a lower bound of both and one of them |
| Minimax.TokensDisjoint | games/ludo/minimax.py:176-180 | the two players' tokens are distinct names, and each player's tokens are pairwise distinct |
| Minimax.IsTaken | games/ludo/minimax.py:194-209 | true iff some given token stands on the position and the position is not the last field |
| Minimax.CandidatesIff | games/ludo/minimax.py:86-102 | a candidate is an advance of a token out of base to a free field not past the end, or the entry of a home token to a free field 1 on a 6 |
| Minimax.Fallback | games/ludo/minimax.py:104-106 | without candidates, each token appears as a move to its own position |
| Minimax.PossibleMovesShape | games/ludo/minimax.py:72-108 | there is always at least one move, all of the player's own tokens, and either all are advances or entries, or they are the fallback |
| Minimax.PossibleMovesComplete | games/ludo/minimax.py:86-102 | every legal advance or entry of the player's tokens is among the possible moves |
| Minimax.GetPossibleMoves | games/ludo/minimax.py:72-108 | the loops build exactly the possible moves |
| Minimax.CollectCandidates | games/ludo/minimax.py:85-102 | the first loop appends, token by token, each qualifying advance and then each qualifying entry |
| Minimax.CollectFallback | games/ludo/minimax.py:104-106 | the second loop yields one null move per token, in order |
| Minimax.CaptureAt | games/ludo/minimax.py:52-58 | an opponent token on the destination goes home unless the destination is the last field; other tokens keep their position |
| Minimax.NewState | games/ludo/minimax.py:37-70 | the successor is a valid state with the same rolls, and the turn advances only after player 1 |
| Minimax.NewStateEffect | games/ludo/minimax.py:37-70 | the moved token stands on its destination, captured opponents go home, everything else is unchanged |
| Minimax.GetNewState | games/ludo/minimax.py:37-70 | the method returns the successor state |
| Minimax.TerminalMeaning | games/ludo/minimax.py:110-138 | the state is terminal iff all of player 0's tokens are on the last field; then the winner is 0, and it is never 1 |
| Minimax.ScoreMeaning | games/ludo/minimax.py:140-164 | a terminal state scores 100; otherwise the score is player 0's progress minus player 1's |
| Minimax.MinimaxShape | games/ludo/minimax.py:212-272 | the search always yields a number; at a stopping state it is the state's score with no move; otherwise the move is one of the possible moves |
| Minimax.MaxLoopShape | games/ludo/minimax.py:244-256 | the maximiser's loop ends with a number and one of the candidate moves |
| Minimax.MinLoopShape | games/ludo/minimax.py:258-270 | the minimiser's loop ends with a number and one of the candidate moves |
| Minimax.MinimizerFirstCandidate | games/ludo/minimax.py:258-270 | with beta = +infinity the minimiser stops at its first candidate and returns that child's value and move |
| Minimax.MinimaxSearch | games/ludo/minimax.py:212-272 | the recursive method computes the specified search value and move |
| Minimax.MaxMoves | games/ludo/minimax.py:244-256 | the maximiser's loop, with its update, `break` and `alpha` update, computes the specified loop value |
| Minimax.MinMoves | games/ludo/minimax.py:258-270 | the minimiser's loop, with its update, `break` and `beta` update, computes the specified loop value |
| Scoring.CheckEquivalence | games/ludo/scoring.py:148-158 | 1 iff every key of the updated state has the same value in the selected move, otherwise 0; extra keys are ignored; a state compared with itself scores 1 |
| Scoring.SelectMove | games/ludo/scoring.py:127-129 | the selected move is the current state with only the oracle's token set to the oracle's position |
| Scoring.MoveScore | games/ludo/scoring.py:127-130 | the turn scores 1 iff the player moved the oracle's token to its position and left every other logged token in place |
| Scoring.CountZeroIff | games/ludo/scoring.py:53-71 | a count is 0 iff no event has that kind |
| Scoring.TotalIsCountOfAll | games/ludo/scoring.py:53-71 | summing a kind's per-turn counts gives its count over the whole episode |
| Scoring.CountTurn | games/ludo/scoring.py:57-71 | the inner loop counts the turn's reprompts, parsing failures, errors and accepted moves |
| Scoring.CountEvents | games/ludo/scoring.py:53-71 | accepted moves are counted over the episode; per-turn counters are the turn's counts; the episode's parsing-error and error totals are the sums of the per-turn counts |
| Scoring.Percent | games/ludo/scoring.py:83 | a share is 0 when the denominator is 0, otherwise part/whole*100, and at most 100 when the part does not exceed the whole |
| Scoring.Speed | games/ludo/scoring.py:88-91 | speed is 0 for an aborted episode, otherwise min-moves/(turns+1)*100, and it lies in [0, 100] when the turns played reach the minimum |
| Scoring.ErrorsPerAcceptedMoveAsWritten | games/ludo/scoring.py:110 | the metric as written is accepted moves per error, in percent, and 0 without errors |
| Scoring.ErrorsPerAcceptedMoveInverted | games/ludo/scoring.py:110 | four accepted moves read 400 with one error and 200 with two errors |
| Scoring.ErrorsPerAcceptedMove | games/ludo/scoring.py:110 | the corrected metric is errors per accepted move, in percent, and 0 without accepted moves |
| Scoring.MoreErrorsScoreHigher | games/ludo/scoring.py:110 | the corrected metric grows strictly with the number of errors |
| Scoring.CorrectedEpisodeRatios | games/ludo/scoring.py:88-110 | speed is 0 when aborted, otherwise min-moves/(turns+1)*100; the parsing-error share is 0 without errors, otherwise parsing errors/errors*100, and at most 100; errors per accepted move is taken in its corrected form: 0 without accepted moves, otherwise errors/accepted*100 |
| Scoring.StatusFlags | games/ludo/scoring.py:94-97 | for ABORTED, WIN, LOSE or DRAW exactly the matching flag is 1; for any other status all four flags are 0 |

## Left out

- The `play` loop and the benchmark glue (games/ludo/master.py:52-165, 324-439) are left out. They call the model, write logs and use the instance framework. Only the legality check, the apply step at lines 139-143 (`Master.ApplyAcceptedMove`, `Game.Game.UpdateBoard` and `Game.Game.ResetRepromptAttempts`) and the loop guard are modelled.
- Random roll sampling and instance file generation (games/ludo/instancegenerator.py:17, 32-57, 243-328, 386-394) are left out, because they use a random number generator and the file system. The sequence checks they call are modelled.
- Template loading and player dispatch in `Game.__init__` and `_initialize_players` (games/ludo/game.py:46-69, 140-159) are left out. They are file I/O and dispatch on foreign model types. The constructor takes the prompt text and creates the LLM player.
- The human and programmatic player response stubs (games/ludo/player.py:41-141) are left out, because they are unimplemented in the source.
- The floating-point metrics of `compute_scores` are left out: turn and episode efficiency, move accuracy and the `log_*` calls. The guarded ratios that are modelled use `real`, not IEEE floats.
- The oracle wiring of `_sp_move_score` and `_mp_move_score` (games/ludo/scoring.py:14, 117-124, 134-139) is left out. It imports a function that does not exist, calls `GameSim` with four of its five arguments, and subscripts `dict_keys`. The oracle's move is a parameter of `Scoring.MoveScore` instead. Also left out: a `None` move from the oracle, and a turn without a "current state" event, which reuses or lacks `current_state`.
- Scoring.CountEvents: the assignments of `current_state` and `updated_state` inside the event loop are not modelled; only the counters are.
- Scoring.Speed: `Turns played` is taken to be a natural number, so the `ZeroDivisionError` at -1 is not modelled.
- Scoring.Speed: the minimum move count is taken as a number already unpacked. The experiment's `min_moves` field (games/ludo/scoring.py:37) holds what the instance generator stored there, the `(True, n)` result of its sequence check (games/ludo/instancegenerator.py:172, 328), and dividing that pair is not modelled.
- Scoring.CorrectedEpisodeRatios: the episode record uses the corrected "Errors Per Accepted Move" (errors over accepted moves). The value the scorer logs, accepted moves over errors, is `Scoring.ErrorsPerAcceptedMoveAsWritten`; see Findings.
- InstanceGenerator.GenerateRolls: requires one or two dialogue partners. For any other count the source's `match` binds no `rolls` and the `return` raises `UnboundLocalError` (games/ludo/instancegenerator.py:354-366), which is not modelled.
- Unicode semantics of `\d` and of `str.split()`/`strip()` whitespace are not modelled. Only ASCII digits and ASCII whitespace count.
- The dictionary iteration order of `get_new_state`'s copy is not modelled, because it never affects a result there. Minimax positions are a map.
- Minimax.MinimaxSearch: the turn is a natural number and the player is 0 or 1. The token count is 1 or 2, since `_get_tokens` returns `None` otherwise. A negative `turn`, whose Python negative indexing still works, is not modelled.
- `_is_done` (games/ludo/master.py:292-299) is not modelled: as written it is never called, because `_check_game_status` only tests its truthiness.
- Python's `KeyError` is not modelled. Lookups of missing keys are excluded by preconditions. In `Game.Game.UpdateBoard`, targets whose `move[token] - 1` would raise `IndexError` are also excluded.

## Findings

| source | as written | input that shows it | evidently intended | confidence | as-written member | corrected member |
|---|---|---|---|---|---|---|
| games/ludo/scoring.py:110 | "Errors Per Accepted Move" is computed as accepted moves divided by errors, times 100, guarded by the error count | 4 accepted moves: 1 error gives 400 and 2 errors give 200, so more errors give a lower value | errors divided by accepted moves, times 100, guarded by the accepted-move count | medium, not executed | Scoring.ErrorsPerAcceptedMoveInverted | Scoring.MoreErrorsScoreHigher |
