# Short-backgammon board evaluation, modelled in Dafny

This project models the board evaluation of the `sakura` game service
(`EvaluateBoardService`). The service gets the final snapshot of a
short-backgammon board and decides two things:

- who won: the first of the two players with nothing on the bar and no checker
  on any point;
- how badly the other player lost: **Koks**, **Mars** or **Oin**.

The category depends on where the loser's checkers stand, relative to the
loser's start offset. It uses two half-open zones of point numbers:

- the first quarter, `[start, min(start + 6, 24))`;
- the outside-home zone, `[start + 6, 24)`.

The evaluation fails with "No winner can be determined from the current board
state." when neither player is finished.

Files:

- `wrappers.dfy` (`Wrappers`): `Option` and `Result`.
- `game_entities.dfy` (`GameEntities`): the request shapes.
  - `BoardPoint`: point number 0..23, checker count 0..15, optional owner.
  - `Board`: the bar counts and the list of points.
  - `GameResultInput`: a board plus a start offset per player.
  - The schema's bounds are subset types.
  - Players are a type parameter, standing for the UUIDs of the source.
- `checker_sums.dfy` (`CheckerSums`): the two filter-and-sum computations.
  - A player's checkers on the whole board.
  - A player's checkers in a `Zone`, which is the half-open `range(lo, hi)` of the source.
  - Lemmas about both sums: additivity, zone splitting, clamping, independence from point order.
- `evaluate_board_service.dfy` (`EvaluateBoardService`): the service's methods, as pure functions.
  - Their contracts are stated against independent reference predicates.
  - `Finished`: nothing on the bar and no point of the player holding a checker.
  - `KoksPosition`: a checker on the bar, or in the six points from the start offset.
  - `MarsPosition`: a checker six or more points past the start offset.
  - The reference predicates are existentials over the points, not sums.
- `evaluate_board_properties.dfy` (`EvaluateBoardProperties`): lemmas relating several calls or inputs.
- `evaluate_board_scenarios.dfy` (`EvaluateBoardScenarios`): concrete boards for the documented outcomes.

"The first two keys of the bar-count map" cannot be expressed without modelling
Python's dict ordering. The model replaces it with two explicit players,
`player1` and `player2`. They must be distinct, and each must have a bar count
(`ValidPlayers`). The bar-count map may hold further players: like the
source, the evaluation ignores them.

Start offsets are not required. As in the source, only the loser's offset is
read, and only once a winner is found. A loser without an offset makes the
source's dictionary lookup fail; the model returns the error value
`MissingStartPosition(loser)` for it.

The bar counts and the start offsets are unbounded integers, as in the source.
A bar count of zero or less counts as an empty bar, because the source only
tests `> 0`.

## Model

| member | source | states |
|---|---|---|
| CheckerSums.CheckersInZone | src/services/game_process_services/evaluate_board_service.py:128-139 | the zone count is at most 15 per listed point, and is 0 for an empty range or a range entirely off the board |
| CheckerSums.CheckersInZonePositive | src/services/game_process_services/evaluate_board_service.py:139 | the zone count is positive exactly when some point owned by the player, numbered inside the range, holds a checker; unowned and foreign points never contribute |
| CheckerSums.PlayerCheckers | src/services/game_process_services/evaluate_board_service.py:80 | the player's board total is at most 15 per listed point |
| CheckerSums.PlayerCheckersPositive | src/services/game_process_services/evaluate_board_service.py:80 | the player's board total is positive exactly when some point the player occupies holds a checker |
| CheckerSums.PlayerCheckersIsWholeBoardZone | src/services/game_process_services/evaluate_board_service.py:80 | the board total equals the zone count over [0, 24), the range of every valid point number |
| CheckerSums.CheckersInZoneConcat | src/services/game_process_services/evaluate_board_service.py:139 | the zone count of two concatenated point lists is the sum of their counts |
| CheckerSums.CheckersInZoneSplit | src/services/game_process_services/evaluate_board_service.py:139 | splitting a range at any interior boundary splits the count into two parts that add up to it |
| CheckerSums.CheckersInZoneOnBoard | src/services/game_process_services/evaluate_board_service.py:139 | two ranges that contain the same valid point numbers give the same count, so clamping a range to the board changes nothing |
| CheckerSums.CheckersInZonePermutation | src/services/game_process_services/evaluate_board_service.py:139 | the count is the same for any reordering of the point list |
| CheckerSums.CheckersInZoneIgnoresPoint | src/services/game_process_services/evaluate_board_service.py:139 | inserting a point that is not the player's, or holds no checker, anywhere in the list leaves the count unchanged |
| EvaluateBoardService.AllCheckersOff | src/services/game_process_services/evaluate_board_service.py:68-81 | true exactly when the bar count is not positive and no point the player occupies holds a checker |
| EvaluateBoardService.DetermineWinner | src/services/game_process_services/evaluate_board_service.py:51-66 | player1 wins whenever finished, whatever player2's state; player2 wins exactly when player1 is not finished and player2 is; no winner exactly when neither is finished |
| EvaluateBoardService.FirstQuarterEnd | src/services/game_process_services/evaluate_board_service.py:110 | the quarter end never exceeds 24, and the clamped quarter holds exactly the valid point numbers of [start, start + 6) |
| EvaluateBoardService.HasCheckersOnBarOrFirstQuarter | src/services/game_process_services/evaluate_board_service.py:100-112 | true exactly when the bar count is positive or a point of the player numbered in [start, start + 6) holds a checker |
| EvaluateBoardService.HasCheckersOutsideHome | src/services/game_process_services/evaluate_board_service.py:114-126 | true exactly when a point of the player numbered at least start + 6 holds a checker; never true when start + 6 >= 24 |
| EvaluateBoardService.DetermineGameType | src/services/game_process_services/evaluate_board_service.py:83-98 | Koks exactly in a Koks position; Mars exactly when not Koks and a checker stands past the first quarter; Oin exactly when neither; Mars is impossible when start + 6 >= 24 |
| EvaluateBoardService.Loser | src/services/game_process_services/evaluate_board_service.py:47 | the loser is the other player of the pair, never the winner |
| EvaluateBoardService.EvaluateBoard | src/services/game_process_services/evaluate_board_service.py:30-49 | fails with the no-winner error exactly when neither player is finished; otherwise takes the winner of the priority rule, and returns it with the category of the other player's position when that player has a start offset, else the missing-offset error for that player; with both offsets present the no-winner error is the only failure; when both players are finished and player2 has an offset, player1 wins with Oin |
| EvaluateBoardProperties.ZonesCoverFromStart | src/services/game_process_services/evaluate_board_service.py:110-126 | the first quarter and the outside-home zone together count exactly the checkers in [start, 24), whether or not the quarter was clamped |
| EvaluateBoardProperties.OinIffNothingFromStart | src/services/game_process_services/evaluate_board_service.py:93-98 | the category is Oin exactly when the loser's bar count is not positive and the loser has no checker on points numbered from start to 23 |
| EvaluateBoardProperties.EvaluateBoardPermutation | src/services/game_process_services/evaluate_board_service.py:30-49 | reordering the point list never changes the verdict |
| EvaluateBoardProperties.EvaluateBoardIgnoresEmptyPoint | src/services/game_process_services/evaluate_board_service.py:30-49 | inserting anywhere a point that holds no checker of either player never changes the verdict, so an unlisted point behaves as an empty one |
| EvaluateBoardScenarios.KoksFromBar | src/services/game_process_services/evaluate_board_service.py:110-112 | a loser with one checker on the bar gives Koks |
| EvaluateBoardScenarios.MarsOutsideFirstQuarter | src/services/game_process_services/evaluate_board_service.py:124-126 | a loser whose only checker is on point 10, with start 0, gives Mars |
| EvaluateBoardScenarios.OinBeforeStart | src/services/game_process_services/evaluate_board_service.py:93-98 | a loser whose only checker is before the start offset gives Oin |
| EvaluateBoardScenarios.KoksBeforeMars | src/services/game_process_services/evaluate_board_service.py:93-96 | a first-quarter checker gives Koks even with another checker outside home |
| EvaluateBoardScenarios.NoWinnerWhileBothPlay | src/services/game_process_services/evaluate_board_service.py:43-45 | with checkers left for both players the evaluation fails with the no-winner error |
| EvaluateBoardScenarios.SecondPlayerWinsWithClampedQuarter | src/services/game_process_services/evaluate_board_service.py:62-65 | player2 wins when player1 holds a checker; start 20 clamps the quarter to points 20..23 and a checker on 23 gives Koks |
| EvaluateBoardScenarios.BothFinishedFirstWins | src/services/game_process_services/evaluate_board_service.py:62-63 | when both players are finished player1 wins, with Oin |
| EvaluateBoardScenarios.WinnerWithoutStartOffset | src/services/game_process_services/evaluate_board_service.py:47-48 | a winner without a start offset still gets a verdict, since only the loser's offset is read |
| EvaluateBoardScenarios.LoserWithoutStartOffset | src/services/game_process_services/evaluate_board_service.py:110 | a loser without a start offset gives the missing-offset error |
| EvaluateBoardScenarios.NoWinnerWithoutStartOffsets | src/services/game_process_services/evaluate_board_service.py:43-45 | with no winner the evaluation fails before reading any start offset |

## Left out

- HTTP routing and app setup (`src/api/v1/game_api.py`, `main.py`): request plumbing, no evaluation logic.
- Dependency wiring (`src/dependencies/service_dependencies.py`): framework glue.
- The mapping of the error to an HTTP 400 response (`src/core/exc_handlers.py`). The model returns the distinct error value `NoWinnerDetermined`; its message is `NoWinnerMessage`.
- Request validation and schema examples (`src/dto/input.py`, `src/dto/game_entities.py`, `src/dto/output.py`). Their bounds are subset types; the validation itself is not modelled.
- The point values per category (`POINTS_MAPPING`) and the concrete values of `GameWinType`: `src/core/mappings` and `src/core/enums` are not part of this model. The category is a three-constructor datatype.
- Choosing the first two keys of the bar-count map by dict insertion order. The two players are explicit parameters instead.
- The `IndexError` with fewer than two players. `EvaluateBoard` instead requires two distinct players, each with a bar count.
- The `KeyError` for a loser without a start offset is not an exception in the model: it becomes the error value `MissingStartPosition`. Its translation to a server error is left out with the rest of the HTTP layer.
- Determinism and freedom from side effects need no lemma: every member is a pure Dafny function.
