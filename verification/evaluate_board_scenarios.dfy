/** Concrete boards for the documented outcomes, with the players numbered
    1 and 2 and both starting at offset 0 unless stated otherwise. */
module EvaluateBoardScenarios {
  import opened Wrappers
  import opened GameEntities
  import opened EvaluateBoardService

  function TwoPlayerInput(bar1: int, bar2: int, points: seq<BoardPoint<int>>, start1: int, start2: int): GameResultInput<int> {
    GameResultInput(Board(map[1 := bar1, 2 := bar2], points), map[1 := start1, 2 := start2])
  }

  /** The loser still has a checker on the bar: Koks. */
  lemma KoksFromBar()
    ensures EvaluateBoard(TwoPlayerInput(0, 1, [], 0, 0), 1, 2) == Success((1, Koks))
  {
  }

  /** The loser's only checker is on point 10, past the first quarter: Mars. */
  lemma MarsOutsideFirstQuarter()
    ensures EvaluateBoard(TwoPlayerInput(0, 0, [BoardPoint(10, 1, Some(2))], 0, 0), 1, 2) == Success((1, Mars))
  {
  }

  /** The loser's only checker is on point 3 while the loser starts at 4:
      nothing from the start offset onwards, so Oin. */
  lemma OinBeforeStart()
    ensures EvaluateBoard(TwoPlayerInput(0, 0, [BoardPoint(3, 1, Some(2))], 0, 4), 1, 2) == Success((1, Oin))
  {
  }

  /** A checker in the first quarter makes Koks even with another checker
      outside home. */
  lemma KoksBeforeMars()
    ensures EvaluateBoard(TwoPlayerInput(0, 0, [BoardPoint(10, 2, Some(2)), BoardPoint(3, 1, Some(2))], 0, 0), 1, 2)
         == Success((1, Koks))
  {
  }

  /** Both players still have checkers on points: no winner. */
  lemma NoWinnerWhileBothPlay()
    ensures EvaluateBoard(TwoPlayerInput(0, 0, [BoardPoint(3, 1, Some(1)), BoardPoint(5, 2, Some(2))], 0, 0), 1, 2)
         == Failure(NoWinnerDetermined)
  {
  }

  /** Player 2 wins when player 1 still holds a checker; a start offset of 20
      clamps the first quarter to points 20..23, so player 1's checker on
      point 23 is Koks. */
  lemma SecondPlayerWinsWithClampedQuarter()
    ensures EvaluateBoard(TwoPlayerInput(0, 0, [BoardPoint(23, 1, Some(1))], 20, 0), 1, 2) == Success((2, Koks))
  {
  }

  /** When both players are finished, the first one wins and the loss is Oin. */
  lemma BothFinishedFirstWins()
    ensures EvaluateBoard(TwoPlayerInput(0, -1, [BoardPoint(7, 0, Some(2)), BoardPoint(8, 4, None)], 0, 0), 1, 2)
         == Success((1, Oin))
  {
  }

  /** Only the loser's start offset is read: the winner may lack one. */
  lemma WinnerWithoutStartOffset()
    ensures EvaluateBoard(GameResultInput(Board(map[1 := 0, 2 := 0], [BoardPoint(10, 1, Some(2))]), map[2 := 0]), 1, 2)
         == Success((1, Mars))
  {
  }

  /** A loser without a start offset is a lookup failure, not a verdict. */
  lemma LoserWithoutStartOffset()
    ensures EvaluateBoard(GameResultInput(Board(map[1 := 0, 2 := 0], [BoardPoint(10, 1, Some(2))]), map[1 := 0]), 1, 2)
         == Failure(MissingStartPosition(2))
  {
  }

  /** With no winner no start offset is read, so none is needed. */
  lemma NoWinnerWithoutStartOffsets()
    ensures EvaluateBoard(GameResultInput(Board(map[1 := 1, 2 := 1], []), map[]), 1, 2) == Failure(NoWinnerDetermined)
  {
  }
}
