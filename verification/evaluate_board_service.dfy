/** The evaluation of a finished short-backgammon board: who has borne off
    all checkers, and how badly the other player lost (Koks, Mars or Oin). */
module EvaluateBoardService {
  import opened Wrappers
  import opened GameEntities
  import opened CheckerSums

  /** The three win categories; their point values are configuration outside
      the evaluation. */
  datatype GameWinType = Oin | Mars | Koks

  /** The failures of the evaluation. `NoWinnerDetermined` is the reported
      client error: neither player is finished. `MissingStartPosition` is the
      lookup failure when the loser has no start offset; the winner's offset
      is never read. */
  datatype EvaluateError<P> = NoWinnerDetermined | MissingStartPosition(player: P)

  /** Length of a player's first quarter, counted from the start offset. */
  const QuarterSize: int := 6

  /** The message the no-winner failure carries. */
  const NoWinnerMessage: string := "No winner can be determined from the current board state."

  /** The two players the evaluation compares: the first two keys of the bar
      map, so distinct and each with a bar count. */
  predicate ValidPlayers<P(==)>(input: GameResultInput<P>, player1: P, player2: P) {
    && player1 != player2
    && player1 in input.board.barCounts && player2 in input.board.barCounts
  }

  /** Reference definition: the player has nothing on the bar and no checker
      left on any point. */
  ghost predicate Finished<P>(board: Board<P>, player: P)
    requires player in board.barCounts
  {
    board.barCounts[player] <= 0 && !HasCheckerOnBoard(board.points, player)
  }

  /** Reference definition of a Koks loss: something on the bar, or a checker
      on one of the six points from the player's start offset. */
  ghost predicate KoksPosition<P>(input: GameResultInput<P>, player: P)
    requires player in input.board.barCounts && player in input.startPosition
  {
    var start := input.startPosition[player];
    input.board.barCounts[player] > 0 || HasCheckerIn(input.board.points, Zone(start, start + QuarterSize), player)
  }

  /** Reference definition of a Mars loss position: a checker on a point at
      least six past the player's start offset. */
  ghost predicate MarsPosition<P>(input: GameResultInput<P>, player: P)
    requires player in input.startPosition
  {
    var points := input.board.points;
    exists i :: 0 <= i < |points| && OwnedBy(points[i], player)
      && points[i].number >= input.startPosition[player] + QuarterSize && points[i].checkersCount > 0
  }

  /** Reference definition of the category a loser's position earns the winner. */
  ghost function ReferenceCategory<P>(input: GameResultInput<P>, loser: P): GameWinType
    requires loser in input.board.barCounts && loser in input.startPosition
  {
    if KoksPosition(input, loser) then Koks
    else if MarsPosition(input, loser) then Mars
    else Oin
  }

  /** All of the player's checkers are off: nothing positive on the bar and a
      zero checker sum over the points the player occupies. */
  function AllCheckersOff<P(==)>(board: Board<P>, player: P): (off: bool)
    requires player in board.barCounts
    ensures off <==> Finished(board, player)
  {
    if board.barCounts[player] > 0 then false
    else
      PlayerCheckersPositive(board.points, player);
      PlayerCheckers(board.points, player) == 0
  }

  /** The winner is the first of the two players who is finished; there is
      none when neither is. */
  function DetermineWinner<P(==)>(board: Board<P>, player1: P, player2: P): (winner: Option<P>)
    requires player1 in board.barCounts && player2 in board.barCounts
    ensures winner == Some(player1) <==> Finished(board, player1)
    ensures player1 != player2 ==> (winner == Some(player2) <==> !Finished(board, player1) && Finished(board, player2))
    ensures winner == None <==> !Finished(board, player1) && !Finished(board, player2)
    ensures winner.Some? ==> winner.value == player1 || winner.value == player2
  {
    if AllCheckersOff(board, player1) then Some(player1)
    else if AllCheckersOff(board, player2) then Some(player2)
    else None
  }

  /** End of the first quarter, clamped to the board end. The clamp drops no
      valid point number from the quarter. */
  function FirstQuarterEnd(start: int): (end: int)
    ensures end <= BoardEnd
    ensures forall n: PointNumber :: Zone(start, end).Contains(n) <==> Zone(start, start + QuarterSize).Contains(n)
  {
    if start + QuarterSize <= BoardEnd then start + QuarterSize else BoardEnd
  }

  /** The zone [start, min(start + 6, 24)). */
  function FirstQuarter(start: int): Zone {
    Zone(start, FirstQuarterEnd(start))
  }

  /** The zone [start + 6, 24); empty when start + 6 >= 24. */
  function OutsideHome(start: int): Zone {
    Zone(start + QuarterSize, BoardEnd)
  }

  /** True exactly in a Koks position: the bar count is positive or a checker
      stands in the first quarter. */
  function HasCheckersOnBarOrFirstQuarter<P(==)>(input: GameResultInput<P>, player: P): (r: bool)
    requires player in input.board.barCounts && player in input.startPosition
    ensures r <==> KoksPosition(input, player)
  {
    var start := input.startPosition[player];
    var points := input.board.points;
    CheckersInZoneOnBoard(points, FirstQuarter(start), Zone(start, start + QuarterSize), player);
    CheckersInZonePositive(points, Zone(start, start + QuarterSize), player);
    input.board.barCounts[player] > 0 || CheckersInZone(points, FirstQuarter(start), player) > 0
  }

  /** True exactly when a checker stands six or more points past the start;
      never true when that is past the board end. */
  function HasCheckersOutsideHome<P(==)>(input: GameResultInput<P>, player: P): (r: bool)
    requires player in input.startPosition
    ensures r <==> MarsPosition(input, player)
    ensures input.startPosition[player] + QuarterSize >= BoardEnd ==> !r
  {
    var start := input.startPosition[player];
    CheckersInZonePositive(input.board.points, OutsideHome(start), player);
    CheckersInZone(input.board.points, OutsideHome(start), player) > 0
  }

  /** The loser's category, by priority Koks, then Mars, then Oin. */
  function DetermineGameType<P(==)>(input: GameResultInput<P>, loser: P): (t: GameWinType)
    requires loser in input.board.barCounts && loser in input.startPosition
    ensures t == Koks <==> KoksPosition(input, loser)
    ensures t == Mars <==> !KoksPosition(input, loser) && MarsPosition(input, loser)
    ensures t == Oin <==> !KoksPosition(input, loser) && !MarsPosition(input, loser)
    ensures input.startPosition[loser] + QuarterSize >= BoardEnd ==> t != Mars
  {
    if HasCheckersOnBarOrFirstQuarter(input, loser) then Koks
    else if HasCheckersOutsideHome(input, loser) then Mars
    else Oin
  }

  /** The player of the pair who did not win. */
  function Loser<P(==)>(winner: P, player1: P, player2: P): (loser: P)
    requires player1 != player2
    requires winner == player1 || winner == player2
    ensures loser != winner
    ensures loser == player1 || loser == player2
  {
    if winner == player1 then player2 else player1
  }

  /** The whole evaluation: the winner and the category of the other player's
      loss; the no-winner error when neither player is finished; the lookup
      failure when the loser has no start offset. */
  function EvaluateBoard<P(==)>(input: GameResultInput<P>, player1: P, player2: P): (r: Result<(P, GameWinType), EvaluateError<P>>)
    requires ValidPlayers(input, player1, player2)
    ensures r == Failure(NoWinnerDetermined) <==> !Finished(input.board, player1) && !Finished(input.board, player2)
    ensures Finished(input.board, player1)
            ==> r == if player2 in input.startPosition then Success((player1, ReferenceCategory(input, player2)))
                     else Failure(MissingStartPosition(player2))
    ensures !Finished(input.board, player1) && Finished(input.board, player2)
            ==> r == if player1 in input.startPosition then Success((player2, ReferenceCategory(input, player1)))
                     else Failure(MissingStartPosition(player1))
    ensures player1 in input.startPosition && player2 in input.startPosition && r.Failure?
            ==> r.error == NoWinnerDetermined
    ensures Finished(input.board, player1) && Finished(input.board, player2) && player2 in input.startPosition
            ==> r == Success((player1, Oin))
  {
    match DetermineWinner(input.board, player1, player2)
    case None => Failure(NoWinnerDetermined)
    case Some(winner) =>
      var loser := Loser(winner, player1, player2);
      if loser in input.startPosition then Success((winner, DetermineGameType(input, loser)))
      else Failure(MissingStartPosition(loser))
  }
}
