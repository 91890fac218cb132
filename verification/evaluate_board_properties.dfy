/** Properties of the board evaluation that relate several calls or several
    inputs: how the two category zones cover the board from the start offset,
    and which changes to the point list leave the verdict unchanged. */
module EvaluateBoardProperties {
  import opened GameEntities
  import opened CheckerSums
  import opened EvaluateBoardService

  /** The first quarter and the outside-home zone together count exactly the
      checkers on points numbered from the start offset to the board end,
      whether or not the quarter was clamped. */
  lemma {:induction false} ZonesCoverFromStart<P>(points: seq<BoardPoint<P>>, start: int, player: P)
    ensures CheckersInZone(points, FirstQuarter(start), player) + CheckersInZone(points, OutsideHome(start), player)
         == CheckersInZone(points, Zone(start, BoardEnd), player)
  {
    if start + QuarterSize <= BoardEnd {
      CheckersInZoneSplit(points, start, start + QuarterSize, BoardEnd, player);
    }
  }

  /** Oin is exactly the case where the loser has nothing on the bar and no
      checker on any point numbered at or after the start offset. */
  lemma {:induction false} OinIffNothingFromStart<P>(input: GameResultInput<P>, loser: P)
    requires loser in input.board.barCounts && loser in input.startPosition
    ensures DetermineGameType(input, loser) == Oin
        <==> input.board.barCounts[loser] <= 0
             && CheckersInZone(input.board.points, Zone(input.startPosition[loser], BoardEnd), loser) == 0
  {
    var start := input.startPosition[loser];
    ZonesCoverFromStart(input.board.points, start, loser);
  }

  /** The verdict does not depend on the order in which points are listed. */
  lemma {:induction false} EvaluateBoardPermutation<P>(input: GameResultInput<P>, points': seq<BoardPoint<P>>, player1: P, player2: P)
    requires ValidPlayers(input, player1, player2)
    requires multiset(points') == multiset(input.board.points)
    ensures EvaluateBoard(input.(board := input.board.(points := points')), player1, player2)
         == EvaluateBoard(input, player1, player2)
  {
    var points := input.board.points;
    forall player | player == player1 || player == player2
      ensures PlayerCheckers(points', player) == PlayerCheckers(points, player)
    {
      PlayerCheckersIsWholeBoardZone(points, player);
      PlayerCheckersIsWholeBoardZone(points', player);
      CheckersInZonePermutation(points', points, WholeBoard, player);
    }
    forall player | (player == player1 || player == player2) && player in input.startPosition
      ensures CheckersInZone(points', FirstQuarter(input.startPosition[player]), player)
           == CheckersInZone(points, FirstQuarter(input.startPosition[player]), player)
      ensures CheckersInZone(points', OutsideHome(input.startPosition[player]), player)
           == CheckersInZone(points, OutsideHome(input.startPosition[player]), player)
    {
      CheckersInZonePermutation(points', points, FirstQuarter(input.startPosition[player]), player);
      CheckersInZonePermutation(points', points, OutsideHome(input.startPosition[player]), player);
    }
  }

  /** A point that holds no checker of either player (empty, owned by someone
      else, or with a zero count) can be listed anywhere without changing the
      verdict: an unlisted point is the same as an empty one. */
  lemma {:induction false} EvaluateBoardIgnoresEmptyPoint<P>(input: GameResultInput<P>, a: seq<BoardPoint<P>>, pt: BoardPoint<P>, b: seq<BoardPoint<P>>, player1: P, player2: P)
    requires ValidPlayers(input, player1, player2)
    requires input.board.points == a + b
    requires pt.checkersCount == 0 || (!OwnedBy(pt, player1) && !OwnedBy(pt, player2))
    ensures EvaluateBoard(input.(board := input.board.(points := a + [pt] + b)), player1, player2)
         == EvaluateBoard(input, player1, player2)
  {
    forall player | player == player1 || player == player2
      ensures PlayerCheckers(a + [pt] + b, player) == PlayerCheckers(a + b, player)
    {
      PlayerCheckersIsWholeBoardZone(a + b, player);
      PlayerCheckersIsWholeBoardZone(a + [pt] + b, player);
      CheckersInZoneIgnoresPoint(a, pt, b, WholeBoard, player);
    }
    forall player | (player == player1 || player == player2) && player in input.startPosition
      ensures CheckersInZone(a + [pt] + b, FirstQuarter(input.startPosition[player]), player)
           == CheckersInZone(a + b, FirstQuarter(input.startPosition[player]), player)
      ensures CheckersInZone(a + [pt] + b, OutsideHome(input.startPosition[player]), player)
           == CheckersInZone(a + b, OutsideHome(input.startPosition[player]), player)
    {
      CheckersInZoneIgnoresPoint(a, pt, b, FirstQuarter(input.startPosition[player]), player);
      CheckersInZoneIgnoresPoint(a, pt, b, OutsideHome(input.startPosition[player]), player);
    }
  }
}
