/** The validated input shapes of the board evaluation: one board point, the
    board, and the request that pairs a board with the players' start offsets.
    The bounds the request schema enforces are stated as subset types. */
module GameEntities {
  import opened Wrappers

  /** Points are numbered 0 .. BoardEnd - 1. */
  const BoardEnd: int := 24

  /** No point holds more than this many checkers. */
  const MaxCheckersPerPoint: int := 15

  type PointNumber = n: int | 0 <= n < BoardEnd

  type CheckerCount = c: int | 0 <= c <= MaxCheckersPerPoint

  /** One board position; `occupiedBy` is `None` for an empty point. */
  datatype BoardPoint<P> = BoardPoint(number: PointNumber, checkersCount: CheckerCount, occupiedBy: Option<P>)

  /** The board snapshot: checkers each player holds on the bar, and the
      listed points (not necessarily all 24; a missing point is empty). */
  datatype Board<P> = Board(barCounts: map<P, int>, points: seq<BoardPoint<P>>)

  /** The evaluation request: a board and each player's start offset. */
  datatype GameResultInput<P> = GameResultInput(board: Board<P>, startPosition: map<P, int>)
}
