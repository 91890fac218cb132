/** The two filter-and-sum computations of the evaluation: the checkers a
    player has on the whole board, and the checkers a player has on points
    whose number lies in a half-open zone. */
module CheckerSums {
  import opened Wrappers
  import opened GameEntities

  /** A half-open interval [lo, hi) of point numbers, as built by `range(lo, hi)`.
      It is empty when hi <= lo. */
  datatype Zone = Zone(lo: int, hi: int) {
    predicate Contains(n: int) {
      lo <= n < hi
    }
  }

  /** The zone of every point on the board. */
  const WholeBoard: Zone := Zone(0, BoardEnd)

  predicate OwnedBy<P(==)>(pt: BoardPoint<P>, player: P) {
    pt.occupiedBy == Some(player)
  }

  /** Reference definition: some point of `player` inside `zone` holds a checker. */
  ghost predicate HasCheckerIn<P>(points: seq<BoardPoint<P>>, zone: Zone, player: P) {
    exists i :: 0 <= i < |points| && OwnedBy(points[i], player) && zone.Contains(points[i].number) && points[i].checkersCount > 0
  }

  /** Reference definition: some point of `player` holds a checker. */
  ghost predicate HasCheckerOnBoard<P>(points: seq<BoardPoint<P>>, player: P) {
    exists i :: 0 <= i < |points| && OwnedBy(points[i], player) && points[i].checkersCount > 0
  }

  /** What one point adds to `player`'s count inside `zone`. */
  function ZoneContribution<P(==)>(pt: BoardPoint<P>, zone: Zone, player: P): nat {
    if OwnedBy(pt, player) && zone.Contains(pt.number) then pt.checkersCount else 0
  }

  /** The checkers of `player` on points numbered inside `zone`; points with
      no owner or another owner add nothing. */
  function CheckersInZone<P(==)>(points: seq<BoardPoint<P>>, zone: Zone, player: P): (total: nat)
    ensures total <= MaxCheckersPerPoint * |points|
    ensures zone.hi <= zone.lo ==> total == 0
    ensures zone.hi <= 0 || BoardEnd <= zone.lo ==> total == 0
  {
    if |points| == 0 then 0
    else ZoneContribution(points[0], zone, player) + CheckersInZone(points[1..], zone, player)
  }

  /** The checkers of `player` on the board, whatever the point number. */
  function PlayerCheckers<P(==)>(points: seq<BoardPoint<P>>, player: P): (total: nat)
    ensures total <= MaxCheckersPerPoint * |points|
  {
    if |points| == 0 then 0
    else (if OwnedBy(points[0], player) then points[0].checkersCount else 0) + PlayerCheckers(points[1..], player)
  }

  /** A zone count is positive exactly when some point of the player in the
      zone holds a checker. */
  lemma {:induction false} CheckersInZonePositive<P>(points: seq<BoardPoint<P>>, zone: Zone, player: P)
    ensures CheckersInZone(points, zone, player) > 0 <==> HasCheckerIn(points, zone, player)
    decreases |points|
  {
    if |points| > 0 {
      CheckersInZonePositive(points[1..], zone, player);
      if HasCheckerIn(points[1..], zone, player) {
        var j :| 0 <= j < |points[1..]| && OwnedBy(points[1..][j], player) && zone.Contains(points[1..][j].number) && points[1..][j].checkersCount > 0;
        assert points[j + 1] == points[1..][j];
      }
      if HasCheckerIn(points, zone, player) && ZoneContribution(points[0], zone, player) == 0 {
        var i :| 0 <= i < |points| && OwnedBy(points[i], player) && zone.Contains(points[i].number) && points[i].checkersCount > 0;
        assert i > 0;
        assert points[1..][i - 1] == points[i];
      }
    }
  }

  /** The whole-board count is positive exactly when some point of the player
      holds a checker. */
  lemma {:induction false} PlayerCheckersPositive<P>(points: seq<BoardPoint<P>>, player: P)
    ensures PlayerCheckers(points, player) > 0 <==> HasCheckerOnBoard(points, player)
  {
    PlayerCheckersIsWholeBoardZone(points, player);
    CheckersInZonePositive(points, WholeBoard, player);
    if HasCheckerOnBoard(points, player) {
      var i :| 0 <= i < |points| && OwnedBy(points[i], player) && points[i].checkersCount > 0;
      assert WholeBoard.Contains(points[i].number);
    }
  }

  /** Summing over all of a player's points equals summing over the zone
      [0, 24) of every valid point number. */
  lemma {:induction false} PlayerCheckersIsWholeBoardZone<P>(points: seq<BoardPoint<P>>, player: P)
    ensures PlayerCheckers(points, player) == CheckersInZone(points, WholeBoard, player)
    decreases |points|
  {
    if |points| > 0 {
      PlayerCheckersIsWholeBoardZone(points[1..], player);
    }
  }

  /** Counting distributes over concatenation of point lists. */
  lemma {:induction false} CheckersInZoneConcat<P>(a: seq<BoardPoint<P>>, b: seq<BoardPoint<P>>, zone: Zone, player: P)
    ensures CheckersInZone(a + b, zone, player) == CheckersInZone(a, zone, player) + CheckersInZone(b, zone, player)
    decreases |a|
  {
    if |a| == 0 {
      assert a + b == b;
    } else {
      assert (a + b)[1..] == a[1..] + b;
      CheckersInZoneConcat(a[1..], b, zone, player);
    }
  }

  /** A zone split at any interior boundary counts the same as the whole. */
  lemma {:induction false} CheckersInZoneSplit<P>(points: seq<BoardPoint<P>>, lo: int, mid: int, hi: int, player: P)
    requires lo <= mid <= hi
    ensures CheckersInZone(points, Zone(lo, hi), player)
         == CheckersInZone(points, Zone(lo, mid), player) + CheckersInZone(points, Zone(mid, hi), player)
    decreases |points|
  {
    if |points| > 0 {
      CheckersInZoneSplit(points[1..], lo, mid, hi, player);
    }
  }

  /** Two zones that agree on every valid point number count the same:
      only the part of a zone that lies on the board matters. */
  lemma {:induction false} CheckersInZoneOnBoard<P>(points: seq<BoardPoint<P>>, z1: Zone, z2: Zone, player: P)
    requires forall n: PointNumber :: z1.Contains(n) <==> z2.Contains(n)
    ensures CheckersInZone(points, z1, player) == CheckersInZone(points, z2, player)
    decreases |points|
  {
    if |points| > 0 {
      CheckersInZoneOnBoard(points[1..], z1, z2, player);
    }
  }

  /** The count does not depend on the order in which points are listed. */
  lemma {:induction false} CheckersInZonePermutation<P>(a: seq<BoardPoint<P>>, b: seq<BoardPoint<P>>, zone: Zone, player: P)
    requires multiset(a) == multiset(b)
    ensures CheckersInZone(a, zone, player) == CheckersInZone(b, zone, player)
    decreases |a|
  {
    if |a| > 0 {
      assert a[0] in multiset(b);
      var j :| 0 <= j < |b| && b[j] == a[0];
      var rest := b[..j] + b[j + 1..];
      assert b == b[..j] + [b[j]] + b[j + 1..];
      assert a == [a[0]] + a[1..];
      assert multiset(a) == multiset{a[0]} + multiset(a[1..]);
      assert multiset(b) == multiset(b[..j]) + multiset{b[j]} + multiset(b[j + 1..]);
      assert multiset(rest) == multiset(b[..j]) + multiset(b[j + 1..]);
      assert multiset(a[1..]) == multiset(a) - multiset{a[0]};
      assert multiset(rest) == multiset(b) - multiset{b[j]};
      CheckersInZonePermutation(a[1..], rest, zone, player);
      CheckersInZoneConcat(b[..j] + [b[j]], b[j + 1..], zone, player);
      CheckersInZoneConcat(b[..j], [b[j]], zone, player);
      CheckersInZoneConcat(b[..j], b[j + 1..], zone, player);
    }
  }

  /** A point with no checkers, or one not owned by `player`, can be added
      anywhere in the list without changing `player`'s count. */
  lemma {:induction false} CheckersInZoneIgnoresPoint<P>(a: seq<BoardPoint<P>>, pt: BoardPoint<P>, b: seq<BoardPoint<P>>, zone: Zone, player: P)
    requires !OwnedBy(pt, player) || pt.checkersCount == 0
    ensures CheckersInZone(a + [pt] + b, zone, player) == CheckersInZone(a + b, zone, player)
  {
    CheckersInZoneConcat(a + [pt], b, zone, player);
    CheckersInZoneConcat(a, [pt], zone, player);
    CheckersInZoneConcat(a, b, zone, player);
  }
}
