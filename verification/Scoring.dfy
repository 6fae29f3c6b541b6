/**
 * Points: row ceilings, linear decay, partial guesses and the Daily Double
 * payout (server/internal/game/scoring.go). Every formula is a floor of a
 * rational number, so it is stated here on integers, in milliseconds.
 */
module Scoring {

  const BASE := 100
  const PARTIAL := 50
  const HOLD_MS := 5000
  const END_MS := 60000
  const SPAN_MS := END_MS - HOLD_MS

  /** RowMultiplier, in quarters: 1.00, 1.25, 1.50, 1.75, 2.00; rows clamp. */
  function RowQuarters(row: int): int {
    if row <= 1 then 4 else if row == 2 then 5 else if row == 3 then 6 else if row == 4 then 7 else 8
  }

  function MaxPointsForRow(row: int): (r: int)
    ensures r == if row <= 1 then 100 else if row == 2 then 125 else if row == 3 then 150
                 else if row == 4 then 175 else 200
  {
    BASE * RowQuarters(row) / 4
  }

  /** CurrentPoints: the decaying value of a row that no partial has touched. */
  function CurrentPoints(row: int, ms: int): int {
    if ms <= HOLD_MS then MaxPointsForRow(row)
    else if ms >= END_MS then BASE
    else BASE + (MaxPointsForRow(row) - BASE) * (END_MS - ms) / SPAN_MS
  }

  /** currentPointsFromPool: the same curve between an explicit ceiling and floor. */
  function PoolPoints(ceiling: int, floor: int, ms: int): int {
    if ms <= HOLD_MS then ceiling
    else if ms >= END_MS then floor
    else (floor * SPAN_MS + (ceiling - floor) * (END_MS - ms)) / SPAN_MS
  }

  /** PartialAward's leftover pool. */
  function Leftover(row: int, ms: int): (r: int)
    ensures r >= 0
  {
    var left := CurrentPoints(row, ms) - PARTIAL;
    if left < 0 then 0 else left
  }

  lemma MulMonotone(x: int, y: int, d: int)
    requires x <= y && 0 <= d
    ensures x * d <= y * d
  {
    assert y * d - x * d == (y - x) * d;
  }

  lemma DivMonotone(x: int, y: int, d: int)
    requires d > 0 && x <= y
    ensures x / d <= y / d
  {
    var p, q := x / d, y / d;
    assert p * d <= x && y < (q + 1) * d;
    if q + 1 <= p {
      MulMonotone(q + 1, p, d);
    }
  }

  lemma DivBetween(lo: int, hi: int, x: int, d: int)
    requires d > 0 && lo * d <= x <= hi * d
    ensures lo <= x / d <= hi
  {
    var q := x / d;
    assert q * d <= x < (q + 1) * d;
    if q + 1 <= lo {
      MulMonotone(q + 1, lo, d);
    } else if hi + 1 <= q {
      MulMonotone(hi + 1, q, d);
    }
  }

  /** The value never leaves the pool: all of it early, the floor alone late. */
  lemma PoolBounded(ceiling: int, floor: int, ms: int)
    requires floor <= ceiling
    ensures floor <= PoolPoints(ceiling, floor, ms) <= ceiling
    ensures ms <= HOLD_MS ==> PoolPoints(ceiling, floor, ms) == ceiling
    ensures END_MS <= ms ==> PoolPoints(ceiling, floor, ms) == floor
  {
    if HOLD_MS < ms < END_MS {
      var bonus, left := ceiling - floor, END_MS - ms;
      MulMonotone(0, bonus, left);
      MulMonotone(left, SPAN_MS, bonus);
      DivBetween(floor, ceiling, floor * SPAN_MS + bonus * left, SPAN_MS);
    }
  }

  /** Waiting never pays. */
  lemma DecayMonotone(ceiling: int, floor: int, early: int, late: int)
    requires floor <= ceiling && early <= late
    ensures PoolPoints(ceiling, floor, late) <= PoolPoints(ceiling, floor, early)
  {
    PoolBounded(ceiling, floor, early);
    PoolBounded(ceiling, floor, late);
    if HOLD_MS < early && late < END_MS {
      var bonus := ceiling - floor;
      MulMonotone(END_MS - late, END_MS - early, bonus);
      DivMonotone(floor * SPAN_MS + bonus * (END_MS - late), floor * SPAN_MS + bonus * (END_MS - early), SPAN_MS);
    }
  }

  /** The two copies of the curve agree on an unreduced pool. */
  lemma CurvesAgree(row: int, ms: int)
    ensures PoolPoints(MaxPointsForRow(row), BASE, ms) == CurrentPoints(row, ms)
  {
    if HOLD_MS < ms < END_MS {
      var x := (MaxPointsForRow(row) - BASE) * (END_MS - ms);
      assert (BASE * SPAN_MS + x) / SPAN_MS == BASE + x / SPAN_MS;
    }
  }

  /** A first partial guess leaves a pool of at least its own 50 and at most the row less 50. */
  lemma LeftoverBounded(row: int, ms: int)
    ensures PARTIAL <= Leftover(row, ms) <= MaxPointsForRow(row) - PARTIAL
    ensures Leftover(row, ms) + PARTIAL == CurrentPoints(row, ms)
  {
    CurvesAgree(row, ms);
    PoolBounded(MaxPointsForRow(row), BASE, ms);
  }

  // ---- Daily Double ----

  function Stars<P>(ratings: map<P, nat>, stars: nat): set<P> {
    set p | p in ratings && ratings[p] == stars
  }

  /** The sum of all ratings, counted by number of stars. */
  function StarSum<P>(ratings: map<P, nat>): nat {
    |Stars(ratings, 1)| + 2 * |Stars(ratings, 2)| + 3 * |Stars(ratings, 3)|
    + 4 * |Stars(ratings, 4)| + 5 * |Stars(ratings, 5)|
  }

  predicate ValidRatings<P>(ratings: map<P, nat>) {
    forall p :: p in ratings ==> 1 <= ratings[p] <= 5
  }

  /** DailyDoubleMultiplier of the average `sum / n`, in quarters; no rating counts as one star. */
  function CrowdQuarters(sum: nat, n: nat): int {
    if n == 0 then 4
    else if 2 * sum >= 9 * n then 8
    else if 2 * sum >= 7 * n then 7
    else if 2 * sum >= 5 * n then 6
    else if 2 * sum >= 3 * n then 5
    else 4
  }

  function Payout<P>(row: int, ratings: map<P, nat>): int {
    MaxPointsForRow(row) * CrowdQuarters(StarSum(ratings), |ratings|) / 4
  }

  lemma StarsInsert<P>(ratings: map<P, nat>, p: P, s: nat, k: nat)
    requires p !in ratings
    ensures |Stars(ratings[p := s], k)| == |Stars(ratings, k)| + (if k == s then 1 else 0)
  {
    assert Stars(ratings[p := s], k) == Stars(ratings, k) + (if k == s then {p} else {});
  }

  lemma StarSumInsert<P>(ratings: map<P, nat>, p: P, s: nat)
    requires p !in ratings && 1 <= s <= 5
    ensures StarSum(ratings[p := s]) == StarSum(ratings) + s
  {
    StarsInsert(ratings, p, s, 1);
    StarsInsert(ratings, p, s, 2);
    StarsInsert(ratings, p, s, 3);
    StarsInsert(ratings, p, s, 4);
    StarsInsert(ratings, p, s, 5);
  }

  /** The loop over the ratings map, in whatever order it yields its entries. */
  method SumRatings<P(==)>(ratings: map<P, nat>) returns (sum: nat)
    requires ValidRatings(ratings)
    ensures sum == StarSum(ratings)
  {
    sum := 0;
    var todo := ratings.Keys;
    ghost var done: map<P, nat> := map[];
    assert StarSum(done) == 0 by {
      assert forall k: nat :: Stars(done, k) == {};
    }
    while todo != {}
      invariant todo <= ratings.Keys
      invariant done == ratings - todo
      invariant sum == StarSum(done)
      decreases todo
    {
      var p :| p in todo;
      StarSumInsert(done, p, ratings[p]);
      sum := sum + ratings[p];
      todo := todo - {p};
      done := done[p := ratings[p]];
      assert done == ratings - todo;
    }
    assert done == ratings;
  }

  lemma StarSumBounded<P>(ratings: map<P, nat>)
    requires ValidRatings(ratings)
    ensures |ratings| <= StarSum(ratings) <= 5 * |ratings|
    decreases |ratings|
  {
    if ratings == map[] {
      assert forall k: nat :: Stars(ratings, k) == {};
    } else {
      var p :| p in ratings;
      var rest := ratings - {p};
      assert ratings == rest[p := ratings[p]];
      assert ratings.Keys == rest.Keys + {p};
      assert |ratings.Keys| == |ratings| && |rest.Keys| == |rest|;
      StarSumBounded(rest);
      StarSumInsert(rest, p, ratings[p]);
    }
  }

  /** A performance pays between once and twice its row, and exactly twice when everybody gives five stars. */
  lemma PayoutBounded<P>(row: int, ratings: map<P, nat>)
    requires ValidRatings(ratings)
    ensures MaxPointsForRow(row) <= Payout(row, ratings) <= 2 * MaxPointsForRow(row)
    ensures ratings != map[] && (forall p :: p in ratings ==> ratings[p] == 5) ==>
              Payout(row, ratings) == 2 * MaxPointsForRow(row)
    ensures (forall p :: p in ratings ==> ratings[p] == 1) ==> Payout(row, ratings) == MaxPointsForRow(row)
  {
    StarSumBounded(ratings);
    if forall p :: p in ratings ==> ratings[p] == 5 {
      assert Stars(ratings, 5) == ratings.Keys && |ratings.Keys| == |ratings|;
      assert forall k: nat | k != 5 :: Stars(ratings, k) == {};
    }
    if forall p :: p in ratings ==> ratings[p] == 1 {
      assert Stars(ratings, 1) == ratings.Keys && |ratings.Keys| == |ratings|;
      assert forall k: nat | k != 1 :: Stars(ratings, k) == {};
    }
  }

  /** More stars from one rater never lower the payout. */
  lemma PayoutMonotone<P>(row: int, ratings: map<P, nat>, p: P, s: nat)
    requires ValidRatings(ratings) && p in ratings && ratings[p] <= s <= 5
    ensures Payout(row, ratings) <= Payout(row, ratings[p := s])
  {
    var rest := ratings - {p};
    assert ratings == rest[p := ratings[p]] && ratings[p := s] == rest[p := s];
    StarSumInsert(rest, p, ratings[p]);
    StarSumInsert(rest, p, s);
    hide StarSum, MaxPointsForRow;
    var m := MaxPointsForRow(row);
    assert |ratings[p := s]| == |ratings| by {
      assert ratings[p := s].Keys == ratings.Keys;
      assert |ratings[p := s]| == |ratings[p := s].Keys| == |ratings.Keys| == |ratings|;
    }
    QuartersMonotone(m, StarSum(ratings), StarSum(ratings[p := s]), |ratings|);
  }

  lemma QuartersMonotone(m: int, few: nat, many: nat, n: nat)
    requires 0 <= m && few <= many
    ensures m * CrowdQuarters(few, n) / 4 <= m * CrowdQuarters(many, n) / 4
  {
    var q, r := CrowdQuarters(few, n), CrowdQuarters(many, n);
    assert q <= r;
    assert m * q <= m * r;
    DivMonotone(m * q, m * r, 4);
  }
}
