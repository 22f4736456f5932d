/** Reference computation of the test fixture on plain integers: the input
    rows, the winning numbers and bonus, and the prizes the rows win, with no
    pool lookups involved. The ticket model is tied to it by the agreement
    lemmas of module Fixture. */
module FixtureRows {
  import opened Tickets

  /** The fixture's fifteen input rows, in five parts of three so that
      each part's prizes can be computed on its own; module Fixture joins
      them. */
  const FIXTURE_PART_1: seq<seq<int>> := [
    [8, 21, 23, 41, 42, 43],
    [3, 5, 11, 16, 32, 38],
    [7, 11, 16, 35, 36, 44]
  ]
  const FIXTURE_PART_2: seq<seq<int>> := [
    [1, 8, 11, 31, 41, 42],
    [13, 14, 16, 38, 42, 45],
    [7, 11, 30, 40, 42, 43]
  ]
  const FIXTURE_PART_3: seq<seq<int>> := [
    [2, 13, 22, 32, 38, 45],
    [23, 25, 33, 36, 39, 41],
    [1, 3, 5, 14, 22, 45]
  ]
  const FIXTURE_PART_4: seq<seq<int>> := [
    [5, 9, 38, 41, 43, 44],
    [2, 8, 9, 18, 19, 21],
    [13, 14, 18, 21, 23, 35]
  ]
  const FIXTURE_PART_5: seq<seq<int>> := [
    [17, 21, 29, 37, 42, 45],
    [3, 8, 27, 30, 35, 44],
    [1, 2, 3, 4, 5, 7]
  ]

  /** The ticket and the two winning rows of the match-count test. */
  const MATCH_TICKET: seq<int> := [1, 2, 3, 4, 5, 6]
  const MATCH_OTHER: seq<int> := [2, 4, 6, 8, 10, 20]

  const WINNING: seq<int> := [1, 2, 3, 4, 5, 6]
  const BONUS: int := 7

  /** The purchase cost the return-rate test divides by. */
  const SPENT: nat := 15000

  /** The number of elements of `xs[i..]` that are in `ws`. */
  function CommonFrom(xs: seq<int>, ws: set<int>, i: nat): nat
    requires i <= |xs|
    decreases |xs| - i
  {
    if i == |xs| then 0 else (if xs[i] in ws then 1 else 0) + CommonFrom(xs, ws, i + 1)
  }

  /** The summed prizes of `rows[i..]` against `ws` and bonus `b`. */
  function RowsPrizeFrom(rows: seq<seq<int>>, ws: set<int>, b: int, i: nat): nat
    requires i <= |rows|
    decreases |rows| - i
  {
    if i == |rows| then 0
    else GetLotteryAmount(CommonFrom(rows[i], ws, 0), b in rows[i]) + RowsPrizeFrom(rows, ws, b, i + 1)
  }

  /** The prizes each part of the fixture wins against 1..6 with bonus 7. */
  lemma FixturePart1Prizes()
    ensures RowsPrizeFrom(FIXTURE_PART_1, {1, 2, 3, 4, 5, 6}, BONUS, 0) == 0
  {
  }

  lemma FixturePart2Prizes()
    ensures RowsPrizeFrom(FIXTURE_PART_2, {1, 2, 3, 4, 5, 6}, BONUS, 0) == 0
  {
  }

  lemma FixturePart3Prizes()
    ensures RowsPrizeFrom(FIXTURE_PART_3, {1, 2, 3, 4, 5, 6}, BONUS, 0) == 5_000
  {
  }

  lemma FixturePart4Prizes()
    ensures RowsPrizeFrom(FIXTURE_PART_4, {1, 2, 3, 4, 5, 6}, BONUS, 0) == 0
  {
  }

  lemma FixturePart5Prizes()
    ensures RowsPrizeFrom(FIXTURE_PART_5, {1, 2, 3, 4, 5, 6}, BONUS, 0) == 30_000_000
  {
  }

  /** The match counts of the match-count test, on plain integers. */
  lemma MatchCountRows()
    ensures CommonFrom(MATCH_TICKET, {1, 2, 3, 4, 5, 6}, 0) == 6
    ensures CommonFrom(MATCH_TICKET, {2, 4, 6, 8, 10, 20}, 0) == 3
  {
  }
}
