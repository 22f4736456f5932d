/** Model of the test fixture's helper `asLottoNumbers` and of the fixture it
    builds: fifteen tickets read as integer rows, evaluated against the
    winning numbers 1..6 with bonus number 7. The concrete outcomes are
    computed on the integer rows and carried over to the ticket model by the
    agreement lemmas below. */
module Fixture {
  import opened Wrappers
  import opened LottoNumbers
  import opened Tickets
  import opened Batches
  import opened Factory
  import opened FixtureRows

  /** `asLottoNumbers(xs)` against the pool built up to `bound`: one lookup
      per element, in order. */
  function AsLottoNumbersFrom(bound: int, xs: seq<int>): (r: seq<Entry>)
    ensures |r| == |xs|
    ensures forall i :: 0 <= i < |xs| ==> r[i] == Lookup(bound, xs[i])
  {
    if xs == [] then [] else [Lookup(bound, xs[0])] + AsLottoNumbersFrom(bound, xs[1..])
  }

  /** `asLottoNumbers(xs)` as written: absent exactly where the key is
      outside 1..44, otherwise the number with that value. */
  function AsLottoNumbers(xs: seq<int>): (r: seq<Entry>)
    ensures |r| == |xs|
    ensures forall i :: 0 <= i < |xs| ==> r[i] == GetLottoNumber(xs[i])
    ensures forall i :: 0 <= i < |xs| ==> (r[i].None? <==> !(MIN_NUMBER <= xs[i] < MAX_NUMBER))
  {
    AsLottoNumbersFrom(MAX_NUMBER, xs)
  }

  /** The fixture's input table, all fifteen rows in order. */
  const FIXTURE: seq<seq<int>> :=
    FIXTURE_PART_1 + FIXTURE_PART_2 + FIXTURE_PART_3 + FIXTURE_PART_4 + FIXTURE_PART_5

  /** The rows of the fixture that end in 45 are rows 4, 6, 8 and 12. */
  lemma FixtureLastColumn(k: nat)
    requires k in {4, 6, 8, 12}
    ensures k < |FIXTURE| && |FIXTURE[k]| == 6 && FIXTURE[k][5] == MAX_NUMBER
  {
    if k == 4 {
      assert FIXTURE[k] == FIXTURE_PART_2[1];
    } else if k == 6 {
      assert FIXTURE[k] == FIXTURE_PART_3[0];
    } else if k == 8 {
      assert FIXTURE[k] == FIXTURE_PART_3[2];
    } else {
      assert FIXTURE[k] == FIXTURE_PART_5[0];
    }
  }

  /** The batch the fixture builds: the rows are read in order, each one
      appended to the list as a ticket of `asLottoNumbers` against the pool
      built up to `bound`, and the batch's count is the list's size. */
  function MakeLottos(bound: int, rows: seq<seq<int>>): (lottos: Lottos)
    ensures |lottos.lottoList| == lottos.lottoCount == |rows|
    ensures forall k :: 0 <= k < |rows| ==> lottos.lottoList[k] == Lotto(AsLottoNumbersFrom(bound, rows[k]))
    decreases |rows|
  {
    if rows == [] then Lottos([], 0)
    else
      var lottoList := MakeLottos(bound, rows[..|rows| - 1]).lottoList
                       + [Lotto(AsLottoNumbersFrom(bound, rows[|rows| - 1]))];
      Lottos(lottoList, |lottoList|)
  }

  /** The winning numbers and bonus the return-rate test sets: the lookups
      of 1..6 and of 7 in the pool built up to `bound`. */
  function WinFor(bound: int): (win: WinLottoNumbers)
    ensures |win.winNumbers| == |WINNING|
    ensures BONUS < bound ==> win.bonusNumber == Some(LottoNumber(BONUS))
    ensures BONUS < bound ==> forall i :: 0 <= i < |WINNING| ==> win.winNumbers[i] == Some(LottoNumber(i + 1))
  {
    WinLottoNumbers(AsLottoNumbersFrom(bound, WINNING), Lookup(bound, BONUS))
  }

  /** A lookup is among the looked-up entries of `ws` exactly when its key is
      in the pool and in `ws`, provided the key or every element of `ws` is
      in the pool (two absent entries would otherwise meet as `null`). */
  lemma EntryMembership(bound: int, x: int, ws: seq<int>)
    requires (MIN_NUMBER <= x < bound) || (forall j :: 0 <= j < |ws| ==> MIN_NUMBER <= ws[j] < bound)
    ensures Lookup(bound, x) in AsLottoNumbersFrom(bound, ws) <==> (MIN_NUMBER <= x < bound && x in ws)
  {
    var entries := AsLottoNumbersFrom(bound, ws);
    if MIN_NUMBER <= x < bound && x in ws {
      var j :| 0 <= j < |ws| && ws[j] == x;
      assert entries[j] == Lookup(bound, x);
    }
    if Lookup(bound, x) in entries {
      var j :| 0 <= j < |entries| && entries[j] == Lookup(bound, x);
      assert MIN_NUMBER <= ws[j] < bound;
    }
  }

  lemma {:induction false} CountAgrees(bound: int, xs: seq<int>, ws: seq<int>, i: nat)
    requires i <= |xs|
    requires forall j :: 0 <= j < |ws| ==> MIN_NUMBER <= ws[j] < bound
    ensures CountFrom(AsLottoNumbersFrom(bound, xs), AsLottoNumbersFrom(bound, ws), i) == CommonFrom(xs, Elems(ws), i)
    decreases |xs| - i
  {
    if i < |xs| {
      CountAgrees(bound, xs, ws, i + 1);
      EntryMembership(bound, xs[i], ws);
    }
  }

  /** The match count of a looked-up ticket against looked-up winning numbers
      is the number of the row's integers among the winning integers, when
      every winning integer is in the pool. */
  lemma MatchCountAgrees(bound: int, xs: seq<int>, ws: seq<int>)
    requires forall j :: 0 <= j < |ws| ==> MIN_NUMBER <= ws[j] < bound
    ensures MatchCount(Lotto(AsLottoNumbersFrom(bound, xs)), AsLottoNumbersFrom(bound, ws)) == CommonFrom(xs, Elems(ws), 0)
  {
    CountAgrees(bound, xs, ws, 0);
  }

  /** The summed prizes of a batch built from integer rows, against winning
      numbers and a bonus from the pool, equal the integer-level prize sum. */
  lemma {:induction false} PrizeAgrees(bound: int, rows: seq<seq<int>>, ws: seq<int>, b: int, i: nat)
    requires forall j :: 0 <= j < |ws| ==> MIN_NUMBER <= ws[j] < bound
    requires MIN_NUMBER <= b < bound
    requires i <= |rows|
    ensures PrizeSumFrom(MakeLottos(bound, rows).lottoList, WinLottoNumbers(AsLottoNumbersFrom(bound, ws), Lookup(bound, b)), i)
         == RowsPrizeFrom(rows, Elems(ws), b, i)
    decreases |rows| - i
  {
    if i < |rows| {
      var tickets := MakeLottos(bound, rows).lottoList;
      var win := WinLottoNumbers(AsLottoNumbersFrom(bound, ws), Lookup(bound, b));
      var ticket := Lotto(AsLottoNumbersFrom(bound, rows[i]));
      assert tickets[i] == ticket;
      PrizeAgrees(bound, rows, ws, b, i + 1);
      MatchCountAgrees(bound, rows[i], ws);
      EntryMembership(bound, b, rows[i]);
      assert TicketPrize(ticket, win) == GetLotteryAmount(CommonFrom(rows[i], Elems(ws), 0), b in rows[i]);
    }
  }

  /** The fixture batch built from joined rows is the join of the batches
      built from each part. */
  lemma MakeLottosJoin(bound: int, a: seq<seq<int>>, b: seq<seq<int>>)
    ensures MakeLottos(bound, a + b)
         == Lottos(MakeLottos(bound, a).lottoList + MakeLottos(bound, b).lottoList,
                   MakeLottos(bound, a).lottoCount + MakeLottos(bound, b).lottoCount)
  {
    var joined := MakeLottos(bound, a).lottoList + MakeLottos(bound, b).lottoList;
    forall k | 0 <= k < |a + b|
      ensures MakeLottos(bound, a + b).lottoList[k] == joined[k]
    {
      if k < |a| {
        assert (a + b)[k] == a[k];
      } else {
        assert (a + b)[k] == b[k - |a|];
      }
    }
  }

  /** The total of the batch built from two groups of rows joined is the
      sum of the two groups' totals. */
  lemma JoinedTotal(bound: int, a: seq<seq<int>>, b: seq<seq<int>>, ta: nat, tb: nat)
    requires GetTotalLotteryAmount(MakeLottos(bound, a), WinFor(bound)) == ta
    requires GetTotalLotteryAmount(MakeLottos(bound, b), WinFor(bound)) == tb
    ensures GetTotalLotteryAmount(MakeLottos(bound, a + b), WinFor(bound)) == ta + tb
  {
    MakeLottosJoin(bound, a, b);
    TotalOfJoinedBatches(MakeLottos(bound, a), MakeLottos(bound, b), WinFor(bound));
  }

  /** The total of one part of the fixture, carried over from the integer rows. */
  lemma PartTotal(bound: int, part: seq<seq<int>>, prize: nat)
    requires BONUS < bound
    requires RowsPrizeFrom(part, {1, 2, 3, 4, 5, 6}, BONUS, 0) == prize
    ensures GetTotalLotteryAmount(MakeLottos(bound, part), WinFor(bound)) == prize
  {
    PrizeAgrees(bound, part, WINNING, BONUS, 0);
    assert Elems(WINNING) == {1, 2, 3, 4, 5, 6};
  }

  /** The totals of the five parts of the fixture batch. */
  lemma FixturePartTotals(bound: int)
    requires BONUS < bound
    ensures GetTotalLotteryAmount(MakeLottos(bound, FIXTURE_PART_1), WinFor(bound)) == 0
    ensures GetTotalLotteryAmount(MakeLottos(bound, FIXTURE_PART_2), WinFor(bound)) == 0
    ensures GetTotalLotteryAmount(MakeLottos(bound, FIXTURE_PART_3), WinFor(bound)) == 5_000
    ensures GetTotalLotteryAmount(MakeLottos(bound, FIXTURE_PART_4), WinFor(bound)) == 0
    ensures GetTotalLotteryAmount(MakeLottos(bound, FIXTURE_PART_5), WinFor(bound)) == 30_000_000
  {
    FixturePart1Prizes();
    PartTotal(bound, FIXTURE_PART_1, 0);
    FixturePart2Prizes();
    PartTotal(bound, FIXTURE_PART_2, 0);
    FixturePart3Prizes();
    PartTotal(bound, FIXTURE_PART_3, 5_000);
    FixturePart4Prizes();
    PartTotal(bound, FIXTURE_PART_4, 0);
    FixturePart5Prizes();
    PartTotal(bound, FIXTURE_PART_5, 30_000_000);
  }

  /** The total of the return-rate test: the fifteen fixture tickets win
      30005000 against 1..6 with bonus 7 (one ticket with three matches, one
      with five matches and the bonus). The figure holds for every pool that
      reaches past 7, so for the pool as written and the corrected one: the
      winning numbers 1..6 and the bonus 7 are then all pooled, so an absent
      entry of a ticket never matches any of them. */
  lemma FixtureTotal(bound: int)
    requires BONUS < bound
    ensures |MakeLottos(bound, FIXTURE).lottoList| == 15
    ensures GetTotalLotteryAmount(MakeLottos(bound, FIXTURE), WinFor(bound)) == 30_005_000
  {
    FixturePartTotals(bound);
    var rows := FIXTURE_PART_1;
    JoinedTotal(bound, rows, FIXTURE_PART_2, 0, 0);
    rows := rows + FIXTURE_PART_2;
    JoinedTotal(bound, rows, FIXTURE_PART_3, 0, 5_000);
    rows := rows + FIXTURE_PART_3;
    JoinedTotal(bound, rows, FIXTURE_PART_4, 5_000, 0);
    rows := rows + FIXTURE_PART_4;
    JoinedTotal(bound, rows, FIXTURE_PART_5, 5_000, 30_000_000);
  }

  /** The floored percentage of 30005000 over the 15000 spent. */
  lemma RateOfFixtureTotal()
    ensures FlooredRatePercent(30_005_000, SPENT) == Some(200033)
  {
  }

  /** The return-rate assertion restated on integers: the fixture batch's
      total over the 15000 spent on its fifteen tickets at LOTTO_PRICE each is
      a return of 200033 percent, rounded down. */
  lemma FixtureReturnRate(bound: int)
    requires BONUS < bound
    ensures SPENT == |MakeLottos(bound, FIXTURE).lottoList| * LOTTO_PRICE
    ensures FlooredRatePercent(GetTotalLotteryAmount(MakeLottos(bound, FIXTURE), WinFor(bound)), SPENT) == Some(200033)
  {
    FixtureTotal(bound);
    RateOfFixtureTotal();
  }

  /** Carries an integer-level match count over to the ticket model, for a
      winning row drawn from the pool. */
  lemma MatchCountFromRows(xs: seq<int>, ws: seq<int>, n: nat)
    requires forall j :: 0 <= j < |ws| ==> MIN_NUMBER <= ws[j] < MAX_NUMBER
    requires CommonFrom(xs, Elems(ws), 0) == n
    ensures MatchCount(Lotto(AsLottoNumbers(xs)), AsLottoNumbers(ws)) == n
  {
    MatchCountAgrees(MAX_NUMBER, xs, ws);
  }

  /** The winning rows of the match-count test, as sets, all drawn from
      the pool. */
  lemma MatchRowsInPool()
    ensures forall j :: 0 <= j < |MATCH_TICKET| ==> MIN_NUMBER <= MATCH_TICKET[j] < MAX_NUMBER
    ensures forall j :: 0 <= j < |MATCH_OTHER| ==> MIN_NUMBER <= MATCH_OTHER[j] < MAX_NUMBER
    ensures Elems(MATCH_TICKET) == {1, 2, 3, 4, 5, 6}
    ensures Elems(MATCH_OTHER) == {2, 4, 6, 8, 10, 20}
  {
  }

  /** The first row of the match-count test: a ticket 1..6 matches all six
      winning numbers 1..6. */
  lemma MatchCountAllSix()
    ensures MatchCount(Lotto(AsLottoNumbers(MATCH_TICKET)), AsLottoNumbers(MATCH_TICKET)) == 6
  {
    MatchCountRows();
    MatchRowsInPool();
    MatchCountFromRows(MATCH_TICKET, MATCH_TICKET, 6);
  }

  /** The second row of the match-count test: a ticket 1..6 matches three of
      the winning numbers 2, 4, 6, 8, 10, 20. */
  lemma MatchCountThree()
    ensures MatchCount(Lotto(AsLottoNumbers(MATCH_TICKET)), AsLottoNumbers(MATCH_OTHER)) == 3
  {
    MatchCountRows();
    MatchRowsInPool();
    MatchCountFromRows(MATCH_TICKET, MATCH_OTHER, 3);
  }

  /** A row of numbers in [1, bound] read through the pool built up to
      `bound` holds an absent entry exactly when it contains `bound`. */
  lemma AbsentEntryIffBound(bound: int, xs: seq<int>)
    requires forall j :: 0 <= j < |xs| ==> MIN_NUMBER <= xs[j] <= bound
    ensures None in AsLottoNumbersFrom(bound, xs) <==> bound in xs
  {
    var entries := AsLottoNumbersFrom(bound, xs);
    assert forall j :: 0 <= j < |xs| ==> (entries[j] == None <==> xs[j] == bound);
  }

  /** A row of numbers in 1..45 read through the pool as written holds an
      absent entry exactly when it contains 45. */
  lemma AbsentEntryIffMax(xs: seq<int>)
    requires forall j :: 0 <= j < |xs| ==> MIN_NUMBER <= xs[j] <= MAX_NUMBER
    ensures None in AsLottoNumbers(xs) <==> MAX_NUMBER in xs
  {
    AbsentEntryIffBound(MAX_NUMBER, xs);
  }

  /** Read through the intended pool, a row of numbers in 1..45 holds no
      absent entry. */
  lemma NoAbsentEntryIntended(xs: seq<int>)
    requires forall j :: 0 <= j < |xs| ==> MIN_NUMBER <= xs[j] <= MAX_NUMBER
    ensures None !in AsLottoNumbersFrom(INTENDED_BOUND, xs)
  {
    var entries := AsLottoNumbersFrom(INTENDED_BOUND, xs);
    forall j | 0 <= j < |entries|
      ensures entries[j] != None
    {
      assert entries[j] == Lookup(INTENDED_BOUND, xs[j]);
    }
  }

  /** The looked-up entry at position `p` of row `k` of a batch. */
  lemma BatchEntry(bound: int, rows: seq<seq<int>>, k: nat, p: nat)
    requires k < |rows| && p < |rows[k]|
    ensures MakeLottos(bound, rows).lottoList[k].numbers[p] == Lookup(bound, rows[k][p])
  {
  }

  /** Four fixture rows (the ones ending in 45) build tickets with an
      absent sixth entry as written, so they are not valid tickets; with the
      intended pool that entry is the number 45. */
  lemma FixtureAbsentEntries(k: nat)
    requires k in {4, 6, 8, 12}
    ensures k < |FIXTURE| && FIXTURE[k][5] == MAX_NUMBER
    ensures MakeLottos(MAX_NUMBER, FIXTURE).lottoList[k].numbers[5] == None
    ensures !IsValidLotto(MakeLottos(MAX_NUMBER, FIXTURE).lottoList[k])
    ensures MakeLottos(INTENDED_BOUND, FIXTURE).lottoList[k].numbers[5] == Some(LottoNumber(MAX_NUMBER))
  {
    FixtureLastColumn(k);
    BatchEntry(MAX_NUMBER, FIXTURE, k, 5);
    BatchEntry(INTENDED_BOUND, FIXTURE, k, 5);
  }
}
