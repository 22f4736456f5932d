/** Model of `Lottos` and `WinLottoNumbers` as their tests use them: a batch
    of tickets, the winning numbers with a bonus number, the total prize of
    the batch and its return rate. */
module Batches {
  import opened Wrappers
  import opened Tickets

  /** The batch as `new Lottos(lottoList, lottoList.size())` builds it. */
  datatype Lottos = Lottos(lottoList: seq<Lotto>, lottoCount: nat)

  /** The winning entries and the bonus entry the test sets on `WinLottoNumbers`. */
  datatype WinLottoNumbers = WinLottoNumbers(winNumbers: seq<Entry>, bonusNumber: Entry)

  /** The prize one ticket wins against the winning numbers and bonus. */
  function TicketPrize(l: Lotto, win: WinLottoNumbers): (r: nat)
    ensures r <= FIRST_PRIZE
    ensures r > 0 <==> 3 <= MatchCount(l, win.winNumbers) <= LOTTO_SIZE
  {
    GetLotteryAmount(MatchCount(l, win.winNumbers), ContainsBonus(l, win.bonusNumber))
  }

  /** The summed prizes of `tickets[i..]`. */
  function PrizeSumFrom(tickets: seq<Lotto>, win: WinLottoNumbers, i: nat): (r: nat)
    requires i <= |tickets|
    ensures r <= (|tickets| - i) * FIRST_PRIZE
    ensures r == 0 <==> forall j :: i <= j < |tickets| ==> TicketPrize(tickets[j], win) == 0
    decreases |tickets| - i
  {
    if i == |tickets| then 0 else TicketPrize(tickets[i], win) + PrizeSumFrom(tickets, win, i + 1)
  }

  /** `getTotalLotteryAmount(winLottoNumbers)`: the prizes of every ticket of
      the batch, added up. */
  function GetTotalLotteryAmount(lottos: Lottos, win: WinLottoNumbers): (total: nat)
    ensures total <= |lottos.lottoList| * FIRST_PRIZE
    ensures total == 0 <==> forall j :: 0 <= j < |lottos.lottoList| ==> TicketPrize(lottos.lottoList[j], win) == 0
  {
    PrizeSumFrom(lottos.lottoList, win, 0)
  }

  lemma {:induction false} PrizeSumShift(a: seq<Lotto>, b: seq<Lotto>, win: WinLottoNumbers, j: nat)
    requires j <= |b|
    ensures PrizeSumFrom(a + b, win, |a| + j) == PrizeSumFrom(b, win, j)
    decreases |b| - j
  {
    if j < |b| {
      PrizeSumShift(a, b, win, j + 1);
      assert (a + b)[|a| + j] == b[j];
    }
  }

  lemma {:induction false} PrizeSumSplit(a: seq<Lotto>, b: seq<Lotto>, win: WinLottoNumbers, i: nat)
    requires i <= |a|
    ensures PrizeSumFrom(a + b, win, i) == PrizeSumFrom(a, win, i) + PrizeSumFrom(b, win, 0)
    decreases |a| - i
  {
    if i == |a| {
      PrizeSumShift(a, b, win, 0);
    } else {
      PrizeSumSplit(a, b, win, i + 1);
      assert (a + b)[i] == a[i];
    }
  }

  /** Joining two batches adds their totals: each ticket's prize depends on
      that ticket alone. */
  lemma TotalOfJoinedBatches(a: Lottos, b: Lottos, win: WinLottoNumbers)
    ensures GetTotalLotteryAmount(Lottos(a.lottoList + b.lottoList, a.lottoCount + b.lottoCount), win)
         == GetTotalLotteryAmount(a, win) + GetTotalLotteryAmount(b, win)
  {
    PrizeSumSplit(a.lottoList, b.lottoList, win, 0);
  }

  /** `Math.floor(getTotalLotteryRate(totalAmount, spent) * 100)` stated on
      integers: the return rate in percent, rounded down. No finite rate
      exists when nothing was spent. */
  function FlooredRatePercent(totalAmount: nat, spent: nat): (r: Option<nat>)
    ensures r.None? <==> spent == 0
    ensures r.Some? ==> r.value * spent <= totalAmount * 100 < (r.value + 1) * spent
  {
    if spent == 0 then None else Some(totalAmount * 100 / spent)
  }
}
