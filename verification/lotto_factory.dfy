/** Model of `LottoFactory`: the unit price and the purchase of tickets. The
    random draw is a nondeterministic choice; only what the tests assert of
    its outcome is promised. */
module Factory {
  import opened Wrappers
  import opened LottoNumbers
  import opened Tickets
  import opened Batches

  /** `getLottoPrice()`: the price of one ticket. */
  const LOTTO_PRICE: nat := 1000

  /** `createLotto()`: six different numbers drawn from `candidates`. */
  method CreateLotto(candidates: seq<LottoNumber>) returns (lotto: Lotto)
    requires Distinct(candidates)
    requires |candidates| >= LOTTO_SIZE
    requires forall i :: 0 <= i < |candidates| ==> MIN_NUMBER <= candidates[i].number <= MAX_NUMBER
    ensures IsValidLotto(lotto)
    ensures forall i :: 0 <= i < |lotto.numbers| ==> lotto.numbers[i].Some? && lotto.numbers[i].value in candidates
  {
    var remaining := Elems(candidates);
    DistinctElemsSize(candidates);
    var picked: seq<Entry> := [];
    while |picked| < LOTTO_SIZE
      invariant |picked| <= LOTTO_SIZE
      invariant remaining <= Elems(candidates)
      invariant |remaining| == |candidates| - |picked|
      invariant forall i :: 0 <= i < |picked| ==> picked[i].Some? && picked[i].value in candidates && picked[i].value !in remaining
      invariant Distinct(picked)
    {
      var x :| x in remaining;
      picked := picked + [Some(x)];
      remaining := remaining - {x};
    }
    lotto := Lotto(picked);
  }

  /** `createLottos(amount)`: as many freshly drawn tickets as `amount` buys
      whole, each drawn from `getLottoNumbers()`, the pool as written. */
  method CreateLottos(amount: nat) returns (lottos: Lottos)
    ensures |lottos.lottoList| == amount / LOTTO_PRICE
    ensures lottos.lottoCount == |lottos.lottoList|
    ensures forall i :: 0 <= i < |lottos.lottoList| ==> IsValidLotto(lottos.lottoList[i])
  {
    var candidates := GetLottoNumbers();
    var list: seq<Lotto> := [];
    while |list| < amount / LOTTO_PRICE
      invariant |list| <= amount / LOTTO_PRICE
      invariant forall i :: 0 <= i < |list| ==> IsValidLotto(list[i])
    {
      var lotto := CreateLotto(candidates);
      list := list + [lotto];
    }
    lottos := Lottos(list, |list|);
  }
}
