/** Model of `Lotto`, one ticket, as its tests pin it down: a list of number
    entries, the count of those entries found among the winning numbers, and
    the prize for a (match count, bonus matched) pair. */
module Tickets {
  import opened Wrappers
  import opened LottoNumbers

  const LOTTO_SIZE: nat := 6

  /** The prize of a first-tier ticket, the largest amount the table pays. */
  const FIRST_PRIZE: nat := 2_000_000_000

  /** One list element of a ticket. A list built through `getLottoNumber`
      holds `None` (Java `null`) wherever the key has no entry in the pool. */
  type Entry = Option<LottoNumber>

  datatype Lotto = Lotto(numbers: seq<Entry>)

  predicate Distinct<T(==)>(s: seq<T>)
  {
    forall i, j :: 0 <= i < j < |s| ==> s[i] != s[j]
  }

  function Elems<T>(s: seq<T>): set<T>
  {
    set x | x in s
  }

  lemma {:induction false} DistinctElemsSize<T>(s: seq<T>)
    requires Distinct(s)
    ensures |Elems(s)| == |s|
  {
    if s != [] {
      DistinctElemsSize(s[1..]);
      assert Elems(s) == {s[0]} + Elems(s[1..]);
      assert s[0] !in Elems(s[1..]);
    }
  }

  /** An entry that is a number in [MIN_NUMBER, MAX_NUMBER], as
      `getNumber()` must be for every number of a generated ticket. */
  predicate InRange(e: Entry)
  {
    e.Some? && MIN_NUMBER <= e.value.number <= MAX_NUMBER
  }

  /** What the tests demand of every generated ticket: six entries, each a
      number in [1, 45], none repeated. */
  predicate IsValidLotto(l: Lotto)
  {
    && |l.numbers| == LOTTO_SIZE
    && (forall i :: 0 <= i < |l.numbers| ==> InRange(l.numbers[i]))
    && Distinct(l.numbers)
  }

  /** The number of entries of `t[i..]` that occur in `win`. */
  function CountFrom(t: seq<Entry>, win: seq<Entry>, i: nat): (r: nat)
    requires i <= |t|
    ensures r <= |t| - i
    decreases |t| - i
  {
    if i == |t| then 0 else (if t[i] in win then 1 else 0) + CountFrom(t, win, i + 1)
  }

  /** The count over `t[i..]` is positive exactly when some entry of
      `t[i..]` occurs in `win`. */
  lemma {:induction false} CountFromPositive(t: seq<Entry>, win: seq<Entry>, i: nat)
    requires i <= |t|
    ensures CountFrom(t, win, i) > 0 <==> exists j :: i <= j < |t| && t[j] in win
    decreases |t| - i
  {
    if i < |t| {
      CountFromPositive(t, win, i + 1);
      if t[i] !in win {
        assert forall j :: i <= j < |t| && t[j] in win ==> i + 1 <= j;
      }
    }
  }

  /** `getMatchCount(winNumbers)`: how many of the ticket's entries are among
      the winning numbers. */
  function MatchCount(l: Lotto, win: seq<Entry>): (r: nat)
    ensures r <= |l.numbers|
  {
    CountFrom(l.numbers, win, 0)
  }

  /** Adding an element outside `a` grows the intersection with `w` by one
      exactly when the element is in `w`. */
  lemma IntersectionAddOne<T>(x: T, a: set<T>, w: set<T>)
    requires x !in a
    ensures |({x} + a) * w| == |a * w| + (if x in w then 1 else 0)
  {
    if x in w {
      assert ({x} + a) * w == {x} + a * w;
    } else {
      assert ({x} + a) * w == a * w;
    }
  }

  /** The elements of `t[i..]` are `t[i]` and the elements of `t[i + 1..]`;
      without repetitions, `t[i]` is not among the latter. */
  lemma SuffixElems<T>(t: seq<T>, i: nat)
    requires i < |t|
    ensures Elems(t[i..]) == {t[i]} + Elems(t[i + 1..])
    ensures Distinct(t) ==> t[i] !in Elems(t[i + 1..])
  {
    var rest := t[i + 1..];
    assert t[i..] == [t[i]] + rest;
    if Distinct(t) {
      forall k | 0 <= k < |rest|
        ensures rest[k] != t[i]
      {
        assert rest[k] == t[i + 1 + k];
      }
    }
  }

  /** Over a repetition-free ticket, counting the entries of `t[i..]` found
      in `win` gives the size of the intersection of the two element sets. */
  lemma {:induction false} CountFromIsIntersection(t: seq<Entry>, win: seq<Entry>, i: nat)
    requires i <= |t|
    requires Distinct(t)
    ensures CountFrom(t, win, i) == |Elems(t[i..]) * Elems(win)|
    decreases |t| - i
  {
    if i == |t| {
      assert Elems(t[i..]) == {};
    } else {
      CountFromIsIntersection(t, win, i + 1);
      SuffixElems(t, i);
      var rest := t[i + 1..];
      IntersectionAddOne(t[i], Elems(rest), Elems(win));
      assert (t[i] in Elems(win)) == (t[i] in win);
    }
  }

  /** For a ticket without repeated entries the match count is the size of
      the intersection of the ticket's numbers and the winning numbers. */
  lemma MatchCountIsIntersectionSize(l: Lotto, win: seq<Entry>)
    requires Distinct(l.numbers)
    ensures MatchCount(l, win) == |Elems(l.numbers) * Elems(win)|
  {
    CountFromIsIntersection(l.numbers, win, 0);
    assert l.numbers[0..] == l.numbers;
  }

  /** Matching is symmetric between two repetition-free tickets. */
  lemma MatchCountSymmetric(a: Lotto, b: Lotto)
    requires Distinct(a.numbers) && Distinct(b.numbers)
    ensures MatchCount(a, b.numbers) == MatchCount(b, a.numbers)
  {
    MatchCountIsIntersectionSize(a, b.numbers);
    MatchCountIsIntersectionSize(b, a.numbers);
    assert Elems(a.numbers) * Elems(b.numbers) == Elems(b.numbers) * Elems(a.numbers);
  }

  /** A valid ticket matches at most six winning numbers. */
  lemma ValidMatchCountBound(l: Lotto, win: seq<Entry>)
    requires IsValidLotto(l)
    ensures MatchCount(l, win) <= LOTTO_SIZE
  {
  }

  /** `isBonusMatch`: the bonus number is one of the ticket's entries. */
  function ContainsBonus(l: Lotto, bonus: Entry): (r: bool)
    ensures r <==> MatchCount(l, [bonus]) > 0
  {
    CountFromPositive(l.numbers, [bonus], 0);
    bonus in l.numbers
  }

  /** `Lotto.getLotteryAmount(matchCount, isBonusMatch)`: the prize tier table.
      The bonus makes a difference only for five matches. */
  function GetLotteryAmount(matchCount: int, isBonusMatch: bool): (amount: nat)
    ensures amount > 0 <==> 3 <= matchCount <= LOTTO_SIZE
    ensures amount <= FIRST_PRIZE
  {
    if matchCount == 6 then FIRST_PRIZE
    else if matchCount == 5 && isBonusMatch then 30_000_000
    else if matchCount == 5 then 1_500_000
    else if matchCount == 4 then 50_000
    else if matchCount == 3 then 5_000
    else 0
  }

  /** The eight rows of the parameterised prize test. */
  lemma PrizeTable()
    ensures GetLotteryAmount(0, false) == 0
    ensures GetLotteryAmount(1, false) == 0
    ensures GetLotteryAmount(2, false) == 0
    ensures GetLotteryAmount(3, false) == 5_000
    ensures GetLotteryAmount(4, false) == 50_000
    ensures GetLotteryAmount(5, true) == 30_000_000
    ensures GetLotteryAmount(5, false) == 1_500_000
    ensures GetLotteryAmount(6, true) == 2_000_000_000
  {
  }

  /** More matches never pay less, and a matched bonus never pays less; the
      bonus changes the amount for five matches and for no other count. */
  lemma PrizeOrder(m1: int, m2: int, b: bool)
    requires 0 <= m1 <= m2 <= LOTTO_SIZE
    ensures GetLotteryAmount(m1, b) <= GetLotteryAmount(m2, b)
    ensures GetLotteryAmount(m1, false) <= GetLotteryAmount(m1, true)
    ensures GetLotteryAmount(m1, false) != GetLotteryAmount(m1, true) <==> m1 == 5
  {
  }
}
