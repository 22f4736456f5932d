/** Model of `LottoNumber`: a table, filled once by a static initialiser, that
    maps each integer key to the one `LottoNumber` object carrying that value.
    The table is a constant here; nothing can change it after it is built. */
module LottoNumbers {
  import opened Wrappers

  const MIN_NUMBER: int := 1
  const MAX_NUMBER: int := 45

  /** One lottery number; `number` is what `getNumber()` returns. */
  datatype LottoNumber = LottoNumber(number: int)

  /** The integers `IntStream.range(lo, hi)` enumerates: `lo` included, `hi` excluded. */
  ghost function Range(lo: int, hi: int): (r: set<int>)
    ensures forall n :: n in r <==> lo <= n < hi
    decreases hi - lo
  {
    if lo >= hi then {} else {lo} + Range(lo + 1, hi)
  }

  lemma {:induction false} RangeSize(lo: int, hi: int)
    requires lo <= hi
    ensures |Range(lo, hi)| == hi - lo
    decreases hi - lo
  {
    if lo < hi {
      RangeSize(lo + 1, hi);
      assert lo !in Range(lo + 1, hi);
    }
  }

  /** `IntStream.range(lo, hi).forEach(n -> m.put(n, new LottoNumber(n)))`:
      puts a fresh number under each key of the range, in increasing order. */
  function Fill(m: map<int, LottoNumber>, lo: int, hi: int): (r: map<int, LottoNumber>)
    ensures forall n :: n in r <==> n in m || lo <= n < hi
    ensures forall n :: lo <= n < hi ==> r[n] == LottoNumber(n)
    ensures forall n :: n in m && !(lo <= n < hi) ==> r[n] == m[n]
    decreases hi - lo
  {
    if lo >= hi then m else Fill(m[lo := LottoNumber(lo)], lo + 1, hi)
  }

  /** The table the static initialiser builds when the range it walks ends
      just before `bound`. */
  function PoolOf(bound: int): (pool: map<int, LottoNumber>)
    ensures pool.Keys == Range(MIN_NUMBER, bound)
    ensures forall n :: n in pool ==> pool[n].number == n
  {
    Fill(map[], MIN_NUMBER, bound)
  }

  /** The pool as written: `IntStream.range(MIN_NUMBER, MAX_NUMBER)` stops at 44. */
  const WrittenPool: map<int, LottoNumber> := PoolOf(MAX_NUMBER)

  /** The bound that makes the pool cover 1..45, as the class comment and the
      tests' range check say it should. */
  const INTENDED_BOUND: int := MAX_NUMBER + 1

  const IntendedPool: map<int, LottoNumber> := PoolOf(INTENDED_BOUND)

  lemma PoolSize(bound: int)
    requires MIN_NUMBER <= bound
    ensures |PoolOf(bound)| == bound - MIN_NUMBER
  {
    RangeSize(MIN_NUMBER, bound);
    assert PoolOf(bound).Keys == Range(MIN_NUMBER, bound);
  }

  /** `lottoNumbers.get(n)` on the pool built up to `bound`: the map lookup,
      absent rather than an error for a missing key. */
  function Lookup(bound: int, n: int): (r: Option<LottoNumber>)
    ensures r.Some? <==> MIN_NUMBER <= n < bound
    ensures r.Some? ==> r.value == LottoNumber(n)
  {
    var pool := PoolOf(bound);
    if n in pool then Some(pool[n]) else None
  }

  /** `getLottoNumber(n)` as written: present exactly for 1..44. */
  function GetLottoNumber(n: int): (r: Option<LottoNumber>)
    ensures r.Some? <==> n in WrittenPool
    ensures r.Some? <==> MIN_NUMBER <= n < MAX_NUMBER
    ensures r.Some? ==> r.value.number == n
  {
    Lookup(MAX_NUMBER, n)
  }

  /** Two lookups agree exactly when they ask for the same key, so one object
      stands for each value and equality of numbers is identity of objects. */
  lemma LookupCanonical(bound: int, a: int, b: int)
    requires Lookup(bound, a).Some?
    ensures Lookup(bound, a) == Lookup(bound, b) <==> a == b
  {
  }

  /** The key set of the pool as written is the half-open range [1, 45):
      44 keys, each mapped to the number with that value. */
  lemma WrittenPoolShape()
    ensures WrittenPool.Keys == Range(MIN_NUMBER, MAX_NUMBER)
    ensures |WrittenPool| == 44
    ensures forall n :: n in WrittenPool ==> WrittenPool[n] == LottoNumber(n)
  {
    PoolSize(MAX_NUMBER);
  }

  /** The as-written pool leaves out MAX_NUMBER itself: 45 has no entry, and
      the pool has one number fewer than the 45 values from MIN_NUMBER to
      MAX_NUMBER. Keys below the range are absent as well. */
  lemma WrittenPoolOmitsMax()
    ensures GetLottoNumber(MAX_NUMBER).None?
    ensures GetLottoNumber(MIN_NUMBER - 1).None?
    ensures GetLottoNumber(MAX_NUMBER - 1) == Some(LottoNumber(MAX_NUMBER - 1))
    ensures |WrittenPool| == (MAX_NUMBER - MIN_NUMBER + 1) - 1
  {
    PoolSize(MAX_NUMBER);
  }

  /** With the bound one past MAX_NUMBER the pool holds exactly 1..45. */
  lemma IntendedPoolCovers()
    ensures IntendedPool.Keys == Range(MIN_NUMBER, MAX_NUMBER + 1)
    ensures |IntendedPool| == MAX_NUMBER - MIN_NUMBER + 1
    ensures forall n :: Lookup(INTENDED_BOUND, n).Some? <==> MIN_NUMBER <= n <= MAX_NUMBER
  {
    PoolSize(INTENDED_BOUND);
  }

  /** `new ArrayList<>(lottoNumbers.values())` on the pool built up to `bound`:
      every pooled number once, in an order the model leaves open. */
  method Values(bound: int) returns (r: seq<LottoNumber>)
    ensures |r| == |PoolOf(bound)|
    ensures forall i, j :: 0 <= i < j < |r| ==> r[i] != r[j]
    ensures forall x :: x in r <==> x in PoolOf(bound).Values
    ensures forall i :: 0 <= i < |r| ==> MIN_NUMBER <= r[i].number < bound
  {
    var pool := PoolOf(bound);
    var rest := pool.Keys;
    r := [];
    while rest != {}
      invariant rest <= pool.Keys
      invariant |r| + |rest| == |pool.Keys|
      invariant forall i :: 0 <= i < |r| ==> r[i].number in pool.Keys - rest && r[i] == pool[r[i].number]
      invariant forall k :: k in pool.Keys - rest ==> pool[k] in r
      invariant forall i, j :: 0 <= i < j < |r| ==> r[i] != r[j]
      decreases |rest|
    {
      var k :| k in rest;
      r := r + [pool[k]];
      rest := rest - {k};
    }
    forall x | x in pool.Values
      ensures x in r
    {
      var k :| k in pool && pool[k] == x;
    }
  }

  /** `getLottoNumbers()` as written: the 44 numbers 1..44, each once. */
  method GetLottoNumbers() returns (r: seq<LottoNumber>)
    ensures |r| == 44
    ensures forall i, j :: 0 <= i < j < |r| ==> r[i] != r[j]
    ensures forall i :: 0 <= i < |r| ==> MIN_NUMBER <= r[i].number < MAX_NUMBER
    ensures forall n :: MIN_NUMBER <= n < MAX_NUMBER ==> LottoNumber(n) in r
  {
    r := Values(MAX_NUMBER);
    PoolSize(MAX_NUMBER);
    forall n | MIN_NUMBER <= n < MAX_NUMBER
      ensures LottoNumber(n) in r
    {
      assert n in WrittenPool;
      assert WrittenPool[n] in WrittenPool.Values;
    }
  }
}
