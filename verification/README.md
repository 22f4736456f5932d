# Lotto number pool and ticket rules

A Dafny model of the core of `java-lotto-kakao`, a lottery simulation. It has two parts:

- **The number pool** (`LottoNumber`). A static initialiser fills a table that maps each integer key to the one `LottoNumber` object carrying that value. `getLottoNumber(n)` is a plain lookup. It returns `null` for a missing key, and the model returns `None`. `getLottoNumbers()` copies out every pooled value. The table is filled with `IntStream.range(MIN_NUMBER, MAX_NUMBER)`, and that range excludes its upper bound, so the pool as written holds 1..44 and has no entry for 45. The model proves this and defines the corrected pool (1..45) beside it.
- **The ticket rules the tests assert** (`Lotto`, `Lottos`, `LottoFactory`, `WinLottoNumbers`). Their sources are not part of this model, so they are modelled by rules that meet what `LottoTest` asserts:
  - a generated ticket is six distinct numbers in [1, 45];
  - the match count is the number of the ticket's entries among the winning numbers; the test asserts it on two examples, and the model proves it is the intersection size for every ticket without repeats;
  - the prize is a function of (match count, bonus matched), fixed by the test on eight rows;
  - a purchase yields `amount / price` tickets;
  - the test asserts only that the fixture's fifteen tickets, against 1..6 with bonus 7, give a floored return of 200033 percent. The model derives the total 30005000 from its own ticket rules (the match count, the bonus test of `Batches.TicketPrize` and the prize tiers) and proves that this total gives 200033.

  The test helper `asLottoNumbers` maps `getLottoNumber` over a list, and its model links the two parts.

Modules, one per file:

| module | file | models |
|---|---|---|
| `Wrappers` | wrappers.dfy | `Option`, for Java `null` |
| `LottoNumbers` | lotto_number.dfy | the pool, `getLottoNumber`, `getLottoNumbers`, `getNumber` (the `number` field) |
| `Tickets` | lotto.dfy | a ticket, its validity, `getMatchCount`, `getLotteryAmount` |
| `Batches` | lottos.dfy | a batch of tickets, the winning numbers, the total prize, the floored return rate |
| `Factory` | lotto_factory.dfy | `createLotto`, `createLottos`, the ticket price |
| `FixtureRows` | fixture_rows.dfy | the test fixture on plain integers, a reference computation without pool lookups |
| `Fixture` | lotto_test.dfy | `asLottoNumbers`, the fixture batch, and the test assertions proved on the ticket model |

Functions that depend on the pool take the pool's exclusive upper `bound`:

- `MAX_NUMBER` (45) is the pool as written.
- `INTENDED_BOUND` (46) is the corrected pool.

`GetLottoNumber` and `AsLottoNumbers` are the as-written versions. The fixture totals hold for every bound above the bonus number 7: the winning numbers 1..6 and the bonus 7 are then all in the pool, so an absent entry of a ticket never matches any of them. So the 200033 result holds for both pools.

Further points on how the model reads the code:

- A missing key gives `None`, as `HashMap.get` gives `null`. No error is raised.
- The pool holds 44 numbers.
- No validation is added to ticket construction or purchase.

## Model

| member | source | states |
|---|---|---|
| LottoNumbers.Fill | src/main/java/LottoNumber.java:19-20 | each key of the walked range ends up mapped to the number with that value; keys outside the range keep their old value; no other key appears |
| LottoNumbers.PoolOf | src/main/java/LottoNumber.java:18-21 | the table the initialiser builds has exactly the keys [1, bound), and each key maps to the number with that value |
| LottoNumbers.PoolSize | src/main/java/LottoNumber.java:19-20 | the table built up to `bound` has `bound - 1` entries |
| LottoNumbers.WrittenPoolShape | src/main/java/LottoNumber.java:11-20 | the pool as written has key set [1, 45), 44 entries, each key mapped to its own number |
| LottoNumbers.Lookup | src/main/java/LottoNumber.java:27-29 | a lookup is present exactly for keys in [1, bound), and otherwise absent rather than an error; a present result carries the key as its number |
| LottoNumbers.GetLottoNumber | src/main/java/LottoNumber.java:27-37 | `getLottoNumber(n)` is present exactly when n is a key of the pool as written, which is exactly 1 <= n < 45; its `getNumber()` is n |
| LottoNumbers.LookupCanonical | src/main/java/LottoNumber.java:14-29 | two lookups, the first present, return the same number exactly when they ask for the same key, so equal numbers are the same pooled object |
| LottoNumbers.WrittenPoolOmitsMax | src/main/java/LottoNumber.java:19 | as written, 45 and 0 are absent, 44 is present, and the pool has one number fewer than the 45 values 1..45 |
| LottoNumbers.IntendedPoolCovers | src/main/java/LottoNumber.java:11-12 | with the range ending one past MAX_NUMBER, the pool's keys are exactly 1..45, it has 45 entries, and lookup is present exactly for 1 <= n <= 45 |
| LottoNumbers.Values | src/main/java/LottoNumber.java:31-33 | the copied-out list has one element per pool entry, no duplicates, exactly the pool's values as its elements, and numbers in [1, bound) |
| LottoNumbers.GetLottoNumbers | src/main/java/LottoNumber.java:31-33 | `getLottoNumbers()` as written has 44 elements, no duplicates, numbers in [1, 45), and contains the number for every n in 1..44 |
| Tickets.MatchCount | src/test/java/LottoTest.java:93-98 | a ticket never matches more numbers than it has |
| Tickets.CountFromIsIntersection | src/test/java/LottoTest.java:93-98 | for a ticket without repeats, counting the entries of a suffix found among the winning numbers gives the size of the intersection of the two sets |
| Tickets.MatchCountIsIntersectionSize | src/test/java/LottoTest.java:86-98 | for a ticket without repeats, the match count is the size of the intersection of the ticket's numbers and the winning numbers |
| Tickets.MatchCountSymmetric | src/test/java/LottoTest.java:86-98 | for two tickets without repeats, matching either one against the other gives the same count |
| Tickets.ValidMatchCountBound | src/test/java/LottoTest.java:52-98 | a valid ticket matches at most six winning numbers |
| Tickets.CountFromPositive | src/test/java/LottoTest.java:93-98 | the count over a suffix is positive exactly when some entry of the suffix is among the winning entries |
| Tickets.ContainsBonus | src/test/java/LottoTest.java:102-119 | the bonus is matched exactly when matching the ticket against the bonus alone counts at least one entry |
| Tickets.GetLotteryAmount | src/test/java/LottoTest.java:100-104 | the prize is positive exactly for 3 to 6 matches and never exceeds the first prize |
| Tickets.PrizeTable | src/test/java/LottoTest.java:101 | the eight (match count, bonus) rows of the prize test give 0, 0, 0, 5000, 50000, 30000000, 1500000, 2000000000 |
| Tickets.PrizeOrder | src/test/java/LottoTest.java:100-104 | over 0..6 matches, more matches never pay less; a matched bonus never pays less; the bonus changes the prize exactly at five matches |
| Batches.TicketPrize | src/test/java/LottoTest.java:113-121 | one ticket's prize is at most the first prize, and it is positive exactly when the ticket matches 3 to 6 winning numbers |
| Batches.GetTotalLotteryAmount | src/test/java/LottoTest.java:113-121 | a batch's total is at most one first prize per ticket, and it is zero exactly when no ticket wins anything |
| Batches.TotalOfJoinedBatches | src/test/java/LottoTest.java:113-121 | the total of two batches joined is the sum of their totals |
| Batches.FlooredRatePercent | src/test/java/LottoTest.java:120 | the floored percentage r satisfies r * spent <= total * 100 < (r + 1) * spent; it is absent exactly when nothing was spent |
| Factory.CreateLotto | src/test/java/LottoTest.java:52-70 | a drawn ticket has six entries, each a number in [1, 45] taken from the candidates, with no duplicates |
| Factory.CreateLottos | src/test/java/LottoTest.java:72-77 | a purchase of `amount` yields `amount / LOTTO_PRICE` tickets under integer division, the batch's count equals its list's length, and every ticket is valid |
| Fixture.AsLottoNumbersFrom | src/test/java/LottoTest.java:79-84 | the helper's result has the input's length, and element i is the pool lookup of input element i |
| Fixture.AsLottoNumbers | src/test/java/LottoTest.java:79-84 | as written, element i is `getLottoNumber(xs[i])`, and it is absent exactly when xs[i] is outside 1..44 |
| Fixture.AbsentEntryIffBound | src/test/java/LottoTest.java:79-84 | a row of numbers in [1, bound], read through the pool built up to `bound`, holds an absent entry exactly when it contains `bound` |
| Fixture.AbsentEntryIffMax | src/test/java/LottoTest.java:79-84 | a row of numbers in 1..45, read through the pool as written, holds an absent entry exactly when it contains 45 |
| Fixture.NoAbsentEntryIntended | src/test/java/LottoTest.java:79-84 | read through the corrected pool, a row of numbers in 1..45 holds no absent entry |
| Fixture.WinFor | src/test/java/LottoTest.java:115-119 | the winning entries have one entry per number of 1..6; when 7 is in the pool, entry i is the number i + 1 and the bonus is the number 7 |
| Fixture.MakeLottos | src/test/java/LottoTest.java:43-49 | the batch the loop builds by appending one ticket per row has as many tickets as rows, ticket k holds the lookups of row k, and the count `lottoList.size()` equals the number of rows |
| Fixture.FixtureLastColumn | src/test/java/LottoTest.java:25-41 | rows 4, 6, 8 and 12 of the fixture (counting from 0) are six numbers ending in 45 |
| Fixture.FixtureAbsentEntries | src/test/java/LottoTest.java:25-49 | as written, the tickets built from those four rows have an absent sixth entry and are not valid tickets; through the corrected pool that entry is the number 45 |
| Fixture.MatchCountAgrees | src/test/java/LottoTest.java:79-98 | the match count of looked-up tickets equals the count of the row's integers among the winning integers, when every winning integer is in the pool |
| Fixture.PrizeAgrees | src/test/java/LottoTest.java:113-121 | the summed prizes of a batch built from integer rows equal the integer-level prize sum of the rows, for winning numbers and a bonus drawn from the pool |
| Fixture.MatchCountAllSix | src/test/java/LottoTest.java:88 | the ticket 1..6 matched against the winning numbers 1..6 gives 6 |
| Fixture.MatchCountThree | src/test/java/LottoTest.java:89 | the ticket 1..6 matched against 2, 4, 6, 8, 10, 20 gives 3 |
| Fixture.JoinedTotal | src/test/java/LottoTest.java:43-49 | the batch built from two groups of rows joined wins the sum of what the two groups' batches win |
| Fixture.FixtureTotal | src/test/java/LottoTest.java:25-121 | the fifteen fixture tickets win 30005000 in total against 1..6 with bonus 7, for the pool as written and for the corrected one |
| Fixture.FixtureReturnRate | src/test/java/LottoTest.java:113-121 | the 15000 spent is fifteen tickets at the ticket price, and the fixture total over it is a floored return of 200033 percent |

## Left out

- The sources of `Lotto`, `Lottos`, `LottoFactory` and `WinLottoNumbers` are not part of this model. Those classes are modelled by the contracts their tests assert, and no validation is added. There is no ticket-size or duplicate check, no check that the bonus differs from the winning numbers, and no error for a purchase below the ticket price. Such an amount buys zero tickets.
- Random drawing in `createLotto` is a nondeterministic choice from the candidate numbers. Uniformity is a probabilistic property and is not modelled. `CreateLottos` draws from `getLottoNumbers()`, the 44-number pool as written, like every other as-written member. The tickets are then in [1, 44], which meets the tests' range [1, 45].
- Factory.CreateLotto: the candidates are a parameter, where `createLotto()` takes none. The requirement of at least six distinct candidates in [1, 45] describes the pool the draw uses. It is not a check made by the source.
- Factory.LOTTO_PRICE is 1000, the unit price the purchase test's amounts assume. The source of `getLottoPrice()` is not part of this model.
- The floating-point return rate and `Math.floor` are restated in integer arithmetic by `FlooredRatePercent`. Its result is absent when nothing was spent, where Java's double division would give infinity or NaN. The integer form is exact and can differ from the double computation where rounding lands just below a whole percent: for 29 over 100, the doubles give 28.999999999999996, which floors to 28, while the integer form gives 29. On the fixture the exact rate is 200033.33…, far from a whole number, so the two agree there.
- Tickets.MatchCount counts the ticket's entries found among the winning entries. It equals the intersection size only for tickets without repeated entries. Because absent entries compare equal to each other, the count for tickets with absent entries is stated only through the integer rows (`Fixture.MatchCountAgrees` requires the winning integers to be in the pool).
- Tickets.GetLotteryAmount: the tiers for inputs outside the test table are only what the tiers imply. The cases the tests do not exercise are 0, 1, 2, 3 and 4 matches with the bonus, 6 matches without it, and counts outside 0..6.
- Batches.FlooredRatePercent: the source of `Lottos.getTotalLotteryRate(total, spent)` is not part of this model. The model reads it as `total / spent`, which the test then multiplies by 100 and floors. Both `FlooredRatePercent` and the range of totals named in the next line rest on this reading.
- Batches.TicketPrize: how `Lottos.getTotalLotteryAmount` prices a ticket is not visible, so this is the model's own reading. The ticket's match count against the winning numbers is combined with `isBonusMatch`, taken to mean that the bonus is one of the ticket's entries (`Tickets.ContainsBonus`). The fixture total of 30005000 rests on this reading. The test itself fixes only the floored return of 200033, which any total from 30004950 up to, but not including, 30005100 would meet.
- Factory.CreateLottos: the amount is a natural number, where Java's `createLottos(int amount)` also accepts negative amounts. The source of `createLottos` is not part of this model. For an amount of -1000 or less, the test's `hasSize(amount / price)` asks for a negative size, which no list has. For an amount between -999 and -1, Java's truncating division gives 0, where Dafny's Euclidean division would give -1. The model leaves negative amounts out rather than guess.
- The order of `HashMap.values()` in `getLottoNumbers()` is left open: `Values` promises the contents, not the order.
- The pool never changes after initialisation because it is a constant here. That `getLottoNumbers()` returns a fresh copy is immaterial for immutable values.
- Java `int` overflow when summing prizes is not modelled. Integers are unbounded, and the fixture total of 30005000 stays far below 2^31.
- JUnit and AssertJ plumbing is not modelled. Each test case is a lemma, and `lottoData2` duplicates `lottoData` without being used.

## Findings

| source | as written | input that shows it | evidently intended | confidence | as-written member | corrected member |
|---|---|---|---|---|---|---|
| src/main/java/LottoNumber.java:19 | `IntStream.range(MIN_NUMBER, MAX_NUMBER)` excludes MAX_NUMBER, so the pool holds 1..44 and `getLottoNumber(45)` is `null` | key 45. Four fixture rows contain it (src/test/java/LottoTest.java:30, 32, 34, 38), and their tickets get an absent entry | the pool holds every number 1..45, as the class comment `1~45` and the range test's `isBetween(1, 45)` say; `IntStream.rangeClosed` or an upper bound of `MAX_NUMBER + 1` | high (not executed) | LottoNumbers.WrittenPoolOmitsMax | LottoNumbers.IntendedPoolCovers |
