/** The months the seed generators walk through: every month of 2018 to
    2022 and January to June 2023, in calendar order (the loops over years
    2018..2023 and months 1..12 that skip the months after June 2023, in
    server/models/mockData.ts and price_prediction.py). The i-th emitted
    month is a closed form of i. */
module SeedCalendar {

  const FirstYear := 2018
  const LastYear := 2023
  /** The last month emitted in the last year. */
  const LastMonth := 6
  /** Number of months emitted: 5 full years and 6 months. */
  const SeedLength := 66

  /** The loop emits (year, month) exactly when this holds. */
  predicate Seeded(year: int, month: int)
  {
    FirstYear <= year <= LastYear && 1 <= month <= 12 && !(year == LastYear && month > LastMonth)
  }

  function SeedYear(i: nat): int
  {
    FirstYear + i / 12
  }

  function SeedMonth(i: nat): int
  {
    i % 12 + 1
  }

  /** Months emitted before the loops reach (year, month), for year from 2018 and month in 1..13. */
  function Emitted(year: int, month: int): nat
    requires year >= FirstYear && 1 <= month
  {
    if (year - FirstYear) * 12 + month - 1 <= SeedLength then (year - FirstYear) * 12 + month - 1 else SeedLength
  }

  /** The wholesale price index of the seed data, exact. */
  function Wpi(year: int, month: int): real
  {
    100.0 + ((year - FirstYear) * 5) as real + month as real * 0.2
  }

  /** Position of (year, month) in the walk, when it is emitted. */
  lemma EmittedPosition(year: int, month: int)
    requires Seeded(year, month)
    ensures Emitted(year, month) < SeedLength
    ensures SeedYear(Emitted(year, month)) == year && SeedMonth(Emitted(year, month)) == month
  {
    var k := year - FirstYear;
    var i := k * 12 + month - 1;
    assert i == Emitted(year, month);
    assert i / 12 == k && i % 12 == month - 1 by {
      assert i == 12 * k + (month - 1) && 0 <= month - 1 < 12;
    }
  }

  /** The i-th emitted month is a seeded one, for every i below 66, and every
      seeded month is emitted at exactly one position. */
  lemma SeedWalk(i: nat)
    requires i < SeedLength
    ensures Seeded(SeedYear(i), SeedMonth(i))
    ensures Emitted(SeedYear(i), SeedMonth(i)) == i
  {
    assert i == 12 * (i / 12) + i % 12;
  }

  /** The walk is in strictly increasing (year, month) order. */
  lemma SeedAscending(i: nat, j: nat)
    requires i < j
    ensures SeedYear(i) < SeedYear(j) || (SeedYear(i) == SeedYear(j) && SeedMonth(i) < SeedMonth(j))
  {
    assert i == 12 * (i / 12) + i % 12;
    assert j == 12 * (j / 12) + j % 12;
  }
}
