/** The month keys of the monthly window in `calculateStats`. Each key is
    produced by taking today's date and moving its month back `i` months
    with `setMonth`, which keeps the day of the month and rolls a day past
    the end of the shorter month into the next one. Months are numbered
    `year * 12 + month` with `month` in `0 .. 11`, as `getMonth` does. */
module MonthWindow {
  import TransactionStats

  predicate IsLeap(y: int) {
    (y % 4 == 0 && y % 100 != 0) || y % 400 == 0
  }

  function DaysIn(y: int, m: int): (n: int)
    requires 0 <= m < 12
    ensures 28 <= n <= 31
  {
    if m == 1 then (if IsLeap(y) then 29 else 28)
    else if m == 3 || m == 5 || m == 8 || m == 10 then 30
    else 31
  }

  function MonthNumber(y: int, m: int): int { y * 12 + m }

  /** The month `setMonth(getMonth() - i)` lands in from day `d` of month
      `m` of year `y`: the target month, or the one after it when the
      target is shorter than `d` days. */
  function ShiftedMonth(y: int, m: int, d: int, i: int): (k: int)
    requires 0 <= m < 12 && 1 <= d <= DaysIn(y, m)
    ensures k == MonthNumber(y, m) - i || k == MonthNumber(y, m) - i + 1
    ensures k == MonthNumber(y, m) - i + 1 <==> d > DaysIn((MonthNumber(y, m) - i) / 12, (MonthNumber(y, m) - i) % 12)
  {
    var target := MonthNumber(y, m) - i;
    if d <= DaysIn(target / 12, target % 12) then target else target + 1
  }

  /** The twelve keys as written, oldest first (`i` from 11 down to 0). */
  function KeysAsWritten(y: int, m: int, d: int): (ks: seq<int>)
    requires 0 <= m < 12 && 1 <= d <= DaysIn(y, m)
    ensures |ks| == 12
    ensures ks[11] == MonthNumber(y, m)
  {
    seq(12, j requires 0 <= j < 12 => ShiftedMonth(y, m, d, 11 - j))
  }

  /** The keys counted from the first of the month: the twelve months
      ending with the current one. */
  function KeysFromFirst(y: int, m: int): (ks: seq<int>)
    requires 0 <= m < 12
    ensures |ks| == 12
    ensures forall j :: 0 <= j < 12 ==> ks[j] == MonthNumber(y, m) - 11 + j
  {
    seq(12, j requires 0 <= j < 12 => ShiftedMonth(y, m, 1, 11 - j))
  }

  /** Up to the 28th both agree. */
  lemma EarlyInMonthAgree(y: int, m: int, d: int)
    requires 0 <= m < 12 && 1 <= d <= 28
    ensures KeysAsWritten(y, m, d) == KeysFromFirst(y, m)
  {
  }

  /** On 31 March 2025 every target month shorter than 31 days rolls into
      the next one: April, June, September and November 2024 and February
      2025 are never keyed, May, July, October, December and March are
      keyed twice, and the window covers seven months instead of twelve.
      The transfers of the five missing months are left out of the chart. */
  lemma MonthEndDropsMonths()
    ensures KeysAsWritten(2025, 2, 31) ==
      [ MonthNumber(2024, 4), MonthNumber(2024, 4), MonthNumber(2024, 6), MonthNumber(2024, 6)
      , MonthNumber(2024, 7), MonthNumber(2024, 9), MonthNumber(2024, 9), MonthNumber(2024, 11)
      , MonthNumber(2024, 11), MonthNumber(2025, 0), MonthNumber(2025, 2), MonthNumber(2025, 2) ]
    ensures var ks := KeysAsWritten(2025, 2, 31);
      && MonthNumber(2024, 3) !in ks && MonthNumber(2024, 5) !in ks && MonthNumber(2024, 8) !in ks
      && MonthNumber(2024, 10) !in ks && MonthNumber(2025, 1) !in ks
  {
    ShiftsFromMarch31Early();
    ShiftsFromMarch31Late();
  }

  /** Moving back 11 to 6 months from 31 March 2025. */
  lemma ShiftsFromMarch31Early()
    ensures ShiftedMonth(2025, 2, 31, 11) == MonthNumber(2024, 4)
    ensures ShiftedMonth(2025, 2, 31, 10) == MonthNumber(2024, 4)
    ensures ShiftedMonth(2025, 2, 31, 9) == MonthNumber(2024, 6)
    ensures ShiftedMonth(2025, 2, 31, 8) == MonthNumber(2024, 6)
    ensures ShiftedMonth(2025, 2, 31, 7) == MonthNumber(2024, 7)
    ensures ShiftedMonth(2025, 2, 31, 6) == MonthNumber(2024, 9)
  {
  }
  /** Moving back 5 to 0 months from 31 March 2025. */
  lemma ShiftsFromMarch31Late()
    ensures ShiftedMonth(2025, 2, 31, 5) == MonthNumber(2024, 9)
    ensures ShiftedMonth(2025, 2, 31, 4) == MonthNumber(2024, 11)
    ensures ShiftedMonth(2025, 2, 31, 3) == MonthNumber(2024, 11)
    ensures ShiftedMonth(2025, 2, 31, 2) == MonthNumber(2025, 0)
    ensures ShiftedMonth(2025, 2, 31, 1) == MonthNumber(2025, 2)
    ensures ShiftedMonth(2025, 2, 31, 0) == MonthNumber(2025, 2)
  {
  }
  /** The keys from the first of the month are distinct, consecutive, and
      exactly the keys of the monthly window the statistics use. */
  lemma FromFirstIsMonthlyWindow(y: int, m: int)
    requires 0 <= m < 12
    ensures var ks := KeysFromFirst(y, m);
      var w := TransactionStats.EmptyWindow(MonthNumber(y, m), TransactionStats.MonthBuckets);
      && (forall j :: 0 <= j < 12 ==> w[j].key == ks[j])
      && (forall i, j :: 0 <= i < j < 12 ==> ks[i] < ks[j])
  {
  }
}
