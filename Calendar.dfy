/**
 * Dates and instants as the ledgers see them. An instant is a whole number of
 * seconds counted from a local midnight, so that the time of day is the remainder
 * modulo one day; the time zone itself is fixed by the application and not modelled.
 */
module Calendar {
  import opened PhpStrings

  type Timestamp = int

  const SecondsPerDay: nat := 86400

  datatype Date = Date(year: nat, month: nat, day: nat)

  /** Ordering of calendar dates (Laravel's `after_or_equal` rule): `a` is on or after `b`. */
  predicate OnOrAfter(a: Date, b: Date) {
    a.year > b.year
    || (a.year == b.year && a.month > b.month)
    || (a.year == b.year && a.month == b.month && a.day >= b.day)
  }

  /** `date('Ymd')`: the year padded to four digits, month and day to two. */
  function FormatYmd(d: Date): (s: string)
    ensures AllDigits(s)
  {
    var year := StrPadLeft(NatToString(d.year), 4, '0');
    var month := StrPadLeft(NatToString(d.month), 2, '0');
    var day := StrPadLeft(NatToString(d.day), 2, '0');
    PadDigits(NatToString(d.year), 4);
    PadDigits(NatToString(d.month), 2);
    PadDigits(NatToString(d.day), 2);
    ConcatDigits(year, month);
    ConcatDigits(year + month, day);
    year + month + day
  }

  /** A four-digit year gives the eight characters `YYYYMMDD`. */
  lemma FormatYmdLength(d: Date)
    requires d.year < 10000 && d.month < 100 && d.day < 100
    ensures |FormatYmd(d)| == 8
  {
    assert Pow10(4) == 10000 && Pow10(2) == 100;
    NatToStringFits(d.year, 4);
    NatToStringFits(d.month, 2);
    NatToStringFits(d.day, 2);
  }

  /**
   * The eight characters read back as the date: the first four digits are the year,
   * the next two the month and the last two the day.
   */
  lemma FormatYmdReadBack(d: Date)
    requires d.year < 10000 && d.month < 100 && d.day < 100
    ensures |FormatYmd(d)| == 8
    ensures IntVal(FormatYmd(d)[..4]) == d.year
    ensures IntVal(FormatYmd(d)[4..6]) == d.month
    ensures IntVal(FormatYmd(d)[6..8]) == d.day
  {
    FormatYmdLength(d);
    var year := StrPadLeft(NatToString(d.year), 4, '0');
    var month := StrPadLeft(NatToString(d.month), 2, '0');
    var day := StrPadLeft(NatToString(d.day), 2, '0');
    assert FormatYmd(d) == year + month + day;
    PaddedNatValue(d.year, 4);
    PaddedNatValue(d.month, 2);
    PaddedNatValue(d.day, 2);
    YmdSlices(year, month, day);
  }

  /** Cutting `YYYY`, `MM` and `DD` back out of their concatenation. */
  lemma YmdSlices(year: string, month: string, day: string)
    requires |year| == 4 && |month| == 2 && |day| == 2
    ensures (year + month + day)[..4] == year
    ensures (year + month + day)[4..6] == month
    ensures (year + month + day)[6..8] == day
  {
  }

  /** Midnight of the day that contains `t`. */
  function StartOfDay(t: Timestamp): (m: Timestamp)
    ensures m <= t < m + SecondsPerDay && m % SecondsPerDay == 0
  {
    t - t % SecondsPerDay
  }

  /** `$t->copy()->setTime(h, m, s)`: the same day at the given time. */
  function AtTime(t: Timestamp, hour: nat, minute: nat, second: nat): Timestamp {
    StartOfDay(t) + hour * 3600 + minute * 60 + second
  }
}
