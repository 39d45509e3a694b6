/** The wall-clock side of the ledger: a local date-time, its rendering with
    `strftime("%Y-%m-%d %H:%M:%S")` (the stored timestamp) and with
    `strftime("%Y-%m-%d")` (the "today" pattern), and the fact that makes
    prefix matching on those strings a date comparison. */
module Clock {
  import opened Text

  datatype Date = Date(year: int, month: int, day: int)

  datatype DateTime = DateTime(date: Date, hour: int, minute: int, second: int)

  predicate IsLeapYear(y: int) {
    (y % 4 == 0 && y % 100 != 0) || y % 400 == 0
  }

  function DaysInMonth(y: int, m: int): int
    requires 1 <= m <= 12
  {
    if m == 2 then (if IsLeapYear(y) then 29 else 28)
    else if m == 4 || m == 6 || m == 9 || m == 11 then 30
    else 31
  }

  /** A calendar date whose year prints as exactly four digits. */
  predicate ValidDate(d: Date) {
    && 1000 <= d.year <= 9999
    && 1 <= d.month <= 12
    && 1 <= d.day <= DaysInMonth(d.year, d.month)
  }

  predicate ValidDateTime(t: DateTime) {
    && ValidDate(t.date)
    && 0 <= t.hour < 24
    && 0 <= t.minute < 60
    && 0 <= t.second < 60
  }

  function Pow10(w: nat): (p: nat)
    ensures p >= 1
  {
    if w == 0 then 1 else 10 * Pow10(w - 1)
  }

  predicate IsDigit(c: char) {
    '0' <= c <= '9'
  }

  function DigitChar(d: int): (c: char)
    requires 0 <= d < 10
    ensures IsDigit(c)
    ensures c as int - '0' as int == d
  {
    ('0' as int + d) as char
  }

  /** `n` written in base ten, zero-padded to exactly `width` digits (the
      `%m`, `%d`, `%H`, `%M`, `%S` and four-digit `%Y` conversions). */
  function Digits(n: nat, width: nat): (r: string)
    requires n < Pow10(width)
    ensures |r| == width
    ensures forall i :: 0 <= i < |r| ==> IsDigit(r[i])
  {
    if width == 0 then "" else Digits(n / 10, width - 1) + [DigitChar(n % 10)]
  }

  /** Reads a string of decimal digits back as a number. */
  function ParseDigits(s: string): nat
    requires forall i :: 0 <= i < |s| ==> IsDigit(s[i])
  {
    if |s| == 0 then 0
    else
      assert IsDigit(s[|s| - 1]);
      10 * ParseDigits(s[..|s| - 1]) + (s[|s| - 1] as int - '0' as int)
  }

  /** Zero-padded rendering loses nothing: parsing it returns the number. */
  lemma {:induction false} DigitsRoundTrip(n: nat, width: nat)
    requires n < Pow10(width)
    ensures ParseDigits(Digits(n, width)) == n
  {
    if width > 0 {
      var s := Digits(n, width);
      assert n / 10 < Pow10(width - 1);
      assert s[..|s| - 1] == Digits(n / 10, width - 1);
      DigitsRoundTrip(n / 10, width - 1);
    }
  }

  /** `strftime("%Y-%m-%d")`. */
  function DateText(d: Date): (r: string)
    requires ValidDate(d)
    ensures |r| == 10
    ensures r[4] == '-' && r[7] == '-'
    ensures forall i :: 0 <= i < |r| ==> IsDigitOrDash(r[i])
  {
    Digits(d.year, 4) + "-" + Digits(d.month, 2) + "-" + Digits(d.day, 2)
  }

  /** The layout `YYYY-MM-DD HH:MM:SS`: digits everywhere but the two dashes,
      the space and the two colons. */
  predicate StampShaped(s: string) {
    && |s| == 19
    && s[4] == '-' && s[7] == '-' && s[10] == ' ' && s[13] == ':' && s[16] == ':'
    && forall i :: 0 <= i < 19 && i !in {4, 7, 10, 13, 16} ==> IsDigit(s[i])
  }

  /** `strftime("%Y-%m-%d %H:%M:%S")`: the text stored in the `date` column. */
  function Stamp(t: DateTime): (r: string)
    requires ValidDateTime(t)
    ensures StampShaped(r)
    ensures r[..10] == DateText(t.date)
  {
    DateText(t.date) + " " + Digits(t.hour, 2) + ":" + Digits(t.minute, 2) + ":" + Digits(t.second, 2)
  }

  /** Reads the date back from the first ten characters of a `YYYY-MM-DD`
      string. */
  function ParseDate(s: string): Date
    requires |s| >= 10
    requires forall i :: 0 <= i < 4 ==> IsDigit(s[i])
    requires forall i :: 5 <= i < 7 ==> IsDigit(s[i])
    requires forall i :: 8 <= i < 10 ==> IsDigit(s[i])
  {
    Date(ParseDigits(s[0..4]), ParseDigits(s[5..7]), ParseDigits(s[8..10]))
  }

  /** The date rendering is invertible, hence two dates render alike only
      when they are the same date. */
  lemma DateTextRoundTrip(d: Date)
    requires ValidDate(d)
    ensures ParseDate(DateText(d)) == d
  {
    var s := DateText(d);
    assert s[0..4] == Digits(d.year, 4);
    assert s[5..7] == Digits(d.month, 2);
    assert s[8..10] == Digits(d.day, 2);
    DigitsRoundTrip(d.year, 4);
    DigitsRoundTrip(d.month, 2);
    DigitsRoundTrip(d.day, 2);
  }

  /** Reads the moment back from a `YYYY-MM-DD HH:MM:SS` string. */
  function ParseStamp(s: string): DateTime
    requires StampShaped(s)
  {
    DateTime(ParseDate(s), ParseDigits(s[11..13]), ParseDigits(s[14..16]), ParseDigits(s[17..19]))
  }

  /** The stored timestamp is invertible: it parses back to its moment. */
  lemma StampRoundTrip(t: DateTime)
    requires ValidDateTime(t)
    ensures ParseStamp(Stamp(t)) == t
  {
    var s := Stamp(t);
    assert s[..10] == DateText(t.date);
    assert s[0..4] == DateText(t.date)[0..4];
    assert s[5..7] == DateText(t.date)[5..7];
    assert s[8..10] == DateText(t.date)[8..10];
    DateTextRoundTrip(t.date);
    assert s[11..13] == Digits(t.hour, 2);
    assert s[14..16] == Digits(t.minute, 2);
    assert s[17..19] == Digits(t.second, 2);
    DigitsRoundTrip(t.hour, 2);
    DigitsRoundTrip(t.minute, 2);
    DigitsRoundTrip(t.second, 2);
  }

  lemma DateTextInjective(d1: Date, d2: Date)
    requires ValidDate(d1) && ValidDate(d2)
    requires DateText(d1) == DateText(d2)
    ensures d1 == d2
  {
    DateTextRoundTrip(d1);
    DateTextRoundTrip(d2);
  }

  /** The "today" test: a record stamped at `t` matches the date pattern of
      `d` (`LIKE 'YYYY-MM-DD%'`) exactly when `t` falls on `d`. */
  lemma StampMatchesDate(t: DateTime, d: Date)
    requires ValidDateTime(t) && ValidDate(d)
    ensures LikePrefix(Stamp(t), DateText(d)) <==> t.date == d
  {
    var s := Stamp(t);
    LikePrefixIsStartsWith(s, DateText(d));
    if StartsWith(s, DateText(d)) {
      DateTextInjective(t.date, d);
    }
  }
}
