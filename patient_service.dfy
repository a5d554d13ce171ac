/**
 * PatientService: the patient's first name, and the chronological age from a
 * birth date written DD/MM/YYYY. "Today" is a parameter.
 */
module PatientService {
  import opened Strings
  import opened Values
  import opened Numbers

  /** The first whitespace-separated word of s, or "" when it has none. */
  function FirstWord(s: string): string {
    var ws := Words(s);
    if ws == [] then [] else ws[0]
  }

  /** `extract_first_name`: the first word of the stripped name; "" for a non-string or a blank one. */
  function ExtractFirstName(fullName: Value): (r: string)
    ensures NoSpace(r)
  {
    if fullName.VStr? && Strip(fullName.s) != [] then FirstWord(Strip(fullName.s)) else []
  }

  /**
   * The first name is empty exactly for a non-string or blank name; otherwise
   * it is the longest whitespace-free prefix of the stripped name, and not
   * empty.
   */
  lemma {:induction false} FirstNameIsLeadingWord(fullName: Value)
    ensures var r := ExtractFirstName(fullName);
      (r == [] <==> !fullName.VStr? || AllSpace(fullName.s))
      && (r != [] ==> var t := Strip(fullName.s);
            NoSpace(r) && StartsWith(t, r) && (|r| == |t| || IsSpace(t[|r|])))
  {
    if fullName.VStr? {
      StripEmptyIffAllSpace(fullName.s);
      var t := Strip(fullName.s);
      if t != [] {
        assert Words(t)[0] == WordPrefix(t);
      }
    }
  }

  /** A calendar date as `datetime.date` holds it. */
  datatype Date = Date(year: int, month: int, day: int)

  predicate LeapYear(y: int) {
    y % 4 == 0 && (y % 100 != 0 || y % 400 == 0)
  }

  function DaysInMonth(year: int, month: int): int
    requires 1 <= month <= 12
  {
    if month == 2 then (if LeapYear(year) then 29 else 28)
    else if month == 4 || month == 6 || month == 9 || month == 11 then 30
    else 31
  }

  /** The dates `datetime.date` accepts: years 1 to 9999 and real days of the month. */
  predicate ValidDate(d: Date) {
    1 <= d.year <= 9999 && 1 <= d.month <= 12 && 1 <= d.day <= DaysInMonth(d.year, d.month)
  }

  /** `%d`: two digits from 01 to 31, one digit from 1 to 9, or a space and one digit. */
  function DayField(t: string): Option<int> {
    if |t| == 2 && t[0] == ' ' && '1' <= t[1] <= '9' then Some(t[1] as int - '0' as int)
    else if (|t| == 1 || |t| == 2) && AllDigits(t) && 1 <= DigitsValue(t) <= 31 then Some(DigitsValue(t))
    else None
  }

  /** `%m`: two digits from 01 to 12, or one digit from 1 to 9. */
  function MonthField(t: string): Option<int> {
    if (|t| == 1 || |t| == 2) && AllDigits(t) && 1 <= DigitsValue(t) <= 12 then Some(DigitsValue(t))
    else None
  }

  /** `%Y`: exactly four digits. */
  function YearField(t: string): Option<int> {
    if |t| == 4 && AllDigits(t) then Some(DigitsValue(t)) else None
  }

  /**
   * `datetime.strptime(s, "%d/%m/%Y").date()`: the whole text must be the
   * three fields separated by "/", and the date must exist; otherwise None
   * (the ValueError the service catches).
   */
  function ParseDate(s: string): (r: Option<Date>)
    ensures r.Some? ==> ValidDate(r.value)
  {
    var parts := Split(s, '/');
    if |parts| != 3 then None
    else
      match (DayField(parts[0]), MonthField(parts[1]), YearField(parts[2]))
      case (Some(d), Some(m), Some(y)) =>
        var date := Date(y, m, d);
        if ValidDate(date) then Some(date) else None
      case _ => None
  }

  /** `(a.month, a.day) < (b.month, b.day)` */
  predicate EarlierInYear(a: Date, b: Date) {
    a.month < b.month || (a.month == b.month && a.day < b.day)
  }

  /** `a <= b` on dates, compared as (year, month, day). */
  predicate NotAfter(a: Date, b: Date) {
    a.year < b.year || (a.year == b.year && !EarlierInYear(b, a))
  }

  /** The whole years between birth and today, as the service computes them. */
  function Age(birth: Date, today: Date): int {
    today.year - birth.year - (if EarlierInYear(today, birth) then 1 else 0)
  }

  /** `calculate_age` with today's date passed in: `str(years)`, or None. */
  function CalculateAge(birthDate: Value, today: Date): (r: Option<string>)
    ensures r.Some? <==> birthDate.VStr? && ParseDate(birthDate.s).Some?
  {
    if !birthDate.VStr? || birthDate.s == [] then None
    else
      match ParseDate(birthDate.s)
      case None => None
      case Some(birth) => Some(IntToString(Age(birth, today)))
  }

  /**
   * For a birth date not after today, the age is the number of completed
   * years: not negative, its anniversary is not after today, and the next
   * one is.
   */
  lemma {:induction false} AgeIsCompletedYears(birth: Date, today: Date)
    requires NotAfter(birth, today)
    ensures var a := Age(birth, today);
      a >= 0
      && NotAfter(Date(birth.year + a, birth.month, birth.day), today)
      && !NotAfter(Date(birth.year + a + 1, birth.month, birth.day), today)
  {
  }

  /** Anything but a non-empty string has no age. */
  lemma {:induction false} NoTextNoAge(birthDate: Value, today: Date)
    requires !birthDate.VStr? || birthDate.s == []
    ensures CalculateAge(birthDate, today) == None
  {
  }

  /** Two digits, zero-padded. */
  function Pad2(n: int): (r: string)
    requires 0 <= n < 100
    ensures |r| == 2 && AllDigits(r) && DigitsValue(r) == n
  {
    var r := [DigitChar(n / 10), DigitChar(n % 10)];
    assert r[..1] == [DigitChar(n / 10)] && r[..1][..0] == [];
    assert DigitsValue(r[..1]) == n / 10;
    assert DigitsValue(r) == n / 10 * 10 + n % 10;
    r
  }

  /** Four digits, zero-padded. */
  function Pad4(n: int): (r: string)
    requires 0 <= n < 10000
    ensures |r| == 4 && AllDigits(r) && DigitsValue(r) == n
  {
    var high := Pad2(n / 100);
    var low := [DigitChar(n % 100 / 10), DigitChar(n % 10)];
    var r := high + low;
    assert r[..3] == high + [low[0]];
    assert r[..3][..2] == high;
    r
  }

  /** A date written DD/MM/YYYY, as the birth date field expects it. */
  function Format(d: Date): string
    requires ValidDate(d)
  {
    Pad2(d.day) + "/" + Pad2(d.month) + "/" + Pad4(d.year)
  }

  /** Every existing date written DD/MM/YYYY parses back to itself. */
  lemma {:induction false} ParseFormatted(d: Date)
    requires ValidDate(d)
    ensures ParseDate(Format(d)) == Some(d)
  {
    var parts := [Pad2(d.day), Pad2(d.month), Pad4(d.year)];
    FieldsSplit(parts);
    JoinThree(parts[0], parts[1], parts[2], "/");
    assert DayField(parts[0]) == Some(d.day);
  }

  lemma {:induction false} FieldsSplit(parts: seq<string>)
    requires |parts| == 3 && forall i :: 0 <= i < 3 ==> AllDigits(parts[i])
    ensures Split(Join(parts, "/"), '/') == parts
  {
    forall i | 0 <= i < 3 ensures '/' !in parts[i] {
      assert forall k :: 0 <= k < |parts[i]| ==> parts[i][k] != '/';
    }
    SplitJoin(parts, '/');
  }

  /** The age of a birth date written DD/MM/YYYY is its number of whole years. */
  lemma {:induction false} AgeOfFormattedDate(birth: Date, today: Date)
    requires ValidDate(birth)
    ensures CalculateAge(VStr(Format(birth)), today) == Some(IntToString(Age(birth, today)))
  {
    ParseFormatted(birth);
  }

  /** A day past the end of its month, such as 31/04 or 29/02 of a common year, has no age. */
  lemma {:induction false} NonexistentDayHasNoAge(birth: Date, today: Date)
    requires 1 <= birth.year <= 9999 && 1 <= birth.month <= 12
    requires DaysInMonth(birth.year, birth.month) < birth.day <= 31
    ensures CalculateAge(VStr(Pad2(birth.day) + "/" + Pad2(birth.month) + "/" + Pad4(birth.year)), today) == None
  {
    var parts := [Pad2(birth.day), Pad2(birth.month), Pad4(birth.year)];
    FieldsSplit(parts);
    JoinThree(parts[0], parts[1], parts[2], "/");
    assert DayField(parts[0]) == Some(birth.day);
  }
}
