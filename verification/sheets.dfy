/** The spreadsheet side of the bot: the member list read from column 1 of
    the "участники клана" worksheet, and the rows the bot appends to the
    "преды" (warnings) and "Похвала" (praise) worksheets. A worksheet is a
    sequence of rows, a row a sequence of string cells. */
module Sheets {

  datatype Option<T> = None | Some(value: T)

  type Row = seq<string>

  // ---------------------------------------------------------------------
  // Whitespace and str.strip()
  // ---------------------------------------------------------------------

  /** Python's `str.isspace` on one character: the Unicode whitespace
      characters (tab to carriage return, the four information separators,
      space, NEL, no-break space and the Zs/Zl/Zp characters above). */
  predicate IsSpace(c: char) {
    || ('\t' <= c <= '\r')
    || ('\U{1C}' <= c <= ' ')
    || c == '\U{85}'
    || c == '\U{A0}'
    || c == '\U{1680}'
    || ('\U{2000}' <= c <= '\U{200A}')
    || c == '\U{2028}'
    || c == '\U{2029}'
    || c == '\U{202F}'
    || c == '\U{205F}'
    || c == '\U{3000}'
  }

  predicate AllSpace(s: string) {
    forall i | 0 <= i < |s| :: IsSpace(s[i])
  }

  /** The index of the first non-space character of `s` at or after `lo`,
      or |s| when there is none. */
  function SkipSpaceFrom(s: string, lo: nat): (i: nat)
    requires lo <= |s|
    ensures lo <= i <= |s|
    ensures forall k | lo <= k < i :: IsSpace(s[k])
    ensures i < |s| ==> !IsSpace(s[i])
    decreases |s| - lo
  {
    if lo < |s| && IsSpace(s[lo]) then SkipSpaceFrom(s, lo + 1) else lo
  }

  /** The index just past the last non-space character of `s` at or after
      `lo`, or `lo` when there is none. */
  function SkipSpaceBack(s: string, lo: nat, hi: nat): (j: nat)
    requires lo <= hi <= |s|
    ensures lo <= j <= hi
    ensures forall k | j <= k < hi :: IsSpace(s[k])
    ensures j > lo ==> !IsSpace(s[j - 1])
    decreases hi
  {
    if hi > lo && IsSpace(s[hi - 1]) then SkipSpaceBack(s, lo, hi - 1) else hi
  }

  /** Python's `str.strip()` with no argument: the slice of `s` left once
      the whitespace at both ends is removed. It is empty exactly when `s`
      is all whitespace, and otherwise starts and ends with a non-space
      character. */
  function Strip(s: string): (r: string)
    ensures r == [] <==> AllSpace(s)
    ensures r == [] || (!IsSpace(r[0]) && !IsSpace(r[|r| - 1]))
    ensures exists i :: 0 <= i <= |s| - |r| && r == s[i..i + |r|] && AllSpace(s[..i]) && AllSpace(s[i + |r|..])
  {
    var i := SkipSpaceFrom(s, 0);
    var j := SkipSpaceBack(s, i, |s|);
    assert AllSpace(s[..i]);
    assert AllSpace(s[j..]);
    s[i..j]
  }

  // ---------------------------------------------------------------------
  // get_clan_members
  // ---------------------------------------------------------------------

  /** A cell of the member column names a member when it is not blank once
      stripped. */
  predicate IsListed(cell: string) {
    Strip(cell) != []
  }

  /** `get_clan_members`: the cells of column 1 (header included, since
      `col_values` returns every cell of the column) that are not blank,
      each kept as it is, unstripped. Every listed cell is kept as often as
      it occurs and every blank cell is dropped; the order is the column's
      (ClanMembersConcat). */
  function ClanMembers(column: seq<string>): (members: seq<string>)
    ensures forall v :: multiset(members)[v] == if IsListed(v) then multiset(column)[v] else 0
  {
    if column == [] then []
    else
      var rest := ClanMembers(column[1..]);
      assert column == [column[0]] + column[1..];
      (if IsListed(column[0]) then [column[0]] else []) + rest
  }

  // ---------------------------------------------------------------------
  // The %d%m%y date cell
  // ---------------------------------------------------------------------

  /** A calendar date as Python's `datetime` holds it. */
  datatype Date = Date(day: int, month: int, year: int)

  predicate IsLeapYear(year: int) {
    year % 4 == 0 && (year % 100 != 0 || year % 400 == 0)
  }

  function DaysInMonth(month: int, year: int): (days: int) {
    if month == 2 then (if IsLeapYear(year) then 29 else 28)
    else if month == 4 || month == 6 || month == 9 || month == 11 then 30
    else 31
  }

  /** The dates `datetime` can represent: years 1 to 9999, proleptic
      Gregorian calendar. */
  predicate ValidDate(d: Date) {
    && 1 <= d.year <= 9999
    && 1 <= d.month <= 12
    && 1 <= d.day <= DaysInMonth(d.month, d.year)
  }

  predicate IsDigit(c: char) {
    '0' <= c <= '9'
  }

  function DigitChar(n: int): (c: char)
    requires 0 <= n < 10
  {
    ('0' as int + n) as char
  }

  function DigitValue(c: char): (n: int)
    requires IsDigit(c)
  {
    c as int - '0' as int
  }

  /** A number below 100 as two zero-padded decimal digits. */
  function Pad2(n: int): (digits: string)
    requires 0 <= n < 100
  {
    [DigitChar(n / 10), DigitChar(n % 10)]
  }

  /** `strftime("%d%m%y")`: day, month and the year within its century,
      each as two zero-padded digits, so always six digits. */
  function DateCell(d: Date): (cell: string)
    requires ValidDate(d)
    ensures |cell| == 6
    ensures forall i | 0 <= i < 6 :: IsDigit(cell[i])
  {
    Pad2(d.day) + Pad2(d.month) + Pad2(d.year % 100)
  }

  function TwoDigitValue(hi: char, lo: char): (n: int)
    requires IsDigit(hi) && IsDigit(lo)
  {
    10 * DigitValue(hi) + DigitValue(lo)
  }

  /** Reads a DDMMYY cell back as (day, month, two-digit year); None when
      the cell is not six digits. */
  function ParseDateCell(cell: string): (date: Option<(int, int, int)>) {
    if |cell| == 6 && forall i | 0 <= i < 6 :: IsDigit(cell[i]) then
      Some((TwoDigitValue(cell[0], cell[1]), TwoDigitValue(cell[2], cell[3]), TwoDigitValue(cell[4], cell[5])))
    else
      None
  }

  // ---------------------------------------------------------------------
  // append_pred / append_praise rows
  // ---------------------------------------------------------------------

  /** The issuer written into every praise row. The environment variable
      MY_NAME is read and then immediately overwritten with this constant. */
  const Issuer: string := "BOT"

  /** The row `append_pred` appends to the "преды" worksheet: the member,
      the reason, and a date cell that reads back as today's day, month and
      two-digit year. */
  function PredRow(member: string, reason: string, today: Date): (row: Row)
    requires ValidDate(today)
    ensures |row| == 3 && row[0] == member && row[1] == reason
    ensures ParseDateCell(row[2]) == Some((today.day, today.month, today.year % 100))
  {
    DateCellRoundTrip(today);
    [member, reason, DateCell(today)]
  }

  /** The row `append_praise` appends to the "Похвала" worksheet: the
      member, the issuer "BOT", the reason, and a date cell that reads back
      as today's day, month and two-digit year. */
  function PraiseRow(member: string, reason: string, today: Date): (row: Row)
    requires ValidDate(today)
    ensures |row| == 4 && row[0] == member && row[1] == Issuer && row[2] == reason
    ensures ParseDateCell(row[3]) == Some((today.day, today.month, today.year % 100))
  {
    DateCellRoundTrip(today);
    [member, Issuer, reason, DateCell(today)]
  }

  // ---------------------------------------------------------------------
  // Lemmas
  // ---------------------------------------------------------------------

  /** A cell is listed exactly when it holds a non-whitespace character. */
  lemma ListedIffNonSpace(cell: string)
    ensures IsListed(cell) <==> exists i :: 0 <= i < |cell| && !IsSpace(cell[i])
  {
  }

  /** The member list keeps the column's order: filtering a concatenation
      is concatenating the filtered parts. */
  lemma {:induction false} ClanMembersConcat(a: seq<string>, b: seq<string>)
    ensures ClanMembers(a + b) == ClanMembers(a) + ClanMembers(b)
  {
    if a == [] {
      assert a + b == b;
    } else {
      assert (a + b)[1..] == a[1..] + b;
      ClanMembersConcat(a[1..], b);
    }
  }

  /** The header cell of the column, when not blank, is the first entry of
      the member list. */
  lemma ClanMembersKeepsHeader(column: seq<string>)
    requires column != [] && IsListed(column[0])
    ensures ClanMembers(column) != [] && ClanMembers(column)[0] == column[0]
  {
  }

  lemma DigitRoundTrip(n: int)
    requires 0 <= n < 10
    ensures IsDigit(DigitChar(n)) && DigitValue(DigitChar(n)) == n
  {
  }

  lemma Pad2RoundTrip(n: int)
    requires 0 <= n < 100
    ensures IsDigit(Pad2(n)[0]) && IsDigit(Pad2(n)[1])
    ensures TwoDigitValue(Pad2(n)[0], Pad2(n)[1]) == n
  {
    DigitRoundTrip(n / 10);
    DigitRoundTrip(n % 10);
  }

  /** The date cell reads back as the day, the month and the year modulo 100. */
  lemma DateCellRoundTrip(d: Date)
    requires ValidDate(d)
    ensures ParseDateCell(DateCell(d)) == Some((d.day, d.month, d.year % 100))
  {
    var cell := DateCell(d);
    Pad2RoundTrip(d.day);
    Pad2RoundTrip(d.month);
    Pad2RoundTrip(d.year % 100);
    assert cell[0..2] == Pad2(d.day);
    assert cell[2..4] == Pad2(d.month);
    assert cell[4..6] == Pad2(d.year % 100);
  }

  /** Two dates give the same cell exactly when they agree on day, month and
      year within the century: the cell drops the century. */
  lemma DateCellEqualIff(a: Date, b: Date)
    requires ValidDate(a) && ValidDate(b)
    ensures DateCell(a) == DateCell(b) <==> (a.day == b.day && a.month == b.month && a.year % 100 == b.year % 100)
  {
    DateCellRoundTrip(a);
    DateCellRoundTrip(b);
  }
}
