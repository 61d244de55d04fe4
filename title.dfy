/**
 * The meeting title: "Meeting on " followed by today's date as the en-US
 * locale writes it with a long month name, a numeric day and a numeric year.
 */
module Title {

  type Year = y: int | 1 <= y witness 2024
  type Month = m: int | 1 <= m <= 12 witness 1
  type Day = d: int | 1 <= d <= 31 witness 1

  /** A calendar date as the server clock reports it. */
  datatype CalendarDate = CalendarDate(year: Year, month: Month, day: Day)

  const TitlePrefix := "Meeting on "

  /** The en-US long month names. */
  function MonthName(m: Month): (name: string)
    ensures |name| >= 3 && ' ' !in name && ',' !in name
  {
    match m
    case 1 => "January"
    case 2 => "February"
    case 3 => "March"
    case 4 => "April"
    case 5 => "May"
    case 6 => "June"
    case 7 => "July"
    case 8 => "August"
    case 9 => "September"
    case 10 => "October"
    case 11 => "November"
    case _ => "December"
  }

  predicate IsDigit(c: char) { '0' <= c <= '9' }

  function DigitChar(d: nat): (c: char)
    requires d < 10
    ensures IsDigit(c) && c as int - '0' as int == d
  {
    ('0' as int + d) as char
  }

  /** Decimal numeral of `n`, without grouping separators. */
  function NatToString(n: nat): (s: string)
    ensures |s| >= 1
    ensures forall i :: 0 <= i < |s| ==> IsDigit(s[i])
    ensures n >= 1 ==> s[0] != '0'
  {
    if n < 10 then [DigitChar(n)] else NatToString(n / 10) + [DigitChar(n % 10)]
  }

  /** The value a string of decimal digits denotes. */
  function DigitsValue(s: string): nat
    requires forall i :: 0 <= i < |s| ==> IsDigit(s[i])
  {
    if s == [] then 0
    else
      assert IsDigit(s[|s| - 1]);
      10 * DigitsValue(s[..|s| - 1]) + (s[|s| - 1] as int - '0' as int)
  }

  lemma {:induction false} NatToStringRoundTrip(n: nat)
    ensures DigitsValue(NatToString(n)) == n
    ensures n >= 1 ==> NatToString(n)[0] != '0'
  {
    var s := NatToString(n);
    if n >= 10 {
      NatToStringRoundTrip(n / 10);
      assert s[..|s| - 1] == NatToString(n / 10);
    }
  }

  lemma NatToStringInjective(a: nat, b: nat)
    requires NatToString(a) == NatToString(b)
    ensures a == b
  {
    NatToStringRoundTrip(a);
    NatToStringRoundTrip(b);
  }

  function MeetingTitle(d: CalendarDate): (title: string)
    ensures |TitlePrefix| < |title| && title[..|TitlePrefix|] == TitlePrefix
  {
    TitlePrefix + MonthName(d.month) + " " + NatToString(d.day) + ", " + NatToString(d.year)
  }

  /** Two strings that each contain `c` once, right after a `c`-free head, agree on head and tail. */
  lemma SplitAtFirst(a: string, b: string, a': string, b': string, c: char)
    requires c !in a && c !in a'
    requires a + [c] + b == a' + [c] + b'
    ensures a == a' && b == b'
  {
    var w, w' := a + [c] + b, a' + [c] + b';
    assert w[|a|] == c && w'[|a'|] == c;
    assert forall i :: 0 <= i < |a| ==> w[i] == a[i];
    assert forall i :: 0 <= i < |a'| ==> w'[i] == a'[i];
    assert |a| == |a'|;
    assert a == w[..|a|] && a' == w'[..|a'|];
    assert b == w[|a| + 1..] && b' == w'[|a'| + 1..];
  }

  lemma MonthNameInjective(m: Month, m': Month)
    requires MonthName(m) == MonthName(m')
    ensures m == m'
  {
  }

  /** What follows the prefix: the month name, a space, the day, a comma, a space and the year. */
  function TitleTail(d: CalendarDate): string {
    MonthName(d.month) + [' '] + (NatToString(d.day) + [','] + ([' '] + NatToString(d.year)))
  }

  lemma TitleSplits(d: CalendarDate)
    ensures MeetingTitle(d) == TitlePrefix + TitleTail(d)
  {
  }

  /** The title determines the date: no two days of the calendar share a meeting title. */
  lemma TitleInjective(d: CalendarDate, d': CalendarDate)
    requires MeetingTitle(d) == MeetingTitle(d')
    ensures d == d'
  {
    TitleSplits(d);
    TitleSplits(d');
    var t, t' := MeetingTitle(d), MeetingTitle(d');
    assert TitleTail(d) == t[|TitlePrefix|..] == t'[|TitlePrefix|..] == TitleTail(d');
    var day, year := NatToString(d.day), NatToString(d.year);
    var day', year' := NatToString(d'.day), NatToString(d'.year);
    SplitAtFirst(MonthName(d.month), day + [','] + ([' '] + year), MonthName(d'.month), day' + [','] + ([' '] + year'), ' ');
    assert ',' !in day && ',' !in day';
    SplitAtFirst(day, [' '] + year, day', [' '] + year', ',');
    assert year == ([' '] + year)[1..] && year' == ([' '] + year')[1..];
    MonthNameInjective(d.month, d'.month);
    NatToStringInjective(d.day, d'.day);
    NatToStringInjective(d.year, d'.year);
  }

  /** A meeting processed on 5 March 2024 is titled "Meeting on March 5, 2024". */
  lemma TitleOnFifthOfMarch()
    ensures MeetingTitle(CalendarDate(2024, 3, 5)) == "Meeting on March 5, 2024"
  {
  }
}
