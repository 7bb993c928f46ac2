/**
  The texts of dates: white space around them is cut off before they are read, and the two plain
  forms, a day and a UTC time on a day, are ordered as text nearly as they are in time.
  */
module DateTexts {
  import opened Prelude
  import Lex

  // ------------------------------------------------------------------ white space

  /** The characters with the Unicode property White_Space. */
  predicate IsSpace(c: char)
  {
    || '\t' <= c <= '\r' || c == ' ' || c == '\U{85}' || c == '\U{A0}' || c == '\U{1680}'
    || '\U{2000}' <= c <= '\U{200A}' || c == '\U{2028}' || c == '\U{2029}' || c == '\U{202F}'
    || c == '\U{205F}' || c == '\U{3000}'
  }

  function TrimStart(s: string): string
  {
    if s != [] && IsSpace(s[0]) then TrimStart(s[1..]) else s
  }

  function TrimEnd(s: string): string
  {
    if s != [] && IsSpace(s[|s| - 1]) then TrimEnd(s[..|s| - 1]) else s
  }

  function Trim(s: string): string
  {
    TrimEnd(TrimStart(s))
  }

  /** How the code reads dates: `read` knows the formats, and gets the text without its margins. */
  function Reader(read: string -> Option<int>): string -> Option<int>
  {
    s => read(Trim(s))
  }

  /** No date starts with a blank or a control character. */
  ghost predicate StartsVisibly(read: string -> Option<int>)
  {
    forall s: string :: read(Trim(s)).Some? ==> Trim(s) != [] && Trim(s)[0] > ' '
  }

  /** Before and after `b` there are other texts of the same instant. */
  ghost predicate HasTwins(instant: string -> Option<int>, b: string)
  {
    && (exists a :: Lex.Less(a, b) && instant(a) == instant(b))
    && (exists c :: Lex.Less(b, c) && instant(c) == instant(b))
  }

  lemma {:induction false} TrimStartSpaceAfter(s: string)
    ensures TrimStart(s) == [] ==> TrimStart(s + "\t") == []
    ensures TrimStart(s) != [] ==> TrimStart(s + "\t") == TrimStart(s) + "\t"
  {
    if s == [] {
      assert s + "\t" == "\t" && TrimStart("\t") == TrimStart("\t"[1..]);
    } else if IsSpace(s[0]) {
      assert (s + "\t")[1..] == s[1..] + "\t";
      TrimStartSpaceAfter(s[1..]);
    }
  }

  lemma TrimSpaceAfter(s: string)
    ensures Trim(s + "\t") == Trim(s)
  {
    TrimStartSpaceAfter(s);
    var t := TrimStart(s);
    assert (t + "\t")[..|t|] == t;
  }

  lemma TrimSpaceBefore(s: string)
    ensures Trim("\t" + s) == Trim(s)
  {
    assert ("\t" + s)[1..] == s;
  }

  lemma {:induction false} LongerIsLater(s: string, c: char)
    ensures Lex.Less(s, s + [c])
  {
    if s != [] {
      LongerIsLater(s[1..], c);
      assert (s + [c])[1..] == s[1..] + [c];
    }
  }

  lemma {:induction false} TrimEndStarts(s: string)
    ensures TrimEnd(s) != [] ==> s != [] && TrimEnd(s)[0] == s[0]
  {
    if s != [] && IsSpace(s[|s| - 1]) {
      TrimEndStarts(s[..|s| - 1]);
    }
  }

  /** A tab is the least of the white space. */
  lemma {:induction false} TabIsEarlier(s: string)
    requires TrimStart(s) != [] && TrimStart(s)[0] > ' '
    ensures Lex.Less("\t" + s, s)
  {
    assert ("\t" + s)[1..] == s;
    if s[0] == '\t' {
      TabIsEarlier(s[1..]);
      assert "\t" + s[1..] == s;
    }
  }

  /** Because of the margins, every date the code reads has twins. */
  lemma ReaderHasTwins(read: string -> Option<int>, b: string)
    requires StartsVisibly(read) && Reader(read)(b).Some?
    ensures HasTwins(Reader(read), b)
  {
    TrimEndStarts(TrimStart(b));
    TabIsEarlier(b);
    TrimSpaceBefore(b);
    LongerIsLater(b, '\t');
    TrimSpaceAfter(b);
    assert Lex.Less("\t" + b, b) && Reader(read)("\t" + b) == Reader(read)(b);
    assert Lex.Less(b, b + "\t") && Reader(read)(b + "\t") == Reader(read)(b);
  }

  // ------------------------------------------------------------------ numerals

  function Power(w: nat): nat
  {
    if w == 0 then 1 else 10 * Power(w - 1)
  }

  /** The decimal numeral of `n` with `w` digits. */
  function Digits(n: nat, w: nat): (r: string)
    ensures |r| == w
  {
    if w == 0 then [] else Digits(n / 10, w - 1) + [('0' as int + n % 10) as char]
  }

  lemma {:induction false} LessConcat(a: string, x: string, b: string, y: string)
    requires |a| == |b|
    ensures Lex.Less(a + x, b + y) <==> Lex.Less(a, b) || (a == b && Lex.Less(x, y))
  {
    if a == [] {
      assert a + x == x && b + y == y;
    } else {
      assert (a + x)[1..] == a[1..] + x && (b + y)[1..] == b[1..] + y;
      LessConcat(a[1..], x, b[1..], y);
      assert a == [a[0]] + a[1..] && b == [b[0]] + b[1..];
    }
  }

  /** Numerals of one length are ordered as numbers. */
  lemma {:induction false} DigitsOrdered(n: nat, m: nat, w: nat)
    requires n < Power(w) && m < Power(w)
    ensures Lex.Less(Digits(n, w), Digits(m, w)) <==> n < m
    ensures Digits(n, w) == Digits(m, w) <==> n == m
  {
    if w > 0 {
      DigitsOrdered(n / 10, m / 10, w - 1);
      var x, y := [('0' as int + n % 10) as char], [('0' as int + m % 10) as char];
      var p, q := Digits(n / 10, w - 1), Digits(m / 10, w - 1);
      LessConcat(p, x, q, y);
      assert Lex.Less(x, y) <==> n % 10 < m % 10;
      assert p + x == q + y <==> p == q && x == y by {
        assert (p + x)[..w - 1] == p && (q + y)[..w - 1] == q && (p + x)[w - 1] == x[0] && (q + y)[w - 1] == y[0];
      }
    }
  }

  /** A numeral followed by more text. */
  lemma FieldOrdered(n: nat, x: string, m: nat, y: string, w: nat)
    requires n < Power(w) && m < Power(w)
    ensures Lex.Less(Digits(n, w) + x, Digits(m, w) + y) <==> n < m || (n == m && Lex.Less(x, y))
  {
    DigitsOrdered(n, m, w);
    LessConcat(Digits(n, w), x, Digits(m, w), y);
  }

  // ------------------------------------------------------------------ the calendar

  /** A day in the form YYYY-MM-DD, or a UTC time in the form YYYY-MM-DDThh:mm:ssZ. */
  datatype Moment =
    | Day(year: nat, month: nat, day: nat)
    | Time(year: nat, month: nat, day: nat, hour: nat, minute: nat, second: nat)

  predicate Leap(year: nat)
  {
    year % 4 == 0 && (year % 100 != 0 || year % 400 == 0)
  }

  function MonthDays(year: nat, month: nat): nat
  {
    if month == 2 then (if Leap(year) then 29 else 28)
    else if month == 4 || month == 6 || month == 9 || month == 11 then 30 else 31
  }

  function YearDays(year: nat): nat
  {
    if Leap(year) then 366 else 365
  }

  predicate Valid(m: Moment)
  {
    && m.year < 10000 && 1 <= m.month <= 12 && 1 <= m.day <= MonthDays(m.year, m.month)
    && (m.Time? ==> m.hour < 24 && m.minute < 60 && m.second < 60)
  }

  function DaysBeforeYear(year: nat): nat
  {
    if year == 0 then 0 else DaysBeforeYear(year - 1) + YearDays(year - 1)
  }

  function DaysBeforeMonth(year: nat, month: nat): nat
  {
    if month <= 1 then 0 else DaysBeforeMonth(year, month - 1) + MonthDays(year, month - 1)
  }

  /** Days since the epoch. */
  function DayNumber(m: Moment): int
    requires m.day >= 1
  {
    DaysBeforeYear(m.year) + DaysBeforeMonth(m.year, m.month) + m.day - 1 - DaysBeforeYear(1970)
  }

  function SecondOfDay(m: Moment): nat
  {
    if m.Day? then 0 else m.hour * 3600 + m.minute * 60 + m.second
  }

  /** Seconds since the epoch; a day stands for its midnight. */
  function Seconds(m: Moment): int
    requires m.day >= 1
  {
    DayNumber(m) * 86400 + SecondOfDay(m)
  }

  lemma YearIsTwelveMonths(year: nat)
    ensures DaysBeforeMonth(year, 13) == YearDays(year)
  {
    assert DaysBeforeMonth(year, 4) == DaysBeforeMonth(year, 3) + 31 == DaysBeforeMonth(year, 2) + MonthDays(year, 2) + 31;
    assert DaysBeforeMonth(year, 7) == DaysBeforeMonth(year, 6) + 30 == DaysBeforeMonth(year, 5) + 61 == DaysBeforeMonth(year, 4) + 91;
    assert DaysBeforeMonth(year, 10) == DaysBeforeMonth(year, 9) + 30 == DaysBeforeMonth(year, 8) + 61;
    assert DaysBeforeMonth(year, 13) == DaysBeforeMonth(year, 12) + 31 == DaysBeforeMonth(year, 11) + 61;
  }

  lemma {:induction false} MonthsRise(year: nat, a: nat, b: nat)
    requires 1 <= a < b
    ensures DaysBeforeMonth(year, a) + MonthDays(year, a) <= DaysBeforeMonth(year, b)
    decreases b
  {
    if a < b - 1 {
      MonthsRise(year, a, b - 1);
    }
  }

  lemma {:induction false} YearsRise(a: nat, b: nat)
    requires a < b
    ensures DaysBeforeYear(a) + YearDays(a) <= DaysBeforeYear(b)
    decreases b
  {
    if a < b - 1 {
      YearsRise(a, b - 1);
    }
  }

  predicate EarlierDay(a: Moment, b: Moment)
  {
    || a.year < b.year
    || (a.year == b.year && (a.month < b.month || (a.month == b.month && a.day < b.day)))
  }

  predicate SameDay(a: Moment, b: Moment)
  {
    a.year == b.year && a.month == b.month && a.day == b.day
  }

  lemma EarlierDayIsLess(a: Moment, b: Moment)
    requires Valid(a) && Valid(b) && EarlierDay(a, b)
    ensures DayNumber(a) < DayNumber(b)
  {
    if a.year < b.year {
      YearIsTwelveMonths(a.year);
      MonthsRise(a.year, a.month, 13);
      YearsRise(a.year, b.year);
    } else if a.month < b.month {
      MonthsRise(a.year, a.month, b.month);
    }
  }

  lemma SecondsOrdered(a: Moment, b: Moment)
    requires Valid(a) && Valid(b)
    ensures Seconds(a) < Seconds(b) <==> EarlierDay(a, b) || (SameDay(a, b) && SecondOfDay(a) < SecondOfDay(b))
  {
    if EarlierDay(a, b) {
      EarlierDayIsLess(a, b);
    } else if EarlierDay(b, a) {
      EarlierDayIsLess(b, a);
    }
  }

  // ------------------------------------------------------------------ the two forms

  function DayText(m: Moment, tail: string): string
  {
    Digits(m.year, 4) + ("-" + (Digits(m.month, 2) + ("-" + (Digits(m.day, 2) + tail))))
  }

  function TimeText(m: Moment): string
  {
    if m.Day? then ""
    else "T" + (Digits(m.hour, 2) + (":" + (Digits(m.minute, 2) + (":" + (Digits(m.second, 2) + "Z")))))
  }

  function Text(m: Moment): string
  {
    DayText(m, TimeText(m))
  }

  lemma DayTextOrdered(a: Moment, x: string, b: Moment, y: string)
    requires Valid(a) && Valid(b)
    ensures Lex.Less(DayText(a, x), DayText(b, y)) <==> EarlierDay(a, b) || (SameDay(a, b) && Lex.Less(x, y))
  {
    var p, q := Digits(a.day, 2) + x, Digits(b.day, 2) + y;
    var r, t := Digits(a.month, 2) + ("-" + p), Digits(b.month, 2) + ("-" + q);
    FieldOrdered(a.year, "-" + r, b.year, "-" + t, 4);
    Lex.UnderPrefix("-", r, t);
    FieldOrdered(a.month, "-" + p, b.month, "-" + q, 2);
    Lex.UnderPrefix("-", p, q);
    FieldOrdered(a.day, x, b.day, y, 2);
  }

  lemma TimeTextOrdered(a: Moment, b: Moment)
    requires Valid(a) && Valid(b) && a.Time? && b.Time?
    ensures Lex.Less(TimeText(a), TimeText(b)) <==> SecondOfDay(a) < SecondOfDay(b)
  {
    var p, q := Digits(a.second, 2) + "Z", Digits(b.second, 2) + "Z";
    var r, t := Digits(a.minute, 2) + (":" + p), Digits(b.minute, 2) + (":" + q);
    Lex.UnderPrefix("T", Digits(a.hour, 2) + (":" + r), Digits(b.hour, 2) + (":" + t));
    FieldOrdered(a.hour, ":" + r, b.hour, ":" + t, 2);
    Lex.UnderPrefix(":", r, t);
    FieldOrdered(a.minute, ":" + p, b.minute, ":" + q, 2);
    Lex.UnderPrefix(":", p, q);
    FieldOrdered(a.second, "Z", b.second, "Z", 2);
    Lex.Irreflexive("Z");
  }

  /** As text, a day comes before every time on it, its midnight included; otherwise text order is time order. */
  lemma TextsOrdered(a: Moment, b: Moment)
    requires Valid(a) && Valid(b)
    ensures Lex.Less(Text(a), Text(b)) <==>
            Seconds(a) < Seconds(b) || (a.Day? && b.Time? && Seconds(a) == Seconds(b))
  {
    DayTextOrdered(a, TimeText(a), b, TimeText(b));
    SecondsOrdered(a, b);
    SecondsOrdered(b, a);
    if a.Time? && b.Time? {
      TimeTextOrdered(a, b);
    }
  }
}
