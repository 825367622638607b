/** Rolling windows as the queries write them: SQLite text compared with formatted bounds. */
module TextWindow {
  import opened Basics
  import opened TextOrder
  import opened Calendar

  function Digit(n: int): char
    requires 0 <= n <= 9
  {
    ('0' as int + n) as char
  }

  function Pow10(w: nat): int {
    if w == 0 then 1 else 10 * Pow10(w - 1)
  }

  /** Decimal digits of n, zero-padded to width w. */
  function Pad(n: int, w: nat): (r: string)
    requires 0 <= n < Pow10(w)
    ensures |r| == w
    decreases w
  {
    if w == 0 then "" else Pad(n / 10, w - 1) + [Digit(n % 10)]
  }

  function DateText(c: Civil): string
    requires Calendar.Valid(c)
  {
    Pad4(c.year) + ("-" + (Pad2(c.month) + ("-" + Pad2(c.day))))
  }

  function ClockText(c: Civil): string
    requires Calendar.Valid(c)
  {
    Pad2(c.hour) + (":" + (Pad2(c.minute) + (":" + Pad2(c.second))))
  }

  function Pad2(n: int): (r: string)
    requires 0 <= n < 100
    ensures |r| == 2
  {
    assert Pow10(2) == 10 * Pow10(1);
    Pad(n, 2)
  }

  function Pad4(n: int): (r: string)
    requires 0 <= n < 10000
    ensures |r| == 4
  {
    assert Pow10(4) == 10 * Pow10(3) && Pow10(3) == 10 * Pow10(2) && Pow10(2) == 10 * Pow10(1);
    Pad(n, 4)
  }

  function Pad6(n: int): (r: string)
    requires 0 <= n < SECOND
    ensures |r| == 6
  {
    assert Pow10(6) == 10 * Pow10(5) && Pow10(5) == 10 * Pow10(4);
    assert Pow10(4) == 10 * Pow10(3) && Pow10(3) == 10 * Pow10(2) && Pow10(2) == 10 * Pow10(1);
    Pad(n, 6)
  }

  /** What `func.datetime(column)` gives: no fraction. */
  function SecondText(c: Civil): string
    requires Calendar.Valid(c)
  {
    DateText(c) + (" " + ClockText(c))
  }

  /** What `sqlite_datetime(bound)` gives: always six fraction digits. */
  function MicroText(c: Civil): string
    requires Calendar.Valid(c)
  {
    SecondText(c) + ("." + Pad6(c.micro))
  }

  // ---------------------------------------------------------------- text order is field order

  lemma {:induction false} ConcatOrder(a: string, x: string, b: string, y: string)
    requires |a| == |b|
    ensures TextLt(a + x, b + y) <==> TextLt(a, b) || (a == b && TextLt(x, y))
  {
    if a == "" {
      assert a + x == x && b + y == y;
    } else {
      ConcatOrder(a[1..], x, b[1..], y);
      assert (a + x)[0] == a[0] && (a + x)[1..] == a[1..] + x;
      assert (b + y)[0] == b[0] && (b + y)[1..] == b[1..] + y;
      assert a == [a[0]] + a[1..] && b == [b[0]] + b[1..];
    }
  }

  lemma SeparatorOrder(s: string, x: string, y: string)
    requires |s| == 1
    ensures TextLt(s + x, s + y) <==> TextLt(x, y)
    ensures s + x == s + y <==> x == y
  {
    ConcatOrder(s, x, s, y);
    TextTotal(s, s);
    assert (s + x)[1..] == x && (s + y)[1..] == y;
  }

  lemma {:induction false} PadOrder(m: int, n: int, w: nat)
    requires 0 <= m < Pow10(w) && 0 <= n < Pow10(w)
    ensures TextLt(Pad(m, w), Pad(n, w)) <==> m < n
    ensures Pad(m, w) == Pad(n, w) <==> m == n
    decreases w
  {
    if w > 0 {
      PadOrder(m / 10, n / 10, w - 1);
      var a, b := Pad(m / 10, w - 1), Pad(n / 10, w - 1);
      var x, y := [Digit(m % 10)], [Digit(n % 10)];
      ConcatOrder(a, x, b, y);
      assert TextLt(x, y) <==> m % 10 < n % 10;
      assert a + x == b + y <==> a == b && x == y by {
        assert (a + x)[..w - 1] == a && (b + y)[..w - 1] == b;
        assert (a + x)[w - 1] == x[0] && (b + y)[w - 1] == y[0];
      }
    }
  }

  /** A fixed-width field followed by a separator and more text. */
  lemma FieldOrder(m: int, n: int, w: nat, s: string, x: string, y: string)
    requires 0 <= m < Pow10(w) && 0 <= n < Pow10(w) && |s| == 1
    ensures TextLt(Pad(m, w) + (s + x), Pad(n, w) + (s + y)) <==> m < n || (m == n && TextLt(x, y))
    ensures Pad(m, w) + (s + x) == Pad(n, w) + (s + y) <==> m == n && x == y
  {
    PadOrder(m, n, w);
    SeparatorOrder(s, x, y);
    ConcatOrder(Pad(m, w), s + x, Pad(n, w), s + y);
    assert (Pad(m, w) + (s + x))[..w] == Pad(m, w) && (Pad(n, w) + (s + y))[..w] == Pad(n, w);
    assert (Pad(m, w) + (s + x))[w..] == s + x && (Pad(n, w) + (s + y))[w..] == s + y;
  }

  lemma Widths()
    ensures Pow10(2) == 100 && Pow10(4) == 10000 && Pow10(6) == SECOND
  {
    assert Pow10(6) == 10 * Pow10(5) && Pow10(5) == 10 * Pow10(4);
    assert Pow10(4) == 10 * Pow10(3) && Pow10(3) == 10 * Pow10(2) && Pow10(2) == 10 * Pow10(1);
  }

  lemma DateTextOrder(a: Civil, b: Civil)
    requires Calendar.Valid(a) && Calendar.Valid(b)
    ensures |DateText(a)| == |DateText(b)|
    ensures TextLt(DateText(a), DateText(b)) <==> DateLt(a, b)
    ensures DateText(a) == DateText(b) <==> SameDate(a, b)
  {
    Widths();
    PadOrder(a.day, b.day, 2);
    FieldOrder(a.month, b.month, 2, "-", Pad2(a.day), Pad2(b.day));
    FieldOrder(a.year, b.year, 4, "-", Pad2(a.month) + ("-" + Pad2(a.day)), Pad2(b.month) + ("-" + Pad2(b.day)));
  }

  lemma ClockTextOrder(a: Civil, b: Civil)
    requires Calendar.Valid(a) && Calendar.Valid(b)
    ensures |ClockText(a)| == |ClockText(b)|
    ensures TextLt(ClockText(a), ClockText(b)) <==> ClockLt(a, b)
    ensures ClockText(a) == ClockText(b) <==> (a.hour, a.minute, a.second) == (b.hour, b.minute, b.second)
  {
    Widths();
    PadOrder(a.second, b.second, 2);
    FieldOrder(a.minute, b.minute, 2, ":", Pad2(a.second), Pad2(b.second));
    FieldOrder(
      a.hour, b.hour, 2, ":", Pad2(a.minute) + (":" + Pad2(a.second)), Pad2(b.minute) + (":" + Pad2(b.second)));
  }

  lemma SecondTextFields(a: Civil, b: Civil)
    requires Calendar.Valid(a) && Calendar.Valid(b)
    ensures |SecondText(a)| == |SecondText(b)|
    ensures TextLt(SecondText(a), SecondText(b)) <==> SecondLt(a, b)
  {
    DateTextOrder(a, b);
    ClockTextOrder(a, b);
    ConcatOrder(DateText(a), " " + ClockText(a), DateText(b), " " + ClockText(b));
    SeparatorOrder(" ", ClockText(a), ClockText(b));
  }

  /** Text order of second-resolution times is elapsed-time order. */
  lemma SecondTextOrder(a: Civil, b: Civil)
    requires Calendar.Valid(a) && Calendar.Valid(b)
    ensures |SecondText(a)| == |SecondText(b)|
    ensures TextLt(SecondText(a), SecondText(b)) <==> WholeSeconds(a) < WholeSeconds(b)
    ensures SecondText(a) == SecondText(b) <==> WholeSeconds(a) == WholeSeconds(b)
  {
    SecondTextFields(a, b);
    SecondTextFields(b, a);
    SecondOrder(a, b);
    SecondOrder(b, a);
    TextTotal(SecondText(a), SecondText(b));
  }

  /** A bare second text sorts below every fraction of the same second. */
  lemma MixedTextOrder(a: Civil, b: Civil)
    requires Calendar.Valid(a) && Calendar.Valid(b)
    ensures TextLt(SecondText(a), MicroText(b)) <==> WholeSeconds(a) <= WholeSeconds(b)
    ensures TextLt(MicroText(b), SecondText(a)) <==> WholeSeconds(b) < WholeSeconds(a)
  {
    SecondTextOrder(a, b);
    SecondTextOrder(b, a);
    var f := "." + Pad6(b.micro);
    assert SecondText(a) + "" == SecondText(a);
    ConcatOrder(SecondText(a), "", SecondText(b), f);
    ConcatOrder(SecondText(b), f, SecondText(a), "");
  }

  // ---------------------------------------------------------------- reading a text back

  /** The number a text of decimal digits stands for. */
  ghost function Value(s: string): int {
    if s == "" then 0 else 10 * Value(s[..|s| - 1]) + (s[|s| - 1] as int - '0' as int)
  }

  ghost predicate Digits(s: string) {
    forall i :: 0 <= i < |s| ==> '0' <= s[i] <= '9'
  }

  lemma {:induction false} PadReadsBack(n: int, w: nat)
    requires 0 <= n < Pow10(w)
    ensures Digits(Pad(n, w)) && Value(Pad(n, w)) == n
    decreases w
  {
    if w > 0 {
      PadReadsBack(n / 10, w - 1);
      assert Pad(n, w)[..w - 1] == Pad(n / 10, w - 1);
    }
  }

  /** The decimal number between two places of a text. */
  ghost predicate Reads(s: string, from: nat, to: nat, n: int)
    requires from <= to <= |s|
  {
    Digits(s[from..to]) && Value(s[from..to]) == n
  }

  lemma ReadsInFront(a: string, b: string, from: nat, to: nat, n: int)
    requires from <= to <= |a| && Reads(a, from, to, n)
    ensures Reads(a + b, from, to, n)
  {
    assert (a + b)[from..to] == a[from..to];
  }

  lemma ReadsBehind(a: string, b: string, from: nat, to: nat, n: int)
    requires from <= to <= |b| && Reads(b, from, to, n)
    ensures Reads(a + b, |a| + from, |a| + to, n)
  {
    assert (a + b)[|a| + from..|a| + to] == b[from..to];
  }

  ghost predicate DateReads(s: string, c: Civil) {
    && |s| == 10 && s[4] == '-' && s[7] == '-'
    && Reads(s, 0, 4, c.year) && Reads(s, 5, 7, c.month) && Reads(s, 8, 10, c.day)
  }

  lemma DateReadsBack(c: Civil)
    requires Calendar.Valid(c)
    ensures DateReads(DateText(c), c)
  {
    Widths();
    var s := DateText(c);
    assert s[0..4] == Pad(c.year, 4) && s[5..7] == Pad(c.month, 2) && s[8..10] == Pad(c.day, 2);
    PadReadsBack(c.year, 4);
    PadReadsBack(c.month, 2);
    PadReadsBack(c.day, 2);
  }

  ghost predicate ClockReads(s: string, c: Civil) {
    && |s| == 8 && s[2] == ':' && s[5] == ':'
    && Reads(s, 0, 2, c.hour) && Reads(s, 3, 5, c.minute) && Reads(s, 6, 8, c.second)
  }

  lemma ClockReadsBack(c: Civil)
    requires Calendar.Valid(c)
    ensures ClockReads(ClockText(c), c)
  {
    Widths();
    var s := ClockText(c);
    assert s[0..2] == Pad(c.hour, 2) && s[3..5] == Pad(c.minute, 2) && s[6..8] == Pad(c.second, 2);
    PadReadsBack(c.hour, 2);
    PadReadsBack(c.minute, 2);
    PadReadsBack(c.second, 2);
  }

  ghost predicate SecondReads(s: string, c: Civil) {
    && |s| == 19 && s[4] == '-' && s[7] == '-' && s[10] == ' ' && s[13] == ':' && s[16] == ':'
    && Reads(s, 0, 4, c.year) && Reads(s, 5, 7, c.month) && Reads(s, 8, 10, c.day)
    && Reads(s, 11, 13, c.hour) && Reads(s, 14, 16, c.minute) && Reads(s, 17, 19, c.second)
  }

  lemma JoinedReads(date: string, clock: string, c: Civil)
    requires DateReads(date, c) && ClockReads(clock, c)
    ensures SecondReads(date + (" " + clock), c)
  {
    ReadsInFront(date, " " + clock, 0, 4, c.year);
    ReadsInFront(date, " " + clock, 5, 7, c.month);
    ReadsInFront(date, " " + clock, 8, 10, c.day);
    assert date + (" " + clock) == (date + " ") + clock;
    ReadsBehind(date + " ", clock, 0, 2, c.hour);
    ReadsBehind(date + " ", clock, 3, 5, c.minute);
    ReadsBehind(date + " ", clock, 6, 8, c.second);
  }

  lemma FractionReads(second: string, digits: string, n: int)
    requires |second| == 19 && |digits| == 6 && Digits(digits) && Value(digits) == n
    ensures
      var s := second + ("." + digits);
      |s| == 26 && s[..19] == second && s[19] == '.' && Reads(s, 20, 26, n)
  {
    assert (second + ("." + digits))[20..26] == digits;
  }

  /** Both texts read back as the fields they were made of: "2025-01-31 09:05:00", and six digits more after a
      point in the bound. */
  lemma TextReadsBack(c: Civil)
    requires Calendar.Valid(c)
    ensures SecondReads(SecondText(c), c)
    ensures
      var bound := MicroText(c);
      |bound| == 26 && bound[..19] == SecondText(c) && bound[19] == '.' && Reads(bound, 20, 26, c.micro)
  {
    DateReadsBack(c);
    ClockReadsBack(c);
    JoinedReads(DateText(c), ClockText(c), c);
    Widths();
    PadReadsBack(c.micro, 6);
    FractionReads(SecondText(c), Pad6(c.micro), c.micro);
  }

  // ---------------------------------------------------------------- the window

  /** `func.datetime(col) >= sqlite_datetime(cutoff) AND func.datetime(col) <= sqlite_datetime(now)`. */
  predicate TextSelects(t: Civil, cutoff: Civil, now: Civil)
    requires Calendar.Valid(t) && Calendar.Valid(cutoff) && Calendar.Valid(now)
  {
    TextLe(MicroText(cutoff), SecondText(t)) && TextLe(SecondText(t), MicroText(now))
  }

  /** The same window on elapsed microseconds: whole seconds in (now - days, now]. */
  predicate InWindow(t: int, now: int, days: int) {
    Seconds(now) - days * DAY < Seconds(t) <= Seconds(now)
  }

  /** The text comparison selects exactly the whole seconds after the cutoff's and up to now's. */
  lemma TextWindowExact(t: Civil, cutoff: Civil, now: Civil, days: int)
    requires Calendar.Valid(t) && Calendar.Valid(cutoff) && Calendar.Valid(now)
    requires Micros(cutoff) == Micros(now) - days * DAY * SECOND
    ensures TextSelects(t, cutoff, now) <==> InWindow(Micros(t), Micros(now), days)
  {
    MixedTextOrder(t, cutoff);
    MixedTextOrder(t, now);
    SecondsOfMicros(t);
    SecondsOfMicros(now);
    SecondsOfMicros(cutoff);
  }
}
