/** Stored timestamps are text, and SQLite compares them as text. */
module Timestamps {
  import opened Calendar

  /** SQLite's `<` on ASCII text: byte by byte, a proper prefix first. */
  predicate TextLess(a: string, b: string) {
    if b == "" then false
    else if a == "" then true
    else if a[0] != b[0] then a[0] < b[0]
    else TextLess(a[1..], b[1..])
  }

  function Pow10(w: nat): (p: int)
    ensures p >= 1
  {
    if w == 0 then 1 else 10 * Pow10(w - 1)
  }

  function Digit(n: int): char
    requires 0 <= n < 10
  {
    (n as char + '0')
  }

  /** Zero-padded decimal of fixed width. */
  function Digits(n: int, w: nat): (s: string)
    requires 0 <= n
    ensures |s| == w
  {
    if w == 0 then "" else Digits(n / 10, w - 1) + [Digit(n % 10)]
  }

  function Fraction(micro: int): string
    requires 0 <= micro
  {
    if micro == 0 then "" else "." + Digits(micro, 6)
  }

  /** datetime.isoformat with the offset already rendered; the fraction is left out when it is zero. */
  function IsoAt(t: DateTime, offset: string): string
    requires IsDateTime(t)
  {
    Digits(t.year, 4) + ("-" + (Digits(t.month, 2) + ("-" + (Digits(t.day, 2) + ("T" + (Digits(t.hour, 2)
    + (":" + (Digits(t.minute, 2) + (":" + (Digits(t.second, 2) + (Fraction(t.micro) + offset)))))))))))
  }

  /** _timestamp of a UTC datetime. */
  function Iso(t: DateTime): string
    requires IsDateTime(t)
  {
    IsoAt(t, "+00:00")
  }

  /** Reading a decimal back. */
  function Number(s: string): int {
    if s == "" then 0 else Number(s[..|s| - 1]) * 10 + (s[|s| - 1] as int - '0' as int)
  }

  lemma {:induction false} NumberOfDigits(n: int, w: nat)
    requires 0 <= n < Pow10(w)
    ensures Number(Digits(n, w)) == n
  {
    if w > 0 {
      NumberOfDigits(n / 10, w - 1);
      assert Digits(n, w)[..w - 1] == Digits(n / 10, w - 1);
    }
  }

  /** A padded number, a separator and the rest come apart again. */
  lemma FieldReadsBack(n: int, w: nat, c: char, rest: string)
    requires 0 <= n < Pow10(w)
    ensures var s := Digits(n, w) + ([c] + rest);
            |s| == w + 1 + |rest| && Number(s[..w]) == n && s[w] == c && s[w + 1..] == rest
  {
    NumberOfDigits(n, w);
    assert (Digits(n, w) + ([c] + rest))[..w] == Digits(n, w);
  }

  lemma DateReadsBack(t: DateTime, rest: string)
    requires IsDateTime(t)
    ensures var s := Digits(t.year, 4) + ("-" + (Digits(t.month, 2) + ("-" + (Digits(t.day, 2) + ("T" + rest)))));
            && |s| == 11 + |rest| && s[11..] == rest
            && Number(s[..4]) == t.year && s[4] == '-' && Number(s[5..7]) == t.month && s[7] == '-' && Number(s[8..10]) == t.day
            && s[10] == 'T'
  {
    Widths();
    var day := Digits(t.day, 2) + ("T" + rest);
    var month := Digits(t.month, 2) + ("-" + day);
    var s := Digits(t.year, 4) + ("-" + month);
    FieldReadsBack(t.day, 2, 'T', rest);
    FieldReadsBack(t.month, 2, '-', day);
    FieldReadsBack(t.year, 4, '-', month);
    hide Digits, Number;
    assert s[5..7] == month[..2] && s[7] == month[2] && s[8..10] == day[..2] && s[10] == day[2];
    assert s[11..] == day[3..];
  }

  lemma ClockReadsBack(t: DateTime, rest: string)
    requires IsDateTime(t)
    ensures var s := Digits(t.hour, 2) + (":" + (Digits(t.minute, 2) + (":" + (Digits(t.second, 2) + rest))));
            && |s| == 8 + |rest| && s[8..] == rest
            && Number(s[..2]) == t.hour && s[2] == ':' && Number(s[3..5]) == t.minute && s[5] == ':' && Number(s[6..8]) == t.second
  {
    Widths();
    var second := Digits(t.second, 2) + rest;
    var minute := Digits(t.minute, 2) + (":" + second);
    var s := Digits(t.hour, 2) + (":" + minute);
    NumberOfDigits(t.second, 2);
    FieldReadsBack(t.minute, 2, ':', second);
    FieldReadsBack(t.hour, 2, ':', minute);
    hide Digits, Number;
    assert second[..2] == Digits(t.second, 2);
    assert s[3..5] == minute[..2] && s[5] == minute[2] && s[6..8] == second[..2];
    assert s[8..] == second[2..];
  }

  lemma FractionReadsBack(micro: int, rest: string)
    requires 0 <= micro < 1_000_000
    ensures var s := Fraction(micro) + rest;
            if micro == 0 then s == rest
            else |s| == 7 + |rest| && s[0] == '.' && Number(s[1..7]) == micro && s[7..] == rest
  {
    Widths();
    NumberOfDigits(micro, 6);
    hide Digits, Number;
    if micro != 0 {
      assert (Fraction(micro) + rest)[1..7] == Digits(micro, 6);
    }
  }

  /**
    A stored timestamp reads back: YYYY-MM-DDTHH:MM:SS, then a point and six digits unless the
    microseconds are zero, then +00:00.
   */
  lemma IsoReadsBack(t: DateTime)
    requires IsDateTime(t)
    ensures var s := Iso(t);
            && |s| == (if t.micro == 0 then 25 else 32)
            && Number(s[..4]) == t.year && s[4] == '-' && Number(s[5..7]) == t.month && s[7] == '-' && Number(s[8..10]) == t.day
            && s[10] == 'T' && Number(s[11..13]) == t.hour && s[13] == ':' && Number(s[14..16]) == t.minute
            && s[16] == ':' && Number(s[17..19]) == t.second
            && s[|s| - 6..] == "+00:00" && (t.micro != 0 ==> s[19] == '.' && Number(s[20..26]) == t.micro)
  {
    var s := Iso(t);
    var tail := Fraction(t.micro) + "+00:00";
    FractionReadsBack(t.micro, "+00:00");
    ClockReadsBack(t, tail);
    hide Digits, Number, Fraction;
    var clock := Digits(t.hour, 2) + (":" + (Digits(t.minute, 2) + (":" + (Digits(t.second, 2) + tail))));
    assert s == Digits(t.year, 4) + ("-" + (Digits(t.month, 2) + ("-" + (Digits(t.day, 2) + ("T" + clock)))));
    DateReadsBack(t, clock);
    assert s[11..13] == clock[..2] && s[14..16] == clock[3..5] && s[17..19] == clock[6..8];
    assert s[19..] == tail;
    assert t.micro != 0 ==> s[20..26] == tail[1..7];
  }

  lemma {:induction false} TextLessPrefix(a: string, b: string, x: string, y: string)
    requires |a| == |b|
    ensures TextLess(a + x, b + y) <==> TextLess(a, b) || (a == b && TextLess(x, y))
  {
    if a == "" {
      assert a + x == x && b + y == y;
    } else {
      assert (a + x)[1..] == a[1..] + x && (b + y)[1..] == b[1..] + y;
      TextLessPrefix(a[1..], b[1..], x, y);
      assert a == [a[0]] + a[1..] && b == [b[0]] + b[1..];
    }
  }

  /** Text order on padded numbers is numeric order. */
  lemma {:induction false} DigitsOrder(m: int, n: int, w: nat)
    requires 0 <= m < Pow10(w) && 0 <= n < Pow10(w)
    ensures TextLess(Digits(m, w), Digits(n, w)) <==> m < n
    ensures Digits(m, w) == Digits(n, w) <==> m == n
  {
    if w > 0 {
      DigitsOrder(m / 10, n / 10, w - 1);
      var c, d := [Digit(m % 10)], [Digit(n % 10)];
      TextLessPrefix(Digits(m / 10, w - 1), Digits(n / 10, w - 1), c, d);
      assert TextLess(c, d) <==> m % 10 < n % 10;
      assert Digits(m, w)[..w - 1] == Digits(m / 10, w - 1) && Digits(n, w)[..w - 1] == Digits(n / 10, w - 1);
      assert Digits(m, w)[w - 1] == Digit(m % 10) && Digits(n, w)[w - 1] == Digit(n % 10);
    }
  }

  /** A leading number decides, and leaves the rest to decide a tie. */
  lemma Field(m: int, n: int, w: nat, x: string, y: string)
    requires 0 <= m < Pow10(w) && 0 <= n < Pow10(w)
    ensures TextLess(Digits(m, w) + x, Digits(n, w) + y) <==> m < n || (m == n && TextLess(x, y))
  {
    DigitsOrder(m, n, w);
    TextLessPrefix(Digits(m, w), Digits(n, w), x, y);
  }

  lemma Separator(c: string, x: string, y: string)
    ensures TextLess(c + x, c + y) <==> TextLess(x, y)
  {
    TextLessPrefix(c, c, x, y);
    Irreflexive(c);
  }

  lemma {:induction false} Irreflexive(a: string)
    ensures !TextLess(a, a)
  {
    if a != "" {
      Irreflexive(a[1..]);
    }
  }

  lemma Widths()
    ensures Pow10(2) == 100 && Pow10(4) == 10_000 && Pow10(6) == 1_000_000
  {
    assert Pow10(3) == 1_000;
    assert Pow10(5) == 100_000;
  }

  /** Text that sorts before a fraction, as every offset does: '+' and '-' sort before '.'. */
  predicate BeforePoint(x: string) {
    x != "" && x[0] < '.'
  }

  /** The optional fraction decides, and leaves the offsets to decide a tie. */
  lemma FractionOrder(m: int, n: int, x: string, y: string)
    requires 0 <= m < 1_000_000 && 0 <= n < 1_000_000 && BeforePoint(x) && BeforePoint(y)
    ensures TextLess(Fraction(m) + x, Fraction(n) + y) <==> m < n || (m == n && TextLess(x, y))
  {
    Widths();
    if m == 0 && n == 0 {
      assert "" + x == x && "" + y == y;
    } else if m == 0 {
      assert Fraction(m) + x == x && (Fraction(n) + y)[0] == '.';
    } else if n == 0 {
      assert Fraction(n) + y == y && (Fraction(m) + x)[0] == '.';
    } else {
      assert Fraction(m) + x == "." + (Digits(m, 6) + x);
      assert Fraction(n) + y == "." + (Digits(n, 6) + y);
      Separator(".", Digits(m, 6) + x, Digits(n, 6) + y);
      Field(m, n, 6, x, y);
    }
  }

  // The tail of the text from the clock fields on, and the whole text, by fields.
  function Clock(t: DateTime, offset: string): string
    requires IsDateTime(t)
  {
    Digits(t.hour, 2) + (":" + (Digits(t.minute, 2) + (":" + (Digits(t.second, 2) + (Fraction(t.micro) + offset)))))
  }

  lemma ClockOrder(a: DateTime, b: DateTime, x: string, y: string)
    requires IsDateTime(a) && IsDateTime(b) && BeforePoint(x) && BeforePoint(y)
    ensures TextLess(Clock(a, x), Clock(b, y)) <==> TimeOfDay(a) < TimeOfDay(b) || (TimeOfDay(a) == TimeOfDay(b) && TextLess(x, y))
  {
    Widths();
    var fa, fb := Fraction(a.micro) + x, Fraction(b.micro) + y;
    FractionOrder(a.micro, b.micro, x, y);
    var sa, sb := Digits(a.second, 2) + fa, Digits(b.second, 2) + fb;
    Field(a.second, b.second, 2, fa, fb);
    Separator(":", sa, sb);
    var ma, mb := Digits(a.minute, 2) + (":" + sa), Digits(b.minute, 2) + (":" + sb);
    Field(a.minute, b.minute, 2, ":" + sa, ":" + sb);
    Separator(":", ma, mb);
    Field(a.hour, b.hour, 2, ":" + ma, ":" + mb);
  }

  lemma DateOrder(a: DateTime, b: DateTime, x: string, y: string)
    requires IsDateTime(a) && IsDateTime(b)
    ensures TextLess(Digits(a.year, 4) + ("-" + (Digits(a.month, 2) + ("-" + (Digits(a.day, 2) + ("T" + x))))),
                     Digits(b.year, 4) + ("-" + (Digits(b.month, 2) + ("-" + (Digits(b.day, 2) + ("T" + y)))))) <==>
            DateLess(a.year, a.month, a.day, b.year, b.month, b.day) || (SameDay(a, b) && TextLess(x, y))
  {
    Widths();
    Separator("T", x, y);
    var da, db := Digits(a.day, 2) + ("T" + x), Digits(b.day, 2) + ("T" + y);
    Field(a.day, b.day, 2, "T" + x, "T" + y);
    Separator("-", da, db);
    var ma, mb := Digits(a.month, 2) + ("-" + da), Digits(b.month, 2) + ("-" + db);
    Field(a.month, b.month, 2, "-" + da, "-" + db);
    Separator("-", ma, mb);
    Field(a.year, b.year, 4, "-" + ma, "-" + mb);
  }

  /** The local time decides the order of two stored texts; only a tie is left to the offsets. */
  lemma IsoAtOrder(a: DateTime, b: DateTime, x: string, y: string)
    requires IsDateTime(a) && IsDateTime(b) && BeforePoint(x) && BeforePoint(y)
    ensures TextLess(IsoAt(a, x), IsoAt(b, y)) <==> Instant(a) < Instant(b) || (a == b && TextLess(x, y))
  {
    ClockOrder(a, b, x, y);
    DateOrder(a, b, Clock(a, x), Clock(b, y));
    EarlierIsSmallerInstant(a, b);
    EarlierIsSmallerInstant(b, a);
  }

  /**
    Text order of stored UTC timestamps is time order, whether or not either of them carries a
    microsecond part.
   */
  lemma IsoOrder(a: DateTime, b: DateTime)
    requires IsDateTime(a) && IsDateTime(b)
    ensures TextLess(Iso(a), Iso(b)) <==> Instant(a) < Instant(b)
  {
    IsoAtOrder(a, b, "+00:00", "+00:00");
    Irreflexive("+00:00");
  }

  /** Distinct times are stored as distinct texts. */
  lemma IsoInjective(a: DateTime, b: DateTime)
    requires IsDateTime(a) && IsDateTime(b)
    ensures Iso(a) == Iso(b) <==> a == b
  {
    IsoOrder(a, b);
    IsoOrder(b, a);
    Irreflexive(Iso(a));
    if Iso(a) == Iso(b) {
      SameInstantSameTime(a, b);
    }
  }

  lemma SameInstantSameTime(a: DateTime, b: DateTime)
    requires IsDateTime(a) && IsDateTime(b) && Instant(a) == Instant(b)
    ensures a == b
  {
    EarlierIsSmallerInstant(a, b);
    EarlierIsSmallerInstant(b, a);
  }

  // ---- offsets other than UTC

  const MINUTE: int := 60_000_000  // microseconds

  /** A UTC offset datetime accepts, in microseconds: less than a day either way. */
  predicate IsOffset(o: int) {
    -DAY < o < DAY
  }

  /** How isoformat renders it; seconds and their fraction are left out when they are zero. */
  function OffsetText(o: int): (s: string)
    requires IsOffset(o)
    ensures BeforePoint(s)
  {
    var size := if o < 0 then -o else o;
    var rest := size % MINUTE;
    (if o < 0 then "-" else "+") + Digits(size / (60 * MINUTE), 2) + ":" + Digits(size / MINUTE % 60, 2)
    + (if rest == 0 then "" else ":" + Digits(rest / 1_000_000, 2) + Fraction(rest % 1_000_000))
  }

  /** _timestamp of a local time with its offset, and the instant it denotes. */
  function Stored(t: DateTime, o: int): string
    requires IsDateTime(t) && IsOffset(o)
  {
    IsoAt(t, OffsetText(o))
  }

  function UtcInstant(t: DateTime, o: int): int
    requires 1 <= t.month <= 12
  {
    Instant(t) - o
  }

  predicate OrderedAlike(a: DateTime, o: int, b: DateTime, p: int)
    requires IsDateTime(a) && IsDateTime(b) && IsOffset(o) && IsOffset(p)
  {
    TextLess(Stored(a, o), Stored(b, p)) <==> UtcInstant(a, o) < UtcInstant(b, p)
  }

  /** For timestamps at offset o compared with timestamps at offset p, text order is time order. */
  ghost predicate Agree(o: int, p: int)
    requires IsOffset(o) && IsOffset(p)
  {
    forall a, b :: IsDateTime(a) && IsDateTime(b) ==> OrderedAlike(a, o, b, p)
  }

  /** One common offset, whatever it is, keeps text order and time order together. */
  lemma SameOffsetAgrees(o: int)
    requires IsOffset(o)
    ensures Agree(o, o)
  {
    var x := OffsetText(o);
    Irreflexive(x);
    forall a, b | IsDateTime(a) && IsDateTime(b) ensures OrderedAlike(a, o, b, o) {
      IsoAtOrder(a, b, x, x);
    }
  }

  const MOMENT: DateTime := DateTime(2000, 1, 1, 0, 0, 0, 1)
  const NEXT_MOMENT: DateTime := DateTime(2000, 1, 1, 0, 0, 0, 2)

  /** Local times one microsecond apart tell different offsets apart. */
  lemma DifferentOffsetsDisagree(o: int, p: int)
    requires IsOffset(o) && IsOffset(p)
    ensures o < p ==> !OrderedAlike(MOMENT, o, NEXT_MOMENT, p)
    ensures o > p + 1 ==> !OrderedAlike(NEXT_MOMENT, o, MOMENT, p)
  {
    IsoAtOrder(MOMENT, NEXT_MOMENT, OffsetText(o), OffsetText(p));
    IsoAtOrder(NEXT_MOMENT, MOMENT, OffsetText(o), OffsetText(p));
    assert Instant(NEXT_MOMENT) == Instant(MOMENT) + 1;
  }

  /**
    Exactly when the text filter can be trusted. Rows at two offsets are ordered by time in both
    directions if and only if the offsets are the same; for offsets in whole minutes, or any that
    differ by more than a microsecond, one direction already decides.
   */
  lemma OffsetsMustAgree(o: int, p: int)
    requires IsOffset(o) && IsOffset(p)
    ensures (Agree(o, p) && Agree(p, o)) <==> o == p
    ensures o % MINUTE == 0 == p % MINUTE ==> (Agree(o, p) <==> o == p)
    ensures o != p + 1 ==> (Agree(o, p) <==> o == p)
  {
    hide OrderedAlike;
    SameOffsetAgrees(o);
    DifferentOffsetsDisagree(o, p);
    DifferentOffsetsDisagree(p, o);
    assert IsDateTime(MOMENT) && IsDateTime(NEXT_MOMENT);
    if Agree(o, p) {
      assert OrderedAlike(MOMENT, o, NEXT_MOMENT, p) && OrderedAlike(NEXT_MOMENT, o, MOMENT, p);
    }
    if Agree(p, o) {
      assert OrderedAlike(MOMENT, p, NEXT_MOMENT, o) && OrderedAlike(NEXT_MOMENT, p, MOMENT, o);
    }
  }

  /** What the budget engine stores is the text at offset zero. */
  lemma UtcIsOffsetZero(t: DateTime)
    requires IsDateTime(t)
    ensures IsOffset(0) && Stored(t, 0) == Iso(t) && UtcInstant(t, 0) == Instant(t)
  {
    assert Digits(0, 1) == "0";
    assert Digits(0, 2) == "00";
    assert OffsetText(0) == "+00:00";
  }

  /**
    An instance: half past midnight on New Year's Day at +02:00 is an earlier instant than 23:00 UTC
    the day before, but its text is the greater one.
   */
  lemma MixedOffsetsDisagree()
    ensures var local, other := DateTime(2026, 1, 1, 0, 30, 0, 0), DateTime(2025, 12, 31, 23, 0, 0, 0);
            && IsDateTime(local) && IsDateTime(other) && IsOffset(120 * MINUTE) && IsOffset(0)
            && OffsetText(120 * MINUTE) == "+02:00"
            && UtcInstant(local, 120 * MINUTE) < UtcInstant(other, 0)
            && TextLess(Stored(other, 0), Stored(local, 120 * MINUTE))
  {
    var local, other := DateTime(2026, 1, 1, 0, 30, 0, 0), DateTime(2025, 12, 31, 23, 0, 0, 0);
    TwoHoursAhead();
    NewYear();
    hide TextLess, IsoAt, OffsetText, Instant;
    IsoAtOrder(other, local, OffsetText(0), OffsetText(120 * MINUTE));
  }

  lemma TwoHoursAhead()
    ensures OffsetText(120 * MINUTE) == "+02:00"
  {
    assert Digits(0, 1) == "0";
    assert Digits(2, 2) == "02" && Digits(0, 2) == "00";
  }

  lemma NewYear()
    ensures Instant(DateTime(2026, 1, 1, 0, 30, 0, 0)) == Instant(DateTime(2025, 12, 31, 23, 0, 0, 0)) + 90 * MINUTE
  {
    YearLength(2025);
    MonthsFillTheYear(2025);
  }
}
