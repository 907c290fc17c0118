/** Log timestamps: `rfc3339_millis`, and a reader of section 5.6 of RFC 3339
    (UTC, to the millisecond) that undoes it. */
module Timestamp {
  import opened Basics
  import opened Calendar

  const DAY := 86_400_000

  // --- Numbers in decimal ---

  function Digit(d: int): char
    requires 0 <= d < 10
  {
    '0' + d as char
  }

  function Decimal(n: nat): string {
    if n < 10 then [Digit(n)] else Decimal(n / 10) + [Digit(n % 10)]
  }

  function Zeros(n: nat): string {
    if n == 0 then "" else Zeros(n - 1) + "0"
  }

  /** As `{:0width}` writes it: the sign counts towards the width. */
  function Padded(n: int, width: nat): string {
    if n < 0 then "-" + PaddedNat(-n, if width == 0 then 0 else width - 1) else PaddedNat(n, width)
  }

  function PaddedNat(n: nat, width: nat): string {
    var digits := Decimal(n);
    (if |digits| < width then Zeros(width - |digits|) else "") + digits
  }

  function Pow10(n: nat): (r: nat)
    ensures r > 0
  {
    if n == 0 then 1 else 10 * Pow10(n - 1)
  }

  predicate AllDigits(s: string) {
    forall i | 0 <= i < |s| :: '0' <= s[i] <= '9'
  }

  function Number(s: string): nat
    requires AllDigits(s)
  {
    if s == "" then 0 else 10 * Number(s[..|s| - 1]) + (s[|s| - 1] - '0') as int
  }

  lemma DigitRead(s: string, d: nat)
    requires AllDigits(s) && d < 10
    ensures AllDigits(s + [Digit(d)]) && Number(s + [Digit(d)]) == 10 * Number(s) + d
  {
    assert (s + [Digit(d)])[..|s|] == s;
  }

  lemma PaddedLast(n: nat, width: nat)
    requires n >= 10 && width > 0
    ensures PaddedNat(n, width) == PaddedNat(n / 10, width - 1) + [Digit(n % 10)]
  {
    var high := Decimal(n / 10);
    assert Decimal(n) == high + [Digit(n % 10)];
    if |high| < width - 1 {
      assert Zeros(width - 1 - |high|) + (high + [Digit(n % 10)]) == Zeros(width - 1 - |high|) + high + [Digit(n % 10)];
    }
  }

  /** A number that fits the width fills it exactly, and reads back. */
  lemma {:induction false} PaddedFits(n: nat, width: nat)
    requires 0 < width && n < Pow10(width)
    ensures |PaddedNat(n, width)| == width && AllDigits(PaddedNat(n, width)) && Number(PaddedNat(n, width)) == n
    decreases width
  {
    if n < 10 {
      ZerosRead(width - 1);
      DigitRead(Zeros(width - 1), n);
    } else {
      assert width > 1 by { assert Pow10(1) == 10; }
      PaddedFits(n / 10, width - 1);
      DigitRead(PaddedNat(n / 10, width - 1), n % 10);
      PaddedLast(n, width);
    }
  }

  lemma {:induction false} DecimalShort(n: nat, width: nat)
    ensures 0 < width && n < Pow10(width) ==> |Decimal(n)| <= width
    ensures Pow10(width) <= n ==> |Decimal(n)| > width
    decreases n
  {
    if n >= 10 {
      if width > 0 {
        DecimalShort(n / 10, width - 1);
      }
    }
  }

  lemma {:induction false} ZerosRead(n: nat)
    ensures |Zeros(n)| == n && AllDigits(Zeros(n)) && Number(Zeros(n)) == 0
  {
    if n > 0 {
      ZerosRead(n - 1);
      assert Zeros(n)[..n - 1] == Zeros(n - 1);
    }
  }

  lemma {:induction false} NumberInjective(s: string, t: string)
    requires AllDigits(s) && AllDigits(t) && |s| == |t| && Number(s) == Number(t)
    ensures s == t
  {
    if s != "" {
      var n := |s| - 1;
      NumberInjective(s[..n], t[..n]);
      assert s == s[..n] + [s[n]] && t == t[..n] + [t[n]];
    }
  }

  lemma {:induction false} NumberFits(s: string)
    requires AllDigits(s)
    ensures Number(s) < Pow10(|s|)
  {
    if s != "" {
      NumberFits(s[..|s| - 1]);
    }
  }

  /** A string of digits is its number, padded to its length. */
  lemma FieldWritten(s: string, width: nat)
    requires AllDigits(s) && |s| == width > 0
    ensures Padded(Number(s), width) == s
  {
    NumberFits(s);
    PaddedFits(Number(s), width);
    NumberInjective(s, PaddedNat(Number(s), width));
  }

  // --- Timestamps ---

  datatype Stamp = Stamp(date: Date, hour: nat, minute: nat, second: nat, milli: nat)

  predicate ValidStamp(p: Stamp) {
    ValidDate(p.date) && p.hour < 24 && p.minute < 60 && p.second < 60 && p.milli < 1000
  }

  function StampOf(ms: int): Stamp {
    var ofDay := ms % DAY;
    Stamp(Civil(ms / DAY), ofDay / 3_600_000, ofDay / 60_000 % 60, ofDay / 1000 % 60, ofDay % 1000)
  }

  function Written(p: Stamp): string {
    Text(Padded(p.date.year, 4), Padded(p.date.month, 2), Padded(p.date.day, 2),
         Padded(p.hour, 2), Padded(p.minute, 2), Padded(p.second, 2), Padded(p.milli, 3))
  }

  function Text(y: string, mo: string, d: string, h: string, mi: string, s: string, milli: string): string {
    y + "-" + mo + "-" + d + "T" + h + ":" + mi + ":" + s + "." + milli + "Z"
  }

  function Rfc3339(ms: int): string {
    Written(StampOf(ms))
  }

  // --- Reading them ---

  predicate WellFormed(t: string)
    requires |t| == 24
  {
    && AllDigits(t[..4]) && t[4] == '-' && AllDigits(t[5..7]) && t[7] == '-' && AllDigits(t[8..10]) && t[10] == 'T'
    && AllDigits(t[11..13]) && t[13] == ':' && AllDigits(t[14..16]) && t[16] == ':' && AllDigits(t[17..19])
    && t[19] == '.' && AllDigits(t[20..23]) && t[23] == 'Z'
  }

  function Fields(t: string): Stamp
    requires |t| == 24 && WellFormed(t)
  {
    Stamp(Date(Number(t[..4]), Number(t[5..7]), Number(t[8..10])),
          Number(t[11..13]), Number(t[14..16]), Number(t[17..19]), Number(t[20..23]))
  }

  function Millis(p: Stamp): int
    requires ValidStamp(p)
  {
    DAY * DayNumber(p.date) + 3_600_000 * p.hour + 60_000 * p.minute + 1000 * p.second + p.milli
  }

  /** What a timestamp says, if it is one. */
  function Parse(t: string): Option<int> {
    if |t| == 24 && WellFormed(t) && ValidStamp(Fields(t)) then Some(Millis(Fields(t))) else None
  }

  // --- Stamps and their text ---

  lemma TextParts(y: string, mo: string, d: string, h: string, mi: string, s: string, milli: string)
    requires |y| == 4 && |mo| == |d| == |h| == |mi| == |s| == 2 && |milli| == 3
    ensures var t := Text(y, mo, d, h, mi, s, milli);
      && |t| == 24 && t[..4] == y && t[5..7] == mo && t[8..10] == d
      && t[11..13] == h && t[14..16] == mi && t[17..19] == s && t[20..23] == milli
      && t[4] == '-' == t[7] && t[10] == 'T' && t[13] == ':' == t[16] && t[19] == '.' && t[23] == 'Z'
  {
  }

  lemma TextOfParts(t: string)
    requires |t| == 24 && WellFormed(t)
    ensures t == Text(t[..4], t[5..7], t[8..10], t[11..13], t[14..16], t[17..19], t[20..23])
  {
    TextParts(t[..4], t[5..7], t[8..10], t[11..13], t[14..16], t[17..19], t[20..23]);
  }

  /** The width is a parameter, not a literal, to keep its powers folded. */
  lemma FieldReads(n: nat, width: nat)
    requires 0 < width && n < Pow10(width)
    ensures Reads(Padded(n, width), n, width)
  {
    PaddedFits(n, width);
  }

  predicate Reads(s: string, n: int, width: nat) {
    |s| == width && AllDigits(s) && Number(s) == n
  }

  lemma YearReads(year: int)
    ensures 0 <= year < 10_000 ==> Reads(Padded(year, 4), year, 4)
    ensures !(0 <= year < 10_000) ==> |Padded(year, 4)| != 4 || Padded(year, 4)[0] == '-'
  {
    assert Pow10(4) == 10_000;
    if 0 <= year < 10_000 {
      PaddedFits(year, 4);
    } else if year >= 10_000 {
      DecimalShort(year, 4);
    }
  }

  lemma FieldsOfText(p: Stamp, y: string, mo: string, d: string, h: string, mi: string, s: string, milli: string)
    requires Reads(mo, p.date.month, 2) && Reads(d, p.date.day, 2) && Reads(h, p.hour, 2) && Reads(mi, p.minute, 2)
    requires Reads(s, p.second, 2) && Reads(milli, p.milli, 3)
    ensures var t := Text(y, mo, d, h, mi, s, milli);
      (|t| == 24 && WellFormed(t) <==> |y| == 4 && AllDigits(y))
      && (Reads(y, p.date.year, 4) ==> Fields(t) == p)
  {
    if |y| == 4 {
      TextParts(y, mo, d, h, mi, s, milli);
    }
  }

  /** Stamps with four-digit years, and only those, read back. */
  lemma WrittenReadsBack(p: Stamp)
    requires ValidStamp(p)
    ensures var t := Written(p);
      (|t| == 24 && WellFormed(t) <==> 0 <= p.date.year < 10_000)
      && (|t| == 24 && WellFormed(t) ==> Fields(t) == p)
  {
    assert Pow10(2) == 100 && Pow10(3) == 1000;
    YearReads(p.date.year);
    FieldReads(p.date.month, 2);
    FieldReads(p.date.day, 2);
    FieldReads(p.hour, 2);
    FieldReads(p.minute, 2);
    FieldReads(p.second, 2);
    FieldReads(p.milli, 3);
    FieldsOfText(p, Padded(p.date.year, 4), Padded(p.date.month, 2), Padded(p.date.day, 2),
                 Padded(p.hour, 2), Padded(p.minute, 2), Padded(p.second, 2), Padded(p.milli, 3));
  }

  lemma WrittenOfFields(t: string)
    requires |t| == 24 && WellFormed(t)
    ensures Written(Fields(t)) == t
  {
    FieldWritten(t[..4], 4);
    FieldWritten(t[5..7], 2);
    FieldWritten(t[8..10], 2);
    FieldWritten(t[11..13], 2);
    FieldWritten(t[14..16], 2);
    FieldWritten(t[17..19], 2);
    FieldWritten(t[20..23], 3);
    TextOfParts(t);
  }

  // --- Stamps and their milliseconds ---

  /** From the start of year 0 to the end of year 9999. */
  const EARLIEST := -62_167_219_200_000
  const AFTER_LATEST := 253_402_300_800_000

  lemma TimeOfDay(t: int)
    requires 0 <= t < DAY
    ensures 3_600_000 * (t / 3_600_000) + 60_000 * (t / 60_000 % 60) + 1000 * (t / 1000 % 60) + t % 1000 == t
    ensures 0 <= t / 3_600_000 < 24
  {
    assert t / 60_000 == t / 1000 / 60;
    assert t / 3_600_000 == t / 60_000 / 60;
  }

  lemma MillisOfStamp(ms: int)
    ensures ValidStamp(StampOf(ms)) && Millis(StampOf(ms)) == ms
  {
    CivilIsTheDate(ms / DAY);
    TimeOfDay(ms % DAY);
  }

  lemma PartsOfTime(p: Stamp, t: int)
    requires ValidStamp(p) && t == 3_600_000 * p.hour + 60_000 * p.minute + 1000 * p.second + p.milli
    ensures 0 <= t < DAY && t / 3_600_000 == p.hour && t / 60_000 % 60 == p.minute && t / 1000 % 60 == p.second && t % 1000 == p.milli
  {
    assert t / 1000 == 3600 * p.hour + 60 * p.minute + p.second;
    assert t / 60_000 == 60 * p.hour + p.minute;
  }

  lemma StampOfMillis(p: Stamp)
    requires ValidStamp(p)
    ensures StampOf(Millis(p)) == p
  {
    var t := 3_600_000 * p.hour + 60_000 * p.minute + 1000 * p.second + p.milli;
    PartsOfTime(p, t);
    assert Millis(p) / DAY == DayNumber(p.date) && Millis(p) % DAY == t;
    CivilUndoesCounting(p.date);
  }

  lemma YearOfDay(d: Date, y: int)
    requires ValidDate(d)
    ensures d.year < y <==> DayNumber(d) < 365 * (y - 1) + Leaps(y - 1) - 719_162
  {
    var first := Date(y, 1, 1);
    YearStartIs(y);
    if Before(d, first) {
      DayNumberGrows(d, first);
    } else if d != first {
      DayNumberGrows(first, d);
    }
  }

  lemma FourDigitYears(p: Stamp)
    requires ValidStamp(p)
    ensures 0 <= p.date.year < 10_000 <==> EARLIEST <= Millis(p) < AFTER_LATEST
  {
    YearOfDay(p.date, 0);
    YearOfDay(p.date, 10_000);
  }

  // --- Round trips ---

  /** A timestamp reads back as the millisecond it was written for, exactly
      when its year has four digits; otherwise it is not one at all. */
  lemma TimestampReadsBack(ms: int)
    ensures Parse(Rfc3339(ms)) == if EARLIEST <= ms < AFTER_LATEST then Some(ms) else None
  {
    MillisOfStamp(ms);
    WrittenReadsBack(StampOf(ms));
    FourDigitYears(StampOf(ms));
  }

  /** Every reading of the clock does: nanoseconds in 64 bits, signed, lie
      between the years 1677 and 2262. */
  lemma ClockReadsBack(nanos: int)
    requires -0x8000_0000_0000_0000 <= nanos < 0x8000_0000_0000_0000
    ensures Parse(Rfc3339(nanos / 1_000_000)) == Some(nanos / 1_000_000)
  {
    TimestampReadsBack(nanos / 1_000_000);
  }

  /** Nothing else reads as that millisecond. */
  lemma OneTimestampEach(t: string)
    requires Parse(t).Some?
    ensures Rfc3339(Parse(t).value) == t
  {
    StampOfMillis(Fields(t));
    WrittenOfFields(t);
  }

  // --- The characters in a timestamp ---

  predicate StampChars(t: string) {
    forall i | 0 <= i < |t| :: '0' <= t[i] <= '9' || t[i] in "-T:.Z"
  }

  lemma {:induction false} DecimalDigits(n: nat)
    ensures AllDigits(Decimal(n)) && Decimal(n) != ""
  {
    if n >= 10 { DecimalDigits(n / 10); }
  }

  lemma PaddedChars(n: int, width: nat)
    ensures StampChars(Padded(n, width))
  {
    DecimalDigits(if n < 0 then -n else n);
    forall k: nat ensures AllDigits(Zeros(k)) { ZerosRead(k); }
  }

  lemma Rfc3339Chars(ms: int)
    ensures StampChars(Rfc3339(ms))
  {
    var p := StampOf(ms);
    PaddedChars(p.date.year, 4);
    PaddedChars(p.date.month, 2);
    PaddedChars(p.date.day, 2);
    PaddedChars(p.hour, 2);
    PaddedChars(p.minute, 2);
    PaddedChars(p.second, 2);
    PaddedChars(p.milli, 3);
    TextChars(Padded(p.date.year, 4), Padded(p.date.month, 2), Padded(p.date.day, 2),
              Padded(p.hour, 2), Padded(p.minute, 2), Padded(p.second, 2), Padded(p.milli, 3));
  }

  lemma TextChars(y: string, mo: string, d: string, h: string, mi: string, s: string, milli: string)
    requires StampChars(y) && StampChars(mo) && StampChars(d) && StampChars(h) && StampChars(mi) && StampChars(s) && StampChars(milli)
    ensures StampChars(Text(y, mo, d, h, mi, s, milli))
  {
  }
}
