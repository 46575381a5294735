/**
 The time texts that signatures and the API carry: RFC 3339 with up to nine fraction digits, trailing zeros
 dropped, as Go's RFC3339Nano layout writes them (section 5.6 of RFC 3339), and their parser.
 Instants are nanoseconds since 0000-01-01T00:00:00Z; zones are minutes east of UTC.
 */
module Rfc3339 {
  import opened Wrappers

  // ---- the calendar ----

  datatype Date = Date(year: nat, month: nat, day: nat)

  predicate Leap(year: nat) { year % 4 == 0 && (year % 100 != 0 || year % 400 == 0) }

  function Days(year: nat): nat { if Leap(year) then 366 else 365 }

  function MonthDays(year: nat, month: nat): nat {
    if month == 2 then (if Leap(year) then 29 else 28) else if month in {4, 6, 9, 11} then 30 else 31
  }

  predicate ValidDate(d: Date) { 1 <= d.month <= 12 && 1 <= d.day <= MonthDays(d.year, d.month) }

  function NextDay(d: Date): Date {
    if d.day < MonthDays(d.year, d.month) then d.(day := d.day + 1)
    else if d.month < 12 then Date(d.year, d.month + 1, 1)
    else Date(d.year + 1, 1, 1)
  }

  /** The date n days after 0000-01-01. */
  function DateOf(n: nat): (d: Date)
    ensures ValidDate(d)
  {
    if n == 0 then Date(0, 1, 1) else NextDay(DateOf(n - 1))
  }

  /** The days of the year before the month. */
  function DaysBefore(year: nat, month: nat): nat {
    if month <= 1 then 0 else DaysBefore(year, month - 1) + MonthDays(year, month - 1)
  }

  function DaysBeforeYear(year: nat): nat {
    if year == 0 then 0 else DaysBeforeYear(year - 1) + Days(year - 1)
  }

  function DayOf(d: Date): nat
    requires ValidDate(d)
  {
    DaysBeforeYear(d.year) + DaysBefore(d.year, d.month) + d.day - 1
  }

  lemma DayOfNext(d: Date)
    requires ValidDate(d)
    ensures ValidDate(NextDay(d)) && DayOf(NextDay(d)) == DayOf(d) + 1
  {
    if d.day == MonthDays(d.year, d.month) && d.month == 12 {
      YearDays(d.year);
    }
  }

  /** Counting days and naming dates are inverse. */
  lemma {:induction false} DayOfDate(n: nat)
    ensures DayOf(DateOf(n)) == n
  {
    if n > 0 {
      DayOfDate(n - 1);
      DayOfNext(DateOf(n - 1));
    }
  }

  lemma YearDays(year: nat)
    ensures DaysBefore(year, 13) == Days(year)
  {
    assert DaysBefore(year, 2) == 31;
    assert DaysBefore(year, 3) == 31 + MonthDays(year, 2);
    assert DaysBefore(year, 4) == DaysBefore(year, 3) + 31;
    assert DaysBefore(year, 5) == DaysBefore(year, 3) + 61;
    assert DaysBefore(year, 6) == DaysBefore(year, 3) + 92;
    assert DaysBefore(year, 7) == DaysBefore(year, 3) + 122;
    assert DaysBefore(year, 8) == DaysBefore(year, 3) + 153;
    assert DaysBefore(year, 9) == DaysBefore(year, 3) + 184;
    assert DaysBefore(year, 10) == DaysBefore(year, 3) + 214;
    assert DaysBefore(year, 11) == DaysBefore(year, 3) + 245;
    assert DaysBefore(year, 12) == DaysBefore(year, 3) + 275;
  }

  lemma Centuries(y: nat)
    ensures (y % 400 == 0 ==> y % 100 == 0) && (y % 100 == 0 ==> y % 4 == 0)
  {
    if y % 100 == 0 { assert y == 4 * (25 * (y / 100)); }
    if y % 400 == 0 { assert y == 100 * (4 * (y / 400)); }
  }

  function Counts(year: nat, n: nat): nat
    requires n > 0
  {
    if year % n == 0 then 1 else 0
  }

  lemma DaysCounted(y: nat)
    ensures Days(y) == 365 + Counts(y, 4) - Counts(y, 100) + Counts(y, 400)
  {
    Centuries(y);
  }

  /** How many of the years before a year n divides. */
  function MultiplesBefore(year: nat, n: nat): nat
    requires n > 0
  {
    if year == 0 then 0 else MultiplesBefore(year - 1, n) + Counts(year - 1, n)
  }

  lemma MultiplesNext(year: nat, n: nat)
    requires n > 0
    ensures MultiplesBefore(year + 1, n) == MultiplesBefore(year, n) + Counts(year, n)
  {
  }

  /** The calendar is the Gregorian one: a leap day every fourth year, but not in full centuries that 400
      does not divide. */
  lemma {:induction false} DaysBeforeYearExactly(year: nat)
    ensures DaysBeforeYear(year)
            == 365 * year + MultiplesBefore(year, 4) - MultiplesBefore(year, 100) + MultiplesBefore(year, 400)
  {
    if year > 0 {
      var y: nat := year - 1;
      DaysBeforeYearExactly(y);
      DaysCounted(y);
      MultiplesNext(y, 4);
      MultiplesNext(y, 100);
      MultiplesNext(y, 400);
      assert DaysBeforeYear(year) == DaysBeforeYear(y) + Days(y);
    }
  }

  // ---- instants ----

  const SECOND: nat := 1_000_000_000

  datatype Civil = Civil(date: Date, hour: nat, minute: nat, second: nat, nanos: nat)

  predicate ValidCivil(c: Civil) {
    ValidDate(c.date) && c.hour < 24 && c.minute < 60 && c.second < 60 && c.nanos < SECOND
  }

  function CivilOf(t: nat): Civil {
    var s := t / SECOND;
    var m := s / 60;
    var h := m / 60;
    Civil(DateOf(h / 24), h % 24, m % 60, s % 60, t % SECOND)
  }

  function InstantOf(c: Civil): nat
    requires ValidDate(c.date)
  {
    (((DayOf(c.date) * 24 + c.hour) * 60 + c.minute) * 60 + c.second) * SECOND + c.nanos
  }

  lemma InstantOfCivil(t: nat)
    ensures ValidCivil(CivilOf(t)) && InstantOf(CivilOf(t)) == t
  {
    var s := t / SECOND;
    var m := s / 60;
    var h := m / 60;
    DayOfDate(h / 24);
    assert h == (h / 24) * 24 + h % 24;
    assert m == h * 60 + m % 60 && s == m * 60 + s % 60 && t == s * SECOND + t % SECOND;
  }

  // ---- digits ----

  function Digit(n: nat): char
    requires n < 10
  {
    ('0' as int + n) as char
  }

  predicate IsDigit(c: char) { '0' <= c <= '9' }

  predicate AllDigits(s: string) { forall i :: 0 <= i < |s| ==> IsDigit(s[i]) }

  /** The last `width` decimal digits of a number. */
  function Digits(n: nat, width: nat): (s: string)
    ensures |s| == width && AllDigits(s)
  {
    if width == 0 then "" else Digits(n / 10, width - 1) + [Digit(n % 10)]
  }

  function Number(s: string): nat
    requires AllDigits(s)
    decreases |s|
  {
    if s == "" then 0 else 10 * Number(s[..|s| - 1]) + (s[|s| - 1] as int - '0' as int)
  }

  function Pow10(n: nat): nat { if n == 0 then 1 else 10 * Pow10(n - 1) }

  lemma {:induction false} NumberDigits(n: nat, width: nat)
    requires n < Pow10(width)
    ensures Number(Digits(n, width)) == n
    decreases width
  {
    if width > 0 {
      NumberDigits(n / 10, width - 1);
      assert Digits(n, width)[..width - 1] == Digits(n / 10, width - 1);
    }
  }

  function Width(n: nat): nat { if n < 10 then 1 else 1 + Width(n / 10) }

  lemma {:induction false} WidthEnough(n: nat)
    ensures n < Pow10(Width(n))
  {
    if n >= 10 { WidthEnough(n / 10); }
  }

  // ---- pieces of a time text ----

  function PairText(mark: char, n: nat, rest: string): string { [mark] + Digits(n, 2) + rest }

  /** Reads a mark and two digits. */
  function ReadPair(mark: char, s: string): Option<(nat, string)> {
    if |s| >= 3 && s[0] == mark && AllDigits(s[1..3]) then Some((Number(s[1..3]), s[3..])) else None
  }

  lemma ReadPairText(mark: char, n: nat, rest: string)
    requires n < 100
    ensures ReadPair(mark, PairText(mark, n, rest)) == Some((n, rest))
  {
    var s := PairText(mark, n, rest);
    assert s[1..3] == Digits(n, 2) && s[3..] == rest;
    assert Pow10(2) == 10 * Pow10(1) == 100;
    NumberDigits(n, 2);
  }

  function Trim(s: string): string
    decreases |s|
  {
    if s != "" && s[|s| - 1] == '0' then Trim(s[..|s| - 1]) else s
  }

  function FractionText(nanos: nat): string { if nanos == 0 then "" else "." + Trim(Digits(nanos, 9)) }

  /** How many digits a text starts with. */
  function LeadingDigits(s: string): (n: nat)
    ensures n <= |s| && AllDigits(s[..n]) && (n < |s| ==> !IsDigit(s[n]))
    decreases |s|
  {
    if s == "" || !IsDigit(s[0]) then 0
    else
      assert forall i :: 0 < i <= LeadingDigits(s[1..]) ==> s[i] == s[1..][i - 1];
      1 + LeadingDigits(s[1..])
  }

  /** Digits after the point, as nanoseconds; those past the ninth are dropped. */
  function Nanos(digits: string): nat
    requires AllDigits(digits)
  {
    if |digits| > 9 then Number(digits[..9]) else Number(digits) * Pow10(9 - |digits|)
  }

  function ReadFraction(s: string): Option<(nat, string)> {
    if s == "" || s[0] != '.' then Some((0, s))
    else
      var n := LeadingDigits(s[1..]);
      if n == 0 then None else Some((Nanos(s[1..][..n]), s[1..][n..]))
  }

  lemma Shift(x: nat, n: nat)
    ensures x * Pow10(n + 1) == (10 * x) * Pow10(n)
  {
  }

  lemma {:induction false} TrimKeeps(s: string)
    requires AllDigits(s) && |s| <= 9
    ensures var t := Trim(s);
            && |t| <= |s| && AllDigits(t)
            && Number(t) * Pow10(9 - |t|) == Number(s) * Pow10(9 - |s|)
            && (Number(s) > 0 ==> t != "")
    decreases |s|
  {
    if s != "" && s[|s| - 1] == '0' {
      var init := s[..|s| - 1];
      TrimKeeps(init);
      Shift(Number(init), 9 - |s|);
      assert Number(s) == 10 * Number(init) && 9 - |init| == 9 - |s| + 1;
    }
  }

  lemma LeadingDigitsAre(digits: string, rest: string)
    requires AllDigits(digits) && (rest == "" || !IsDigit(rest[0]))
    ensures LeadingDigits(digits + rest) == |digits|
  {
    var s, n := digits + rest, LeadingDigits(digits + rest);
    assert forall i :: 0 <= i < |digits| ==> s[i] == digits[i];
    assert forall i :: 0 <= i < n ==> s[..n][i] == s[i];
    assert rest != "" ==> s[|digits|] == rest[0];
  }

  lemma NanosBound()
    ensures Pow10(9) == SECOND && Pow10(0) == 1
  {
    assert Pow10(3) == 1000 && Pow10(6) == 1000 * Pow10(3) && Pow10(9) == 1000 * Pow10(6);
  }

  lemma NanosTrimmed(nanos: nat)
    requires 0 < nanos < SECOND
    ensures var digits := Trim(Digits(nanos, 9)); AllDigits(digits) && digits != "" && Nanos(digits) == nanos
  {
    NanosBound();
    var nine: nat := 9;
    NumberDigits(nanos, nine);
    TrimKeeps(Digits(nanos, nine));
  }

  lemma ReadPointText(digits: string, rest: string)
    requires AllDigits(digits) && digits != "" && (rest == "" || !IsDigit(rest[0]))
    ensures ReadFraction("." + (digits + rest)) == Some((Nanos(digits), rest))
  {
    var s := "." + (digits + rest);
    assert s[1..] == digits + rest;
    LeadingDigitsAre(digits, rest);
    assert (digits + rest)[..|digits|] == digits && (digits + rest)[|digits|..] == rest;
  }

  lemma ReadFractionText(nanos: nat, rest: string)
    requires nanos < SECOND && (rest == "" || (!IsDigit(rest[0]) && rest[0] != '.'))
    ensures ReadFraction(FractionText(nanos) + rest) == Some((nanos, rest))
  {
    if nanos == 0 {
      assert FractionText(nanos) + rest == rest;
    } else {
      var digits := Trim(Digits(nanos, 9));
      NanosTrimmed(nanos);
      assert FractionText(nanos) + rest == "." + (digits + rest);
      ReadPointText(digits, rest);
    }
  }

  function ZoneText(zone: int): string {
    if zone == 0 then "Z"
    else if zone > 0 then PairText('+', zone / 60, PairText(':', zone % 60, ""))
    else PairText('-', -zone / 60, PairText(':', -zone % 60, ""))
  }

  function ReadZone(s: string): Option<int> {
    if s == "Z" then Some(0)
    else if s == "" || !(s[0] == '+' || s[0] == '-') then None
    else
      var h := ReadPair(s[0], s);
      if h.None? then None
      else
        var m := ReadPair(':', h.value.1);
        if m.None? || m.value.1 != "" || h.value.0 >= 24 || m.value.0 >= 60 then None
        else
          var minutes := h.value.0 * 60 + m.value.0;
          Some(if s[0] == '+' then minutes else -minutes)
  }

  lemma ReadZoneText(zone: int)
    requires -1440 < zone < 1440
    ensures ReadZone(ZoneText(zone)) == Some(zone)
    ensures ZoneText(zone) != "" && !IsDigit(ZoneText(zone)[0]) && ZoneText(zone)[0] != '.'
  {
    if zone != 0 {
      var mark, z := if zone > 0 then '+' else '-', if zone > 0 then zone else -zone;
      var minutes := PairText(':', z % 60, "");
      assert ZoneText(zone) == PairText(mark, z / 60, minutes);
      ReadPairText(mark, z / 60, minutes);
      ReadPairText(':', z % 60, "");
      assert ZoneText(zone)[0] == mark;
    }
  }

  // ---- whole texts ----

  function ClockText(h: nat, m: nat, s: nat, rest: string): string {
    PairText('T', h, PairText(':', m, PairText(':', s, rest)))
  }

  /** Everything after the year. */
  function TailText(c: Civil, zone: int): string {
    PairText('-', c.date.month, PairText('-', c.date.day,
      ClockText(c.hour, c.minute, c.second, FractionText(c.nanos) + ZoneText(zone))))
  }

  datatype Tail = Tail(month: nat, day: nat, hour: nat, minute: nat, second: nat, nanos: nat, zone: int)

  function ReadClock(s: string): Option<((nat, nat, nat), string)> {
    var h := ReadPair('T', s);
    if h.None? then None
    else
      var m := ReadPair(':', h.value.1);
      if m.None? then None
      else
        var sec := ReadPair(':', m.value.1);
        if sec.None? then None else Some(((h.value.0, m.value.0, sec.value.0), sec.value.1))
  }

  function ReadEnd(s: string): Option<(nat, int)> {
    var f := ReadFraction(s);
    if f.None? then None
    else
      var z := ReadZone(f.value.1);
      if z.None? then None else Some((f.value.0, z.value))
  }

  function ReadTail(s: string): Option<Tail> {
    var month := ReadPair('-', s);
    if month.None? then None
    else
      var day := ReadPair('-', month.value.1);
      if day.None? then None
      else
        var clock := ReadClock(day.value.1);
        if clock.None? then None
        else
          var end := ReadEnd(clock.value.1);
          if end.None? then None
          else
            var (h, m, sec) := clock.value.0;
            Some(Tail(month.value.0, day.value.0, h, m, sec, end.value.0, end.value.1))
  }

  lemma ReadClockText(h: nat, m: nat, s: nat, rest: string)
    requires h < 24 && m < 60 && s < 60
    ensures ReadClock(ClockText(h, m, s, rest)) == Some(((h, m, s), rest))
  {
    var seconds := PairText(':', s, rest);
    ReadPairText('T', h, PairText(':', m, seconds));
    ReadPairText(':', m, seconds);
    ReadPairText(':', s, rest);
  }

  lemma ReadEndText(nanos: nat, zone: int)
    requires nanos < SECOND && -1440 < zone < 1440
    ensures ReadEnd(FractionText(nanos) + ZoneText(zone)) == Some((nanos, zone))
  {
    ReadZoneText(zone);
    ReadFractionText(nanos, ZoneText(zone));
  }

  lemma ReadTailText(c: Civil, zone: int)
    requires ValidCivil(c) && -1440 < zone < 1440
    ensures ReadTail(TailText(c, zone))
            == Some(Tail(c.date.month, c.date.day, c.hour, c.minute, c.second, c.nanos, zone))
  {
    var end := FractionText(c.nanos) + ZoneText(zone);
    var clock := ClockText(c.hour, c.minute, c.second, end);
    var day := PairText('-', c.date.day, clock);
    ReadEndText(c.nanos, zone);
    ReadClockText(c.hour, c.minute, c.second, end);
    ReadPairText('-', c.date.day, clock);
    ReadPairText('-', c.date.month, day);
  }

  /** At least four digits. */
  function YearText(year: nat): string { Digits(year, if year < 10000 then 4 else Width(year)) }

  lemma NumberYear(year: nat)
    ensures AllDigits(YearText(year)) && Number(YearText(year)) == year
    ensures year < 10000 ==> |YearText(year)| == 4
  {
    assert Pow10(4) == 10000 by { assert Pow10(2) == 100 && Pow10(4) == 100 * Pow10(2); }
    if year >= 10000 { WidthEnough(year); }
    NumberDigits(year, if year < 10000 then 4 else Width(year));
  }

  function Format(local: nat, zone: int): string {
    YearText(CivilOf(local).date.year) + TailText(CivilOf(local), zone)
  }

  function UtcText(t: nat): string { Format(t, 0) }

  function ZoneNanos(zone: int): int { zone * 60 * SECOND }

  /** Where everything is in a text: YYYY-MM-DDThh:mm:ss, then fraction and zone. */
  lemma LayoutExactly(c: Civil, zone: int)
    requires ValidCivil(c) && c.date.year <= 9999
    ensures var s := YearText(c.date.year) + TailText(c, zone);
            && |s| >= 19 && s[4] == '-' && s[7] == '-' && s[10] == 'T' && s[13] == ':' && s[16] == ':'
            && s[..4] == Digits(c.date.year, 4) && s[5..7] == Digits(c.date.month, 2)
            && s[8..10] == Digits(c.date.day, 2) && s[11..13] == Digits(c.hour, 2)
            && s[14..16] == Digits(c.minute, 2) && s[17..19] == Digits(c.second, 2)
            && s[19..] == FractionText(c.nanos) + ZoneText(zone)
  {
    NumberYear(c.date.year);
    var end := FractionText(c.nanos) + ZoneText(zone);
    var t3 := PairText(':', c.second, end);
    var t2 := PairText(':', c.minute, t3);
    var t1 := PairText('T', c.hour, t2);
    var t0 := PairText('-', c.date.day, t1);
    var s := YearText(c.date.year) + PairText('-', c.date.month, t0);
    PairAt(s, 4, YearText(c.date.year), '-', c.date.month, t0);
    PairAt(s, 7, s[..7], '-', c.date.day, t1);
    PairAt(s, 10, s[..10], 'T', c.hour, t2);
    PairAt(s, 13, s[..13], ':', c.minute, t3);
    PairAt(s, 16, s[..16], ':', c.second, end);
  }

  lemma PairAt(s: string, k: nat, before: string, mark: char, n: nat, rest: string)
    requires s == before + PairText(mark, n, rest) && |before| == k
    ensures |s| >= k + 3 && s[..k] == before && s[k] == mark && s[k + 1..k + 3] == Digits(n, 2) && s[k + 3..] == rest
    ensures s == s[..k + 3] + rest
  {
  }

  /** The JSON form of an instant in a zone; years outside 0 to 9999 cannot be written. */
  function Marshal(t: nat, zone: int): Option<string> {
    var local := t + ZoneNanos(zone);
    if local < 0 || CivilOf(local).date.year > 9999 then None else Some(Format(local, zone))
  }

  function ReadCivil(s: string): Option<(Civil, int)> {
    if |s| < 4 || !AllDigits(s[..4]) then None
    else
      var tail := ReadTail(s[4..]);
      if tail.None? then None
      else
        var t := tail.value;
        Some((Civil(Date(Number(s[..4]), t.month, t.day), t.hour, t.minute, t.second, t.nanos), t.zone))
  }

  lemma ReadCivilText(c: Civil, zone: int)
    requires ValidCivil(c) && c.date.year <= 9999 && -1440 < zone < 1440
    ensures ReadCivil(YearText(c.date.year) + TailText(c, zone)) == Some((c, zone))
  {
    var s := YearText(c.date.year) + TailText(c, zone);
    NumberYear(c.date.year);
    ReadTailText(c, zone);
    assert s[..4] == YearText(c.date.year) && s[4..] == TailText(c, zone);
  }

  /** The instant a clock in a zone shows; instants before year 0 are refused. */
  function InstantIn(c: Civil, zone: int): Option<nat> {
    if !ValidCivil(c) then None
    else
      var instant := InstantOf(c) - ZoneNanos(zone);
      if instant < 0 then None else Some(instant)
  }

  function Unmarshal(s: string): Option<nat> {
    var read := ReadCivil(s);
    if read.None? then None else InstantIn(read.value.0, read.value.1)
  }

  lemma UnmarshalText(s: string, c: Civil, zone: int)
    requires ReadCivil(s) == Some((c, zone))
    ensures Unmarshal(s) == InstantIn(c, zone)
  {
  }

  lemma InstantInExact(t: nat, zone: int, local: nat)
    requires local == t + ZoneNanos(zone)
    ensures InstantIn(CivilOf(local), zone) == Some(t)
  {
    InstantOfCivil(local);
  }

  /** Whatever the zone, the text of an instant reads back as that instant. */
  lemma UnmarshalMarshal(t: nat, zone: int)
    requires -1440 < zone < 1440 && Marshal(t, zone).Some?
    ensures Unmarshal(Marshal(t, zone).value) == Some(t)
  {
    var local := t + ZoneNanos(zone);
    var c := CivilOf(local);
    assert ValidCivil(c) by { InstantOfCivil(local); }
    ReadCivilText(c, zone);
    UnmarshalText(Format(local, zone), c, zone);
    InstantInExact(t, zone, local);
  }

  /** A text splits in one way at the first occurrence of a mark. */
  lemma UniqueSplit(a: string, x: string, b: string, y: string, mark: char)
    requires mark !in a && mark !in b && x != "" && y != "" && x[0] == mark && y[0] == mark
    requires a + x == b + y
    ensures a == b && x == y
  {
    assert forall i :: 0 <= i < |a| ==> (a + x)[i] == a[i];
    assert forall i :: 0 <= i < |b| ==> (b + y)[i] == b[i];
    assert (a + x)[|a|] == mark && (b + y)[|b|] == mark;
    assert a == (a + x)[..|a|] && b == (b + y)[..|b|];
    assert x == (a + x)[|a|..] && y == (b + y)[|b|..];
  }

  /** Different instants have different UTC texts, in any year. */
  lemma UtcTextInjective(t: nat, u: nat)
    requires UtcText(t) == UtcText(u)
    ensures t == u
  {
    var c, d := CivilOf(t), CivilOf(u);
    InstantOfCivil(t);
    InstantOfCivil(u);
    NumberYear(c.date.year);
    NumberYear(d.date.year);
    assert TailText(c, 0)[0] == '-' && TailText(d, 0)[0] == '-';
    UniqueSplit(YearText(c.date.year), TailText(c, 0), YearText(d.date.year), TailText(d, 0), '-');
    ReadTailText(c, 0);
    ReadTailText(d, 0);
    assert c == d;
  }
}
