/**
 The RFC 3339 stamp in front of every log line.

 `Split` is the parser; `Render` writes a civil time the way a log source does, and
 `Exact` is the instant it denotes.  The parser accepts exactly the renderings of
 valid civil times, and answers that instant rounded down to the microsecond.
 */
module LogTimestamp {
  import opened Text

  // ---------- Civil times ----------

  datatype Zone = Zulu(upper: bool) | Offset(east: bool, hours: nat, minutes: nat, colon: bool)

  /** `frac` holds the digits after the point, as many as were written. */
  datatype Civil = Civil(year: nat, month: nat, day: nat, hour: nat, minute: nat, second: nat, frac: string, zone: Zone)

  predicate IsDigit(c: char) {
    '0' <= c <= '9'
  }

  predicate AllDigits(s: string) {
    forall i :: 0 <= i < |s| ==> IsDigit(s[i])
  }

  function DigitValue(c: char): (d: nat)
    requires IsDigit(c)
    ensures d < 10
  {
    (c - '0') as int
  }

  function DigitChar(d: nat): (c: char)
    requires d < 10
    ensures IsDigit(c) && DigitValue(c) == d
  {
    '0' + (d as char)
  }

  predicate IsLeap(y: nat) {
    y % 4 == 0 && (y % 100 != 0 || y % 400 == 0)
  }

  function DaysInMonth(y: nat, m: nat): (d: nat)
    ensures 28 <= d <= 31
  {
    if m == 2 then (if IsLeap(y) then 29 else 28) else if m in {4, 6, 9, 11} then 30 else 31
  }

  function OffsetSeconds(z: Zone): int {
    match z
    case Zulu(_) => 0
    case Offset(east, h, m, _) => if east then 3600 * h + 60 * m else -(3600 * h + 60 * m)
  }

  /** What `datetime.fromisoformat` accepts: a real date and time, and an offset below a day. */
  predicate Valid(c: Civil) {
    && 1 <= c.year <= 9999 && 1 <= c.month <= 12 && 1 <= c.day <= DaysInMonth(c.year, c.month)
    && c.hour < 24 && c.minute < 60 && c.second < 60
    && -86400 < OffsetSeconds(c.zone) < 86400
  }

  /** What four, two and again two digits can hold. */
  predicate Writable(c: Civil) {
    && c.year < 10000 && c.month < 100 && c.day < 100 && c.hour < 100 && c.minute < 100 && c.second < 100
    && AllDigits(c.frac)
    && (c.zone.Offset? ==> c.zone.hours < 100 && c.zone.minutes < 100)
  }

  // ---------- The instant a civil time denotes ----------

  function DaysBeforeMonth(y: nat, m: nat): nat {
    if m <= 1 then 0 else DaysBeforeMonth(y, m - 1) + DaysInMonth(y, m - 1)
  }

  function LeapYearsBefore(y: nat): nat {
    if y <= 1 then 0 else LeapYearsBefore(y - 1) + (if IsLeap(y - 1) then 1 else 0)
  }

  /** The number of the day, 1 January of year 1 being day 1. */
  function Ordinal(y: nat, m: nat, d: nat): int
    requires y >= 1
  {
    365 * (y - 1) + LeapYearsBefore(y) + DaysBeforeMonth(y, m) + d
  }

  /** Following the calendar, one day is one step of the ordinal: over month ends, leap days and year ends. */
  lemma OrdinalCountsDays(y: nat, m: nat, d: nat)
    requires y >= 1 && 1 <= m <= 12 && 1 <= d <= DaysInMonth(y, m)
    ensures Ordinal(y, m, d) + 1 ==
            if d < DaysInMonth(y, m) then Ordinal(y, m, d + 1)
            else if m < 12 then Ordinal(y, m + 1, 1)
            else Ordinal(y + 1, 1, 1)
    ensures Ordinal(1, 1, 1) == 1
  {
    if d == DaysInMonth(y, m) && m == 12 {
      YearLength(y);
    }
  }

  lemma YearLength(y: nat)
    ensures DaysBeforeMonth(y, 12) + 31 == if IsLeap(y) then 366 else 365
  {
    assert DaysBeforeMonth(y, 2) == 31;
    assert DaysBeforeMonth(y, 4) == 62 + DaysInMonth(y, 2);
    assert DaysBeforeMonth(y, 6) == 123 + DaysInMonth(y, 2);
    assert DaysBeforeMonth(y, 8) == 184 + DaysInMonth(y, 2);
    assert DaysBeforeMonth(y, 10) == 245 + DaysInMonth(y, 2);
  }

  function WholeSeconds(c: Civil): int
    requires c.year >= 1
  {
    86400 * Ordinal(c.year, c.month, c.day) + 3600 * c.hour + 60 * c.minute + c.second - OffsetSeconds(c.zone)
  }

  /** The value of `0.digits`, exactly. */
  function Fraction(digits: string): real
    requires AllDigits(digits)
  {
    if digits == [] then 0.0 else (DigitValue(digits[0]) as real + Fraction(digits[1..])) / 10.0
  }

  /** The UTC instant, in seconds, exactly. */
  function Exact(c: Civil): real
    requires Writable(c) && c.year >= 1
  {
    WholeSeconds(c) as real + Fraction(c.frac)
  }

  /** A local time east of UTC is the earlier instant by the offset, and west of it the later one. */
  lemma ZoneShifts(c: Civil, east: bool, h: nat, m: nat, colon: bool)
    requires Writable(c) && c.year >= 1 && h < 100 && m < 100
    ensures var utc, local := c.(zone := Zulu(true)), c.(zone := Offset(east, h, m, colon));
            Exact(utc) - Exact(local) == if east then (3600 * h + 60 * m) as real else -((3600 * h + 60 * m) as real)
  {
  }

  /** The clock counts seconds from midnight, and midnight is the end of the day before. */
  lemma ClockCounts(c: Civil)
    requires Writable(c) && c.year >= 1
    ensures var midnight := c.(hour := 0, minute := 0, second := 0, frac := []);
            && Exact(c) - Exact(midnight) == (3600 * c.hour + 60 * c.minute + c.second) as real + Fraction(c.frac)
            && (c.hour == 23 && c.minute == 59 && c.second == 60 && c.frac == [] && c.zone.Zulu? ==>
                  Exact(c) == (86400 * (Ordinal(c.year, c.month, c.day) + 1)) as real)
  {
  }

  /** A stamp is usable exactly if it names a day of the calendar, a time of day, and an offset below a day. */
  lemma ValidIff(c: Civil)
    ensures Valid(c) <==>
            && 1 <= c.year <= 9999 && 1 <= c.month <= 12 && 1 <= c.day
            && c.day <= (if c.month in {4, 6, 9, 11} then 30
                         else if c.month != 2 then 31
                         else if c.year % 4 == 0 && (c.year % 100 != 0 || c.year % 400 == 0) then 29 else 28)
            && c.hour < 24 && c.minute < 60 && c.second < 60
            && (c.zone.Offset? ==> 3600 * c.zone.hours + 60 * c.zone.minutes < 86400)
  {
  }

  // ---------- Rendering ----------

  function Two(n: nat): (s: string)
    requires n < 100
    ensures |s| == 2
  {
    [DigitChar(n / 10), DigitChar(n % 10)]
  }

  function Base(c: Civil): (s: string)
    requires Writable(c)
    ensures |s| == 19
  {
    Two(c.year / 100) + Two(c.year % 100) + "-" + Two(c.month) + "-" + Two(c.day) + "T"
    + Two(c.hour) + ":" + Two(c.minute) + ":" + Two(c.second)
  }

  function ZoneText(z: Zone): string
    requires z.Offset? ==> z.hours < 100 && z.minutes < 100
  {
    match z
    case Zulu(upper) => if upper then "Z" else "z"
    case Offset(east, h, m, colon) => (if east then "+" else "-") + Two(h) + (if colon then ":" else "") + Two(m)
  }

  function Render(c: Civil): string
    requires Writable(c)
  {
    Base(c) + (if c.frac == [] then [] else "." + c.frac) + ZoneText(c.zone)
  }

  // ---------- Parsing ----------

  /** The value of the two digits at `i`. */
  function TwoAt(s: string, i: nat): Option<nat> {
    if i + 2 <= |s| && IsDigit(s[i]) && IsDigit(s[i + 1])
    then Some(10 * DigitValue(s[i]) + DigitValue(s[i + 1])) else None
  }

  function LeadingDigits(s: string): (r: string)
    ensures r <= s && AllDigits(r)
    ensures |r| < |s| ==> !IsDigit(s[|r|])
  {
    if s != [] && IsDigit(s[0]) then [s[0]] + LeadingDigits(s[1..]) else []
  }

  /** The `tz` group of the expression. */
  function ParseZone(s: string): Option<Zone> {
    if s == "Z" then Some(Zulu(true))
    else if s == "z" then Some(Zulu(false))
    else if (|s| == 5 || (|s| == 6 && s[3] == ':')) && s[0] in {'+', '-'} && TwoAt(s, 1).Some? && TwoAt(s, |s| - 2).Some?
    then Some(Offset(s[0] == '+', TwoAt(s, 1).value, TwoAt(s, |s| - 2).value, |s| == 6))
    else None
  }

  /** What follows the seconds: an optional fraction, then the zone, then nothing. */
  function ParseTail(s: string): Option<(string, Zone)>
    requires s != []
  {
    var frac := if s[0] == '.' then LeadingDigits(s[1..]) else [];
    if s[0] == '.' && frac == [] then None
    else
      var zone := ParseZone(if s[0] == '.' then s[1 + |frac|..] else s);
      if zone.None? then None else Some((frac, zone.value))
  }

  predicate BaseMatches(s: string)
    requires |s| >= 20
  {
    && s[4] == '-' && s[7] == '-' && s[10] == 'T' && s[13] == ':' && s[16] == ':'
    && TwoAt(s, 0).Some? && TwoAt(s, 2).Some? && TwoAt(s, 5).Some? && TwoAt(s, 8).Some?
    && TwoAt(s, 11).Some? && TwoAt(s, 14).Some? && TwoAt(s, 17).Some?
  }

  /** `_LOG_TIMESTAMP_RE`: date, time, an optional fraction, a zone, and nothing else. */
  function ParseStamp(s: string): Option<Civil> {
    if |s| < 20 || !BaseMatches(s) then None
    else
      var tail := ParseTail(s[19..]);
      if tail.None? then None
      else Some(Civil(100 * TwoAt(s, 0).value + TwoAt(s, 2).value, TwoAt(s, 5).value, TwoAt(s, 8).value,
                      TwoAt(s, 11).value, TwoAt(s, 14).value, TwoAt(s, 17).value, tail.value.0, tail.value.1))
  }

  /** `digits.ljust(k, "0")[:k]` */
  function LJust(digits: string, k: nat): (r: string)
    requires AllDigits(digits)
    ensures |r| == k && AllDigits(r)
  {
    if k <= |digits| then digits[..k] else digits + seq(k - |digits|, _ => '0')
  }

  /** `int(digits)` */
  function Number(digits: string): nat
    requires AllDigits(digits)
  {
    if digits == [] then 0 else 10 * Number(digits[..|digits| - 1]) + DigitValue(digits[|digits| - 1])
  }

  const MICROS: int := 1000000

  /** A line with a usable stamp carries its instant, in whole microseconds of UTC. */
  datatype Line = Line(ts: Option<int>, text: string)

  /** `line.partition(" ")[0]` */
  function Head(line: string): (h: string)
    ensures h <= line && ' ' !in h
    ensures |h| < |line| ==> line[|h|] == ' '
  {
    if line == [] || line[0] == ' ' then [] else [line[0]] + Head(line[1..])
  }

  /** `_split_log_timestamp` */
  function Split(line: string): Line {
    var head := Head(line);
    if |head| == |line| then Line(None, line)
    else
      var c := ParseStamp(head);
      if c.None? || !Valid(c.value) || !Writable(c.value) then Line(None, line)
      else Line(Some(MICROS * WholeSeconds(c.value) + Number(LJust(c.value.frac, 6))), line[|head| + 1..])
  }

  // ---------- Rounding ----------

  lemma {:induction false} FractionBounds(digits: string)
    requires AllDigits(digits)
    ensures 0.0 <= Fraction(digits) < 1.0
  {
    if digits != [] {
      FractionBounds(digits[1..]);
    }
  }

  /** `x` with the decimal point moved `k` places to the right. */
  function Shifted(x: real, k: nat): real {
    if k == 0 then x else 10.0 * Shifted(x, k - 1)
  }

  /** Cutting a fraction after `k` places leaves exactly the remaining digits over. */
  lemma {:induction false} CutOff(digits: string, k: nat)
    requires AllDigits(digits)
    ensures Shifted(Fraction(digits), k) ==
            Number(LJust(digits, k)) as real + Fraction(if k <= |digits| then digits[k..] else [])
  {
    if k > 0 {
      CutOff(digits, k - 1);
      var cut := LJust(digits, k);
      assert cut[..k - 1] == LJust(digits, k - 1);
      if k <= |digits| {
        assert digits[k - 1..][0] == digits[k - 1] == cut[k - 1] && digits[k - 1..][1..] == digits[k..];
      }
    } else {
      assert digits[0..] == digits && LJust(digits, 0) == [];
    }
  }

  lemma ShiftedBySix(x: real)
    ensures Shifted(x, 6) == x * 1000000.0
  {
    assert Shifted(x, 1) == 10.0 * x && Shifted(x, 2) == 100.0 * x;
    assert Shifted(x, 3) == 1000.0 * x && Shifted(x, 4) == 10000.0 * x;
    assert Shifted(x, 5) == 100000.0 * x;
  }

  lemma MicrosAreFloor(c: Civil)
    requires Writable(c) && c.year >= 1
    ensures MICROS * WholeSeconds(c) + Number(LJust(c.frac, 6)) == (Exact(c) * 1000000.0).Floor
  {
    CutOff(c.frac, 6);
    ShiftedBySix(Fraction(c.frac));
    FractionBounds(if 6 <= |c.frac| then c.frac[6..] else []);
    assert Exact(c) * 1000000.0 == WholeSeconds(c) as real * 1000000.0 + Fraction(c.frac) * 1000000.0;
  }

  // ---------- The parser and the renderer ----------

  lemma TwoAtRendered(s: string, i: nat, n: nat)
    requires i + 2 <= |s| && n < 100 && s[i..i + 2] == Two(n)
    ensures TwoAt(s, i) == Some(n)
  {
    assert s[i] == s[i..i + 2][0] && s[i + 1] == s[i..i + 2][1];
  }

  lemma ParseZoneRendered(z: Zone)
    requires z.Offset? ==> z.hours < 100 && z.minutes < 100
    ensures ParseZone(ZoneText(z)) == Some(z)
  {
    if z.Offset? {
      var s := ZoneText(z);
      assert s[1..3] == Two(z.hours) && s[|s| - 2..|s|] == Two(z.minutes);
      TwoAtRendered(s, 1, z.hours);
      TwoAtRendered(s, |s| - 2, z.minutes);
    }
  }

  lemma {:induction false} LeadingDigitsOf(digits: string, rest: string)
    requires AllDigits(digits) && (rest != [] ==> !IsDigit(rest[0]))
    ensures LeadingDigits(digits + rest) == digits
  {
    if digits != [] {
      assert (digits + rest)[1..] == digits[1..] + rest;
      LeadingDigitsOf(digits[1..], rest);
    } else {
      assert digits + rest == rest;
    }
  }

  /** A text that begins with two pieces begins with the first and has the second behind it. */
  lemma PieceAt(before: string, piece: string, s: string)
    requires before + piece <= s
    ensures before <= s && s[|before|..|before| + |piece|] == piece
    ensures piece != [] ==> s[|before|] == piece[0]
  {
    var front := before + piece;
    assert s[..|front|] == front;
    assert s[..|before|] == front[..|before|] == before;
    assert s[|before|..|front|] == front[|before|..] == piece;
  }

  lemma BaseParts(c: Civil)
    requires Writable(c)
    ensures var s := Base(c);
            && s[4] == '-' && s[7] == '-' && s[10] == 'T' && s[13] == ':' && s[16] == ':'
            && s[0..2] == Two(c.year / 100) && s[2..4] == Two(c.year % 100) && s[5..7] == Two(c.month)
            && s[8..10] == Two(c.day) && s[11..13] == Two(c.hour) && s[14..16] == Two(c.minute) && s[17..19] == Two(c.second)
  {
    var s := Base(c);
    var century := Two(c.year / 100);
    var year := century + Two(c.year % 100);
    var toMonth := year + "-";
    var month := toMonth + Two(c.month);
    var toDay := month + "-";
    var day := toDay + Two(c.day);
    var toHour := day + "T";
    var hour := toHour + Two(c.hour);
    var toMinute := hour + ":";
    var minute := toMinute + Two(c.minute);
    var toSecond := minute + ":";
    assert s == toSecond + Two(c.second);
    hide *;
    PieceAt(toSecond, Two(c.second), s);
    PieceAt(minute, ":", s);
    PieceAt(toMinute, Two(c.minute), s);
    PieceAt(hour, ":", s);
    PieceAt(toHour, Two(c.hour), s);
    PieceAt(day, "T", s);
    PieceAt(toDay, Two(c.day), s);
    PieceAt(month, "-", s);
    PieceAt(toMonth, Two(c.month), s);
    PieceAt(year, "-", s);
    PieceAt(century, Two(c.year % 100), s);
    PieceAt("", century, s);
  }

  lemma ParseBase(c: Civil, s: string)
    requires Writable(c) && |s| >= 20 && s[..19] == Base(c)
    ensures s[4] == '-' && s[7] == '-' && s[10] == 'T' && s[13] == ':' && s[16] == ':'
    ensures TwoAt(s, 0) == Some(c.year / 100) && TwoAt(s, 2) == Some(c.year % 100) && TwoAt(s, 5) == Some(c.month)
    ensures TwoAt(s, 8) == Some(c.day) && TwoAt(s, 11) == Some(c.hour) && TwoAt(s, 14) == Some(c.minute)
    ensures TwoAt(s, 17) == Some(c.second)
  {
    BaseParts(c);
    hide Base, Two;
    var b := s[..19];
    assert s[4] == b[4] && s[7] == b[7] && s[10] == b[10] && s[13] == b[13] && s[16] == b[16];
    assert s[0..2] == b[0..2] && s[2..4] == b[2..4] && s[5..7] == b[5..7] && s[8..10] == b[8..10];
    assert s[11..13] == b[11..13] && s[14..16] == b[14..16] && s[17..19] == b[17..19];
    TwoAtRendered(s, 0, c.year / 100);
    TwoAtRendered(s, 2, c.year % 100);
    TwoAtRendered(s, 5, c.month);
    TwoAtRendered(s, 8, c.day);
    TwoAtRendered(s, 11, c.hour);
    TwoAtRendered(s, 14, c.minute);
    TwoAtRendered(s, 17, c.second);
  }

  function TailText(frac: string, z: Zone): string
    requires z.Offset? ==> z.hours < 100 && z.minutes < 100
  {
    (if frac == [] then [] else "." + frac) + ZoneText(z)
  }

  lemma ParseTailRendered(frac: string, z: Zone)
    requires AllDigits(frac) && (z.Offset? ==> z.hours < 100 && z.minutes < 100)
    ensures ParseTail(TailText(frac, z)) == Some((frac, z))
  {
    var t, s := ZoneText(z), TailText(frac, z);
    assert !IsDigit(t[0]) && t[0] != '.';
    ParseZoneRendered(z);
    if frac == [] {
      assert s == t;
    } else {
      assert s[1..] == frac + t;
      LeadingDigitsOf(frac, t);
      assert s[1 + |frac|..] == t;
    }
  }

  lemma RenderSplits(c: Civil)
    requires Writable(c)
    ensures var s := Render(c); |s| >= 20 && s[..19] == Base(c) && s[19..] == TailText(c.frac, c.zone)
  {
    RenderParts(c);
    hide Render, Base;
    assert Render(c)[..19] == Base(c) && Render(c)[19..] == TailText(c.frac, c.zone);
  }

  /** Whatever is rendered parses back. */
  lemma ParseRendered(c: Civil)
    requires Writable(c)
    ensures ParseStamp(Render(c)) == Some(c)
  {
    hide Render, TailText, Base, TwoAt, ParseTail, AllDigits, IsDigit;
    RenderSplits(c);
    ParseBase(c, Render(c));
    ParseTailRendered(c.frac, c.zone);
    assert 100 * (c.year / 100) + c.year % 100 == c.year;
  }

  lemma TwoAtRenders(s: string, i: nat)
    requires TwoAt(s, i).Some?
    ensures TwoAt(s, i).value < 100 && s[i..i + 2] == Two(TwoAt(s, i).value)
  {
    var n := TwoAt(s, i).value;
    assert n / 10 == DigitValue(s[i]) && n % 10 == DigitValue(s[i + 1]);
  }

  lemma ParseZoneRenders(s: string)
    requires ParseZone(s).Some?
    ensures ParseZone(s).value.Offset? ==> ParseZone(s).value.hours < 100 && ParseZone(s).value.minutes < 100
    ensures ZoneText(ParseZone(s).value) == s
  {
    if ParseZone(s).value.Offset? {
      TwoAtRenders(s, 1);
      TwoAtRenders(s, |s| - 2);
      assert s == s[..1] + s[1..3] + s[3..|s| - 2] + s[|s| - 2..];
    }
  }

  lemma BaseOf(c: Civil, s: string)
    requires Writable(c) && |s| >= 20
    requires s[4] == '-' && s[7] == '-' && s[10] == 'T' && s[13] == ':' && s[16] == ':'
    requires s[0..2] == Two(c.year / 100) && s[2..4] == Two(c.year % 100) && s[5..7] == Two(c.month)
    requires s[8..10] == Two(c.day) && s[11..13] == Two(c.hour) && s[14..16] == Two(c.minute) && s[17..19] == Two(c.second)
    ensures s[..19] == Base(c)
  {
    assert s[..19] == s[0..2] + s[2..4] + [s[4]] + s[5..7] + [s[7]] + s[8..10] + [s[10]]
                      + s[11..13] + [s[13]] + s[14..16] + [s[16]] + s[17..19];
  }

  lemma ParseTailRenders(s: string)
    requires s != [] && ParseTail(s).Some?
    ensures var (frac, z) := ParseTail(s).value;
            AllDigits(frac) && (z.Offset? ==> z.hours < 100 && z.minutes < 100) && TailText(frac, z) == s
  {
    hide ParseZone, ZoneText, LeadingDigits;
    var (frac, z) := ParseTail(s).value;
    if s[0] == '.' {
      var rest := s[1 + |frac|..];
      ParseZoneRenders(rest);
      FracAndRest(s, frac);
    } else {
      ParseZoneRenders(s);
    }
  }

  lemma FracAndRest(s: string, frac: string)
    requires s != [] && s[0] == '.' && frac <= s[1..]
    ensures s == "." + frac + s[1 + |frac|..]
  {
  }

  lemma ParseBaseRenders(s: string, c: Civil)
    requires |s| >= 20 && BaseMatches(s) && Writable(c)
    requires c.year == 100 * TwoAt(s, 0).value + TwoAt(s, 2).value
    requires c.month == TwoAt(s, 5).value && c.day == TwoAt(s, 8).value && c.hour == TwoAt(s, 11).value
    requires c.minute == TwoAt(s, 14).value && c.second == TwoAt(s, 17).value
    ensures s[..19] == Base(c)
  {
    TwoAtRenders(s, 0);
    TwoAtRenders(s, 2);
    TwoAtRenders(s, 5);
    TwoAtRenders(s, 8);
    TwoAtRenders(s, 11);
    TwoAtRenders(s, 14);
    TwoAtRenders(s, 17);
    assert c.year / 100 == TwoAt(s, 0).value && c.year % 100 == TwoAt(s, 2).value;
    BaseOf(c, s);
  }

  /** Whatever parses is a rendering. */
  lemma ParsedIsRendering(s: string)
    requires ParseStamp(s).Some?
    ensures Writable(ParseStamp(s).value) && Render(ParseStamp(s).value) == s
  {
    var c := ParseStamp(s).value;
    hide ParseTail, TwoAt, TailText, Base, ZoneText, BaseMatches, Two, LeadingDigits, ParseZone, AllDigits;
    ParseTailRenders(s[19..]);
    ParseBaseRenders(s, c);
    assert s == s[..19] + s[19..];
    RenderParts(c);
    hide Render;
  }

  lemma RenderParts(c: Civil)
    requires Writable(c)
    ensures Render(c) == Base(c) + TailText(c.frac, c.zone)
  {
    hide Base, ZoneText;
  }

  lemma HeadOf(s: string, rest: string)
    requires ' ' !in s && rest != [] && rest[0] == ' '
    ensures Head(s + rest) == s
  {
    assert (s + rest)[|s|] == ' ';
  }

  lemma RenderHasNoSpace(c: Civil)
    requires Writable(c)
    ensures ' ' !in Render(c)
  {
    forall i | 0 <= i < |c.frac| ensures c.frac[i] != ' ' {
    }
    assert ' ' !in Base(c) && ' ' !in ZoneText(c.zone);
  }

  /** A stamped line reads as its instant rounded down to the microsecond, whatever its precision and zone. */
  lemma StampedLineParses(c: Civil, text: string)
    requires Writable(c) && Valid(c)
    ensures Split(Render(c) + " " + text) == Line(Some((Exact(c) * 1000000.0).Floor), text)
  {
    hide Render, ParseStamp, LJust, Number, Exact;
    var line := Render(c) + " " + text;
    assert line == Render(c) + (" " + text);
    RenderHasNoSpace(c);
    HeadOf(Render(c), " " + text);
    ParseRendered(c);
    MicrosAreFloor(c);
    assert line[|Render(c)| + 1..] == text;
  }

  /** Nothing else reads as stamped, and an unstamped line is passed through whole. */
  lemma ParsedLineIsStamped(line: string)
    ensures var r := Split(line);
            if r.ts.Some?
            then exists c :: Writable(c) && Valid(c) && line == Render(c) + " " + r.text
                             && r.ts.value == (Exact(c) * 1000000.0).Floor
            else r.text == line
  {
    hide Render, ParseStamp, LJust, Number, Exact;
    var r := Split(line);
    if r.ts.Some? {
      var head := Head(line);
      ParsedIsRendering(head);
      var c := ParseStamp(head).value;
      MicrosAreFloor(c);
      assert line == head + [line[|head|]] + line[|head| + 1..];
      assert Writable(c) && Valid(c) && line == Render(c) + " " + r.text;
    }
  }

  /** Comparing parsed stamps never reverses the order of the instants. */
  lemma OrderIsKept(a: Civil, b: Civil, x: string, y: string)
    requires Writable(a) && Valid(a) && Writable(b) && Valid(b)
    ensures Split(Render(a) + " " + x).ts.Some? && Split(Render(b) + " " + y).ts.Some?
    ensures Split(Render(a) + " " + x).ts.value < Split(Render(b) + " " + y).ts.value ==> Exact(a) < Exact(b)
    ensures Exact(a) == Exact(b) ==> Split(Render(a) + " " + x).ts == Split(Render(b) + " " + y).ts
  {
    hide Split;
    StampedLineParses(a, x);
    StampedLineParses(b, y);
  }

  lemma HeadOfPrefix(line: string, b: string)
    requires b <= line && ' ' in b
    ensures Head(b) == Head(line) && |Head(b)| < |b|
  {
    var h := Head(line);
    var j :| 0 <= j < |b| && b[j] == ' ';
    assert line[j] == ' ' && |h| <= j;
    assert b[..|h|] == line[..|h|] == h && b[|h|] == line[|h|];
    assert b == h + b[|h|..];
    HeadOf(h, b[|h|..]);
  }

  lemma PrefixBehind(line: string, b: string, n: nat)
    requires b <= line && n <= |b|
    ensures b[n..] <= line[n..]
  {
  }

  /** Cutting a stamped line after its first space keeps the stamp and a beginning of the text. */
  lemma TextOfPrefix(line: string, b: string)
    requires Split(line).ts.Some? && b <= line && ' ' in b
    ensures |Head(line)| < |b| && Split(b) == Line(Split(line).ts, b[|Head(line)| + 1..])
  {
    hide ParseStamp, LJust, Number, WholeSeconds, Head, Valid, Writable;
    HeadOfPrefix(line, b);
  }

  /** A stamped line starts with a digit. */
  lemma StampedStartsWithDigit(line: string)
    requires Split(line).ts.Some?
    ensures line != [] && IsDigit(line[0])
  {
    var h := Head(line);
    hide ParseTail, LJust, Number, WholeSeconds;
    assert ParseStamp(h).Some? && h[0] == line[0];
  }

  /** Without a space there is nothing to split. */
  lemma NoSpaceIsUnstamped(s: string)
    requires ' ' !in s
    ensures Split(s) == Line(None, s)
  {
  }
}
