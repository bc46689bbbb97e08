/** The landing page's "Ends in" countdown: the once-a-second tick of the
    `timeLeft` state and the `HH:MM:SS` text it is shown as. */
module LandingCountdown {

  /** The remaining time, as the page stores it. */
  datatype Clock = Clock(hours: int, minutes: int, seconds: int)

  /** The countdown's starting value, 14:22:31. */
  const InitialClock := Clock(14, 22, 31)

  /** A clock whose minutes and seconds are clock digits and whose hours are
      not negative. */
  predicate WellFormed(c: Clock)
  {
    c.hours >= 0 && 0 <= c.minutes <= 59 && 0 <= c.seconds <= 59
  }

  /** The seconds a well-formed clock stands for. */
  function TotalSeconds(c: Clock): int
  {
    c.hours * 3600 + c.minutes * 60 + c.seconds
  }

  /** One tick: take a second, borrow from the minutes and then the hours
      when a field goes below zero, and clamp the hours at zero. The clamp
      only touches the hours, so 00:00:00 wraps round to 00:59:59 instead of
      stopping. */
  function Tick(c: Clock): (r: Clock)
    ensures r.hours >= 0
    ensures WellFormed(c) ==> WellFormed(r)
    ensures WellFormed(c) && c.seconds > 0 ==> r == c.(seconds := c.seconds - 1)
    ensures WellFormed(c) && c.seconds == 0 && c.minutes > 0 ==>
      r == c.(minutes := c.minutes - 1, seconds := 59)
    ensures WellFormed(c) && c.seconds == 0 && c.minutes == 0 && c.hours > 0 ==>
      r == Clock(c.hours - 1, 59, 59)
    ensures c == Clock(0, 0, 0) ==> r == Clock(0, 59, 59)
  {
    var s := c.seconds - 1;
    var (m, s) := if s < 0 then (c.minutes - 1, 59) else (c.minutes, s);
    var (h, m) := if m < 0 then (c.hours - 1, 59) else (c.hours, m);
    var h := if h < 0 then 0 else h;
    Clock(h, m, s)
  }

  /** A tick takes exactly one second off a clock that has not run out, and
      winds a clock that has run out back to one hour minus a second. */
  lemma TickCountsDown(c: Clock)
    requires WellFormed(c)
    ensures TotalSeconds(c) > 0 ==> TotalSeconds(Tick(c)) == TotalSeconds(c) - 1
    ensures TotalSeconds(c) == 0 ==> TotalSeconds(Tick(c)) == 3599
  {
  }

  /** The clock after `n` ticks. */
  function Ticks(c: Clock, n: nat): Clock
    decreases n
  {
    if n == 0 then c else Ticks(Tick(c), n - 1)
  }

  /** Counting down is exact: after `n` ticks, no more than the time left,
      the clock shows `n` seconds less. */
  lemma {:induction false} TicksCountDown(c: Clock, n: nat)
    requires WellFormed(c) && n <= TotalSeconds(c)
    ensures WellFormed(Ticks(c, n))
    ensures TotalSeconds(Ticks(c, n)) == TotalSeconds(c) - n
    decreases n
  {
    if n > 0 {
      TickCountsDown(c);
      TicksCountDown(Tick(c), n - 1);
    }
  }

  /** A well-formed clock is determined by the seconds it stands for. */
  lemma ClockOfSeconds(c: Clock)
    requires WellFormed(c)
    ensures TotalSeconds(c) == 0 ==> c == Clock(0, 0, 0)
  {
  }

  /** From 14:22:31 the countdown reaches 00:00:00 after 51751 ticks and then
      wraps to 00:59:59 instead of stopping. */
  lemma InitialCountdownWraps()
    ensures Ticks(InitialClock, 51751) == Clock(0, 0, 0)
    ensures Tick(Ticks(InitialClock, 51751)) == Clock(0, 59, 59)
  {
    TicksCountDown(InitialClock, 51751);
    ClockOfSeconds(Ticks(InitialClock, 51751));
  }

  /** The decimal digits of a natural number, without leading zeros. */
  function Digits(n: nat): (s: string)
    ensures |s| >= 1
    ensures forall i | 0 <= i < |s| :: '0' <= s[i] <= '9'
    decreases n
  {
    if n < 10 then [DigitChar(n)] else Digits(n / 10) + [DigitChar(n % 10)]
  }

  function DigitChar(d: nat): char
    requires d < 10
  {
    ('0' as int + d) as char
  }

  /** JavaScript's `String(n)` for an integer. */
  function NumberText(n: int): string
  {
    if n < 0 then "-" + Digits(-n) else Digits(n)
  }

  /** `padStart(2, '0')`: left-pads with zeros to two characters and leaves
      longer strings alone. */
  function PadStart2(s: string): (r: string)
    ensures |r| == if |s| >= 2 then |s| else 2
    ensures r[|r| - |s|..] == s
    ensures forall i | 0 <= i < |r| - |s| :: r[i] == '0'
  {
    if |s| >= 2 then s else seq(2 - |s|, _ => '0') + s
  }

  /** One field of the countdown text. */
  function Field(n: int): string
  {
    PadStart2(NumberText(n))
  }

  /** The countdown text `HH:MM:SS`. */
  function Display(c: Clock): (r: string)
    ensures |r| >= 8
  {
    Field(c.hours) + ":" + Field(c.minutes) + ":" + Field(c.seconds)
  }

  /** The number a string of decimal digits stands for, read left to
      right. */
  function Value(s: string): int
  {
    if s == [] then 0 else Value(s[..|s| - 1]) * 10 + (s[|s| - 1] as int - '0' as int)
  }

  /** Reading the digits back gives the number. */
  lemma {:induction false} DigitsValue(n: nat)
    ensures Value(Digits(n)) == n
    decreases n
  {
    if n >= 10 {
      DigitsValue(n / 10);
      var s := Digits(n / 10) + [DigitChar(n % 10)];
      assert s[..|s| - 1] == Digits(n / 10);
    }
  }

  /** Leading zeros do not change the value. */
  lemma {:induction false} LeadingZeroValue(s: string)
    ensures Value("0" + s) == Value(s)
    decreases |s|
  {
    if s != [] {
      var t := "0" + s;
      assert t[..|t| - 1] == "0" + s[..|s| - 1];
      LeadingZeroValue(s[..|s| - 1]);
    }
  }

  /** Each field of a well-formed clock is at least two digits and reads
      back as the number shown; minutes and seconds take exactly two. */
  lemma FieldReadsBack(n: int)
    requires n >= 0
    ensures |Field(n)| >= 2
    ensures forall i | 0 <= i < |Field(n)| :: '0' <= Field(n)[i] <= '9'
    ensures Value(Field(n)) == n
    ensures n <= 99 ==> |Field(n)| == 2
  {
    DigitsValue(n);
    if n < 10 {
      assert Field(n) == "0" + Digits(n);
      LeadingZeroValue(Digits(n));
    }
  }

  /** Slicing three two-character fields joined by colons back apart. */
  lemma SplitFields(h: string, m: string, s: string)
    requires |h| == 2 && |m| == 2 && |s| == 2
    ensures var d := h + ":" + m + ":" + s;
      |d| == 8 && d[2] == ':' && d[5] == ':' && d[..2] == h && d[3..5] == m && d[6..] == s
  {
    var d := h + ":" + m + ":" + s;
    assert d[..2] == h;
    assert d[3..5] == m;
    assert d[6..] == s;
  }

  /** The countdown text of a well-formed clock with fewer than a hundred
      hours is eight characters, with the colons in place, and each field
      reads back as the clock's value. */
  lemma DisplayShape(c: Clock)
    requires WellFormed(c) && c.hours <= 99
    ensures |Display(c)| == 8 && Display(c)[2] == ':' && Display(c)[5] == ':'
    ensures Value(Display(c)[..2]) == c.hours
    ensures Value(Display(c)[3..5]) == c.minutes
    ensures Value(Display(c)[6..]) == c.seconds
  {
    var h := Field(c.hours);
    var m := Field(c.minutes);
    var s := Field(c.seconds);
    FieldReadsBack(c.hours);
    FieldReadsBack(c.minutes);
    FieldReadsBack(c.seconds);
    var d := Display(c);
    assert d == h + ":" + m + ":" + s;
    SplitFields(h, m, s);
    assert d[..2] == h && d[3..5] == m && d[6..] == s;
  }
}
