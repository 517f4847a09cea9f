/**
 * The pomodoro timer's text helpers: `formatTime`, which renders a number of
 * seconds as MM:SS, and `getMaxTime`, the full length in seconds of the
 * period the timer is in.
 */
module Pomodoro {
  import opened Wrappers
  import opened Numerals
  import opened Text

  /** PomodoroStatus. */
  datatype Status = Idle | Work | Break | LongBreak

  /** PomodoroSettings; the durations are in minutes. */
  datatype Settings = Settings(
    workDuration: int,
    breakDuration: int,
    longBreakDuration: int,
    sessionsBeforeLongBreak: int)

  /**
   * JavaScript's `%`: the remainder of truncating division, which takes the
   * sign of the dividend: `a - r` is a multiple of `b`, and `r` lies in
   * [0, b) for a non-negative dividend and in (-b, 0] for a negative one.
   */
  function JsRem(a: int, b: int): (r: int)
    requires b > 0
    ensures a >= 0 ==> r == a % b
    ensures a < 0 ==> -b < r <= 0
    ensures exists k :: a - r == k * b
  {
    if a >= 0 then
      assert a - a % b == (a / b) * b;
      a % b
    else
      assert a + (-a) % b == -((-a) / b) * b;
      -((-a) % b)
  }

  /** One field of the display: the number in decimal, zero-padded to two characters. */
  function Field(n: int): string {
    PadStart(IntToString(n), 2, '0')
  }

  /**
   * formatTime: Math.floor(seconds / 60) and seconds % 60, each as a
   * field, joined by ':'. Dafny's `/` by a positive divisor already rounds
   * down, as Math.floor does.
   */
  function FormatTime(seconds: int): string {
    Field(seconds / 60) + ":" + Field(JsRem(seconds, 60))
  }

  /**
   * Reads an "MM:SS" display back into seconds, MM * 60 + SS: the last two
   * characters are the seconds, the ':' sits just before them, and the
   * minutes are the digits in front.
   */
  function ReadTime(t: string): Option<nat> {
    if |t| >= 4 && t[|t| - 3] == ':' && IsDigits(t[..|t| - 3]) && IsDigits(t[|t| - 2..])
    then Some(ParseNat(t[..|t| - 3]) * 60 + ParseNat(t[|t| - 2..]))
    else None
  }

  /** A field of a non-negative number is at least two digits and reads back as the number. */
  lemma {:induction false} FieldDigits(n: nat)
    ensures IsDigits(Field(n)) && |Field(n)| >= 2 && ParseNat(Field(n)) == n
    ensures n < 100 ==> |Field(n)| == 2
  {
    NatToStringLength(n);
    ParsePadded(n, 2);
  }

  /** For a non-negative count the fields are those of seconds / 60 and seconds % 60. */
  lemma {:induction false} FormatTimeFields(seconds: nat)
    ensures FormatTime(seconds) == Field(seconds / 60) + ":" + Field(seconds % 60)
    ensures seconds / 60 >= 0 && seconds % 60 < 60
  {
    assert JsRem(seconds, 60) == seconds % 60;
  }

  /**
   * `r` reads as a clock: a minutes field of at least two digits worth
   * `minutes`, a ':', and a seconds field of exactly two digits worth `secs`.
   */
  predicate IsClock(r: string, minutes: nat, secs: nat) {
    && |r| >= 5 && r[|r| - 3] == ':'
    && IsDigits(r[..|r| - 3]) && ParseNat(r[..|r| - 3]) == minutes
    && IsDigits(r[|r| - 2..]) && ParseNat(r[|r| - 2..]) == secs
  }

  /**
   * For a non-negative count the display is a clock of seconds / 60 minutes
   * and seconds % 60 seconds, so its seconds field is 00 to 59. Below 100
   * minutes it is exactly five characters with the ':' at index 2.
   */
  lemma {:induction false} FormatTimeShape(seconds: nat)
    ensures IsClock(FormatTime(seconds), seconds / 60, seconds % 60)
    ensures seconds % 60 < 60
    ensures seconds < 6000 ==> |FormatTime(seconds)| == 5 && FormatTime(seconds)[2] == ':'
  {
    FormatTimeFields(seconds);
    FieldsClock(seconds / 60, seconds % 60);
  }

  /** Two fields joined by ':', the second below 100, form a clock; below 100 minutes it has five characters. */
  lemma {:induction false} FieldsClock(m: nat, s: nat)
    requires s < 100
    ensures IsClock(Field(m) + ":" + Field(s), m, s)
    ensures m < 100 ==> |Field(m) + ":" + Field(s)| == 5 && (Field(m) + ":" + Field(s))[2] == ':'
  {
    FieldDigits(m);
    FieldDigits(s);
    JoinedFields(Field(m), Field(s));
  }

  /** Where the two fields sit in "MM:SS" when the seconds field has two characters. */
  lemma {:induction false} JoinedFields(mm: string, ss: string)
    requires |ss| == 2
    ensures var r := mm + ":" + ss;
      |r| == |mm| + 3 && r[|r| - 3] == ':' && r[..|r| - 3] == mm && r[|r| - 2..] == ss
  {
  }

  /** A clock of seconds / 60 minutes and seconds % 60 seconds reads back as `seconds`. */
  lemma {:induction false} ReadClock(r: string, seconds: nat)
    requires IsClock(r, seconds / 60, seconds % 60)
    ensures ReadTime(r) == Some(seconds)
  {
  }

  /** Round trip: reading the display of a non-negative count gives the count back. */
  lemma {:induction false} FormatTimeRoundTrip(seconds: nat)
    ensures ReadTime(FormatTime(seconds)) == Some(seconds)
  {
    FormatTimeShape(seconds);
    ReadClock(FormatTime(seconds), seconds);
  }

  /** A negative count (not produced by the timer) shows a minus sign in front of the minutes. */
  lemma {:induction false} FormatTimeNegative(seconds: int)
    requires seconds < 0
    ensures FormatTime(seconds)[0] == '-'
  {
    assert IntToString(seconds / 60)[0] == '-';
  }

  /**
   * getMaxTime: the length in seconds of the current period, 60 times the
   * period's duration in minutes; the idle status falls back to the work
   * duration.
   */
  function GetMaxTime(status: Status, settings: Settings): (seconds: int)
    ensures seconds % 60 == 0
    ensures status == Break ==> seconds / 60 == settings.breakDuration
    ensures status == LongBreak ==> seconds / 60 == settings.longBreakDuration
    ensures status == Work || status == Idle ==> seconds / 60 == settings.workDuration
  {
    match status
    case Work => settings.workDuration * 60
    case Break => settings.breakDuration * 60
    case LongBreak => settings.longBreakDuration * 60
    case _ => settings.workDuration * 60
  }

  /**
   * A full period shows its duration in minutes and "00" seconds: the
   * display of GetMaxTime is a clock of GetMaxTime / 60 minutes whose
   * seconds field is "00".
   */
  lemma {:induction false} MaxTimeDisplay(status: Status, settings: Settings)
    requires GetMaxTime(status, settings) >= 0
    ensures IsClock(FormatTime(GetMaxTime(status, settings)), GetMaxTime(status, settings) / 60, 0)
    ensures var r := FormatTime(GetMaxTime(status, settings)); r[|r| - 2..] == "00"
  {
    var seconds := GetMaxTime(status, settings);
    FormatTimeShape(seconds);
    FormatTimeFields(seconds);
    assert Field(0) == "00";
    JoinedFields(Field(seconds / 60), Field(0));
  }
}
