/** The time display: each field written in decimal and padded to two
    characters, and the start/pause/reset buttons. */
module TimeModule {

  function DigitChar(d: nat): char
    requires d < 10
  {
    "0123456789"[d]
  }

  predicate IsDigit(c: char) {
    '0' <= c <= '9'
  }

  /** `value.toString()` for a non-negative integer: its decimal digits,
      most significant first, without leading zeros. */
  function NatToString(value: nat): (s: string)
    ensures |s| >= 1 && forall i :: 0 <= i < |s| ==> IsDigit(s[i])
    ensures value >= 10 ==> s[0] != '0'
  {
    if value < 10 then [DigitChar(value)]
    else NatToString(value / 10) + [DigitChar(value % 10)]
  }

  /** `s.padStart(n, c)` with a one-character fill: `s` preceded by as many
      copies of `c` as it lacks to reach length `n`. */
  function PadStart(s: string, targetLength: nat, fill: char): (r: string)
    ensures |r| == if |s| < targetLength then targetLength else |s|
    ensures r[|r| - |s|..] == s
    ensures forall i :: 0 <= i < |r| - |s| ==> r[i] == fill
  {
    if |s| < targetLength then seq(targetLength - |s|, _ => fill) + s else s
  }

  /** A clock field: `value.toString().padStart(2, '0')`, at least two
      characters, all of them digits. */
  function FormatTime(value: nat): (r: string)
    ensures |r| >= 2 && forall i :: 0 <= i < |r| ==> IsDigit(r[i])
  {
    PadStart(NatToString(value), 2, '0')
  }

  /** Reading a string of digits as a decimal number. */
  function ParseDecimal(s: string): int {
    if s == [] then 0
    else ParseDecimal(s[..|s| - 1]) * 10 + (s[|s| - 1] as int - '0' as int)
  }

  lemma {:induction false} ParseNatToString(value: nat)
    ensures ParseDecimal(NatToString(value)) == value
    decreases value
  {
    if value >= 10 {
      var s := NatToString(value);
      ParseNatToString(value / 10);
      assert s[..|s| - 1] == NatToString(value / 10);
    }
  }

  /** A leading zero does not change the number read. */
  lemma {:induction false} ParseLeadingZero(s: string)
    ensures ParseDecimal(['0'] + s) == ParseDecimal(s)
    decreases |s|
  {
    if s != [] {
      var t := ['0'] + s;
      assert t[..|t| - 1] == ['0'] + s[..|s| - 1];
      ParseLeadingZero(s[..|s| - 1]);
    }
  }

  /** The decimal string has one digit below 10, two from 10 to 99, and at
      least two from 10 on. */
  lemma {:induction false} NatToStringLength(value: nat)
    ensures |NatToString(value)| == 1 <==> value < 10
    ensures 10 <= value < 100 ==> |NatToString(value)| == 2
    decreases value
  {
    if value >= 10 {
      NatToStringLength(value / 10);
    }
  }

  /** 0..9 get one leading '0'; from 10 on the plain digits are shown; the
      field is never shorter than two and is exactly two below 100. */
  lemma FormatTimeShape(value: nat)
    ensures value < 10 ==> FormatTime(value) == ['0', DigitChar(value)]
    ensures value >= 10 ==> FormatTime(value) == NatToString(value)
    ensures |FormatTime(value)| >= 2
    ensures value < 100 ==> |FormatTime(value)| == 2
  {
  }

  /** Reading a formatted field back gives the value. */
  lemma FormatTimeRoundTrip(value: nat)
    ensures ParseDecimal(FormatTime(value)) == value
  {
    ParseNatToString(value);
    FormatTimeShape(value);
    if value < 10 {
      ParseLeadingZero(NatToString(value));
      assert FormatTime(value) == ['0'] + NatToString(value);
    }
  }

  /** The `HH:MM:SS` display: three fields of at least two characters each
      and the two colons between them. */
  function TimeDisplay(hours: nat, minutes: nat, seconds: nat): (r: string)
    ensures |r| == |FormatTime(hours)| + |FormatTime(minutes)| + |FormatTime(seconds)| + 2
    ensures |r| >= 8
  {
    FormatTime(hours) + ":" + FormatTime(minutes) + ":" + FormatTime(seconds)
  }

  /** Where the fields sit in `a ":" b ":" c` when `b` and `c` have two
      characters. */
  lemma ColonSeparatedFields(a: string, b: string, c: string)
    requires |b| == 2 && |c| == 2
    ensures var d, n := a + ":" + b + ":" + c, |a|;
      && |d| == n + 6
      && d[..n] == a && d[n] == ':' && d[n + 3] == ':'
      && d[n + 1..n + 3] == b && d[n + 4..] == c
  {
  }

  /** With carried minutes and seconds, the display is the hours field
      followed by ":MM:SS", where MM and SS are the two-character fields of
      the minutes and the seconds. */
  lemma TimeDisplayFields(hours: nat, minutes: nat, seconds: nat)
    requires minutes < 60 && seconds < 60
    ensures var d, n := TimeDisplay(hours, minutes, seconds), |FormatTime(hours)|;
      && |d| == n + 6
      && d[..n] == FormatTime(hours) && d[n] == ':' && d[n + 3] == ':'
      && d[n + 1..n + 3] == FormatTime(minutes) && |FormatTime(minutes)| == 2
      && d[n + 4..] == FormatTime(seconds) && |FormatTime(seconds)| == 2
  {
    var h, m, s := FormatTime(hours), FormatTime(minutes), FormatTime(seconds);
    FieldOfTwo(minutes);
    FieldOfTwo(seconds);
    ColonSeparatedFields(h, m, s);
    TimeDisplayIsConcatenation(hours, minutes, seconds, h + ":" + m + ":" + s);
  }

  /** A field below 100 is exactly two characters. */
  lemma FieldOfTwo(value: nat)
    requires value < 100
    ensures |FormatTime(value)| == 2
  {
    FormatTimeShape(value);
  }

  lemma TimeDisplayIsConcatenation(hours: nat, minutes: nat, seconds: nat, d: string)
    requires d == FormatTime(hours) + ":" + FormatTime(minutes) + ":" + FormatTime(seconds)
    ensures TimeDisplay(hours, minutes, seconds) == d
  {
  }

  datatype Button = StartButton | PauseButton | ResetButton

  /** The control row: pause while running, start otherwise, and always
      reset after it. */
  function ControlButtons(isRunning: bool): (buttons: seq<Button>)
    ensures |buttons| == 2 && buttons[1] == ResetButton
    ensures buttons[0] == PauseButton <==> isRunning
    ensures buttons[0] == StartButton <==> !isRunning
  {
    [if isRunning then PauseButton else StartButton, ResetButton]
  }
}
