/** The command-line tool's ConsoleProgressBar: a clamped progress value, a
    fixed-width bar of '=' and '>' and spaces, a percentage, and "m:ss"
    durations. Durations are whole milliseconds; what the bar prints is
    recorded as the sequence of strings handed to the console. */
module ProgressBar {
  import opened Common
  import opened Text

  /** The progress of `current` through `total`: the ratio clamped to [0, 1],
      and 0 for an empty total. */
  function Progress(current: nat, total: nat): (p: real)
    ensures 0.0 <= p <= 1.0
    ensures total == 0 ==> p == 0.0
    ensures total > 0 && current <= total ==> p * total as real == current as real
    ensures total > 0 && current >= total ==> p == 1.0
  {
    if total > 0 then MinReal(1.0, MaxReal(0.0, current as real / total as real)) else 0.0
  }

  /** `(int) (barWidth * progress)`. */
  function FilledWidth(barWidth: int, progress: real): int
  {
    TruncToInt(barWidth as real * progress)
  }

  /** For a non-negative width the filled part never leaves [0, width], is
      empty at progress 0 and full at progress 1. */
  lemma FilledInRange(barWidth: int, progress: real)
    requires barWidth >= 0 && 0.0 <= progress <= 1.0
    ensures 0 <= FilledWidth(barWidth, progress) <= barWidth
    ensures progress == 0.0 ==> FilledWidth(barWidth, progress) == 0
    ensures progress == 1.0 ==> FilledWidth(barWidth, progress) == barWidth
  {
    assert barWidth as real * progress <= barWidth as real * 1.0;
  }

  /** The text between the brackets: `filled` '=' characters, a '>' when the
      bar is not full, and spaces up to the width. */
  function BarText(barWidth: int, filled: int): string
  {
    Repeat('=', filled) + (if filled < barWidth then ">" else "") + Repeat(' ', barWidth - filled - 1)
  }

  /** With 0 <= filled <= width the bar is exactly `width` characters wide,
      starts with `filled` '=' characters, and holds a '>' exactly when it is
      not full, right after the '=' characters. */
  lemma BarTextShape(barWidth: int, filled: int)
    requires 0 <= filled <= barWidth
    ensures |BarText(barWidth, filled)| == barWidth
    ensures forall i :: 0 <= i < filled ==> BarText(barWidth, filled)[i] == '='
    ensures '>' in BarText(barWidth, filled) <==> filled < barWidth
    ensures filled < barWidth ==> BarText(barWidth, filled)[filled] == '>'
    ensures forall i :: filled < i < barWidth ==> BarText(barWidth, filled)[i] == ' '
  {
    var t := BarText(barWidth, filled);
    if '>' in t {
      var i :| 0 <= i < |t| && t[i] == '>';
      assert filled < barWidth;
    }
  }

  /** Once the time reaches a non-empty total, the bar is all '=' and the percentage is 100. */
  lemma CompleteSongFillsBar(total: nat, barWidth: int, current: nat)
    requires total > 0 && current >= total && barWidth >= 0
    ensures BarText(barWidth, FilledWidth(barWidth, Progress(current, total))) == Repeat('=', barWidth)
    ensures RoundHalfUp(Progress(current, total) * 100.0) == 100
  {
    FilledInRange(barWidth, Progress(current, total));
  }

  /** `%.0f` of a non-negative value: rounded half up. */
  function RoundHalfUp(x: real): (n: nat)
    requires x >= 0.0
    ensures n as real - 0.5 <= x < n as real + 0.5
  {
    (x + 0.5).Floor
  }

  /** `%3.0f`: the rounded value, right-aligned in three characters. */
  function PercentText(progress: real): string
    requires 0.0 <= progress
  {
    var digits := Decimal(RoundHalfUp(progress * 100.0));
    Repeat(' ', 3 - |digits|) + digits
  }

  /** A progress in [0, 1] prints as exactly three characters naming its rounded percentage. */
  lemma PercentTextShape(progress: real)
    requires 0.0 <= progress <= 1.0
    ensures |PercentText(progress)| == 3
    ensures RoundHalfUp(progress * 100.0) <= 100
  {
    DecimalShort(RoundHalfUp(progress * 100.0));
  }

  /** formatDuration: whole minutes, then the seconds left over, as "%d:%02d". */
  function FormatDuration(millis: nat): string
  {
    MinSec(millis / 60000, (millis % 60000) / 1000)
  }

  /** The seconds field is below 60 and the text reads back to the whole
      seconds of the duration. */
  lemma FormatDurationReadsBack(millis: nat)
    ensures (millis % 60000) / 1000 < 60
    ensures ReadSeconds(FormatDuration(millis)) == Some(millis / 1000)
  {
    MinSecRoundTrip(millis / 60000, (millis % 60000) / 1000);
  }

  /** One frame as display prints it: carriage return, the bracketed bar, the
      percentage, and elapsed over total time. */
  function Frame(total: nat, barWidth: int, current: nat): string
  {
    var p := Progress(current, total);
    "\r[" + BarText(barWidth, FilledWidth(barWidth, p)) + "] " + PercentText(p) + "% "
      + FormatDuration(current) + "/" + FormatDuration(total)
  }

  /** display's bar loops: '=' up to the filled width, a '>' when short of
      the width, then spaces from one past the filled width up to the width. */
  method BuildBar(barWidth: int, filledWidth: int) returns (bar: string)
    ensures bar == BarText(barWidth, filledWidth)
  {
    bar := "";
    var i := 0;
    while i < filledWidth
      invariant 0 <= i && (i <= filledWidth || i == 0)
      invariant bar == Repeat('=', i)
    {
      bar := bar + "=";
      i := i + 1;
    }
    assert Repeat('=', i) == Repeat('=', filledWidth);
    if filledWidth < barWidth {
      bar := bar + ">";
    }
    ghost var prefix := bar;
    i := filledWidth + 1;
    while i < barWidth
      invariant filledWidth + 1 <= i && (i <= barWidth || i == filledWidth + 1)
      invariant bar == prefix + Repeat(' ', i - filledWidth - 1)
    {
      bar := bar + " ";
      i := i + 1;
    }
    assert Repeat(' ', i - filledWidth - 1) == Repeat(' ', barWidth - filledWidth - 1);
  }

  class ConsoleProgressBar {
    const total: nat
    const barWidth: int
    var current: nat
    var finished: bool
    /** Everything handed to the console, in order. */
    var printed: seq<string>

    /** The one-argument constructor: a bar 50 characters wide. */
    constructor (total: nat)
      ensures this.total == total && barWidth == 50
      ensures current == 0 && !finished && printed == []
    {
      this.total := total;
      barWidth := 50;
      current := 0;
      finished := false;
      printed := [];
    }

    constructor WithWidth(total: nat, barWidth: int)
      ensures this.total == total && this.barWidth == barWidth
      ensures current == 0 && !finished && printed == []
    {
      this.total := total;
      this.barWidth := barWidth;
      current := 0;
      finished := false;
      printed := [];
    }

    /** update: nothing once finished; otherwise take the new time and print a frame. */
    method Update(currentDuration: nat)
      modifies this
      ensures finished == old(finished)
      ensures old(finished) ==> unchanged(this)
      ensures !old(finished) ==> current == currentDuration && printed == old(printed) + [Frame(total, barWidth, currentDuration)]
    {
      if finished {
        return;
      }
      current := currentDuration;
      var line := Display();
      printed := printed + [line];
    }

    /** finish: mark the bar finished and end the console line. */
    method Finish()
      modifies this
      ensures finished && current == old(current) && printed == old(printed) + ["\n"]
    {
      finished := true;
      printed := printed + ["\n"];
    }

    /** display: build the frame for the current time. */
    method Display() returns (line: string)
      ensures line == Frame(total, barWidth, current)
    {
      var progress := if total > 0 then current as real / total as real else 0.0;
      progress := MinReal(1.0, MaxReal(0.0, progress));
      assert progress == Progress(current, total);
      var filledWidth := FilledWidth(barWidth, progress);
      var bar := BuildBar(barWidth, filledWidth);
      line := "\r[" + bar + "] " + PercentText(progress) + "% " + FormatDuration(current) + "/" + FormatDuration(total);
    }
  }
}
