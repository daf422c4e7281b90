/** The API server's PlaybackState: a mutable record the playback service
    updates through its setters, with the derived progress and the "m:ss"
    renderings of duration and position. */
module PlaybackStates {
  import opened Common
  import opened Text

  datatype State = Unloaded | Loaded | Playing | Paused | Error

  /** The record's fields as one value. Durations and positions are whole
      seconds; the tempo (a float in beats per minute) and the volume (a
      double) are exact reals. */
  datatype Fields = Fields(
    playbackState: State,
    fileName: string,
    filePath: string,
    duration: int,
    position: int,
    tempo: real,
    volume: real,
    loop: bool,
    error: string)

  /** The field initialisers. */
  const INITIAL: Fields := Fields(Unloaded, "", "", 0, 0, 120.0, 1.0, false, "")

  /** formatTime: Java's `seconds / 60` and `seconds % 60`, printed as "%d:%02d". */
  function FormatTime(seconds: int): string
  {
    MinSec(JavaDiv(seconds, 60), JavaRem(seconds, 60))
  }

  /** For a non-negative count the minutes are `seconds / 60`, the seconds
      field is below 60 and has two digits, and the text reads back to the count. */
  lemma FormatTimeReadsBack(seconds: int)
    requires seconds >= 0
    ensures ParseMinSec(FormatTime(seconds)) == Some((seconds / 60, seconds % 60))
    ensures seconds % 60 < 60
    ensures ReadSeconds(FormatTime(seconds)) == Some(seconds)
    ensures |FormatTime(seconds)| >= 4 && FormatTime(seconds)[|FormatTime(seconds)| - 3] == ':'
  {
    MinSecRoundTrip(seconds / 60, seconds % 60);
  }

  /** Distinct non-negative counts render differently. */
  lemma FormatTimeInjective(a: int, b: int)
    requires a >= 0 && b >= 0 && FormatTime(a) == FormatTime(b)
    ensures a == b
  {
    FormatTimeReadsBack(a);
    FormatTimeReadsBack(b);
  }

  class PlaybackState {
    var playbackState: State
    var fileName: string
    var filePath: string
    var duration: int
    var position: int
    var tempo: real
    var volume: real
    var loop: bool
    var error: string

    /** All fields as one value. */
    function View(): Fields
      reads this
    {
      Fields(playbackState, fileName, filePath, duration, position, tempo, volume, loop, error)
    }

    constructor ()
      ensures View() == INITIAL
      ensures playbackState == Unloaded && fileName == "" && filePath == "" && error == ""
      ensures duration == 0 && position == 0 && tempo == 120.0 && volume == 1.0 && !loop
    {
      playbackState := Unloaded;
      fileName := "";
      filePath := "";
      duration := 0;
      position := 0;
      tempo := 120.0;
      volume := 1.0;
      loop := false;
      error := "";
    }

    /** getProgress: 0 for an empty song, else the fraction of the duration
        played, which lies in [0, 1] while the position is within the song. */
    function Progress(): (p: real)
      reads this
      ensures duration == 0 ==> p == 0.0
      ensures duration != 0 ==> p * duration as real == position as real
      ensures 0 <= position <= duration ==> 0.0 <= p <= 1.0
    {
      if duration == 0 then 0.0 else position as real / duration as real
    }

    /** getFormattedDuration: the duration rendered by formatTime, reading back
        to the duration when it is not negative. */
    function FormattedDuration(): (t: string)
      reads this
      ensures t == FormatTime(duration)
      ensures duration >= 0 ==> ReadSeconds(t) == Some(duration)
    {
      FormatTimeReadsBack(if duration >= 0 then duration else 0);
      FormatTime(duration)
    }

    /** getFormattedPosition: the position rendered by formatTime, reading back
        to the position when it is not negative. */
    function FormattedPosition(): (t: string)
      reads this
      ensures t == FormatTime(position)
      ensures position >= 0 ==> ReadSeconds(t) == Some(position)
    {
      FormatTimeReadsBack(if position >= 0 then position else 0);
      FormatTime(position)
    }
  }
}
