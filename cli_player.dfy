/** The command-line tool's CLIMIDIPlayer: a status consumer that flips an
    is-playing flag, restarts the song or finishes on the end of a sequence,
    drives the optional console progress bar, and counts down the latch the
    play command waits on. The sequencer is a recorded trace of calls, the
    latch its remaining count, and the scheduled progress updater the number
    of tasks handed to it. */
module CliPlayer {
  import opened MoppyCore
  import opened ProgressBar

  /** The sequencer calls the player makes. */
  datatype PlayerCall = SetSecondsPosition(seconds: int) | Play

  /** What the player does with one update. */
  datatype Reaction =
    | Begin    // handleSequenceStart
    | Halt     // handleSequencePause
    | Finish   // handleSequenceStop
    | Restart  // the looping branch of handleSequenceEnd
    | Ignore   // every other update type

  /** receiveUpdate's switch, with handleSequenceEnd's test folded in. */
  function ReactionTo(kind: UpdateType, loop: bool, isPlaying: bool): (r: Reaction)
    ensures r == Restart <==> kind == SequenceEnd && loop && isPlaying
    ensures r == Finish <==> kind == SequenceStopped || (kind == SequenceEnd && !(loop && isPlaying))
  {
    match kind
    case SequenceStart => Begin
    case SequencePause => Halt
    case SequenceStopped => Finish
    case SequenceEnd => if loop && isPlaying then Restart else Finish
    case _ => Ignore
  }

  /** The player's own state, without the progress bar. */
  datatype PlayerFlags = PlayerFlags(
    isPlaying: bool,
    latchCount: nat,
    calls: seq<PlayerCall>,
    progressTasks: nat,
    updaterShutDown: bool)

  /** CountDownLatch.countDown: one less, never below zero. */
  function CountDown(count: nat): (c: nat)
    ensures count > 0 ==> c == count - 1
    ensures count == 0 ==> c == 0
  {
    if count > 0 then count - 1 else 0
  }

  /** The player's state after one update. A start schedules one progress
      task when there is a bar and the updater still accepts tasks. */
  function Next(f: PlayerFlags, kind: UpdateType, loop: bool, hasBar: bool): PlayerFlags
  {
    match ReactionTo(kind, loop, f.isPlaying)
    case Begin =>
      f.(isPlaying := true,
         progressTasks := if hasBar && !f.updaterShutDown then f.progressTasks + 1 else f.progressTasks)
    case Halt => f.(isPlaying := false)
    case Finish => f.(isPlaying := false, latchCount := CountDown(f.latchCount))
    case Restart => f.(calls := f.calls + [SetSecondsPosition(0), Play])
    case Ignore => f
  }

  /** The player's state after a run of updates. */
  function Run(f: PlayerFlags, kinds: seq<UpdateType>, loop: bool, hasBar: bool): PlayerFlags
    decreases |kinds|
  {
    if kinds == [] then f else Run(Next(f, kinds[0], loop, hasBar), kinds[1..], loop, hasBar)
  }

  /** A start sets the flag; a pause clears it and leaves the latch alone. */
  lemma StartAndPause(f: PlayerFlags, loop: bool, hasBar: bool)
    ensures Next(f, SequenceStart, loop, hasBar).isPlaying
    ensures Next(f, SequenceStart, loop, hasBar).latchCount == f.latchCount
    ensures !Next(f, SequencePause, loop, hasBar).isPlaying
    ensures Next(f, SequencePause, loop, hasBar).latchCount == f.latchCount
    ensures Next(f, SequencePause, loop, hasBar).calls == f.calls
  {
  }

  /** A stop clears the flag and counts the latch down exactly once. */
  lemma StopCountsDownOnce(f: PlayerFlags, loop: bool, hasBar: bool)
    requires f.latchCount > 0
    ensures Next(f, SequenceStopped, loop, hasBar) == f.(isPlaying := false, latchCount := f.latchCount - 1)
  {
  }

  /** An end while looping and playing rewinds and replays the sequencer and
      leaves the latch and the flag alone. */
  lemma LoopingEndRestarts(f: PlayerFlags, hasBar: bool)
    requires f.isPlaying
    ensures Next(f, SequenceEnd, true, hasBar) == f.(calls := f.calls + [SetSecondsPosition(0), Play])
  {
  }

  /** Otherwise an end is exactly a stop. */
  lemma EndActsAsStop(f: PlayerFlags, loop: bool, hasBar: bool)
    requires !(loop && f.isPlaying)
    ensures Next(f, SequenceEnd, loop, hasBar) == Next(f, SequenceStopped, loop, hasBar)
  {
  }

  /** Update types the player does not handle change nothing. */
  lemma OtherUpdatesIgnored(f: PlayerFlags, kind: UpdateType, loop: bool, hasBar: bool)
    requires kind !in {SequenceStart, SequencePause, SequenceStopped, SequenceEnd}
    ensures Next(f, kind, loop, hasBar) == f
  {
  }

  /** No run of updates ever raises the latch count. */
  lemma {:induction false} LatchNeverRises(f: PlayerFlags, kinds: seq<UpdateType>, loop: bool, hasBar: bool)
    ensures Run(f, kinds, loop, hasBar).latchCount <= f.latchCount
    decreases |kinds|
  {
    if kinds != [] {
      LatchNeverRises(Next(f, kinds[0], loop, hasBar), kinds[1..], loop, hasBar);
    }
  }

  /** Without looping, a latch of one is released by any run of updates that
      contains a stop or an end: the play command then returns. */
  lemma {:induction false} FirstStopOrEndReleases(f: PlayerFlags, kinds: seq<UpdateType>, hasBar: bool, i: nat)
    requires f.latchCount <= 1
    requires i < |kinds| && kinds[i] in {SequenceStopped, SequenceEnd}
    ensures Run(f, kinds, false, hasBar).latchCount == 0
    decreases |kinds|
  {
    var g := Next(f, kinds[0], false, hasBar);
    if i == 0 {
      LatchNeverRises(g, kinds[1..], false, hasBar);
    } else {
      FirstStopOrEndReleases(g, kinds[1..], hasBar, i - 1);
    }
  }

  /** With looping on and the song playing, a run of ends never releases the
      latch: every end restarts the song. */
  lemma {:induction false} LoopingNeverReleases(f: PlayerFlags, n: nat, hasBar: bool)
    requires f.isPlaying
    ensures Run(f, seq(n, _ => SequenceEnd), true, hasBar).latchCount == f.latchCount
    ensures Run(f, seq(n, _ => SequenceEnd), true, hasBar).isPlaying
    decreases n
  {
    var ends := seq(n, _ => SequenceEnd);
    if n > 0 {
      var g := Next(f, SequenceEnd, true, hasBar);
      assert ends[1..] == seq(n - 1, _ => SequenceEnd);
      LoopingNeverReleases(g, n - 1, hasBar);
    }
  }

  /** What a stop writes to a bar: a frame at zero unless the bar was already
      finished, then the line break of finish. */
  function StopOutput(wasFinished: bool, total: nat, barWidth: int): seq<string>
  {
    (if wasFinished then [] else [Frame(total, barWidth, 0)]) + ["\n"]
  }

  class CliMidiPlayer {
    const progressBar: ConsoleProgressBar?
    const loop: bool
    var isPlaying: bool
    var latchCount: nat
    var calls: seq<PlayerCall>
    var progressTasks: nat
    var updaterShutDown: bool

    function Flags(): PlayerFlags
      reads this
    {
      PlayerFlags(isPlaying, latchCount, calls, progressTasks, updaterShutDown)
    }

    constructor (progressBar: ConsoleProgressBar?, latchCount: nat, loop: bool)
      ensures this.progressBar == progressBar && this.loop == loop
      ensures Flags() == PlayerFlags(false, latchCount, [], 0, false)
    {
      this.progressBar := progressBar;
      this.loop := loop;
      isPlaying := false;
      this.latchCount := latchCount;
      calls := [];
      progressTasks := 0;
      updaterShutDown := false;
    }

    /** receiveUpdate: dispatch on the update type. `rejected` is the
        executor's refusal of a progress task after shutdown. */
    method ReceiveUpdate(update: StatusUpdate) returns (rejected: bool)
      modifies this, progressBar
      ensures Flags() == Next(old(Flags()), update.kind, loop, progressBar != null)
      ensures rejected <==> update.kind == SequenceStart && progressBar != null && old(updaterShutDown)
      ensures progressBar != null && ReactionTo(update.kind, loop, old(isPlaying)) == Finish ==>
        progressBar.finished && progressBar.printed == old(progressBar.printed)
          + StopOutput(old(progressBar.finished), progressBar.total, progressBar.barWidth)
        && progressBar.current == (if old(progressBar.finished) then old(progressBar.current) else 0)
      ensures progressBar != null && ReactionTo(update.kind, loop, old(isPlaying)) != Finish ==>
        unchanged(progressBar)
    {
      rejected := false;
      match update.kind {
        case SequenceStart =>
          rejected := HandleSequenceStart();
        case SequencePause =>
          HandleSequencePause();
        case SequenceStopped =>
          HandleSequenceStop();
        case SequenceEnd =>
          HandleSequenceEnd();
        case _ =>
      }
    }

    /** handleSequenceStart: playing, and a progress task every 500 ms when
        there is a bar. */
    method HandleSequenceStart() returns (rejected: bool)
      modifies this
      ensures Flags() == Next(old(Flags()), SequenceStart, loop, progressBar != null)
      ensures rejected <==> progressBar != null && updaterShutDown
    {
      isPlaying := true;
      rejected := false;
      if progressBar != null {
        if updaterShutDown {
          rejected := true;
        } else {
          progressTasks := progressTasks + 1;
        }
      }
    }

    /** handleSequencePause: not playing; the progress task stays scheduled
        and checks the flag itself. */
    method HandleSequencePause()
      modifies this
      ensures Flags() == Next(old(Flags()), SequencePause, loop, progressBar != null)
    {
      isPlaying := false;
    }

    /** handleSequenceStop: not playing, the bar reset to zero and finished,
        and the latch counted down once. */
    method HandleSequenceStop()
      modifies this, progressBar
      ensures Flags() == Next(old(Flags()), SequenceStopped, loop, progressBar != null)
      ensures progressBar != null ==>
        progressBar.finished && progressBar.printed == old(progressBar.printed)
          + StopOutput(old(progressBar.finished), progressBar.total, progressBar.barWidth)
        && progressBar.current == (if old(progressBar.finished) then old(progressBar.current) else 0)
    {
      isPlaying := false;
      if progressBar != null {
        progressBar.Update(0);
        progressBar.Finish();
      }
      latchCount := CountDown(latchCount);
    }

    /** handleSequenceEnd: rewind and replay when looping and playing,
        otherwise the same as a stop. */
    method HandleSequenceEnd()
      modifies this, progressBar
      ensures Flags() == Next(old(Flags()), SequenceEnd, loop, progressBar != null)
      ensures progressBar != null && !(loop && old(isPlaying)) ==>
        progressBar.finished && progressBar.printed == old(progressBar.printed)
          + StopOutput(old(progressBar.finished), progressBar.total, progressBar.barWidth)
        && progressBar.current == (if old(progressBar.finished) then old(progressBar.current) else 0)
      ensures progressBar != null && loop && old(isPlaying) ==> unchanged(progressBar)
    {
      if loop && isPlaying {
        calls := calls + [SetSecondsPosition(0), Play];
      } else {
        HandleSequenceStop();
      }
    }

    /** updateProgress, the scheduled task: when playing and there is a bar,
        hand it the sequencer's position (whole seconds). */
    method UpdateProgress(secondsPosition: nat)
      modifies progressBar
      ensures progressBar != null && isPlaying && !old(progressBar.finished) ==>
        progressBar.current == secondsPosition * 1000 && !progressBar.finished
        && progressBar.printed == old(progressBar.printed) + [Frame(progressBar.total, progressBar.barWidth, secondsPosition * 1000)]
      ensures progressBar != null && !(isPlaying && !old(progressBar.finished)) ==> unchanged(progressBar)
    {
      if isPlaying && progressBar != null {
        progressBar.Update(secondsPosition * 1000);
      }
    }

    /** shutdown: the progress updater accepts no further tasks. */
    method Shutdown()
      modifies this
      ensures Flags() == old(Flags()).(updaterShutDown := true)
    {
      updaterShutDown := true;
    }
  }
}
