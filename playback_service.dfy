/** The API server's PlaybackService: guarded transitions of the shared
    PlaybackState, the once-only construction of the sequencer, the volume
    post-processor, and the reactions to the sequencer's status updates.

    The sequencer itself is not modelled: the service's calls on it are
    recorded in order, and what it reports (the song length, the current
    position, whether building or loading throws and with which message) is
    an input. Each operation is specified by a function on a `Service` value;
    the class's methods are proved to move their state exactly as those
    functions say, and the properties are proved about the functions. */
module ApiPlayback {
  import opened Common
  import opened Text
  import opened MoppyCore
  import opened PlaybackStates

  /** A call the service makes on the sequencer. `PlayAsync` is the
      `sequencer.play()` run on a new CompletableFuture; `CancelPlayback`
      cancels the last such future. */
  datatype SequencerCall =
    | LoadSequence(path: string)
    | Play
    | PlayAsync
    | Pause
    | Stop
    | CancelPlayback
    | SetSecondsPosition(seconds: int)
    | SetTempo(bpm: real)

  /** How an operation ended: normally, or with the exception it threw. */
  datatype Outcome =
    | Done
    | IllegalArgument(message: string)
    | IllegalState(message: string)
    | Raised(message: string)

  /** Everything the service's operations read or change: the PlaybackState
      fields, the isInitialized latch (the sequencer exists exactly when it is
      set), how many times the MIDI components were built, whether an
      asynchronous playback was ever started, and the calls made on the sequencer. */
  datatype Service = Service(
    fields: Fields,
    initialized: bool,
    builds: nat,
    hasPlayback: bool,
    calls: seq<SequencerCall>)

  /** The latch: the components have been built exactly once if the service
      is initialized and never otherwise. */
  predicate Latched(s: Service)
  {
    s.builds == (if s.initialized then 1 else 0)
  }

  const FRESH: Service := Service(INITIAL, false, 0, false, [])

  /** `new File(path).getName()`: the last component of the path, trailing
      separators ignored. */
  function FileName(path: string): (name: string)
    ensures '/' !in name
  {
    LastComponent(StripTrailingSlashes(path))
  }

  function StripTrailingSlashes(p: string): (r: string)
    ensures |r| <= |p| && r == p[..|r|]
    ensures |r| > 0 ==> r[|r| - 1] != '/'
    decreases |p|
  {
    if |p| > 0 && p[|p| - 1] == '/' then StripTrailingSlashes(p[..|p| - 1]) else p
  }

  function LastComponent(p: string): (r: string)
    ensures '/' !in r && EndsWith(p, r)
    ensures |r| < |p| ==> p[|p| - |r| - 1] == '/'
    decreases |p|
  {
    if |p| == 0 || p[|p| - 1] == '/' then ""
    else
      var q, c := p[..|p| - 1], p[|p| - 1];
      var rest := LastComponent(q);
      assert p == q + [c];
      assert p[|p| - |rest| - 1..] == q[|q| - |rest|..] + [c];
      rest + [c]
  }

  /** A file named `name` inside directory `dir` has the name `name`. */
  lemma FileNameOfChild(dir: string, name: string)
    requires '/' !in name && |name| > 0
    ensures FileName(dir + "/" + name) == name
  {
    var p := dir + "/" + name;
    assert p[|p| - 1] == name[|name| - 1];
    assert StripTrailingSlashes(p) == p;
    LastComponentAfterSlash(dir, name);
  }

  /** Whatever precedes the last separator, the last component is what follows it. */
  lemma {:induction false} LastComponentAfterSlash(dir: string, name: string)
    requires '/' !in name
    ensures LastComponent(dir + "/" + name) == name
    decreases |name|
  {
    var p := dir + "/" + name;
    if |name| == 0 {
      assert p[|p| - 1] == '/';
    } else {
      var init := name[..|name| - 1];
      assert p[..|p| - 1] == dir + "/" + init;
      assert p[|p| - 1] == name[|name| - 1];
      LastComponentAfterSlash(dir, init);
      assert name == init + [name[|name| - 1]];
    }
  }

  /** The extension test: the lower-cased name ends in ".mid" or ".midi". */
  predicate HasMidiExtension(name: string)
  {
    EndsWith(AsciiLower(name), ".mid") || EndsWith(AsciiLower(name), ".midi")
  }

  /** The extension test does not depend on the case of the name's letters. */
  lemma MidiExtensionIgnoresCase(name: string)
    ensures HasMidiExtension(AsciiLower(name)) == HasMidiExtension(name)
  {
    assert AsciiLower(AsciiLower(name)) == AsciiLower(name);
  }

  /** initializeSequencer: nothing once initialized; otherwise build the
      components, or, when that throws `buildError`, record ERROR with the
      message and rethrow. */
  function InitSpec(s: Service, buildError: Option<string>): (Service, Option<string>)
  {
    if s.initialized then (s, None)
    else match buildError
      case Some(m) =>
        (s.(fields := s.fields.(playbackState := Error, error := "Failed to initialize sequencer: " + m)), Some(m))
      case None => (s.(initialized := true, builds := s.builds + 1), None)
  }

  /** loadSong. `fileExists` is whether the file exists, `loadError` what
      loadSequence throws, `secondsLength` the sequence length it reports. */
  function LoadSpec(s: Service, path: string, fileExists: bool, buildError: Option<string>,
                    loadError: Option<string>, secondsLength: real): (Service, Outcome)
  {
    if !fileExists then (s, IllegalArgument("MIDI file not found: " + path))
    else if !HasMidiExtension(FileName(path)) then (s, IllegalArgument("File must be a MIDI file (.mid or .midi)"))
    else
      var (s1, failure) := InitSpec(s, buildError);
      if failure.Some? then (s1, Raised(failure.value))
      else LoadSequenceSpec(s1, path, loadError, secondsLength)
  }

  /** The part of loadSong after the checks, once the sequencer exists. */
  function LoadSequenceSpec(s: Service, path: string, loadError: Option<string>, secondsLength: real): (Service, Outcome)
  {
    var s1 := s.(calls := s.calls + [LoadSequence(path)]);
    if loadError.Some? then (s1, Raised(loadError.value))
    else
      (s1.(fields := s1.fields.(fileName := FileName(path), filePath := path,
                                duration := TruncToInt(secondsLength), position := 0,
                                playbackState := Loaded, tempo := 120.0)), Done)
  }

  /** play: refused when no song is loaded; resumes the sequencer directly
      when paused; otherwise starts a new asynchronous playback. */
  function PlaySpec(s: Service, buildError: Option<string>): (Service, Outcome)
  {
    if s.fields.playbackState == Unloaded then (s, IllegalState("No song loaded"))
    else
      var (s1, failure) := InitSpec(s, buildError);
      if failure.Some? then (s1, Raised(failure.value))
      else if s1.fields.playbackState == Paused then
        (s1.(calls := s1.calls + [Play], fields := s1.fields.(playbackState := Playing)), Done)
      else
        (s1.(calls := s1.calls + [PlayAsync], hasPlayback := true, fields := s1.fields.(playbackState := Playing)), Done)
  }

  /** pause: only with a sequencer and while playing. */
  function PauseSpec(s: Service): Service
  {
    if s.initialized && s.fields.playbackState == Playing
    then s.(calls := s.calls + [Pause], fields := s.fields.(playbackState := Paused))
    else s
  }

  /** The calls stop makes on the sequencer and the playback future. */
  function StopCalls(hasPlayback: bool): seq<SequencerCall>
  {
    [Stop] + (if hasPlayback then [CancelPlayback] else [])
  }

  /** stop: only with a sequencer. */
  function StopSpec(s: Service): Service
  {
    if s.initialized
    then s.(calls := s.calls + StopCalls(s.hasPlayback), fields := s.fields.(position := 0, playbackState := Loaded))
    else s
  }

  /** setPosition: only with a sequencer and a position within the song. */
  function SetPositionSpec(s: Service, seconds: int): Service
  {
    if s.initialized && 0 <= seconds <= s.fields.duration
    then s.(calls := s.calls + [SetSecondsPosition(seconds)], fields := s.fields.(position := seconds))
    else s
  }

  /** setTempo: only with a sequencer and a positive tempo. */
  function SetTempoSpec(s: Service, tempo: real): Service
  {
    if s.initialized && tempo > 0.0
    then s.(calls := s.calls + [SetTempo(tempo)], fields := s.fields.(tempo := tempo))
    else s
  }

  /** setVolume: only for a volume in [0, 2]; it then also makes sure the
      sequencer exists, recording a failure to build it as ERROR. */
  function SetVolumeSpec(s: Service, volume: real, buildError: Option<string>): Service
  {
    if 0.0 <= volume <= 2.0 then
      var (s1, failure) := InitSpec(s.(fields := s.fields.(volume := volume)), buildError);
      if failure.Some?
      then s1.(fields := s1.fields.(playbackState := Error, error := "Failed to reinitialize sequencer: " + failure.value))
      else s1
    else s
  }

  function SetLoopSpec(s: Service, loop: bool): Service
  {
    s.(fields := s.fields.(loop := loop))
  }

  /** The asynchronous playback's own failure handler. */
  function AsyncFailSpec(s: Service, message: string): Service
  {
    s.(fields := s.fields.(playbackState := Error, error := message))
  }

  /** The state change of one status update, before the position refresh. */
  function ReactSpec(s: Service, update: StatusUpdate, buildError: Option<string>): Service
  {
    match update.kind
    case SequenceStart => s.(fields := s.fields.(playbackState := Playing))
    case SequencePause => s.(fields := s.fields.(playbackState := Paused))
    case SequenceStopped => s.(fields := s.fields.(playbackState := Loaded, position := 0))
    case SequenceEnd =>
      if s.fields.loop then
        var (s1, o) := PlaySpec(SetPositionSpec(s, 0), buildError);
        if o.Done? then s1 else s1.(fields := s1.fields.(playbackState := Error, error := o.message))
      else s.(fields := s.fields.(playbackState := Loaded, position := 0))
    case SequenceTempoChange =>
      if update.data.Some? then s.(fields := s.fields.(tempo := update.data.value)) else s
    case _ => s
  }

  /** receiveUpdate: react, then, with a sequencer and while playing or
      paused, take the position the sequencer reports (`seqPosition`). */
  function ReceiveSpec(s: Service, update: StatusUpdate, buildError: Option<string>, seqPosition: real): Service
  {
    var s1 := ReactSpec(s, update, buildError);
    if s1.initialized && (s1.fields.playbackState == Playing || s1.fields.playbackState == Paused)
    then s1.(fields := s1.fields.(position := TruncToInt(seqPosition)))
    else s1
  }

  /** The post-processor's new velocity: `(byte) max(0, min(255, v * volume))`,
      with the double narrowed toward zero and then to the low eight bits. */
  function ScaleVelocity(v: JByte, volume: real): JByte
  {
    ToByte(TruncToInt(MaxReal(0.0, MinReal(255.0, v as real * volume))))
  }

  /** The volume post-processor applied with the volume the state holds when
      the message passes: only DEV_PLAYNOTE messages change, and only in byte
      6; a frame too short to have a byte 6 makes the array access throw. */
  function VolumePostProcess(m: WireMessage, volume: real): (r: Result<WireMessage, string>)
    ensures m.command != DEV_PLAYNOTE ==> r == Ok(m)
    ensures m.command == DEV_PLAYNOTE && |m.bytes| <= 6 ==> r.Err?
    ensures m.command == DEV_PLAYNOTE && |m.bytes| > 6 ==>
      && r.Ok? && r.value.command == m.command && |r.value.bytes| == |m.bytes|
      && (forall i :: 0 <= i < |m.bytes| && i != 6 ==> r.value.bytes[i] == m.bytes[i])
      && r.value.bytes[6] == ScaleVelocity(m.bytes[6], volume)
  {
    if m.command != DEV_PLAYNOTE then Ok(m)
    else if |m.bytes| <= 6 then Err("ArrayIndexOutOfBoundsException")
    else Ok(m.(bytes := m.bytes[6 := ScaleVelocity(m.bytes[6], volume)]))
  }

  /** For a MIDI velocity (0..127) and a volume in [0, 2], the byte read back
      as unsigned is the scaled velocity truncated: the narrowing to a signed
      byte loses nothing a receiver reading it unsigned would see. */
  lemma ScaledVelocityReadsUnsigned(v: JByte, volume: real)
    requires 0 <= v && 0.0 <= volume <= 2.0
    ensures Unsigned(ScaleVelocity(v, volume)) == TruncToInt(v as real * volume)
    ensures 0 <= TruncToInt(v as real * volume) <= 254
  {
    var x := v as real * volume;
    assert 0.0 <= x <= 254.0 by {
      assert 0.0 <= v as real <= 127.0;
      assert v as real * volume <= 127.0 * volume;
      assert 127.0 * volume <= 254.0;
    }
    var n := TruncToInt(x);
    assert MaxReal(0.0, MinReal(255.0, x)) == x;
    UnsignedRoundTrip(n);
  }

  /** Volume 1.0 leaves a MIDI velocity as it is. */
  lemma UnitVolumeKeepsVelocity(v: JByte)
    requires 0 <= v
    ensures ScaleVelocity(v, 1.0) == v
  {
  }

  /** A velocity byte with the high bit set is negative in Java, so any
      non-negative volume turns it into 0. */
  lemma HighVelocityByteSilenced(v: JByte, volume: real)
    requires v < 0 && volume >= 0.0
    ensures ScaleVelocity(v, volume) == 0
  {
    assert v as real * volume <= 0.0;
  }

  /** Every operation of the service, with the inputs it reads from the
      caller and from the sequencer. */
  datatype Op =
    | LoadOp(path: string, fileExists: bool, buildError: Option<string>, loadError: Option<string>, secondsLength: real)
    | PlayOp(buildError: Option<string>)
    | PauseOp
    | StopOp
    | SetPositionOp(seconds: int)
    | SetTempoOp(tempo: real)
    | SetVolumeOp(volume: real, buildError: Option<string>)
    | SetLoopOp(loop: bool)
    | UpdateOp(update: StatusUpdate, buildError: Option<string>, seqPosition: real)
    | AsyncFailOp(message: string)

  function Step(s: Service, op: Op): Service
  {
    match op
    case LoadOp(p, e, b, l, len) => LoadSpec(s, p, e, b, l, len).0
    case PlayOp(b) => PlaySpec(s, b).0
    case PauseOp => PauseSpec(s)
    case StopOp => StopSpec(s)
    case SetPositionOp(x) => SetPositionSpec(s, x)
    case SetTempoOp(t) => SetTempoSpec(s, t)
    case SetVolumeOp(v, b) => SetVolumeSpec(s, v, b)
    case SetLoopOp(l) => SetLoopSpec(s, l)
    case UpdateOp(u, b, pos) => ReceiveSpec(s, u, b, pos)
    case AsyncFailOp(m) => if s.hasPlayback then AsyncFailSpec(s, m) else s
  }

  function Run(s: Service, ops: seq<Op>): Service
    decreases |ops|
  {
    if ops == [] then s else Run(Step(s, ops[0]), ops[1..])
  }

  /** `t` follows `s` without breaking the latch or building twice. */
  predicate LatchKept(s: Service, t: Service)
  {
    Latched(t) && (s.initialized ==> t.initialized && t.builds == s.builds)
  }

  /** Building the components is the only step that sets the latch. */
  lemma InitKeepsLatch(s: Service, buildError: Option<string>)
    requires Latched(s)
    ensures LatchKept(s, InitSpec(s, buildError).0)
    ensures s.initialized ==> InitSpec(s, buildError).0 == s
  {
  }

  lemma PlayKeepsLatch(s: Service, buildError: Option<string>)
    requires Latched(s)
    ensures LatchKept(s, PlaySpec(s, buildError).0)
  {
    InitKeepsLatch(s, buildError);
  }

  lemma LoadKeepsLatch(s: Service, path: string, fileExists: bool, buildError: Option<string>,
                       loadError: Option<string>, secondsLength: real)
    requires Latched(s)
    ensures LatchKept(s, LoadSpec(s, path, fileExists, buildError, loadError, secondsLength).0)
  {
    InitKeepsLatch(s, buildError);
  }

  lemma ReceiveKeepsLatch(s: Service, update: StatusUpdate, buildError: Option<string>, seqPosition: real)
    requires Latched(s)
    ensures LatchKept(s, ReceiveSpec(s, update, buildError, seqPosition))
  {
    if update.kind == SequenceEnd && s.fields.loop {
      PlayKeepsLatch(SetPositionSpec(s, 0), buildError);
    }
  }

  /** Every operation keeps the latch, and none un-initializes the service. */
  lemma StepKeepsLatch(s: Service, op: Op)
    requires Latched(s)
    ensures LatchKept(s, Step(s, op))
  {
    match op
    case LoadOp(p, e, b, l, len) => LoadKeepsLatch(s, p, e, b, l, len);
    case PlayOp(b) => PlayKeepsLatch(s, b);
    case SetVolumeOp(v, b) => InitKeepsLatch(s.(fields := s.fields.(volume := v)), b);
    case UpdateOp(u, b, pos) => ReceiveKeepsLatch(s, u, b, pos);
    case _ =>
  }

  /** Whatever happens, the MIDI components are built at most once: from a
      fresh service the build count never exceeds one, and once built they
      are never built again. */
  lemma {:induction false} BuiltAtMostOnce(s: Service, ops: seq<Op>)
    requires Latched(s)
    ensures Latched(Run(s, ops)) && Run(s, ops).builds <= 1
    ensures s.initialized ==> Run(s, ops).initialized && Run(s, ops).builds == s.builds
    decreases |ops|
  {
    if ops != [] {
      StepKeepsLatch(s, ops[0]);
      BuiltAtMostOnce(Step(s, ops[0]), ops[1..]);
    }
  }

  /** A missing file or a name without a MIDI extension is refused before
      anything changes. */
  lemma LoadRejectsFirst(s: Service, path: string, fileExists: bool, buildError: Option<string>,
                         loadError: Option<string>, secondsLength: real)
    requires !fileExists || !HasMidiExtension(FileName(path))
    ensures LoadSpec(s, path, fileExists, buildError, loadError, secondsLength).0 == s
    ensures LoadSpec(s, path, fileExists, buildError, loadError, secondsLength).1.IllegalArgument?
  {
  }

  /** A load that completes leaves the song LOADED at position 0 with the
      default tempo, the file's name and path, the length truncated to whole
      seconds, and every other field as it was. */
  lemma LoadedSong(s: Service, path: string, buildError: Option<string>, secondsLength: real)
    requires HasMidiExtension(FileName(path))
    requires s.initialized || buildError.None?
    ensures LoadSpec(s, path, true, buildError, None, secondsLength).1 == Done
    ensures LoadSpec(s, path, true, buildError, None, secondsLength).0.fields ==
      s.fields.(playbackState := Loaded, fileName := FileName(path), filePath := path,
                duration := TruncToInt(secondsLength), position := 0, tempo := 120.0)
    ensures LoadSpec(s, path, true, buildError, None, secondsLength).0.calls == s.calls + [LoadSequence(path)]
  {
  }

  /** play without a song throws and changes nothing. */
  lemma PlayNeedsSong(s: Service, buildError: Option<string>)
    requires s.fields.playbackState == Unloaded
    ensures PlaySpec(s, buildError) == (s, IllegalState("No song loaded"))
  {
  }

  /** A play that completes ends PLAYING; it resumes the sequencer when
      paused and starts a new asynchronous playback from any other state,
      ERROR included. */
  lemma PlayEndsPlaying(s: Service, buildError: Option<string>)
    requires PlaySpec(s, buildError).1 == Done
    ensures PlaySpec(s, buildError).0.fields.playbackState == Playing
    ensures s.fields.playbackState != Unloaded
    ensures PlaySpec(s, buildError).0.calls ==
      s.calls + [if s.fields.playbackState == Paused then Play else PlayAsync]
  {
  }

  /** pause changes something exactly when there is a sequencer and the song is playing. */
  lemma PauseGuard(s: Service)
    ensures PauseSpec(s) != s <==> s.initialized && s.fields.playbackState == Playing
    ensures PauseSpec(s) != s ==> PauseSpec(s).fields.playbackState == Paused
  {
    if s.initialized && s.fields.playbackState == Playing {
      assert |PauseSpec(s).calls| == |s.calls| + 1;
    }
  }

  /** Pausing then playing resumes the same sequencer without a new playback. */
  lemma PauseThenPlayResumes(s: Service, buildError: Option<string>)
    requires s.initialized && s.fields.playbackState == Playing
    ensures PlaySpec(PauseSpec(s), buildError).1 == Done
    ensures PlaySpec(PauseSpec(s), buildError).0 == s.(calls := s.calls + [Pause, Play])
  {
  }

  /** stop, with a sequencer, rewinds to the start, leaves the song LOADED and
      cancels any playback; a play after it starts over asynchronously. */
  lemma StopThenPlay(s: Service, buildError: Option<string>)
    requires s.initialized
    ensures StopSpec(s).fields.position == 0 && StopSpec(s).fields.playbackState == Loaded
    ensures PlaySpec(StopSpec(s), buildError).1 == Done
    ensures PlaySpec(StopSpec(s), buildError).0.fields.playbackState == Playing
    ensures PlaySpec(StopSpec(s), buildError).0.fields.position == 0
    ensures PlaySpec(StopSpec(s), buildError).0.calls == s.calls + StopCalls(s.hasPlayback) + [PlayAsync]
  {
  }

  /** Without a sequencer, stop does nothing. */
  lemma StopNeedsSequencer(s: Service)
    requires !s.initialized
    ensures StopSpec(s) == s
  {
  }

  /** setPosition takes effect exactly when there is a sequencer and the
      position lies within the song, and then only the position changes. */
  lemma SetPositionGuard(s: Service, seconds: int)
    ensures SetPositionSpec(s, seconds) != s <==> s.initialized && 0 <= seconds <= s.fields.duration
    ensures SetPositionSpec(s, seconds).fields == s.fields || SetPositionSpec(s, seconds).fields == s.fields.(position := seconds)
  {
    if s.initialized && 0 <= seconds <= s.fields.duration {
      assert |SetPositionSpec(s, seconds).calls| == |s.calls| + 1;
    }
  }

  /** setTempo takes effect exactly when there is a sequencer and the tempo is positive. */
  lemma SetTempoGuard(s: Service, tempo: real)
    ensures SetTempoSpec(s, tempo) != s <==> s.initialized && tempo > 0.0
    ensures SetTempoSpec(s, tempo) != s ==> SetTempoSpec(s, tempo).fields == s.fields.(tempo := tempo)
  {
    if s.initialized && tempo > 0.0 {
      assert |SetTempoSpec(s, tempo).calls| == |s.calls| + 1;
    }
  }

  /** setVolume outside [0, 2] is ignored; inside it the volume is stored,
      and with a sequencer already built nothing else changes. */
  lemma SetVolumeGuard(s: Service, volume: real, buildError: Option<string>)
    ensures !(0.0 <= volume <= 2.0) ==> SetVolumeSpec(s, volume, buildError) == s
    ensures 0.0 <= volume <= 2.0 ==> SetVolumeSpec(s, volume, buildError).fields.volume == volume
    ensures 0.0 <= volume <= 2.0 && s.initialized ==> SetVolumeSpec(s, volume, buildError) == s.(fields := s.fields.(volume := volume))
  {
  }

  /** A volume change on an uninitialized service whose build fails records
      the reinitialization message. */
  lemma SetVolumeBuildFailure(s: Service, volume: real, m: string)
    requires 0.0 <= volume <= 2.0 && !s.initialized
    ensures SetVolumeSpec(s, volume, Some(m)).fields.playbackState == Error
    ensures SetVolumeSpec(s, volume, Some(m)).fields.error == "Failed to reinitialize sequencer: " + m
    ensures !SetVolumeSpec(s, volume, Some(m)).initialized
  {
  }

  /** SEQUENCE_STOPPED, and SEQUENCE_END without looping, leave the song LOADED at 0. */
  lemma StoppedOrEndedRewinds(s: Service, update: StatusUpdate, buildError: Option<string>, seqPosition: real)
    requires update.kind == SequenceStopped || (update.kind == SequenceEnd && !s.fields.loop)
    ensures ReceiveSpec(s, update, buildError, seqPosition) ==
      s.(fields := s.fields.(playbackState := Loaded, position := 0))
  {
  }

  /** SEQUENCE_END with looping on a loaded song with a sequencer seeks to 0
      and starts a new playback, then takes the sequencer's position. */
  lemma EndWithLoopRestarts(s: Service, update: StatusUpdate, buildError: Option<string>, seqPosition: real)
    requires update.kind == SequenceEnd && s.fields.loop && s.initialized
    requires s.fields.duration >= 0
    requires s.fields.playbackState != Unloaded && s.fields.playbackState != Paused
    ensures ReceiveSpec(s, update, buildError, seqPosition).calls == s.calls + [SetSecondsPosition(0), PlayAsync]
    ensures ReceiveSpec(s, update, buildError, seqPosition).fields ==
      s.fields.(playbackState := Playing, position := TruncToInt(seqPosition))
  {
  }

  /** SEQUENCE_END with looping but no song loaded records the refusal as an error. */
  lemma EndWithLoopUnloaded(s: Service, update: StatusUpdate, buildError: Option<string>, seqPosition: real)
    requires update.kind == SequenceEnd && s.fields.loop && s.fields.playbackState == Unloaded
    ensures ReceiveSpec(s, update, buildError, seqPosition).fields.playbackState == Error
    ensures ReceiveSpec(s, update, buildError, seqPosition).fields.error == "No song loaded"
  {
  }

  /** A tempo change with data sets the tempo, without any range check. */
  lemma TempoChangeSetsTempo(s: Service, bpm: real, buildError: Option<string>, seqPosition: real)
    ensures ReceiveSpec(s, StatusUpdate(SequenceTempoChange, Some(bpm)), buildError, seqPosition).fields.tempo == bpm
    ensures ReceiveSpec(s, StatusUpdate(SequenceTempoChange, None), buildError, seqPosition).fields.tempo == s.fields.tempo
  {
  }

  class PlaybackService {
    const state: PlaybackState
    var initialized: bool
    var builds: nat
    var hasPlayback: bool
    var calls: seq<SequencerCall>

    function Model(): Service
      reads this, state
    {
      Service(state.View(), initialized, builds, hasPlayback, calls)
    }

    ghost predicate Valid()
      reads this, state
    {
      Latched(Model())
    }

    constructor ()
      ensures Valid() && Model() == FRESH && fresh(state)
    {
      state := new PlaybackState();
      initialized := false;
      builds := 0;
      hasPlayback := false;
      calls := [];
    }

    method InitializeSequencer(buildError: Option<string>) returns (failure: Option<string>)
      modifies this, state
      ensures (Model(), failure) == InitSpec(old(Model()), buildError)
    {
      if initialized {
        return None;
      }
      if buildError.Some? {
        state.playbackState := Error;
        state.error := "Failed to initialize sequencer: " + buildError.value;
        return buildError;
      }
      builds := builds + 1;
      initialized := true;
      return None;
    }

    method LoadSong(path: string, fileExists: bool, buildError: Option<string>,
                    loadError: Option<string>, secondsLength: real) returns (outcome: Outcome)
      requires Valid()
      modifies this, state
      ensures Valid()
      ensures (Model(), outcome) == LoadSpec(old(Model()), path, fileExists, buildError, loadError, secondsLength)
    {
      if !fileExists {
        return IllegalArgument("MIDI file not found: " + path);
      }
      var name := FileName(path);
      if !HasMidiExtension(name) {
        return IllegalArgument("File must be a MIDI file (.mid or .midi)");
      }
      var failure := InitializeSequencer(buildError);
      if failure.Some? {
        return Raised(failure.value);
      }
      outcome := LoadSequenceInto(path, loadError, secondsLength);
    }

    /** The second half of loadSong: hand the file to the sequencer and,
        when it accepts it, record the song in the state. */
    method LoadSequenceInto(path: string, loadError: Option<string>, secondsLength: real) returns (outcome: Outcome)
      requires Valid()
      modifies this, state
      ensures Valid()
      ensures (Model(), outcome) == LoadSequenceSpec(old(Model()), path, loadError, secondsLength)
    {
      calls := calls + [LoadSequence(path)];
      if loadError.Some? {
        return Raised(loadError.value);
      }
      RecordSong(path, secondsLength);
      return Done;
    }

    /** The state setters loadSong calls once the sequence is loaded. */
    method RecordSong(path: string, secondsLength: real)
      modifies state
      ensures state.View() == old(state.View()).(fileName := FileName(path), filePath := path,
                                                 duration := TruncToInt(secondsLength), position := 0,
                                                 playbackState := Loaded, tempo := 120.0)
    {
      state.fileName := FileName(path);
      state.filePath := path;
      state.duration := TruncToInt(secondsLength);
      state.position := 0;
      state.playbackState := Loaded;
      state.tempo := 120.0;
    }

    method Play(buildError: Option<string>) returns (outcome: Outcome)
      requires Valid()
      modifies this, state
      ensures Valid()
      ensures (Model(), outcome) == PlaySpec(old(Model()), buildError)
    {
      if state.playbackState == Unloaded {
        return IllegalState("No song loaded");
      }
      var failure := InitializeSequencer(buildError);
      if failure.Some? {
        return Raised(failure.value);
      }
      if state.playbackState == Paused {
        calls := calls + [SequencerCall.Play];
      } else {
        calls := calls + [PlayAsync];
        hasPlayback := true;
      }
      state.playbackState := Playing;
      return Done;
    }

    method Pause()
      requires Valid()
      modifies this, state
      ensures Valid() && Model() == PauseSpec(old(Model()))
    {
      if initialized && state.playbackState == Playing {
        calls := calls + [SequencerCall.Pause];
        state.playbackState := Paused;
      }
    }

    method Stop()
      requires Valid()
      modifies this, state
      ensures Valid() && Model() == StopSpec(old(Model()))
    {
      if initialized {
        calls := calls + [SequencerCall.Stop];
        state.position := 0;
        state.playbackState := Loaded;
        if hasPlayback {
          calls := calls + [CancelPlayback];
        }
      }
    }

    method SetPosition(seconds: int)
      requires Valid()
      modifies this, state
      ensures Valid() && Model() == SetPositionSpec(old(Model()), seconds)
    {
      if initialized && seconds >= 0 && seconds <= state.duration {
        calls := calls + [SetSecondsPosition(seconds)];
        state.position := seconds;
      }
    }

    method SetTempoTo(tempo: real)
      requires Valid()
      modifies this, state
      ensures Valid() && Model() == SetTempoSpec(old(Model()), tempo)
    {
      if initialized && tempo > 0.0 {
        calls := calls + [SetTempo(tempo)];
        state.tempo := tempo;
      }
    }

    method SetVolume(volume: real, buildError: Option<string>)
      requires Valid()
      modifies this, state
      ensures Valid() && Model() == SetVolumeSpec(old(Model()), volume, buildError)
    {
      if volume >= 0.0 && volume <= 2.0 {
        state.volume := volume;
        var failure := InitializeSequencer(buildError);
        if failure.Some? {
          state.playbackState := Error;
          state.error := "Failed to reinitialize sequencer: " + failure.value;
        }
      }
    }

    method SetLoop(loop: bool)
      requires Valid()
      modifies state
      ensures Valid() && Model() == SetLoopSpec(old(Model()), loop)
    {
      state.loop := loop;
    }

    /** The failure handler of the asynchronous playback, run when its
        `sequencer.play()` throws. */
    method AsyncPlaybackFailed(message: string)
      requires Valid() && hasPlayback
      modifies state
      ensures Valid() && Model() == AsyncFailSpec(old(Model()), message)
    {
      state.playbackState := Error;
      state.error := message;
    }

    method ReceiveUpdate(update: StatusUpdate, buildError: Option<string>, seqPosition: real)
      requires Valid()
      modifies this, state
      ensures Valid() && Model() == ReceiveSpec(old(Model()), update, buildError, seqPosition)
    {
      React(update, buildError);
      if initialized && (state.playbackState == Playing || state.playbackState == Paused) {
        state.position := TruncToInt(seqPosition);
      }
    }

    /** The switch of receiveUpdate. */
    method React(update: StatusUpdate, buildError: Option<string>)
      requires Valid()
      modifies this, state
      ensures Valid() && Model() == ReactSpec(old(Model()), update, buildError)
    {
      match update.kind {
        case SequenceStart =>
          state.playbackState := Playing;
        case SequencePause =>
          state.playbackState := Paused;
        case SequenceStopped =>
          state.playbackState := Loaded;
          state.position := 0;
        case SequenceEnd =>
          if state.loop {
            SetPosition(0);
            var outcome := Play(buildError);
            if !outcome.Done? {
              state.playbackState := Error;
              state.error := outcome.message;
            }
          } else {
            state.playbackState := Loaded;
            state.position := 0;
          }
        case SequenceTempoChange =>
          if update.data.Some? {
            state.tempo := update.data.value;
          }
        case _ =>
      }
    }
  }
}
