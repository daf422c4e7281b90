# Moppy control layer in Dafny

This project models the control layer that sits on top of the Moppy
library: the state machines and helpers that drive the sequencer, the
network bridges and the status bus for the API server, the command-line
tool and the Raspberry-Pi button controller. It proves properties of each.

- **API server network manager** (`ApiNetwork`). It keeps a table of
  recently seen devices. A system `SYS_PONG` fills the table and a strict
  "older than ten seconds" cull empties it. `NET_DEVICES_CHANGED` is
  published only on real changes. The module also covers the started flag
  and the connect/close bookkeeping.
- **API server playback** (`PlaybackStates`, `ApiPlayback`). These are the
  `PlaybackState` record and the `PlaybackService` guarded transitions over
  UNLOADED, LOADED, PLAYING, PAUSED and ERROR, with the input checks. They
  also cover the once-only construction of the sequencer, the volume
  post-processor and the reactions to status updates.
- **Command-line network manager** (`CliNetwork`). It picks bridges from a
  network-type string and keeps a device registry keyed by
  `remote:deviceAddress` whose cleanup never removes anything.
- **Command-line player and progress bar** (`CliPlayer`, `ProgressBar`).
  The player is the status consumer that loops or finishes a song and
  releases the play command's latch. The progress bar draws the console bar.
- **`devices` command helpers** (`DevicesCmd`): column truncation, the
  table row, the sub-address count and the exit code.
- **Button controller** (`ButtonSettings`, `Buttons`): the configuration
  check and the button handler. The handler keeps at most one pin playing
  when no two presses interleave inside `_play_song`.

The library itself is not modelled. Its objects become recorded traces
and inputs:
- The MultiBridge, the bridges, the sequencer, the status bus and the
  button controller's HTTP client are each a `seq` of the calls made on
  them, or of the updates published.
- What they report back is a parameter: whether a connect throws, the song
  length, a reply's success flag.
- Clock readings are parameters: instants in nanoseconds, progress-bar
  durations in milliseconds.
- Java `float`/`double` values are exact reals. Narrowing toward zero,
  Java's signed `byte` and Java's truncating `/` and `%` are written out
  (`Common`).

Each imperative source class is a Dafny `class` whose methods change its
fields. `PlaybackService` methods are proved equal to pure `...Spec`
functions, and the cross-operation properties are lemmas about those
functions. `CliMidiPlayer` is proved against `Next`. `MoppyButtonHandler`
is proved against the `...Effect` functions.

Where the code and its design notes disagree, the model follows the code:

- The volume post-processor multiplies the velocity as a signed Java byte.
  A velocity byte of 200 is -56, so any volume gives 0, not 255
  (`ApiPlayback.HighVelocityByteSilenced`). For MIDI velocities 0..127 and
  volumes in [0, 2], the byte read unsigned is the scaled value
  (`ApiPlayback.ScaledVelocityReadsUnsigned`).
- The post-processor reads the volume stored when each message passes, not
  a value fixed when it is installed.
- The command-line registry does not check that a pong is a system message,
  and its cleanup removes nothing.

## Model

| member | source | states |
|---|---|---|
| ApiNetwork.OtherMessagesIgnored | Java/MoppyAPI/src/main/java/com/moppy/api/NetworkManager.java:157-160 | a message that is not a system SYS_PONG with at least three payload bytes leaves the table and the bus untouched |
| ApiNetwork.PongRecordsNow | Java/MoppyAPI/src/main/java/com/moppy/api/NetworkManager.java:162-170 | a pong maps its descriptor to `now`, adds no other key and keeps every other entry's instant |
| ApiNetwork.ExtraPayloadIgnored | Java/MoppyAPI/src/main/java/com/moppy/api/NetworkManager.java:162-168 | payload bytes after the third do not change the descriptor |
| ApiNetwork.RepeatPongIsSilent | Java/MoppyAPI/src/main/java/com/moppy/api/NetworkManager.java:170-178 | a repeated pong publishes nothing and only refreshes the instant |
| ApiNetwork.PongCountMatchesNotice | Java/MoppyAPI/src/main/java/com/moppy/api/NetworkManager.java:170-178 | the table grows by one exactly when NET_DEVICES_CHANGED is published, else keeps its size |
| ApiNetwork.CullRemovesExactlyStale | Java/MoppyAPI/src/main/java/com/moppy/api/NetworkManager.java:311-313 | the cull keeps exactly the entries at most ten seconds old (ten seconds exactly survives), with their instants |
| ApiNetwork.CullNoticeIffRemoved | Java/MoppyAPI/src/main/java/com/moppy/api/NetworkManager.java:311-318 | the cull publishes if and only if it changed the table, which is exactly when the table shrank |
| ApiNetwork.PongSurvivesTtl | Java/MoppyAPI/src/main/java/com/moppy/api/NetworkManager.java:311-313 | a device that answered is still listed by any cull up to ten seconds later |
| ApiNetwork.SilentDeviceGone | Java/MoppyAPI/src/main/java/com/moppy/api/NetworkManager.java:311-313 | a device silent for over ten seconds is culled, and culling again at the same instant changes nothing |
| ApiNetwork.CullMonotone | Java/MoppyAPI/src/main/java/com/moppy/api/NetworkManager.java:311-313 | a later cull keeps no device an earlier cull would drop |
| ApiNetwork.NetworkManager.constructor | Java/MoppyAPI/src/main/java/com/moppy/api/NetworkManager.java:48-78 | a new manager knows the bridges whose construction succeeded, is stopped and has an empty table |
| ApiNetwork.NetworkManager.DiscoveredDeviceCount | Java/MoppyAPI/src/main/java/com/moppy/api/NetworkManager.java:260-262 | the count is zero exactly when no device is listed |
| ApiNetwork.NetworkManager.AcceptNetworkMessage | Java/MoppyAPI/src/main/java/com/moppy/api/NetworkManager.java:153-181 | the table and the bus move as AfterMessage and PongNotices say; the bridges and the flag are untouched |
| ApiNetwork.NetworkManager.PingerIteration | Java/MoppyAPI/src/main/java/com/moppy/api/NetworkManager.java:291-318 | each pass sends SYS_PING even if it fails; an interrupt in the sleep ends the loop without a cull; otherwise the table is culled and published as Cull and CullNotices say |
| ApiNetwork.NetworkManager.ConnectBridge | Java/MoppyAPI/src/main/java/com/moppy/api/NetworkManager.java:205-227 | an unknown id throws IllegalArgumentException with nothing called or published; a known one is connected, and attached only if connect returned; NET_STATUS_CHANGED is published either way |
| ApiNetwork.NetworkManager.CloseBridgeById | Java/MoppyAPI/src/main/java/com/moppy/api/NetworkManager.java:232-248 | an unknown id is a silent no-op; a known one is removed, deregistered and closed, with NET_STATUS_CHANGED even when close throws |
| ApiNetwork.NetworkManager.Start | Java/MoppyAPI/src/main/java/com/moppy/api/NetworkManager.java:83-105 | a no-op when started; otherwise connects every bridge once in iteration order (failures logged), starts the pinger and sets the flag |
| ApiNetwork.NetworkManager.Close | Java/MoppyAPI/src/main/java/com/moppy/api/NetworkManager.java:111-138 | a no-op when stopped; otherwise stops the pinger, closes every bridge once and clears the flag, leaving nothing attached |
| PlaybackStates.FormatTimeReadsBack | Java/MoppyAPI/src/main/java/com/moppy/api/PlaybackState.java:41-45 | for s >= 0, formatTime prints s/60, a colon and two digits of s%60 (below 60), and reads back to s |
| PlaybackStates.FormatTimeInjective | Java/MoppyAPI/src/main/java/com/moppy/api/PlaybackState.java:41-45 | distinct non-negative counts format differently |
| PlaybackStates.PlaybackState.constructor | Java/MoppyAPI/src/main/java/com/moppy/api/PlaybackState.java:16-24 | a new record is UNLOADED with empty names and error, duration and position 0, tempo 120, volume 1.0, loop off |
| PlaybackStates.PlaybackState.Progress | Java/MoppyAPI/src/main/java/com/moppy/api/PlaybackState.java:26-31 | 0 for an empty song; otherwise progress times duration is the position, within [0, 1] while the position is within the song |
| PlaybackStates.PlaybackState.FormattedDuration | Java/MoppyAPI/src/main/java/com/moppy/api/PlaybackState.java:33-35 | the duration formatted by formatTime, reading back to the duration when non-negative |
| PlaybackStates.PlaybackState.FormattedPosition | Java/MoppyAPI/src/main/java/com/moppy/api/PlaybackState.java:37-39 | the position formatted by formatTime, reading back to the position when non-negative |
| ApiPlayback.FileName | Java/MoppyAPI/src/main/java/com/moppy/api/PlaybackService.java:55 | the file name holds no separator |
| ApiPlayback.FileNameOfChild | Java/MoppyAPI/src/main/java/com/moppy/api/PlaybackService.java:55 | the name of `dir/name` is `name` |
| ApiPlayback.MidiExtensionIgnoresCase | Java/MoppyAPI/src/main/java/com/moppy/api/PlaybackService.java:46-47 | the .mid/.midi test gives the same answer for a name and its lower-cased form |
| ApiPlayback.LoadRejectsFirst | Java/MoppyAPI/src/main/java/com/moppy/api/PlaybackService.java:41-49 | a missing file or a name without a MIDI extension throws IllegalArgumentException before any change |
| ApiPlayback.LoadedSong | Java/MoppyAPI/src/main/java/com/moppy/api/PlaybackService.java:51-62 | a completed load gives LOADED, position 0, tempo 120, the file's name and path, and the length truncated to seconds; nothing else changes |
| ApiPlayback.PlayNeedsSong | Java/MoppyAPI/src/main/java/com/moppy/api/PlaybackService.java:66-68 | play from UNLOADED throws IllegalStateException and changes nothing |
| ApiPlayback.PlayEndsPlaying | Java/MoppyAPI/src/main/java/com/moppy/api/PlaybackService.java:70-86 | a completed play ends PLAYING; it resumes when PAUSED and starts new asynchronous playback from any other state, ERROR included |
| ApiPlayback.PauseGuard | Java/MoppyAPI/src/main/java/com/moppy/api/PlaybackService.java:89-94 | pause changes something exactly when a sequencer exists and the song is PLAYING, and it then gives PAUSED |
| ApiPlayback.PauseThenPlayResumes | Java/MoppyAPI/src/main/java/com/moppy/api/PlaybackService.java:65-94 | pause then play calls pause and play on the same sequencer, with no new playback |
| ApiPlayback.StopThenPlay | Java/MoppyAPI/src/main/java/com/moppy/api/PlaybackService.java:96-107 | stop with a sequencer rewinds to 0, gives LOADED and cancels playback; a play after it starts over asynchronously |
| ApiPlayback.StopNeedsSequencer | Java/MoppyAPI/src/main/java/com/moppy/api/PlaybackService.java:97 | without a sequencer stop does nothing |
| ApiPlayback.SetPositionGuard | Java/MoppyAPI/src/main/java/com/moppy/api/PlaybackService.java:109-114 | setPosition acts exactly with a sequencer and 0 <= seconds <= duration, and then changes only the position |
| ApiPlayback.SetTempoGuard | Java/MoppyAPI/src/main/java/com/moppy/api/PlaybackService.java:116-121 | setTempo acts exactly with a sequencer and a positive tempo, and then changes only the tempo |
| ApiPlayback.SetVolumeGuard | Java/MoppyAPI/src/main/java/com/moppy/api/PlaybackService.java:123-134 | a volume outside [0, 2] is ignored; inside it is stored, and with a sequencer nothing else changes |
| ApiPlayback.SetVolumeBuildFailure | Java/MoppyAPI/src/main/java/com/moppy/api/PlaybackService.java:127-132 | a failed build during setVolume records ERROR with the reinitialization message |
| ApiPlayback.InitKeepsLatch | Java/MoppyAPI/src/main/java/com/moppy/api/PlaybackService.java:140-170 | initializeSequencer builds only when not yet initialized and changes nothing afterwards |
| ApiPlayback.StepKeepsLatch | Java/MoppyAPI/src/main/java/com/moppy/api/PlaybackService.java:40-215 | no operation builds the components a second time or clears the latch |
| ApiPlayback.BuiltAtMostOnce | Java/MoppyAPI/src/main/java/com/moppy/api/PlaybackService.java:140-170 | over any run of operations the components are built at most once |
| ApiPlayback.VolumePostProcess | Java/MoppyAPI/src/main/java/com/moppy/api/PlaybackService.java:151-157 | only DEV_PLAYNOTE messages change, and only byte 6; a frame with no byte 6 throws |
| ApiPlayback.ScaledVelocityReadsUnsigned | Java/MoppyAPI/src/main/java/com/moppy/api/PlaybackService.java:154 | for velocity 0..127 and volume in [0, 2], the stored byte read unsigned is the truncated product, at most 254 |
| ApiPlayback.UnitVolumeKeepsVelocity | Java/MoppyAPI/src/main/java/com/moppy/api/PlaybackService.java:154 | volume 1.0 keeps a MIDI velocity |
| ApiPlayback.HighVelocityByteSilenced | Java/MoppyAPI/src/main/java/com/moppy/api/PlaybackService.java:154 | a velocity byte of 128..255 is negative in Java and becomes 0 |
| ApiPlayback.StoppedOrEndedRewinds | Java/MoppyAPI/src/main/java/com/moppy/api/PlaybackService.java:181-197 | SEQUENCE_STOPPED, and SEQUENCE_END without loop, give LOADED at position 0 |
| ApiPlayback.EndWithLoopRestarts | Java/MoppyAPI/src/main/java/com/moppy/api/PlaybackService.java:185-214 | SEQUENCE_END with loop seeks to 0 and plays, ending PLAYING at the sequencer's position |
| ApiPlayback.EndWithLoopUnloaded | Java/MoppyAPI/src/main/java/com/moppy/api/PlaybackService.java:186-193 | a looping end with no song records ERROR "No song loaded" |
| ApiPlayback.TempoChangeSetsTempo | Java/MoppyAPI/src/main/java/com/moppy/api/PlaybackService.java:199-204 | SEQUENCE_TEMPO_CHANGE with data sets the tempo, and without data keeps it |
| ApiPlayback.PlaybackService.constructor | Java/MoppyAPI/src/main/java/com/moppy/api/PlaybackService.java:23-38 | a new service holds the initial record, no sequencer and no calls |
| ApiPlayback.PlaybackService.InitializeSequencer | Java/MoppyAPI/src/main/java/com/moppy/api/PlaybackService.java:140-170 | moves the state as InitSpec: nothing once built; a failed build gives ERROR with the message and rethrows |
| ApiPlayback.PlaybackService.LoadSong | Java/MoppyAPI/src/main/java/com/moppy/api/PlaybackService.java:40-63 | moves the state and returns the outcome as LoadSpec, keeping the latch |
| ApiPlayback.PlaybackService.LoadSequenceInto | Java/MoppyAPI/src/main/java/com/moppy/api/PlaybackService.java:53-62 | moves the state as LoadSequenceSpec |
| ApiPlayback.PlaybackService.Play | Java/MoppyAPI/src/main/java/com/moppy/api/PlaybackService.java:65-87 | moves the state and returns the outcome as PlaySpec |
| ApiPlayback.PlaybackService.Pause | Java/MoppyAPI/src/main/java/com/moppy/api/PlaybackService.java:89-94 | moves the state as PauseSpec |
| ApiPlayback.PlaybackService.Stop | Java/MoppyAPI/src/main/java/com/moppy/api/PlaybackService.java:96-107 | moves the state as StopSpec |
| ApiPlayback.PlaybackService.SetPosition | Java/MoppyAPI/src/main/java/com/moppy/api/PlaybackService.java:109-114 | moves the state as SetPositionSpec |
| ApiPlayback.PlaybackService.SetTempoTo | Java/MoppyAPI/src/main/java/com/moppy/api/PlaybackService.java:116-121 | moves the state as SetTempoSpec |
| ApiPlayback.PlaybackService.SetVolume | Java/MoppyAPI/src/main/java/com/moppy/api/PlaybackService.java:123-134 | moves the state as SetVolumeSpec |
| ApiPlayback.PlaybackService.SetLoop | Java/MoppyAPI/src/main/java/com/moppy/api/PlaybackService.java:136-138 | sets the loop flag and nothing else |
| ApiPlayback.PlaybackService.AsyncPlaybackFailed | Java/MoppyAPI/src/main/java/com/moppy/api/PlaybackService.java:78-81 | a failing asynchronous play records ERROR with its message |
| ApiPlayback.PlaybackService.ReceiveUpdate | Java/MoppyAPI/src/main/java/com/moppy/api/PlaybackService.java:172-215 | moves the state as ReceiveSpec: the reaction, then the sequencer's position while PLAYING or PAUSED |
| CliNetwork.SerialBridgesMembers | Java/MoppyCLI/src/main/java/com/moppy/cli/network/CLINetworkManager.java:98-109 | exactly the listed ports whose bridge constructor does not throw |
| CliNetwork.SelectIgnoresCase | Java/MoppyCLI/src/main/java/com/moppy/cli/network/CLINetworkManager.java:54 | the network type is compared after lower-casing |
| CliNetwork.SelectionByType | Java/MoppyCLI/src/main/java/com/moppy/cli/network/CLINetworkManager.java:53-66 | "udp" gives UDP only, "serial" no UDP, "all" and anything else UDP plus every serial port |
| CliNetwork.SerialWithPort | Java/MoppyCLI/src/main/java/com/moppy/cli/network/CLINetworkManager.java:84-92 | "serial" with a usable port creates just that port's bridge |
| CliNetwork.PongDevice | Java/MoppyCLI/src/main/java/com/moppy/cli/network/CLINetworkManager.java:176-183 | the descriptor is filed under remoteId, a colon and the unsigned device address |
| CliNetwork.KeyInjective | Java/MoppyCLI/src/main/java/com/moppy/cli/network/CLINetworkManager.java:183 | two keys are equal only for the same remote id and device address |
| CliNetwork.PongKeepsKeys | Java/MoppyCLI/src/main/java/com/moppy/cli/network/CLINetworkManager.java:183-184 | a pong keeps every descriptor under its own key |
| CliNetwork.NoSystemCheck | Java/MoppyCLI/src/main/java/com/moppy/cli/network/CLINetworkManager.java:162-166 | whether a pong is a system message does not matter; any other command is ignored |
| CliNetwork.RangeChangeIsSilent | Java/MoppyCLI/src/main/java/com/moppy/cli/network/CLINetworkManager.java:184-193 | a known device with a new range replaces its descriptor, publishes nothing and keeps the count |
| CliNetwork.ValuesByKey | Java/MoppyCLI/src/main/java/com/moppy/cli/network/CLINetworkManager.java:183-184 | a descriptor is stored exactly when its own key maps to it |
| CliNetwork.ListingComplete | Java/MoppyCLI/src/main/java/com/moppy/cli/network/CLINetworkManager.java:157-159 | a key-by-key listing holds every stored descriptor exactly once |
| CliNetwork.CopyValues | Java/MoppyCLI/src/main/java/com/moppy/cli/network/CLINetworkManager.java:158 | the copy lists the descriptors key by key |
| CliNetwork.CliNetworkManager.constructor | Java/MoppyCLI/src/main/java/com/moppy/cli/network/CLINetworkManager.java:41-51 | creates the bridges the network type selects, adds each to the MultiBridge, and starts with an empty registry |
| CliNetwork.CliNetworkManager.InitializeBridges | Java/MoppyCLI/src/main/java/com/moppy/cli/network/CLINetworkManager.java:53-72 | appends SelectBridges' bridges and adds every bridge to the MultiBridge in order |
| CliNetwork.CliNetworkManager.CreateBridges | Java/MoppyCLI/src/main/java/com/moppy/cli/network/CLINetworkManager.java:54-66 | the switch appends exactly SelectBridges' bridges |
| CliNetwork.CliNetworkManager.AddBridgesToMultiBridge | Java/MoppyCLI/src/main/java/com/moppy/cli/network/CLINetworkManager.java:68-71 | one addBridge per bridge, in order |
| CliNetwork.CliNetworkManager.InitializeUdpBridge | Java/MoppyCLI/src/main/java/com/moppy/cli/network/CLINetworkManager.java:74-82 | the UDP bridge is appended unless its constructor throws |
| CliNetwork.CliNetworkManager.InitializeSerialBridge | Java/MoppyCLI/src/main/java/com/moppy/cli/network/CLINetworkManager.java:84-96 | a non-empty port gives that bridge (if it builds), otherwise every serial port |
| CliNetwork.CliNetworkManager.InitializeSerialBridges | Java/MoppyCLI/src/main/java/com/moppy/cli/network/CLINetworkManager.java:98-109 | one bridge per listed port whose constructor does not throw, in order |
| CliNetwork.CliNetworkManager.Start | Java/MoppyCLI/src/main/java/com/moppy/cli/network/CLINetworkManager.java:111-130 | a no-op when started; otherwise tries every bridge once, failures and all, then schedules discovery and sets the flag, unless close has shut the scheduler down, in which case the scheduling is rejected and the manager stays unstarted |
| CliNetwork.CliNetworkManager.PingTick | Java/MoppyCLI/src/main/java/com/moppy/cli/network/CLINetworkManager.java:134-140 | the ping task sends SYS_PING and changes nothing else |
| CliNetwork.CliNetworkManager.CleanupTick | Java/MoppyCLI/src/main/java/com/moppy/cli/network/CLINetworkManager.java:143-150 | the cleanup task leaves the registry unchanged |
| CliNetwork.CliNetworkManager.AcceptNetworkMessage | Java/MoppyCLI/src/main/java/com/moppy/cli/network/CLINetworkManager.java:161-198 | the registry and the bus move as AfterPong and PongNotices say, keeping every descriptor under its own key |
| CliNetwork.CliNetworkManager.GetDiscoveredDevices | Java/MoppyCLI/src/main/java/com/moppy/cli/network/CLINetworkManager.java:157-159 | a new list of exactly the stored descriptors, each once, as many as the registry holds |
| CliNetwork.CliNetworkManager.Close | Java/MoppyCLI/src/main/java/com/moppy/cli/network/CLINetworkManager.java:200-221 | shuts the scheduler down for good and closes every bridge once, in order, whatever fails |
| CliPlayer.ReactionTo | Java/MoppyCLI/src/main/java/com/moppy/cli/player/CLIMIDIPlayer.java:39-58 | an update restarts the song exactly for SEQUENCE_END while looping and playing, and finishes exactly for SEQUENCE_STOPPED or any other SEQUENCE_END |
| CliPlayer.CountDown | Java/MoppyCLI/src/main/java/com/moppy/cli/player/CLIMIDIPlayer.java:93 | the latch drops by one, never below zero |
| CliPlayer.StartAndPause | Java/MoppyCLI/src/main/java/com/moppy/cli/player/CLIMIDIPlayer.java:61-79 | SEQUENCE_START sets isPlaying; SEQUENCE_PAUSE clears it; neither touches the latch |
| CliPlayer.StopCountsDownOnce | Java/MoppyCLI/src/main/java/com/moppy/cli/player/CLIMIDIPlayer.java:81-94 | SEQUENCE_STOPPED clears isPlaying and counts the latch down exactly once |
| CliPlayer.LoopingEndRestarts | Java/MoppyCLI/src/main/java/com/moppy/cli/player/CLIMIDIPlayer.java:96-103 | SEQUENCE_END while looping and playing calls setSecondsPosition(0) then play and leaves the latch alone |
| CliPlayer.EndActsAsStop | Java/MoppyCLI/src/main/java/com/moppy/cli/player/CLIMIDIPlayer.java:104-106 | any other SEQUENCE_END acts exactly as SEQUENCE_STOPPED |
| CliPlayer.OtherUpdatesIgnored | Java/MoppyCLI/src/main/java/com/moppy/cli/player/CLIMIDIPlayer.java:53-57 | other update types change nothing |
| CliPlayer.LatchNeverRises | Java/MoppyCLI/src/main/java/com/moppy/cli/player/CLIMIDIPlayer.java:38-107 | no run of updates raises the latch count |
| CliPlayer.FirstStopOrEndReleases | Java/MoppyCLI/src/main/java/com/moppy/cli/player/CLIMIDIPlayer.java:81-106 | without looping, any run with a stop or an end releases a latch of one |
| CliPlayer.LoopingNeverReleases | Java/MoppyCLI/src/main/java/com/moppy/cli/player/CLIMIDIPlayer.java:96-103 | while looping and playing, ends never release the latch and playing continues |
| CliPlayer.CliMidiPlayer.constructor | Java/MoppyCLI/src/main/java/com/moppy/cli/player/CLIMIDIPlayer.java:26-36 | a new player is not playing, with the given latch and bar |
| CliPlayer.CliMidiPlayer.ReceiveUpdate | Java/MoppyCLI/src/main/java/com/moppy/cli/player/CLIMIDIPlayer.java:38-59 | the flags move as Next; the bar is reset and finished exactly when the update finishes, else untouched |
| CliPlayer.CliMidiPlayer.HandleSequenceStart | Java/MoppyCLI/src/main/java/com/moppy/cli/player/CLIMIDIPlayer.java:61-71 | playing, and one progress task when there is a bar; a shut-down updater refuses it |
| CliPlayer.CliMidiPlayer.HandleSequencePause | Java/MoppyCLI/src/main/java/com/moppy/cli/player/CLIMIDIPlayer.java:73-79 | not playing; nothing else changes |
| CliPlayer.CliMidiPlayer.HandleSequenceStop | Java/MoppyCLI/src/main/java/com/moppy/cli/player/CLIMIDIPlayer.java:81-94 | not playing, the bar updated to zero and finished, the latch counted down once |
| CliPlayer.CliMidiPlayer.HandleSequenceEnd | Java/MoppyCLI/src/main/java/com/moppy/cli/player/CLIMIDIPlayer.java:96-107 | rewinds and replays when looping and playing, else acts as a stop |
| CliPlayer.CliMidiPlayer.UpdateProgress | Java/MoppyCLI/src/main/java/com/moppy/cli/player/CLIMIDIPlayer.java:109-114 | the bar receives the position only while playing with a bar; otherwise it is untouched |
| CliPlayer.CliMidiPlayer.Shutdown | Java/MoppyCLI/src/main/java/com/moppy/cli/player/CLIMIDIPlayer.java:123-135 | the progress updater accepts no more tasks |
| ProgressBar.Progress | Java/MoppyCLI/src/main/java/com/moppy/cli/util/ConsoleProgressBar.java:39-41 | progress lies in [0, 1]; it is 0 for an empty total, current/total within the song and 1 past it |
| ProgressBar.FilledInRange | Java/MoppyCLI/src/main/java/com/moppy/cli/util/ConsoleProgressBar.java:43 | for a non-negative width the filled width lies in [0, width], 0 at the start and full at the end |
| ProgressBar.BarTextShape | Java/MoppyCLI/src/main/java/com/moppy/cli/util/ConsoleProgressBar.java:49-62 | the bar is exactly width characters: filled '=' characters, a '>' exactly when not full, then spaces |
| ProgressBar.CompleteSongFillsBar | Java/MoppyCLI/src/main/java/com/moppy/cli/util/ConsoleProgressBar.java:39-65 | once the time reaches the total the bar is all '=' and shows 100 |
| ProgressBar.RoundHalfUp | Java/MoppyCLI/src/main/java/com/moppy/cli/util/ConsoleProgressBar.java:65 | `%.0f` gives the integer within half a unit of the value |
| ProgressBar.PercentTextShape | Java/MoppyCLI/src/main/java/com/moppy/cli/util/ConsoleProgressBar.java:65 | the percentage is exactly three characters and at most 100 |
| ProgressBar.FormatDurationReadsBack | Java/MoppyCLI/src/main/java/com/moppy/cli/util/ConsoleProgressBar.java:75-79 | the seconds field is below 60 and the text reads back to the whole seconds |
| ProgressBar.BuildBar | Java/MoppyCLI/src/main/java/com/moppy/cli/util/ConsoleProgressBar.java:49-62 | the two loops and the indicator build exactly BarText |
| ProgressBar.ConsoleProgressBar.constructor | Java/MoppyCLI/src/main/java/com/moppy/cli/util/ConsoleProgressBar.java:15-17 | the one-argument constructor uses width 50 and starts unfinished at zero |
| ProgressBar.ConsoleProgressBar.WithWidth | Java/MoppyCLI/src/main/java/com/moppy/cli/util/ConsoleProgressBar.java:19-22 | the two-argument constructor takes the given width |
| ProgressBar.ConsoleProgressBar.Update | Java/MoppyCLI/src/main/java/com/moppy/cli/util/ConsoleProgressBar.java:24-31 | after finish nothing changes; otherwise the time is taken and one frame is printed |
| ProgressBar.ConsoleProgressBar.Finish | Java/MoppyCLI/src/main/java/com/moppy/cli/util/ConsoleProgressBar.java:33-36 | marks the bar finished and ends the line |
| ProgressBar.ConsoleProgressBar.Display | Java/MoppyCLI/src/main/java/com/moppy/cli/util/ConsoleProgressBar.java:38-73 | the printed frame is Frame of the total, the width and the current time |
| DevicesCmd.Truncate | Java/MoppyCLI/src/main/java/com/moppy/cli/commands/DevicesCommand.java:99-104 | null gives ""; a string that fits is kept; a longer one becomes its first maxLength-3 characters plus "...", exactly maxLength long; it throws exactly when maxLength < 3 and the string is too long |
| DevicesCmd.RangeSize | Java/MoppyCLI/src/main/java/com/moppy/cli/commands/DevicesCommand.java:84-87 | the range lo..hi holds exactly the integers between its bounds, hi-lo+1 of them |
| DevicesCmd.SubAddressCountIsRangeSize | Java/MoppyCLI/src/main/java/com/moppy/cli/commands/DevicesCommand.java:87 | the printed count is the number of sub-addresses (1..256) for an ordered range, and not positive for a reversed one |
| DevicesCmd.ExitCode | Java/MoppyCLI/src/main/java/com/moppy/cli/commands/DevicesCommand.java:50-96 | 1 exactly when no device answered, 0 otherwise |
| DevicesCmd.AddressCell | Java/MoppyCLI/src/main/java/com/moppy/cli/commands/DevicesCommand.java:70 | the address column holds at most 20 characters and keeps an address that fits |
| DevicesCmd.RowsAligned | Java/MoppyCLI/src/main/java/com/moppy/cli/commands/DevicesCommand.java:63-76 | every device row is as wide as the table's borders |
| ButtonSettings.Pins | RaspPi/moppy_buttons/moppy_buttons/config.py:74 | the pins in button order |
| ButtonSettings.DistinctIffSameSize | RaspPi/moppy_buttons/moppy_buttons/config.py:74-76 | the set of pins is never larger than the list, and equally large exactly when no pin repeats |
| ButtonSettings.FirstMissing | RaspPi/moppy_buttons/moppy_buttons/config.py:78-80 | none exactly when every file exists; otherwise the first button's file, in order, that does not |
| ButtonSettings.Validate | RaspPi/moppy_buttons/moppy_buttons/config.py:69-80 | no buttons, then duplicate pins, then the first missing file; it passes exactly when there are buttons, no pin repeats and every file exists |
| ButtonSettings.SharedPinRejected | RaspPi/moppy_buttons/moppy_buttons/config.py:74-76 | two buttons on one pin are refused, whatever their files |
| Buttons.PlaySongOutcome | RaspPi/moppy_buttons/moppy_buttons/button_handler.py:86-99 | stop is called first exactly when a song plays; unless it raises, afterwards at most this pin plays, and it does exactly when load and play succeed |
| Buttons.PauseSongOutcome | RaspPi/moppy_buttons/moppy_buttons/button_handler.py:107-111 | the pin leaves the playing set exactly when pause succeeds, and no other pin changes |
| Buttons.StopAllOutcome | RaspPi/moppy_buttons/moppy_buttons/button_handler.py:115-118 | stop is called exactly when a song plays and, unless it raises, nothing plays afterwards |
| Buttons.UnconfiguredPinIgnored | RaspPi/moppy_buttons/moppy_buttons/button_handler.py:50-52 | a pin without configuration makes no call and changes nothing |
| Buttons.PressBranches | RaspPi/moppy_buttons/moppy_buttons/button_handler.py:58-71 | the pause branch is taken when the pin plays, the status says playing and the current name is in the file; otherwise the button's song is loaded |
| Buttons.PressKeepsConsistent | RaspPi/moppy_buttons/moppy_buttons/button_handler.py:43-76 | every press leaves at most one configured pin playing |
| Buttons.MoppyButtonHandler.constructor | RaspPi/moppy_buttons/moppy_buttons/button_handler.py:11-24 | no configurations, nothing playing, nothing being processed |
| Buttons.MoppyButtonHandler.AddButtonConfig | RaspPi/moppy_buttons/moppy_buttons/button_handler.py:26-35 | files the configuration under its pin, replacing an earlier one, and keeps the handler consistent |
| Buttons.MoppyButtonHandler.BeginPress | RaspPi/moppy_buttons/moppy_buttons/button_handler.py:43-47 | a busy pin returns at once with nothing changed; otherwise the pin is marked busy |
| Buttons.MoppyButtonHandler.CompletePress | RaspPi/moppy_buttons/moppy_buttons/button_handler.py:49-76 | playing set and calls move as PressEffect, the pin is no longer busy on every path, at most one pin plays |
| Buttons.MoppyButtonHandler.HandleButtonPress | RaspPi/moppy_buttons/moppy_buttons/button_handler.py:37-76 | a busy pin is ignored; otherwise the press acts as PressEffect and the busy set is restored |
| Buttons.MoppyButtonHandler.PlaySong | RaspPi/moppy_buttons/moppy_buttons/button_handler.py:78-99 | playing set and calls move as PlayEffect |
| Buttons.MoppyButtonHandler.PauseSong | RaspPi/moppy_buttons/moppy_buttons/button_handler.py:101-111 | playing set and calls move as PauseEffect |
| Buttons.MoppyButtonHandler.StopAll | RaspPi/moppy_buttons/moppy_buttons/button_handler.py:113-118 | playing set and calls move as StopAllEffect; an exception from stop reaches the caller |
| Buttons.MoppyButtonHandler.PlayingPins | RaspPi/moppy_buttons/moppy_buttons/button_handler.py:120-126 | a copy of the playing set, never more than one pin |

## Left out

- Threads and timers. The pinger thread, the scheduled executors and
  CompletableFuture are not modelled as concurrency. Each loop pass,
  scheduled task or callback is one sequential step, and `now` is a
  parameter. The API pinger's cull reads `Instant.now()` once per entry;
  the model uses one `now` for the whole pass. `synchronized` and the interleaving of awaits are also not
  modelled, except that a button press is split at its first await.
- Buttons.MoppyButtonHandler.PlaySong: it runs as one step. With awaits
  inside it interleaved with another pin's press, the source could reach
  two playing pins. The at-most-one invariant is proved only for whole
  `_play_song` steps.
- The library: wire framing, the bridges' sockets and serial ports, the
  sequencer's timing and the status bus's delivery. They are call traces
  and inputs. Registering the managers as MultiBridge receivers and the
  playback service as a status-bus consumer is not recorded.
- ApiPlayback.PlaybackService: the sequencer's synchronous calls (play
  when resuming, pause, stop, setSecondsPosition, setTempo) are assumed
  not to throw. In the source such an exception would leave the state
  unchanged, for example still PAUSED.
- ApiNetwork.NetworkManager.PingerIteration: the `Thread.interrupted()`
  test at the loop head is the caller's. Only an interrupt during the
  sleep is an input.
- Logging, console messages other than the progress bar, and the verbose
  output of the player and the `devices` command.
- Floating point. Reals are exact, so `(double) a / b` and `%3.0f` are not
  modelled with double rounding. `ProgressBar.RoundHalfUp` rounds the
  exact value half up.
- ProgressBar.ConsoleProgressBar: durations are whole milliseconds. The
  player passes whole seconds, and sub-millisecond parts are not modelled.
- Java `toLowerCase` is ASCII folding (`Text.AsciiLower`). It matches
  "udp", "serial", "all" and the MIDI extensions except under locales
  that fold other letters.
- `new File(path).getName()` is modelled for '/' separators only
  (`ApiPlayback.FileName`). File existence is an input.
- Python's `in` on strings is `Text.Contains`. JSON status fields are the
  `Status` reply with their defaults already applied.
- Operations outside the modelled core: PlaybackService `updateState` and
  `shutdown`, NetworkManager `getAvailableNetworkBridges`,
  `getRecentlySeenDevices`, `getConnectedBridgeCount`, `getPrimaryBridge`
  and `isStarted`, the HTTP server, the command classes' wiring,
  `Config.from_yaml`, and the GPIO and logger wrappers.
