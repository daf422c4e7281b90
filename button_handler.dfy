/** The button controller's MoppyButtonHandler: a table of button
    configurations, the set of pins whose song is playing, and the set of pins
    whose press is being handled. The API client is a recorded trace of
    calls, and each call's reply is an input. A press is handled in two steps,
    so that other presses may run between them as they may between the
    handler's awaits: BeginPress marks the pin busy, CompletePress does the
    rest. */
module Buttons {
  import opened Common
  import opened Text
  import opened ButtonSettings

  /** The API client calls the handler makes. */
  datatype ApiCall = GetStatus | StopCall | LoadSong(file: string) | PlayCall | PauseCall

  /** What one of load_song, play, pause or stop gives back: True, False, or
      an exception. */
  datatype Reply = Succeeded | Failed | Raised

  /** What get_status gives back: the "fileName" and "isPlaying" fields (their
      defaults when absent), or an exception. */
  datatype StatusReply = Status(fileName: string, isPlaying: bool) | StatusRaised

  /** The replies one press may consume. */
  datatype Replies = Replies(status: StatusReply, pause: Reply, stop: Reply, load: Reply, play: Reply)

  /** The handler's playing set after a step, and the calls the step made. */
  datatype Effect = Effect(playing: set<int>, calls: seq<ApiCall>)

  /** _play_song: stop and forget the playing song if there is one, then load
      and play; the pin is playing only when both succeed. An exception from
      any call ends the step where it was raised. */
  function PlayEffect(playing: set<int>, pin: int, file: string, stop: Reply, load: Reply, play: Reply): Effect
  {
    var before := if playing != {} then [StopCall] else [];
    if playing != {} && stop == Raised then Effect(playing, before)
    else if load != Succeeded then Effect({}, before + [LoadSong(file)])
    else if play != Succeeded then Effect({}, before + [LoadSong(file), PlayCall])
    else Effect({pin}, before + [LoadSong(file), PlayCall])
  }

  /** _pause_song: the pin stops counting as playing only if pause succeeded. */
  function PauseEffect(playing: set<int>, pin: int, pause: Reply): Effect
  {
    Effect(if pause == Succeeded then playing - {pin} else playing, [PauseCall])
  }

  /** stop_all: stop only when something is playing, then forget it (unless stop raised). */
  function StopAllEffect(playing: set<int>, stop: Reply): Effect
  {
    if playing == {} then Effect(playing, [])
    else if stop == Raised then Effect(playing, [StopCall])
    else Effect({}, [StopCall])
  }

  /** The test that chooses pause over play. */
  predicate TakesPauseBranch(playing: set<int>, pin: int, file: string, status: StatusReply)
  {
    status.Status? && pin in playing && status.isPlaying && Contains(file, status.fileName)
  }

  /** handle_button_press once the pin is marked busy: nothing for an unknown
      pin; otherwise ask for the status and pause or play. */
  function PressEffect(configs: map<int, ButtonConfig>, playing: set<int>, pin: int, r: Replies): Effect
  {
    if pin !in configs then Effect(playing, [])
    else if r.status.StatusRaised? then Effect(playing, [GetStatus])
    else
      var e :=
        if TakesPauseBranch(playing, pin, configs[pin].file, r.status) then PauseEffect(playing, pin, r.pause)
        else PlayEffect(playing, pin, configs[pin].file, r.stop, r.load, r.play);
      Effect(e.playing, [GetStatus] + e.calls)
  }

  /** Stopping whatever plays happens first and exactly when something
      plays; unless it raises, afterwards only this pin can be playing, and
      it is exactly when both load and play succeeded. */
  lemma PlaySongOutcome(playing: set<int>, pin: int, file: string, stop: Reply, load: Reply, play: Reply)
    ensures var e := PlayEffect(playing, pin, file, stop, load, play);
      (playing != {} <==> |e.calls| > 0 && e.calls[0] == StopCall)
      && (playing != {} && stop == Raised ==> e == Effect(playing, [StopCall]))
      && (playing == {} || stop != Raised ==>
            e.playing <= {pin} && (e.playing == {pin} <==> load == Succeeded && play == Succeeded)
            && LoadSong(file) in e.calls)
  {
  }

  /** Pause drops the pin exactly when it succeeds and touches no other pin. */
  lemma PauseSongOutcome(playing: set<int>, pin: int, pause: Reply)
    ensures PauseEffect(playing, pin, pause).playing - {pin} == playing - {pin}
    ensures pin in PauseEffect(playing, pin, pause).playing <==> pin in playing && pause != Succeeded
  {
  }

  /** stop_all calls stop exactly when something plays and, unless stop
      raised, leaves nothing playing. */
  lemma StopAllOutcome(playing: set<int>, stop: Reply)
    ensures StopAllEffect(playing, stop).calls == (if playing == {} then [] else [StopCall])
    ensures stop != Raised ==> StopAllEffect(playing, stop).playing == {}
  {
  }

  /** A pin without configuration makes no call and changes nothing. */
  lemma UnconfiguredPinIgnored(configs: map<int, ButtonConfig>, playing: set<int>, pin: int, r: Replies)
    requires pin !in configs
    ensures PressEffect(configs, playing, pin, r) == Effect(playing, [])
  {
  }

  /** Pressing the playing button while its song plays pauses it; pressing
      any other configured button loads and plays that button's song. */
  lemma PressBranches(configs: map<int, ButtonConfig>, playing: set<int>, pin: int, r: Replies)
    requires pin in configs && r.status.Status?
    ensures TakesPauseBranch(playing, pin, configs[pin].file, r.status) ==>
      PressEffect(configs, playing, pin, r).calls == [GetStatus, PauseCall]
    ensures !TakesPauseBranch(playing, pin, configs[pin].file, r.status) ==>
      LoadSong(configs[pin].file) in PressEffect(configs, playing, pin, r).calls
      || (playing != {} && r.stop == Raised)
  {
    var e := PlayEffect(playing, pin, configs[pin].file, r.stop, r.load, r.play);
    PlaySongOutcome(playing, pin, configs[pin].file, r.stop, r.load, r.play);
    if !TakesPauseBranch(playing, pin, configs[pin].file, r.status) && !(playing != {} && r.stop == Raised) {
      assert LoadSong(configs[pin].file) in e.calls;
      assert PressEffect(configs, playing, pin, r).calls == [GetStatus] + e.calls;
    }
  }

  /** At most one pin plays, only configured pins play, and each
      configuration sits under its own pin. */
  predicate Consistent(configs: map<int, ButtonConfig>, playing: set<int>)
  {
    |playing| <= 1 && playing <= configs.Keys && forall p :: p in configs ==> configs[p].pin == p
  }

  /** Every press keeps the handler consistent. */
  lemma PressKeepsConsistent(configs: map<int, ButtonConfig>, playing: set<int>, pin: int, r: Replies)
    requires Consistent(configs, playing)
    ensures Consistent(configs, PressEffect(configs, playing, pin, r).playing)
  {
    var after := PressEffect(configs, playing, pin, r).playing;
    if pin in configs && r.status.Status? {
      if TakesPauseBranch(playing, pin, configs[pin].file, r.status) {
        assert after <= playing;
        SubsetNoLarger(after, playing);
      } else {
        PlaySongOutcome(playing, pin, configs[pin].file, r.stop, r.load, r.play);
        if after != playing {
          SubsetNoLarger(after, {pin});
        }
      }
    }
  }

  class MoppyButtonHandler {
    var configs: map<int, ButtonConfig>
    var playing: set<int>
    var processing: set<int>
    var calls: seq<ApiCall>

    predicate Valid()
      reads this
    {
      Consistent(configs, playing)
    }

    constructor ()
      ensures Valid()
      ensures configs == map[] && playing == {} && processing == {} && calls == []
    {
      configs := map[];
      playing := {};
      processing := {};
      calls := [];
    }

    /** add_button_config: file the configuration under its pin, replacing any earlier one. */
    method AddButtonConfig(config: ButtonConfig)
      requires Valid()
      modifies this
      ensures Valid()
      ensures configs == old(configs)[config.pin := config]
      ensures playing == old(playing) && processing == old(processing) && calls == old(calls)
    {
      configs := configs[config.pin := config];
    }

    /** handle_button_press up to its first await: a busy pin returns at
        once; otherwise the pin is marked busy. */
    method BeginPress(pin: int) returns (proceed: bool)
      modifies this
      ensures proceed <==> pin !in old(processing)
      ensures !proceed ==> unchanged(this)
      ensures processing == old(processing) + {pin}
      ensures configs == old(configs) && playing == old(playing) && calls == old(calls)
    {
      if pin in processing {
        return false;
      }
      processing := processing + {pin};
      return true;
    }

    /** The rest of handle_button_press: look up the pin, ask for the status,
        pause or play; whatever happens the pin is no longer busy. */
    method CompletePress(pin: int, r: Replies)
      requires Valid()
      modifies this
      ensures Valid()
      ensures playing == PressEffect(old(configs), old(playing), pin, r).playing
      ensures calls == old(calls) + PressEffect(old(configs), old(playing), pin, r).calls
      ensures processing == old(processing) - {pin} && configs == old(configs)
    {
      PressKeepsConsistent(configs, playing, pin, r);
      if pin in configs {
        var config := configs[pin];
        calls := calls + [GetStatus];
        match r.status {
          case StatusRaised =>
          case Status(currentFile, isPlaying) =>
            if pin in playing && isPlaying && Contains(config.file, currentFile) {
              PauseSong(pin, r.pause);
            } else {
              PlaySong(pin, config, r.stop, r.load, r.play);
            }
        }
      }
      processing := processing - {pin};
    }

    /** handle_button_press as one step, when no other press interleaves. */
    method HandleButtonPress(pin: int, r: Replies)
      requires Valid()
      modifies this
      ensures Valid()
      ensures pin in old(processing) ==> unchanged(this)
      ensures pin !in old(processing) ==>
        playing == PressEffect(old(configs), old(playing), pin, r).playing
        && calls == old(calls) + PressEffect(old(configs), old(playing), pin, r).calls
        && processing == old(processing) && configs == old(configs)
    {
      var proceed := BeginPress(pin);
      if proceed {
        CompletePress(pin, r);
      }
    }

    method PlaySong(pin: int, config: ButtonConfig, stop: Reply, load: Reply, play: Reply)
      modifies this
      ensures playing == PlayEffect(old(playing), pin, config.file, stop, load, play).playing
      ensures calls == old(calls) + PlayEffect(old(playing), pin, config.file, stop, load, play).calls
      ensures configs == old(configs) && processing == old(processing)
    {
      if playing != {} {
        calls := calls + [StopCall];
        if stop == Raised {
          return;
        }
        playing := {};
      }
      calls := calls + [LoadSong(config.file)];
      if load == Succeeded {
        calls := calls + [PlayCall];
        if play == Succeeded {
          playing := playing + {pin};
        }
      }
    }

    method PauseSong(pin: int, pause: Reply)
      modifies this
      ensures playing == PauseEffect(old(playing), pin, pause).playing
      ensures calls == old(calls) + PauseEffect(old(playing), pin, pause).calls
      ensures configs == old(configs) && processing == old(processing)
    {
      calls := calls + [PauseCall];
      if pause == Succeeded {
        playing := playing - {pin};
      }
    }

    /** stop_all; `raised` is the exception from stop passing to the caller. */
    method StopAll(stop: Reply) returns (raised: bool)
      requires Valid()
      modifies this
      ensures Valid()
      ensures raised <==> old(playing) != {} && stop == Raised
      ensures playing == StopAllEffect(old(playing), stop).playing
      ensures calls == old(calls) + StopAllEffect(old(playing), stop).calls
      ensures configs == old(configs) && processing == old(processing)
    {
      raised := false;
      if playing != {} {
        calls := calls + [StopCall];
        if stop == Raised {
          return true;
        }
        playing := {};
      }
    }

    /** get_playing_pins: a copy of the playing set, never more than one pin. */
    function PlayingPins(): (pins: set<int>)
      reads this
      requires Valid()
      ensures pins == playing && |pins| <= 1
    {
      playing
    }
  }
}
