/** The button controller's configuration check: at least one button, no pin
    configured twice, and every configured MIDI file present. Whether a path
    exists is an input: the set of paths that exist on the device. */
module ButtonSettings {
  import opened Common

  /** One button: its GPIO pin and the MIDI file it plays. */
  datatype ButtonConfig = ButtonConfig(pin: int, file: string)

  /** Why validate raises: ValueError for the first two, FileNotFoundError
      naming the file for the third. */
  datatype ConfigError = NoButtons | DuplicatePins | FileNotFound(file: string)

  /** The configured pins, in order. */
  function Pins(buttons: seq<ButtonConfig>): (pins: seq<int>)
    ensures |pins| == |buttons|
    ensures forall i :: 0 <= i < |buttons| ==> pins[i] == buttons[i].pin
  {
    if buttons == [] then [] else [buttons[0].pin] + Pins(buttons[1..])
  }

  /** Python's `set(pins)`. */
  function Elements(s: seq<int>): set<int>
  {
    set x | x in s
  }

  /** No value occurs twice. */
  predicate Distinct(s: seq<int>)
  {
    forall i, j :: 0 <= i < j < |s| ==> s[i] != s[j]
  }

  /** A list never has more distinct values than entries, and has as many
      exactly when no value repeats: `len(pins) != len(set(pins))` detects a
      duplicate and nothing else. */
  lemma {:induction false} DistinctIffSameSize(s: seq<int>)
    ensures |Elements(s)| <= |s|
    ensures |Elements(s)| == |s| <==> Distinct(s)
    decreases |s|
  {
    if s == [] {
      assert Elements(s) == {};
    } else {
      var t := s[1..];
      DistinctIffSameSize(t);
      ElementsCons(s);
      DistinctCons(s);
    }
  }

  /** The values of a non-empty list: its head and the values of its tail. */
  lemma ElementsCons(s: seq<int>)
    requires s != []
    ensures Elements(s) == {s[0]} + Elements(s[1..])
  {
    assert forall x :: x in s <==> x == s[0] || x in s[1..] by {
      assert s == [s[0]] + s[1..];
    }
  }

  /** A non-empty list repeats nothing exactly when its head is not in its
      tail and its tail repeats nothing. */
  lemma DistinctCons(s: seq<int>)
    requires s != []
    ensures Distinct(s) <==> s[0] !in s[1..] && Distinct(s[1..])
  {
    var t := s[1..];
    if s[0] in t {
      var k :| 0 <= k < |t| && t[k] == s[0];
      assert s[0] == s[k + 1];
    } else if Distinct(t) {
      forall i, j | 0 <= i < j < |s| ensures s[i] != s[j] {
        assert s[j] == t[j - 1];
        if i > 0 {
          assert s[i] == t[i - 1];
        }
      }
    } else {
      var i, j :| 0 <= i < j < |t| && t[i] == t[j];
      assert s[i + 1] == s[j + 1];
    }
  }

  /** The file of the first button, in order, whose file does not exist. */
  function FirstMissing(buttons: seq<ButtonConfig>, existing: set<string>): (r: Option<string>)
    ensures r.None? <==> forall i :: 0 <= i < |buttons| ==> buttons[i].file in existing
    ensures r.Some? ==> r.value !in existing && exists i :: (0 <= i < |buttons| && buttons[i].file == r.value
                          && forall j :: 0 <= j < i ==> buttons[j].file in existing)
  {
    if buttons == [] then None
    else if buttons[0].file !in existing then Some(buttons[0].file)
    else
      var rest := FirstMissing(buttons[1..], existing);
      if rest.Some? then
        var i :| 0 <= i < |buttons[1..]| && buttons[1..][i].file == rest.value
                 && forall j :: 0 <= j < i ==> buttons[1..][j].file in existing;
        assert buttons[i + 1].file == rest.value;
        rest
      else
        rest
  }

  /** validate: the empty check, then the duplicate check, then the files in
      order; the first failing check names the error, and None means it
      returned normally. */
  function Validate(buttons: seq<ButtonConfig>, existing: set<string>): (r: Option<ConfigError>)
    ensures r == Some(NoButtons) <==> buttons == []
    ensures r == Some(DuplicatePins) <==> buttons != [] && !Distinct(Pins(buttons))
    ensures r.Some? && r.value.FileNotFound? ==>
      buttons != [] && Distinct(Pins(buttons)) && FirstMissing(buttons, existing) == Some(r.value.file)
    ensures r.None? <==> (buttons != [] && Distinct(Pins(buttons))
                          && forall i :: 0 <= i < |buttons| ==> buttons[i].file in existing)
  {
    if |buttons| == 0 then Some(NoButtons)
    else
      var pins := Pins(buttons);
      DistinctIffSameSize(pins);
      if |pins| != |Elements(pins)| then Some(DuplicatePins)
      else match FirstMissing(buttons, existing)
        case Some(f) => Some(FileNotFound(f))
        case None => None
  }

  /** Two buttons on the same pin are refused, whatever their files. */
  lemma SharedPinRejected(buttons: seq<ButtonConfig>, existing: set<string>, i: nat, j: nat)
    requires i < j < |buttons| && buttons[i].pin == buttons[j].pin
    ensures Validate(buttons, existing) == Some(DuplicatePins)
  {
    assert Pins(buttons)[i] == Pins(buttons)[j];
  }
}
