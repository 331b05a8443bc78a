/** One pass of the `while True` loop of feathereminMain.py: the rotary
    wheel sets the note delay, the wheel's push button toggles chromatic
    mode, gestures step the waveform and LFO selections, and the main range
    reading picks a note to play (plus a drone pitch in drone mode) or stops
    the sound. Sensor readings come in as parameters; the synthesizer calls
    the pass makes come out as a list of SynthCall values. */
module Featheremin {
  import opened Wrappers

  const WaveformTypes: seq<string> := ["Square", "Sine", "Saw"]
  const LfoModes: seq<string> := ["LFO Off", "Tremolo", "Vibrato", "Drone"]

  function Min(a: int, b: int): int { if a < b then a else b }
  function Max(a: int, b: int): int { if a < b then b else a }

  /** clamp(num, min_value, max_value) = max(min(num, max_value), min_value). */
  function Clamp(num: int, minValue: int, maxValue: int): (r: int)
    ensures minValue <= maxValue ==> minValue <= r <= maxValue
    ensures minValue <= num <= maxValue ==> r == num
    ensures num < minValue || maxValue < minValue ==> r == minValue
    ensures minValue <= maxValue < num ==> r == maxValue
  {
    Max(Min(num, maxValue), minValue)
  }

  /** The waveform index after a gesture: 1 (down) steps back and 2 (up)
      steps forward through WaveformTypes, wrapping at both ends. */
  function WaveIndexAfter(waveIndex: int, gestureValue: int): (r: int)
    requires 0 <= waveIndex < |WaveformTypes|
    ensures 0 <= r < |WaveformTypes|
    ensures gestureValue != 1 && gestureValue != 2 ==> r == waveIndex
    ensures gestureValue == 1 ==> r == if waveIndex > 0 then waveIndex - 1 else |WaveformTypes| - 1
    ensures gestureValue == 2 ==> r == if waveIndex + 1 < |WaveformTypes| then waveIndex + 1 else 0
  {
    var n := |WaveformTypes|;
    if gestureValue == 1 then (waveIndex + n - 1) % n
    else if gestureValue == 2 then (waveIndex + 1) % n
    else waveIndex
  }

  /** The LFO index after a gesture: 3 (right) steps forward and 4 (left)
      steps back through LfoModes, wrapping at both ends. */
  function LfoIndexAfter(lfoIndex: int, gestureValue: int): (r: int)
    requires 0 <= lfoIndex < |LfoModes|
    ensures 0 <= r < |LfoModes|
    ensures gestureValue != 3 && gestureValue != 4 ==> r == lfoIndex
    ensures gestureValue == 3 ==> r == if lfoIndex + 1 < |LfoModes| then lfoIndex + 1 else 0
    ensures gestureValue == 4 ==> r == if lfoIndex > 0 then lfoIndex - 1 else |LfoModes| - 1
  {
    var n := |LfoModes|;
    if gestureValue == 3 then (lfoIndex + 1) % n
    else if gestureValue == 4 then (lfoIndex + n - 1) % n
    else lfoIndex
  }

  /** Down then up, or up then down, leaves the waveform where it was. */
  lemma WaveGesturesRoundTrip(waveIndex: int)
    requires 0 <= waveIndex < |WaveformTypes|
    ensures WaveIndexAfter(WaveIndexAfter(waveIndex, 1), 2) == waveIndex
    ensures WaveIndexAfter(WaveIndexAfter(waveIndex, 2), 1) == waveIndex
  {
  }

  /** Right then left, or left then right, leaves the LFO mode where it was. */
  lemma LfoGesturesRoundTrip(lfoIndex: int)
    requires 0 <= lfoIndex < |LfoModes|
    ensures LfoIndexAfter(LfoIndexAfter(lfoIndex, 3), 4) == lfoIndex
    ensures LfoIndexAfter(LfoIndexAfter(lfoIndex, 4), 3) == lfoIndex
  {
  }

  /** The chromatic flag and the "button still held" flag. */
  datatype ButtonState = ButtonState(chromatic: bool, held: bool)

  /** One pass of the wheel-button logic: a press that was not already held
      toggles chromatic mode; the held flag then follows the button. */
  function AfterButton(s: ButtonState, pressed: bool): (r: ButtonState)
    ensures r.held == pressed
    ensures r.chromatic != s.chromatic <==> pressed && !s.held
  {
    var toggled := if pressed && !s.held then ButtonState(!s.chromatic, true) else s;
    if !pressed then toggled.(held := false) else toggled
  }

  /** The button logic over successive passes, one reading per pass. */
  function AfterButtons(s: ButtonState, presses: seq<bool>): ButtonState
    decreases |presses|
  {
    if presses == [] then s else AfterButtons(AfterButton(s, presses[0]), presses[1..])
  }

  /** The number of presses in a run of readings: the passes whose reading is
      pressed while the one before it (or `prev`, for the first) was not. */
  function RisingEdges(prev: bool, presses: seq<bool>): nat
    decreases |presses|
  {
    if presses == [] then 0
    else (if presses[0] && !prev then 1 else 0) + RisingEdges(presses[0], presses[1..])
  }

  /** Chromatic mode toggles exactly once per press, however many passes the
      button stays down, and the held flag ends equal to the last reading. */
  lemma {:induction false} ButtonTogglesOncePerPress(s: ButtonState, presses: seq<bool>)
    ensures AfterButtons(s, presses).chromatic == (s.chromatic != (RisingEdges(s.held, presses) % 2 == 1))
    ensures AfterButtons(s, presses).held == if presses == [] then s.held else presses[|presses| - 1]
    decreases |presses|
  {
    if presses != [] {
      var next := AfterButton(s, presses[0]);
      ButtonTogglesOncePerPress(next, presses[1..]);
      if presses[1..] != [] {
        assert presses[1..][|presses[1..]| - 1] == presses[|presses| - 1];
      }
    }
  }

  /** Holding the button down for any number of passes after the pass that
      toggled changes nothing more. */
  lemma {:induction false} HoldingDoesNotRetoggle(s: ButtonState, presses: seq<bool>)
    requires s.held && forall i | 0 <= i < |presses| :: presses[i]
    ensures AfterButtons(s, presses) == s
    decreases |presses|
  {
    if presses != [] {
      HoldingDoesNotRetoggle(AfterButton(s, true), presses[1..]);
    }
  }

  /** The MIDI note for a range reading `r1` (mm) of the main sensor:
      r1 / 4 capped at 120, truncated to a whole note in chromatic mode. */
  function MidiNote(r1: int, chromatic: bool): (note: real)
    requires 0 < r1 < 1000
    ensures 0.0 <= note <= 120.0
    ensures chromatic ==> note == Min(r1 / 4, 120) as real
    ensures !chromatic ==> note == Min(r1, 480) as real / 4.0
  {
    QuarterFloor(r1);
    var midiNote := r1 as real / 4.0;
    var capped := if midiNote > 120.0 then 120.0 else midiNote;
    if chromatic then capped.Floor as real else capped
  }

  /** Truncating r1 / 4 agrees with integer division by 4. */
  lemma QuarterFloor(r1: int)
    requires r1 >= 0
    ensures (r1 as real / 4.0).Floor == r1 / 4
  {
    var q := r1 / 4;
    assert r1 == 4 * q + r1 % 4;
    assert r1 as real / 4.0 == q as real + (r1 % 4) as real / 4.0;
  }

  /** The drone's first pitch: r1 * 100 clamped to [1000, 20000]. */
  function DroneF1(r1: int): (f1: int)
    ensures 1000 <= f1 <= 20000
    ensures 10 <= r1 <= 200 ==> f1 == 100 * r1
    ensures r1 < 10 ==> f1 == 1000
    ensures r1 > 200 ==> f1 == 20000
  {
    Clamp(r1 * 100, 1000, 20000)
  }

  /** The synthesizer calls a pass can make. */
  datatype SynthCall =
    | SetWaveformSquare | SetWaveformSine | SetWaveformSaw
    | ClearTremolo | ClearVibrato
    | SetTremolo(rate: real) | SetVibrato(rate: real)
    | StartDrone(startFreq1: int, startFreq2: int)
    | Drone(freq1: int, freq2: real)
    | Play(note: real)
    | Pause(hundredths: int)  // time.sleep(hundredths / 100)
    | Stop

  predicate IsWaveformCall(c: SynthCall) {
    c.SetWaveformSquare? || c.SetWaveformSine? || c.SetWaveformSaw?
  }

  /** The WaveformTypes name of the waveform a call selects. */
  function WaveformCallName(c: SynthCall): string
    requires IsWaveformCall(c)
  {
    if c.SetWaveformSquare? then "Square" else if c.SetWaveformSine? then "Sine" else "Saw"
  }

  /** The call made after a waveform change: it selects the waveform whose
      name is shown, WaveformTypes[waveIndex]. */
  function WaveformCalls(waveIndex: int): (calls: seq<SynthCall>)
    requires 0 <= waveIndex < |WaveformTypes|
    ensures |calls| == 1 && IsWaveformCall(calls[0])
    ensures WaveformCallName(calls[0]) == WaveformTypes[waveIndex]
  {
    if waveIndex == 0 then [SetWaveformSquare]
    else if waveIndex == 1 then [SetWaveformSine]
    else [SetWaveformSaw]
  }

  /** The calls made after an LFO change: tremolo and vibrato are each set
      (rate 20) or cleared as the mode LfoModes[lfoIndex] needs, and the
      drone is started in drone mode. No call stops the drone when another
      mode is chosen. */
  function LfoCalls(lfoIndex: int): (calls: seq<SynthCall>)
    requires 0 <= lfoIndex < |LfoModes|
    ensures lfoIndex == 1 <==> SetTremolo(20.0) in calls
    ensures lfoIndex == 2 <==> SetVibrato(20.0) in calls
    ensures lfoIndex == 3 <==> StartDrone(1000, 1100) in calls
    ensures lfoIndex != 1 <==> ClearTremolo in calls
    ensures lfoIndex != 2 <==> ClearVibrato in calls
    ensures forall c | c in calls ::
      c in {ClearTremolo, ClearVibrato, SetTremolo(20.0), SetVibrato(20.0), StartDrone(1000, 1100)}
  {
    if lfoIndex == 0 then [ClearTremolo, ClearVibrato]
    else if lfoIndex == 1 then [SetTremolo(20.0), ClearVibrato]
    else if lfoIndex == 2 then [SetVibrato(20.0), ClearTremolo]
    else [ClearVibrato, ClearTremolo, StartDrone(1000, 1100)]
  }

  /** The call made from a secondary range reading `r2` (None when that
      sensor is missing or has no new data): a reading strictly between 0 and
      25 sets the tremolo rate (tremolo mode) or vibrato rate (vibrato mode)
      to the reading, raised to at least 5. */
  function ModulationCalls(lfoIndex: int, r2: Option<real>): (calls: seq<SynthCall>)
    ensures |calls| <= 1
    ensures calls != [] <==> r2.Some? && 0.0 < r2.value < 25.0 && (lfoIndex == 1 || lfoIndex == 2)
    ensures calls != [] ==> (calls[0].SetTremolo? <==> lfoIndex == 1) && (calls[0].SetVibrato? <==> lfoIndex == 2)
    ensures calls != [] ==> 5.0 <= calls[0].rate < 25.0
    ensures calls != [] ==> calls[0].rate == if r2.value < 5.0 then 5.0 else r2.value
  {
    match r2
    case None => []
    case Some(d) =>
      if 0.0 < d < 25.0 then
        var r2a := if 5.0 < d then d else 5.0;
        if lfoIndex == 1 then [SetTremolo(r2a)]
        else if lfoIndex == 2 then [SetVibrato(r2a)]
        else []
      else []
  }

  /** The value the loop holds in r2 once the secondary sensor has been
      polled: its reading if one was ready, otherwise 0. */
  function SecondaryRange(reading: Option<real>): (r2: real)
    ensures reading.None? ==> r2 == 0.0
    ensures reading.Some? ==> r2 == reading.value
  {
    match reading
    case Some(d) => d
    case None => 0.0
  }

  /** The calls made from the main range reading `r1` (mm): with 0 < r1 < 1000
      the drone is retuned (drone mode only) to a second frequency `r2` below
      the first, the note is played and the pass pauses; otherwise the sound
      stops. */
  function SoundCalls(lfoIndex: int, chromatic: bool, r1: int, r2: real, dSleepMilliseconds: int)
    : (calls: seq<SynthCall>)
    ensures !(0 < r1 < 1000) ==> calls == [Stop]
    ensures 0 < r1 < 1000 ==>
      && |calls| >= 2
      && calls[|calls| - 2] == Play(MidiNote(r1, chromatic))
      && calls[|calls| - 1] == Pause(dSleepMilliseconds)
      && Stop !in calls
    ensures 0 < r1 < 1000 && lfoIndex == 3 <==> |calls| == 3
    ensures |calls| == 3 ==>
      calls[0] == Drone(DroneF1(r1), DroneF1(r1) as real - r2) && 1000 <= calls[0].freq1 <= 20000
    ensures forall c | c in calls :: c.Drone? ==> c == calls[0] && |calls| == 3
  {
    if 0 < r1 < 1000 then
      var f1 := DroneF1(r1);
      (if lfoIndex == 3 then [Drone(f1, f1 as real - r2)] else [])
      + [Play(MidiNote(r1, chromatic)), Pause(dSleepMilliseconds)]
    else [Stop]
  }

  /** The loop variables of main() that survive from one pass to the next. */
  class MainLoop {
    var waveIndex: int
    var lfoIndex: int
    var dSleepMilliseconds: int
    var wheelPositionLast: Option<int>
    var chromatic: bool
    var wheelButtonHeld: bool

    ghost predicate Valid()
      reads this
    {
      && 0 <= waveIndex < |WaveformTypes|
      && 0 <= lfoIndex < |LfoModes|
      && 0 <= dSleepMilliseconds <= 100
    }

    /** The values main() sets before entering the loop. */
    constructor ()
      ensures Valid()
      ensures waveIndex == 0 && lfoIndex == 0 && dSleepMilliseconds == 0
      ensures wheelPositionLast == None && chromatic && !wheelButtonHeld
    {
      waveIndex := 0;
      lfoIndex := 0;
      dSleepMilliseconds := 0;
      wheelPositionLast := None;
      chromatic := true;
      wheelButtonHeld := false;
    }

    /** One pass of the loop, given the encoder's position, the button pin
        (false while pressed), the gesture code (0 for none), the main range
        r1 in mm and the secondary reading r2 if one is ready. */
    method Step(wheelPosition: int, wheelButtonValue: bool, gestureValue: int, r1: int, r2: Option<real>)
      returns (calls: seq<SynthCall>)
      requires Valid()
      modifies this
      ensures Valid()
      ensures var position := -wheelPosition;
        if old(wheelPositionLast) != Some(position)
        then wheelPositionLast == Some(position) && dSleepMilliseconds == Clamp(position, 0, 100)
        else wheelPositionLast == old(wheelPositionLast) && dSleepMilliseconds == old(dSleepMilliseconds)
      ensures ButtonState(chromatic, wheelButtonHeld)
           == AfterButton(ButtonState(old(chromatic), old(wheelButtonHeld)), !wheelButtonValue)
      ensures waveIndex == WaveIndexAfter(old(waveIndex), gestureValue)
      ensures lfoIndex == LfoIndexAfter(old(lfoIndex), gestureValue)
      ensures calls
           == (if gestureValue == 1 || gestureValue == 2 then WaveformCalls(waveIndex) else [])
            + (if gestureValue == 3 || gestureValue == 4 then LfoCalls(lfoIndex) else [])
            + ModulationCalls(lfoIndex, r2)
            + SoundCalls(lfoIndex, chromatic, r1, SecondaryRange(r2), dSleepMilliseconds)
    {
      ReadWheel(wheelPosition);
      ReadButton(wheelButtonValue);
      var changedWaveform, lfoChanged := ReadGesture(gestureValue);

      var gestureCalls := GestureCalls(changedWaveform, lfoChanged, waveIndex, lfoIndex);
      var modulation, range2 := Modulate(lfoIndex, r2);
      var sound := Sound(lfoIndex, chromatic, r1, range2, dSleepMilliseconds);
      calls := gestureCalls + modulation + sound;
    }

    /** The rotary encoder, negated so that clockwise is positive: a new
        position sets the pause after each note. */
    method ReadWheel(wheelPosition: int)
      requires Valid()
      modifies this`wheelPositionLast, this`dSleepMilliseconds
      ensures Valid()
      ensures var position := -wheelPosition;
        if old(wheelPositionLast) != Some(position)
        then wheelPositionLast == Some(position) && dSleepMilliseconds == Clamp(position, 0, 100)
        else wheelPositionLast == old(wheelPositionLast) && dSleepMilliseconds == old(dSleepMilliseconds)
    {
      var position := -wheelPosition;
      if wheelPositionLast != Some(position) {
        wheelPositionLast := Some(position);
        dSleepMilliseconds := Clamp(position, 0, 100);
      }
    }

    /** The encoder's button (its pin reads false while pressed) toggles
        chromatic mode once per press. */
    method ReadButton(wheelButtonValue: bool)
      modifies this`chromatic, this`wheelButtonHeld
      ensures ButtonState(chromatic, wheelButtonHeld)
           == AfterButton(ButtonState(old(chromatic), old(wheelButtonHeld)), !wheelButtonValue)
    {
      var wheelButtonPressed := !wheelButtonValue;
      if wheelButtonPressed && !wheelButtonHeld {
        chromatic := !chromatic;
        wheelButtonHeld := true;
      }
      if !wheelButtonPressed {
        wheelButtonHeld := false;
      }
    }

    /** Gestures 1 and 2 step the waveform, 3 and 4 the modulation mode,
        each wrapping round its list. */
    method ReadGesture(gestureValue: int) returns (changedWaveform: bool, lfoChanged: bool)
      requires Valid()
      modifies this`waveIndex, this`lfoIndex
      ensures Valid()
      ensures waveIndex == WaveIndexAfter(old(waveIndex), gestureValue)
      ensures lfoIndex == LfoIndexAfter(old(lfoIndex), gestureValue)
      ensures changedWaveform <==> gestureValue == 1 || gestureValue == 2
      ensures lfoChanged <==> gestureValue == 3 || gestureValue == 4
    {
      changedWaveform, lfoChanged := false, false;
      if gestureValue == 1 {
        waveIndex := waveIndex - 1;
        if waveIndex < 0 {
          waveIndex := |WaveformTypes| - 1;
        }
        changedWaveform := true;
      } else if gestureValue == 2 {
        waveIndex := waveIndex + 1;
        if waveIndex >= |WaveformTypes| {
          waveIndex := 0;
        }
        changedWaveform := true;
      } else if gestureValue == 3 {
        lfoIndex := lfoIndex + 1;
        if lfoIndex >= |LfoModes| {
          lfoIndex := 0;
        }
        lfoChanged := true;
      } else if gestureValue == 4 {
        lfoIndex := lfoIndex - 1;
        if lfoIndex < 0 {
          lfoIndex := |LfoModes| - 1;
        }
        lfoChanged := true;
      }
    }
  }

  // The three methods below are the statements of the loop body, proved
  // equal to the functions above that specify them. Step calls them in turn
  // so that each part of the pass is verified on its own.

  /** The synth calls made when the waveform or the modulation mode changed. */
  method GestureCalls(changedWaveform: bool, lfoChanged: bool, waveIndex: int, lfoIndex: int)
    returns (calls: seq<SynthCall>)
    requires 0 <= waveIndex < |WaveformTypes| && 0 <= lfoIndex < |LfoModes|
    ensures calls == (if changedWaveform then WaveformCalls(waveIndex) else [])
                   + (if lfoChanged then LfoCalls(lfoIndex) else [])
  {
    calls := [];
    if changedWaveform {
      if waveIndex == 0 {
        calls := calls + [SetWaveformSquare];
      } else if waveIndex == 1 {
        calls := calls + [SetWaveformSine];
      } else if waveIndex == 2 {
        calls := calls + [SetWaveformSaw];
      }
    }
    if lfoChanged {
      if lfoIndex == 0 {
        calls := calls + [ClearTremolo, ClearVibrato];
      } else if lfoIndex == 1 {
        calls := calls + [SetTremolo(20.0), ClearVibrato];
      } else if lfoIndex == 2 {
        calls := calls + [SetVibrato(20.0), ClearTremolo];
      } else if lfoIndex == 3 {
        calls := calls + [ClearVibrato, ClearTremolo, StartDrone(1000, 1100)];
      }
    }
  }

  /** A ready secondary reading under 25 sets the tremolo or vibrato rate,
      never below 5; the reading (0 when none) is kept as the drone's offset. */
  method Modulate(lfoIndex: int, reading: Option<real>) returns (calls: seq<SynthCall>, r2: real)
    ensures calls == ModulationCalls(lfoIndex, reading)
    ensures r2 == SecondaryRange(reading)
  {
    calls := [];
    r2 := 0.0;
    if reading.Some? {
      r2 := reading.value;
      if r2 > 0.0 && r2 < 25.0 {
        var r2a := if 5.0 < r2 then r2 else 5.0;
        if lfoIndex == 1 {
          calls := calls + [SetTremolo(r2a)];
        } else if lfoIndex == 2 {
          calls := calls + [SetVibrato(r2a)];
        }
      }
    }
  }

  /** A hand in range plays a note (after retuning the drone in drone mode)
      and pauses; otherwise the synth stops. */
  method Sound(lfoIndex: int, chromatic: bool, r1: int, r2: real, dSleepMilliseconds: int)
    returns (sound: seq<SynthCall>)
    ensures sound == SoundCalls(lfoIndex, chromatic, r1, r2, dSleepMilliseconds)
  {
    sound := [];
    if r1 > 0 && r1 < 1000 {
      if lfoIndex == 3 {
        var f1 := DroneF1(r1);
        var f2 := f1 as real - r2;
        sound := [Drone(f1, f2)];
      }
      sound := sound + [Play(MidiNote(r1, chromatic)), Pause(dSleepMilliseconds)];
    } else {
      sound := [Stop];
    }
  }
}
