# Featheremin in Dafny

A model of the logic of the Featheremin. The Featheremin is a theremin-like instrument built on a Feather microcontroller. A time-of-flight (ToF) range sensor sets the pitch. A gesture sensor and a rotary wheel choose waveforms and modulation. The model covers three scripts.

- `gestureMenu.py` → `gesture_menu.dfy` (module `Menu`). This is the gesture-driven menu.
  - A `MenuItem` cycles its selected option through its option list.
  - A `MenuHandler` keeps the ordered item list, the selected item key and an option-changed flag.
  - A `GestureMenu` maps gesture codes to menu moves and redraws a three-key window around the selected item.
  - The classes keep their fields and update them in place, as the source does.
  - `AfterGesture` is a pure specification. It states what each gesture does to the menu, and the gesture methods are proved against it.
- `feathereminMain.py` → `featheremin_main.dfy` (module `Featheremin`). This is one pass of the main `while True` loop, modelled as `MainLoop.Step`, together with the pure functions that specify it:
  - `clamp`;
  - the wheel sets the pause after each note;
  - a rising edge on the wheel button toggles chromatic mode;
  - gestures step the waveform and LFO indexes with wrap-around;
  - the synthesizer calls the pass makes, returned as a list of `SynthCall` values;
  - the MIDI note and the drone pitch computed from the range reading.
- `main.py` → `wave_tables.dfy` (module `WaveTables`).
  - The loop that fills the unsigned 16-bit (`array.array("H")`) square, triangle and sawtooth tables in place. The triangle's second half copies entries the loop has already written.
  - The gesture-driven choice among the five tables.
  - The continuous-mode sample rate.
  - `rangeToRate` and its pitch table.
- `lists.dfy` (module `Lists`) models the Python list idioms the menu relies on:
  - `list.index(x, start)`;
  - negative indexing;
  - the `lst[(lst.index(x) ± 1) % len(lst)]` neighbour step.
- `wrappers.dfy` (module `Wrappers`) defines `Option` and `Result`.

Sensors come in as method parameters:
- the gesture code, where 0 means no gesture;
- the wheel position;
- the button pin value;
- the main range `r1` in millimetres;
- the secondary range `r2`, given as `None` when no reading is ready.

Synthesizer and DAC effects come out as data (`SynthCall`, `DacCommand`). The display is represented only by the keys it shows.

## Model

| member | source | states |
|---|---|---|
| Lists.IndexFrom | gestureMenu.py:160 | `list.index(x, start)`: the first position at or after `start` holding `x`, or None (ValueError) exactly when no such position exists |
| Lists.PyIndex | gestureMenu.py:13 | Python indexing with negative indexes counting from the end; the element is in the list |
| Lists.Neighbour | gestureMenu.py:17-18 | `lst[(lst.index(x) + step) % len(lst)]` is always an element of the list |
| Lists.IndexOfDistinct | gestureMenu.py:17 | in a list without repeats, `index` finds the element's own position |
| Lists.NeighbourAt | gestureMenu.py:17-22 | without repeats, the step from position k lands on position (k + step) mod n |
| Lists.NextAt | gestureMenu.py:84-85 | in a list without repeats, the next element is at k + 1, or wraps to the first |
| Lists.PrevAt | gestureMenu.py:90-91 | in a list without repeats, the previous element is at k - 1, or wraps to the last |
| Lists.NeighbourRoundTrip | gestureMenu.py:16-22 | without repeats, next then previous and previous then next both return to the start |
| Lists.Advance | gestureMenu.py:16-18 | m successive "next" steps stay inside the list |
| Lists.AdvanceAt | gestureMenu.py:16-18 | in a list without repeats, m ≤ n next steps from position k land on k + m, wrapping once past the end |
| Lists.AdvanceFullCycle | gestureMenu.py:16-18 | n next steps through n distinct options return to the starting option |
| Menu.Names | gestureMenu.py:37-44 | the item list holds the entry names in input order, one per entry |
| Menu.InitialViewKeys | gestureMenu.py:37-44 | after the constructor loop the dictionary holds exactly the listed names |
| Menu.InitialViewOfDistinct | gestureMenu.py:37-43 | with distinct names, each item starts at `optionsList[optionDefaultIndex]` of its own entry |
| Menu.AfterGesture | gestureMenu.py:198-215 | a gesture keeps the item set, keeps the selected item listed, and keeps every selected option in its own options |
| Menu.ItemMoves | gestureMenu.py:83-92 | gestures 1 and 2 select the item at (k ± 1) mod n, clear the option-changed flag, and change no item's option |
| Menu.OptionMovesIsolated | gestureMenu.py:95-104 | gestures 3 and 4 keep the selected key, set the flag, leave every other item alone, and keep the option within its list |
| Menu.GestureRoundTrips | gestureMenu.py:83-104 | when the item list and the selected item's options hold no repeats, down then up restores the selected item, and left/right in either order restores the option |
| Menu.NoGestureNoChange | gestureMenu.py:201-202 | gesture 0 leaves the menu as it is |
| Menu.MenuItem.constructor | gestureMenu.py:10-14 | the selected option is `optionsList[optionIndex]` with Python indexing; the item starts inactive |
| Menu.MenuItem.SelectNextOption | gestureMenu.py:16-18 | the option becomes the one after the old option's first index, wrapping, and stays in the list |
| Menu.MenuItem.SelectPrevOption | gestureMenu.py:20-22 | the option becomes the one before the old option's first index, wrapping, and stays in the list |
| Menu.BuildMenu | gestureMenu.py:37-48 | the constructor loop gives one fresh MenuItem per name, the names in order, and the first name selected |
| Menu.BuildStep | gestureMenu.py:37-44 | adding one entry's fresh item under its name keeps every listed name in the dictionary, no object under two names, and the item states equal to the initial states of the entries so far |
| Menu.MenuHandler.constructor | gestureMenu.py:31-52 | item list = names in order; selected key = first name; option-changed flag False; each item at its default option |
| Menu.MenuHandler.GetItems | gestureMenu.py:58-62 | the item list, whose keys are exactly the items with a state |
| Menu.MenuHandler.GetSelectedItem | gestureMenu.py:65-66 | the selected key, None only for an empty menu, otherwise an item with a state |
| Menu.MenuHandler.GetItemOption | gestureMenu.py:73-76 | "?" for None, otherwise that item's current option, which is one of its options |
| Menu.MenuHandler.GetOptionsForItem | gestureMenu.py:79-80 | the item's options list, never empty |
| Menu.MenuHandler.SelectNextItem | gestureMenu.py:83-86 | selects the cyclic next item, clears the flag, leaves all options unchanged |
| Menu.MenuHandler.SelectPrevItem | gestureMenu.py:89-92 | selects the cyclic previous item, clears the flag, leaves all options unchanged |
| Menu.MenuHandler.SetNextOption | gestureMenu.py:95-98 | only the selected item's option moves to its next one, and no other field of any item is written; the key is unchanged and the flag is set |
| Menu.MenuHandler.SetPrevOption | gestureMenu.py:101-104 | only the selected item's option moves to its previous one, and no other field of any item is written; the key is unchanged and the flag is set |
| Menu.DisplayWindow | gestureMenu.py:150-167 | ValueError for an unlisted key; IndexError for one item; with 2 or more distinct items exactly [previous, selected, next] in cyclic order |
| Menu.FoundInDoubled | gestureMenu.py:154-160 | `keyList.index(key, 1)` on the doubled list fails exactly when the key is not listed, and otherwise returns a position from 1 to the number of keys, so the three-key slice starts inside the list |
| Menu.DoubledWindow | gestureMenu.py:160-161 | with two or more distinct keys the lookup lands on the key's own position (its copy for the first key) and the slice is [previous, selected, next] |
| Menu.WindowOfDoubled | gestureMenu.py:154-161 | for a listed key the slice runs past the end with one key, and with two or more holds three listed keys centred on the selected one, which are its cyclic neighbours when the keys are distinct |
| Menu.GestureMenu.constructor | gestureMenu.py:116-139 | builds the handler, keeps the window size, and draws the window centred on the first item |
| Menu.GestureMenu.UpdateDisplay | gestureMenu.py:144-167 | three listed keys are shown with the selected one in the middle, and with distinct items they are the window around it; the menu state is unchanged |
| Menu.GestureMenu.GetGesture | gestureMenu.py:198-215 | None for gesture 0 and the code otherwise; the menu state becomes AfterGesture of the old state; the display follows the selection |
| Menu.GestureMenu.GetItemAndOption | gestureMenu.py:170-182 | (None, None) for gesture 0 or when the option-changed flag is clear after the gesture; otherwise the selected item and its option; gesture 0 leaves the display as it was |
| Menu.GestureMenu.GetSelectedItem | gestureMenu.py:185-186 | the selected key, which is listed and shown in the middle text area |
| Menu.GestureMenu.GetSelectedOption | gestureMenu.py:189-190 | the selected item's current option, one of its options |
| Menu.GestureMenu.GetItemOption | gestureMenu.py:193-194 | "?" for None, otherwise the item's current option |
| Featheremin.Clamp | feathereminMain.py:209-210 | in [lo, hi] when lo ≤ hi; equal to num when num is in range; lo when num is below or the bounds are crossed; hi when num is above |
| Featheremin.WaveIndexAfter | feathereminMain.py:295-304 | gestures 1/2 step waveIndex back/forward with wrap, staying in [0, 3); other codes keep it |
| Featheremin.LfoIndexAfter | feathereminMain.py:305-314 | gestures 3/4 step lfoIndex forward/back with wrap, staying in [0, 4); other codes keep it |
| Featheremin.WaveGesturesRoundTrip | feathereminMain.py:295-304 | gesture 1 then 2, or 2 then 1, restores waveIndex |
| Featheremin.LfoGesturesRoundTrip | feathereminMain.py:305-314 | gesture 3 then 4, or 4 then 3, restores lfoIndex |
| Featheremin.AfterButton | feathereminMain.py:277-284 | the held flag follows the button; chromatic flips exactly when pressed and not already held |
| Featheremin.ButtonTogglesOncePerPress | feathereminMain.py:277-284 | over any run of readings, chromatic flips once per rising edge and the held flag equals the last reading |
| Featheremin.HoldingDoesNotRetoggle | feathereminMain.py:277-284 | while the button stays held, further passes change nothing |
| Featheremin.MidiNote | feathereminMain.py:396-401 | the note lies in [0, 120]; chromatic: min(r1 div 4, 120); otherwise min(r1, 480) / 4 |
| Featheremin.DroneF1 | feathereminMain.py:386-387 | f1 = clamp(r1*100, 1000, 20000) lies in [1000, 20000] |
| Featheremin.WaveformCalls | feathereminMain.py:316-326 | one call, selecting the waveform whose name is WAVEFORM_TYPES[waveIndex] |
| Featheremin.LfoCalls | feathereminMain.py:328-348 | tremolo and vibrato are each set (rate 20) or cleared as the mode needs; StartDrone(1000, 1100) exactly in drone mode; no call stops the drone when another mode is chosen |
| Featheremin.ModulationCalls | feathereminMain.py:359-378 | at most one call, made only for a reading in (0, 25) in tremolo or vibrato mode, with rate max(5, r2) |
| Featheremin.SecondaryRange | feathereminMain.py:359-362 | r2 is the reading if one was ready, otherwise 0 |
| Featheremin.SoundCalls | feathereminMain.py:383-412 | [Stop] outside 0 < r1 < 1000; otherwise Play(note) then Pause, preceded by Drone(f1, f1 - r2) exactly in drone mode |
| Featheremin.MainLoop.constructor | feathereminMain.py:234-257 | the loop starts at waveform 0, LFO 0, no pause, chromatic mode, no wheel position, button not held |
| Featheremin.MainLoop.Step | feathereminMain.py:260-412 | one pass: the wheel, button and index updates above, and calls = waveform calls + LFO calls + modulation + sound |
| Featheremin.MainLoop.ReadWheel | feathereminMain.py:266-272 | a new position p sets dSleepMilliseconds = clamp(p, 0, 100), which lies in [0, 100]; an unchanged position changes nothing |
| Featheremin.MainLoop.ReadButton | feathereminMain.py:277-284 | the button state becomes AfterButton of the old state and the reading |
| Featheremin.MainLoop.ReadGesture | feathereminMain.py:287-314 | the indexes become WaveIndexAfter / LfoIndexAfter; the change flags are set exactly for codes 1-2 and 3-4 |
| Featheremin.GestureCalls | feathereminMain.py:316-348 | the waveform calls if the waveform changed, then the LFO calls if the LFO mode changed |
| Featheremin.Modulate | feathereminMain.py:359-381 | the modulation calls and the r2 value the rest of the pass uses |
| Featheremin.Sound | feathereminMain.py:383-412 | the sound calls for the pass |
| WaveTables.TableLengthValue | main.py:39 | length = 8000 // 440 + 1 = 19 |
| WaveTables.SquareSample | main.py:57-61 | 0 exactly for i < length / 2, 65535 exactly otherwise |
| WaveTables.SawUpSample | main.py:63 | int(i * 2**16 / length) fits in 16 bits |
| WaveTables.SawDownSample | main.py:64 | fits in 16 bits and adds to the rising sample to give 65535 |
| WaveTables.TriangleSample | main.py:57-62 | fits in 16 bits and is even |
| WaveTables.HalfTriangleFits | main.py:59 | 2 * int(2**16 * i / length) is at most 65534 in the first half |
| WaveTables.SawMonotone | main.py:63-64 | the rising sawtooth never falls and the falling one never rises |
| WaveTables.TriangleSymmetric | main.py:62 | triangle[i] = triangle[length - 1 - i] |
| WaveTables.TriangleRises | main.py:57-59 | the triangle is nondecreasing over the first half |
| WaveTables.TriangleFalls | main.py:60-62 | the triangle is nonincreasing over the second half |
| WaveTables.FillWaveTables | main.py:39-64 | four fresh tables of `length` entries, each entry equal to its sample function (the loop body also checks that the triangle's read-back index length - i - 1 is below i) |
| WaveTables.WaveSelectAfter | main.py:211-227 | gesture 1 steps forward and 2 back over the 5 tables with wrap, staying in [0, 5); other codes keep the index |
| WaveTables.WaveSelectRoundTrip | main.py:211-227 | gesture 1 then 2, or 2 then 1, restores the index |
| WaveTables.WaveSelectForward | main.py:211-219 | any number of forward gestures keeps the index in [0, 5) |
| WaveTables.WaveSelectForwardAt | main.py:211-219 | m forward gestures move the index to (index + m) mod 5 |
| WaveTables.ContinuousSampleRate | main.py:245-269 | for 0 < r1 < 500 the rate 30*r1 + 1000 lies in [1030, 15970] |
| WaveTables.ContinuousSampleRateMonotone | main.py:269 | a farther hand gives a higher rate, 30 Hz per mm |
| WaveTables.OneOctaveAscending | main.py:32 | the corrected pitch table rises strictly |
| WaveTables.OneOctaveAsWrittenNotAscending | main.py:32 | the table as written is not ascending; its entry 10 is below A4 |
| WaveTables.RateIndex | main.py:179 | for 0 < mm < 500 the index mm // 50 is in 0..9, inside the 12-entry table; it is the 50 mm band holding mm |
| WaveTables.RangeToRate | main.py:168-181 | ONE_OCTAVE[mm // 50] * 18 over the corrected table |
| WaveTables.RangeToRateAsWritten | main.py:168-181 | ONE_OCTAVE[mm // 50] * 18 over the table as written |
| WaveTables.RangeToRateMonotone | main.py:168-181 | over 0..599 mm the corrected mapping never lowers the rate |
| WaveTables.RangeToRateAsWrittenDrops | main.py:32 | as written, 520 mm gives a lower rate than 470 mm |
| WaveTables.ToneCommand | main.py:245-285 | loop the selected table exactly when 0 < r1 < 500, at a rate in [1030, 15970]; otherwise stop |
| WaveTables.ToneLoop.constructor | main.py:202-204 | the loop starts on table 0 (sine) |
| WaveTables.ToneLoop.Step | main.py:209-285 | the index becomes WaveSelectAfter of the old index; the command is ToneCommand of the new index and r1 |

## Left out

- Hardware set-up and I/O are not modelled. This covers `init_hardware`, `showI2Cbus`, the I2C address juggling, the ToF, APDS9960 and seesaw objects, and the sensor set-up inside `GestureMenu.__init__`. They are calls into libraries with no logic of their own. Their readings become method parameters.
- The synthesizer's effect is not modelled: no `featherSynth5` audio and no `audiocore`/`audiopwmio` playback. The model records which call is made (`SynthCall`, `DacCommand`), not what it sounds like.
- `time.sleep` is not modelled. `Featheremin.SynthCall.Pause(hundredths)` records the pause that follows a note. `main.py`'s `time.sleep(chunkSleep)` is dropped.
- Display writes and `print` are not modelled. The display is represented only by the three keys `GestureMenu` shows (`shownKeys`). The `display*` helpers and the text are left out.
- The setup calls before the loop in `feathereminMain.py` are not modelled: `synth.setVolume(0.1)`, the initial `setWaveformSquare()` and the display calls. `MainLoop.constructor` models only the loop variables.
- The sine table (main.py:56) is left out because it is floating-point trigonometry. The other four tables are modelled exactly: `int()` of a non-negative float quotient is the integer floor, and the float error is far below the 1/19 gap between candidate values.
- main.py's `chunkSleep` ±0.01 arithmetic for gestures 3 and 4 is left out because it is floating-point. Those gestures leave the wave index unchanged, which is modelled.
- main.py's `chunkMode` branch is left out because `chunkMode` is the constant False, so the branch never runs. `rangeToRate` is modelled on its own.
- `Featheremin.MidiNote` and `WaveTables.RangeToRate` compute in exact reals. Python computes them in binary floating point. The drone's `f2 = f1 - r2` and the `r2` readings are reals too.
- The `r2` reading in main.py is only printed, so it is left out.
- `GestureMenu.test` and the `while True` loops are left out. One pass is a `Step` method, and runs of passes are reasoned about as sequences (`AfterButtons`, `WaveSelectForward`, `Lists.Advance`).
- Menu.GestureMenu.constructor requires at least two menu entries. With one entry `updateDisplay` raises IndexError, and with none it raises ValueError. In both cases the source's constructor never returns. `Menu.DisplayWindow` models both errors.
- Menu.MenuHandler.SelectNextItem requires a non-empty menu. On an empty menu the source's `index(None)` raises ValueError, which is not modelled.
- Menu.MenuHandler.SelectPrevItem requires a non-empty menu. On an empty menu the source's `index(None)` raises ValueError, which is not modelled.
- Menu.MenuHandler.SetNextOption requires a selected item. On an empty menu the source's `_stateDict[None]` raises KeyError, which is not modelled.
- Menu.MenuHandler.SetPrevOption requires a selected item. On an empty menu the source's `_stateDict[None]` raises KeyError, which is not modelled.
- Menu.MenuHandler.GetItemOption and Menu.MenuHandler.GetOptionsForItem require a key that has a state. An unknown key raises KeyError in the source, which is not modelled.
- Menu.GestureMenu.GetItemOption requires a listed key when given one. It delegates to the handler, so an unknown key raises KeyError in the source, which is not modelled.
- Menu.MenuItem.constructor requires a default index inside the options list. Outside it the source raises IndexError.
- Menu.MenuHandler.constructor, Menu.BuildMenu and Menu.GestureMenu.constructor require every entry's default index inside its options list (EntriesWellFormed), for the same reason: outside it the MenuItem built for that entry raises IndexError.
- WaveTables.RangeToRate requires mm // 50 to index the 12-entry table (-600 ≤ mm < 600). Outside that range the source raises IndexError.

## Findings

| source | as written | input that shows it | evidently intended | confidence | as-written member | corrected member |
|---|---|---|---|---|---|---|
| main.py:32 | entry 10 of `ONE_OCTAVE` (the chromatic step after F#5 739.99 Hz) is 83.99 Hz, below A4; `rangeToRate` inherits the drop. Its only call site passes 0 < r1 < 500, which never reaches index 10. | `rangeToRate(520)` ≈ 1511.8 Hz < `rangeToRate(470)` ≈ 13319.8 Hz | G5 = 783.99 Hz, so the octave rises strictly from 440 to 830.61 Hz | high that the entry is a typo; not executed | WaveTables.RangeToRateAsWrittenDrops | WaveTables.RangeToRateMonotone |
