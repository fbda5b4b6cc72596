# Tannenbaum device control core, modelled in Dafny

This project models the device control core of the "dotti" Christmas-tree
controller. The firmware runs on an ESP32. Its core has four parts:

- **The tree (`Tannenbaum`)**: an operating-mode state machine with three
  modes: Larson scanner, spinner, and all on/off. Each mode binds the twelve
  LED pins to PWM channels in its own way. A periodic timer call renders the
  current mode's pattern once the pattern interval has elapsed. The tree also
  toggles the LEDs on and off, speeds the pattern up and slows it down, and
  registers these actions as remote commands.
- **The pattern renderers (`Patterns`)**: the bouncing 7-channel Larson
  scanner and the rotating 12-channel spinner. Brightness is an inverted
  duty value: 0 is on, 220/225 is dim, 255 is off.
- **The melody sequencer (`Melody`)**: a queue of note and control tokens.
  Each tone-timer tick consumes tokens from the front of the queue, using an
  octave register, a hold counter that encodes note durations, and a base
  tempo.
- **The command router and template map of the HTTP server (`Http`)**, and
  **the touch-button dispatcher (`Touch`)**.

Each part is a class whose fields are the fields and function-local statics
of the firmware object. Each method is proved against a pure function of an
abstract state value:

    ensures Abstract() == Op(old(Abstract()))

The properties of the firmware are proved as lemmas about those functions.

Hardware effects are recorded rather than performed:

- **`Tannenbaum`**: the pin-to-channel binding is a map and the PWM duty
  registers are an array.
- **`Melody`**: tone output is a log of `Sound(note, octave)` and `Silence`
  effects, and the tone timer is the period it was last armed with.
- **`Http` and `Touch`**: running a callback is recorded as an invocation of
  the application action it stands for. `Tannenbaum.ServeCommandRequest`
  carries these invocations out on the tree.
- **Clock and pad readings**: the millisecond clock and the touch-pad readings
  are parameters.

Fixed-width arithmetic is written out:

- The elapsed-time test is a 32-bit subtraction modulo 2^32.
- The octave register is a byte that wraps.
- A calibrated threshold is stored into 16 bits.

Behaviour of the implementation worth knowing, which the model follows:

- `tannenbaum.cpp` implements three modes (`LARSON`, `SPINNING`,
  `ALL_ON_OFF`). The header's mode enumeration (src/tannenbaum.hpp:30) lists
  six, but the arrow and direction modes have no implementation. The spinner
  only ever moves one way.
- Switching modes does not reset a pattern's position. The Larson and spinner
  shifts are function-local statics that persist across mode switches
  (`Tannenbaum.LarsonResumesAfterModeSwitch`).
- The pattern interval halves only while it is at least 2, so the smallest
  interval reached is 1. It doubles only while it is below 4096, so from an
  interval below 8192 it stays below 8192, and the largest interval reached
  lies in [4096, 8191].
- The hold counter is reloaded with 1 before each read. A note without a
  duration prefix therefore lasts two ticks. The read that finds the queue
  empty keeps whatever the tokens it passed set, and the next `play` counts
  that hold down before its first read. After a melody whose last token is a
  pitch or a pause, and on a fresh player, the hold is 1 and the first tick of
  the next play only counts it down (`Melody.ReplayStartsWithHold`). A melody
  that ends in a duration prefix leaves that prefix's hold instead: after a
  trailing `L16` the next play reads at once, and after a trailing `L1` it
  waits 15 ticks (`Melody.ReplayAfterTrailingControls`,
  `Melody.TrailingPrefixExamples`).
- The spinner shift runs 0, 1, ..., 12 and then 1, 2, ..., 12. Shift 12 draws
  the same picture as shift 0.
- Nothing in the touch-button code ever sets a pad's activation flag. So no
  pad is ever calibrated and no touch callback ever runs
  (`Touch.NoPadEverFires`).

## Model

| member | source | states |
|---|---|---|
| Patterns.LarsonFrame | src/tannenbaum.cpp:167-175 | one Larson render writes 7 channels; channel i is off unless 0 <= i-shift < 3, in which case it shows the template [dim, on, dim] at i-shift |
| Patterns.LarsonLitChannel | src/tannenbaum.cpp:160-175 | for every shift in [-1, 5], exactly one channel (shift+1) is written fully on, its neighbours dim and all others off |
| Patterns.LarsonStep | src/tannenbaum.cpp:177-192 | the shift moves by exactly one, and the direction afterwards is right exactly when the move was up |
| Patterns.LarsonStepInRange | src/tannenbaum.cpp:177-192 | the shift update keeps the shift in [-1, 5] and moves it by exactly one |
| Patterns.Bounce | src/tannenbaum.cpp:161-163 | the closed form of the bounce sequence always lies in [-1, 5] |
| Patterns.LarsonOrbit | src/tannenbaum.cpp:163-192 | after k renders from the start (-1, moving right) the shift is -1,0,1,2,3,4,5,4,3,2,1,0,-1,0,... with period 12, reversing at each end without repeating it, and it moves right exactly in the first half of each period |
| Patterns.LarsonAlwaysInRange | src/tannenbaum.cpp:161-192 | the Larson shift stays in [-1, 5] after any number of renders |
| Patterns.SpinIndex | src/tannenbaum.cpp:208-211 | for a shift in [0, 12] the wrapped pattern index of every channel is in [0, 11] |
| Patterns.SpinFrame | src/tannenbaum.cpp:206-217 | one spinner render writes 12 channels, each from the wrapped pattern index |
| Patterns.SpinStep | src/tannenbaum.cpp:219-224 | below 12 the shift moves up by one; from a non-negative shift the result is at least 1 |
| Patterns.SpinStepInRange | src/tannenbaum.cpp:219-224 | the spinner shift update keeps the shift in [0, 12] and never returns it to 0 |
| Patterns.SpinFrameOnRing | src/tannenbaum.cpp:202-217 | channels shift, shift+1 and shift+2 (mod 12) show dim, on, dim; every other channel is off |
| Patterns.SpinTwelveIsZero | src/tannenbaum.cpp:203-224 | shift 12 renders identically to shift 0 |
| Patterns.SpinOrbit | src/tannenbaum.cpp:204-224 | after k renders the spinner shift is 0 for k = 0 and (k-1) mod 12 + 1 afterwards |
| Patterns.SpinRenderedAt | src/tannenbaum.cpp:204-224 | the picture drawn at render k is the template aligned at k mod 12 |
| Tannenbaum.RebindOverlays | src/tannenbaum.cpp:30-79 | the twelve attach calls of a mode overlay exactly that mode's pin table on the previous binding |
| Tannenbaum.ModeTablesCoverLedPins | src/tannenbaum.cpp:30-79 | every mode's table binds exactly the twelve LED pins |
| Tannenbaum.LarsonTableChannels | src/tannenbaum.cpp:30-45 | Larson binds pin pairs onto channels 0-4, pin 4 to 5 and pin 14 to 6: the channels used are 0-6 |
| Tannenbaum.SpinTableChannels | src/tannenbaum.cpp:47-62 | spinning binds the twelve pins to twelve distinct channels 0-11 |
| Tannenbaum.AllOnOffTableChannel | src/tannenbaum.cpp:64-79 | all on/off binds every pin to channel 0 |
| Tannenbaum.RebindFromLedPins | src/tannenbaum.cpp:30-79 | once only LED pins are bound, a mode switch leaves exactly that mode's table |
| Tannenbaum.FasterTimesExact | src/tannenbaum.cpp:88-93 | k speed-ups from an interval >= 1 give max(1, interval / 2^k): the interval never reaches 0 |
| Tannenbaum.SlowerTimesBound | src/tannenbaum.cpp:95-100 | k slow-downs from an interval in [1, 8191] stay below 8192; they double exactly while that stays below 8192 and otherwise stop in [4096, 8191] |
| Tannenbaum.ElapsedAcrossWrap | src/tannenbaum.cpp:102-104 | the unsigned elapsed-time subtraction gives the true elapsed time across a wrap of the millisecond clock |
| Tannenbaum.SetMode | src/tannenbaum.cpp:30-79 | a mode switch records the mode and overlays that mode's table on the previous binding, leaving pins outside the table as they were |
| Tannenbaum.SetModeBindsLedPins | src/tannenbaum.cpp:30-79 | after a mode switch, whatever the binding was before, every LED pin is bound as that mode's table says |
| Tannenbaum.LarsonRender | src/tannenbaum.cpp:153-193 | channels 0-6 get the Larson frame of the current shift, the other channels keep their values, and an in-range shift stays in range |
| Tannenbaum.SpinRender | src/tannenbaum.cpp:195-225 | channels 0-11 get the spinner frame of the current shift, the others keep their values, and an in-range shift stays in range and off 0 |
| Tannenbaum.AllOnOffRender | src/tannenbaum.cpp:227-233 | channel 0 is on exactly when the LED state is on; no other channel changes |
| Tannenbaum.Render | src/tannenbaum.cpp:102-115 | a render keeps sixteen duty registers and leaves the mode, pins and LED state alone |
| Tannenbaum.Toggle | src/tannenbaum.cpp:81-86 | the toggle returns the flipped LED state, records it, forces all on/off, and channel 0 is on exactly when the new state is on |
| Tannenbaum.SpeedUp | src/tannenbaum.cpp:88-93 | the interval does not grow, at least halves from 2 upwards, and never leaves [1, ...) |
| Tannenbaum.SlowDown | src/tannenbaum.cpp:95-100 | the interval does not shrink, doubles below 4096, and an interval below 8192 stays below 8192 |
| Tannenbaum.TimerCall | src/tannenbaum.cpp:102-115 | a timer call leaves a time stamp set and keeps mode, interval and LED state; unless it restamps to now it writes no duty register |
| Tannenbaum.ExecCommand | src/tannenbaum.cpp:120-130 | no command moves a pattern shift, the Larson direction or the time stamp, and commands write at most duty register 0 |
| Tannenbaum.RegisterCommands | src/tannenbaum.cpp:119-130 | the setup adds exactly the five command names and keeps every other entry |
| Tannenbaum.Initial | src/tannenbaum.cpp:9-28 | a new tree starts with LEDs off, interval 100, no time stamp, the Larson shift at -1 moving right, the spinner shift at 0, and the button template "btn_off" added to the server's templates |
| Tannenbaum.InitialGood | src/tannenbaum.cpp:9-28 | a new tree is in the requested mode with that mode's pin table, keeps the invariant (shifts and interval in range) and shows "btn_off" for the LEDs being off |
| Tannenbaum.SetModeFrame | src/tannenbaum.cpp:30-79 | a mode switch sets the mode and rebinds the pins, and leaves shifts, direction, LED state, interval and duty registers untouched |
| Tannenbaum.RenderFrame | src/tannenbaum.cpp:153-233 | a render keeps the invariant, writes only the current mode's channels (Larson frame, spinner frame, or channel 0 from the LED state), moves only that mode's shift (and, for Larson, direction), and keeps the mode, pins, LED state, interval, templates and time stamp |
| Tannenbaum.ToggleSpec | src/tannenbaum.cpp:81-86 | the toggle forces all on/off, flips the LED state, writes channel 0 on or off accordingly, returns the new state and changes no other channel; two toggles restore the state |
| Tannenbaum.ExecPreservesInv | src/tannenbaum.cpp:119-130 | every registered command keeps the tree's invariant |
| Tannenbaum.ExecKeepsButtonConsistent | src/tannenbaum.cpp:122-128 | every command keeps the button template "" exactly when the LEDs are on and "btn_off" otherwise |
| Tannenbaum.OnOffTwiceRestores | src/tannenbaum.cpp:122-128 | the on_off command flips the LED state, and two of them restore it and the template map |
| Tannenbaum.RunCalls | src/tannenbaum.cpp:119-130 | carrying out any sequence of command calls keeps the invariant |
| Tannenbaum.RunCallsKeepsButtonConsistent | src/tannenbaum.cpp:119-133 | a whole command request keeps the button template consistent with the LED state |
| Tannenbaum.UnknownCommandsChangeNothing | src/http_server.cpp:212-216 | a request naming no registered command leaves the tree unchanged |
| Tannenbaum.RegisterCommandsOverlays | src/tannenbaum.cpp:119-130 | the setup registers exactly larson, spin, on_off, plus and minus as argument-less commands, replacing same-named entries |
| Tannenbaum.PageLinksNotRegistered | src/http_content.hpp:25-29 | the page's arrow_up, arrow_down, spin_right and spin_left links are not registered commands |
| Tannenbaum.TimerFirstCall | src/tannenbaum.cpp:102-115 | the first timer call, with no stamp yet, takes the clock as the stamp and then behaves as a stamped call: it renders at once when more than the interval lies between the clock and now, and otherwise only records the stamp |
| Tannenbaum.TimerQuietWithinInterval | src/tannenbaum.cpp:102-115 | while the elapsed time is at most the interval, a timer call changes nothing |
| Tannenbaum.TimerRendersWhenDue | src/tannenbaum.cpp:102-115 | once the elapsed time strictly exceeds the interval, a timer call restamps to the current time and renders the current mode |
| Tannenbaum.TimerPreservesInv | src/tannenbaum.cpp:102-115 | timer calls keep the invariant |
| Tannenbaum.LarsonResumesAfterModeSwitch | src/tannenbaum.cpp:163-165 | after three Larson renders, a switch to spinning and back, the next render draws the scanner at shift 2, not at the start position |
| Tannenbaum.Tannenbaum.constructor | src/tannenbaum.cpp:9-28 | the new tree is the initial tree for the requested mode, and the server's command map gains the five commands |
| Tannenbaum.Tannenbaum.AttachPin | src/tannenbaum.cpp:31-44 | an attach call binds one pin to one channel |
| Tannenbaum.Tannenbaum.SetModeLarson | src/tannenbaum.cpp:30-45 | the new state is the Larson mode switch of the old one |
| Tannenbaum.Tannenbaum.SetModeSpinning | src/tannenbaum.cpp:47-62 | the new state is the spinner mode switch of the old one |
| Tannenbaum.Tannenbaum.SetModeAllOnOff | src/tannenbaum.cpp:64-79 | the new state is the all on/off mode switch of the old one |
| Tannenbaum.Tannenbaum.ToggleOnOffState | src/tannenbaum.cpp:81-86 | the new state and the result are the toggle of the old state |
| Tannenbaum.Tannenbaum.IncreaseSpeed | src/tannenbaum.cpp:88-93 | the interval takes one saturating halving step, nothing else changes, and the object invariant (sixteen duty registers, shifts in range, interval in [1, 8191]) is kept |
| Tannenbaum.Tannenbaum.DecreaseSpeed | src/tannenbaum.cpp:95-100 | the interval takes one saturating doubling step, nothing else changes, and the object invariant is kept |
| Tannenbaum.Tannenbaum.UpdateTimer | src/tannenbaum.cpp:102-115 | the new state is the timer call of the old one at the given time |
| Tannenbaum.Tannenbaum.SetupHttpInterface | src/tannenbaum.cpp:119-134 | the command map gains the five commands and the button template becomes "btn_off" |
| Tannenbaum.Tannenbaum.UpdateLarson | src/tannenbaum.cpp:153-193 | the duty registers 0-6 get the Larson frame of the current shift, the others keep their values, and the shift and direction take one bounce step |
| Tannenbaum.Tannenbaum.UpdateSpinning | src/tannenbaum.cpp:195-225 | the duty registers 0-11 get the spinner frame of the current shift, and the shift takes one step |
| Tannenbaum.Tannenbaum.UpdateAllOnOff | src/tannenbaum.cpp:227-233 | channel 0 is written on or off from the LED state |
| Tannenbaum.Tannenbaum.Execute | src/tannenbaum.cpp:120-130 | one registered callback carried out on the tree |
| Tannenbaum.Tannenbaum.ServeCommandRequest | src/http_server.cpp:203-224 | a command request runs the router's calls on the tree in order, keeps the invariant and leaves the command map unchanged |
| Http.Lookup | src/http_server.cpp:174-184 | a placeholder's replacement if it is registered, the placeholder itself otherwise |
| Http.Invoke | src/http_server.cpp:53-83 | a callable entry makes exactly one call of its action; the string flavour passes the raw value and the void flavour drops it; an empty entry makes no call |
| Http.Step | src/http_server.cpp:212-223 | one parameter makes at most one call, and none exactly when its name is not registered or its entry is not callable |
| Http.Dispatch | src/http_server.cpp:203-224 | a request makes at most one call per parameter |
| Http.DispatchAppend | src/http_server.cpp:206-224 | parameters are handled one after another in order: dispatching a concatenation concatenates the calls |
| Http.DispatchSkipsUncallable | src/http_server.cpp:212-221 | a parameter whose name is not registered, or whose entry is not callable, adds no call and does not stop the rest |
| Http.DispatchNothingRegistered | src/http_server.cpp:212-221 | when no parameter names a callable entry the request makes no call |
| Http.DispatchAllRegistered | src/http_server.cpp:203-224 | when every parameter names a callable entry, the request makes exactly one call per parameter, in parameter order, with that parameter's value |
| Http.RegisterLastWins | src/http_server.cpp:53-83 | a second registration under the same name replaces the first |
| Http.HttpServer.constructor | src/http_server.cpp:20-33 | a new server has empty template and command maps (default-constructed members) |
| Http.HttpServer.SetTemplate | src/http_server.cpp:40-46 | with templates enabled, exactly one placeholder is set or overwritten and every other lookup is unchanged |
| Http.HttpServer.RegisterStringCb | src/http_server.cpp:53-57 | the entry for the name becomes the given callable, overwriting any earlier one |
| Http.HttpServer.RegisterFloatCb | src/http_server.cpp:59-66 | the entry for the name becomes a float-converting wrapper of the action |
| Http.HttpServer.RegisterIntCb | src/http_server.cpp:68-75 | the entry for the name becomes an int-converting wrapper of the action |
| Http.HttpServer.RegisterVoidCb | src/http_server.cpp:77-83 | the entry for the name becomes a wrapper that ignores the value and calls the action |
| Http.HttpServer.TemplateProcessor | src/http_server.cpp:174-184 | returns the mapped value for a registered placeholder and the placeholder itself otherwise, without changing the map |
| Http.HttpServer.OnCmdRequest | src/http_server.cpp:203-224 | the calls made are the dispatch of the parameters against the command map, which is not changed |
| Melody.DurationLadder | src/melody.cpp:99-103 | L1, L2, L4, L8 and L16 make the next note last 16, 8, 4, 2 and 1 ticks, each twice the next, and the default hold gives the eighth-note length |
| Melody.NoteOf | src/melody.cpp:105-116 | Ds plays NOTE_Eb and As plays NOTE_Bb |
| Melody.NoteOfInjective | src/melody.cpp:105-116 | distinct pitch tokens play distinct notes |
| Melody.ShiftOctave | src/melody.cpp:97-98 | O_UP and O_DOWN change the octave by one modulo 256 |
| Melody.ReadTokens | src/melody.cpp:76-118 | a read that finds something finds a pitch or pause and leaves a strictly shorter queue |
| Melody.ReadLeavesSuffix | src/melody.cpp:92-93 | a read that finds a token pops it from the front after the controls and leaves exactly the rest of the queue, in order |
| Melody.ReadSkipsOnlyControls | src/melody.cpp:76-118 | a read pops only control tokens before the token it finds; a read that runs out saw only control tokens |
| Melody.ReadSplits | src/melody.cpp:76-118 | a read consumes the maximal run of control tokens and exactly one pitch or pause, applying the controls to octave and hold |
| Melody.LastPrefixWins | src/melody.cpp:96-103 | of two duration prefixes before a note the last one sets its hold; an octave shift between them does not touch it |
| Melody.OctaveWraps | src/melody.cpp:97-98 | O_DOWN at octave 0 gives 255 and O_UP at 255 gives 0 |
| Melody.Started | src/melody.cpp:19-28 | play installs the melody as the queue and wakes the player, keeping the hold counter and base tempo |
| Melody.TempoUp | src/melody.cpp:30-36 | the base tempo does not grow, the timer is re-armed at it and the queue is kept |
| Melody.TempoDown | src/melody.cpp:38-44 | the base tempo does not shrink, the timer is re-armed at it and the queue is kept |
| Melody.TempoSet | src/melody.cpp:46-50 | the base tempo and timer period become the argument; the queue is kept |
| Melody.Tick | src/melody.cpp:54-140 | a tick while idle changes nothing, no tick changes the base tempo, and no tick lengthens the queue |
| Melody.PlaySpec | src/melody.cpp:19-28 | play replaces the queue wholesale and wakes the player; a non-zero tempo sets the custom flag and arms the timer at it; a zero tempo leaves the flag and arms the timer at the base tempo; hold and octave are kept |
| Melody.TempoStaysInRange | src/melody.cpp:30-44 | speeding up halves only from 64 and slowing down doubles only below 2048, so a base tempo in [32, 4095] stays there; both re-arm the timer at the base |
| Melody.TempoSetStoresExactly | src/melody.cpp:46-50 | set_tempo stores its argument unclamped, re-arms the timer at it and changes nothing else |
| Melody.ReplayStartsWithHold | src/melody.cpp:60-90 | after a melody whose last token is a pitch or a pause, the read that finds the queue empty leaves the player idle with the hold reloaded to 1, so the next play's first tick only counts the hold down |
| Melody.ReadExhaustsControls | src/melody.cpp:76-103 | a queue of control tokens only is read to the end, leaving the octave and hold those tokens set |
| Melody.ShiftsKeepHold | src/melody.cpp:97-98 | octave shifts alone leave the hold as it was |
| Melody.LastTrailingPrefixHolds | src/melody.cpp:96-103 | in a run of control tokens the last duration prefix decides the hold, whatever octave shifts follow it |
| Melody.ReplayAfterTrailingControls | src/melody.cpp:60-103 | when only control tokens are left, the read runs out and leaves the hold those tokens set; the next play counts that hold down first, and reads a token at once when it is 0 |
| Melody.TrailingPrefixExamples | src/melody.cpp:60-103 | a trailing L16 leaves hold 0, a trailing L1 (also followed by an octave shift) leaves 15, and a trailing octave shift alone leaves the default 1 |
| Melody.IdleTickIsNoop | src/melody.cpp:57-59 | a tick while idle changes nothing, not even the hold counter |
| Melody.HoldTickOnlyCounts | src/melody.cpp:60-63 | a tick with a pending hold only decrements it |
| Melody.ReadingTickConsumes | src/melody.cpp:64-139 | a reading tick emits exactly one effect and shortens a non-empty queue; on an empty queue it stops the output and goes idle, clearing the custom-tempo flag; the timer is re-armed at the base tempo exactly when that flag was set, and otherwise left as it was |
| Melody.TickNeverGrowsQueue | src/melody.cpp:54-139 | no tick lengthens the queue |
| Melody.HoldLasts | src/melody.cpp:60-63 | k <= hold ticks only count the hold down by k |
| Melody.PitchTick | src/melody.cpp:105-139 | a pitch always restarts the tone at its note and the current octave, with the default hold |
| Melody.PauseTick | src/melody.cpp:104-124 | a pause switches the output off and keeps the current note |
| Melody.PrefixedPitchTick | src/melody.cpp:99-103 | a duration prefix before a pitch holds that pitch for the prefix's extra ticks |
| Melody.HeldThenNext | src/melody.cpp:60-67 | the next pitch sounds after the hold runs out and starts with the default hold again, so a prefix affects only the note right after it |
| Melody.TickTimesSplit | src/melody.cpp:54-139 | ticks compose: a+b ticks are a ticks followed by b ticks |
| Melody.Sounds | src/melody.cpp:125-139 | a run of plain pitches makes one sound per pitch |
| Melody.TwoTicksPerPitch | src/melody.cpp:60-67 | with the default hold pending, a pitch sounds on the second tick and is then held for one more tick |
| Melody.PlainMelody | src/melody.cpp:54-139 | a melody of plain pitches plays each pitch in order at the current octave, two ticks per note, leaving tempo and timer untouched |
| Melody.TwoTicksToIdle | src/melody.cpp:77-90 | after the last note, two ticks stop the output and leave the player idle |
| Melody.ThreeNoteMelody | src/melody.cpp:19-139 | a fresh player given [C, D, E] sounds C, D, E at octave 4, goes silent and idle after eight ticks, and does nothing afterwards |
| Melody.MelodyPlayer.constructor | src/melody.hpp:35-42 | a new player is idle, at octave 4 on NOTE_C with the output off, an empty queue and the timer detached |
| Melody.MelodyPlayer.Play | src/melody.cpp:19-28 | the new state is the old one started on the melody at the tempo |
| Melody.MelodyPlayer.IncreaseTempo | src/melody.cpp:30-36 | the new state takes one saturating halving of the base tempo and re-arms the timer |
| Melody.MelodyPlayer.DecreaseTempo | src/melody.cpp:38-44 | the new state takes one saturating doubling of the base tempo and re-arms the timer |
| Melody.MelodyPlayer.SetTempo | src/melody.cpp:46-50 | the new state has the given base tempo and timer period |
| Melody.MelodyPlayer.OnToneTimer | src/melody.cpp:54-140 | the new state is one tick of the old: the do-while loop pops control tokens and then one pitch or pause, or goes idle on an empty queue |
| Touch.Initial | src/touch_buttons.cpp:33-38 | the initial tables have one entry per pad |
| Touch.CalibratedThreshold | src/touch_buttons.cpp:59-60 | the stored threshold is at most reading x percent / 100, and equal to it while that fits in 16 bits |
| Touch.Configure | src/touch_buttons.cpp:45-50 | pad i gets the given percentage and callback |
| Touch.Calibrate | src/touch_buttons.cpp:52-65 | calibration keeps activation flags, callbacks and the thresholds of inactive pads |
| Touch.FilterRead | src/touch_buttons.cpp:157-161 | storing filtered values keeps thresholds and activation flags |
| Touch.CalibrationBelowReading | src/touch_buttons.cpp:59-60 | up to 100 percent the threshold is reading x percent / 100 truncated, hence at most the reading, and equal to it at 100 percent |
| Touch.CalibrationWrapsAboveFullScale | src/touch_buttons.cpp:59-60 | once reading x percent / 100 reaches 2^16, the 16-bit store keeps a smaller value that differs from it by one or two multiples of 2^16; for instance 200 percent of 40000 stores 14464 |
| Touch.FilterReadSpec | src/touch_buttons.cpp:157-161 | the filter callback copies every filtered value and changes no other table |
| Touch.FiredUpTo | src/touch_buttons.cpp:163-172 | a dispatch over n pads runs at most n callbacks |
| Touch.FiredCount | src/touch_buttons.cpp:163-172 | a dispatch runs exactly as many callbacks as there are firing pads (activated, reading below threshold, callback not empty) |
| Touch.FiredExactly | src/touch_buttons.cpp:163-172 | every firing pad's callback runs in a dispatch, and every callback that runs belongs to a firing pad |
| Touch.ZeroThresholdNeverFires | src/touch_buttons.cpp:163-172 | a pad whose threshold is still 0 never fires, since no unsigned reading is below 0 |
| Touch.NothingFiresWhenNoneActivated | src/touch_buttons.cpp:165 | with no pad activated a dispatch runs nothing |
| Touch.ConfigureIsLocal | src/touch_buttons.cpp:45-50 | configuring a pad writes only its percentage and callback; its activation flag, threshold and every other pad are untouched |
| Touch.CalibrateSpec | src/touch_buttons.cpp:52-65 | calibration sets each activated pad's threshold from its reading and keeps the others' |
| Touch.NoPadEverFires | src/touch_buttons.cpp:33-172 | after construction and any sequence of configurations, calibrations, filter reads and dispatches, no pad is activated, every threshold is 0 and no dispatch runs a callback |
| Touch.StaysInactive | src/touch_buttons.cpp:45-172 | no operation activates a pad or moves an inactive threshold off 0 |
| Touch.ReactiveTouch.constructor | src/touch_buttons.cpp:20-39 | every pad starts deactivated, with threshold 0 and an empty callback; percentages and readings start at 0 |
| Touch.ReactiveTouch.ConfigureInput | src/touch_buttons.cpp:45-50 | the new tables are the configuration of the old ones |
| Touch.ReactiveTouch.CalibrateThresholds | src/touch_buttons.cpp:52-65 | the new tables are the calibration of the old ones with the given readings |
| Touch.ReactiveTouch.FilterReadCb | src/touch_buttons.cpp:157-161 | the new tables are the old ones with the filtered values stored |
| Touch.ReactiveTouch.DispatchCallbacks | src/touch_buttons.cpp:163-172 | the callbacks run are exactly those of the firing pads, in pad order, and no table changes |

## Left out

- Wi-Fi, the asynchronous web-server transport, server-sent events, the OTA firmware upload, SPIFFS, restarts and the 404/body/upload handlers are network and flash I/O. They are not part of this model.
- The HTTP response bodies and the static HTML page are constant content. Only the page's command links matter, and they appear in `Tannenbaum.PageLinksNotRegistered`.
- PWM hardware calls are not modelled as hardware:
  - `ledcSetup`, `init_pwm_gpios` and the PWM frequency are left out.
  - `ledcAttachPin` and `ledcWrite` become the pin map and the duty array.
  - `ledcWriteTone`, `ledcWriteNote` and `ledcDetachPin` become the tone effect log.
  - The 10 ms `delay` before a new note is left out.
- Timers are not modelled:
  - A `Ticker` is the period it was last armed with; real timing is not modelled.
  - `millis()` becomes the `clock` parameter of `UpdateTimer`.
  - The periodic touch dispatch timer is left out; `DispatchCallbacks` is one dispatch cycle.
- Callback arguments are kept symbolic:
  - The float and int callback flavours convert the value text with the string library's `toFloat`/`toInt`, a foreign library. The arguments are kept symbolic (`FloatOf`, `IntOf`).
  - Callbacks stand for application actions and are carried out by their owner. Arbitrary closures are not modelled.
- The touch-pad driver is not modelled:
  - Its reads, the constructor's driver set-up and `begin()` (driver configuration, filter start, timer attach) are driver calls.
  - Readings are parameters of `CalibrateThresholds` and `FilterReadCb`.
  - `diagnostics()` is logging and interrupt toggling and is not part of this model.
- Tannenbaum.Initial: every duty register starts at 0, which is full brightness in this polarity. The firmware writes no duty value before the first render, so the start value is an assumption of the model.
- Destructors only detach timers and pins, and they are left out.
- The application wiring in `app_main.cpp` and the configuration headers are left out. `USE_TEMPLATES` is true (src/http_server_config.hpp:11).
- Function-local statics are instance fields, since the program creates one instance of each class:
  - `shift`, `is_shifting_right` and `pattern_timestamp` of the tree.
  - `repeat_note` and `output_off` of the player.
  - The per-pad arrays of the touch buttons.
- The header declares arrow and rotate modes and methods that have no bodies in the implementation. They are not part of this model.
- Melody.MelodyPlayer.constructor: the implementation's constructor does not initialise `base_tempo_ms` (the header's default of 128 belongs to a different signature), so the base tempo is a parameter. `playing_at_custom_tempo` is not declared in the header and has no visible initialiser; the model assumes it starts false.
- Touch.ReactiveTouch.ConfigureInput: the firmware indexes the pad arrays unchecked. The model requires a pad number in 0..9, because writing outside the arrays has no defined behaviour.
- Http.HttpServer.RegisterFloatCb: takes the action an entry stands for, so it cannot be given an empty float callable. The firmware would wrap such a callable in a non-empty lambda; the entry would pass the callable test of the command loop and throw when called. The tree never registers an empty callable.
- Http.HttpServer.RegisterIntCb: takes the action an entry stands for, so it cannot be given an empty int callable, which the firmware would wrap in a non-empty lambda that throws when called. The tree never registers one.
- Http.HttpServer.RegisterVoidCb: takes the action an entry stands for, so it cannot be given an empty void callable, which the firmware would wrap in a non-empty lambda that throws when called. The tree never registers one.
- Tannenbaum.Tannenbaum.Execute: the router's float, int and string flavours are not used by the tree, so the tree's commands are the five void ones.
