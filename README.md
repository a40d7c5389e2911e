# Colour selector firmware, modelled in Dafny

The firmware keeps a one-byte counter `i` with seven states. 0 is the rest
state (black). States 1 to 6 are red, yellow, white, aqua, purple and blue.
Two push-buttons move the counter: button A means "next" and button B means
"previous". Each time the counter moves, the firmware writes the matching
levels to the three pins of an RGB LED (`set_led`). It also draws the matching
colour name on a small display (`set_screen`).

A button counts as held when its input pin reads high (`is_high()` in the
code, sampled into `a_pressed` and `b_pressed`). The pins are configured with
pull-ups, so "high means held" is an assumption about how the buttons are
wired; the model only uses the two levels the code reads.

The model has three modules:

- `Bytes` (bytes.dfy) defines `Byte`, Rust's `u8`. Arithmetic on it has to be
  proved to stay in range. That proof shows that the counter's `i += 1` and
  `i -= 1` never overflow or underflow.
- `Outputs` (outputs.dfy) holds the two output mappers as pure functions:
  `Led` (the pin levels `set_led` writes) and `Label` (the name `set_screen`
  draws). They are proved to agree with an independent reference, `MixtureName`,
  the colour that mixing the lit channels produces. The inverses `LedState`
  and `LabelState` show that no two states share a colour or a name.
- `Controller` (controller.dfy) holds the main loop. `State` is a `Byte` in
  0..6. `Successor` is the reference definition of one tick in arithmetic
  modulo 7, and `Run` folds it over a finite run of button samples. The class
  `Selector` holds the counter and the last values written to the LED and the
  display. `Selector.Tick` follows the loop body step by step (the ambiguity
  test, `+= 1`, the wrap from 0 to 6 or `-= 1`, the clamp above 6, then both
  output writes). It is proved equal to `Successor`. `Selector.RunTicks` runs
  `Tick` over a sequence of samples.

The range invariant (the counter stays in 0..6) is the `State` type together
with `Selector.Valid`. Every method keeps `Valid`, and `Valid` also says that
the LED and the display both show the current state.

The mappers are total over `u8`: every value outside 1..6 darkens the LED
and reads "black" (`Outputs.Led`, `Outputs.Label`). The outputs are pushed on
every tick where exactly one button is held. `Controller.QualifyingTickMoves`
proves that such a tick always changes the state, so refreshing on every
qualifying tick is the same as refreshing only when the state changes.

## Model

| member | source | states |
|---|---|---|
| `Outputs.Led` | src/main.rs:74-111 | the LED is dark exactly when the state is outside 1..6, including 0 and every value from 7 to 255 |
| `Outputs.Label` | src/main.rs:115-137 | the label is "black" exactly when the state is outside 1..6; every label is 3 to 6 characters long |
| `Outputs.LedTable` | src/main.rs:74-111 | the full pin table: 1 red; 2 red+green; 3 all on; 4 green+blue; 5 red+blue; 6 blue; 0 and values from 7 up all off |
| `Outputs.LabelTable` | src/main.rs:115-137 | the full name table: red, yellow, white, aqua, purple, blue for 1..6, and "black" for 0 and values from 7 up |
| `Outputs.LabelNamesLedColour` | src/main.rs:74-137 | for every byte, the displayed name is the colour the lit LED channels mix to, so the display and the LED always agree |
| `Outputs.LedState` | src/main.rs:74-111 | reading a state back from the pin levels gives a value in 0..6; only a dark LED (or green alone, which no state uses) reads as 0 |
| `Outputs.LabelState` | src/main.rs:115-137 | reading a state back from a name gives a value in 0..6 |
| `Outputs.LedStateInvertsLed` | src/main.rs:74-111 | the pin levels of each state 0..6 read back as that state |
| `Outputs.LabelStateInvertsLabel` | src/main.rs:115-137 | the label of each state 0..6 reads back as that state |
| `Outputs.LabelInvertsLabelState` | src/main.rs:115-137 | each of the seven colour names is the label of the state it reads as |
| `Outputs.LedInjective` | src/main.rs:74-111 | over 0..6, distinct states light the LED differently |
| `Outputs.LabelInjective` | src/main.rs:115-137 | over 0..6, distinct states get distinct names |
| `Controller.QualifyingTickMoves` | src/main.rs:55-69 | a tick with exactly one button held always moves to a different state, with a different LED colour and a different label |
| `Controller.NextPreviousCancel` | src/main.rs:55-67 | "next" then "previous", or "previous" then "next", returns to the starting state |
| `Controller.RunAppend` | src/main.rs:48-70 | two runs of ticks back to back end where their concatenation ends |
| `Controller.AmbiguousRunIdles` | src/main.rs:52-54 | a run in which every sample has both or neither button held leaves the state unchanged and refreshes no output |
| `Controller.RunNexts` | src/main.rs:55-57 | k presses of "next" give (state + k) mod 7, so 6 goes to 7 and is clamped to 0 |
| `Controller.RunPreviouses` | src/main.rs:58-67 | k presses of "previous" give (state - k) mod 7, so 0 goes to 6 |
| `Controller.SevenPressesReturn` | src/main.rs:55-67 | seven presses of either button return to the starting state |
| `Controller.BootSequence` | src/main.rs:45-67 | from boot, 1 to 6 "next" presses reach states 1 to 6 and a seventh wraps to 0; one "previous" gives 6; after one "next" the LED is red alone and the display reads "red" |
| `Controller.Selector.constructor` | src/main.rs:45-47 | the counter starts at 0, the LED is dark and the display reads "black" |
| `Controller.Selector.Tick` | src/main.rs:48-69 | the step-by-step loop body equals the modulo-7 reference `Successor`; with no overflow of the `u8`, the counter stays in 0..6; both outputs are refreshed exactly when one button is held, and are untouched otherwise |
| `Controller.Selector.RunTicks` | src/main.rs:48-70 | a finite run of the loop ends in the state `Run` gives, keeps the range and output invariant, and refreshes the outputs once per qualifying sample |

## Left out

- Peripheral bring-up (src/main.rs:20-44) is left out: pin modes, the clock freeze, the 400 kHz bus, and the display's `init` and first `flush`. It is one-time setup of hardware crates whose code is not part of this model.
- Drawing and sending the label (src/main.rs:138-146) are left out: the display clear, the 8x16 font style, `draw` and `flush`. `Selector.screen` holds the text that would be drawn.
- The busy-wait delay (src/main.rs:49) is timing, not logic.
- The endless `loop` is left out. The model covers one tick (`Selector.Tick`) and any finite run of ticks (`Selector.RunTicks`, `Controller.Run`).
- Hardware error paths are left out: the `unwrap` panics and the `ok()` that discards pin-write errors. Pin writes and button reads always succeed in the model.
- The loop body reads both buttons again at lines 55 and 58 rather than reusing the samples from lines 50-51. The model takes one sample pair per tick (`Buttons`) and uses it for all three tests. On real hardware, a level change between the reads could make both branches fire, or neither.
- `Controller.Selector.Tick` requires the counter to be in 0..6, through `Valid`. The firmware always meets this, because the counter starts at 0. From a counter of 255, the `u8` increment would overflow.
