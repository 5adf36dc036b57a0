# Workout timer: the two-phase countdown state machine

This project models the heart of a small Android workout timer screen (`MainActivity`). The user
types a workout duration and a rest duration in seconds and presses start. A countdown then runs.
When it ends, the screen switches phase (Workout to Rest, Rest to Workout), empties the progress
bar and starts a countdown for the new phase, whose length comes from that phase's input field.
Every tick shows the remaining time as a percentage on the progress bar and as a number of seconds.
The stop button, once a countdown has ever been created, puts the screen back into the Workout
phase with a full bar and the Workout field's text as the remaining time.

Layout:

- `java_long.dfy`, module `JavaLong`: the pieces of Java's `long` the screen relies on. These are
  `Long.parseLong` (a partial parse whose failure stands for `NumberFormatException`),
  `String.valueOf(long)`, and the 64-bit wrap-around of `seconds * 1000`.
- `tick_math.dfy`, module `TickMath`: the tick arithmetic. `Math.round` of the percentage and of
  the seconds is written as exact integer round-half-up.
- `workout_timer.dfy`, module `WorkoutTimer`:
  - the `Phase` enum and a `Screen` snapshot of all state the timer logic touches;
  - one pure step function per transition (`StartStep`, `TickStep`, `FinishStep`, `StopStep`) and
    the lemmas about them;
  - the class `TimerScreen`, whose fields the methods update in place. Each method is proved to
    perform exactly its step function.

The model follows the code as written, including these behaviours:

- A new countdown does not cancel the previous one. The field is simply overwritten.
- Any parseable long is accepted as a duration: zero and negative numbers too. Huge inputs make
  the `long` product wrap.
- A parse failure is an unhandled exception, not a user-visible error. Pressing start with a
  field that does not parse fails with the state left as it was. A failure inside the automatic restart happens
  after the phase has already flipped and the bar has been emptied, so those changes remain.
- Stop never forgets the countdown object (`countDownTimer` is not cleared). Every later stop
  resets the screen again, and there is no separate "idle" state.
- Stop resets only when a countdown was created at some point; otherwise it does nothing.

External inputs are parameters. The input fields' texts are passed to `Start`, `Finish` and `Stop`
when they are read. The tick's remaining milliseconds are passed to `Tick`. The layout's initial
widget values are passed to the constructor.

## Model

| member | source | states |
|---|---|---|
| `JavaLong.WrapLong` | app/src/main/java/com/application/workouttimer/MainActivity.java:172 | the `long` result of `seconds * 1000`: always a long, congruent to the exact product modulo 2^64, and equal to it when the product fits |
| `JavaLong.ParseLong` | app/src/main/java/com/application/workouttimer/MainActivity.java:172 | `Long.parseLong` yields only longs; a leading '-' gives a non-positive value, otherwise non-negative; an empty text never parses |
| `JavaLong.ParseRejectsEmpty` | app/src/main/java/com/application/workouttimer/MainActivity.java:177 | an empty field, or one holding only a sign, throws `NumberFormatException` |
| `JavaLong.ParseRejectsStrayCharacter` | app/src/main/java/com/application/workouttimer/MainActivity.java:172 | any character that is not a digit (other than a sign in first position) makes the parse fail |
| `JavaLong.NatDigits` | app/src/main/java/com/application/workouttimer/MainActivity.java:124 | the decimal text of a natural number is non-empty, all digits, denotes the number, and starts with '0' only for 0 |
| `JavaLong.FormatLong` | app/src/main/java/com/application/workouttimer/MainActivity.java:124 | `String.valueOf(long)` is non-empty and starts with '-' exactly for negative numbers |
| `JavaLong.ParseFormat` | app/src/main/java/com/application/workouttimer/MainActivity.java:124 | parsing the formatted text returns the number exactly when it is a long, and fails otherwise |
| `TickMath.RoundHalfUp` | app/src/main/java/com/application/workouttimer/MainActivity.java:123-124 | `Math.round(n / d)`: the integer r with r - 1/2 <= n/d < r + 1/2 |
| `TickMath.RoundHalfUpUnique` | app/src/main/java/com/application/workouttimer/MainActivity.java:123-124 | that nearest-integer property has only one solution, so it fully defines the rounding |
| `TickMath.Percent` | app/src/main/java/com/application/workouttimer/MainActivity.java:123 | the fill is the nearest integer to 100 * l / currentDuration, halves rounded up |
| `TickMath.Seconds` | app/src/main/java/com/application/workouttimer/MainActivity.java:124 | the seconds readout is the nearest integer to l / 1000, halves rounded up, and never negative for l >= 0 |
| `TickMath.PercentBounds` | app/src/main/java/com/application/workouttimer/MainActivity.java:123 | for 0 <= l <= currentDuration and currentDuration > 0 the fill lies in 0..100 |
| `TickMath.PercentAtEnds` | app/src/main/java/com/application/workouttimer/MainActivity.java:123 | a full countdown shows 100, an exhausted one 0 |
| `TickMath.PercentMonotonic` | app/src/main/java/com/application/workouttimer/MainActivity.java:123 | less time left never shows a larger fill |
| `TickMath.SecondsMonotonic` | app/src/main/java/com/application/workouttimer/MainActivity.java:124 | less time left never shows more seconds |
| `WorkoutTimer.Other` | app/src/main/java/com/application/workouttimer/MainActivity.java:145-155 | the phase after a completion always differs from the phase before it |
| `WorkoutTimer.MaxDuration` | app/src/main/java/com/application/workouttimer/MainActivity.java:165-180 | the duration exists exactly when the current phase's field parses, and is then a long |
| `WorkoutTimer.Initial` | app/src/main/java/com/application/workouttimer/MainActivity.java:40-43 | the state after set-up (field defaults at 40-43, `InitializeProperties` at 73-77): Workout phase, no countdown, a duration that is a long (0); `DurationStaysLong` relies on it |
| `WorkoutTimer.StartStep` | app/src/main/java/com/application/workouttimer/MainActivity.java:109-117 | `CreateCountDownTimer`: phase, label, bar and text never change; on success a countdown exists; on a parse failure the screen is unchanged; `StartUsesCurrentPhaseField`, `StartFailureChangesNothing` and `DurationIsThousandfold` state the duration it takes |
| `WorkoutTimer.TickStep` | app/src/main/java/com/application/workouttimer/MainActivity.java:120-133 | `onTick`: the bar gets a fill in 0..100; phase, label, duration and countdown are untouched; `TickTextParsesBack` and `TickPreservesCoherent` state the text and the invariant |
| `WorkoutTimer.FinishStep` | app/src/main/java/com/application/workouttimer/MainActivity.java:138-158 | `onFinish`: the phase flips, the label names the new phase, the bar is 0, and the remaining text is untouched; `FinishFlipsAndRestarts` states the restart with the new phase's field |
| `WorkoutTimer.StopStep` | app/src/main/java/com/application/workouttimer/MainActivity.java:90-104 | the stop listener never changes the duration or the countdown, and with a countdown it shows Workout, its label and a full bar; `StopWithTimerResets`, `StopWithoutTimerChangesNothing` and `StopIdempotent` state the rest |
| `WorkoutTimer.Finishes` | app/src/main/java/com/application/workouttimer/MainActivity.java:158 | the repeated restart: after at least one completion the label names the phase and the bar is 0; `FinishesAlternate` states the phase after n completions |
| `WorkoutTimer.StartUsesCurrentPhaseField` | app/src/main/java/com/application/workouttimer/MainActivity.java:109-117 | starting succeeds exactly when the current phase's field parses; it then takes the Workout field × 1000 in the Workout phase and the Rest field × 1000 in the Rest phase, and a countdown exists; phase and displays never change |
| `WorkoutTimer.DurationIsThousandfold` | app/src/main/java/com/application/workouttimer/MainActivity.java:172 | an input of at most MaxLong / 1000 seconds in magnitude gives exactly 1000 times that many milliseconds |
| `WorkoutTimer.HugeInputWraps` | app/src/main/java/com/application/workouttimer/MainActivity.java:172 | 9223372036854776 seconds overflow the `long` product to -9223372036854775616 ms |
| `WorkoutTimer.StartFailureChangesNothing` | app/src/main/java/com/application/workouttimer/MainActivity.java:111 | when the current phase's field does not parse, the exception leaves phase, duration, countdown and displays as they were |
| `WorkoutTimer.FinishFlipsAndRestarts` | app/src/main/java/com/application/workouttimer/MainActivity.java:145-158 | completion flips the phase, names the new phase on the label, sets the bar to 0, and takes the next duration from the NEW phase's field; on a parse failure the flip remains and duration and countdown are unchanged |
| `WorkoutTimer.FinishTwiceRestoresPhase` | app/src/main/java/com/application/workouttimer/MainActivity.java:145-155 | two consecutive completions restore the phase, and the label names it |
| `WorkoutTimer.FinishesAlternate` | app/src/main/java/com/application/workouttimer/MainActivity.java:145-158 | after n completions the phase is the starting one exactly when n is even |
| `WorkoutTimer.StopWithTimerResets` | app/src/main/java/com/application/workouttimer/MainActivity.java:94-104 | with a countdown in existence, stop sets Workout, 100, the workout label and the Workout field's text, and keeps the duration and the countdown |
| `WorkoutTimer.StopWithoutTimerChangesNothing` | app/src/main/java/com/application/workouttimer/MainActivity.java:94 | before any countdown was created, stop changes nothing |
| `WorkoutTimer.StopIdempotent` | app/src/main/java/com/application/workouttimer/MainActivity.java:94-104 | stopping twice gives the same state as stopping once |
| `WorkoutTimer.StartAfterStopUsesWorkoutField` | app/src/main/java/com/application/workouttimer/MainActivity.java:100 | after a stop, the next start runs in the Workout phase and reads the Workout field |
| `WorkoutTimer.StartPreservesCoherent` | app/src/main/java/com/application/workouttimer/MainActivity.java:109-117 | starting keeps the label naming the phase, the bar within 0..100 and the duration a long |
| `WorkoutTimer.FinishPreservesCoherent` | app/src/main/java/com/application/workouttimer/MainActivity.java:145-158 | completion keeps the same invariant |
| `WorkoutTimer.StopPreservesCoherent` | app/src/main/java/com/application/workouttimer/MainActivity.java:94-104 | stop keeps the same invariant |
| `WorkoutTimer.TickPreservesCoherent` | app/src/main/java/com/application/workouttimer/MainActivity.java:120-124 | a tick of the current countdown keeps the invariant |
| `WorkoutTimer.TickTextParsesBack` | app/src/main/java/com/application/workouttimer/MainActivity.java:124 | every tick of the current countdown, the first included, shows a text that parses back to the rounded seconds left |
| `WorkoutTimer.FinishEstablishesCoherent` | app/src/main/java/com/application/workouttimer/MainActivity.java:145-158 | a completion makes the screen coherent from any state whose duration is a long |
| `WorkoutTimer.StopEstablishesCoherent` | app/src/main/java/com/application/workouttimer/MainActivity.java:94-104 | a stop after a countdown was created makes the screen coherent from any state whose duration is a long |
| `WorkoutTimer.DurationStaysLong` | app/src/main/java/com/application/workouttimer/MainActivity.java:40 | the duration is a long initially and after every start, tick, completion and stop |
| `WorkoutTimer.ThirtyFifteenScenario` | app/src/main/java/com/application/workouttimer/MainActivity.java:109-158 | with fields "30" and "15": countdowns of 30000, 15000 and 30000 ms in phases Workout, Rest, Workout; a stop then shows "30" |
| `WorkoutTimer.TimerScreen.constructor` | app/src/main/java/com/application/workouttimer/MainActivity.java:73-77 | after initialisation the phase is Workout and no countdown exists |
| `WorkoutTimer.TimerScreen.SetCurrentMaxDuration` | app/src/main/java/com/application/workouttimer/MainActivity.java:165-180 | the duration is set from the current phase's field when it parses; otherwise nothing changes and the outcome is the parse error |
| `WorkoutTimer.TimerScreen.Start` | app/src/main/java/com/application/workouttimer/MainActivity.java:109-117 | the new state and outcome are exactly `StartStep` of the old state |
| `WorkoutTimer.TimerScreen.Tick` | app/src/main/java/com/application/workouttimer/MainActivity.java:120-133 | the new state is exactly `TickStep` of the old state |
| `WorkoutTimer.TimerScreen.Finish` | app/src/main/java/com/application/workouttimer/MainActivity.java:138-158 | the new state and outcome are exactly `FinishStep` of the old state |
| `WorkoutTimer.TimerScreen.Stop` | app/src/main/java/com/application/workouttimer/MainActivity.java:90-104 | the new state is exactly `StopStep` of the old state |

## Left out

- Android view plumbing (`onCreate`, `setContentView`, `findViewById`, listener registration) is not modelled. Widgets are plain fields, and their texts are method parameters.
- The layout file (`activity_main.xml`) is not part of this model. The widgets' initial values are constructor parameters, and the two phase-name string resources appear as `PhaseName(Workout)` and `PhaseName(Rest)`.
- `CountDownTimer` scheduling, its one-second cadence and the `Handler.post` hand-off to the main thread are platform services. A tick or a completion is an explicit method call, and the posted work runs in one piece.
- Countdowns that keep running after being replaced are not modelled. Start does not cancel the previous countdown, so an old countdown can still tick against the new `currentDuration` or finish and flip the phase.
- Stop's `countDownTimer.cancel()` acts only on the scheduler, which is left out. The model only records that the countdown object still exists afterwards.
- Android ends the process on an unhandled `NumberFormatException`. The model returns `NumberFormatError` with the state as it stands when the exception is thrown.
- `ProgressBar.setProgress` clamping to the bar's range is not modelled. Every value the model writes already lies in 0..100.
- TickMath.Percent: computed on exact rationals; the `float` rounding of `(float) l / (float) currentDuration * 100` is not modelled. It can differ by one at exact half-percents: with 265 ms left of a 1000 ms countdown, float gives 26 and the exact quotient 27.
- TickMath.Seconds: computed on exact rationals; the `double` product `l * 0.001` is not modelled.
- JavaLong.ParseLong: accepts only ASCII digits. Java's `Character.digit` also accepts other Unicode decimal digits.
- WorkoutTimer.TimerScreen.Tick: requires `0 <= l <= currentDuration` and `currentDuration > 0`. Those are the only ticks the current countdown delivers. A countdown of length 0 or less never ticks and finishes at once.
