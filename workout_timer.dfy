/** The two-phase interval timer of the workout timer screen. The screen alternates between a
    Workout and a Rest countdown. Each countdown's length is read from the input field of its own
    phase when the countdown is created. A stop button puts the screen back into the Workout phase.

    The pure step functions below describe one transition each, on a snapshot of everything the
    timer logic reads or writes. The class `TimerScreen` holds the same state in mutable fields,
    and each of its methods is proved to perform exactly its step. */
module WorkoutTimer {
  import opened JavaLong
  import opened TickMath

  datatype Phase = Workout | Rest

  /** The phase a completed countdown hands over to. */
  function Other(p: Phase): (q: Phase)
    ensures q != p
  {
    match p
    case Workout => Rest
    case Rest => Workout
  }

  /** What the phase label shows: one of the two phase-name string resources, or the text the
      screen's layout gives the label before the timer first writes it. */
  datatype Label = PhaseName(phase: Phase) | LayoutLabel(text: string)

  /** How a transition ends: normally, or with the `NumberFormatException` of `Long.parseLong`. */
  datatype Outcome = Completed | NumberFormatError

  /** Everything the timer logic reads or writes: the phase, the current countdown's length in
      milliseconds, whether a countdown was ever created, and the three displayed values (the
      progress bar's fill, the phase label and the remaining-time text). */
  datatype Screen = Screen(
    phase: Phase,
    currentDuration: int,
    hasTimer: bool,
    progress: int,
    phaseText: Label,
    progressText: string)

  datatype Step = Step(screen: Screen, outcome: Outcome)

  /** The text of the input field that belongs to phase `p`. */
  function DurationInput(p: Phase, workoutIn: string, restIn: string): string {
    match p
    case Workout => workoutIn
    case Rest => restIn
  }

  /** The switch on the phase that computes the countdown's length: the phase's field parsed as
      seconds and multiplied by 1000 in `long` arithmetic. `None` when the field does not parse. */
  function MaxDuration(p: Phase, workoutIn: string, restIn: string): (r: Option<int>)
    ensures r.Some? <==> ParseLong(DurationInput(p, workoutIn, restIn)).Some?
    ensures r.Some? ==> IsLong(r.value)
  {
    match ParseLong(DurationInput(p, workoutIn, restIn))
    case None => None
    case Some(seconds) => Some(WrapLong(seconds * 1000))
  }

  /** The state just after the screen is set up: the Workout phase, no countdown yet, a duration of
      0 (a Java field's default) and whatever the layout shows on the three widgets. */
  function Initial(layoutProgress: int, layoutLabel: Label, layoutText: string): (s: Screen)
    ensures s.phase == Workout && !s.hasTimer && IsLong(s.currentDuration)
  {
    Screen(Workout, 0, false, layoutProgress, layoutLabel, layoutText)
  }

  /** Creating a countdown: the duration for the current phase is computed first; if its field does
      not parse, the exception leaves everything as it was. Otherwise a countdown now exists. */
  function StartStep(s: Screen, workoutIn: string, restIn: string): (r: Step)
    ensures r.screen.phase == s.phase && r.screen.phaseText == s.phaseText
    ensures r.screen.progress == s.progress && r.screen.progressText == s.progressText
    ensures r.outcome == Completed ==> r.screen.hasTimer
    ensures r.outcome == NumberFormatError ==> r.screen == s
  {
    match MaxDuration(s.phase, workoutIn, restIn)
    case None => Step(s, NumberFormatError)
    case Some(d) => Step(s.(currentDuration := d, hasTimer := true), Completed)
  }

  /** One tick of the current countdown with `l` milliseconds left. */
  function TickStep(s: Screen, l: int): (r: Screen)
    requires 0 <= l <= s.currentDuration && s.currentDuration > 0
    ensures 0 <= r.progress <= 100
    ensures r.phase == s.phase && r.phaseText == s.phaseText
    ensures r.currentDuration == s.currentDuration && r.hasTimer == s.hasTimer
  {
    PercentBounds(l, s.currentDuration);
    s.(progress := Percent(l, s.currentDuration), progressText := FormatLong(Seconds(l)))
  }

  /** The end of a countdown: the phase flips, the label names the new phase, the bar is emptied,
      and a countdown for the new phase is created. The flip happens before the new duration is
      parsed, so a parse failure here still leaves the flipped phase behind. */
  function FinishStep(s: Screen, workoutIn: string, restIn: string): (r: Step)
    ensures r.screen.phase == Other(s.phase) && r.screen.phaseText == PhaseName(r.screen.phase)
    ensures r.screen.progress == 0 && r.screen.progressText == s.progressText
  {
    var flipped := s.(phase := Other(s.phase), phaseText := PhaseName(Other(s.phase)), progress := 0);
    StartStep(flipped, workoutIn, restIn)
  }

  /** The stop button. Only when a countdown was ever created does it reset the screen to the
      Workout phase with a full bar and the Workout field's current text as the remaining time. */
  function StopStep(s: Screen, workoutText: string): (r: Screen)
    ensures r.currentDuration == s.currentDuration && r.hasTimer == s.hasTimer
    ensures r.hasTimer ==> r.phase == Workout && r.phaseText == PhaseName(Workout) && r.progress == 100
  {
    if s.hasTimer then
      s.(phase := Workout, progress := 100, phaseText := PhaseName(Workout), progressText := workoutText)
    else
      s
  }

  /** A sequence of completions, each with the two field texts as they stand at that moment. */
  function Finishes(s: Screen, inputs: seq<(string, string)>): (r: Screen)
    ensures inputs != [] ==> r.phaseText == PhaseName(r.phase) && r.progress == 0
    decreases |inputs|
  {
    if inputs == [] then s
    else Finishes(FinishStep(s, inputs[0].0, inputs[0].1).screen, inputs[1..])
  }

  // ----- Properties of the transitions -----

  /** Starting reads the field of the current phase; it never changes the phase or the displays. */
  lemma StartUsesCurrentPhaseField(s: Screen, workoutIn: string, restIn: string)
    ensures var t := StartStep(s, workoutIn, restIn);
      && t.screen.phase == s.phase
      && t.screen.progress == s.progress && t.screen.phaseText == s.phaseText
      && t.screen.progressText == s.progressText
      && (t.outcome == Completed <==> ParseLong(DurationInput(s.phase, workoutIn, restIn)).Some?)
      && (t.outcome == Completed ==> t.screen.hasTimer)
      && (s.phase == Workout && t.outcome == Completed ==>
            t.screen.currentDuration == WrapLong(ParseLong(workoutIn).value * 1000))
      && (s.phase == Rest && t.outcome == Completed ==>
            t.screen.currentDuration == WrapLong(ParseLong(restIn).value * 1000))
  {
  }

  /** An input of at most MaxLong / 1000 seconds in magnitude gives exactly that many thousand
      milliseconds; a larger one overflows the `long` product and wraps. */
  lemma DurationIsThousandfold(p: Phase, workoutIn: string, restIn: string, seconds: int)
    requires ParseLong(DurationInput(p, workoutIn, restIn)) == Some(seconds)
    requires -(MaxLong / 1000) <= seconds <= MaxLong / 1000
    ensures MaxDuration(p, workoutIn, restIn) == Some(seconds * 1000)
  {
  }

  /** The smallest positive number of seconds whose product overflows: a field that parses to
      9223372036854776 gives a large negative number of milliseconds. */
  lemma HugeInputWraps(p: Phase, workoutIn: string, restIn: string)
    requires ParseLong(DurationInput(p, workoutIn, restIn)) == Some(9223372036854776)
    ensures MaxDuration(p, workoutIn, restIn) == Some(-9223372036854775616)
  {
  }

  /** A field that does not parse leaves phase, duration, countdown and displays untouched. */
  lemma StartFailureChangesNothing(s: Screen, workoutIn: string, restIn: string)
    requires ParseLong(DurationInput(s.phase, workoutIn, restIn)) == None
    ensures StartStep(s, workoutIn, restIn) == Step(s, NumberFormatError)
  {
  }

  /** Completion flips the phase, names the new phase on the label, empties the bar, and takes the
      next countdown's length from the field of the new phase. */
  lemma FinishFlipsAndRestarts(s: Screen, workoutIn: string, restIn: string)
    ensures var t := FinishStep(s, workoutIn, restIn);
      && t.screen.phase == Other(s.phase)
      && t.screen.phaseText == PhaseName(t.screen.phase)
      && t.screen.progress == 0
      && t.screen.progressText == s.progressText
      && (t.outcome == Completed <==> ParseLong(DurationInput(Other(s.phase), workoutIn, restIn)).Some?)
      && (t.outcome == Completed ==>
            t.screen.hasTimer && Some(t.screen.currentDuration) == MaxDuration(Other(s.phase), workoutIn, restIn))
      && (t.outcome == NumberFormatError ==>
            t.screen.currentDuration == s.currentDuration && t.screen.hasTimer == s.hasTimer)
  {
  }

  /** Workout is followed by Rest and Rest by Workout; two completions restore the phase. */
  lemma FinishTwiceRestoresPhase(s: Screen, w1: string, r1: string, w2: string, r2: string)
    ensures var t := FinishStep(FinishStep(s, w1, r1).screen, w2, r2).screen;
      t.phase == s.phase && t.phaseText == PhaseName(s.phase)
  {
  }

  /** After n completions the phase is the starting one exactly when n is even. */
  lemma {:induction false} FinishesAlternate(s: Screen, inputs: seq<(string, string)>)
    ensures Finishes(s, inputs).phase == if |inputs| % 2 == 0 then s.phase else Other(s.phase)
    decreases |inputs|
  {
    if inputs != [] {
      var next := FinishStep(s, inputs[0].0, inputs[0].1).screen;
      FinishesAlternate(next, inputs[1..]);
      assert next.phase == Other(s.phase);
      assert Other(Other(s.phase)) == s.phase;
    }
  }

  /** With a countdown in existence, stop resets phase, bar, label and remaining text, and leaves
      the duration and the countdown itself alone. */
  lemma StopWithTimerResets(s: Screen, workoutText: string)
    requires s.hasTimer
    ensures StopStep(s, workoutText) ==
      Screen(Workout, s.currentDuration, true, 100, PhaseName(Workout), workoutText)
  {
  }

  /** Before any countdown was created, stop changes nothing. */
  lemma StopWithoutTimerChangesNothing(s: Screen, workoutText: string)
    requires !s.hasTimer
    ensures StopStep(s, workoutText) == s
  {
  }

  /** Pressing stop twice leaves the same state as pressing it once. */
  lemma StopIdempotent(s: Screen, workoutText: string)
    ensures StopStep(StopStep(s, workoutText), workoutText) == StopStep(s, workoutText)
  {
  }

  /** After a stop with a countdown in existence, the next start reads the Workout field. */
  lemma StartAfterStopUsesWorkoutField(s: Screen, workoutText: string, workoutIn: string, restIn: string)
    requires s.hasTimer
    ensures var t := StartStep(StopStep(s, workoutText), workoutIn, restIn);
      t.screen.phase == Workout &&
      (t.outcome == Completed <==> ParseLong(workoutIn).Some?) &&
      (t.outcome == Completed ==> Some(t.screen.currentDuration) == MaxDuration(Workout, workoutIn, restIn))
  {
  }

  /** The screen is coherent when the label names the phase, the bar shows a percentage and the
      duration is a long. The initial duration is a long and every transition keeps it one; the
      first completion, or the first stop after a countdown was created, makes the screen
      coherent, and every transition keeps it so from then on. */
  predicate Coherent(s: Screen) {
    s.phaseText == PhaseName(s.phase) && 0 <= s.progress <= 100 && IsLong(s.currentDuration)
  }

  lemma StartPreservesCoherent(s: Screen, workoutIn: string, restIn: string)
    requires Coherent(s)
    ensures Coherent(StartStep(s, workoutIn, restIn).screen)
  {
  }

  lemma FinishPreservesCoherent(s: Screen, workoutIn: string, restIn: string)
    requires Coherent(s)
    ensures Coherent(FinishStep(s, workoutIn, restIn).screen)
  {
  }

  lemma StopPreservesCoherent(s: Screen, workoutText: string)
    requires Coherent(s)
    ensures Coherent(StopStep(s, workoutText))
  {
  }

  /** A completion makes the screen coherent from any state whose duration is a long. */
  lemma FinishEstablishesCoherent(s: Screen, workoutIn: string, restIn: string)
    requires IsLong(s.currentDuration)
    ensures Coherent(FinishStep(s, workoutIn, restIn).screen)
  {
  }

  /** A stop after a countdown was created makes the screen coherent from any state whose
      duration is a long. */
  lemma StopEstablishesCoherent(s: Screen, workoutText: string)
    requires s.hasTimer && IsLong(s.currentDuration)
    ensures Coherent(StopStep(s, workoutText))
  {
  }

  /** The duration is a long in the initial state and after every transition. */
  lemma DurationStaysLong(s: Screen, workoutIn: string, restIn: string, workoutText: string, l: int,
                          layoutProgress: int, layoutLabel: Label, layoutText: string)
    requires IsLong(s.currentDuration)
    ensures IsLong(StartStep(s, workoutIn, restIn).screen.currentDuration)
    ensures IsLong(FinishStep(s, workoutIn, restIn).screen.currentDuration)
    ensures IsLong(StopStep(s, workoutText).currentDuration)
    ensures 0 <= l <= s.currentDuration && s.currentDuration > 0 ==> IsLong(TickStep(s, l).currentDuration)
    ensures IsLong(Initial(layoutProgress, layoutLabel, layoutText).currentDuration)
  {
  }

  /** A tick keeps the screen coherent. */
  lemma TickPreservesCoherent(s: Screen, l: int)
    requires Coherent(s)
    requires 0 <= l <= s.currentDuration && s.currentDuration > 0
    ensures Coherent(TickStep(s, l))
  {
    PercentBounds(l, s.currentDuration);
  }

  /** Every tick of the current countdown, the first countdown's included, shows a
      remaining-time text that parses back to the rounded number of seconds left. Every reachable
      duration is a long (`DurationStaysLong`), so the first countdown's ticks qualify. */
  lemma TickTextParsesBack(s: Screen, l: int)
    requires 0 <= l <= s.currentDuration && s.currentDuration > 0 && IsLong(s.currentDuration)
    ensures ParseLong(TickStep(s, l).progressText) == Some(Seconds(l))
  {
    ParseFormat(Seconds(l));
  }

  /** Thirty seconds of workout and fifteen of rest: the first countdown lasts 30000 ms, the next
      15000 ms, the one after 30000 ms again; stopping then shows the Workout field's "30". */
  lemma ThirtyFifteenScenario(layoutProgress: int, layoutLabel: Label, layoutText: string)
    ensures var s0 := Initial(layoutProgress, layoutLabel, layoutText);
      var s1 := StartStep(s0, "30", "15");
      var s2 := FinishStep(s1.screen, "30", "15");
      var s3 := FinishStep(s2.screen, "30", "15");
      var s4 := StopStep(s3.screen, "30");
      && s1 == Step(s0.(currentDuration := 30000, hasTimer := true), Completed)
      && s2 == Step(Screen(Rest, 15000, true, 0, PhaseName(Rest), layoutText), Completed)
      && s3 == Step(Screen(Workout, 30000, true, 0, PhaseName(Workout), layoutText), Completed)
      && s4 == Screen(Workout, 30000, true, 100, PhaseName(Workout), "30")
  {
    ParseFormat(30);
    ParseFormat(15);
    assert FormatLong(30) == "30";
    assert FormatLong(15) == "15";
  }

  /** The timer's share of the screen controller. The fields are the phase, the duration, whether a
      countdown object exists, and the three widgets' displayed values. */
  class TimerScreen {
    var phase: Phase
    var currentDuration: int
    var hasTimer: bool
    var progress: int
    var phaseText: Label
    var progressText: string

    function State(): Screen
      reads this
    {
      Screen(phase, currentDuration, hasTimer, progress, phaseText, progressText)
    }

    /** Setting up the screen: the Workout phase and no countdown; the widgets show the layout's values. */
    constructor (layoutProgress: int, layoutLabel: Label, layoutText: string)
      ensures State() == Initial(layoutProgress, layoutLabel, layoutText)
      ensures phase == Workout && !hasTimer
    {
      phase := Workout;
      currentDuration := 0;
      hasTimer := false;
      progress := layoutProgress;
      phaseText := layoutLabel;
      progressText := layoutText;
    }

    /** Computes the current phase's countdown length from that phase's field. */
    method SetCurrentMaxDuration(workoutIn: string, restIn: string) returns (outcome: Outcome)
      modifies this
      ensures outcome == Completed <==> MaxDuration(old(phase), workoutIn, restIn).Some?
      ensures State() == if outcome == Completed
        then old(State()).(currentDuration := MaxDuration(old(phase), workoutIn, restIn).value)
        else old(State())
    {
      match phase
      case Workout =>
        var seconds := ParseLong(workoutIn);
        if seconds.None? {
          return NumberFormatError;
        }
        currentDuration := WrapLong(seconds.value * 1000);
        outcome := Completed;
      case Rest =>
        var seconds := ParseLong(restIn);
        if seconds.None? {
          return NumberFormatError;
        }
        currentDuration := WrapLong(seconds.value * 1000);
        outcome := Completed;
    }

    /** The start button, and the restart at the end of every countdown: computes the duration and
      creates a countdown for it. An earlier countdown is not cancelled; it is simply replaced. */
    method Start(workoutIn: string, restIn: string) returns (outcome: Outcome)
      modifies this
      ensures Step(State(), outcome) == StartStep(old(State()), workoutIn, restIn)
    {
      outcome := SetCurrentMaxDuration(workoutIn, restIn);
      if outcome == Completed {
        hasTimer := true;
      }
    }

    /** A tick of the current countdown, `l` milliseconds before its end. */
    method Tick(l: int)
      requires 0 <= l <= currentDuration && currentDuration > 0
      modifies this
      ensures State() == TickStep(old(State()), l)
    {
      progress := Percent(l, currentDuration);
      progressText := FormatLong(Seconds(l));
    }

    /** The end of the current countdown: flip the phase, empty the bar, start the next countdown. */
    method Finish(workoutIn: string, restIn: string) returns (outcome: Outcome)
      modifies this
      ensures Step(State(), outcome) == FinishStep(old(State()), workoutIn, restIn)
    {
      if phase == Workout {
        phase := Rest;
        phaseText := PhaseName(Rest);
      } else if phase == Rest {
        phase := Workout;
        phaseText := PhaseName(Workout);
      }
      progress := 0;
      outcome := Start(workoutIn, restIn);
    }

    /** The stop button; `workoutText` is the Workout field's text at the moment of the press. */
    method Stop(workoutText: string)
      modifies this
      ensures State() == StopStep(old(State()), workoutText)
    {
      if hasTimer {
        phase := Workout;
        progress := 100;
        phaseText := PhaseName(Workout);
        progressText := workoutText;
      }
    }
  }
}
