/** The counter screen as values: a snapshot of its remembered state, the alert
    update that runs after every change of the counter, and whole sessions of
    user actions replayed from the initial state.  These functions are the
    specification the imperative `CounterApp.AppState` is proved against. */
module AlertSession {
  import opened AlertLevels
  import opened AlertTrace

  /** The remembered state of the screen: `contador`, `isBlinking`, `isSoundPlaying`. */
  datatype Screen = Screen(counter: int, blinking: bool, soundPlaying: bool)

  /** A new snapshot with the callbacks issued on the way to it, in order. */
  datatype Outcome = Outcome(screen: Screen, events: seq<Event>)

  /** The user's actions: the minus button or left area, the plus button or right
      area, and the reset button. */
  datatype Action = Decrement | Increment | Reset

  /** The screen when it opens: counter 0, not blinking, no sound. */
  const Initial := Screen(0, false, false)

  /** Both flags agree with the counter's tier. */
  predicate Settled(s: Screen)
  {
    s.blinking == AtMaximum(s.counter) && s.soundPlaying == AtMaximum(s.counter)
  }

  /** The alert update: both flags are brought in line with "the counter is in the
      maximum tier", and the callbacks fire only on the edge of the sound flag. */
  function UpdateAlerts(s: Screen): (r: Outcome)
    ensures r.screen.counter == s.counter && Settled(r.screen)
    ensures AtMaximum(s.counter) && !s.soundPlaying ==> r.events == [AlertSound, Vibrate]
    ensures !AtMaximum(s.counter) && s.soundPlaying ==> r.events == [StopSound]
    ensures s.soundPlaying == AtMaximum(s.counter) ==> r.events == []
    ensures Settled(s) ==> r.screen == s
  {
    var shouldBlink := s.counter >= 100 || s.counter <= -100;
    var shouldPlaySound := s.counter >= 100 || s.counter <= -100;
    var blinking :=
      if shouldBlink && !s.blinking then true
      else if !shouldBlink && s.blinking then false
      else s.blinking;
    if shouldPlaySound && !s.soundPlaying then
      Outcome(Screen(s.counter, blinking, true), [AlertSound, Vibrate])
    else if !shouldPlaySound && s.soundPlaying then
      Outcome(Screen(s.counter, blinking, false), [StopSound])
    else
      Outcome(Screen(s.counter, blinking, s.soundPlaying), [])
  }

  /** The counter after a click handler; the flags are untouched until the alert update runs. */
  function Act(s: Screen, a: Action): (r: Screen)
    ensures r.blinking == s.blinking && r.soundPlaying == s.soundPlaying
    ensures a == Decrement ==> r.counter == s.counter - 1
    ensures a == Increment ==> r.counter == s.counter + 1
    ensures a == Reset ==> r.counter == 0
  {
    match a
    case Decrement => s.(counter := s.counter - 1)
    case Increment => s.(counter := s.counter + 1)
    case Reset => s.(counter := 0)
  }

  /** One user action followed by the alert update it triggers. */
  function Step(s: Screen, a: Action): (r: Outcome)
    ensures r.screen.counter == Act(s, a).counter && Settled(r.screen)
  {
    UpdateAlerts(Act(s, a))
  }

  /** A session: the actions applied in order, with every callback issued. */
  function Run(s: Screen, actions: seq<Action>): (r: Outcome)
    decreases |actions|
  {
    if actions == [] then Outcome(s, [])
    else
      var first := Step(s, actions[0]);
      var rest := Run(first.screen, actions[1..]);
      Outcome(rest.screen, first.events + rest.events)
  }

  /** From a settled state, an action issues callbacks exactly when it carries the
      counter across the ±100 boundary: `AlertSound` and `Vibrate` on the way in,
      `StopSound` on the way out, nothing while the counter stays on one side,
      however the lower tiers change. */
  lemma StepFiresOnCrossing(s: Screen, a: Action)
    requires Settled(s)
    ensures var c := Act(s, a).counter;
      Step(s, a).events ==
        if !AtMaximum(s.counter) && AtMaximum(c) then [AlertSound, Vibrate]
        else if AtMaximum(s.counter) && !AtMaximum(c) then [StopSound]
        else []
  {
  }

  /** Resetting a screen already at zero changes nothing and issues nothing. */
  lemma ResetAtZeroIsNoOp(s: Screen)
    requires Settled(s) && s.counter == 0
    ensures Step(s, Reset) == Outcome(s, [])
  {
  }

  /** Running two sessions one after the other is running their concatenation. */
  lemma {:induction false} RunAppend(s: Screen, xs: seq<Action>, ys: seq<Action>)
    ensures Run(s, xs + ys).screen == Run(Run(s, xs).screen, ys).screen
    ensures Run(s, xs + ys).events == Run(s, xs).events + Run(Run(s, xs).screen, ys).events
    decreases |xs|
  {
    if xs == [] {
      assert xs + ys == ys;
    } else {
      assert (xs + ys)[0] == xs[0];
      assert (xs + ys)[1..] == xs[1..] + ys;
      RunAppend(Step(s, xs[0]).screen, xs[1..], ys);
    }
  }

  /** A session from a settled state ends settled: the flags always agree with the counter. */
  lemma {:induction false} RunStaysSettled(s: Screen, actions: seq<Action>)
    requires Settled(s)
    ensures Settled(Run(s, actions).screen)
    decreases |actions|
  {
    if actions != [] {
      RunStaysSettled(Step(s, actions[0]).screen, actions[1..]);
    }
  }

  /** The callbacks of any session are whole alarm episodes, ending with the sound
      on exactly when the session's last state has it on. */
  lemma {:induction false} RunIssuesEpisodes(s: Screen, actions: seq<Action>)
    ensures Episodes(Run(s, actions).events, s.soundPlaying, Run(s, actions).screen.soundPlaying)
    decreases |actions|
  {
    if actions != [] {
      var first := Step(s, actions[0]);
      assert Episodes(first.events, s.soundPlaying, first.screen.soundPlaying) by {
        var e := first.events;
        if e != [] {
          if !s.soundPlaying {
            assert e[2..] == [];
          } else {
            assert e[1..] == [];
          }
        }
      }
      RunIssuesEpisodes(first.screen, actions[1..]);
      EpisodesAppend(first.events, Run(first.screen, actions[1..]).events,
                     s.soundPlaying, first.screen.soundPlaying, Run(s, actions).screen.soundPlaying);
    }
  }

  /** In every state reachable from the initial one, both flags equal "the counter
      is in the maximum tier", the callbacks so far are whole alarm episodes, and
      the sound was started once more than it was stopped exactly when the counter
      is in the maximum tier. */
  lemma Reachable(actions: seq<Action>)
    ensures Settled(Run(Initial, actions).screen)
    ensures var r := Run(Initial, actions);
      Episodes(r.events, false, AtMaximum(r.screen.counter)) &&
      Count(r.events, AlertSound) == Count(r.events, Vibrate) &&
      Count(r.events, AlertSound) == Count(r.events, StopSound) + (if AtMaximum(r.screen.counter) then 1 else 0)
  {
    var r := Run(Initial, actions);
    RunStaysSettled(Initial, actions);
    RunIssuesEpisodes(Initial, actions);
    EpisodesBalance(r.events, false, r.screen.soundPlaying);
  }

  /** The same button pressed n times. */
  function Presses(a: Action, n: nat): (r: seq<Action>)
    ensures |r| == n && forall i :: 0 <= i < n ==> r[i] == a
  {
    if n == 0 then [] else [a] + Presses(a, n - 1)
  }

  /** Counting up from a settled, non-negative counter reaches c + n and sounds
      the alarm once, exactly when the climb reaches 100 from below. */
  lemma {:induction false} ClimbFrom(c: nat, n: nat)
    ensures var s := Screen(c, AtMaximum(c), AtMaximum(c));
      Run(s, Presses(Increment, n)) ==
        Outcome(Screen(c + n, AtMaximum(c + n), AtMaximum(c + n)),
                if c < 100 <= c + n then [AlertSound, Vibrate] else [])
    decreases n
  {
    if n > 0 {
      var ps := Presses(Increment, n);
      assert ps[0] == Increment && ps[1..] == Presses(Increment, n - 1);
      ClimbFrom(c + 1, n - 1);
    }
  }

  /** Counting down from a settled, non-positive counter reaches c - n and sounds
      the alarm once, exactly when the descent reaches -100 from above. */
  lemma {:induction false} DescendFrom(c: int, n: nat)
    requires c <= 0
    ensures var s := Screen(c, AtMaximum(c), AtMaximum(c));
      Run(s, Presses(Decrement, n)) ==
        Outcome(Screen(c - n, AtMaximum(c - n), AtMaximum(c - n)),
                if c - n <= -100 < c then [AlertSound, Vibrate] else [])
    decreases n
  {
    if n > 0 {
      var ps := Presses(Decrement, n);
      assert ps[0] == Decrement && ps[1..] == Presses(Decrement, n - 1);
      DescendFrom(c - 1, n - 1);
    }
  }

  /** The session that opens and counts up to 10 reaches the Attention tier with
      no callbacks issued. */
  lemma OpeningToAttention()
    ensures var r := Run(Initial, Presses(Increment, 10));
      r.screen.counter == 10 && Classify(r.screen.counter) == Attention && r.events == []
  {
  }

  /** Counting on to 100 reaches the maximum tier, sounding and vibrating once. */
  lemma OpeningToMaximum()
    ensures var r := Run(Initial, Presses(Increment, 100));
      r.screen.counter == 100 && Classify(r.screen.counter) == Maximum && r.events == [AlertSound, Vibrate]
  {
    ClimbFrom(0, 100);
  }

  /** From 100 with the alarm on, one press of minus drops to 99 and stops the sound
      once; a reset then returns to the initial state without further callbacks. */
  lemma FallFromMaximum()
    ensures Run(Screen(100, true, true), [Decrement]) == Outcome(Screen(99, false, false), [StopSound])
    ensures Run(Screen(100, true, true), [Decrement, Reset]) == Outcome(Initial, [StopSound])
  {
  }

  /** The whole opening session: up to 100, down one, reset.  The sound starts and
      stops once each and the screen ends as it opened. */
  lemma OpeningSession()
    ensures var r := Run(Initial, Presses(Increment, 100) + [Decrement]);
      r.screen.counter == 99 && Classify(r.screen.counter) == VerySerious &&
      r.events == [AlertSound, Vibrate, StopSound]
    ensures Run(Initial, Presses(Increment, 100) + [Decrement, Reset]) ==
      Outcome(Initial, [AlertSound, Vibrate, StopSound])
  {
    var up := Presses(Increment, 100);
    ClimbFrom(0, 100);
    FallFromMaximum();
    RunAppend(Initial, up, [Decrement]);
    RunAppend(Initial, up, [Decrement, Reset]);
  }
}
