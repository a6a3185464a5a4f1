/** The remembered state of the counter screen and the handlers that change it in
    place: the click handlers on the counter, and the alert update that runs after
    every change of the counter and issues the sound and vibration callbacks.
    The callbacks are recorded, in order, in `trace`. */
module CounterApp {
  import opened AlertLevels
  import opened AlertTrace
  import opened AlertSession

  class AppState {
    /** `contador`: the signed tally shown on screen. */
    var counter: int
    /** Whether the background is blinking. */
    var isBlinking: bool
    /** Whether the alarm sound has been started and not yet stopped. */
    var isSoundPlaying: bool
    /** Every `onAlertSound`, `onVibrate` and `onStopSound` call so far, in order. */
    var trace: seq<Event>

    /** The remembered state as a value. */
    function Snapshot(): Screen
      reads this
    {
      Screen(counter, isBlinking, isSoundPlaying)
    }

    /** The invariant kept between handlers: the two flags agree, and the callbacks
        so far are whole alarm episodes that leave the sound as `isSoundPlaying` says. */
    ghost predicate Valid()
      reads this
    {
      isBlinking == isSoundPlaying && Episodes(trace, false, isSoundPlaying)
    }

    /** The screen as it opens. */
    constructor ()
      ensures Valid() && Settled(Snapshot())
      ensures Snapshot() == Initial && trace == []
    {
      counter := 0;
      isBlinking := false;
      isSoundPlaying := false;
      trace := [];
    }

    /** The minus button or the left area of the screen. */
    method Decrement()
      requires Valid()
      modifies this
      ensures Valid()
      ensures counter == old(counter) - 1
      ensures isBlinking == old(isBlinking) && isSoundPlaying == old(isSoundPlaying) && trace == old(trace)
    {
      counter := counter - 1;
    }

    /** The plus button or the right area of the screen. */
    method Increment()
      requires Valid()
      modifies this
      ensures Valid()
      ensures counter == old(counter) + 1
      ensures isBlinking == old(isBlinking) && isSoundPlaying == old(isSoundPlaying) && trace == old(trace)
    {
      counter := counter + 1;
    }

    /** The reset button. */
    method Reset()
      requires Valid()
      modifies this
      ensures Valid()
      ensures counter == 0
      ensures isBlinking == old(isBlinking) && isSoundPlaying == old(isSoundPlaying) && trace == old(trace)
    {
      counter := 0;
    }

    /** The alert update: the flags are brought in line with the counter's tier,
        and the callbacks are issued only on crossing the ±100 boundary. */
    method UpdateAlerts()
      requires Valid()
      modifies this
      ensures Valid() && Settled(Snapshot())
      ensures counter == old(counter)
      ensures !old(isSoundPlaying) && AtMaximum(counter) ==> trace == old(trace) + [AlertSound, Vibrate]
      ensures old(isSoundPlaying) && !AtMaximum(counter) ==> trace == old(trace) + [StopSound]
      ensures old(isSoundPlaying) == AtMaximum(counter) ==> trace == old(trace)
      ensures Snapshot() == AlertSession.UpdateAlerts(old(Snapshot())).screen
      ensures trace == old(trace) + AlertSession.UpdateAlerts(old(Snapshot())).events
    {
      var shouldBlink := counter >= 100 || counter <= -100;
      var shouldPlaySound := counter >= 100 || counter <= -100;

      if shouldBlink && !isBlinking {
        isBlinking := true;
      } else if !shouldBlink && isBlinking {
        isBlinking := false;
      }

      if shouldPlaySound && !isSoundPlaying {
        isSoundPlaying := true;
        trace := trace + [AlertSound];
        trace := trace + [Vibrate];
        assert trace == old(trace) + [AlertSound, Vibrate];
        assert [AlertSound, Vibrate][2..] == [];
        EpisodesAppend(old(trace), [AlertSound, Vibrate], false, false, true);
      } else if !shouldPlaySound && isSoundPlaying {
        isSoundPlaying := false;
        trace := trace + [StopSound];
        assert [StopSound][1..] == [];
        EpisodesAppend(old(trace), [StopSound], false, true, false);
      }
    }

    /** A user action followed by the alert update that the change of the counter
        triggers: the screen moves as one `Step` of the session. */
    method Perform(a: Action)
      requires Valid()
      modifies this
      ensures Valid() && Settled(Snapshot())
      ensures Snapshot() == Step(old(Snapshot()), a).screen
      ensures trace == old(trace) + Step(old(Snapshot()), a).events
    {
      match a {
        case Decrement => Decrement();
        case Increment => Increment();
        case Reset => Reset();
      }
      UpdateAlerts();
    }
  }
}
