/** The side effects the counter screen asks of its collaborators, as a trace of
    events, and the shape every trace of the screen has: whole alarm episodes. */
module AlertTrace {

  /** One call to a callback of the screen: `onAlertSound`, `onVibrate` or `onStopSound`. */
  datatype Event = AlertSound | Vibrate | StopSound

  /** Trace t takes the alarm from `from` (sound playing or not) to `to`: each time
      the alarm starts, `AlertSound` then `Vibrate` is issued once, and each time it
      stops, `StopSound` is issued once, alternately. */
  predicate Episodes(t: seq<Event>, from: bool, to: bool)
  {
    if t == [] then from == to
    else if !from then
      |t| >= 2 && t[0] == AlertSound && t[1] == Vibrate && Episodes(t[2..], true, to)
    else
      t[0] == StopSound && Episodes(t[1..], false, to)
  }

  /** How many times e occurs in t. */
  function Count(t: seq<Event>, e: Event): nat
  {
    multiset(t)[e]
  }

  /** Episodes compose: a trace from a to b followed by one from b to c goes from a to c. */
  lemma {:induction false} EpisodesAppend(t: seq<Event>, u: seq<Event>, a: bool, b: bool, c: bool)
    requires Episodes(t, a, b) && Episodes(u, b, c)
    ensures Episodes(t + u, a, c)
  {
    if t == [] {
      assert t + u == u;
    } else if !a {
      assert (t + u)[2..] == t[2..] + u;
      EpisodesAppend(t[2..], u, true, b, c);
    } else {
      assert (t + u)[1..] == t[1..] + u;
      EpisodesAppend(t[1..], u, false, b, c);
    }
  }

  /** Along a trace of episodes the starts, vibrations and stops balance: one
      vibration per start, and starts exceed stops by one exactly when the trace
      ends with the alarm on (counting one for an alarm already on at the start). */
  lemma {:induction false} EpisodesBalance(t: seq<Event>, from: bool, to: bool)
    requires Episodes(t, from, to)
    ensures Count(t, AlertSound) == Count(t, Vibrate)
    ensures Count(t, AlertSound) + (if from then 1 else 0) == Count(t, StopSound) + (if to then 1 else 0)
  {
    if t == [] {
    } else if !from {
      assert t == [t[0], t[1]] + t[2..];
      EpisodesBalance(t[2..], true, to);
    } else {
      assert t == [t[0]] + t[1..];
      EpisodesBalance(t[1..], false, to);
    }
  }
}
