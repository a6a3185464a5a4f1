# Controle de Quebra — counter and alert-escalation model

The app is a single-screen tally of cash-register discrepancies ("quebra de
caixa"). The user moves a signed counter (`contador`) with plus and minus
buttons, or with taps on the right and left parts of the screen, and resets it
with a reset button. The magnitude of the counter selects one of six severity
tiers, with thresholds at 10, 20, 30, 50 and 100 on either side of zero. The
tier chooses the status label, the screen background, the colour of the
indicator card, the colour of the digits and the colour of the indicator text.
In the maximum tier (|counter| ≥ 100) the background blinks. On entering that
tier the screen starts an alarm sound and vibrates; on leaving it the screen
stops the sound.

The Dafny project has four modules:

- `AlertLevels` (`alert_levels.dfy`): the tiers and each `when` table of
  `MainActivity.kt`, one function per table. All of them are pure functions
  of the counter. Colours are Compose ARGB literals. The blink phase is an
  opaque `real` that is passed through and never computed on.
- `AlertTrace` (`alert_trace.dfy`): the callbacks `onAlertSound`, `onVibrate`
  and `onStopSound` as events. It also defines `Episodes`, the shape every
  trace of the screen has: alternating alarm starts (`AlertSound`, `Vibrate`)
  and stops (`StopSound`).
- `AlertSession` (`alert_session.dfy`): the screen's remembered state as a
  value (`Screen`), the alert update, one user action followed by the update
  (`Step`), and whole sessions of actions (`Run`). Lemmas about reachable
  states and concrete sessions are stated over these functions.
- `CounterApp` (`counter_app.dfy`): class `AppState`. Its fields are the
  remembered variables `contador`, `isBlinking` and `isSoundPlaying`, plus a
  `trace` of the callbacks issued. Its methods are the click handlers and
  `updateAlerts`, written imperatively and proved against the `AlertSession`
  functions.

The app runs `updateAlerts` from a `LaunchedEffect` keyed on the counter. The
model instead calls it after each action (`AppState.Perform`, `AlertSession.Step`).

Two facts about the code shape the model:

- The code has three colour tables, not one colour per tier:
  - the background uses Light Salmon for 10–19 and Transparent for |counter| < 10;
  - the digits use Dark Orange for 10–19 and Black for |counter| < 10;
  - the indicator card uses Light Salmon for 10–19 and White for |counter| < 10.
- Edge detection compares the two remembered flags with |counter| ≥ 100, not a
  previous tier with a current tier. The blink flag and the sound flag are
  updated separately.

## Model

| member | source | states |
|---|---|---|
| AlertLevels.Classify | app/src/main/java/com/example/controledequebra/MainActivity.kt:154-431 | the tier picked most-severe-first lies in the band of \|c\| it names, and is Maximum exactly when c ≥ 100 or c ≤ -100 |
| AlertLevels.TiersPartition | app/src/main/java/com/example/controledequebra/MainActivity.kt:410-417 | the six bands partition the magnitudes: \|c\| lies in band t exactly when t is the tier the chain picks |
| AlertLevels.Label | app/src/main/java/com/example/controledequebra/MainActivity.kt:410-417 | the label is "Normal", "Atenção", "Leve", "Mais Grave", "Muito Grave" or "ALERTA MÁXIMO!" exactly when \|c\| is in <10, 10–19, 20–29, 30–49, 50–99 or ≥100 respectively |
| AlertLevels.BackgroundColor | app/src/main/java/com/example/controledequebra/MainActivity.kt:154-163 | the background pulses (dark red, alpha = the blink phase) exactly when \|c\| ≥ 100; otherwise it is the fixed crimson, orange-red, tomato, light salmon or transparent of its band, so no other tier depends on the phase |
| AlertLevels.CounterTextColor | app/src/main/java/com/example/controledequebra/MainActivity.kt:264-271 | the digit colour is dark red, crimson, orange-red, tomato, dark orange or black exactly in the bands ≥100, 50–99, 30–49, 20–29, 10–19, <10 |
| AlertLevels.IndicatorColor | app/src/main/java/com/example/controledequebra/MainActivity.kt:419-426 | the indicator card colour is dark red, crimson, orange-red, tomato, light salmon or white exactly in the bands ≥100, 50–99, 30–49, 20–29, 10–19, <10 |
| AlertLevels.IndicatorTextColor | app/src/main/java/com/example/controledequebra/MainActivity.kt:428-431 | the indicator text is white exactly when \|c\| ≥ 10 and black exactly when \|c\| < 10 |
| AlertLevels.PickedByTier | app/src/main/java/com/example/controledequebra/MainActivity.kt:154-431 | two counters of the same tier get the same label, background, digit colour, card colour and text colour |
| AlertLevels.SignSymmetric | app/src/main/java/com/example/controledequebra/MainActivity.kt:154-431 | the tier, the label and every colour are the same for c and -c |
| AlertLevels.ColourTablesDiffer | app/src/main/java/com/example/controledequebra/MainActivity.kt:154-431 | the card and digit colours agree exactly when \|c\| ≥ 20; the background equals the card colour exactly when 10 ≤ \|c\| < 100 |
| AlertTrace.EpisodesAppend | app/src/main/java/com/example/controledequebra/MainActivity.kt:176-183 | a trace of whole alarm episodes from state a to b followed by one from b to c is one from a to c |
| AlertTrace.EpisodesBalance | app/src/main/java/com/example/controledequebra/MainActivity.kt:176-183 | along alarm episodes, every start issues exactly one vibration, and starts exceed stops by one exactly when the alarm ends on (adjusted for an alarm already on) |
| AlertSession.UpdateAlerts | app/src/main/java/com/example/controledequebra/MainActivity.kt:166-184 | after the update both flags equal "\|c\| ≥ 100" and the counter is unchanged; entering the maximum tier issues AlertSound then Vibrate; leaving it issues StopSound; otherwise nothing is issued, and a settled state is left as it was |
| AlertSession.Act | app/src/main/java/com/example/controledequebra/MainActivity.kt:286-287 | a click handler sets the counter to c − 1 (minus, also lines 213 and 328), c + 1 (plus, also line 343) or 0 (reset, line 365) and leaves both flags untouched |
| AlertSession.Step | app/src/main/java/com/example/controledequebra/MainActivity.kt:186-189 | after an action and the update that the counter change triggers, the counter is where the action put it and the flags agree with it |
| AlertSession.StepFiresOnCrossing | app/src/main/java/com/example/controledequebra/MainActivity.kt:170-183 | from a settled state, an action issues AlertSound+Vibrate exactly when it crosses into \|c\| ≥ 100, StopSound exactly when it crosses out, and nothing otherwise, whatever the lower tiers do |
| AlertSession.ResetAtZeroIsNoOp | app/src/main/java/com/example/controledequebra/MainActivity.kt:365 | a reset at 0 leaves the settled screen as it was and issues no callback |
| AlertSession.RunAppend | app/src/main/java/com/example/controledequebra/MainActivity.kt:186-189 | a session of xs then ys ends where running ys after xs ends, with the callbacks of both in order |
| AlertSession.RunStaysSettled | app/src/main/java/com/example/controledequebra/MainActivity.kt:166-184 | from a settled state, every session ends settled |
| AlertSession.RunIssuesEpisodes | app/src/main/java/com/example/controledequebra/MainActivity.kt:176-183 | the callbacks of any session are whole alarm episodes from the starting sound flag to the final one |
| AlertSession.Reachable | app/src/main/java/com/example/controledequebra/MainActivity.kt:138-140 | in every state reached from 0/false/false both flags equal "\|c\| ≥ 100"; the callbacks are whole episodes; AlertSound and Vibrate were issued equally often, and once more than StopSound exactly when the counter is in the maximum tier |
| AlertSession.ClimbFrom | app/src/main/java/com/example/controledequebra/MainActivity.kt:286-287 | n increments from a settled c ≥ 0 reach c + n and issue AlertSound+Vibrate once when 100 is reached from below, and nothing otherwise |
| AlertSession.DescendFrom | app/src/main/java/com/example/controledequebra/MainActivity.kt:212-213 | n decrements from a settled c ≤ 0 reach c − n and issue AlertSound+Vibrate once when -100 is reached from above, and nothing otherwise |
| AlertSession.OpeningToAttention | app/src/main/java/com/example/controledequebra/MainActivity.kt:138 | 10 increments from the opening screen reach 10, the Attention tier, with no callback |
| AlertSession.OpeningToMaximum | app/src/main/java/com/example/controledequebra/MainActivity.kt:176-179 | 100 increments from the opening screen reach the maximum tier and issue AlertSound and Vibrate once |
| AlertSession.FallFromMaximum | app/src/main/java/com/example/controledequebra/MainActivity.kt:180-183 | from 100 with the alarm on, a decrement reaches 99 and issues StopSound once; a reset then returns to the opening state with nothing further |
| AlertSession.OpeningSession | app/src/main/java/com/example/controledequebra/MainActivity.kt:166-184 | 100 increments, a decrement and a reset issue exactly AlertSound, Vibrate, StopSound and end at the opening state |
| CounterApp.AppState.constructor | app/src/main/java/com/example/controledequebra/MainActivity.kt:138-140 | the screen opens at counter 0, not blinking, no sound, no callbacks, with the invariant established |
| CounterApp.AppState.Decrement | app/src/main/java/com/example/controledequebra/MainActivity.kt:213 | the counter drops by one; flags and callbacks untouched; invariant kept |
| CounterApp.AppState.Increment | app/src/main/java/com/example/controledequebra/MainActivity.kt:287 | the counter rises by one; flags and callbacks untouched; invariant kept |
| CounterApp.AppState.Reset | app/src/main/java/com/example/controledequebra/MainActivity.kt:365 | the counter becomes 0; flags and callbacks untouched; invariant kept |
| CounterApp.AppState.UpdateAlerts | app/src/main/java/com/example/controledequebra/MainActivity.kt:166-184 | the in-place update: flags end equal to "\|c\| ≥ 100"; the trace grows by AlertSound, Vibrate on entering, by StopSound on leaving, and by nothing otherwise; the new state is the one AlertSession.UpdateAlerts gives |
| CounterApp.AppState.Perform | app/src/main/java/com/example/controledequebra/MainActivity.kt:187-189 | an action followed by the update moves the state as one Step and extends the trace by that Step's callbacks, keeping the episode invariant |

## Left out

- `HomeActivity.kt` is not part of this model. It holds layout, looping colour and size animations, navigation and a button debounce driven by a coroutine delay.
- The platform wrappers `playAlertSound`, `stopAlertSound` and `vibrate` (MediaPlayer, ToneGenerator and Vibrator calls whose exceptions are swallowed) are foreign I/O. Each call is modelled only as an event in the trace.
- Window, fullscreen and edge-to-edge setup in `onCreate`, the stop call in `onDestroy`, and the back button's navigation are lifecycle and navigation plumbing.
- The blink animation is left out: the 500 ms tween, its float value and its target of 0 or 1 depending on `isBlinking`. Its current value enters only as the opaque alpha of the pulsing background.
- The indicator card's fixed 0.9 alpha and the other fixed alphas are float constants with no decision attached.
- Compose recomposition and `LaunchedEffect` scheduling are left out. The model runs the alert update once after every action. If several taps were coalesced into one effect run, the update would see only the endpoints. `UpdateAlerts` is stated for any counter value, so such a jump is covered. `Run` and `Reachable`, however, run the update after every action, so they can issue callbacks that the app would not. For example, a + then a − tapped from 99 within one frame leave the effect key at 99, and the app issues nothing. The model's `Run` issues AlertSound, Vibrate, StopSound for the same taps.
- Kotlin's 32-bit `Int` wrap-around on `contador++` and `contador--` is left out: the counter is an unbounded integer.
- The empty `scope.launch` blocks in the click handlers have no effect and are not modelled.
- The counter's text (`contador.toString()`) and the layout are presentation only.
