# Birthday card celebration sequencer, in Dafny

This project models the celebration sequencer inside the `BirthdayWish` card component. The user picks one of three clips and clicks "Celebrate!". The card then:

- raises its `celebrating` and `showConfetti` flags;
- restarts the selected clip;
- starts a 500 ms interval that lights five candles one by one;
- after `totalCandles * 500` ms, starts a second 500 ms interval that pops five balloons.

Each interval runs a saturating updater (`prev < total ? prev + 1 : prev`). Once the count reaches its total, the updater clears its own interval. When the clip ends, the confetti stops. Choosing another clip stops the audio and the confetti, and leaves the counters alone.

Modules:

- `Counters` (`counters.dfy`): the constants, the updater `CountUp`, and a reference definition of both counters as a function of elapsed time (`CandlesAt`, `BalloonsAt`).
- `Sounds` (`sounds.dfy`): the three clips and their file paths, and how the controlled selector maps a value back to an option.
- `Display` (`display.dfy`): the rendering predicates. A candle is lit inclusively of the boundary while celebrating. A balloon is popped below the count. Palette slots are taken by `index % length`.
- `Sequencer` (`sequencer.dfy`): the timers as data, `FireOne`/`FireDue` (what happens when timers fall due), and the class `BirthdayWish` with the card's state as fields. `RunTimer` is proved against `FireOne`, and `Tick` against `FireDue`. `Celebrate`, `SoundEnded` and `SelectSound` state their whole new state field by field. `RunCelebration` mounts a card, clicks Celebrate at time 0, runs the virtual clock, and proves that the counters follow `CandlesAt`/`BalloonsAt` at every tick.

Time is a virtual clock in milliseconds, held in the field `now`. `Tick` moves it forward by 500 and fires the due timers in queue order. `Celebrate` appends its two timers at the back of the queue, and what a fired timer leaves behind (its next period, or the balloon interval the delay creates) takes that timer's place. With two clicks, a balloon interval can thus come before a delay created earlier; and the delay moves no counter, so the counts are the same either way. A repeating interval is rescheduled one period after its due time. The balloon interval starts 500 ms after the delay fires. The audio player is a ghost field `audio` (`Silent` or `Playing(clip)`).

Three points of the code's behaviour are easy to misread, and the model follows the code in each:

- Although the balloon phase is staged to follow the candles directly, the first balloon pops at 3000 ms, not at 2500 ms. The balloon interval is only created at 2500 ms, and its first increment comes one period later. The last balloon pops at 5000 ms.
- The timers created by `celebrate` are never cancelled when the card unmounts. Only the resize listener is removed (components/birthday-wish.tsx:62). So there is no teardown operation to model.
- The effect that stops the audio and the confetti has the dependency list `[selectedSound, stop]` (components/birthday-wish.tsx:49). React runs it on mount and whenever either entry changes. The model keeps the `selectedSound` trigger: `SelectSound` stops the audio and clears `showConfetti` only when the clip changes, so re-selecting the current clip changes nothing. The run on mount changes nothing either, because the card starts silent with `showConfetti` false.

## Model

| member | source | states |
|---|---|---|
| Counters.CountUp | components/birthday-wish.tsx:75-79 | The updater raises the count by at most one and never lowers it. It keeps a count that starts within the total within the total. It clears its interval exactly when it leaves the count unchanged, which is exactly when the count has reached the total. |
| Counters.CountAfterIsMin | components/birthday-wish.tsx:74-80 | Starting from 0, k runs of the updater give min(k, total). The k-th run is the one that clears the interval exactly when k > total. |
| Counters.CandlesAt | components/birthday-wish.tsx:52-80 | The reference candle count at time t, min(t / 500, 5), never exceeds totalCandles. |
| Counters.BalloonsAt | components/birthday-wish.tsx:83-91 | The reference balloon count is 0 before the 2500 ms delay and min((t - 2500) / 500, 5) after it. It never exceeds totalBalloons. |
| Counters.OracleMonotone | components/birthday-wish.tsx:66-92 | Neither reference count decreases as time passes. |
| Counters.PhaseOrdering | components/birthday-wish.tsx:82-91 | A positive balloon count implies that all candles are lit and that t >= 3000 ms. |
| Counters.BalloonsWaitForCandles | components/birthday-wish.tsx:74-91 | A 500 ms step raises the balloon count only if all candles were already lit before that step. |
| Counters.PhasesComplete | components/birthday-wish.tsx:74-91 | The candles are complete exactly from 2500 ms on. The balloons are complete exactly from 5000 ms on. |
| Counters.OracleMatchesUpdater | components/birthday-wish.tsx:74-91 | At t = k * 500 the reference counts equal the updater run k times (candles) and k - 5 times (balloons). |
| Sounds.Path | components/birthday-wish.tsx:118-120 | Each option's value is the path of an `.mp3` file under `/sounds/`. |
| Sounds.FromPath | components/birthday-wish.tsx:113-121 | The selector shows the option whose value equals the given path. It returns none only if no option has that value. |
| Sounds.FromPathRoundTrip | components/birthday-wish.tsx:118-120 | Reading back an option's value yields that option. |
| Sounds.PathInjective | components/birthday-wish.tsx:114-120 | Two options have the same path exactly when they are the same option, so choosing another option changes `selectedSound`. |
| Display.CandleLit | components/birthday-wish.tsx:128 | A candle below the count is always shown lit, and none above it is. The candle at the count is lit exactly while celebrating. With the count below the total, only candles on the card are lit. |
| Display.BalloonPopped | components/birthday-wish.tsx:156-161 | A balloon is popped only once the count is positive, and only balloons on the card are popped while the count is within its total. The rule is the idle candle rule: popped exactly when the index is below the count. |
| Display.PaletteSlot | components/birthday-wish.tsx:137 | `index % length` is always in bounds, is the index itself below the length, and differs from the index by a whole number of palette lengths. |
| Display.CandleShade | components/birthday-wish.tsx:128-143 | A candle takes a palette colour exactly when it is shown lit, and that colour is entry `index % 5` of the candle palette. Otherwise it is grey. |
| Display.BalloonShade | components/birthday-wish.tsx:161 | A balloon is grey exactly when it is popped. Otherwise its colour is entry `index % 5` of the balloon palette. |
| Display.BalloonScale | components/birthday-wish.tsx:156 | A balloon animates to scale 0 exactly when it is popped, and to 1 otherwise. |
| Display.ScaleShadeAgree | components/birthday-wish.tsx:156-161 | The scale animation and the colour agree on "popped": a balloon animates to scale 0 exactly when it is drawn grey. |
| Display.LitCountIs | components/birthday-wish.tsx:126-128 | Of the first n candles, min(n, candlesLit + 1) are shown lit while celebrating, and min(n, candlesLit) when idle. |
| Display.PoppedCountIs | components/birthday-wish.tsx:152-156 | Of the first n balloons, min(n, balloonsPoppedCount) are shown popped. |
| Display.LitIsPrefixClosed | components/birthday-wish.tsx:128 | Every candle to the left of a lit candle is lit. |
| Display.CelebratingShowsOneAhead | components/birthday-wish.tsx:128 | While celebrating, candle i is lit exactly when the idle row with one more candle would light it. |
| Display.ShownDuringRun | components/birthday-wish.tsx:126-128 | During an on-schedule run, min(t / 500 + 1, 5) candles are rendered in the lit branch at time t. The whole row is in the lit branch from 2000 ms on. The balloons rendered as popped equal the count. |
| Display.DistinctColours | components/birthday-wish.tsx:137-161 | Two different lit candles on the card are drawn in different colours. Two different balloons on the card that are not yet popped are drawn in different colours. |
| Sequencer.FireOne | components/birthday-wish.tsx:74-91 | A timer that is not yet due is kept unchanged. Firing never lowers a counter and keeps both counters within their totals. Only a due candle interval changes the candles, and only a due balloon interval changes the balloons. At most one timer replaces the fired one. |
| Sequencer.FireDue | components/birthday-wish.tsx:74-91 | Firing a queue in order never lowers a counter, keeps both counters within their totals, and never adds timers. |
| Sequencer.NothingDue | components/birthday-wish.tsx:74-91 | If no timer is due, firing the queue changes neither the counters nor the queue. |
| Sequencer.FireDueSteps | components/birthday-wish.tsx:74-91 | One pass raises the candles by at most the queue length. With no candle interval the candles do not move, and with no balloon interval the balloons do not move. |
| Sequencer.BirthdayWish.Valid | components/birthday-wish.tsx:28-92 | The class invariant: both counters within their totals, and confetti only while celebrating and while the model's audio player is playing the selected clip. A valid card draws exactly as many popped balloons as its count. It draws as many lit candles as its count when idle, and one more, up to the whole row, while celebrating. |
| Sequencer.BirthdayWish.constructor | components/birthday-wish.tsx:28-35 | A mounted card starts with zero counts, both flags false, the confetti clip selected, silence, time 0 and no timers. |
| Sequencer.BirthdayWish.Celebrate | components/birthday-wish.tsx:66-92 | Sets `celebrating` and `showConfetti` and plays the selected clip. Appends the candle interval (due at now + 500) and the balloon delay (due at now + 2500). Does not reset the counters. |
| Sequencer.BirthdayWish.RunTimer | components/birthday-wish.tsx:74-91 | Running one timer callback changes the counters and gives what replaces that timer exactly as FireOne says. The flags, the clip and the audio are untouched. |
| Sequencer.BirthdayWish.Tick | components/birthday-wish.tsx:74-91 | The clock advances by 500. The counters and the queue become FireDue of the old ones. The counters never fall and stay within their totals. Flags, clip and audio are unchanged. |
| Sequencer.BirthdayWish.SoundEnded | components/birthday-wish.tsx:40-42 | The clip ending clears `showConfetti` and touches neither the counters, `celebrating`, `selectedSound`, nor the timers. |
| Sequencer.BirthdayWish.SelectSound | components/birthday-wish.tsx:46-49 | A new clip is recorded. If it differs from the old one, audio stops and `showConfetti` is cleared. The counters, `celebrating` and the timers stay as they were. |
| Sequencer.ScheduleStep | components/birthday-wish.tsx:66-92 | One tick of an on-schedule run takes the queue and counts of step k to those of step k + 1. The candle interval is cleared at tick 6, the balloon interval at tick 11. |
| Sequencer.ExpectedAtIsOracle | components/birthday-wish.tsx:74-91 | At tick k the counts of a run are min(k, 5) candles, and 0 or min(k - 5, 5) balloons. These agree with CandlesAt and BalloonsAt at 500k ms. |
| Sequencer.ScheduleEnds | components/birthday-wish.tsx:74-91 | After a single click, the timer queue is empty exactly from tick 11 on. |
| Sequencer.OnScheduleTrace | components/birthday-wish.tsx:66-92 | In the tick-by-tick counts of a run, each entry equals the reference counts at its time. No entry is below the one before it. The balloons rise between two ticks only when all candles were lit at the first of them. |
| Sequencer.RunCelebration | components/birthday-wish.tsx:66-92 | After Celebrate at time 0 on a fresh card, the counts at each tick k equal CandlesAt(500k) and BalloonsAt(500k). They never fall. A balloon pops only when all candles are lit. No timer is left exactly after more than 10 ticks. |

The class invariant `BirthdayWish.Valid` holds after every event. It says that both counters stay within their totals, and that `showConfetti` implies both `celebrating` and that the ghost `audio` is playing the selected clip. The second half rests on `Celebrate` treating `playSound()` as always starting the clip (see "## Left out"). `Celebrate`, `Tick`, `SoundEnded` and `SelectSound` state that `celebrating` is never set back to false. `RunTimer` keeps it through its frame, which names only the two counters.

## Left out

- JSX rendering, layout, animation timings and delays, icons, CSS classes and the option labels of the sound selector (components/birthday-wish.tsx:118-120): presentation only. Only the lit/popped predicates, the balloon scale and the palette slot are modelled. "Lit" therefore means rendered in the lit branch of components/birthday-wish.tsx:128. A newly lit candle mounts at scale 0 and starts growing only after a delay of `index * 0.5` s (components/birthday-wish.tsx:130-133). Read from the code, not checked in a browser: candle i sits at scale 0 from about 500·i ms to 1000·i ms, and the full row reaches full size only around 4500 ms.
- The palette colour strings: only the lengths of the candle and balloon palettes (5 each) are modelled, and the confetti palette (components/birthday-wish.tsx:18) is not modelled at all. The fifth entry of each palette, `'98D8C8'` (components/birthday-wish.tsx:16-18), has no leading `#`. It is therefore not a valid CSS colour, and candle 4 and balloon 4 most likely render in the inherited colour rather than a palette colour (not checked in a browser). `CandleShade` and `BalloonShade` name the palette slot, not the colour the browser shows.
- BirthdayWish.Valid, BirthdayWish.Celebrate: `playSound()` (components/birthday-wish.tsx:71) is taken always to start the selected clip. A clip that fails to load or play leaves the real card with confetti on, no sound and no end notification (components/birthday-wish.tsx:40-42), until another clip is chosen. The ghost `audio` does not represent this, so the conjunct `showConfetti ==> audio == Playing(selectedSound)` of `Valid` holds of the model but not of every run of the program.
- The `use-sound` playback engine and the `react-confetti` canvas: foreign libraries. Playback is the ghost field `audio`, and `stop()`/`playSound()` are assignments to it. The end-of-clip notification is the `SoundEnded` event, which the environment may deliver at any time.
- The window resize listener and `windowSize`: browser I/O that only sizes the confetti canvas.
- Real `setInterval`/`setTimeout` and event-loop interleaving: replaced by the deterministic 500 ms virtual clock `Tick`. Timer drift and late firings are not modelled.
- Repeated Celebrate clicks: `Celebrate` appends new timers behind those still pending, as the code does. Only boundedness and monotonicity are proved for such runs. The exact schedule is proved only for a single click on a fresh card.
- React hook semantics (batching, re-render timing, strict-mode double invocation of updaters): each state update is applied at once, in program order.
- Re-runs of the stop-audio effect caused by `useSound` returning a new `stop` function: hook identity is not modelled, so `SelectSound` is the only event that runs it.
- Unmounting: the code cancels none of the celebration timers on unmount, so there is no teardown transition.
