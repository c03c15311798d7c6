/**
  The celebration sequencer of the BirthdayWish card: its state, the timers
  a celebration creates, and the events that change the state (the
  Celebrate click, a timer falling due, the clip ending, a new clip chosen).

  Time is a virtual clock in milliseconds. `Tick` moves it on by one
  INTERVAL and fires every timer that has fallen due, in queue order:
  Celebrate appends its two timers at the back, and what a fired timer
  leaves behind (its next period, or the balloon interval the delay
  creates) takes that timer's place. Nothing here waits on a real clock.
 */
module Sequencer {
  import opened Counters
  import opened Sounds
  import opened Display

  /** A pending timer and the time it next fires. */
  datatype Timer =
    | CandleInterval(due: nat)   // the repeating timer that lights candles
    | BalloonDelay(due: nat)     // the one-shot timer that starts the balloon timer
    | BalloonInterval(due: nat)  // the repeating timer that pops balloons

  datatype Counts = Counts(candles: nat, balloons: nat)

  /** Both counters within their totals. */
  predicate Within(c: Counts) {
    c.candles <= TOTAL_CANDLES && c.balloons <= TOTAL_BALLOONS
  }

  /** Neither counter of d is below that of c. */
  predicate Grown(c: Counts, d: Counts) {
    c.candles <= d.candles && c.balloons <= d.balloons
  }

  /** The counters after some timers fired, and the timers still pending. */
  datatype Fired = Fired(counts: Counts, timers: seq<Timer>)

  /** Timer t at time `now`: one not yet due stays as it is. A due interval
      runs its counter's updater and is either rescheduled one period later
      or, if the updater cleared it, dropped. The due delay creates the
      balloon interval and is gone. */
  function FireOne(t: Timer, now: nat, c: Counts): (r: Fired)
    ensures Grown(c, r.counts)
    ensures Within(c) ==> Within(r.counts)
    ensures |r.timers| <= 1
    ensures r.counts.candles != c.candles ==> t.CandleInterval? && t.due <= now
    ensures r.counts.balloons != c.balloons ==> t.BalloonInterval? && t.due <= now
    ensures now < t.due ==> r == Fired(c, [t])
  {
    if now < t.due then Fired(c, [t])
    else
      match t
      case CandleInterval(due) =>
        var u := CountUp(c.candles, TOTAL_CANDLES);
        Fired(c.(candles := u.count), if u.cleared then [] else [CandleInterval(due + INTERVAL)])
      case BalloonDelay(_) =>
        Fired(c, [BalloonInterval(now + INTERVAL)])
      case BalloonInterval(due) =>
        var u := CountUp(c.balloons, TOTAL_BALLOONS);
        Fired(c.(balloons := u.count), if u.cleared then [] else [BalloonInterval(due + INTERVAL)])
  }

  /** Every timer of ts at time `now`, in order; each sees the counters as
      the timers before it left them. */
  function FireDue(ts: seq<Timer>, now: nat, c: Counts): (r: Fired)
    ensures Grown(c, r.counts)
    ensures Within(c) ==> Within(r.counts)
    ensures |r.timers| <= |ts|
    decreases |ts|
  {
    if ts == [] then Fired(c, [])
    else
      var head := FireOne(ts[0], now, c);
      var rest := FireDue(ts[1..], now, head.counts);
      Fired(rest.counts, head.timers + rest.timers)
  }

  /** FireDue on a suffix fires the suffix's first timer, then the rest. */
  lemma FireDueUnfold(ts: seq<Timer>, i: nat, now: nat, c: Counts)
    requires i < |ts|
    ensures var head := FireOne(ts[i], now, c);
            var rest := FireDue(ts[i + 1..], now, head.counts);
            FireDue(ts[i..], now, c) == Fired(rest.counts, head.timers + rest.timers)
  {
  }

  /** Timers already handled, followed by what is left of the pass, make
      up the whole pass. */
  predicate Resumes(kept: seq<Timer>, rest: Fired, goal: Fired) {
    goal == Fired(rest.counts, kept + rest.timers)
  }

  lemma FireDueResumes(ts: seq<Timer>, now: nat, c: Counts)
    ensures Resumes([], FireDue(ts[0..], now, c), FireDue(ts, now, c))
  {
  }

  /** Handling timer i of a pass, with `after` the counters and `next` the
      timers it leaves, moves the pass on to timer i + 1. */
  lemma FireDueStep(ts: seq<Timer>, i: nat, now: nat, before: Counts, after: Counts, kept: seq<Timer>, next: seq<Timer>, goal: Fired)
    requires i < |ts|
    requires Resumes(kept, FireDue(ts[i..], now, before), goal)
    requires Fired(after, next) == FireOne(ts[i], now, before)
    ensures Resumes(kept + next, FireDue(ts[i + 1..], now, after), goal)
  {
  }

  lemma FireDueDone(ts: seq<Timer>, now: nat, c: Counts, kept: seq<Timer>, goal: Fired)
    requires Resumes(kept, FireDue(ts[|ts|..], now, c), goal)
    ensures goal == Fired(c, kept)
  {
  }

  /** A moment at which no timer is due changes nothing. */
  lemma {:induction false} NothingDue(ts: seq<Timer>, now: nat, c: Counts)
    requires forall i :: 0 <= i < |ts| ==> now < ts[i].due
    ensures FireDue(ts, now, c) == Fired(c, ts)
  {
    if ts != [] {
      NothingDue(ts[1..], now, c);
      assert [ts[0]] + ts[1..] == ts;
    }
  }

  /** Only a candle interval moves the candles and only a balloon interval
      moves the balloons, each by at most one per firing. */
  lemma {:induction false} FireDueSteps(ts: seq<Timer>, now: nat, c: Counts)
    ensures FireDue(ts, now, c).counts.candles <= c.candles + |ts|
    ensures (forall i :: 0 <= i < |ts| ==> !ts[i].CandleInterval?) ==> FireDue(ts, now, c).counts.candles == c.candles
    ensures (forall i :: 0 <= i < |ts| ==> !ts[i].BalloonInterval?) ==> FireDue(ts, now, c).counts.balloons == c.balloons
  {
    if ts != [] {
      var head := FireOne(ts[0], now, c);
      FireDueSteps(ts[1..], now, head.counts);
      assert forall i :: 1 <= i < |ts| ==> ts[1..][i - 1] == ts[i];
    }
  }

  /** The audio player's state, as far as the card can tell. */
  datatype Audio = Silent | Playing(clip: Sound)

  class BirthdayWish {
    var candlesLit: nat
    var balloonsPoppedCount: nat
    var showConfetti: bool
    var celebrating: bool
    var selectedSound: Sound
    /** The virtual clock, in milliseconds since mount. */
    var now: nat
    /** Pending timers in firing order: Celebrate appends at the back, and a
        fired timer's successor takes its place. */
    var timers: seq<Timer>
    /** The clip the audio player is playing, if any. */
    ghost var audio: Audio

    /** Counters within their totals; confetti only during a celebration and
        while the selected clip is playing. A valid card then draws as many
        popped balloons as its count, and as many lit candles as its count
        when idle, one more (up to the whole row) while celebrating. */
    ghost predicate Valid(): (r: bool)
      reads this
      ensures r ==> Within(CurrentCounts())
      ensures r ==> LitCount(TOTAL_CANDLES, candlesLit, false) == candlesLit
      ensures r ==> LitCount(TOTAL_CANDLES, candlesLit, true) == Min(candlesLit + 1, TOTAL_CANDLES)
      ensures r ==> PoppedCount(TOTAL_BALLOONS, balloonsPoppedCount) == balloonsPoppedCount
    {
      LitCountIs(TOTAL_CANDLES, candlesLit, false);
      LitCountIs(TOTAL_CANDLES, candlesLit, true);
      PoppedCountIs(TOTAL_BALLOONS, balloonsPoppedCount);
      && candlesLit <= TOTAL_CANDLES
      && balloonsPoppedCount <= TOTAL_BALLOONS
      && (showConfetti ==> celebrating)
      && (showConfetti ==> audio == Playing(selectedSound))
    }

    function CurrentCounts(): Counts
      reads this
    {
      Counts(candlesLit, balloonsPoppedCount)
    }

    /** The card as mounted: nothing lit, nothing popped, no confetti, not
        celebrating, the first clip selected, no timers. */
    constructor ()
      ensures Valid()
      ensures candlesLit == 0 && balloonsPoppedCount == 0
      ensures !showConfetti && !celebrating
      ensures selectedSound == INITIAL_SOUND && audio == Silent
      ensures now == 0 && timers == []
    {
      candlesLit := 0;
      balloonsPoppedCount := 0;
      showConfetti := false;
      celebrating := false;
      selectedSound := INITIAL_SOUND;
      now := 0;
      timers := [];
      audio := Silent;
    }

    /** The Celebrate click: both flags go up, the selected clip restarts,
        and two timers are added behind any still pending: the candle
        interval and the delay that starts the balloon interval. The
        counters are not reset. */
    method Celebrate()
      requires Valid()
      modifies this
      ensures Valid()
      ensures celebrating && showConfetti && audio == Playing(selectedSound)
      ensures timers == old(timers) + [CandleInterval(now + INTERVAL), BalloonDelay(now + BALLOON_DELAY)]
      ensures candlesLit == old(candlesLit) && balloonsPoppedCount == old(balloonsPoppedCount)
      ensures selectedSound == old(selectedSound) && now == old(now)
    {
      celebrating := true;
      showConfetti := true;
      audio := Silent;                  // stop()
      audio := Playing(selectedSound);  // playSound()
      timers := timers + [CandleInterval(now + INTERVAL), BalloonDelay(now + BALLOON_DELAY)];
    }

    /** The callback of timer t runs at the current time, if t is due: an
        interval runs its counter's updater and, unless the updater cleared
        it, stays for one more period; the delay creates the balloon
        interval. Returns what takes t's place in the queue. */
    method RunTimer(t: Timer) returns (next: seq<Timer>)
      requires Valid()
      modifies this`candlesLit, this`balloonsPoppedCount
      ensures Valid()
      ensures Fired(CurrentCounts(), next) == FireOne(t, now, old(CurrentCounts()))
    {
      if now < t.due {
        return [t];
      }
      match t
      case CandleInterval(due) =>
        var u := CountUp(candlesLit, TOTAL_CANDLES);
        candlesLit := u.count;
        next := if u.cleared then [] else [CandleInterval(due + INTERVAL)];
      case BalloonDelay(_) =>
        next := [BalloonInterval(now + INTERVAL)];
      case BalloonInterval(due) =>
        var u := CountUp(balloonsPoppedCount, TOTAL_BALLOONS);
        balloonsPoppedCount := u.count;
        next := if u.cleared then [] else [BalloonInterval(due + INTERVAL)];
    }

    /** One INTERVAL of the virtual clock passes and the timers then due
        fire, in queue order. */
    method Tick()
      requires Valid()
      modifies this
      ensures Valid()
      ensures now == old(now) + INTERVAL
      ensures Fired(CurrentCounts(), timers) == FireDue(old(timers), now, old(CurrentCounts()))
      ensures old(candlesLit) <= candlesLit && old(balloonsPoppedCount) <= balloonsPoppedCount
      ensures showConfetti == old(showConfetti) && celebrating == old(celebrating)
      ensures selectedSound == old(selectedSound) && audio == old(audio)
    {
      now := now + INTERVAL;
      var pending := timers;
      ghost var goal := FireDue(pending, now, CurrentCounts());
      var kept: seq<Timer> := [];
      var i := 0;
      FireDueResumes(pending, now, CurrentCounts());
      while i < |pending|
        modifies this`candlesLit, this`balloonsPoppedCount
        invariant 0 <= i <= |pending|
        invariant Valid()
        invariant Resumes(kept, FireDue(pending[i..], now, CurrentCounts()), goal)
      {
        ghost var before := CurrentCounts();
        var next := RunTimer(pending[i]);
        FireDueStep(pending, i, now, before, CurrentCounts(), kept, next, goal);
        kept := kept + next;
        i := i + 1;
      }
      FireDueDone(pending, now, CurrentCounts(), kept, goal);
      timers := kept;
    }

    /** The audio player reports that the clip played to its end: the
        confetti stops and the player falls silent; no other field changes. */
    method SoundEnded()
      requires Valid()
      modifies this
      ensures Valid()
      ensures !showConfetti && audio == Silent
      ensures candlesLit == old(candlesLit) && balloonsPoppedCount == old(balloonsPoppedCount)
      ensures celebrating == old(celebrating) && selectedSound == old(selectedSound)
      ensures now == old(now) && timers == old(timers)
    {
      showConfetti := false;
      audio := Silent;
    }

    /** A clip is chosen in the selector. When the selection changes, the
        effect that watches it stops the audio and the confetti; the
        counters, the celebrating flag and the timers are left as they are. */
    method SelectSound(s: Sound)
      requires Valid()
      modifies this
      ensures Valid()
      ensures selectedSound == s
      ensures s != old(selectedSound) ==> !showConfetti && audio == Silent
      ensures s == old(selectedSound) ==> showConfetti == old(showConfetti) && audio == old(audio)
      ensures candlesLit == old(candlesLit) && balloonsPoppedCount == old(balloonsPoppedCount)
      ensures celebrating == old(celebrating)
      ensures now == old(now) && timers == old(timers)
    {
      if s != selectedSound {
        selectedSound := s;
        audio := Silent;
        showConfetti := false;
      }
    }
  }

  /** The pending timers k ticks after Celebrate on a freshly mounted card. */
  function ScheduledTimers(k: nat): seq<Timer> {
    if k < TOTAL_CANDLES then [CandleInterval((k + 1) * INTERVAL), BalloonDelay(BALLOON_DELAY)]
    else if k == TOTAL_CANDLES then [CandleInterval((k + 1) * INTERVAL), BalloonInterval((k + 1) * INTERVAL)]
    else if k <= TOTAL_CANDLES + TOTAL_BALLOONS then [BalloonInterval((k + 1) * INTERVAL)]
    else []
  }

  /** The counters k ticks into an on-schedule run, in closed form. */
  function ExpectedAt(k: nat): Counts {
    Counts(Min(k, TOTAL_CANDLES), if k < TOTAL_CANDLES then 0 else Min(k - TOTAL_CANDLES, TOTAL_BALLOONS))
  }

  /** The closed form agrees with the reference counts at t = k * INTERVAL. */
  lemma ExpectedAtIsOracle(k: nat)
    ensures ExpectedAt(k) == Counts(CandlesAt(k * INTERVAL), BalloonsAt(k * INTERVAL))
  {
  }

  /** One tick of an on-schedule run moves from the schedule and counters of
      step k to those of step k + 1. */
  lemma ScheduleStep(k: nat)
    ensures FireDue(ScheduledTimers(k), k * INTERVAL + INTERVAL, ExpectedAt(k)) == Fired(ExpectedAt(k + 1), ScheduledTimers(k + 1))
  {
    var now := k * INTERVAL + INTERVAL;
    var c := ExpectedAt(k);
    var ts := ScheduledTimers(k);
    if k < TOTAL_CANDLES {
      var first := FireOne(ts[0], now, c);
      assert first == Fired(Counts(k + 1, 0), [CandleInterval((k + 2) * INTERVAL)]);
      if k + 1 < TOTAL_CANDLES {
        assert FireOne(ts[1], now, first.counts) == Fired(first.counts, [ts[1]]);
      } else {
        assert FireOne(ts[1], now, first.counts) == Fired(first.counts, [BalloonInterval((k + 2) * INTERVAL)]);
      }
      FireDueUnfold(ts, 0, now, c);
      FireDueUnfold(ts, 1, now, first.counts);
      assert ts[2..] == [];
    } else if k == TOTAL_CANDLES {
      var first := FireOne(ts[0], now, c);
      assert first == Fired(c, []);
      FireDueUnfold(ts, 0, now, c);
      FireDueUnfold(ts, 1, now, c);
      assert ts[2..] == [];
    } else if k <= TOTAL_CANDLES + TOTAL_BALLOONS {
      FireDueUnfold(ts, 0, now, c);
      assert ts[1..] == [];
    }
  }

  /** The schedule is empty exactly after TOTAL_CANDLES + TOTAL_BALLOONS + 1 ticks. */
  lemma ScheduleEnds(k: nat)
    ensures ScheduledTimers(k) == [] <==> k > TOTAL_CANDLES + TOTAL_BALLOONS
  {
  }

  /** The closed-form counters at ticks 0 to k. */
  function ExpectedTrace(k: nat): seq<Counts> {
    if k == 0 then [ExpectedAt(0)] else ExpectedTrace(k - 1) + [ExpectedAt(k)]
  }

  /** The trace of an on-schedule run: the reference counts at each tick,
      never falling, and balloons only once the candles are complete. */
  lemma {:induction false} OnScheduleTrace(ticks: nat)
    ensures |ExpectedTrace(ticks)| == ticks + 1
    ensures forall k :: 0 <= k <= ticks ==> ExpectedTrace(ticks)[k] == Counts(CandlesAt(k * INTERVAL), BalloonsAt(k * INTERVAL))
    ensures forall k :: 0 <= k < ticks ==> Grown(ExpectedTrace(ticks)[k], ExpectedTrace(ticks)[k + 1])
    ensures forall k :: 0 <= k < ticks && ExpectedTrace(ticks)[k].balloons < ExpectedTrace(ticks)[k + 1].balloons ==> ExpectedTrace(ticks)[k].candles == TOTAL_CANDLES
  {
    ExpectedTraceAt(ticks);
  }

  lemma {:induction false} ExpectedTraceAt(k: nat)
    ensures |ExpectedTrace(k)| == k + 1
    ensures forall j :: 0 <= j <= k ==> ExpectedTrace(k)[j] == ExpectedAt(j)
  {
    if k > 0 {
      ExpectedTraceAt(k - 1);
    }
  }

  /** Mount the card, click Celebrate at time 0, and let `ticks` intervals
      pass. Returns the counters after each tick (index 0: before the
      first) and whether any timer is left at the end. */
  method RunCelebration(ticks: nat) returns (trace: seq<Counts>, quiet: bool)
    ensures |trace| == ticks + 1
    ensures forall k :: 0 <= k <= ticks ==> trace[k] == Counts(CandlesAt(k * INTERVAL), BalloonsAt(k * INTERVAL))
    ensures forall k :: 0 <= k < ticks ==> Grown(trace[k], trace[k + 1])
    ensures forall k :: 0 <= k < ticks && trace[k].balloons < trace[k + 1].balloons ==> trace[k].candles == TOTAL_CANDLES
    ensures quiet <==> ticks > TOTAL_CANDLES + TOTAL_BALLOONS
  {
    var card := new BirthdayWish();
    card.Celebrate();
    trace := [card.CurrentCounts()];
    var k := 0;
    while k < ticks
      invariant 0 <= k <= ticks
      invariant card.Valid()
      invariant card.now == k * INTERVAL
      invariant card.timers == ScheduledTimers(k)
      invariant card.CurrentCounts() == ExpectedAt(k)
      invariant trace == ExpectedTrace(k)
    {
      card.Tick();
      ScheduleStep(k);
      k := k + 1;
      trace := trace + [card.CurrentCounts()];
    }
    quiet := card.timers == [];
    ScheduleEnds(ticks);
    OnScheduleTrace(ticks);
  }
}
