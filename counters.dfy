/**
  The two counters of the birthday card and the clock that drives them.

  Each counter is advanced by a functional updater handed to its state
  setter: while the count is below its total it goes up by one; once it has
  reached the total the updater leaves it alone and clears the interval that
  called it. This module holds that updater, the constants of the card, and
  a reference definition of both counters as a function of the time elapsed
  since a celebration started.
 */
module Counters {

  /** Number of candles and balloons on the card. */
  const TOTAL_CANDLES: nat := 5
  const TOTAL_BALLOONS: nat := 5

  /** Period of both reveal intervals, in milliseconds. */
  const INTERVAL: nat := 500

  /** Delay before the balloon interval is created: TOTAL_CANDLES * INTERVAL. */
  const BALLOON_DELAY: nat := TOTAL_CANDLES * INTERVAL

  function Min(a: int, b: int): int {
    if a <= b then a else b
  }

  /** What one run of a counter updater yields: the new count, and whether
      the updater cleared the interval that ran it. */
  datatype Update = Update(count: nat, cleared: bool)

  /** The updater `prev => prev < total ? prev + 1 : prev`, whose "else" arm
      also clears its interval. */
  function CountUp(prev: nat, total: nat): (r: Update)
    ensures prev <= r.count <= prev + 1
    ensures prev <= total ==> r.count <= total
    ensures r.cleared <==> r.count == prev
    ensures r.cleared <==> total <= prev
  {
    if prev < total then Update(prev + 1, false) else Update(prev, true)
  }

  /** The count after the updater has run k times, starting from zero. */
  function CountAfter(k: nat, total: nat): nat {
    if k == 0 then 0 else CountUp(CountAfter(k - 1, total), total).count
  }

  /** k runs of the updater from zero give min(k, total), and the k-th run is
      the one that clears the interval exactly when k exceeds the total. */
  lemma {:induction false} CountAfterIsMin(k: nat, total: nat)
    ensures CountAfter(k, total) == Min(k, total)
    ensures k > 0 ==> (CountUp(CountAfter(k - 1, total), total).cleared <==> k > total)
  {
    if k > 0 {
      CountAfterIsMin(k - 1, total);
    }
  }

  /** Reference value of candlesLit, t milliseconds after a celebration
      starts with every timer firing on schedule. */
  function CandlesAt(t: nat): (r: nat)
    ensures r <= TOTAL_CANDLES
  {
    Min(t / INTERVAL, TOTAL_CANDLES)
  }

  /** Reference value of balloonsPoppedCount at time t: nothing before the
      balloon interval exists, then one more every INTERVAL. */
  function BalloonsAt(t: nat): (r: nat)
    ensures r <= TOTAL_BALLOONS
  {
    if t < BALLOON_DELAY then 0 else Min((t - BALLOON_DELAY) / INTERVAL, TOTAL_BALLOONS)
  }

  /** Neither counter ever goes down as time passes. */
  lemma OracleMonotone(t1: nat, t2: nat)
    requires t1 <= t2
    ensures CandlesAt(t1) <= CandlesAt(t2)
    ensures BalloonsAt(t1) <= BalloonsAt(t2)
  {
  }

  /** Phase ordering: a balloon is popped only once every candle is lit, and
      the first balloon goes no earlier than one interval after the balloon
      interval is created. */
  lemma PhaseOrdering(t: nat)
    ensures BalloonsAt(t) > 0 ==> CandlesAt(t) == TOTAL_CANDLES
    ensures BalloonsAt(t) > 0 ==> t >= BALLOON_DELAY + INTERVAL
  {
  }

  /** No tick raises the balloon count unless every candle was already lit
      before it. */
  lemma BalloonsWaitForCandles(t: nat)
    ensures BalloonsAt(t + INTERVAL) > BalloonsAt(t) ==> CandlesAt(t) == TOTAL_CANDLES
  {
  }

  /** The candle phase is complete exactly from TOTAL_CANDLES intervals on,
      the balloon phase exactly from TOTAL_CANDLES + TOTAL_BALLOONS intervals on. */
  lemma PhasesComplete(t: nat)
    ensures CandlesAt(t) == TOTAL_CANDLES <==> t >= TOTAL_CANDLES * INTERVAL
    ensures BalloonsAt(t) == TOTAL_BALLOONS <==> t >= (TOTAL_CANDLES + TOTAL_BALLOONS) * INTERVAL
  {
  }

  /** On the tick grid (t = k * INTERVAL) the reference counts are those of
      the updater run k times, and k - TOTAL_CANDLES times for the balloons. */
  lemma {:induction false} OracleMatchesUpdater(k: nat)
    ensures CandlesAt(k * INTERVAL) == CountAfter(k, TOTAL_CANDLES)
    ensures BalloonsAt(k * INTERVAL) == if k < TOTAL_CANDLES then 0 else CountAfter(k - TOTAL_CANDLES, TOTAL_BALLOONS)
  {
    CountAfterIsMin(k, TOTAL_CANDLES);
    assert (k * INTERVAL) / INTERVAL == k;
    if k >= TOTAL_CANDLES {
      CountAfterIsMin(k - TOTAL_CANDLES, TOTAL_BALLOONS);
      assert k * INTERVAL - BALLOON_DELAY == (k - TOTAL_CANDLES) * INTERVAL;
      assert ((k - TOTAL_CANDLES) * INTERVAL) / INTERVAL == k - TOTAL_CANDLES;
    }
  }
}
