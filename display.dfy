/**
  How the card renders its rows of candles and balloons, as functions of
  the sequencer's state. Item indices run from 0 to the total minus one.
 */
module Display {
  import opened Counters

  /** Lengths of the colour palettes of candles and balloons. */
  const CANDLE_PALETTE_LENGTH: nat := 5
  const BALLOON_PALETTE_LENGTH: nat := 5

  /** Candle `index` is drawn lit. While a celebration runs, the candle at
      the index equal to the count is drawn lit as well. */
  predicate CandleLit(index: nat, candlesLit: nat, celebrating: bool): (r: bool)
    ensures index < candlesLit ==> r
    ensures r ==> index <= candlesLit
    ensures index == candlesLit ==> (r <==> celebrating)
    ensures r && candlesLit < TOTAL_CANDLES ==> index < TOTAL_CANDLES
  {
    (celebrating && index <= candlesLit) || (!celebrating && index < candlesLit)
  }

  /** Balloon `index` is drawn popped (scaled to zero and greyed). */
  predicate BalloonPopped(index: nat, balloonsPopped: nat): (r: bool)
    ensures r ==> 0 < balloonsPopped
    ensures r && balloonsPopped <= TOTAL_BALLOONS ==> index < TOTAL_BALLOONS
    ensures r <==> index < balloonsPopped
  {
    index < balloonsPopped
  }

  /** The palette entry an item of the given index takes. */
  function PaletteSlot(index: nat, paletteLength: nat): (r: nat)
    requires paletteLength > 0
    ensures r < paletteLength
    ensures index < paletteLength ==> r == index
    ensures PaletteSlotPeriodic(index, paletteLength, r)
  {
    var q := index / paletteLength;
    assert index == q * paletteLength + index % paletteLength;
    index % paletteLength
  }

  /** r is the slot of index: the two differ by a whole number of palette lengths. */
  ghost predicate PaletteSlotPeriodic(index: nat, paletteLength: nat, r: nat) {
    exists q: nat :: index == q * paletteLength + r
  }

  /** The colour an item is drawn in: the shared grey, or a palette entry. */
  datatype Shade = Grey | Palette(slot: nat)

  function CandleShade(index: nat, candlesLit: nat, celebrating: bool): (r: Shade)
    ensures r.Palette? <==> CandleLit(index, candlesLit, celebrating)
    ensures r.Palette? ==> r.slot < CANDLE_PALETTE_LENGTH
    ensures r.Palette? ==> r.slot == index % CANDLE_PALETTE_LENGTH
  {
    if CandleLit(index, candlesLit, celebrating) then Palette(PaletteSlot(index, CANDLE_PALETTE_LENGTH)) else Grey
  }

  function BalloonShade(index: nat, balloonsPopped: nat): (r: Shade)
    ensures r.Grey? <==> BalloonPopped(index, balloonsPopped)
    ensures r.Palette? ==> r.slot < BALLOON_PALETTE_LENGTH
    ensures r.Palette? ==> r.slot == index % BALLOON_PALETTE_LENGTH
  {
    if BalloonPopped(index, balloonsPopped) then Grey else Palette(PaletteSlot(index, BALLOON_PALETTE_LENGTH))
  }

  /** The scale a balloon is animated to: 0 once popped, 1 before. */
  function BalloonScale(index: nat, balloonsPopped: nat): (r: nat)
    ensures r <= 1
    ensures r == 0 <==> BalloonPopped(index, balloonsPopped)
  {
    if BalloonPopped(index, balloonsPopped) then 0 else 1
  }

  /** The scale animation and the colour agree: a balloon shrinks to
      nothing exactly when it turns grey. */
  lemma ScaleShadeAgree(index: nat, balloonsPopped: nat)
    ensures BalloonScale(index, balloonsPopped) == 0 <==> BalloonShade(index, balloonsPopped).Grey?
  {
  }

  /** The number of candles among the first n that are drawn lit. */
  function LitCount(n: nat, candlesLit: nat, celebrating: bool): nat {
    if n == 0 then 0
    else LitCount(n - 1, candlesLit, celebrating) + (if CandleLit(n - 1, candlesLit, celebrating) then 1 else 0)
  }

  /** The number of balloons among the first n that are drawn popped. */
  function PoppedCount(n: nat, balloonsPopped: nat): nat {
    if n == 0 then 0
    else PoppedCount(n - 1, balloonsPopped) + (if BalloonPopped(n - 1, balloonsPopped) then 1 else 0)
  }

  /** Lit candles form a prefix of the row, one longer while celebrating. */
  lemma {:induction false} LitCountIs(n: nat, candlesLit: nat, celebrating: bool)
    ensures LitCount(n, candlesLit, celebrating) == Min(n, if celebrating then candlesLit + 1 else candlesLit)
  {
    if n > 0 {
      LitCountIs(n - 1, candlesLit, celebrating);
    }
  }

  /** Popped balloons form a prefix of the row as long as the count. */
  lemma {:induction false} PoppedCountIs(n: nat, balloonsPopped: nat)
    ensures PoppedCount(n, balloonsPopped) == Min(n, balloonsPopped)
  {
    if n > 0 {
      PoppedCountIs(n - 1, balloonsPopped);
    }
  }

  /** Candles are lit from the left: a lit candle has only lit candles to its left. */
  lemma LitIsPrefixClosed(i: nat, j: nat, candlesLit: nat, celebrating: bool)
    requires j <= i
    ensures CandleLit(i, candlesLit, celebrating) ==> CandleLit(j, candlesLit, celebrating)
  {
  }

  /** While celebrating, the row shows what an idle card would show with one more candle. */
  lemma CelebratingShowsOneAhead(index: nat, candlesLit: nat)
    ensures CandleLit(index, candlesLit, true) <==> CandleLit(index, candlesLit + 1, false)
  {
  }

  /** During an on-schedule run, t milliseconds in, the row renders
      min(t / INTERVAL + 1, TOTAL_CANDLES) candles in the lit branch: the
      first candle at once, the whole row one interval before the count is
      full. (The grow-in animation of each newly lit candle is not modelled.) */
  lemma ShownDuringRun(t: nat)
    ensures LitCount(TOTAL_CANDLES, CandlesAt(t), true) == Min(t / INTERVAL + 1, TOTAL_CANDLES)
    ensures PoppedCount(TOTAL_BALLOONS, BalloonsAt(t)) == BalloonsAt(t)
  {
  }

  /** Each lit candle is drawn in a colour of its own, and so is each
      balloon not yet popped. */
  lemma DistinctColours(i: nat, j: nat, candlesLit: nat, celebrating: bool, balloonsPopped: nat)
    requires i < j < TOTAL_CANDLES
    ensures CandleLit(i, candlesLit, celebrating) && CandleLit(j, candlesLit, celebrating) ==>
              CandleShade(i, candlesLit, celebrating) != CandleShade(j, candlesLit, celebrating)
    ensures j < TOTAL_BALLOONS && !BalloonPopped(i, balloonsPopped) ==>
              BalloonShade(i, balloonsPopped) != BalloonShade(j, balloonsPopped)
  {
  }
}
