/** Integer pricing and hedge sizing: which book level to quote, the
    inventory skew, the position-limit guard on new quotes, and the size of
    the hedge sent after a fill. */
module Pricing {
  import opened Exchange
  import opened Books

  /** Liquidity per step of the spread index: `0.2*10**8`, which is exactly
      2·10^7 as a double. */
  const SpreadStep: real := 20000000.0

  /** Position band width, in lots, of the inventory skew. */
  const SkewBand := 10

  function Min(a: int, b: int): int
  {
    if a <= b then a else b
  }

  /** What `calc_lot_sizes` returns: the lot and the liquidity score of each
      side. Both come from floating-point formulas that are not part of this
      model; a lot is the floor of a non-negative product, hence a `nat`. */
  datatype LotSizing = LotSizing(bidLot: nat, askLot: nat, bidLiquidity: real, askLiquidity: real)

  /** The guard of `calc_lot_sizes`: without a best ask and a best bid the
      sizes and liquidities are all zero; otherwise they are the computed ones. */
  function CalcLotSizes(askPrices: Row, bidPrices: Row, computed: LotSizing): (r: LotSizing)
    ensures askPrices[0] == 0 || bidPrices[0] == 0 ==>
      r.bidLot == 0 && r.askLot == 0 && r.bidLiquidity == 0.0 && r.askLiquidity == 0.0
    ensures askPrices[0] != 0 && bidPrices[0] != 0 ==> r == computed
  {
    if askPrices[0] != 0 && bidPrices[0] != 0 then computed else LotSizing(0, 0, 0.0, 0.0)
  }

  /** The book level `calc_price` quotes at: level 4 for a thin book, one
      level closer to the best price for each full step of liquidity, and
      never closer than level 2. */
  function SpreadIndex(liquidity: real): (r: int)
    ensures liquidity >= 0.0 ==> 2 <= r < TopLevelCount
    ensures 0.0 <= liquidity < SpreadStep ==> r == 4
    ensures SpreadStep <= liquidity < 2.0 * SpreadStep ==> r == 3
    ensures liquidity >= 2.0 * SpreadStep ==> r == 2
  {
    4 - Min(2, (liquidity / SpreadStep).Floor)
  }

  /** More liquidity never moves the quote further from the best price. */
  lemma SpreadIndexAntitone(low: real, high: real)
    requires low <= high
    ensures SpreadIndex(high) <= SpreadIndex(low)
  {
    assert low / SpreadStep <= high / SpreadStep;
  }

  /** `calc_price`: the price of the chosen level, skewed by one tick per
      started band of ten lots of inventory (down when long, up when short),
      or 0 ("do not quote") when that level is empty. `isAsk` is accepted
      and ignored, as in the source. */
  function CalcPrice(prices: Row, liquidity: real, position: int, isAsk: bool): (r: int)
    requires liquidity >= 0.0
    ensures var level := prices[SpreadIndex(liquidity)];
      && (level == 0 ==> r == 0)
      && (level != 0 ==> r == level - position / SkewBand * TickSizeInCents)
      && (level != 0 ==> (r - level) % TickSizeInCents == 0)
      && (level != 0 ==> (r < level <==> position >= SkewBand))
      && (level != 0 ==> (r > level <==> position < 0))
  {
    var priceAdjustment := -(position / SkewBand) * TickSizeInCents;
    var spread := SpreadIndex(liquidity);
    if prices[spread] != 0 then prices[spread] + priceAdjustment else 0
  }

  /** The more inventory, the lower the price quoted at a given level. */
  lemma CalcPriceAntitoneInPosition(prices: Row, liquidity: real, low: int, high: int, isAsk: bool)
    requires liquidity >= 0.0
    requires low <= high
    ensures CalcPrice(prices, liquidity, high, isAsk) <= CalcPrice(prices, liquidity, low, isAsk)
      || prices[SpreadIndex(liquidity)] == 0
  {
    assert low / SkewBand <= high / SkewBand;
  }

  /** Ask and bid prices are computed alike: the side flag changes nothing. */
  lemma CalcPriceIgnoresSide(prices: Row, liquidity: real, position: int)
    requires liquidity >= 0.0
    ensures CalcPrice(prices, liquidity, position, true) == CalcPrice(prices, liquidity, position, false)
  {
  }

  /** The position-limit guard on a new order of `lot` lots on `side`: a full
      fill must leave the position strictly inside the limit on that side. */
  predicate WithinLimit(side: Side, position: int, lot: int)
  {
    match side
    case Buy => position + lot < PositionLimit
    case Sell => position - lot > -PositionLimit
  }

  datatype Quote = Quote(price: int, lot: int)

  /** The base orders a full requote inserts, at most one per side. */
  datatype QuotePlan = QuotePlan(bid: Option<Quote>, ask: Option<Quote>)

  /** The quotes of a futures book update: a side is quoted when its lot and
      its price are non-zero and the lot passes the position-limit guard. */
  function PlanQuotes(position: int, askPrices: Row, bidPrices: Row, computed: LotSizing): (r: QuotePlan)
    requires computed.bidLiquidity >= 0.0 && computed.askLiquidity >= 0.0
    ensures r.bid.Some? ==> r.bid.value.lot > 0 && r.bid.value.price != 0 && WithinLimit(Buy, position, r.bid.value.lot)
    ensures r.ask.Some? ==> r.ask.value.lot > 0 && r.ask.value.price != 0 && WithinLimit(Sell, position, r.ask.value.lot)
    ensures askPrices[0] == 0 || bidPrices[0] == 0 ==> r == QuotePlan(None, None)
    ensures askPrices[0] != 0 && bidPrices[0] != 0 ==>
      var bidPrice := CalcPrice(bidPrices, computed.bidLiquidity, position, false);
      var askPrice := CalcPrice(askPrices, computed.askLiquidity, position, true);
      && (r.bid.Some? <==> computed.bidLot != 0 && position + computed.bidLot < PositionLimit && bidPrice != 0)
      && (r.bid.Some? ==> r.bid.value == Quote(bidPrice, computed.bidLot))
      && (r.ask.Some? <==> computed.askLot != 0 && position - computed.askLot > -PositionLimit && askPrice != 0)
      && (r.ask.Some? ==> r.ask.value == Quote(askPrice, computed.askLot))
  {
    var sizes := CalcLotSizes(askPrices, bidPrices, computed);
    var askPrice := CalcPrice(askPrices, sizes.askLiquidity, position, true);
    var bidPrice := CalcPrice(bidPrices, sizes.bidLiquidity, position, false);
    QuotePlan(
      if sizes.bidLot != 0 && position + sizes.bidLot < PositionLimit && bidPrice != 0
      then Some(Quote(bidPrice, sizes.bidLot)) else None,
      if sizes.askLot != 0 && position - sizes.askLot > -PositionLimit && askPrice != 0
      then Some(Quote(askPrice, sizes.askLot)) else None)
  }

  /** `delta_hedge`: the hedge volume after a fill of `volume` lots. `scaled`
      stands for `int(delta*volume)`, computed in floating point from the
      ratio of the two books' deltas; it is used only when that ratio is
      positive, where it is never negative for a non-negative volume.
      Half the volume is the fallback when a book is missing or its
      readiness is `False`; a book whose old snapshot is still empty is not
      `False` but an empty list, so the fallback is skipped and `delta()`
      raises. */
  function DeltaHedge(etf: Option<BookState>, futures: Option<BookState>, volume: int, scaled: int): (r: Outcome<int>)
    ensures volume >= 0 && scaled >= 0 && r.Ok? ==> 0 <= r.value <= volume / 2
    ensures etf.None? || futures.None? ==> r == Ok(volume / 2)
    ensures etf.Some? && IsReady(etf.value.view) == Bool(false) ==> r == Ok(volume / 2)
    ensures futures.Some? && IsReady(futures.value.view) == Bool(false) ==> r == Ok(volume / 2)
    ensures r.Raised? <==>
      && etf.Some? && futures.Some?
      && IsReady(etf.value.view) != Bool(false) && IsReady(futures.value.view) != Bool(false)
      && (etf.value.view.previous.None? || futures.value.view.previous.None?)
    ensures r.Raised? ==> r.fault == IndexError
    ensures etf.Some? && futures.Some? && IsReady(etf.value.view).Truthy() && IsReady(futures.value.view).Truthy() ==>
      var e := DoubledDelta(etf.value.view);
      var f := DoubledDelta(futures.value.view);
      && (e == 0 || f == 0 ==> r == Ok(volume / 2))
      && (e != 0 && f != 0 && (e > 0) != (f > 0) ==> r == Ok(0))
      && (e != 0 && f != 0 && (e > 0) == (f > 0) ==> r == Ok(Min(volume / 2, scaled)))
  {
    if etf.None? || futures.None? || IsReady(etf.value.view) == Bool(false) || IsReady(futures.value.view) == Bool(false) then
      Ok(volume / 2)
    else if etf.value.view.previous.None? || futures.value.view.previous.None? then
      Raised(IndexError)
    else
      var etfDelta := DoubledDelta(etf.value.view);
      var futuresDelta := DoubledDelta(futures.value.view);
      if etfDelta == 0 || futuresDelta == 0 then Ok(volume / 2)
      else if (etfDelta > 0) == (futuresDelta > 0) then Ok(Min(volume / 2, scaled))
      else Ok(0)
  }

  /** When one book has seen a single message and the other is ready, the
      hedge raises instead of falling back to half the volume. */
  lemma FreshBookBreaksFallback(etf: BookState, futures: BookState, volume: int, scaled: int)
    requires etf.view.previous.None?
    requires IsReady(futures.view).Truthy()
    ensures DeltaHedge(Some(etf), Some(futures), volume, scaled) == Raised(IndexError)
  {
  }
}
