/** The auto-trader: its order-id counter, its resting orders per side, its
    ETF and futures positions, and the handlers the exchange calls. Every
    command sent to the exchange is appended to the ghost log `sent`. */
module Trader {
  import opened Exchange
  import opened Books
  import opened Orders
  import opened Pricing

  /** Inventory beyond which a fill makes the trader insert a shifted order. */
  const ShiftThreshold := 10

  /** The tick-aligned extreme price of a hedge order on `side`. */
  function HedgePrice(side: Side): int
  {
    if side == Sell then MinBidNearestTick else MaxAskNearestTick
  }

  /** The hedge order sent after a fill: none when the futures limit guard
      stops it. */
  function HedgeCommand(side: Side, futuresPosition: int, hedgeVolume: int, id: int): seq<Command>
  {
    if WithinLimit(side, futuresPosition, hedgeVolume) then [Hedge(id, side, HedgePrice(side), hedgeVolume)] else []
  }

  /** The inserts of a requote: the bid first, then the ask, with ids drawn
      in that order from `firstId`. */
  function QuoteCommands(plan: QuotePlan, firstId: int): (r: seq<Command>)
    ensures |r| == (if plan.bid.Some? then 1 else 0) + (if plan.ask.Some? then 1 else 0)
    ensures forall i :: 0 <= i < |r| ==> r[i].Insert? && r[i].id == firstId + i
    ensures forall i :: 0 <= i < |r| ==> (r[i].side == Buy <==> plan.bid.Some? && i == 0)
  {
    (if plan.bid.Some? then [Insert(firstId, Buy, plan.bid.value.price, plan.bid.value.lot)] else [])
    + (if plan.ask.Some?
       then [Insert(firstId + (if plan.bid.Some? then 1 else 0), Sell, plan.ask.value.price, plan.ask.value.lot)]
       else [])
  }

  /** The id bookkeeping: the two sides share no id, every resting id was
      drawn from the counter, and drawn ids never repeat. */
  ghost predicate Ledger(bidIds: set<int>, askIds: set<int>, log: seq<Command>, nextId: int)
  {
    && bidIds !! askIds
    && 0 < nextId
    && (forall k :: k in bidIds ==> 0 < k < nextId)
    && (forall k :: k in askIds ==> 0 < k < nextId)
    && FreshIds(log, nextId)
  }

  /** Drawing the counter's next id for a command and storing it on one side
      keeps the bookkeeping. */
  lemma LedgerAfterStore(bidIds: set<int>, askIds: set<int>, log: seq<Command>, nextId: int, c: Command, toBids: bool)
    requires Ledger(bidIds, askIds, log, nextId)
    requires !c.Cancel? && c.id == nextId
    ensures toBids ==> Ledger(bidIds + {nextId}, askIds, log + [c], nextId + 1)
    ensures !toBids ==> Ledger(bidIds, askIds + {nextId}, log + [c], nextId + 1)
  {
    FreshIdsAfterIssue(log, nextId, c);
  }

  /** A snapshot of the trader's resting orders per side (iteration order
      and dictionary) and of its two shifted-order attributes. */
  datatype Slots = Slots(bidKeys: seq<int>, bidEntries: map<int, Order>, askKeys: seq<int>,
                         askEntries: map<int, Order>, shiftedAsk: Order?, shiftedBid: Order?)

  class AutoTrader {
    /** What the next `next(order_ids)` returns; the counter starts at 1. */
    var nextId: int
    var bidBase: Order?
    var bidShifted: Order?
    var askBase: Order?
    var askShifted: Order?
    /** The attributes the fill handler stores its shifted orders in. The
        source first creates them when it assigns them and never reads them;
        here they start as `null`. */
    var shiftedAsk: Order?
    var shiftedBid: Order?
    const bids: OrderDict
    const asks: OrderDict
    var position: int
    var futuresPosition: int
    var etfBook: Book?
    var futuresBook: Book?
    /** Every command sent to the exchange, oldest first. */
    ghost var sent: seq<Command>

    /** The trader's invariant. Resting ids are drawn from the counter and
        each sits in one side only; drawn ids never repeat; the shifted slots
        are never set; the futures position stays strictly inside the limit;
        the two books are distinct objects. */
    ghost predicate Valid()
      reads this`nextId, this`sent, this`bidShifted, this`askShifted, this`futuresPosition, this`etfBook, this`futuresBook, bids, asks
    {
      && bids != asks && (etfBook == null || etfBook != futuresBook)
      && Indexes(bids.keys, bids.entries) && Indexes(asks.keys, asks.entries)
      && Ledger(bids.entries.Keys, asks.entries.Keys, sent, nextId)
      && bidShifted == null && askShifted == null
      && -PositionLimit < futuresPosition < PositionLimit
    }

    constructor ()
      ensures Valid() && fresh(bids) && fresh(asks)
      ensures nextId == 1 && sent == []
      ensures bids.entries == map[] && bids.keys == [] && asks.entries == map[] && asks.keys == []
      ensures position == 0 && futuresPosition == 0
      ensures bidBase == null && askBase == null && shiftedAsk == null && shiftedBid == null
      ensures etfBook == null && futuresBook == null
    {
      nextId := 1;
      bidBase, bidShifted, askBase, askShifted := null, null, null, null;
      shiftedAsk, shiftedBid := null, null;
      bids := new OrderDict();
      asks := new OrderDict();
      position := 0;
      futuresPosition := 0;
      etfBook, futuresBook := null, null;
      sent := [];
    }

    /** An error on a known, non-zero id removes that order as a status with
        nothing remaining would; any other error changes nothing. */
    method OnErrorMessage(clientOrderId: int, errorMessage: seq<char>)
      requires Valid()
      modifies bids, asks
      ensures Valid()
      ensures clientOrderId != 0 && clientOrderId in old(bids.entries) ==>
        && bids.entries == old(bids.entries) - {clientOrderId}
        && bids.keys == Without(old(bids.keys), clientOrderId)
        && unchanged(asks)
      ensures clientOrderId != 0 && clientOrderId !in old(bids.entries) && clientOrderId in old(asks.entries) ==>
        && asks.entries == old(asks.entries) - {clientOrderId}
        && asks.keys == Without(old(asks.keys), clientOrderId)
        && unchanged(bids)
      ensures clientOrderId == 0 || (clientOrderId !in old(bids.entries) && clientOrderId !in old(asks.entries)) ==>
        unchanged(bids, asks)
      ensures clientOrderId != 0 ==> clientOrderId !in bids.entries && clientOrderId !in asks.entries
    {
      if clientOrderId != 0 && (clientOrderId in bids.entries || clientOrderId in asks.entries) {
        var _ := OnOrderStatus(clientOrderId, 0, 0, 0);
      }
    }

    /** A status with nothing remaining removes the order from the side that
        holds it, bids first; an unknown id raises. Other statuses change
        nothing. Positions are never touched. */
    method OnOrderStatus(clientOrderId: int, fillVolume: int, remainingVolume: int, fees: int)
      returns (outcome: Outcome<()>)
      requires Valid()
      modifies bids, asks
      ensures Valid()
      ensures remainingVolume != 0 ==> outcome == Ok(()) && unchanged(bids, asks)
      ensures remainingVolume == 0 && clientOrderId in old(bids.entries) ==>
        && outcome == Ok(())
        && bids.entries == old(bids.entries) - {clientOrderId}
        && bids.keys == Without(old(bids.keys), clientOrderId)
        && unchanged(asks)
      ensures remainingVolume == 0 && clientOrderId !in old(bids.entries) && clientOrderId in old(asks.entries) ==>
        && outcome == Ok(())
        && asks.entries == old(asks.entries) - {clientOrderId}
        && asks.keys == Without(old(asks.keys), clientOrderId)
        && unchanged(bids)
      ensures remainingVolume == 0 && clientOrderId !in old(bids.entries) && clientOrderId !in old(asks.entries) ==>
        outcome == Raised(OrderNotFound) && unchanged(bids, asks)
      ensures remainingVolume == 0 && outcome.Ok? ==> clientOrderId !in bids.entries && clientOrderId !in asks.entries
    {
      outcome := Ok(());
      if remainingVolume == 0 {
        if clientOrderId in bids.entries {
          bids.Delete(clientOrderId);
        } else if clientOrderId in asks.entries {
          asks.Delete(clientOrderId);
        } else {
          outcome := Raised(OrderNotFound);
        }
      }
    }

    /** Sends a cancel for every id of `orders`, in the dictionary's order,
        and leaves the dictionary as it is. */
    method CancelAll(orders: OrderDict)
      requires Valid() && (orders == bids || orders == asks)
      modifies this`sent
      ensures Valid()
      ensures sent == old(sent) + Cancels(orders.keys)
    {
      var ids := orders.keys;
      for i := 0 to |ids|
        invariant sent == old(sent) + Cancels(ids[..i])
      {
        assert Cancels(ids[..i + 1]) == Cancels(ids[..i]) + [Cancel(ids[i])];
        sent := sent + [Cancel(ids[i])];
      }
      assert ids[..|ids|] == ids;
      FreshIdsAfterCancels(old(sent), nextId, ids);
    }

    /** Creates an order under the next id, sends its insert and stores it in
        `orders`. */
    method PlaceOrder(orders: OrderDict, side: Side, price: int, lot: int) returns (o: Order)
      requires Valid() && (orders == bids || orders == asks)
      modifies this`nextId, this`sent, orders
      ensures Valid() && fresh(o)
      ensures o.id == old(nextId) && o.price == price && o.lot == lot && o.start == 0
      ensures nextId == old(nextId) + 1
      ensures sent == old(sent) + [Insert(o.id, side, price, lot)]
      ensures orders.entries == old(orders.entries)[o.id := o]
      ensures orders.keys == old(orders.keys) + [o.id]
    {
      o := new Order(nextId, price, lot, 0);
      nextId := nextId + 1;
      FreshIdsAfterIssue(sent, o.id, Insert(o.id, side, price, lot));
      sent := sent + [Insert(o.id, side, price, lot)];
      orders.Put(o.id, o);
    }

    /** Moves `order` to the next id, sends its insert and stores it under
        the new id. The old key, if any, still maps to the same, now
        re-numbered, order. */
    method Reissue(order: Order, side: Side, orderSet: OrderDict)
      requires Valid() && (orderSet == bids || orderSet == asks)
      modifies this`nextId, this`sent, orderSet, order
      ensures Valid()
      ensures order.id == old(nextId)
      ensures order.price == old(order.price) && order.lot == old(order.lot) && order.start == old(order.start)
      ensures sent == old(sent) + [Insert(order.id, side, order.price, order.lot)]
      ensures nextId == old(nextId) + 1
      ensures orderSet.entries == old(orderSet.entries)[order.id := order]
      ensures orderSet.keys == old(orderSet.keys) + [order.id]
    {
      LedgerAfterStore(bids.entries.Keys, asks.entries.Keys, sent, nextId,
                       Insert(nextId, side, order.price, order.lot), orderSet == bids);
      order.id := nextId;
      nextId := nextId + 1;
      sent := sent + [Insert(order.id, side, order.price, order.lot)];
      orderSet.Put(order.id, order);
      assert orderSet.entries.Keys == old(orderSet.entries.Keys) + {order.id};
    }

    /** Re-sends `order` under a new id: cancels its current id, then
        reissues it. */
    method SendEnlargenOrder(order: Order, side: Side, orderSet: OrderDict)
      requires Valid() && (orderSet == bids || orderSet == asks)
      modifies this`nextId, this`sent, orderSet, order
      ensures Valid()
      ensures order.id == old(nextId)
      ensures order.price == old(order.price) && order.lot == old(order.lot) && order.start == old(order.start)
      ensures sent == old(sent) + [Cancel(old(order.id)), Insert(order.id, side, order.price, order.lot)]
      ensures nextId == old(nextId) + 1
      ensures orderSet.entries == old(orderSet.entries)[order.id := order]
      ensures orderSet.keys == old(orderSet.keys) + [order.id]
    {
      assert Cancels([order.id]) == [Cancel(order.id)];
      FreshIdsAfterCancels(sent, nextId, [order.id]);
      sent := sent + [Cancel(order.id)];
      Reissue(order, side, orderSet);
    }

    /** Inserts an order one tick more aggressive than `shifted` (re-numbering
        and re-sizing that order in place) or, without one, than `base`; with
        neither, reading `base.price` raises. */
    method InsertShiftedOrder(base: Order?, shifted: Order?, orderSet: OrderDict, side: Side, volume: int)
      returns (outcome: Outcome<Order>)
      requires Valid() && (orderSet == bids || orderSet == asks)
      modifies this`nextId, this`sent, orderSet, shifted
      ensures Valid()
      ensures shifted == null && base == null ==>
        outcome == Raised(NoneAttribute) && nextId == old(nextId) && sent == old(sent) && unchanged(orderSet)
      ensures shifted != null || base != null ==>
        && outcome.Ok?
        && outcome.value.id == old(nextId)
        && outcome.value.lot == volume
        && (shifted != null ==>
             && outcome.value == shifted
             && shifted.price == old(shifted.price) + SignedLots(side, TickSizeInCents)
             && shifted.start == old(shifted.start))
        && (shifted == null ==>
             && fresh(outcome.value)
             && outcome.value.price == base.price + SignedLots(side, TickSizeInCents)
             && outcome.value.start == 0)
        && sent == old(sent) + [Insert(old(nextId), side, outcome.value.price, volume)]
        && nextId == old(nextId) + 1
        && orderSet.entries == old(orderSet.entries)[old(nextId) := outcome.value]
        && orderSet.keys == old(orderSet.keys) + [old(nextId)]
      ensures shifted != null ==> forall k :: k in old(orderSet.entries) && old(orderSet.entries)[k] == shifted ==>
        k in orderSet.entries && orderSet.entries[k] == shifted && shifted.id != k
    {
      if shifted != null {
        // the new id is drawn first in the source; nothing observes the
        // order between that and the two field updates
        shifted.price := shifted.price + (if side == Buy then TickSizeInCents else -TickSizeInCents);
        shifted.lot := volume;
        Reissue(shifted, side, orderSet);
        outcome := Ok(shifted);
      } else if base == null {
        outcome := Raised(NoneAttribute);
      } else {
        var price := if side == Buy then base.price + TickSizeInCents else base.price - TickSizeInCents;
        var o := PlaceOrder(orderSet, side, price, volume);
        outcome := Ok(o);
      }
    }

    /** The hedge step of a fill: when the futures position stays strictly
        inside the limit, send a hedge of `hedgeVolume` lots on `side` at the
        extreme price and book it into the futures position. */
    method SendHedge(side: Side, hedgeVolume: nat)
      requires Valid()
      modifies this`nextId, this`sent, this`futuresPosition
      ensures Valid()
      ensures var hedge := HedgeCommand(side, old(futuresPosition), hedgeVolume, old(nextId));
        && sent == old(sent) + hedge
        && nextId == old(nextId) + |hedge|
        && futuresPosition == old(futuresPosition) + (if WithinLimit(side, old(futuresPosition), hedgeVolume) then SignedLots(side, hedgeVolume) else 0)
    {
      if WithinLimit(side, futuresPosition, hedgeVolume) {
        var id := nextId;
        nextId := nextId + 1;
        FreshIdsAfterIssue(sent, id, Hedge(id, side, HedgePrice(side), hedgeVolume));
        sent := sent + [Hedge(id, side, HedgePrice(side), hedgeVolume)];
        futuresPosition := futuresPosition + SignedLots(side, hedgeVolume);
      }
    }

    /** A snapshot of the resting orders of both sides and of the shifted
        attributes. */
    function Snapshot(): Slots
      reads this`shiftedAsk, this`shiftedBid, bids, asks
    {
      Slots(bids.keys, bids.entries, asks.keys, asks.entries, shiftedAsk, shiftedBid)
    }

    /** The shift step of a fill on side `filled`, from the state `before`,
        drawing ids from `firstId` and appending to the log `log`: once the
        position is beyond the threshold, insert a shifted order of `lot` lots
        on the other side, one tick more aggressive than that side's shifted
        order or else its base order, and keep it in that side's shifted
        attribute; with neither order, reading the base's price raises. */
    ghost predicate Shifted(filled: Side, lot: int, firstId: int, log: seq<Command>, before: Slots, outcome: Outcome<()>)
      reads this, bids, asks, bidBase, askBase, shiftedAsk, shiftedBid
    {
      var hit := filled == Buy;
      var side := if hit then Sell else Buy;
      var base := if hit then askBase else bidBase;
      var shifts := if hit then position > ShiftThreshold else position < -ShiftThreshold;
      var keys := if hit then asks.keys else bids.keys;
      var entries := if hit then asks.entries else bids.entries;
      var keysBefore := if hit then before.askKeys else before.bidKeys;
      var entriesBefore := if hit then before.askEntries else before.bidEntries;
      && (if hit then bids.keys == before.bidKeys && bids.entries == before.bidEntries
          else asks.keys == before.askKeys && asks.entries == before.askEntries)
      && (!shifts || base == null ==>
           && outcome == (if shifts then Raised(NoneAttribute) else Ok(()))
           && sent == log && nextId == firstId
           && Snapshot() == before)
      && (shifts && base != null ==>
           var o := if hit then shiftedAsk else shiftedBid;
           && outcome == Ok(())
           && o != null
           && o.id == firstId && o.lot == lot && o.start == 0
           && o.price == base.price + SignedLots(side, TickSizeInCents)
           && sent == log + [Insert(firstId, side, o.price, o.lot)]
           && nextId == firstId + 1
           && entries == entriesBefore[firstId := o]
           && keys == keysBefore + [firstId]
           && (if hit then shiftedBid == before.shiftedBid else shiftedAsk == before.shiftedAsk))
    }

    method ShiftAfterFill(filled: Side, lot: int) returns (outcome: Outcome<()>)
      requires Valid()
      modifies this`nextId, this`sent, this`shiftedAsk, this`shiftedBid, bids, asks
      ensures Valid() && Shifted(filled, lot, old(nextId), old(sent), old(Snapshot()), outcome)
      ensures shiftedAsk != old(shiftedAsk) ==> fresh(shiftedAsk)
      ensures shiftedBid != old(shiftedBid) ==> fresh(shiftedBid)
    {
      outcome := Ok(());
      if filled == Buy && position > ShiftThreshold {
        var shifted := InsertShiftedOrder(askBase, askShifted, asks, Sell, lot);
        if shifted.Raised? {
          return Raised(shifted.fault);
        }
        shiftedAsk := shifted.value;
      } else if filled == Sell && position < -ShiftThreshold {
        var shifted := InsertShiftedOrder(bidBase, bidShifted, bids, Buy, lot);
        if shifted.Raised? {
          return Raised(shifted.fault);
        }
        shiftedBid := shifted.value;
      }
    }

    /** What one branch of the fill handler leaves behind, for a fill of
        `volume` lots on one of the trader's orders on side `filled`, given
        the outcome `h` of sizing the hedge and the state before the fill (the
        positions, the counter value `firstId`, the log `log` and the resting
        orders `before`): the position moves by the fill; a failed sizing
        raises and changes nothing else; otherwise the hedge goes out on the
        other side and the shift step follows. */
    ghost predicate Filled(filled: Side, volume: nat, h: Outcome<int>, positionBefore: int, futuresBefore: int,
                           firstId: int, log: seq<Command>, before: Slots, outcome: Outcome<()>)
      reads this, bids, asks, bidBase, askBase, shiftedAsk, shiftedBid
    {
      var side := if filled == Buy then Sell else Buy;
      && position == positionBefore + SignedLots(filled, volume)
      && (h.Raised? ==>
           && outcome == Raised(h.fault)
           && futuresPosition == futuresBefore && nextId == firstId && sent == log
           && Snapshot() == before)
      && (h.Ok? ==>
           var hedge := HedgeCommand(side, futuresBefore, h.value, firstId);
           && futuresPosition == futuresBefore + (if WithinLimit(side, futuresBefore, h.value) then SignedLots(side, h.value) else 0)
           && Shifted(filled, volume / 2, firstId + |hedge|, log + hedge, before, outcome))
    }

    /** The steps of a fill after the hedge is sized: send the hedge of
        `hedgeVolume` lots on the side opposite to `filled`, then the shift
        step for `lot` lots. */
    method HedgeAndShift(filled: Side, hedgeVolume: nat, lot: int) returns (outcome: Outcome<()>)
      requires Valid()
      modifies this`futuresPosition, this`nextId, this`sent, this`shiftedAsk, this`shiftedBid, bids, asks
      ensures Valid()
      ensures var side := if filled == Buy then Sell else Buy;
        var hedge := HedgeCommand(side, old(futuresPosition), hedgeVolume, old(nextId));
        && futuresPosition == old(futuresPosition) + (if WithinLimit(side, old(futuresPosition), hedgeVolume) then SignedLots(side, hedgeVolume) else 0)
        && Shifted(filled, lot, old(nextId) + |hedge|, old(sent) + hedge, old(Snapshot()), outcome)
      ensures shiftedAsk != old(shiftedAsk) ==> fresh(shiftedAsk)
      ensures shiftedBid != old(shiftedBid) ==> fresh(shiftedBid)
    {
      SendHedge(if filled == Buy then Sell else Buy, hedgeVolume);
      outcome := ShiftAfterFill(filled, lot);
    }

    /** One branch of the fill handler; the two branches mirror each other. */
    method FillOn(filled: Side, volume: nat, scaled: nat) returns (outcome: Outcome<()>)
      requires Valid()
      modifies this`position, this`futuresPosition, this`nextId, this`sent, this`shiftedAsk, this`shiftedBid, bids, asks
      ensures Valid()
      ensures Filled(filled, volume, DeltaHedge(old(StateOf(etfBook)), old(StateOf(futuresBook)), volume, scaled),
                     old(position), old(futuresPosition), old(nextId), old(sent), old(Snapshot()), outcome)
      ensures shiftedAsk != old(shiftedAsk) ==> fresh(shiftedAsk)
      ensures shiftedBid != old(shiftedBid) ==> fresh(shiftedBid)
    {
      // the source moves the position first; the hedge sizing reads only the
      // two books, so the order of these two steps is not observable
      var h := DeltaHedge(StateOf(etfBook), StateOf(futuresBook), volume, scaled);
      position := position + SignedLots(filled, volume);
      if h.Raised? {
        return Raised(h.fault);
      }
      outcome := HedgeAndShift(filled, h.value, volume / 2);
    }

    /** A fill of one of our orders: a fill on a bid is handled as a buy, one
        on an ask as a sell, and a fill on an unknown id changes nothing.
        `scaled` is `int(delta*volume)` for the hedge sizing. */
    method OnOrderFilled(clientOrderId: int, price: int, volume: nat, scaled: nat) returns (outcome: Outcome<()>)
      requires Valid()
      modifies this`position, this`futuresPosition, this`nextId, this`sent, this`shiftedAsk, this`shiftedBid, bids, asks
      ensures Valid()
      ensures clientOrderId !in old(bids.entries) && clientOrderId !in old(asks.entries) ==>
        outcome == Ok(()) && unchanged(this, bids, asks)
      ensures var h := DeltaHedge(old(StateOf(etfBook)), old(StateOf(futuresBook)), volume, scaled);
        var filled := if clientOrderId in old(bids.entries) then Buy else Sell;
        clientOrderId in old(bids.entries) || clientOrderId in old(asks.entries) ==>
          Filled(filled, volume, h, old(position), old(futuresPosition), old(nextId), old(sent), old(Snapshot()), outcome)
      ensures shiftedAsk != old(shiftedAsk) ==> fresh(shiftedAsk)
      ensures shiftedBid != old(shiftedBid) ==> fresh(shiftedBid)
    {
      outcome := Ok(());
      if clientOrderId in bids.entries {
        outcome := FillOn(Buy, volume, scaled);
      } else if clientOrderId in asks.entries {
        outcome := FillOn(Sell, volume, scaled);
      }
    }

    /** The cancel step of a requote: a cancel for every resting id, bids
        first, each side in its dictionary's order, with the dictionaries
        left as they are; the bid slots are cleared (twice in the source, the
        second time where the ask slots were evidently meant). */
    method CancelResting()
      requires Valid()
      modifies this`sent, this`bidBase, this`bidShifted
      ensures Valid()
      ensures sent == old(sent) + Cancels(bids.keys) + Cancels(asks.keys)
      ensures bidBase == null && bidShifted == null
    {
      CancelAll(bids);
      bidBase := null;
      bidShifted := null;
      CancelAll(asks);
      bidBase := null;
      bidShifted := null;
    }

    /** The insert step of a requote: the planned bid, then the planned ask,
        each placed as its side's base order. A side without a planned quote
        keeps its dictionary and base slot. */
    method PlaceQuotes(plan: QuotePlan)
      requires Valid()
      modifies this`nextId, this`sent, this`bidBase, this`askBase, bids, asks
      ensures Valid()
      ensures var inserts := QuoteCommands(plan, old(nextId));
        && sent == old(sent) + inserts
        && nextId == old(nextId) + |inserts|
      ensures plan.bid.None? ==> bidBase == old(bidBase) && unchanged(bids)
      ensures plan.bid.Some? ==>
        && bidBase != null && fresh(bidBase)
        && bidBase.id == old(nextId) && Quote(bidBase.price, bidBase.lot) == plan.bid.value && bidBase.start == 0
        && bids.entries == old(bids.entries)[old(nextId) := bidBase]
        && bids.keys == old(bids.keys) + [old(nextId)]
      ensures plan.ask.None? ==> askBase == old(askBase) && unchanged(asks)
      ensures plan.ask.Some? ==>
        var askId := old(nextId) + (if plan.bid.Some? then 1 else 0);
        && askBase != null && fresh(askBase)
        && askBase.id == askId && Quote(askBase.price, askBase.lot) == plan.ask.value && askBase.start == 0
        && asks.entries == old(asks.entries)[askId := askBase]
        && asks.keys == old(asks.keys) + [askId]
    {
      if plan.bid.Some? {
        bidBase := PlaceOrder(bids, Buy, plan.bid.value.price, plan.bid.value.lot);
      }
      if plan.ask.Some? {
        askBase := PlaceOrder(asks, Sell, plan.ask.value.price, plan.ask.value.lot);
      }
    }

    /** The state a requote with plan `plan` leaves behind, from the resting
        orders `before`, the log `log` and the counter value `firstId`: every
        id of both sides cancelled (bids first, each in its dictionary's
        order), the bid slots cleared, then each planned quote inserted as its
        side's new base order, the bid first; a side without a quote keeps its
        dictionary, and the ask side keeps its base slot `askBaseBefore`. */
    ghost predicate Requoted(plan: QuotePlan, firstId: int, log: seq<Command>, before: Slots, askBaseBefore: Order?)
      reads this, bids, asks, bidBase, askBase
    {
      var inserts := QuoteCommands(plan, firstId);
      var askId := firstId + (if plan.bid.Some? then 1 else 0);
      && sent == log + Cancels(before.bidKeys) + Cancels(before.askKeys) + inserts
      && nextId == firstId + |inserts|
      && (plan.bid.None? ==> bidBase == null && bids.keys == before.bidKeys && bids.entries == before.bidEntries)
      && (plan.bid.Some? ==>
           && bidBase != null
           && bidBase.id == firstId && Quote(bidBase.price, bidBase.lot) == plan.bid.value && bidBase.start == 0
           && bids.entries == before.bidEntries[firstId := bidBase]
           && bids.keys == before.bidKeys + [firstId])
      && (plan.ask.None? ==> askBase == askBaseBefore && asks.keys == before.askKeys && asks.entries == before.askEntries)
      && (plan.ask.Some? ==>
           && askBase != null
           && askBase.id == askId && Quote(askBase.price, askBase.lot) == plan.ask.value && askBase.start == 0
           && asks.entries == before.askEntries[askId := askBase]
           && asks.keys == before.askKeys + [askId])
    }

    /** The requote of a futures message: cancel every resting order of
        both sides, then insert the planned quotes. */
    method Requote(plan: QuotePlan)
      requires Valid()
      modifies this`nextId, this`sent, this`bidBase, this`bidShifted, this`askBase, bids, asks
      ensures Valid() && Requoted(plan, old(nextId), old(sent), old(Snapshot()), old(askBase))
      ensures plan.bid.Some? ==> fresh(bidBase)
      ensures plan.ask.Some? ==> fresh(askBase)
    {
      CancelResting();
      PlaceQuotes(plan);
    }

    /** The book-keeping step of an order-book message: the book of
        `instrument` is created or updated, the other book is untouched. */
    method ReceiveBook(instrument: Instrument, sequenceNumber: int, levels: Levels)
      requires Valid()
      modifies this`etfBook, this`futuresBook, etfBook, futuresBook
      ensures Valid()
      ensures old(etfBook) == null && etfBook != null ==> fresh(etfBook)
      ensures old(futuresBook) == null && futuresBook != null ==> fresh(futuresBook)
      ensures instrument == Etf ==>
        && (old(etfBook) != null ==> etfBook == old(etfBook))
        && StateOf(etfBook) == Some(Received(old(StateOf(etfBook)), sequenceNumber, levels))
        && futuresBook == old(futuresBook) && StateOf(futuresBook) == old(StateOf(futuresBook))
      ensures instrument == Future ==>
        && (old(futuresBook) != null ==> futuresBook == old(futuresBook))
        && StateOf(futuresBook) == Some(Received(old(StateOf(futuresBook)), sequenceNumber, levels))
        && etfBook == old(etfBook) && StateOf(etfBook) == old(StateOf(etfBook))
    {
      if instrument == Etf {
        etfBook := Receive(etfBook, instrument, sequenceNumber, levels);
      } else {
        futuresBook := Receive(futuresBook, instrument, sequenceNumber, levels);
      }
    }

    /** An order-book message with the levels `levels`. Each instrument's
        book is created or, for a newer sequence number, updated. A futures
        message, whatever its sequence number, then requotes: it cancels
        every resting id of both sides (keeping them in the dictionaries),
        clears the bid slots (the ask base slot is left as it was) and inserts
        the planned bid and ask. `computed` is what the lot-size and
        liquidity formulas give for the message. */
    method OnOrderBookUpdate(instrument: Instrument, sequenceNumber: int, levels: Levels, computed: LotSizing)
      requires Valid()
      requires computed.bidLiquidity >= 0.0 && computed.askLiquidity >= 0.0
      modifies this`etfBook, this`futuresBook, this`nextId, this`sent, this`bidBase, this`bidShifted, this`askBase
      modifies bids, asks, etfBook, futuresBook
      ensures Valid()
      ensures old(etfBook) == null && etfBook != null ==> fresh(etfBook)
      ensures old(futuresBook) == null && futuresBook != null ==> fresh(futuresBook)
      ensures position == old(position) && futuresPosition == old(futuresPosition)
      ensures shiftedAsk == old(shiftedAsk) && shiftedBid == old(shiftedBid)
      ensures instrument == Etf ==>
        && (old(etfBook) != null ==> etfBook == old(etfBook))
        && StateOf(etfBook) == Some(Received(old(StateOf(etfBook)), sequenceNumber, levels))
        && futuresBook == old(futuresBook) && StateOf(futuresBook) == old(StateOf(futuresBook))
        && sent == old(sent) && nextId == old(nextId)
        && bidBase == old(bidBase) && askBase == old(askBase)
        && unchanged(bids, asks)
      ensures instrument == Future ==>
        && (old(futuresBook) != null ==> futuresBook == old(futuresBook))
        && StateOf(futuresBook) == Some(Received(old(StateOf(futuresBook)), sequenceNumber, levels))
        && etfBook == old(etfBook) && StateOf(etfBook) == old(StateOf(etfBook))
      ensures instrument == Future ==>
        var plan := PlanQuotes(position, levels.askPrices, levels.bidPrices, computed);
        && Requoted(plan, old(nextId), old(sent), old(Snapshot()), old(askBase))
        && (plan.bid.Some? ==> fresh(bidBase))
        && (plan.ask.Some? ==> fresh(askBase))
    {
      ReceiveBook(instrument, sequenceNumber, levels);
      if instrument == Future {
        Requote(PlanQuotes(position, levels.askPrices, levels.bidPrices, computed));
      }
    }
  }
}
