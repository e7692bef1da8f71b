/** The trader's vocabulary: the exchange's sides and instruments, the fixed
    limits of the competition, the commands the trader sends (kept as a log),
    and the Python exceptions a handler can raise. */
module Exchange {

  /** Net position limit per instrument, in lots. */
  const PositionLimit := 100
  /** One price tick, in cents. */
  const TickSizeInCents := 100
  /** Number of price levels per side in every order-book message. */
  const TopLevelCount := 5
  /** Lowest bid and highest ask the exchange accepts. They belong to the
      ready_trader_go library, which is not part of this model; these are
      that library's values. */
  const MinimumBid := 1
  const MaximumAsk := 2147483647
  /** The extreme prices rounded onto the tick grid, used for hedge orders. */
  const MinBidNearestTick := (MinimumBid + TickSizeInCents) / TickSizeInCents * TickSizeInCents
  const MaxAskNearestTick := MaximumAsk / TickSizeInCents * TickSizeInCents

  datatype Option<T> = None | Some(value: T)

  /** Side of an order. The library's ASK and BID are aliases of SELL and BUY. */
  datatype Side = Buy | Sell

  datatype Instrument = Future | Etf

  /** The signed change of a position when `lots` trade on `side`. */
  function SignedLots(side: Side, lots: int): int
  {
    if side == Buy then lots else -lots
  }

  /** An outbound command; every order is good-for-day, so no lifespan is kept. */
  datatype Command =
    | Insert(id: int, side: Side, price: int, lot: int)
    | Cancel(id: int)
    | Hedge(id: int, side: Side, price: int, lot: int)

  /** The exceptions a handler can raise. */
  datatype Fault =
    | OrderNotFound   // the explicit `raise Exception("Order not found")`
    | IndexError      // a list index on an empty snapshot
    | NoneAttribute   // an attribute read on `None`

  /** The outcome of a Python call: a value, or the exception it raised. */
  datatype Outcome<T> = Ok(value: T) | Raised(fault: Fault)

  /** The cancel commands sent, in order, for each id of `ids`. */
  function Cancels(ids: seq<int>): (r: seq<Command>)
    ensures |r| == |ids|
    ensures forall i :: 0 <= i < |ids| ==> r[i] == Cancel(ids[i])
  {
    if ids == [] then [] else [Cancel(ids[0])] + Cancels(ids[1..])
  }

  /** The order ids drawn by the commands of `log` (cancels draw none), in order. */
  function IssuedIds(log: seq<Command>): seq<int>
  {
    if log == [] then []
    else
      var last := log[|log| - 1];
      IssuedIds(log[..|log| - 1]) + (if last.Cancel? then [] else [last.id])
  }

  /** The ids drawn so far strictly increase, start above 0 and stay below the
      counter's next value: an id is never drawn twice. */
  ghost predicate FreshIds(log: seq<Command>, nextId: int)
  {
    var ids := IssuedIds(log);
    && (forall i, j :: 0 <= i < j < |ids| ==> ids[i] < ids[j])
    && (forall i :: 0 <= i < |ids| ==> 0 < ids[i] < nextId)
  }

  lemma {:induction false} IssuedIdsConcat(a: seq<Command>, b: seq<Command>)
    ensures IssuedIds(a + b) == IssuedIds(a) + IssuedIds(b)
  {
    if b != [] {
      var b' := b[..|b| - 1];
      assert (a + b)[..|a + b| - 1] == a + b';
      assert (a + b)[|a + b| - 1] == b[|b| - 1];
      IssuedIdsConcat(a, b');
    } else {
      assert a + b == a;
    }
  }

  lemma {:induction false} CancelsIssueNoIds(ids: seq<int>)
    ensures IssuedIds(Cancels(ids)) == []
  {
    if ids != [] {
      assert Cancels(ids) == [Cancel(ids[0])] + Cancels(ids[1..]);
      IssuedIdsConcat([Cancel(ids[0])], Cancels(ids[1..]));
      assert [Cancel(ids[0])][..0] == [];
      CancelsIssueNoIds(ids[1..]);
    }
  }

  /** Sending cancels keeps the drawn ids fresh. */
  lemma FreshIdsAfterCancels(log: seq<Command>, nextId: int, ids: seq<int>)
    requires FreshIds(log, nextId)
    ensures FreshIds(log + Cancels(ids), nextId)
  {
    IssuedIdsConcat(log, Cancels(ids));
    CancelsIssueNoIds(ids);
    assert IssuedIds(log + Cancels(ids)) == IssuedIds(log);
  }

  /** Sending an order under the counter's next value, then advancing the
      counter, keeps the drawn ids fresh. */
  lemma FreshIdsAfterIssue(log: seq<Command>, nextId: int, c: Command)
    requires FreshIds(log, nextId) && 0 < nextId
    requires !c.Cancel? && c.id == nextId
    ensures FreshIds(log + [c], nextId + 1)
    ensures IssuedIds(log + [c]) == IssuedIds(log) + [nextId]
  {
    assert (log + [c])[..|log + [c]| - 1] == log;
  }

  /** Under FreshIds no id is drawn twice, and none equals the counter's next value. */
  lemma IssuedIdsNeverRepeat(log: seq<Command>, nextId: int, i: int, j: int)
    requires FreshIds(log, nextId)
    requires 0 <= i < |IssuedIds(log)| && 0 <= j < |IssuedIds(log)| && i != j
    ensures IssuedIds(log)[i] != IssuedIds(log)[j]
    ensures IssuedIds(log)[i] != nextId
  {
  }
}
