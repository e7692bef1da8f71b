/** The two-snapshot order book kept per instrument: the levels of the latest
    message ("new") and of the one before it ("old"). */
module Books {
  import opened Exchange

  /** One side's prices or volumes in a message: the exchange always sends
      five levels, index 0 being the best; a price of 0 means no level. */
  type Row = s: seq<int> | |s| == TopLevelCount witness [0, 0, 0, 0, 0]

  /** The price and volume levels of both sides of one message. */
  datatype Levels = Levels(askPrices: Row, askVolumes: Row, bidPrices: Row, bidVolumes: Row)

  /** Both snapshots of a book. The old snapshot is `None` while it is still
      the empty lists the book starts with. */
  datatype BookView = BookView(current: Levels, previous: Option<Levels>)

  /** A book's sequence number and snapshots. */
  datatype BookState = BookState(sequenceNumber: int, view: BookView)

  /** The value of a Python `and` chain: the first falsy operand, here either
      an empty list or `False`, or else the last operand. */
  datatype Truth = EmptyList | Bool(b: bool)
  {
    predicate Truthy()
    {
      this == Bool(true)
    }
  }

  /** `is_ready`. Truthy exactly when an old snapshot exists and the best ask
      and best bid are non-zero in both snapshots; while the old snapshot is
      still empty it is the empty list, which is falsy but is not `False`. */
  function IsReady(v: BookView): (r: Truth)
    ensures r.Truthy() <==>
      && v.previous.Some?
      && v.current.askPrices[0] != 0 && v.previous.value.askPrices[0] != 0
      && v.current.bidPrices[0] != 0 && v.previous.value.bidPrices[0] != 0
    ensures r == EmptyList <==> v.previous.None?
  {
    // the new bid prices are never the empty list, so the chain stops first
    // at the old ones, or else yields the comparisons
    if v.previous.None? then EmptyList
    else Bool(
      && v.current.askPrices[0] != 0 && v.previous.value.askPrices[0] != 0
      && v.current.bidPrices[0] != 0 && v.previous.value.bidPrices[0] != 0)
  }

  /** Twice `delta()`. The source takes each snapshot's "average" price as
      best ask TIMES best bid over 2 (a product, not a sum); only whether the
      difference is zero, positive or negative is used. */
  function DoubledDelta(v: BookView): (r: int)
    requires v.previous.Some?
    ensures var newProduct := v.current.askPrices[0] * v.current.bidPrices[0];
      var oldProduct := v.previous.value.askPrices[0] * v.previous.value.bidPrices[0];
      && r as real == 2.0 * (newProduct as real / 2.0 - oldProduct as real / 2.0)
      && (r == 0 <==> newProduct == oldProduct)
      && (r > 0 <==> newProduct > oldProduct)
  {
    v.current.askPrices[0] * v.current.bidPrices[0] - v.previous.value.askPrices[0] * v.previous.value.bidPrices[0]
  }

  /** What the stored book of one instrument becomes when a message with
      sequence number `sequenceNumber` and levels `levels` arrives: a first
      message creates it, a newer one shifts the new snapshot into old, and
      a message that is not newer changes nothing. */
  function Received(prior: Option<BookState>, sequenceNumber: int, levels: Levels): (r: BookState)
    ensures r.sequenceNumber >= sequenceNumber
    ensures prior.Some? ==> r.sequenceNumber >= prior.value.sequenceNumber
    ensures prior.None? || prior.value.sequenceNumber < sequenceNumber ==> r.sequenceNumber == sequenceNumber
    ensures prior.Some? && sequenceNumber <= prior.value.sequenceNumber ==> r == prior.value
    ensures prior.None? ==> r.view == BookView(levels, None)
    ensures prior.Some? && prior.value.sequenceNumber < sequenceNumber ==>
      r.view == BookView(levels, Some(prior.value.view.current))
  {
    match prior
    case None => BookState(sequenceNumber, BookView(levels, None))
    case Some(s) =>
      if s.sequenceNumber < sequenceNumber then BookState(sequenceNumber, BookView(levels, Some(s.view.current)))
      else s
  }

  /** A repeated message is ignored: receiving it twice is receiving it once. */
  lemma ReceivedTwice(prior: Option<BookState>, sequenceNumber: int, levels: Levels)
    ensures Received(Some(Received(prior, sequenceNumber, levels)), sequenceNumber, levels)
         == Received(prior, sequenceNumber, levels)
  {
  }

  class Book {
    const instrument: Instrument
    var sequenceNumber: int
    var current: Levels
    var previous: Option<Levels>

    function State(): BookState
      reads this
    {
      BookState(sequenceNumber, BookView(current, previous))
    }

    constructor (instrument: Instrument, sequenceNumber: int, levels: Levels)
      ensures this.instrument == instrument
      ensures State() == BookState(sequenceNumber, BookView(levels, None))
    {
      this.instrument := instrument;
      this.sequenceNumber := sequenceNumber;
      current := levels;
      previous := None;
    }

    /** Shifts the new snapshot into old and installs `levels` as new. */
    method Update(sequenceNumber: int, levels: Levels)
      modifies this
      ensures State() == BookState(sequenceNumber, BookView(levels, Some(old(current))))
    {
      this.sequenceNumber := sequenceNumber;
      previous := Some(current);
      current := levels;
    }
  }

  function StateOf(b: Book?): Option<BookState>
    reads b
  {
    if b == null then None else Some(b.State())
  }

  /** The book-keeping step of the order-book handler for one instrument:
      create the book on the first message, update it on a newer one. */
  method Receive(book: Book?, instrument: Instrument, sequenceNumber: int, levels: Levels) returns (b: Book)
    modifies book
    ensures book == null ==> fresh(b) && b.instrument == instrument
    ensures book != null ==> b == book
    ensures b.State() == Received(old(StateOf(book)), sequenceNumber, levels)
  {
    if book == null {
      b := new Book(instrument, sequenceNumber, levels);
    } else {
      b := book;
      if b.sequenceNumber < sequenceNumber {
        b.Update(sequenceNumber, levels);
      }
    }
  }

  /** A book that has seen one message is never ready, and its readiness is
      the empty list rather than `False`. */
  lemma FirstMessageNotReady(sequenceNumber: int, levels: Levels)
    ensures !IsReady(Received(None, sequenceNumber, levels).view).Truthy()
    ensures IsReady(Received(None, sequenceNumber, levels).view) != Bool(false)
  {
  }
}
