// The FIFO fill ledger (src/seven_lens/execution/ledger.py).
//
// `ProjectLedger` is the source's loop over mutable cash, lots, seen ids and per-order
// totals.  It is proved equal to the recursive `Project`, about which LedgerLaws.dfy
// proves what the ledger promises.

module Ledger {
  import opened Orders
  import opened Sequences

  const MAX_ABS_CENTS: int := 1_000_000_000_000

  datatype OpenLot = OpenLot(symbol: Text, quantity: Shares, price: Cents, openedAt: Time)

  datatype LedgerProjection = LedgerProjection(cashDeltaCents: int, lots: seq<OpenLot>)

  datatype LedgerError = DuplicateExecution | UnknownOrder | OverfilledOrder | CashOutOfRange | Oversell

  predicate Bounded(cents: int) {
    -MAX_ABS_CENTS <= cents <= MAX_ABS_CENTS
  }

  // ---------------------------------------------------------------- orders of replay

  predicate FillBefore(a: Fill, b: Fill) {
    a.occurredAt < b.occurredAt || (a.occurredAt == b.occurredAt && TextLeq(a.executionId, b.executionId))
  }

  /** The canonical replay order: broker time, then execution id. */
  function Canonical(fills: seq<Fill>): seq<Fill> {
    StableSort(fills, FillBefore)
  }

  predicate LotBefore(a: OpenLot, b: OpenLot) {
    if a.symbol == b.symbol then a.openedAt <= b.openedAt else TextLeq(a.symbol, b.symbol)
  }

  // ---------------------------------------------------------------- totals over fills

  function SharesOnOrder(brokerOrderId: Text): Fill -> int {
    (f: Fill) => if f.brokerOrderId == brokerOrderId then f.quantity else 0
  }

  /** Shares filled on one broker order. */
  function FilledOn(fills: seq<Fill>, brokerOrderId: Text): int {
    SumBy(fills, SharesOnOrder(brokerOrderId))
  }

  predicate Trades(f: Fill, orders: map<Text, BrokerOrder>, symbol: Text, side: OrderSide) {
    f.brokerOrderId in orders && orders[f.brokerOrderId].symbol == symbol && orders[f.brokerOrderId].side == side
  }

  function SharesTraded(orders: map<Text, BrokerOrder>, symbol: Text, side: OrderSide): Fill -> int {
    (f: Fill) => if Trades(f, orders, symbol, side) then f.quantity else 0
  }

  function Bought(fills: seq<Fill>, orders: map<Text, BrokerOrder>, symbol: Text): int {
    SumBy(fills, SharesTraded(orders, symbol, BUY))
  }

  function Sold(fills: seq<Fill>, orders: map<Text, BrokerOrder>, symbol: Text): int {
    SumBy(fills, SharesTraded(orders, symbol, SELL))
  }

  /** What a fill does to cash: a buy debits, a sell credits. */
  function CashEffect(orders: map<Text, BrokerOrder>): Fill -> int {
    (f: Fill) =>
      if f.brokerOrderId !in orders then 0
      else if orders[f.brokerOrderId].side == BUY then -(f.quantity * f.price)
      else f.quantity * f.price
  }

  function CashOf(fills: seq<Fill>, orders: map<Text, BrokerOrder>): int {
    SumBy(fills, CashEffect(orders))
  }

  function Ids(fills: seq<Fill>): set<Text> {
    set f | f in fills :: f.executionId
  }

  // ---------------------------------------------------------------- replay, as a specification

  /** Cash and lots, in opening order, after a prefix of the canonical fills. */
  datatype Book = Book(cash: int, lots: seq<OpenLot>)

  /** The lots left after `wanted` shares of `symbol` leave in opening order, and the shares not found. */
  function Consume(lots: seq<OpenLot>, symbol: Text, wanted: nat): (seq<OpenLot>, nat) {
    if lots == [] then ([], wanted)
    else if wanted == 0 || lots[0].symbol != symbol then
      var (rest, missing) := Consume(lots[1..], symbol, wanted);
      ([lots[0]] + rest, missing)
    else if lots[0].quantity <= wanted then
      Consume(lots[1..], symbol, wanted - lots[0].quantity)
    else
      ([lots[0].(quantity := lots[0].quantity - wanted)] + lots[1..], 0)
  }

  function Opened(f: Fill, order: BrokerOrder): OpenLot {
    OpenLot(order.symbol, f.quantity, f.price, f.occurredAt)
  }

  /** One fill replayed on top of the book built from `before`. */
  function ReplayFill(book: Book, before: seq<Fill>, f: Fill, orders: map<Text, BrokerOrder>)
    : Result<Book, LedgerError>
  {
    if f.executionId in Ids(before) then Err(DuplicateExecution)
    else if f.brokerOrderId !in orders then Err(UnknownOrder)
    else
      var order := orders[f.brokerOrderId];
      if FilledOn(before, f.brokerOrderId) + f.quantity > order.quantity then Err(OverfilledOrder)
      else Booked(book, f, order)
  }

  /** A buy opens a lot; a sell consumes lots of its symbol, oldest first. */
  function Booked(book: Book, f: Fill, order: BrokerOrder): Result<Book, LedgerError> {
    if order.side == BUY then
      var cash := book.cash - f.quantity * f.price;
      if !Bounded(cash) then Err(CashOutOfRange) else Ok(Book(cash, book.lots + [Opened(f, order)]))
    else
      var (lots, missing) := Consume(book.lots, order.symbol, f.quantity);
      if missing != 0 then Err(Oversell) else Ok(Book(book.cash + f.quantity * f.price, lots))
  }

  function Replay(fills: seq<Fill>, orders: map<Text, BrokerOrder>): Result<Book, LedgerError> {
    if fills == [] then Ok(Book(0, []))
    else
      var before := fills[..|fills| - 1];
      ReplayNext(Replay(before, orders), before, fills[|fills| - 1], orders)
  }

  function ReplayNext(r: Result<Book, LedgerError>, before: seq<Fill>, f: Fill, orders: map<Text, BrokerOrder>)
    : Result<Book, LedgerError>
  {
    if r.Err? then r else ReplayFill(r.value, before, f, orders)
  }

  function Project(fills: seq<Fill>, orders: map<Text, BrokerOrder>): Result<LedgerProjection, LedgerError> {
    var r := Replay(Canonical(fills), orders);
    if r.Err? then Err(r.error)
    else if !Bounded(r.value.cash) then Err(CashOutOfRange)
    else Ok(LedgerProjection(r.value.cash, StableSort(r.value.lots, LotBefore)))
  }

  // ---------------------------------------------------------------- replay, as the source runs it

  lemma ReplayExtend(fills: seq<Fill>, k: nat, orders: map<Text, BrokerOrder>)
    requires k < |fills|
    ensures Replay(fills[..k + 1], orders) ==
            ReplayNext(Replay(fills[..k], orders), fills[..k], fills[k], orders)
  {
    assert fills[..k + 1][..k] == fills[..k];
  }

  /** The first anomaly decides the outcome of the whole replay. */
  lemma {:induction false} ReplayStopsAt(fills: seq<Fill>, k: nat, orders: map<Text, BrokerOrder>)
    requires k <= |fills| && Replay(fills[..k], orders).Err?
    ensures Replay(fills, orders) == Replay(fills[..k], orders)
    decreases |fills| - k
  {
    if k == |fills| {
      assert fills[..k] == fills;
    } else {
      ReplayExtend(fills, k, orders);
      ReplayStopsAt(fills, k + 1, orders);
    }
  }

  /** `Consume` walks the lots left to right, so it can be run one lot at a time. */
  lemma {:induction false} ConsumeStep(lots: seq<OpenLot>, lot: OpenLot, symbol: Text, wanted: nat)
    ensures var (kept, missing) := Consume(lots, symbol, wanted);
            var (kept', missing') := Consume([lot], symbol, missing);
            Consume(lots + [lot], symbol, wanted) == (kept + kept', missing')
  {
    if lots == [] {
      assert lots + [lot] == [lot];
      assert Consume(lots, symbol, wanted) == ([], wanted);
      var (kept', missing') := Consume([lot], symbol, wanted);
      assert [] + kept' == kept';
    } else {
      var all := lots + [lot];
      assert all[0] == lots[0] && all[1..] == lots[1..] + [lot];
      if wanted == 0 || lots[0].symbol != symbol {
        ConsumeStep(lots[1..], lot, symbol, wanted);
        var (kept, missing) := Consume(lots[1..], symbol, wanted);
        var (kept', missing') := Consume([lot], symbol, missing);
        assert [lots[0]] + (kept + kept') == ([lots[0]] + kept) + kept';
      } else if lots[0].quantity <= wanted {
        ConsumeStep(lots[1..], lot, symbol, wanted - lots[0].quantity);
      } else {
        var head := lots[0].(quantity := lots[0].quantity - wanted);
        assert Consume([lot], symbol, 0).0 == [lot] by { assert [lot][1..] == []; }
        assert [head] + all[1..] == ([head] + lots[1..]) + [lot];
      }
    }
  }

  lemma ConsumeOne(lot: OpenLot, symbol: Text, wanted: nat)
    ensures Consume([lot], symbol, wanted) ==
            if wanted == 0 || lot.symbol != symbol then ([lot], wanted)
            else if lot.quantity <= wanted then ([], wanted - lot.quantity)
            else ([lot.(quantity := lot.quantity - wanted)], 0)
  {
    var tail := [lot][1..];
    assert tail == [];
    assert Consume(tail, symbol, wanted) == ([], wanted);
    assert [lot] + Consume(tail, symbol, wanted).0 == [lot];
    if lot.symbol == symbol && lot.quantity <= wanted {
      assert Consume(tail, symbol, wanted - lot.quantity) == ([], wanted - lot.quantity);
    } else if lot.symbol == symbol && wanted != 0 {
      var left := lot.(quantity := lot.quantity - wanted);
      assert [left] + tail == [left];
    }
  }

  method ConsumeLots(lots: seq<OpenLot>, symbol: Text, wanted: Shares, price: Cents, cash: int)
    returns (consumed: seq<OpenLot>, remaining: nat, cashAfter: int)
    ensures (consumed, remaining) == Consume(lots, symbol, wanted)
    ensures remaining <= wanted
    ensures cashAfter == cash + (wanted - remaining) * price
  {
    consumed, remaining, cashAfter := [], wanted, cash;
    for i := 0 to |lots|
      invariant remaining <= wanted
      invariant (consumed, remaining) == Consume(lots[..i], symbol, wanted)
      invariant cashAfter == cash + (wanted - remaining) * price
    {
      var lot := lots[i];
      ConsumeStep(lots[..i], lot, symbol, wanted);
      ConsumeOne(lot, symbol, remaining);
      assert lots[..i + 1] == lots[..i] + [lot];
      assert consumed + [] == consumed;
      ghost var before := remaining;
      if remaining == 0 {
        consumed := consumed + [lot];
      } else if lot.symbol != symbol {
        consumed := consumed + [lot];
      } else if lot.quantity <= remaining {
        remaining := remaining - lot.quantity;
        cashAfter := cashAfter + lot.quantity * price;
        Distribute(wanted - before, lot.quantity, price);
      } else {
        cashAfter := cashAfter + remaining * price;
        consumed := consumed + [lot.(quantity := lot.quantity - remaining)];
        remaining := 0;
        Distribute(wanted - before, before, price);
      }
    }
    assert lots[..|lots|] == lots;
  }

  lemma Distribute(a: int, b: int, c: int)
    ensures (a + b) * c == a * c + b * c
  {
  }

  method BookFill(cash: int, lots: seq<OpenLot>, fill: Fill, order: BrokerOrder)
    returns (r: Result<Book, LedgerError>)
    ensures r == Booked(Book(cash, lots), fill, order)
  {
    if order.side == BUY {
      var debited := cash - fill.quantity * fill.price;
      if !Bounded(debited) { return Err(CashOutOfRange); }
      return Ok(Book(debited, lots + [OpenLot(order.symbol, fill.quantity, fill.price, fill.occurredAt)]));
    }
    var consumed, remaining, credited := ConsumeLots(lots, order.symbol, fill.quantity, fill.price, cash);
    if remaining != 0 { return Err(Oversell); }
    r := Ok(Book(credited, consumed));
  }

  method ReplayFills(canonical: seq<Fill>, orders: map<Text, BrokerOrder>)
    returns (r: Result<Book, LedgerError>)
    ensures r == Replay(canonical, orders)
  {
    var cash := 0;
    var lots: seq<OpenLot> := [];
    var seen: set<Text> := {};
    var filledByOrder: map<Text, int> := map[];
    ghost var done: seq<Fill> := [];
    for i := 0 to |canonical|
      invariant done == canonical[..i]
      invariant seen == Ids(done)
      invariant Tallies(filledByOrder, done)
      invariant Replay(done, orders) == Ok(Book(cash, lots))
    {
      var fill := canonical[i];
      StepFacts(canonical, i, orders);
      TalliesExtend(filledByOrder, done, fill);
      if fill.executionId in seen { return Err(DuplicateExecution); }
      seen := seen + {fill.executionId};
      if fill.brokerOrderId !in orders { return Err(UnknownOrder); }
      var order := orders[fill.brokerOrderId];
      var cumulative := Tally(filledByOrder, fill.brokerOrderId) + fill.quantity;
      if cumulative > order.quantity { return Err(OverfilledOrder); }
      filledByOrder := filledByOrder[fill.brokerOrderId := cumulative];
      var booked := BookFill(cash, lots, fill, order);
      if booked.Err? { return booked; }
      cash, lots := booked.value.cash, booked.value.lots;
      done := done + [fill];
    }
    assert done == canonical;
    r := Ok(Book(cash, lots));
  }

  lemma StepFacts(fills: seq<Fill>, k: nat, orders: map<Text, BrokerOrder>)
    requires k < |fills|
    ensures fills[..k + 1] == fills[..k] + [fills[k]]
    ensures Ids(fills[..k + 1]) == Ids(fills[..k]) + {fills[k].executionId}
    ensures var next := ReplayNext(Replay(fills[..k], orders), fills[..k], fills[k], orders);
            && Replay(fills[..k] + [fills[k]], orders) == next
            && (next.Err? ==> Replay(fills, orders) == next)
  {
    assert fills[..k + 1] == fills[..k] + [fills[k]];
    IdsExtend(fills[..k], fills[k]);
    ReplayExtend(fills, k, orders);
    if Replay(fills[..k + 1], orders).Err? { ReplayStopsAt(fills, k + 1, orders); }
  }

  method ProjectLedger(fills: seq<Fill>, orders: map<Text, BrokerOrder>)
    returns (r: Result<LedgerProjection, LedgerError>)
    ensures r == Project(fills, orders)
  {
    var replayed := ReplayFills(Canonical(fills), orders);
    if replayed.Err? { return Err(replayed.error); }
    if !Bounded(replayed.value.cash) { return Err(CashOutOfRange); }
    r := Ok(LedgerProjection(replayed.value.cash, StableSort(replayed.value.lots, LotBefore)));
  }

  function Tally(filledByOrder: map<Text, int>, brokerOrderId: Text): int {
    if brokerOrderId in filledByOrder then filledByOrder[brokerOrderId] else 0
  }

  ghost predicate Tallies(filledByOrder: map<Text, int>, fills: seq<Fill>) {
    forall b :: Tally(filledByOrder, b) == FilledOn(fills, b)
  }

  lemma TalliesExtend(filledByOrder: map<Text, int>, fills: seq<Fill>, f: Fill)
    requires Tallies(filledByOrder, fills)
    ensures Tally(filledByOrder, f.brokerOrderId) == FilledOn(fills, f.brokerOrderId)
    ensures Tallies(filledByOrder[f.brokerOrderId := Tally(filledByOrder, f.brokerOrderId) + f.quantity], fills + [f])
  {
    var filled := filledByOrder[f.brokerOrderId := Tally(filledByOrder, f.brokerOrderId) + f.quantity];
    forall b
      ensures Tally(filled, b) == FilledOn(fills + [f], b)
    {
      assert Tally(filledByOrder, b) == FilledOn(fills, b);
      SumByAppend(fills, f, SharesOnOrder(b));
    }
  }

  lemma IdsExtend(fills: seq<Fill>, f: Fill)
    ensures Ids(fills + [f]) == Ids(fills) + {f.executionId}
  {
    forall id | id in Ids(fills) + {f.executionId}
      ensures id in Ids(fills + [f])
    {
      if id == f.executionId {
        assert f in fills + [f];
      } else {
        var g :| g in fills && g.executionId == id;
        assert g in fills + [f];
      }
    }
  }

  // ---------------------------------------------------------------- positions

  function LotShares(symbol: Text): OpenLot -> int {
    (lot: OpenLot) => if lot.symbol == symbol then lot.quantity else 0
  }

  /** Shares of one symbol across the open lots. */
  function Held(lots: seq<OpenLot>, symbol: Text): int {
    SumBy(lots, LotShares(symbol))
  }

  /** The position view: one entry per symbol that has a lot, holding its total. */
  function PositionsOf(lots: seq<OpenLot>): map<Text, int> {
    map s | s in (set lot | lot in lots :: lot.symbol) :: Held(lots, s)
  }

  method Positions(lots: seq<OpenLot>) returns (quantities: map<Text, int>)
    ensures quantities == PositionsOf(lots)
  {
    quantities := map[];
    for i := 0 to |lots|
      invariant quantities == PositionsOf(lots[..i])
    {
      var lot := lots[i];
      assert lots[..i + 1] == lots[..i] + [lot];
      PositionsExtend(lots[..i], lot);
      quantities := quantities[lot.symbol := (if lot.symbol in quantities then quantities[lot.symbol] else 0) + lot.quantity];
    }
    assert lots[..|lots|] == lots;
  }

  lemma PositionsExtend(lots: seq<OpenLot>, lot: OpenLot)
    ensures var before := PositionsOf(lots);
            PositionsOf(lots + [lot]) ==
            before[lot.symbol := (if lot.symbol in before then before[lot.symbol] else 0) + lot.quantity]
  {
    forall s { SumByAppend(lots, lot, LotShares(s)); }
    HeldIsZeroWithoutLots(lots, lot.symbol);
    assert forall l :: l in lots + [lot] <==> l in lots || l == lot;
  }

  lemma {:induction false} HeldIsZeroWithoutLots(lots: seq<OpenLot>, symbol: Text)
    ensures 0 <= Held(lots, symbol)
    ensures Held(lots, symbol) == 0 <==> forall lot :: lot in lots ==> lot.symbol != symbol
  {
    SumByNonNegative(lots, LotShares(symbol));
    if forall lot :: lot in lots ==> lot.symbol != symbol {
      SumByCongruent(lots, LotShares(symbol), (lot: OpenLot) => 0);
      SumOfZeros(lots);
    } else {
      var lot :| lot in lots && lot.symbol == symbol;
      assert LotShares(symbol)(lot) > 0;
    }
  }

  lemma {:induction false} SumOfZeros(lots: seq<OpenLot>)
    ensures SumBy(lots, (lot: OpenLot) => 0) == 0
  {
    if lots != [] { SumOfZeros(lots[..|lots| - 1]); }
  }

  // ---------------------------------------------------------------- valuation

  function MarkedAt(prices: map<Text, Cents>): OpenLot -> int {
    (lot: OpenLot) => if lot.symbol in prices then lot.quantity * prices[lot.symbol] else 0
  }

  datatype ValuationError = MissingPrice | OpeningCashNegative | ValuationOutOfRange

  predicate Priced(lots: seq<OpenLot>, prices: map<Text, Cents>) {
    forall lot :: lot in lots ==> lot.symbol in prices
  }

  method MarketValue(lots: seq<OpenLot>, prices: map<Text, Cents>) returns (r: Result<int, ValuationError>)
    ensures r == if Priced(lots, prices) then Ok(SumBy(lots, MarkedAt(prices))) else Err(MissingPrice)
  {
    var marketValue := 0;
    for i := 0 to |lots|
      invariant Priced(lots[..i], prices)
      invariant marketValue == SumBy(lots[..i], MarkedAt(prices))
    {
      var lot := lots[i];
      assert lots[..i + 1] == lots[..i] + [lot];
      if lot.symbol !in prices { return Err(MissingPrice); }
      SumByAppend(lots[..i], lot, MarkedAt(prices));
      marketValue := marketValue + lot.quantity * prices[lot.symbol];
    }
    assert lots[..|lots|] == lots;
    r := Ok(marketValue);
  }

  /** Opening cash, the fills' cash effect and the marked lots; nothing is valued at zero by default. */
  function Valuation(projection: LedgerProjection, openingCash: int, prices: map<Text, Cents>)
    : Result<int, ValuationError>
  {
    if openingCash < 0 then Err(OpeningCashNegative)
    else if !Priced(projection.lots, prices) then Err(MissingPrice)
    else
      var total := openingCash + projection.cashDeltaCents + SumBy(projection.lots, MarkedAt(prices));
      if Bounded(total) then Ok(total) else Err(ValuationOutOfRange)
  }

  method AccountValuation(projection: LedgerProjection, openingCash: int, prices: map<Text, Cents>)
    returns (r: Result<int, ValuationError>)
    ensures r == Valuation(projection, openingCash, prices)
  {
    if openingCash < 0 { return Err(OpeningCashNegative); }
    var value := MarketValue(projection.lots, prices);
    if value.Err? { return value; }
    var total := openingCash + projection.cashDeltaCents + value.value;
    if !Bounded(total) { return Err(ValuationOutOfRange); }
    r := Ok(total);
  }

  /** NAV from checkpointed cash plus the current lots at mark prices. */
  function EquityFrom(expectedCash: int, lots: seq<OpenLot>, prices: map<Text, Cents>)
    : Result<int, ValuationError>
  {
    if !Bounded(expectedCash) then Err(ValuationOutOfRange)
    else if !Priced(lots, prices) then Err(MissingPrice)
    else
      var total := expectedCash + SumBy(lots, MarkedAt(prices));
      if Bounded(total) then Ok(total) else Err(ValuationOutOfRange)
  }

  method AccountEquity(expectedCash: int, lots: seq<OpenLot>, prices: map<Text, Cents>)
    returns (r: Result<int, ValuationError>)
    ensures r == EquityFrom(expectedCash, lots, prices)
  {
    if !Bounded(expectedCash) { return Err(ValuationOutOfRange); }
    var value := MarketValue(lots, prices);
    if value.Err? { return value; }
    var total := expectedCash + value.value;
    if !Bounded(total) { return Err(ValuationOutOfRange); }
    r := Ok(total);
  }
}
