// Reconciliations that raise instead of recording a run and pausing
// (src/seven_lens/application/reconciliation_service.py:126-182, execution/ledger.py:98-115,
// execution/reconciliation.py:11, 83-84).

module UnrecordedRuns {
  import opened Orders
  import opened Sequences
  import opened Ledger
  import opened LedgerLaws
  import opened FakeBroker
  import opened BrokerPositions
  import opened Persistence
  import opened ExecutionState
  import opened Reconciliation
  import opened ReconciliationLaws
  import opened Control

  // ---------------------------------------------------------------- a value out of range

  lemma SumOfOne<T>(x: T, weight: T -> int)
    ensures SumBy([x], weight) == weight(x)
  {
    SumByAppend([], x, weight);
    assert [] + [x] == [x];
  }

  lemma OneBuyReplays(f: Fill, orders: map<Text, BrokerOrder>)
    requires f.brokerOrderId in orders && orders[f.brokerOrderId].side == BUY
    requires f.quantity <= orders[f.brokerOrderId].quantity && Bounded(f.quantity * f.price)
    ensures Replay([f], orders) == Ok(Book(-(f.quantity * f.price), [Opened(f, orders[f.brokerOrderId])]))
  {
    assert [f][..0] == [] && [f][..1] == [f];
    assert Replay([], orders) == Ok(Book(0, []));
    assert FilledOn([], f.brokerOrderId) == 0;
    ReplayExtend([f], 0, orders);
    assert [] + [Opened(f, orders[f.brokerOrderId])] == [Opened(f, orders[f.brokerOrderId])];
  }

  lemma OneSorted<T>(x: T, leq: (T, T) -> bool)
    ensures StableSort([x], leq) == [x]
  {
    assert [x][1..] == [] && StableSort([x][1..], leq) == [];
    assert [x] + [] == [x];
  }

  lemma OneBuy(f: Fill, orders: map<Text, BrokerOrder>)
    requires f.brokerOrderId in orders && orders[f.brokerOrderId].side == BUY
    requires f.quantity <= orders[f.brokerOrderId].quantity && Bounded(f.quantity * f.price)
    ensures Project([f], orders) == Ok(LedgerProjection(-(f.quantity * f.price), [Opened(f, orders[f.brokerOrderId])]))
    ensures KnownOrders([f], orders) && CashStaysBounded([f], orders) && CashOf([f], orders) == -(f.quantity * f.price)
  {
    hide Replay, StableSort, SumBy;
    OneBuyReplays(f, orders);
    OneSorted(f, FillBefore);
    OneSorted(Opened(f, orders[f.brokerOrderId]), LotBefore);
    SumOfOne(f, CashEffect(orders));
    assert [f][..1] == [f];
  }

  /** One recorded buy, its order, and a baseline that counts it. */
  predicate HoldsOneBuy(local: LocalView, f: Fill, o: BrokerOrder) {
    && local.fills == [f] && local.mirrors == [o]
    && f.brokerOrderId == o.brokerOrderId && o.side == BUY && f.quantity <= o.quantity
    && Bounded(f.quantity * f.price)
    && local.baseline.Some? && AfterCheckpoint(local.baseline.value, f)
  }

  /** After one buy, marking the shares raises exactly when cash or the marked account leaves the range. */
  lemma OneBuyRaises(policy: Policy, local: LocalView, f: Fill, o: BrokerOrder, mark: Cents)
    requires HoldsOneBuy(local, f, o)
    ensures !LedgerRaises(Some(policy), local)
    ensures var cash := local.baseline.value.openingCash - f.quantity * f.price;
            ValueRaises(Some(policy), Provider(map[o.symbol := mark]), local)
            <==> !Bounded(cash) || !Bounded(cash + f.quantity * mark)
  {
    hide Bounded, Project, SumBy, CashStaysBounded;
    var b, orders := local.baseline.value, MirrorMap(local.mirrors);
    OneMirror(o);
    OneBuy(f, orders);
    FilterAppend([], f, CountsAfter(b));
    assert [] + [f] == [f] && PostFills(b, [f]) == [f];
    SumOfOne(Opened(f, o), MarkedAt(map[o.symbol := mark]));
  }

  lemma OneMirror(o: BrokerOrder)
    ensures MirrorMap([o]) == map[o.brokerOrderId := o]
  {
    assert [o][..0] == [];
  }

  lemma OneLotHeld(lot: OpenLot)
    ensures PositionsOf([lot]) == map[lot.symbol := lot.quantity]
  {
    SumOfOne(lot, LotShares(lot.symbol));
    hide SumBy;
    var held := PositionsOf([lot]);
    assert lot in [lot];
    assert forall s :: s in held ==> s == lot.symbol;
  }

  // ---------------------------------------------------------------- the input

  const SHARES: Shares := 1001
  const TOP_PRICE: Cents := 1_000_000_000

  /**
   * 1001 shares bought at one cent and marked at the highest price: the account is worth more than
   * the ledger's range, so no run is recorded and nothing is paused, although the broker, reporting
   * no position, disagrees.
   */
  lemma PennyStockAtTheTop(policy: Policy, local: LocalView, f: Fill, o: BrokerOrder, answers: Answers)
    requires HoldsOneBuy(local, f, o) && f.quantity == SHARES && f.price == 1 && local.baseline.value.openingCash == 0
    requires answers.positions == []
    ensures var marks := Provider(map[o.symbol := TOP_PRICE]);
            && ValueRaises(Some(policy), marks, local)
            && !Recordable(Up, Some(policy), marks, local, answers)
    ensures var projected := Project(local.fills, MirrorMap(local.mirrors));
            projected.Ok? && Differing(PositionsOf(projected.value.lots), PositionView(answers.positions)) == {o.symbol}
  {
    hide Project, LedgerRaises, ValueRaises, TooMany, PositionsOf;
    OneBuyRaises(policy, local, f, o, TOP_PRICE);
    OneMirror(o);
    OneBuy(f, MirrorMap(local.mirrors));
    OneLotHeld(Opened(f, o));
  }

  /** `i` is a buy of 1001 shares at one cent, filled completely. */
  predicate PennyBuy(i: OrderIntent) {
    i.side == BUY && i.quantity == SHARES && i.limitPrice == 1 && i.status == FILLED
  }

  function PennyOrder(i: OrderIntent): BrokerOrder {
    BrokerOrder(OrderIdText(1), i.clientOrderId, i.symbol, i.side, i.quantity, i.quantity, i.limitPrice, B_FILLED, 0, 0)
  }

  function PennyFill(): Fill {
    Fill(ExecutionIdText(2), OrderIdText(1), SHARES, 1, 0)
  }

  function PennyShop(i: OrderIntent): BrokerView {
    var b := OrderIdText(1);
    BrokerView(map[b := OrderState(PennyOrder(i), [PennyFill()])], map[i.clientOrderId := b],
               map[i.clientOrderId := ParamsOf(i)], {}, 2, map[ExecutionIdText(2) := Position(b, 0)], 0)
  }

  function PennyBooks(i: OrderIntent): Db {
    var b := OrderIdText(1);
    Db(map[i.clientOrderId := i], map[b := PennyOrder(i)], map[i.clientOrderId := b], [PennyFill()], false, [], 0)
  }

  function PennyView(i: OrderIntent): LocalView {
    LocalView(map[i.clientOrderId := i], [], [], [], [PennyOrder(i)], [PennyFill()], Some(Baseline(0, 0, None, None)))
  }

  lemma PennyShopIsValid(i: OrderIntent)
    requires PennyBuy(i)
    ensures BrokerInv(PennyShop(i))
  {
    hide OrderIdText, ExecutionIdText, Padded;
    var v := PennyShop(i);
    forall n: nat | 2 < n ensures OrderIdText(n) !in v.orders && ExecutionIdText(n) !in v.executions {
      OrderIdsDiffer(n, 1);
      ExecutionIdsDiffer(n, 2);
    }
    SumOfOne(PennyFill(), Quantity());
  }

  lemma PennyFills(b: Text)
    requires b == OrderIdText(1)
    ensures FillsOn([PennyFill()], b) == [PennyFill()]
  {
    hide OrderIdText, ExecutionIdText, Padded;
    FilterAppend([], PennyFill(), OnOrder(b));
    assert [] + [PennyFill()] == [PennyFill()];
  }

  lemma PennyBooksAreSound(i: OrderIntent)
    requires PennyBuy(i)
    ensures Sound(PennyShop(i), PennyBooks(i))
  {
    hide OrderIdText, ExecutionIdText, Padded, FillsOn;
    PennyFills(OrderIdText(1));
  }

  lemma PennyViewsBooks(i: OrderIntent)
    requires PennyBuy(i)
    ensures ViewOf(PennyBooks(i), PennyView(i))
  {
    hide OrderIdText, ExecutionIdText, Padded;
  }

  /** The local state of such a purchase, with the broker it came from. */
  lemma PennyStateIsSound(i: OrderIntent)
    requires PennyBuy(i)
    ensures BrokerInv(PennyShop(i)) && Sound(PennyShop(i), PennyBooks(i)) && ViewOf(PennyBooks(i), PennyView(i))
    ensures HoldsOneBuy(PennyView(i), PennyFill(), PennyOrder(i)) && PennyView(i).baseline.value.openingCash == 0
  {
    hide OrderIdText, ExecutionIdText, Padded, BrokerInv, Sound, ViewOf;
    PennyShopIsValid(i);
    PennyBooksAreSound(i);
    PennyViewsBooks(i);
  }

  // ---------------------------------------------------------------- too many findings

  lemma {:induction false} UnresolvedCount(intents: seq<OrderIntent>)
    ensures |Unresolved(intents)| == |intents|
  {
    if intents != [] { UnresolvedCount(intents[..|intents| - 1]); }
  }

  /** More unresolved intents than a run may have findings: every one is a finding, and none is recorded. */
  lemma TooManyUnresolved(policy: Option<Policy>, marks: Marks, local: LocalView, answers: Answers)
    requires !Raises(policy, marks, local) && |local.review| + |local.unknown| > MAX_MISMATCHES
    ensures TooMany(policy, marks, local, answers) && !Recordable(Up, policy, marks, local, answers)
  {
    hide LedgerRaises, ValueRaises, PositionsOf, PositionView, Differing, Project, AccountFindings, FindingsOver, News;
    UnresolvedCount(local.review);
    UnresolvedCount(local.unknown);
  }

  // ---------------------------------------------------------------- a broker that refuses its positions

  /** The order with the first id sells, the other one buys. */
  predicate SellsFirst(states: map<Text, OrderState>, a: Text, b: Text, sell: Fill, buy: Fill) {
    && a != b && states.Keys == {a, b}
    && states[a].fills == [sell] && sell.brokerOrderId == a == states[a].order.brokerOrderId
    && states[b].fills == [buy] && buy.brokerOrderId == b == states[b].order.brokerOrderId
    && states[a].order.side == SELL && states[b].order.side == BUY && states[a].order.symbol == states[b].order.symbol
    && sell.quantity <= states[a].order.quantity && buy.quantity <= states[b].order.quantity
    && sell.quantity <= buy.quantity && sell.executionId != buy.executionId
    && Bounded(buy.quantity * buy.price) && Bounded(sell.quantity * sell.price - buy.quantity * buy.price)
  }

  /**
   * Bought first and sold later, but sold on the order with the smaller id: the ledger accepts the
   * fills, the broker's position query raises an error that is no transport failure, and so no run
   * is recorded and nothing is paused.
   */
  lemma SoldOnEarlierOrder(states: map<Text, OrderState>, a: Text, b: Text, sell: Fill, buy: Fill,
                           policy: Option<Policy>, marks: Marks, local: LocalView, answers: Answers)
    requires SellsFirst(states, a, b, sell, buy) && FillBefore(buy, sell)
    requires local.fills == [buy, sell] && MirrorMap(local.mirrors) == OrdersOf(states)
    ensures !NeverOversells(FillsIn(states, [a, b]), OrdersOf(states))
    ensures Project(local.fills, MirrorMap(local.mirrors)).Ok?
    ensures !Recordable(Fails(PositionPass, false), policy, marks, local, answers)
  {
    hide Project, SumBy;
    BrokerSeesOversell(states, a, b, sell, buy);
    LedgerSeesNone(states, a, b, sell, buy);
  }

  lemma BrokerSeesOversell(states: map<Text, OrderState>, a: Text, b: Text, sell: Fill, buy: Fill)
    requires SellsFirst(states, a, b, sell, buy)
    ensures !NeverOversells(FillsIn(states, [a, b]), OrdersOf(states))
  {
    var orders, s := OrdersOf(states), states[a].order.symbol;
    assert [a, b][..1] == [a] && [a][..0] == [];
    assert FillsIn(states, [a]) == [sell] by { assert [] + [sell] == [sell]; }
    var fills := FillsIn(states, [a, b]);
    assert fills == [sell] + [buy] && fills[..1] == [sell];
    SumOfOne(sell, SharesTraded(orders, s, SELL));
    SumOfOne(sell, SharesTraded(orders, s, BUY));
    assert Sold(fills[..1], orders, s) > Bought(fills[..1], orders, s);
  }

  lemma SumOfTwo<T>(x: T, y: T, weight: T -> int)
    ensures SumBy([x, y], weight) == weight(x) + weight(y)
  {
    SumOfOne(x, weight);
    SumByAppend([x], y, weight);
    assert [x] + [y] == [x, y];
  }

  lemma TwoSorted(x: Fill, y: Fill)
    requires FillBefore(x, y)
    ensures Canonical([x, y]) == [x, y]
  {
    assert [x, y][1..] == [y] && [x] + [y] == [x, y];
    OneSorted(y, FillBefore);
  }

  lemma LedgerSeesNone(states: map<Text, OrderState>, a: Text, b: Text, sell: Fill, buy: Fill)
    requires SellsFirst(states, a, b, sell, buy) && FillBefore(buy, sell)
    ensures Project([buy, sell], OrdersOf(states)).Ok?
  {
    hide Project, SumBy, FillBefore, StableSort;
    var fills, orders := [buy, sell], OrdersOf(states);
    TwoSorted(buy, sell);
    SumOfTwo(buy, sell, CashEffect(orders));
    SumOfOne(buy, CashEffect(orders));
    forall o | o in orders ensures FilledOn(fills, o) <= orders[o].quantity { SumOfTwo(buy, sell, SharesOnOrder(o)); }
    assert fills[..0] == [] && fills[..1] == [buy] && fills[..2] == fills;
    forall k, s | 0 <= k <= 2 ensures Sold(fills[..k], orders, s) <= Bought(fills[..k], orders, s) {
      NeverShort(states, a, b, sell, buy, k, s);
    }
    LedgerAcceptance(fills, orders);
  }

  lemma NeverShort(states: map<Text, OrderState>, a: Text, b: Text, sell: Fill, buy: Fill, k: nat, s: Text)
    requires SellsFirst(states, a, b, sell, buy) && k <= 2
    ensures var orders := OrdersOf(states);
            Sold([buy, sell][..k], orders, s) <= Bought([buy, sell][..k], orders, s)
  {
    var orders := OrdersOf(states);
    assert [buy, sell][..0] == [] && [buy, sell][..1] == [buy] && [buy, sell][..2] == [buy, sell];
    SumOfOne(buy, SharesTraded(orders, s, SELL));
    SumOfOne(buy, SharesTraded(orders, s, BUY));
    SumOfTwo(buy, sell, SharesTraded(orders, s, SELL));
    SumOfTwo(buy, sell, SharesTraded(orders, s, BUY));
  }
}
