// Broker positions against the local ledger, once every order has been refreshed
// (src/seven_lens/execution/fake_broker.py:243-274, execution/ledger.py:66-72).

module PositionLaws {
  import opened Orders
  import opened Sequences
  import opened Ledger
  import opened LedgerLaws
  import opened FakeBroker
  import opened BrokerPositions
  import opened Persistence
  import opened ExecutionState
  import opened MirrorRefresh

  function OnAny(ids: seq<Text>): Fill -> bool {
    (f: Fill) => f.brokerOrderId in ids
  }

  lemma {:induction false} OneMoreOrder(fills: seq<Fill>, ids: seq<Text>, b: Text, weight: Fill -> int)
    requires b !in ids
    ensures SumBy(Filter(fills, OnAny(ids + [b])), weight)
            == SumBy(Filter(fills, OnAny(ids)), weight) + SumBy(FillsOn(fills, b), weight)
  {
    if fills != [] {
      var rest, last := fills[..|fills| - 1], fills[|fills| - 1];
      assert fills == rest + [last];
      OneMoreOrder(rest, ids, b, weight);
      FilterSum(rest, last, OnAny(ids + [b]), weight);
      FilterSum(rest, last, OnAny(ids), weight);
      FilterSum(rest, last, OnOrder(b), weight);
      hide SumBy, Filter;
    }
  }

  lemma {:induction false} NoOrders(fills: seq<Fill>)
    ensures Filter(fills, OnAny([])) == []
  {
    if fills != [] { NoOrders(fills[..|fills| - 1]); }
  }

  /** Summed order by order, the broker's fills are the local fills on those orders. */
  lemma {:induction false} SumOrderByOrder(fills: seq<Fill>, states: map<Text, OrderState>, ids: seq<Text>, weight: Fill -> int)
    requires forall b :: b in ids ==> b in states && FillsOn(fills, b) == states[b].fills
    requires forall i, j :: 0 <= i < j < |ids| ==> ids[i] != ids[j]
    ensures SumBy(FillsIn(states, ids), weight) == SumBy(Filter(fills, OnAny(ids)), weight)
  {
    if ids == [] {
      NoOrders(fills);
    } else {
      var rest, b := ids[..|ids| - 1], ids[|ids| - 1];
      assert ids == rest + [b];
      SumOrderByOrder(fills, states, rest, weight);
      SumByConcat(FillsIn(states, rest), states[b].fills, weight);
      OneMoreOrder(fills, rest, b, weight);
    }
  }

  lemma {:induction false} AllOnSome(fills: seq<Fill>, ids: seq<Text>)
    requires forall f :: f in fills ==> f.brokerOrderId in ids
    ensures Filter(fills, OnAny(ids)) == fills
  {
    if fills != [] {
      AllOnSome(fills[..|fills| - 1], ids);
      assert fills == fills[..|fills| - 1] + [fills[|fills| - 1]];
    }
  }

  /** Every broker order is mirrored and its fills are all recorded. */
  ghost predicate AllCaughtUp(v: BrokerView, db: Db) {
    forall b {:trigger v.orders[b]} :: b in v.orders ==> b in db.mirrors && FillsOn(db.fills, b) == v.orders[b].fills
  }

  lemma SameTrades(v: BrokerView, db: Db, f: Fill, s: Text, side: OrderSide)
    requires Sound(v, db) && AllCaughtUp(v, db)
    ensures Trades(f, OrdersOf(v.orders), s, side) <==> Trades(f, db.mirrors, s, side)
  {
    var b := f.brokerOrderId;
    if b in db.mirrors { assert Past(v, db.mirrors[b]); }
  }

  lemma SideAgrees(v: BrokerView, db: Db, ids: seq<Text>, s: Text, side: OrderSide)
    requires Sound(v, db) && AllCaughtUp(v, db) && Enumerates(ids, v.orders.Keys)
    ensures SumBy(FillsIn(v.orders, ids), SharesTraded(OrdersOf(v.orders), s, side))
            == SumBy(db.fills, SharesTraded(db.mirrors, s, side))
  {
    var theirs, ours := SharesTraded(OrdersOf(v.orders), s, side), SharesTraded(db.mirrors, s, side);
    assert forall f :: f in db.fills ==> f.brokerOrderId in ids by {
      forall f | f in db.fills ensures f.brokerOrderId in ids { assert Past(v, db.mirrors[f.brokerOrderId]); }
    }
    forall b | b in ids ensures b in v.orders && FillsOn(db.fills, b) == v.orders[b].fills { assert b in v.orders; }
    SumOrderByOrder(db.fills, v.orders, ids, theirs);
    AllOnSome(db.fills, ids);
    forall f | f in db.fills ensures theirs(f) == ours(f) { SameTrades(v, db, f, s, side); }
    SumByCongruent(db.fills, theirs, ours);
  }

  /** The shares of one symbol in the position view; zero when it has no entry. */
  function HeldOf(lots: seq<OpenLot>, s: Text): int {
    if s in PositionsOf(lots) then PositionsOf(lots)[s] else 0
  }

  /**
   * Once every broker order is mirrored and caught up, the broker's own position view is the
   * local ledger's, symbol by symbol, whatever happened on the way.
   */
  lemma CaughtUpPositionsAgree(w: World, ids: seq<Text>)
    requires Good(w) && AllCaughtUp(w.broker, w.durable) && Enumerates(ids, w.broker.orders.Keys)
    requires Project(w.durable.fills, w.durable.mirrors).Ok?
    ensures forall s {:trigger Net(FillsIn(w.broker.orders, ids), OrdersOf(w.broker.orders), s)} ::
      Net(FillsIn(w.broker.orders, ids), OrdersOf(w.broker.orders), s)
      == HeldOf(Project(w.durable.fills, w.durable.mirrors).value.lots, s)
  {
    hide Sound, AllCaughtUp, Project, PositionsOf, Net, FillsIn, OrdersOf;
    assert Sound(w.broker, w.durable);
    forall s
      ensures Net(FillsIn(w.broker.orders, ids), OrdersOf(w.broker.orders), s)
              == HeldOf(Project(w.durable.fills, w.durable.mirrors).value.lots, s)
    {
      NetAgrees(w.broker, w.durable, ids, s);
      HeldIsNet(w.durable.fills, w.durable.mirrors, s);
    }
  }

  lemma HeldIsNet(fills: seq<Fill>, orders: map<Text, BrokerOrder>, s: Text)
    requires Project(fills, orders).Ok?
    ensures HeldOf(Project(fills, orders).value.lots, s) == Bought(fills, orders, s) - Sold(fills, orders, s)
  {
    PositionsAreNetBuys(fills, orders);
    FifoRefinement(fills, orders, s);
    hide Project, PositionsOf, SumBy;
  }

  lemma NetAgrees(v: BrokerView, db: Db, ids: seq<Text>, s: Text)
    requires Sound(v, db) && AllCaughtUp(v, db) && Enumerates(ids, v.orders.Keys)
    ensures Net(FillsIn(v.orders, ids), OrdersOf(v.orders), s) == Bought(db.fills, db.mirrors, s) - Sold(db.fills, db.mirrors, s)
  {
    SideAgrees(v, db, ids, s, BUY);
    SideAgrees(v, db, ids, s, SELL);
    hide Sound, AllCaughtUp;
  }
}
