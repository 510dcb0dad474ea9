// The Paper broker's position view (src/seven_lens/execution/fake_broker.py:244-280).

module BrokerPositions {
  import opened Orders
  import opened Sequences
  import opened Ledger
  import opened LedgerLaws
  import opened FakeBroker

  datatype PaperPosition = PaperPosition(symbol: Text, quantity: Shares)

  function OrdersOf(states: map<Text, OrderState>): map<Text, BrokerOrder> {
    map b | b in states :: states[b].order
  }

  /** All recorded fills, order by order. */
  function FillsIn(states: map<Text, OrderState>, ids: seq<Text>): seq<Fill>
    requires forall b :: b in ids ==> b in states
  {
    if ids == [] then [] else FillsIn(states, ids[..|ids| - 1]) + states[ids[|ids| - 1]].fills
  }

  /** The keys in text order, each once. */
  ghost predicate Enumerates(ids: seq<Text>, keys: set<Text>) {
    && (forall b :: b in ids <==> b in keys)
    && (forall i, j :: 0 <= i < j < |ids| ==> ids[i] != ids[j])
    && SortedBy(ids, TextLeq)
  }

  function Net(fills: seq<Fill>, orders: map<Text, BrokerOrder>, s: Text): int {
    Bought(fills, orders, s) - Sold(fills, orders, s)
  }

  /** The running quantities are the net of the fills seen, and never negative. */
  ghost predicate Nets(quantities: map<Text, int>, fills: seq<Fill>, orders: map<Text, BrokerOrder>) {
    forall s {:trigger Net(fills, orders, s)} :: Net(fills, orders, s) == (if s in quantities then quantities[s] else 0) >= 0
  }

  lemma NetNext(fills: seq<Fill>, f: Fill, orders: map<Text, BrokerOrder>, s: Text)
    requires f.brokerOrderId in orders
    ensures Net(fills + [f], orders, s) == Net(fills, orders, s) +
            (if orders[f.brokerOrderId].symbol != s then 0
             else if orders[f.brokerOrderId].side == BUY then f.quantity else 0 - f.quantity)
  {
    SumByAppend(fills, f, SharesTraded(orders, s, BUY));
    SumByAppend(fills, f, SharesTraded(orders, s, SELL));
  }

  lemma NeverOversellsNext(fills: seq<Fill>, f: Fill, orders: map<Text, BrokerOrder>)
    ensures NeverOversells(fills + [f], orders) <==>
            NeverOversells(fills, orders) && forall s {:trigger Net(fills + [f], orders, s)} :: Net(fills + [f], orders, s) >= 0
  {
    var more := fills + [f];
    assert more[..|more|] == more;
    assert forall k :: 0 <= k <= |fills| ==> more[..k] == fills[..k];
    if NeverOversells(more, orders) {
      forall s ensures Net(more, orders, s) >= 0 { assert Sold(more[..|more|], orders, s) <= Bought(more[..|more|], orders, s); }
      forall k, s | 0 <= k <= |fills| ensures Sold(fills[..k], orders, s) <= Bought(fills[..k], orders, s) {
        assert Sold(more[..k], orders, s) <= Bought(more[..k], orders, s);
      }
    }
    if NeverOversells(fills, orders) && forall s {:trigger Net(more, orders, s)} :: Net(more, orders, s) >= 0 {
      forall k, s | 0 <= k <= |more| ensures Sold(more[..k], orders, s) <= Bought(more[..k], orders, s) {
        assert Net(more, orders, s) >= 0;
        if k <= |fills| { assert Sold(fills[..k], orders, s) <= Bought(fills[..k], orders, s); }
      }
    }
  }

  lemma {:induction false} OversellStays(fills: seq<Fill>, more: seq<Fill>, orders: map<Text, BrokerOrder>)
    requires !NeverOversells(fills, orders)
    ensures !NeverOversells(fills + more, orders)
  {
    var k, s :| 0 <= k <= |fills| && Sold(fills[..k], orders, s) > Bought(fills[..k], orders, s);
    assert (fills + more)[..k] == fills[..k];
  }

  lemma {:induction false} FillsInRest(states: map<Text, OrderState>, ids: seq<Text>, i: nat)
    requires i <= |ids| && forall b :: b in ids ==> b in states
    ensures exists rest :: FillsIn(states, ids) == FillsIn(states, ids[..i]) + rest
    decreases |ids| - i
  {
    if i == |ids| {
      assert ids[..i] == ids;
      assert FillsIn(states, ids) == FillsIn(states, ids[..i]) + [];
    } else {
      assert ids[..i + 1][..i] == ids[..i];
      FillsInRest(states, ids, i + 1);
      var rest :| FillsIn(states, ids) == FillsIn(states, ids[..i + 1]) + rest;
      assert FillsIn(states, ids) == FillsIn(states, ids[..i]) + (states[ids[i]].fills + rest);
    }
  }

  /** One fill against the running quantities, if it can be covered. */
  function Traded(quantities: map<Text, int>, order: BrokerOrder, f: Fill): Option<map<Text, int>> {
    var held := if order.symbol in quantities then quantities[order.symbol] else 0;
    if order.side == BUY then Some(quantities[order.symbol := held + f.quantity])
    else if f.quantity > held then None
    else Some(quantities[order.symbol := held - f.quantity])
  }

  lemma TradedKeepsNets(quantities: map<Text, int>, fills: seq<Fill>, f: Fill, orders: map<Text, BrokerOrder>)
    requires Nets(quantities, fills, orders) && NeverOversells(fills, orders) && f.brokerOrderId in orders
    ensures var next := Traded(quantities, orders[f.brokerOrderId], f);
            && (next.Some? <==> NeverOversells(fills + [f], orders))
            && (next.Some? ==> Nets(next.value, fills + [f], orders))
  {
    var order := orders[f.brokerOrderId];
    forall s
      ensures Net(fills + [f], orders, s) == Net(fills, orders, s) +
              (if order.symbol != s then 0 else if order.side == BUY then f.quantity else 0 - f.quantity)
    {
      NetNext(fills, f, orders, s);
    }
    NeverOversellsNext(fills, f, orders);
    hide NeverOversells, SumBy;
    assert Net(fills, orders, order.symbol) >= 0;
    hide Net;
    assert Net(fills + [f], orders, order.symbol) >= 0 <==> order.side == BUY || f.quantity <= Net(fills, orders, order.symbol);
    var next := Traded(quantities, order, f);
    if next.Some? {
      forall s
        ensures Net(fills + [f], orders, s) == (if s in next.value then next.value[s] else 0) >= 0
      {
        assert Net(fills, orders, s) == (if s in quantities then quantities[s] else 0) >= 0;
      }
    }
  }

  /**
   * The position view: every symbol bought more than it was sold over all recorded fills, at
   * the difference; refused when some fill, in order-id order, sells what is not held.
   */
  method ListPositions(broker: FakePaperBroker, ids: seq<Text>) returns (r: Result<seq<PaperPosition>, BrokerError>)
    requires broker.Valid() && Enumerates(ids, broker.orders.Keys)
    ensures var fills := FillsIn(broker.orders, ids);
            && (r.Ok? <==> NeverOversells(fills, OrdersOf(broker.orders)))
            && (r.Ok? ==> forall p :: p in r.value <==> p.quantity == Net(fills, OrdersOf(broker.orders), p.symbol))
            && (r.Err? ==> r.error == ConflictError)
  {
    var orders := OrdersOf(broker.orders);
    var quantities: map<Text, int> := map[];
    assert Nets(quantities, [], orders);
    for i := 0 to |ids|
      invariant Nets(quantities, FillsIn(broker.orders, ids[..i]), orders)
      invariant NeverOversells(FillsIn(broker.orders, ids[..i]), orders)
    {
      assert ids[..i + 1][..i] == ids[..i];
      var st := broker.orders[ids[i]];
      assert OrderStateValid(ids[i], st);
      var next := NetOrder(st.order, st.fills, quantities, FillsIn(broker.orders, ids[..i]), orders);
      if next.None? {
        FillsInRest(broker.orders, ids, i + 1);
        var rest :| FillsIn(broker.orders, ids) == FillsIn(broker.orders, ids[..i + 1]) + rest;
        OversellStays(FillsIn(broker.orders, ids[..i + 1]), rest, orders);
        return Err(ConflictError);
      }
      quantities := next.value;
    }
    assert ids[..|ids|] == ids;
    var positions := OpenPositions(quantities);
    forall p ensures p in positions <==> p.quantity == Net(FillsIn(broker.orders, ids), orders, p.symbol) { }
    r := Ok(positions);
  }

  method NetOrder(order: BrokerOrder, fills: seq<Fill>, quantities: map<Text, int>,
                  ghost before: seq<Fill>, ghost orders: map<Text, BrokerOrder>)
    returns (next: Option<map<Text, int>>)
    requires order.brokerOrderId in orders && orders[order.brokerOrderId] == order
    requires forall f :: f in fills ==> f.brokerOrderId == order.brokerOrderId
    requires Nets(quantities, before, orders) && NeverOversells(before, orders)
    ensures next.Some? <==> NeverOversells(before + fills, orders)
    ensures next.Some? ==> Nets(next.value, before + fills, orders)
  {
    hide Nets, NeverOversells, Traded;
    var running := quantities;
    assert before + fills[..0] == before;
    for j := 0 to |fills|
      invariant Nets(running, before + fills[..j], orders) && NeverOversells(before + fills[..j], orders)
    {
      assert before + fills[..j + 1] == (before + fills[..j]) + [fills[j]];
      assert fills[j] in fills;
      TradedKeepsNets(running, before + fills[..j], fills[j], orders);
      var traded := Traded(running, order, fills[j]);
      if traded.None? {
        assert before + fills == (before + fills[..j + 1]) + fills[j + 1..];
        OversellStays(before + fills[..j + 1], fills[j + 1..], orders);
        return None;
      }
      running := traded.value;
    }
    assert fills[..|fills|] == fills;
    next := Some(running);
  }

  method OpenPositions(quantities: map<Text, int>) returns (positions: seq<PaperPosition>)
    ensures forall p :: p in positions <==> p.symbol in quantities && p.quantity == quantities[p.symbol]
  {
    positions := [];
    var symbols := quantities.Keys;
    while symbols != {}
      invariant symbols <= quantities.Keys
      invariant forall p :: p in positions <==> p.symbol in quantities && p.symbol !in symbols && p.quantity == quantities[p.symbol]
    {
      var s :| s in symbols;
      if quantities[s] >= 1 { positions := positions + [PaperPosition(s, quantities[s])]; }
      symbols := symbols - {s};
    }
  }
}
