// Why completing the flatten's exits empties the ledger
// (src/seven_lens/application/control_service.py:331-448, execution/ledger.py:118-182).

module FlattenLaws {
  import opened Orders
  import opened Sequences
  import opened Ledger
  import opened LedgerLaws

  /**
   * `exits` complete the exit orders `added`: canonically after every recorded fill, on
   * exit orders only, never more than one order holds, and per symbol exactly the position.
   */
  ghost predicate CompletesExits(fills: seq<Fill>, orders: map<Text, BrokerOrder>, exits: seq<Fill>,
                                 added: map<Text, BrokerOrder>)
  {
    && added.Keys !! orders.Keys
    && DistinctIds(fills + exits)
    && KnownOrders(exits, added) && TotalsFit(exits, added)
    && (forall b :: b in added ==> added[b].side == SELL)
    && (forall f, g :: f in fills && g in exits ==> FillBefore(f, g))
    && (forall s {:trigger Sold(exits, added, s)} :: Sold(exits, added, s) == Bought(fills, orders, s) - Sold(fills, orders, s))
  }

  lemma SplitTotals(fills: seq<Fill>, orders: map<Text, BrokerOrder>, exits: seq<Fill>, added: map<Text, BrokerOrder>, s: Text)
    requires KnownOrders(fills, orders) && KnownOrders(exits, added) && added.Keys !! orders.Keys
    requires forall b :: b in added ==> added[b].side == SELL
    ensures Bought(fills + exits, orders + added, s) == Bought(fills, orders, s)
    ensures Sold(fills + exits, orders + added, s) == Sold(fills, orders, s) + Sold(exits, added, s)
  {
    var all := orders + added;
    SumByConcat(fills, exits, SharesTraded(all, s, BUY));
    SumByConcat(fills, exits, SharesTraded(all, s, SELL));
    SumByCongruent(fills, SharesTraded(all, s, BUY), SharesTraded(orders, s, BUY));
    SumByCongruent(fills, SharesTraded(all, s, SELL), SharesTraded(orders, s, SELL));
    SumByCongruent(exits, SharesTraded(all, s, SELL), SharesTraded(added, s, SELL));
    NothingBought(exits, all, s);
  }

  lemma {:induction false} NothingBought(exits: seq<Fill>, all: map<Text, BrokerOrder>, s: Text)
    requires forall f :: f in exits ==> f.brokerOrderId in all && all[f.brokerOrderId].side == SELL
    ensures Bought(exits, all, s) == 0
  {
    if exits != [] { NothingBought(exits[..|exits| - 1], all, s); }
  }

  lemma SplitCash(fills: seq<Fill>, orders: map<Text, BrokerOrder>, added: map<Text, BrokerOrder>)
    requires KnownOrders(fills, orders) && added.Keys !! orders.Keys
    ensures CashOf(fills, orders + added) == CashOf(fills, orders)
  {
    SumByCongruent(fills, CashEffect(orders + added), CashEffect(orders));
  }

  lemma SplitFilledOn(fills: seq<Fill>, exits: seq<Fill>, b: Text)
    ensures FilledOn(fills + exits, b) == FilledOn(fills, b) + FilledOn(exits, b)
    ensures (forall f :: f in exits ==> f.brokerOrderId != b) ==> FilledOn(exits, b) == 0
    ensures (forall f :: f in fills ==> f.brokerOrderId != b) ==> FilledOn(fills, b) == 0
  {
    SumByConcat(fills, exits, SharesOnOrder(b));
    if forall f :: f in exits ==> f.brokerOrderId != b { NothingFilled(exits, b); }
    if forall f :: f in fills ==> f.brokerOrderId != b { NothingFilled(fills, b); }
  }

  lemma {:induction false} NothingFilled(fills: seq<Fill>, b: Text)
    requires forall f :: f in fills ==> f.brokerOrderId != b
    ensures FilledOn(fills, b) == 0
  {
    if fills != [] { NothingFilled(fills[..|fills| - 1], b); }
  }

  /** Canonical order puts the later fills after the earlier ones. */
  lemma CanonicalAppends(fills: seq<Fill>, exits: seq<Fill>)
    requires DistinctIds(fills + exits)
    requires forall f, g :: f in fills && g in exits ==> FillBefore(f, g)
    ensures Canonical(fills + exits) == Canonical(fills) + Canonical(exits)
  {
    var all, joined := fills + exits, Canonical(fills) + Canonical(exits);
    FillOrderIsTotal();
    CanonicalFacts(all);
    CanonicalFacts(fills);
    CanonicalFacts(exits);
    forall f, g | f in Canonical(all) && g in Canonical(all) && FillBefore(f, g) && FillBefore(g, f)
      ensures f == g
    {
      TextAntisymmetric(f.executionId, g.executionId);
      assert f in multiset(all) && g in multiset(all);
      var i :| 0 <= i < |all| && all[i] == f;
      var j :| 0 <= j < |all| && all[j] == g;
      assert i == j;
    }
    SortedUnique(Canonical(all), joined, FillBefore);
  }

  /** Exits only sell, so what they sold so far never exceeds what they sell in all. */
  lemma {:induction false} SoldGrows(exits: seq<Fill>, all: map<Text, BrokerOrder>, j: nat, s: Text)
    requires j <= |exits|
    ensures Sold(exits[..j], all, s) <= Sold(exits, all, s)
    decreases |exits| - j
  {
    if j == |exits| {
      assert exits[..j] == exits;
    } else {
      assert exits[..j + 1] == exits[..j] + [exits[j]];
      SumByAppend(exits[..j], exits[j], SharesTraded(all, s, SELL));
      SoldGrows(exits, all, j + 1, s);
    }
  }

  /** No prefix of the joined history oversells. */
  lemma JoinedNeverOversells(fills: seq<Fill>, orders: map<Text, BrokerOrder>, exits: seq<Fill>, added: map<Text, BrokerOrder>)
    requires KnownOrders(fills, orders) && KnownOrders(exits, added) && added.Keys !! orders.Keys
    requires forall b :: b in added ==> added[b].side == SELL
    requires NeverOversells(fills, orders)
    requires forall s {:trigger Sold(exits, added, s)} :: Sold(exits, added, s) == Bought(fills, orders, s) - Sold(fills, orders, s)
    ensures NeverOversells(fills + exits, orders + added)
  {
    var joined, all := fills + exits, orders + added;
    forall k, s | 0 <= k <= |joined|
      ensures Sold(joined[..k], all, s) <= Bought(joined[..k], all, s)
    {
      if k <= |fills| {
        assert joined[..k] == fills[..k];
        SplitTotals(fills[..k], orders, [], added, s);
        assert fills[..k] + [] == fills[..k];
        assert Sold(fills[..k], orders, s) <= Bought(fills[..k], orders, s);
      } else {
        var j := k - |fills|;
        assert joined[..k] == fills + exits[..j];
        SplitTotals(fills, orders, exits[..j], added, s);
        SoldGrows(exits, added, j, s);
      }
    }
  }

  lemma JoinedCashBounded(fills: seq<Fill>, orders: map<Text, BrokerOrder>, exits: seq<Fill>, added: map<Text, BrokerOrder>)
    requires KnownOrders(fills, orders) && KnownOrders(exits, added) && added.Keys !! orders.Keys
    requires forall b :: b in added ==> added[b].side == SELL
    requires CashBoundedAfterBuys(fills, orders)
    ensures CashBoundedAfterBuys(fills + exits, orders + added)
  {
    var joined, all := fills + exits, orders + added;
    forall k | |fills| <= k < |joined|
      ensures joined[k].brokerOrderId in all && all[joined[k].brokerOrderId].side == SELL
    {
      assert joined[k] == exits[k - |fills|];
    }
    forall k | 0 <= k < |fills| && fills[k].brokerOrderId in all && all[fills[k].brokerOrderId].side == BUY
      ensures Bounded(CashOf(joined[..k + 1], all))
    {
      assert joined[..k + 1] == fills[..k + 1];
      SplitCash(fills[..k + 1], orders, added);
    }
  }

  lemma JoinedTotalsFit(fills: seq<Fill>, orders: map<Text, BrokerOrder>, exits: seq<Fill>, added: map<Text, BrokerOrder>)
    requires KnownOrders(fills, orders) && KnownOrders(exits, added) && added.Keys !! orders.Keys
    requires TotalsFit(fills, orders) && TotalsFit(exits, added)
    ensures TotalsFit(fills + exits, orders + added)
  {
    forall b | b in orders + added
      ensures FilledOn(fills + exits, b) <= (orders + added)[b].quantity
    {
      SplitFilledOn(fills, exits, b);
    }
  }

  lemma JoinedAcceptable(fills: seq<Fill>, orders: map<Text, BrokerOrder>, exits: seq<Fill>, added: map<Text, BrokerOrder>)
    requires Acceptable(fills, orders) && CompletesExits(fills, orders, exits, added)
    ensures Acceptable(fills + exits, orders + added) <==> Bounded(CashOf(fills + exits, orders + added))
  {
    CanonicalFacts(fills);
    CanonicalFacts(exits);
    CanonicalAppends(fills, exits);
    hide Canonical, SumBy;
    JoinedTotalsFit(fills, orders, exits, added);
    forall s
      ensures Sold(Canonical(exits), added, s) == Bought(Canonical(fills), orders, s) - Sold(Canonical(fills), orders, s)
    {
      assert Sold(exits, added, s) == Bought(fills, orders, s) - Sold(fills, orders, s);
    }
    JoinedNeverOversells(Canonical(fills), orders, Canonical(exits), added);
    JoinedCashBounded(Canonical(fills), orders, Canonical(exits), added);
    assert KnownOrders(fills + exits, orders + added);
  }

  lemma JoinedHoldsNothing(fills: seq<Fill>, orders: map<Text, BrokerOrder>, exits: seq<Fill>, added: map<Text, BrokerOrder>)
    requires KnownOrders(fills, orders) && CompletesExits(fills, orders, exits, added)
    requires Project(fills + exits, orders + added).Ok?
    ensures Project(fills + exits, orders + added).value.lots == []
  {
    var joined, all := fills + exits, orders + added;
    var lots := Project(joined, all).value.lots;
    PositionsAreNetBuys(joined, all);
    forall s ensures s !in PositionsOf(lots) { SplitTotals(fills, orders, exits, added, s); }
    assert lots == [] || lots[0].symbol in PositionsOf(lots);
  }

  /**
   * Flatten empties the book: once the exits are filled, the ledger accepts the history
   * exactly when its final cash is in range, and then holds no lot.
   */
  lemma FlattenEmptiesBook(fills: seq<Fill>, orders: map<Text, BrokerOrder>, exits: seq<Fill>, added: map<Text, BrokerOrder>)
    requires Project(fills, orders).Ok? && CompletesExits(fills, orders, exits, added)
    ensures var r := Project(fills + exits, orders + added);
            && (r.Ok? <==> Bounded(CashOf(fills + exits, orders + added)))
            && (r.Ok? ==> r.value.lots == [])
  {
    var joined, all := fills + exits, orders + added;
    LedgerAcceptance(fills, orders);
    LedgerAcceptance(joined, all);
    JoinedAcceptable(fills, orders, exits, added);
    if Project(joined, all).Ok? { JoinedHoldsNothing(fills, orders, exits, added); }
  }
}
