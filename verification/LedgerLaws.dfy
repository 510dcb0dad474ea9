// What the ledger promises: when it accepts, what its lots are, that arrival order does
// not matter, and what its value means.

module LedgerLaws {
  import opened Orders
  import opened Sequences
  import opened Ledger

  // ---------------------------------------------------------------- the two sort keys

  lemma FillOrderIsTotal()
    ensures TotalPreorder(FillBefore)
  {
    forall a: Fill, b: Fill
      ensures FillBefore(a, b) || FillBefore(b, a)
    {
      TextTotal(a.executionId, b.executionId);
    }
    forall a: Fill, b: Fill, c: Fill | FillBefore(a, b) && FillBefore(b, c)
      ensures FillBefore(a, c)
    {
      if a.occurredAt == b.occurredAt == c.occurredAt {
        TextTransitive(a.executionId, b.executionId, c.executionId);
      }
    }
  }

  lemma LotOrderIsTotal()
    ensures TotalPreorder(LotBefore)
  {
    forall a: OpenLot, b: OpenLot
      ensures LotBefore(a, b) || LotBefore(b, a)
    {
      TextTotal(a.symbol, b.symbol);
    }
    forall a: OpenLot, b: OpenLot, c: OpenLot | LotBefore(a, b) && LotBefore(b, c)
      ensures LotBefore(a, c)
    {
      if a.symbol != b.symbol && b.symbol != c.symbol {
        TextTransitive(a.symbol, b.symbol, c.symbol);
        if a.symbol == c.symbol { TextAntisymmetric(a.symbol, b.symbol); }
      }
    }
  }

  lemma CanonicalFacts(fills: seq<Fill>)
    ensures multiset(Canonical(fills)) == multiset(fills)
    ensures SortedBy(Canonical(fills), FillBefore)
    ensures forall f :: f in Canonical(fills) <==> f in fills
    ensures forall weight: Fill -> int :: SumBy(Canonical(fills), weight) == SumBy(fills, weight)
  {
    FillOrderIsTotal();
    StableSortPermutes(fills, FillBefore);
    StableSortSorts(fills, FillBefore);
    forall weight: Fill -> int { SumByPermutation(Canonical(fills), fills, weight); }
  }

  // ---------------------------------------------------------------- shares, one by one

  datatype Share = Share(price: Cents, openedAt: Time)

  function Spread(price: Cents, openedAt: Time, n: nat): seq<Share> {
    seq(n, _ => Share(price, openedAt))
  }

  /** The shares of one symbol in the lots, oldest first. */
  function SharesOf(lots: seq<OpenLot>, symbol: Text): seq<Share> {
    if lots == [] then []
    else LotOf(lots[0], symbol) + SharesOf(lots[1..], symbol)
  }

  function LotOf(lot: OpenLot, symbol: Text): seq<Share> {
    if lot.symbol == symbol then Spread(lot.price, lot.openedAt, lot.quantity) else []
  }

  /** Every share of one symbol ever bought, in replay order. */
  function BoughtShares(fills: seq<Fill>, orders: map<Text, BrokerOrder>, symbol: Text): seq<Share> {
    if fills == [] then []
    else
      var f := fills[|fills| - 1];
      BoughtShares(fills[..|fills| - 1], orders, symbol)
      + (if Trades(f, orders, symbol, BUY) then Spread(f.price, f.occurredAt, f.quantity) else [])
  }

  lemma {:induction false} SharesOfConcat(xs: seq<OpenLot>, ys: seq<OpenLot>, symbol: Text)
    ensures SharesOf(xs + ys, symbol) == SharesOf(xs, symbol) + SharesOf(ys, symbol)
  {
    if xs == [] {
      assert xs + ys == ys;
    } else {
      assert (xs + ys)[0] == xs[0] && (xs + ys)[1..] == xs[1..] + ys;
      SharesOfConcat(xs[1..], ys, symbol);
    }
  }

  lemma SharesOfOne(lot: OpenLot, symbol: Text)
    ensures SharesOf([lot], symbol) == LotOf(lot, symbol)
  {
    assert [lot][1..] == [];
    assert SharesOf([], symbol) == [];
  }

  lemma {:induction false} SharesOfLength(lots: seq<OpenLot>, symbol: Text)
    ensures |SharesOf(lots, symbol)| == Held(lots, symbol)
  {
    if lots != [] {
      SharesOfLength(lots[1..], symbol);
      SumByCons(lots[0], lots[1..], LotShares(symbol));
      assert lots == [lots[0]] + lots[1..];
    }
  }

  lemma {:induction false} BoughtSharesLength(fills: seq<Fill>, orders: map<Text, BrokerOrder>, symbol: Text)
    ensures |BoughtShares(fills, orders, symbol)| == Bought(fills, orders, symbol)
  {
    if fills != [] { BoughtSharesLength(fills[..|fills| - 1], orders, symbol); }
  }

  lemma CutLot(lot: OpenLot, cut: OpenLot, symbol: Text, wanted: nat)
    requires wanted < lot.quantity && cut == lot.(quantity := lot.quantity - wanted) && lot.symbol == symbol
    ensures LotOf(cut, symbol) == LotOf(lot, symbol)[wanted..]
    ensures |LotOf(lot, symbol)| == lot.quantity
  {
  }

  lemma SharesOfCons(lot: OpenLot, rest: seq<OpenLot>, symbol: Text)
    ensures SharesOf([lot] + rest, symbol) == LotOf(lot, symbol) + SharesOf(rest, symbol)
  {
    assert ([lot] + rest)[1..] == rest;
  }

  lemma DropWithin<T>(a: seq<T>, b: seq<T>, n: nat)
    ensures n <= |a| ==> (a + b)[n..] == a[n..] + b
    ensures |a| <= n <= |a| + |b| ==> (a + b)[n..] == b[n - |a|..]
  {
  }

  /** What `Consume` leaves of one symbol, and what it could not find. */
  ghost predicate DropsOldest(lots: seq<OpenLot>, symbol: Text, wanted: nat, left: seq<OpenLot>, missing: nat) {
    var held := SharesOf(lots, symbol);
    && missing == (if wanted <= |held| then 0 else wanted - |held|)
    && SharesOf(left, symbol) == held[wanted - missing..]
  }

  /** A sell removes exactly the oldest shares of its symbol and leaves every other symbol alone. */
  lemma {:induction false} ConsumeDropsOldest(lots: seq<OpenLot>, symbol: Text, wanted: nat, other: Text)
    ensures var (left, missing) := Consume(lots, symbol, wanted);
            var held := SharesOf(lots, symbol);
            && missing == (if wanted <= |held| then 0 else wanted - |held|)
            && SharesOf(left, symbol) == held[wanted - missing..]
            && (other != symbol ==> SharesOf(left, other) == SharesOf(lots, other))
  {
    ConsumeDrops(lots, symbol, wanted);
    ConsumeSpares(lots, symbol, wanted, other);
    hide SharesOf, Consume;
  }

  lemma {:induction false} ConsumeDrops(lots: seq<OpenLot>, symbol: Text, wanted: nat)
    ensures var (left, missing) := Consume(lots, symbol, wanted);
            DropsOldest(lots, symbol, wanted, left, missing)
  {
    hide LotOf;
    if lots != [] {
      var first, rest := lots[0], lots[1..];
      assert lots == [first] + rest;
      SharesOfCons(first, rest, symbol);
      if wanted == 0 || first.symbol != symbol {
        ConsumeDrops(rest, symbol, wanted);
        LeadingLotStays(first, rest, symbol, wanted);
      } else if first.quantity <= wanted {
        ConsumeDrops(rest, symbol, wanted - first.quantity);
        LeadingLotGoes(first, rest, symbol, wanted);
      } else {
        LeadingLotIsCut(first, rest, symbol, wanted);
      }
    }
  }

  lemma LeadingLotStays(first: OpenLot, rest: seq<OpenLot>, symbol: Text, wanted: nat)
    requires wanted == 0 || first.symbol != symbol
    requires var (left, missing) := Consume(rest, symbol, wanted); DropsOldest(rest, symbol, wanted, left, missing)
    ensures var (left, missing) := Consume(rest, symbol, wanted);
            DropsOldest([first] + rest, symbol, wanted, [first] + left, missing)
  {
    var (left, missing) := Consume(rest, symbol, wanted);
    SharesOfCons(first, rest, symbol);
    SharesOfCons(first, left, symbol);
    assert first.symbol != symbol ==> LotOf(first, symbol) == [];
    hide Consume, SharesOf, LotOf;
  }

  lemma LeadingLotGoes(first: OpenLot, rest: seq<OpenLot>, symbol: Text, wanted: nat)
    requires first.symbol == symbol && first.quantity <= wanted
    requires var (left, missing) := Consume(rest, symbol, wanted - first.quantity);
             DropsOldest(rest, symbol, wanted - first.quantity, left, missing)
    ensures var (left, missing) := Consume(rest, symbol, wanted - first.quantity);
            DropsOldest([first] + rest, symbol, wanted, left, missing)
  {
    var (left, missing) := Consume(rest, symbol, wanted - first.quantity);
    SharesOfCons(first, rest, symbol);
    assert |LotOf(first, symbol)| == first.quantity;
    hide Consume, SharesOf, LotOf;
    DropWithin(LotOf(first, symbol), SharesOf(rest, symbol), wanted - missing);
  }

  lemma LeadingLotIsCut(first: OpenLot, rest: seq<OpenLot>, symbol: Text, wanted: nat)
    requires first.symbol == symbol && wanted < first.quantity
    ensures DropsOldest([first] + rest, symbol, wanted,
                        [first.(quantity := first.quantity - wanted)] + rest, 0)
  {
    var cut := first.(quantity := first.quantity - wanted);
    CutLot(first, cut, symbol, wanted);
    SharesOfCons(first, rest, symbol);
    SharesOfCons(cut, rest, symbol);
    hide SharesOf, LotOf;
    DropWithin(LotOf(first, symbol), SharesOf(rest, symbol), wanted);
  }

  lemma {:induction false} ConsumeSpares(lots: seq<OpenLot>, symbol: Text, wanted: nat, other: Text)
    ensures other != symbol ==> SharesOf(Consume(lots, symbol, wanted).0, other) == SharesOf(lots, other)
  {
    if lots != [] && other != symbol {
      var first, rest := lots[0], lots[1..];
      assert lots == [first] + rest;
      SharesOfCons(first, rest, other);
      if wanted == 0 || first.symbol != symbol {
        ConsumeSpares(rest, symbol, wanted, other);
        SharesOfCons(first, Consume(rest, symbol, wanted).0, other);
      } else if first.quantity <= wanted {
        ConsumeSpares(rest, symbol, wanted - first.quantity, other);
      } else {
        SharesOfCons(first.(quantity := first.quantity - wanted), rest, other);
      }
    }
  }

  // ---------------------------------------------------------------- FIFO

  ghost predicate FifoBook(book: Book, fills: seq<Fill>, orders: map<Text, BrokerOrder>) {
    && book.cash == CashOf(fills, orders)
    && (forall s {:trigger Sold(fills, orders, s)} :: 0 <= Sold(fills, orders, s) <= |BoughtShares(fills, orders, s)|)
    && (forall s {:trigger SharesOf(book.lots, s)} ::
          SharesOf(book.lots, s) == BoughtShares(fills, orders, s)[Sold(fills, orders, s)..])
  }

  lemma {:induction false} SoldNonNegative(fills: seq<Fill>, orders: map<Text, BrokerOrder>, s: Text)
    ensures 0 <= Sold(fills, orders, s)
    ensures 0 <= Bought(fills, orders, s)
  {
    SumByNonNegative(fills, SharesTraded(orders, s, SELL));
    SumByNonNegative(fills, SharesTraded(orders, s, BUY));
  }

  lemma TradedExtends(fills: seq<Fill>, f: Fill, orders: map<Text, BrokerOrder>, s: Text)
    ensures Sold(fills + [f], orders, s) == Sold(fills, orders, s) + SharesTraded(orders, s, SELL)(f)
    ensures Bought(fills + [f], orders, s) == Bought(fills, orders, s) + SharesTraded(orders, s, BUY)(f)
    ensures BoughtShares(fills + [f], orders, s) ==
            BoughtShares(fills, orders, s)
            + (if Trades(f, orders, s, BUY) then Spread(f.price, f.occurredAt, f.quantity) else [])
  {
    SumByAppend(fills, f, SharesTraded(orders, s, SELL));
    SumByAppend(fills, f, SharesTraded(orders, s, BUY));
    assert (fills + [f])[..|fills|] == fills;
  }

  /** On a FIFO book a sell finds its shares exactly when it does not oversell its symbol. */
  lemma SellFindsShares(book: Book, before: seq<Fill>, f: Fill, orders: map<Text, BrokerOrder>, s: Text)
    requires FifoBook(book, before, orders)
    requires Trades(f, orders, s, SELL)
    ensures Consume(book.lots, s, f.quantity).1 == 0
            <==> Sold(before + [f], orders, s) <= Bought(before + [f], orders, s)
  {
    ConsumeDropsOldest(book.lots, s, f.quantity, s);
    BoughtSharesLength(before, orders, s);
    assert 0 <= Sold(before, orders, s) <= |BoughtShares(before, orders, s)|;
    assert |SharesOf(book.lots, s)| == Bought(before, orders, s) - Sold(before, orders, s);
    TradedExtends(before, f, orders, s);
  }

  /** A fill elsewhere never turns a symbol that is not oversold into one that is. */
  lemma OthersStayCovered(before: seq<Fill>, f: Fill, orders: map<Text, BrokerOrder>)
    requires f.brokerOrderId in orders
    requires forall s :: Sold(before, orders, s) <= Bought(before, orders, s)
    ensures var own := orders[f.brokerOrderId].symbol;
            && (forall s :: s != own ==> Sold(before + [f], orders, s) <= Bought(before + [f], orders, s))
            && (orders[f.brokerOrderId].side == BUY ==>
                  Sold(before + [f], orders, own) <= Bought(before + [f], orders, own))
  {
    forall s
      ensures Sold(before + [f], orders, s) == Sold(before, orders, s) + SharesTraded(orders, s, SELL)(f)
      ensures Bought(before + [f], orders, s) == Bought(before, orders, s) + SharesTraded(orders, s, BUY)(f)
    {
      TradedExtends(before, f, orders, s);
    }
  }

  lemma BookedKeepsFifo(book: Book, before: seq<Fill>, f: Fill, orders: map<Text, BrokerOrder>)
    requires FifoBook(book, before, orders)
    requires f.brokerOrderId in orders
    requires Booked(book, f, orders[f.brokerOrderId]).Ok?
    ensures FifoBook(Booked(book, f, orders[f.brokerOrderId]).value, before + [f], orders)
  {
    hide Sold, BoughtShares, SharesOf, Consume, Spread;
    var next := Booked(book, f, orders[f.brokerOrderId]).value;
    SumByAppend(before, f, CashEffect(orders));
    forall s
      ensures 0 <= Sold(before + [f], orders, s) <= |BoughtShares(before + [f], orders, s)|
      ensures SharesOf(next.lots, s) == BoughtShares(before + [f], orders, s)[Sold(before + [f], orders, s)..]
    {
      BookedKeepsShares(book, before, f, orders, s);
    }
  }

  lemma BookedKeepsShares(book: Book, before: seq<Fill>, f: Fill, orders: map<Text, BrokerOrder>, s: Text)
    requires FifoBook(book, before, orders)
    requires f.brokerOrderId in orders
    requires Booked(book, f, orders[f.brokerOrderId]).Ok?
    ensures 0 <= Sold(before + [f], orders, s) <= |BoughtShares(before + [f], orders, s)|
    ensures SharesOf(Booked(book, f, orders[f.brokerOrderId]).value.lots, s)
            == BoughtShares(before + [f], orders, s)[Sold(before + [f], orders, s)..]
  {
    hide Sold, BoughtShares, SharesOf, Consume, Spread;
    var order := orders[f.brokerOrderId];
    TradedExtends(before, f, orders, s);
    SoldNonNegative(before, orders, s);
    var bought, sold := BoughtShares(before, orders, s), Sold(before, orders, s);
    assert 0 <= sold <= |bought| && SharesOf(book.lots, s) == bought[sold..];
    if order.side == BUY {
      SharesOfConcat(book.lots, [Opened(f, order)], s);
      SharesOfOne(Opened(f, order), s);
      DropWithin(bought, LotOf(Opened(f, order), s), sold);
    } else {
      ConsumeDropsOldest(book.lots, order.symbol, f.quantity, s);
      if s == order.symbol { assert bought[sold..][f.quantity..] == bought[sold + f.quantity..]; }
    }
  }

  /** Every accepted replay keeps the FIFO reading of its lots. */
  lemma {:induction false} ReplayIsFifo(fills: seq<Fill>, orders: map<Text, BrokerOrder>)
    requires Replay(fills, orders).Ok?
    ensures FifoBook(Replay(fills, orders).value, fills, orders)
  {
    if fills == [] {
      forall s ensures Sold(fills, orders, s) == 0 && BoughtShares(fills, orders, s) == [] {}
    } else {
      var before := fills[..|fills| - 1];
      var f := fills[|fills| - 1];
      assert fills == before + [f];
      ReplayIsFifo(before, orders);
      BookedKeepsFifo(Replay(before, orders).value, before, f, orders);
    }
  }

  // ---------------------------------------------------------------- lots stay chronological

  ghost predicate Chronological(lots: seq<OpenLot>) {
    forall i, j :: 0 <= i < j < |lots| ==> lots[i].openedAt <= lots[j].openedAt
  }

  lemma {:induction false} ConsumeKeepsTimes(lots: seq<OpenLot>, symbol: Text, wanted: nat)
    requires Chronological(lots)
    ensures Chronological(Consume(lots, symbol, wanted).0)
    ensures forall lot :: lot in Consume(lots, symbol, wanted).0 ==>
              exists l :: l in lots && l.openedAt == lot.openedAt
  {
    if lots != [] {
      var tail := lots[1..];
      assert Chronological(tail);
      assert forall l :: l in tail ==> l in lots && lots[0].openedAt <= l.openedAt;
      assert lots[0] in lots;
      if wanted == 0 || lots[0].symbol != symbol {
        ConsumeKeepsTimes(tail, symbol, wanted);
        ChronologicalCons(lots[0], Consume(tail, symbol, wanted).0);
      } else if lots[0].quantity <= wanted {
        ConsumeKeepsTimes(tail, symbol, wanted - lots[0].quantity);
      } else {
        ChronologicalCons(lots[0].(quantity := lots[0].quantity - wanted), tail);
      }
    }
  }

  lemma ChronologicalCons(head: OpenLot, tail: seq<OpenLot>)
    requires Chronological(tail) && forall l :: l in tail ==> head.openedAt <= l.openedAt
    ensures Chronological([head] + tail)
  {
  }

  lemma {:induction false} ReplayIsChronological(fills: seq<Fill>, orders: map<Text, BrokerOrder>)
    requires SortedBy(fills, FillBefore)
    requires Replay(fills, orders).Ok?
    ensures var lots := Replay(fills, orders).value.lots;
            && Chronological(lots)
            && forall lot, f :: lot in lots && f in fills && fills != [] ==>
                 lot.openedAt <= fills[|fills| - 1].occurredAt
  {
    if fills != [] {
      var last := |fills| - 1;
      var before := fills[..last];
      var f := fills[last];
      ReplayIsChronological(before, orders);
      var book := Replay(before, orders).value;
      assert forall lot :: lot in book.lots ==> lot.openedAt <= f.occurredAt by {
        if before == [] {
          assert book.lots == [];
        } else {
          assert FillBefore(fills[last - 1], fills[last]);
          assert before[last - 1] in before;
        }
      }
      var order := orders[f.brokerOrderId];
      if order.side == SELL { ConsumeKeepsTimes(book.lots, order.symbol, f.quantity); }
    }
  }

  function IsSymbol(symbol: Text): OpenLot -> bool {
    (lot: OpenLot) => lot.symbol == symbol
  }

  lemma {:induction false} SharesOfFiltered(lots: seq<OpenLot>, symbol: Text)
    ensures SharesOf(lots, symbol) == SharesOf(Filter(lots, IsSymbol(symbol)), symbol)
  {
    if lots != [] {
      SharesOfFiltered(lots[1..], symbol);
      FilterCons(lots[0], lots[1..], IsSymbol(symbol));
      assert lots == [lots[0]] + lots[1..];
      var rest := Filter(lots[1..], IsSymbol(symbol));
      if lots[0].symbol == symbol {
        assert Filter(lots, IsSymbol(symbol)) == [lots[0]] + rest;
        assert ([lots[0]] + rest)[1..] == rest;
      } else {
        assert Filter(lots, IsSymbol(symbol)) == rest;
        assert SharesOf(lots, symbol) == SharesOf(lots[1..], symbol);
      }
    }
  }

  /** The final sort keeps each symbol's shares in the order they were bought. */
  lemma SortKeepsShares(lots: seq<OpenLot>, symbol: Text)
    requires Chronological(lots)
    ensures SharesOf(StableSort(lots, LotBefore), symbol) == SharesOf(lots, symbol)
  {
    StableSortKeepsOrder(lots, LotBefore, IsSymbol(symbol));
    SharesOfFiltered(lots, symbol);
    SharesOfFiltered(StableSort(lots, LotBefore), symbol);
  }

  /**
   * FIFO refinement: share by share, the open lots of a symbol are all its buys in
   * canonical order with the first sold shares dropped.
   */
  lemma FifoRefinement(fills: seq<Fill>, orders: map<Text, BrokerOrder>, symbol: Text)
    requires Project(fills, orders).Ok?
    ensures var p := Project(fills, orders).value;
            && 0 <= Sold(fills, orders, symbol) <= Bought(fills, orders, symbol)
            && |BoughtShares(Canonical(fills), orders, symbol)| == Bought(fills, orders, symbol)
            && SharesOf(p.lots, symbol) ==
               BoughtShares(Canonical(fills), orders, symbol)[Sold(fills, orders, symbol)..]
            && SortedBy(p.lots, LotBefore)
            && p.cashDeltaCents == CashOf(fills, orders)
  {
    CanonicalFacts(fills);
    var cs := Canonical(fills);
    ReplayIsFifo(cs, orders);
    ReplayIsChronological(cs, orders);
    LotOrderIsTotal();
    StableSortSorts(Replay(cs, orders).value.lots, LotBefore);
    SortKeepsShares(Replay(cs, orders).value.lots, symbol);
    BoughtSharesLength(cs, orders, symbol);
    assert 0 <= Sold(cs, orders, symbol);
  }

  /** The position view holds exactly the symbols bought more than sold, at the difference. */
  lemma PositionsAreNetBuys(fills: seq<Fill>, orders: map<Text, BrokerOrder>)
    requires Project(fills, orders).Ok?
    ensures var held := PositionsOf(Project(fills, orders).value.lots);
            && (forall s :: s in held <==> Sold(fills, orders, s) < Bought(fills, orders, s))
            && (forall s :: s in held ==> held[s] == Bought(fills, orders, s) - Sold(fills, orders, s))
  {
    var lots := Project(fills, orders).value.lots;
    forall s
      ensures s in PositionsOf(lots) <==> Sold(fills, orders, s) < Bought(fills, orders, s)
      ensures s in PositionsOf(lots) ==> PositionsOf(lots)[s] == Bought(fills, orders, s) - Sold(fills, orders, s)
    {
      FifoRefinement(fills, orders, s);
      SharesOfLength(lots, s);
      HeldIsZeroWithoutLots(lots, s);
    }
  }

  // ---------------------------------------------------------------- acceptance

  predicate KnownOrders(fills: seq<Fill>, orders: map<Text, BrokerOrder>) {
    forall f :: f in fills ==> f.brokerOrderId in orders
  }

  predicate TotalsFit(fills: seq<Fill>, orders: map<Text, BrokerOrder>) {
    forall b :: b in orders ==> FilledOn(fills, b) <= orders[b].quantity
  }

  ghost predicate NeverOversells(fills: seq<Fill>, orders: map<Text, BrokerOrder>) {
    forall k, s {:trigger Sold(fills[..k], orders, s)} ::
      0 <= k <= |fills| ==> Sold(fills[..k], orders, s) <= Bought(fills[..k], orders, s)
  }

  ghost predicate CashBoundedAfterBuys(fills: seq<Fill>, orders: map<Text, BrokerOrder>) {
    forall k {:trigger fills[k]} ::
      0 <= k < |fills| && fills[k].brokerOrderId in orders && orders[fills[k].brokerOrderId].side == BUY ==>
        Bounded(CashOf(fills[..k + 1], orders))
  }

  /** The facts about a fill set that decide whether the ledger accepts it. */
  ghost predicate Acceptable(fills: seq<Fill>, orders: map<Text, BrokerOrder>) {
    && DistinctIds(fills)
    && KnownOrders(fills, orders)
    && TotalsFit(fills, orders)
    && NeverOversells(Canonical(fills), orders)
    && CashBoundedAfterBuys(Canonical(fills), orders)
    && Bounded(CashOf(fills, orders))
  }

  ghost predicate ReplayAcceptable(fills: seq<Fill>, orders: map<Text, BrokerOrder>) {
    && DistinctIds(fills)
    && KnownOrders(fills, orders)
    && TotalsFit(fills, orders)
    && NeverOversells(fills, orders)
    && CashBoundedAfterBuys(fills, orders)
  }

  /** One more fill is acceptable exactly when the part before is and the fill itself passes each check. */
  ghost predicate FillAcceptable(before: seq<Fill>, f: Fill, orders: map<Text, BrokerOrder>) {
    && f.executionId !in Ids(before)
    && f.brokerOrderId in orders
    && FilledOn(before, f.brokerOrderId) + f.quantity <= orders[f.brokerOrderId].quantity
    && (forall s :: Sold(before + [f], orders, s) <= Bought(before + [f], orders, s))
    && (orders[f.brokerOrderId].side == BUY ==> Bounded(CashOf(before + [f], orders)))
  }

  lemma PrefixSplit(before: seq<Fill>, f: Fill)
    ensures forall k :: 0 <= k <= |before| ==> (before + [f])[..k] == before[..k]
    ensures (before + [f])[..|before| + 1] == before + [f]
  {
  }

  lemma DistinctIdsSplit(before: seq<Fill>, f: Fill)
    ensures DistinctIds(before + [f]) <==> DistinctIds(before) && f.executionId !in Ids(before)
  {
    var all := before + [f];
    if DistinctIds(all) {
      forall i, j | 0 <= i < j < |before|
        ensures before[i].executionId != before[j].executionId
      {
        assert all[i] == before[i] && all[j] == before[j];
      }
      forall g | g in before
        ensures g.executionId != f.executionId
      {
        var i :| 0 <= i < |before| && before[i] == g;
        assert all[i] == g && all[|before|] == f;
      }
    }
    if DistinctIds(before) && f.executionId !in Ids(before) {
      forall i, j | 0 <= i < j < |all|
        ensures all[i].executionId != all[j].executionId
      {
        assert all[i] == before[i] && before[i] in before;
        assert before[i].executionId in Ids(before);
      }
    }
  }

  lemma TotalsSplit(before: seq<Fill>, f: Fill, orders: map<Text, BrokerOrder>)
    requires f.brokerOrderId in orders
    ensures TotalsFit(before + [f], orders) <==>
            TotalsFit(before, orders)
            && FilledOn(before, f.brokerOrderId) + f.quantity <= orders[f.brokerOrderId].quantity
  {
    forall b { SumByAppend(before, f, SharesOnOrder(b)); }
    assert SharesOnOrder(f.brokerOrderId)(f) == f.quantity;
    if TotalsFit(before + [f], orders) {
      forall b | b in orders
        ensures FilledOn(before, b) <= orders[b].quantity
      {
        assert FilledOn(before + [f], b) <= orders[b].quantity;
      }
    }
  }

  lemma PrefixChecksSplit(before: seq<Fill>, f: Fill, orders: map<Text, BrokerOrder>)
    requires f.brokerOrderId in orders
    ensures NeverOversells(before + [f], orders) <==>
            NeverOversells(before, orders)
            && forall s :: Sold(before + [f], orders, s) <= Bought(before + [f], orders, s)
    ensures CashBoundedAfterBuys(before + [f], orders) <==>
            CashBoundedAfterBuys(before, orders)
            && (orders[f.brokerOrderId].side == BUY ==> Bounded(CashOf(before + [f], orders)))
  {
    var all := before + [f];
    PrefixSplit(before, f);
    if NeverOversells(all, orders) {
      forall k, s | 0 <= k <= |before|
        ensures Sold(before[..k], orders, s) <= Bought(before[..k], orders, s)
      {
        assert Sold(all[..k], orders, s) <= Bought(all[..k], orders, s);
      }
      forall s
        ensures Sold(all, orders, s) <= Bought(all, orders, s)
      {
        assert Sold(all[..|all|], orders, s) <= Bought(all[..|all|], orders, s);
      }
    }
    if CashBoundedAfterBuys(all, orders) {
      forall k | 0 <= k < |before| && before[k].brokerOrderId in orders && orders[before[k].brokerOrderId].side == BUY
        ensures Bounded(CashOf(before[..k + 1], orders))
      {
        assert all[k] == before[k];
      }
      assert all[|before|] == f;
    }
  }

  lemma ReplayAcceptableSplit(before: seq<Fill>, f: Fill, orders: map<Text, BrokerOrder>)
    ensures ReplayAcceptable(before + [f], orders) <==>
            ReplayAcceptable(before, orders) && FillAcceptable(before, f, orders)
  {
    assert KnownOrders(before + [f], orders) <==> KnownOrders(before, orders) && f.brokerOrderId in orders by {
      assert f in before + [f];
      assert forall g :: g in before ==> g in before + [f];
    }
    if f.brokerOrderId in orders {
      DistinctIdsSplit(before, f);
      TotalsSplit(before, f, orders);
      PrefixChecksSplit(before, f, orders);
    }
  }

  lemma ReplayFillAccepts(book: Book, before: seq<Fill>, f: Fill, orders: map<Text, BrokerOrder>)
    requires FifoBook(book, before, orders)
    requires forall s :: Sold(before, orders, s) <= Bought(before, orders, s)
    ensures ReplayFill(book, before, f, orders).Ok? <==> FillAcceptable(before, f, orders)
  {
    if f.brokerOrderId in orders {
      var order := orders[f.brokerOrderId];
      SumByAppend(before, f, CashEffect(orders));
      OthersStayCovered(before, f, orders);
      if order.side == SELL {
        SellFindsShares(book, before, f, orders, order.symbol);
      }
    }
  }

  lemma NothingIsAcceptable(orders: map<Text, BrokerOrder>)
    ensures ReplayAcceptable([], orders)
  {
    var none: seq<Fill> := [];
    forall s ensures Sold([], orders, s) == 0 && Bought([], orders, s) == 0 {}
    assert forall k :: 0 <= k <= |none| ==> none[..k] == [];
  }

  lemma AcceptableCovers(fills: seq<Fill>, orders: map<Text, BrokerOrder>)
    requires ReplayAcceptable(fills, orders)
    ensures NeverOversells(fills, orders)
  {
  }

  lemma {:induction false} ReplayAccepts(fills: seq<Fill>, orders: map<Text, BrokerOrder>)
    ensures Replay(fills, orders).Ok? <==> ReplayAcceptable(fills, orders)
  {
    hide ReplayAcceptable, FillAcceptable, ReplayFill, FifoBook, NeverOversells;
    if fills == [] {
      NothingIsAcceptable(orders);
    } else {
      var before := fills[..|fills| - 1];
      var f := fills[|fills| - 1];
      assert fills == before + [f];
      ReplayAccepts(before, orders);
      ReplayAcceptableSplit(before, f, orders);
      if ReplayAcceptable(before, orders) {
        AcceptableCovers(before, orders);
        NowCovered(before, orders);
        ReplayIsFifo(before, orders);
        ReplayFillAccepts(Replay(before, orders).value, before, f, orders);
      }
    }
  }

  lemma NowCovered(fills: seq<Fill>, orders: map<Text, BrokerOrder>)
    requires NeverOversells(fills, orders)
    ensures forall s :: Sold(fills, orders, s) <= Bought(fills, orders, s)
  {
    assert fills[..|fills|] == fills;
    forall s
      ensures Sold(fills, orders, s) <= Bought(fills, orders, s)
    {
      assert Sold(fills[..|fills|], orders, s) <= Bought(fills[..|fills|], orders, s);
    }
  }

  function WithId(id: Text): Fill -> int {
    (f: Fill) => if f.executionId == id then 1 else 0
  }

  lemma {:induction false} IdCountsDecide(fills: seq<Fill>)
    ensures DistinctIds(fills) <==> forall id :: SumBy(fills, WithId(id)) <= 1
    ensures forall id :: 0 <= SumBy(fills, WithId(id))
    ensures forall id :: SumBy(fills, WithId(id)) == 0 <==> id !in Ids(fills)
  {
    if fills != [] {
      var before := fills[..|fills| - 1];
      var f := fills[|fills| - 1];
      assert fills == before + [f];
      IdCountsDecide(before);
      DistinctIdsSplit(before, f);
      IdsExtend(before, f);
      forall id
        ensures SumBy(fills, WithId(id)) == SumBy(before, WithId(id)) + (if f.executionId == id then 1 else 0)
      {
        SumByAppend(before, f, WithId(id));
      }
      if DistinctIds(fills) {
        forall id ensures SumBy(fills, WithId(id)) <= 1 {
          assert SumBy(before, WithId(id)) <= 1;
        }
      } else if DistinctIds(before) {
        assert SumBy(before, WithId(f.executionId)) != 0;
        assert SumBy(fills, WithId(f.executionId)) >= 2;
      } else {
        var id :| SumBy(before, WithId(id)) > 1;
        assert SumBy(fills, WithId(id)) > 1;
      }
    }
  }

  lemma DistinctIdsPermutes(xs: seq<Fill>, ys: seq<Fill>)
    requires multiset(xs) == multiset(ys)
    ensures DistinctIds(xs) <==> DistinctIds(ys)
  {
    IdCountsDecide(xs);
    IdCountsDecide(ys);
    forall id { SumByPermutation(xs, ys, WithId(id)); }
  }

  /** The ledger accepts a fill set exactly when every listed fact holds of it. */
  lemma LedgerAcceptance(fills: seq<Fill>, orders: map<Text, BrokerOrder>)
    ensures Project(fills, orders).Ok? <==> Acceptable(fills, orders)
  {
    CanonicalFacts(fills);
    var cs := Canonical(fills);
    ReplayAccepts(cs, orders);
    DistinctIdsPermutes(fills, cs);
    assert KnownOrders(fills, orders) <==> KnownOrders(cs, orders);
    assert forall b :: FilledOn(fills, b) == FilledOn(cs, b);
    assert CashOf(fills, orders) == CashOf(cs, orders);
    if Replay(cs, orders).Ok? { ReplayIsFifo(cs, orders); }
  }

  /**
   * Arrival order is irrelevant: with distinct ids two arrangements project to the very
   * same result, errors included; with a repeated id both are refused.
   */
  lemma ArrivalOrderIrrelevant(xs: seq<Fill>, ys: seq<Fill>, orders: map<Text, BrokerOrder>)
    requires multiset(xs) == multiset(ys)
    ensures DistinctIds(xs) ==> Project(xs, orders) == Project(ys, orders)
    ensures !DistinctIds(xs) ==> Project(xs, orders).Err? && Project(ys, orders).Err?
  {
    DistinctIdsPermutes(xs, ys);
    if DistinctIds(xs) {
      CanonicalFacts(xs);
      CanonicalFacts(ys);
      FillOrderIsTotal();
      forall f, g | f in Canonical(xs) && g in Canonical(xs) && FillBefore(f, g) && FillBefore(g, f)
        ensures f == g
      {
        TextAntisymmetric(f.executionId, g.executionId);
        var i :| 0 <= i < |xs| && xs[i] == f;
        var j :| 0 <= j < |xs| && xs[j] == g;
        assert i == j;
      }
      SortedUnique(Canonical(xs), Canonical(ys), FillBefore);
    } else {
      LedgerAcceptance(xs, orders);
      LedgerAcceptance(ys, orders);
    }
  }

  /** With ids, orders and totals in order only an oversell or the cash bound can refuse. */
  lemma {:induction false} OnlyOversellOrCash(fills: seq<Fill>, orders: map<Text, BrokerOrder>)
    requires DistinctIds(fills) && KnownOrders(fills, orders) && TotalsFit(fills, orders)
    requires Replay(fills, orders).Err?
    ensures Replay(fills, orders).error in {Oversell, CashOutOfRange}
  {
    if fills != [] {
      var before := fills[..|fills| - 1];
      var f := fills[|fills| - 1];
      assert fills == before + [f];
      assert f in fills;
      DistinctIdsSplit(before, f);
      TotalsSplit(before, f, orders);
      if Replay(before, orders).Err? {
        assert forall g :: g in before ==> g in fills;
        OnlyOversellOrCash(before, orders);
      }
    }
  }

  lemma ProjectFailsOnlyByOversellOrCash(fills: seq<Fill>, orders: map<Text, BrokerOrder>)
    requires DistinctIds(fills) && KnownOrders(fills, orders) && TotalsFit(fills, orders)
    ensures Project(fills, orders).Err? ==> Project(fills, orders).error in {Oversell, CashOutOfRange}
  {
    CanonicalFacts(fills);
    DistinctIdsPermutes(fills, Canonical(fills));
    if Replay(Canonical(fills), orders).Err? { OnlyOversellOrCash(Canonical(fills), orders); }
  }

  /** A negative cash projection is accepted exactly on acceptable fills that cost more than they bring. */
  lemma NegativeCashAccepted(fills: seq<Fill>, orders: map<Text, BrokerOrder>)
    ensures Project(fills, orders).Ok? && Project(fills, orders).value.cashDeltaCents < 0
            <==> Acceptable(fills, orders) && CashOf(fills, orders) < 0
  {
    LedgerAcceptance(fills, orders);
    if Project(fills, orders).Ok? { FifoRefinement(fills, orders, ""); }
  }

  /**
   * The module text calls a negative cash projection a hard failure; the code only bounds
   * its magnitude.  Any first buy within bounds is accepted and leaves cash negative.
   */
  lemma FirstBuyLeavesNegativeCash(f: Fill, orders: map<Text, BrokerOrder>)
    requires f.brokerOrderId in orders && orders[f.brokerOrderId].side == BUY
    requires f.quantity <= orders[f.brokerOrderId].quantity && Bounded(f.quantity * f.price)
    ensures Project([f], orders).Ok?
    ensures Project([f], orders).value.cashDeltaCents == -(f.quantity * f.price) < 0
  {
    assert [f][1..] == [];
    assert StableSort([], FillBefore) == [];
    assert Canonical([f]) == Insert(f, [], FillBefore) == [f] + [] == [f];
    assert [f][..0] == [];
    assert Replay([f][..0], orders) == Ok(Book(0, []));
    assert FilledOn([], f.brokerOrderId) == 0;
    ReplayExtend([f], 0, orders);
    assert [f][..1] == [f];
    assert f.quantity * f.price > 0;
  }

  // ---------------------------------------------------------------- value

  /** What one fill is worth at the marks: a buy gains mark minus price, a sell price minus mark. */
  function GainAt(orders: map<Text, BrokerOrder>, mark: Text -> int): Fill -> int {
    (f: Fill) =>
      if f.brokerOrderId !in orders then 0
      else
        var order := orders[f.brokerOrderId];
        if order.side == BUY then f.quantity * (mark(order.symbol) - f.price)
        else f.quantity * (f.price - mark(order.symbol))
  }

  function WorthAt(mark: Text -> int): OpenLot -> int {
    (lot: OpenLot) => lot.quantity * mark(lot.symbol)
  }

  lemma {:induction false} ConsumeWorth(lots: seq<OpenLot>, symbol: Text, wanted: nat, mark: Text -> int)
    ensures var (left, missing) := Consume(lots, symbol, wanted);
            && missing <= wanted
            && SumBy(left, WorthAt(mark)) == SumBy(lots, WorthAt(mark)) - (wanted - missing) * mark(symbol)
  {
    if lots != [] {
      var tail := lots[1..];
      assert lots == [lots[0]] + tail;
      SumByCons(lots[0], tail, WorthAt(mark));
      if wanted == 0 || lots[0].symbol != symbol {
        ConsumeWorth(tail, symbol, wanted, mark);
        SumByCons(lots[0], Consume(tail, symbol, wanted).0, WorthAt(mark));
      } else if lots[0].quantity <= wanted {
        ConsumeWorth(tail, symbol, wanted - lots[0].quantity, mark);
        var missing := Consume(lots, symbol, wanted).1;
        Distribute(lots[0].quantity, wanted - lots[0].quantity - missing, mark(symbol));
      } else {
        var cut := lots[0].(quantity := lots[0].quantity - wanted);
        SumByCons(cut, tail, WorthAt(mark));
        Distribute(cut.quantity, wanted, mark(symbol));
      }
    }
  }

  lemma BookedWorth(book: Book, f: Fill, order: BrokerOrder, mark: Text -> int)
    requires Booked(book, f, order).Ok?
    ensures var next := Booked(book, f, order).value;
            next.cash + SumBy(next.lots, WorthAt(mark)) ==
            book.cash + SumBy(book.lots, WorthAt(mark))
            + (if order.side == BUY then f.quantity * (mark(order.symbol) - f.price)
               else f.quantity * (f.price - mark(order.symbol)))
  {
    var m := mark(order.symbol);
    DifferenceTimes(f.quantity, m, f.price);
    if order.side == BUY {
      SumByAppend(book.lots, Opened(f, order), WorthAt(mark));
    } else {
      ConsumeWorth(book.lots, order.symbol, f.quantity, mark);
    }
    hide SumBy, Consume, Bounded;
  }

  lemma DifferenceTimes(q: int, a: int, b: int)
    ensures q * (a - b) == q * a - q * b && q * (b - a) == q * b - q * a
  {
  }

  lemma {:induction false} ReplayWorth(fills: seq<Fill>, orders: map<Text, BrokerOrder>, mark: Text -> int)
    requires Replay(fills, orders).Ok?
    ensures var book := Replay(fills, orders).value;
            book.cash + SumBy(book.lots, WorthAt(mark)) == SumBy(fills, GainAt(orders, mark))
  {
    if fills != [] {
      var before := fills[..|fills| - 1];
      var f := fills[|fills| - 1];
      ReplayWorth(before, orders, mark);
      BookedWorth(Replay(before, orders).value, f, orders[f.brokerOrderId], mark);
    }
  }

  /**
   * Mark to market: whatever lots FIFO matched, the account is worth its opening cash plus
   * every buy's gain to the mark and every sell's gain from it.
   */
  lemma MarkToMarket(fills: seq<Fill>, orders: map<Text, BrokerOrder>, openingCash: int,
                     prices: map<Text, Cents>, mark: Text -> int)
    requires Project(fills, orders).Ok?
    requires Valuation(Project(fills, orders).value, openingCash, prices).Ok?
    requires forall s :: s in prices ==> mark(s) == prices[s]
    ensures Valuation(Project(fills, orders).value, openingCash, prices).value - openingCash
            == SumBy(fills, GainAt(orders, mark))
  {
    CanonicalFacts(fills);
    var cs := Canonical(fills);
    var p := Project(fills, orders).value;
    var lots := Replay(cs, orders).value.lots;
    ReplayWorth(cs, orders, mark);
    StableSortPermutes(lots, LotBefore);
    SumByPermutation(lots, p.lots, WorthAt(mark));
    SumByCongruent(p.lots, MarkedAt(prices), WorthAt(mark));
  }
}
