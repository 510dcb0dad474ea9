// What a flatten comes to once its exits have traded
// (src/seven_lens/application/control_service.py:331-448, execution/ledger.py:118-182).

module FlattenOutcome {
  import opened Orders
  import opened Sequences
  import opened Ledger
  import opened LedgerLaws
  import opened FlattenLaws
  import opened FakeBroker
  import opened BrokerPositions
  import opened Persistence
  import opened ExecutionState
  import opened MirrorRefresh
  import opened EngineInvariant
  import opened ExecutionLaws
  import opened PositionLaws
  import opened Flatten

  // ---------------------------------------------------------------- the same orders, further on

  /** Every order of `orders` is in `later`, for the same trade. */
  predicate SameTrade(orders: map<Text, BrokerOrder>, later: map<Text, BrokerOrder>) {
    forall b :: b in orders ==> b in later && OrderParams(later[b]) == OrderParams(orders[b])
  }

  lemma SumsAgree(fills: seq<Fill>, orders: map<Text, BrokerOrder>, later: map<Text, BrokerOrder>)
    requires KnownOrders(fills, orders) && SameTrade(orders, later)
    ensures CashOf(fills, later) == CashOf(fills, orders)
    ensures forall s :: Bought(fills, later, s) == Bought(fills, orders, s) && Sold(fills, later, s) == Sold(fills, orders, s)
  {
    hide SumBy;
    SumByCongruent(fills, CashEffect(later), CashEffect(orders));
    forall s ensures Bought(fills, later, s) == Bought(fills, orders, s) && Sold(fills, later, s) == Sold(fills, orders, s) {
      SumByCongruent(fills, SharesTraded(later, s, BUY), SharesTraded(orders, s, BUY));
      SumByCongruent(fills, SharesTraded(later, s, SELL), SharesTraded(orders, s, SELL));
    }
  }

  lemma AcceptedLater(fills: seq<Fill>, orders: map<Text, BrokerOrder>, later: map<Text, BrokerOrder>)
    requires Acceptable(fills, orders) && SameTrade(orders, later)
    ensures Acceptable(fills, later)
  {
    hide SumBy, Canonical;
    CanonicalFacts(fills);
    var cs := Canonical(fills);
    SumsAgree(fills, orders, later);
    forall k | 0 <= k <= |cs|
      ensures CashOf(cs[..k], later) == CashOf(cs[..k], orders)
      ensures forall s :: Sold(cs[..k], later, s) <= Bought(cs[..k], later, s)
    {
      SumsAgree(cs[..k], orders, later);
    }
    forall b | b in later ensures FilledOn(fills, b) <= later[b].quantity {
      if b !in orders { SplitFilledOn(fills, [], b); }
    }
  }

  // ---------------------------------------------------------------- one exit

  /** A placed exit that is FILLED has exactly its shares in the ledger's fills, on its own order. */
  lemma ExitFilled(w: World, x: World, i: OrderIntent)
    requires Placed(w.broker, i) && BrokerGrows(w.broker, x.broker) && Good(x)
    requires i.clientOrderId in x.durable.intents && x.durable.intents[i.clientOrderId].status == FILLED
    ensures i.clientOrderId in x.durable.mirrorByClient
    ensures var b := x.durable.mirrorByClient[i.clientOrderId];
            && b in x.durable.mirrors && x.durable.mirrors[b].clientOrderId == i.clientOrderId
            && OrderParams(x.durable.mirrors[b]) == ParamsOf(i)
            && FilledOn(x.durable.fills, b) == i.quantity
  {
    var c := i.clientOrderId;
    PlacedStays(w.broker, x.broker, i);
    assert Truthful(x.broker, x.durable, c, FILLED);
    var b := x.durable.mirrorByClient[c];
    assert Past(x.broker, x.durable.mirrors[b]);
    assert OrderStateValid(b, x.broker.orders[b]);
    FilledOnIsTotal(x.durable.fills, b);
  }

  // ---------------------------------------------------------------- all exits

  /** The orders of the exits, in their order. */
  ghost predicate ExitOrders(x: Db, exits: seq<OrderIntent>, ids: seq<Text>) {
    && |ids| == |exits|
    && forall k :: 0 <= k < |ids| ==>
         && ids[k] in x.mirrors && x.mirrors[ids[k]].clientOrderId == exits[k].clientOrderId
         && OrderParams(x.mirrors[ids[k]]) == ParamsOf(exits[k])
         && FilledOn(x.fills, ids[k]) == exits[k].quantity
  }

  lemma ExitsFilled(w: World, x: World, exits: seq<OrderIntent>) returns (ids: seq<Text>)
    requires forall k {:trigger exits[k]} :: 0 <= k < |exits| ==> Placed(w.broker, exits[k])
    requires BrokerGrows(w.broker, x.broker) && Good(x) && AllFilled(x.durable, exits)
    ensures ExitOrders(x.durable, exits, ids)
  {
    hide Good, Placed, BrokerGrows;
    ids := [];
    for n := 0 to |exits|
      invariant ExitOrders(x.durable, exits[..n], ids)
    {
      ExitFilled(w, x, exits[n]);
      ids := ids + [x.durable.mirrorByClient[exits[n].clientOrderId]];
    }
    assert exits[..|exits|] == exits;
  }

  predicate AllFilled(x: Db, exits: seq<OrderIntent>) {
    forall k :: 0 <= k < |exits| ==> exits[k].clientOrderId in x.intents && x.intents[exits[k].clientOrderId].status == FILLED
  }

  /** Since `d` fills were recorded on the orders of the exits only. */
  ghost predicate OnlyExitsTraded(d: Db, x: Db, exits: seq<OrderIntent>) {
    d.fills <= x.fills
    && forall f :: f in x.fills[|d.fills|..] ==>
         && f.brokerOrderId in x.mirrors
         && exists k :: 0 <= k < |exits| && exits[k].clientOrderId == x.mirrors[f.brokerOrderId].clientOrderId
  }

  /** One order's fills, all of one side and symbol. */
  lemma {:induction false} TradedOnOne(fills: seq<Fill>, orders: map<Text, BrokerOrder>, b: Text, s: Text)
    requires b in orders && orders[b].side == SELL
    ensures SumBy(FillsOn(fills, b), SharesTraded(orders, s, SELL)) == if orders[b].symbol == s then FilledOn(fills, b) else 0
  {
    if fills != [] {
      var rest, last := fills[..|fills| - 1], fills[|fills| - 1];
      TradedOnOne(rest, orders, b, s);
      if last.brokerOrderId == b { SumByAppend(FillsOn(rest, b), last, SharesTraded(orders, s, SELL)); }
      else { assert FillsOn(rest, b) + [] == FillsOn(rest, b); }
    }
  }

  /** On the first `n` exit orders exactly the positions of the first `n` symbols were sold. */
  lemma {:induction false} ExitsSold(fills: seq<Fill>, orders: map<Text, BrokerOrder>, ids: seq<Text>, symbols: seq<Text>,
                                     positions: map<Text, int>, n: nat, s: Text)
    requires n <= |ids| == |symbols|
    requires forall i, j :: 0 <= i < j < |symbols| ==> symbols[i] != symbols[j]
    requires forall k :: 0 <= k < |ids| ==>
      && symbols[k] in positions && ids[k] in orders && orders[ids[k]].side == SELL && orders[ids[k]].symbol == symbols[k]
      && FilledOn(fills, ids[k]) == positions[symbols[k]]
    ensures SumBy(Filter(fills, OnAny(ids[..n])), SharesTraded(orders, s, SELL))
            == if s in symbols[..n] then positions[s] else 0
    decreases n
  {
    if n == 0 {
      NoOrders(fills);
    } else {
      var b := ids[n - 1];
      assert ids[..n] == ids[..n - 1] + [b] && symbols[..n] == symbols[..n - 1] + [symbols[n - 1]];
      assert b !in ids[..n - 1] by {
        forall k | 0 <= k < n - 1 ensures ids[k] != b { assert symbols[k] != symbols[n - 1]; }
      }
      ExitsSold(fills, orders, ids, symbols, positions, n - 1, s);
      OneMoreOrder(fills, ids[..n - 1], b, SharesTraded(orders, s, SELL));
      TradedOnOne(fills, orders, b, s);
    }
  }

  function Without(orders: map<Text, BrokerOrder>, ids: seq<Text>): map<Text, BrokerOrder> {
    map b | b in orders && b !in ids :: orders[b]
  }

  function Only(orders: map<Text, BrokerOrder>, ids: seq<Text>): map<Text, BrokerOrder> {
    map b | b in orders && b in ids :: orders[b]
  }

  /** The orders of the exits are new, and everything older is still there for the same trade. */
  lemma OlderKept(d: Db, x: Db, exits: seq<OrderIntent>, ids: seq<Text>)
    requires Tables(d) && Follows(d, x) && ExitsNew(d, exits) && ExitOrders(x, exits, ids)
    ensures SameTrade(d.mirrors, Without(x.mirrors, ids)) && forall k :: 0 <= k < |ids| ==> ids[k] !in d.mirrors
  {
    hide FilledOn, FillsKeyed;
    forall b | b in d.mirrors ensures b in x.mirrors && OrderParams(x.mirrors[b]) == OrderParams(d.mirrors[b]) && b !in ids {
      assert MirrorMayBecome(d.mirrors[b], x.mirrors[b]) && d.mirrors[b].clientOrderId in d.intents;
    }
  }

  /** What was recorded since completes the exits, order by order. */
  lemma SinceOnExits(d: Db, x: Db, exits: seq<OrderIntent>, ids: seq<Text>)
    requires Tables(d) && Tables(x) && ExitOrders(x, exits, ids) && OnlyExitsTraded(d, x, exits)
    requires forall k :: 0 <= k < |ids| ==> ids[k] !in d.mirrors
    ensures forall f :: f in x.fills[|d.fills|..] ==> f.brokerOrderId in ids
    ensures forall k :: 0 <= k < |ids| ==> FilledOn(x.fills[|d.fills|..], ids[k]) == exits[k].quantity
  {
    hide FilledOn;
    var since := x.fills[|d.fills|..];
    assert x.fills == d.fills + since;
    forall f | f in since ensures f.brokerOrderId in ids {
      var k :| 0 <= k < |exits| && exits[k].clientOrderId == x.mirrors[f.brokerOrderId].clientOrderId;
      assert x.mirrors[ids[k]].clientOrderId == exits[k].clientOrderId;
    }
    forall k | 0 <= k < |ids| ensures FilledOn(since, ids[k]) == exits[k].quantity {
      SplitFilledOn(d.fills, since, ids[k]);
    }
  }

  /** What was sold since is what was held. */
  lemma HeldIsSold(d: Db, since: seq<Fill>, added: map<Text, BrokerOrder>, ids: seq<Text>, positions: map<Text, int>,
                   symbols: seq<Text>, s: Text)
    requires Project(d.fills, d.mirrors).Ok? && positions == PositionsOf(Project(d.fills, d.mirrors).value.lots)
    requires Enumerates(symbols, positions.Keys) && |ids| == |symbols|
    requires forall f :: f in since ==> f.brokerOrderId in ids
    requires forall k :: 0 <= k < |ids| ==>
      && symbols[k] in positions && ids[k] in added && added[ids[k]].side == SELL && added[ids[k]].symbol == symbols[k]
      && FilledOn(since, ids[k]) == positions[symbols[k]]
    ensures Sold(since, added, s) == Bought(d.fills, d.mirrors, s) - Sold(d.fills, d.mirrors, s)
  {
    hide Project, PositionsOf, FilledOn, SumBy, Filter;
    HeldIsNet(d.fills, d.mirrors, s);
    ExitsSold(since, added, ids, symbols, positions, |ids|, s);
    AllOnSome(since, ids);
    assert ids[..|ids|] == ids && symbols[..|symbols|] == symbols;
  }

  predicate ExitsSell(exits: seq<OrderIntent>, positions: map<Text, int>, symbols: seq<Text>) {
    && |exits| == |symbols|
    && forall k {:trigger exits[k]} :: 0 <= k < |exits| ==>
         symbols[k] in positions && ExitOf(exits[k], symbols[k], positions[symbols[k]])
  }

  /** Each of the exit orders sells one symbol's position. */
  lemma ExitsAsOrders(x: Db, exits: seq<OrderIntent>, ids: seq<Text>, positions: map<Text, int>, symbols: seq<Text>)
    requires ExitOrders(x, exits, ids) && ExitsSell(exits, positions, symbols)
    ensures var added := Only(x.mirrors, ids);
            && (forall k :: 0 <= k < |ids| ==>
                  && symbols[k] in positions && ids[k] in added && added[ids[k]].side == SELL && added[ids[k]].symbol == symbols[k]
                  && added[ids[k]].quantity == exits[k].quantity == positions[symbols[k]])
            && (forall b :: b in added ==> exists k :: 0 <= k < |ids| && ids[k] == b)
  {
    hide FilledOn;
    forall k | 0 <= k < |ids|
      ensures symbols[k] in positions && x.mirrors[ids[k]].side == SELL && x.mirrors[ids[k]].symbol == symbols[k]
              && x.mirrors[ids[k]].quantity == exits[k].quantity == positions[symbols[k]]
    {
      assert ExitOf(exits[k], symbols[k], positions[symbols[k]]);
    }
  }

  lemma ExitsComplete(d: Db, x: Db, exits: seq<OrderIntent>, ids: seq<Text>, positions: map<Text, int>, symbols: seq<Text>)
    requires Tables(d) && Tables(x) && Project(d.fills, d.mirrors).Ok? && Follows(d, x)
    requires positions == PositionsOf(Project(d.fills, d.mirrors).value.lots)
    requires Enumerates(symbols, positions.Keys) && ExitsSell(exits, positions, symbols)
    requires ExitsNew(d, exits) && ExitOrders(x, exits, ids) && OnlyExitsTraded(d, x, exits)
    requires forall f, g :: f in d.fills && g in x.fills[|d.fills|..] ==> FillBefore(f, g)
    ensures Acceptable(d.fills, Without(x.mirrors, ids))
    ensures CompletesExits(d.fills, Without(x.mirrors, ids), x.fills[|d.fills|..], Only(x.mirrors, ids))
  {
    hide Project, Acceptable, FilledOn, SumBy, Follows, PositionsOf, Enumerates, FillBefore;
    var since, orders, added := x.fills[|d.fills|..], Without(x.mirrors, ids), Only(x.mirrors, ids);
    assert x.fills == d.fills + since;
    OlderKept(d, x, exits, ids);
    LedgerAcceptance(d.fills, d.mirrors);
    AcceptedLater(d.fills, d.mirrors, orders);
    SumsAgree(d.fills, d.mirrors, orders);
    SinceOnExits(d, x, exits, ids);
    ExitsAsOrders(x, exits, ids, positions, symbols);
    forall s ensures Sold(since, added, s) == Bought(d.fills, orders, s) - Sold(d.fills, orders, s) {
      HeldIsSold(d, since, added, ids, positions, symbols, s);
    }
  }

  // ---------------------------------------------------------------- when they traded

  /** Fills stamped at one moment sort by execution id, the later ones last. */
  predicate TiesOrdered(fills: seq<Fill>, since: seq<Fill>) {
    forall f, g :: f in fills && g in since && f.occurredAt == g.occurredAt ==> TextLeq(f.executionId, g.executionId)
  }

  /** What is recorded was stamped by now. */
  lemma RecordedByNow(v: BrokerView, db: Db, f: Fill)
    requires BrokerInv(v) && Sound(v, db) && f in db.fills
    ensures f.occurredAt <= v.now
  {
    var b := f.brokerOrderId;
    FillsOnMembers(db.fills, b);
    assert Past(v, db.mirrors[b]);
    assert f in FillsOn(db.fills, b) && f in v.orders[b].fills;
    assert OrderStateValid(b, v.orders[b]);
  }

  /** A fill on an order whose client id the tables did not know then was stamped since. */
  lemma TradedSince(v: BrokerView, db: Db, x: BrokerView, y: Db, g: Fill)
    requires BrokerInv(v) && Sound(v, db) && BrokerGrows(v, x) && BrokerInv(x) && Sound(x, y)
    requires g in y.fills && y.mirrors[g.brokerOrderId].clientOrderId !in db.intents
    ensures v.now <= g.occurredAt
  {
    var b := g.brokerOrderId;
    FillsOnMembers(y.fills, b);
    assert Past(x, y.mirrors[b]);
    assert g in FillsOn(y.fills, b) && g in x.orders[b].fills;
    assert OrderStateValid(b, x.orders[b]);
    if b in v.orders {
      assert OrderAdvances(v.orders[b], x.orders[b]);
      NotYetKnown(v, db, b);
      assert false;
    }
  }

  lemma NotYetKnown(v: BrokerView, db: Db, b: Text)
    requires BrokerInv(v) && Sound(v, db) && b in v.orders
    ensures v.orders[b].order.clientOrderId in db.intents
  {
  }

  /** The exits' fills sort behind everything recorded before. */
  lemma SinceIsLater(at: Checked, w: World, x: World, exits: seq<OrderIntent>, positions: map<Text, int>, symbols: seq<Text>)
    requires ReadyToExit(at, positions) && ExitsNew(at.db, exits) && BrokerGrows(at.broker, w.broker) && Extends(w, x)
    requires Good(x) && OnlyExitsTraded(at.db, x.durable, exits)
    requires TiesOrdered(at.db.fills, x.durable.fills[|at.db.fills|..])
    ensures forall f, g :: f in at.db.fills && g in x.durable.fills[|at.db.fills|..] ==> FillBefore(f, g)
  {
    hide BookAgrees, Enumerates, Project, PositionsOf, BrokerInv, Sound, BrokerGrows;
    GrowsComposes(at.broker, w.broker, x.broker);
    DurablySound(x);
    forall f, g | f in at.db.fills && g in x.durable.fills[|at.db.fills|..] ensures FillBefore(f, g) {
      RecordedByNow(at.broker, at.db, f);
      TradedSince(at.broker, at.db, x.broker, x.durable, g);
    }
  }

  lemma DurablySound(x: World)
    requires Good(x)
    ensures BrokerInv(x.broker) && Sound(x.broker, x.durable)
  {
  }

  /**
   * A later state of the tables in which every placed exit is FILLED and nothing else has traded:
   * the ledger holds nothing; it accepts the fills unless its final cash leaves the allowed range.
   */
  lemma CompletedFlattenHoldsNothing(at: Checked, w: World, x: World, exits: seq<OrderIntent>, positions: map<Text, int>,
                                     symbols: seq<Text>)
    requires ReadyToExit(at, positions) && Enumerates(symbols, positions.Keys) && ExitsNew(at.db, exits)
    requires ExitsPlaced(w.broker, w.durable, exits, positions, symbols)
    requires BrokerGrows(at.broker, w.broker) && Extends(w, x) && Good(x)
    requires Log(x.history) && x.durable == x.history[|x.history| - 1] && at.db in x.history
    requires AllFilled(x.durable, exits) && OnlyExitsTraded(at.db, x.durable, exits)
    requires TiesOrdered(at.db.fills, x.durable.fills[|at.db.fills|..])
    ensures var r := Project(x.durable.fills, x.durable.mirrors);
            && (r.Ok? <==> Bounded(CashOf(x.durable.fills, x.durable.mirrors)))
            && (r.Ok? ==> r.value.lots == [])
  {
    hide Good, Project, Follows, BrokerGrows, Enumerates, Acceptable, CompletesExits, Placed, FilledOn, OnlyExitsTraded,
      Tables, FillBefore, BrokerInv, Sound, TiesOrdered, ExitOrders, ExitsNew, AllFilled, BookAgrees, Canonical, ExitsPlaced, ExitsSell;
    var d, y := at.db, x.durable;
    assert Follows(d, y);
    DurablySound(x);
    SoundTables(at.broker, d);
    SoundTables(x.broker, y);
    ExitsNamed(w.broker, w.durable, exits, positions, symbols);
    var ids := ExitsFilled(w, x, exits);
    SinceIsLater(at, w, x, exits, positions, symbols);
    ExitsComplete(d, y, exits, ids, positions, symbols);
    JoinedAgain(d, y, exits, ids);
    LedgerAcceptance(d.fills, Without(y.mirrors, ids));
    FlattenEmptiesBook(d.fills, Without(y.mirrors, ids), y.fills[|d.fills|..], Only(y.mirrors, ids));
  }

  lemma ExitsNamed(v: BrokerView, db: Db, exits: seq<OrderIntent>, positions: map<Text, int>, symbols: seq<Text>)
    requires ExitsPlaced(v, db, exits, positions, symbols)
    ensures ExitsSell(exits, positions, symbols)
    ensures forall k {:trigger exits[k]} :: 0 <= k < |exits| ==> Placed(v, exits[k])
  {
    hide Placed, AcceptedExit;
    forall k | 0 <= k < |exits|
      ensures symbols[k] in positions && ExitOf(exits[k], symbols[k], positions[symbols[k]]) && Placed(v, exits[k])
    {
      var i := exits[k];
      assert i.clientOrderId in db.intents;
    }
  }

  lemma JoinedAgain(d: Db, x: Db, exits: seq<OrderIntent>, ids: seq<Text>)
    requires OnlyExitsTraded(d, x, exits)
    ensures d.fills + x.fills[|d.fills|..] == x.fills && Without(x.mirrors, ids) + Only(x.mirrors, ids) == x.mirrors
  {
  }

  lemma SoundTables(v: BrokerView, db: Db)
    requires Sound(v, db)
    ensures Tables(db)
  {
  }
}
