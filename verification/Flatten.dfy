// Flattening the Paper account: cancel everything, agree on the book, sell it
// (src/seven_lens/application/control_service.py:232-470).

module Flatten {
  import opened Orders
  import opened Sequences
  import opened Ledger
  import opened LedgerLaws
  import opened FlattenLaws
  import opened FakeBroker
  import opened BrokerPositions
  import opened Persistence
  import opened ExecutionState
  import opened MirrorRefresh
  import opened ReportHandling
  import opened EngineReports
  import opened EngineInvariant
  import opened Submissions
  import opened RecoverySweep
  import opened ExpirySweep
  import opened CancelSweep
  import opened ExecutionEngine
  import opened Planning
  import opened Control

  // ---------------------------------------------------------------- agreeing on the book

  lemma TextOrderIsTotal()
    ensures TotalPreorder(TextLeq)
  {
    forall a: Text, b: Text ensures TextLeq(a, b) || TextLeq(b, a) { TextTotal(a, b); }
    forall a: Text, b: Text, c: Text | TextLeq(a, b) && TextLeq(b, c) ensures TextLeq(a, c) { TextTransitive(a, b, c); }
  }

  lemma {:induction false} DistinctCounts(xs: seq<Text>)
    ensures (forall i, j :: 0 <= i < j < |xs| ==> xs[i] != xs[j]) <==> (forall x :: multiset(xs)[x] <= 1)
  {
    if xs != [] {
      var rest, last := xs[..|xs| - 1], xs[|xs| - 1];
      assert xs == rest + [last];
      DistinctCounts(rest);
      assert forall x :: multiset(xs)[x] == multiset(rest)[x] + (if x == last then 1 else 0);
      if forall x :: multiset(xs)[x] <= 1 {
        assert multiset(rest)[last] == 0;
        forall i | 0 <= i < |rest| ensures rest[i] != last { assert rest[i] in multiset(rest); }
      }
      if forall i, j :: 0 <= i < j < |xs| ==> xs[i] != xs[j] {
        forall i | 0 <= i < |rest| ensures rest[i] != last { assert xs[i] == rest[i]; }
        assert last !in rest;
      }
    }
  }

  method Sorted(keys: set<Text>) returns (ids: seq<Text>)
    ensures Enumerates(ids, keys)
  {
    var left := keys;
    var found: seq<Text> := [];
    while left != {}
      invariant left <= keys
      invariant forall b :: b in found <==> b in keys && b !in left
      invariant forall i, j :: 0 <= i < j < |found| ==> found[i] != found[j]
    {
      var b :| b in left;
      found := found + [b];
      left := left - {b};
    }
    ids := StableSort(found, TextLeq);
    TextOrderIsTotal();
    StableSortSorts(found, TextLeq);
    StableSortPermutes(found, TextLeq);
    DistinctCounts(found);
    DistinctCounts(ids);
    assert forall b :: b in ids <==> b in multiset(ids);
  }

  /** The ledger's positions are the broker's net shares, symbol by symbol. */
  ghost predicate BookAgrees(positions: map<Text, int>, fills: seq<Fill>, orders: map<Text, BrokerOrder>) {
    forall s {:trigger Net(fills, orders, s)} :: Net(fills, orders, s) == if s in positions then positions[s] else 0
  }

  method PositionsAgree(positions: map<Text, int>, view: seq<PaperPosition>,
                        ghost fills: seq<Fill>, ghost orders: map<Text, BrokerOrder>)
    returns (agree: bool)
    requires forall p :: p in view <==> p.quantity == Net(fills, orders, p.symbol)
    requires forall s {:trigger Net(fills, orders, s)} :: Net(fills, orders, s) >= 0
    requires forall s :: s in positions ==> positions[s] > 0
    ensures agree <==> BookAgrees(positions, fills, orders)
  {
    agree := (forall p :: p in view ==> p.symbol in positions && positions[p.symbol] == p.quantity)
             && (forall s :: s in positions ==> exists p :: p in view && p.symbol == s);
    if agree {
      forall s | s in positions ensures Net(fills, orders, s) == positions[s] { var p :| p in view && p.symbol == s; }
      forall s | Net(fills, orders, s) > 0 ensures s in positions {
        assert PaperPosition(s, Net(fills, orders, s)) in view;
      }
    }
    if BookAgrees(positions, fills, orders) {
      forall p | p in view ensures p.symbol in positions && positions[p.symbol] == p.quantity {
        assert Net(fills, orders, p.symbol) == p.quantity;
      }
      forall s | s in positions ensures exists p :: p in view && p.symbol == s {
        assert Net(fills, orders, s) == positions[s];
        assert PaperPosition(s, positions[s]) in view;
      }
    }
  }

  /** The book of the local ledger, when it replays and the broker's own position view agrees. */
  method AgreedBook(engine: ExecutionEngine) returns (positions: Option<map<Text, int>>, ghost ids: seq<Text>)
    requires engine.Valid()
    ensures positions.Some? ==>
      && Enumerates(ids, engine.broker.orders.Keys)
      && Project(engine.uow.staged.fills, engine.uow.staged.mirrors).Ok?
      && positions.value == PositionsOf(Project(engine.uow.staged.fills, engine.uow.staged.mirrors).value.lots)
      && BookAgrees(positions.value, FillsIn(engine.broker.orders, ids), OrdersOf(engine.broker.orders))
  {
    GoodBroker(engine.State());
    hide Good, BrokerInv, Log, Follows, Sound, NeverOversells, BookAgrees, Enumerates;
    ids := [];
    var projection := ProjectLedger(engine.uow.staged.fills, engine.uow.staged.mirrors);
    if projection.Err? { return None, ids; }
    var book := Positions(projection.value.lots);
    var order := Sorted(engine.broker.orders.Keys);
    var view := ListPositions(engine.broker, order);
    if view.Err? { return None, ids; }
    ids := order;
    HeldArePositive(projection.value.lots);
    NeverOversoldNets(FillsIn(engine.broker.orders, ids), OrdersOf(engine.broker.orders));
    var agree := PositionsAgree(book, view.value, FillsIn(engine.broker.orders, ids), OrdersOf(engine.broker.orders));
    positions := if agree then Some(book) else None;
  }

  lemma HeldArePositive(lots: seq<OpenLot>)
    ensures forall s :: s in PositionsOf(lots) ==> PositionsOf(lots)[s] > 0
  {
    forall s | s in PositionsOf(lots) ensures PositionsOf(lots)[s] > 0 { HeldIsZeroWithoutLots(lots, s); }
  }

  lemma NeverOversoldNets(fills: seq<Fill>, orders: map<Text, BrokerOrder>)
    requires NeverOversells(fills, orders)
    ensures forall s {:trigger Net(fills, orders, s)} :: Net(fills, orders, s) >= 0
  {
    assert fills[..|fills|] == fills;
    forall s ensures Net(fills, orders, s) >= 0 {
      assert Sold(fills[..|fills|], orders, s) <= Bought(fills[..|fills|], orders, s);
    }
  }

  // ---------------------------------------------------------------- the exits

  /** The broker holds the intent's order, with the intent's parameters. */
  ghost predicate Placed(v: BrokerView, i: OrderIntent) {
    && i.clientOrderId in v.byClient
    && v.byClient[i.clientOrderId] in v.orders
    && OrderParams(v.orders[v.byClient[i.clientOrderId]].order) == ParamsOf(i)
  }

  lemma PlacedStays(v: BrokerView, w: BrokerView, i: OrderIntent)
    requires Placed(v, i) && BrokerGrows(v, w)
    ensures Placed(w, i)
  {
    assert OrderAdvances(v.orders[v.byClient[i.clientOrderId]], w.orders[v.byClient[i.clientOrderId]]);
  }

  lemma AcceptedIsPlaced(w: World, c: Text)
    requires Good(w) && c in w.staged.intents
    requires Live(w.staged.intents[c].status) || w.staged.intents[c].status == FILLED
    ensures Placed(w.broker, w.staged.intents[c])
  {
    assert Truthful(w.broker, w.staged, c, w.staged.intents[c].status);
    var b := w.staged.mirrorByClient[c];
    assert Past(w.broker, w.staged.mirrors[b]);
    OneOrderPerClient(w.broker, b, b);
  }

  predicate ExitOf(i: OrderIntent, s: Text, quantity: int) {
    i.symbol == s && i.side == SELL && i.quantity == quantity && i.intentType == RISK_EXIT
  }

  /** Broker-accepted, as the flatten demands it. */
  predicate AcceptedExit(s: OrderStatus) {
    s.ACKNOWLEDGED? || s.PARTIALLY_FILLED? || s.FILLED?
  }

  /** One accepted exit for each of the symbols in order, for exactly its position, durable and at the broker. */
  ghost predicate ExitsPlaced(v: BrokerView, db: Db, exits: seq<OrderIntent>, positions: map<Text, int>, symbols: seq<Text>) {
    && |exits| == |symbols|
    && forall k {:trigger exits[k]} :: 0 <= k < |exits| ==>
         && symbols[k] in positions && ExitOf(exits[k], symbols[k], positions[symbols[k]])
         && AcceptedExit(exits[k].status) && Placed(v, exits[k])
         && exits[k].clientOrderId in db.intents && db.intents[exits[k].clientOrderId] == exits[k]
  }

  /** No exit reuses a client id of `db`. */
  predicate ExitsNew(db: Db, exits: seq<OrderIntent>) {
    forall k :: 0 <= k < |exits| ==> exits[k].clientOrderId !in db.intents
  }

  /** A further exit under a new client id leaves the ones before it in place. */
  lemma ExitAdded(v: BrokerView, w: BrokerView, db: Db, next: Db, exits: seq<OrderIntent>, positions: map<Text, int>,
                  symbols: seq<Text>, s: Text, i: OrderIntent)
    requires ExitsPlaced(v, db, exits, positions, symbols) && BrokerGrows(v, w)
    requires s in positions && ExitOf(i, s, positions[s]) && AcceptedExit(i.status) && Placed(w, i)
    requires i.clientOrderId !in db.intents && next.intents == db.intents[i.clientOrderId := i]
    ensures ExitsPlaced(w, next, exits + [i], positions, symbols + [s])
  {
    forall k | 0 <= k < |exits| ensures Placed(w, exits[k]) { PlacedStays(v, w, exits[k]); }
    hide Placed, BrokerGrows;
  }

  /** The deterministic client id of one exit. */
  function ExitId(date: Text, generation: nat, symbol: Text): Text {
    "slv1-control-flatten-" + date + "-emergency-t" + Padded(generation, 0) + "-" + symbol + "-sell"
  }

  /** Every exit goes out under its deterministic id of this generation, at its limit, until the cutoff. */
  predicate ExitsOrdered(exits: seq<OrderIntent>, symbols: seq<Text>, limits: map<Text, Cents>, date: Text,
                         generation: nat, cancelAt: Time)
  {
    && |exits| <= |symbols|
    && forall k :: 0 <= k < |exits| ==>
         && exits[k].clientOrderId == ExitId(date, generation, symbols[k]) && exits[k].cancelAt == cancelAt
         && symbols[k] in limits && exits[k].limitPrice == limits[symbols[k]]
  }

  /**
   * Creates one exit, approves and queues it, and hands it to the engine.  Its intent id is
   * fresh, so a client id already in use is refused.
   */
  method SubmitExit(engine: ExecutionEngine, symbol: Text, quantity: Shares, limit: Cents, date: Text, generation: nat,
                    cancelAt: Time)
    returns (r: Outcome<OrderIntent>)
    requires engine.Valid()
    modifies engine`attempts, engine.broker, engine.broker.clock, engine.uow
    ensures engine.Valid() && Extends(old(engine.State()), engine.State())
    ensures r.Returned? ==>
      && ExitOf(r.value, symbol, quantity) && AcceptedExit(r.value.status) && Placed(engine.broker.View(), r.value)
      && r.value.clientOrderId == ExitId(date, generation, symbol)
      && r.value.limitPrice == limit && r.value.cancelAt == cancelAt
      && r.value.clientOrderId !in old(engine.uow.staged).intents
      && engine.uow.durable == engine.uow.staged
      && engine.uow.durable.intents == old(engine.uow.staged).intents[r.value.clientOrderId := r.value]
  {
    hide Good, BrokerInv, Log, Follows, BrokerGrows, Placed, Concluded, SameTables, TriedOnce;
    ghost var before := engine.State();
    BrokerStays(before.broker);
    var intentId: Text := *;
    var c := ExitId(date, generation, symbol);
    if c in engine.uow.staged.intents { return Raised(Storage(BoundElsewhere)); }
    var intent := OrderIntent(intentId, c, symbol, SELL, quantity, RISK_EXIT, limit, cancelAt, CREATED);
    var added := AddIntent(engine, intent);
    var approved := Advance(engine, c, RISK_APPROVED);
    var queued := Advance(engine, c, OUTBOX_PENDING);
    ghost var ready := engine.State();
    assert ready.staged.intents == before.staged.intents[c := intent.(status := OUTBOX_PENDING)];
    r := engine.SubmitFromOutbox(c);
    ExtendsComposes(before, ready, engine.State());
    if r.Returned? {
      if !AcceptedExit(r.value.status) { return Raised(Storage(IllegalTransition)); }
      AcceptedIsPlaced(engine.State(), c);
      assert engine.uow.durable.intents == before.staged.intents[c := r.value];
    }
  }

  // ---------------------------------------------------------------- the command

  predicate Unsettled(s: OrderStatus) {
    s.SUBMITTING? || s.UNKNOWN? || Live(s) || s.REVIEW_REQUIRED?
  }

  method AnyUnsettled(uow: UnitOfWork) returns (any: bool)
    ensures any <==> exists c :: c in uow.staged.intents && Unsettled(uow.staged.intents[c].status)
  {
    var submitting := uow.ListByStatus(SUBMITTING);
    var unknown := uow.ListByStatus(UNKNOWN);
    var acknowledged := uow.ListByStatus(ACKNOWLEDGED);
    var partial := uow.ListByStatus(PARTIALLY_FILLED);
    var pending := uow.ListByStatus(CANCEL_PENDING);
    var review := uow.ListByStatus(REVIEW_REQUIRED);
    any := submitting != [] || unknown != [] || acknowledged != [] || partial != [] || pending != [] || review != [];
    if any {
      var found := if submitting != [] then submitting[0] else if unknown != [] then unknown[0]
                   else if acknowledged != [] then acknowledged[0] else if partial != [] then partial[0]
                   else if pending != [] then pending[0] else review[0];
      assert found in submitting || found in unknown || found in acknowledged || found in partial || found in pending || found in review;
    }
  }

  /** Resolving what is in flight does not touch what is live. */
  lemma ResolvingKeepsLive(w: World, x: World, closed: map<Text, OrderIntent>, found: seq<OrderIntent>)
    requires Good(w) && DurablyReported(w, x, closed) && Covers(closed, found, None)
    requires forall i :: i in found ==> exists c :: c in w.staged.intents && w.staged.intents[c] == i && InFlight(i.status)
    ensures forall c {:trigger w.staged.intents[c]} :: c in w.staged.intents && Live(w.staged.intents[c].status) ==>
      c in x.staged.intents && x.staged.intents[c] == w.staged.intents[c]
  {
    hide Good, Covers;
    AllKeyed(w);
    forall c | c in w.staged.intents && Live(w.staged.intents[c].status)
      ensures c in x.staged.intents && x.staged.intents[c] == w.staged.intents[c]
    {
      LiveIsDurable(w, w.staged.intents[c]);
      assert Committed(w, c);
      assert forall i :: i in found ==> i.clientOrderId != c;
      NotCovered(closed, found, c);
    }
  }

  lemma NotCovered(closed: map<Text, OrderIntent>, found: seq<OrderIntent>, c: Text)
    requires Covers(closed, found, None) && forall i :: i in found ==> i.clientOrderId != c
    ensures c !in closed
  {
  }

  /** Resolves what is in flight, cancels what is live, and refreshes the mirrors. */
  method Converge(engine: ExecutionEngine) returns (r: Outcome<()>)
    requires engine.Valid()
    modifies engine, engine.broker, engine.broker.clock, engine.uow
    ensures engine.Valid() && Extends(old(engine.State()), engine.State())
    ensures r.Returned? ==> forall c {:trigger old(engine.uow.staged).intents[c]} :: c in old(engine.uow.staged).intents ==>
      Live(old(engine.uow.staged).intents[c].status) ==> Asked(old(engine.cancels), engine.cancels, c)
    ensures r.Returned? && old(engine.uow.staged) == old(engine.uow.durable) ==> engine.uow.staged == engine.uow.durable
  {
    hide Good, BrokerInv, Log, Follows, BrokerGrows, Swept, Asked, Covers, DurablyReported;
    ghost var before, sent := engine.State(), engine.cancels;
    var submitting := engine.uow.ListByStatus(SUBMITTING);
    var unknown := engine.uow.ListByStatus(UNKNOWN);
    var resolved := engine.ResolveDue(submitting + unknown, None);
    ghost var first := engine.State();
    if resolved.Crashed? { return Crashed; }
    if resolved.Raised? { return Raised(resolved.error); }
    ResolvingKeepsLive(before, first, resolved.value, submitting + unknown);
    AllKeyed(before);
    var live := LiveIntents(engine.uow);
    var cancelled := CancelEach(engine, live);
    ghost var second := engine.State();
    ExtendsComposes(before, first, second);
    if cancelled.Crashed? { return Crashed; }
    if cancelled.Raised? { return Raised(cancelled.error); }
    forall c | c in before.staged.intents && Live(before.staged.intents[c].status) ensures Asked(sent, engine.cancels, c) {
      var k :| 0 <= k < |live| && live[k] == before.staged.intents[c];
      assert live[k].clientOrderId == c;
    }
    var still := LiveIntents(engine.uow);
    r := RefreshEach(engine, still);
    ExtendsComposes(before, second, engine.State());
  }

  /** Whether the broker trades every symbol of the book as a US equity. */
  method AllTradable(engine: ExecutionEngine, positions: map<Text, int>) returns (ok: bool)
    ensures ok <==> forall s :: s in positions ==> engine.broker.Tradable(s)
  {
    var symbols := positions.Keys;
    while symbols != {}
      invariant symbols <= positions.Keys
      invariant forall s :: s in positions && s !in symbols ==> engine.broker.Tradable(s)
    {
      var s :| s in symbols;
      var asset := engine.broker.GetAsset(s);
      if asset.None? || !asset.value.active || !asset.value.tradable || !asset.value.usEquity { return false; }
      symbols := symbols - {s};
    }
    ok := true;
  }

  /** Sells the book in symbol order; the first exit the broker does not accept stops it. */
  method SubmitExits(engine: ExecutionEngine, positions: map<Text, int>, symbols: seq<Text>, limits: map<Text, Cents>,
                     date: Text, generation: nat, cancelAt: Time)
    returns (r: Outcome<seq<OrderIntent>>)
    requires engine.Valid() && forall s :: s in symbols ==> s in positions && positions[s] > 0 && s in limits
    modifies engine`attempts, engine.broker, engine.broker.clock, engine.uow
    ensures engine.Valid() && Extends(old(engine.State()), engine.State())
    ensures r.Returned? ==> ExitsPlaced(engine.broker.View(), engine.uow.staged, r.value, positions, symbols)
                            && ExitsOrdered(r.value, symbols, limits, date, generation, cancelAt)
                            && ExitsNew(old(engine.uow.staged), r.value)
  {
    hide Good, BrokerInv, Log, Follows, BrokerGrows, ExitsPlaced, Placed;
    ghost var before := engine.State();
    BrokerStays(before.broker);
    var exits: seq<OrderIntent> := [];
    NoExitsYet(before.broker, before.staged, positions, symbols);
    for k := 0 to |symbols|
      invariant engine.Valid() && Extends(before, engine.State())
      invariant ExitsPlaced(engine.broker.View(), engine.uow.staged, exits, positions, symbols[..k]) && |exits| == k
      invariant ExitsOrdered(exits, symbols, limits, date, generation, cancelAt)
      invariant ExitsNew(before.staged, exits) && before.staged.intents.Keys <= engine.uow.staged.intents.Keys
    {
      var s := symbols[k];
      ghost var met := engine.State();
      var one := SubmitExit(engine, s, positions[s], limits[s], date, generation, cancelAt);
      ghost var after := engine.State();
      ExtendsComposes(before, met, after);
      if one.Crashed? { return Crashed; }
      if one.Raised? { return Raised(one.error); }
      ExitAdded(met.broker, after.broker, met.staged, after.staged, exits, positions, symbols[..k], s, one.value);
      assert symbols[..k + 1] == symbols[..k] + [s];
      exits := exits + [one.value];
    }
    assert symbols[..|symbols|] == symbols;
    r := Returned(exits);
  }

  lemma NoExitsYet(v: BrokerView, db: Db, positions: map<Text, int>, symbols: seq<Text>)
    ensures ExitsPlaced(v, db, [], positions, symbols[..0])
  {
  }

  /** What held when the first exit was created. */
  datatype Checked = Checked(db: Db, broker: BrokerView, ids: seq<Text>)

  ghost predicate ReadyToExit(at: Checked, positions: map<Text, int>) {
    && BrokerInv(at.broker) && Sound(at.broker, at.db)
    && (forall c :: c in at.db.intents ==> !Unsettled(at.db.intents[c].status))
    && Project(at.db.fills, at.db.mirrors).Ok?
    && positions == PositionsOf(Project(at.db.fills, at.db.mirrors).value.lots)
    && Enumerates(at.ids, at.broker.orders.Keys)
    && BookAgrees(positions, FillsIn(at.broker.orders, at.ids), OrdersOf(at.broker.orders))
  }

  /** The book to sell: agreed with the broker, tradable, and priced. */
  method CheckBook(engine: ExecutionEngine, limits: map<Text, Cents>)
    returns (book: Option<map<Text, int>>, ghost at: Checked)
    requires engine.Valid()
    requires forall c :: c in engine.uow.staged.intents ==> !Unsettled(engine.uow.staged.intents[c].status)
    ensures at.db == engine.uow.staged && at.broker == engine.broker.View()
    ensures book.Some? ==> ReadyToExit(at, book.value) && book.value.Keys <= limits.Keys
    ensures book.Some? ==> forall s :: s in book.value ==> book.value[s] > 0 && engine.broker.Tradable(s)
  {
    hide Good, BrokerInv, Log, Follows, BookAgrees, Enumerates, ReadyToExit, Sound;
    var agreed, ids := AgreedBook(engine);
    GoodBroker(engine.State());
    at := Checked(engine.uow.staged, engine.broker.View(), ids);
    if agreed.None? { return None, at; }
    var tradable := AllTradable(engine, agreed.value);
    if !tradable || !(agreed.value.Keys <= limits.Keys) { return None, at; }
    Readiness(at, agreed.value);
    HeldArePositive(Project(at.db.fills, at.db.mirrors).value.lots);
    book := agreed;
  }

  /**
   * Cancels every open order and sells every ledger position.  When it applies: entries were
   * paused, every live order was asked to cancel, nothing was unsettled and the broker's
   * positions equalled the ledger's before the first exit, and every position has exactly one
   * accepted exit for exactly its shares, durable and at the broker.
   */
  method FlattenPaper(engine: ExecutionEngine, confirmed: bool, date: Text, limits: map<Text, Cents>, cancelAt: Time)
    returns (r: Command<seq<OrderIntent>>, positions: map<Text, int>, symbols: seq<Text>, ghost at: Checked)
    requires engine.Valid()
    modifies engine, engine.broker, engine.broker.clock, engine.uow
    ensures engine.Valid() && Extends(old(engine.State()), engine.State())
    ensures !confirmed || !old(engine.uow.staged).paused ==> r.Refused? && engine.State() == old(engine.State())
    ensures r.Applied? ==> forall c {:trigger old(engine.uow.staged).intents[c]} :: c in old(engine.uow.staged).intents ==>
      Live(old(engine.uow.staged).intents[c].status) ==> Asked(old(engine.cancels), engine.cancels, c)
    ensures r.Applied? ==> ReadyToExit(at, positions) && forall s :: s in positions ==> engine.broker.Tradable(s)
    ensures r.Applied? ==> Enumerates(symbols, positions.Keys)
                           && ExitsPlaced(engine.broker.View(), engine.uow.durable, r.value, positions, symbols)
                           && ExitsOrdered(r.value, symbols, limits, date, at.db.flattenGeneration + 1, cancelAt)
                           && ExitsNew(at.db, r.value)
                           && BrokerGrows(at.broker, engine.broker.View())
    ensures r.Applied? && old(engine.uow.staged) == old(engine.uow.durable) ==> at.db in engine.uow.history
  {
    hide Good, BrokerInv, Log, Follows, BrokerGrows, ExitsPlaced, ExitsOrdered, BookAgrees, Enumerates,
      ReadyToExit, Asked;
    ghost var before := engine.State();
    BrokerStays(before.broker);
    positions, symbols, at := map[], [], Checked(engine.uow.staged, engine.broker.View(), []);
    if !confirmed || !engine.uow.staged.paused { return Refused, positions, symbols, at; }
    var converged := Converge(engine);
    ghost var first := engine.State();
    if converged.Crashed? { return Died, positions, symbols, at; }
    var unsettled := AnyUnsettled(engine.uow);
    if converged.Raised? || unsettled {
      r := Abort(engine);
      ExtendsComposes(before, first, engine.State());
      return;
    }
    var book;
    book, at := CheckBook(engine, limits);
    ghost var checked := engine.State();
    BrokerStays(checked.broker);
    LogEnds(engine.uow.history);
    if book.None? {
      r := Abort(engine);
      ExtendsComposes(before, first, engine.State());
      return;
    }
    positions := book.value;
    symbols := Sorted(positions.Keys);
    EnumeratesAll(symbols, positions.Keys);
    ghost var asked := engine.cancels;
    var generation := Bump(engine);
    ghost var second := engine.State();
    ExtendsComposes(before, first, second);
    var exits := SubmitExits(engine, positions, symbols, limits, date, generation, cancelAt);
    ghost var third := engine.State();
    ExtendsComposes(before, second, third);
    if exits.Crashed? { return Died, positions, symbols, at; }
    if exits.Raised? {
      r := Abort(engine);
      ExtendsComposes(before, third, engine.State());
      return;
    }
    var committed := CommitOrDie(engine);
    ExtendsComposes(before, third, engine.State());
    ExtendsComposes(checked, second, third);
    ExtendsComposes(checked, third, engine.State());
    r := if committed then Applied(exits.value) else Died;
  }

  lemma EnumeratesAll(ids: seq<Text>, keys: set<Text>)
    requires Enumerates(ids, keys)
    ensures forall s :: s in ids <==> s in keys
  {
  }

  lemma Readiness(at: Checked, positions: map<Text, int>)
    requires BrokerInv(at.broker) && Sound(at.broker, at.db)
    requires forall c :: c in at.db.intents ==> !Unsettled(at.db.intents[c].status)
    requires Enumerates(at.ids, at.broker.orders.Keys) && Project(at.db.fills, at.db.mirrors).Ok?
    requires positions == PositionsOf(Project(at.db.fills, at.db.mirrors).value.lots)
    requires BookAgrees(positions, FillsIn(at.broker.orders, at.ids), OrdersOf(at.broker.orders))
    ensures ReadyToExit(at, positions)
  {
  }

  /** The generation is durable together with the first exit. */
  method Bump(engine: ExecutionEngine) returns (generation: nat)
    requires engine.Valid()
    modifies engine.uow
    ensures engine.Valid() && Extends(old(engine.State()), engine.State())
    ensures generation == old(engine.uow.staged).flattenGeneration + 1 == engine.uow.staged.flattenGeneration
    ensures engine.uow.staged == old(engine.uow.staged).(flattenGeneration := generation)
  {
    hide Good, BrokerInv, Log, Follows, Sound;
    ghost var before := engine.State();
    GoodBroker(before);
    BrokerStays(before.broker);
    generation := engine.uow.BumpFlattenGeneration();
    SoundByTables(before.broker, before.staged, engine.uow.staged);
    BumpLinked(before, engine.uow.staged);
    GoodStaged(before, engine.State());
  }

  lemma BumpLinked(w: World, s: Db)
    requires Good(w) && s == w.staged.(flattenGeneration := s.flattenGeneration)
    ensures Linked(w.durable, s, true)
  {
  }
}
