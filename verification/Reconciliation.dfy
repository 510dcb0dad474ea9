// Broker-versus-ledger reconciliation (src/seven_lens/application/reconciliation_service.py).
//
// One run reads a coherent local snapshot and the broker's answers.  The answers are
// arbitrary: nothing says that two of them describe one moment.

module Reconciliation {
  import opened Orders
  import opened Sequences
  import opened Ledger
  import opened LedgerLaws
  import opened Persistence
  import opened Reports

  datatype Account = Account(accountId: Text, paper: bool, cash: int, equity: int, buyingPower: int)

  datatype Policy = Policy(expectedAccountId: Text, cashTolerance: nat, navTolerance: nat)

  datatype Baseline = Baseline(openingCash: nat, effectiveAt: Time, cutoffAt: Option<Time>, cutoffId: Option<Text>)

  /** Mark prices: no provider, or a provider that knows some symbols. */
  datatype Marks = NoProvider | Provider(prices: map<Text, Cents>)

  datatype LocalView = LocalView(
    intents: map<Text, OrderIntent>,
    review: seq<OrderIntent>,
    unknown: seq<OrderIntent>,
    openMirrors: seq<BrokerOrder>,
    mirrors: seq<BrokerOrder>,
    fills: seq<Fill>,
    baseline: Option<Baseline>)

  datatype BrokerPosition = BrokerPosition(symbol: Text, quantity: Shares)

  /** What the broker answered: orders by client id, fills by broker id in each pass. */
  datatype Answers = Answers(
    account: Account,
    orders: map<Text, BrokerOrder>,
    openFills: map<Text, seq<Fill>>,
    openOrders: seq<BrokerOrder>,
    recentOrders: seq<BrokerOrder>,
    closedFills: map<Text, seq<Fill>>,
    positions: seq<BrokerPosition>)

  /** Broker queries made before the ledger is projected, and the one for positions after it. */
  datatype Query = OrderPasses | PositionPass

  /** Whether every broker query is answered, or some query fails: by transport, or with another error. */
  datatype Link = Up | Fails(at: Query, transport: bool)

  /** Why a run cannot be created. */
  datatype CollectError = BrokerLost | BrokerRefused | LedgerInvariant | ValueOutOfRange | TooManyMismatches

  const MAX_MISMATCHES := 10_000

  // ---------------------------------------------------------------- per-item findings

  function FillsAnswer(answers: map<Text, seq<Fill>>, b: Text): seq<Fill> {
    if b in answers then answers[b] else []
  }

  predicate KnownFill(fills: seq<Fill>, b: Text, id: Text) {
    exists f :: f in fills && f.brokerOrderId == b && f.executionId == id
  }

  function MissingFills(fills: seq<Fill>, b: Text, reported: seq<Fill>): seq<Mismatch> {
    if reported == [] then []
    else
      var last := reported[|reported| - 1];
      MissingFills(fills, b, reported[..|reported| - 1])
      + (if KnownFill(fills, b, last.executionId) then [] else [Mismatch(MISSING_LOCAL_FILL, last.executionId)])
  }

  predicate SameParams(o: BrokerOrder, i: OrderIntent) {
    o.symbol == i.symbol && o.side == i.side && o.quantity == i.quantity && o.limitPrice == i.limitPrice
  }

  /** A mirror the local side holds open against the broker's order for its client id. */
  function OpenMirrorFindings(local: LocalView, answers: Answers, m: BrokerOrder): seq<Mismatch> {
    var c := m.clientOrderId;
    if c !in answers.orders then [Mismatch(MISSING_BROKER_ORDER, m.brokerOrderId)]
    else
      var o := answers.orders[c];
      (if c in local.intents && !SameParams(o, local.intents[c]) then [Mismatch(PARAMETER_MISMATCH, m.brokerOrderId)] else [])
      + (if c in local.intents && Terminal(local.intents[c].status) && o.IsOpen()
         then [Mismatch(INTENT_STATUS_MISMATCH, m.brokerOrderId)] else [])
      + (if o.status != m.status then [Mismatch(STATUS_MISMATCH, m.brokerOrderId)] else [])
      + MissingFills(local.fills, m.brokerOrderId, FillsAnswer(answers.openFills, m.brokerOrderId))
  }

  predicate CheckedOpen(local: LocalView, b: Text) {
    exists m :: m in local.openMirrors && m.brokerOrderId == b
  }

  /** A mirror the open pass did not see, which the broker still holds open. */
  function ClosedMirrorFindings(local: LocalView, answers: Answers, m: BrokerOrder): seq<Mismatch> {
    if !CheckedOpen(local, m.brokerOrderId) && m.clientOrderId in answers.orders && answers.orders[m.clientOrderId].IsOpen()
    then [Mismatch(STATUS_MISMATCH, m.brokerOrderId)] else []
  }

  predicate MirroredClient(local: LocalView, c: Text) {
    exists m :: m in local.mirrors && m.clientOrderId == c
  }

  function OpenOrderFindings(local: LocalView, o: BrokerOrder): seq<Mismatch> {
    if MirroredClient(local, o.clientOrderId) then [] else [Mismatch(UNKNOWN_BROKER_ORDER, o.brokerOrderId)]
  }

  function ClosedOrderFindings(local: LocalView, answers: Answers, o: BrokerOrder): seq<Mismatch> {
    var mirror := MirrorOf(local.mirrors, o.clientOrderId);
    if mirror.None? then [Mismatch(UNKNOWN_BROKER_ORDER, o.brokerOrderId)]
    else
      (if o.status != mirror.value.status then [Mismatch(STATUS_MISMATCH, mirror.value.brokerOrderId)] else [])
      + MissingFills(local.fills, mirror.value.brokerOrderId, FillsAnswer(answers.closedFills, o.brokerOrderId))
  }

  function MirrorOf(mirrors: seq<BrokerOrder>, c: Text): (m: Option<BrokerOrder>)
    ensures m.Some? ==> m.value in mirrors && m.value.clientOrderId == c
    ensures m.None? ==> forall o :: o in mirrors ==> o.clientOrderId != c
  {
    if mirrors == [] then None
    else if mirrors[0].clientOrderId == c then Some(mirrors[0])
    else MirrorOf(mirrors[1..], c)
  }

  /** The recent report of an order is old news when the open snapshot is newer or says the same. */
  predicate OldNews(reported: map<Text, BrokerOrder>, o: BrokerOrder) {
    && o.brokerOrderId in reported
    && var seen := reported[o.brokerOrderId];
       o.updatedAt < seen.updatedAt || (o.updatedAt == seen.updatedAt && o.status == seen.status)
  }

  function ReportedOpen(open: seq<BrokerOrder>): map<Text, BrokerOrder> {
    if open == [] then map[]
    else ReportedOpen(open[..|open| - 1])[open[|open| - 1].brokerOrderId := open[|open| - 1]]
  }

  /** The recent orders that the closed-history pass examines, and what it then holds reported. */
  function ClosedNews(reported: map<Text, BrokerOrder>, recent: seq<BrokerOrder>): (seq<BrokerOrder>, map<Text, BrokerOrder>) {
    if recent == [] then ([], reported)
    else
      var (news, known) := ClosedNews(reported, recent[..|recent| - 1]);
      var o := recent[|recent| - 1];
      if OldNews(known, o) || o.IsOpen() then (news, known) else (news + [o], known[o.brokerOrderId := o])
  }

  function FindingsOver(items: seq<BrokerOrder>, finding: BrokerOrder -> seq<Mismatch>): seq<Mismatch> {
    if items == [] then [] else FindingsOver(items[..|items| - 1], finding) + finding(items[|items| - 1])
  }

  function Unresolved(intents: seq<OrderIntent>): seq<Mismatch> {
    if intents == [] then []
    else Unresolved(intents[..|intents| - 1]) + [Mismatch(INTENT_STATUS_MISMATCH, intents[|intents| - 1].clientOrderId)]
  }

  function OpenMirrorPass(local: LocalView, answers: Answers): BrokerOrder -> seq<Mismatch> {
    (m: BrokerOrder) => OpenMirrorFindings(local, answers, m)
  }

  function ClosedMirrorPass(local: LocalView, answers: Answers): BrokerOrder -> seq<Mismatch> {
    (m: BrokerOrder) => ClosedMirrorFindings(local, answers, m)
  }

  function OpenOrderPass(local: LocalView): BrokerOrder -> seq<Mismatch> {
    (o: BrokerOrder) => OpenOrderFindings(local, o)
  }

  function ClosedOrderPass(local: LocalView, answers: Answers): BrokerOrder -> seq<Mismatch> {
    (o: BrokerOrder) => ClosedOrderFindings(local, answers, o)
  }

  function News(answers: Answers): seq<BrokerOrder> {
    ClosedNews(ReportedOpen(answers.openOrders), answers.recentOrders).0
  }

  /** How many broker fills the open pass and the closed pass look at. */
  function OpenFillsChecked(answers: Answers, mirrors: seq<BrokerOrder>): nat {
    if mirrors == [] then 0
    else
      var m := mirrors[|mirrors| - 1];
      OpenFillsChecked(answers, mirrors[..|mirrors| - 1])
      + (if m.clientOrderId in answers.orders then |FillsAnswer(answers.openFills, m.brokerOrderId)| else 0)
  }

  function ClosedFillsChecked(local: LocalView, answers: Answers, news: seq<BrokerOrder>): nat {
    if news == [] then 0
    else
      ClosedFillsChecked(local, answers, news[..|news| - 1]) + ClosedFillsOf(local, answers, news[|news| - 1])
  }

  function ClosedFillsOf(local: LocalView, answers: Answers, o: BrokerOrder): nat {
    if MirrorOf(local.mirrors, o.clientOrderId).Some? then |FillsAnswer(answers.closedFills, o.brokerOrderId)| else 0
  }

  function FillsChecked(local: LocalView, answers: Answers): nat {
    OpenFillsChecked(answers, local.openMirrors) + ClosedFillsChecked(local, answers, News(answers))
  }

  /** Orders looked at: every open mirror, closed mirrors the broker still holds open, and what the broker lists. */
  function OrdersChecked(local: LocalView, answers: Answers): nat {
    |local.openMirrors| + |FindingsOver(local.mirrors, ClosedMirrorPass(local, answers))|
    + |answers.openOrders| + |News(answers)|
  }

  /** Everything the order passes report, in order. */
  function OrderFindings(local: LocalView, answers: Answers): seq<Mismatch> {
    (if answers.account.paper then [] else [Mismatch(NON_PAPER_ACCOUNT, "broker account does not assert PAPER")])
    + Unresolved(local.review) + Unresolved(local.unknown)
    + FindingsOver(local.openMirrors, OpenMirrorPass(local, answers))
    + FindingsOver(local.mirrors, ClosedMirrorPass(local, answers))
    + FindingsOver(answers.openOrders, OpenOrderPass(local))
    + FindingsOver(News(answers), ClosedOrderPass(local, answers))
  }

  // ---------------------------------------------------------------- the passes, as the source runs them

  lemma FindingsNext(items: seq<BrokerOrder>, i: nat, finding: BrokerOrder -> seq<Mismatch>)
    requires i < |items|
    ensures FindingsOver(items[..i + 1], finding) == FindingsOver(items[..i], finding) + finding(items[i])
  {
    assert items[..i + 1][..i] == items[..i];
  }

  method CollectUnresolved(intents: seq<OrderIntent>) returns (found: seq<Mismatch>)
    ensures found == Unresolved(intents)
  {
    found := [];
    for i := 0 to |intents|
      invariant found == Unresolved(intents[..i])
    {
      assert intents[..i + 1][..i] == intents[..i];
      found := found + [Mismatch(INTENT_STATUS_MISMATCH, intents[i].clientOrderId)];
    }
    assert intents[..|intents|] == intents;
  }

  method CollectMissing(fills: seq<Fill>, b: Text, reported: seq<Fill>) returns (found: seq<Mismatch>)
    ensures found == MissingFills(fills, b, reported)
  {
    var ids := set f | f in fills && f.brokerOrderId == b :: f.executionId;
    found := [];
    for i := 0 to |reported|
      invariant found == MissingFills(fills, b, reported[..i])
    {
      assert reported[..i + 1][..i] == reported[..i];
      if reported[i].executionId !in ids {
        found := found + [Mismatch(MISSING_LOCAL_FILL, reported[i].executionId)];
      }
    }
    assert reported[..|reported|] == reported;
  }

  method CollectOpenMirrors(local: LocalView, answers: Answers) returns (found: seq<Mismatch>, checkedFills: nat)
    ensures found == FindingsOver(local.openMirrors, OpenMirrorPass(local, answers))
    ensures checkedFills == OpenFillsChecked(answers, local.openMirrors)
  {
    found, checkedFills := [], 0;
    var mirrors := local.openMirrors;
    for i := 0 to |mirrors|
      invariant found == FindingsOver(mirrors[..i], OpenMirrorPass(local, answers))
      invariant checkedFills == OpenFillsChecked(answers, mirrors[..i])
    {
      assert mirrors[..i + 1][..i] == mirrors[..i];
      FindingsNext(mirrors, i, OpenMirrorPass(local, answers));
      var m := mirrors[i];
      if m.clientOrderId !in answers.orders {
        found := found + [Mismatch(MISSING_BROKER_ORDER, m.brokerOrderId)];
      } else {
        var one := CompareOpenMirror(local, answers, m);
        checkedFills := checkedFills + |FillsAnswer(answers.openFills, m.brokerOrderId)|;
        found := found + one;
      }
    }
    assert mirrors[..|mirrors|] == mirrors;
  }

  method CompareOpenMirror(local: LocalView, answers: Answers, m: BrokerOrder) returns (found: seq<Mismatch>)
    requires m.clientOrderId in answers.orders
    ensures found == OpenMirrorFindings(local, answers, m)
  {
    var o := answers.orders[m.clientOrderId];
    found := [];
    if m.clientOrderId in local.intents {
      var intent := local.intents[m.clientOrderId];
      if o.symbol != intent.symbol || o.side != intent.side || o.quantity != intent.quantity || o.limitPrice != intent.limitPrice {
        found := found + [Mismatch(PARAMETER_MISMATCH, m.brokerOrderId)];
      }
      if Terminal(intent.status) && o.IsOpen() {
        found := found + [Mismatch(INTENT_STATUS_MISMATCH, m.brokerOrderId)];
      }
    }
    if o.status != m.status { found := found + [Mismatch(STATUS_MISMATCH, m.brokerOrderId)]; }
    var missing := CollectMissing(local.fills, m.brokerOrderId, FillsAnswer(answers.openFills, m.brokerOrderId));
    found := found + missing;
  }

  method CollectClosedMirrors(local: LocalView, answers: Answers) returns (found: seq<Mismatch>)
    ensures found == FindingsOver(local.mirrors, ClosedMirrorPass(local, answers))
  {
    var checkedIds := set m | m in local.openMirrors :: m.brokerOrderId;
    found := [];
    var mirrors := local.mirrors;
    for i := 0 to |mirrors|
      invariant found == FindingsOver(mirrors[..i], ClosedMirrorPass(local, answers))
    {
      FindingsNext(mirrors, i, ClosedMirrorPass(local, answers));
      var m := mirrors[i];
      if m.brokerOrderId !in checkedIds && m.clientOrderId in answers.orders && answers.orders[m.clientOrderId].IsOpen() {
        found := found + [Mismatch(STATUS_MISMATCH, m.brokerOrderId)];
      }
    }
    assert mirrors[..|mirrors|] == mirrors;
  }

  method CollectOpenOrders(local: LocalView, answers: Answers) returns (found: seq<Mismatch>, reported: map<Text, BrokerOrder>)
    ensures found == FindingsOver(answers.openOrders, OpenOrderPass(local))
    ensures reported == ReportedOpen(answers.openOrders)
  {
    var knownClients := set m | m in local.mirrors :: m.clientOrderId;
    found, reported := [], map[];
    var open := answers.openOrders;
    for i := 0 to |open|
      invariant found == FindingsOver(open[..i], OpenOrderPass(local))
      invariant reported == ReportedOpen(open[..i])
    {
      FindingsNext(open, i, OpenOrderPass(local));
      assert open[..i + 1][..i] == open[..i];
      reported := reported[open[i].brokerOrderId := open[i]];
      if open[i].clientOrderId !in knownClients {
        found := found + [Mismatch(UNKNOWN_BROKER_ORDER, open[i].brokerOrderId)];
      }
    }
    assert open[..|open|] == open;
  }

  method CollectClosedOrders(local: LocalView, answers: Answers, open: map<Text, BrokerOrder>)
    returns (found: seq<Mismatch>, checkedOrders: nat, checkedFills: nat)
    ensures found == FindingsOver(ClosedNews(open, answers.recentOrders).0, ClosedOrderPass(local, answers))
    ensures checkedOrders == |ClosedNews(open, answers.recentOrders).0|
    ensures checkedFills == ClosedFillsChecked(local, answers, ClosedNews(open, answers.recentOrders).0)
  {
    found, checkedOrders, checkedFills := [], 0, 0;
    var reported, recent := open, answers.recentOrders;
    assert recent[..0] == [];
    hide ClosedOrderFindings, ClosedFillsOf, FillsAnswer, BrokerOpen;
    for i := 0 to |recent|
      invariant found == FindingsOver(ClosedNews(open, recent[..i]).0, ClosedOrderPass(local, answers))
      invariant reported == ClosedNews(open, recent[..i]).1
      invariant checkedOrders == |ClosedNews(open, recent[..i]).0|
      invariant checkedFills == ClosedFillsChecked(local, answers, ClosedNews(open, recent[..i]).0)
    {
      NewsNext(local, answers, open, i);
      var o := recent[i];
      if o.brokerOrderId in reported
         && (o.updatedAt < reported[o.brokerOrderId].updatedAt
             || (o.updatedAt == reported[o.brokerOrderId].updatedAt && o.status == reported[o.brokerOrderId].status)) {
        continue;
      }
      if o.IsOpen() { continue; }
      reported := reported[o.brokerOrderId := o];
      var one, fills := CompareClosedOrder(local, answers, o);
      found, checkedOrders, checkedFills := found + one, checkedOrders + 1, checkedFills + fills;
    }
    assert recent[..|recent|] == recent;
  }

  /** One more recent order: skipped as old or open, or examined next. */
  lemma NewsNext(local: LocalView, answers: Answers, open: map<Text, BrokerOrder>, i: nat)
    requires i < |answers.recentOrders|
    ensures var recent := answers.recentOrders;
            var (news, known) := ClosedNews(open, recent[..i]);
            var o := recent[i];
            if OldNews(known, o) || o.IsOpen() then ClosedNews(open, recent[..i + 1]) == (news, known)
            else
              && ClosedNews(open, recent[..i + 1]) == (news + [o], known[o.brokerOrderId := o])
              && FindingsOver(news + [o], ClosedOrderPass(local, answers))
                 == FindingsOver(news, ClosedOrderPass(local, answers)) + ClosedOrderFindings(local, answers, o)
              && ClosedFillsChecked(local, answers, news + [o])
                 == ClosedFillsChecked(local, answers, news) + ClosedFillsOf(local, answers, o)
  {
    hide ClosedOrderFindings, ClosedFillsOf, BrokerOpen;
    var recent := answers.recentOrders;
    assert recent[..i + 1][..i] == recent[..i];
    var news, o := ClosedNews(open, recent[..i]).0, recent[i];
    assert (news + [o])[..|news|] == news;
  }

  method CompareClosedOrder(local: LocalView, answers: Answers, o: BrokerOrder)
    returns (found: seq<Mismatch>, checkedFills: nat)
    ensures found == ClosedOrderFindings(local, answers, o)
    ensures checkedFills == ClosedFillsOf(local, answers, o)
  {
    var mirror := MirrorOf(local.mirrors, o.clientOrderId);
    if mirror.None? { return [Mismatch(UNKNOWN_BROKER_ORDER, o.brokerOrderId)], 0; }
    found, checkedFills := [], |FillsAnswer(answers.closedFills, o.brokerOrderId)|;
    if o.status != mirror.value.status { found := [Mismatch(STATUS_MISMATCH, mirror.value.brokerOrderId)]; }
    var missing := CollectMissing(local.fills, mirror.value.brokerOrderId, FillsAnswer(answers.closedFills, o.brokerOrderId));
    found := found + missing;
  }

  // ---------------------------------------------------------------- positions

  /** The broker's positions by symbol; a later entry for a symbol replaces an earlier one. */
  function PositionView(positions: seq<BrokerPosition>): map<Text, int> {
    if positions == [] then map[]
    else
      var last := positions[|positions| - 1];
      PositionView(positions[..|positions| - 1])[last.symbol := last.quantity]
  }

  predicate PositionFinding(projected: map<Text, int>, broker: map<Text, int>, m: Mismatch) {
    var s := m.detail;
    || (m.kind == POSITION_SYMBOL_MISMATCH && (s in projected) != (s in broker))
    || (m.kind == POSITION_QUANTITY_MISMATCH && s in projected && s in broker && projected[s] != broker[s])
  }

  /** The symbols held on one side only, or in different quantities. */
  function Differing(projected: map<Text, int>, broker: map<Text, int>): set<Text> {
    set s | s in projected.Keys + broker.Keys && !(s in projected && s in broker && projected[s] == broker[s])
  }

  lemma OneSymbolLess(differing: set<Text>, symbols: set<Text>, s: Text)
    requires s in symbols
    ensures |differing - (symbols - {s})| == |differing - symbols| + (if s in differing then 1 else 0)
  {
    assert differing - (symbols - {s}) == (differing - symbols) + (if s in differing then {s} else {});
  }

  method ComparePositions(projected: map<Text, int>, broker: map<Text, int>) returns (found: seq<Mismatch>)
    ensures forall m :: m in found <==> PositionFinding(projected, broker, m)
    ensures |found| == |Differing(projected, broker)|
  {
    found := [];
    var symbols := projected.Keys + broker.Keys;
    ghost var differing := Differing(projected, broker);
    assert differing - symbols == {};
    while symbols != {}
      invariant symbols <= projected.Keys + broker.Keys
      invariant forall m :: m in found <==> PositionFinding(projected, broker, m) && m.detail !in symbols
      invariant |found| == |differing - symbols|
    {
      var s :| s in symbols;
      OneSymbolLess(differing, symbols, s);
      if (s in projected) != (s in broker) {
        found := found + [Mismatch(POSITION_SYMBOL_MISMATCH, s)];
      } else if projected[s] != broker[s] {
        found := found + [Mismatch(POSITION_QUANTITY_MISMATCH, s)];
      }
      symbols := symbols - {s};
    }
    assert differing - symbols == differing;
  }

  lemma NoPositionFindings(projected: map<Text, int>, broker: map<Text, int>, found: seq<Mismatch>)
    requires forall m :: m in found <==> PositionFinding(projected, broker, m)
    ensures found == [] <==> projected == broker
  {
    if found == [] {
      forall s
        ensures (s in projected) == (s in broker)
        ensures s in projected && s in broker ==> projected[s] == broker[s]
      {
        assert Mismatch(POSITION_SYMBOL_MISMATCH, s) !in found;
        assert Mismatch(POSITION_QUANTITY_MISMATCH, s) !in found;
      }
    } else {
      assert found[0] in found;
    }
  }

  // ---------------------------------------------------------------- expected cash

  /** A fill after the checkpoint: later in time, or at the same time with a later execution id. */
  predicate AfterCheckpoint(b: Baseline, f: Fill) {
    if b.cutoffAt.Some? && b.cutoffId.Some? then
      f.occurredAt > b.cutoffAt.value
      || (f.occurredAt == b.cutoffAt.value && f.executionId != b.cutoffId.value && TextLeq(b.cutoffId.value, f.executionId))
    else if b.cutoffAt.Some? then f.occurredAt > b.cutoffAt.value
    else f.occurredAt >= b.effectiveAt
  }

  function CountsAfter(b: Baseline): Fill -> bool {
    (f: Fill) => AfterCheckpoint(b, f)
  }

  function PostFills(b: Baseline, fills: seq<Fill>): seq<Fill> {
    Filter(fills, CountsAfter(b))
  }

  function ExpectedCash(b: Baseline, fills: seq<Fill>, orders: map<Text, BrokerOrder>): int {
    b.openingCash + CashOf(PostFills(b, fills), orders)
  }

  /** The running cash delta stays representable after every fill. */
  predicate CashStaysBounded(fills: seq<Fill>, orders: map<Text, BrokerOrder>) {
    forall k :: 0 < k <= |fills| ==> Bounded(CashOf(fills[..k], orders))
  }

  method CashDelta(fills: seq<Fill>, orders: map<Text, BrokerOrder>) returns (delta: Option<int>)
    ensures delta.Some? <==> KnownOrders(fills, orders) && CashStaysBounded(fills, orders)
    ensures delta.Some? ==> delta.value == CashOf(fills, orders)
  {
    var total := 0;
    for i := 0 to |fills|
      invariant total == CashOf(fills[..i], orders)
      invariant KnownOrders(fills[..i], orders)
      invariant forall k :: 0 < k <= i ==> Bounded(CashOf(fills[..k], orders))
    {
      var f := fills[i];
      assert fills[..i + 1] == fills[..i] + [f] && f in fills;
      SumByAppend(fills[..i], f, CashEffect(orders));
      if f.brokerOrderId !in orders { return None; }
      if orders[f.brokerOrderId].side == BUY { total := total - f.quantity * f.price; }
      else { total := total + f.quantity * f.price; }
      if !Bounded(total) { return None; }
    }
    assert fills[..|fills|] == fills;
    delta := Some(total);
  }

  // ---------------------------------------------------------------- the account

  predicate Within(a: int, b: int, tolerance: nat) {
    a - b <= tolerance && b - a <= tolerance
  }

  /** Net asset value agrees: at the marks, or plain cash when nothing is held and nothing can be marked. */
  predicate NavAgrees(marks: Marks, p: LedgerProjection, expected: int, equity: int, tolerance: nat) {
    if marks.NoProvider? then PositionsOf(p.lots) == map[] && Within(equity, expected, tolerance)
    else
      && Priced(p.lots, marks.prices)
      && EquityFrom(expected, p.lots, marks.prices).Ok?
      && Within(equity, EquityFrom(expected, p.lots, marks.prices).value, tolerance)
  }

  predicate AccountAgrees(policy: Policy, marks: Marks, local: LocalView, account: Account,
                          orders: map<Text, BrokerOrder>, p: LedgerProjection)
  {
    && account.accountId == policy.expectedAccountId
    && account.buyingPower >= 0
    && local.baseline.Some?
    && var expected := ExpectedCash(local.baseline.value, local.fills, orders);
       && Within(account.cash, expected, policy.cashTolerance)
       && NavAgrees(marks, p, expected, account.equity, policy.navTolerance)
  }

  /** The cash delta names an unknown order or leaves the ledger's range: a ledger error. */
  predicate CashRaises(local: LocalView, orders: map<Text, BrokerOrder>) {
    local.baseline.Some? &&
    var post := PostFills(local.baseline.value, local.fills);
    !(KnownOrders(post, orders) && CashStaysBounded(post, orders))
  }

  /** Every lot has a mark, and expected cash or the marked account is out of range: a plain value error. */
  predicate NavRaises(marks: Marks, local: LocalView, orders: map<Text, BrokerOrder>, p: LedgerProjection) {
    && local.baseline.Some? && !CashRaises(local, orders)
    && marks.Provider? && Priced(p.lots, marks.prices)
    && var expected := ExpectedCash(local.baseline.value, local.fills, orders);
       !Bounded(expected) || !Bounded(expected + SumBy(p.lots, MarkedAt(marks.prices)))
  }

  /** What the NAV check can report, and when. */
  predicate NavFinding(marks: Marks, p: LedgerProjection, expected: int, equity: int, tolerance: nat, m: Mismatch) {
    || (m == Mismatch(ACCOUNT_RECONCILIATION_UNAVAILABLE, "missing mark price provider")
        && marks.NoProvider? && PositionsOf(p.lots) != map[])
    || (m == Mismatch(ACCOUNT_RECONCILIATION_UNAVAILABLE, "mark price unavailable")
        && marks.Provider? && !Priced(p.lots, marks.prices))
    || (m == Mismatch(NAV_MISMATCH, "nav") && !NavAgrees(marks, p, expected, equity, tolerance)
        && (if marks.NoProvider? then PositionsOf(p.lots) == map[] else Priced(p.lots, marks.prices)))
  }

  /** What the account checks can report, and when. */
  predicate AccountFinding(policy: Policy, marks: Marks, local: LocalView, account: Account,
                           orders: map<Text, BrokerOrder>, p: LedgerProjection, m: Mismatch)
  {
    || (m == Mismatch(ACCOUNT_ID_MISMATCH, account.accountId) && account.accountId != policy.expectedAccountId)
    || (m == Mismatch(BUYING_POWER_MISMATCH, "buying power") && account.buyingPower < 0)
    || (m == Mismatch(ACCOUNT_RECONCILIATION_UNAVAILABLE, "missing opening cash baseline") && local.baseline.None?)
    || (local.baseline.Some? &&
        var expected := ExpectedCash(local.baseline.value, local.fills, orders);
        || (m == Mismatch(CASH_MISMATCH, "cash") && !Within(account.cash, expected, policy.cashTolerance))
        || NavFinding(marks, p, expected, account.equity, policy.navTolerance, m))
  }

  /** How many findings that makes: one for each check that fails. */
  function AccountFindings(policy: Policy, marks: Marks, local: LocalView, account: Account,
                           orders: map<Text, BrokerOrder>, p: LedgerProjection): nat
  {
    (if account.accountId == policy.expectedAccountId then 0 else 1)
    + (if account.buyingPower >= 0 then 0 else 1)
    + (if local.baseline.None? then 1
       else
         var expected := ExpectedCash(local.baseline.value, local.fills, orders);
         (if Within(account.cash, expected, policy.cashTolerance) then 0 else 1)
         + (if NavAgrees(marks, p, expected, account.equity, policy.navTolerance) then 0 else 1))
  }

  method CollectAccount(policy: Policy, marks: Marks, local: LocalView, account: Account,
                        orders: map<Text, BrokerOrder>, p: LedgerProjection)
    returns (found: Result<seq<Mismatch>, CollectError>)
    ensures found == Err(LedgerInvariant) <==> CashRaises(local, orders)
    ensures found == Err(ValueOutOfRange) <==> NavRaises(marks, local, orders, p)
    ensures found.Err? ==> found.error == LedgerInvariant || found.error == ValueOutOfRange
    ensures found.Ok? ==> (found.value == [] <==> AccountAgrees(policy, marks, local, account, orders, p))
    ensures found.Ok? ==>
      forall m :: m in found.value <==> AccountFinding(policy, marks, local, account, orders, p, m)
    ensures found.Ok? ==> |found.value| == AccountFindings(policy, marks, local, account, orders, p)
  {
    hide NavAgrees, NavFinding, Bounded, CashOf, PostFills, EquityFrom, PositionsOf;
    var idOk := account.accountId == policy.expectedAccountId;
    var all: seq<Mismatch> := if idOk then [] else [Mismatch(ACCOUNT_ID_MISMATCH, account.accountId)];
    if account.buyingPower < 0 { all := all + [Mismatch(BUYING_POWER_MISMATCH, "buying power")]; }
    if local.baseline.None? {
      return Ok(all + [Mismatch(ACCOUNT_RECONCILIATION_UNAVAILABLE, "missing opening cash baseline")]);
    }
    var baseline := local.baseline.value;
    var delta := CashDelta(PostFills(baseline, local.fills), orders);
    if delta.None? { return Err(LedgerInvariant); }
    var expected := baseline.openingCash + delta.value;
    if !Within(account.cash, expected, policy.cashTolerance) { all := all + [Mismatch(CASH_MISMATCH, "cash")]; }
    var nav := CompareNav(policy, marks, account, p, expected);
    if nav.None? { return Err(ValueOutOfRange); }
    found := Ok(all + nav.value);
  }

  lemma HeldIsPriced(lots: seq<OpenLot>, prices: map<Text, Cents>)
    ensures Priced(lots, prices) ==> forall s :: s in PositionsOf(lots) ==> s in prices
  {
  }

  method CompareNav(policy: Policy, marks: Marks, account: Account, p: LedgerProjection, expected: int)
    returns (found: Option<seq<Mismatch>>)
    ensures found.None? <==> marks.Provider? && Priced(p.lots, marks.prices)
                             && (!Bounded(expected) || !Bounded(expected + SumBy(p.lots, MarkedAt(marks.prices))))
    ensures found.Some? ==> |found.value| <= 1 && (found.value == [] <==> NavAgrees(marks, p, expected, account.equity, policy.navTolerance))
    ensures found.Some? ==>
      forall m :: m in found.value <==> NavFinding(marks, p, expected, account.equity, policy.navTolerance, m)
  {
    var positions := Positions(p.lots);
    if marks.NoProvider? {
      if positions != map[] {
        return Some([Mismatch(ACCOUNT_RECONCILIATION_UNAVAILABLE, "missing mark price provider")]);
      }
      return Some(if Within(account.equity, expected, policy.navTolerance) then [] else [Mismatch(NAV_MISMATCH, "nav")]);
    }
    if exists s :: s in positions && s !in marks.prices {
      HeldIsPriced(p.lots, marks.prices);
      return Some([Mismatch(ACCOUNT_RECONCILIATION_UNAVAILABLE, "mark price unavailable")]);
    }
    assert Priced(p.lots, marks.prices) by {
      forall lot | lot in p.lots ensures lot.symbol in marks.prices { assert lot.symbol in PositionsOf(p.lots); }
    }
    var equity := AccountEquity(expected, p.lots, marks.prices);
    if equity.Err? { return None; }
    found := Some(if Within(account.equity, equity.value, policy.navTolerance) then [] else [Mismatch(NAV_MISMATCH, "nav")]);
  }

  // ---------------------------------------------------------------- one run

  function MirrorMap(mirrors: seq<BrokerOrder>): map<Text, BrokerOrder> {
    if mirrors == [] then map[]
    else MirrorMap(mirrors[..|mirrors| - 1])[mirrors[|mirrors| - 1].brokerOrderId := mirrors[|mirrors| - 1]]
  }

  /** Every check the run makes passes. */
  predicate Agrees(policy: Option<Policy>, marks: Marks, local: LocalView, answers: Answers, p: LedgerProjection) {
    && OrderFindings(local, answers) == []
    && PositionsOf(p.lots) == PositionView(answers.positions)
    && (policy.Some? ==> AccountAgrees(policy.value, marks, local, answers.account, MirrorMap(local.mirrors), p))
  }

  /** The ledger, or the cash delta the account check needs, raises its own error. */
  predicate LedgerRaises(policy: Option<Policy>, local: LocalView) {
    Project(local.fills, MirrorMap(local.mirrors)).Err? || (policy.Some? && CashRaises(local, MirrorMap(local.mirrors)))
  }

  /** A broker query fails before anything else goes wrong. */
  predicate BrokerFails(link: Link, local: LocalView, transport: bool) {
    && link.Fails? && link.transport == transport
    && (link.at.OrderPasses? || Project(local.fills, MirrorMap(local.mirrors)).Ok?)
  }

  /** The ledger error is reached before any broker query fails. */
  predicate LedgerFails(link: Link, policy: Option<Policy>, local: LocalView) {
    || (link.Up? && LedgerRaises(policy, local))
    || (link.Fails? && link.at.PositionPass? && Project(local.fills, MirrorMap(local.mirrors)).Err?)
  }

  /** The account check raises a plain value error. */
  predicate ValueRaises(policy: Option<Policy>, marks: Marks, local: LocalView) {
    var p := Project(local.fills, MirrorMap(local.mirrors));
    p.Ok? && policy.Some? && NavRaises(marks, local, MirrorMap(local.mirrors), p.value)
  }

  predicate Raises(policy: Option<Policy>, marks: Marks, local: LocalView) {
    LedgerRaises(policy, local) || ValueRaises(policy, marks, local)
  }

  /** How many findings a run that raises nothing has. */
  function FindingCount(policy: Option<Policy>, marks: Marks, local: LocalView, answers: Answers): nat
    requires !Raises(policy, marks, local)
  {
    var orders := MirrorMap(local.mirrors);
    var p := Project(local.fills, orders).value;
    |OrderFindings(local, answers)| + |Differing(PositionsOf(p.lots), PositionView(answers.positions))|
    + (if policy.None? then 0 else AccountFindings(policy.value, marks, local, answers.account, orders, p))
  }

  /** More findings than one run may hold: creating it raises. */
  predicate TooMany(policy: Option<Policy>, marks: Marks, local: LocalView, answers: Answers) {
    !Raises(policy, marks, local) && FindingCount(policy, marks, local, answers) > MAX_MISMATCHES
  }

  /** Positions, then the account when a policy asks for it. */
  method CollectBook(policy: Option<Policy>, marks: Marks, local: LocalView, answers: Answers,
                     orders: map<Text, BrokerOrder>, p: LedgerProjection)
    returns (found: Result<seq<Mismatch>, CollectError>)
    ensures found == Err(LedgerInvariant) <==> policy.Some? && CashRaises(local, orders)
    ensures found == Err(ValueOutOfRange) <==> policy.Some? && NavRaises(marks, local, orders, p)
    ensures found.Err? ==> found.error == LedgerInvariant || found.error == ValueOutOfRange
    ensures found.Ok? ==>
      (found.value == [] <==>
         && PositionsOf(p.lots) == PositionView(answers.positions)
         && (policy.Some? ==> AccountAgrees(policy.value, marks, local, answers.account, orders, p)))
    ensures found.Ok? ==>
      forall m :: m in found.value <==>
        || PositionFinding(PositionsOf(p.lots), PositionView(answers.positions), m)
        || (policy.Some? && AccountFinding(policy.value, marks, local, answers.account, orders, p, m))
    ensures found.Ok? ==>
      |found.value| == |Differing(PositionsOf(p.lots), PositionView(answers.positions))|
                       + (if policy.None? then 0 else AccountFindings(policy.value, marks, local, answers.account, orders, p))
  {
    hide AccountAgrees, CashRaises, NavRaises, AccountFinding, AccountFindings, PositionsOf, PositionView, PositionFinding,
      Differing;
    var projected := Positions(p.lots);
    var broker := PositionView(answers.positions);
    var moved := ComparePositions(projected, broker);
    NoPositionFindings(projected, broker, moved);
    if policy.None? { return Ok(moved); }
    var account := CollectAccount(policy.value, marks, local, answers.account, orders, p);
    found := if account.Ok? then Ok(moved + account.value) else account;
  }

  /** Everything before the ledger: unresolved intents, then the four order passes. */
  method CollectOrders(local: LocalView, answers: Answers)
    returns (found: seq<Mismatch>, checkedOrders: nat, checkedFills: nat)
    ensures found == OrderFindings(local, answers)
    ensures checkedOrders == OrdersChecked(local, answers) && checkedFills == FillsChecked(local, answers)
  {
    found := if answers.account.paper then [] else [Mismatch(NON_PAPER_ACCOUNT, "broker account does not assert PAPER")];
    var review := CollectUnresolved(local.review);
    var unknown := CollectUnresolved(local.unknown);
    var open, openFills := CollectOpenMirrors(local, answers);
    var drifted := CollectClosedMirrors(local, answers);
    var strange, reported := CollectOpenOrders(local, answers);
    var closed, news, closedFills := CollectClosedOrders(local, answers, reported);
    found := found + review + unknown + open + drifted + strange + closed;
    checkedOrders := |local.openMirrors| + |drifted| + |answers.openOrders| + news;
    checkedFills := openFills + closedFills;
  }

  /**
   * One run's result, or why there is none.  A transport failure and a ledger error are caught by
   * the caller; another broker error, a value out of range and too many findings are not.
   */
  method Collect(link: Link, policy: Option<Policy>, marks: Marks, local: LocalView, answers: Answers, now: Time)
    returns (r: Result<ReconciliationResult, CollectError>)
    ensures r == Err(BrokerLost) <==> BrokerFails(link, local, true)
    ensures r == Err(BrokerRefused) <==> BrokerFails(link, local, false)
    ensures r == Err(LedgerInvariant) <==> LedgerFails(link, policy, local)
    ensures r == Err(ValueOutOfRange) <==> link.Up? && ValueRaises(policy, marks, local)
    ensures r == Err(TooManyMismatches) <==> link.Up? && TooMany(policy, marks, local, answers)
    ensures r.Ok? ==> link.Up? && !Raises(policy, marks, local)
                      && |r.value.mismatches| == FindingCount(policy, marks, local, answers) <= MAX_MISMATCHES
    ensures r.Ok? ==>
      (r.value.Clean() <==> Agrees(policy, marks, local, answers, Project(local.fills, MirrorMap(local.mirrors)).value))
    ensures r.Ok? ==> (r.value.scope == FULL <==> policy.Some?) && r.value.observedAt == now
    ensures r.Ok? ==> OrderFindings(local, answers) <= r.value.mismatches
    ensures r.Ok? ==>
      var orders := MirrorMap(local.mirrors);
      var p := Project(local.fills, orders).value;
      forall m :: m in r.value.mismatches <==>
        || m in OrderFindings(local, answers)
        || PositionFinding(PositionsOf(p.lots), PositionView(answers.positions), m)
        || (policy.Some? && AccountFinding(policy.value, marks, local, answers.account, orders, p, m))
    ensures r.Ok? ==> r.value.checkedFills == FillsChecked(local, answers)
    ensures r.Ok? ==> r.value.checkedOrders == OrdersChecked(local, answers)
  {
    hide AccountAgrees, CashRaises, NavRaises, AccountFinding, AccountFindings, MirrorMap, PositionsOf, PositionView, Project,
      PositionFinding, Differing, OrderFindings, OrdersChecked, FillsChecked;
    if link.Fails? && link.at.OrderPasses? { return Err(if link.transport then BrokerLost else BrokerRefused); }
    var all, checkedOrders, checkedFills := CollectOrders(local, answers);
    var orders := MirrorMap(local.mirrors);
    var projection := ProjectLedger(local.fills, orders);
    if projection.Err? { return Err(LedgerInvariant); }
    if link.Fails? { return Err(if link.transport then BrokerLost else BrokerRefused); }
    var book := CollectBook(policy, marks, local, answers, orders, projection.value);
    if book.Err? { return Err(book.error); }
    all := all + book.value;
    if |all| > MAX_MISMATCHES { return Err(TooManyMismatches); }
    r := Ok(ReconciliationResult(all, checkedOrders, checkedFills, now, if policy.Some? then FULL else PARTIAL));
  }
}
