// What a CLEAN, FULL reconciliation means (src/seven_lens/application/reconciliation_service.py:200-548).

module ReconciliationLaws {
  import opened Orders
  import opened Sequences
  import opened Ledger
  import opened LedgerLaws
  import opened Persistence
  import opened Reports
  import opened Reconciliation

  // ---------------------------------------------------------------- order views

  predicate FillsKnown(fills: seq<Fill>, b: Text, reported: seq<Fill>) {
    forall f :: f in reported ==> KnownFill(fills, b, f.executionId)
  }

  /** A locally open mirror agrees with the broker's order for its client id. */
  predicate OpenMirrorAgrees(local: LocalView, answers: Answers, m: BrokerOrder) {
    && m.clientOrderId in answers.orders
    && var o := answers.orders[m.clientOrderId];
       && o.status == m.status
       && (m.clientOrderId in local.intents ==>
             SameParams(o, local.intents[m.clientOrderId])
             && !(Terminal(local.intents[m.clientOrderId].status) && o.IsOpen()))
       && FillsKnown(local.fills, m.brokerOrderId, FillsAnswer(answers.openFills, m.brokerOrderId))
  }

  predicate ClosedOrderAgrees(local: LocalView, answers: Answers, o: BrokerOrder) {
    && var m := MirrorOf(local.mirrors, o.clientOrderId);
       m.Some? && o.status == m.value.status
       && FillsKnown(local.fills, m.value.brokerOrderId, FillsAnswer(answers.closedFills, o.brokerOrderId))
  }

  predicate OrdersAgree(local: LocalView, answers: Answers) {
    && answers.account.paper
    && local.review == [] && local.unknown == []
    && (forall m :: m in local.openMirrors ==> OpenMirrorAgrees(local, answers, m))
    && (forall m :: m in local.mirrors && !CheckedOpen(local, m.brokerOrderId) && m.clientOrderId in answers.orders ==>
          !answers.orders[m.clientOrderId].IsOpen())
    && (forall o :: o in answers.openOrders ==> MirroredClient(local, o.clientOrderId))
    && (forall o :: o in News(answers) ==> ClosedOrderAgrees(local, answers, o))
  }

  lemma {:induction false} NoFindingsOver(items: seq<BrokerOrder>, finding: BrokerOrder -> seq<Mismatch>)
    ensures FindingsOver(items, finding) == [] <==> forall o :: o in items ==> finding(o) == []
  {
    if items != [] {
      var rest, last := items[..|items| - 1], items[|items| - 1];
      assert items == rest + [last];
      NoFindingsOver(rest, finding);
    }
  }

  lemma {:induction false} NoneMissing(fills: seq<Fill>, b: Text, reported: seq<Fill>)
    ensures MissingFills(fills, b, reported) == [] <==> FillsKnown(fills, b, reported)
  {
    if reported != [] {
      var rest, last := reported[..|reported| - 1], reported[|reported| - 1];
      assert reported == rest + [last];
      NoneMissing(fills, b, rest);
    }
  }

  lemma OpenMirrorVerdict(local: LocalView, answers: Answers, m: BrokerOrder)
    ensures OpenMirrorFindings(local, answers, m) == [] <==> OpenMirrorAgrees(local, answers, m)
  {
    NoneMissing(local.fills, m.brokerOrderId, FillsAnswer(answers.openFills, m.brokerOrderId));
  }

  lemma ClosedOrderVerdict(local: LocalView, answers: Answers, o: BrokerOrder)
    ensures ClosedOrderFindings(local, answers, o) == [] <==> ClosedOrderAgrees(local, answers, o)
  {
    var m := MirrorOf(local.mirrors, o.clientOrderId);
    if m.Some? { NoneMissing(local.fills, m.value.brokerOrderId, FillsAnswer(answers.closedFills, o.brokerOrderId)); }
  }

  /** The order passes find nothing exactly when every order view agrees. */
  lemma NothingFoundMeansAgreement(local: LocalView, answers: Answers)
    ensures OrderFindings(local, answers) == [] <==> OrdersAgree(local, answers)
  {
    NoFindingsOver(local.openMirrors, OpenMirrorPass(local, answers));
    NoFindingsOver(local.mirrors, ClosedMirrorPass(local, answers));
    NoFindingsOver(answers.openOrders, OpenOrderPass(local));
    NoFindingsOver(News(answers), ClosedOrderPass(local, answers));
    hide OpenMirrorFindings, OpenMirrorAgrees, ClosedOrderFindings, ClosedOrderAgrees, FindingsOver, News, CheckedOpen,
      MirroredClient;
    forall m ensures OpenMirrorFindings(local, answers, m) == [] <==> OpenMirrorAgrees(local, answers, m) {
      OpenMirrorVerdict(local, answers, m);
    }
    forall o ensures ClosedOrderFindings(local, answers, o) == [] <==> ClosedOrderAgrees(local, answers, o) {
      ClosedOrderVerdict(local, answers, o);
    }
  }

  // ---------------------------------------------------------------- the closed-history rule

  ghost predicate DistinctOrders(orders: seq<BrokerOrder>) {
    forall i, j :: 0 <= i < j < |orders| ==> orders[i].brokerOrderId != orders[j].brokerOrderId
  }

  function IsNews(open: map<Text, BrokerOrder>): BrokerOrder -> bool {
    (o: BrokerOrder) => !OldNews(open, o) && !o.IsOpen()
  }

  /** When the history names each order once, the pass examines the closed orders the open snapshot does not outdate. */
  lemma {:induction false} NewsIsClosedAndFresh(open: map<Text, BrokerOrder>, recent: seq<BrokerOrder>)
    requires DistinctOrders(recent)
    ensures ClosedNews(open, recent).0 == Filter(recent, IsNews(open))
    ensures forall b :: (forall o :: o in recent ==> o.brokerOrderId != b) ==>
              (b in ClosedNews(open, recent).1) == (b in open)
              && (b in open ==> ClosedNews(open, recent).1[b] == open[b])
  {
    if recent != [] {
      var rest, last := recent[..|recent| - 1], recent[|recent| - 1];
      NewsIsClosedAndFresh(open, rest);
      forall o | o in rest ensures o.brokerOrderId != last.brokerOrderId {
        var i :| 0 <= i < |rest| && rest[i] == o;
        assert recent[i] == o;
      }
      assert OldNews(ClosedNews(open, rest).1, last) == OldNews(open, last);
      assert last in recent;
      assert forall o :: o in rest ==> o in recent;
    }
  }

  // ---------------------------------------------------------------- the verdict against the tables

  ghost predicate Lists(db: Db, found: seq<OrderIntent>, status: OrderStatus) {
    found == [] <==> forall c :: c in db.intents ==> db.intents[c].status != status
  }

  /** `local` is a coherent snapshot of the tables. */
  ghost predicate ViewOf(db: Db, local: LocalView) {
    && local.intents == db.intents && local.fills == db.fills
    && Lists(db, local.review, REVIEW_REQUIRED) && Lists(db, local.unknown, UNKNOWN)
    && (forall m :: m in local.mirrors <==> m.brokerOrderId in db.mirrors && db.mirrors[m.brokerOrderId] == m)
    && (forall m :: m in local.openMirrors <==> m in local.mirrors && !BrokerTerminal(m.status))
  }

  lemma {:induction false} MirrorMapMembers(mirrors: seq<BrokerOrder>)
    ensures forall b :: b in MirrorMap(mirrors) ==> MirrorMap(mirrors)[b] in mirrors && MirrorMap(mirrors)[b].brokerOrderId == b
    ensures forall m :: m in mirrors ==> m.brokerOrderId in MirrorMap(mirrors)
  {
    if mirrors != [] {
      var rest, last := mirrors[..|mirrors| - 1], mirrors[|mirrors| - 1];
      assert mirrors == rest + [last];
      MirrorMapMembers(rest);
    }
  }

  lemma MirrorMapIsTable(db: Db, local: LocalView)
    requires Tables(db) && ViewOf(db, local)
    ensures MirrorMap(local.mirrors) == db.mirrors
  {
    MirrorMapMembers(local.mirrors);
    forall b | b in db.mirrors
      ensures b in MirrorMap(local.mirrors) && MirrorMap(local.mirrors)[b] == db.mirrors[b]
    {
      assert db.mirrors[b].brokerOrderId == b;
      assert db.mirrors[b] in local.mirrors;
    }
  }

  function BrokerShares(answers: Answers, s: Text): int {
    var view := PositionView(answers.positions);
    if s in view then view[s] else 0
  }

  /** Each broker position is the local buys minus the local sells of that symbol. */
  ghost predicate PositionsNet(db: Db, answers: Answers) {
    forall s :: BrokerShares(answers, s) == Bought(db.fills, db.mirrors, s) - Sold(db.fills, db.mirrors, s)
  }

  lemma {:induction false} PositionsPositive(positions: seq<BrokerPosition>)
    ensures forall s :: s in PositionView(positions) ==> PositionView(positions)[s] > 0
  {
    if positions != [] { PositionsPositive(positions[..|positions| - 1]); }
  }

  lemma PositionsNetMeaning(db: Db, answers: Answers)
    requires Project(db.fills, db.mirrors).Ok?
    ensures PositionsOf(Project(db.fills, db.mirrors).value.lots) == PositionView(answers.positions) <==> PositionsNet(db, answers)
  {
    var held := PositionsOf(Project(db.fills, db.mirrors).value.lots);
    var view := PositionView(answers.positions);
    PositionsAreNetBuys(db.fills, db.mirrors);
    PositionsPositive(answers.positions);
    hide PositionsOf, PositionView;
    forall s ensures Sold(db.fills, db.mirrors, s) <= Bought(db.fills, db.mirrors, s) { FifoRefinement(db.fills, db.mirrors, s); }
    if PositionsNet(db, answers) {
      forall s
        ensures (s in held) == (s in view) && (s in held ==> held[s] == view[s])
      {
        assert BrokerShares(answers, s) == Bought(db.fills, db.mirrors, s) - Sold(db.fills, db.mirrors, s);
      }
    } else {
      var s :| BrokerShares(answers, s) != Bought(db.fills, db.mirrors, s) - Sold(db.fills, db.mirrors, s);
    }
  }

  /**
   * CLEAN and FULL soundness: a run that raised nothing is safe to resume from exactly when a
   * policy was set, no intent is UNKNOWN or under review, every order view agrees, each broker
   * position is local buys minus sells, and identity, cash and NAV agree within tolerance.
   */
  lemma ResumeSafeMeansAgreement(db: Db, local: LocalView, answers: Answers, policy: Option<Policy>, marks: Marks,
                                 run: ReconciliationResult)
    requires Tables(db) && ViewOf(db, local) && !Raises(policy, marks, local)
    requires run.Clean() <==> Agrees(policy, marks, local, answers, Project(local.fills, MirrorMap(local.mirrors)).value)
    requires run.scope == FULL <==> policy.Some?
    ensures Project(db.fills, db.mirrors).Ok?
    ensures run.ResumeSafe() <==>
            && policy.Some?
            && OrdersAgree(local, answers)
            && (forall c :: c in db.intents ==> db.intents[c].status != UNKNOWN && db.intents[c].status != REVIEW_REQUIRED)
            && PositionsNet(db, answers)
            && AccountAgrees(policy.value, marks, local, answers.account, db.mirrors, Project(db.fills, db.mirrors).value)
  {
    MirrorMapIsTable(db, local);
    NothingFoundMeansAgreement(local, answers);
    PositionsNetMeaning(db, answers);
    hide OrderFindings, PositionsNet, AccountAgrees, PositionsOf, PositionView, Project;
  }

  // ---------------------------------------------------------------- checkpoints

  /** `c` cuts off at the same (occurred_at, execution_id) as `b` or at a later one. */
  predicate CutsLater(b: Baseline, c: Baseline) {
    && b.cutoffAt.Some? && b.cutoffId.Some? && c.cutoffAt.Some? && c.cutoffId.Some?
    && (b.cutoffAt.value < c.cutoffAt.value
        || (b.cutoffAt.value == c.cutoffAt.value && TextLeq(b.cutoffId.value, c.cutoffId.value)))
  }

  function Between(b: Baseline, c: Baseline): Fill -> bool {
    (f: Fill) => AfterCheckpoint(b, f) && !AfterCheckpoint(c, f)
  }

  lemma {:induction false} FilterSplitsCash(fills: seq<Fill>, orders: map<Text, BrokerOrder>, b: Baseline, c: Baseline)
    requires forall f :: f in fills && AfterCheckpoint(c, f) ==> AfterCheckpoint(b, f)
    ensures CashOf(PostFills(b, fills), orders) == CashOf(PostFills(c, fills), orders) + CashOf(Filter(fills, Between(b, c)), orders)
  {
    if fills != [] {
      var rest, last := fills[..|fills| - 1], fills[|fills| - 1];
      assert fills == rest + [last];
      FilterSplitsCash(rest, orders, b, c);
      FilterSum(rest, last, CountsAfter(b), CashEffect(orders));
      FilterSum(rest, last, CountsAfter(c), CashEffect(orders));
      FilterSum(rest, last, Between(b, c), CashEffect(orders));
      hide SumBy, Filter;
    }
  }

  /** A later (occurred_at, execution_id) cutoff admits no fill the earlier one refused. */
  lemma LaterCutoffAdmitsFewer(b: Baseline, c: Baseline, f: Fill)
    requires CutsLater(b, c)
    ensures AfterCheckpoint(c, f) ==> AfterCheckpoint(b, f)
  {
    if AfterCheckpoint(c, f) && f.occurredAt == c.cutoffAt.value && b.cutoffAt.value == c.cutoffAt.value {
      TextTransitive(b.cutoffId.value, c.cutoffId.value, f.executionId);
      if f.executionId == b.cutoffId.value { TextAntisymmetric(c.cutoffId.value, f.executionId); }
    }
  }

  /**
   * Checkpoint independence: moving the cutoff forward, and opening cash by the signed fills
   * between, leaves expected cash, the checkpointed equity at any marks, and every account
   * finding as they were.
   */
  lemma RebaseKeepsExpectedCash(b: Baseline, c: Baseline, fills: seq<Fill>, orders: map<Text, BrokerOrder>)
    requires CutsLater(b, c)
    requires c.openingCash == b.openingCash + CashOf(Filter(fills, Between(b, c)), orders)
    ensures ExpectedCash(c, fills, orders) == ExpectedCash(b, fills, orders)
    ensures forall lots, prices :: EquityFrom(ExpectedCash(c, fills, orders), lots, prices)
                                   == EquityFrom(ExpectedCash(b, fills, orders), lots, prices)
  {
    forall f | f in fills ensures AfterCheckpoint(c, f) ==> AfterCheckpoint(b, f) { LaterCutoffAdmitsFewer(b, c, f); }
    FilterSplitsCash(fills, orders, b, c);
  }

  /** So the reconciled account agrees, and reports, the same with either checkpoint. */
  lemma RebaseKeepsVerdict(b: Baseline, c: Baseline, policy: Policy, marks: Marks, local: LocalView, account: Account,
                           orders: map<Text, BrokerOrder>, p: LedgerProjection)
    requires CutsLater(b, c)
    requires c.openingCash == b.openingCash + CashOf(Filter(local.fills, Between(b, c)), orders)
    ensures var was, now := local.(baseline := Some(b)), local.(baseline := Some(c));
            && (AccountAgrees(policy, marks, was, account, orders, p)
                <==> AccountAgrees(policy, marks, now, account, orders, p))
            && (forall m :: AccountFinding(policy, marks, was, account, orders, p, m)
                            <==> AccountFinding(policy, marks, now, account, orders, p, m))
  {
    hide ExpectedCash, Filter, NavAgrees, NavFinding, CutsLater;
    RebaseKeepsExpectedCash(b, c, local.fills, orders);
  }

  lemma {:induction false} FilterAll(fills: seq<Fill>, b: Baseline)
    requires forall f :: f in fills ==> AfterCheckpoint(b, f)
    ensures PostFills(b, fills) == fills
  {
    if fills != [] {
      var rest, last := fills[..|fills| - 1], fills[|fills| - 1];
      assert fills == rest + [last];
      FilterAll(rest, b);
    }
  }

  /** With the checkpoint before every fill, reconciliation values the account as the ledger does. */
  lemma GenesisNavIsValuation(b: Baseline, fills: seq<Fill>, orders: map<Text, BrokerOrder>, prices: map<Text, Cents>)
    requires Project(fills, orders).Ok?
    requires forall f :: f in fills ==> AfterCheckpoint(b, f)
    ensures ExpectedCash(b, fills, orders) == b.openingCash + Project(fills, orders).value.cashDeltaCents
    ensures Bounded(ExpectedCash(b, fills, orders)) ==>
              EquityFrom(ExpectedCash(b, fills, orders), Project(fills, orders).value.lots, prices)
              == Valuation(Project(fills, orders).value, b.openingCash, prices)
  {
    FilterAll(fills, b);
    ProjectCash(fills, orders);
    hide Project, Filter, SumBy;
  }

  lemma ProjectCash(fills: seq<Fill>, orders: map<Text, BrokerOrder>)
    requires Project(fills, orders).Ok?
    ensures Project(fills, orders).value.cashDeltaCents == CashOf(fills, orders)
  {
    FifoRefinement(fills, orders, "");
  }
}
