// A reconciliation answered by a broker whose every order has been taken in
// (src/seven_lens/application/reconciliation_service.py:200-548, execution/fake_broker.py:204-281).

module CleanReconciliation {
  import opened Orders
  import opened Ledger
  import opened LedgerLaws
  import opened FakeBroker
  import opened BrokerPositions
  import opened Persistence
  import opened Reports
  import opened ExecutionState
  import opened MirrorRefresh
  import opened PositionLaws
  import opened Reconciliation
  import opened ReconciliationLaws
  import opened Control

  /** Every query is answered from this view of the broker, and no order is withheld. */
  ghost predicate AnsweredBy(v: BrokerView, answers: Answers, ids: seq<Text>) {
    && (forall c :: c in answers.orders <==> c in v.byClient)
    && (forall c :: c in answers.orders ==> v.byClient[c] in v.orders && answers.orders[c] == v.orders[v.byClient[c]].order)
    && (forall o :: o in answers.openOrders || o in answers.recentOrders ==>
          o.brokerOrderId in v.orders && o == v.orders[o.brokerOrderId].order)
    && (forall b :: b in answers.openFills ==> b in v.orders && answers.openFills[b] == v.orders[b].fills)
    && (forall b :: b in answers.closedFills ==> b in v.orders && answers.closedFills[b] == v.orders[b].fills)
    && Enumerates(ids, v.orders.Keys)
    && (forall s {:trigger BrokerShares(answers, s)} ::
          BrokerShares(answers, s) == Net(FillsIn(v.orders, ids), OrdersOf(v.orders), s))
  }

  /** Every broker order is mirrored as it is now, with all its fills, and nothing is unresolved. */
  ghost predicate TakenIn(v: BrokerView, db: Db) {
    && AllCaughtUp(v, db)
    && (forall b {:trigger v.orders[b]} :: b in v.orders ==> db.mirrors[b] == v.orders[b].order)
    && !db.Unresolved()
  }

  lemma FillsOfOrderKnown(v: BrokerView, db: Db, b: Text)
    requires TakenIn(v, db) && b in v.orders
    ensures FillsKnown(db.fills, b, v.orders[b].fills)
  {
    FillsOnMembers(db.fills, b);
    forall f | f in v.orders[b].fills ensures KnownFill(db.fills, b, f.executionId) {
      assert f in FillsOn(db.fills, b);
    }
  }

  /** What is mirrored of one order is what the broker says of it. */
  lemma MirrorIsBrokers(v: BrokerView, db: Db, m: BrokerOrder)
    requires BrokerInv(v) && Sound(v, db) && TakenIn(v, db)
    requires m.brokerOrderId in db.mirrors && db.mirrors[m.brokerOrderId] == m
    ensures m.brokerOrderId in v.orders && v.orders[m.brokerOrderId].order == m
    ensures m.clientOrderId in v.byClient && v.byClient[m.clientOrderId] == m.brokerOrderId
    ensures m.clientOrderId in db.intents && SameParams(m, db.intents[m.clientOrderId])
    ensures !(Terminal(db.intents[m.clientOrderId].status) && m.IsOpen())
  {
    assert Past(v, m);
    assert v.orders[m.brokerOrderId].order.clientOrderId == m.clientOrderId;
    assert OrderParams(m) == v.submitParams[m.clientOrderId];
    assert Truthful(v, db, m.clientOrderId, db.intents[m.clientOrderId].status);
  }

  lemma OpenMirrorsAgree(v: BrokerView, db: Db, local: LocalView, answers: Answers, ids: seq<Text>, m: BrokerOrder)
    requires BrokerInv(v) && Sound(v, db) && TakenIn(v, db) && ViewOf(db, local) && AnsweredBy(v, answers, ids)
    requires m in local.mirrors
    ensures OpenMirrorAgrees(local, answers, m) && (m !in local.openMirrors ==> !m.IsOpen())
    ensures answers.orders[m.clientOrderId] == m
  {
    hide BrokerInv, Sound, TakenIn, Lists, Enumerates, FillsIn, FillsKnown;
    MirrorIsBrokers(v, db, m);
    FillsOfOrderKnown(v, db, m.brokerOrderId);
    assert FillsKnown(local.fills, m.brokerOrderId, FillsAnswer(answers.openFills, m.brokerOrderId)) by {
      if m.brokerOrderId !in answers.openFills { NothingReported(local.fills, m.brokerOrderId); }
    }
  }

  lemma NothingReported(fills: seq<Fill>, b: Text)
    ensures FillsKnown(fills, b, [])
  {
  }

  /** A reported order has exactly one mirror, and it says the same. */
  lemma ReportedIsMirrored(v: BrokerView, db: Db, local: LocalView, answers: Answers, ids: seq<Text>, o: BrokerOrder)
    requires BrokerInv(v) && Sound(v, db) && TakenIn(v, db) && ViewOf(db, local) && AnsweredBy(v, answers, ids)
    requires o.brokerOrderId in v.orders && o == v.orders[o.brokerOrderId].order
    ensures MirroredClient(local, o.clientOrderId) && ClosedOrderAgrees(local, answers, o)
  {
    hide BrokerInv, Sound, Lists, Enumerates, FillsIn, FillsKnown, MirrorOf;
    assert o in local.mirrors by { assert db.mirrors[o.brokerOrderId] == o; }
    var m := MirrorOf(local.mirrors, o.clientOrderId);
    assert m.Some?;
    MirrorIsBrokers(v, db, m.value);
    MirrorIsBrokers(v, db, o);
    FillsOfOrderKnown(v, db, o.brokerOrderId);
    if o.brokerOrderId !in answers.closedFills { NothingReported(local.fills, o.brokerOrderId); }
  }

  lemma {:induction false} NewsIsReported(reported: map<Text, BrokerOrder>, recent: seq<BrokerOrder>)
    ensures forall o :: o in ClosedNews(reported, recent).0 ==> o in recent
  {
    if recent != [] { NewsIsReported(reported, recent[..|recent| - 1]); }
  }

  /** Answered by such a broker, the order passes find nothing. */
  lemma OrderViewsAgree(v: BrokerView, db: Db, local: LocalView, answers: Answers, ids: seq<Text>)
    requires BrokerInv(v) && Sound(v, db) && TakenIn(v, db) && ViewOf(db, local) && AnsweredBy(v, answers, ids)
    requires answers.account.paper
    ensures OrdersAgree(local, answers)
  {
    hide BrokerInv, Sound, TakenIn, ClosedOrderAgrees, OpenMirrorAgrees, Enumerates, ViewOf, AnsweredBy, News, MirroredClient;
    NothingListed(v, db, local);
    forall m | m in local.mirrors
      ensures OpenMirrorAgrees(local, answers, m)
      ensures !CheckedOpen(local, m.brokerOrderId) && m.clientOrderId in answers.orders ==> !answers.orders[m.clientOrderId].IsOpen()
    {
      OpenMirrorsAgree(v, db, local, answers, ids, m);
    }
    forall o | o in answers.openOrders || o in News(answers)
      ensures MirroredClient(local, o.clientOrderId) && ClosedOrderAgrees(local, answers, o)
    {
      NewsIsAnswered(v, answers, ids, o);
      ReportedIsMirrored(v, db, local, answers, ids, o);
    }
  }

  lemma NewsIsAnswered(v: BrokerView, answers: Answers, ids: seq<Text>, o: BrokerOrder)
    requires AnsweredBy(v, answers, ids) && (o in answers.openOrders || o in News(answers))
    ensures o.brokerOrderId in v.orders && o == v.orders[o.brokerOrderId].order
  {
    hide Enumerates, FillsIn, ClosedNews;
    NewsIsReported(ReportedOpen(answers.openOrders), answers.recentOrders);
  }

  /** The positions it reports are the ledger's buys minus its sells. */
  lemma PositionViewsAgree(v: BrokerView, db: Db, answers: Answers, ids: seq<Text>)
    requires Sound(v, db) && TakenIn(v, db) && AnsweredBy(v, answers, ids)
    ensures PositionsNet(db, answers)
  {
    hide Sound, Net, FillsIn, OrdersOf, Enumerates, PositionView, AllCaughtUp;
    forall s ensures BrokerShares(answers, s) == Bought(db.fills, db.mirrors, s) - Sold(db.fills, db.mirrors, s) {
      NetAgrees(v, db, ids, s);
    }
  }

  /**
   * Answered by a broker whose every order has been taken in, the order and position checks of a
   * reconciliation find nothing.
   */
  lemma NothingToFind(w: World, local: LocalView, answers: Answers, ids: seq<Text>)
    requires Good(w) && ViewOf(w.durable, local) && TakenIn(w.broker, w.durable)
    requires AnsweredBy(w.broker, answers, ids) && answers.account.paper
    ensures OrdersAgree(local, answers) && PositionsNet(w.durable, answers)
  {
    hide BrokerInv, Sound, TakenIn, ViewOf, AnsweredBy, OrdersAgree, PositionsNet;
    OrderViewsAgree(w.broker, w.durable, local, answers, ids);
    PositionViewsAgree(w.broker, w.durable, answers, ids);
  }

  lemma NothingListed(v: BrokerView, db: Db, local: LocalView)
    requires ViewOf(db, local) && TakenIn(v, db)
    ensures local.review == [] && local.unknown == []
    ensures forall m :: m in local.openMirrors ==> m in local.mirrors
  {
    NoneListed(local.review);
    NoneListed(local.unknown);
  }

  lemma NoneListed(found: seq<OrderIntent>)
    ensures found == [] <==> forall i :: i !in found
  {
    if found != [] { assert found[0] in found; }
  }

  /** So such a run can only disagree about the account: it is resume-safe exactly when that agrees. */
  lemma OnlyTheAccountDecides(w: World, run: ReconciliationResult, policy: Option<Policy>, marks: Marks, local: LocalView,
                              answers: Answers, ids: seq<Text>)
    requires Good(w) && ViewOf(w.durable, local) && TakenIn(w.broker, w.durable)
    requires AnsweredBy(w.broker, answers, ids) && answers.account.paper
    requires RunReports(run, Up, policy, marks, w.durable, local, answers) && !Raises(policy, marks, local)
    ensures Project(w.durable.fills, w.durable.mirrors).Ok?
    ensures run.ResumeSafe() <==>
              policy.Some? && AccountAgrees(policy.value, marks, local, answers.account, w.durable.mirrors,
                                            Project(w.durable.fills, w.durable.mirrors).value)
  {
    hide Good, AnsweredBy, OrdersAgree, PositionsNet, ViewOf, AllCaughtUp, AccountAgrees, Project, Raises;
    NothingToFind(w, local, answers, ids);
    assert forall c :: c in w.durable.intents ==>
      w.durable.intents[c].status != UNKNOWN && w.durable.intents[c].status != REVIEW_REQUIRED;
  }
}
