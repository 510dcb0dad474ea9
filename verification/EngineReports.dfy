// What the engine knows about a report of this broker: it passes every check, and taking it in
// keeps the tables sound (src/seven_lens/application/execution_service.py:540-700).

module EngineReports {
  import opened Orders
  import opened Clocks
  import opened FakeBroker
  import opened Persistence
  import opened ExecutionState
  import opened MirrorRefresh
  import opened ReportHandling

  /** `o` came from the broker and is no older than the mirror. */
  ghost predicate Reported(v: BrokerView, db: Db, o: BrokerOrder) {
    && Past(v, o) && FilledExactly(o)
    && (o.brokerOrderId in db.mirrors ==> MirrorMayBecome(db.mirrors[o.brokerOrderId], o))
  }

  lemma CurrentIsReported(v: BrokerView, db: Db, b: Text)
    requires BrokerInv(v) && Sound(v, db) && b in v.orders
    ensures Reported(v, db, v.orders[b].order)
  {
    assert OrderStateValid(b, v.orders[b]);
    if b in db.mirrors { assert Past(v, db.mirrors[b]); }
  }

  lemma ReportedLater(w: World, x: World, o: BrokerOrder)
    requires Reported(w.broker, w.staged, o) && Around(w, x, false)
    ensures Reported(x.broker, x.staged, o)
  {
    PastUnderMoves(w.broker, x.broker, o);
  }

  /** This broker's report never contradicts the intent or the mirrors. */
  lemma ReportMatches(v: BrokerView, db: Db, intent: OrderIntent, o: BrokerOrder)
    requires BrokerInv(v) && Sound(v, db) && Past(v, o)
    requires o.clientOrderId == intent.clientOrderId
    requires intent.clientOrderId in db.intents && db.intents[intent.clientOrderId] == intent
    ensures Matches(db, intent, o)
  {
    var c := intent.clientOrderId;
    assert c in v.byClient && v.byClient[c] == o.brokerOrderId;
    if c in db.mirrorByClient {
      assert Past(v, db.mirrors[db.mirrorByClient[c]]);
    }
    if o.brokerOrderId in db.mirrors { assert Past(v, db.mirrors[o.brokerOrderId]); }
  }

  lemma ReportSeen(v: BrokerView, db: Db, o: BrokerOrder, fills: seq<Fill>)
    requires BrokerInv(v) && Sound(v, db) && Reported(v, db, o) && o.clientOrderId in db.intents
    requires fills == v.orders[o.brokerOrderId].fills
    ensures Seen(v, db, o, fills)
  {
    if o.brokerOrderId !in db.mirrors { NoFillsWithoutMirror(db.fills, o.brokerOrderId); }
  }

  /** The recorded fills of the intent's order are the broker's. */
  ghost predicate CaughtUp(v: BrokerView, db: Db, c: Text) {
    && c in db.mirrorByClient
    && db.mirrorByClient[c] in v.orders
    && FillsOn(db.fills, db.mirrorByClient[c]) == v.orders[db.mirrorByClient[c]].fills
  }

  lemma RefreshCatchesUp(v: BrokerView, db: Db, o: BrokerOrder, fills: seq<Fill>)
    requires BrokerInv(v) && Sound(v, db) && Seen(v, db, o, fills) && fills == v.orders[o.brokerOrderId].fills
    ensures CaughtUp(v, Refreshed(db, o.clientOrderId, o, fills), o.clientOrderId)
  {
    MergeEqualizes(v, db, o, fills, o.brokerOrderId);
    hide FillsOn, BrokerInv, Sound;
  }

  lemma PastKnown(v: BrokerView, o: BrokerOrder)
    requires Past(v, o)
    ensures o.brokerOrderId in v.orders
  {
  }

  /** A report of this broker passes every check and leaves sound tables. */
  lemma ReportReady(v: BrokerView, db: Db, intent: OrderIntent, o: BrokerOrder, fills: seq<Fill>)
    requires BrokerInv(v) && Sound(v, db) && Reported(v, db, o)
    requires o.clientOrderId == intent.clientOrderId && intent.clientOrderId in db.intents
    requires db.intents[intent.clientOrderId] == intent
    requires o.brokerOrderId in v.orders && fills == v.orders[o.brokerOrderId].fills
    ensures Consistent(db.fills, o.brokerOrderId, fills) && RecordError(db, o) == None
    ensures Sound(v, Merged(db, o, fills))
    ensures TargetLegal(intent.status, o.status) ==> Sound(v, Refreshed(db, o.clientOrderId, o, fills))
    ensures CaughtUp(v, Refreshed(db, o.clientOrderId, o, fills), o.clientOrderId)
  {
    hide BrokerInv, Sound, Seen, CaughtUp, Refreshed;
    ReportSeen(v, db, o, fills);
    RefreshCatchesUp(v, db, o, fills);
    ReportAppends(v, db, o, fills);
    MergeSound(v, db, o, fills);
    if TargetLegal(intent.status, o.status) { RefreshSound(v, db, o, fills); }
  }

  lemma LinkedMerge(w: World, o: BrokerOrder, fills: seq<Fill>)
    requires Good(w)
    ensures var t := Merged(w.staged, o, fills);
            && Linked(w.durable, t, w.locked)
            && t.intents == w.staged.intents && t.flattenGeneration == w.staged.flattenGeneration
  {
  }

  lemma TargetAccepted(current: OrderStatus, reported: BrokerStatus)
    ensures var target := TargetStatus(current, reported);
            !PreBroker(target) && !target.SUBMITTING? && !target.UNKNOWN?
  {
  }

  /** The broker's current order for a client id is a report no older than the mirror. */
  lemma OrderReported(w: World, c: Text)
    requires Good(w)
    ensures c in w.broker.byClient ==>
      && w.broker.byClient[c] in w.broker.orders
      && w.broker.orders[w.broker.byClient[c]].order.clientOrderId == c
      && Reported(w.broker, w.staged, w.broker.orders[w.broker.byClient[c]].order)
  {
    if c in w.broker.byClient { CurrentIsReported(w.broker, w.staged, w.broker.byClient[c]); }
  }

  /** What is left of `ReportAbsorbed` when nothing conflicts. */
  lemma ReportTaken(durable: Db, staged: Db, intent: OrderIntent, o: BrokerOrder, fills: seq<Fill>,
                    nextDurable: Db, nextStaged: Db, r: Outcome<OrderIntent>)
    requires intent.clientOrderId in staged.intents
    requires ReportAbsorbed(durable, staged, intent, o, fills, nextDurable, nextStaged, r)
    requires Consistent(staged.fills, o.brokerOrderId, fills) && RecordError(staged, o) == None
    ensures r.Raised? ==> r.error == NoLegalTransition && !TargetLegal(intent.status, o.status)
                          && nextDurable == durable && nextStaged == Merged(staged, o, fills)
    ensures r.Crashed? ==> nextStaged == nextDurable == durable
    ensures r.Returned? ==> TargetLegal(intent.status, o.status)
                            && nextDurable == nextStaged == Refreshed(staged, intent.clientOrderId, o, fills)
                            && r.value == nextDurable.intents[intent.clientOrderId]
  {
  }
}
