// What every state the engine can reach promises.  `Good` and `Log` are kept by every
// operation, every crash and everything others do (ExecutionEngine.dfy, Operations.dfy).

module ExecutionLaws {
  import opened Orders
  import opened Sequences
  import opened Ledger
  import opened LedgerLaws
  import opened FakeBroker
  import opened Persistence
  import opened ExecutionState
  import opened MirrorRefresh
  import opened Reports

  /** The order carries the parameters of a durable intent that left the outbox, and fills no more. */
  ghost predicate Backed(w: World, o: OrderState) {
    var c := o.order.clientOrderId;
    && c in w.durable.intents
    && OrderParams(o.order) == ParamsOf(w.durable.intents[c])
    && !PreBroker(w.durable.intents[c].status)
    && 0 <= SumBy(o.fills, Quantity()) == o.order.filledQuantity <= w.durable.intents[c].quantity
  }

  /** Exactly-once exposure: one client id has at most one broker order, backed by its intent. */
  lemma ExactlyOnceExposure(w: World, a: Text, b: Text)
    requires Good(w) && a in w.broker.orders && b in w.broker.orders
    requires w.broker.orders[a].order.clientOrderId == w.broker.orders[b].order.clientOrderId
    ensures a == b && Backed(w, w.broker.orders[a])
  {
    OneOrderPerClient(w.broker, a, b);
    assert OrderStateValid(a, w.broker.orders[a]);
    assert w.broker.orders[a].order.clientOrderId in w.broker.submitParams;
  }

  /** What a durable local status says about the broker, and of a filled intent about its recorded fills. */
  ghost predicate StatusTrue(w: World, c: Text)
    requires c in w.durable.intents
  {
    var s := w.durable.intents[c].status;
    && (PreBroker(s) ==> c !in w.broker.byClient && c !in w.broker.submitParams)
    && (s == EXPIRED ==> c !in w.broker.byClient || BrokerHas(w.broker, c, B_EXPIRED))
    && (s == REJECTED ==> c !in w.broker.byClient || BrokerHas(w.broker, c, B_REJECTED))
    && (s == CANCELED ==> BrokerHas(w.broker, c, B_CANCELED))
    && (s == FILLED ==>
          && BrokerHas(w.broker, c, B_FILLED)
          && SumBy(FillsOn(w.durable.fills, w.broker.byClient[c]), Quantity()) == w.durable.intents[c].quantity)
  }

  lemma DurableStatusIsTrue(w: World, c: Text)
    requires Good(w) && c in w.durable.intents
    ensures StatusTrue(w, c)
  {
    assert Truthful(w.broker, w.durable, c, w.durable.intents[c].status);
    if c in w.broker.byClient {
      var b := w.broker.byClient[c];
      assert OrderStateValid(b, w.broker.orders[b]);
      ExactlyOnceExposure(w, b, b);
    }
    if PreBroker(w.durable.intents[c].status) && c in w.broker.submitParams {
      assert false;
    }
  }

  // ---------------------------------------------------------------- fills

  lemma {:induction false} PrefixTotal(xs: seq<Fill>, ys: seq<Fill>)
    requires xs <= ys
    ensures SumBy(xs, Quantity()) <= SumBy(ys, Quantity())
    decreases |ys|
  {
    if |xs| < |ys| {
      assert xs <= ys[..|ys| - 1];
      PrefixTotal(xs, ys[..|ys| - 1]);
    } else {
      assert xs == ys;
    }
  }

  lemma {:induction false} FilledOnIsTotal(fills: seq<Fill>, b: Text)
    ensures FilledOn(fills, b) == SumBy(FillsOn(fills, b), Quantity())
  {
    if fills != [] {
      var rest, last := fills[..|fills| - 1], fills[|fills| - 1];
      FilledOnIsTotal(rest, b);
      if last.brokerOrderId == b { SumByAppend(FillsOn(rest, b), last, Quantity()); }
      else { assert FillsOn(rest, b) + [] == FillsOn(rest, b); }
    }
  }

  /**
   * Local fills stay ledger-ready: ids distinct, every order mirrored, totals within the
   * order; each order's recorded fills begin the broker's.  So the ledger can refuse them
   * only for an oversell or for its cash bound.
   */
  ghost predicate LedgerReady(w: World) {
    && DistinctIds(w.durable.fills)
    && KnownOrders(w.durable.fills, w.durable.mirrors)
    && TotalsFit(w.durable.fills, w.durable.mirrors)
    && (forall b {:trigger w.durable.mirrors[b]} :: b in w.durable.mirrors ==>
          b in w.broker.orders && FillsOn(w.durable.fills, b) <= w.broker.orders[b].fills)
    && var r := Project(w.durable.fills, w.durable.mirrors);
       r.Err? ==> r.error == Oversell || r.error == CashOutOfRange
  }

  lemma FillsStayLedgerReady(w: World)
    requires Good(w)
    ensures LedgerReady(w)
  {
    var db := w.durable;
    forall b | b in db.mirrors
      ensures FilledOn(db.fills, b) <= db.mirrors[b].quantity
    {
      FilledOnIsTotal(db.fills, b);
      assert Past(w.broker, db.mirrors[b]);
      assert OrderStateValid(b, w.broker.orders[b]);
      PrefixTotal(FillsOn(db.fills, b), w.broker.orders[b].fills);
    }
    ProjectFailsOnlyByOversellOrCash(db.fills, db.mirrors);
  }

  // ---------------------------------------------------------------- the entry gate

  predicate NothingUnresolved(db: Db) {
    forall c {:trigger db.intents[c]} :: c in db.intents ==>
      db.intents[c].status != UNKNOWN && db.intents[c].status != REVIEW_REQUIRED
  }

  /** The intent was durable as submitted; an entry was SUBMITTING, unpaused, with nothing unresolved. */
  ghost predicate PassedTheGate(w: World, a: Attempt) {
    && a.at < |w.history|
    && var i, db := a.intent, w.history[a.at];
       && i.clientOrderId in db.intents && db.intents[i.clientOrderId] == i
       && (i.intentType != RISK_EXIT ==> !db.paused && i.status == SUBMITTING && NothingUnresolved(db))
  }

  /** Every call to the broker was logged, and every entry among them passed the gate. */
  lemma EntriesPassTheGate(w: World, k: nat)
    requires Good(w) && k < w.calls
    ensures k < |w.attempts| && PassedTheGate(w, w.attempts[k])
  {
    assert Gated(w.attempts[k].intent, w.history[w.attempts[k].at]);
  }

  /** An entry that was ever durably UNKNOWN is not submitted from that state or any later one. */
  lemma UnknownEntryNeverResubmitted(w: World, n: nat, c: Text, k: nat)
    requires Good(w) && Log(w.history)
    requires n < |w.history| && c in w.history[n].intents
    requires w.history[n].intents[c].status == UNKNOWN && w.history[n].intents[c].intentType == REBALANCE
    requires k < |w.attempts| && w.attempts[k].intent.clientOrderId == c
    ensures w.attempts[k].at < n
  {
    var at := w.attempts[k].at;
    EntriesPassTheGate(w, k);
    if n <= at { UnknownNeverSubmitting(w.history[n], w.history[at], c); }
  }

  lemma UnknownNeverSubmitting(d: Db, e: Db, c: Text)
    requires Follows(d, e) && c in d.intents && d.intents[c].status == UNKNOWN
    ensures c in e.intents && e.intents[c].status != SUBMITTING && e.intents[c].intentType == d.intents[c].intentType
  {
    assert IntentFollows(d.intents[c], e.intents[c]);
  }

  predicate ReadyForEntries(db: Db) {
    && db.runs != [] && db.runs[|db.runs| - 1].mismatches == [] && db.runs[|db.runs| - 1].scope == FULL
    && NothingUnresolved(db)
  }

  /** Entries became unpaused only in a state whose latest run is FULL and CLEAN, with nothing unresolved. */
  lemma UnpausedOnlyWhenReady(history: seq<Db>, n: nat)
    requires Log(history) && n + 1 < |history| && history[n].paused && !history[n + 1].paused
    ensures ReadyForEntries(history[n + 1])
  {
    assert PauseRule(history[n + 1 - 1], history[n + 1]);
  }

  /** A status once left is not entered again: the durable history of one intent never goes back. */
  lemma StatusNeverReturns(history: seq<Db>, i: nat, j: nat, k: nat, c: Text)
    requires Log(history) && i <= j <= k < |history| && c in history[i].intents
    requires history[i].intents[c].status == history[k].intents[c].status
    requires !Live(history[i].intents[c].status)
    ensures c in history[j].intents && history[j].intents[c].status == history[i].intents[c].status
  {
    hide Follows, StatusFollows;
    StatusMoves(history[i], history[j], c);
    StatusMoves(history[j], history[k], c);
    NoWayBack(history[i].intents[c].status, history[j].intents[c].status);
  }

  lemma StatusMoves(d: Db, e: Db, c: Text)
    requires Follows(d, e) && c in d.intents
    ensures c in e.intents && StatusFollows(d.intents[c].status, e.intents[c].status)
  {
    assert IntentFollows(d.intents[c], e.intents[c]);
  }

  lemma NoWayBack(a: OrderStatus, b: OrderStatus)
    requires StatusFollows(a, b) && StatusFollows(b, a) && !Live(a)
    ensures a == b
  {
  }

  // ---------------------------------------------------------------- all of it at once

  /** What holds after every run: the laws above, for everything the run has left behind. */
  ghost predicate Safe(w: World) {
    && (forall a {:trigger w.broker.orders[a]} :: a in w.broker.orders ==> Backed(w, w.broker.orders[a]))
    && (forall a, b {:trigger w.broker.orders[a], w.broker.orders[b]} ::
          (a in w.broker.orders && b in w.broker.orders
           && w.broker.orders[a].order.clientOrderId == w.broker.orders[b].order.clientOrderId) ==> a == b)
    && (forall c {:trigger w.durable.intents[c]} :: c in w.durable.intents ==> StatusTrue(w, c))
    && LedgerReady(w)
    && |w.attempts| == w.calls
    && (forall k :: 0 <= k < |w.attempts| ==> PassedTheGate(w, w.attempts[k]))
    && (forall n, c, k {:trigger w.history[n].intents[c], w.attempts[k]} ::
          (0 <= n < |w.history| && WasUnknownEntry(w.history[n], c) && 0 <= k < |w.attempts|
           && w.attempts[k].intent.clientOrderId == c) ==> w.attempts[k].at < n)
    && (forall n {:trigger w.history[n].paused} ::
          (0 <= n < |w.history| - 1 && w.history[n].paused && !w.history[n + 1].paused) ==>
            ReadyForEntries(w.history[n + 1]))
  }

  predicate WasUnknownEntry(db: Db, c: Text) {
    c in db.intents && db.intents[c].status == UNKNOWN && db.intents[c].intentType == REBALANCE
  }

  lemma GoodIsSafe(w: World)
    requires Good(w) && Log(w.history)
    ensures Safe(w)
  {
    var n := w.calls;
    assert |w.attempts| == n;
    hide Good, Log, Backed, StatusTrue, LedgerReady, PassedTheGate, ReadyForEntries;
    forall a, b | a in w.broker.orders && b in w.broker.orders
      && w.broker.orders[a].order.clientOrderId == w.broker.orders[b].order.clientOrderId
      ensures a == b && Backed(w, w.broker.orders[a])
    {
      ExactlyOnceExposure(w, a, b);
    }
    forall c | c in w.durable.intents ensures StatusTrue(w, c) { DurableStatusIsTrue(w, c); }
    FillsStayLedgerReady(w);
    forall k | 0 <= k < |w.attempts| ensures PassedTheGate(w, w.attempts[k]) { EntriesPassTheGate(w, k); }
    forall n, c, k | 0 <= n < |w.history| && WasUnknownEntry(w.history[n], c) && 0 <= k < |w.attempts|
      && w.attempts[k].intent.clientOrderId == c
      ensures w.attempts[k].at < n
    {
      UnknownEntryNeverResubmitted(w, n, c, k);
    }
    forall n | 0 <= n < |w.history| - 1 && w.history[n].paused && !w.history[n + 1].paused
      ensures ReadyForEntries(w.history[n + 1])
    {
      UnpausedOnlyWhenReady(w.history, n);
    }
  }
}
