// What holds between the Paper broker and the local tables at every point of every run
// (src/seven_lens/application/execution_service.py against execution/fake_broker.py), as
// predicates on values, and the steps that keep it.

module ExecutionState {
  import opened Orders
  import opened Sequences
  import opened FakeBroker
  import opened Persistence
  import opened Reports

  /** One call of the broker's submit, made when the durable state was `history[at]`. */
  datatype Attempt = Attempt(intent: OrderIntent, at: nat)

  datatype World = World(
    broker: BrokerView,
    durable: Db,
    staged: Db,
    locked: bool,
    history: seq<Db>,
    attempts: seq<Attempt>,
    calls: nat)

  // ---------------------------------------------------------------- broker against tables

  predicate InFlight(s: OrderStatus) { s.SUBMITTING? || s.UNKNOWN? }

  /** Statuses an intent can have without ever having been handed to the broker. */
  predicate NeverSent(s: OrderStatus) { PreBroker(s) || s.EXPIRED? || s.REJECTED? }

  predicate Live(s: OrderStatus) { s.ACKNOWLEDGED? || s.PARTIALLY_FILLED? || s.CANCEL_PENDING? }

  /** Every id the broker has seen belongs to an intent that left the outbox, unchanged. */
  ghost predicate SubmittedKnown(v: BrokerView, db: Db) {
    forall c {:trigger v.submitParams[c]} :: c in v.submitParams ==>
      && c in db.intents
      && !PreBroker(db.intents[c].status)
      && v.submitParams[c] == ParamsOf(db.intents[c])
  }

  /** `o` is what the broker reported at some earlier time, or reports now. */
  ghost predicate Past(v: BrokerView, o: BrokerOrder) {
    o.brokerOrderId in v.orders && MirrorMayBecome(o, v.orders[o.brokerOrderId].order)
  }

  /** Mirrors are past reports, and the recorded fills of an order begin the broker's own. */
  ghost predicate MirrorsPast(v: BrokerView, db: Db) {
    forall b {:trigger db.mirrors[b]} :: b in db.mirrors ==>
      && Past(v, db.mirrors[b])
      && b in v.orders
      && FillsOn(db.fills, b) <= v.orders[b].fills
  }

  ghost predicate BrokerHas(v: BrokerView, c: Text, s: BrokerStatus) {
    c in v.byClient && v.byClient[c] in v.orders && v.orders[v.byClient[c]].order.status == s
  }

  /** What a local status says about the broker. */
  ghost predicate Truthful(v: BrokerView, db: Db, c: Text, s: OrderStatus) {
    && (s.EXPIRED? ==> c !in v.byClient || BrokerHas(v, c, B_EXPIRED))
    && (s.REJECTED? ==> c !in v.byClient || BrokerHas(v, c, B_REJECTED))
    && (s.CANCELED? ==> BrokerHas(v, c, B_CANCELED))
    && (s.FILLED? ==> BrokerHas(v, c, B_FILLED) && FillsOn(db.fills, v.byClient[c]) == v.orders[v.byClient[c]].fills)
    && (Live(s) || s.FILLED? ==> c in db.mirrorByClient)
  }

  ghost predicate TerminalTruth(v: BrokerView, db: Db) {
    forall c {:trigger db.intents[c]} :: c in db.intents ==> Truthful(v, db, c, db.intents[c].status)
  }

  ghost predicate Sound(v: BrokerView, db: Db) {
    Tables(db) && SubmittedKnown(v, db) && MirrorsPast(v, db) && TerminalTruth(v, db)
  }

  /**
   * An open transaction differs from the durable state only in intents that were never
   * handed to the broker (and in mirrors, fills and a pause).
   */
  ghost predicate Linked(d: Db, s: Db, locked: bool) {
    && (forall c {:trigger d.intents[c]} :: c in d.intents && !PreBroker(d.intents[c].status) ==>
          c in s.intents && s.intents[c] == d.intents[c])
    && (forall c {:trigger s.intents[c]} :: c in s.intents && !NeverSent(s.intents[c].status) ==>
          c in d.intents && s.intents[c] == d.intents[c])
    && (d.paused ==> s.paused)
    && (!locked ==> d.paused == s.paused)
    && d.runs == s.runs
  }

  /** What a broker submission is allowed to find: an entry only through the gate. */
  predicate Gated(i: OrderIntent, db: Db) {
    && i.clientOrderId in db.intents
    && db.intents[i.clientOrderId] == i
    && InFlight(i.status)
    && (i.intentType == REBALANCE ==> i.status == SUBMITTING && !db.paused && !db.Unresolved())
  }

  ghost predicate AttemptsGated(attempts: seq<Attempt>, history: seq<Db>) {
    && (forall k :: 0 <= k < |attempts| ==>
          attempts[k].at < |history| && Gated(attempts[k].intent, history[attempts[k].at]))
    && (forall k, l :: 0 <= k <= l < |attempts| ==> attempts[k].at <= attempts[l].at)
  }

  ghost predicate Good(w: World) {
    && BrokerInv(w.broker)
    && Sound(w.broker, w.durable)
    && Sound(w.broker, w.staged)
    && Linked(w.durable, w.staged, w.locked)
    && AttemptsGated(w.attempts, w.history)
    && |w.attempts| == w.calls
  }

  // ---------------------------------------------------------------- the broker moves

  lemma PastUnderMoves(v: BrokerView, w: BrokerView, o: BrokerOrder)
    requires Moves(v, w) && Past(v, o)
    ensures Past(w, o)
  {
    var b := o.brokerOrderId;
    assert OrderAdvances(v.orders[b], w.orders[b]);
    BrokerReachesComposes(o.status, v.orders[b].order.status, w.orders[b].order.status);
  }

  lemma TruthUnderMoves(v: BrokerView, w: BrokerView, db: Db, c: Text, s: OrderStatus)
    requires ClientsIndexed(v) && Moves(v, w) && Truthful(v, db, c, s)
    ensures Truthful(w, db, c, s)
  {
    if c in v.byClient {
      assert OrderAdvances(v.orders[v.byClient[c]], w.orders[v.byClient[c]]);
    }
  }

  lemma SoundUnderMoves(v: BrokerView, w: BrokerView, db: Db)
    requires ClientsIndexed(v) && Moves(v, w) && Sound(v, db)
    ensures Sound(w, db)
  {
    forall b | b in db.mirrors
      ensures Past(w, db.mirrors[b]) && b in w.orders && FillsOn(db.fills, b) <= w.orders[b].fills
    {
      PastUnderMoves(v, w, db.mirrors[b]);
      assert OrderAdvances(v.orders[b], w.orders[b]);
    }
    forall c | c in db.intents
      ensures Truthful(w, db, c, db.intents[c].status)
    {
      TruthUnderMoves(v, w, db, c, db.intents[c].status);
    }
  }

  // ---------------------------------------------------------------- a submission

  lemma AcceptKeepsOrders(v: BrokerView, w: BrokerView, intent: OrderIntent, b: Text)
    requires BrokerInv(v) && Accepts(v, w, intent) && b in v.orders
    ensures b in w.orders && w.orders[b] == v.orders[b]
  {
  }

  lemma SoundUnderAccept(v: BrokerView, w: BrokerView, db: Db, intent: OrderIntent)
    requires BrokerInv(v) && Accepts(v, w, intent) && Sound(v, db)
    requires intent.clientOrderId in db.intents && InFlight(db.intents[intent.clientOrderId].status)
    requires ParamsOf(intent) == ParamsOf(db.intents[intent.clientOrderId])
    ensures Sound(w, db)
  {
    forall b | b in db.mirrors
      ensures Past(w, db.mirrors[b]) && b in w.orders && FillsOn(db.fills, b) <= w.orders[b].fills
    {
      AcceptKeepsOrders(v, w, intent, b);
    }
    forall c | c in db.intents
      ensures Truthful(w, db, c, db.intents[c].status)
    {
      assert Truthful(v, db, c, db.intents[c].status);
      if c in v.byClient { AcceptKeepsOrders(v, w, intent, v.byClient[c]); }
    }
  }

  lemma SoundUnderRejection(v: BrokerView, w: BrokerView, db: Db, intent: OrderIntent)
    requires Sound(v, db)
    requires intent.clientOrderId in db.intents && InFlight(db.intents[intent.clientOrderId].status)
    requires ParamsOf(intent) == ParamsOf(db.intents[intent.clientOrderId])
    requires w == v.(submitParams := v.submitParams[intent.clientOrderId := ParamsOf(intent)],
                     rejected := v.rejected + {intent.clientOrderId})
    ensures Sound(w, db)
  {
    forall c | c in db.intents
      ensures Truthful(w, db, c, db.intents[c].status)
    {
      assert Truthful(v, db, c, db.intents[c].status);
    }
  }

  // ---------------------------------------------------------------- local writes

  lemma KnownUnderTransition(v: BrokerView, db: Db, c: Text, target: OrderStatus)
    requires SubmittedKnown(v, db) && MayTransition(db, c, target)
    ensures SubmittedKnown(v, WithStatus(db, c, target))
  {
  }

  lemma SoundUnderTransition(v: BrokerView, db: Db, c: Text, target: OrderStatus)
    requires Sound(v, db) && MayTransition(db, c, target) && Truthful(v, db, c, target)
    ensures Sound(v, WithStatus(db, c, target))
  {
    var next := WithStatus(db, c, target);
    TransitionKeepsTables(db, c, target);
    hide Tables, BrokerHas, Past, IntentMayBecome, FillsOn;
    assert SubmittedKnown(v, next) by { KnownUnderTransition(v, db, c, target); }
    forall e | e in next.intents
      ensures Truthful(v, next, e, next.intents[e].status)
    {
      assert Truthful(v, db, e, db.intents[e].status);
    }
  }

  /** An intent that never left the outbox has no order, so it may expire locally. */
  lemma ExpiryIsTruthful(v: BrokerView, db: Db, c: Text)
    requires ClientsIndexed(v) && SubmittedKnown(v, db)
    requires c in db.intents && PreBroker(db.intents[c].status)
    ensures Truthful(v, db, c, EXPIRED) && Truthful(v, db, c, REJECTED)
  {
    assert c !in v.submitParams;
  }

  lemma SoundUnderRecord(v: BrokerView, db: Db, o: BrokerOrder)
    requires Sound(v, db) && Past(v, o) && RecordError(db, o) == None
    ensures Sound(v, Recorded(db, o))
  {
    var next := Recorded(db, o);
    RecordKeepsTables(db, o);
    if o.brokerOrderId !in db.mirrors {
      NoFillsWithoutMirror(db.fills, o.brokerOrderId);
    }
    forall b | b in next.mirrors
      ensures Past(v, next.mirrors[b]) && b in v.orders && FillsOn(next.fills, b) <= v.orders[b].fills
    {
      if b != o.brokerOrderId { assert Past(v, db.mirrors[b]); }
    }
    forall c | c in next.intents
      ensures Truthful(v, next, c, next.intents[c].status)
    {
      assert Truthful(v, db, c, db.intents[c].status);
    }
  }

  lemma {:induction false} NoFillsWithoutMirror(fills: seq<Fill>, b: Text)
    requires forall f :: f in fills ==> f.brokerOrderId != b
    ensures FillsOn(fills, b) == []
  {
    if fills != [] { NoFillsWithoutMirror(fills[..|fills| - 1], b); }
  }

  /** The broker's current report can always be recorded: identities never clash. */
  lemma ReportIsRecordable(v: BrokerView, db: Db, o: BrokerOrder)
    requires BrokerInv(v) && Sound(v, db) && Past(v, o) && FilledExactly(o)
    requires o.clientOrderId in db.intents
    requires o.brokerOrderId in db.mirrors ==> MirrorMayBecome(db.mirrors[o.brokerOrderId], o)
    ensures RecordError(db, o) == None
  {
    if o.clientOrderId in db.mirrorByClient {
      var b := db.mirrorByClient[o.clientOrderId];
      assert Past(v, db.mirrors[b]);
      OneOrderPerClient(v, b, o.brokerOrderId);
    }
  }

  // ---------------------------------------------------------------- whole worlds

  /** The tables are the same; only the pause flag, the runs or the flatten count differ. */
  predicate SameTables(d: Db, e: Db) {
    e == d.(paused := e.paused, runs := e.runs, flattenGeneration := e.flattenGeneration)
  }

  lemma SoundByTables(v: BrokerView, d: Db, e: Db)
    requires Sound(v, d) && SameTables(d, e)
    ensures Sound(v, e)
  {
  }

  lemma {:induction false} AttemptsOutliveHistory(attempts: seq<Attempt>, history: seq<Db>, longer: seq<Db>)
    requires AttemptsGated(attempts, history) && history <= longer
    ensures AttemptsGated(attempts, longer)
  {
    forall k | 0 <= k < |attempts|
      ensures attempts[k].at < |longer| && Gated(attempts[k].intent, longer[attempts[k].at])
    {
      assert longer[attempts[k].at] == history[attempts[k].at];
    }
  }

  /**
   * What others do between two steps of the engine: the broker moves, an operator pauses,
   * resumes or reconciles unless the control row is held, and the process may crash, which
   * discards the open transaction.
   */
  ghost predicate Around(w: World, x: World, crashed: bool) {
    && Moves(w.broker, x.broker)
    && x.attempts == w.attempts && x.calls == w.calls
    && w.history <= x.history
    && x.durable == w.durable.(paused := x.durable.paused, runs := x.durable.runs)
    && (w.locked ==> x.durable.paused == w.durable.paused)
    && (if crashed then
          x.staged == x.durable && !x.locked
        else
          && x.staged == w.staged.(paused := x.staged.paused, runs := x.durable.runs)
          && x.locked == w.locked
          && (w.locked ==> x.staged.paused == w.staged.paused)
          && (!w.locked ==> x.staged.paused == x.durable.paused))
  }

  lemma GoodAround(w: World, x: World, crashed: bool)
    requires Good(w) && BrokerInv(x.broker) && Around(w, x, crashed)
    ensures Good(x)
  {
    SoundUnderMoves(w.broker, x.broker, w.durable);
    SoundUnderMoves(w.broker, x.broker, w.staged);
    SoundByTables(x.broker, w.durable, x.durable);
    if !crashed { SoundByTables(x.broker, w.staged, x.staged); }
    AttemptsOutliveHistory(w.attempts, w.history, x.history);
    hide Sound, BrokerInv, Moves, AttemptsGated;
  }

  /** The transaction becomes durable, or is dropped. */
  lemma GoodSettled(w: World, x: World)
    requires Good(w) && w.history <= x.history
    requires x == w.(durable := x.durable, staged := x.durable, locked := false, history := x.history)
    requires x.durable == w.durable || x.durable == w.staged
    ensures Good(x)
  {
    AttemptsOutliveHistory(w.attempts, w.history, x.history);
    hide Sound, BrokerInv, AttemptsGated;
  }

  /** New durable tables, soundly. */
  lemma GoodReplaced(w: World, x: World)
    requires Good(w) && w.history <= x.history
    requires x == w.(durable := x.durable, staged := x.durable, locked := false, history := x.history)
    requires Sound(w.broker, x.durable)
    ensures Good(x)
  {
    AttemptsOutliveHistory(w.attempts, w.history, x.history);
    hide Sound, BrokerInv, AttemptsGated;
  }

  lemma GoodStaged(w: World, x: World)
    requires Good(w) && x == w.(staged := x.staged, locked := x.locked)
    requires Sound(w.broker, x.staged) && Linked(w.durable, x.staged, x.locked)
    ensures Good(x)
  {
  }

  // ---------------------------------------------------------------- one submission

  /** Every effect a submission can have on the broker. */
  ghost predicate Submits(v: BrokerView, w: BrokerView, intent: OrderIntent) {
    || w == v
    || Accepts(v, w, intent)
    || w == v.(submitParams := v.submitParams[intent.clientOrderId := ParamsOf(intent)],
               rejected := v.rejected + {intent.clientOrderId})
  }

  lemma SoundUnderSubmission(v: BrokerView, w: BrokerView, db: Db, intent: OrderIntent)
    requires BrokerInv(v) && Submits(v, w, intent) && Sound(v, db)
    requires intent.clientOrderId in db.intents && db.intents[intent.clientOrderId] == intent && InFlight(intent.status)
    ensures Sound(w, db)
  {
    if Accepts(v, w, intent) { SoundUnderAccept(v, w, db, intent); }
    else if w != v { SoundUnderRejection(v, w, db, intent); }
  }

  lemma GoodSubmission(w: World, x: World, intent: OrderIntent)
    requires Good(w) && BrokerInv(x.broker) && Submits(w.broker, x.broker, intent)
    requires w.history != [] && w.history[|w.history| - 1] == w.durable && Gated(intent, w.durable)
    requires x == w.(broker := x.broker, attempts := w.attempts + [Attempt(intent, |w.history| - 1)], calls := w.calls + 1)
    ensures Good(x)
  {
    SoundUnderSubmission(w.broker, x.broker, w.durable, intent);
    SoundUnderSubmission(w.broker, x.broker, w.staged, intent);
    hide Sound, BrokerInv, Linked, Submits, Gated;
    forall k | 0 <= k < |x.attempts|
      ensures x.attempts[k].at < |x.history| && Gated(x.attempts[k].intent, x.history[x.attempts[k].at])
    {
      if k < |w.attempts| { assert x.attempts[k] == w.attempts[k]; }
    }
  }

  /** Whatever blocks entries durably is visible to the open transaction. */
  lemma GateSeesDurable(d: Db, s: Db, locked: bool)
    requires Linked(d, s, locked)
    ensures d.paused ==> s.paused
    ensures d.Unresolved() <==> s.Unresolved()
  {
    if d.Unresolved() {
      var c :| c in d.intents && (d.intents[c].status.UNKNOWN? || d.intents[c].status.REVIEW_REQUIRED?);
      assert s.intents[c] == d.intents[c];
    }
    if s.Unresolved() {
      var c :| c in s.intents && (s.intents[c].status.UNKNOWN? || s.intents[c].status.REVIEW_REQUIRED?);
      assert s.intents[c] == d.intents[c];
    }
  }
}
