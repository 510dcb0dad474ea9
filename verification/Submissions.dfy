// One submission: what the broker may answer, and what each answer leaves in the tables
// (src/seven_lens/application/execution_service.py:158-236, 379-538).

module Submissions {
  import opened Orders
  import opened Clocks
  import opened FakeBroker
  import opened Persistence
  import opened ExecutionState
  import opened MirrorRefresh
  import opened ReportHandling
  import opened EngineReports
  import opened EngineInvariant

  lemma SubmissionEffect(v: BrokerView, w: BrokerView, intent: OrderIntent, outcome: SubmitOutcome,
                         r: Result<SubmitResult, BrokerError>)
    requires PlanFollowed(v, w, intent, outcome, r)
    ensures Submits(v, w, intent)
  {
  }

  /** What the engine may conclude from a submission's answer. */
  ghost predicate Answered(w: BrokerView, intent: OrderIntent, r: Result<SubmitResult, BrokerError>) {
    var c := intent.clientOrderId;
    && (r.Err? ==> r.error != ConflictError)
    && (r.Ok? && r.value.SubmitRejected? ==> c !in w.byClient && c in w.rejected)
    && (r.Ok? && r.value.SubmitAccepted? ==>
          c in w.byClient && w.byClient[c] in w.orders && r.value.order == w.orders[w.byClient[c]].order)
  }

  lemma SubmissionAnswered(v: BrokerView, w: BrokerView, db: Db, intent: OrderIntent, outcome: SubmitOutcome,
                           r: Result<SubmitResult, BrokerError>)
    requires BrokerInv(v) && SubmittedKnown(v, db)
    requires intent.clientOrderId in db.intents && db.intents[intent.clientOrderId] == intent
    requires if intent.clientOrderId in v.submitParams then w == v && r == Answer(v, intent)
             else PlanFollowed(v, w, intent, outcome, r)
    ensures Submits(v, w, intent) && Answered(w, intent, r)
  {
  }

  /** Raised before anything was written or sent. */
  predicate Refused(e: EngineError) { e.NoIntent? || e.Paused? || e.AssetNotTradable? }

  /** Intent `c` is now durably `i`, past submission; every other intent is as `w` had it, staged or durable. */
  ghost predicate Settled(w: World, x: World, c: Text, i: OrderIntent) {
    && x.durable == x.staged
    && c in w.staged.intents && i == w.staged.intents[c].(status := i.status)
    && !PreBroker(i.status) && !i.status.SUBMITTING?
    && (x.staged.intents == w.staged.intents[c := i] || x.staged.intents == w.durable.intents[c := i])
  }

  /** A report about `c` was taken in on top of `s`: mirror, all the broker's fills, and the status they imply. */
  ghost predicate Took(v: BrokerView, s: Db, x: Db, c: Text) {
    && c in s.intents && c in x.mirrorByClient
    && var b := x.mirrorByClient[c];
       b in x.mirrors && b in v.orders && SameTables(Refreshed(s, c, x.mirrors[b], v.orders[b].fills), x)
  }

  /** `c` moved to `status`; nothing else in the tables changed. */
  ghost predicate MovedTo(s: Db, x: Db, c: Text, status: OrderStatus) {
    c in s.intents && SameTables(WithStatus(s, c, status), x)
  }

  /** How a submission can end: unanswered, rejected by the broker, or accepted and taken in. */
  ghost predicate Concluded(v: BrokerView, s: Db, x: Db, c: Text) {
    || MovedTo(s, x, c, UNKNOWN)
    || (MovedTo(s, x, c, REJECTED) && c in v.rejected)
    || Took(v, s, x, c)
  }

  /** What each answer of the broker leaves in the tables. */
  ghost predicate AnswerTaken(v: BrokerView, s: Db, x: Db, c: Text, answer: Result<SubmitResult, BrokerError>) {
    && (answer.Err? ==> MovedTo(s, x, c, UNKNOWN))
    && (answer.Ok? && answer.value.SubmitRejected? ==> MovedTo(s, x, c, REJECTED) && c in v.rejected)
    && (answer.Ok? && answer.value.SubmitAccepted? ==>
          Took(v, s, x, c) && x.mirrors[x.mirrorByClient[c]] == answer.value.order)
  }

  /** At most one call was made, and it was for `c`. */
  ghost predicate TriedOnce(before: seq<Attempt>, after: seq<Attempt>, c: Text) {
    after == before
    || (|after| == |before| + 1 && before <= after && after[|before|].intent.clientOrderId == c)
  }

  lemma RefreshTakes(v: BrokerView, s: Db, o: BrokerOrder, x: Db)
    requires o.clientOrderId in s.intents && o.brokerOrderId in v.orders
    requires x == Refreshed(s, o.clientOrderId, o, v.orders[o.brokerOrderId].fills)
    ensures Took(v, s, x, o.clientOrderId) && x.mirrors[x.mirrorByClient[o.clientOrderId]] == o
  {
    hide Absorbed, TargetStatus;
  }

  lemma TookOnSame(v: BrokerView, s: Db, t: Db, x: Db, c: Text)
    requires SameTables(s, t) && Took(v, t, x, c)
    ensures Took(v, s, x, c)
  {
    hide Absorbed, TargetStatus;
  }

  /** Only the tables count: a pause or a run in between changes nothing about the conclusion. */
  lemma ConcludedOnSame(v: BrokerView, s: Db, t: Db, x: Db, c: Text)
    requires SameTables(s, t) && Concluded(v, t, x, c)
    ensures Concluded(v, s, x, c)
  {
    hide Took, SameTables;
    if Took(v, t, x, c) { TookOnSame(v, s, t, x, c); } else { MovedOnSame(s, t, x, c); }
  }

  lemma MovedOnSame(s: Db, t: Db, x: Db, c: Text)
    requires SameTables(s, t)
    ensures forall status :: MovedTo(t, x, c, status) ==> MovedTo(s, x, c, status)
  {
  }

  /** The reservation in between leaves no trace. */
  lemma ConcludedFromReserved(v: BrokerView, s: Db, x: Db, c: Text)
    requires c in s.intents && s.intents[c].status == OUTBOX_PENDING
    requires Concluded(v, WithStatus(s, c, SUBMITTING), x, c)
    ensures Concluded(v, s, x, c)
  {
    hide WithStatus, Refreshed, SameTables;
    StatusTwice(s, c, SUBMITTING, UNKNOWN);
    StatusTwice(s, c, SUBMITTING, REJECTED);
    if Took(v, WithStatus(s, c, SUBMITTING), x, c) {
      var b := x.mirrorByClient[c];
      RefreshReserved(s, c, x.mirrors[b], v.orders[b].fills);
    }
  }

  lemma StatusTwice(s: Db, c: Text, first: OrderStatus, second: OrderStatus)
    requires c in s.intents
    ensures c in WithStatus(s, c, first).intents
    ensures WithStatus(WithStatus(s, c, first), c, second) == WithStatus(s, c, second)
  {
  }

  lemma RefreshReserved(s: Db, c: Text, o: BrokerOrder, fills: seq<Fill>)
    requires c in s.intents && s.intents[c].status == OUTBOX_PENDING
    ensures c in WithStatus(s, c, SUBMITTING).intents
    ensures Refreshed(WithStatus(s, c, SUBMITTING), c, o, fills) == Refreshed(s, c, o, fills)
  {
    hide Absorbed;
    var target := TargetStatus(OUTBOX_PENDING, o.status);
    assert TargetStatus(SUBMITTING, o.status) == target;
    StatusTwice(Merged(s, o, fills), c, SUBMITTING, target);
    assert Merged(WithStatus(s, c, SUBMITTING), o, fills) == WithStatus(Merged(s, o, fills), c, SUBMITTING);
  }

  lemma HeardNothing(s: Db, y: World, c: Text, answer: Result<SubmitResult, BrokerError>)
    requires answer.Err? && MovedTo(s, y.durable, c, UNKNOWN)
    ensures AnswerTaken(y.broker, s, y.durable, c, answer)
  {
  }

  lemma HeardRejection(s: Db, y: World, c: Text, answer: Result<SubmitResult, BrokerError>)
    requires answer == Ok(SubmitRejected) && c in y.broker.rejected
    requires c in s.intents && y.durable == WithStatus(s, c, REJECTED)
    ensures AnswerTaken(y.broker, s, y.durable, c, answer)
  {
  }

  lemma HeardAcceptance(s: Db, y: World, c: Text, answer: Result<SubmitResult, BrokerError>)
    requires answer.Ok? && answer.value.SubmitAccepted?
    requires Took(y.broker, s, y.durable, c) && y.durable.mirrors[y.durable.mirrorByClient[c]] == answer.value.order
    ensures AnswerTaken(y.broker, s, y.durable, c, answer)
  {
  }

  /** An answer concludes on the tables as they were before the call: others only pause or add runs. */
  lemma AnswerOnSame(s: Db, t: Db, y: World, c: Text, answer: Result<SubmitResult, BrokerError>)
    requires SameTables(s, t) && AnswerTaken(y.broker, t, y.durable, c, answer)
    ensures AnswerTaken(y.broker, s, y.durable, c, answer)
  {
    hide SameTables, Took, MovedTo;
    MovedOnSame(s, t, y.durable, c);
    if Took(y.broker, t, y.durable, c) { TookOnSame(y.broker, s, t, y.durable, c); }
  }

  lemma TakenConcludes(v: BrokerView, s: Db, x: Db, c: Text, answer: Result<SubmitResult, BrokerError>)
    requires AnswerTaken(v, s, x, c, answer)
    ensures Concluded(v, s, x, c)
  {
    hide Took, MovedTo;
  }

  lemma StaysUnknown(db: Db, i: OrderIntent)
    requires i.clientOrderId in db.intents && db.intents[i.clientOrderId] == i && i.status == UNKNOWN
    ensures MovedTo(db, db, i.clientOrderId, UNKNOWN)
  {
    StatusAgain(db, i.clientOrderId);
  }

  lemma ReservedConcludes(s: Db, reserved: Db, met: World, x: World, c: Text, before: seq<Attempt>)
    requires c in s.intents && s.intents[c].status == OUTBOX_PENDING && reserved == WithStatus(s, c, SUBMITTING)
    requires SameTables(reserved, met.durable) && SameTables(reserved, met.staged) && met.attempts == before
    requires if x.attempts == before then MovedTo(met.durable, x.durable, c, UNKNOWN)
             else Concluded(x.broker, met.staged, x.durable, c)
    ensures Concluded(x.broker, s, x.durable, c)
  {
    hide Took, MovedTo, SameTables, WithStatus;
    if x.attempts == before {
      ConcludedOnSame(x.broker, reserved, met.durable, x.durable, c);
    } else {
      ConcludedOnSame(x.broker, reserved, met.staged, x.durable, c);
    }
    ConcludedFromReserved(x.broker, s, x.durable, c);
  }

  /** Without an order to show, the intent stays UNKNOWN, or one more submission concludes. */
  ghost predicate Unanswered(w: World, x: World, c: Text) {
    if x.attempts == w.attempts then MovedTo(w.staged, x.durable, c, UNKNOWN) || MovedTo(w.durable, x.durable, c, UNKNOWN)
    else Concluded(x.broker, w.staged, x.durable, c)
  }

  lemma UnansweredOnSame(w: World, met: World, x: World, c: Text)
    requires SameTables(w.staged, met.staged) && SameTables(w.durable, met.durable) && met.attempts == w.attempts
    requires Unanswered(met, x, c)
    ensures Unanswered(w, x, c)
  {
    hide Took, MovedTo, SameTables, Concluded;
    MovedOnSame(w.staged, met.staged, x.durable, c);
    MovedOnSame(w.durable, met.durable, x.durable, c);
    if x.attempts != w.attempts { ConcludedOnSame(x.broker, w.staged, met.staged, x.durable, c); }
  }

  lemma UnknownOnSame(s: Db, t: Db, x: Db, c: Text)
    requires SameTables(s, t) && c in t.intents && x == WithStatus(t, c, UNKNOWN)
    ensures MovedTo(s, x, c, UNKNOWN)
  {
  }

  lemma SubmissionOnSame(w: World, met: World, x: World, c: Text)
    requires SameTables(w.staged, met.staged) && SameTables(w.durable, met.durable) && met.attempts == w.attempts
    requires if x.attempts == met.attempts then MovedTo(met.durable, x.durable, c, UNKNOWN)
             else Concluded(x.broker, met.staged, x.durable, c)
    ensures if x.attempts == w.attempts then MovedTo(w.durable, x.durable, c, UNKNOWN)
            else Concluded(x.broker, w.staged, x.durable, c)
  {
    hide Took, MovedTo, SameTables;
    if x.attempts == w.attempts { MovedOnSame(w.durable, met.durable, x.durable, c); }
    else { ConcludedOnSame(x.broker, w.staged, met.staged, x.durable, c); }
  }

  /** What a submission's answer still means after others have acted. */
  lemma AnswerLater(w: World, x: World, intent: OrderIntent, r: Result<SubmitResult, BrokerError>)
    requires Good(w) && Around(w, x, false) && Answered(w.broker, intent, r) && Gated(intent, w.durable)
    ensures intent.clientOrderId in x.staged.intents && x.staged.intents[intent.clientOrderId] == intent
    ensures InFlight(intent.status) && r != Err(ConflictError)
    ensures SameTables(w.staged, x.staged)
    ensures r.Ok? && r.value.SubmitRejected? ==>
      Truthful(x.broker, x.staged, intent.clientOrderId, REJECTED) && intent.clientOrderId in x.broker.rejected
    ensures r.Ok? && r.value.SubmitAccepted? ==>
      Reported(x.broker, x.staged, r.value.order) && r.value.order.clientOrderId == intent.clientOrderId
  {
    assert w.staged.intents[intent.clientOrderId] == intent;
    if r.Ok? && r.value.SubmitAccepted? {
      var b := w.broker.byClient[intent.clientOrderId];
      CurrentIsReported(w.broker, w.staged, b);
      ReportedLater(w, x, r.value.order);
    }
  }

  /** The gate, once passed, stays passed up to the call: the control row is held. */
  lemma GatedAround(w: World, x: World, i: OrderIntent)
    requires Gated(i, w.durable) && Around(w, x, false) && (i.intentType == REBALANCE ==> w.locked)
    ensures Gated(i, x.durable)
  {
  }

  lemma GatedKnown(i: OrderIntent, db: Db)
    requires Gated(i, db)
    ensures i.clientOrderId in db.intents && db.intents[i.clientOrderId] == i
  {
  }
}
