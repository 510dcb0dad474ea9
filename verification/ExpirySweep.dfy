// Expiring what never reached the broker (src/seven_lens/application/execution_service.py:288-323).

module ExpirySweep {
  import opened Orders
  import opened Clocks
  import opened FakeBroker
  import opened Persistence
  import opened ExecutionState
  import opened MirrorRefresh
  import opened ReportHandling
  import opened EngineReports
  import opened EngineInvariant
  import opened Submissions
  import opened RecoverySweep

  lemma LinkedExpiry(w: World, c: Text)
    requires Good(w) && c in w.staged.intents
    requires PreBroker(w.staged.intents[c].status) || w.staged.intents[c].status == EXPIRED
    ensures Linked(w.durable, WithStatus(w.staged, c, EXPIRED), w.locked)
  {
  }

  lemma ExpirySound(w: World, c: Text)
    requires Good(w) && c in w.staged.intents
    requires PreBroker(w.staged.intents[c].status) || w.staged.intents[c].status == EXPIRED
    ensures Linked(w.durable, WithStatus(w.staged, c, EXPIRED), w.locked)
    ensures Sound(w.broker, WithStatus(w.staged, c, EXPIRED))
  {
    LinkedExpiry(w, c);
    if w.staged.intents[c].status == EXPIRED {
      StatusAgain(w.staged, c);
    } else {
      ExpiryIsTruthful(w.broker, w.staged, c);
      SoundUnderTransition(w.broker, w.staged, c, EXPIRED);
    }
  }

  /** `t` is `s` with every overdue intent of one pre-broker status expired. */
  ghost predicate Expires(s: Db, t: Db, status: OrderStatus, now: Time) {
    && t == s.(intents := t.intents)
    && t.intents.Keys == s.intents.Keys
    && forall e {:trigger t.intents[e]} {:trigger s.intents[e]} :: e in s.intents ==>
         t.intents[e] == if s.intents[e].status == status && s.intents[e].cancelAt <= now
                         then s.intents[e].(status := EXPIRED) else s.intents[e]
  }

  /** The same, for the intents in `done` only. */
  ghost predicate ExpiredSoFar(s: Db, t: Db, done: seq<OrderIntent>, status: OrderStatus, now: Time) {
    && t == s.(intents := t.intents)
    && t.intents.Keys == s.intents.Keys
    && forall e {:trigger t.intents[e]} {:trigger s.intents[e]} :: e in s.intents ==>
         t.intents[e] == if s.intents[e] in done && s.intents[e].cancelAt <= now
                         then s.intents[e].(status := EXPIRED) else s.intents[e]
  }

  lemma NoneExpired(s: Db, status: OrderStatus, now: Time)
    ensures ExpiredSoFar(s, s, [], status, now)
  {
  }

  lemma ExpiresNext(s: Db, t: Db, done: seq<OrderIntent>, i: OrderIntent, status: OrderStatus, now: Time)
    requires ExpiredSoFar(s, t, done, status, now)
    requires i.clientOrderId in s.intents && s.intents[i.clientOrderId] == i && i.status == status
    requires forall c {:trigger s.intents[c]} :: c in s.intents ==> s.intents[c].clientOrderId == c
    ensures i.clientOrderId in t.intents
    ensures t.intents[i.clientOrderId].status == status || t.intents[i.clientOrderId].status == EXPIRED
    ensures ExpiredSoFar(s, if i.cancelAt <= now then WithStatus(t, i.clientOrderId, EXPIRED) else t, done + [i], status, now)
  {
  }

  lemma AllExpired(s: Db, t: Db, found: seq<OrderIntent>, status: OrderStatus, now: Time)
    requires ExpiredSoFar(s, t, found, status, now)
    requires forall c {:trigger s.intents[c]} :: c in s.intents && s.intents[c].status == status ==> s.intents[c] in found
    requires forall i :: i in found ==> i.status == status
    ensures Expires(s, t, status, now)
  {
  }

  /** No overdue intent is still waiting for submission or in the middle of it. */
  ghost predicate NoneOverdue(db: Db, now: Time) {
    forall e {:trigger db.intents[e]} :: e in db.intents && db.intents[e].cancelAt <= now ==>
      !PreBroker(db.intents[e].status) && db.intents[e].status != SUBMITTING
  }

  ghost predicate NoneSubmittingOverdue(db: Db, now: Time) {
    forall e {:trigger db.intents[e]} :: e in db.intents && db.intents[e].cancelAt <= now ==> db.intents[e].status != SUBMITTING
  }

  lemma SweptSubmitting(w: World, t: Db, found: seq<OrderIntent>, now: Time)
    requires Good(w) && Swept(w.staged, t, found, Some(now))
    requires forall c {:trigger w.staged.intents[c]} :: c in w.staged.intents ==>
      w.staged.intents[c].status == SUBMITTING ==> w.staged.intents[c] in found
    ensures NoneSubmittingOverdue(t, now)
  {
    forall e | e in t.intents && t.intents[e].status == SUBMITTING
      ensures t.intents[e].cancelAt > now
    {
      assert w.staged.intents[e] in found && w.staged.intents[e].clientOrderId == e;
    }
  }

  lemma SweptAgain(s: Db, t: Db, found: seq<OrderIntent>, now: Time)
    requires Swept(s, t, found, Some(now)) && NoneSubmittingOverdue(s, now)
    ensures NoneSubmittingOverdue(t, now)
  {
  }

  lemma AllThreeExpired(s: Db, t: Db, u: Db, v: Db, now: Time)
    requires NoneSubmittingOverdue(s, now)
    requires Expires(s, t, CREATED, now) && Expires(t, u, RISK_APPROVED, now) && Expires(u, v, OUTBOX_PENDING, now)
    ensures NoneOverdue(v, now)
  {
    hide Expires;
    forall e | e in v.intents && v.intents[e].cancelAt <= now
      ensures !PreBroker(v.intents[e].status) && v.intents[e].status != SUBMITTING
    {
      ExpiresOne(u, v, e, OUTBOX_PENDING, now);
      ExpiresOne(t, u, e, RISK_APPROVED, now);
      ExpiresOne(s, t, e, CREATED, now);
    }
  }

  lemma ExpiresOne(s: Db, t: Db, e: Text, status: OrderStatus, now: Time)
    requires Expires(s, t, status, now) && e in t.intents
    ensures e in s.intents && t.intents[e].cancelAt == s.intents[e].cancelAt
    ensures t.intents[e].status ==
            if s.intents[e].status == status && s.intents[e].cancelAt <= now then EXPIRED else s.intents[e].status
  {
  }

  /** Committed intents whose window is still open are as they were. */
  ghost predicate OpenWindowsKept(w: World, t: Db, now: Time) {
    forall e {:trigger w.staged.intents[e]} :: Committed(w, e) && w.staged.intents[e].cancelAt > now ==>
      e in t.intents && t.intents[e] == w.staged.intents[e]
  }

  /** Two sweeps over due intents leave every open window alone, committed as before. */
  lemma SweepsKeepWindows(w: World, x: World, y: World, first: map<Text, OrderIntent>, second: map<Text, OrderIntent>,
                          submitting: seq<OrderIntent>, unknown: seq<OrderIntent>, now: Time)
    requires Good(w) && Good(x)
    requires DurablyReported(w, x, first) && Covers(first, submitting, Some(now))
    requires DurablyReported(x, y, second) && Covers(second, unknown, Some(now))
    requires forall i :: i in submitting ==> exists c :: c in w.staged.intents && w.staged.intents[c] == i
    requires forall i :: i in unknown ==> exists c :: c in x.staged.intents && x.staged.intents[c] == i
    ensures OpenWindowsKept(w, y.staged, now)
  {
    ListedKeyed(w, submitting);
    ListedKeyed(x, unknown);
    hide Good;
    forall e | Committed(w, e) && w.staged.intents[e].cancelAt > now
      ensures e in y.staged.intents && y.staged.intents[e] == w.staged.intents[e]
    {
      assert e !in first;
      assert Committed(x, e) && x.staged.intents[e] == w.staged.intents[e];
      assert e !in second;
    }
  }

  lemma ExpiryKeepsWindows(w: World, s: Db, t: Db, status: OrderStatus, now: Time)
    requires OpenWindowsKept(w, s, now) && Expires(s, t, status, now)
    ensures OpenWindowsKept(w, t, now)
  {
  }

  lemma CancelsKeepWindows(w: World, s: Db, t: Db, now: Time)
    requires OpenWindowsKept(w, s, now)
    requires forall e {:trigger t.intents[e]} {:trigger s.intents[e]} :: e in s.intents && s.intents[e].cancelAt > now ==>
      e in t.intents && t.intents[e] == s.intents[e]
    ensures OpenWindowsKept(w, t, now)
  {
  }

  lemma WindowsKeptAround(w: World, dated: World, t: Db, now: Time)
    requires Around(w, dated, false) && OpenWindowsKept(dated, t, now)
    ensures OpenWindowsKept(w, t, now)
  {
    forall e | Committed(w, e) && w.staged.intents[e].cancelAt > now
      ensures e in t.intents && t.intents[e] == w.staged.intents[e]
    {
      assert Committed(dated, e) && dated.staged.intents[e] == w.staged.intents[e];
    }
  }
}
