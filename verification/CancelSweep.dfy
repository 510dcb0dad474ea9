// Cancelling what is overdue (src/seven_lens/application/execution_service.py:260-286, 324-361).

module CancelSweep {
  import opened Orders
  import opened Clocks
  import opened FakeBroker
  import opened Persistence
  import opened ExecutionState
  import opened MirrorRefresh
  import opened ReportHandling
  import opened EngineReports
  import opened EngineInvariant
  import opened Submissions
  import opened RecoverySweep
  import opened ExpirySweep

  /** At most one cancellation was sent, for `c`, and only once CANCEL_PENDING was durable. */
  ghost predicate CancelledOnce(before: seq<Attempt>, after: seq<Attempt>, history: seq<Db>, c: Text) {
    after == before
    || (&& |after| == |before| + 1 && before <= after
        && var a := after[|before|];
           && a.intent.clientOrderId == c && a.at < |history| && c in history[a.at].intents
           && history[a.at].intents[c] == a.intent && a.intent.status == CANCEL_PENDING)
  }

  lemma SentNone(log: seq<Attempt>, history: seq<Db>, c: Text)
    ensures CancelledOnce(log, log, history, c)
  {
  }

  lemma CancelledLater(before: seq<Attempt>, after: seq<Attempt>, history: seq<Db>, later: seq<Db>, c: Text)
    requires CancelledOnce(before, after, history, c) && history <= later
    ensures CancelledOnce(before, after, later, c)
  {
  }

  ghost predicate Asked(before: seq<Attempt>, after: seq<Attempt>, c: Text) {
    exists k :: |before| <= k < |after| && after[k].intent.clientOrderId == c
  }

  /** During the sweep only intents whose cancellation was sent differ from `s`; `seen` has them all. */
  ghost predicate Sweeping(s: Db, t: Db, before: seq<Attempt>, after: seq<Attempt>, seen: set<Text>, now: Time) {
    && before <= after
    && (forall e :: Asked(before, after, e) ==> e in seen && e in s.intents && s.intents[e].cancelAt <= now)
    && (forall e {:trigger s.intents[e]} {:trigger t.intents[e]} :: e in s.intents ==>
          e in t.intents && (Asked(before, after, e) || t.intents[e] == s.intents[e]))
    && t.intents.Keys == s.intents.Keys
    && (forall e :: e in seen && e in s.intents ==> Asked(before, after, e) || s.intents[e].cancelAt > now)
  }

  /** Every overdue intent that `s` lists with this status was asked to cancel. */
  ghost predicate OverdueAsked(s: Db, status: OrderStatus, now: Time, before: seq<Attempt>, after: seq<Attempt>) {
    forall e {:trigger s.intents[e]} :: e in s.intents && s.intents[e].status == status && s.intents[e].cancelAt <= now ==>
      Asked(before, after, e)
  }

  lemma SweepStarts(s: Db, log: seq<Attempt>, now: Time)
    ensures Sweeping(s, s, log, log, {}, now)
  {
  }

  /** The sweep passes over `c`. */
  lemma SweepSkips(s: Db, t: Db, before: seq<Attempt>, after: seq<Attempt>, seen: set<Text>, c: Text, now: Time)
    requires Sweeping(s, t, before, after, seen, now) && c in s.intents && s.intents[c].cancelAt > now
    ensures Sweeping(s, t, before, after, seen + {c}, now)
  {
  }

  /** The sweep asks for `c`: the log grows by it and only `c` may change. */
  lemma SweepAsks(s: Db, t: Db, u: Db, before: seq<Attempt>, after: seq<Attempt>, next: seq<Attempt>, history: seq<Db>,
                  seen: set<Text>, c: Text, now: Time)
    requires Sweeping(s, t, before, after, seen, now) && c in s.intents && s.intents[c].cancelAt <= now
    requires CancelledOnce(after, next, history, c) && |next| == |after| + 1
    requires u.intents.Keys == t.intents.Keys && forall e :: e in t.intents && e != c ==> u.intents[e] == t.intents[e]
    ensures after <= next && Asked(before, next, c) && Sweeping(s, u, before, next, seen + {c}, now)
  {
    assert next[|after|].intent.clientOrderId == c;
    forall e | Asked(before, next, e) ensures e == c || Asked(before, after, e) {
      var k :| |before| <= k < |next| && next[k].intent.clientOrderId == e;
      if k < |after| { assert after[k] == next[k]; }
    }
    forall e | Asked(before, after, e) ensures Asked(before, next, e) {
      var k :| |before| <= k < |after| && after[k].intent.clientOrderId == e;
      assert next[k] == after[k];
    }
  }

  lemma AskedStays(before: seq<Attempt>, after: seq<Attempt>, next: seq<Attempt>, c: Text)
    requires Asked(before, after, c) && after <= next
    ensures Asked(before, next, c)
  {
    var k :| |before| <= k < |after| && after[k].intent.clientOrderId == c;
    assert next[k] == after[k];
  }

  /** What one request leaves of the listed intents. */
  lemma RequestTouchesOne(s: Db, t: Db, c: Text, r: Outcome<OrderIntent>)
    requires c in s.intents
    requires r.Returned? ==> t.intents == s.intents[c := r.value]
    requires !r.Returned? ==> t.intents == s.intents || t.intents == WithStatus(s, c, CANCEL_PENDING).intents
    ensures t.intents.Keys == s.intents.Keys && forall e :: e in s.intents && e != c ==> t.intents[e] == s.intents[e]
  {
  }

  /** A listed intent is as the sweep found it unless it was already asked. */
  lemma SweepKeys(s: Db, t: Db, before: seq<Attempt>, after: seq<Attempt>, seen: set<Text>, now: Time)
    requires Sweeping(s, t, before, after, seen, now)
    ensures t.intents.Keys == s.intents.Keys
  {
  }

  lemma ListedUnasked(s: Db, t: Db, before: seq<Attempt>, after: seq<Attempt>, seen: set<Text>, now: Time, i: OrderIntent)
    requires Sweeping(s, t, before, after, seen, now)
    requires i.clientOrderId in t.intents && i.clientOrderId !in seen
    ensures i.clientOrderId in s.intents && t.intents[i.clientOrderId] == s.intents[i.clientOrderId]
  {
  }

  lemma SweepDone(s: Db, listed: Db, t: Db, before: seq<Attempt>, sent: seq<Attempt>, after: seq<Attempt>,
                  handled: set<Text>, seen: set<Text>, found: seq<OrderIntent>, status: OrderStatus, now: Time)
    requires Sweeping(s, listed, before, sent, handled, now) && Sweeping(s, t, before, after, seen, now) && sent <= after
    requires forall c {:trigger listed.intents[c]} :: c in listed.intents ==> listed.intents[c].clientOrderId == c
    requires forall c {:trigger listed.intents[c]} :: c in listed.intents && listed.intents[c].status == status ==>
      listed.intents[c] in found
    requires forall i :: i in found ==> i.clientOrderId in seen
    ensures OverdueAsked(s, status, now, before, after)
  {
    forall e | e in s.intents && s.intents[e].status == status && s.intents[e].cancelAt <= now
      ensures Asked(before, after, e)
    {
      if Asked(before, sent, e) { AskedStays(before, sent, after, e); }
      else { assert listed.intents[e] in found && listed.intents[e].clientOrderId in seen; }
    }
  }

  lemma OverdueStaysAsked(s: Db, status: OrderStatus, now: Time, before: seq<Attempt>, after: seq<Attempt>, next: seq<Attempt>)
    requires OverdueAsked(s, status, now, before, after) && after <= next
    ensures OverdueAsked(s, status, now, before, next)
  {
    forall e | e in s.intents && s.intents[e].status == status && s.intents[e].cancelAt <= now ensures Asked(before, next, e) {
      AskedStays(before, after, next, e);
    }
  }

  /** After the three sweeps no overdue live intent is left unasked, and nothing else was touched. */
  lemma SweepsReachAll(s: Db, t: Db, before: seq<Attempt>, after: seq<Attempt>, seen: set<Text>, now: Time)
    requires Sweeping(s, t, before, after, seen, now)
    requires OverdueAsked(s, ACKNOWLEDGED, now, before, after) && OverdueAsked(s, PARTIALLY_FILLED, now, before, after)
    requires OverdueAsked(s, CANCEL_PENDING, now, before, after)
    ensures forall e {:trigger t.intents[e]} :: e in t.intents && Live(t.intents[e].status) && t.intents[e].cancelAt <= now ==>
              Asked(before, after, e)
    ensures forall e {:trigger t.intents[e]} {:trigger s.intents[e]} :: e in s.intents && s.intents[e].cancelAt > now ==>
              e in t.intents && t.intents[e] == s.intents[e]
  {
  }

  lemma CancelKeepsOverdue(s: Db, t: Db, c: Text, r: Outcome<OrderIntent>, now: Time)
    requires NoneOverdue(s, now)
    requires r.Returned? ==>
      c in s.intents && t.intents == s.intents[c := r.value] && r.value == s.intents[c].(status := r.value.status)
      && !PreBroker(r.value.status) && !r.value.status.SUBMITTING?
    requires !r.Returned? ==>
      t.intents == s.intents || (c in s.intents && t.intents == WithStatus(s, c, CANCEL_PENDING).intents)
    ensures NoneOverdue(t, now)
  {
  }
}
