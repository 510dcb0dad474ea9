// Resolving a list of intents one by one (src/seven_lens/application/execution_service.py:363-377).

module RecoverySweep {
  import opened Orders
  import opened Clocks
  import opened FakeBroker
  import opened Persistence
  import opened ExecutionState
  import opened MirrorRefresh
  import opened ReportHandling
  import opened EngineReports
  import opened EngineInvariant
  import opened Submissions

  lemma SettledLeavesSubmitting(w: World, x: World, c: Text, i: OrderIntent)
    requires Good(w) && Settled(w, x, c, i)
    ensures LeavesSubmitting(w.staged, x.staged, c)
  {
  }

  lemma StillSwept(s: Db, deadline: Option<Time>)
    ensures Swept(s, s, [], deadline)
  {
  }

  lemma DueMeans(i: OrderIntent, deadline: Option<Time>)
    ensures Due(i, deadline) <==> deadline.None? || i.cancelAt <= deadline.value
  {
  }

  /** However `Resolve` returned, `c` is no longer SUBMITTING. */
  lemma ResolvedLeaves(w: World, x: World, c: Text, i: OrderIntent)
    requires Good(w) && c in w.staged.intents
    requires if InFlight(w.staged.intents[c].status) then Settled(w, x, c, i) else x == w
    ensures LeavesSubmitting(w.staged, x.staged, c)
  {
    if InFlight(w.staged.intents[c].status) { SettledLeavesSubmitting(w, x, c, i); }
  }

  /** No intent became SUBMITTING, and `c` no longer is. */
  ghost predicate LeavesSubmitting(s: Db, t: Db, c: Text) {
    forall e {:trigger t.intents[e]} :: e in t.intents && t.intents[e].status == SUBMITTING ==>
      e != c && e in s.intents && t.intents[e] == s.intents[e]
  }

  predicate Due(i: OrderIntent, deadline: Option<Time>) {
    deadline.None? || i.cancelAt <= deadline.value
  }

  /** Whatever is still SUBMITTING was so before, and is none of the due intents in `swept`. */
  ghost predicate Swept(s: Db, t: Db, swept: seq<OrderIntent>, deadline: Option<Time>) {
    forall e {:trigger t.intents[e]} :: e in t.intents && t.intents[e].status == SUBMITTING ==>
      && e in s.intents && t.intents[e] == s.intents[e]
      && (forall i :: i in swept && Due(i, deadline) ==> i.clientOrderId != e)
  }

  /** `e` has no uncommitted change. */
  predicate Committed(w: World, e: Text) {
    e in w.staged.intents && e in w.durable.intents && w.durable.intents[e] == w.staged.intents[e]
  }

  /** Every intent that was committed at `w` is durable as reported, or untouched if not reported. */
  ghost predicate DurablyReported(w: World, x: World, closed: map<Text, OrderIntent>) {
    forall e {:trigger w.staged.intents[e]} :: Committed(w, e) ==>
      Committed(x, e) && x.staged.intents[e] == if e in closed then closed[e] else w.staged.intents[e]
  }

  lemma NothingReported(w: World)
    ensures DurablyReported(w, w, map[])
  {
  }

  lemma ReportsOneMore(w0: World, w: World, x: World, closed: map<Text, OrderIntent>, c: Text, i: OrderIntent)
    requires DurablyReported(w0, w, closed) && c in w.staged.intents
    requires if InFlight(w.staged.intents[c].status) then Settled(w, x, c, i) else x == w && i == w.staged.intents[c]
    ensures DurablyReported(w0, x, closed[c := i])
  {
    forall e | Committed(w0, e)
      ensures Committed(x, e) && x.staged.intents[e] == if e in closed[c := i] then closed[c := i][e] else w0.staged.intents[e]
    {
      assert Committed(w, e);
    }
  }

  /** The keys of a sweep's report: the due intents of the list. */
  ghost predicate Covers(closed: map<Text, OrderIntent>, found: seq<OrderIntent>, deadline: Option<Time>) {
    forall e :: e in closed <==> exists i :: i in found && Due(i, deadline) && i.clientOrderId == e
  }

  lemma CoversNext(closed: map<Text, OrderIntent>, next: map<Text, OrderIntent>, found: seq<OrderIntent>, i: OrderIntent,
                   deadline: Option<Time>)
    requires Covers(closed, found, deadline)
    requires next.Keys == if Due(i, deadline) then closed.Keys + {i.clientOrderId} else closed.Keys
    ensures Covers(next, found + [i], deadline)
  {
    forall e | e in closed
      ensures exists j :: j in found + [i] && Due(j, deadline) && j.clientOrderId == e
    {
      var j :| j in found && Due(j, deadline) && j.clientOrderId == e;
      assert j in found + [i];
    }
    assert i in found + [i];
  }

  lemma NothingCovered(deadline: Option<Time>)
    ensures Covers(map[], [], deadline)
  {
  }

  lemma ResolvedNamed(w: World, x: World, c: Text, i: OrderIntent)
    requires Good(w) && c in w.staged.intents
    requires if InFlight(w.staged.intents[c].status) then Settled(w, x, c, i) else i == w.staged.intents[c]
    ensures i.clientOrderId == c
  {
    assert w.staged.intents[c].clientOrderId == c;
  }

  lemma InFlightCovered(w: World, submitting: seq<OrderIntent>, unknown: seq<OrderIntent>, closed: map<Text, OrderIntent>)
    requires Good(w) && Covers(closed, submitting + unknown, None)
    requires forall c {:trigger w.staged.intents[c]} :: c in w.staged.intents && w.staged.intents[c].status == SUBMITTING ==> w.staged.intents[c] in submitting
    requires forall c {:trigger w.staged.intents[c]} :: c in w.staged.intents && w.staged.intents[c].status == UNKNOWN ==> w.staged.intents[c] in unknown
    requires forall i :: i in submitting ==> exists c :: c in w.staged.intents && w.staged.intents[c] == i && i.status == SUBMITTING
    requires forall i :: i in unknown ==> exists c :: c in w.staged.intents && w.staged.intents[c] == i && i.status == UNKNOWN
    ensures forall c :: c in closed <==> c in w.staged.intents && InFlight(w.staged.intents[c].status)
    ensures forall c {:trigger Committed(w, c)} :: c in closed ==> Committed(w, c)
  {
    AllKeyed(w);
    forall c | c in w.staged.intents && InFlight(w.staged.intents[c].status) ensures Committed(w, c) {
      StagedInFlight(w, w.staged.intents[c]);
    }
    hide Good, Covers;
    forall c ensures c in closed <==> c in w.staged.intents && InFlight(w.staged.intents[c].status) {
      assert c in closed <==> exists i :: i in submitting + unknown && Due(i, None) && i.clientOrderId == c by { assert Covers(closed, submitting + unknown, None); }
      if c in w.staged.intents && InFlight(w.staged.intents[c].status) {
        assert w.staged.intents[c] in submitting + unknown;
      }
    }
  }

  lemma SweepsOne(s: Db, t: Db, u: Db, swept: seq<OrderIntent>, i: OrderIntent, deadline: Option<Time>)
    requires Swept(s, t, swept, deadline)
    requires if Due(i, deadline) then LeavesSubmitting(t, u, i.clientOrderId) else u.intents == t.intents
    ensures Swept(s, u, swept + [i], deadline)
  {
  }
}
