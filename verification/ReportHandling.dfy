// How one unit of work takes in a broker report, for any answer a broker port may give
// (src/seven_lens/application/execution_service.py:417-475, 540-700).

module ReportHandling {
  import opened Orders
  import opened Persistence
  import opened ExecutionState
  import opened MirrorRefresh

  datatype EngineError =
    | NoIntent | NoMirror | CancelNotAllowed | AssetNotTradable | NoLegalTransition
    | OrderVanished | ParameterMismatch | ConflictingFill | IdentityBound | SubmitConflict
    | Transport | Paused | ControlPersistence | Script | Storage(PersistenceError)

  /** How an operation ends: normally, by an exception, or because the process died. */
  datatype Outcome<+T> = Returned(value: T) | Raised(error: EngineError) | Crashed

  predicate StateError(e: EngineError) {
    e.NoIntent? || e.NoMirror? || e.CancelNotAllowed? || e.AssetNotTradable? || e.NoLegalTransition?
  }

  predicate MirrorMismatch(e: EngineError) {
    e.OrderVanished? || Contradiction(e)
  }

  /** The broker contradicted what is recorded. */
  predicate Contradiction(e: EngineError) {
    e.ParameterMismatch? || e.ConflictingFill? || e.IdentityBound? || e.SubmitConflict?
  }

  // ---------------------------------------------------------------- pausing and review

  /** The global pause after an unresolved broker outcome; risk exits never pause entries. */
  method PauseForReconciliation(uow: UnitOfWork, intent: OrderIntent) returns (r: Outcome<()>)
    requires uow.Valid() && uow.durable == uow.staged
    modifies uow
    ensures uow.Valid() && old(uow.history) <= uow.history && !uow.controlLocked
    ensures uow.durable == uow.staged == old(uow.durable).(paused := uow.durable.paused)
    ensures old(uow.durable).paused ==> uow.durable.paused
    ensures intent.intentType == RISK_EXIT ==> r.Returned? && uow.durable == old(uow.durable)
    ensures intent.intentType == REBALANCE && r.Returned? ==> uow.durable.paused
    ensures r.Raised? ==> r.error == ControlPersistence
  {
    hide Log, Follows;
    if intent.intentType == RISK_EXIT {
      uow.Rollback();
      return Returned(());
    }
    var writable: bool := *;
    if !writable { uow.Rollback(); return Raised(ControlPersistence); }
    uow.PauseEntries();
    var committed := uow.TryCommit();
    if !committed { return Raised(ControlPersistence); }
    var crashed: bool := *;
    if crashed { return Crashed; }
    // The audit command: an insert that may fail, and its own commit.
    var recorded: bool := *;
    if !recorded { uow.Rollback(); return Raised(ControlPersistence); }
    var acknowledged := uow.TryCommit();
    if !acknowledged { return Raised(ControlPersistence); }
    r := Returned(());
  }

  /** The tables after a contradiction: the intent under review, mirrors and fills untouched. */
  predicate ReviewOutcome(durable: Db, staged: Db, c: Text, next: Db) {
    || next == durable
    || (c in staged.intents && next == WithStatus(staged, c, REVIEW_REQUIRED).(paused := next.paused))
  }

  predicate UnderReview(db: Db, c: Text) {
    c in db.intents && db.intents[c].status == REVIEW_REQUIRED
  }

  /** Makes an unresolved marker durable before the shared pause. */
  method PersistReviewAndPause(uow: UnitOfWork, intent: OrderIntent) returns (r: Outcome<()>)
    requires uow.Valid() && (uow.durable.paused ==> uow.staged.paused)
    modifies uow
    ensures uow.Valid() && old(uow.history) <= uow.history && !uow.controlLocked
    ensures uow.durable == uow.staged
    ensures ReviewOutcome(old(uow.durable), old(uow.staged), intent.clientOrderId, uow.durable)
    ensures r.Returned? ==>
      && UnderReview(uow.durable, intent.clientOrderId)
      && (intent.intentType == REBALANCE ==> uow.durable.paused)
    ensures r.Raised? ==> r.error == ControlPersistence
  {
    hide Log, Follows;
    var c := intent.clientOrderId;
    if c !in uow.staged.intents { uow.Rollback(); return Raised(ControlPersistence); }
    var moved := uow.TransitionStatus(c, REVIEW_REQUIRED);
    if moved.Err? { uow.Rollback(); return Raised(ControlPersistence); }
    var crashed: bool := *;
    if crashed { uow.Rollback(); return Crashed; }
    var committed := uow.TryCommit();
    if !committed { return Raised(ControlPersistence); }
    r := PauseForReconciliation(uow, intent);
  }

  // ---------------------------------------------------------------- the mirror check

  predicate Matches(db: Db, intent: OrderIntent, o: BrokerOrder) {
    && o.clientOrderId == intent.clientOrderId && o.symbol == intent.symbol && o.side == intent.side
    && o.quantity == intent.quantity && o.limitPrice == intent.limitPrice
    && (intent.clientOrderId in db.mirrorByClient ==> db.mirrorByClient[intent.clientOrderId] == o.brokerOrderId)
    && (o.brokerOrderId in db.mirrors ==> db.mirrors[o.brokerOrderId].clientOrderId == intent.clientOrderId)
  }

  method AssertMirrorMatches(uow: UnitOfWork, intent: OrderIntent, o: BrokerOrder) returns (r: Outcome<()>)
    requires uow.Valid() && Tables(uow.staged) && (uow.durable.paused ==> uow.staged.paused)
    modifies uow
    ensures uow.Valid() && old(uow.history) <= uow.history
    ensures r.Returned? <==> Matches(old(uow.staged), intent, o)
    ensures r.Returned? ==> uow.durable == old(uow.durable) && uow.staged == old(uow.staged)
                            && uow.controlLocked == old(uow.controlLocked) && uow.history == old(uow.history)
    ensures !r.Returned? ==> uow.durable == uow.staged && !uow.controlLocked
                             && ReviewOutcome(old(uow.durable), old(uow.staged), intent.clientOrderId, uow.durable)
    ensures r.Raised? ==> r.error == ControlPersistence
                          || (r.error == ParameterMismatch && UnderReview(uow.durable, intent.clientOrderId))
  {
    var agrees :=
      && o.clientOrderId == intent.clientOrderId && o.symbol == intent.symbol && o.side == intent.side
      && o.quantity == intent.quantity && o.limitPrice == intent.limitPrice;
    var mirror := uow.GetBrokerOrder(intent.clientOrderId);
    if mirror.Some? && mirror.value.brokerOrderId != o.brokerOrderId { agrees := false; }
    if o.brokerOrderId in uow.staged.mirrors
       && uow.staged.mirrors[o.brokerOrderId].clientOrderId != intent.clientOrderId { agrees := false; }
    if agrees { return Returned(()); }
    var review := PersistReviewAndPause(uow, intent);
    if review.Crashed? { return Crashed; }
    r := Raised(if review.Raised? then review.error else ParameterMismatch);
  }

  // ---------------------------------------------------------------- the report

  /** The whole response is checked before the mirror is touched. */
  method Preflight(uow: UnitOfWork, o: BrokerOrder, fills: seq<Fill>) returns (ok: bool)
    requires Tables(uow.staged)
    ensures ok <==> Consistent(uow.staged.fills, o.brokerOrderId, fills)
  {
    var have := uow.staged.fills;
    var seen: map<Text, Fill> := map[];
    for i := 0 to |fills|
      invariant forall f :: f in fills[..i] ==> f.executionId in seen && seen[f.executionId] == f
      invariant forall id :: id in seen ==> seen[id] in fills[..i] && seen[id].executionId == id
      invariant Consistent(have, o.brokerOrderId, fills[..i])
    {
      var fill := fills[i];
      assert fill in fills && fills[..i + 1] == fills[..i] + [fill];
      if fill.executionId in seen {
        if seen[fill.executionId] != fill {
          assert seen[fill.executionId] in fills;
          return false;
        }
      } else {
        seen := seen[fill.executionId := fill];
        if fill.brokerOrderId != o.brokerOrderId { return false; }
        var existing := uow.GetFillByExecutionId(fill.executionId);
        if existing.Some? && existing.value != fill { return false; }
        OnlyStored(have, fill, existing);
      }
    }
    assert fills[..|fills|] == fills;
    ok := true;
  }

  lemma OnlyStored(have: seq<Fill>, fill: Fill, existing: Option<Fill>)
    requires DistinctIds(have) && existing == FindFill(have, fill.executionId)
    requires existing.Some? ==> existing.value == fill
    ensures forall g :: g in have && g.executionId == fill.executionId ==> g == fill
  {
    forall g | g in have && g.executionId == fill.executionId
      ensures g == fill
    {
      var i :| 0 <= i < |have| && have[i] == g;
      var j :| 0 <= j < |have| && have[j] == existing.value;
    }
  }

  method AddFills(uow: UnitOfWork, o: BrokerOrder, fills: seq<Fill>)
    requires uow.Valid() && o.brokerOrderId in uow.staged.mirrors
    requires forall f :: f in fills ==> f.brokerOrderId == o.brokerOrderId
    modifies uow`staged
    ensures uow.Valid()
    ensures uow.staged == old(uow.staged).(fills := Absorbed(old(uow.staged).fills, fills))
  {
    hide Log, Follows;
    ghost var before := uow.staged;
    for i := 0 to |fills|
      invariant uow.Valid()
      invariant uow.staged == before.(fills := Absorbed(before.fills, fills[..i]))
    {
      assert fills[..i + 1][..i] == fills[..i];
      var _ := uow.AddFill(fills[i]);
    }
    assert fills[..|fills|] == fills;
  }

  /**
   * What absorbing a report leaves behind, for every report.  A conflict leaves mirrors and
   * fills as they were and the intent under review; a report the intent cannot follow leaves
   * mirror and fills staged and the status alone; otherwise the refreshed tables are durable.
   */
  ghost predicate ReportAbsorbed(durable: Db, staged: Db, intent: OrderIntent, o: BrokerOrder, fills: seq<Fill>,
                                 nextDurable: Db, nextStaged: Db, r: Outcome<OrderIntent>)
    requires intent.clientOrderId in staged.intents
  {
    var c := intent.clientOrderId;
    var error := RecordError(staged, o);
    if !Consistent(staged.fills, o.brokerOrderId, fills) then
      && nextDurable == nextStaged && ReviewOutcome(durable, staged, c, nextDurable)
      && (r.Crashed? || r == Raised(ControlPersistence) || (r == Raised(ConflictingFill) && UnderReview(nextDurable, c)))
    else if error == Some(IdentityConflict) then
      && nextDurable == nextStaged && ReviewOutcome(durable, durable, c, nextDurable)
      && (r.Crashed? || r == Raised(ControlPersistence) || (r == Raised(IdentityBound) && UnderReview(nextDurable, c)))
    else if error != None then
      r == Raised(Storage(error.value)) && nextDurable == durable && nextStaged == staged
    else if !TargetLegal(intent.status, o.status) then
      r == Raised(NoLegalTransition) && nextDurable == durable && nextStaged == Merged(staged, o, fills)
    else if r.Crashed? then
      nextStaged == nextDurable == durable
    else
      && nextDurable == nextStaged == Refreshed(staged, c, o, fills)
      && r == Returned(nextDurable.intents[c])
  }

  method RefreshFromBrokerOrder(uow: UnitOfWork, intent: OrderIntent, o: BrokerOrder, fills: seq<Fill>)
    returns (r: Outcome<OrderIntent>)
    requires uow.Valid() && Tables(uow.staged) && (uow.durable.paused ==> uow.staged.paused)
    requires intent.clientOrderId in uow.staged.intents && uow.staged.intents[intent.clientOrderId] == intent
    modifies uow
    ensures uow.Valid() && old(uow.history) <= uow.history
    ensures ReportAbsorbed(old(uow.durable), old(uow.staged), intent, o, fills, uow.durable, uow.staged, r)
    ensures r.Raised? && r.error.NoLegalTransition? ==>
      uow.controlLocked == old(uow.controlLocked) && uow.history == old(uow.history)
    ensures !r.Raised? ==> !uow.controlLocked
  {
    hide Log, Follows, Consistent, Absorbed, RecordError, IntentMayBecome;
    var c := intent.clientOrderId;
    var ok := Preflight(uow, o, fills);
    if !ok {
      var review := PersistReviewAndPause(uow, intent);
      if review.Crashed? { return Crashed; }
      return Raised(if review.Raised? then review.error else ConflictingFill);
    }
    var error := uow.RecordBrokerOrder(o);
    if error == Some(IdentityConflict) {
      uow.Rollback();
      var review := PersistReviewAndPause(uow, intent);
      if review.Crashed? { return Crashed; }
      return Raised(if review.Raised? then review.error else IdentityBound);
    }
    if error.Some? { return Raised(Storage(error.value)); }
    assert forall f :: f in fills ==> f.brokerOrderId == o.brokerOrderId by { BoundToOrder(uow.staged.fills, o.brokerOrderId, fills); }
    AddFills(uow, o, fills);
    var target := TargetStatus(intent.status, o.status);
    var refreshed := intent;
    if target != intent.status {
      if !IntentMayBecome(intent.status, target) { return Raised(NoLegalTransition); }
      var moved := uow.TransitionStatus(c, target);
      refreshed := uow.staged.intents[c];
    } else {
      StatusAgain(uow.staged, c);
    }
    var crashed: bool := *;
    if crashed { uow.Rollback(); return Crashed; }
    uow.Commit();
    r := Returned(refreshed);
  }

  lemma BoundToOrder(have: seq<Fill>, b: Text, fills: seq<Fill>)
    requires Consistent(have, b, fills)
    ensures forall f :: f in fills ==> f.brokerOrderId == b
  {
  }
}
