// What a cancellation request leaves in the tables, and when a failed one leaves them alone
// (src/seven_lens/application/execution_service.py:260-286, 324-361).

module CancelEffects {
  import opened Orders
  import opened FakeBroker
  import opened Persistence
  import opened ExecutionState
  import opened MirrorRefresh
  import opened ReportHandling
  import opened EngineReports
  import opened EngineInvariant
  import opened Submissions
  import opened RecoverySweep
  import opened ExpirySweep
  import opened CancelSweep

  /** One request to cancel: the order the broker showed afterwards, if it got that far, and its fills. */
  datatype CancelStep = CancelStep(c: Text, report: Option<BrokerOrder>, fills: seq<Fill>)

  /** No report came, or one that a pending cancel cannot follow. */
  predicate CancelFailed(step: CancelStep) {
    step.report.None? || !TargetLegal(CANCEL_PENDING, step.report.value.status)
  }

  /** The tables after one request on top of `s`: pending first, then whatever was reported. */
  function AfterCancel(s: Db, step: CancelStep): Db
    requires step.c in s.intents
  {
    var pending := WithStatus(s, step.c, CANCEL_PENDING);
    if step.report.None? then pending
    else if CancelFailed(step) then Merged(pending, step.report.value, step.fills)
    else Refreshed(pending, step.c, step.report.value, step.fills)
  }

  /** The report is this broker's, and the fills are all it has on the order. */
  ghost predicate StepShown(v: BrokerView, step: CancelStep) {
    step.report.Some? ==>
      var o := step.report.value;
      o.clientOrderId == step.c && Past(v, o) && step.fills == v.orders[o.brokerOrderId].fills
  }

  /** The report is stored already, with every fill it brings. */
  predicate Known(s: Db, o: BrokerOrder, fills: seq<Fill>) {
    && o.brokerOrderId in s.mirrors && s.mirrors[o.brokerOrderId] == o
    && forall f :: f in fills ==> FindFill(s.fills, f.executionId).Some?
  }

  /** What `StepShown` still means once the broker has moved on. */
  ghost predicate StepTrue(v: BrokerView, step: CancelStep) {
    step.report.Some? ==>
      var o := step.report.value;
      o.clientOrderId == step.c && Past(v, o) && step.fills <= v.orders[o.brokerOrderId].fills
  }

  lemma ShownStaysTrue(v: BrokerView, w: BrokerView, step: CancelStep)
    requires StepTrue(v, step) && BrokerGrows(v, w)
    ensures StepTrue(w, step)
  {
    if step.report.Some? {
      var o := step.report.value;
      var b := o.brokerOrderId;
      assert OrderAdvances(v.orders[b], w.orders[b]);
      BrokerReachesComposes(o.status, v.orders[b].order.status, w.orders[b].order.status);
    }
  }

  lemma AfterCancelSame(s: Db, t: Db, step: CancelStep)
    requires SameTables(s, t) && step.c in s.intents
    ensures step.c in t.intents && SameTables(AfterCancel(s, step), AfterCancel(t, step))
  {
    hide Absorbed, TargetStatus, TargetLegal;
  }

  lemma KnownChangesNothing(s: Db, o: BrokerOrder, fills: seq<Fill>)
    requires Tables(s)
    ensures Merged(s, o, fills) == s <==> Known(s, o, fills)
  {
    AbsorbedGrows(s.fills, fills);
    if Known(s, o, fills) { AbsorbAgain(s.fills, fills); }
    hide Absorbed;
    var next := Merged(s, o, fills);
    if next == s { assert o.brokerOrderId in next.mirrors && next.mirrors[o.brokerOrderId] == o; }
  }

  /**
   * A failed cancellation leaves the tables as they were exactly when the intent was already
   * CANCEL_PENDING and no report came, or only one that is stored with all its fills.
   */
  lemma FailedCancelLeavesTables(s: Db, step: CancelStep)
    requires Tables(s) && step.c in s.intents && CancelFailed(step)
    ensures AfterCancel(s, step) == s
            <==> s.intents[step.c].status == CANCEL_PENDING
                 && (step.report.Some? ==> Known(s, step.report.value, step.fills))
  {
    hide Absorbed, TargetLegal;
    var pending := WithStatus(s, step.c, CANCEL_PENDING);
    if s.intents[step.c].status == CANCEL_PENDING {
      StatusAgain(s, step.c);
      if step.report.Some? { KnownChangesNothing(s, step.report.value, step.fills); }
    } else {
      assert AfterCancel(s, step).intents[step.c].status == CANCEL_PENDING;
    }
  }

  /**
   * For any report a broker port could give: one that makes the refresh of a pending cancel raise
   * leaves the tables as they were exactly when it does not conflict and is not recorded, or is
   * stored with all its fills.
   */
  lemma FailedReportLeavesTables(durable: Db, staged: Db, intent: OrderIntent, o: BrokerOrder, fills: seq<Fill>,
                                 nextDurable: Db, nextStaged: Db, e: EngineError)
    requires Tables(staged) && intent.clientOrderId in staged.intents
    requires staged.intents[intent.clientOrderId] == intent && intent.status == CANCEL_PENDING
    requires ReportAbsorbed(durable, staged, intent, o, fills, nextDurable, nextStaged, Raised(e))
    requires e != ControlPersistence
    ensures SameTables(staged, nextStaged)
            <==> Consistent(staged.fills, o.brokerOrderId, fills) && RecordError(staged, o) != Some(IdentityConflict)
                 && (RecordError(staged, o) == None ==> Known(staged, o, fills))
    ensures !Consistent(staged.fills, o.brokerOrderId, fills) || RecordError(staged, o) == Some(IdentityConflict) ==>
              UnderReview(nextDurable, intent.clientOrderId)
  {
    hide Absorbed, Consistent;
    KnownChangesNothing(staged, o, fills);
  }

  // ---------------------------------------------------------------- one intent's part of the tables

  /** The report's fills are now the recorded ones of `b`; no other order's changed. */
  ghost predicate FillsMoved(s: Db, t: Db, b: Text, fills: seq<Fill>) {
    forall x {:trigger FillsOn(t.fills, x)} {:trigger FillsOn(s.fills, x)} ::
      FillsOn(t.fills, x) == if x == b then fills else FillsOn(s.fills, x)
  }

  /** The order `c` is mirrored by. */
  predicate Mirrored(s: Db, c: Text) {
    c in s.intents && c in s.mirrorByClient && s.mirrorByClient[c] in s.mirrors
  }

  function StepStatus(step: CancelStep): OrderStatus {
    if CancelFailed(step) then CANCEL_PENDING else TargetStatus(CANCEL_PENDING, step.report.value.status)
  }

  /** What a request leaves of its own intent, mirror and fills. */
  ghost predicate StepLeft(s: Db, t: Db, step: CancelStep) {
    && Mirrored(s, step.c) && Mirrored(t, step.c) && t.mirrorByClient[step.c] == s.mirrorByClient[step.c]
    && var b := s.mirrorByClient[step.c];
       && t.intents[step.c] == s.intents[step.c].(status := StepStatus(step))
       && (step.report.None? ==> t.mirrors[b] == s.mirrors[b] && FillsOn(t.fills, b) == FillsOn(s.fills, b))
       && (step.report.Some? ==> t.mirrors[b] == step.report.value && FillsOn(t.fills, b) == step.fills)
  }

  /** `c`, its mirror and its fills are as they were. */
  ghost predicate Untouched(s: Db, t: Db, c: Text) {
    && c in s.intents && c in t.intents && t.intents[c] == s.intents[c]
    && (c in s.mirrorByClient <==> c in t.mirrorByClient)
    && (c in s.mirrorByClient ==> t.mirrorByClient[c] == s.mirrorByClient[c])
    && (Mirrored(s, c) ==>
          var b := s.mirrorByClient[c];
          b in t.mirrors && t.mirrors[b] == s.mirrors[b] && FillsOn(t.fills, b) == FillsOn(s.fills, b))
  }

  /** One request: its own intent as reported, every other one untouched. */
  ghost predicate OneCancel(s: Db, t: Db, step: CancelStep) {
    && StepLeft(s, t, step) && t.intents.Keys == s.intents.Keys
    && forall e {:trigger Untouched(s, t, e)} :: e in s.intents && e != step.c ==> Untouched(s, t, e)
  }

  /** A whole sweep: each request's intent as its report left it, every other one untouched. */
  ghost predicate SweepLeft(s: Db, t: Db, steps: seq<CancelStep>) {
    && t.intents.Keys == s.intents.Keys
    && (forall k :: 0 <= k < |steps| ==> StepLeft(s, t, steps[k]))
    && (forall j, k :: 0 <= j < k < |steps| ==> steps[j].c != steps[k].c)
    && (forall e {:trigger Untouched(s, t, e)} :: e in s.intents && (forall k :: 0 <= k < |steps| ==> steps[k].c != e) ==>
          Untouched(s, t, e))
  }

  lemma ReportMovesFills(v: BrokerView, db: Db, o: BrokerOrder, fills: seq<Fill>)
    requires BrokerInv(v) && Sound(v, db) && Reported(v, db, o) && o.clientOrderId in db.intents
    requires o.brokerOrderId in v.orders && fills == v.orders[o.brokerOrderId].fills
    ensures FillsMoved(db, Merged(db, o, fills), o.brokerOrderId, fills)
    ensures FillsMoved(db, Refreshed(db, o.clientOrderId, o, fills), o.brokerOrderId, fills)
  {
    ReportSeen(v, db, o, fills);
    hide BrokerInv, Sound, Reported, Seen, Absorbed, TargetStatus;
    forall x ensures FillsOn(Merged(db, o, fills).fills, x) == if x == o.brokerOrderId then fills else FillsOn(db.fills, x) {
      MergeEqualizes(v, db, o, fills, x);
    }
  }

  /** Nothing came back: only the pending status may be new. */
  lemma SilentStep(s: Db, t: Db, c: Text)
    requires SameTables(s, t) && Tables(t) && c in t.mirrorByClient
    requires c in t.intents && t.intents[c].status == CANCEL_PENDING
    ensures var step := CancelStep(c, None, []);
            CancelFailed(step) && SameTables(AfterCancel(s, step), t) && OneCancel(s, t, step)
  {
    hide TargetStatus, TargetLegal, FillsKeyed;
    StatusAgain(s, c);
  }

  /** A report came and was taken in as far as it can be followed. */
  lemma ReportedStep(s: Db, t: Db, x: Db, o: BrokerOrder, fills: seq<Fill>)
    requires SameTables(s, t) && Tables(t)
    requires o.clientOrderId in t.mirrorByClient && t.mirrorByClient[o.clientOrderId] == o.brokerOrderId
    requires o.clientOrderId in t.intents && t.intents[o.clientOrderId].status == CANCEL_PENDING
    requires x == if TargetLegal(CANCEL_PENDING, o.status) then Refreshed(t, o.clientOrderId, o, fills) else Merged(t, o, fills)
    requires FillsMoved(t, x, o.brokerOrderId, fills)
    ensures var step := CancelStep(o.clientOrderId, Some(o), fills);
            SameTables(AfterCancel(s, step), x) && OneCancel(s, x, step)
  {
    hide Merged, Refreshed, TargetLegal, Tables, FillsMoved, OneCancel;
    var step := CancelStep(o.clientOrderId, Some(o), fills);
    ReportedEffect(t, x, o, fills);
    StatusAgain(t, step.c);
    AfterCancelSame(t, s, step);
    OneCancelOnSame(s, t, x, step);
  }

  lemma ReportedEffect(t: Db, x: Db, o: BrokerOrder, fills: seq<Fill>)
    requires Tables(t) && o.clientOrderId in t.mirrorByClient && t.mirrorByClient[o.clientOrderId] == o.brokerOrderId
    requires o.clientOrderId in t.intents && t.intents[o.clientOrderId].status == CANCEL_PENDING
    requires x == if TargetLegal(CANCEL_PENDING, o.status) then Refreshed(t, o.clientOrderId, o, fills) else Merged(t, o, fills)
    requires FillsMoved(t, x, o.brokerOrderId, fills)
    ensures OneCancel(t, x, CancelStep(o.clientOrderId, Some(o), fills))
  {
    hide Absorbed, TargetStatus, TargetLegal, FillsKeyed, FillsOn;
    var step := CancelStep(o.clientOrderId, Some(o), fills);
    forall e | e in t.intents && e != step.c ensures Untouched(t, x, e) {
      if Mirrored(t, e) { assert t.mirrors[t.mirrorByClient[e]].clientOrderId == e; }
    }
  }

  lemma OneCancelOnSame(s: Db, t: Db, x: Db, step: CancelStep)
    requires SameTables(s, t) && OneCancel(t, x, step)
    ensures OneCancel(s, x, step)
  {
    forall e | e in s.intents && e != step.c ensures Untouched(s, x, e) { assert Untouched(t, x, e); }
  }

  /** The step from CANCEL_PENDING on is the whole request's step. */
  lemma StepFromPending(s: Db, x: Db, step: CancelStep)
    requires step.c in s.intents
    requires var pending := WithStatus(s, step.c, CANCEL_PENDING);
             SameTables(AfterCancel(pending, step), x) && OneCancel(pending, x, step)
    ensures SameTables(AfterCancel(s, step), x) && OneCancel(s, x, step)
  {
    hide Absorbed, TargetStatus, TargetLegal, FillsOn;
    StatusTwice(s, step.c, CANCEL_PENDING, CANCEL_PENDING);
    var pending := WithStatus(s, step.c, CANCEL_PENDING);
    assert AfterCancel(pending, step) == AfterCancel(s, step);
    forall e | e in s.intents && e != step.c ensures Untouched(s, x, e) { assert Untouched(pending, x, e); }
  }

  /** `FailedCancelLeavesTables`, up to pauses and runs in between. */
  lemma FailedCancelShows(s: Db, x: Db, step: CancelStep)
    requires Tables(s) && step.c in s.intents && CancelFailed(step) && SameTables(AfterCancel(s, step), x)
    ensures SameTables(s, x)
            <==> s.intents[step.c].status == CANCEL_PENDING
                 && (step.report.Some? ==> Known(s, step.report.value, step.fills))
  {
    FailedCancelLeavesTables(s, step);
    hide Absorbed, TargetLegal, Tables, Known;
  }

  lemma SilentCancel(w: World, x: World, c: Text)
    requires Good(x) && SameTables(w.staged, x.staged)
    requires c in x.staged.intents && x.staged.intents[c].status == CANCEL_PENDING
    ensures var step := CancelStep(c, None, []);
            && StepShown(x.broker, step) && CancelFailed(step) && c in w.staged.intents
            && SameTables(AfterCancel(w.staged, step), x.staged) && OneCancel(w.staged, x.staged, step)
  {
    LiveIsMirrored(x, c);
    GoodTables(x);
    hide Good, OneCancel, AfterCancel, SameTables;
    SilentStep(w.staged, x.staged, c);
  }

  lemma ReportedCancel(w: World, x: World, next: Db, o: BrokerOrder, fills: seq<Fill>)
    requires Good(x) && SameTables(w.staged, x.staged) && Reported(x.broker, x.staged, o)
    requires o.clientOrderId in x.staged.intents && x.staged.intents[o.clientOrderId].status == CANCEL_PENDING
    requires o.brokerOrderId in x.broker.orders && fills == x.broker.orders[o.brokerOrderId].fills
    requires next == if TargetLegal(CANCEL_PENDING, o.status) then Refreshed(x.staged, o.clientOrderId, o, fills)
                     else Merged(x.staged, o, fills)
    requires FillsMoved(x.staged, next, o.brokerOrderId, fills)
    ensures var step := CancelStep(o.clientOrderId, Some(o), fills);
            && StepShown(x.broker, step) && (CancelFailed(step) <==> !TargetLegal(CANCEL_PENDING, o.status))
            && o.clientOrderId in w.staged.intents
            && SameTables(AfterCancel(w.staged, step), next) && OneCancel(w.staged, next, step)
  {
    hide Good, OneCancel, AfterCancel, Merged, Refreshed, TargetLegal, FillsMoved, Tables, MirrorMayBecome, BrokerInv, Sound;
    GoodTables(x);
    ReportOfMirror(x, o);
    ReportedStep(w.staged, x.staged, next, o, fills);
  }

  /** A report about a mirrored intent names its mirror. */
  lemma ReportOfMirror(w: World, o: BrokerOrder)
    requires Good(w) && Past(w.broker, o)
    requires o.clientOrderId in w.staged.intents && Live(w.staged.intents[o.clientOrderId].status)
    ensures o.clientOrderId in w.staged.mirrorByClient && w.staged.mirrorByClient[o.clientOrderId] == o.brokerOrderId
  {
    LiveIsMirrored(w, o.clientOrderId);
    GoodTables(w);
    ReportMatches(w.broker, w.staged, w.staged.intents[o.clientOrderId], o);
  }

  lemma GoodTables(w: World)
    requires Good(w)
    ensures Tables(w.staged) && Sound(w.broker, w.staged) && BrokerInv(w.broker)
    ensures forall c {:trigger w.staged.intents[c]} :: c in w.staged.intents ==> w.staged.intents[c].clientOrderId == c
  {
  }

  lemma NothingSwept(s: Db)
    ensures SweepLeft(s, s, [])
  {
  }

  lemma UntouchedComposes(s: Db, t: Db, u: Db, e: Text)
    requires Untouched(s, t, e) && Untouched(t, u, e)
    ensures Untouched(s, u, e)
  {
  }

  lemma StepThenUntouched(s: Db, t: Db, u: Db, step: CancelStep)
    requires StepLeft(s, t, step) && Untouched(t, u, step.c)
    ensures StepLeft(s, u, step)
  {
  }

  lemma UntouchedThenStep(s: Db, t: Db, u: Db, step: CancelStep)
    requires Untouched(s, t, step.c) && StepLeft(t, u, step) && Mirrored(s, step.c)
    ensures StepLeft(s, u, step)
  {
  }

  lemma SweepNext(s: Db, t: Db, u: Db, steps: seq<CancelStep>, step: CancelStep)
    requires SweepLeft(s, t, steps) && OneCancel(t, u, step) && Mirrored(s, step.c)
    requires forall k :: 0 <= k < |steps| ==> steps[k].c != step.c
    ensures SweepLeft(s, u, steps + [step])
  {
    hide StepLeft, Untouched, Mirrored;
    var more := steps + [step];
    assert Untouched(s, t, step.c) by { StepNamed(t, u, step); }
    UntouchedThenStep(s, t, u, step);
    forall k | 0 <= k < |more| ensures StepLeft(s, u, more[k]) {
      if k < |steps| {
        StepNamed(s, t, steps[k]);
        assert Untouched(t, u, steps[k].c);
        StepThenUntouched(s, t, u, steps[k]);
      }
    }
    forall e | e in s.intents && forall k :: 0 <= k < |more| ==> more[k].c != e
      ensures Untouched(s, u, e)
    {
      assert more[|steps|].c != e;
      assert forall k :: 0 <= k < |steps| ==> steps[k] == more[k];
      assert Untouched(s, t, e) && Untouched(t, u, e);
      UntouchedComposes(s, t, u, e);
    }
  }

  lemma StepNamed(s: Db, t: Db, step: CancelStep)
    requires StepLeft(s, t, step)
    ensures step.c in s.intents && step.c in t.intents
  {
  }

  // ---------------------------------------------------------------- a sweep, request by request

  /**
   * One step for each cancellation sent since `sent`, in that order, each with what this broker
   * reported: together they are all the sweep did to the tables.
   */
  ghost predicate CancelsTold(v: BrokerView, s: Db, t: Db, steps: seq<CancelStep>, sent: seq<Attempt>, log: seq<Attempt>) {
    && SweepLeft(s, t, steps)
    && sent <= log && |log| == |sent| + |steps|
    && (forall k :: 0 <= k < |steps| ==> steps[k].c == log[|sent| + k].intent.clientOrderId)
    && (forall k :: 0 <= k < |steps| ==> StepTrue(v, steps[k]))
  }

  lemma NothingTold(v: BrokerView, s: Db, log: seq<Attempt>)
    ensures CancelsTold(v, s, s, [], log, log)
  {
  }

  lemma ToldNext(v: BrokerView, w: BrokerView, s: Db, t: Db, u: Db, steps: seq<CancelStep>, step: CancelStep,
                 sent: seq<Attempt>, log: seq<Attempt>, next: seq<Attempt>, history: seq<Db>, seen: set<Text>, now: Time)
    requires CancelsTold(v, s, t, steps, sent, log) && Sweeping(s, t, sent, log, seen, now) && step.c !in seen
    requires Tables(s) && BrokerGrows(v, w) && StepShown(w, step) && OneCancel(t, u, step)
    requires CancelledOnce(log, next, history, step.c) && |next| == |log| + 1
    ensures CancelsTold(w, s, u, steps + [step], sent, next)
  {
    hide SweepLeft, OneCancel, Tables, BrokerGrows, Past, Mirrored;
    forall k | 0 <= k < |steps| ensures steps[k].c != step.c && StepTrue(w, steps[k]) {
      assert Asked(sent, log, log[|sent| + k].intent.clientOrderId);
      ShownStaysTrue(v, w, steps[k]);
    }
    StepMirrored(s, t, u, steps, step);
    SweepNext(s, t, u, steps, step);
  }

  lemma StepMirrored(s: Db, t: Db, u: Db, steps: seq<CancelStep>, step: CancelStep)
    requires SweepLeft(s, t, steps) && OneCancel(t, u, step) && Tables(s)
    requires forall k :: 0 <= k < |steps| ==> steps[k].c != step.c
    ensures Mirrored(s, step.c)
  {
    hide FillsKeyed, FillsOn;
    assert Untouched(s, t, step.c);
  }

  /**
   * What a whole sweep promises of an intent whose cancellation failed: intent, mirror and fills
   * are as they were exactly when it was already CANCEL_PENDING and no report came, or one that
   * is the stored mirror and brings exactly the stored fills.
   */
  lemma FailedCancelInSweep(s: Db, t: Db, steps: seq<CancelStep>, k: nat)
    requires SweepLeft(s, t, steps) && k < |steps| && CancelFailed(steps[k])
    ensures var step := steps[k];
            Mirrored(s, step.c) &&
            (Untouched(s, t, step.c)
             <==> s.intents[step.c].status == CANCEL_PENDING
                  && (step.report.Some? ==>
                        step.report.value == s.mirrors[s.mirrorByClient[step.c]]
                        && step.fills == FillsOn(s.fills, s.mirrorByClient[step.c])))
  {
    assert StepLeft(s, t, steps[k]);
  }

  // ---------------------------------------------------------------- what settling leaves alone

  /** No accepted intent, its mirror or its fills changed. */
  ghost predicate LiveUntouched(s: Db, t: Db) {
    forall e {:trigger Untouched(s, t, e)} :: e in s.intents && Live(s.intents[e].status) ==> Untouched(s, t, e)
  }

  /** From a settled transaction to a settled one, with accepted intents left alone. */
  ghost predicate LiveKept(w: World, x: World) {
    w.durable == w.staged ==> x.durable == x.staged && LiveUntouched(w.staged, x.staged)
  }

  lemma SameLeavesLive(s: Db, t: Db)
    requires Tables(s) && SameTables(s, t)
    ensures LiveUntouched(s, t)
  {
    hide FillsKeyed, FillsOn;
  }

  lemma LiveComposes(s: Db, t: Db, u: Db)
    requires LiveUntouched(s, t) && LiveUntouched(t, u)
    ensures LiveUntouched(s, u)
  {
    forall e | e in s.intents && Live(s.intents[e].status) ensures Untouched(s, u, e) {
      assert Untouched(s, t, e) && Untouched(t, u, e);
    }
  }

  lemma KeptComposes(w: World, x: World, y: World)
    requires LiveKept(w, x) && LiveKept(x, y)
    ensures LiveKept(w, y)
  {
    hide LiveUntouched;
    if w.durable == w.staged { LiveComposes(w.staged, x.staged, y.staged); }
  }

  /** Absorbing one order's fills leaves every other order's alone. */
  lemma {:induction false} AbsorbOthers(have: seq<Fill>, fills: seq<Fill>, b: Text, x: Text)
    requires b != x && forall f :: f in fills ==> f.brokerOrderId == b
    ensures FillsOn(Absorbed(have, fills), x) == FillsOn(have, x)
  {
    if fills != [] { AbsorbOthers(have, fills[..|fills| - 1], b, x); }
  }

  lemma MovedLeavesLive(s: Db, x: Db, c: Text, status: OrderStatus)
    requires Tables(s) && MovedTo(s, x, c, status) && !Live(s.intents[c].status)
    ensures LiveUntouched(s, x)
  {
    hide FillsKeyed, FillsOn;
  }

  lemma TookLeavesLive(v: BrokerView, s: Db, x: Db, c: Text)
    requires BrokerInv(v) && Tables(s) && Tables(x) && Took(v, s, x, c) && !Live(s.intents[c].status)
    ensures LiveUntouched(s, x)
  {
    hide BrokerInv, Refreshed, FillsKeyed, LiveUntouched, MirrorsIndexed;
    var b := x.mirrorByClient[c];
    OrderFills(v, b);
    MirrorNamed(x, c);
    RefreshLeavesLive(s, x, c, x.mirrors[b], v.orders[b].fills);
  }

  lemma OrderFills(v: BrokerView, b: Text)
    requires BrokerInv(v) && b in v.orders
    ensures forall f :: f in v.orders[b].fills ==> f.brokerOrderId == b
  {
    assert OrderStateValid(b, v.orders[b]);
  }

  lemma MirrorNamed(x: Db, c: Text)
    requires MirrorsIndexed(x) && c in x.mirrorByClient
    ensures var b := x.mirrorByClient[c];
            b in x.mirrors && x.mirrors[b].brokerOrderId == b && x.mirrors[b].clientOrderId == c
  {
  }

  lemma RefreshLeavesLive(s: Db, x: Db, c: Text, o: BrokerOrder, fills: seq<Fill>)
    requires MirrorsIndexed(s) && MirrorsIndexed(x) && c in s.intents && !Live(s.intents[c].status)
    requires o.clientOrderId == c && forall f :: f in fills ==> f.brokerOrderId == o.brokerOrderId
    requires SameTables(Refreshed(s, c, o, fills), x)
    ensures LiveUntouched(s, x)
  {
    hide Absorbed, FillsOn, TargetStatus, MirrorsIndexed;
    forall e | e in s.intents && Live(s.intents[e].status) ensures Untouched(s, x, e) {
      if e in s.mirrorByClient {
        MirrorNamed(s, e);
        MirrorNamed(x, e);
        AbsorbOthers(s.fills, fills, o.brokerOrderId, s.mirrorByClient[e]);
      }
    }
  }

  lemma ConcludedLeavesLive(v: BrokerView, s: Db, x: Db, c: Text)
    requires BrokerInv(v) && Tables(s) && Tables(x) && Concluded(v, s, x, c) && c in s.intents && !Live(s.intents[c].status)
    ensures LiveUntouched(s, x)
  {
    hide BrokerInv, Tables, Took, MovedTo, LiveUntouched;
    if MovedTo(s, x, c, UNKNOWN) { MovedLeavesLive(s, x, c, UNKNOWN); }
    else if MovedTo(s, x, c, REJECTED) { MovedLeavesLive(s, x, c, REJECTED); }
    else { TookLeavesLive(v, s, x, c); }
  }

  /** However `Resolve` returned, accepted intents are as they were. */
  lemma ResolvedLeavesLive(w: World, x: World, c: Text, i: OrderIntent)
    requires Good(w) && Good(x) && c in w.staged.intents
    requires if InFlight(w.staged.intents[c].status)
             then Settled(w, x, c, i) && (Took(x.broker, w.staged, x.durable, c) || Unanswered(w, x, c))
             else x == w
    ensures LiveKept(w, x)
  {
    hide Good, BrokerInv, Sound, Tables, Took, MovedTo, LiveUntouched, Concluded;
    GoodTables(w);
    GoodTables(x);
    if w.durable != w.staged {
    } else if x == w {
      SameLeavesLive(w.staged, x.staged);
    } else if Took(x.broker, w.staged, x.durable, c) {
      TookLeavesLive(x.broker, w.staged, x.durable, c);
    } else if x.attempts == w.attempts {
      MovedLeavesLive(w.staged, x.durable, c, UNKNOWN);
    } else {
      ConcludedLeavesLive(x.broker, w.staged, x.durable, c);
    }
  }

  lemma StaysKept(w: World)
    requires Good(w)
    ensures LiveKept(w, w)
  {
    GoodTables(w);
    SameLeavesLive(w.staged, w.staged);
    hide Good, LiveUntouched;
  }

  /** Reading the clock in between changes nothing either. */
  lemma DatedLeavesLive(w: World, dated: World, t: Db)
    requires Good(w) && Around(w, dated, false)
    requires dated.staged == dated.durable ==> LiveUntouched(dated.staged, t)
    ensures w.staged == w.durable ==> LiveUntouched(w.staged, t)
  {
    GoodTables(w);
    SameLeavesLive(w.staged, dated.staged);
    hide Good, LiveUntouched;
    if w.staged == w.durable { LiveComposes(w.staged, dated.staged, t); }
  }

  lemma ExpiryLeavesLive(s: Db, t: Db, status: OrderStatus, now: Time)
    requires Tables(s) && Expires(s, t, status, now) && PreBroker(status)
    ensures LiveUntouched(s, t)
  {
    hide FillsKeyed, FillsOn;
  }

  lemma ExpiriesLeaveLive(s0: Db, s: Db, t: Db, u: Db, x: Db, now: Time)
    requires Tables(s) && Tables(t) && Tables(u)
    requires Expires(s, t, CREATED, now) && Expires(t, u, RISK_APPROVED, now) && Expires(u, x, OUTBOX_PENDING, now)
    ensures LiveUntouched(s0, s) ==> LiveUntouched(s0, x)
  {
    hide Tables, Expires, LiveUntouched;
    ExpiryLeavesLive(s, t, CREATED, now);
    ExpiryLeavesLive(t, u, RISK_APPROVED, now);
    ExpiryLeavesLive(u, x, OUTBOX_PENDING, now);
    LiveComposes(s, t, u);
    LiveComposes(s, u, x);
    if LiveUntouched(s0, s) { LiveComposes(s0, s, x); }
  }

  /**
   * The same over a whole `expire_overdue`, for an intent that was accepted when it began: its
   * failed cancellation left everything as it was exactly in the case of `FailedCancelInSweep`.
   */
  lemma FailedCancelInRun(start: Db, s: Db, t: Db, steps: seq<CancelStep>, k: nat)
    requires LiveUntouched(start, s) && SweepLeft(s, t, steps) && k < |steps| && CancelFailed(steps[k])
    requires steps[k].c in start.intents && Live(start.intents[steps[k].c].status) && Mirrored(start, steps[k].c)
    ensures var step := steps[k];
            Untouched(start, t, step.c)
            <==> start.intents[step.c].status == CANCEL_PENDING
                 && (step.report.Some? ==>
                       step.report.value == start.mirrors[start.mirrorByClient[step.c]]
                       && step.fills == FillsOn(start.fills, start.mirrorByClient[step.c]))
  {
    var step := steps[k];
    assert Untouched(start, s, step.c);
    FailedCancelInSweep(s, t, steps, k);
    hide SweepLeft, CancelFailed, FillsOn;
  }
}
