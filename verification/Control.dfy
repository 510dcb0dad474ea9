// Operator commands: pause, resume, reconcile, cancel and flatten
// (src/seven_lens/application/control_service.py, application/reconciliation_service.py:126-185).

module Control {
  import opened Orders
  import opened Sequences
  import opened Ledger
  import opened LedgerLaws
  import opened FakeBroker
  import opened BrokerPositions
  import opened Persistence
  import opened Reports
  import opened ExecutionState
  import opened ReportHandling
  import opened EngineReports
  import opened EngineInvariant
  import opened Submissions
  import opened RecoverySweep
  import opened ExpirySweep
  import opened CancelSweep
  import opened CancelEffects
  import opened ExecutionEngine
  import opened Reconciliation
  import opened ReconciliationLaws
  import opened Planning

  /** A command takes effect, is refused with an error, or its process dies. */
  datatype Command<+T> = Applied(value: T) | Refused | Died

  // ---------------------------------------------------------------- pause and resume

  /** The open transaction becomes durable, unless the process dies first. */
  method CommitOrDie(engine: ExecutionEngine) returns (committed: bool)
    requires engine.Valid()
    modifies engine.uow
    ensures engine.Valid() && Extends(old(engine.State()), engine.State())
    ensures engine.uow.durable == engine.uow.staged && !engine.uow.controlLocked
    ensures engine.uow.durable == if committed then old(engine.uow.staged) else old(engine.uow.durable)
    ensures engine.broker.View() == old(engine.broker.View()) && engine.attempts == old(engine.attempts)
  {
    hide Good, BrokerInv, Log, Follows;
    ghost var before := engine.State();
    LinkedControl(before);
    BrokerStays(before.broker);
    committed := *;
    if committed { engine.uow.Commit(); } else { engine.uow.Rollback(); }
    GoodSettled(before, engine.State());
  }

  method PauseEntries(engine: ExecutionEngine) returns (r: Command<()>)
    requires engine.Valid()
    modifies engine.uow
    ensures engine.Valid() && Extends(old(engine.State()), engine.State()) && engine.attempts == old(engine.attempts)
    ensures !r.Refused?
    ensures r.Applied? ==> engine.uow.durable == engine.uow.staged == old(engine.uow.staged).(paused := true)
    ensures r.Died? ==> engine.uow.durable == engine.uow.staged == old(engine.uow.durable)
  {
    hide Good, BrokerInv, Sound, Log, Follows;
    ghost var before := engine.State();
    GoodBroker(before);
    BrokerStays(before.broker);
    engine.uow.PauseEntries();
    SoundByTables(before.broker, before.staged, engine.uow.staged);
    var dies: bool := *;
    if dies { engine.uow.Rollback(); r := Died; } else { engine.uow.Commit(); r := Applied(()); }
    GoodReplaced(before, engine.State());
  }

  /**
   * Resumes under the lock that submissions take: only when the latest run is FULL and CLEAN
   * and nothing is UNKNOWN or under review.
   */
  method ResumeEntries(engine: ExecutionEngine) returns (r: Command<()>)
    requires engine.Valid()
    modifies engine.uow
    ensures engine.Valid() && Extends(old(engine.State()), engine.State()) && engine.attempts == old(engine.attempts)
    ensures r.Applied? ==> old(engine.uow.staged).ResumeReady()
    ensures r.Applied? ==> engine.uow.durable == engine.uow.staged == old(engine.uow.staged).(paused := false)
    ensures !r.Applied? ==> engine.uow.durable == engine.uow.staged == old(engine.uow.durable)
    ensures r.Refused? ==> !old(engine.uow.staged).ResumeReady()
  {
    hide Good, BrokerInv, Sound, Log, Follows;
    ghost var before := engine.State();
    GoodBroker(before);
    BrokerStays(before.broker);
    var paused := engine.uow.LockControl();
    var runs := engine.uow.staged.runs;
    var unknown := engine.uow.ListByStatus(UNKNOWN);
    var review := engine.uow.ListByStatus(REVIEW_REQUIRED);
    UnresolvedListed(engine.uow.staged, unknown, review);
    if runs == [] || !runs[|runs| - 1].ResumeSafe() || unknown != [] || review != [] {
      engine.uow.Rollback();
      r := Refused;
    } else {
      var resumed := engine.uow.ResumeEntries();
      SoundByTables(before.broker, before.staged, engine.uow.staged);
      var dies: bool := *;
      if dies { engine.uow.Rollback(); r := Died; } else { engine.uow.Commit(); r := Applied(()); }
    }
    GoodReplaced(before, engine.State());
  }

  // ---------------------------------------------------------------- reconcile

  method AllMirrors(uow: UnitOfWork) returns (mirrors: seq<BrokerOrder>, open: seq<BrokerOrder>)
    requires Tables(uow.staged)
    ensures forall m :: m in mirrors <==> m.brokerOrderId in uow.staged.mirrors && uow.staged.mirrors[m.brokerOrderId] == m
    ensures forall m :: m in open <==> m in mirrors && !BrokerTerminal(m.status)
  {
    mirrors, open := [], [];
    var ids := uow.staged.mirrors.Keys;
    while ids != {}
      invariant ids <= uow.staged.mirrors.Keys
      invariant forall m :: m in mirrors <==>
        m.brokerOrderId in uow.staged.mirrors && m.brokerOrderId !in ids && uow.staged.mirrors[m.brokerOrderId] == m
      invariant forall m :: m in open <==> m in mirrors && !BrokerTerminal(m.status)
    {
      var b :| b in ids;
      var m := uow.staged.mirrors[b];
      mirrors := mirrors + [m];
      if !BrokerTerminal(m.status) { open := open + [m]; }
      ids := ids - {b};
    }
  }

  method TakeSnapshot(uow: UnitOfWork, baseline: Option<Baseline>) returns (local: LocalView)
    requires Tables(uow.staged)
    ensures ViewOf(uow.staged, local) && local.baseline == baseline
  {
    var review := uow.ListByStatus(REVIEW_REQUIRED);
    var unknown := uow.ListByStatus(UNKNOWN);
    var mirrors, open := AllMirrors(uow);
    local := LocalView(uow.staged.intents, review, unknown, open, mirrors, uow.staged.fills, baseline);
  }

  /** The run that stands for a broker that could not be observed, or for a ledger error. */
  function Evidence(kind: MismatchKind, detail: Text, now: Time): ReconciliationResult {
    ReconciliationResult([Mismatch(kind, detail)], 0, 0, now, PARTIAL)
  }

  /** What the run appended by one reconciliation says. */
  ghost predicate RunReports(run: ReconciliationResult, link: Link, policy: Option<Policy>, marks: Marks,
                             db: Db, local: LocalView, answers: Answers)
  {
    && (run.ResumeSafe() ==> link.Up? && !Raises(policy, marks, local))
    && (BrokerFails(link, local, true) ==> run == Evidence(BROKER_QUERY_FAILURE, LOST_BROKER, run.observedAt))
    && (LedgerFails(link, policy, local) ==> run == Evidence(LOCAL_LEDGER_INVARIANT, LEDGER_FAILURE, run.observedAt))
    && (link.Up? && !Raises(policy, marks, local) ==>
          && |run.mismatches| == FindingCount(policy, marks, local, answers) <= MAX_MISMATCHES
          && Project(db.fills, db.mirrors).Ok?
          && (run.ResumeSafe() <==>
                && policy.Some?
                && OrdersAgree(local, answers)
                && (forall c :: c in db.intents ==> db.intents[c].status != UNKNOWN && db.intents[c].status != REVIEW_REQUIRED)
                && PositionsNet(db, answers)
                && AccountAgrees(policy.value, marks, local, answers.account, db.mirrors, Project(db.fills, db.mirrors).value)))
  }

  const LOST_BROKER := "broker query failed during reconciliation"
  const LEDGER_FAILURE := "ledger invariant failure"

  /** A run is recorded of a lost broker, of a ledger error, and of findings nothing stands in the way of. */
  predicate Recordable(link: Link, policy: Option<Policy>, marks: Marks, local: LocalView, answers: Answers) {
    || BrokerFails(link, local, true)
    || LedgerFails(link, policy, local)
    || (link.Up? && !ValueRaises(policy, marks, local) && !TooMany(policy, marks, local, answers))
  }

  method Report(uow: UnitOfWork, link: Link, policy: Option<Policy>, marks: Marks, local: LocalView, answers: Answers,
                now: Time)
    returns (r: Result<ReconciliationResult, CollectError>)
    requires Tables(uow.staged) && ViewOf(uow.staged, local)
    ensures r.Ok? <==> Recordable(link, policy, marks, local, answers)
    ensures r.Ok? ==> RunReports(r.value, link, policy, marks, uow.staged, local, answers)
    ensures r == Err(BrokerRefused) <==> BrokerFails(link, local, false)
    ensures r == Err(ValueOutOfRange) <==> link.Up? && ValueRaises(policy, marks, local)
    ensures r == Err(TooManyMismatches) <==> link.Up? && TooMany(policy, marks, local, answers)
  {
    hide CashRaises, NavRaises, FindingCount, OrdersAgree, PositionsNet, AccountAgrees, Agrees, Project, Tables;
    r := Collect(link, policy, marks, local, answers, now);
    match r
    case Err(BrokerLost) => r := Ok(Evidence(BROKER_QUERY_FAILURE, LOST_BROKER, now));
    case Err(LedgerInvariant) => r := Ok(Evidence(LOCAL_LEDGER_INVARIANT, LEDGER_FAILURE, now));
    case Err(BrokerRefused) =>
    case Err(ValueOutOfRange) =>
    case Err(TooManyMismatches) =>
    case Ok(run) => ResumeSafeMeansAgreement(uow.staged, local, answers, policy, marks, run);
  }

  /** How a reconciliation ends: its run recorded, an error nobody catches, refused, or a dead process. */
  datatype Reconciled = RunRecorded(run: ReconciliationResult) | RunRaised(error: CollectError) | RunRefused | RunDied

  /**
   * Collects, records the run, and pauses entries on any mismatch it records, all in one
   * transaction.  An error that is not caught leaves no run and no pause.
   */
  method RunReconciliation(engine: ExecutionEngine, policy: Option<Policy>, marks: Marks, baseline: Option<Baseline>,
                           answers: Answers, link: Link)
    returns (r: Reconciled, local: LocalView)
    requires engine.Valid()
    modifies engine.broker.clock, engine.uow
    ensures engine.Valid() && Extends(old(engine.State()), engine.State()) && engine.attempts == old(engine.attempts)
    ensures r.RunRefused? <==> old(engine.uow.staged != engine.uow.durable)
    ensures !r.RunRefused? ==> ViewOf(old(engine.uow.durable), local) && local.baseline == baseline
    ensures !r.RunRefused? ==> (r.RunRaised? <==> !Recordable(link, policy, marks, local, answers))
    ensures r.RunRaised? ==>
      && engine.uow.durable == engine.uow.staged == old(engine.uow.durable) && engine.uow.history == old(engine.uow.history)
      && (r.error == BrokerRefused <==> BrokerFails(link, local, false))
      && (r.error == ValueOutOfRange <==> link.Up? && ValueRaises(policy, marks, local))
      && (r.error == TooManyMismatches <==> link.Up? && TooMany(policy, marks, local, answers))
    ensures r.RunRecorded? ==>
      && engine.uow.durable == engine.uow.staged == old(engine.uow.durable).(
           runs := old(engine.uow.durable).runs + [r.run],
           paused := old(engine.uow.durable).paused || !r.run.Clean())
      && ViewOf(engine.uow.durable, local)
      && RunReports(r.run, link, policy, marks, engine.uow.durable, local, answers)
  {
    hide Good, BrokerInv, Sound, Log, Follows, RunReports, Tables, Linked, Moves, BrokerGrows, ViewOf, LedgerRaises,
      ValueRaises, TooMany;
    ghost var start := engine.State();
    BrokerStays(start.broker);
    local := LocalView(map[], [], [], [], [], [], None);
    if engine.uow.staged != engine.uow.durable { return RunRefused, local; }
    var now := engine.ReadClock();
    ghost var before := engine.State();
    AroundExtends(start, before, false);
    LinkedControl(before);
    GoodBroker(before);
    local := TakeSnapshot(engine.uow, baseline);
    var report := Report(engine.uow, link, policy, marks, local, answers, now);
    if report.Err? { return RunRaised(report.error), local; }
    var recorded := RecordRun(engine, report.value);
    ExtendsComposes(start, before, engine.State());
    if recorded { ReportStays(report.value, link, policy, marks, before.staged, engine.uow.staged, local, answers); }
    r := if recorded then RunRecorded(report.value) else RunDied;
  }

  /** The run and the pause it may bring become durable together or not at all. */
  method RecordRun(engine: ExecutionEngine, run: ReconciliationResult) returns (recorded: bool)
    requires engine.Valid() && engine.uow.staged == engine.uow.durable
    modifies engine.uow
    ensures engine.Valid() && Extends(old(engine.State()), engine.State()) && engine.attempts == old(engine.attempts)
    ensures recorded ==> engine.uow.durable == engine.uow.staged == old(engine.uow.durable).(
      runs := old(engine.uow.durable).runs + [run], paused := old(engine.uow.durable).paused || !run.Clean())
    ensures recorded ==> SameTables(old(engine.uow.staged), engine.uow.staged)
    ensures !recorded ==> engine.uow.durable == engine.uow.staged == old(engine.uow.durable)
  {
    hide Good, BrokerInv, Sound, Log, Follows, Tables, Linked, Moves, BrokerGrows;
    ghost var before := engine.State();
    BrokerStays(before.broker);
    GoodBroker(before);
    engine.uow.AddRun(run);
    if !run.Clean() { engine.uow.PauseEntries(); }
    SoundByTables(before.broker, before.staged, engine.uow.staged);
    var dies: bool := *;
    if dies { engine.uow.Rollback(); } else { engine.uow.Commit(); }
    recorded := !dies;
    GoodReplaced(before, engine.State());
  }

  lemma ReportStays(run: ReconciliationResult, link: Link, policy: Option<Policy>, marks: Marks,
                    db: Db, next: Db, local: LocalView, answers: Answers)
    requires RunReports(run, link, policy, marks, db, local, answers) && SameTables(db, next) && ViewOf(db, local)
    ensures RunReports(run, link, policy, marks, next, local, answers) && ViewOf(next, local)
  {
    hide Raises, LedgerFails, BrokerFails, FindingCount, OrdersAgree, AccountAgrees, Project, Evidence, Bought, Sold, BrokerShares;
  }

  // ---------------------------------------------------------------- cancel

  /** A partial failure is recorded and committed before the command is refused. */
  method Abort<T>(engine: ExecutionEngine) returns (r: Command<T>)
    requires engine.Valid()
    modifies engine.uow
    ensures engine.Valid() && Extends(old(engine.State()), engine.State()) && engine.attempts == old(engine.attempts)
    ensures !r.Applied?
  {
    var committed := CommitOrDie(engine);
    r := if committed then Refused else Died;
  }

  method LiveIntents(uow: UnitOfWork) returns (found: seq<OrderIntent>)
    ensures forall c {:trigger uow.staged.intents[c]} :: c in uow.staged.intents && Live(uow.staged.intents[c].status) ==>
      uow.staged.intents[c] in found
  {
    var acknowledged := uow.ListByStatus(ACKNOWLEDGED);
    var partial := uow.ListByStatus(PARTIALLY_FILLED);
    var pending := uow.ListByStatus(CANCEL_PENDING);
    found := acknowledged + partial + pending;
  }

  /** Requests cancellation one by one; the first failure stops the sweep. */
  method CancelEach(engine: ExecutionEngine, found: seq<OrderIntent>) returns (r: Outcome<seq<OrderIntent>>)
    requires engine.Valid()
    modifies engine`cancels, engine.broker, engine.broker.clock, engine.uow
    ensures engine.Valid() && Extends(old(engine.State()), engine.State()) && engine.attempts == old(engine.attempts)
    ensures r.Returned? ==> |r.value| == |found|
                            && forall k :: 0 <= k < |found| ==> r.value[k].clientOrderId == found[k].clientOrderId
    ensures r.Returned? ==>
      forall k {:trigger found[k]} :: 0 <= k < |found| ==> Asked(old(engine.cancels), engine.cancels, found[k].clientOrderId)
    ensures r.Returned? && old(engine.uow.staged) == old(engine.uow.durable) ==> engine.uow.staged == engine.uow.durable
  {
    hide Good, BrokerInv, Log, Follows, BrokerGrows, Settled, CaughtUp, Took, Asked, CancelledOnce, AfterCancel, OneCancel,
      StepShown, CancelFailed, SameTables, Known;
    ghost var before, sent := engine.State(), engine.cancels;
    BrokerStays(before.broker);
    var cancelled: seq<OrderIntent> := [];
    for i := 0 to |found|
      invariant engine.Valid() && Extends(before, engine.State()) && engine.attempts == before.attempts
      invariant |cancelled| == i && forall k :: 0 <= k < i ==> cancelled[k].clientOrderId == found[k].clientOrderId
      invariant sent <= engine.cancels
      invariant before.staged == before.durable ==> engine.uow.staged == engine.uow.durable
      invariant forall k {:trigger found[k]} :: 0 <= k < i ==> Asked(sent, engine.cancels, found[k].clientOrderId)
    {
      ghost var met, log := engine.State(), engine.cancels;
      var one, step := engine.RequestCancel(found[i].clientOrderId);
      ExtendsComposes(before, met, engine.State());
      if one.Crashed? { return Crashed; }
      if one.Raised? { return Raised(one.error); }
      SettledNamed(met, engine.State(), found[i].clientOrderId, one.value);
      OneAsked(sent, log, engine.cancels, engine.uow.history, found[i].clientOrderId);
      forall k | 0 <= k < i ensures Asked(sent, engine.cancels, found[k].clientOrderId) {
        AskedStays(sent, log, engine.cancels, found[k].clientOrderId);
      }
      cancelled := cancelled + [one.value];
    }
    r := Returned(cancelled);
  }

  lemma OneAsked(sent: seq<Attempt>, log: seq<Attempt>, next: seq<Attempt>, history: seq<Db>, c: Text)
    requires sent <= log && CancelledOnce(log, next, history, c) && |next| == |log| + 1
    ensures log <= next && Asked(sent, next, c)
  {
    assert next[|log|].intent.clientOrderId == c;
  }

  lemma SettledNamed(w: World, x: World, c: Text, i: OrderIntent)
    requires Good(w) && Settled(w, x, c, i)
    ensures i.clientOrderId == c && x.staged == x.durable
  {
    assert w.staged.intents[c].clientOrderId == c;
  }

  method RefreshEach(engine: ExecutionEngine, found: seq<OrderIntent>) returns (r: Outcome<()>)
    requires engine.Valid()
    modifies engine.broker, engine.broker.clock, engine.uow
    ensures engine.Valid() && Extends(old(engine.State()), engine.State()) && engine.attempts == old(engine.attempts)
    ensures r.Returned? && old(engine.uow.staged) == old(engine.uow.durable) ==> engine.uow.staged == engine.uow.durable
  {
    hide Good, BrokerInv, Log, Follows, BrokerGrows, Settled, CaughtUp, Took;
    ghost var before := engine.State();
    BrokerStays(before.broker);
    for i := 0 to |found|
      invariant engine.Valid() && Extends(before, engine.State()) && engine.attempts == before.attempts
      invariant before.staged == before.durable ==> engine.uow.staged == engine.uow.durable
    {
      ghost var met := engine.State();
      var one := engine.ApplyFills(found[i].clientOrderId);
      ExtendsComposes(before, met, engine.State());
      if one.Crashed? { return Crashed; }
      if one.Raised? { return Raised(one.error); }
      if engine.State() != met { SettledNamed(met, engine.State(), found[i].clientOrderId, one.value); }
    }
    r := Returned(());
  }

  /** Requests cancellation of every live intent. */
  method CancelOpenOrders(engine: ExecutionEngine) returns (r: Command<seq<OrderIntent>>)
    requires engine.Valid()
    modifies engine`cancels, engine.broker, engine.broker.clock, engine.uow
    ensures engine.Valid() && Extends(old(engine.State()), engine.State()) && engine.attempts == old(engine.attempts)
    ensures r.Applied? ==> forall c :: c in old(engine.uow.staged).intents && Live(old(engine.uow.staged).intents[c].status) ==>
      (exists i :: i in r.value && i.clientOrderId == c) && Asked(old(engine.cancels), engine.cancels, c)
  {
    hide Good, BrokerInv, Log, Follows, BrokerGrows, Asked;
    ghost var before, sent := engine.State(), engine.cancels;
    var found := LiveIntents(engine.uow);
    AllKeyed(before);
    var cancelled := CancelEach(engine, found);
    ghost var after := engine.State();
    if cancelled.Crashed? { return Died; }
    if cancelled.Raised? {
      r := Abort(engine);
      ExtendsComposes(before, after, engine.State());
      return;
    }
    var committed := CommitOrDie(engine);
    ExtendsComposes(before, after, engine.State());
    if !committed { return Died; }
    forall c | c in before.staged.intents && Live(before.staged.intents[c].status)
      ensures (exists i :: i in cancelled.value && i.clientOrderId == c) && Asked(sent, engine.cancels, c)
    {
      var k :| 0 <= k < |found| && found[k] == before.staged.intents[c];
      assert cancelled.value[k] in cancelled.value;
    }
    r := Applied(cancelled.value);
  }
}
