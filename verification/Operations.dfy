// Every run: any sequence of engine, planning and operator commands, any answers of the
// broker's script, other processes in between, and a crash anywhere.

module Operations {
  import opened Orders
  import opened Ledger
  import opened Clocks
  import opened FakeBroker
  import opened Persistence
  import opened Reports
  import opened ExecutionState
  import opened EngineReports
  import opened EngineInvariant
  import opened Submissions
  import opened RecoverySweep
  import opened ExpirySweep
  import opened CancelSweep
  import opened CancelEffects
  import opened ExecutionEngine
  import opened ExecutionLaws
  import opened Reconciliation
  import opened Planning
  import opened Control
  import opened Flatten

  /** One command of the engine. */
  method EngineCommand(engine: ExecutionEngine)
    requires engine.Valid()
    modifies engine, engine.broker, engine.broker.clock, engine.uow
    ensures engine.Valid() && Extends(old(engine.State()), engine.State())
  {
    hide Good, Extends, Log, Follows, Settled, CaughtUp, NoneOverdue, Around, Swept, Concluded, Unanswered, Took,
      CancelledOnce, OpenWindowsKept;
    var c: Text := *;
    if {
      case true => var r := engine.SubmitFromOutbox(c);
      case true => var r := engine.Resolve(c);
      case true => var r := engine.ApplyFills(c);
      case true => var r, step := engine.RequestCancel(c);
      case true => var r, cutoff, settled, steps := engine.ExpireOverdue();
      case true => var r := engine.Recover();
      case true => var crashed := engine.Environment();
    }
  }

  /** One command of an operator. */
  method OperatorCommand(engine: ExecutionEngine)
    requires engine.Valid()
    modifies engine, engine.broker, engine.broker.clock, engine.uow
    ensures engine.Valid() && Extends(old(engine.State()), engine.State())
  {
    hide Good, Extends, Log, Follows, ReadyToExit, ExitsPlaced, RunReports, Asked;
    if {
      case true => var r := PauseEntries(engine);
      case true => var r := ResumeEntries(engine);
      case true => var r := CancelOpenOrders(engine);
      case true =>
        var confirmed: bool, date: Text, limits: map<Text, Cents>, cancelAt: Time := *, *, *, *;
        var r, positions, symbols, at := FlattenPaper(engine, confirmed, date, limits, cancelAt);
      case true =>
        var policy: Option<Policy>, marks: Marks := *, *;
        var baseline: Option<Baseline>, answers: Answers, link: Link := *, *, *;
        var r, local := RunReconciliation(engine, policy, marks, baseline, answers, link);
    }
  }

  /** One write of the planner, staged, committed or dropped. */
  method PlannerCommand(engine: ExecutionEngine)
    requires engine.Valid()
    modifies engine.uow
    ensures engine.Valid() && Extends(old(engine.State()), engine.State())
  {
    hide Good, Log, Follows, BrokerGrows;
    BrokerStays(engine.broker.View());
    var c: Text, target: OrderStatus, intent: OrderIntent := *, *, *;
    if {
      case intent.status == CREATED => var r := AddIntent(engine, intent);
      case PreBroker(target) => var r := Advance(engine, c, target);
      case true => var r := RejectNew(engine, c);
      case true => var r := CommitOrDie(engine);
    }
  }

  /** Any run keeps everything the engine promises. */
  method AnyRun(engine: ExecutionEngine)
    requires engine.Valid()
    modifies engine, engine.broker, engine.broker.clock, engine.uow
    ensures engine.Valid() && Extends(old(engine.State()), engine.State())
  {
    hide Good, Log, Follows, BrokerGrows;
    ghost var start := engine.State();
    BrokerStays(start.broker);
    var steps: int :| 0 <= steps;
    for i := 0 to steps
      invariant engine.Valid() && Extends(start, engine.State())
    {
      ghost var met := engine.State();
      if {
        case true => EngineCommand(engine);
        case true => OperatorCommand(engine);
        case true => PlannerCommand(engine);
      }
      ExtendsComposes(start, met, engine.State());
    }
  }

  /** A fresh broker and empty tables are a valid start, whatever the script. */
  method FreshStart(clock: Clock, plans: map<Text, SubmitPlan>, defaultPlan: SubmitPlan, cancelMode: CancelMode,
                    hidden: set<Text>, assets: map<Text, Asset>, unknownAssets: set<Text>, controlled: bool)
    returns (engine: ExecutionEngine)
    ensures engine.Valid() && fresh(engine) && fresh(engine.broker) && fresh(engine.uow) && engine.broker.clock == clock
    ensures engine.uow.durable == EMPTY_DB && engine.attempts == []
  {
    var broker := new FakePaperBroker(clock, plans, defaultPlan, cancelMode, hidden, assets, unknownAssets);
    var uow := new UnitOfWork(EMPTY_DB);
    EmptyIsSound(broker.View());
    engine := new ExecutionEngine(broker, uow, controlled);
  }

  /** Every run from a fresh start, whatever the script, the environment and the crashes, is safe. */
  method RunFromScratch(clock: Clock, plans: map<Text, SubmitPlan>, defaultPlan: SubmitPlan, cancelMode: CancelMode,
                        hidden: set<Text>, assets: map<Text, Asset>, unknownAssets: set<Text>, controlled: bool)
    returns (engine: ExecutionEngine)
    modifies clock
    ensures engine.Valid() && Safe(engine.State())
  {
    hide Good, Log, Follows, BrokerGrows, Safe, Extends;
    engine := FreshStart(clock, plans, defaultPlan, cancelMode, hidden, assets, unknownAssets, controlled);
    AnyRun(engine);
    GoodIsSafe(engine.State());
  }

  lemma EmptyIsSound(v: BrokerView)
    requires v.submitParams == map[]
    ensures Sound(v, EMPTY_DB)
  {
  }
}
