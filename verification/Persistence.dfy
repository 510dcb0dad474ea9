// Durable state and the unit of work over it: what the repositories and the database
// guards promise (src/seven_lens/infrastructure/postgres.py, migrations/0003, 0007, 0015, 0019).

module Persistence {
  import opened Orders
  import opened Sequences
  import opened Reports

  datatype PersistenceError =
    | Missing | BoundElsewhere | IllegalTransition | IdentityConflict | GuardViolation | ResumeRefused

  datatype Db = Db(
    intents: map<Text, OrderIntent>,
    mirrors: map<Text, BrokerOrder>,
    mirrorByClient: map<Text, Text>,
    fills: seq<Fill>,
    paused: bool,
    runs: seq<ReconciliationResult>,
    flattenGeneration: nat)
  {
    /** Some intent's broker truth is unresolved: it blocks every new entry. */
    predicate Unresolved() {
      exists c :: c in intents && (intents[c].status.UNKNOWN? || intents[c].status.REVIEW_REQUIRED?)
    }

    predicate ResumeReady() {
      runs != [] && runs[|runs| - 1].ResumeSafe() && !Unresolved()
    }
  }

  const EMPTY_DB := Db(map[], map[], map[], [], false, [], 0)

  // ---------------------------------------------------------------- guarded writes

  function WithStatus(db: Db, c: Text, target: OrderStatus): Db
    requires c in db.intents
  {
    db.(intents := db.intents[c := db.intents[c].(status := target)])
  }

  /** The transition trigger: writing the current status again is a no-op, not an error. */
  predicate MayTransition(db: Db, c: Text, target: OrderStatus) {
    c in db.intents && (db.intents[c].status == target || IntentMayBecome(db.intents[c].status, target))
  }

  predicate SameIdentity(m: BrokerOrder, o: BrokerOrder) {
    m == o.(status := m.status, filledQuantity := m.filledQuantity, updatedAt := m.updatedAt)
  }

  /** A mirror only moves forward: legal status, no lost fills, no earlier broker time. */
  predicate MirrorMayBecome(m: BrokerOrder, o: BrokerOrder) {
    && SameIdentity(m, o)
    && BrokerReaches(m.status, o.status)
    && m.filledQuantity <= o.filledQuantity
    && m.updatedAt <= o.updatedAt
  }

  predicate FilledExactly(o: BrokerOrder) {
    o.filledQuantity <= o.quantity && (o.status == B_FILLED ==> o.filledQuantity == o.quantity)
  }

  /** Why `o` cannot be recorded, if it cannot. */
  function RecordError(db: Db, o: BrokerOrder): Option<PersistenceError> {
    if o.brokerOrderId in db.mirrors then
      var m := db.mirrors[o.brokerOrderId];
      if !SameIdentity(m, o) then Some(IdentityConflict)
      else if MirrorMayBecome(m, o) && FilledExactly(o) then None
      else Some(GuardViolation)
    else if o.clientOrderId in db.mirrorByClient then Some(IdentityConflict)
    else if o.clientOrderId in db.intents && FilledExactly(o) then None
    else Some(GuardViolation)
  }

  function Recorded(db: Db, o: BrokerOrder): Db {
    db.(mirrors := db.mirrors[o.brokerOrderId := o],
        mirrorByClient := db.mirrorByClient[o.clientOrderId := o.brokerOrderId])
  }

  function FindFill(fills: seq<Fill>, id: Text): (r: Option<Fill>)
    ensures r.Some? ==> r.value in fills && r.value.executionId == id
    ensures r.None? ==> forall f :: f in fills ==> f.executionId != id
  {
    if fills == [] then None
    else if fills[0].executionId == id then Some(fills[0])
    else FindFill(fills[1..], id)
  }

  /** Fills are append-only and keyed by execution id: a repeated id changes nothing. */
  function Kept(have: seq<Fill>, f: Fill): seq<Fill> {
    if FindFill(have, f.executionId).Some? then have else have + [f]
  }

  function WithFill(db: Db, f: Fill): Db {
    db.(fills := Kept(db.fills, f))
  }

  function Absorbed(have: seq<Fill>, fills: seq<Fill>): seq<Fill> {
    if fills == [] then have else Kept(Absorbed(have, fills[..|fills| - 1]), fills[|fills| - 1])
  }

  function OnOrder(b: Text): Fill -> bool {
    (f: Fill) => f.brokerOrderId == b
  }

  function FillsOn(fills: seq<Fill>, b: Text): seq<Fill> {
    Filter(fills, OnOrder(b))
  }

  // ---------------------------------------------------------------- what the tables keep

  ghost predicate MirrorsIndexed(db: Db) {
    && (forall b {:trigger db.mirrors[b]} :: b in db.mirrors ==>
          var o := db.mirrors[b];
          && o.brokerOrderId == b && FilledExactly(o)
          && o.clientOrderId in db.mirrorByClient && db.mirrorByClient[o.clientOrderId] == b
          && o.clientOrderId in db.intents)
    && (forall c {:trigger db.mirrorByClient[c]} :: c in db.mirrorByClient ==>
          db.mirrorByClient[c] in db.mirrors && db.mirrors[db.mirrorByClient[c]].clientOrderId == c)
  }

  ghost predicate FillsKeyed(db: Db) {
    && DistinctIds(db.fills)
    && (forall f {:trigger f in db.fills} :: f in db.fills ==> f.brokerOrderId in db.mirrors)
  }

  ghost predicate Tables(db: Db) {
    && (forall c {:trigger db.intents[c]} :: c in db.intents ==> db.intents[c].clientOrderId == c)
    && MirrorsIndexed(db)
    && FillsKeyed(db)
  }

  lemma TransitionKeepsTables(db: Db, c: Text, target: OrderStatus)
    requires Tables(db) && c in db.intents
    ensures Tables(WithStatus(db, c, target))
  {
  }

  lemma RecordKeepsTables(db: Db, o: BrokerOrder)
    requires Tables(db) && RecordError(db, o) == None
    ensures Tables(Recorded(db, o))
  {
  }

  lemma FillKeepsTables(db: Db, f: Fill)
    requires Tables(db) && f.brokerOrderId in db.mirrors
    ensures Tables(WithFill(db, f))
  {
  }

  // ---------------------------------------------------------------- durable history

  /** Zero or more legal status transitions. */
  predicate StatusFollows(a: OrderStatus, b: OrderStatus) {
    a == b || match a
    case CREATED => true
    case RISK_APPROVED => !b.CREATED?
    case OUTBOX_PENDING => !PreBroker(b)
    case SUBMITTING => !PreBroker(b)
    case UNKNOWN => !PreBroker(b) && !b.SUBMITTING?
    case ACKNOWLEDGED => AfterAcceptance(b) && !b.ACKNOWLEDGED?
    case PARTIALLY_FILLED => AfterAcceptance(b) && !b.ACKNOWLEDGED?
    case CANCEL_PENDING => AfterAcceptance(b) && !b.ACKNOWLEDGED?
    case REVIEW_REQUIRED => false
    case _ => b.REVIEW_REQUIRED?
  }

  /** Statuses an accepted order can still lead to. */
  predicate AfterAcceptance(s: OrderStatus) {
    s.ACKNOWLEDGED? || s.PARTIALLY_FILLED? || s.CANCEL_PENDING? || s.FILLED? || s.CANCELED? || s.EXPIRED? || s.REVIEW_REQUIRED?
  }

  lemma StatusFollowsComposes(a: OrderStatus, b: OrderStatus, c: OrderStatus)
    requires StatusFollows(a, b) && StatusFollows(b, c)
    ensures StatusFollows(a, c)
  {
  }

  /** The closure of the transition map is exactly what one legal step extends. */
  lemma StatusStepFollows(a: OrderStatus, b: OrderStatus, c: OrderStatus)
    requires StatusFollows(a, b) && IntentMayBecome(b, c)
    ensures StatusFollows(a, c)
  {
  }

  predicate IntentFollows(i: OrderIntent, j: OrderIntent) {
    j == i.(status := j.status) && StatusFollows(i.status, j.status)
  }

  /** `e` is a later state of the tables than `d`: nothing is rebound, lost or moved back. */
  ghost predicate Follows(d: Db, e: Db) {
    && (forall c {:trigger d.intents[c]} {:trigger e.intents[c]} :: c in d.intents ==>
          c in e.intents && IntentFollows(d.intents[c], e.intents[c]))
    && (forall b {:trigger d.mirrors[b]} {:trigger e.mirrors[b]} :: b in d.mirrors ==>
          b in e.mirrors && MirrorMayBecome(d.mirrors[b], e.mirrors[b]))
    && d.fills <= e.fills
    && d.runs <= e.runs
    && d.flattenGeneration <= e.flattenGeneration
  }

  lemma FollowsRefl(d: Db)
    ensures Follows(d, d)
  {
  }

  lemma FollowsComposes(d: Db, e: Db, f: Db)
    requires Follows(d, e) && Follows(e, f)
    ensures Follows(d, f)
  {
    forall c | c in d.intents
      ensures c in f.intents && IntentFollows(d.intents[c], f.intents[c])
    {
      StatusFollowsComposes(d.intents[c].status, e.intents[c].status, f.intents[c].status);
    }
    forall b | b in d.mirrors
      ensures b in f.mirrors && MirrorMayBecome(d.mirrors[b], f.mirrors[b])
    {
      BrokerReachesComposes(d.mirrors[b].status, e.mirrors[b].status, f.mirrors[b].status);
    }
  }

  lemma TransitionFollows(db: Db, c: Text, target: OrderStatus)
    requires MayTransition(db, c, target)
    ensures Follows(db, WithStatus(db, c, target))
  {
    if db.intents[c].status != target {
      StatusStepFollows(db.intents[c].status, db.intents[c].status, target);
    }
  }

  lemma RecordFollows(db: Db, o: BrokerOrder)
    requires RecordError(db, o) == None
    ensures Follows(db, Recorded(db, o))
  {
  }

  /** Entries are unpaused only into a state that was ready to resume. */
  predicate PauseRule(d: Db, e: Db) {
    d.paused && !e.paused ==> e.ResumeReady()
  }

  /** Every durable state so far, oldest first: each follows all before it. */
  ghost predicate Log(history: seq<Db>) {
    && history != []
    && (forall i, j :: 0 <= i <= j < |history| ==> Follows(history[i], history[j]))
    && (forall i {:trigger history[i]} :: 0 < i < |history| ==> PauseRule(history[i - 1], history[i]))
  }

  lemma LogExtends(history: seq<Db>, e: Db)
    requires Log(history)
    requires Follows(history[|history| - 1], e) && PauseRule(history[|history| - 1], e)
    ensures Log(history + [e])
  {
    var longer := history + [e];
    var last := |history| - 1;
    forall i, j | 0 <= i <= j < |longer|
      ensures Follows(longer[i], longer[j])
    {
      if j <= last {
        assert Follows(history[i], history[j]);
      } else if i <= last {
        FollowsComposes(history[i], history[last], e);
      }
    }
  }

  // ---------------------------------------------------------------- the unit of work

  /** A rollback-by-default transaction: writes are staged until committed. */
  class UnitOfWork {
    var durable: Db
    var staged: Db
    var controlLocked: bool
    ghost var history: seq<Db>

    /** The history is a log ending in the durable state, which the transaction extends. */
    ghost predicate Valid()
      reads this
    {
      Log(history) && history[|history| - 1] == durable && Follows(durable, staged)
    }

    constructor (initial: Db)
      ensures Valid()
      ensures durable == staged == initial && !controlLocked && history == [initial]
    {
      durable, staged, controlLocked, history := initial, initial, false, [initial];
    }

    method Commit()
      requires Valid() && PauseRule(durable, staged)
      modifies this
      ensures Valid()
      ensures durable == staged == old(staged) && !controlLocked && history == old(history) + [durable]
    {
      hide Log, Follows;
      LogExtends(history, staged);
      FollowsRefl(staged);
      durable, controlLocked := staged, false;
      history := history + [durable];
    }

    /** Discards the transaction; a crash does the same. */
    method Rollback()
      requires Valid()
      modifies this`staged, this`controlLocked
      ensures Valid()
      ensures staged == durable && !controlLocked
    {
      hide Log, Follows;
      FollowsRefl(durable);
      staged, controlLocked := durable, false;
    }

    /** A commit whose acknowledgement may be lost, whether or not it took effect. */
    method TryCommit() returns (ok: bool)
      requires Valid() && PauseRule(durable, staged)
      modifies this
      ensures Valid()
      ensures ok ==> durable == old(staged)
      ensures durable == staged && !controlLocked
      ensures (durable == old(staged) && history == old(history) + [durable])
              || (durable == old(durable) && history == old(history))
    {
      if
      case true => Commit(); ok := true;
      case true => Commit(); ok := false;
      case true => Rollback(); ok := false;
    }

    /** A commit by some other process: it pauses, resumes or records a reconciliation run. */
    method OtherProcess()
      requires Valid() && durable.runs == staged.runs && (!controlLocked ==> durable.paused == staged.paused)
      modifies this`durable, this`staged, this`history
      ensures Valid()
      ensures old(history) <= history
      ensures durable == old(durable).(paused := durable.paused, runs := durable.runs)
      ensures staged == old(staged).(paused := staged.paused, runs := durable.runs)
      ensures controlLocked ==> durable.paused == old(durable).paused && staged.paused == old(staged).paused
      ensures !controlLocked ==> durable.paused == staged.paused
    {
      hide Log;
      var run: ReconciliationResult := *;
      var paused: bool := *;
      ghost var before := durable;
      if {
        case !controlLocked && (paused || durable.ResumeReady()) =>
          durable, staged := durable.(paused := paused), staged.(paused := paused);
        case true =>
          durable, staged := durable.(runs := durable.runs + [run]), staged.(runs := staged.runs + [run]);
      }
      assert Follows(before, durable) && PauseRule(before, durable);
      LogExtends(history, durable);
      history := history + [durable];
    }

    /** Any number of commits by other processes. */
    method OtherProcesses()
      requires Valid() && durable.runs == staged.runs && (!controlLocked ==> durable.paused == staged.paused)
      modifies this`durable, this`staged, this`history
      ensures Valid()
      ensures old(history) <= history
      ensures durable == old(durable).(paused := durable.paused, runs := durable.runs)
      ensures staged == old(staged).(paused := staged.paused, runs := durable.runs)
      ensures controlLocked ==> durable.paused == old(durable).paused && staged.paused == old(staged).paused
      ensures !controlLocked ==> durable.paused == staged.paused
    {
      hide Log, Follows;
      ghost var d, s := durable, staged;
      ghost var h := history;
      var commits: int :| 0 <= commits;
      for i := 0 to commits
        invariant Valid() && h <= history
        invariant durable == d.(paused := durable.paused, runs := durable.runs)
        invariant staged == s.(paused := staged.paused, runs := durable.runs)
        invariant controlLocked ==> durable.paused == d.paused && staged.paused == s.paused
        invariant !controlLocked ==> durable.paused == staged.paused
      {
        OtherProcess();
      }
    }

    method Get(c: Text) returns (intent: Option<OrderIntent>)
      ensures intent == if c in staged.intents then Some(staged.intents[c]) else None
    {
      intent := if c in staged.intents then Some(staged.intents[c]) else None;
    }

    method GetFillByExecutionId(id: Text) returns (f: Option<Fill>)
      ensures f == FindFill(staged.fills, id)
    {
      f := FindFill(staged.fills, id);
    }

    method Add(intent: OrderIntent) returns (r: Result<OrderIntent, PersistenceError>)
      requires Valid()
      modifies this`staged
      ensures Valid()
      ensures var c := intent.clientOrderId;
              if c !in old(staged).intents then r == Ok(intent) && staged == old(staged).(intents := old(staged).intents[c := intent])
              else staged == old(staged)
                   && r == if old(staged).intents[c].intentId == intent.intentId then Ok(old(staged).intents[c])
                            else Err(BoundElsewhere)
    {
      hide Log;
      var c := intent.clientOrderId;
      if c !in staged.intents {
        staged := staged.(intents := staged.intents[c := intent]);
        return Ok(intent);
      }
      r := if staged.intents[c].intentId == intent.intentId then Ok(staged.intents[c]) else Err(BoundElsewhere);
    }

    /** Every intent in exactly this status, each once. */
    method ListByStatus(status: OrderStatus) returns (found: seq<OrderIntent>)
      ensures forall c {:trigger staged.intents[c]} :: c in staged.intents && staged.intents[c].status == status ==> staged.intents[c] in found
      ensures forall i :: i in found ==> exists c :: c in staged.intents && staged.intents[c] == i && i.status == status
      ensures found == [] <==> forall c :: c in staged.intents ==> staged.intents[c].status != status
    {
      var keys := set c | c in staged.intents && staged.intents[c].status == status;
      found := [];
      while keys != {}
        invariant forall c :: c in keys ==> c in staged.intents && staged.intents[c].status == status
        invariant forall c {:trigger staged.intents[c]} :: c in staged.intents && staged.intents[c].status == status ==>
          c in keys || staged.intents[c] in found
        invariant forall i :: i in found ==> exists c :: c in staged.intents && staged.intents[c] == i && i.status == status
      {
        var c :| c in keys;
        found := found + [staged.intents[c]];
        keys := keys - {c};
      }
      assert found != [] ==> found[0] in found;
    }

    method TransitionStatus(c: Text, target: OrderStatus) returns (r: Result<OrderIntent, PersistenceError>)
      requires Valid()
      modifies this`staged
      ensures Valid()
      ensures r.Ok? <==> MayTransition(old(staged), c, target)
      ensures r.Ok? ==> staged == WithStatus(old(staged), c, target) && r.value == staged.intents[c]
      ensures r.Err? ==> staged == old(staged)
                         && r.error == if c in staged.intents then IllegalTransition else Missing
    {
      hide Log, Follows;
      if c !in staged.intents { return Err(Missing); }
      if staged.intents[c].status == target {
        assert WithStatus(staged, c, target) == staged;
        return Ok(staged.intents[c]);
      }
      if !IntentMayBecome(staged.intents[c].status, target) { return Err(IllegalTransition); }
      TransitionFollows(staged, c, target);
      FollowsComposes(durable, staged, WithStatus(staged, c, target));
      staged := WithStatus(staged, c, target);
      r := Ok(staged.intents[c]);
    }

    /** Inserts a mirror, or refreshes it without rebinding either identity. */
    method RecordBrokerOrder(o: BrokerOrder) returns (error: Option<PersistenceError>)
      requires Valid()
      modifies this`staged
      ensures Valid()
      ensures error == RecordError(old(staged), o)
      ensures error == None ==> staged == Recorded(old(staged), o)
      ensures error != None ==> staged == old(staged)
    {
      hide Log, Follows;
      if RecordError(staged, o) == None {
        RecordFollows(staged, o);
        FollowsComposes(durable, staged, Recorded(staged, o));
      }
      if o.brokerOrderId !in staged.mirrors && o.clientOrderId !in staged.mirrorByClient {
        if o.clientOrderId !in staged.intents || !FilledExactly(o) { return Some(GuardViolation); }
        staged := Recorded(staged, o);
        return None;
      }
      if o.brokerOrderId !in staged.mirrors { return Some(IdentityConflict); }
      var existing := staged.mirrors[o.brokerOrderId];
      if !SameIdentity(existing, o) { return Some(IdentityConflict); }
      if !MirrorMayBecome(existing, o) || !FilledExactly(o) { return Some(GuardViolation); }
      staged := Recorded(staged, o);
      error := None;
    }

    method GetBrokerOrder(c: Text) returns (o: Option<BrokerOrder>)
      requires Tables(staged)
      ensures o == if c in staged.mirrorByClient then Some(staged.mirrors[staged.mirrorByClient[c]]) else None
    {
      o := if c in staged.mirrorByClient then Some(staged.mirrors[staged.mirrorByClient[c]]) else None;
    }

    /** Appends one fill; a repeated execution id is an idempotent no-op. */
    method AddFill(f: Fill) returns (inserted: bool)
      requires Valid() && f.brokerOrderId in staged.mirrors
      modifies this`staged
      ensures Valid()
      ensures staged == WithFill(old(staged), f)
      ensures inserted <==> FindFill(old(staged).fills, f.executionId).None?
    {
      hide Log;
      inserted := FindFill(staged.fills, f.executionId).None?;
      if inserted { staged := staged.(fills := staged.fills + [f]); }
    }

    /** Takes the control row exclusively until the transaction ends. */
    method LockControl() returns (paused: bool)
      modifies this`controlLocked
      ensures controlLocked && paused == staged.paused
    {
      controlLocked := true;
      paused := staged.paused;
    }

    method PauseEntries()
      requires Valid()
      modifies this`staged, this`controlLocked
      ensures Valid()
      ensures staged == old(staged).(paused := true) && controlLocked
    {
      hide Log;
      staged, controlLocked := staged.(paused := true), true;
    }

    /** The database itself refuses a resume that the latest run and the intents do not support. */
    method ResumeEntries() returns (ok: bool)
      requires Valid()
      modifies this`staged, this`controlLocked
      ensures Valid()
      ensures controlLocked && ok == old(staged).ResumeReady()
      ensures staged == if ok then old(staged).(paused := false) else old(staged)
    {
      hide Log;
      controlLocked := true;
      ok := staged.runs != [] && staged.runs[|staged.runs| - 1].ResumeSafe() && !staged.Unresolved();
      if ok { staged := staged.(paused := false); }
    }

    method AddRun(run: ReconciliationResult)
      requires Valid()
      modifies this`staged
      ensures Valid()
      ensures staged == old(staged).(runs := old(staged).runs + [run])
    {
      hide Log;
      staged := staged.(runs := staged.runs + [run]);
    }

    method BumpFlattenGeneration() returns (generation: nat)
      requires Valid()
      modifies this`staged, this`controlLocked
      ensures Valid()
      ensures generation == old(staged).flattenGeneration + 1 && controlLocked
      ensures staged == old(staged).(flattenGeneration := generation)
    {
      hide Log;
      generation := staged.flattenGeneration + 1;
      staged, controlLocked := staged.(flattenGeneration := generation), true;
    }
  }
}
