// Writes that happen before an intent is handed to the engine: creation, risk approval and
// queueing (src/seven_lens/application/control_service.py:397-420, infrastructure/postgres.py:417-505).

module Planning {
  import opened Orders
  import opened FakeBroker
  import opened Persistence
  import opened ExecutionState
  import opened MirrorRefresh
  import opened EngineReports
  import opened EngineInvariant
  import opened Submissions
  import opened RecoverySweep
  import opened ExpirySweep
  import opened CancelSweep
  import opened ExecutionEngine

  function WithNew(db: Db, intent: OrderIntent): Db {
    db.(intents := db.intents[intent.clientOrderId := intent])
  }

  lemma NewIntentSound(v: BrokerView, db: Db, intent: OrderIntent)
    requires Sound(v, db) && intent.status == CREATED && intent.clientOrderId !in db.intents
    ensures Sound(v, WithNew(db, intent))
  {
    var next := WithNew(db, intent);
    forall c | c in next.intents
      ensures Truthful(v, next, c, next.intents[c].status)
    {
      if c != intent.clientOrderId { assert Truthful(v, db, c, db.intents[c].status); }
    }
  }

  lemma NewIntentLinked(d: Db, s: Db, intent: OrderIntent, locked: bool)
    requires Linked(d, s, locked) && Follows(d, s)
    requires intent.status == CREATED && intent.clientOrderId !in s.intents
    ensures Linked(d, WithNew(s, intent), locked)
  {
    assert intent.clientOrderId !in d.intents;
    hide Follows;
  }

  lemma GoodWithNewIntent(w: World, intent: OrderIntent)
    requires Good(w) && Follows(w.durable, w.staged)
    requires intent.status == CREATED && intent.clientOrderId !in w.staged.intents
    ensures Good(w.(staged := WithNew(w.staged, intent)))
  {
    NewIntentSound(w.broker, w.staged, intent);
    NewIntentLinked(w.durable, w.staged, intent, w.locked);
    hide BrokerInv, Sound, Linked, AttemptsGated;
  }

  lemma PreBrokerLinked(d: Db, s: Db, c: Text, target: OrderStatus, locked: bool)
    requires Linked(d, s, locked) && c in s.intents && PreBroker(s.intents[c].status)
    requires PreBroker(target) || target == REJECTED
    ensures Linked(d, WithStatus(s, c, target), locked)
  {
  }

  lemma PreBrokerSound(v: BrokerView, db: Db, c: Text, target: OrderStatus)
    requires ClientsIndexed(v) && Sound(v, db) && MayTransition(db, c, target)
    requires PreBroker(db.intents[c].status) && (PreBroker(target) || target == REJECTED)
    ensures Sound(v, WithStatus(db, c, target))
  {
    if target == REJECTED { ExpiryIsTruthful(v, db, c); } else { PreBrokerSaysNothing(v, db, c, target); }
    hide ClientsIndexed, Tables, MirrorsPast, TerminalTruth, SubmittedKnown, Truthful, IntentMayBecome;
    SoundUnderTransition(v, db, c, target);
  }

  lemma FromPreBroker(db: Db, c: Text, target: OrderStatus)
    requires MayTransition(db, c, target) && PreBroker(target)
    ensures PreBroker(db.intents[c].status)
  {
  }

  lemma GoodWithPreBroker(w: World, c: Text, target: OrderStatus)
    requires Good(w) && MayTransition(w.staged, c, target)
    requires PreBroker(target) || (PreBroker(w.staged.intents[c].status) && target == REJECTED)
    ensures Good(w.(staged := WithStatus(w.staged, c, target)))
  {
    hide BrokerInv, AttemptsGated, Sound, Linked;
    IndexedByInv(w.broker);
    if PreBroker(target) { FromPreBroker(w.staged, c, target); }
    hide IntentMayBecome;
    PreBrokerSound(w.broker, w.staged, c, target);
    PreBrokerLinked(w.durable, w.staged, c, target, w.locked);
  }

  lemma IndexedByInv(v: BrokerView)
    requires BrokerInv(v)
    ensures ClientsIndexed(v)
  {
  }

  lemma PreBrokerSaysNothing(v: BrokerView, db: Db, c: Text, s: OrderStatus)
    requires PreBroker(s)
    ensures Truthful(v, db, c, s)
  {
  }

  method AddIntent(engine: ExecutionEngine, intent: OrderIntent) returns (r: Result<OrderIntent, PersistenceError>)
    requires engine.Valid() && intent.status == CREATED
    modifies engine.uow`staged
    ensures engine.Valid()
    ensures var s := old(engine.uow.staged);
            if intent.clientOrderId !in s.intents then
              r == Ok(intent) && engine.uow.staged == s.(intents := s.intents[intent.clientOrderId := intent])
            else engine.uow.staged == s
                 && (r.Ok? <==> s.intents[intent.clientOrderId].intentId == intent.intentId)
  {
    hide Good, Log, Follows;
    ghost var before := engine.State();
    if intent.clientOrderId !in engine.uow.staged.intents { GoodWithNewIntent(before, intent); }
    r := engine.uow.Add(intent);
  }

  /** Risk approval or queueing; never touches an intent that left the outbox. */
  method Advance(engine: ExecutionEngine, c: Text, target: OrderStatus) returns (r: Result<OrderIntent, PersistenceError>)
    requires engine.Valid() && PreBroker(target)
    modifies engine.uow`staged
    ensures engine.Valid()
    ensures r.Ok? <==> MayTransition(old(engine.uow.staged), c, target)
    ensures r.Ok? ==> engine.uow.staged == WithStatus(old(engine.uow.staged), c, target) && r.value == engine.uow.staged.intents[c]
    ensures r.Err? ==> engine.uow.staged == old(engine.uow.staged)
  {
    hide Good, Log, Follows;
    ghost var before := engine.State();
    if MayTransition(engine.uow.staged, c, target) { GoodWithPreBroker(before, c, target); }
    r := engine.uow.TransitionStatus(c, target);
  }

  /** The risk gate refuses a new intent. */
  method RejectNew(engine: ExecutionEngine, c: Text) returns (ok: bool)
    requires engine.Valid()
    modifies engine.uow`staged
    ensures engine.Valid()
    ensures ok <==> c in old(engine.uow.staged).intents && old(engine.uow.staged).intents[c].status == CREATED
    ensures engine.uow.staged == if ok then WithStatus(old(engine.uow.staged), c, REJECTED) else old(engine.uow.staged)
  {
    hide Good, Log, Follows;
    ok := c in engine.uow.staged.intents && engine.uow.staged.intents[c].status == CREATED;
    if ok {
      ghost var before := engine.State();
      GoodWithPreBroker(before, c, REJECTED);
      var rejected := engine.uow.TransitionStatus(c, REJECTED);
    }
  }
}
