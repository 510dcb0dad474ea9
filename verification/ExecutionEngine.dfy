// The execution engine (src/seven_lens/application/execution_service.py) driving the Paper
// broker, with the broker, the operator and crashes free to act between its steps.

module ExecutionEngine {
  import opened Orders
  import opened Clocks
  import opened FakeBroker
  import opened Persistence
  import opened ExecutionState
  import opened MirrorRefresh
  import opened ReportHandling
  import opened EngineReports
  import opened EngineInvariant
  import opened Submissions
  import opened RecoverySweep
  import opened ExpirySweep
  import opened CancelSweep
  import opened CancelEffects

  class ExecutionEngine {
    const broker: FakePaperBroker
    const uow: UnitOfWork
    /** Whether a control source is wired for the early entry check. */
    const controlled: bool
    ghost var attempts: seq<Attempt>
    /** Every cancellation sent to the broker, with the durable state it was sent in. */
    ghost var cancels: seq<Attempt>

    ghost function State(): World
      reads this, broker, broker.clock, uow
    {
      World(broker.View(), uow.durable, uow.staged, uow.controlLocked, uow.history, attempts, broker.submitCalls)
    }

    ghost predicate Valid()
      reads this, broker, broker.clock, uow
    {
      uow.Valid() && Good(State())
    }

    constructor (broker: FakePaperBroker, uow: UnitOfWork, controlled: bool)
      requires broker.Valid() && broker.submitCalls == 0
      requires uow.Valid() && Sound(broker.View(), uow.durable) && uow.durable == uow.staged
      ensures Valid() && this.broker == broker && this.uow == uow && this.controlled == controlled && attempts == []
    {
      this.broker, this.uow, this.controlled, this.attempts, this.cancels := broker, uow, controlled, [], [];
    }

    /** Whatever the broker, other processes and a crash may do at this point. */
    method Environment() returns (crashed: bool)
      requires Valid()
      modifies broker, broker.clock, uow
      ensures Valid() && Around(old(State()), State(), crashed) && Extends(old(State()), State())
    {
      ghost var before := State();
      LinkedControl(before);
      hide Good, BrokerInv, Moves, Log, Follows;
      broker.Drift();
      uow.OtherProcesses();
      crashed := *;
      if crashed { uow.Rollback(); }
      GoodAround(before, State(), crashed);
      AroundExtends(before, State(), crashed);
    }

    /** The engine's clock: time only moves forward. */
    method ReadClock() returns (now: Time)
      requires Valid()
      modifies broker.clock
      ensures Valid() && now == broker.clock.now && Around(old(State()), State(), false)
    {
      ghost var before := State();
      LinkedControl(before);
      hide Good, BrokerInv, Moves, Log, Follows;
      assert BrokerInv(before.broker) by { GoodBroker(before); }
      now := broker.clock.Read();
      TimePasses(before.broker, broker.View());
      GoodAround(before, State(), false);
    }

    /** Writes one status and makes the transaction durable. */
    method TransitionAndCommit(c: Text, target: OrderStatus) returns (r: Outcome<OrderIntent>)
      requires Valid() && MayTransition(uow.staged, c, target) && Truthful(broker.View(), uow.staged, c, target)
      modifies uow
      ensures Valid() && Extends(old(State()), State()) && !r.Raised?
      ensures uow.durable == uow.staged && !uow.controlLocked
      ensures r.Returned? ==> uow.durable == WithStatus(old(uow.staged), c, target) && r.value == uow.durable.intents[c]
      ensures r.Crashed? ==> uow.durable == old(uow.durable)
      ensures State().broker == old(State()).broker && attempts == old(attempts)
    {
      hide Good, BrokerInv, Moves, Log, Follows, Truthful, Sound, Linked, BrokerGrows, Tables;
      ghost var before := State();
      LinkedControl(before);
      TransitionSound(before, c, target);
      BrokerStays(before.broker);
      var moved := uow.TransitionStatus(c, target);
      var crashed: bool := *;
      if crashed {
        uow.Rollback();
        GoodSettled(before, State());
        return Crashed;
      }
      uow.Commit();
      GoodReplaced(before, State());
      r := Returned(moved.value);
    }

    method Pause(intent: OrderIntent) returns (r: Outcome<()>)
      requires Valid() && uow.durable == uow.staged
      modifies uow
      ensures Valid() && Extends(old(State()), State())
      ensures uow.durable == uow.staged == old(uow.durable).(paused := uow.durable.paused) && !uow.controlLocked
      ensures intent.intentType == REBALANCE && r.Returned? ==> uow.durable.paused
      ensures r.Raised? ==> r.error == ControlPersistence
      ensures State().broker == old(State()).broker && attempts == old(attempts)
    {
      ghost var before := State();
      GoodBroker(before);
      hide Good, BrokerInv, Log, Follows, Sound;
      BrokerStays(before.broker);
      r := PauseForReconciliation(uow, intent);
      SoundByTables(before.broker, before.durable, uow.durable);
      GoodReplaced(before, State());
    }

    /** The broker call itself; every call is logged with the durable state it was made in. */
    method Submit(intent: OrderIntent) returns (r: Result<SubmitResult, BrokerError>)
      requires Valid() && Gated(intent, uow.durable)
      modifies broker, broker.clock, this`attempts
      ensures Valid() && Extends(old(State()), State())
      ensures Answered(broker.View(), intent, r)
      ensures attempts == old(attempts) + [Attempt(intent, |uow.history| - 1)]
    {
      hide Good, BrokerInv, Log, Follows, Sound, SubmittedKnown, PlanFollowed, Answer, Submits, BrokerGrows, Answered,
        Gated, Moves;
      ghost var before := State();
      ghost var outcome := broker.PlanFor(intent.clientOrderId).outcome;
      GoodBroker(before);
      LogEnds(uow.history);
      GatedKnown(intent, before.durable);
      r := broker.SubmitOrder(intent);
      attempts := attempts + [Attempt(intent, |uow.history| - 1)];
      SubmissionAnswered(before.broker, broker.View(), before.durable, intent, outcome, r);
      GoodSubmission(before, State(), intent);
      SubmissionExtends(before, State(), intent);
    }

    /** Takes in the order and, read after it, its fills. */
    method Refresh(intent: OrderIntent, o: BrokerOrder) returns (r: Outcome<OrderIntent>)
      requires Valid() && Reported(broker.View(), uow.staged, o)
      requires o.clientOrderId == intent.clientOrderId && intent.clientOrderId in uow.staged.intents
      requires uow.staged.intents[intent.clientOrderId] == intent
      modifies uow
      ensures Valid() && Extends(old(State()), State())
      ensures State().broker == old(State()).broker && attempts == old(attempts)
      ensures r.Returned? ==>
        && o.brokerOrderId in broker.orders
        && CaughtUp(broker.View(), uow.durable, o.clientOrderId)
        && uow.durable == uow.staged == Refreshed(old(uow.staged), o.clientOrderId, o, broker.orders[o.brokerOrderId].fills)
        && r.value == uow.durable.intents[o.clientOrderId]
      ensures r.Raised? ==> r.error == NoLegalTransition && !TargetLegal(intent.status, o.status)
                            && uow.durable == old(uow.durable) && uow.staged.intents == old(uow.staged).intents
                            && uow.staged.flattenGeneration == old(uow.staged).flattenGeneration
      ensures r.Returned? ==> TargetLegal(intent.status, o.status)
      ensures r.Raised? ==> o.brokerOrderId in broker.orders
                            && uow.staged == Merged(old(uow.staged), o, broker.orders[o.brokerOrderId].fills)
      ensures !r.Crashed? ==> o.brokerOrderId in broker.orders
                              && FillsMoved(old(uow.staged), uow.staged, o.brokerOrderId, broker.orders[o.brokerOrderId].fills)
      ensures r.Crashed? ==> uow.staged == uow.durable == old(uow.durable)
    {
      hide Good, BrokerInv, Log, Follows, Sound, Consistent, RecordError, TargetLegal, Absorbed, Linked, ReportAbsorbed,
        Past, MirrorMayBecome, Merged, Refreshed, CaughtUp, FillsMoved;
      ghost var before := State();
      ghost var v := before.broker;
      GoodBroker(before);
      LinkedControl(before);
      PastKnown(v, o);
      var fills := broker.ListFills(o.brokerOrderId);
      ReportReady(v, uow.staged, intent, o, fills);
      ReportMovesFills(v, uow.staged, o, fills);
      LinkedMerge(before, o, fills);
      BrokerStays(v);
      r := RefreshFromBrokerOrder(uow, intent, o, fills);
      ReportTaken(before.durable, before.staged, intent, o, fills, uow.durable, uow.staged, r);
      if r.Raised? { GoodStaged(before, State()); }
      else if r.Crashed? { GoodSettled(before, State()); }
      else { GoodReplaced(before, State()); }
    }

    /** An accepted order, checked against the intent and taken in. */
    method RecordAccepted(intent: OrderIntent, o: BrokerOrder) returns (r: Outcome<OrderIntent>)
      requires Valid() && Reported(broker.View(), uow.staged, o)
      requires o.clientOrderId == intent.clientOrderId && intent.clientOrderId in uow.staged.intents
      requires uow.staged.intents[intent.clientOrderId] == intent
      modifies uow
      ensures Valid() && Extends(old(State()), State())
      ensures State().broker == old(State()).broker && attempts == old(attempts)
      ensures r.Returned? ==>
        && o.brokerOrderId in broker.orders
        && CaughtUp(broker.View(), uow.durable, o.clientOrderId)
        && uow.durable == uow.staged == Refreshed(old(uow.staged), o.clientOrderId, o, broker.orders[o.brokerOrderId].fills)
        && r.value == uow.durable.intents[o.clientOrderId]
        && uow.durable.intents == old(uow.staged).intents[o.clientOrderId := r.value]
        && Settled(old(State()), State(), o.clientOrderId, r.value)
        && Took(broker.View(), old(uow.staged), uow.durable, o.clientOrderId)
        && uow.durable.mirrors[uow.durable.mirrorByClient[o.clientOrderId]] == o
      ensures r.Raised? ==> r.error == NoLegalTransition && !TargetLegal(intent.status, o.status)
                            && uow.durable == old(uow.durable) && uow.staged.intents == old(uow.staged).intents
                            && uow.staged.flattenGeneration == old(uow.staged).flattenGeneration
      ensures r.Returned? ==> TargetLegal(intent.status, o.status)
      ensures r.Raised? ==> o.brokerOrderId in broker.orders
                            && uow.staged == Merged(old(uow.staged), o, broker.orders[o.brokerOrderId].fills)
      ensures !r.Crashed? ==> o.brokerOrderId in broker.orders
                              && FillsMoved(old(uow.staged), uow.staged, o.brokerOrderId, broker.orders[o.brokerOrderId].fills)
      ensures r.Crashed? ==> uow.staged == uow.durable == old(uow.durable)
    {
      hide Good, BrokerInv, Log, Follows, Sound, TargetLegal, Linked, Matches, MirrorMayBecome, Past, Tables,
        RecordError, Absorbed, FillsMoved;
      ghost var before := State();
      LinkedControl(before);
      var checked := AssertMirrorMatches(uow, intent, o);
      if !checked.Returned? {
        GoodBroker(before);
        ReportMatches(before.broker, before.staged, intent, o);
        assert false;
      }
      BrokerStays(before.broker);
      assert State() == before;
      r := Refresh(intent, o);
      if r.Returned? {
        TargetAccepted(intent.status, o.status);
        RefreshTakes(broker.View(), before.staged, o, uow.durable);
      }
    }

    /** The outcome is ambiguous: UNKNOWN becomes durable first, then the pause. */
    method MarkUnknown(intent: OrderIntent) returns (r: Outcome<OrderIntent>)
      requires Valid() && intent.clientOrderId in uow.staged.intents
      requires uow.staged.intents[intent.clientOrderId] == intent && InFlight(intent.status)
      modifies broker, broker.clock, uow
      ensures Valid() && Extends(old(State()), State()) && attempts == old(attempts)
      ensures r.Returned? ==> Settled(old(State()), State(), intent.clientOrderId, r.value)
                              && MovedTo(old(uow.staged), uow.durable, intent.clientOrderId, UNKNOWN)
                              && r.value.status == UNKNOWN && (intent.intentType == REBALANCE ==> uow.durable.paused)
      ensures r.Raised? ==> r.error == ControlPersistence
    {
      hide Good, BrokerInv, Log, Follows, Sound, Linked, BrokerGrows;
      ghost var before := State();
      var moved := TransitionAndCommit(intent.clientOrderId, UNKNOWN);
      if moved.Crashed? { return Crashed; }
      ghost var marked := State();
      var crashed := Environment();
      ExtendsComposes(before, marked, State());
      if crashed { return Crashed; }
      ghost var met := State();
      var paused := Pause(intent);
      ExtendsComposes(before, met, State());
      if paused.Crashed? { return Crashed; }
      if paused.Raised? { return Raised(paused.error); }
      r := Returned(moved.value);
    }

    /** Linearizes a new entry: the control row is held, entries are not paused, nothing is unresolved. */
    method EnterGuard(intent: OrderIntent) returns (open: bool)
      requires Valid() && intent.clientOrderId in uow.staged.intents
      requires uow.staged.intents[intent.clientOrderId] == intent && InFlight(intent.status)
      modifies uow
      ensures Valid() && uow.history == old(uow.history) && uow.durable == old(uow.durable)
      ensures open ==> uow.staged == old(uow.staged) && Gated(intent, uow.durable)
                       && (intent.intentType == REBALANCE ==> uow.controlLocked)
      ensures !open ==> intent.intentType == REBALANCE && uow.staged == uow.durable && !uow.controlLocked
      ensures !open ==> (old(uow.staged).paused || old(uow.staged).Unresolved())
    {
      hide Good, Linked, Log, Follows, Sound;
      ghost var before := State();
      InFlightIsDurable(before, intent);
      if intent.intentType == RISK_EXIT { return true; }
      var paused := uow.LockControl();
      if paused {
        uow.Rollback();
        GoodSettled(before, State());
        return false;
      }
      var unknown := uow.ListByStatus(UNKNOWN);
      var review := uow.ListByStatus(REVIEW_REQUIRED);
      UnresolvedListed(uow.staged, unknown, review);
      if unknown != [] || review != [] {
        uow.Rollback();
        GoodSettled(before, State());
        return false;
      }
      GateSeesDurable(before.durable, before.staged, before.locked);
      LinkedLocked(before.durable, before.staged, before.locked);
      GoodStaged(before, State());
      open := true;
    }

    /** What the broker's answer makes durable. */
    method TakeAnswer(intent: OrderIntent, answer: Result<SubmitResult, BrokerError>) returns (r: Outcome<OrderIntent>)
      requires Valid() && intent.clientOrderId in uow.staged.intents
      requires uow.staged.intents[intent.clientOrderId] == intent && InFlight(intent.status)
      requires answer == Ok(SubmitRejected) ==>
        Truthful(broker.View(), uow.staged, intent.clientOrderId, REJECTED) && intent.clientOrderId in broker.View().rejected
      requires answer.Ok? && answer.value.SubmitAccepted? ==>
        Reported(broker.View(), uow.staged, answer.value.order) && answer.value.order.clientOrderId == intent.clientOrderId
      modifies broker, broker.clock, uow
      ensures Valid() && Extends(old(State()), State()) && attempts == old(attempts)
      ensures r.Returned? ==> Settled(old(State()), State(), intent.clientOrderId, r.value)
      ensures r.Returned? ==> AnswerTaken(broker.View(), old(uow.staged), uow.durable, intent.clientOrderId, answer)
      ensures r.Returned? && answer.Err? && intent.intentType == REBALANCE ==> uow.durable.paused
      ensures r.Raised? ==> r.error == ControlPersistence || r.error == Script || r.error == SubmitConflict
      ensures answer == Err(ConflictError) ==> !r.Returned?
      ensures r.Raised? && r.error == SubmitConflict ==>
        && answer == Err(ConflictError)
        && MovedTo(old(uow.staged), uow.durable, intent.clientOrderId, UNKNOWN)
        && (intent.intentType == REBALANCE ==> uow.durable.paused)
    {
      hide Good, BrokerInv, Log, Follows, Sound, Linked, BrokerGrows, Moves, Reported, TargetLegal, Truthful, AnswerTaken,
        Took, MovedTo;
      ghost var before := State();
      BrokerStays(before.broker);
      match answer
      case Err(TransportError) =>
        r := MarkUnknown(intent);
        if r.Returned? { HeardNothing(before.staged, State(), intent.clientOrderId, answer); }
      case Err(ConflictError) =>
        var marked := MarkUnknown(intent);
        r := if marked.Returned? then Raised(SubmitConflict) else marked;
      case Err(ScriptError) =>
        r := Raised(Script);
      case Ok(SubmitRejected) =>
        r := TransitionAndCommit(intent.clientOrderId, REJECTED);
        if r.Returned? { HeardRejection(before.staged, State(), intent.clientOrderId, answer); }
      case Ok(SubmitAccepted(order)) =>
        r := RecordAccepted(intent, order);
        if r.Returned? { HeardAcceptance(before.staged, State(), intent.clientOrderId, answer); }
        InFlightFollowsAny(intent.status, order.status);
    }

    /** The broker call under the guard, and what its answer makes durable. */
    method SubmitWhileGuarded(intent: OrderIntent)
      returns (r: Outcome<OrderIntent>, ghost answer: Result<SubmitResult, BrokerError>)
      requires Valid() && Gated(intent, uow.durable) && (intent.intentType == REBALANCE ==> uow.controlLocked)
      modifies this`attempts, broker, broker.clock, uow
      ensures Valid() && Extends(old(State()), State())
      ensures TriedOnce(old(attempts), attempts, intent.clientOrderId)
      ensures r.Returned? ==> Settled(old(State()), State(), intent.clientOrderId, r.value)
      ensures r.Returned? ==> |attempts| == |old(attempts)| + 1
                              && AnswerTaken(broker.View(), old(uow.staged), uow.durable, intent.clientOrderId, answer)
      ensures r.Returned? && answer.Err? && intent.intentType == REBALANCE ==> uow.durable.paused
      ensures r.Raised? ==> r.error == ControlPersistence || r.error == Script
    {
      hide Good, BrokerInv, Log, Follows, Sound, Linked, BrokerGrows, Moves, Gated, Reported, Answered, TargetLegal, Truthful,
        AnswerTaken;
      ghost var before := State();
      answer := Err(TransportError);
      var crashed := Environment();
      if crashed { return Crashed, answer; }
      ghost var met := State();
      GatedAround(before, met, intent);
      var told := Submit(intent);
      answer := told;
      ghost var asked := State();
      ExtendsComposes(before, met, asked);
      crashed := Environment();
      ghost var heard := State();
      ExtendsComposes(before, asked, heard);
      if crashed { return Crashed, answer; }
      AnswerLater(asked, heard, intent, answer);
      r := TakeAnswer(intent, told);
      ExtendsComposes(before, heard, State());
      if r.Returned? { AnswerOnSame(before.staged, heard.staged, State(), intent.clientOrderId, answer); }
    }

    /** Submits under the guard; an entry the guard refuses becomes, or stays, UNKNOWN. */
    method CompleteSubmission(intent: OrderIntent) returns (r: Outcome<OrderIntent>)
      requires Valid() && intent.clientOrderId in uow.staged.intents
      requires uow.staged.intents[intent.clientOrderId] == intent && InFlight(intent.status)
      modifies this`attempts, broker, broker.clock, uow
      ensures Valid() && Extends(old(State()), State())
      ensures TriedOnce(old(attempts), attempts, intent.clientOrderId)
      ensures r.Returned? ==> Settled(old(State()), State(), intent.clientOrderId, r.value)
      ensures r.Returned? && attempts == old(attempts) ==>
        intent.intentType == REBALANCE && MovedTo(old(uow.durable), uow.durable, intent.clientOrderId, UNKNOWN)
      ensures r.Returned? && attempts != old(attempts) ==>
        Concluded(broker.View(), old(uow.staged), uow.durable, intent.clientOrderId)
      ensures r.Raised? ==> r.error == ControlPersistence || r.error == Script
    {
      hide Good, BrokerInv, Log, Follows, Sound, BrokerGrows, Moves, Gated, AnswerTaken, Concluded, Took, MovedTo;
      ghost var before := State();
      StagedInFlight(before, intent);
      var open := EnterGuard(intent);
      ghost var guarded := State();
      BrokerStays(before.broker);
      if !open {
        if intent.status == SUBMITTING {
          r := MarkUnknown(intent);
          ExtendsComposes(before, guarded, State());
        } else {
          r := Returned(intent);
          StaysUnknown(uow.durable, intent);
        }
        return;
      }
      ghost var answer;
      r, answer := SubmitWhileGuarded(intent);
      ghost var after := State();
      ExtendsComposes(before, guarded, after);
      if r.Returned? { TakenConcludes(after.broker, before.staged, after.durable, intent.clientOrderId, answer); }
      if intent.intentType == RISK_EXIT { return; }
      if r.Raised? {
        uow.Rollback();
        GoodSettled(after, State());
      } else if r.Returned? {
        uow.Commit();
        GoodSettled(after, State());
      }
      BrokerStays(after.broker);
      ExtendsComposes(before, after, State());
    }

    /** SUBMITTING is durable before any broker call. */
    method ReserveAndSubmit(intent: OrderIntent) returns (r: Outcome<OrderIntent>)
      requires Valid() && intent.clientOrderId in uow.staged.intents
      requires uow.staged.intents[intent.clientOrderId] == intent && intent.status == OUTBOX_PENDING
      modifies this`attempts, broker, broker.clock, uow
      ensures Valid() && Extends(old(State()), State())
      ensures r.Raised? ==> r.error == ControlPersistence || r.error == Script
      ensures r.Returned? ==>
        && uow.durable == uow.staged
        && r.value == intent.(status := r.value.status) && !PreBroker(r.value.status) && !r.value.status.SUBMITTING?
        && uow.durable.intents == old(uow.staged).intents[intent.clientOrderId := r.value]
        && Concluded(broker.View(), old(uow.staged), uow.durable, intent.clientOrderId)
      ensures TriedOnce(old(attempts), attempts, intent.clientOrderId)
    {
      hide Good, BrokerInv, Log, Follows, Sound, BrokerGrows, Moves, Linked, Tables, Took, Concluded;
      ghost var before := State();
      var submitting := TransitionAndCommit(intent.clientOrderId, SUBMITTING);
      ghost var reserved := State();
      if submitting.Crashed? { return Crashed; }
      var crashed := Environment();
      ghost var met := State();
      ExtendsComposes(before, reserved, met);
      if crashed { return Crashed; }
      r := CompleteSubmission(submitting.value);
      ExtendsComposes(before, met, State());
      if r.Returned? { ReservedConcludes(before.staged, reserved.durable, met, State(), intent.clientOrderId, old(attempts)); }
    }

    /** Asks the broker whether it trades the symbol as a US equity. */
    method LookUpAsset(symbol: Text) returns (crashed: bool, tradable: bool)
      requires Valid()
      modifies broker, broker.clock, uow
      ensures Valid() && Around(old(State()), State(), crashed) && Extends(old(State()), State())
      ensures !crashed ==> (tradable <==> broker.Tradable(symbol))
    {
      hide Good, BrokerInv, Log, Follows, Moves, BrokerGrows;
      ghost var before := State();
      tradable := false;
      crashed := Environment();
      if crashed { return; }
      var asset := broker.GetAsset(symbol);
      tradable := asset.Some? && asset.value.active && asset.value.tradable && asset.value.usEquity;
      ghost var looked := State();
      crashed := Environment();
      AroundComposes(before, looked, State(), crashed);
      AroundExtends(before, State(), crashed);
    }

    /** Submits one OUTBOX_PENDING intent; any other state is an idempotent no-op. */
    method SubmitFromOutbox(c: Text) returns (r: Outcome<OrderIntent>)
      requires Valid()
      modifies this`attempts, broker, broker.clock, uow
      ensures Valid() && Extends(old(State()), State())
      ensures r.Raised? ==> Refused(r.error) || r.error.ControlPersistence? || r.error.Script?
      ensures r.Raised? && Refused(r.error) ==>
        attempts == old(attempts) && uow.staged.intents == old(uow.staged).intents
      ensures r.Returned? ==> c in old(uow.staged).intents
      ensures r.Returned? && old(uow.staged).intents[c].status != OUTBOX_PENDING ==>
        r.value == old(uow.staged).intents[c] && State() == old(State())
      ensures r.Returned? && old(uow.staged).intents[c].status == OUTBOX_PENDING ==>
        && uow.durable == uow.staged
        && r.value == old(uow.staged).intents[c].(status := r.value.status)
        && !PreBroker(r.value.status) && !r.value.status.SUBMITTING?
        && uow.durable.intents == old(uow.staged).intents[c := r.value]
        && Concluded(broker.View(), old(uow.staged), uow.durable, c)
      ensures TriedOnce(old(attempts), attempts, c)
      ensures attempts != old(attempts) || (r.Returned? && r.value.status != old(uow.staged).intents[c].status) ==>
        && c in old(uow.staged).intents && old(uow.staged).intents[c].status == OUTBOX_PENDING
        && broker.Tradable(old(uow.staged).intents[c].symbol)
      ensures c in old(uow.staged).intents && old(uow.staged).intents[c].status == OUTBOX_PENDING
              && controlled && old(uow.staged).paused && old(uow.staged).intents[c].intentType == REBALANCE ==>
        r == Raised(Paused) && State() == old(State())
    {
      hide Good, BrokerInv, Log, Follows, Sound, BrokerGrows, Moves, Gated, Linked, Concluded;
      ghost var before := State();
      BrokerStays(before.broker);
      var found := uow.Get(c);
      if found.None? { return Raised(NoIntent); }
      var intent := found.value;
      if intent.status != OUTBOX_PENDING { return Returned(intent); }
      KeyedByClient(before, c);
      if controlled && uow.staged.paused && intent.intentType != RISK_EXIT { return Raised(Paused); }
      var crashed, tradable := LookUpAsset(intent.symbol);
      ghost var back := State();
      if crashed { return Crashed; }
      if !tradable { return Raised(AssetNotTradable); }
      if controlled && uow.staged.paused && intent.intentType != RISK_EXIT { return Raised(Paused); }
      r := ReserveAndSubmit(intent);
      ExtendsComposes(before, back, State());
      if r.Returned? { ConcludedOnSame(broker.View(), before.staged, back.staged, uow.durable, c); }
    }

    /** Asks the broker for one order; hidden orders answer like missing ones. */
    method QueryOrder(c: Text) returns (crashed: bool, order: Option<BrokerOrder>)
      requires Valid()
      modifies broker, broker.clock, uow
      ensures Valid() && Around(old(State()), State(), crashed) && Extends(old(State()), State())
      ensures !crashed && order.Some? ==> Reported(broker.View(), uow.staged, order.value) && order.value.clientOrderId == c
      ensures order.Some? ==> c in broker.byClient
    {
      hide Good, BrokerInv, Log, Follows, Moves, Reported, BrokerGrows;
      ghost var before := State();
      order := None;
      crashed := Environment();
      if crashed { return; }
      ghost var asked := State();
      GoodBroker(asked);
      order := broker.GetOrder(c);
      OrderReported(asked, c);
      crashed := Environment();
      AroundComposes(before, asked, State(), crashed);
      AroundExtends(before, State(), crashed);
      OrdersStay(asked.broker, State().broker);
      if !crashed && order.Some? { ReportedLater(asked, State(), order.value); }
    }

    /** The broker shows no order: past the cutoff the intent stays unknown, before it the submission is completed. */
    method SettleUnanswered(intent: OrderIntent) returns (r: Outcome<OrderIntent>)
      requires Valid() && intent.clientOrderId in uow.staged.intents
      requires uow.staged.intents[intent.clientOrderId] == intent && InFlight(intent.status)
      modifies this`attempts, broker, broker.clock, uow
      ensures Valid() && Extends(old(State()), State())
      ensures r.Raised? ==> r.error.ControlPersistence? || r.error.Script?
      ensures r.Returned? ==> Settled(old(State()), State(), intent.clientOrderId, r.value)
      ensures r.Returned? ==> Unanswered(old(State()), State(), intent.clientOrderId)
      ensures TriedOnce(old(attempts), attempts, intent.clientOrderId)
      ensures attempts != old(attempts) ==> old(broker.clock.now) < intent.cancelAt
    {
      hide Good, BrokerInv, Log, Follows, Sound, BrokerGrows, Moves, Linked, Took, MovedTo, Concluded;
      ghost var before := State();
      var now := ReadClock();
      ghost var dated := State();
      AroundExtends(before, dated, false);
      TimeForward(before, dated);
      if now >= intent.cancelAt {
        r := TransitionAndCommit(intent.clientOrderId, UNKNOWN);
        if r.Returned? { UnknownOnSame(before.staged, dated.staged, uow.durable, intent.clientOrderId); }
      } else {
        r := CompleteSubmission(intent);
        if r.Returned? { SubmissionOnSame(before, dated, State(), intent.clientOrderId); }
      }
      ExtendsComposes(before, dated, State());
    }

    /** Resolves a SUBMITTING or UNKNOWN intent strictly by querying the broker. */
    method Resolve(c: Text) returns (r: Outcome<OrderIntent>)
      requires Valid()
      modifies this`attempts, broker, broker.clock, uow
      ensures Valid() && Extends(old(State()), State())
      ensures r.Raised? ==> r.error.NoIntent? || r.error.ControlPersistence? || r.error.Script?
      ensures r.Returned? ==> c in old(uow.staged).intents
      ensures r.Returned? && !InFlight(old(uow.staged).intents[c].status) ==>
        r.value == old(uow.staged).intents[c] && State() == old(State())
      ensures r.Returned? && InFlight(old(uow.staged).intents[c].status) ==>
        Settled(old(State()), State(), c, r.value)
      ensures r.Returned? && InFlight(old(uow.staged).intents[c].status) ==>
        || (attempts == old(attempts) && Took(broker.View(), old(uow.staged), uow.durable, c))
        || Unanswered(old(State()), State(), c)
      ensures TriedOnce(old(attempts), attempts, c)
      ensures attempts != old(attempts) ==>
        && c in old(uow.staged).intents && InFlight(old(uow.staged).intents[c].status)
        && old(broker.clock.now) < old(uow.staged).intents[c].cancelAt
    {
      hide Good, BrokerInv, Log, Follows, Sound, BrokerGrows, Moves, Linked, Reported, MirrorMayBecome, Past, TargetLegal,
        Took, Unanswered;
      ghost var before := State();
      BrokerStays(before.broker);
      var found := uow.Get(c);
      if found.None? { return Raised(NoIntent); }
      var intent := found.value;
      if !InFlight(intent.status) { return Returned(intent); }
      KeyedByClient(before, c);
      var crashed, order := QueryOrder(c);
      if crashed { return Crashed; }
      ghost var told := State();
      if order.Some? {
        r := RecordAccepted(intent, order.value);
        ExtendsComposes(before, told, State());
        InFlightFollowsAny(intent.status, order.value.status);
        if r.Returned? { TookOnSame(broker.View(), before.staged, told.staged, uow.durable, c); }
        return;
      }
      r := SettleUnanswered(intent);
      ExtendsComposes(before, told, State());
      TimeForward(before, told);
      if r.Returned? { UnansweredOnSame(before, told, State(), c); }
    }

    /** Idempotently absorbs broker fills and status for a live intent. */
    method ApplyFills(c: Text) returns (r: Outcome<OrderIntent>)
      requires Valid()
      modifies broker, broker.clock, uow
      ensures Valid() && Extends(old(State()), State()) && attempts == old(attempts)
      ensures r.Raised? ==> r.error.NoIntent? || r.error.OrderVanished? || r.error.NoLegalTransition?
      ensures r.Raised? ==> uow.staged.intents == old(uow.staged).intents
      ensures r.Returned? ==> c in old(uow.staged).intents
      ensures r.Returned? && !Live(old(uow.staged).intents[c].status) ==>
        r.value == old(uow.staged).intents[c] && State() == old(State())
      ensures r.Returned? && Live(old(uow.staged).intents[c].status) ==>
        && Settled(old(State()), State(), c, r.value) && CaughtUp(broker.View(), uow.durable, c)
        && Took(broker.View(), old(uow.staged), uow.durable, c)
    {
      hide Good, BrokerInv, Log, Follows, Sound, BrokerGrows, Moves, Linked, Reported, TargetLegal, CaughtUp, Refreshed, Took;
      ghost var before := State();
      BrokerStays(before.broker);
      var found := uow.Get(c);
      if found.None? { return Raised(NoIntent); }
      var intent := found.value;
      if !Live(intent.status) { return Returned(intent); }
      KeyedByClient(before, c);
      LinkedControl(before);
      var mirror := uow.GetBrokerOrder(c);
      if mirror.None? {
        r := Raised(NoMirror);
        LiveIsMirrored(before, c);
        assert false;
      }
      var crashed, order := QueryOrder(c);
      if crashed { return Crashed; }
      if order.None? { return Raised(OrderVanished); }
      ghost var told := State();
      r := RecordAccepted(intent, order.value);
      ExtendsComposes(before, told, State());
      if r.Returned? { TookOnSame(broker.View(), before.staged, told.staged, uow.durable, c); }
    }

    /** Asks the broker to cancel; safe to retry while the intent remains CANCEL_PENDING. */
    method RequestCancel(c: Text) returns (r: Outcome<OrderIntent>, ghost step: CancelStep)
      requires Valid()
      modifies this`cancels, broker, broker.clock, uow
      ensures Valid() && Extends(old(State()), State()) && attempts == old(attempts)
      ensures r.Raised? ==> StateError(r.error) || r.error.OrderVanished? || r.error.Transport?
      ensures r.Raised? ==> uow.staged.intents == old(uow.staged).intents
                            || (c in old(uow.staged).intents && Live(old(uow.staged).intents[c].status)
                                && uow.staged.intents == WithStatus(old(uow.staged), c, CANCEL_PENDING).intents)
      ensures r.Raised? && r.error == NoIntent ==> c !in old(uow.staged).intents
      ensures r.Raised? && r.error == CancelNotAllowed ==>
        c in old(uow.staged).intents && !Live(old(uow.staged).intents[c].status)
      ensures c !in old(uow.staged).intents || !Live(old(uow.staged).intents[c].status) ==>
        r.Raised? && cancels == old(cancels) && State() == old(State())
      ensures CancelledOnce(old(cancels), cancels, uow.history, c)
      ensures c in old(uow.staged).intents && Live(old(uow.staged).intents[c].status) && !r.Crashed? ==>
        |cancels| == |old(cancels)| + 1
      ensures r.Returned? ==>
        && c in old(uow.staged).intents && Live(old(uow.staged).intents[c].status)
        && Took(broker.View(), WithStatus(old(uow.staged), c, CANCEL_PENDING), uow.durable, c)
        && uow.staged.intents == old(uow.staged).intents[c := r.value]
        && Settled(old(State()), State(), c, r.value) && CaughtUp(broker.View(), uow.durable, c)
      ensures c in old(uow.staged).intents && Live(old(uow.staged).intents[c].status) && !r.Crashed? ==>
        && step.c == c && StepShown(broker.View(), step) && (r.Raised? <==> CancelFailed(step))
        && SameTables(AfterCancel(old(uow.staged), step), uow.staged) && OneCancel(old(uow.staged), uow.staged, step)
      ensures c in old(uow.staged).intents && Live(old(uow.staged).intents[c].status) && r.Raised? ==>
        && (r.error == NoLegalTransition <==> step.report.Some?)
        && (SameTables(old(uow.staged), uow.staged)
            <==> old(uow.staged).intents[c].status == CANCEL_PENDING
                 && (r.error == NoLegalTransition ==> Known(old(uow.staged), step.report.value, step.fills)))
    {
      hide Good, BrokerInv, Log, Follows, Sound, BrokerGrows, Moves, Linked, Reported, TargetLegal, CaughtUp, Refreshed,
        Took, AfterCancel, OneCancel, StepShown, CancelFailed, SameTables, Known, Tables;
      ghost var before := State();
      BrokerStays(before.broker);
      step := CancelStep(c, None, []);
      var found := uow.Get(c);
      if found.None? { return Raised(NoIntent), step; }
      var intent := found.value;
      if !Live(intent.status) { return Raised(CancelNotAllowed), step; }
      KeyedByClient(before, c);
      if intent.status != CANCEL_PENDING {
        LiveIsMirrored(before, c);
        var pending := TransitionAndCommit(c, CANCEL_PENDING);
        if pending.Crashed? { return Crashed, step; }
        intent := pending.value;
      } else {
        StatusAgain(uow.staged, c);
      }
      ghost var pending := State();
      r, step := CancelAtBroker(intent);
      ExtendsComposes(before, pending, State());
      if !r.Crashed? {
        StepFromPending(before.staged, uow.staged, step);
        if r.Raised? {
          GoodTables(before);
          FailedCancelShows(before.staged, uow.staged, step);
        }
      }
    }

    method CancelAtBroker(intent: OrderIntent) returns (r: Outcome<OrderIntent>, ghost step: CancelStep)
      requires Valid() && intent.clientOrderId in uow.staged.intents
      requires uow.staged.intents[intent.clientOrderId] == intent && intent.status == CANCEL_PENDING
      modifies this`cancels, broker, broker.clock, uow
      ensures Valid() && Extends(old(State()), State()) && attempts == old(attempts)
      ensures r.Raised? ==> r.error.OrderVanished? || r.error.Transport? || r.error.NoLegalTransition?
      ensures r.Raised? ==> uow.staged.intents == old(uow.staged).intents
      ensures CancelledOnce(old(cancels), cancels, uow.history, intent.clientOrderId)
      ensures !r.Crashed? ==> |cancels| == |old(cancels)| + 1
      ensures r.Returned? ==>
        && uow.staged.intents == old(uow.staged).intents[intent.clientOrderId := r.value]
        && Settled(old(State()), State(), intent.clientOrderId, r.value)
        && CaughtUp(broker.View(), uow.durable, intent.clientOrderId)
        && Took(broker.View(), old(uow.staged), uow.durable, intent.clientOrderId)
      ensures !r.Crashed? ==>
        && step.c == intent.clientOrderId && StepShown(broker.View(), step)
        && SameTables(AfterCancel(old(uow.staged), step), uow.staged) && OneCancel(old(uow.staged), uow.staged, step)
        && (r.Raised? <==> CancelFailed(step))
      ensures r.Raised? ==> (r.error == NoLegalTransition <==> step.report.Some?)
    {
      hide Good, BrokerInv, Log, Follows, Sound, BrokerGrows, Moves, Linked, Reported, TargetLegal, CaughtUp, Refreshed,
        Took, CancelledOnce, AfterCancel, OneCancel, Merged, FillsMoved, Tables;
      ghost var before := State();
      BrokerStays(before.broker);
      step := CancelStep(intent.clientOrderId, None, []);
      LinkedControl(before);
      var mirror := uow.GetBrokerOrder(intent.clientOrderId);
      if mirror.None? {
        r := Raised(NoMirror);
        LiveIsMirrored(before, intent.clientOrderId);
        assert false;
      }
      var crashed := Environment();
      if crashed { SentNone(cancels, uow.history, intent.clientOrderId); return Crashed, step; }
      ghost var met := State();
      var cancelled := CancelCall(intent, mirror.value.brokerOrderId);
      ghost var asked := State();
      AroundExtends(met, asked, false);
      ExtendsComposes(before, met, asked);
      ghost var sent := cancels;
      if cancelled.Err? {
        SilentCancel(before, asked, step.c);
        return Raised(Transport), step;
      }
      var order: Option<BrokerOrder>;
      crashed, order := QueryOrder(intent.clientOrderId);
      ghost var told := State();
      ExtendsComposes(before, asked, told);
      CancelledLater(old(cancels), sent, asked.history, told.history, intent.clientOrderId);
      if crashed { return Crashed, step; }
      if order.None? {
        SilentCancel(before, told, step.c);
        return Raised(OrderVanished), step;
      }
      r := RecordAccepted(intent, order.value);
      ExtendsComposes(before, told, State());
      CancelledLater(old(cancels), sent, told.history, uow.history, intent.clientOrderId);
      if r.Crashed? { return; }
      step := CancelStep(intent.clientOrderId, order, broker.orders[order.value.brokerOrderId].fills);
      ReportedCancel(before, told, uow.staged, order.value, step.fills);
      if r.Returned? { TookOnSame(broker.View(), before.staged, told.staged, uow.durable, intent.clientOrderId); }
    }

    /** The cancellation itself; every one is logged with the durable state it was sent in. */
    method CancelCall(intent: OrderIntent, brokerOrderId: Text) returns (answer: Result<bool, BrokerError>)
      requires Valid() && intent.clientOrderId in uow.staged.intents
      requires uow.staged.intents[intent.clientOrderId] == intent && intent.status == CANCEL_PENDING
      modifies this`cancels, broker, broker.clock
      ensures Valid() && Around(old(State()), State(), false)
      ensures answer.Err? ==> answer.error == TransportError
      ensures CancelledOnce(old(cancels), cancels, uow.history, intent.clientOrderId) && |cancels| == |old(cancels)| + 1
    {
      hide Good, BrokerInv, Sound, SubmittedKnown, Log, Follows, Moves, Tables, BrokerOpen;
      ghost var before := State();
      GoodBroker(before);
      LinkedControl(before);
      answer := broker.CancelOrder(brokerOrderId);
      LogEnds(uow.history);
      cancels := cancels + [Attempt(intent, |uow.history| - 1)];
      LiveIsDurable(before, intent);
      GoodAround(before, State(), false);
    }

    /** Resolves, one by one, those of the listed intents that are due. */
    method ResolveDue(found: seq<OrderIntent>, deadline: Option<Time>) returns (r: Outcome<map<Text, OrderIntent>>)
      requires Valid()
      modifies this`attempts, broker, broker.clock, uow
      ensures Valid() && Extends(old(State()), State())
      ensures r.Returned? ==> Swept(old(uow.staged), uow.staged, found, deadline)
      ensures r.Returned? ==> Covers(r.value, found, deadline) && DurablyReported(old(State()), State(), r.value)
      ensures r.Returned? ==> LiveKept(old(State()), State())
      ensures r.Raised? ==> r.error.NoIntent? || r.error.ControlPersistence? || r.error.Script?
    {
      hide Good, BrokerInv, Log, Follows, Sound, BrokerGrows, Settled, LeavesSubmitting, Due, DurablyReported,
        Covers, Unanswered, Took, LiveKept;
      ghost var before := State();
      BrokerStays(before.broker);
      StillSwept(uow.staged, deadline);
      var closed: map<Text, OrderIntent> := map[];
      NothingReported(before);
      StaysKept(before);
      assert Covers(closed, [], deadline) by { NothingCovered(deadline); }
      for i := 0 to |found|
        invariant Valid() && Extends(before, State())
        invariant Swept(before.staged, uow.staged, found[..i], deadline)
        invariant Covers(closed, found[..i], deadline) && DurablyReported(before, State(), closed)
        invariant LiveKept(before, State())
      {
        assert found[..i + 1] == found[..i] + [found[i]];
        ghost var met := State();
        ghost var so := closed;
        if deadline.None? || found[i].cancelAt <= deadline.value {
          var c := found[i].clientOrderId;
          var resolved := Resolve(c);
          ExtendsComposes(before, met, State());
          if resolved.Crashed? { return Crashed; }
          if resolved.Raised? { return Raised(resolved.error); }
          ResolvedNamed(met, State(), c, resolved.value);
          closed := closed[resolved.value.clientOrderId := resolved.value];
          ResolvedLeaves(met, State(), c, resolved.value);
          ResolvedLeavesLive(met, State(), c, resolved.value);
          KeptComposes(before, met, State());
          ReportsOneMore(before, met, State(), so, c, resolved.value);
        }
        DueMeans(found[i], deadline);
        CoversNext(so, closed, found[..i], found[i], deadline);
        SweepsOne(before.staged, met.staged, uow.staged, found[..i], found[i], deadline);
      }
      assert found[..|found|] == found;
      r := Returned(closed);
    }

    /** After a crash or restart, resolves every SUBMITTING or UNKNOWN intent. */
    method Recover() returns (r: Outcome<map<Text, OrderIntent>>)
      requires Valid()
      modifies this`attempts, broker, broker.clock, uow
      ensures Valid() && Extends(old(State()), State())
      ensures r.Returned? ==> forall c :: c in uow.staged.intents ==> uow.staged.intents[c].status != SUBMITTING
      ensures r.Returned? ==> forall c :: c in uow.durable.intents ==> uow.durable.intents[c].status != SUBMITTING
      ensures r.Returned? ==>
        && (forall c :: c in r.value <==> c in old(uow.staged).intents && InFlight(old(uow.staged).intents[c].status))
        && (forall c :: c in r.value ==> c in uow.durable.intents && uow.durable.intents[c] == r.value[c])
      ensures r.Raised? ==> r.error.NoIntent? || r.error.ControlPersistence? || r.error.Script?
    {
      hide Good, BrokerInv, Log, Follows, Sound, BrokerGrows;
      ghost var before := State();
      var submitting := uow.ListByStatus(SUBMITTING);
      var unknown := uow.ListByStatus(UNKNOWN);
      r := ResolveDue(submitting + unknown, None);
      if r.Returned? {
        ListedKeyed(before, submitting);
        DurableSubmitting(State());
        InFlightCovered(before, submitting, unknown, r.value);
      }
    }

    /** Expires one intent that never reached the broker; the write is only staged. */
    method ExpireOne(c: Text)
      requires Valid() && c in uow.staged.intents
      requires PreBroker(uow.staged.intents[c].status) || uow.staged.intents[c].status == EXPIRED
      modifies uow`staged
      ensures Valid() && uow.staged == WithStatus(old(uow.staged), c, EXPIRED)
    {
      ghost var before := State();
      ExpirySound(before, c);
      hide Good, BrokerInv, Log, Follows, Sound, Linked;
      var expired := uow.TransitionStatus(c, EXPIRED);
      GoodStaged(before, State());
    }

    /** Expires every overdue intent of one pre-broker status. */
    method ExpireLocally(status: OrderStatus, now: Time) returns (closed: map<Text, OrderIntent>)
      requires Valid() && PreBroker(status)
      modifies uow`staged
      ensures Valid() && Extends(old(State()), State()) && attempts == old(attempts)
      ensures Expires(old(uow.staged), uow.staged, status, now)
      ensures closed == map[] ==> uow.staged == old(uow.staged)
    {
      hide Good, BrokerInv, Log, Follows, Sound, Linked, ExpiredSoFar, Expires;
      ghost var before := State();
      BrokerStays(before.broker);
      ghost var s := uow.staged;
      var found := uow.ListByStatus(status);
      ListedKeyed(before, found);
      NoneExpired(s, status, now);
      closed := map[];
      for i := 0 to |found|
        invariant Valid() && uow.history == before.history
        invariant ExpiredSoFar(s, uow.staged, found[..i], status, now)
        invariant closed == map[] ==> uow.staged == s
      {
        assert found[..i + 1] == found[..i] + [found[i]];
        var intent := found[i];
        assert intent in found;
        ghost var t := uow.staged;
        ExpiresNext(s, t, found[..i], intent, status, now);
        if intent.cancelAt <= now {
          ExpireOne(intent.clientOrderId);
          closed := closed[intent.clientOrderId := uow.staged.intents[intent.clientOrderId]];
          assert intent.clientOrderId in closed;
        }
      }
      assert found[..|found|] == found;
      AllExpired(s, uow.staged, found, status, now);
    }

    /**
     * Requests cancellation of the overdue intents of one live status.  A failed request is
     * left for recovery and reconciliation: whatever it raised, the sweep goes on.
     */
    method CancelOverdue(status: OrderStatus, now: Time, handled: set<Text>, ghost s: Db, ghost sent: seq<Attempt>,
                         ghost told: seq<CancelStep>)
      returns (r: Outcome<map<Text, OrderIntent>>, seen: set<Text>, ghost steps: seq<CancelStep>)
      requires Valid() && NoneOverdue(uow.staged, now) && Live(status)
      requires Sweeping(s, uow.staged, sent, cancels, handled, now)
      requires Tables(s) && CancelsTold(broker.View(), s, uow.staged, told, sent, cancels)
      modifies this`cancels, broker, broker.clock, uow
      ensures Valid() && Extends(old(State()), State()) && attempts == old(attempts) && !r.Raised?
      ensures r.Returned? ==> NoneOverdue(uow.staged, now) && old(cancels) <= cancels
      ensures r.Returned? ==> Sweeping(s, uow.staged, sent, cancels, seen, now) && OverdueAsked(s, status, now, sent, cancels)
      ensures r.Returned? ==> CancelsTold(broker.View(), s, uow.staged, steps, sent, cancels)
    {
      hide Good, BrokerInv, Log, Follows, Sound, BrokerGrows, NoneOverdue, CaughtUp, Sweeping, OverdueAsked, Asked, Took,
        CancelledOnce, CancelsTold, OneCancel, StepShown, AfterCancel, SameTables, Tables, Known, CancelFailed;
      ghost var before := State();
      ghost var asked := cancels;
      BrokerStays(before.broker);
      AllKeyed(before);
      var found := uow.ListByStatus(status);
      var closed: map<Text, OrderIntent> := map[];
      seen, steps := handled, told;
      for i := 0 to |found|
        invariant Valid() && Extends(before, State()) && attempts == before.attempts && NoneOverdue(uow.staged, now)
        invariant Sweeping(s, uow.staged, sent, cancels, seen, now) && asked <= cancels
        invariant forall k :: 0 <= k < i ==> found[k].clientOrderId in seen
        invariant handled <= seen && CancelsTold(broker.View(), s, uow.staged, steps, sent, cancels)
      {
        var c := found[i].clientOrderId;
        if c !in seen {
          ListedUnasked(s, before.staged, sent, asked, handled, now, found[i]);
          SweepKeys(s, uow.staged, sent, cancels, seen, now);
          ListedUnasked(s, uow.staged, sent, cancels, seen, now, found[i]);
          if found[i].cancelAt <= now {
            ghost var met, log := State(), cancels;
            var cancelled, step := RequestCancel(c);
            ExtendsComposes(before, met, State());
            if cancelled.Crashed? { return Crashed, seen, steps; }
            CancelKeepsOverdue(met.staged, uow.staged, c, cancelled, now);
            RequestTouchesOne(met.staged, uow.staged, c, cancelled);
            SweepAsks(s, met.staged, uow.staged, sent, log, cancels, uow.history, seen, c, now);
            ToldNext(met.broker, broker.View(), s, met.staged, uow.staged, steps, step, sent, log, cancels, uow.history, seen, now);
            steps := steps + [step];
            if cancelled.Returned? { closed := closed[cancelled.value.clientOrderId := cancelled.value]; }
          } else {
            SweepSkips(s, uow.staged, sent, cancels, seen, c, now);
          }
          seen := seen + {c};
        }
      }
      SweepDone(s, before.staged, uow.staged, sent, asked, cancels, handled, seen, found, status, now);
      r := Returned(closed);
    }

    /** The overdue intents the engine settles by itself: in flight by query, unsent by expiry. */
    method SettleOverdue(now: Time) returns (r: Outcome<map<Text, OrderIntent>>)
      requires Valid()
      modifies this`attempts, broker, broker.clock, uow
      ensures Valid() && Extends(old(State()), State())
      ensures r.Raised? ==> r.error.NoIntent? || r.error.ControlPersistence? || r.error.Script?
      ensures r.Returned? ==> NoneOverdue(uow.staged, now) && OpenWindowsKept(old(State()), uow.staged, now)
      ensures r.Returned? && old(uow.staged) == old(uow.durable) ==> LiveUntouched(old(uow.staged), uow.staged)
      ensures cancels == old(cancels)
    {
      hide Good, BrokerInv, Log, Follows, Sound, BrokerGrows, NoneOverdue, Swept, NoneSubmittingOverdue, Expires,
        Covers, DurablyReported, OpenWindowsKept, LiveUntouched;
      ghost var before := State();
      var submitting := uow.ListByStatus(SUBMITTING);
      var resolved := ResolveDue(submitting, Some(now));
      if !resolved.Returned? { return resolved; }
      ghost var first := State();
      SweptSubmitting(before, first.staged, submitting, now);
      var unknown := uow.ListByStatus(UNKNOWN);
      var settled := ResolveDue(unknown, Some(now));
      ghost var second := State();
      ExtendsComposes(before, first, second);
      if !settled.Returned? { return settled; }
      SweptAgain(first.staged, second.staged, unknown, now);
      SweepsKeepWindows(before, first, second, resolved.value, settled.value, submitting, unknown, now);
      var created := ExpireLocally(CREATED, now);
      ghost var third := State();
      var approved := ExpireLocally(RISK_APPROVED, now);
      ghost var fourth := State();
      var pending := ExpireLocally(OUTBOX_PENDING, now);
      AllThreeExpired(second.staged, third.staged, fourth.staged, uow.staged, now);
      ExpiryKeepsWindows(before, second.staged, third.staged, CREATED, now);
      ExpiryKeepsWindows(before, third.staged, fourth.staged, RISK_APPROVED, now);
      ExpiryKeepsWindows(before, fourth.staged, uow.staged, OUTBOX_PENDING, now);
      ExtendsComposes(second, third, fourth);
      ExtendsComposes(second, fourth, State());
      ExtendsComposes(before, second, State());
      KeptComposes(before, first, second);
      GoodTables(second);
      GoodTables(third);
      GoodTables(fourth);
      ExpiriesLeaveLive(before.staged, second.staged, third.staged, fourth.staged, uow.staged, now);
      r := Returned(resolved.value + settled.value + created + approved + pending);
    }

    /** Asks for the cancellation of every overdue live intent, none twice. */
    method CancelAllOverdue(now: Time) returns (r: Outcome<map<Text, OrderIntent>>, ghost steps: seq<CancelStep>)
      requires Valid() && NoneOverdue(uow.staged, now)
      modifies this`cancels, broker, broker.clock, uow
      ensures Valid() && Extends(old(State()), State()) && attempts == old(attempts) && !r.Raised?
      ensures r.Returned? ==> NoneOverdue(uow.staged, now)
      ensures r.Returned? ==> forall e {:trigger uow.staged.intents[e]} :: e in uow.staged.intents ==>
        Live(uow.staged.intents[e].status) && uow.staged.intents[e].cancelAt <= now ==> Asked(old(cancels), cancels, e)
      ensures r.Returned? ==> forall e {:trigger uow.staged.intents[e]} {:trigger old(uow.staged).intents[e]} ::
        e in old(uow.staged).intents && old(uow.staged).intents[e].cancelAt > now ==>
          e in uow.staged.intents && uow.staged.intents[e] == old(uow.staged).intents[e]
      ensures r.Returned? ==> CancelsTold(broker.View(), old(uow.staged), uow.staged, steps, old(cancels), cancels)
    {
      hide Good, BrokerInv, Log, Follows, Sound, BrokerGrows, NoneOverdue, Sweeping, OverdueAsked, Asked, CancelsTold, Tables;
      ghost var before, sent := State(), cancels;
      ghost var s := before.staged;
      SweepStarts(s, sent, now);
      NothingTold(before.broker, s, sent);
      GoodTables(before);
      var acknowledged, handled, told := CancelOverdue(ACKNOWLEDGED, now, {}, s, sent, []);
      steps := told;
      ghost var first, firstSent := State(), cancels;
      if !acknowledged.Returned? { return Crashed, steps; }
      var partial, both, more := CancelOverdue(PARTIALLY_FILLED, now, handled, s, sent, told);
      ghost var second, secondSent := State(), cancels;
      ExtendsComposes(before, first, second);
      if !partial.Returned? { return Crashed, steps; }
      var pending, all, every := CancelOverdue(CANCEL_PENDING, now, both, s, sent, more);
      steps := every;
      ExtendsComposes(before, second, State());
      if !pending.Returned? { return Crashed, steps; }
      OverdueStaysAsked(s, PARTIALLY_FILLED, now, sent, secondSent, cancels);
      OverdueStaysAsked(s, ACKNOWLEDGED, now, sent, firstSent, cancels);
      SweepsReachAll(s, uow.staged, sent, cancels, all, now);
      r := Returned(acknowledged.value + partial.value + pending.value);
    }

    /** Enforces the window cutoff without contradicting the broker. */
    method ExpireOverdue() returns (r: Outcome<map<Text, OrderIntent>>, ghost cutoff: Time, ghost settled: Db, ghost steps: seq<CancelStep>)
      requires Valid()
      modifies this`attempts, this`cancels, broker, broker.clock, uow
      ensures Valid() && Extends(old(State()), State()) && old(broker.clock.now) <= cutoff
      ensures r.Raised? ==> r.error.NoIntent? || r.error.ControlPersistence? || r.error.Script?
      ensures r.Returned? ==> NoneOverdue(uow.staged, cutoff) && OpenWindowsKept(old(State()), uow.staged, cutoff)
      ensures r.Returned? ==> forall e {:trigger uow.staged.intents[e]} :: e in uow.staged.intents ==>
        Live(uow.staged.intents[e].status) && uow.staged.intents[e].cancelAt <= cutoff ==> Asked(old(cancels), cancels, e)
      ensures r.Returned? && r.value != map[] ==> uow.durable == uow.staged
      ensures r.Returned? ==> CancelsTold(broker.View(), settled, uow.staged, steps, old(cancels), cancels)
      ensures r.Returned? && old(uow.staged) == old(uow.durable) ==> LiveUntouched(old(uow.staged), settled)
    {
      hide Good, BrokerInv, Log, Follows, Sound, BrokerGrows, NoneOverdue, OpenWindowsKept, Asked, CancelsTold, LiveUntouched;
      ghost var before := State();
      var now := ReadClock();
      cutoff, settled, steps := now, uow.staged, [];
      ghost var dated := State();
      AroundExtends(before, dated, false);
      TimeForward(before, dated);
      r := SettleOverdue(now);
      ghost var second := State();
      settled := uow.staged;
      ExtendsComposes(before, dated, second);
      if !r.Returned? { return; }
      WindowsKeptAround(before, dated, settled, now);
      DatedLeavesLive(before, dated, settled);
      var cancelled, told := CancelAllOverdue(now);
      steps := told;
      ghost var third := State();
      ExtendsComposes(before, second, third);
      if !cancelled.Returned? { return Crashed, cutoff, settled, steps; }
      CancelsKeepWindows(before, settled, third.staged, now);
      r := Returned(r.value + cancelled.value);
      if r.value != map[] {
        LinkedControl(third);
        uow.Commit();
        GoodSettled(third, State());
        BrokerStays(third.broker);
        ExtendsComposes(before, third, State());
      }
    }
  }
}
