// What every step of the engine keeps, and what the invariant says about single intents.

module EngineInvariant {
  import opened Orders
  import opened Clocks
  import opened FakeBroker
  import opened Persistence
  import opened ExecutionState
  import opened MirrorRefresh
  import opened ReportHandling
  import opened EngineReports

  lemma TimePasses(v: BrokerView, w: BrokerView)
    requires BrokerInv(v) && v.now <= w.now && w == v.(now := w.now)
    ensures BrokerInv(w) && Moves(v, w)
  {
    hide ExecutionsOwned, ClientsIndexed;
    SameFillsOwned(v, w);
    SameClients(v, w);
  }

  lemma SameClients(v: BrokerView, w: BrokerView)
    requires ClientsIndexed(v) && w == v.(now := w.now)
    ensures ClientsIndexed(w)
  {
  }

  /** The broker only gains orders, submitted from now on, and every order only advances. */
  ghost predicate BrokerGrows(v: BrokerView, w: BrokerView) {
    && v.now <= w.now
    && (forall c {:trigger v.byClient[c]} {:trigger w.byClient[c]} :: c in v.byClient ==>
          c in w.byClient && w.byClient[c] == v.byClient[c])
    && (forall b {:trigger v.orders[b]} {:trigger w.orders[b]} :: b in v.orders ==>
          b in w.orders && OrderAdvances(v.orders[b], w.orders[b]))
    && (forall b {:trigger w.orders[b]} :: b in w.orders && b !in v.orders ==> v.now <= w.orders[b].order.submittedAt)
  }

  ghost predicate Extends(w: World, x: World) {
    BrokerGrows(w.broker, x.broker) && w.history <= x.history && w.attempts <= x.attempts
  }

  lemma BrokerStays(v: BrokerView)
    ensures BrokerGrows(v, v)
  {
  }

  lemma GrowsComposes(u: BrokerView, v: BrokerView, w: BrokerView)
    requires BrokerGrows(u, v) && BrokerGrows(v, w)
    ensures BrokerGrows(u, w)
  {
    forall b | b in u.orders ensures b in w.orders && OrderAdvances(u.orders[b], w.orders[b]) {
      AdvancesComposes(u.orders[b], v.orders[b], w.orders[b]);
    }
  }

  lemma ExtendsComposes(w: World, x: World, y: World)
    requires Extends(w, x) && Extends(x, y)
    ensures Extends(w, y)
  {
    GrowsComposes(w.broker, x.broker, y.broker);
    hide BrokerGrows;
  }

  lemma TimeForward(w: World, x: World)
    requires Extends(w, x)
    ensures w.broker.now <= x.broker.now
  {
  }

  lemma AroundExtends(w: World, x: World, crashed: bool)
    requires Around(w, x, crashed)
    ensures Extends(w, x)
  {
  }

  lemma SubmissionExtends(w: World, x: World, intent: OrderIntent)
    requires BrokerInv(w.broker) && Submits(w.broker, x.broker, intent)
    requires w.history <= x.history && w.attempts <= x.attempts
    ensures Extends(w, x)
  {
    var v, u := w.broker, x.broker;
    if Accepts(v, u, intent) {
      forall b | b in v.orders ensures b in u.orders && u.orders[b] == v.orders[b] { AcceptKeepsOrders(v, u, intent, b); }
      AcceptKeepsClients(v, u, intent);
    }
    hide BrokerInv, Accepts, ParamsOf;
  }

  lemma AcceptKeepsClients(v: BrokerView, w: BrokerView, intent: OrderIntent)
    requires BrokerInv(v) && Accepts(v, w, intent)
    ensures forall c :: c in v.byClient ==> c in w.byClient && w.byClient[c] == v.byClient[c]
    ensures v.now <= w.now
  {
  }

  lemma TransitionSound(w: World, c: Text, target: OrderStatus)
    requires Good(w) && MayTransition(w.staged, c, target) && Truthful(w.broker, w.staged, c, target)
    ensures Sound(w.broker, WithStatus(w.staged, c, target))
  {
    GoodBroker(w);
    hide Good, Sound, Truthful, BrokerInv, SubmittedKnown;
    SoundUnderTransition(w.broker, w.staged, c, target);
  }

  lemma LinkedControl(w: World)
    requires Good(w)
    ensures w.durable.runs == w.staged.runs
    ensures !w.locked ==> w.durable.paused == w.staged.paused
    ensures w.durable.paused ==> w.staged.paused
    ensures Tables(w.staged)
  {
  }

  lemma StagedInFlight(w: World, i: OrderIntent)
    requires Good(w) && i.clientOrderId in w.staged.intents && w.staged.intents[i.clientOrderId] == i
    requires InFlight(i.status)
    ensures i.clientOrderId in w.durable.intents && w.durable.intents[i.clientOrderId] == i
  {
  }

  lemma KeyedByClient(w: World, c: Text)
    requires Good(w) && c in w.staged.intents
    ensures w.staged.intents[c].clientOrderId == c
    ensures PreBroker(w.staged.intents[c].status) ==> c !in w.broker.submitParams && c !in w.broker.byClient
  {
    if c in w.broker.submitParams { assert !PreBroker(w.staged.intents[c].status); }
  }

  lemma AroundComposes(w: World, x: World, y: World, crashed: bool)
    requires Around(w, x, false) && Around(x, y, crashed)
    ensures Around(w, y, crashed)
  {
    MovesComposes(w.broker, x.broker, y.broker);
    hide Moves;
  }

  lemma OrdersStay(v: BrokerView, w: BrokerView)
    requires Moves(v, w)
    ensures w.byClient == v.byClient
  {
  }

  lemma LiveIsMirrored(w: World, c: Text)
    requires Good(w) && c in w.staged.intents && Live(w.staged.intents[c].status)
    ensures c in w.staged.mirrorByClient
    ensures Truthful(w.broker, w.staged, c, CANCEL_PENDING)
  {
    assert Truthful(w.broker, w.staged, c, w.staged.intents[c].status);
  }

  lemma ListedKeyed(w: World, found: seq<OrderIntent>)
    requires Good(w)
    requires forall i :: i in found ==> exists c :: c in w.staged.intents && w.staged.intents[c] == i
    ensures forall i :: i in found ==> i.clientOrderId in w.staged.intents && w.staged.intents[i.clientOrderId] == i
    ensures forall c {:trigger w.staged.intents[c]} :: c in w.staged.intents ==> w.staged.intents[c].clientOrderId == c
  {
  }

  lemma DurableSubmitting(w: World)
    requires Good(w) && forall c :: c in w.staged.intents ==> w.staged.intents[c].status != SUBMITTING
    ensures forall c :: c in w.durable.intents ==> w.durable.intents[c].status != SUBMITTING
  {
  }

  lemma UnresolvedListed(db: Db, unknown: seq<OrderIntent>, review: seq<OrderIntent>)
    requires unknown == [] <==> forall c :: c in db.intents ==> db.intents[c].status != UNKNOWN
    requires review == [] <==> forall c :: c in db.intents ==> db.intents[c].status != REVIEW_REQUIRED
    ensures db.Unresolved() <==> unknown != [] || review != []
  {
  }

  lemma LogEnds(history: seq<Db>)
    requires Log(history)
    ensures history != []
  {
  }

  lemma LiveIsDurable(w: World, i: OrderIntent)
    requires Good(w) && i.clientOrderId in w.staged.intents && w.staged.intents[i.clientOrderId] == i && Live(i.status)
    ensures i.clientOrderId in w.durable.intents && w.durable.intents[i.clientOrderId] == i
  {
  }

  lemma GoodBroker(w: World)
    requires Good(w)
    ensures BrokerInv(w.broker) && Sound(w.broker, w.durable) && Sound(w.broker, w.staged)
    ensures SubmittedKnown(w.broker, w.durable)
  {
  }

  lemma AllKeyed(w: World)
    requires Good(w)
    ensures forall c {:trigger w.staged.intents[c]} :: c in w.staged.intents ==> w.staged.intents[c].clientOrderId == c
  {
  }

  lemma InFlightIsDurable(w: World, intent: OrderIntent)
    requires Good(w) && intent.clientOrderId in w.staged.intents
    requires w.staged.intents[intent.clientOrderId] == intent && InFlight(intent.status)
    ensures intent.clientOrderId in w.durable.intents && w.durable.intents[intent.clientOrderId] == intent
    ensures Sound(w.broker, w.staged) && Linked(w.durable, w.staged, w.locked)
  {
  }

  lemma LinkedLocked(d: Db, s: Db, locked: bool)
    requires Linked(d, s, locked)
    ensures Linked(d, s, true)
  {
  }
}
