// The in-memory Paper broker (src/seven_lens/execution/fake_broker.py): scripted submit
// outcomes, asynchronous cancels, partial fills and visibility gaps.

module FakeBroker {
  import opened Orders
  import opened Sequences
  import opened Clocks

  datatype SubmitOutcome = ACKNOWLEDGE | REJECT | TIMEOUT_BEFORE_ACCEPT | TIMEOUT_AFTER_ACCEPT

  datatype CancelMode = IMMEDIATE | PENDING | TIMEOUT

  datatype FillStep = FillStep(quantity: Shares, price: Cents)

  /** The plan's own constructor refuses a fill step on a rejection. */
  type SubmitPlan = p: RawPlan | p.outcome == REJECT ==> p.firstFill == None
    witness RawPlan(ACKNOWLEDGE, None)
  datatype RawPlan = RawPlan(outcome: SubmitOutcome, firstFill: Option<FillStep>)

  datatype SubmitParams = SubmitParams(symbol: Text, side: OrderSide, quantity: Shares, limitPrice: Cents)

  datatype SubmitResult = SubmitAccepted(order: BrokerOrder) | SubmitRejected

  datatype BrokerError = TransportError | ConflictError | ScriptError

  datatype Asset = Asset(usEquity: bool, active: bool, tradable: bool)

  datatype OrderState = OrderState(order: BrokerOrder, fills: seq<Fill>)

  function ParamsOf(intent: OrderIntent): SubmitParams {
    SubmitParams(intent.symbol, intent.side, intent.quantity, intent.limitPrice)
  }

  // ---------------------------------------------------------------- broker identifiers

  function Digit(n: nat): char
    requires n < 10
  {
    "0123456789"[n]
  }

  /** `n` in decimal, zero-padded to `width` digits. */
  function Padded(n: nat, width: nat): Text
    decreases n, width
  {
    if n < 10 && width <= 1 then [Digit(n)]
    else Padded(n / 10, if width == 0 then 0 else width - 1) + [Digit(n % 10)]
  }

  lemma PaddedNonEmpty(n: nat, width: nat)
    ensures |Padded(n, width)| >= 1
    ensures !(n < 10 && width <= 1) ==> |Padded(n, width)| >= 2
    decreases n, width
  {
    if !(n < 10 && width <= 1) { PaddedNonEmpty(n / 10, if width == 0 then 0 else width - 1); }
  }

  lemma {:induction false} PaddedInjective(a: nat, b: nat, width: nat)
    requires Padded(a, width) == Padded(b, width)
    ensures a == b
    decreases a, width
  {
    PaddedNonEmpty(a, width);
    PaddedNonEmpty(b, width);
    var x, y := Padded(a, width), Padded(b, width);
    assert x[|x| - 1] == y[|y| - 1];
    if a < 10 && width <= 1 {
      assert x == [Digit(a)];
    } else {
      var narrower := if width == 0 then 0 else width - 1;
      assert x[..|x| - 1] == Padded(a / 10, narrower);
      assert y[..|y| - 1] == Padded(b / 10, narrower);
      PaddedInjective(a / 10, b / 10, narrower);
    }
  }

  function OrderIdText(n: nat): Text { "fake-order-" + Padded(n, 6) }

  function ExecutionIdText(n: nat): Text { "fake-exec-" + Padded(n, 6) }

  lemma OrderIdsDiffer(a: nat, b: nat)
    requires a != b
    ensures OrderIdText(a) != OrderIdText(b)
  {
    if OrderIdText(a) == OrderIdText(b) {
      assert OrderIdText(a)[|"fake-order-"|..] == Padded(a, 6);
      assert OrderIdText(b)[|"fake-order-"|..] == Padded(b, 6);
      PaddedInjective(a, b, 6);
    }
  }

  lemma ExecutionIdsDiffer(a: nat, b: nat)
    requires a != b
    ensures ExecutionIdText(a) != ExecutionIdText(b)
  {
    if ExecutionIdText(a) == ExecutionIdText(b) {
      assert ExecutionIdText(a)[|"fake-exec-"|..] == Padded(a, 6);
      assert ExecutionIdText(b)[|"fake-exec-"|..] == Padded(b, 6);
      PaddedInjective(a, b, 6);
    }
  }

  // ---------------------------------------------------------------- what the broker keeps

  datatype Position = Position(brokerOrderId: Text, index: nat)

  /**
   * The broker's records as one value.  `executions` says which order and position each
   * execution id was handed to; it is bookkeeping for the proofs.
   */
  datatype BrokerView = BrokerView(
    orders: map<Text, OrderState>,
    byClient: map<Text, Text>,
    submitParams: map<Text, SubmitParams>,
    rejected: set<Text>,
    sequence: nat,
    executions: map<Text, Position>,
    now: Time)

  function Quantity(): Fill -> int {
    (f: Fill) => f.quantity
  }

  /** The record of one order: its fills belong to it, add up, are stamped while it stood, and a FILLED order is full. */
  ghost predicate OrderStateValid(bid: Text, st: OrderState) {
    && st.order.brokerOrderId == bid
    && (forall f :: f in st.fills ==> f.brokerOrderId == bid)
    && SumBy(st.fills, Quantity()) == st.order.filledQuantity <= st.order.quantity
    && (st.order.status == B_FILLED ==> st.order.filledQuantity == st.order.quantity)
    && st.order.submittedAt <= st.order.updatedAt
    && (forall f :: f in st.fills ==> st.order.submittedAt <= f.occurredAt <= st.order.updatedAt)
  }

  /** No identifier beyond the sequence number has been handed out. */
  ghost predicate IdsUnused(v: BrokerView) {
    && (forall n: nat {:trigger OrderIdText(n)} :: v.sequence < n ==> OrderIdText(n) !in v.orders)
    && (forall n: nat {:trigger ExecutionIdText(n)} :: v.sequence < n ==> ExecutionIdText(n) !in v.executions)
  }

  /** Every execution id names one fill of one order. */
  ghost predicate ExecutionsOwned(v: BrokerView) {
    forall b, i {:trigger v.orders[b].fills[i]} :: b in v.orders && 0 <= i < |v.orders[b].fills| ==>
      FillOwned(v.executions, v.orders[b].fills[i], b, i)
  }

  predicate FillOwned(executions: map<Text, Position>, f: Fill, b: Text, i: nat) {
    f.executionId in executions && executions[f.executionId] == Position(b, i)
  }

  ghost predicate ClientsIndexed(v: BrokerView) {
    && (forall c {:trigger v.byClient[c]} :: c in v.byClient ==>
          v.byClient[c] in v.orders && v.orders[v.byClient[c]].order.clientOrderId == c)
    && (forall b {:trigger v.orders[b]} :: b in v.orders ==>
          var c := v.orders[b].order.clientOrderId;
          c in v.byClient && v.byClient[c] == b)
    && (forall c {:trigger c in v.rejected} :: c in v.rejected ==> c in v.submitParams && c !in v.byClient)
    && (forall c {:trigger c in v.byClient} :: c in v.byClient ==>
          && c in v.submitParams
          && OrderParams(v.orders[v.byClient[c]].order) == v.submitParams[c])
  }

  function OrderParams(o: BrokerOrder): SubmitParams {
    SubmitParams(o.symbol, o.side, o.quantity, o.limitPrice)
  }

  ghost predicate BrokerInv(v: BrokerView) {
    && ClientsIndexed(v)
    && (forall b {:trigger v.orders[b]} :: b in v.orders ==>
          OrderStateValid(b, v.orders[b]) && v.orders[b].order.updatedAt <= v.now)
    && IdsUnused(v)
    && ExecutionsOwned(v)
  }

  /** How one order may move: identity fixed, status forward, fills only appended. */
  ghost predicate OrderAdvances(s: OrderState, t: OrderState) {
    && t.order == s.order.(status := t.order.status, filledQuantity := t.order.filledQuantity, updatedAt := t.order.updatedAt)
    && BrokerReaches(s.order.status, t.order.status)
    && s.order.filledQuantity <= t.order.filledQuantity
    && s.order.updatedAt <= t.order.updatedAt
    && s.fills <= t.fills
    && (!s.order.IsOpen() ==> s == t)
  }

  /** Everything the broker may do between two calls of the engine. */
  ghost predicate Moves(v: BrokerView, w: BrokerView) {
    && w.byClient == v.byClient
    && w.submitParams == v.submitParams
    && w.rejected == v.rejected
    && w.orders.Keys == v.orders.Keys
    && (forall e :: e in v.executions ==> e in w.executions && w.executions[e] == v.executions[e])
    && v.sequence <= w.sequence
    && v.now <= w.now
    && (forall b {:trigger w.orders[b]} {:trigger v.orders[b]} :: b in v.orders ==> OrderAdvances(v.orders[b], w.orders[b]))
  }

  lemma AdvancesComposes(s: OrderState, t: OrderState, u: OrderState)
    requires OrderAdvances(s, t) && OrderAdvances(t, u)
    ensures OrderAdvances(s, u)
  {
    BrokerReachesComposes(s.order.status, t.order.status, u.order.status);
  }

  lemma MovesComposes(u: BrokerView, v: BrokerView, w: BrokerView)
    requires Moves(u, v) && Moves(v, w)
    ensures Moves(u, w)
  {
    forall b | b in u.orders
      ensures OrderAdvances(u.orders[b], w.orders[b])
    {
      AdvancesComposes(u.orders[b], v.orders[b], w.orders[b]);
    }
  }

  /** At most one order exists per client order id, and it carries the submitted parameters. */
  lemma OneOrderPerClient(v: BrokerView, b: Text, c: Text)
    requires BrokerInv(v)
    requires b in v.orders && c in v.orders
    requires v.orders[b].order.clientOrderId == v.orders[c].order.clientOrderId
    ensures b == c
    ensures OrderParams(v.orders[b].order) == v.submitParams[v.orders[b].order.clientOrderId]
  {
  }

  /** A new order: fresh id, the intent's parameters, nothing else touched. */
  ghost predicate Accepts(v: BrokerView, w: BrokerView, intent: OrderIntent) {
    var c := intent.clientOrderId;
    && c !in v.submitParams
    && c in w.byClient
    && w.byClient[c] !in v.orders
    && w.byClient == v.byClient[c := w.byClient[c]]
    && w.submitParams == v.submitParams[c := ParamsOf(intent)]
    && w.rejected == v.rejected
    && w.byClient[c] in w.orders
    && w.orders == v.orders[w.byClient[c] := w.orders[w.byClient[c]]]
    && w.orders[w.byClient[c]].order.clientOrderId == c
    && OrderParams(w.orders[w.byClient[c]].order) == ParamsOf(intent)
    && w.orders[w.byClient[c]].order.IsOpen() != (w.orders[w.byClient[c]].order.status == B_FILLED)
    && v.now <= w.orders[w.byClient[c]].order.submittedAt && v.now <= w.now
  }

  lemma OrderChangeMoves(v: BrokerView, b: Text, st: OrderState, w: BrokerView)
    requires b in v.orders && OrderAdvances(v.orders[b], st)
    requires w == v.(orders := v.orders[b := st], sequence := w.sequence, executions := w.executions, now := w.now)
    requires v.sequence <= w.sequence && v.now <= w.now
    requires forall e :: e in v.executions ==> e in w.executions && w.executions[e] == v.executions[e]
    ensures Moves(v, w)
  {
  }

  lemma NoMove(v: BrokerView)
    ensures Moves(v, v)
  {
  }

  // ---------------------------------------------------------------- invariant lemmas

  lemma FillAppendedOwned(v: BrokerView, b: Text, st: OrderState, f: Fill, w: BrokerView)
    requires ExecutionsOwned(v) && b in v.orders
    requires st.fills == v.orders[b].fills + [f]
    requires f.executionId !in v.executions
    requires w.orders == v.orders[b := st]
    requires w.executions == v.executions[f.executionId := Position(b, |v.orders[b].fills|)]
    ensures ExecutionsOwned(w)
  {
    forall c, i | c in w.orders && 0 <= i < |w.orders[c].fills|
      ensures FillOwned(w.executions, w.orders[c].fills[i], c, i)
    {
      if c != b || i < |v.orders[b].fills| {
        assert w.orders[c].fills[i] == v.orders[c].fills[i];
        assert FillOwned(v.executions, v.orders[c].fills[i], c, i);
      }
    }
  }

  /** Ownership survives any change that leaves the recorded fills alone. */
  lemma SameFillsOwned(v: BrokerView, w: BrokerView)
    requires ExecutionsOwned(v) && w.executions == v.executions
    requires forall b {:trigger w.orders[b]} :: b in w.orders ==>
      w.orders[b].fills == [] || (b in v.orders && w.orders[b].fills == v.orders[b].fills)
    ensures ExecutionsOwned(w)
  {
    forall c, i | c in w.orders && 0 <= i < |w.orders[c].fills|
      ensures FillOwned(w.executions, w.orders[c].fills[i], c, i)
    {
      assert FillOwned(v.executions, v.orders[c].fills[i], c, i);
    }
  }

  lemma NextExecutionUnused(v: BrokerView, w: BrokerView, p: Position)
    requires IdsUnused(v)
    requires w.orders.Keys == v.orders.Keys && w.sequence == v.sequence + 1
    requires w.executions == v.executions[ExecutionIdText(v.sequence + 1) := p]
    ensures ExecutionIdText(v.sequence + 1) !in v.executions
    ensures IdsUnused(w)
  {
    forall n: nat | w.sequence < n
      ensures ExecutionIdText(n) !in w.executions
    {
      ExecutionIdsDiffer(n, v.sequence + 1);
    }
  }

  lemma NextOrderUnused(v: BrokerView, w: BrokerView, st: OrderState)
    requires IdsUnused(v)
    requires w.executions == v.executions && w.sequence == v.sequence + 1
    requires w.orders == v.orders[OrderIdText(v.sequence + 1) := st]
    ensures OrderIdText(v.sequence + 1) !in v.orders
    ensures IdsUnused(w)
  {
    forall n: nat | w.sequence < n
      ensures OrderIdText(n) !in w.orders
    {
      OrderIdsDiffer(n, v.sequence + 1);
    }
  }

  lemma OrderChangeKeepsClients(v: BrokerView, b: Text, st: OrderState, w: BrokerView)
    requires ClientsIndexed(v) && b in v.orders
    requires st.order == v.orders[b].order.(
      status := st.order.status, filledQuantity := st.order.filledQuantity, updatedAt := st.order.updatedAt)
    requires w.orders == v.orders[b := st]
    requires w.byClient == v.byClient && w.submitParams == v.submitParams && w.rejected == v.rejected
    ensures ClientsIndexed(w)
  {
  }

  lemma AppendFillKeepsInv(v: BrokerView, b: Text, st: OrderState, f: Fill, w: BrokerView)
    requires BrokerInv(v) && b in v.orders
    requires OrderStateValid(b, st) && st.order.updatedAt <= w.now
    requires st.order == v.orders[b].order.(
      status := st.order.status, filledQuantity := st.order.filledQuantity, updatedAt := st.order.updatedAt)
    requires st.fills == v.orders[b].fills + [f]
    requires f.executionId == ExecutionIdText(v.sequence + 1)
    requires v.now <= w.now
    requires w == v.(orders := v.orders[b := st], sequence := v.sequence + 1, now := w.now,
                     executions := v.executions[f.executionId := Position(b, |v.orders[b].fills|)])
    ensures BrokerInv(w)
  {
    hide ExecutionsOwned, ClientsIndexed, IdsUnused, OrderStateValid;
    NextExecutionUnused(v, w, Position(b, |v.orders[b].fills|));
    FillAppendedOwned(v, b, st, f, w);
    OrderChangeKeepsClients(v, b, st, w);
    OrderChangeKeepsStates(v, b, st, w);
  }

  /** `st` is `s` after one execution `f` observed at `now`. */
  ghost predicate Executes(s: OrderState, f: Fill, now: Time, st: OrderState) {
    var filled := s.order.filledQuantity + f.quantity;
    && filled <= s.order.quantity
    && st.order == s.order.(
         status := if filled == s.order.quantity then B_FILLED else B_PARTIALLY_FILLED,
         filledQuantity := filled, updatedAt := now)
    && st.fills == s.fills + [f]
  }

  lemma ExecutionAdvances(b: Text, s: OrderState, f: Fill, now: Time, st: OrderState)
    requires OrderStateValid(b, s) && s.order.IsOpen() && s.order.updatedAt <= f.occurredAt <= now
    requires f.brokerOrderId == b && Executes(s, f, now, st)
    ensures OrderStateValid(b, st) && OrderAdvances(s, st)
  {
    SumByAppend(s.fills, f, Quantity());
  }

  lemma FillStepKeepsInv(v: BrokerView, b: Text, f: Fill, st: OrderState, w: BrokerView)
    requires BrokerInv(v) && b in v.orders && v.orders[b].order.IsOpen()
    requires Executes(v.orders[b], f, w.now, st)
    requires f.brokerOrderId == b && f.executionId == ExecutionIdText(v.sequence + 1)
    requires v.now <= f.occurredAt <= w.now
    requires w == v.(orders := v.orders[b := st], sequence := v.sequence + 1, now := w.now,
                     executions := v.executions[f.executionId := Position(b, |v.orders[b].fills|)])
    ensures BrokerInv(w) && Moves(v, w)
  {
    ExecutionAdvances(b, v.orders[b], f, w.now, st);
    hide OrderAdvances, OrderStateValid, ExecutionsOwned, ClientsIndexed, IdsUnused;
    AppendFillKeepsInv(v, b, st, f, w);
    NextExecutionUnused(v, w, Position(b, |v.orders[b].fills|));
    OrderChangeMoves(v, b, st, w);
  }

  lemma UpdateOrderKeepsInv(v: BrokerView, b: Text, o: BrokerOrder, w: BrokerView)
    requires BrokerInv(v) && b in v.orders
    requires o == v.orders[b].order.(status := o.status, updatedAt := o.updatedAt)
    requires o.status == B_FILLED ==> o.filledQuantity == o.quantity
    requires v.now <= o.updatedAt <= w.now
    requires w == v.(orders := v.orders[b := v.orders[b].(order := o)], now := w.now)
    ensures BrokerInv(w)
  {
    hide ExecutionsOwned, ClientsIndexed, OrderStateValid, IdsUnused;
    var st := v.orders[b].(order := o);
    RelabelKeepsState(b, v.orders[b], o);
    OrderChangeKeepsClients(v, b, st, w);
    SameFillsOwned(v, w);
    OrderChangeKeepsStates(v, b, st, w);
    SameIdsUnused(v, w);
  }

  lemma RelabelKeepsState(b: Text, s: OrderState, o: BrokerOrder)
    requires OrderStateValid(b, s) && o == s.order.(status := o.status, updatedAt := o.updatedAt)
    requires s.order.updatedAt <= o.updatedAt
    requires o.status == B_FILLED ==> o.filledQuantity == o.quantity
    ensures OrderStateValid(b, s.(order := o))
  {
  }

  lemma SameIdsUnused(v: BrokerView, w: BrokerView)
    requires IdsUnused(v) && w.sequence == v.sequence && w.executions == v.executions && w.orders.Keys == v.orders.Keys
    ensures IdsUnused(w)
  {
  }

  /** Replacing or adding one valid order leaves every order valid. */
  lemma OrderChangeKeepsStates(v: BrokerView, b: Text, st: OrderState, w: BrokerView)
    requires forall c {:trigger v.orders[c]} :: c in v.orders ==>
      OrderStateValid(c, v.orders[c]) && v.orders[c].order.updatedAt <= v.now
    requires w.orders == v.orders[b := st] && v.now <= w.now
    requires OrderStateValid(b, st) && st.order.updatedAt <= w.now
    ensures forall c {:trigger w.orders[c]} :: c in w.orders ==>
      OrderStateValid(c, w.orders[c]) && w.orders[c].order.updatedAt <= w.now
  {
    hide OrderStateValid;
  }

  lemma NewOrderKeepsInv(v: BrokerView, o: BrokerOrder, w: BrokerView)
    requires BrokerInv(v)
    requires o.brokerOrderId == OrderIdText(v.sequence + 1)
    requires o.clientOrderId !in v.submitParams
    requires o.filledQuantity == 0 && o.status != B_FILLED && o.submittedAt <= o.updatedAt <= w.now && v.now <= w.now
    requires w == v.(
               orders := v.orders[o.brokerOrderId := OrderState(o, [])],
               byClient := v.byClient[o.clientOrderId := o.brokerOrderId],
               submitParams := v.submitParams[o.clientOrderId := OrderParams(o)],
               sequence := v.sequence + 1, now := w.now)
    ensures o.brokerOrderId !in v.orders
    ensures BrokerInv(w)
  {
    NextOrderUnused(v, w, OrderState(o, []));
    assert OrderStateValid(o.brokerOrderId, OrderState(o, []));
    hide ExecutionsOwned, ClientsIndexed, IdsUnused, OrderStateValid, OrderIdText;
    NewOrderIndexed(v, o, w);
    SameFillsOwned(v, w);
    OrderChangeKeepsStates(v, o.brokerOrderId, OrderState(o, []), w);
  }

  lemma NewOrderIndexed(v: BrokerView, o: BrokerOrder, w: BrokerView)
    requires ClientsIndexed(v)
    requires o.clientOrderId !in v.submitParams && o.brokerOrderId !in v.orders
    requires w.orders == v.orders[o.brokerOrderId := OrderState(o, [])]
    requires w.byClient == v.byClient[o.clientOrderId := o.brokerOrderId]
    requires w.submitParams == v.submitParams[o.clientOrderId := OrderParams(o)]
    requires w.rejected == v.rejected
    ensures ClientsIndexed(w)
  {
    assert o.clientOrderId !in v.byClient;
    forall c | c in w.byClient
      ensures w.byClient[c] in w.orders && w.orders[w.byClient[c]].order.clientOrderId == c
      ensures c in w.submitParams && OrderParams(w.orders[w.byClient[c]].order) == w.submitParams[c]
    {
      if c != o.clientOrderId {
        assert w.byClient[c] == v.byClient[c];
        assert v.byClient[c] in v.orders;
      }
    }
    forall b | b in w.orders
      ensures w.orders[b].order.clientOrderId in w.byClient && w.byClient[w.orders[b].order.clientOrderId] == b
    {
      if b != o.brokerOrderId { assert w.orders[b] == v.orders[b]; }
    }
  }

  lemma NewOrderAccepts(v: BrokerView, o: BrokerOrder, intent: OrderIntent, w: BrokerView)
    requires o.clientOrderId == intent.clientOrderId && OrderParams(o) == ParamsOf(intent)
    requires o.clientOrderId !in v.submitParams && o.brokerOrderId !in v.orders && o.IsOpen()
    requires v.now <= o.submittedAt && v.now <= w.now
    requires w == v.(
               orders := v.orders[o.brokerOrderId := OrderState(o, [])],
               byClient := v.byClient[o.clientOrderId := o.brokerOrderId],
               submitParams := v.submitParams[o.clientOrderId := OrderParams(o)],
               sequence := w.sequence, now := w.now)
    ensures Accepts(v, w, intent)
  {
  }

  lemma FilledOrderAccepts(v: BrokerView, w: BrokerView, x: BrokerView, intent: OrderIntent, b: Text)
    requires Accepts(v, w, intent) && b == w.byClient[intent.clientOrderId]
    requires Moves(w, x)
    requires x.orders == w.orders[b := x.orders[b]]
    requires x.orders[b].order.status == B_FILLED || x.orders[b].order.status == B_PARTIALLY_FILLED
    ensures Accepts(v, x, intent)
  {
  }

  /** How a client id the broker has already seen is answered; nothing changes. */
  function Answer(v: BrokerView, intent: OrderIntent): Result<SubmitResult, BrokerError>
    requires intent.clientOrderId in v.submitParams
    requires intent.clientOrderId in v.byClient ==> v.byClient[intent.clientOrderId] in v.orders
  {
    var c := intent.clientOrderId;
    if v.submitParams[c] != ParamsOf(intent) then Err(ConflictError)
    else if c in v.rejected then Ok(SubmitRejected)
    else if c !in v.byClient then Err(TransportError)
    else Ok(SubmitAccepted(v.orders[v.byClient[c]].order))
  }

  /** What each scripted outcome leaves behind and reports. */
  ghost predicate PlanFollowed(v: BrokerView, w: BrokerView, intent: OrderIntent, outcome: SubmitOutcome,
                               r: Result<SubmitResult, BrokerError>)
  {
    var c := intent.clientOrderId;
    match outcome
    case TIMEOUT_BEFORE_ACCEPT => r == Err(TransportError) && w == v
    case REJECT =>
      && r == Ok(SubmitRejected)
      && w == v.(submitParams := v.submitParams[c := ParamsOf(intent)], rejected := v.rejected + {c})
    case TIMEOUT_AFTER_ACCEPT => Accepts(v, w, intent) && r.Err? && r.error != ConflictError
    case ACKNOWLEDGE =>
      Accepts(v, w, intent) && (r == Err(ScriptError) || r == Ok(SubmitAccepted(w.orders[w.byClient[c]].order)))
  }

  lemma RejectedWereSubmitted(v: BrokerView, c: Text)
    requires BrokerInv(v)
    ensures c in v.rejected ==> c in v.submitParams
  {
  }

  lemma AcceptedKnown(v: BrokerView, w: BrokerView, intent: OrderIntent)
    requires Accepts(v, w, intent)
    ensures intent.clientOrderId in w.byClient && w.byClient[intent.clientOrderId] in w.orders
    ensures w.rejected == v.rejected
  {
  }

  lemma RejectionKeepsInv(v: BrokerView, w: BrokerView, intent: OrderIntent)
    requires BrokerInv(v) && intent.clientOrderId !in v.submitParams
    requires w == v.(submitParams := v.submitParams[intent.clientOrderId := ParamsOf(intent)],
                     rejected := v.rejected + {intent.clientOrderId})
    ensures BrokerInv(w)
  {
    hide ExecutionsOwned;
    SameFillsOwned(v, w);
  }

  // ---------------------------------------------------------------- the broker

  class FakePaperBroker {
    const clock: Clock
    const cancelMode: CancelMode
    const defaultPlan: SubmitPlan
    const assets: map<Text, Asset>
    const unknownAssets: set<Text>
    var plans: map<Text, SubmitPlan>
    var hiddenClientIds: set<Text>
    var orders: map<Text, OrderState>
    var byClient: map<Text, Text>
    var submitParams: map<Text, SubmitParams>
    var results: map<Text, SubmitResult>
    var sequence: nat
    ghost var executions: map<Text, Position>
    ghost var submitCalls: nat

    ghost function View(): BrokerView
      reads this, clock
    {
      BrokerView(orders, byClient, submitParams, RejectedIds(results), sequence, executions, clock.now)
    }

    ghost predicate Valid()
      reads this, clock
    {
      BrokerInv(View())
    }

    static ghost function RejectedIds(results: map<Text, SubmitResult>): set<Text> {
      set c | c in results && results[c].SubmitRejected?
    }

    constructor (clock: Clock, plans: map<Text, SubmitPlan>, defaultPlan: SubmitPlan, cancelMode: CancelMode,
                 hidden: set<Text>, assets: map<Text, Asset>, unknownAssets: set<Text>)
      ensures Valid() && this.clock == clock
      ensures orders == map[] && byClient == map[] && submitParams == map[] && submitCalls == 0
      ensures View().now == clock.now && RejectedIds(results) == {}
    {
      this.clock := clock;
      this.plans, this.defaultPlan, this.cancelMode := plans, defaultPlan, cancelMode;
      this.hiddenClientIds, this.assets, this.unknownAssets := hidden, assets, unknownAssets;
      orders, byClient, submitParams, results, sequence := map[], map[], map[], map[], 0;
      executions, submitCalls := map[], 0;
    }

    method GetOrder(clientOrderId: Text) returns (o: Option<BrokerOrder>)
      requires Valid()
      ensures o.Some? ==> clientOrderId in byClient && o.value == orders[byClient[clientOrderId]].order
      ensures o.None? ==> clientOrderId in hiddenClientIds || clientOrderId !in byClient
    {
      if clientOrderId in hiddenClientIds || clientOrderId !in byClient { return None; }
      o := Some(orders[byClient[clientOrderId]].order);
    }

    method ListFills(brokerOrderId: Text) returns (fills: seq<Fill>)
      ensures fills == if brokerOrderId in orders then orders[brokerOrderId].fills else []
    {
      fills := if brokerOrderId in orders then orders[brokerOrderId].fills else [];
    }

    /** A US equity the broker trades now. */
    predicate Tradable(symbol: Text) {
      symbol !in unknownAssets
      && (symbol in assets ==> assets[symbol].active && assets[symbol].tradable && assets[symbol].usEquity)
    }

    method GetAsset(symbol: Text) returns (a: Option<Asset>)
      ensures symbol in unknownAssets ==> a == None
      ensures symbol !in unknownAssets && symbol in assets ==> a == Some(assets[symbol])
      ensures symbol !in unknownAssets && symbol !in assets ==> a == Some(Asset(true, true, true))
    {
      if symbol in unknownAssets { return None; }
      if symbol in assets { return Some(assets[symbol]); }
      a := Some(Asset(true, true, true));
    }

    /** Moves one order's status, or refuses a change the broker map does not contain. */
    method Transition(b: Text, target: BrokerStatus) returns (ok: bool)
      requires Valid() && b in orders
      requires target == B_FILLED ==> orders[b].order.filledQuantity == orders[b].order.quantity
      modifies this`orders, clock
      ensures Valid() && Moves(old(View()), View())
      ensures ok == BrokerMayBecome(old(orders[b].order.status), target)
      ensures !ok ==> orders == old(orders)
      ensures ok ==> orders == old(orders)[b := old(orders[b]).(order := orders[b].order)]
                     && orders[b].order == old(orders[b].order).(status := target, updatedAt := clock.now)
    {
      ok := BrokerMayBecome(orders[b].order.status, target);
      ghost var before := View();
      if ok {
        var now := clock.Read();
        var moved := orders[b].order.(status := target, updatedAt := now);
        orders := orders[b := orders[b].(order := moved)];
        assert View() == before.(orders := before.orders[b := before.orders[b].(order := moved)], now := now);
        UpdateOrderKeepsInv(before, b, moved, View());
        OrderChangeMoves(before, b, before.orders[b].(order := moved), View());
      } else {
        NoMove(before);
      }
    }

    /** One execution: refused past the order quantity, otherwise appended and counted. */
    method ApplyFillStep(b: Text, step: FillStep) returns (r: Result<Fill, BrokerError>)
      requires Valid() && b in orders && orders[b].order.IsOpen()
      modifies this`orders, this`sequence, this`executions, clock
      ensures Valid() && Moves(old(View()), View())
      ensures r.Err? <==> old(orders[b].order.filledQuantity) + step.quantity > old(orders[b].order.quantity)
      ensures r.Err? ==> r.error == ScriptError && orders == old(orders)
      ensures r.Ok? ==>
        var was := old(orders[b]);
        var filled := was.order.filledQuantity + step.quantity;
        && r.value.quantity == step.quantity && r.value.price == step.price && r.value.brokerOrderId == b
        && b in orders && orders == old(orders)[b := orders[b]]
        && orders[b].order == was.order.(
             status := if filled == was.order.quantity then B_FILLED else B_PARTIALLY_FILLED,
             filledQuantity := filled, updatedAt := clock.now)
        && orders[b].fills == was.fills + [r.value]
    {
      ghost var before := View();
      var was := orders[b];
      var filled := was.order.filledQuantity + step.quantity;
      if filled > was.order.quantity { NoMove(before); return Err(ScriptError); }
      sequence := sequence + 1;
      var occurredAt := clock.Read();
      var fill := Fill(ExecutionIdText(sequence), b, step.quantity, step.price, occurredAt);
      var target := if filled == was.order.quantity then B_FILLED else B_PARTIALLY_FILLED;
      var updatedAt := clock.Read();
      var now := was.order.(status := target, filledQuantity := filled, updatedAt := updatedAt);
      var st := OrderState(now, was.fills + [fill]);
      executions := executions[fill.executionId := Position(b, |was.fills|)];
      orders := orders[b := st];
      FillStepKeepsInv(before, b, fill, st, View());
      r := Ok(fill);
    }

    /** A new order under the next id, without fills. */
    method PlaceOrder(intent: OrderIntent, status: BrokerStatus) returns (b: Text)
      requires Valid() && intent.clientOrderId !in submitParams && (status == B_RECEIVED || status == B_ACCEPTED)
      modifies this`orders, this`sequence, this`byClient, this`submitParams, clock
      ensures Valid() && Accepts(old(View()), View(), intent)
      ensures b == OrderIdText(old(sequence) + 1) == byClient[intent.clientOrderId] && b in orders
      ensures orders[b].fills == [] && orders[b].order.brokerOrderId == b
      ensures orders[b].order.status == status && orders[b].order.filledQuantity == 0
      ensures orders[b].order.updatedAt == orders[b].order.submittedAt == clock.now
    {
      hide BrokerInv, OrderIdText;
      ghost var before := View();
      sequence := sequence + 1;
      b := OrderIdText(sequence);
      var now := clock.Read();
      var order := BrokerOrder(b, intent.clientOrderId, intent.symbol, intent.side, intent.quantity, 0,
                               intent.limitPrice, status, now, now);
      orders := orders[b := OrderState(order, [])];
      byClient := byClient[intent.clientOrderId := b];
      submitParams := submitParams[intent.clientOrderId := OrderParams(order)];
      NewOrderKeepsInv(before, order, View());
      NewOrderAccepts(before, order, intent, View());
    }

    /** The order of an accepted submission, with its scripted first fill if that fits. */
    method RecordAcceptedOrder(intent: OrderIntent, plan: SubmitPlan) returns (r: Result<Text, BrokerError>)
      requires Valid() && intent.clientOrderId !in submitParams
      modifies this`orders, this`sequence, this`executions, this`byClient, this`submitParams, clock
      ensures Valid() && Accepts(old(View()), View(), intent)
      ensures r.Ok? ==> r.value == byClient[intent.clientOrderId]
      ensures var o := orders[byClient[intent.clientOrderId]];
              && (plan.firstFill == None ==> r.Ok? && o.fills == [])
              && (plan.firstFill.Some? && plan.firstFill.value.quantity > intent.quantity ==>
                    r == Err(ScriptError) && o.fills == [])
              && (plan.firstFill.Some? && plan.firstFill.value.quantity <= intent.quantity ==>
                    r.Ok? && |o.fills| == 1 && o.fills[0].quantity == plan.firstFill.value.quantity
                    && o.fills[0].price == plan.firstFill.value.price)
      ensures var o := orders[byClient[intent.clientOrderId]];
              && o.order.brokerOrderId == OrderIdText(old(sequence) + 1)
              && (o.fills == [] ==>
                    && o.order.status == (if plan.outcome == TIMEOUT_AFTER_ACCEPT then B_RECEIVED else B_ACCEPTED)
                    && o.order.filledQuantity == 0 && o.order.updatedAt == o.order.submittedAt)
              && (o.fills != [] ==>
                    && o.order.status == (if o.order.filledQuantity == intent.quantity then B_FILLED else B_PARTIALLY_FILLED)
                    && o.order.filledQuantity == o.fills[0].quantity)
    {
      hide BrokerInv, OrderIdText;
      ghost var before := View();
      var status := if plan.outcome == TIMEOUT_AFTER_ACCEPT then B_RECEIVED else B_ACCEPTED;
      var b := PlaceOrder(intent, status);
      ghost var placed := View();
      r := Ok(b);
      if plan.firstFill.Some? {
        var fill := ApplyFillStep(b, plan.firstFill.value);
        if fill.Err? {
          r := Err(fill.error);
        } else {
          FilledOrderAccepts(before, placed, View(), intent, b);
        }
      }
    }

    /** A fresh client id follows its one-shot plan. */
    method FollowPlan(intent: OrderIntent) returns (r: Result<SubmitResult, BrokerError>)
      requires Valid() && intent.clientOrderId !in submitParams
      modifies this`plans, this`orders, this`byClient, this`submitParams, this`results, this`sequence, this`executions, clock
      ensures Valid()
      ensures PlanFollowed(old(View()), View(), intent, old(PlanFor(intent.clientOrderId)).outcome, r)
      ensures plans == old(plans) - {intent.clientOrderId}
    {
      hide BrokerInv, Accepts, ParamsOf;
      ghost var before := View();
      var c := intent.clientOrderId;
      RejectedWereSubmitted(before, c);
      var plan := PlanFor(c);
      plans := plans - {c};
      if plan.outcome == TIMEOUT_BEFORE_ACCEPT { return Err(TransportError); }
      if plan.outcome == REJECT {
        submitParams := submitParams[c := ParamsOf(intent)];
        results := results[c := SubmitRejected];
        assert RejectedIds(results) == before.rejected + {c};
        RejectionKeepsInv(before, View(), intent);
        return Ok(SubmitRejected);
      }
      var recorded := RecordAcceptedOrder(intent, plan);
      if recorded.Err? { return Err(recorded.error); }
      AcceptedKnown(before, View(), intent);
      if plan.outcome == TIMEOUT_AFTER_ACCEPT { return Err(TransportError); }
      var result := SubmitAccepted(orders[recorded.value].order);
      assert c !in RejectedIds(results);
      ghost var placed := View();
      results := results[c := result];
      assert RejectedIds(results) == placed.rejected;
      assert View() == placed;
      r := Ok(result);
    }

    function PlanFor(clientOrderId: Text): SubmitPlan
      reads this
    {
      if clientOrderId in plans then plans[clientOrderId] else defaultPlan
    }

    /** Submits one intent; a client id the broker has seen is answered from its records. */
    method SubmitOrder(intent: OrderIntent) returns (r: Result<SubmitResult, BrokerError>)
      requires Valid()
      modifies this`plans, this`orders, this`byClient, this`submitParams, this`results, this`sequence, this`executions,
               this`submitCalls, clock
      ensures Valid() && submitCalls == old(submitCalls) + 1
      ensures intent.clientOrderId in old(submitParams) ==>
        View() == old(View()) && plans == old(plans) && r == Answer(View(), intent)
      ensures intent.clientOrderId !in old(submitParams) ==>
        PlanFollowed(old(View()), View(), intent, old(PlanFor(intent.clientOrderId)).outcome, r)
        && plans == old(plans) - {intent.clientOrderId}
    {
      submitCalls := submitCalls + 1;
      var c := intent.clientOrderId;
      if c !in submitParams {
        r := FollowPlan(intent);
        return;
      }
      if submitParams[c] != ParamsOf(intent) { return Err(ConflictError); }
      if c in results && results[c].SubmitRejected? { return Ok(SubmitRejected); }
      if c !in byClient { return Err(TransportError); }
      r := Ok(SubmitAccepted(orders[byClient[c]].order));
    }

    method CancelOrder(brokerOrderId: Text) returns (r: Result<bool, BrokerError>)
      requires Valid()
      modifies this`orders, clock
      ensures Valid() && Moves(old(View()), View())
      ensures var open := brokerOrderId in old(orders) && old(orders)[brokerOrderId].order.IsOpen();
              && (!open ==> r == Ok(false) && orders == old(orders))
              && (open && cancelMode == TIMEOUT ==> r == Err(TransportError) && orders == old(orders))
              && (open ==> orders == old(orders)[brokerOrderId := orders[brokerOrderId]]
                           && orders[brokerOrderId].fills == old(orders)[brokerOrderId].fills)
              && (open && cancelMode == PENDING ==> r == Ok(true) && orders[brokerOrderId].order.status == B_PENDING_CANCEL)
              && (open && cancelMode == IMMEDIATE ==> r == Ok(true) && orders[brokerOrderId].order.status == B_CANCELED)
    {
      if brokerOrderId !in orders || !orders[brokerOrderId].order.IsOpen() { return Ok(false); }
      if cancelMode == TIMEOUT { return Err(TransportError); }
      var ok := Transition(brokerOrderId, if cancelMode == PENDING then B_PENDING_CANCEL else B_CANCELED);
      r := Ok(true);
    }

    method ResolvePendingCancel(brokerOrderId: Text) returns (ok: bool)
      requires Valid()
      modifies this`orders, clock
      ensures Valid() && Moves(old(View()), View())
      ensures ok <==> brokerOrderId in old(orders) && old(orders)[brokerOrderId].order.status == B_PENDING_CANCEL
      ensures ok ==> orders[brokerOrderId].order.status == B_CANCELED
      ensures !ok ==> orders == old(orders)
    {
      hide BrokerInv, Moves;
      NoMove(View());
      if brokerOrderId !in orders || orders[brokerOrderId].order.status != B_PENDING_CANCEL { return false; }
      ok := Transition(brokerOrderId, B_CANCELED);
    }

    method ApplyFill(brokerOrderId: Text, step: FillStep) returns (r: Result<Fill, BrokerError>)
      requires Valid()
      modifies this`orders, this`sequence, this`executions, clock
      ensures Valid() && Moves(old(View()), View())
      ensures r.Err? ==> orders == old(orders)
      ensures r.Ok? ==> brokerOrderId in orders && orders[brokerOrderId].fills == old(orders[brokerOrderId].fills) + [r.value]
    {
      hide BrokerInv, Moves;
      NoMove(View());
      if brokerOrderId !in orders || !orders[brokerOrderId].order.IsOpen() { return Err(ScriptError); }
      r := ApplyFillStep(brokerOrderId, step);
    }

    method ExpireOrder(brokerOrderId: Text) returns (ok: bool)
      requires Valid()
      modifies this`orders, clock
      ensures Valid() && Moves(old(View()), View())
      ensures ok <==> brokerOrderId in old(orders) && old(orders)[brokerOrderId].order.IsOpen()
      ensures ok ==> orders[brokerOrderId].order.status == B_EXPIRED
      ensures !ok ==> orders == old(orders)
    {
      hide BrokerInv, Moves;
      NoMove(View());
      if brokerOrderId !in orders || !orders[brokerOrderId].order.IsOpen() { return false; }
      ok := Transition(brokerOrderId, B_EXPIRED);
    }

    method RevealOrder(clientOrderId: Text)
      modifies this`hiddenClientIds
      ensures hiddenClientIds == old(hiddenClientIds) - {clientOrderId}
    {
      hiddenClientIds := hiddenClientIds - {clientOrderId};
    }

    /** Scripts an observed status; a scripted FILLED would claim fills that were never recorded. */
    method ForceStatus(clientOrderId: Text, status: BrokerStatus) returns (ok: bool)
      requires Valid() && status != B_FILLED
      modifies this`orders, clock
      ensures Valid() && Moves(old(View()), View())
      ensures ok <==> clientOrderId in byClient && BrokerMayBecome(old(orders)[byClient[clientOrderId]].order.status, status)
      ensures ok ==> orders[byClient[clientOrderId]].order.status == status
      ensures !ok ==> orders == old(orders)
    {
      if clientOrderId !in byClient { return false; }
      ok := Transition(byClient[clientOrderId], status);
    }

    /** One broker-side event of any kind. */
    method DriftOnce()
      requires Valid()
      modifies this`orders, this`sequence, this`executions, this`hiddenClientIds, clock
      ensures Valid() && Moves(old(View()), View())
    {
      hide BrokerInv, Moves;
      var id: Text, client: Text, step: FillStep, status: BrokerStatus := *, *, *, *;
      if
      case true => var _ := ApplyFill(id, step);
      case true => var _ := ExpireOrder(id);
      case true => var _ := ResolvePendingCancel(id);
      case true => NoMove(View()); RevealOrder(client);
      case status != B_FILLED => var _ := ForceStatus(client, status);
    }

    /** Any number of broker-side events, as they may fall between two calls of a client. */
    method Drift()
      requires Valid()
      modifies this`orders, this`sequence, this`executions, this`hiddenClientIds, clock
      ensures Valid() && Moves(old(View()), View())
    {
      hide BrokerInv, Moves;
      ghost var start := View();
      NoMove(start);
      var events: int :| 0 <= events;
      for i := 0 to events
        invariant Valid() && Moves(start, View())
      {
        ghost var before := View();
        DriftOnce();
        MovesComposes(start, before, View());
      }
    }
  }
}
