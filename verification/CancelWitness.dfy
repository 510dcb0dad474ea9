// Two failed cancellations that do change the tables, against a broker that keeps its invariant
// (src/seven_lens/application/execution_service.py:260-286, 334-358).

module CancelWitness {
  import opened Orders
  import opened FakeBroker
  import opened Persistence
  import opened ExecutionState
  import opened MirrorRefresh
  import opened CancelEffects

  /** The first order this broker ever recorded, for `i`. */
  function OrderFor(i: OrderIntent, status: BrokerStatus): BrokerOrder {
    BrokerOrder(OrderIdText(1), i.clientOrderId, i.symbol, i.side, i.quantity, 0, i.limitPrice, status, 0, 0)
  }

  function Shop(i: OrderIntent, status: BrokerStatus): BrokerView {
    var b := OrderIdText(1);
    BrokerView(map[b := OrderState(OrderFor(i, status), [])], map[i.clientOrderId := b],
               map[i.clientOrderId := ParamsOf(i)], {}, 1, map[], 0)
  }

  /** The same order, mirrored when it was accepted. */
  function Books(i: OrderIntent): Db {
    var b := OrderIdText(1);
    Db(map[i.clientOrderId := i], map[b := OrderFor(i, B_ACCEPTED)], map[i.clientOrderId := b], [], false, [], 0)
  }

  lemma ShopIsValid(i: OrderIntent, status: BrokerStatus)
    requires status != B_FILLED
    ensures BrokerInv(Shop(i, status))
  {
    hide OrderIdText, ExecutionIdText, Padded;
    var v := Shop(i, status);
    forall n: nat | 1 < n ensures OrderIdText(n) !in v.orders { OrderIdsDiffer(n, 1); }
  }

  lemma BooksAreSound(i: OrderIntent, reported: BrokerStatus)
    requires i.status == ACKNOWLEDGED || i.status == CANCEL_PENDING
    requires BrokerReaches(B_ACCEPTED, reported)
    ensures Sound(Shop(i, reported), Books(i))
  {
    hide OrderIdText, Padded;
    var v, s := Shop(i, reported), Books(i);
    assert FillsOn(s.fills, OrderIdText(1)) == [];
  }

  /** No answer to the cancel of an acknowledged order: CANCEL_PENDING stays behind. */
  lemma TimeoutLeavesPending(i: OrderIntent)
    requires i.status == ACKNOWLEDGED
    ensures var v, s, step := Shop(i, B_ACCEPTED), Books(i), CancelStep(i.clientOrderId, None, []);
            && BrokerInv(v) && Sound(v, s) && StepShown(v, step) && CancelFailed(step)
            && AfterCancel(s, step) == Books(i.(status := CANCEL_PENDING)) != s
  {
    hide OrderIdText, BrokerInv, Sound;
    ShopIsValid(i, B_ACCEPTED);
    BooksAreSound(i, B_ACCEPTED);
    assert Books(i).intents[i.clientOrderId].status != Books(i.(status := CANCEL_PENDING)).intents[i.clientOrderId].status;
  }

  /** The broker rejects the order late: its mirror stays behind, the intent does not follow. */
  lemma RejectionLeavesMirror(i: OrderIntent)
    requires i.status == CANCEL_PENDING
    ensures var v, s, step := Shop(i, B_REJECTED), Books(i), CancelStep(i.clientOrderId, Some(OrderFor(i, B_REJECTED)), []);
            && BrokerInv(v) && Sound(v, s) && StepShown(v, step) && CancelFailed(step)
            && AfterCancel(s, step) == s.(mirrors := map[OrderIdText(1) := OrderFor(i, B_REJECTED)]) != s
  {
    hide OrderIdText, BrokerInv, Sound;
    ShopIsValid(i, B_REJECTED);
    BooksAreSound(i, B_REJECTED);
    var s, b := Books(i), OrderIdText(1);
    StatusAgain(s, i.clientOrderId);
    assert s.mirrors[b] != OrderFor(i, B_REJECTED);
    assert map[b := OrderFor(i, B_REJECTED)][b] == OrderFor(i, B_REJECTED);
  }
}
