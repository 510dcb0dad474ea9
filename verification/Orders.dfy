// Order intents, broker orders, fills and the two closed status maps
// (src/seven_lens/execution/orders.py).

module Orders {

  /** Success or the error an operation raises. */
  datatype Result<+T, +E> = Ok(value: T) | Err(error: E)

  datatype Option<+T> = None | Some(value: T)

  type Text = string

  type Shares = n: int | 0 < n witness 1

  /** A price in whole cents; `Price` allows 0.01 up to 10,000,000.00. */
  type Cents = n: int | 0 < n <= 1_000_000_000 witness 1

  /** UTC time in microseconds. */
  type Time = int

  datatype OrderSide = BUY | SELL

  datatype IntentType = REBALANCE | RISK_EXIT

  datatype OrderStatus =
    | CREATED | RISK_APPROVED | OUTBOX_PENDING | SUBMITTING
    | ACKNOWLEDGED | PARTIALLY_FILLED | FILLED
    | CANCEL_PENDING | CANCELED
    | REJECTED | EXPIRED | UNKNOWN | REVIEW_REQUIRED

  datatype BrokerStatus =
    | B_RECEIVED | B_ACCEPTED | B_ACCEPTED_FOR_BIDDING
    | B_PARTIALLY_FILLED | B_FILLED | B_PENDING_CANCEL
    | B_CANCELED | B_EXPIRED | B_REJECTED
    | B_DONE_FOR_DAY | B_REPLACED | B_PENDING_REPLACE
    | B_STOPPED | B_SUSPENDED | B_CALCULATED

  datatype OrderIntent = OrderIntent(
    intentId: Text,
    clientOrderId: Text,
    symbol: Text,
    side: OrderSide,
    quantity: Shares,
    intentType: IntentType,
    limitPrice: Cents,
    cancelAt: Time,
    status: OrderStatus)

  datatype BrokerOrder = BrokerOrder(
    brokerOrderId: Text,
    clientOrderId: Text,
    symbol: Text,
    side: OrderSide,
    quantity: Shares,
    filledQuantity: nat,
    limitPrice: Cents,
    status: BrokerStatus,
    submittedAt: Time,
    updatedAt: Time)
  {
    predicate IsOpen() {
      BrokerOpen(status)
    }
  }

  datatype Fill = Fill(
    executionId: Text,
    brokerOrderId: Text,
    quantity: Shares,
    price: Cents,
    occurredAt: Time)

  ghost predicate DistinctIds(fills: seq<Fill>) {
    forall i, j :: 0 <= i < j < |fills| ==> fills[i].executionId != fills[j].executionId
  }

  // ---------------------------------------------------------------- the status maps

  predicate Terminal(s: OrderStatus) {
    s.FILLED? || s.CANCELED? || s.REJECTED? || s.EXPIRED?
  }

  /** The statuses of an intent that was never handed to the broker. */
  predicate PreBroker(s: OrderStatus) {
    s.CREATED? || s.RISK_APPROVED? || s.OUTBOX_PENDING?
  }

  predicate IntentMayBecome(current: OrderStatus, target: OrderStatus) {
    match current
    case CREATED => target.RISK_APPROVED? || target.REJECTED? || target.EXPIRED?
    case RISK_APPROVED => target.OUTBOX_PENDING? || target.EXPIRED?
    case OUTBOX_PENDING => target.SUBMITTING? || target.EXPIRED?
    case SUBMITTING => !PreBroker(target) && !target.SUBMITTING?
    case UNKNOWN => !PreBroker(target) && !target.SUBMITTING? && !target.UNKNOWN?
    case ACKNOWLEDGED =>
      target.PARTIALLY_FILLED? || target.FILLED? || target.CANCEL_PENDING? || target.EXPIRED? || target.REVIEW_REQUIRED?
    case PARTIALLY_FILLED =>
      target.PARTIALLY_FILLED? || target.FILLED? || target.CANCEL_PENDING? || target.EXPIRED? || target.REVIEW_REQUIRED?
    case CANCEL_PENDING =>
      target.PARTIALLY_FILLED? || target.FILLED? || target.CANCELED? || target.EXPIRED? || target.REVIEW_REQUIRED?
    case FILLED => target.REVIEW_REQUIRED?
    case CANCELED => target.REVIEW_REQUIRED?
    case REJECTED => target.REVIEW_REQUIRED?
    case EXPIRED => target.REVIEW_REQUIRED?
    case REVIEW_REQUIRED => false
  }

  predicate BrokerTerminal(s: BrokerStatus) {
    s.B_FILLED? || s.B_CANCELED? || s.B_EXPIRED? || s.B_REJECTED?
  }

  predicate BrokerReview(s: BrokerStatus) {
    s.B_DONE_FOR_DAY? || s.B_REPLACED? || s.B_PENDING_REPLACE? || s.B_STOPPED? || s.B_SUSPENDED? || s.B_CALCULATED?
  }

  predicate BrokerOpen(s: BrokerStatus) {
    !BrokerTerminal(s) && !BrokerReview(s)
  }

  /**
   * The broker map: only an open status moves.  RECEIVED may become anything else; the
   * other open statuses may become anything but the three fresh ones.
   */
  predicate BrokerMayBecome(current: BrokerStatus, target: BrokerStatus) {
    BrokerOpen(current) && !target.B_RECEIVED? && (current.B_RECEIVED? || !BrokerFresh(target))
  }

  predicate BrokerFresh(s: BrokerStatus) {
    s.B_RECEIVED? || s.B_ACCEPTED? || s.B_ACCEPTED_FOR_BIDDING?
  }

  /** Zero or more broker status changes; the database guard also lets a status stay. */
  predicate BrokerReaches(current: BrokerStatus, target: BrokerStatus) {
    current == target || BrokerMayBecome(current, target)
  }

  /**
   * A mirror that missed any number of broker changes can still be refreshed: two
   * legal changes in a row are one legal change.
   */
  lemma BrokerReachesComposes(a: BrokerStatus, b: BrokerStatus, c: BrokerStatus)
    requires BrokerReaches(a, b) && BrokerReaches(b, c)
    ensures BrokerReaches(a, c)
  {
  }

  function StatusFor(s: BrokerStatus): OrderStatus {
    match s
    case B_RECEIVED => ACKNOWLEDGED
    case B_ACCEPTED => ACKNOWLEDGED
    case B_ACCEPTED_FOR_BIDDING => ACKNOWLEDGED
    case B_PARTIALLY_FILLED => PARTIALLY_FILLED
    case B_FILLED => FILLED
    case B_PENDING_CANCEL => CANCEL_PENDING
    case B_CANCELED => CANCELED
    case B_EXPIRED => EXPIRED
    case B_REJECTED => REJECTED
    case _ => REVIEW_REQUIRED
  }

  // ---------------------------------------------------------------- text order

  /** Lexicographic order on text, as Python compares strings. */
  predicate TextLeq(a: Text, b: Text) {
    a == "" || (b != "" && (a[0] < b[0] || (a[0] == b[0] && TextLeq(a[1..], b[1..]))))
  }

  lemma {:induction false} TextTotal(a: Text, b: Text)
    ensures TextLeq(a, b) || TextLeq(b, a)
  {
    if a != "" && b != "" && a[0] == b[0] { TextTotal(a[1..], b[1..]); }
  }

  lemma {:induction false} TextTransitive(a: Text, b: Text, c: Text)
    requires TextLeq(a, b) && TextLeq(b, c)
    ensures TextLeq(a, c)
  {
    if a != "" && b[0] == a[0] && c[0] == a[0] { TextTransitive(a[1..], b[1..], c[1..]); }
  }

  lemma {:induction false} TextAntisymmetric(a: Text, b: Text)
    requires TextLeq(a, b) && TextLeq(b, a)
    ensures a == b
  {
    if a != "" {
      TextAntisymmetric(a[1..], b[1..]);
      assert a == [a[0]] + a[1..] && b == [b[0]] + b[1..];
    }
  }
}
