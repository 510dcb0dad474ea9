// Absorbing one broker report: the order, its fills and the intent status they imply
// (src/seven_lens/application/execution_service.py:540-620).

module MirrorRefresh {
  import opened Orders
  import opened Sequences
  import opened FakeBroker
  import opened Persistence
  import opened ExecutionState

  // ---------------------------------------------------------------- the report as a whole

  /**
   * A response is absorbed only if every fill is bound to the order and an execution id
   * names one payload, within the response and against what is stored.
   */
  ghost predicate Consistent(have: seq<Fill>, b: Text, fills: seq<Fill>) {
    && (forall f :: f in fills ==> f.brokerOrderId == b)
    && (forall f, g :: f in fills && g in fills && f.executionId == g.executionId ==> f == g)
    && (forall f, g :: f in fills && g in have && f.executionId == g.executionId ==> f == g)
  }

  /** The intent never regresses while the broker still reports a plain live order. */
  function TargetStatus(current: OrderStatus, reported: BrokerStatus): OrderStatus {
    var target := StatusFor(reported);
    if target.ACKNOWLEDGED? && (current.PARTIALLY_FILLED? || current.CANCEL_PENDING?) then current else target
  }

  predicate TargetLegal(current: OrderStatus, reported: BrokerStatus) {
    var target := TargetStatus(current, reported);
    target == current || IntentMayBecome(current, target)
  }

  /** Mirror and fills absorbed, the intent not yet moved. */
  function Merged(db: Db, o: BrokerOrder, fills: seq<Fill>): Db {
    var recorded := Recorded(db, o);
    recorded.(fills := Absorbed(db.fills, fills))
  }

  function Refreshed(db: Db, c: Text, o: BrokerOrder, fills: seq<Fill>): Db
    requires c in db.intents
  {
    WithStatus(Merged(db, o, fills), c, TargetStatus(db.intents[c].status, o.status))
  }

  /** Which broker reports an accepted intent cannot follow: a cancel nobody asked for, or a late rejection. */
  lemma LiveIntentStuck(current: OrderStatus, reported: BrokerStatus)
    requires Live(current)
    ensures !TargetLegal(current, reported) <==>
            reported == B_REJECTED || (reported == B_CANCELED && current != CANCEL_PENDING)
  {
  }

  /** An intent still in flight can follow every report. */
  lemma InFlightFollowsAny(current: OrderStatus, reported: BrokerStatus)
    requires InFlight(current)
    ensures TargetLegal(current, reported) && TargetStatus(current, reported) == StatusFor(reported)
  {
  }

  // ---------------------------------------------------------------- absorbing fills

  lemma {:induction false} AbsorbedGrows(have: seq<Fill>, fills: seq<Fill>)
    ensures have <= Absorbed(have, fills)
    ensures DistinctIds(have) ==> DistinctIds(Absorbed(have, fills))
    ensures forall f :: f in fills ==> FindFill(Absorbed(have, fills), f.executionId).Some?
    ensures forall f :: f in Absorbed(have, fills) ==> f in have || f in fills
  {
    if fills != [] {
      var rest, last := fills[..|fills| - 1], fills[|fills| - 1];
      assert fills == rest + [last];
      AbsorbedGrows(have, rest);
      var before := Absorbed(have, rest);
      forall f | f in fills
        ensures FindFill(Kept(before, last), f.executionId).Some?
      {
        if f in rest { FindKept(before, last, f.executionId); }
        else { assert f == last; FoundLast(before, last); }
      }
    }
  }

  lemma FindKept(have: seq<Fill>, f: Fill, id: Text)
    requires FindFill(have, id).Some?
    ensures FindFill(Kept(have, f), id).Some?
  {
    var found := FindFill(have, id).value;
    assert found in Kept(have, f);
  }

  lemma FoundLast(have: seq<Fill>, f: Fill)
    ensures FindFill(Kept(have, f), f.executionId).Some?
  {
    if FindFill(have, f.executionId).None? { assert f in Kept(have, f); }
  }

  /** Absorbing what is already stored changes nothing. */
  lemma {:induction false} AbsorbAgain(have: seq<Fill>, fills: seq<Fill>)
    requires forall f :: f in fills ==> FindFill(have, f.executionId).Some?
    ensures Absorbed(have, fills) == have
  {
    if fills != [] { AbsorbAgain(have, fills[..|fills| - 1]); }
  }

  /** When the first `k` are stored and the others are new, exactly the others are appended. */
  lemma {:induction false} AbsorbTail(have: seq<Fill>, fills: seq<Fill>, k: nat)
    requires k <= |fills| && DistinctIds(fills)
    requires forall i :: 0 <= i < k ==> fills[i] in have
    requires forall i, g :: k <= i < |fills| && g in have ==> g.executionId != fills[i].executionId
    ensures Absorbed(have, fills) == have + fills[k..]
  {
    if |fills| == k {
      AbsorbAgain(have, fills);
    } else {
      var rest, last := fills[..|fills| - 1], fills[|fills| - 1];
      AbsorbTail(have, rest, k);
      assert fills[k..] == rest[k..] + [last];
      var before := Absorbed(have, rest);
      forall g | g in before
        ensures g.executionId != last.executionId
      {
        if g !in have {
          var i :| 0 <= i < |rest[k..]| && rest[k..][i] == g;
          assert fills[k + i] == g;
        }
      }
      assert FindFill(before, last.executionId).None?;
    }
  }

  // ---------------------------------------------------------------- a report of this broker

  /**
   * What one refresh works with: an order the broker reported, no older than the mirror,
   * and the order's fills, read no earlier than the order.
   */
  ghost predicate Seen(v: BrokerView, db: Db, o: BrokerOrder, fills: seq<Fill>) {
    && Past(v, o) && FilledExactly(o)
    && o.clientOrderId in db.intents
    && (o.brokerOrderId in db.mirrors ==> MirrorMayBecome(db.mirrors[o.brokerOrderId], o))
    && fills <= v.orders[o.brokerOrderId].fills
    && FillsOn(db.fills, o.brokerOrderId) <= fills
    && (o.status == B_FILLED ==> fills == v.orders[o.brokerOrderId].fills)
  }

  lemma FillsOnMembers(fills: seq<Fill>, b: Text)
    ensures forall f :: f in FillsOn(fills, b) <==> f in fills && f.brokerOrderId == b
  {
    FilterMembers(fills, OnOrder(b));
  }

  /** Two execution ids the broker handed out coincide only on one fill of one order. */
  lemma OwnedOnce(v: BrokerView, a: Text, i: nat, b: Text, j: nat)
    requires ExecutionsOwned(v) && a in v.orders && b in v.orders
    requires i < |v.orders[a].fills| && j < |v.orders[b].fills|
    requires v.orders[a].fills[i].executionId == v.orders[b].fills[j].executionId
    ensures a == b && i == j
  {
    assert FillOwned(v.executions, v.orders[a].fills[i], a, i);
    assert FillOwned(v.executions, v.orders[b].fills[j], b, j);
  }

  lemma ReportDistinct(v: BrokerView, b: Text, fills: seq<Fill>)
    requires ExecutionsOwned(v) && b in v.orders && fills <= v.orders[b].fills
    ensures DistinctIds(fills)
  {
    forall i, j | 0 <= i < j < |fills|
      ensures fills[i].executionId != fills[j].executionId
    {
      if fills[i].executionId == fills[j].executionId { OwnedOnce(v, b, i, b, j); }
    }
  }

  /** A stored fill with the id of the broker's `j`-th fill on `b` is that fill, stored on `b`. */
  lemma StoredIsBrokers(v: BrokerView, db: Db, g: Fill, b: Text, j: nat)
    requires BrokerInv(v) && Sound(v, db) && g in db.fills
    requires b in v.orders && j < |v.orders[b].fills| && g.executionId == v.orders[b].fills[j].executionId
    ensures g == v.orders[b].fills[j] && g.brokerOrderId == b && j < |FillsOn(db.fills, b)|
  {
    var a := g.brokerOrderId;
    FillsOnMembers(db.fills, a);
    assert a in db.mirrors && FillsOn(db.fills, a) <= v.orders[a].fills;
    var i :| 0 <= i < |FillsOn(db.fills, a)| && FillsOn(db.fills, a)[i] == g;
    assert v.orders[a].fills[i] == g;
    OwnedOnce(v, a, i, b, j);
  }

  /** The preflight never objects to this broker, and exactly the missing fills are appended. */
  lemma ReportAppends(v: BrokerView, db: Db, o: BrokerOrder, fills: seq<Fill>)
    requires BrokerInv(v) && Sound(v, db) && Seen(v, db, o, fills)
    ensures Consistent(db.fills, o.brokerOrderId, fills)
    ensures Absorbed(db.fills, fills) == db.fills + fills[|FillsOn(db.fills, o.brokerOrderId)|..]
  {
    hide BrokerInv, Sound, Seen, FillsOn, Absorbed, FindFill;
    var k := |FillsOn(db.fills, o.brokerOrderId)|;
    ReportedFills(v, db, o, fills);
    forall i, g | 0 <= i < |fills| && g in db.fills && g.executionId == fills[i].executionId
      ensures g == fills[i] && i < k
    {
      StoredAmongFirst(v, db, o, fills, i, g);
    }
    AbsorbTail(db.fills, fills, k);
  }

  /** The response names each execution once, on the order, and starts with what is stored. */
  lemma ReportedFills(v: BrokerView, db: Db, o: BrokerOrder, fills: seq<Fill>)
    requires BrokerInv(v) && Seen(v, db, o, fills)
    ensures DistinctIds(fills) && forall f :: f in fills ==> f.brokerOrderId == o.brokerOrderId
    ensures |FillsOn(db.fills, o.brokerOrderId)| <= |fills|
    ensures forall i :: 0 <= i < |FillsOn(db.fills, o.brokerOrderId)| ==> fills[i] in db.fills
  {
    var b := o.brokerOrderId;
    assert OrderStateValid(b, v.orders[b]);
    ReportDistinct(v, b, fills);
    OwnFills(v, b);
    FillsOnMembers(db.fills, b);
    hide BrokerInv, FillsOn, OrderStateValid, Past, MirrorMayBecome;
    forall f | f in fills ensures f in v.orders[b].fills { }
    forall i | 0 <= i < |FillsOn(db.fills, b)| ensures fills[i] in db.fills { assert fills[i] in FillsOn(db.fills, b); }
  }

  lemma StoredAmongFirst(v: BrokerView, db: Db, o: BrokerOrder, fills: seq<Fill>, i: nat, g: Fill)
    requires BrokerInv(v) && Sound(v, db) && Seen(v, db, o, fills)
    requires i < |fills| && g in db.fills && g.executionId == fills[i].executionId
    ensures g == fills[i] && i < |FillsOn(db.fills, o.brokerOrderId)|
  {
    hide BrokerInv, Sound, FillsOn, MirrorMayBecome;
    StoredIsBrokers(v, db, g, o.brokerOrderId, i);
  }

  lemma OwnFills(v: BrokerView, b: Text)
    requires b in v.orders && OrderStateValid(b, v.orders[b])
    ensures forall f :: f in v.orders[b].fills ==> f.brokerOrderId == b
  {
  }

  /** After a refresh the recorded fills of the order are the broker's; no other order's change. */
  lemma MergeEqualizes(v: BrokerView, db: Db, o: BrokerOrder, fills: seq<Fill>, b: Text)
    requires BrokerInv(v) && Sound(v, db) && Seen(v, db, o, fills)
    ensures FillsOn(Merged(db, o, fills).fills, b) == if b == o.brokerOrderId then fills else FillsOn(db.fills, b)
  {
    hide BrokerInv, Sound, Absorbed, Past, FindFill;
    ReportAppends(v, db, o, fills);
    var k := |FillsOn(db.fills, o.brokerOrderId)|;
    FilterConcat(db.fills, fills[k..], OnOrder(b));
    if b == o.brokerOrderId {
      KeepAll(fills[k..], b);
      assert fills == fills[..k] + fills[k..];
    } else {
      NoFillsWithoutMirror(fills[k..], b);
    }
  }

  lemma {:induction false} KeepAll(fills: seq<Fill>, b: Text)
    requires forall f :: f in fills ==> f.brokerOrderId == b
    ensures FillsOn(fills, b) == fills
  {
    if fills != [] {
      KeepAll(fills[..|fills| - 1], b);
      assert fills == fills[..|fills| - 1] + [fills[|fills| - 1]];
    }
  }

  // ---------------------------------------------------------------- what a refresh keeps

  lemma MergeTables(db: Db, o: BrokerOrder, fills: seq<Fill>)
    requires Tables(db) && RecordError(db, o) == None
    requires forall f :: f in fills ==> f.brokerOrderId == o.brokerOrderId
    ensures Tables(Merged(db, o, fills))
  {
    RecordKeepsTables(db, o);
    AbsorbedGrows(db.fills, fills);
  }

  lemma MergeMirrorsPast(v: BrokerView, db: Db, o: BrokerOrder, fills: seq<Fill>)
    requires BrokerInv(v) && Sound(v, db) && Seen(v, db, o, fills)
    ensures MirrorsPast(v, Merged(db, o, fills))
  {
    var next := Merged(db, o, fills);
    forall b | b in next.mirrors
      ensures Past(v, next.mirrors[b]) && b in v.orders && FillsOn(next.fills, b) <= v.orders[b].fills
    {
      MergeEqualizes(v, db, o, fills, b);
      hide BrokerInv, Absorbed, FillsOn, Tables, TerminalTruth, SubmittedKnown;
      assert b != o.brokerOrderId ==> Past(v, db.mirrors[b]);
    }
  }

  lemma MergeTruth(v: BrokerView, db: Db, o: BrokerOrder, fills: seq<Fill>)
    requires BrokerInv(v) && Sound(v, db) && Seen(v, db, o, fills)
    ensures TerminalTruth(v, Merged(db, o, fills))
  {
    hide BrokerInv, Sound, Seen, Truthful;
    var next := Merged(db, o, fills);
    forall c | c in next.intents
      ensures Truthful(v, next, c, next.intents[c].status)
    {
      TruthAfterMerge(v, db, o, fills, c);
    }
  }

  lemma TruthAfterMerge(v: BrokerView, db: Db, o: BrokerOrder, fills: seq<Fill>, c: Text)
    requires BrokerInv(v) && Sound(v, db) && Seen(v, db, o, fills) && c in db.intents
    ensures Truthful(v, Merged(db, o, fills), c, db.intents[c].status)
  {
    assert Truthful(v, db, c, db.intents[c].status);
    hide BrokerInv, Sound, FillsOn, Absorbed, MirrorMayBecome;
    if c in v.byClient { MergeEqualizes(v, db, o, fills, v.byClient[c]); }
  }

  lemma MergeSound(v: BrokerView, db: Db, o: BrokerOrder, fills: seq<Fill>)
    requires BrokerInv(v) && Sound(v, db) && Seen(v, db, o, fills)
    ensures RecordError(db, o) == None
    ensures Sound(v, Merged(db, o, fills))
  {
    ReportIsRecordable(v, db, o);
    ReportAppends(v, db, o, fills);
    MergeTables(db, o, fills);
    MergeMirrorsPast(v, db, o, fills);
    MergeTruth(v, db, o, fills);
  }

  lemma ReportedTruth(v: BrokerView, db: Db, o: BrokerOrder, fills: seq<Fill>)
    requires BrokerInv(v) && Sound(v, db) && Seen(v, db, o, fills)
    ensures Truthful(v, Merged(db, o, fills), o.clientOrderId,
                     TargetStatus(db.intents[o.clientOrderId].status, o.status))
  {
    TruthAfterMerge(v, db, o, fills, o.clientOrderId);
    MergeEqualizes(v, db, o, fills, o.brokerOrderId);
    ReportStands(v, o);
    hide BrokerInv, Sound, FillsOn, Absorbed, MirrorMayBecome, Truthful, TargetStatus;
    TargetIsTrue(v, Merged(db, o, fills), o, db.intents[o.clientOrderId].status);
  }

  /** The status a refresh aims at says of the broker no more than the report did. */
  lemma TargetIsTrue(v: BrokerView, next: Db, o: BrokerOrder, current: OrderStatus)
    requires o.clientOrderId in v.byClient && v.byClient[o.clientOrderId] == o.brokerOrderId
    requires o.brokerOrderId in v.orders
    requires BrokerTerminal(o.status) ==> v.orders[o.brokerOrderId].order.status == o.status
    requires o.status == B_FILLED ==> FillsOn(next.fills, o.brokerOrderId) == v.orders[o.brokerOrderId].fills
    requires o.clientOrderId in next.mirrorByClient
    requires Truthful(v, next, o.clientOrderId, current)
    ensures Truthful(v, next, o.clientOrderId, TargetStatus(current, o.status))
  {
    hide FillsOn;
  }

  /** A terminal report is the broker's last word; a report names the order of its client id. */
  lemma ReportStands(v: BrokerView, o: BrokerOrder)
    requires ClientsIndexed(v) && Past(v, o)
    ensures o.clientOrderId in v.byClient && v.byClient[o.clientOrderId] == o.brokerOrderId
    ensures BrokerTerminal(o.status) ==> v.orders[o.brokerOrderId].order.status == o.status
  {
    assert v.orders[o.brokerOrderId].order.clientOrderId == o.clientOrderId;
  }

  lemma RefreshSound(v: BrokerView, db: Db, o: BrokerOrder, fills: seq<Fill>)
    requires BrokerInv(v) && Sound(v, db) && Seen(v, db, o, fills)
    requires TargetLegal(db.intents[o.clientOrderId].status, o.status)
    ensures Sound(v, Refreshed(db, o.clientOrderId, o, fills))
  {
    MergeSound(v, db, o, fills);
    ReportedTruth(v, db, o, fills);
    SoundUnderTransition(v, Merged(db, o, fills), o.clientOrderId,
                         TargetStatus(db.intents[o.clientOrderId].status, o.status));
  }

  lemma RecordedAgain(db: Db, o: BrokerOrder)
    requires o.brokerOrderId in db.mirrors && db.mirrors[o.brokerOrderId] == o && FilledExactly(o)
    requires o.clientOrderId in db.mirrorByClient && db.mirrorByClient[o.clientOrderId] == o.brokerOrderId
    ensures RecordError(db, o) == None && Recorded(db, o) == db
  {
  }

  lemma StatusAgain(db: Db, c: Text)
    requires c in db.intents
    ensures WithStatus(db, c, db.intents[c].status) == db
  {
  }

  lemma TargetSettles(current: OrderStatus, reported: BrokerStatus)
    ensures TargetStatus(TargetStatus(current, reported), reported) == TargetStatus(current, reported)
  {
  }

  /** Repeating a refresh with the same report is legal and changes nothing. */
  lemma RefreshIdempotent(db: Db, c: Text, o: BrokerOrder, fills: seq<Fill>)
    requires c in db.intents && RecordError(db, o) == None
    ensures var once := Refreshed(db, c, o, fills);
            && TargetLegal(once.intents[c].status, o.status)
            && RecordError(once, o) == None
            && Refreshed(once, c, o, fills) == once
  {
    var once := Refreshed(db, c, o, fills);
    AbsorbedGrows(db.fills, fills);
    AbsorbAgain(Absorbed(db.fills, fills), fills);
    assert FilledExactly(o);
    TargetSettles(db.intents[c].status, o.status);
    RecordedAgain(once, o);
    StatusAgain(once, c);
    hide Absorbed, TargetStatus, RecordError, Recorded, WithStatus, StatusFor, BrokerMayBecome, FindFill;
  }
}
