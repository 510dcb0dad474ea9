// What one reconciliation run reports (src/seven_lens/execution/reconciliation.py).

module Reports {
  import opened Orders

  datatype Scope = PARTIAL | FULL

  datatype MismatchKind =
    | NON_PAPER_ACCOUNT | UNKNOWN_BROKER_ORDER | MISSING_BROKER_ORDER | PARAMETER_MISMATCH
    | STATUS_MISMATCH | INTENT_STATUS_MISMATCH | BROKER_QUERY_FAILURE | MISSING_LOCAL_FILL
    | POSITION_QUANTITY_MISMATCH | POSITION_SYMBOL_MISMATCH | LOCAL_LEDGER_INVARIANT
    | ACCOUNT_ID_MISMATCH | CASH_MISMATCH | NAV_MISMATCH | BUYING_POWER_MISMATCH
    | ACCOUNT_RECONCILIATION_UNAVAILABLE

  datatype Mismatch = Mismatch(kind: MismatchKind, detail: Text)

  /** The status is derived: a run is CLEAN exactly when it found no mismatch. */
  datatype ReconciliationResult = ReconciliationResult(
    mismatches: seq<Mismatch>,
    checkedOrders: nat,
    checkedFills: nat,
    observedAt: Time,
    scope: Scope)
  {
    predicate Clean() { mismatches == [] }

    predicate ResumeSafe() { Clean() && scope == FULL }
  }
}
