// Retry and circuit-breaker accounting of the live evaluation
// (src/seven_lens/evals/provider_eval.py:744-873, 1485-1503).

module LiveEval {
  import opened Orders
  import opened Sequences

  const MAX_RETRIES := 2
  const MAX_ATTEMPTS := 3
  const BREAKER := 3

  /** How one POST ended. */
  datatype AttemptResult = Parsed | Failure(code: Text)

  datatype Record = PreNetworkReject(caseId: Text) | Posted(ordinal: nat, caseId: Text, caseAttempt: nat, result: AttemptResult)

  /** A selected case; an invalid one has no blind contract and is never posted. */
  datatype EvalCase = EvalCase(caseId: Text, valid: bool)

  /** The budget fields `from_json` fixes: three attempts for every production-valid case. */
  datatype Authorization = Authorization(requestCap: nat, attemptCap: nat, retryable: set<Text>)
  {
    predicate FromJson() { requestCap >= 1 && attemptCap == requestCap * MAX_ATTEMPTS }
  }

  datatype Ending = Completed | WrongCount | CapReached | BreakerOpened | StoppedOnError

  // ---------------------------------------------------------------- attempts of one case

  predicate Retried(a: Authorization, r: AttemptResult) {
    r.Failure? && r.code in a.retryable
  }

  /** Retryable failures, then at most one other outcome; a short block did end otherwise. */
  predicate WellFormed(a: Authorization, block: seq<AttemptResult>) {
    && 1 <= |block| <= MAX_ATTEMPTS
    && (forall i :: 0 <= i < |block| - 1 ==> Retried(a, block[i]))
    && (|block| < MAX_ATTEMPTS ==> !Retried(a, block[|block| - 1]))
  }

  predicate Exhausted(a: Authorization, block: seq<AttemptResult>) {
    |block| == MAX_ATTEMPTS && Retried(a, block[MAX_ATTEMPTS - 1])
  }

  predicate EndsInError(a: Authorization, block: seq<AttemptResult>) {
    block != [] && block[|block| - 1].Failure? && !Retried(a, block[|block| - 1])
  }

  // ---------------------------------------------------------------- the whole run

  function ValidCases(cases: seq<EvalCase>): seq<EvalCase> {
    Filter(cases, (c: EvalCase) => c.valid)
  }

  function Rejects(cases: seq<EvalCase>): seq<Record> {
    if cases == [] then []
    else
      Rejects(cases[..|cases| - 1])
      + (if cases[|cases| - 1].valid then [] else [PreNetworkReject(cases[|cases| - 1].caseId)])
  }

  /** POSTs made for the first cases. */
  function Attempts(blocks: seq<seq<AttemptResult>>): nat {
    if blocks == [] then 0 else Attempts(blocks[..|blocks| - 1]) + |blocks[|blocks| - 1]|
  }

  function Retries(blocks: seq<seq<AttemptResult>>): nat {
    if blocks == [] then 0
    else Retries(blocks[..|blocks| - 1]) + (if blocks[|blocks| - 1] == [] then 0 else |blocks[|blocks| - 1]| - 1)
  }

  function BlockRecords(caseId: Text, posted: nat, block: seq<AttemptResult>): seq<Record> {
    seq(|block|, i requires 0 <= i < |block| => Posted(posted + i + 1, caseId, i + 1, block[i]))
  }

  /** The audit records of the posted cases, in order, numbered through. */
  function RecordsOf(cases: seq<EvalCase>, blocks: seq<seq<AttemptResult>>): seq<Record>
    requires |blocks| <= |cases|
  {
    if blocks == [] then []
    else
      var n := |blocks| - 1;
      RecordsOf(cases, blocks[..n]) + BlockRecords(cases[n].caseId, Attempts(blocks[..n]), blocks[n])
  }

  /** The `BREAKER` cases ending at `k` all exhausted their retries. */
  predicate Tripped(a: Authorization, blocks: seq<seq<AttemptResult>>, k: nat) {
    BREAKER <= k <= |blocks| && forall i :: k - BREAKER <= i < k ==> Exhausted(a, blocks[i])
  }

  /** What the posted cases look like, and why the run ended where it did. */
  ghost predicate Accounted(a: Authorization, valid: seq<EvalCase>, blocks: seq<seq<AttemptResult>>, ending: Ending) {
    && |blocks| <= |valid|
    && (forall i :: 0 <= i < |blocks| ==> WellFormed(a, blocks[i]))
    && (forall i :: 0 <= i < |blocks| - 1 ==> !EndsInError(a, blocks[i]))
    && (forall k :: 0 <= k < |blocks| ==> !Tripped(a, blocks, k))
    && (ending == BreakerOpened <==> Tripped(a, blocks, |blocks|))
    && (ending == StoppedOnError <==> blocks != [] && EndsInError(a, blocks[|blocks| - 1]))
    && (ending == Completed ==> |blocks| == |valid|)
    && (ending == Completed || ending == BreakerOpened || ending == StoppedOnError)
  }

  /** The same while the run still goes on. */
  ghost predicate Running(a: Authorization, valid: seq<EvalCase>, blocks: seq<seq<AttemptResult>>, exhausted: nat) {
    && |blocks| <= |valid|
    && (forall i :: 0 <= i < |blocks| ==> WellFormed(a, blocks[i]) && !EndsInError(a, blocks[i]))
    && (forall k :: 0 <= k <= |blocks| ==> !Tripped(a, blocks, k))
    && exhausted < BREAKER && exhausted <= |blocks|
    && (forall i :: |blocks| - exhausted <= i < |blocks| ==> Exhausted(a, blocks[i]))
    && (exhausted < |blocks| ==> !Exhausted(a, blocks[|blocks| - exhausted - 1]))
  }

  lemma {:induction false} AttemptsBounded(a: Authorization, blocks: seq<seq<AttemptResult>>)
    requires forall i :: 0 <= i < |blocks| ==> WellFormed(a, blocks[i])
    ensures |blocks| <= Attempts(blocks) <= |blocks| * MAX_ATTEMPTS
    ensures Attempts(blocks) == |blocks| + Retries(blocks)
  {
    if blocks != [] { AttemptsBounded(a, blocks[..|blocks| - 1]); }
  }

  lemma NextBlock(a: Authorization, valid: seq<EvalCase>, blocks: seq<seq<AttemptResult>>, exhausted: nat,
                  block: seq<AttemptResult>)
    requires Running(a, valid, blocks, exhausted) && |blocks| < |valid| && WellFormed(a, block)
    ensures EndsInError(a, block) ==> Accounted(a, valid, blocks + [block], StoppedOnError)
    ensures Exhausted(a, block) && exhausted + 1 == BREAKER ==> Accounted(a, valid, blocks + [block], BreakerOpened)
    ensures Exhausted(a, block) && exhausted + 1 < BREAKER ==> Running(a, valid, blocks + [block], exhausted + 1)
    ensures !Exhausted(a, block) && !EndsInError(a, block) ==> Running(a, valid, blocks + [block], 0)
  {
    var more := blocks + [block];
    forall k | 0 <= k <= |blocks| ensures !Tripped(a, more, k) {
      if Tripped(a, more, k) {
        assert forall i :: k - BREAKER <= i < k ==> more[i] == blocks[i];
        assert Tripped(a, blocks, k);
      }
    }
    assert forall i :: 0 <= i < |blocks| ==> more[i] == blocks[i];
    if Exhausted(a, block) && exhausted + 1 == BREAKER { assert Tripped(a, more, |more|); }
    if exhausted + 1 < BREAKER && exhausted < |blocks| { assert !Exhausted(a, more[|blocks| - exhausted - 1]); }
    assert more[|more| - 1] == block;
  }

  /** Even three attempts for every remaining case fit the cap. */
  lemma NextCaseFits(a: Authorization, valid: seq<EvalCase>, blocks: seq<seq<AttemptResult>>, exhausted: nat)
    requires a.FromJson() && |valid| == a.requestCap && Running(a, valid, blocks, exhausted) && |blocks| < |valid|
    ensures Attempts(blocks) + MAX_ATTEMPTS <= a.attemptCap
  {
    AttemptsBounded(a, blocks);
    assert (|blocks| + 1) * MAX_ATTEMPTS <= a.attemptCap;
  }

  lemma EmptyRun(a: Authorization, valid: seq<EvalCase>)
    ensures Running(a, valid, [], 0) && Attempts([]) == 0 && RecordsOf(valid, []) == []
  {
  }

  lemma RunEnds(a: Authorization, valid: seq<EvalCase>, blocks: seq<seq<AttemptResult>>, exhausted: nat)
    requires Running(a, valid, blocks, exhausted) && |blocks| == |valid|
    ensures Accounted(a, valid, blocks, Completed)
  {
  }

  lemma BlockAdds(valid: seq<EvalCase>, blocks: seq<seq<AttemptResult>>, block: seq<AttemptResult>)
    requires |blocks| < |valid|
    ensures Attempts(blocks + [block]) == Attempts(blocks) + |block|
    ensures RecordsOf(valid, blocks + [block])
            == RecordsOf(valid, blocks) + BlockRecords(valid[|blocks|].caseId, Attempts(blocks), block)
  {
    assert (blocks + [block])[..|blocks|] == blocks;
  }

  /** The last attempt of a case tells how the case ended. */
  lemma LastAttempt(a: Authorization, block: seq<AttemptResult>)
    requires WellFormed(a, block)
    ensures Exhausted(a, block) <==> Retried(a, block[|block| - 1])
    ensures EndsInError(a, block) <==> block[|block| - 1].Failure? && !Retried(a, block[|block| - 1])
  {
  }

  // ---------------------------------------------------------------- the loop

  /** One POST of the executor: whatever came of it. */
  method PostOnce(caseId: Text) returns (r: AttemptResult)
  {
    r := *;
  }

  /** Posts one case until it ends or its retries are used up. */
  method PostCase(a: Authorization, caseId: Text, posted: nat)
    returns (block: seq<AttemptResult>, records: seq<Record>, capped: bool)
    ensures capped ==> posted + |block| >= a.attemptCap
    ensures !capped ==> WellFormed(a, block)
    ensures |block| < MAX_ATTEMPTS || !capped
    ensures records == BlockRecords(caseId, posted, block)
  {
    block, records, capped := [], [], false;
    while true
      invariant |block| < MAX_ATTEMPTS && forall i :: 0 <= i < |block| ==> Retried(a, block[i])
      invariant records == BlockRecords(caseId, posted, block)
      decreases MAX_ATTEMPTS - |block|
    {
      var attempt := |block| + 1;
      if posted + attempt > a.attemptCap { capped := true; return; }
      var r := PostOnce(caseId);
      block, records := block + [r], records + [Posted(posted + attempt, caseId, attempt, r)];
      if !(r.Failure? && r.code in a.retryable && attempt <= MAX_RETRIES) { return; }
    }
  }

  /** Every case is checked before the first POST; an invalid one is recorded and never posted. */
  method CheckCases(cases: seq<EvalCase>) returns (valid: seq<EvalCase>, records: seq<Record>)
    ensures valid == ValidCases(cases) && records == Rejects(cases)
  {
    valid, records := [], [];
    for i := 0 to |cases|
      invariant records == Rejects(cases[..i])
      invariant valid == ValidCases(cases[..i])
    {
      assert cases[..i + 1][..i] == cases[..i];
      if cases[i].valid { valid := valid + [cases[i]]; }
      else { records := records + [PreNetworkReject(cases[i].caseId)]; }
    }
    assert cases[..|cases|] == cases;
  }

  /**
   * The run: with the budget `from_json` grants, the attempt cap is never what stops it; the
   * breaker opens exactly at the first three posted cases in a row that exhausted their retries.
   */
  method Execute(a: Authorization, cases: seq<EvalCase>)
    returns (ending: Ending, records: seq<Record>, blocks: seq<seq<AttemptResult>>)
    requires a.FromJson()
    ensures ending != CapReached
    ensures ending == WrongCount <==> |ValidCases(cases)| != a.requestCap
    ensures ending == WrongCount ==> blocks == []
    ensures ending != WrongCount ==> Accounted(a, ValidCases(cases), blocks, ending)
    ensures |blocks| <= |ValidCases(cases)| && records == Rejects(cases) + RecordsOf(ValidCases(cases), blocks)
  {
    var valid;
    valid, records := CheckCases(cases);
    blocks := [];
    if |valid| != a.requestCap { return WrongCount, records, blocks; }
    EmptyRun(a, valid);
    hide Running, Accounted, Tripped, Exhausted, EndsInError, Attempts, RecordsOf, BlockRecords, Rejects, ValidCases;
    ghost var rejects := records;
    var posted, exhausted := 0, 0;
    for i := 0 to |valid|
      invariant |blocks| == i && Running(a, valid, blocks, exhausted)
      invariant posted == Attempts(blocks) && records == rejects + RecordsOf(valid, blocks)
    {
      NextCaseFits(a, valid, blocks, exhausted);
      var block, made, capped := PostCase(a, valid[i].caseId, posted);
      if capped { assert false; }
      NextBlock(a, valid, blocks, exhausted, block);
      BlockAdds(valid, blocks, block);
      LastAttempt(a, block);
      blocks, records, posted := blocks + [block], records + made, posted + |block|;
      var last := block[|block| - 1];
      if last.Failure? && last.code in a.retryable {
        exhausted := exhausted + 1;
        if exhausted >= BREAKER { return BreakerOpened, records, blocks; }
      } else if last.Failure? {
        return StoppedOnError, records, blocks;
      } else {
        exhausted := 0;
      }
    }
    RunEnds(a, valid, blocks, exhausted);
    ending := Completed;
  }

  // ---------------------------------------------------------------- what the records count

  predicate IsPosted(r: Record) { r.Posted? }

  function PostedCount(): Record -> int {
    (r: Record) => if r.Posted? then 1 else 0
  }

  lemma {:induction false} BlockCount(caseId: Text, posted: nat, block: seq<AttemptResult>)
    ensures SumBy(BlockRecords(caseId, posted, block), PostedCount()) == |block|
  {
    if block != [] {
      var rest, records := block[..|block| - 1], BlockRecords(caseId, posted, block);
      BlockCount(caseId, posted, rest);
      assert records == BlockRecords(caseId, posted, rest) + [records[|block| - 1]];
      SumByAppend(BlockRecords(caseId, posted, rest), records[|block| - 1], PostedCount());
    }
  }

  lemma {:induction false} PostedRecords(valid: seq<EvalCase>, blocks: seq<seq<AttemptResult>>)
    requires |blocks| <= |valid|
    ensures SumBy(RecordsOf(valid, blocks), PostedCount()) == Attempts(blocks)
  {
    if blocks != [] {
      var n := |blocks| - 1;
      PostedRecords(valid, blocks[..n]);
      BlockCount(valid[n].caseId, Attempts(blocks[..n]), blocks[n]);
      SumByConcat(RecordsOf(valid, blocks[..n]), BlockRecords(valid[n].caseId, Attempts(blocks[..n]), blocks[n]), PostedCount());
    }
  }

  lemma {:induction false} NoRejectIsPosted(cases: seq<EvalCase>)
    ensures SumBy(Rejects(cases), PostedCount()) == 0
  {
    if cases != [] {
      NoRejectIsPosted(cases[..|cases| - 1]);
      if !cases[|cases| - 1].valid {
        SumByAppend(Rejects(cases[..|cases| - 1]), PreNetworkReject(cases[|cases| - 1].caseId), PostedCount());
      } else {
        assert Rejects(cases) == Rejects(cases[..|cases| - 1]);
      }
    }
  }

  /** The records of a run that carry an attempt ordinal: first attempts plus retries, at most three per posted case. */
  lemma RequestTotal(a: Authorization, cases: seq<EvalCase>, blocks: seq<seq<AttemptResult>>, ending: Ending,
                     records: seq<Record>)
    requires Accounted(a, ValidCases(cases), blocks, ending)
    requires records == Rejects(cases) + RecordsOf(ValidCases(cases), blocks)
    ensures SumBy(records, PostedCount()) == |blocks| + Retries(blocks) <= |blocks| * MAX_ATTEMPTS
  {
    SumByConcat(Rejects(cases), RecordsOf(ValidCases(cases), blocks), PostedCount());
    NoRejectIsPosted(cases);
    PostedRecords(ValidCases(cases), blocks);
    AttemptsBounded(a, blocks);
  }
}
