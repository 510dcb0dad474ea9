// The request accounting recomputed from the audit records of a live evaluation
// (src/seven_lens/evals/provider_eval.py:876-939, 1485-1503).

module LiveMetrics {
  import opened Orders
  import opened Sequences
  import opened LiveEval

  /** What the recomputation counts; `requests` is the run's own count of records with an attempt ordinal. */
  datatype Metrics = Metrics(requests: int, logical: int, retries: int, exhausted: int)

  // ---------------------------------------------------------------- records by case

  function OfCase(caseId: Text): Record -> bool {
    (r: Record) => r.caseId == caseId
  }

  function PostedOf(caseId: Text): Record -> bool {
    (r: Record) => r.Posted? && r.caseId == caseId
  }

  /** The posted records of one case, in order. */
  function Group(records: seq<Record>, caseId: Text): seq<Record> {
    Filter(records, PostedOf(caseId))
  }

  /** Appends every record to the list of its case. */
  method GroupByCase(records: seq<Record>) returns (groups: map<Text, seq<Record>>)
    ensures Grouped(groups, records)
  {
    hide Filter;
    groups := map[];
    for i := 0 to |records|
      invariant Grouped(groups, records[..i])
    {
      var record := records[i];
      assert records[..i + 1] == records[..i] + [record];
      ghost var before := groups;
      var listed := if record.caseId in groups then groups[record.caseId] else [];
      groups := groups[record.caseId := listed + [record]];
      GroupedNext(before, records[..i], record);
    }
    assert records[..|records|] == records;
  }

  /** The records of every case seen, in order. */
  ghost predicate Grouped(groups: map<Text, seq<Record>>, records: seq<Record>) {
    && (forall c :: c in groups <==> exists r :: r in records && r.caseId == c)
    && (forall c :: c in groups ==> groups[c] == Filter(records, OfCase(c)))
  }

  lemma GroupedNext(groups: map<Text, seq<Record>>, records: seq<Record>, record: Record)
    requires Grouped(groups, records)
    ensures var listed := if record.caseId in groups then groups[record.caseId] else [];
            Grouped(groups[record.caseId := listed + [record]], records + [record])
  {
    hide Filter;
    if record.caseId !in groups { NoneOfCase(records, record.caseId); }
    forall c ensures Filter(records + [record], OfCase(c)) ==
                     Filter(records, OfCase(c)) + (if record.caseId == c then [record] else [])
    {
      FilterAppend(records, record, OfCase(c));
    }
    assert record in records + [record];
  }

  lemma {:induction false} NoneOfCase(records: seq<Record>, caseId: Text)
    requires forall r :: r in records ==> r.caseId != caseId
    ensures Filter(records, OfCase(caseId)) == []
  {
    if records != [] {
      assert records[|records| - 1] in records;
      NoneOfCase(records[..|records| - 1], caseId);
    }
  }

  /** Of the records of a case, those that were posted. */
  lemma {:induction false} PostedOfCase(records: seq<Record>, caseId: Text)
    ensures Filter(Filter(records, OfCase(caseId)), IsPosted) == Group(records, caseId)
  {
    if records != [] {
      var rest, last := records[..|records| - 1], records[|records| - 1];
      PostedOfCase(rest, caseId);
      if last.caseId == caseId { FilterAppend(Filter(rest, OfCase(caseId)), last, IsPosted); }
      else { assert Filter(records, OfCase(caseId)) == Filter(rest, OfCase(caseId)); }
    }
  }

  // ---------------------------------------------------------------- the counts

  function Size(records: seq<Record>): Text -> int {
    (c: Text) => |Group(records, c)|
  }

  function Attempted(records: seq<Record>): Text -> int {
    (c: Text) => if Group(records, c) == [] then 0 else 1
  }

  function Extra(records: seq<Record>): Text -> int {
    (c: Text) => if Group(records, c) == [] then 0 else |Group(records, c)| - 1
  }

  function UsedUp(a: Authorization, records: seq<Record>): Text -> int {
    (c: Text) => if AllUsedUp(a, Group(records, c)) then 1 else 0
  }

  /** Every attempt was made and the last one failed with a retryable code. */
  predicate AllUsedUp(a: Authorization, group: seq<Record>) {
    |group| == MAX_ATTEMPTS && group[|group| - 1].Posted? && Retried(a, group[|group| - 1].result)
  }

  /** The counts over the cases the answers call valid. */
  function Recomputed(a: Authorization, records: seq<Record>, caseIds: seq<Text>, valid: Text -> bool): Metrics {
    var ids := Filter(caseIds, valid);
    Metrics(SumBy(records, PostedCount()), SumBy(ids, Attempted(records)), SumBy(ids, Extra(records)),
            SumBy(ids, UsedUp(a, records)))
  }

  method CountRequests(records: seq<Record>) returns (requests: nat)
    ensures requests == SumBy(records, PostedCount())
  {
    requests := 0;
    for i := 0 to |records|
      invariant requests == SumBy(records[..i], PostedCount())
    {
      assert records[..i + 1] == records[..i] + [records[i]];
      SumByAppend(records[..i], records[i], PostedCount());
      if records[i].Posted? { requests := requests + 1; }
    }
    assert records[..|records|] == records;
  }

  /** The attempts of one case out of the grouped records. */
  method AttemptsOf(groups: map<Text, seq<Record>>, caseId: Text, ghost records: seq<Record>) returns (attempts: seq<Record>)
    requires Grouped(groups, records)
    ensures attempts == Group(records, caseId)
  {
    attempts := if caseId in groups then Filter(groups[caseId], IsPosted) else [];
    PostedOfCase(records, caseId);
    if caseId !in groups { NoneOfCase(records, caseId); }
  }

  /** The recomputation as the source runs it: group, keep the valid cases, sum. */
  method Recompute(a: Authorization, records: seq<Record>, caseIds: seq<Text>, valid: Text -> bool)
    returns (m: Metrics)
    ensures m == Recomputed(a, records, caseIds, valid)
  {
    hide Group, Filter, SumBy, AllUsedUp;
    var groups := GroupByCase(records);
    var requests := CountRequests(records);
    var ids := Filter(caseIds, valid);
    var logical, retries, exhausted := 0, 0, 0;
    NoSums(ids, Attempted(records), Extra(records), UsedUp(a, records));
    for i := 0 to |ids|
      invariant logical == SumBy(ids[..i], Attempted(records))
      invariant retries == SumBy(ids[..i], Extra(records))
      invariant exhausted == SumBy(ids[..i], UsedUp(a, records))
    {
      assert ids[..i + 1] == ids[..i] + [ids[i]];
      SumByAppend(ids[..i], ids[i], Attempted(records));
      SumByAppend(ids[..i], ids[i], Extra(records));
      SumByAppend(ids[..i], ids[i], UsedUp(a, records));
      var attempts := AttemptsOf(groups, ids[i], records);
      if attempts != [] { logical, retries := logical + 1, retries + |attempts| - 1; }
      if AllUsedUp(a, attempts) { exhausted := exhausted + 1; }
    }
    assert ids[..|ids|] == ids;
    m := Metrics(requests, logical, retries, exhausted);
  }

  lemma NoSums(ids: seq<Text>, f: Text -> int, g: Text -> int, h: Text -> int)
    ensures SumBy(ids[..0], f) == 0 && SumBy(ids[..0], g) == 0 && SumBy(ids[..0], h) == 0
  {
  }

  // ---------------------------------------------------------------- regrouping

  predicate Distinct(ids: seq<Text>) {
    forall i, j :: 0 <= i < j < |ids| ==> ids[i] != ids[j]
  }

  function Is(caseId: Text): Text -> int {
    (c: Text) => if c == caseId then 1 else 0
  }

  lemma {:induction false} CountsOnce(ids: seq<Text>, caseId: Text)
    requires Distinct(ids)
    ensures SumBy(ids, Is(caseId)) == if caseId in ids then 1 else 0
  {
    if ids != [] {
      var rest, last := ids[..|ids| - 1], ids[|ids| - 1];
      assert ids == rest + [last];
      CountsOnce(rest, caseId);
    }
  }

  /** Over distinct cases that cover the posted records, the groups together are all the requests. */
  lemma {:induction false} GroupsAreAll(records: seq<Record>, ids: seq<Text>)
    requires Distinct(ids) && forall r :: r in records && r.Posted? ==> r.caseId in ids
    ensures SumBy(ids, Size(records)) == SumBy(records, PostedCount())
  {
    if records == [] {
      SumByCongruent(ids, Size(records), (c: Text) => 0);
      SumOfNothing(ids);
    } else {
      var rest, last := records[..|records| - 1], records[|records| - 1];
      assert records == rest + [last];
      GroupsAreAll(rest, ids);
      if last.Posted? {
        CountsOnce(ids, last.caseId);
        SumByPointwise(ids, Size(records), Size(rest), Is(last.caseId));
      } else {
        SumByCongruent(ids, Size(records), Size(rest));
      }
    }
  }

  lemma {:induction false} SumOfNothing(ids: seq<Text>)
    ensures SumBy(ids, (c: Text) => 0) == 0
  {
    if ids != [] { SumOfNothing(ids[..|ids| - 1]); }
  }

  /** Leaving cases out loses their weight, and nothing exactly when they have none. */
  lemma {:induction false} FilterLoses(ids: seq<Text>, keep: Text -> bool, weight: Text -> int)
    requires forall c :: 0 <= weight(c)
    ensures SumBy(Filter(ids, keep), weight) <= SumBy(ids, weight)
    ensures SumBy(Filter(ids, keep), weight) == SumBy(ids, weight)
            <==> forall c :: c in ids && !keep(c) ==> weight(c) == 0
  {
    if ids != [] {
      var rest, last := ids[..|ids| - 1], ids[|ids| - 1];
      assert ids == rest + [last];
      FilterLoses(rest, keep, weight);
      if keep(last) { SumByAppend(Filter(rest, keep), last, weight); }
      else { assert Filter(ids, keep) == Filter(rest, keep); }
    }
  }

  /**
   * The recomputed request count is logical requests plus retries exactly when no posted record
   * belongs to a case the answers call invalid; otherwise it is more.
   */
  lemma RequestsAreLogicalPlusRetries(a: Authorization, records: seq<Record>, caseIds: seq<Text>, valid: Text -> bool)
    requires Distinct(caseIds) && forall r :: r in records && r.Posted? ==> r.caseId in caseIds
    ensures var m := Recomputed(a, records, caseIds, valid);
            && m.logical + m.retries <= m.requests
            && (m.requests == m.logical + m.retries <==> forall r :: r in records && r.Posted? ==> valid(r.caseId))
  {
    GroupsAreAll(records, caseIds);
    FilterLoses(caseIds, valid, Size(records));
    SumByPointwise(Filter(caseIds, valid), Size(records), Attempted(records), Extra(records));
    forall c ensures Size(records)(c) == 0 <==> forall r :: r in records && r.Posted? ==> r.caseId != c {
      EmptyGroup(records, c);
    }
  }

  lemma EmptyGroup(records: seq<Record>, c: Text)
    ensures Group(records, c) == [] <==> forall r :: r in records && r.Posted? ==> r.caseId != c
  {
    FilterMembers(records, PostedOf(c));
    if Group(records, c) != [] { assert Group(records, c)[0] in Group(records, c); }
  }

  // ---------------------------------------------------------------- the records of a run

  function IdsOf(cases: seq<EvalCase>): seq<Text> {
    if cases == [] then [] else IdsOf(cases[..|cases| - 1]) + [cases[|cases| - 1].caseId]
  }

  lemma {:induction false} IdsAt(cases: seq<EvalCase>)
    ensures |IdsOf(cases)| == |cases| && forall i :: 0 <= i < |cases| ==> IdsOf(cases)[i] == cases[i].caseId
  {
    if cases != [] { IdsAt(cases[..|cases| - 1]); }
  }

  /** No two of the cases share an id. */
  predicate DistinctCases(cases: seq<EvalCase>) {
    forall i, j :: 0 <= i < j < |cases| ==> cases[i].caseId != cases[j].caseId
  }

  lemma {:induction false} ValidStayDistinct(cases: seq<EvalCase>)
    requires DistinctCases(cases)
    ensures DistinctCases(ValidCases(cases)) && forall c :: c in ValidCases(cases) ==> c in cases
  {
    if cases != [] {
      var rest, last := cases[..|cases| - 1], cases[|cases| - 1];
      assert cases == rest + [last];
      ValidStayDistinct(rest);
      forall i | 0 <= i < |ValidCases(rest)| ensures ValidCases(rest)[i].caseId != last.caseId {
        assert ValidCases(rest)[i] in rest;
      }
    }
  }

  lemma {:induction false} BlockGroup(caseId: Text, posted: nat, block: seq<AttemptResult>, other: Text)
    ensures Group(BlockRecords(caseId, posted, block), other) == if other == caseId then BlockRecords(caseId, posted, block) else []
  {
    if block != [] {
      var rest, records := block[..|block| - 1], BlockRecords(caseId, posted, block);
      assert records == BlockRecords(caseId, posted, rest) + [records[|block| - 1]];
      FilterAppend(BlockRecords(caseId, posted, rest), records[|block| - 1], PostedOf(other));
      BlockGroup(caseId, posted, rest, other);
    }
  }

  /** One more case adds its block to its own group and to no other. */
  lemma RunGrows(cases: seq<EvalCase>, blocks: seq<seq<AttemptResult>>, other: Text)
    requires 0 < |blocks| <= |cases|
    ensures var n := |blocks| - 1;
            Group(RecordsOf(cases, blocks), other) ==
            Group(RecordsOf(cases, blocks[..n]), other)
            + (if other == cases[n].caseId then BlockRecords(other, Attempts(blocks[..n]), blocks[n]) else [])
  {
    var n := |blocks| - 1;
    var before, block := RecordsOf(cases, blocks[..n]), BlockRecords(cases[n].caseId, Attempts(blocks[..n]), blocks[n]);
    FilterConcat(before, block, PostedOf(other));
    BlockGroup(cases[n].caseId, Attempts(blocks[..n]), blocks[n], other);
  }

  lemma {:induction false} RunHasNoGroup(cases: seq<EvalCase>, blocks: seq<seq<AttemptResult>>, other: Text)
    requires |blocks| <= |cases| && forall i :: 0 <= i < |blocks| ==> cases[i].caseId != other
    ensures Group(RecordsOf(cases, blocks), other) == []
  {
    if blocks != [] {
      RunHasNoGroup(cases, blocks[..|blocks| - 1], other);
      RunGrows(cases, blocks, other);
    }
  }

  /** In the records of distinct cases every posted case's group is its block. */
  lemma {:induction false} RunGroup(cases: seq<EvalCase>, blocks: seq<seq<AttemptResult>>, i: nat)
    requires i < |blocks| <= |cases| && DistinctCases(cases)
    ensures Group(RecordsOf(cases, blocks), cases[i].caseId)
            == BlockRecords(cases[i].caseId, Attempts(blocks[..i]), blocks[i])
  {
    hide RecordsOf, BlockRecords, Attempts, Group;
    var n := |blocks| - 1;
    RunGrows(cases, blocks, cases[i].caseId);
    if i == n {
      RunHasNoGroup(cases, blocks[..n], cases[i].caseId);
    } else {
      RunGroup(cases, blocks[..n], i);
      assert blocks[..n][..i] == blocks[..i] && blocks[..n][i] == blocks[i];
    }
  }

  lemma {:induction false} RejectsHaveNoGroup(cases: seq<EvalCase>, other: Text)
    ensures Group(Rejects(cases), other) == []
    ensures forall r :: r in Rejects(cases) ==> !r.Posted?
  {
    if cases != [] {
      var last := cases[|cases| - 1];
      RejectsHaveNoGroup(cases[..|cases| - 1], other);
      if !last.valid { FilterAppend(Rejects(cases[..|cases| - 1]), PreNetworkReject(last.caseId), PostedOf(other)); }
      else { assert Rejects(cases) == Rejects(cases[..|cases| - 1]); }
    }
  }

  /** What a run leaves in the audit: each posted case's group is exactly its attempts. */
  lemma RunRecords(cases: seq<EvalCase>, blocks: seq<seq<AttemptResult>>, records: seq<Record>, i: nat)
    requires DistinctCases(cases) && i < |blocks| <= |ValidCases(cases)|
    requires records == Rejects(cases) + RecordsOf(ValidCases(cases), blocks)
    ensures Group(records, ValidCases(cases)[i].caseId)
            == BlockRecords(ValidCases(cases)[i].caseId, Attempts(blocks[..i]), blocks[i])
  {
    var id := ValidCases(cases)[i].caseId;
    ValidStayDistinct(cases);
    RunGroup(ValidCases(cases), blocks, i);
    RejectsHaveNoGroup(cases, id);
    FilterConcat(Rejects(cases), RecordsOf(ValidCases(cases), blocks), PostedOf(id));
  }

  lemma {:induction false} PostedAreRun(cases: seq<EvalCase>, blocks: seq<seq<AttemptResult>>)
    requires |blocks| <= |cases|
    ensures forall r :: r in RecordsOf(cases, blocks) ==> exists i :: 0 <= i < |blocks| && cases[i].caseId == r.caseId
  {
    if blocks != [] {
      var n := |blocks| - 1;
      PostedAreRun(cases, blocks[..n]);
      forall r | r in RecordsOf(cases, blocks) ensures exists i :: 0 <= i < |blocks| && cases[i].caseId == r.caseId {
        if r in RecordsOf(cases, blocks[..n]) {
          var i :| 0 <= i < n && cases[i].caseId == r.caseId;
        } else {
          assert cases[n].caseId == r.caseId;
        }
      }
    }
  }

  /**
   * The accounting of a whole run: over the cases the answers call valid, the metric's requests
   * are its logical requests plus its retries exactly when every posted case is one of them; a
   * case counts as exhausted exactly when its block was.
   */
  lemma RunAccounting(a: Authorization, cases: seq<EvalCase>, blocks: seq<seq<AttemptResult>>, ending: Ending,
                      records: seq<Record>, valid: Text -> bool)
    requires DistinctCases(cases) && Accounted(a, ValidCases(cases), blocks, ending)
    requires records == Rejects(cases) + RecordsOf(ValidCases(cases), blocks)
    ensures var m := Recomputed(a, records, IdsOf(cases), valid);
            && m.logical + m.retries <= m.requests == |blocks| + Retries(blocks) <= |blocks| * MAX_ATTEMPTS
            && (m.requests == m.logical + m.retries
                <==> forall i :: 0 <= i < |blocks| ==> valid(ValidCases(cases)[i].caseId))
    ensures forall i {:trigger blocks[i]} :: 0 <= i < |blocks| ==>
              (AllUsedUp(a, Group(records, ValidCases(cases)[i].caseId)) <==> Exhausted(a, blocks[i]))
  {
    hide RecordsOf, Rejects, ValidCases, IdsOf, Exhausted, AllUsedUp, WellFormed, Retries, Recomputed, Tripped,
      EndsInError, AmongFirst, HasPosted, Group;
    PostedAreSelected(cases, blocks, records);
    IdsAreDistinct(cases);
    RequestsAreLogicalPlusRetries(a, records, IdsOf(cases), valid);
    RequestTotal(a, cases, blocks, ending, records);
    RequestsRecomputed(a, records, IdsOf(cases), valid);
    forall i {:trigger blocks[i]} | 0 <= i < |blocks|
      ensures AllUsedUp(a, Group(records, ValidCases(cases)[i].caseId)) <==> Exhausted(a, blocks[i])
    {
      BlockPosts(a, cases, blocks, ending, records, i);
    }
    forall i | 0 <= i < |blocks| ensures HasPosted(records, ValidCases(cases)[i].caseId) {
      BlockPosts(a, cases, blocks, ending, records, i);
    }
    AllPostedValid(records, ValidCases(cases), |blocks|, valid);
  }

  lemma RequestsRecomputed(a: Authorization, records: seq<Record>, caseIds: seq<Text>, valid: Text -> bool)
    ensures Recomputed(a, records, caseIds, valid).requests == SumBy(records, PostedCount())
  {
  }

  /** When the posted records are those of the first `n` cases, all are valid exactly when these cases are. */
  lemma AllPostedValid(records: seq<Record>, posted: seq<EvalCase>, n: nat, valid: Text -> bool)
    requires n <= |posted|
    requires forall r :: r in records && r.Posted? ==> AmongFirst(posted, n, r.caseId)
    requires forall i :: 0 <= i < n ==> HasPosted(records, posted[i].caseId)
    ensures (forall r :: r in records && r.Posted? ==> valid(r.caseId))
            <==> forall i :: 0 <= i < n ==> valid(posted[i].caseId)
  {
    if forall i :: 0 <= i < n ==> valid(posted[i].caseId) {
      forall r | r in records && r.Posted? ensures valid(r.caseId) {
        assert AmongFirst(posted, n, r.caseId);
      }
    }
    if forall r :: r in records && r.Posted? ==> valid(r.caseId) {
      forall i | 0 <= i < n ensures valid(posted[i].caseId) { assert HasPosted(records, posted[i].caseId); }
    }
  }

  lemma IdsAreDistinct(cases: seq<EvalCase>)
    requires DistinctCases(cases)
    ensures Distinct(IdsOf(cases))
  {
    IdsAt(cases);
  }

  predicate AmongFirst(cases: seq<EvalCase>, n: nat, caseId: Text)
    requires n <= |cases|
  {
    exists i :: 0 <= i < n && cases[i].caseId == caseId
  }

  predicate HasPosted(records: seq<Record>, caseId: Text) {
    exists r :: r in records && r.Posted? && r.caseId == caseId
  }

  /** Every posted record belongs to a posted case, and so to a selected one. */
  lemma PostedAreSelected(cases: seq<EvalCase>, blocks: seq<seq<AttemptResult>>, records: seq<Record>)
    requires |blocks| <= |ValidCases(cases)|
    requires records == Rejects(cases) + RecordsOf(ValidCases(cases), blocks)
    ensures forall r :: r in records && r.Posted? ==> AmongFirst(ValidCases(cases), |blocks|, r.caseId)
    ensures forall r :: r in records && r.Posted? ==> r.caseId in IdsOf(cases)
  {
    var posted := ValidCases(cases);
    RejectsHaveNoGroup(cases, "");
    PostedAreRun(posted, blocks);
    IdsAt(cases);
    FilterMembers(cases, (c: EvalCase) => c.valid);
    hide RecordsOf, Rejects, IdsOf, Filter;
    forall r | r in records && r.Posted?
      ensures AmongFirst(posted, |blocks|, r.caseId) && r.caseId in IdsOf(cases)
    {
      assert r in RecordsOf(posted, blocks);
      var i :| 0 <= i < |blocks| && posted[i].caseId == r.caseId;
      assert posted[i] in cases;
      var j :| 0 <= j < |cases| && cases[j] == posted[i];
      assert IdsOf(cases)[j] == r.caseId;
    }
  }

  /** Every posted case has a posted record, and counts as exhausted exactly when its block was. */
  lemma BlockPosts(a: Authorization, cases: seq<EvalCase>, blocks: seq<seq<AttemptResult>>, ending: Ending,
                   records: seq<Record>, i: nat)
    requires DistinctCases(cases) && Accounted(a, ValidCases(cases), blocks, ending) && i < |blocks|
    requires records == Rejects(cases) + RecordsOf(ValidCases(cases), blocks)
    ensures HasPosted(records, ValidCases(cases)[i].caseId)
    ensures AllUsedUp(a, Group(records, ValidCases(cases)[i].caseId)) <==> Exhausted(a, blocks[i])
  {
    hide RecordsOf, Rejects, ValidCases, Filter, BlockRecords, AllUsedUp, Exhausted, Attempts, Tripped, EndsInError;
    var id := ValidCases(cases)[i].caseId;
    RunRecords(cases, blocks, records, i);
    BlockUsedUp(a, id, Attempts(blocks[..i]), blocks[i]);
    FilterMembers(records, PostedOf(id));
    assert Group(records, id)[0] in Group(records, id);
  }

  lemma BlockUsedUp(a: Authorization, caseId: Text, posted: nat, block: seq<AttemptResult>)
    ensures |BlockRecords(caseId, posted, block)| == |block|
    ensures AllUsedUp(a, BlockRecords(caseId, posted, block)) <==> Exhausted(a, block)
  {
  }
}
