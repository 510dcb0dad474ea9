// The resumable analysis pipeline (src/seven_lens/analysis/pipeline.py:145-323, 638-657)
// against its stage repository (application/ports/analysis.py).

module Pipeline {
  import opened Orders
  import opened Sequences

  datatype Stage = PLANNED | ANALYSTS | DEBATE | RESEARCH | TRADER | COMPLETE | INVALID | EXPIRED

  function Rank(s: Stage): nat {
    match s case PLANNED => 0 case ANALYSTS => 1 case DEBATE => 2 case RESEARCH => 3 case TRADER => 4 case _ => 5
  }

  predicate Resumable(s: Stage) { !s.INVALID? && !s.EXPIRED? }

  const ROLES := 4

  /** One provider request: a role, or a side and round, and the outputs it builds on. */
  datatype Ask<V> =
    | Analyst(role: nat)
    | Argue(bull: bool, round: nat, prior: seq<V>)
    | Conclude(prior: seq<V>)
    | Plan(prior: seq<V>)

  /** The stage a request belongs to. */
  function StageOf<V>(a: Ask<V>): Stage {
    match a case Analyst(_) => ANALYSTS case Argue(_, _, _) => DEBATE case Conclude(_) => RESEARCH case Plan(_) => TRADER
  }

  datatype PipelineResult<V> = PipelineResult(reports: seq<V>, debate: V, conclusion: V, plan: V)

  /**
   * One frozen input: the provider's answers, the checks on outputs, and their wire forms.
   * The provider is deterministic: an answer depends on the request alone.
   */
  datatype Frozen<!V> = Frozen(
    answer: Ask<V> -> Option<V>,
    okReport: (nat, V) -> bool,
    okArgument: (bool, nat, V) -> bool,
    okDebate: V -> bool,
    okConclusion: V -> bool,
    okPlan: V -> bool,
    build: seq<V> -> V,
    bundle: seq<V> -> Text,
    unbundle: Text -> Option<seq<V>>,
    wire: V -> Text,
    unwire: Text -> Option<V>)

  // ---------------------------------------------------------------- the uninterrupted run

  /** The first `n` checked reports. */
  function Reports<V>(f: Frozen<V>, n: nat): Option<seq<V>> {
    if n == 0 then Some([])
    else
      var before := Reports(f, n - 1);
      var one := f.answer(Analyst(n - 1));
      if before.None? || one.None? || !f.okReport(n - 1, one.value) then None else Some(before.value + [one.value])
  }

  function Argument<V>(f: Frozen<V>, bull: bool, round: nat, prior: seq<V>): Option<V> {
    var one := f.answer(Argue(bull, round, prior));
    if one.None? || !f.okArgument(bull, round, one.value) then None else one
  }

  /** Both sides of one round, on the same prior outputs. */
  function Round<V>(f: Frozen<V>, round: nat, prior: seq<V>): Option<seq<V>> {
    var bull, bear := Argument(f, true, round, prior), Argument(f, false, round, prior);
    if bull.None? || bear.None? then None else Some([bull.value, bear.value])
  }

  function Debated<V>(f: Frozen<V>, reports: seq<V>): Option<V> {
    var first := Round(f, 1, reports);
    if first.None? then None
    else
      var second := Round(f, 2, reports + first.value);
      if second.None? then None else Some(f.build(first.value + second.value))
  }

  function Concluded<V>(f: Frozen<V>, reports: seq<V>, debate: V): Option<V> {
    var one := f.answer(Conclude(reports + [debate]));
    if one.None? || !f.okConclusion(one.value) then None else one
  }

  function Planned<V>(f: Frozen<V>, reports: seq<V>, debate: V, conclusion: V): Option<V> {
    var one := f.answer(Plan(reports + [debate, conclusion]));
    if one.None? || !f.okPlan(one.value) then None else one
  }

  /** What stage `s` stores in an uninterrupted run, if the run gets there. */
  function Payload<V>(f: Frozen<V>, s: Stage): Option<Text> {
    match s
    case ANALYSTS => var r := Reports(f, ROLES); if r.None? then None else Some(f.bundle(r.value))
    case DEBATE => var d := DebateOf(f); if d.None? then None else Some(f.wire(d.value))
    case RESEARCH => var c := ConclusionOf(f); if c.None? then None else Some(f.wire(c.value))
    case TRADER => var p := PlanOf(f); if p.None? then None else Some(f.wire(p.value))
    case COMPLETE => if PlanOf(f).None? then None else Some("complete")
    case _ => None
  }

  function DebateOf<V>(f: Frozen<V>): Option<V> {
    var r := Reports(f, ROLES);
    if r.None? then None else Debated(f, r.value)
  }

  function ConclusionOf<V>(f: Frozen<V>): Option<V> {
    var r, d := Reports(f, ROLES), DebateOf(f);
    if r.None? || d.None? then None else Concluded(f, r.value, d.value)
  }

  function PlanOf<V>(f: Frozen<V>): Option<V> {
    var r, d, c := Reports(f, ROLES), DebateOf(f), ConclusionOf(f);
    if r.None? || d.None? || c.None? then None else Planned(f, r.value, d.value, c.value)
  }

  function Uninterrupted<V>(f: Frozen<V>): Option<PipelineResult<V>> {
    if PlanOf(f).None? then None
    else Some(PipelineResult(Reports(f, ROLES).value, DebateOf(f).value, ConclusionOf(f).value, PlanOf(f).value))
  }

  /** Stored outputs read back to what was written, and pass the checks they passed when fresh. */
  ghost predicate Faithful<V(!new)>(f: Frozen<V>) {
    && (forall rs: seq<V> {:trigger f.bundle(rs)} :: f.unbundle(f.bundle(rs)) == Some(rs))
    && (forall v: V {:trigger f.wire(v)} :: f.unwire(f.wire(v)) == Some(v))
    && (DebateOf(f).Some? ==> f.okDebate(DebateOf(f).value))
  }

  predicate AllReportsOk<V>(f: Frozen<V>, reports: seq<V>) {
    |reports| == ROLES && forall i :: 0 <= i < ROLES ==> f.okReport(i, reports[i])
  }

  lemma {:induction false} ReportsAreOk<V>(f: Frozen<V>, n: nat)
    requires Reports(f, n).Some?
    ensures |Reports(f, n).value| == n && forall i :: 0 <= i < n ==> f.okReport(i, Reports(f, n).value[i])
  {
    if n > 0 { ReportsAreOk(f, n - 1); }
  }

  lemma {:induction false} ReportsNeedAll<V>(f: Frozen<V>, n: nat, m: nat)
    requires n <= m && Reports(f, n).None?
    ensures Reports(f, m).None?
  {
    if n < m { ReportsNeedAll(f, n, m - 1); }
  }

  // ---------------------------------------------------------------- the run

  /** Nothing stored changed, and only stages after `reached` were asked for. */
  ghost predicate Resumes<V>(stored: map<Stage, Text>, asked: seq<Ask<V>>, reached: Stage,
                             storedNow: map<Stage, Text>, askedNow: seq<Ask<V>>)
  {
    && (forall s :: s in stored ==> s in storedNow && storedNow[s] == stored[s])
    && asked <= askedNow
    && (forall i {:trigger askedNow[i]} :: |asked| <= i < |askedNow| ==> Rank(StageOf(askedNow[i])) > Rank(reached))
  }

  lemma ResumesOn<V>(r0: map<Stage, Text>, a0: seq<Ask<V>>, s0: Stage, r1: map<Stage, Text>, a1: seq<Ask<V>>, s1: Stage,
                     r2: map<Stage, Text>, a2: seq<Ask<V>>)
    requires Resumes(r0, a0, s0, r1, a1) && Resumes(r1, a1, s1, r2, a2) && Rank(s0) <= Rank(s1)
    ensures Resumes(r0, a0, s0, r2, a2)
  {
  }

  function ForStage<V>(s: Stage): Ask<V> -> bool {
    (a: Ask<V>) => StageOf(a) == s
  }

  lemma {:induction false} NothingFor<V>(asks: seq<Ask<V>>, s: Stage)
    requires forall i {:trigger asks[i]} :: 0 <= i < |asks| ==> StageOf(asks[i]) != s
    ensures Filter(asks, ForStage(s)) == []
  {
    if asks != [] {
      assert StageOf(asks[|asks| - 1]) != s;
      NothingFor(asks[..|asks| - 1], s);
    }
  }

  /** Once a stage is reached its requests are complete: no later run adds one; after COMPLETE, none at all. */
  lemma StoredStagesAreNotAsked<V>(r0: map<Stage, Text>, a0: seq<Ask<V>>, reached: Stage, r1: map<Stage, Text>, a1: seq<Ask<V>>)
    requires Resumes(r0, a0, reached, r1, a1)
    ensures forall s :: Rank(s) <= Rank(reached) ==> Filter(a1, ForStage(s)) == Filter(a0, ForStage(s))
    ensures reached == COMPLETE ==> a1 == a0
  {
    assert |a1| > |a0| ==> 4 >= Rank(StageOf(a1[|a0|])) > Rank(reached);
    var more := a1[|a0|..];
    assert a1 == a0 + more;
    assert forall i {:trigger more[i]} :: 0 <= i < |more| ==> more[i] == a1[|a0| + i];
    forall s | Rank(s) <= Rank(reached) ensures Filter(a1, ForStage(s)) == Filter(a0, ForStage(s)) {
      NothingFor(more, s);
      FilterConcat(a0, more, ForStage(s));
    }
  }

  lemma ReadReports<V(!new)>(f: Frozen<V>, text: Text)
    requires Faithful(f) && Payload(f, ANALYSTS) == Some(text)
    ensures Reports(f, ROLES).Some? && f.unbundle(text) == Some(Reports(f, ROLES).value)
    ensures f.bundle(Reports(f, ROLES).value) == text && AllReportsOk(f, Reports(f, ROLES).value)
  {
    ReportsAreOk(f, ROLES);
  }

  lemma ReadDebate<V(!new)>(f: Frozen<V>, text: Text)
    requires Faithful(f) && Payload(f, DEBATE) == Some(text)
    ensures DebateOf(f).Some? && f.unwire(text) == DebateOf(f) && f.wire(DebateOf(f).value) == text
    ensures f.okDebate(DebateOf(f).value)
  {
    hide Reports, Debated;
  }

  lemma ReadConclusion<V(!new)>(f: Frozen<V>, text: Text)
    requires Faithful(f) && Payload(f, RESEARCH) == Some(text)
    ensures ConclusionOf(f).Some? && f.unwire(text) == ConclusionOf(f) && f.wire(ConclusionOf(f).value) == text
    ensures f.okConclusion(ConclusionOf(f).value)
  {
    hide Reports, DebateOf;
  }

  lemma ReadPlan<V(!new)>(f: Frozen<V>, text: Text)
    requires Faithful(f) && Payload(f, TRADER) == Some(text)
    ensures PlanOf(f).Some? && f.unwire(text) == PlanOf(f) && f.wire(PlanOf(f).value) == text
    ensures f.okPlan(PlanOf(f).value)
  {
    hide Reports, DebateOf, ConclusionOf;
  }

  lemma CompletePayload<V>(f: Frozen<V>, text: Text)
    requires Payload(f, COMPLETE) == Some(text)
    ensures text == "complete"
  {
    hide PlanOf;
  }

  /** The payloads of the stages in terms of the outputs they store. */
  lemma Payloads<V>(f: Frozen<V>)
    ensures Reports(f, ROLES).Some? ==> Payload(f, ANALYSTS) == Some(f.bundle(Reports(f, ROLES).value))
    ensures DebateOf(f).Some? ==> Payload(f, DEBATE) == Some(f.wire(DebateOf(f).value))
    ensures ConclusionOf(f).Some? ==> Payload(f, RESEARCH) == Some(f.wire(ConclusionOf(f).value))
    ensures PlanOf(f).Some? ==> Payload(f, TRADER) == Some(f.wire(PlanOf(f).value)) && Payload(f, COMPLETE) == Some("complete")
  {
    hide Reports, DebateOf, ConclusionOf, PlanOf;
  }

  lemma DebateFromRounds<V>(f: Frozen<V>, reports: seq<V>)
    requires Reports(f, ROLES) == Some(reports)
    ensures DebateOf(f) == Debated(f, reports)
  {
    hide Reports, Debated;
  }

  lemma ConclusionFrom<V>(f: Frozen<V>, reports: seq<V>, debate: V)
    requires Reports(f, ROLES) == Some(reports) && DebateOf(f) == Some(debate)
    ensures ConclusionOf(f) == Concluded(f, reports, debate)
  {
    hide Reports, DebateOf, Concluded;
  }

  lemma PlanFrom<V>(f: Frozen<V>, reports: seq<V>, debate: V, conclusion: V)
    requires Reports(f, ROLES) == Some(reports) && DebateOf(f) == Some(debate) && ConclusionOf(f) == Some(conclusion)
    ensures PlanOf(f) == Planned(f, reports, debate, conclusion)
  {
    hide Reports, DebateOf, ConclusionOf, Planned;
  }

  lemma NoReportsYet<V>(f: Frozen<V>)
    ensures Reports(f, 0) == Some([])
  {
  }

  lemma NextReport<V>(f: Frozen<V>, n: nat)
    requires n < ROLES && Reports(f, n).Some?
    ensures var one := f.answer(Analyst(n));
            if one.Some? && f.okReport(n, one.value) then Reports(f, n + 1) == Some(Reports(f, n).value + [one.value])
            else Reports(f, ROLES).None?
  {
    var one := f.answer(Analyst(n));
    if one.None? || !f.okReport(n, one.value) { ReportsNeedAll(f, n + 1, ROLES); }
  }

  lemma DebateInRounds<V>(f: Frozen<V>, reports: seq<V>)
    ensures var first := Round(f, 1, reports);
            if first.None? then Debated(f, reports).None?
            else
              var second := Round(f, 2, reports + first.value);
              if second.None? then Debated(f, reports).None?
              else Debated(f, reports) == Some(f.build(first.value + second.value))
  {
    hide Round;
  }

  datatype Outcome<+R> = Returned(value: R) | Failed | Expired | Crashed

  class AnalysisPipeline<!V(!new)> {
    const frozen: Frozen<V>
    var current: Stage
    var results: map<Stage, Text>
    /** Every provider request made so far. */
    var asked: seq<Ask<V>>

    /** Each stage reached is stored, and stores what an uninterrupted run stores there. */
    ghost predicate Valid()
      reads this
    {
      && (forall s {:trigger results[s]} :: s in results ==> Payload(frozen, s) == Some(results[s]))
      && (Resumable(current) ==> forall s {:trigger Rank(s)} :: Resumable(s) && 1 <= Rank(s) <= Rank(current) ==> s in results)
    }

    constructor (frozen: Frozen<V>)
      ensures Valid() && this.frozen == frozen && current == PLANNED && results == map[] && asked == []
    {
      this.frozen, current, results, asked := frozen, PLANNED, map[], [];
    }

    method Request(ask: Ask<V>) returns (r: Outcome<V>)
      requires Valid()
      modifies this`asked
      ensures Valid() && asked == old(asked) + [ask]
      ensures r.Returned? ==> frozen.answer(ask) == Some(r.value)
      ensures r.Failed? ==> frozen.answer(ask) == None
    {
      asked := asked + [ask];
      var late: bool := *;
      if late { return Expired; }
      var one := frozen.answer(ask);
      r := if one.Some? then Returned(one.value) else Failed;
    }

    /**
     * Stores one stage and advances to it; a stage already stored must hold the same payload.
     * The process may die before or after.
     */
    method Persist(expected: Stage, stage: Stage, payload: Text) returns (r: Outcome<()>)
      requires Valid() && Resumable(current) && Resumable(expected) && Resumable(stage)
      requires Rank(stage) == Rank(expected) + 1
      requires Payload(frozen, stage) == Some(payload)
      modifies this`current, this`results
      ensures Valid() && Resumable(current)
      ensures r.Failed? ==> old(current) != expected && old(current) != stage
      ensures r.Returned? ==> current == stage && stage in results && results[stage] == payload
      ensures current == old(current) || (old(current) == expected && current == stage)
      ensures current == old(current) ==> results == old(results)
      ensures current != old(current) ==> results == old(results)[stage := payload]
      ensures forall s :: s in old(results) ==> s in results && results[s] == old(results[s])
    {
      var late: bool, before: bool, after: bool := *, *, *;
      if late { return Expired; }
      if current == stage {
        r := if results[stage] == payload then Returned(()) else Failed;
        return;
      }
      if current != expected { return Failed; }
      if before { return Crashed; }
      results, current := results[stage := payload], stage;
      r := if after then Crashed else Returned(());
    }

    /** The four analyst reports: stored ones are read back and checked like fresh ones. */
    method AnalystStage() returns (r: Outcome<seq<V>>)
      requires Valid() && Faithful(frozen) && Resumable(current)
      modifies this`current, this`results, this`asked
      ensures Valid() && Resumable(current) && Resumes(old(results), old(asked), old(current), results, asked)
      ensures Rank(old(current)) <= Rank(current)
      ensures r.Returned? ==> Reports(frozen, ROLES) == Some(r.value) && Rank(current) >= 1
      ensures r.Failed? ==> Reports(frozen, ROLES).None?
    {
      hide Payload, Faithful, Reports, DebateOf, ConclusionOf, PlanOf, Debated, Round, Argument, AllReportsOk;
      if Rank(current) >= 1 {
        assert ANALYSTS in results by { assert Rank(ANALYSTS) == 1; }
        ReadReports(frozen, results[ANALYSTS]);
        var stored := frozen.unbundle(results[ANALYSTS]);
        if stored.None? || frozen.bundle(stored.value) != results[ANALYSTS] || !AllReportsOk(frozen, stored.value) { return Failed; }
        return Returned(stored.value);
      }
      var reports: seq<V> := [];
      NoReportsYet(frozen);
      for role := 0 to ROLES
        invariant Valid() && current == old(current) && results == old(results)
        invariant Reports(frozen, role) == Some(reports)
        invariant old(asked) <= asked
        invariant forall i {:trigger asked[i]} :: |old(asked)| <= i < |asked| ==> StageOf(asked[i]) == ANALYSTS
      {
        NextReport(frozen, role);
        var one := Request(Analyst(role));
        if one.Expired? || one.Crashed? { return if one.Expired? then Expired else Crashed; }
        if one.Failed? || !frozen.okReport(role, one.value) {
          return Failed;
        }
        reports := reports + [one.value];
      }
      Payloads(frozen);
      var stored := Persist(PLANNED, ANALYSTS, frozen.bundle(reports));
      if !stored.Returned? { return if stored.Expired? then Expired else Crashed; }
      r := Returned(reports);
    }

    method AskSide(bull: bool, round: nat, prior: seq<V>) returns (r: Outcome<V>)
      requires Valid()
      modifies this`asked
      ensures Valid() && asked == old(asked) + [Argue(bull, round, prior)]
      ensures r.Returned? ==> Argument(frozen, bull, round, prior) == Some(r.value)
      ensures r.Failed? ==> Argument(frozen, bull, round, prior) == None
    {
      r := Request(Argue(bull, round, prior));
      if r.Returned? && !frozen.okArgument(bull, round, r.value) { r := Failed; }
    }

    method AskRound(round: nat, prior: seq<V>) returns (r: Outcome<seq<V>>)
      requires Valid()
      modifies this`asked
      ensures Valid() && old(asked) <= asked
      ensures forall i {:trigger asked[i]} :: |old(asked)| <= i < |asked| ==> StageOf(asked[i]) == DEBATE
      ensures r.Returned? ==> Round(frozen, round, prior) == Some(r.value)
      ensures r.Failed? ==> Round(frozen, round, prior) == None
    {
      var bull := AskSide(true, round, prior);
      if bull.Failed? { return Failed; }
      if !bull.Returned? { return if bull.Expired? then Expired else Crashed; }
      var bear := AskSide(false, round, prior);
      if bear.Failed? { return Failed; }
      if !bear.Returned? { return if bear.Expired? then Expired else Crashed; }
      r := Returned([bull.value, bear.value]);
    }

    method DebateStage(reports: seq<V>) returns (r: Outcome<V>)
      requires Valid() && Faithful(frozen) && Resumable(current) && Rank(current) >= 1
      requires Reports(frozen, ROLES) == Some(reports)
      modifies this`current, this`results, this`asked
      ensures Valid() && Resumable(current) && Resumes(old(results), old(asked), old(current), results, asked)
      ensures Rank(old(current)) <= Rank(current)
      ensures r.Returned? ==> DebateOf(frozen) == Some(r.value) && Rank(current) >= 2
      ensures r.Failed? ==> DebateOf(frozen).None?
    {
      hide Payload, Faithful, Reports, DebateOf, ConclusionOf, PlanOf, Debated, Round, Argument, AllReportsOk;
      DebateFromRounds(frozen, reports);
      if Rank(current) >= 2 {
        assert DEBATE in results by { assert Rank(DEBATE) == 2; }
        ReadDebate(frozen, results[DEBATE]);
        var stored := frozen.unwire(results[DEBATE]);
        if stored.None? || frozen.wire(stored.value) != results[DEBATE] || !frozen.okDebate(stored.value) { return Failed; }
        return Returned(stored.value);
      }
      DebateInRounds(frozen, reports);
      var first := AskRound(1, reports);
      if first.Failed? { return Failed; }
      if !first.Returned? { return if first.Expired? then Expired else Crashed; }
      var second := AskRound(2, reports + first.value);
      if second.Failed? { return Failed; }
      if !second.Returned? { return if second.Expired? then Expired else Crashed; }
      var debate := frozen.build(first.value + second.value);
      Payloads(frozen);
      var stored := Persist(ANALYSTS, DEBATE, frozen.wire(debate));
      if !stored.Returned? { return if stored.Expired? then Expired else Crashed; }
      r := Returned(debate);
    }

    method ResearchStage(reports: seq<V>, debate: V) returns (r: Outcome<V>)
      requires Valid() && Faithful(frozen) && Resumable(current) && Rank(current) >= 2
      requires Reports(frozen, ROLES) == Some(reports) && DebateOf(frozen) == Some(debate)
      modifies this`current, this`results, this`asked
      ensures Valid() && Resumable(current) && Resumes(old(results), old(asked), old(current), results, asked)
      ensures Rank(old(current)) <= Rank(current)
      ensures r.Returned? ==> ConclusionOf(frozen) == Some(r.value) && Rank(current) >= 3
      ensures r.Failed? ==> ConclusionOf(frozen).None?
    {
      hide Payload, Faithful, Reports, DebateOf, ConclusionOf, PlanOf, Debated, Round, Argument, AllReportsOk;
      ConclusionFrom(frozen, reports, debate);
      Payloads(frozen);
      var conclusion: V;
      if Rank(current) >= 3 {
        assert RESEARCH in results by { assert Rank(RESEARCH) == 3; }
        ReadConclusion(frozen, results[RESEARCH]);
        var stored := frozen.unwire(results[RESEARCH]);
        if stored.None? || frozen.wire(stored.value) != results[RESEARCH] { return Failed; }
        conclusion := stored.value;
      } else {
        var one := Request(Conclude(reports + [debate]));
        if !one.Returned? { return if one.Expired? then Expired else if one.Failed? then Failed else Crashed; }
        conclusion := one.value;
      }
      if !frozen.okConclusion(conclusion) { return Failed; }
      if current == DEBATE {
        var stored := Persist(DEBATE, RESEARCH, frozen.wire(conclusion));
        if !stored.Returned? { return if stored.Expired? then Expired else Crashed; }
      }
      r := Returned(conclusion);
    }

    method TraderStage(reports: seq<V>, debate: V, conclusion: V) returns (r: Outcome<V>)
      requires Valid() && Faithful(frozen) && Resumable(current) && Rank(current) >= 3
      requires Reports(frozen, ROLES) == Some(reports) && DebateOf(frozen) == Some(debate)
      requires ConclusionOf(frozen) == Some(conclusion)
      modifies this`current, this`results, this`asked
      ensures Valid() && Resumable(current) && Resumes(old(results), old(asked), old(current), results, asked)
      ensures Rank(old(current)) <= Rank(current)
      ensures r.Returned? ==> PlanOf(frozen) == Some(r.value) && current == COMPLETE
      ensures r.Failed? ==> PlanOf(frozen).None?
    {
      hide Payload, Faithful, Reports, DebateOf, ConclusionOf, PlanOf, Debated, Round, Argument, AllReportsOk;
      PlanFrom(frozen, reports, debate, conclusion);
      Payloads(frozen);
      var plan: V;
      if Rank(current) >= 4 {
        assert TRADER in results by { assert Rank(TRADER) == 4; }
        ReadPlan(frozen, results[TRADER]);
        var stored := frozen.unwire(results[TRADER]);
        if stored.None? || frozen.wire(stored.value) != results[TRADER] { return Failed; }
        plan := stored.value;
      } else {
        var one := Request(Plan(reports + [debate, conclusion]));
        if !one.Returned? { return if one.Expired? then Expired else if one.Failed? then Failed else Crashed; }
        plan := one.value;
      }
      if !frozen.okPlan(plan) { return Failed; }
      if current == RESEARCH {
        var stored := Persist(RESEARCH, TRADER, frozen.wire(plan));
        if !stored.Returned? { return if stored.Expired? then Expired else Crashed; }
      }
      if current == TRADER {
        var done := Persist(TRADER, COMPLETE, "complete");
        if !done.Returned? { return if done.Expired? then Expired else Crashed; }
      }
      r := Returned(plan);
    }

    /**
     * Resume equals rerun: from whatever an earlier run left behind, a run that returns gives
     * the uninterrupted result; it fails only where the uninterrupted run fails or when the
     * deadline passes; it asks only for stages not yet stored and never changes a stored one.
     */
    method Run() returns (r: Outcome<PipelineResult<V>>)
      requires Valid() && Faithful(frozen)
      modifies this`current, this`results, this`asked
      ensures Valid() && Resumes(old(results), old(asked), old(current), results, asked)
      ensures r.Returned? ==> Uninterrupted(frozen) == Some(r.value) && current == COMPLETE
      ensures r.Failed? ==> Uninterrupted(frozen).None? || !Resumable(old(current))
    {
      var late: bool := *;
      if late { return Expired; }
      if !Resumable(current) { return Failed; }
      hide Payload, Faithful, Reports, DebateOf, ConclusionOf, PlanOf, Debated, Round, Argument, AllReportsOk;
      NoReportsNoPlan(frozen);
      if current == COMPLETE {
        assert COMPLETE in results by { assert Rank(COMPLETE) == 5; }
        if results[COMPLETE] != "complete" {
          r := Failed;
          CompletePayload(frozen, results[COMPLETE]);
          assert false;
        }
      }
      ghost var r0, a0, s0 := results, asked, current;
      var reports := AnalystStage();
      if !reports.Returned? { return if reports.Expired? then Expired else if reports.Failed? then Failed else Crashed; }
      ghost var r1, a1, s1 := results, asked, current;
      var debate := DebateStage(reports.value);
      ResumesOn(r0, a0, s0, r1, a1, s1, results, asked);
      if !debate.Returned? { return if debate.Expired? then Expired else if debate.Failed? then Failed else Crashed; }
      ghost var r2, a2, s2 := results, asked, current;
      var conclusion := ResearchStage(reports.value, debate.value);
      ResumesOn(r0, a0, s0, r2, a2, s2, results, asked);
      if !conclusion.Returned? { return if conclusion.Expired? then Expired else if conclusion.Failed? then Failed else Crashed; }
      ghost var r3, a3, s3 := results, asked, current;
      var plan := TraderStage(reports.value, debate.value, conclusion.value);
      ResumesOn(r0, a0, s0, r3, a3, s3, results, asked);
      if !plan.Returned? { return if plan.Expired? then Expired else if plan.Failed? then Failed else Crashed; }
      r := Returned(PipelineResult(reports.value, debate.value, conclusion.value, plan.value));
    }
  }

  lemma NoReportsNoPlan<V>(f: Frozen<V>)
    ensures Reports(f, ROLES).None? ==> DebateOf(f).None?
    ensures DebateOf(f).None? ==> ConclusionOf(f).None?
    ensures ConclusionOf(f).None? ==> PlanOf(f).None?
  {
  }
}
