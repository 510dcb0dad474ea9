// The two-attempt proposal pipeline (src/seven_lens/analysis/proposal_pipeline.py:280-428, 931-952)
// against its stage repository (application/ports/proposals.py).

module Proposals {
  import opened Orders

  datatype Stage = PLANNED | RISK_DEBATE | PROPOSAL | COMPLETE | INVALID | EXPIRED

  function Rank(s: Stage): nat {
    match s case PLANNED => 0 case RISK_DEBATE => 1 case PROPOSAL => 2 case _ => 3
  }

  predicate Resumable(s: Stage) { !s.INVALID? && !s.EXPIRED? }

  /** Provider requests: one viewpoint of the risk debate, or the proposal of one attempt. */
  datatype Ask<V> = Viewpoint(ordinal: nat, prior: seq<V>) | Propose(attempt: nat, debate: V)

  const VIEWPOINTS := 6
  const PER_ROUND := 3

  /** A bundle and its contexts: deterministic provider answers, the shared validators, wire forms. */
  datatype Frozen<!V> = Frozen(
    answer: Ask<V> -> Option<V>,
    okArgument: (nat, V) -> bool,
    okDebate: V -> bool,
    okProposal: (nat, V) -> bool,
    build: seq<V> -> V,
    wire: V -> Text,
    unwire: Text -> Option<V>)

  datatype RunState = RunState(stage: Stage, results: map<Stage, Text>)

  // ---------------------------------------------------------------- the uninterrupted runs

  /** The first `n` viewpoints; a round builds on the arguments of the rounds before it. */
  function Arguments<V>(f: Frozen<V>, n: nat): Option<seq<V>>
    decreases n
  {
    if n == 0 then Some([])
    else
      var before := Arguments(f, n - 1);
      var prior := Arguments(f, n - 1 - (n - 1) % PER_ROUND);
      if before.None? || prior.None? then None
      else
        var one := f.answer(Viewpoint(n - 1, prior.value));
        if one.None? || !f.okArgument(n - 1, one.value) then None else Some(before.value + [one.value])
  }

  function DebateOf<V>(f: Frozen<V>): Option<V> {
    var arguments := Arguments(f, VIEWPOINTS);
    if arguments.None? || !f.okDebate(f.build(arguments.value)) then None else Some(f.build(arguments.value))
  }

  function ProposalOf<V>(f: Frozen<V>, attempt: nat): Option<V> {
    var debate := DebateOf(f);
    if debate.None? then None
    else
      var one := f.answer(Propose(attempt, debate.value));
      if one.None? || !f.okProposal(attempt, one.value) then None else one
  }

  /** What a stage of either attempt stores: both attempts store the one debate. */
  function Payload<V>(f: Frozen<V>, attempt: nat, s: Stage): Option<Text> {
    match s
    case RISK_DEBATE => if DebateOf(f).None? then None else Some(f.wire(DebateOf(f).value))
    case PROPOSAL => if ProposalOf(f, attempt).None? then None else Some(f.wire(ProposalOf(f, attempt).value))
    case COMPLETE => if ProposalOf(f, attempt).None? then None else Some("complete")
    case _ => None
  }

  ghost predicate RoundTrips<V(!new)>(f: Frozen<V>) {
    forall v: V {:trigger f.wire(v)} :: f.unwire(f.wire(v)) == Some(v)
  }

  ghost predicate SoundRun<V>(f: Frozen<V>, attempt: nat, run: RunState) {
    && (forall s {:trigger run.results[s]} :: s in run.results ==> Payload(f, attempt, s) == Some(run.results[s]))
    && (Resumable(run.stage) ==> forall s {:trigger Rank(s)} :: Resumable(s) && 1 <= Rank(s) <= Rank(run.stage) ==> s in run.results)
  }

  /** A later state of one run: stored payloads stay. */
  ghost predicate Keeps(a: RunState, b: RunState) {
    && (forall s :: s in a.results ==> s in b.results && b.results[s] == a.results[s])
    && (Resumable(a.stage) ==> Resumable(b.stage) && Rank(a.stage) <= Rank(b.stage))
  }

  lemma {:induction false} ArgumentsNeedAll<V>(f: Frozen<V>, n: nat, m: nat)
    requires n <= m && Arguments(f, n).None?
    ensures Arguments(f, m).None?
  {
    if n < m { ArgumentsNeedAll(f, n, m - 1); }
  }

  lemma NextArgument<V>(f: Frozen<V>, n: nat, prior: seq<V>)
    requires n < VIEWPOINTS && Arguments(f, n).Some?
    requires Arguments(f, n - n % PER_ROUND) == Some(prior)
    ensures var one := f.answer(Viewpoint(n, prior));
            if one.Some? && f.okArgument(n, one.value) then Arguments(f, n + 1) == Some(Arguments(f, n).value + [one.value])
            else Arguments(f, VIEWPOINTS).None?
  {
    var one := f.answer(Viewpoint(n, prior));
    if one.None? || !f.okArgument(n, one.value) { ArgumentsNeedAll(f, n + 1, VIEWPOINTS); }
  }

  lemma NoArgumentsYet<V>(f: Frozen<V>)
    ensures Arguments(f, 0) == Some([])
  {
  }

  lemma Payloads<V>(f: Frozen<V>, attempt: nat)
    ensures DebateOf(f).Some? ==> Payload(f, attempt, RISK_DEBATE) == Some(f.wire(DebateOf(f).value))
    ensures DebateOf(f).None? ==> Payload(f, attempt, RISK_DEBATE).None? && ProposalOf(f, attempt).None?
    ensures ProposalOf(f, attempt).Some? ==>
      Payload(f, attempt, PROPOSAL) == Some(f.wire(ProposalOf(f, attempt).value)) && Payload(f, attempt, COMPLETE) == Some("complete")
    ensures ProposalOf(f, attempt).None? ==> Payload(f, attempt, PROPOSAL).None?
  {
    hide Arguments;
  }

  lemma DebateChecked<V>(f: Frozen<V>)
    ensures DebateOf(f).Some? ==> f.okDebate(DebateOf(f).value)
    ensures Arguments(f, VIEWPOINTS).None? ==> DebateOf(f).None?
    ensures Arguments(f, VIEWPOINTS).Some? ==>
      var debate := f.build(Arguments(f, VIEWPOINTS).value);
      DebateOf(f) == if f.okDebate(debate) then Some(debate) else None
  {
    hide Arguments;
  }

  lemma ProposalChecked<V>(f: Frozen<V>, attempt: nat)
    ensures DebateOf(f).Some? ==>
      var one := f.answer(Propose(attempt, DebateOf(f).value));
      ProposalOf(f, attempt) == if one.Some? && f.okProposal(attempt, one.value) then one else None
  {
    hide DebateOf;
  }

  // ---------------------------------------------------------------- the pipeline

  datatype Outcome<+R> = Returned(value: R) | Failed | Late | Crashed

  class ProposalPipeline<!V(!new, ==)> {
    const frozen: Frozen<V>
    /** The proposal runs by attempt. */
    var runs: map<nat, RunState>
    /** The context registered for a second attempt, once there is one. */
    var second: Option<Text>
    var asked: seq<Ask<V>>

    ghost predicate Valid()
      reads this
    {
      && (forall a {:trigger runs[a]} :: a in runs ==> SoundRun(frozen, a, runs[a]))
      && (2 in runs ==> second.Some?)
    }

    constructor (frozen: Frozen<V>)
      ensures Valid() && this.frozen == frozen && runs == map[] && second == None && asked == []
    {
      this.frozen, runs, second, asked := frozen, map[], None, [];
    }

    method Request(ask: Ask<V>) returns (r: Outcome<V>)
      requires Valid()
      modifies this`asked
      ensures Valid() && asked == old(asked) + [ask]
      ensures r.Returned? ==> frozen.answer(ask) == Some(r.value)
      ensures r.Failed? ==> frozen.answer(ask) == None
    {
      asked := asked + [ask];
      var late: bool := *;
      if late { return Late; }
      var one := frozen.answer(ask);
      r := if one.Some? then Returned(one.value) else Failed;
    }

    /** Advances one run by one stage; the process may die before or after. */
    method Persist(attempt: nat, expected: Stage, stage: Stage, payload: Text) returns (r: Outcome<()>)
      requires Valid() && attempt in runs && runs[attempt].stage == expected
      requires Resumable(expected) && Resumable(stage) && Rank(stage) == Rank(expected) + 1
      requires Payload(frozen, attempt, stage) == Some(payload)
      modifies this`runs
      ensures Valid() && !r.Failed?
      ensures attempt in runs && runs == old(runs)[attempt := runs[attempt]] && Keeps(old(runs[attempt]), runs[attempt])
      ensures r.Returned? ==> runs[attempt].stage == stage && stage in runs[attempt].results && runs[attempt].results[stage] == payload
    {
      hide Payload;
      var late: bool, before: bool, after: bool := *, *, *;
      if late { return Late; }
      if before { return Crashed; }
      runs := runs[attempt := RunState(stage, runs[attempt].results[stage := payload])];
      r := if after then Crashed else Returned(());
    }

    /** Asks all viewpoints, round by round, and joins them. */
    method DebateFromProvider() returns (r: Outcome<V>)
      requires Valid()
      modifies this`asked
      ensures Valid() && old(asked) <= asked
      ensures r.Returned? ==> DebateOf(frozen) == Some(r.value)
      ensures r.Failed? ==> DebateOf(frozen) == None
    {
      hide Payload, Arguments, DebateOf, ProposalOf, SoundRun;
      DebateChecked(frozen);
      NoArgumentsYet(frozen);
      var arguments: seq<V>, prior: seq<V> := [], [];
      for n := 0 to VIEWPOINTS
        invariant Valid() && old(asked) <= asked
        invariant Arguments(frozen, n) == Some(arguments)
        invariant n % PER_ROUND != 0 ==> Arguments(frozen, n - n % PER_ROUND) == Some(prior)
      {
        if n % PER_ROUND == 0 { prior := arguments; }
        NextArgument(frozen, n, prior);
        var one := Request(Viewpoint(n, prior));
        if one.Failed? || (one.Returned? && !frozen.okArgument(n, one.value)) { return Failed; }
        if !one.Returned? { return if one.Late? then Late else Crashed; }
        arguments := arguments + [one.value];
      }
      var debate := frozen.build(arguments);
      r := if frozen.okDebate(debate) then Returned(debate) else Failed;
    }

    /** The debate stage: a fresh first attempt asks the provider; a second one inherits the payload. */
    method DebateStage(attempt: nat, inherited: Option<Text>) returns (r: Outcome<()>)
      requires Valid() && attempt in runs && Resumable(runs[attempt].stage)
      requires inherited.Some? ==> Payload(frozen, attempt, RISK_DEBATE) == inherited
      modifies this`runs, this`asked
      ensures Valid() && attempt in runs && runs == old(runs)[attempt := runs[attempt]]
      ensures Keeps(old(runs[attempt]), runs[attempt])
      ensures old(asked) <= asked
      ensures inherited.Some? || Rank(old(runs[attempt].stage)) >= 1 ==> asked == old(asked)
      ensures r.Returned? ==> Rank(runs[attempt].stage) >= 1
      ensures r.Failed? ==> DebateOf(frozen).None?
    {
      hide Payload, Arguments, DebateOf, ProposalOf, SoundRun;
      if Rank(runs[attempt].stage) >= 1 { return Returned(()); }
      if inherited.Some? {
        r := Persist(attempt, PLANNED, RISK_DEBATE, inherited.value);
        return;
      }
      var debate := DebateFromProvider();
      if debate.Failed? { return Failed; }
      if !debate.Returned? { return if debate.Late? then Late else Crashed; }
      Payloads(frozen, attempt);
      r := Persist(attempt, PLANNED, RISK_DEBATE, frozen.wire(debate.value));
    }

    /** The shared reader of a stored stage: malformed, non-canonical or unverified payloads are refused. */
    method LoadDebate(attempt: nat) returns (r: Outcome<V>)
      requires Valid() && RoundTrips(frozen) && attempt in runs && Resumable(runs[attempt].stage)
      requires Rank(runs[attempt].stage) >= 1
      ensures !r.Late? && !r.Crashed? && !r.Failed?
      ensures r.Returned? ==> DebateOf(frozen) == Some(r.value) && RISK_DEBATE in runs[attempt].results
    {
      hide Arguments, DebateOf, ProposalOf;
      assert SoundRun(frozen, attempt, runs[attempt]);
      assert Rank(RISK_DEBATE) == 1;
      DebateChecked(frozen);
      Payloads(frozen, attempt);
      var stored := frozen.unwire(runs[attempt].results[RISK_DEBATE]);
      if stored.None? || frozen.wire(stored.value) != runs[attempt].results[RISK_DEBATE] || !frozen.okDebate(stored.value) {
        return Failed;
      }
      r := Returned(stored.value);
    }

    method LoadProposal(attempt: nat) returns (r: Outcome<V>)
      requires Valid() && RoundTrips(frozen) && attempt in runs && Resumable(runs[attempt].stage)
      requires Rank(runs[attempt].stage) >= 2
      requires DebateOf(frozen).Some?
      ensures !r.Late? && !r.Crashed? && !r.Failed?
      ensures r.Returned? ==> ProposalOf(frozen, attempt) == Some(r.value) && PROPOSAL in runs[attempt].results
    {
      hide Arguments, DebateOf, ProposalOf;
      assert SoundRun(frozen, attempt, runs[attempt]);
      assert Rank(PROPOSAL) == 2;
      ProposalChecked(frozen, attempt);
      Payloads(frozen, attempt);
      var stored := frozen.unwire(runs[attempt].results[PROPOSAL]);
      if stored.None? || frozen.wire(stored.value) != runs[attempt].results[PROPOSAL] || !frozen.okProposal(attempt, stored.value) {
        return Failed;
      }
      r := Returned(stored.value);
    }

    /** The terminal row of a completed run. */
    method LoadTerminal(attempt: nat) returns (r: Outcome<()>)
      requires Valid() && attempt in runs && runs[attempt].stage == COMPLETE
      ensures r == Returned(())
    {
      hide Arguments, DebateOf, ProposalOf;
      assert SoundRun(frozen, attempt, runs[attempt]) && Rank(COMPLETE) == 3;
      if COMPLETE !in runs[attempt].results || runs[attempt].results[COMPLETE] != "complete" { return Failed; }
      r := Returned(());
    }

    /** The proposal stage: one request on the debate, unless a proposal is stored. */
    method ProposalStage(attempt: nat, debate: V) returns (r: Outcome<()>)
      requires Valid() && attempt in runs && Resumable(runs[attempt].stage) && Rank(runs[attempt].stage) >= 1
      requires DebateOf(frozen) == Some(debate)
      modifies this`runs, this`asked
      ensures Valid() && attempt in runs && runs == old(runs)[attempt := runs[attempt]]
      ensures Keeps(old(runs[attempt]), runs[attempt])
      ensures asked == if Rank(old(runs[attempt].stage)) >= 2 then old(asked) else old(asked) + [Propose(attempt, debate)]
      ensures r.Returned? ==> Resumable(runs[attempt].stage) && Rank(runs[attempt].stage) >= 2
      ensures r.Failed? ==> ProposalOf(frozen, attempt).None?
    {
      hide Payload, Arguments, DebateOf, ProposalOf, SoundRun;
      if Rank(runs[attempt].stage) >= 2 { return Returned(()); }
      Payloads(frozen, attempt);
      ProposalChecked(frozen, attempt);
      var one := Request(Propose(attempt, debate));
      if one.Failed? || (one.Returned? && !frozen.okProposal(attempt, one.value)) { return Failed; }
      if !one.Returned? { return if one.Late? then Late else Crashed; }
      r := Persist(attempt, RISK_DEBATE, PROPOSAL, frozen.wire(one.value));
    }

    /** Reloads the proposal, completes the run and reads its terminal row back. */
    method Finish(attempt: nat) returns (r: Outcome<V>)
      requires Valid() && RoundTrips(frozen) && attempt in runs && Resumable(runs[attempt].stage)
      requires Rank(runs[attempt].stage) >= 2 && DebateOf(frozen).Some?
      modifies this`runs
      ensures Valid() && attempt in runs && runs == old(runs)[attempt := runs[attempt]]
      ensures Keeps(old(runs[attempt]), runs[attempt]) && !r.Failed?
      ensures r.Returned? ==> ProposalOf(frozen, attempt) == Some(r.value)
                              && runs[attempt].stage == COMPLETE && RISK_DEBATE in runs[attempt].results
    {
      hide Payload, Arguments, DebateOf, ProposalOf, SoundRun, RoundTrips;
      Payloads(frozen, attempt);
      var proposal := LoadProposal(attempt);
      if runs[attempt].stage == PROPOSAL {
        var done := Persist(attempt, PROPOSAL, COMPLETE, "complete");
        if !done.Returned? { return if done.Late? then Late else Crashed; }
      }
      StoredUpTo(frozen, attempt, runs[attempt]);
      var terminal := LoadTerminal(attempt);
      r := if terminal.Returned? then proposal else Failed;
    }

    /**
     * One attempt, fresh or resumed: a run that returns gives the attempt's uninterrupted
     * proposal and has stored every stage; a run that fails could not have succeeded.
     */
    method Execute(attempt: nat, inherited: Option<Text>) returns (r: Outcome<V>)
      requires Valid() && RoundTrips(frozen) && attempt in runs
      requires inherited.Some? ==> Payload(frozen, attempt, RISK_DEBATE) == inherited
      modifies this`runs, this`asked
      ensures Valid() && attempt in runs && runs == old(runs)[attempt := runs[attempt]]
      ensures Keeps(old(runs[attempt]), runs[attempt])
      ensures old(asked) <= asked
      ensures inherited.Some? || (Resumable(old(runs[attempt].stage)) && Rank(old(runs[attempt].stage)) >= 1) ==>
        |asked| <= |old(asked)| + 1 && forall i :: |old(asked)| <= i < |asked| ==> asked[i].Propose?
      ensures Resumable(old(runs[attempt].stage)) && Rank(old(runs[attempt].stage)) >= 2 ==> asked == old(asked)
      ensures r.Returned? ==> ProposalOf(frozen, attempt) == Some(r.value)
                              && runs[attempt].stage == COMPLETE && RISK_DEBATE in runs[attempt].results
      ensures r.Failed? ==> ProposalOf(frozen, attempt).None? || !Resumable(old(runs[attempt].stage))
    {
      hide Payload, Arguments, DebateOf, ProposalOf, SoundRun, RoundTrips;
      if !Resumable(runs[attempt].stage) { return Failed; }
      Payloads(frozen, attempt);
      ProposalChecked(frozen, attempt);
      var debated := DebateStage(attempt, inherited);
      if debated.Failed? { return Failed; }
      if !debated.Returned? { return if debated.Late? then Late else Crashed; }
      var debate := LoadDebate(attempt);
      var proposed := ProposalStage(attempt, debate.value);
      if proposed.Failed? { return Failed; }
      if !proposed.Returned? { return if proposed.Late? then Late else Crashed; }
      r := Finish(attempt);
    }

    /** The first attempt. */
    method Run() returns (r: Outcome<V>)
      requires Valid() && RoundTrips(frozen)
      modifies this`runs, this`asked
      ensures Valid() && old(asked) <= asked
      ensures forall a :: a in old(runs) ==> a in runs && Keeps(old(runs)[a], runs[a])
      ensures r.Returned? ==> ProposalOf(frozen, 1) == Some(r.value) && 1 in runs && runs[1].stage == COMPLETE
    {
      hide Payload, Arguments, DebateOf, ProposalOf;
      if 1 !in runs { runs := runs[1 := RunState(PLANNED, map[])]; }
      r := Execute(1, None);
    }

    /**
     * The second attempt, only after a completed first one and under one context: it stores the
     * first attempt's debate payload unchanged, asks for no viewpoint again and leaves the first
     * run alone.
     */
    method Retry(first: V, context: Text) returns (r: Outcome<V>)
      requires Valid() && RoundTrips(frozen)
      modifies this`runs, this`second, this`asked
      ensures Valid() && old(asked) <= asked
      ensures forall i :: |old(asked)| <= i < |asked| ==> asked[i].Propose?
      ensures 1 in old(runs) ==> 1 in runs && runs[1] == old(runs)[1]
      ensures !(1 in old(runs) && old(runs)[1].stage == COMPLETE) ==> r.Failed? && runs == old(runs)
      ensures old(second).Some? && old(second).value != context ==>
        r.Failed? && runs == old(runs) && second == old(second) && asked == old(asked)
      ensures second == old(second) || (old(second).None? && second == Some(context))
      ensures r.Returned? ==>
        && second == Some(context)
        && ProposalOf(frozen, 2) == Some(r.value) && ProposalOf(frozen, 1) == Some(first)
        && 2 in runs && runs[2].stage == COMPLETE
        && RISK_DEBATE in runs[1].results && RISK_DEBATE in runs[2].results
        && runs[2].results[RISK_DEBATE] == runs[1].results[RISK_DEBATE]
    {
      hide Payload, Arguments, DebateOf, ProposalOf;
      if 1 !in runs || runs[1].stage != COMPLETE { return Failed; }
      var terminal := LoadTerminal(1);
      var debate := LoadDebate(1);
      var persisted := LoadProposal(1);
      if !terminal.Returned? || persisted.value != first { return Failed; }
      if second.Some? && second.value != context { return Failed; }
      var late: bool, dies: bool := *, *;
      if late { return Late; }
      second := Some(context);
      if dies { return Crashed; }
      if 2 !in runs { runs := runs[2 := RunState(PLANNED, map[])]; }
      OneDebate(frozen, runs[1]);
      r := Execute(2, Some(runs[1].results[RISK_DEBATE]));
      if r.Returned? { SameDebate(frozen, runs[1], runs[2]); }
    }
  }

  lemma StoredUpTo<V>(f: Frozen<V>, attempt: nat, run: RunState)
    requires SoundRun(f, attempt, run) && Resumable(run.stage) && Rank(run.stage) >= 1
    ensures RISK_DEBATE in run.results
  {
    assert Rank(RISK_DEBATE) == 1;
  }

  lemma OneDebate<V>(f: Frozen<V>, first: RunState)
    requires SoundRun(f, 1, first) && RISK_DEBATE in first.results
    ensures Payload(f, 2, RISK_DEBATE) == Some(first.results[RISK_DEBATE])
  {
    hide Arguments, DebateOf;
  }

  lemma SameDebate<V>(f: Frozen<V>, first: RunState, second: RunState)
    requires SoundRun(f, 1, first) && SoundRun(f, 2, second) && RISK_DEBATE in first.results
    requires RISK_DEBATE in second.results
    ensures second.results[RISK_DEBATE] == first.results[RISK_DEBATE]
  {
    hide Arguments, DebateOf;
  }
}
