// The audited model call (src/seven_lens/application/model_invoker.py:213-537) over its durable
// claim and attempt store (infrastructure/postgres_model_audit.py, migrations/0012).

module Invoker {
  import opened Orders
  import opened Clocks

  datatype Code =
    | CONFIG | AUTH | PERMANENT | RATE_LIMIT | TRANSIENT | TIMEOUT | PROTOCOL | SCHEMA | OVERSIZE
    | DEADLINE | AUDIT

  /** The deterministic identity of one call; everything but the id in one text. */
  datatype Claim = Claim(callId: Text, identity: Text)

  datatype Recorded = Success(payload: Text) | Failure(code: Code)

  datatype Attempt = Attempt(claim: Claim, startedAt: Time, completedAt: Time, recorded: Recorded)

  datatype Decision = CLAIMED | IN_PROGRESS | REPLAY

  /** The codes an error can carry: its constructor turns a deadline into a timeout. */
  type ErrorCode = c: Code | !c.DEADLINE? witness TIMEOUT

  /** The code of an error built with `code`. */
  function Normalized(code: Code): ErrorCode {
    if code.DEADLINE? then TIMEOUT else code
  }

  /** How an invocation ends: an output, a coded error, or a dead process. */
  datatype Outcome<+O> = Output(value: O) | Failed(code: ErrorCode) | Died

  datatype Response = Response(modelId: Text, content: Text, oversized: bool)

  /** What the transport does with one request: a reply may also be no response at all, or an ill-formed one. */
  datatype Answer = Replied(response: Response) | Malformed | Refused(code: ErrorCode) | Misbehaved

  /** Parsing and printing of one output contract, and its check against the envelope. */
  datatype Contract<!O> = Contract(parse: Text -> Option<O>, wire: O -> Text, valid: O -> bool)

  datatype Request<!O> = Request(claim: Claim, deadline: Time, contract: Contract<O>, modelId: Text)

  /** The canonical payload of an output, if the contract reads it back to the same payload. */
  function Canonical<O>(c: Contract<O>, output: O): Option<Text> {
    var payload := c.wire(output);
    var back := c.parse(payload);
    if back.Some? && c.wire(back.value) == payload then Some(payload) else None
  }

  // ---------------------------------------------------------------- the durable store

  /**
   * Claims, attempts and calls made, by call id.  `holders` are the other live invokers that
   * own a claim they created, and whether each has made its call.
   */
  datatype Store = Store(claims: map<Text, Claim>, attempts: map<Text, Attempt>, calls: map<Text, nat>,
                         holders: map<Text, bool>)

  function Calls(s: Store, c: Text): nat {
    if c in s.calls then s.calls[c] else 0
  }

  /** Claims are kept under their id, attempts close claims, and only a claimed call is made, once. */
  ghost predicate Sound(s: Store) {
    && (forall c {:trigger s.claims[c]} :: c in s.claims ==> s.claims[c].callId == c)
    && (forall c {:trigger s.attempts[c]} :: c in s.attempts ==> c in s.claims && s.attempts[c].claim == s.claims[c])
    && (forall c {:trigger Calls(s, c)} :: Calls(s, c) <= 1 && (Calls(s, c) == 1 ==> c in s.claims))
    && (forall c {:trigger s.holders[c]} :: c in s.holders ==> c in s.claims && (!s.holders[c] ==> Calls(s, c) == 0))
  }

  /** Claims and attempts are append-only, and calls only add up. */
  ghost predicate Grows(s: Store, t: Store) {
    && (forall c {:trigger s.claims[c]} :: c in s.claims ==> c in t.claims && t.claims[c] == s.claims[c])
    && (forall c {:trigger s.attempts[c]} :: c in s.attempts ==> c in t.attempts && t.attempts[c] == s.attempts[c])
    && (forall c {:trigger Calls(t, c)} :: Calls(s, c) <= Calls(t, c))
  }

  /** The claim is stored and no attempt closes it yet. */
  predicate Open(s: Store, claim: Claim) {
    claim.callId in s.claims && s.claims[claim.callId] == claim && claim.callId !in s.attempts
  }

  /** `c` is claimed and no other live invoker owns the claim. */
  predicate Own(s: Store, c: Text) {
    c in s.claims && c !in s.holders
  }

  /** Other invokers never touch a call whose claim they did not create. */
  ghost predicate OthersActed(s: Store, t: Store) {
    && Sound(t) && Grows(s, t)
    && (forall c {:trigger Own(s, c)} :: Own(s, c) ==>
          Own(t, c) && Calls(t, c) == Calls(s, c) && (c in t.attempts <==> c in s.attempts))
  }

  lemma GrowsRefl(s: Store)
    ensures Grows(s, s)
  {
  }

  lemma CallsKept(s: Store, t: Store, c: Text)
    requires t.calls == s.calls
    ensures Calls(t, c) == Calls(s, c)
  {
  }

  lemma HoldersClaimed(s: Store)
    requires Sound(s)
    ensures forall c :: c in s.holders ==> c in s.claims
  {
  }

  lemma SameCalls(s: Store, t: Store)
    requires t.calls == s.calls
    ensures forall c :: Calls(t, c) == Calls(s, c)
  {
  }

  lemma OtherIdles(s: Store)
    requires Sound(s)
    ensures OthersActed(s, s)
  {
  }

  lemma OtherClaims(s: Store, t: Store, call: Text)
    requires Sound(s) && call !in s.claims
    requires t == s.(claims := t.claims, holders := t.holders)
    requires call in t.claims && t.claims == s.claims[call := t.claims[call]] && t.claims[call].callId == call
    requires t.holders == s.holders || t.holders == s.holders[call := false]
    ensures OthersActed(s, t)
  {
    SameCalls(s, t);
    assert Calls(s, call) <= 1;
  }

  lemma OtherCalls(s: Store, t: Store, call: Text)
    requires Sound(s) && call in s.holders && !s.holders[call]
    requires t == s.(calls := s.calls[call := (if call in s.calls then s.calls[call] else 0) + 1],
                    holders := s.holders[call := true])
    ensures OthersActed(s, t)
  {
    assert Calls(t, call) == 1;
    assert forall c :: c != call ==> Calls(t, c) == Calls(s, c);
  }

  lemma OtherCloses(s: Store, t: Store, call: Text)
    requires Sound(s) && call in s.holders && call !in s.attempts
    requires t == s.(attempts := t.attempts, holders := s.holders - {call})
    requires call in t.attempts && t.attempts == s.attempts[call := t.attempts[call]]
    requires call in s.claims && t.attempts[call].claim == s.claims[call]
    ensures OthersActed(s, t)
  {
    SameCalls(s, t);
  }

  lemma OtherDies(s: Store, t: Store, call: Text)
    requires Sound(s) && t == s.(holders := s.holders - {call})
    ensures OthersActed(s, t)
  {
    SameCalls(s, t);
  }

  lemma OthersCompose(s: Store, t: Store, u: Store)
    requires OthersActed(s, t) && OthersActed(t, u)
    ensures OthersActed(s, u)
  {
    GrowsComposes(s, t, u);
  }

  lemma ClaimStays(s: Store, t: Store, c: Text)
    requires Grows(s, t) && c in s.claims
    ensures c in t.claims && t.claims[c] == s.claims[c]
  {
  }

  lemma AttemptStays(s: Store, t: Store, c: Text)
    requires Grows(s, t) && c in s.attempts
    ensures c in t.attempts && t.attempts[c] == s.attempts[c]
  {
  }

  lemma GrowsComposes(s: Store, t: Store, u: Store)
    requires Grows(s, t) && Grows(t, u)
    ensures Grows(s, u)
  {
    forall c ensures Calls(s, c) <= Calls(u, c) { assert Calls(s, c) <= Calls(t, c) <= Calls(u, c); }
  }

  /** An attempt stored for the claim decides every later invocation without the network. */
  function Replayed<O>(a: Attempt, r: Request<O>, now: Time): Outcome<O> {
    if a.claim != r.claim then Failed(AUDIT)
    else if now > r.deadline then Failed(TIMEOUT)
    else if a.recorded.Failure? then Failed(Normalized(a.recorded.code))
    else
      var output := r.contract.parse(a.recorded.payload);
      if output.Some? && r.contract.valid(output.value) then Output(output.value) else Failed(AUDIT)
  }

  ghost predicate FailureStored(s: Store, claim: Claim, code: ErrorCode) {
    && claim.callId in s.attempts && s.attempts[claim.callId].claim == claim
    && s.attempts[claim.callId].recorded == Failure(code)
  }

  /** A returned output is durable: the stored payload is its canonical form, or reads back to it. */
  ghost predicate OutputStored<O>(s: Store, r: Request<O>, output: O) {
    && r.claim.callId in s.attempts && s.attempts[r.claim.callId].claim == r.claim
    && s.attempts[r.claim.callId].recorded.Success? && r.contract.valid(output)
    && var payload := s.attempts[r.claim.callId].recorded.payload;
       Canonical(r.contract, output) == Some(payload) || r.contract.parse(payload) == Some(output)
  }

  /** How a call that was made can end: durably with its output, durably with its code, or as an audit failure. */
  ghost predicate Concluded<O>(s: Store, r: Request<O>, o: Outcome<O>) {
    || (o.Output? && OutputStored(s, r, o.value)
        && s.attempts[r.claim.callId].recorded == Success(r.contract.wire(o.value)))
    || (o.Failed? && o.code != AUDIT && FailureStored(s, r.claim, o.code))
    || o == Failed(AUDIT)
  }

  /** What a reply's failure code says about the reply. */
  ghost predicate Blames<O>(r: Request<O>, response: Response, s: Store, code: ErrorCode)
    requires FailureStored(s, r.claim, code)
  {
    var late := s.attempts[r.claim.callId].completedAt > r.deadline;
    var parsed := r.contract.parse(response.content);
    && (code == PROTOCOL <==> response.modelId != r.modelId)
    && (code == TIMEOUT <==> response.modelId == r.modelId && late)
    && (code == OVERSIZE <==> response.modelId == r.modelId && !late && response.oversized)
    && (code == SCHEMA <==>
          && response.modelId == r.modelId && !late && !response.oversized
          && (parsed.None? || !r.contract.valid(parsed.value) || Canonical(r.contract, parsed.value).None?))
    && (code == PROTOCOL || code == TIMEOUT || code == OVERSIZE || code == SCHEMA)
  }

  // ---------------------------------------------------------------- the invoker

  class AuditedModelInvoker {
    const clock: Clock
    var claims: map<Text, Claim>
    var attempts: map<Text, Attempt>
    /** Network calls made so far, by call id. */
    var calls: map<Text, nat>
    /** The other live invokers that own a claim, and whether they have made its call. */
    var holders: map<Text, bool>

    ghost function View(): Store
      reads this
    {
      Store(claims, attempts, calls, holders)
    }

    constructor (clock: Clock)
      ensures this.clock == clock && View() == Store(map[], map[], map[], map[]) && Sound(View())
    {
      this.clock, claims, attempts, calls, holders := clock, map[], map[], map[], map[];
    }

    /**
     * One step of some other invoker: it creates a claim, makes the call of a claim it created,
     * closes such a claim, or dies.
     */
    method OtherInvoker()
      requires Sound(View())
      modifies this
      ensures OthersActed(old(View()), View())
    {
      hide Sound, Calls, OthersActed;
      ghost var before := View();
      var call: Text, identity: Text, attempt: Attempt, lives: bool := *, *, *, *;
      if {
        case call !in claims =>
          HoldersClaimed(before);
          claims := claims[call := Claim(call, identity)];
          if lives { holders := holders[call := false]; }
          OtherClaims(before, View(), call);
        case call in holders && !holders[call] =>
          calls := calls[call := (if call in calls then calls[call] else 0) + 1];
          holders := holders[call := true];
          OtherCalls(before, View(), call);
        case call in holders && call in claims && call !in attempts && attempt.claim == claims[call] =>
          attempts := attempts[call := attempt];
          holders := holders - {call};
          OtherCloses(before, View(), call);
        case call in holders =>
          holders := holders - {call};
          OtherDies(before, View(), call);
        case true =>
          OtherIdles(before);
      }
    }

    method OtherInvokers()
      requires Sound(View())
      modifies this
      ensures OthersActed(old(View()), View())
    {
      hide Sound, Calls;
      ghost var before := View();
      GrowsRefl(before);
      var steps: int :| 0 <= steps;
      for i := 0 to steps
        invariant OthersActed(before, View())
      {
        ghost var met := View();
        OtherInvoker();
        OthersCompose(before, met, View());
      }
    }

    /** Reserves the call id, atomically; the statement may fail before or after taking effect. */
    method ClaimCall(claim: Claim) returns (r: Option<Decision>, ghost faulty: bool)
      requires Sound(View())
      modifies this`claims
      ensures Sound(View()) && Grows(old(View()), View())
      ensures claim.callId in old(claims) ==> claims == old(claims)
      ensures r.Some? ==> claim.callId in claims && claims[claim.callId] == claim
      ensures r.Some? ==> (r.value == CLAIMED <==> claim.callId !in old(claims))
      ensures r.Some? ==> (r.value == REPLAY <==> claim.callId in old(claims) && claim.callId in attempts)
      ensures r.None? && !faulty ==> claim.callId in old(claims) && old(claims)[claim.callId] != claim
    {
      ghost var before := View();
      var fails: bool, takesEffect: bool := *, *;
      var decision := if claim.callId !in claims then CLAIMED else if claim.callId in attempts then REPLAY else IN_PROGRESS;
      faulty := fails;
      if claim.callId in claims && claims[claim.callId] != claim { return None, faulty; }
      if !fails || takesEffect { claims := claims[claim.callId := claim]; }
      assert forall c :: Calls(View(), c) == Calls(before, c);
      r := if fails then None else Some(decision);
    }

    /** Registers the attempt that closes an open claim; an identical one is not registered twice. */
    method Persist(a: Attempt) returns (r: Option<bool>, ghost faulty: bool)
      requires Sound(View())
      modifies this`attempts
      ensures Sound(View()) && Grows(old(View()), View())
      ensures r.Some? ==> a.claim.callId in attempts && attempts[a.claim.callId] == a
      ensures r == Some(true) ==> a.claim.callId !in old(attempts)
      ensures a.claim.callId in old(attempts) ==> attempts == old(attempts)
      ensures attempts == old(attempts) || attempts == old(attempts)[a.claim.callId := a]
      ensures old(Open(View(), a.claim)) ==> (r.None? <==> faulty)
    {
      ghost var before := View();
      var c := a.claim.callId;
      var fails: bool, takesEffect: bool := *, *;
      faulty := fails;
      assert forall d :: Calls(View(), d) == Calls(before, d);
      if c !in claims || claims[c] != a.claim { return None, faulty; }
      if c in attempts { return if attempts[c] == a && !fails then Some(false) else None, faulty; }
      if !fails || takesEffect { attempts := attempts[c := a]; }
      assert forall d :: Calls(View(), d) == Calls(before, d);
      r := if fails then None else Some(true);
    }

    /** Makes the attempt durable, or reports that the audit failed. */
    method AuditPersist(a: Attempt) returns (ok: bool, ghost faulty: bool)
      requires Sound(View())
      modifies this`attempts
      ensures Sound(View()) && Grows(old(View()), View())
      ensures ok ==> a.claim.callId in attempts && attempts[a.claim.callId] == a
      ensures attempts == old(attempts) || attempts == old(attempts)[a.claim.callId := a]
      ensures old(Open(View(), a.claim)) ==> (!ok <==> faulty)
    {
      var persisted: Option<bool>;
      persisted, faulty := Persist(a);
      if persisted.None? { return false, faulty; }
      if !persisted.value {
        var readable: bool := *;
        faulty := !readable;
        return readable && a.claim.callId in attempts && attempts[a.claim.callId] == a, faulty;
      }
      ok := true;
    }

    /** The one network call of a freshly claimed id. */
    method Execute(c: Text) returns (answer: Answer)
      requires Sound(View()) && c in claims && c !in holders && Calls(View(), c) == 0
      modifies this`calls
      ensures Sound(View()) && Grows(old(View()), View())
      ensures Calls(View(), c) == 1
    {
      ghost var before := View();
      calls := calls[c := (if c in calls then calls[c] else 0) + 1];
      assert Calls(View(), c) == Calls(before, c) + 1;
      assert forall d :: d != c ==> Calls(View(), d) == Calls(before, d);
      var reply: Answer, code: Code, raises: bool := *, *, *;
      answer := if raises then Refused(Normalized(code)) else reply;
    }

    method Complete(startedAt: Time) returns (completedAt: Time)
      modifies clock
      ensures completedAt > startedAt
    {
      completedAt := clock.Read();
      if completedAt <= startedAt { completedAt := startedAt + 1; }
    }

    /** Records a failure and reports its code, or the audit's own failure. */
    method Fail<O>(claim: Claim, startedAt: Time, completedAt: Time, code: ErrorCode)
      returns (r: Outcome<O>, ghost faulty: bool)
      requires Sound(View()) && code != AUDIT
      modifies this`attempts
      ensures Sound(View()) && Grows(old(View()), View())
      ensures r == Failed(AUDIT) || r == Failed(code)
      ensures old(Open(View(), claim)) ==> (r == Failed(AUDIT) <==> faulty)
      ensures r == Failed(code) ==>
        FailureStored(View(), claim, code) && attempts[claim.callId].completedAt == completedAt
    {
      var ok: bool;
      ok, faulty := AuditPersist(Attempt(claim, startedAt, completedAt, Failure(code)));
      r := if ok then Failed(code) else Failed(AUDIT);
    }

    /** What a reply becomes: a validated output whose canonical payload is durable, or a coded failure. */
    method Accept<O>(r: Request<O>, startedAt: Time, response: Response) returns (o: Outcome<O>, ghost faulty: bool)
      requires Sound(View())
      modifies this`attempts, clock
      ensures Sound(View()) && Grows(old(View()), View())
      ensures Concluded(View(), r, o)
      ensures o.Output? ==>
        && response.modelId == r.modelId && !response.oversized && r.contract.parse(response.content) == Some(o.value)
        && attempts[r.claim.callId].completedAt <= r.deadline
      ensures o.Failed? && o.code != AUDIT ==> FailureStored(View(), r.claim, o.code) && Blames(r, response, View(), o.code)
      ensures old(Open(View(), r.claim)) ==> (o == Failed(AUDIT) <==> faulty)
    {
      hide Sound, Grows, Calls;
      var completedAt := Complete(startedAt);
      if response.modelId != r.modelId { o, faulty := Fail(r.claim, startedAt, completedAt, PROTOCOL); return; }
      if completedAt > r.deadline { o, faulty := Fail(r.claim, startedAt, completedAt, TIMEOUT); return; }
      if response.oversized { o, faulty := Fail(r.claim, startedAt, completedAt, OVERSIZE); return; }
      var parsed := r.contract.parse(response.content);
      if parsed.None? || !r.contract.valid(parsed.value) || Canonical(r.contract, parsed.value).None? {
        o, faulty := Fail(r.claim, startedAt, completedAt, SCHEMA);
        return;
      }
      var a := Attempt(r.claim, startedAt, completedAt, Success(Canonical(r.contract, parsed.value).value));
      var ok: bool;
      ok, faulty := AuditPersist(a);
      o := if ok then Output(parsed.value) else Failed(AUDIT);
    }

    /** What the transport's answer becomes; it always concludes. */
    method Settle<O>(r: Request<O>, startedAt: Time, answer: Answer) returns (o: Outcome<O>, ghost faulty: bool)
      requires Sound(View())
      modifies this`attempts, clock
      ensures Sound(View()) && Grows(old(View()), View())
      ensures Concluded(View(), r, o)
      ensures o.Output? ==> answer.Replied? && r.contract.parse(answer.response.content) == Some(o.value)
      ensures o.Failed? && o.code != AUDIT ==> FailureStored(View(), r.claim, o.code)
      ensures o.Failed? && o.code != AUDIT && answer.Refused? ==> o.code == answer.code
      ensures o.Failed? && o.code != AUDIT && answer.Misbehaved? ==> o.code == TRANSIENT
      ensures o.Failed? && o.code != AUDIT && answer.Malformed? ==> o.code == PROTOCOL
      ensures o.Failed? && o.code != AUDIT && answer.Replied? ==> Blames(r, answer.response, View(), o.code)
      ensures old(Open(View(), r.claim)) ==> (o == Failed(AUDIT) <==> faulty || answer == Refused(AUDIT))
    {
      hide Sound, Grows, Canonical, Calls, FailureStored, Blames;
      GrowsRefl(View());
      faulty := false;
      match answer
      case Replied(response) =>
        o, faulty := Accept(r, startedAt, response);
      case Refused(code) =>
        var completedAt := Complete(startedAt);
        if code.AUDIT? { return Failed(AUDIT), false; }
        o, faulty := Fail(r.claim, startedAt, completedAt, code);
      case Malformed =>
        var completedAt := Complete(startedAt);
        o, faulty := Fail(r.claim, startedAt, completedAt, PROTOCOL);
      case Misbehaved =>
        var completedAt := Complete(startedAt);
        o, faulty := Fail(r.claim, startedAt, completedAt, TRANSIENT);
    }

    /** Network and result, for a call this invoker has just claimed. */
    method CallClaimed<O>(r: Request<O>)
      returns (o: Outcome<O>, called: bool, ghost heard: Option<Answer>, ghost faulty: bool)
      requires Sound(View()) && Own(View(), r.claim.callId) && Open(View(), r.claim) && Calls(View(), r.claim.callId) == 0
      modifies this, clock
      ensures Sound(View()) && Grows(old(View()), View())
      ensures called ==> Calls(View(), r.claim.callId) == 1
      ensures called ==> old(clock.now) <= r.deadline
      ensures !o.Died? ==> Concluded(View(), r, o)
      ensures o.Output? ==> called
      ensures called && !o.Died? ==> heard.Some?
      ensures o == Failed(AUDIT) <==> !o.Died? && (faulty || heard == Some(Refused(AUDIT)))
    {
      hide Sound, Grows, Canonical, Calls, OutputStored;
      ghost var before := View();
      GrowsRefl(before);
      heard, faulty := None, false;
      var c := r.claim.callId;
      var startedAt := clock.Read();
      if startedAt > r.deadline {
        o, faulty := Fail(r.claim, startedAt, startedAt + 1, TIMEOUT);
        called := false;
        return;
      }
      called := false;
      var dies: bool := *;
      if dies { return Died, false, heard, faulty; }
      OtherInvokers();
      ghost var met := View();
      var answer := Execute(c);
      called := true;
      ghost var sent := View();
      GrowsComposes(before, met, sent);
      dies := *;
      if dies { return Died, true, heard, faulty; }
      assert Own(sent, c);
      OtherInvokers();
      ghost var told := View();
      GrowsComposes(before, sent, told);
      heard := Some(answer);
      o, faulty := Settle(r, startedAt, answer);
      GrowsComposes(before, told, View());
      CallsKept(told, View(), c);
    }

    /** A stored attempt answers without the network; only its own audit can still fail. */
    ghost predicate AnswersFrom<O>(a: Attempt, r: Request<O>, o: Outcome<O>, from: Time, to: Time) {
      o == Failed(AUDIT) || exists now :: from <= now <= to && o == Replayed(a, r, now)
    }

    /**
     * One invocation.  The network is reached only by the invocation that created the claim, and
     * a call that was made ends durably or as an audit failure; a stored attempt decides the answer.
     */
    method Invoke<O>(r: Request<O>)
      returns (o: Outcome<O>, called: bool, ghost created: bool, ghost heard: Option<Answer>, ghost faulty: bool)
      requires Sound(View())
      modifies this, clock
      ensures Sound(View()) && Grows(old(View()), View())
      ensures called ==>
        r.claim.callId !in old(claims) && Calls(View(), r.claim.callId) == 1 && old(clock.now) <= r.deadline
      ensures called && !o.Died? ==> Concluded(View(), r, o)
      ensures called ==> created && (!o.Died? ==> heard.Some?)
      ensures o == Failed(AUDIT) ==> faulty || heard == Some(Refused(AUDIT)) || !created
      ensures created && !o.Died? && (faulty || heard == Some(Refused(AUDIT))) ==> o == Failed(AUDIT)
      ensures o.Output? ==> OutputStored(View(), r, o.value)
      ensures r.claim.callId in old(attempts) && !o.Died? ==>
        AnswersFrom(old(attempts)[r.claim.callId], r, o, old(clock.now), clock.now)
    {
      hide Sound, Grows, Canonical, Calls;
      ghost var before := View();
      GrowsRefl(before);
      called, created, heard, faulty := false, false, None, false;
      var c := r.claim.callId;
      var readable: bool := *;
      if !readable { return Failed(AUDIT), false, false, None, true; }
      if c in attempts {
        var now := clock.Read();
        return Replayed(attempts[c], r, now), false, false, None, false;
      }
      OtherInvokers();
      ghost var met := View();
      var decision: Option<Decision>;
      decision, faulty := ClaimCall(r.claim);
      created := decision == Some(CLAIMED);
      ghost var claimed := View();
      GrowsComposes(before, met, claimed);
      var dies: bool := *;
      if dies { return Died, false, created, None, faulty; }
      if decision.None? || decision.value == IN_PROGRESS { return Failed(AUDIT), false, false, None, faulty; }
      if decision.value == REPLAY {
        var now := clock.Read();
        return Replayed(attempts[c], r, now), false, false, None, false;
      }
      FreshHasNoCalls(before, met, claimed, c);
      o, called, heard, faulty := CallClaimed(r);
      GrowsComposes(before, claimed, View());
    }

    /**
     * Any sequence of invocations, each by a process of its own that may die anywhere, among any
     * number of other invokers.  No call id is ever sent twice, a returned output stays durable,
     * and a call that was made keeps its conclusion; the same request never yields two outputs.
     */
    method AnyInvocations<O(!new)>(requests: seq<Request<O>>) returns (outcomes: seq<Outcome<O>>, made: seq<bool>)
      requires Sound(View())
      modifies this, clock
      ensures Sound(View()) && Grows(old(View()), View()) && forall c :: Calls(View(), c) <= 1
      ensures |outcomes| == |made| == |requests| && Invoked(View(), requests, outcomes, made)
      ensures forall j, k :: 0 <= j < |requests| && 0 <= k < |requests| && requests[j] == requests[k]
                && outcomes[j].Output? && outcomes[k].Output? && Injective(requests[j].contract.wire)
                ==> outcomes[j] == outcomes[k]
    {
      hide Sound, Grows, Calls, Invoked, Concluded, OutputStored;
      ghost var before := View();
      GrowsRefl(before);
      outcomes, made := [], [];
      NothingInvoked<O>(before);
      for k := 0 to |requests|
        invariant Sound(View()) && Grows(before, View())
        invariant |outcomes| == |made| == k && Invoked(View(), requests[..k], outcomes, made)
      {
        ghost var met := View();
        OtherInvokers();
        ghost var acted := View();
        var o, called, created, heard, faulty := Invoke(requests[k]);
        GrowsComposes(before, met, acted);
        GrowsComposes(before, acted, View());
        InvokedLater(met, acted, requests[..k], outcomes, made);
        InvokedNext(acted, View(), requests[..k], outcomes, made, requests[k], o, called);
        assert requests[..k + 1] == requests[..k] + [requests[k]];
        outcomes, made := outcomes + [o], made + [called];
      }
      assert requests[..|requests|] == requests;
      InvokedMeans(View(), requests, outcomes, made);
    }
  }

  /** Every sequence of invocations on a fresh store. */
  method InvocationsFromScratch<O(!new)>(clock: Clock, requests: seq<Request<O>>)
    returns (invoker: AuditedModelInvoker, outcomes: seq<Outcome<O>>, made: seq<bool>)
    modifies clock
    ensures |outcomes| == |made| == |requests| && Invoked(invoker.View(), requests, outcomes, made)
    ensures forall c :: Calls(invoker.View(), c) <= 1
  {
    invoker := new AuditedModelInvoker(clock);
    outcomes, made := invoker.AnyInvocations(requests);
  }

  /** What a sequence of invocations leaves behind. */
  ghost predicate Invoked<O(!new)>(s: Store, requests: seq<Request<O>>, outcomes: seq<Outcome<O>>, made: seq<bool>)
    requires |outcomes| == |made| == |requests|
  {
    && (forall k :: 0 <= k < |made| && made[k] ==>
          Calls(s, requests[k].claim.callId) == 1 && requests[k].claim.callId in s.claims)
    && (forall j, k :: 0 <= j < k < |made| && made[j] && made[k] ==>
          requests[j].claim.callId != requests[k].claim.callId)
    && (forall k :: 0 <= k < |outcomes| && outcomes[k].Output? ==> OutputStored(s, requests[k], outcomes[k].value))
    && (forall k :: 0 <= k < |outcomes| && made[k] && !outcomes[k].Died? ==> Concluded(s, requests[k], outcomes[k]))
  }

  lemma NothingInvoked<O(!new)>(s: Store)
    ensures var none: seq<Request<O>> := []; Invoked(s, none[..0], [], [])
  {
  }

  lemma StoredLater<O>(s: Store, t: Store, r: Request<O>, o: Outcome<O>)
    requires Grows(s, t)
    ensures o.Output? && OutputStored(s, r, o.value) ==> OutputStored(t, r, o.value)
    ensures Concluded(s, r, o) ==> Concluded(t, r, o)
  {
    hide Canonical;
    if r.claim.callId in s.attempts { AttemptStays(s, t, r.claim.callId); }
  }

  lemma InvokedLater<O(!new)>(s: Store, t: Store, requests: seq<Request<O>>, outcomes: seq<Outcome<O>>, made: seq<bool>)
    requires |outcomes| == |made| == |requests| && Invoked(s, requests, outcomes, made)
    requires Grows(s, t) && Sound(t)
    ensures Invoked(t, requests, outcomes, made)
  {
    hide Concluded, OutputStored;
    forall k | 0 <= k < |made| && made[k]
      ensures Calls(t, requests[k].claim.callId) == 1 && requests[k].claim.callId in t.claims
    {
      AtMostOneCall(s, t, requests[k].claim.callId);
    }
    forall k | 0 <= k < |outcomes|
      ensures outcomes[k].Output? ==> OutputStored(t, requests[k], outcomes[k].value)
      ensures made[k] && !outcomes[k].Died? ==> Concluded(t, requests[k], outcomes[k])
    {
      StoredLater(s, t, requests[k], outcomes[k]);
    }
  }

  lemma InvokedNext<O(!new)>(s: Store, t: Store, requests: seq<Request<O>>, outcomes: seq<Outcome<O>>, made: seq<bool>,
                             r: Request<O>, o: Outcome<O>, called: bool)
    requires |outcomes| == |made| == |requests| && Invoked(s, requests, outcomes, made)
    requires Grows(s, t) && Sound(t)
    requires called ==> r.claim.callId !in s.claims && Calls(t, r.claim.callId) == 1
    requires called && !o.Died? ==> Concluded(t, r, o)
    requires o.Output? ==> OutputStored(t, r, o.value)
    ensures Invoked(t, requests + [r], outcomes + [o], made + [called])
  {
    InvokedLater(s, t, requests, outcomes, made);
    hide Concluded, OutputStored, Grows;
    assert called ==> Calls(t, r.claim.callId) == 1 && r.claim.callId in t.claims;
  }

  lemma InvokedMeans<O(!new)>(s: Store, requests: seq<Request<O>>, outcomes: seq<Outcome<O>>, made: seq<bool>)
    requires Sound(s) && |outcomes| == |made| == |requests| && Invoked(s, requests, outcomes, made)
    ensures forall c :: Calls(s, c) <= 1
    ensures forall j, k :: 0 <= j < |requests| && 0 <= k < |requests| && requests[j] == requests[k]
              && outcomes[j].Output? && outcomes[k].Output? && Injective(requests[j].contract.wire)
              ==> outcomes[j] == outcomes[k]
  {
    hide Concluded, OutputStored, Injective;
    forall j, k | 0 <= j < |requests| && 0 <= k < |requests| && requests[j] == requests[k]
      && outcomes[j].Output? && outcomes[k].Output? && Injective(requests[j].contract.wire)
      ensures outcomes[j] == outcomes[k]
    {
      OneOutput(s, requests[j], outcomes[j].value, outcomes[k].value);
    }
  }

  /** What is stored determines the output. */
  lemma OneOutput<O(!new)>(s: Store, r: Request<O>, p: O, q: O)
    requires OutputStored(s, r, p) && OutputStored(s, r, q) && Injective(r.contract.wire)
    ensures p == q
  {
    ReadsBack(s, r, p);
    ReadsBack(s, r, q);
  }

  lemma ReadsBack<O(!new)>(s: Store, r: Request<O>, p: O)
    requires OutputStored(s, r, p) && Injective(r.contract.wire)
    ensures r.contract.parse(s.attempts[r.claim.callId].recorded.payload) == Some(p)
  {
    var back := r.contract.parse(r.contract.wire(p));
    if back.Some? && r.contract.wire(back.value) == r.contract.wire(p) {
      SameWire(r.contract.wire, back.value, p);
    }
  }

  lemma FreshHasNoCalls(s: Store, t: Store, u: Store, c: Text)
    requires Sound(t) && Grows(s, t) && c !in t.claims && u == t.(claims := u.claims) && c in u.claims
    ensures c !in s.claims && Calls(u, c) == 0 && Own(u, c) && c !in u.attempts
  {
    assert Calls(u, c) == Calls(t, c);
    assert Calls(t, c) == 1 ==> c in t.claims;
  }

  /**
   * At most one network call per id: in every state the store can reach no id was sent twice,
   * and an id that was sent is claimed for good.
   */
  lemma AtMostOneCall(s: Store, t: Store, c: Text)
    requires Sound(t) && Grows(s, t) && Calls(s, c) == 1
    ensures Calls(t, c) == 1 && c in t.claims
  {
  }

  ghost predicate Injective<O(!new)>(wire: O -> Text) {
    forall p: O, q: O {:trigger wire(p), wire(q)} :: wire(p) == wire(q) ==> p == q
  }

  lemma SameWire<O(!new)>(wire: O -> Text, p: O, q: O)
    requires Injective(wire) && wire(p) == wire(q)
    ensures p == q
  {
  }

  /**
   * Replaying a durable success before the deadline gives back the returned output, whenever
   * outputs with one wire form are equal.
   */
  lemma ReplayReturnsTheOutput<O(!new)>(a: Attempt, r: Request<O>, output: O, now: Time)
    requires a.claim == r.claim && now <= r.deadline
    requires a.recorded.Success? && Canonical(r.contract, output) == Some(a.recorded.payload)
    requires r.contract.valid(output)
    requires Injective(r.contract.wire)
    ensures Replayed(a, r, now) == Output(output)
  {
    var back := r.contract.parse(r.contract.wire(output));
    assert a.recorded.payload == r.contract.wire(output);
    assert back.Some? && r.contract.wire(back.value) == r.contract.wire(output);
    SameWire(r.contract.wire, back.value, output);
  }

  /** Replaying a durable failure before the deadline fails with its code; an old deadline row is a timeout. */
  lemma ReplayRepeatsTheFailure<O>(a: Attempt, r: Request<O>, code: Code, now: Time)
    requires a.claim == r.claim && now <= r.deadline && a.recorded == Failure(code)
    ensures Replayed(a, r, now) == Failed(if code == DEADLINE then TIMEOUT else code)
  {
  }
}
