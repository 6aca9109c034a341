/**
 The calls that Host and MCP server make on the runtime, in place. Deadlines and
 callback answers are arbitrary; `script` records what they were.
 */
module LifecycleCalls {
  import opened Results
  import opened Evidence
  import opened KernelSteps
  import opened Interleaving
  import opened Cooperation
  import opened RuntimeClass
  import opened Adapters
  import opened ControlSteps

  /** A clock that never goes back. */
  class Clock {
    var now: Time

    constructor (now: Time)
      ensures this.now == now
    {
      this.now := now;
    }

    method Read() returns (t: Time)
      modifies this
      ensures t == now && old(now) <= now
    {
      var passed: int := *;
      if 0 < passed {
        now := now + passed;
      }
      t := now;
    }
  }

  /** Normalize, Reconcile, Govern and Reserve; a caller whose context may end stops
      before the reservation when it has ended. */
  method Authorize(runtime: Runtime, clock: Clock, p: Proposal, ttl: int, mayAbort: bool)
    returns (r: Result<Authority, Failure>, aborted: bool)
    modifies runtime, clock
    ensures old(clock.now) <= clock.now && (aborted ==> mayAbort)
    ensures (runtime.Snapshot(), r) == AuthorizeSteps(old(runtime.Snapshot()), p, runtime.policy, ttl, clock.now,
                                                      aborted)
    ensures runtime.lifecycleToken == old(runtime.lifecycleToken)
  {
    hide NormalizeStep, ReconcileStep, GovernStep, ReserveStep;
    var now := clock.Read();
    var ended: bool := *;
    aborted := mayAbort && ended;
    var n := runtime.Normalize(p);
    if n.Err? {
      return Err(Rejected(n.error)), aborted;
    }
    var t := runtime.Reconcile();
    if t.Err? {
      return Err(Rejected(t.error)), aborted;
    }
    var d := runtime.Govern();
    if d.Err? {
      return Err(Rejected(d.error)), aborted;
    }
    if aborted {
      return Err(Aborted), aborted;
    }
    var a := runtime.Reserve(ttl, now);
    r := if a.Err? then Err(Rejected(a.error)) else Ok(a.value);
  }

  /** The verifier's answer is judged by what was expected, not by the rest of the request. */
  lemma BindingKeepsAnswer(desired: ResourceRef, c: Claim, x: Script)
    ensures VerificationAnswer(BindVerify(VerifyRequest(EMPTY, desired, None, None), c.authority, c.before,
                                          c.execution), x.verifierCancelled, x.verifierAnswer)
            == VerificationAnswer(VerifyRequest(EMPTY, desired, None, None), x.verifierCancelled, x.verifierAnswer)
  {
    hide NewObservation;
  }

  /** The executor callback: through the provider adapter, or direct. */
  method RunExecutor(w: Wish, a: Authority, before: Observation, ghost x: Script)
    returns (result: ExecutionResult, ghost answered: Script)
    ensures result == ResultOf(w, a, answered)
    ensures answered == x.(executorCancelled := answered.executorCancelled, executorAnswer := answered.executorAnswer,
                           directResult := answered.directResult)
  {
    match w.parties
    case Provider(request) =>
      var cancelled: bool := *;
      var answer: Result<Execution, string> := *;
      result := ExecutionAnswer(BindExecute(request.(executionId := a.executionId), before), cancelled, answer);
      answered := x.(executorCancelled := cancelled, executorAnswer := answer);
    case Direct =>
      result := *;
      answered := x.(directResult := result);
  }

  /** The verifier callback: through the provider adapter, or direct. */
  method RunVerifier(w: Wish, c: Claim, ghost x: Script) returns (evidence: Option<Observation>, ghost answered: Script)
    ensures evidence == EvidenceOf(w, answered)
    ensures answered == x.(verifierCancelled := answered.verifierCancelled, verifierAnswer := answered.verifierAnswer,
                           directEvidence := answered.directEvidence)
  {
    match w.parties
    case Provider(_) =>
      var cancelled: bool := *;
      var answer: Result<Verification, string> := *;
      var request := BindVerify(VerifyRequest(EMPTY, w.desired, None, None), c.authority, c.before, c.execution);
      evidence := VerificationAnswer(request, cancelled, answer);
      answered := x.(verifierCancelled := cancelled, verifierAnswer := answer);
      BindingKeepsAnswer(w.desired, c, answered);
    case Direct =>
      evidence := *;
      answered := x.(directEvidence := evidence);
  }

  /** Runtime.Start around one executor callback. */
  method Start(runtime: Runtime, clock: Clock, w: Wish, a: Authority)
    returns (r: Result<ExecutionResult, Error>, ghost script: Script)
    modifies runtime, clock
    ensures runtime.lifecycleToken == old(runtime.lifecycleToken)
    ensures old(clock.now) <= script.startAt <= script.completeAt == clock.now
    ensures r.Ok? ==> r.value == ResultOf(w, a, script)
    ensures (runtime.Snapshot(), if r.Ok? then None else Some(r.error)) ==
              StartAlone(old(runtime.Snapshot()), ResultOf(w, a, script), script.startAt, script.completeAt)
  {
    hide FinishStep, ValidFor, ExecutionAnswer;
    script := *;
    var startAt := clock.Read();
    script := script.(startAt := startAt, completeAt := startAt);
    var ticket := runtime.BeginStart(startAt);
    if ticket.Err? {
      return Err(ticket.error), script;
    }
    var before := runtime.observation.value;
    var result, answered := RunExecutor(w, a, before, script);
    var end := clock.Read();
    runtime.FinishStart(ticket.value.done, result, end);
    script := answered.(completeAt := end);
    r := Ok(result);
  }

  /** The reservation, the wait for the executor and the verifier's snapshot. When the context
      of the wait can be cancelled, the select may take the cancellation although the
      executor is done: the reservation is given back and nothing else happens. */
  method AwaitExecutor(runtime: Runtime, cancellable: bool) returns (claim: Result<Claim, Error>, cancelled: bool)
    requires runtime.phase == Started && Completed(runtime.Snapshot()) && Bound(runtime.Snapshot())
    requires !runtime.verificationActive
    modifies runtime
    ensures runtime.lifecycleToken == old(runtime.lifecycleToken)
    ensures cancelled ==> cancellable && runtime.Snapshot() == old(runtime.Snapshot())
    ensures !cancelled ==>
      var (k, done) := BeginVerifyStep(old(runtime.Snapshot()));
      done.Ok? && (runtime.Snapshot(), claim) == AdmitStep(k, done.value)
  {
    claim, cancelled := Err(InvalidLifecycle), false;
    var done := runtime.BeginVerify();
    if done.Err? {
      return;
    }
    var ended: bool := *;
    if cancellable && ended {
      runtime.ReleaseVerificationIfCurrent(done.value);
      cancelled := true;
      return;
    }
    claim := runtime.AdmitVerifier(done.value);
  }

  /** Runtime.Verify around one verifier callback, nobody interfering. */
  method Verify(runtime: Runtime, clock: Clock, w: Wish, cancellable: bool)
    returns (err: Option<Failure>, ghost script: Script)
    requires runtime.phase == Started && Completed(runtime.Snapshot()) && Bound(runtime.Snapshot())
    requires !runtime.verificationActive
    modifies runtime, clock
    ensures runtime.lifecycleToken == old(runtime.lifecycleToken)
    ensures old(clock.now) <= script.judgeAt == clock.now
    ensures script.waitCancelled ==>
              cancellable && err == Some(VerifyCancelled) && runtime.Snapshot() == old(runtime.Snapshot())
    ensures !script.waitCancelled ==>
      var (k, e) := VerifyAlone(old(runtime.Snapshot()), EvidenceOf(w, script), script.judgeAt);
      runtime.Snapshot() == k && err == if e.Some? then Some(Rejected(e.value)) else None
  {
    hide Proves, Bound, VerificationAnswer, BeginVerifyStep, AdmitStep, FailStep, AcceptStep;
    script := *;
    script := script.(waitCancelled := false, judgeAt := clock.now);
    var claim, cancelled := AwaitExecutor(runtime, cancellable);
    if cancelled {
      return Some(VerifyCancelled), script.(waitCancelled := true);
    }
    if claim.Err? {
      return Some(Rejected(claim.error)), script;
    }
    var c := claim.value;
    ghost var admitted := runtime.Snapshot();
    ClaimIsBound(old(runtime.Snapshot()), c);
    var evidence, answered := RunVerifier(w, c, script);
    var now := clock.Read();
    assert runtime.Snapshot() == admitted;
    script := answered.(judgeAt := now);
    err := Judge(runtime, c, evidence, now);
  }

  /** What Verify does with the verifier's answer. */
  method Judge(runtime: Runtime, c: Claim, evidence: Option<Observation>, now: Time) returns (err: Option<Failure>)
    modifies runtime
    ensures runtime.lifecycleToken == old(runtime.lifecycleToken)
    ensures
      if evidence.Some? && Proves(evidence.value, c.transition, c.before, c.completedAt, now) then
        var (k, e) := AcceptStep(old(runtime.Snapshot()), c.done);
        runtime.Snapshot() == k && err == if e.Some? then Some(Rejected(e.value)) else None
      else
        runtime.Snapshot() == FailStep(old(runtime.Snapshot()), c.done) && err == Some(Rejected(VerificationFailed))
  {
    hide Proves, AcceptStep, FailStep;
    if evidence.None? || !Proves(evidence.value, c.transition, c.before, c.completedAt, now) {
      runtime.FailVerification(c.done);
      return Some(Rejected(VerificationFailed));
    }
    var refused := runtime.FinishVerify(c.done);
    err := if refused.Some? then Some(Rejected(refused.value)) else None;
  }

  lemma ClaimIsBound(k: Kernel, c: Claim)
    requires BeginVerifyStep(k).1.Ok? && AdmitStep(BeginVerifyStep(k).0, BeginVerifyStep(k).1.value).1 == Ok(c)
    ensures c.done == BeginVerifyStep(k).1.value
    ensures Some(c.before) == k.observation && Some(c.authority) == k.authority && Some(c.transition) == k.transition
    ensures c.execution == k.result
  {
  }

  /** Verify and Commit of an executed attempt. */
  method Settle(runtime: Runtime, clock: Clock, w: Wish, cancellable: bool)
    returns (failure: Option<Failure>, ghost script: Script)
    requires runtime.phase == Started && Completed(runtime.Snapshot()) && Bound(runtime.Snapshot())
    requires !runtime.verificationActive
    modifies runtime, runtime.store, clock
    ensures runtime.lifecycleToken == old(runtime.lifecycleToken)
    ensures old(clock.now) <= script.judgeAt == clock.now
    ensures (runtime.Snapshot(), failure) == JudgeSteps(old(runtime.Snapshot()), w, script)
    ensures script.waitCancelled ==> cancellable
  {
    hide VerifyAlone, Bound, VerificationAnswer, CommitStep;
    failure, script := Verify(runtime, clock, w, cancellable);
    if failure.Some? {
      return;
    }
    var conflict := runtime.Commit();
    failure := if conflict.Some? then Some(Rejected(conflict.value)) else None;
  }

  /** A record of the start and a record of the judgement make one record. */
  function Joined(begun: Script, judged: Script): (x: Script)
    ensures forall w, a :: ResultOf(w, a, x) == ResultOf(w, a, begun)
    ensures forall k, w :: JudgeSteps(k, w, x) == JudgeSteps(k, w, judged)
  {
    hide ExecutionAnswer, VerificationAnswer, VerifyAlone, CommitStep;
    begun.(judgeAt := judged.judgeAt, waitCancelled := judged.waitCancelled,
           verifierCancelled := judged.verifierCancelled, verifierAnswer := judged.verifierAnswer,
           directEvidence := judged.directEvidence)
  }

  /** Start, Verify and Commit of a reserved attempt. */
  method Fulfil(runtime: Runtime, clock: Clock, w: Wish, a: Authority, cancellable: bool)
    returns (failure: Option<Failure>, ghost script: Script)
    requires KernelInv(runtime.Snapshot(), clock.now) && runtime.phase == Reserved && runtime.authority == Some(a)
    modifies runtime, runtime.store, clock
    ensures runtime.lifecycleToken == old(runtime.lifecycleToken)
    ensures (runtime.Snapshot(), failure) == FulfilSteps(old(runtime.Snapshot()), w, a, script)
    ensures old(clock.now) <= script.startAt <= script.completeAt <= script.judgeAt == clock.now
    ensures script.waitCancelled ==> cancellable
  {
    hide StartAlone, KernelInv, ResultOf, JudgeSteps;
    ghost var k, from := runtime.Snapshot(), clock.now;
    var result;
    result, script := Start(runtime, clock, w, a);
    ghost var begun := script;
    script := script.(judgeAt := clock.now, waitCancelled := false);
    SameResult(w, a, begun, clock.now);
    if result.Err? {
      return Some(Rejected(result.error)), script;
    }
    if !result.value.success {
      return Some(ExecutionFailed), script;
    }
    StartedIsReady(k, ResultOf(w, a, begun), from, begun.startAt, begun.completeAt);
    ghost var judged;
    failure, judged := Settle(runtime, clock, w, cancellable);
    script := Joined(begun, judged);
  }

  lemma SameResult(w: Wish, a: Authority, x: Script, at: Time)
    ensures ResultOf(w, a, x.(judgeAt := at, waitCancelled := false)) == ResultOf(w, a, x)
  {
    hide ExecutionAnswer;
  }

  /** After a successful execution the attempt can be verified. */
  lemma StartedIsReady(k: Kernel, result: ExecutionResult, from: Time, start: Time, end: Time)
    requires KernelInv(k, from) && from <= start <= end && k.phase == Reserved && result.success
    requires StartAlone(k, result, start, end).1.None?
    ensures var k' := StartAlone(k, result, start, end).0;
      && k'.phase == Started && Completed(k') && Bound(k') && !k'.verificationActive
      && k'.observation == k.observation && k.observation.Some? && k.authority.Some?
      && k'.authority == Some(k.authority.value.(consumed := true)) && k'.result == result
  {
    EnvironmentKeeps(k, k.root, from, start);
    ExecuteOutcome(k, result, start, end);
    ResultIsKept(k, result, start, end);
    assert k.authority.Some? && k.observation.Some?;
    hide StartAlone, Bound;
  }

  lemma ResultIsKept(k: Kernel, result: ExecutionResult, start: Time, end: Time)
    requires StartAlone(k, result, start, end).1.None?
    ensures StartAlone(k, result, start, end).0.result == result
  {
    hide ValidFor;
  }

  /** From an accepted observation to the end of the attempt. */
  method Drive(runtime: Runtime, clock: Clock, w: Wish, ttl: int, mayAbort: bool, cancellable: bool)
    returns (failure: Option<Failure>, ghost script: Script)
    requires KernelInv(runtime.Snapshot(), clock.now) && runtime.phase == Observed
    modifies runtime, runtime.store, clock
    ensures runtime.lifecycleToken == old(runtime.lifecycleToken)
    ensures Some(script.seen) == old(runtime.observation)
    ensures old(clock.now) <= script.reserveAt <= script.startAt <= script.completeAt <= script.judgeAt == clock.now
    ensures (runtime.Snapshot(), failure) == DriveSteps(old(runtime.Snapshot()), w, runtime.policy, ttl, script)
    ensures failure == Some(VerifyCancelled) ==> cancellable
    ensures failure == Some(Aborted) ==> mayAbort
  {
    ghost var k, from := runtime.Snapshot(), clock.now;
    assert k.observation.Some?;
    var p := Proposal(w.desired.id, w.desired.fingerprint);
    var authority, aborted := Authorize(runtime, clock, p, ttl, mayAbort);
    EnvironmentKeeps(k, k.root, from, clock.now);
    AuthorizeOutcome(k, p, runtime.policy, ttl, clock.now, aborted);
    OnlyAbortedAborts(k, p, runtime.policy, ttl, clock.now, aborted);
    hide KernelInv, AuthorizeSteps;
    ghost var reserveAt, k1 := clock.now, runtime.Snapshot();
    if authority.Err? {
      script := *;
      script := script.(seen := k.observation.value, aborted := aborted, reserveAt := reserveAt,
                        startAt := reserveAt, completeAt := reserveAt, judgeAt := reserveAt);
      return Some(authority.error), script;
    }
    failure, script := Fulfil(runtime, clock, w, authority.value, cancellable);
    FulfilIgnores(k1, w, authority.value, script, k.observation.value, aborted, reserveAt);
    script := script.(seen := k.observation.value, aborted := aborted, reserveAt := reserveAt);
  }
}
