/**
 What each mutex-protected section of the kernel runtime does to the runtime's
 fields, as functions on a value. `Start` is two sections around the executor
 callback, with an unlocked read between them; `Verify` is four sections.
 `RuntimeClass` proves the in-place code against these functions, and
 `Interleaving` lets any number of calls mix them.
 */
module KernelSteps {
  import opened Results
  import opened Evidence

  datatype Phase =
    | Idle | Observed | Normalized | Reconciled | Authorized | Reserved
    | Started | Verified | Committed | Recovery

  /** The identity of an executionDone channel: the n-th channel made. */
  type Done = nat

  datatype Kernel = Kernel(
    root: string,
    phase: Phase,
    observation: Option<Observation>,
    proposal: Option<NormalizedProposal>,
    transition: Option<Transition>,
    decision: Option<GovernanceDecision>,
    authority: Option<Authority>,
    executionDone: Option<Done>,
    completedAt: Time,
    verificationActive: bool,
    result: ExecutionResult,
    made: nat,          // channels made so far
    closed: set<Done>)  // channels closed so far

  function Initial(root: string): Kernel {
    Kernel(root, Idle, None, None, None, None, None, None, ZERO_TIME, false, NO_RESULT, 0, {})
  }

  /** What Start holds when it lets go of the mutex to run the executor. */
  datatype Ticket = Ticket(done: Done, transition: Transition, authority: Authority)

  /** What Verify holds when it lets go of the mutex to run the verifier. */
  datatype Claim = Claim(
    done: Done,
    transition: Transition,
    authority: Authority,
    before: Observation,
    execution: ExecutionResult,
    completedAt: Time)

  function ResetTo(k: Kernel, o: Observation): Kernel {
    Kernel(k.root, Observed, Some(o), None, None, None, None, None, ZERO_TIME, false, NO_RESULT, k.made, k.closed)
  }

  function ObserveStep(k: Kernel, o: Observation): (Kernel, Option<Error>) {
    if Validate(o).Some? then (k, Validate(o))
    else if k.phase == Started || k.phase == Recovery || k.phase == Verified then (k, Some(InvalidLifecycle))
    else if k.observation.Some? && o.subject != k.observation.value.subject then (k, Some(InvalidObservation))
    else (ResetTo(k, o), None)
  }

  function NormalizeStep(k: Kernel, p: Proposal): (Kernel, Result<NormalizedProposal, Error>) {
    var n := Normalize(p);
    if n.Err? then (k, n)
    else if k.observation.None? || k.phase != Observed then (k, Err(InvalidLifecycle))
    else if n.value.subject != k.observation.value.subject then (k, Err(InvalidProposal))
    else (k.(proposal := Some(n.value), phase := Normalized), n)
  }

  function ReconcileStep(k: Kernel): (Kernel, Result<Transition, Error>) {
    if k.observation.None? || k.proposal.None? || k.phase != Normalized then (k, Err(InvalidLifecycle))
    else
      var t := Reconcile(k.observation.value, k.proposal.value);
      if t.Err? then (k, t)
      else (k.(transition := Some(t.value), phase := Reconciled), t)
  }

  function GovernStep(k: Kernel, policy: Policy): (Kernel, Result<GovernanceDecision, Error>) {
    if k.transition.None? || k.phase != Reconciled then (k, Err(InvalidLifecycle))
    else
      var t := k.transition.value;
      var d := policy(t);
      if !BindsTransition(d, t) || t.decision == Noop || !d.allowed then (k, Err(GovernanceDenied))
      else (k.(decision := Some(d), phase := Authorized), Ok(d))
  }

  function ReserveStep(k: Kernel, lifetime: int, now: Time): (Kernel, Result<Authority, Error>) {
    if k.transition.None? || k.decision.None? || k.phase != Authorized then (k, Err(InvalidLifecycle))
    else if !k.decision.value.allowed then (k, Err(GovernanceDenied))
    else if lifetime < 0 then (k, Err(InvalidLifecycle))
    else
      var t := k.transition.value;
      var a := Authority(OfExecution(t.fingerprint, now), t.fingerprint, t.observation, t.proposal,
                         now, if lifetime > 0 then now + lifetime else ZERO_TIME, false);
      (k.(authority := Some(a), phase := Reserved), Ok(a))
  }

  /** The first section of Start. */
  function BeginStep(k: Kernel, now: Time): (Kernel, Result<Ticket, Error>) {
    if k.phase != Reserved || k.authority.None? || k.transition.None? || k.observation.None? then
      (k, Err(InvalidLifecycle))
    else
      var invalid := ValidFor(k.authority.value, k.transition.value, k.observation.value, now);
      if invalid.Some? then (k, Err(invalid.value))
      else if k.root != k.transition.value.before then (k, Err(CasConflict))
      else
        var a := k.authority.value.(consumed := true);
        (k.(authority := Some(a), executionDone := Some(k.made), made := k.made + 1,
            completedAt := ZERO_TIME, verificationActive := false, phase := Started),
         Ok(Ticket(k.made, k.transition.value, a)))
  }

  predicate Superseded(k: Kernel, done: Done) {
    k.phase != Started || k.executionDone != Some(done)
  }

  /** The second section of Start. */
  function FinishStep(k: Kernel, done: Done, result: ExecutionResult, now: Time): Kernel {
    if Superseded(k, done) then k
    else k.(completedAt := now, result := result, closed := k.closed + {done},
            phase := if result.success then Started else Recovery)
  }

  /** The first section of Verify: the reservation. */
  function BeginVerifyStep(k: Kernel): (Kernel, Result<Done, Error>) {
    if k.phase != Started || k.authority.None? || k.transition.None? || k.observation.None?
       || k.executionDone.None? || k.verificationActive then
      (k, Err(InvalidLifecycle))
    else
      (k.(verificationActive := true), Ok(k.executionDone.value))
  }

  /** releaseVerificationIfCurrent */
  function ReleaseStep(k: Kernel, done: Done): Kernel {
    if k.executionDone == Some(done) && k.verificationActive then k.(verificationActive := false) else k
  }

  /** The section after the wait: take a snapshot for the verifier, or give up. */
  function AdmitStep(k: Kernel, done: Done): (Kernel, Result<Claim, Error>) {
    if Superseded(k, done) || k.authority.None? || k.transition.None? || k.observation.None? then
      (ReleaseStep(k, done), Err(InvalidLifecycle))
    else
      (k, Ok(Claim(done, k.transition.value, k.authority.value, k.observation.value, k.result, k.completedAt)))
  }

  /** Post-execution evidence: for the transition, new, after completion, not from the future,
      and under a changed concurrency token when the authorised observation had one. */
  predicate Proves(o: Observation, t: Transition, before: Observation, completedAt: Time, now: Time) {
    && Valid(o)
    && o.subject == t.subject
    && o.state == t.after
    && o.fingerprint != t.observation
    && completedAt < o.observedAt <= now
    && (before.token != "" ==> o.token != "" && o.token != before.token)
  }

  /** failVerification */
  function FailStep(k: Kernel, done: Done): Kernel {
    if k.phase == Started && k.executionDone == Some(done) && k.verificationActive
    then k.(phase := Recovery, verificationActive := false)
    else k
  }

  /** The last section of Verify, reached only with evidence that proves the transition. */
  function AcceptStep(k: Kernel, done: Done): (Kernel, Option<Error>) {
    if Superseded(k, done) || !k.verificationActive then (k, Some(InvalidLifecycle))
    else (k.(verificationActive := false, phase := Verified), None)
  }

  function CompareAndSwap(root: string, expected: string, next: string): (string, Option<Error>) {
    if root != expected then (root, Some(CasConflict)) else (next, None)
  }

  function CommitStep(k: Kernel): (Kernel, Option<Error>) {
    if k.phase != Verified || k.transition.None? then (k, Some(InvalidLifecycle))
    else
      var (root, conflict) := CompareAndSwap(k.root, k.transition.value.before, k.transition.value.after);
      if conflict.Some? then (k.(phase := Recovery), conflict)
      else (k.(root := root, phase := Committed), None)
  }

  function RecoverStep(k: Kernel, o: Observation, now: Time): (Kernel, Option<Error>) {
    if Validate(o).Some? then (k, Validate(o))
    else if k.phase != Recovery || k.observation.None? || k.completedAt == ZERO_TIME then (k, Some(InvalidLifecycle))
    else if o.subject != k.observation.value.subject then (k, Some(InvalidObservation))
    else if o.observedAt <= k.completedAt || o.observedAt > now then (k, Some(StaleEvidence))
    else (ResetTo(k, o), None)
  }
}
