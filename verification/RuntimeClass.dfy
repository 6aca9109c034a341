/**
 The kernel runtime as the code has it: objects whose fields the lifecycle
 methods update in place. Each method is one mutex-protected section; its
 contract ties the new fields and the result to a step function. The clock is
 read inside the sections, so its reading is a parameter.
 */
module RuntimeClass {
  import opened Results
  import opened Evidence
  import opened KernelSteps

  class StateStore {
    var root: string

    constructor (root: string)
      ensures this.root == root
    {
      this.root := root;
    }

    method CompareAndSwap(expected: string, next: string) returns (err: Option<Error>)
      modifies this
      ensures (root, err) == KernelSteps.CompareAndSwap(old(root), expected, next)
    {
      if root != expected {
        return Some(CasConflict);
      }
      root := next;
      err := None;
    }
  }

  class Runtime {
    const store: StateStore
    const policy: Policy
    var lifecycleToken: bool      // the one-slot lifecycle gate channel is full
    var phase: Phase
    var observation: Option<Observation>
    var proposal: Option<NormalizedProposal>
    var transition: Option<Transition>
    var decision: Option<GovernanceDecision>
    var authority: Option<Authority>
    var executionDone: Option<Done>
    var executionCompletedAt: Time
    var verificationActive: bool
    var executionResult: ExecutionResult
    var made: nat
    var closed: set<Done>

    /** The fields as one value. */
    function Snapshot(): Kernel
      reads this, store
    {
      Kernel(store.root, phase, observation, proposal, transition, decision, authority,
             executionDone, executionCompletedAt, verificationActive, executionResult, made, closed)
    }

    constructor (initialRoot: string, policy: Option<Policy>)
      ensures Snapshot() == Initial(initialRoot) && lifecycleToken && fresh(store)
      ensures policy.Some? ==> this.policy == policy.value
      ensures policy.None? ==> this.policy == AllowPolicy
    {
      store := new StateStore(initialRoot);
      var chosen: Policy := AllowPolicy;
      if policy.Some? {
        chosen := policy.value;
      }
      this.policy := chosen;
      lifecycleToken := true;
      phase := Idle;
      observation, proposal, transition, decision, authority := None, None, None, None, None;
      executionDone, executionCompletedAt, verificationActive := None, ZERO_TIME, false;
      executionResult := NO_RESULT;
      made, closed := 0, {};
    }

    method ResetLifecycle()
      modifies this
      ensures Snapshot() == old(Snapshot()).(proposal := None, transition := None, decision := None,
                authority := None, executionDone := None, completedAt := ZERO_TIME,
                verificationActive := false, result := NO_RESULT)
      ensures lifecycleToken == old(lifecycleToken)
    {
      proposal, transition, decision, authority := None, None, None, None;
      executionDone := None;
      executionCompletedAt := ZERO_TIME;
      verificationActive := false;
      executionResult := NO_RESULT;
    }

    method Observe(o: Observation) returns (err: Option<Error>)
      modifies this
      ensures (Snapshot(), err) == ObserveStep(old(Snapshot()), o)
      ensures lifecycleToken == old(lifecycleToken)
    {
      err := Validate(o);
      if err.Some? {
        return;
      }
      if phase == Started || phase == Recovery || phase == Verified {
        return Some(InvalidLifecycle);
      }
      if observation.Some? && o.subject != observation.value.subject {
        return Some(InvalidObservation);
      }
      observation := Some(o);
      ResetLifecycle();
      phase := Observed;
      err := None;
    }

    method Normalize(p: Proposal) returns (r: Result<NormalizedProposal, Error>)
      modifies this
      ensures (Snapshot(), r) == NormalizeStep(old(Snapshot()), p)
      ensures lifecycleToken == old(lifecycleToken)
    {
      r := Evidence.Normalize(p);
      if r.Err? {
        return;
      }
      if observation.None? || phase != Observed {
        return Err(InvalidLifecycle);
      }
      if r.value.subject != observation.value.subject {
        return Err(InvalidProposal);
      }
      proposal := Some(r.value);
      phase := Normalized;
    }

    method Reconcile() returns (r: Result<Transition, Error>)
      modifies this
      ensures (Snapshot(), r) == ReconcileStep(old(Snapshot()))
      ensures lifecycleToken == old(lifecycleToken)
    {
      if observation.None? || proposal.None? || phase != Normalized {
        return Err(InvalidLifecycle);
      }
      r := Evidence.Reconcile(observation.value, proposal.value);
      if r.Err? {
        return;
      }
      transition := Some(r.value);
      phase := Reconciled;
    }

    method Govern() returns (r: Result<GovernanceDecision, Error>)
      modifies this
      ensures (Snapshot(), r) == GovernStep(old(Snapshot()), policy)
      ensures lifecycleToken == old(lifecycleToken)
    {
      if transition.None? || phase != Reconciled {
        return Err(InvalidLifecycle);
      }
      var d := policy(transition.value);
      if !BindsTransition(d, transition.value) {
        return Err(GovernanceDenied);
      }
      if transition.value.decision == Noop {
        return Err(GovernanceDenied);
      }
      if !d.allowed {
        return Err(GovernanceDenied);
      }
      decision := Some(d);
      phase := Authorized;
      r := Ok(d);
    }

    method Reserve(lifetime: int, now: Time) returns (r: Result<Authority, Error>)
      modifies this
      ensures (Snapshot(), r) == ReserveStep(old(Snapshot()), lifetime, now)
      ensures lifecycleToken == old(lifecycleToken)
    {
      if transition.None? || decision.None? || phase != Authorized {
        return Err(InvalidLifecycle);
      }
      if !decision.value.allowed {
        return Err(GovernanceDenied);
      }
      if lifetime < 0 {
        return Err(InvalidLifecycle);
      }
      var t := transition.value;
      var a := Authority(OfExecution(t.fingerprint, now), t.fingerprint, t.observation, t.proposal,
                         now, ZERO_TIME, false);
      if lifetime > 0 {
        a := a.(expiresAt := now + lifetime);
      }
      authority := Some(a);
      phase := Reserved;
      r := Ok(a);
    }

    /** Start, up to the point where the mutex is released for the executor. */
    method BeginStart(now: Time) returns (r: Result<Ticket, Error>)
      modifies this
      ensures (Snapshot(), r) == BeginStep(old(Snapshot()), now)
      ensures lifecycleToken == old(lifecycleToken)
    {
      hide ValidFor;
      if phase != Reserved || authority.None? || transition.None? || observation.None? {
        return Err(InvalidLifecycle);
      }
      var invalid := ValidFor(authority.value, transition.value, observation.value, now);
      if invalid.Some? {
        return Err(invalid.value);
      }
      if store.root != transition.value.before {
        return Err(CasConflict);
      }
      authority := Some(authority.value.(consumed := true));
      executionDone := Some(made);
      made := made + 1;
      executionCompletedAt := ZERO_TIME;
      verificationActive := false;
      phase := Started;
      r := Ok(Ticket(executionDone.value, transition.value, authority.value));
    }

    /** Start, after the executor has returned `result`. */
    method FinishStart(done: Done, result: ExecutionResult, now: Time)
      modifies this
      ensures Snapshot() == FinishStep(old(Snapshot()), done, result, now)
      ensures lifecycleToken == old(lifecycleToken)
    {
      if phase != Started || executionDone != Some(done) {
        return;
      }
      executionCompletedAt := now;
      executionResult := result;
      if !result.success {
        phase := Recovery;
      }
      closed := closed + {done};
    }

    method ReleaseVerificationIfCurrent(done: Done)
      modifies this
      ensures Snapshot() == ReleaseStep(old(Snapshot()), done)
      ensures lifecycleToken == old(lifecycleToken)
    {
      if executionDone == Some(done) && verificationActive {
        verificationActive := false;
      }
    }

    method FailVerification(done: Done)
      modifies this
      ensures Snapshot() == FailStep(old(Snapshot()), done)
      ensures lifecycleToken == old(lifecycleToken)
    {
      if phase == Started && executionDone == Some(done) && verificationActive {
        phase := Recovery;
        verificationActive := false;
      }
    }

    /** Verify, up to the wait for the executor. */
    method BeginVerify() returns (r: Result<Done, Error>)
      modifies this
      ensures (Snapshot(), r) == BeginVerifyStep(old(Snapshot()))
      ensures lifecycleToken == old(lifecycleToken)
    {
      if phase != Started || authority.None? || transition.None? || observation.None?
         || executionDone.None? || verificationActive {
        return Err(InvalidLifecycle);
      }
      verificationActive := true;
      r := Ok(executionDone.value);
    }

    /** Verify, after the wait: the snapshot that the verifier gets. */
    method AdmitVerifier(done: Done) returns (r: Result<Claim, Error>)
      modifies this
      ensures (Snapshot(), r) == AdmitStep(old(Snapshot()), done)
      ensures lifecycleToken == old(lifecycleToken)
    {
      if phase != Started || authority.None? || transition.None? || observation.None? || executionDone != Some(done) {
        ReleaseVerificationIfCurrent(done);
        return Err(InvalidLifecycle);
      }
      r := Ok(Claim(done, transition.value, authority.value, observation.value,
                    executionResult, executionCompletedAt));
    }

    /** Verify, after the verifier's evidence has been accepted. */
    method FinishVerify(done: Done) returns (err: Option<Error>)
      modifies this
      ensures (Snapshot(), err) == AcceptStep(old(Snapshot()), done)
      ensures lifecycleToken == old(lifecycleToken)
    {
      if phase != Started || executionDone != Some(done) || !verificationActive {
        return Some(InvalidLifecycle);
      }
      verificationActive := false;
      phase := Verified;
      err := None;
    }

    method Commit() returns (err: Option<Error>)
      modifies this, store
      ensures (Snapshot(), err) == CommitStep(old(Snapshot()))
      ensures lifecycleToken == old(lifecycleToken)
    {
      if phase != Verified || transition.None? {
        return Some(InvalidLifecycle);
      }
      err := store.CompareAndSwap(transition.value.before, transition.value.after);
      if err.Some? {
        phase := Recovery;
        return;
      }
      phase := Committed;
    }

    method Recover(o: Observation, now: Time) returns (err: Option<Error>)
      modifies this
      ensures (Snapshot(), err) == RecoverStep(old(Snapshot()), o, now)
      ensures lifecycleToken == old(lifecycleToken)
    {
      err := Validate(o);
      if err.Some? {
        return;
      }
      if phase != Recovery || observation.None? || executionCompletedAt == ZERO_TIME {
        return Some(InvalidLifecycle);
      }
      if o.subject != observation.value.subject {
        return Some(InvalidObservation);
      }
      if o.observedAt <= executionCompletedAt || o.observedAt > now {
        return Some(StaleEvidence);
      }
      observation := Some(o);
      ResetLifecycle();
      phase := Observed;
      err := None;
    }

    /** RecoverySubject */
    method RecoverySubject() returns (subject: Option<string>)
      ensures subject.Some? <==> phase == Recovery && observation.Some?
      ensures subject.Some? ==> subject.value == observation.value.subject
    {
      if phase != Recovery || observation.None? {
        return None;
      }
      subject := Some(observation.value.subject);
    }
  }
}
