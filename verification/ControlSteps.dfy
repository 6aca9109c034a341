/**
 One controlled change as a function: the sections of a lone caller's lifecycle in
 the order in which both the Host and the MCP server call them. A `Script` is what
 the outside contributes: observation, clock readings, callback answers, deadlines.
 */
module ControlSteps {
  import opened Results
  import opened Evidence
  import opened KernelSteps
  import opened Interleaving
  import opened Cooperation
  import opened Adapters

  datatype Failure =
    | Rejected(error: Error)
    | Aborted          // the caller's context ended before the reservation
    | ExecutionFailed
    | VerifyCancelled  // the wait for the executor was cancelled

  /** Who executes and verifies: a provider behind the adapters, or an executor and a verifier that
      speak the kernel's language. */
  datatype Parties =
    | Provider(request: ExecuteRequest)
    | Direct

  datatype Wish = Wish(desired: ResourceRef, parties: Parties)

  datatype Script = Script(
    seen: Observation,
    aborted: bool,
    reserveAt: Time,
    startAt: Time,
    completeAt: Time,
    judgeAt: Time,
    executorCancelled: bool,
    executorAnswer: Result<Execution, string>,
    directResult: ExecutionResult,
    waitCancelled: bool,
    verifierCancelled: bool,
    verifierAnswer: Result<Verification, string>,
    directEvidence: Option<Observation>)

  /** The observation boundary: RECOVERY is left by Recover, every other phase by Observe. */
  function EnterSteps(k: Kernel, o: Observation, now: Time): (Kernel, Option<Error>) {
    if k.phase == Recovery then RecoverStep(k, o, now) else ObserveStep(k, o)
  }

  /** Normalize, Reconcile, Govern, Reserve. */
  function AuthorizeSteps(k: Kernel, p: Proposal, policy: Policy, ttl: int, now: Time, aborted: bool)
      : (Kernel, Result<Authority, Failure>)
  {
    var (k1, n) := NormalizeStep(k, p);
    if n.Err? then (k1, Err(Rejected(n.error)))
    else
      var (k2, t) := ReconcileStep(k1);
      if t.Err? then (k2, Err(Rejected(t.error)))
      else
        var (k3, d) := GovernStep(k2, policy);
        if d.Err? then (k3, Err(Rejected(d.error)))
        else if aborted then (k3, Err(Aborted))
        else
          var (k4, a) := ReserveStep(k3, ttl, now);
          (k4, if a.Err? then Err(Rejected(a.error)) else Ok(a.value))
  }

  function ResultOf(w: Wish, a: Authority, x: Script): ExecutionResult {
    match w.parties
    case Provider(request) => ExecutionAnswer(request.(executionId := a.executionId), x.executorCancelled,
                                              x.executorAnswer)
    case Direct => x.directResult
  }

  function EvidenceOf(w: Wish, x: Script): Option<Observation> {
    match w.parties
    case Provider(_) => VerificationAnswer(VerifyRequest(EMPTY, w.desired, None, None), x.verifierCancelled,
                                           x.verifierAnswer)
    case Direct => x.directEvidence
  }

  /** Verify and Commit of an executed attempt. */
  function JudgeSteps(k: Kernel, w: Wish, x: Script): (Kernel, Option<Failure>) {
    if x.waitCancelled then (k, Some(VerifyCancelled))
    else
      var (k1, verified) := VerifyAlone(k, EvidenceOf(w, x), x.judgeAt);
      if verified.Some? then (k1, Some(Rejected(verified.value)))
      else
        var (k2, committed) := CommitStep(k1);
        (k2, if committed.Some? then Some(Rejected(committed.value)) else None)
  }

  /** Start, Verify and Commit of a reserved attempt. */
  function FulfilSteps(k: Kernel, w: Wish, a: Authority, x: Script): (Kernel, Option<Failure>) {
    var result := ResultOf(w, a, x);
    var (k1, started) := StartAlone(k, result, x.startAt, x.completeAt);
    if started.Some? then (k1, Some(Rejected(started.value)))
    else if !result.success then (k1, Some(ExecutionFailed))
    else JudgeSteps(k1, w, x)
  }

  /** Once reserved, how it came to that is in the script for the record only. */
  lemma FulfilIgnores(k: Kernel, w: Wish, a: Authority, x: Script, o: Observation, aborted: bool, at: Time)
    ensures FulfilSteps(k, w, a, x.(seen := o, aborted := aborted, reserveAt := at)) == FulfilSteps(k, w, a, x)
    ensures FulfilSteps(k, w, a, x).1 == Some(VerifyCancelled) ==> x.waitCancelled
    ensures FulfilSteps(k, w, a, x).1 != Some(Aborted)
  {
    hide StartAlone, VerifyAlone, CommitStep;
  }

  lemma OnlyAbortedAborts(k: Kernel, p: Proposal, policy: Policy, ttl: int, now: Time, aborted: bool)
    ensures AuthorizeSteps(k, p, policy, ttl, now, aborted).1 == Err(Aborted) ==> aborted
    ensures AuthorizeSteps(k, p, policy, ttl, now, aborted).1 != Err(VerifyCancelled)
  {
    hide NormalizeStep, ReconcileStep, GovernStep, ReserveStep;
  }

  /** What a successful change has established. */
  predicate Delivered(before: Kernel, after: Kernel, w: Wish, x: Script, now: Time) {
    && after.phase == Committed
    && before.root == x.seen.state && after.root == w.desired.fingerprint && after.root != before.root
    && x.seen.subject == w.desired.id && after.observation == Some(x.seen)
    && after.authority.Some? && after.authority.value.consumed
    && ResultOf(w, after.authority.value, x).success
    && EvidenceOf(w, x).Some? && Evidences(EvidenceOf(w, x).value, w.desired, x, now)
    && (w.parties.Provider? ==> ProviderAgrees(after, w.desired, x, now))
  }

  /** Evidence for the desired state, dated after the execution and under a changed concurrency token. */
  predicate Evidences(o: Observation, desired: ResourceRef, x: Script, now: Time) {
    && Valid(o) && ResourceRef(o.subject, o.state) == desired && x.completeAt < o.observedAt <= now
    && (x.seen.token != "" ==> o.token != "" && o.token != x.seen.token)
  }

  predicate ProviderAgrees(after: Kernel, desired: ResourceRef, x: Script, now: Time)
    requires after.authority.Some?
  {
    && x.executorAnswer.Ok? && x.executorAnswer.value.executionId == after.authority.value.executionId
    && x.verifierAnswer.Ok? && x.verifierAnswer.value.resource == desired
    && x.completeAt < x.verifierAnswer.value.verifiedAt <= now
    && (x.seen.token != "" ==> x.verifierAnswer.value.token != "" && x.verifierAnswer.value.token != x.seen.token)
  }

  lemma AnswersAgree(k: Kernel, w: Wish, x: Script, now: Time)
    requires k.authority.Some? && ResultOf(w, k.authority.value, x).success && w.parties.Provider?
    requires EvidenceOf(w, x).Some? && Evidences(EvidenceOf(w, x).value, w.desired, x, now)
    ensures ProviderAgrees(k, w.desired, x, now)
  {
    hide NewObservation, Validate, ExecutionAnswer, VerificationAnswer;
  }

  /** The executor of a reserved attempt runs and succeeds, and then the wait for it is cancelled: the
      `select` takes the ended context although the executor has finished. */
  predicate Abandoned(k: Kernel, w: Wish, a: Authority, x: Script) {
    BeginStep(k, x.startAt).1.Ok? && ResultOf(w, a, x).success && x.waitCancelled
  }

  /** The guards behind an attempt that stays in STARTED. */
  predicate Stranded(k: Kernel, w: Wish, policy: Policy, ttl: int, x: Script) {
    var (k1, r) := AuthorizeSteps(k, Proposal(w.desired.id, w.desired.fingerprint), policy, ttl, x.reserveAt,
                                  x.aborted);
    r.Ok? && Abandoned(k1, w, r.value, x)
  }

  lemma EnterOutcome(k: Kernel, o: Observation, now: Time)
    requires KernelInv(k, now) && Quiescent(k)
    ensures var (k', err) := EnterSteps(k, o, now);
      && KernelInv(k', now)
      && (err.Some? <== k.phase == Started || k.phase == Verified)
      && if err.Some? then k' == k else k' == ResetTo(k, o)
  {
    ObserveKeeps(k, o, now);
    hide KernelInv, Validate;
  }

  lemma AuthorizeOutcome(k: Kernel, p: Proposal, policy: Policy, ttl: int, now: Time, aborted: bool)
    requires KernelInv(k, now) && k.phase == Observed
    ensures var (k', r) := AuthorizeSteps(k, p, policy, ttl, now, aborted);
      && KernelInv(k', now) && k'.root == k.root && k'.observation == k.observation
      && 1 <= Stage(k'.phase) <= 5 && (r.Ok? <==> k'.phase == Reserved)
      && (r.Err? ==> r.error != VerifyCancelled)
      && (r.Ok? ==> Some(r.value) == k'.authority && !r.value.consumed
                    && k'.transition.value.after == p.target && k'.observation.value.subject == p.subject)
  {
    var (k1, n) := NormalizeStep(k, p);
    var (k2, t) := ReconcileStep(k1);
    var (k3, d) := GovernStep(k2, policy);
    NormalizeOutcome(k, p, now);
    if n.Ok? {
      ReconcileOutcome(k1, now);
      GovernOutcome(k2, policy, now);
      ReserveOutcome(k3, ttl, now);
    }
    hide NormalizeStep, ReconcileStep, GovernStep, ReserveStep, KernelInv;
  }

  lemma NormalizeOutcome(k: Kernel, p: Proposal, now: Time)
    requires KernelInv(k, now) && k.phase == Observed
    ensures var (k', r) := NormalizeStep(k, p);
      && KernelInv(k', now) && k'.root == k.root && k'.observation == k.observation && k.observation.Some?
      && (r.Err? ==> k' == k)
      && (r.Ok? ==> k'.phase == Normalized && k'.proposal.value.target == p.target
                    && k.observation.value.subject == p.subject)
  {
    NormalizeKeeps(k, p, now);
    hide Channels, ValidateProposal, Validate;
  }

  lemma ReconcileOutcome(k: Kernel, now: Time)
    requires KernelInv(k, now) && k.phase == Normalized
    ensures var (k', r) := ReconcileStep(k);
      && KernelInv(k', now) && k'.root == k.root && k'.observation == k.observation
      && r.Ok? && k'.phase == Reconciled && k.proposal.Some? && k'.transition.value.after == k.proposal.value.target
  {
    ReconcileKeeps(k, now);
    hide Channels, ValidateProposal, Validate;
  }

  lemma GovernOutcome(k: Kernel, policy: Policy, now: Time)
    requires KernelInv(k, now) && k.phase == Reconciled
    ensures var (k', r) := GovernStep(k, policy);
      && KernelInv(k', now) && k'.root == k.root && k'.observation == k.observation
      && k.transition.Some? && k'.transition == k.transition
      && (r.Err? ==> k' == k) && (r.Ok? ==> k'.phase == Authorized)
  {
    assert k.transition.Some?;
    GovernKeeps(k, policy(k.transition.value), now);
    hide Channels, ValidateProposal, Validate, Reconcile;
  }

  lemma ReserveOutcome(k: Kernel, ttl: int, now: Time)
    requires KernelInv(k, now)
    ensures var (k', r) := ReserveStep(k, ttl, now);
      && KernelInv(k', now) && k'.root == k.root && k'.observation == k.observation && k'.transition == k.transition
      && (r.Err? ==> k' == k)
      && (r.Ok? ==> k.phase == Authorized && k'.phase == Reserved && k'.authority == Some(r.value) && !r.value.consumed)
  {
    ReserveKeeps(k, ttl, now);
    hide Channels, ValidateProposal, Validate, Reconcile;
  }

  lemma ExecuteOutcome(k: Kernel, result: ExecutionResult, now: Time, end: Time)
    requires KernelInv(k, now) && k.phase == Reserved && now <= end
    ensures var (k', err) := StartAlone(k, result, now, end);
      && KernelInv(k', end) && Quiescent(k') && k'.root == k.root && k'.observation == k.observation
      && k'.transition == k.transition
      && (err.None? <==> BeginStep(k, now).1.Ok?)
      && (err.Some? ==> k' == k)
      && (err.None? ==> k'.phase == (if result.success then Started else Recovery) && k'.completedAt == end
                        && k.root == k.observation.value.state
                        && k'.authority == Some(k.authority.value.(consumed := true)))
  {
    var k1 := BeginStep(k, now).0;
    BeginKeeps(k, now);
    EnvironmentKeeps(k1, k1.root, now, end);
    assert BeginStep(k, now).1.Ok? ==>
           k1.executionDone == Some(k.made) && k1.phase == Started && !k1.verificationActive;
    FinishKeeps(k1, k.made, result, end);
    hide KernelInv, ValidFor;
  }

  lemma VerifyOutcome(k: Kernel, answer: Option<Observation>, now: Time)
    requires KernelInv(k, now) && k.phase == Started && Completed(k) && !k.verificationActive
    ensures var (k', err) := VerifyAlone(k, answer, now);
      && KernelInv(k', now)
      && (err.None? <==> answer.Some?
                         && Proves(answer.value, k.transition.value, k.observation.value, k.completedAt, now))
      && k' == k.(phase := if err.None? then Verified else Recovery)
  {
    hide Proves;
    var k1, done := BeginVerifyStep(k).0, k.executionDone.value;
    ReserveVerifierKeeps(k, done, now);
    assert k1 == k.(verificationActive := true) && Completed(k1);
    JudgeKeeps(k1, done, now);
    hide KernelInv, Bound, Channels;
  }

  /** How a reserved attempt can end: committed with everything delivered, or failed
      with the root untouched. It stays in STARTED exactly when it is abandoned, and never
      in VERIFIED. */
  lemma FulfilOutcome(k: Kernel, w: Wish, a: Authority, x: Script)
    requires KernelInv(k, x.startAt) && k.phase == Reserved && k.authority == Some(a)
    requires k.transition.value.after == w.desired.fingerprint && k.observation == Some(x.seen)
    requires x.seen.subject == w.desired.id
    requires x.startAt <= x.completeAt <= x.judgeAt
    ensures var (k', failure) := FulfilSteps(k, w, a, x);
      && KernelInv(k', x.judgeAt) && Quiescent(k')
      && (failure.None? ==> Delivered(k, k', w, x, x.judgeAt))
      && (failure.Some? ==> k'.root == k.root && k'.phase != Committed)
      && (k'.phase == Started <==> Abandoned(k, w, a, x))
      && (k'.phase == Started <==> failure == Some(VerifyCancelled))
      && k'.phase != Verified
  {
    var result := ResultOf(w, a, x);
    var (k1, started) := StartAlone(k, result, x.startAt, x.completeAt);
    ExecuteOutcome(k, result, x.startAt, x.completeAt);
    EnvironmentKeeps(k1, k1.root, x.completeAt, x.judgeAt);
    if started.None? && result.success && !x.waitCancelled {
      var (k2, verified) := VerifyAlone(k1, EvidenceOf(w, x), x.judgeAt);
      VerifyOutcome(k1, EvidenceOf(w, x), x.judgeAt);
      CommitKeeps(k2, x.judgeAt);
      assert k1.transition.value.before == x.seen.state && k1.transition.value.before != k1.transition.value.after;
      assert k1.transition.value.subject == x.seen.subject;
      hide StartAlone, VerifyAlone, KernelInv, Bound, Channels, ResultOf, EvidenceOf, BeginStep, ProviderAgrees, Valid;
      if verified.None? && w.parties.Provider? {
        AnswersAgree(CommitStep(k2).0, w, x, x.judgeAt);
      }
    } else {
      hide StartAlone, VerifyAlone, Bound, Channels, ResultOf, EvidenceOf, BeginStep;
    }
  }

  /** From an accepted observation to the end of the attempt. */
  function DriveSteps(k: Kernel, w: Wish, policy: Policy, ttl: int, x: Script): (Kernel, Option<Failure>) {
    var (k1, r) := AuthorizeSteps(k, Proposal(w.desired.id, w.desired.fingerprint), policy, ttl, x.reserveAt,
                                  x.aborted);
    if r.Err? then (k1, Some(r.error)) else FulfilSteps(k1, w, r.value, x)
  }

  lemma DriveOutcome(k: Kernel, w: Wish, policy: Policy, ttl: int, x: Script, now: Time)
    requires KernelInv(k, x.reserveAt) && k.phase == Observed && k.observation == Some(x.seen)
    requires x.reserveAt <= x.startAt <= x.completeAt <= x.judgeAt == now
    ensures var (k', failure) := DriveSteps(k, w, policy, ttl, x);
      && KernelInv(k', now) && Quiescent(k')
      && (failure.None? ==> Delivered(k, k', w, x, now))
      && (failure.Some? ==> k'.root == k.root && k'.phase != Committed)
      && (k'.phase == Started <==> Stranded(k, w, policy, ttl, x))
      && (k'.phase == Started <==> failure == Some(VerifyCancelled))
      && k'.phase != Verified
  {
    hide AuthorizeSteps, FulfilSteps, Abandoned, Delivered, KernelInv;
    var p := Proposal(w.desired.id, w.desired.fingerprint);
    AuthorizeOutcome(k, p, policy, ttl, x.reserveAt, x.aborted);
    var (k1, r) := AuthorizeSteps(k, p, policy, ttl, x.reserveAt, x.aborted);
    EnvironmentKeeps(k1, k1.root, x.reserveAt, x.startAt);
    EnvironmentKeeps(k1, k1.root, x.reserveAt, now);
    assert k1.(root := k1.root) == k1;
    if r.Ok? {
      FulfilOutcome(k1, w, r.value, x);
      DeliveredFromRoot(k, k1, FulfilSteps(k1, w, r.value, x).0, w, x, now);
    } else {
      QuietMeansQuiescent(k1, now);
    }
  }

  lemma DeliveredFromRoot(k: Kernel, k1: Kernel, after: Kernel, w: Wish, x: Script, now: Time)
    requires k.root == k1.root
    ensures Delivered(k, after, w, x, now) == Delivered(k1, after, w, x, now)
  {
    hide ResultOf, EvidenceOf, Evidences, ProviderAgrees;
  }

  lemma QuietMeansQuiescent(k: Kernel, now: Time)
    requires KernelInv(k, now) && Stage(k.phase) <= 5
    ensures Quiescent(k)
  {
  }
}
