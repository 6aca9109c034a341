/**
 One caller at a time. `StartAlone` and `VerifyAlone` are the sections of a call
 run back to back; on top of them: with a policy that allows, an executor that
 succeeds, a verifier that answers with proof and nobody else writing the root,
 at most ten calls bring the runtime from any phase to COMMITTED at the wanted
 state.
 */
module Cooperation {
  import opened Results
  import opened Evidence
  import opened KernelSteps
  import opened Interleaving

  /** Start with nobody interfering; the executor returns at `end`. */
  function StartAlone(k: Kernel, result: ExecutionResult, now: Time, end: Time): (Kernel, Option<Error>) {
    var (k', r) := BeginStep(k, now);
    match r
    case Err(e) => (k', Some(e))
    case Ok(ticket) => (FinishStep(k', ticket.done, result, end), None)
  }

  /** Verify with nobody interfering, after the executor has returned. */
  function VerifyAlone(k: Kernel, answer: Option<Observation>, now: Time): (Kernel, Option<Error>) {
    var (k1, r1) := BeginVerifyStep(k);
    match r1
    case Err(e) => (k1, Some(e))
    case Ok(done) =>
      var (k2, r2) := AdmitStep(k1, done);
      match r2
      case Err(e) => (k2, Some(e))
      case Ok(c) =>
        if answer.Some? && Proves(answer.value, c.transition, c.before, c.completedAt, now)
        then AcceptStep(k2, done)
        else (FailStep(k2, done), Some(VerificationFailed))
  }

  /** A lone Verify is the same as its four sections in any interleaving that gives them
      to it without a break. */
  lemma VerifyAloneIsItsSections(s: System, id: CallId, answer: Option<Observation>)
    requires id !in s.calls && s.kernel.phase == Started && !s.kernel.verificationActive && Completed(s.kernel)
    requires s.kernel.transition.Some? && s.kernel.authority.Some? && s.kernel.observation.Some?
    ensures var s1 := Do(s, EnterVerify(id));
      && Enabled(s1, AdmitVerify(id))
      && var s2 := Do(s1, AdmitVerify(id));
      && Enabled(s2, AnswerVerify(id, answer))
      && var s3 := Do(s2, AnswerVerify(id, answer));
      && var a := if VerifyAlone(s.kernel, answer, s.now).1.None? then AcceptVerify(id) else RejectVerify(id);
      && Enabled(s3, a)
      && Do(s3, a).kernel == VerifyAlone(s.kernel, answer, s.now).0
      && Do(s3, a).calls == s.calls && Do(s3, a).now == s.now
  {
    AdmittedAlone(s, id);
    var s2 := Do(Do(s, EnterVerify(id)), AdmitVerify(id));
    JudgedAlone(s2, id, answer);
    assert s2.calls - {id} == s.calls;
    hide Do, Proves;
  }

  /** What the verifier is asked about. */
  function ClaimOf(k: Kernel, done: Done): Claim
    requires k.transition.Some? && k.authority.Some? && k.observation.Some?
  {
    Claim(done, k.transition.value, k.authority.value, k.observation.value, k.result, k.completedAt)
  }

  lemma AdmittedAlone(s: System, id: CallId)
    requires id !in s.calls && s.kernel.phase == Started && !s.kernel.verificationActive && Completed(s.kernel)
    requires s.kernel.transition.Some? && s.kernel.authority.Some? && s.kernel.observation.Some?
    ensures var k := s.kernel;
      && var s1 := Do(s, EnterVerify(id));
      && Enabled(s1, AdmitVerify(id))
      && Do(s1, AdmitVerify(id))
         == s.(kernel := k.(verificationActive := true),
               calls := s.calls[id := Checking(ClaimOf(k, k.executionDone.value))])
  {
    hide ObserveStep, NormalizeStep, ReconcileStep, GovernStep, ReserveStep, BeginStep, CommitStep, RecoverStep,
      FinishStep;
    var k, done := s.kernel, s.kernel.executionDone.value;
    var s1 := Do(s, EnterVerify(id));
    assert s1 == s.(kernel := k.(verificationActive := true), calls := s.calls[id := Awaiting(done)]);
    assert s1.calls[id := Checking(ClaimOf(k, done))] == s.calls[id := Checking(ClaimOf(k, done))];
  }

  lemma JudgedAlone(s: System, id: CallId, answer: Option<Observation>)
    requires s.kernel.phase == Started && s.kernel.verificationActive && Completed(s.kernel)
    requires s.kernel.transition.Some? && s.kernel.authority.Some? && s.kernel.observation.Some?
    requires id in s.calls && s.calls[id] == Checking(ClaimOf(s.kernel, s.kernel.executionDone.value))
    ensures var k := s.kernel;
      && var s' := Do(s, AnswerVerify(id, answer));
      && var proven := answer.Some? && Proves(answer.value, k.transition.value, k.observation.value, k.completedAt,
                                              s.now);
      && var a := if proven then AcceptVerify(id) else RejectVerify(id);
      && Enabled(s', a)
      && Do(s', a).kernel == k.(verificationActive := false, phase := if proven then Verified else Recovery)
      && Do(s', a).calls == s.calls - {id} && Do(s', a).now == s.now
  {
    hide Proves, ObserveStep, NormalizeStep, ReconcileStep, GovernStep, ReserveStep, BeginStep, CommitStep,
      RecoverStep, FinishStep;
  }

  /** A lone Start is the same as its sections, when the executor returns at once. */
  lemma StartAloneIsItsSections(s: System, id: CallId, result: ExecutionResult)
    requires id !in s.calls && BeginStep(s.kernel, s.now).1.Ok?
    ensures var s1 := Do(s, EnterStart(id));
      && Enabled(s1, ReadBefore(id))
      && var s2 := Do(s1, ReadBefore(id));
      && Enabled(s2, LeaveStart(id, result))
      && var s3 := Do(s2, LeaveStart(id, result));
      && s3.kernel == StartAlone(s.kernel, result, s.now, s.now).0
      && s3.calls == s.calls && s3.now == s.now
  {
    hide Proves, ObserveStep, NormalizeStep, ReconcileStep, GovernStep, ReserveStep, CommitStep, RecoverStep, ValidFor;
    var (k, r) := BeginStep(s.kernel, s.now);
    var s1 := Do(s, EnterStart(id));
    assert s1.kernel == k && s1.calls == s.calls[id := Entered(r.value)] && s1.now == s.now;
    var s2 := Do(s1, ReadBefore(id));
    assert s2.kernel == k && s2.calls == s.calls[id := Executing(r.value, k.observation.value)] && s2.now == s.now;
  }

  /** No call in flight: whatever was started has finished. */
  predicate Quiescent(k: Kernel) {
    (k.phase == Started ==> Completed(k)) && !k.verificationActive
  }

  function FreshLook(subject: string, state: string, previousToken: string, at: Time): Observation {
    var token := previousToken + "'";
    Observation(subject, state, 0, token, at, OfObservation(subject, state, 0, token, at))
  }

  /** The attempt so far leads from the current root to the target and has not expired. */
  predicate OnTrack(k: Kernel, target: string, now: Time) {
    && (k.observation.Some? ==> k.observation.value.state == k.root)
    && (k.proposal.Some? ==> k.proposal.value.target == target)
    && (k.phase == Reserved ==>
          k.authority.Some? && (k.authority.value.expiresAt == ZERO_TIME || now < k.authority.value.expiresAt))
  }

  predicate Reached(k: Kernel, target: string) {
    k.phase == Committed && k.root == target
  }

  /** One call by a caller that wants `target`, every party cooperating. */
  function Cooperate(k: Kernel, subject: string, target: string, now: Time): Kernel {
    var subject' := if k.observation.Some? then k.observation.value.subject else subject;
    var seen := FreshLook(subject', k.root, "", now);
    if k.phase == Recovery then RecoverStep(k, seen, now).0
    else if k.phase == Verified then CommitStep(k).0
    else if k.phase == Started then
      if k.transition.Some? && k.observation.Some?
      then VerifyAlone(k, Some(FreshLook(subject', k.transition.value.after, k.observation.value.token, now)), now).0
      else k
    else if k.phase == Idle || k.phase == Committed || !OnTrack(k, target, now) then ObserveStep(k, seen).0
    else if k.phase == Observed then NormalizeStep(k, Proposal(subject', target)).0
    else if k.phase == Normalized then ReconcileStep(k).0
    else if k.phase == Reconciled then GovernStep(k, AllowPolicy).0
    else if k.phase == Authorized then ReserveStep(k, 0, now).0
    else StartAlone(k, ExecutionResult(EMPTY, true, "", ""), now, now).0
  }

  /** How many cooperative calls are left at most. */
  function Rank(k: Kernel, target: string, now: Time): nat {
    if Reached(k, target) then 0
    else if k.phase == Verified then if OnTrack(k, target, now) then 1 else 9
    else if k.phase == Started then if OnTrack(k, target, now) then 2 else 10
    else if Stage(k.phase) == 0 || 8 <= Stage(k.phase) || !OnTrack(k, target, now) then 8
    else 8 - Stage(k.phase)
  }

  /** There is something to do, and the clock is one that evidence can carry. */
  predicate Feasible(k: Kernel, subject: string, target: string) {
    subject != "" && target != "" && k.root != "" && (k.root == target ==> Reached(k, target))
  }

  predicate Ready(k: Kernel, subject: string, target: string, now: Time) {
    KernelInv(k, now) && Quiescent(k) && Feasible(k, subject, target)
  }

  ghost predicate Advances(k: Kernel, k': Kernel, subject: string, target: string, now: Time, next: Time) {
    Ready(k', subject, target, now) && Rank(k', target, next) < Rank(k, target, now)
  }

  /** A fresh look at the root starts an attempt that is on track. */
  lemma LookingAdvances(k: Kernel, subject: string, target: string, now: Time, next: Time)
    requires Ready(k, subject, target, now) && !Reached(k, target) && k.completedAt < now < FIRST_UNENCODABLE
    requires k.phase != Started && k.phase != Verified
    requires 1 <= Stage(k.phase) <= 5 ==> !OnTrack(k, target, now)
    ensures Advances(k, Cooperate(k, subject, target, now), subject, target, now, next)
  {
    var seen := FreshLook(if k.observation.Some? then k.observation.value.subject else subject, k.root, "", now);
    assert Valid(seen);
    ObserveKeeps(k, seen, now);
    LookingResets(k, subject, target, now);
    hide KernelInv, Valid, Cooperate;
  }

  lemma LookingResets(k: Kernel, subject: string, target: string, now: Time)
    requires Ready(k, subject, target, now) && !Reached(k, target) && k.completedAt < now < FIRST_UNENCODABLE
    requires k.phase != Started && k.phase != Verified
    requires 1 <= Stage(k.phase) <= 5 ==> !OnTrack(k, target, now)
    ensures Cooperate(k, subject, target, now) ==
              ResetTo(k, FreshLook(if k.observation.Some? then k.observation.value.subject else subject, k.root, "",
                                   now))
  {
    var seen := FreshLook(if k.observation.Some? then k.observation.value.subject else subject, k.root, "", now);
    assert Valid(seen);
    hide Validate, Reconcile, ValidateProposal, OnTrack, StartAlone, VerifyAlone, NormalizeStep, ReconcileStep,
      GovernStep, ReserveStep, CommitStep;
  }

  lemma PreparingAdvances(k: Kernel, subject: string, target: string, now: Time, next: Time)
    requires Ready(k, subject, target, now) && 1 <= Stage(k.phase) <= 4 && OnTrack(k, target, now)
    ensures Advances(k, Cooperate(k, subject, target, now), subject, target, now, next)
  {
    var k' := Cooperate(k, subject, target, now);
    if k.phase == Observed { NormalizeKeeps(k, Proposal(k.observation.value.subject, target), now); }
    if k.phase == Normalized { ReconcileKeeps(k, now); }
    if k.phase == Reconciled { GovernKeeps(k, AllowPolicy(k.transition.value), now); }
    if k.phase == Authorized { ReserveKeeps(k, 0, now); }
    assert Stage(k'.phase) == Stage(k.phase) + 1;
    hide KernelInv, Reconcile, Validate, ValidateProposal;
  }

  lemma StartingAdvances(k: Kernel, subject: string, target: string, now: Time, next: Time)
    requires Ready(k, subject, target, now) && k.phase == Reserved && OnTrack(k, target, now)
    ensures Advances(k, Cooperate(k, subject, target, now), subject, target, now, next)
  {
    var k1 := BeginStep(k, now).0;
    BeginKeeps(k, now);
    assert k1.phase == Started && k1.executionDone == Some(k.made);
    FinishKeeps(k1, k.made, ExecutionResult(EMPTY, true, "", ""), now);
    hide KernelInv;
  }

  lemma VerifyingAdvances(k: Kernel, subject: string, target: string, now: Time, next: Time)
    requires Ready(k, subject, target, now) && k.phase == Started && k.completedAt < now < FIRST_UNENCODABLE
    ensures Advances(k, Cooperate(k, subject, target, now), subject, target, now, next)
  {
    var o, t := k.observation.value, k.transition.value;
    assert Proves(FreshLook(o.subject, t.after, o.token, now), t, o, k.completedAt, now);
    var k1 := BeginVerifyStep(k).0;
    ReserveVerifierKeeps(k, 0, now);
    JudgeKeeps(k1, k.executionDone.value, now);
    assert Cooperate(k, subject, target, now) == AcceptStep(k1, k.executionDone.value).0;
    hide KernelInv, Proves;
  }

  lemma CommittingAdvances(k: Kernel, subject: string, target: string, now: Time, next: Time)
    requires Ready(k, subject, target, now) && k.phase == Verified
    ensures Advances(k, Cooperate(k, subject, target, now), subject, target, now, next)
  {
    CommitKeeps(k, now);
    assert k.transition.value.before == k.observation.value.state;
    assert k.transition.value.after == k.proposal.value.target;
    assert k.transition.value.before != k.transition.value.after && k.transition.value.after != "";
    hide KernelInv;
  }

  lemma CooperationAdvances(k: Kernel, subject: string, target: string, now: Time, next: Time)
    requires Ready(k, subject, target, now) && !Reached(k, target) && k.completedAt < now < FIRST_UNENCODABLE
    ensures Advances(k, Cooperate(k, subject, target, now), subject, target, now, next)
  {
    hide Cooperate, KernelInv;
    if k.phase == Verified { CommittingAdvances(k, subject, target, now, next); }
    else if k.phase == Started { VerifyingAdvances(k, subject, target, now, next); }
    else if Stage(k.phase) == 0 || 8 <= Stage(k.phase) || !OnTrack(k, target, now) {
      LookingAdvances(k, subject, target, now, next);
    }
    else if k.phase == Reserved { StartingAdvances(k, subject, target, now, next); }
    else { PreparingAdvances(k, subject, target, now, next); }
  }

  /** Cooperative calls at the given times, until the target is committed. */
  function CooperateUntil(k: Kernel, subject: string, target: string, times: seq<Time>): Kernel
    decreases |times|
  {
    if Reached(k, target) || times == [] then k
    else CooperateUntil(Cooperate(k, subject, target, times[0]), subject, target, times[1..])
  }

  /** From any phase, with no call in flight, as many cooperative calls as the rank
      says, at increasing times, reach COMMITTED at the target; ten always do. */
  lemma {:induction false} CooperationCommits(k: Kernel, subject: string, target: string, now: Time, times: seq<Time>)
    requires Ready(k, subject, target, now)
    requires forall i | 0 <= i < |times| :: now < times[i] < FIRST_UNENCODABLE
    requires forall i, j | 0 <= i < j < |times| :: times[i] < times[j]
    requires times == [] ==> Reached(k, target)
    requires times != [] ==> Rank(k, target, times[0]) <= |times|
    ensures Reached(CooperateUntil(k, subject, target, times), target)
    ensures Rank(k, target, now) <= 10
    decreases |times|
  {
    if !Reached(k, target) {
      EnvironmentKeeps(k, k.root, now, times[0]);
      assert k.completedAt <= now;
      hide Cooperate, KernelInv, Bound, Channels;
      var k' := Cooperate(k, subject, target, times[0]);
      var next := if |times| > 1 then times[1] else times[0];
      CooperationAdvances(k, subject, target, times[0], next);
      CooperationCommits(k', subject, target, times[0], times[1..]);
    }
  }
}
