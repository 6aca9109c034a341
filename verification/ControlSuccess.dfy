/**
 When a controlled change succeeds: the exact condition, in what a caller can read off the observation,
 the wish, the policy, the clock and the answers of the two callbacks.
 */
module ControlSuccess {
  import opened Results
  import opened Evidence
  import opened KernelSteps
  import opened Interleaving
  import opened Cooperation
  import opened Adapters
  import opened ControlSteps

  /** The observation opens an attempt. */
  predicate Opens(k: Kernel, o: Observation, now: Time) {
    && Valid(o) && k.phase != Started && k.phase != Verified
    && (k.observation.Some? ==> o.subject == k.observation.value.subject)
    && (k.phase == Recovery ==> k.completedAt < o.observedAt <= now)
  }

  lemma EnterSucceedsExactly(k: Kernel, o: Observation, now: Time)
    requires KernelInv(k, now)
    ensures EnterSteps(k, o, now).1.None? <==> Opens(k, o, now)
  {
    hide Validate, Reconcile, ValidateProposal, Authorizes, BindsTransition;
  }

  /** The change is a real one, of the observed subject, and the policy allows it for this very evidence. */
  predicate Sanctioned(o: Observation, p: Proposal, policy: Policy) {
    && p.subject == o.subject && p.target != "" && p.target != o.state
    && var n := NormalizedProposal(p.subject, p.target, OfProposal(p.subject, p.target));
       && Reconcile(o, n).Ok?
       && policy(Reconcile(o, n).value).allowed && BindsTransition(policy(Reconcile(o, n).value), Reconcile(o, n).value)
  }

  /** The default policy allows every real change. */
  lemma AllowPolicySanctions(o: Observation, p: Proposal)
    requires Valid(o)
    ensures Sanctioned(o, p, AllowPolicy) <==> p.subject == o.subject && p.target != "" && p.target != o.state
  {
  }

  /** The execution ID of an attempt that is reserved at `now`. */
  function ExecutionIdOf(o: Observation, p: Proposal, now: Time): Digest {
    OfExecution(OfTransition(o.subject, o.state, p.target, o.fingerprint, OfProposal(p.subject, p.target),
                             Decision.Execute), now)
  }

  lemma AuthorizeSucceedsExactly(k: Kernel, p: Proposal, policy: Policy, ttl: int, now: Time, aborted: bool)
    requires KernelInv(k, now) && k.phase == Observed
    ensures k.observation.Some? && Valid(k.observation.value)
    ensures var r := AuthorizeSteps(k, p, policy, ttl, now, aborted).1;
      && (r.Ok? <==> Sanctioned(k.observation.value, p, policy) && ttl >= 0 && !aborted)
      && (r.Ok? ==> r.value.executionId == ExecutionIdOf(k.observation.value, p, now)
                    && r.value.expiresAt == if ttl > 0 then now + ttl else ZERO_TIME)
  {
    hide Channels, Validate;
  }

  /** Start's checks. */
  lemma BeginSucceedsExactly(k: Kernel, now: Time)
    requires KernelInv(k, now) && k.phase == Reserved
    ensures k.authority.Some? && k.observation.Some?
    ensures BeginStep(k, now).1.Ok? <==>
              && (k.authority.value.expiresAt == ZERO_TIME || now < k.authority.value.expiresAt)
              && k.root == k.observation.value.state
  {
    hide Channels, Validate, ValidateProposal;
  }

  lemma JudgeSucceedsExactly(k: Kernel, w: Wish, x: Script)
    requires KernelInv(k, x.judgeAt) && k.phase == Started && Completed(k) && !k.verificationActive
    ensures k.transition.Some? && k.observation.Some?
    ensures JudgeSteps(k, w, x).1.None? <==>
              && !x.waitCancelled && EvidenceOf(w, x).Some?
              && Proves(EvidenceOf(w, x).value, k.transition.value, k.observation.value, k.completedAt, x.judgeAt)
              && k.root == k.observation.value.state
  {
    VerifyOutcome(k, EvidenceOf(w, x), x.judgeAt);
    StartedBinds(k, x.judgeAt);
    hide VerifyAlone, KernelInv, Proves, EvidenceOf;
  }

  lemma StartedBinds(k: Kernel, now: Time)
    requires KernelInv(k, now) && k.phase == Started
    ensures k.transition.Some? && k.observation.Some? && Valid(k.observation.value)
    ensures k.transition.value.before == k.observation.value.state
    ensures k.transition.value.subject == k.observation.value.subject
    ensures k.transition.value.observation == k.observation.value.fingerprint
    ensures k.transition.value.before != k.transition.value.after
  {
    hide Channels, Validate, ValidateProposal;
  }

  /** Evidence that proves the change of `before` to the desired state. */
  predicate Shows(e: Observation, before: Observation, desired: ResourceRef, completedAt: Time, now: Time) {
    && Valid(e) && ResourceRef(e.subject, e.state) == desired && completedAt < e.observedAt <= now
    && (before.token != "" ==> e.token != "" && e.token != before.token)
  }

  /** Evidence for another state never has the fingerprint of the authorised observation. */
  lemma ShowsProves(e: Observation, t: Transition, before: Observation, desired: ResourceRef, completedAt: Time,
                    now: Time)
    requires Valid(before) && t.observation == before.fingerprint && t.subject == desired.id
    requires t.after == desired.fingerprint
    requires before.state != desired.fingerprint
    ensures Proves(e, t, before, completedAt, now) <==> Shows(e, before, desired, completedAt, now)
  {
    if Valid(e) && e.state == desired.fingerprint && e.fingerprint == before.fingerprint {
      FingerprintBindsObservation(e, before);
      assert false;
    }
    hide Validate;
  }

  /** Everything that a successful attempt takes. */
  predicate Succeeds(k: Kernel, w: Wish, policy: Policy, ttl: int, x: Script) {
    var p := Proposal(w.desired.id, w.desired.fingerprint);
    && k.root == x.seen.state && Sanctioned(x.seen, p, policy) && ttl >= 0 && !x.aborted
    && (ttl > 0 ==> x.startAt < x.reserveAt + ttl)
    && Executes(w, ExecutionIdOf(x.seen, p, x.reserveAt), x)
    && !x.waitCancelled
    && EvidenceOf(w, x).Some? && Shows(EvidenceOf(w, x).value, x.seen, w.desired, x.completeAt, x.judgeAt)
  }

  /** The executor answers with success, under the right execution ID. */
  predicate Executes(w: Wish, id: Digest, x: Script) {
    match w.parties
    case Provider(_) => !x.executorCancelled && x.executorAnswer.Ok? && x.executorAnswer.value.executionId == id
    case Direct => x.directResult.success
  }

  lemma FulfilSucceedsExactly(k: Kernel, w: Wish, a: Authority, x: Script)
    requires KernelInv(k, x.startAt) && k.phase == Reserved && k.authority == Some(a)
    requires k.transition.value.after == w.desired.fingerprint && k.observation == Some(x.seen)
    requires x.seen.subject == w.desired.id
    requires x.startAt <= x.completeAt <= x.judgeAt
    ensures FulfilSteps(k, w, a, x).1.None? <==>
              && (a.expiresAt == ZERO_TIME || x.startAt < a.expiresAt) && k.root == x.seen.state
              && Executes(w, a.executionId, x) && !x.waitCancelled
              && EvidenceOf(w, x).Some? && Shows(EvidenceOf(w, x).value, x.seen, w.desired, x.completeAt, x.judgeAt)
  {
    var result := ResultOf(w, a, x);
    assert result.success <==> Executes(w, a.executionId, x);
    var (k1, started) := StartAlone(k, result, x.startAt, x.completeAt);
    BeginSucceedsExactly(k, x.startAt);
    ExecuteOutcome(k, result, x.startAt, x.completeAt);
    EnvironmentKeeps(k1, k1.root, x.completeAt, x.judgeAt);
    hide StartAlone, KernelInv, JudgeSteps, EvidenceOf, ResultOf, Executes, Proves, Shows, BeginStep, Valid;
    assert k1.(root := k1.root) == k1;
    if started.None? && result.success {
      JudgeSucceedsExactly(k1, w, x);
      StartedBinds(k1, x.judgeAt);
      if EvidenceOf(w, x).Some? {
        ShowsProves(EvidenceOf(w, x).value, k1.transition.value, x.seen, w.desired, x.completeAt, x.judgeAt);
      }
    }
  }

  /** The exact condition under which a controlled change succeeds, from an accepted observation on. */
  lemma DriveSucceedsExactly(k: Kernel, w: Wish, policy: Policy, ttl: int, x: Script)
    requires KernelInv(k, x.reserveAt) && k.phase == Observed && k.observation == Some(x.seen)
    requires x.reserveAt <= x.startAt <= x.completeAt <= x.judgeAt
    ensures DriveSteps(k, w, policy, ttl, x).1.None? <==> Succeeds(k, w, policy, ttl, x)
  {
    hide AuthorizeSteps, FulfilSteps, KernelInv, EvidenceOf, Executes, Shows, Sanctioned, ExecutionIdOf, Valid;
    var p := Proposal(w.desired.id, w.desired.fingerprint);
    AuthorizeSucceedsExactly(k, p, policy, ttl, x.reserveAt, x.aborted);
    AuthorizeOutcome(k, p, policy, ttl, x.reserveAt, x.aborted);
    var (k1, r) := AuthorizeSteps(k, p, policy, ttl, x.reserveAt, x.aborted);
    EnvironmentKeeps(k1, k1.root, x.reserveAt, x.startAt);
    TimeIsPositive(k, x.reserveAt);
    assert k1.(root := k1.root) == k1;
    if r.Ok? {
      FulfilSucceedsExactly(k1, w, r.value, x);
    }
  }

  lemma TimeIsPositive(k: Kernel, now: Time)
    requires KernelInv(k, now)
    ensures 0 < now
  {
  }
}
