/**
 The sections of one controlled change as a run of the system: what a call does to the kernel, action by action,
 is what `DriveSteps` says.
 */
module Turns {
  import opened Results
  import opened Evidence
  import opened KernelSteps
  import opened StateMachines
  import opened Interleaving
  import opened Cooperation
  import opened ControlSteps
  import opened Progress

  /** A run to the kernel `k` at the time `now` that leaves the calls in flight alone. */
  ghost predicate Yields(s: System, actions: seq<Action>, k: Kernel, now: Time) {
    && Possible(Steps(), s, actions)
    && var s' := After(Steps(), s, actions);
       s'.kernel == k && s'.calls == s.calls && s'.now == now
  }

  lemma YieldsThen(s: System, a: seq<Action>, k: Kernel, now: Time, b: seq<Action>, k': Kernel, now': Time)
    requires Yields(s, a, k, now) && Yields(After(Steps(), s, a), b, k', now')
    ensures Yields(s, a + b, k', now')
  {
    hide Steps;
    RunThenRun(Steps(), s, a, b);
  }

  lemma TickYields(s: System, to: Time)
    requires s.now <= to
    ensures Yields(s, [Tick(to)], s.kernel, to)
  {
    assert Enabled(s, Tick(to)) && Do(s, Tick(to)) == s.(now := to);
    hide Do, Enabled;
    OneStep(Steps(), s, Tick(to));
  }

  /** One more section at the end of a run. */
  lemma SectionYields(s: System, actions: seq<Action>, k: Kernel, now: Time, a: Action)
    requires Yields(s, actions, k, now) && IsOneSection(a)
    ensures Yields(s, actions + [a], SectionOf(k, a, now), now)
  {
    hide Steps, SectionOf;
    var s1 := After(Steps(), s, actions);
    ReportingDoes(s1, a);
    YieldsThen(s, actions, k, now, [a], SectionOf(k, a, now), now);
  }

  lemma NothingYields(s: System)
    ensures Yields(s, [], s.kernel, s.now)
  {
  }

  // ---- Normalize to Reserve ----

  function AuthorizeActions(k: Kernel, p: Proposal, policy: Policy, ttl: int, aborted: bool): seq<Action> {
    var (k1, n) := NormalizeStep(k, p);
    if n.Err? then [CallNormalize(p)]
    else
      var (k2, t) := ReconcileStep(k1);
      if t.Err? then [CallNormalize(p), CallReconcile]
      else
        var d := policy(t.value);
        if GovernStep(k2, policy).1.Err? || aborted then [CallNormalize(p), CallReconcile, CallGovern(d)]
        else [CallNormalize(p), CallReconcile, CallGovern(d), CallReserve(ttl)]
  }

  lemma AuthorizeYields(s: System, p: Proposal, policy: Policy, ttl: int, aborted: bool)
    ensures Yields(s, AuthorizeActions(s.kernel, p, policy, ttl, aborted),
                   AuthorizeSteps(s.kernel, p, policy, ttl, s.now, aborted).0, s.now)
  {
    hide NormalizeStep, ReconcileStep, GovernStep, ReserveStep, Yields;
    var k, now := s.kernel, s.now;
    var (k1, n) := NormalizeStep(k, p);
    NothingYields(s);
    SectionYields(s, [], k, now, CallNormalize(p));
    assert [] + [CallNormalize(p)] == [CallNormalize(p)];
    if n.Ok? {
      var (k2, t) := ReconcileStep(k1);
      SectionYields(s, [CallNormalize(p)], k1, now, CallReconcile);
      assert [CallNormalize(p)] + [CallReconcile] == [CallNormalize(p), CallReconcile];
      if t.Ok? {
        var d, k3 := policy(t.value), GovernStep(k2, policy).0;
        GovernedBy(k1, policy);
        SectionYields(s, [CallNormalize(p), CallReconcile], k2, now, CallGovern(d));
        assert [CallNormalize(p), CallReconcile] + [CallGovern(d)] == [CallNormalize(p), CallReconcile, CallGovern(d)];
        if GovernStep(k2, policy).1.Ok? && !aborted {
          SectionYields(s, [CallNormalize(p), CallReconcile, CallGovern(d)], k3, now, CallReserve(ttl));
          assert [CallNormalize(p), CallReconcile, CallGovern(d)] + [CallReserve(ttl)]
                 == [CallNormalize(p), CallReconcile, CallGovern(d), CallReserve(ttl)];
        }
      }
    }
  }

  /** The policy is asked about the one transition that was reconciled. */
  lemma GovernedBy(k: Kernel, policy: Policy)
    requires ReconcileStep(k).1.Ok?
    ensures var (k', t) := ReconcileStep(k);
      var d := policy(t.value);
      GovernStep(k', u => d).0 == GovernStep(k', policy).0
  {
    hide Reconcile, BindsTransition;
  }

  // ---- Start ----

  function StartActions(id: CallId, k: Kernel, result: ExecutionResult, start: Time, end: Time): seq<Action> {
    if BeginStep(k, start).1.Err? then [EnterStart(id)]
    else [EnterStart(id), ReadBefore(id), Tick(end), LeaveStart(id, result)]
  }

  lemma StartYields(s: System, id: CallId, result: ExecutionResult, end: Time)
    requires id !in s.calls && s.now <= end
    ensures Yields(s, StartActions(id, s.kernel, result, s.now, end), StartAlone(s.kernel, result, s.now, end).0,
                   if BeginStep(s.kernel, s.now).1.Err? then s.now else end)
  {
    if BeginStep(s.kernel, s.now).1.Err? {
      StartRefused(s, id);
      hide Do, Enabled;
      OneStep(Steps(), s, EnterStart(id));
    } else {
      StartTakesTime(s, id, result, end);
      hide Do, Enabled, StartAlone;
      FourActions(s, EnterStart(id), ReadBefore(id), Tick(end), LeaveStart(id, result));
    }
  }

  lemma StartRefused(s: System, id: CallId)
    requires id !in s.calls && BeginStep(s.kernel, s.now).1.Err?
    ensures Enabled(s, EnterStart(id)) && Do(s, EnterStart(id)) == s && BeginStep(s.kernel, s.now).0 == s.kernel
  {
    hide ValidFor;
  }

  lemma StartTakesTime(s: System, id: CallId, result: ExecutionResult, end: Time)
    requires id !in s.calls && s.now <= end && BeginStep(s.kernel, s.now).1.Ok?
    ensures var s1 := Do(s, EnterStart(id));
      && Enabled(s1, ReadBefore(id))
      && var s2 := Do(s1, ReadBefore(id));
      && Enabled(s2, Tick(end))
      && var s3 := Do(s2, Tick(end));
      && Enabled(s3, LeaveStart(id, result))
      && var s4 := Do(s3, LeaveStart(id, result));
      && s4.kernel == StartAlone(s.kernel, result, s.now, end).0 && s4.calls == s.calls && s4.now == end
  {
    hide ObserveStep, NormalizeStep, ReconcileStep, GovernStep, ReserveStep, CommitStep, RecoverStep, ValidFor;
    var (k, r) := BeginStep(s.kernel, s.now);
    var s1 := Do(s, EnterStart(id));
    assert s1.kernel == k && s1.calls == s.calls[id := Entered(r.value)] && s1.now == s.now;
    var s2 := Do(s1, ReadBefore(id));
    assert s2.kernel == k && s2.calls == s.calls[id := Executing(r.value, k.observation.value)] && s2.now == s.now;
    var s3 := Do(s2, Tick(end));
    assert s3 == s2.(now := end);
  }

  // ---- Verify and Commit ----

  function JudgeActions(id: CallId, k: Kernel, w: Wish, x: Script): seq<Action> {
    if x.waitCancelled then [EnterVerify(id), CancelVerify(id)]
    else
      var proven := VerifyAlone(k, EvidenceOf(w, x), x.judgeAt).1.None?;
      VerifyActions(id, EvidenceOf(w, x), proven, x.judgeAt) + if proven then [CallCommit] else []
  }

  function VerifyActions(id: CallId, answer: Option<Observation>, proven: bool, now: Time): seq<Action> {
    [EnterVerify(id), AdmitVerify(id), Tick(now), AnswerVerify(id, answer)]
    + [if proven then AcceptVerify(id) else RejectVerify(id)]
  }

  /** What a call of Verify finds. */
  predicate CanVerify(k: Kernel) {
    && k.phase == Started && !k.verificationActive && Completed(k)
    && k.transition.Some? && k.authority.Some? && k.observation.Some?
  }

  lemma CancelYields(s: System, id: CallId)
    requires id !in s.calls && CanVerify(s.kernel)
    ensures Yields(s, [EnterVerify(id), CancelVerify(id)], s.kernel, s.now)
  {
    hide ObserveStep, NormalizeStep, ReconcileStep, GovernStep, ReserveStep, BeginStep, CommitStep, RecoverStep;
    var done := s.kernel.executionDone.value;
    var s1 := Do(s, EnterVerify(id));
    assert s1 == s.(kernel := s.kernel.(verificationActive := true), calls := s.calls[id := Awaiting(done)]);
    var s2 := Do(s1, CancelVerify(id));
    assert s1.calls - {id} == s.calls && s2 == s;
    hide Do, Enabled;
    OneStep(Steps(), s, EnterVerify(id));
    OneStep(Steps(), s1, CancelVerify(id));
    RunThenRun(Steps(), s, [EnterVerify(id)], [CancelVerify(id)]);
    assert [EnterVerify(id)] + [CancelVerify(id)] == [EnterVerify(id), CancelVerify(id)];
  }

  lemma VerifyYields(s: System, id: CallId, answer: Option<Observation>, now: Time)
    requires id !in s.calls && CanVerify(s.kernel) && s.now <= now
    ensures var (k, err) := VerifyAlone(s.kernel, answer, now);
      Yields(s, VerifyActions(id, answer, err.None?, now), k, now)
  {
    VerifyAnswers(s.kernel, answer, now);
    AdmittedAlone(s, id);
    var s2 := Do(Do(s, EnterVerify(id)), AdmitVerify(id));
    var s3 := s2.(now := now);
    assert Enabled(s2, Tick(now)) && Do(s2, Tick(now)) == s3;
    JudgedAlone(s3, id, answer);
    assert Enabled(s3, AnswerVerify(id, answer));
    assert s3.calls - {id} == s.calls;
    hide Do, Enabled, VerifyAlone, Proves;
    FourActions(s, EnterVerify(id), AdmitVerify(id), Tick(now), AnswerVerify(id, answer));
    var last := if VerifyAlone(s.kernel, answer, now).1.None? then AcceptVerify(id) else RejectVerify(id);
    OneStep(Steps(), Do(s3, AnswerVerify(id, answer)), last);
    RunThenRun(Steps(), s, [EnterVerify(id), AdmitVerify(id), Tick(now), AnswerVerify(id, answer)], [last]);
  }

  lemma VerifyAnswers(k: Kernel, answer: Option<Observation>, now: Time)
    requires CanVerify(k)
    ensures var (k', err) := VerifyAlone(k, answer, now);
      && (err.None? <==> answer.Some?
                         && Proves(answer.value, k.transition.value, k.observation.value, k.completedAt, now))
      && k' == k.(phase := if err.None? then Verified else Recovery)
  {
    hide Proves;
  }

  lemma JudgeYields(s: System, id: CallId, w: Wish, x: Script)
    requires id !in s.calls && CanVerify(s.kernel) && s.now <= x.judgeAt
    ensures Yields(s, JudgeActions(id, s.kernel, w, x), JudgeSteps(s.kernel, w, x).0,
                   if x.waitCancelled then s.now else x.judgeAt)
  {
    hide Yields, VerifyAlone, CommitStep, EvidenceOf, VerifyActions;
    if x.waitCancelled {
      CancelYields(s, id);
    } else {
      var (k, verified) := VerifyAlone(s.kernel, EvidenceOf(w, x), x.judgeAt);
      var verify := VerifyActions(id, EvidenceOf(w, x), verified.None?, x.judgeAt);
      VerifyYields(s, id, EvidenceOf(w, x), x.judgeAt);
      if verified.None? {
        SectionYields(s, verify, k, x.judgeAt, CallCommit);
      } else {
        assert verify + [] == verify;
      }
    }
  }

  // ---- The whole change ----

  function FulfilActions(id: CallId, k: Kernel, w: Wish, a: Authority, x: Script): seq<Action> {
    var result := ResultOf(w, a, x);
    var (k1, started) := StartAlone(k, result, x.startAt, x.completeAt);
    StartActions(id, k, result, x.startAt, x.completeAt)
    + if started.Some? || !result.success then [] else JudgeActions(id, k1, w, x)
  }

  lemma FulfilYields(s: System, id: CallId, w: Wish, a: Authority, x: Script) returns (now: Time)
    requires id !in s.calls && KernelInv(s.kernel, s.now) && s.kernel.phase == Reserved && s.kernel.authority == Some(a)
    requires s.now == x.startAt <= x.completeAt <= x.judgeAt
    ensures Yields(s, FulfilActions(id, s.kernel, w, a, x), FulfilSteps(s.kernel, w, a, x).0, now)
  {
    hide Yields, StartAlone, StartActions, JudgeSteps, JudgeActions, ResultOf, KernelInv, BeginStep, CanVerify;
    var result := ResultOf(w, a, x);
    var (k1, started) := StartAlone(s.kernel, result, x.startAt, x.completeAt);
    var start := StartActions(id, s.kernel, result, x.startAt, x.completeAt);
    StartYields(s, id, result, x.completeAt);
    ExecuteOutcome(s.kernel, result, x.startAt, x.completeAt);
    if started.Some? || !result.success {
      assert start + [] == start;
      now := if started.Some? then s.now else x.completeAt;
    } else {
      StartedCanVerify(k1, x.completeAt);
      Yielded(s, start, k1, x.completeAt);
      JudgeYields(After(Steps(), s, start), id, w, x);
      now := if x.waitCancelled then x.completeAt else x.judgeAt;
      YieldsThen(s, start, k1, x.completeAt, JudgeActions(id, k1, w, x), JudgeSteps(k1, w, x).0, now);
    }
  }

  lemma StartedCanVerify(k: Kernel, now: Time)
    requires KernelInv(k, now) && k.phase == Started && Quiescent(k)
    ensures CanVerify(k)
  {
    hide Valid, ValidateProposal, Reconcile, Authorizes, BindsTransition;
  }

  /** What a state has after a run that yields. */
  lemma Yielded(s: System, actions: seq<Action>, k: Kernel, now: Time)
    requires Yields(s, actions, k, now)
    ensures Possible(Steps(), s, actions)
    ensures var s' := After(Steps(), s, actions); s'.kernel == k && s'.calls == s.calls && s'.now == now
  {
  }

  function DriveActions(id: CallId, k: Kernel, w: Wish, policy: Policy, ttl: int, x: Script): seq<Action> {
    var p := Proposal(w.desired.id, w.desired.fingerprint);
    var (k1, r) := AuthorizeSteps(k, p, policy, ttl, x.reserveAt, x.aborted);
    [Tick(x.reserveAt)] + AuthorizeActions(k, p, policy, ttl, x.aborted)
    + if r.Err? then [] else [Tick(x.startAt)] + FulfilActions(id, k1, w, r.value, x)
  }

  /** The sections of a controlled change, in the order of the code and at the times of the script, are possible from
      every state with an accepted observation, and take the kernel where `DriveSteps` says. */
  lemma DriveYields(s: System, id: CallId, w: Wish, policy: Policy, ttl: int, x: Script) returns (now: Time)
    requires id !in s.calls && KernelInv(s.kernel, s.now) && s.kernel.phase == Observed
    requires s.now <= x.reserveAt <= x.startAt <= x.completeAt <= x.judgeAt
    ensures Yields(s, DriveActions(id, s.kernel, w, policy, ttl, x), DriveSteps(s.kernel, w, policy, ttl, x).0, now)
  {
    hide Yields, AuthorizeActions, AuthorizeSteps, FulfilActions, FulfilSteps, KernelInv;
    var k, p, at := s.kernel, Proposal(w.desired.id, w.desired.fingerprint), x.reserveAt;
    var (k1, r) := AuthorizeSteps(k, p, policy, ttl, at, x.aborted);
    EnvironmentKeeps(k, k.root, s.now, at);
    AuthorizeOutcome(k, p, policy, ttl, at, x.aborted);
    var tick, authorize := [Tick(at)], AuthorizeActions(k, p, policy, ttl, x.aborted);
    TickYields(s, at);
    Yielded(s, tick, k, at);
    AuthorizeYields(After(Steps(), s, tick), p, policy, ttl, x.aborted);
    YieldsThen(s, tick, k, at, authorize, k1, at);
    now := at;
    if r.Err? {
      assert tick + authorize + [] == tick + authorize;
    } else {
      EnvironmentKeeps(k1, k1.root, at, x.startAt);
      Yielded(s, tick + authorize, k1, at);
      TickYields(After(Steps(), s, tick + authorize), x.startAt);
      var begin := tick + authorize + [Tick(x.startAt)];
      YieldsThen(s, tick + authorize, k1, at, [Tick(x.startAt)], k1, x.startAt);
      Yielded(s, begin, k1, x.startAt);
      now := FulfilYields(After(Steps(), s, begin), id, w, r.value, x);
      var fulfil := FulfilActions(id, k1, w, r.value, x);
      YieldsThen(s, begin, k1, x.startAt, fulfil, FulfilSteps(k1, w, r.value, x).0, now);
      assert begin + fulfil == tick + authorize + ([Tick(x.startAt)] + fulfil);
    }
  }
}
