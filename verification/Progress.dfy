/** Progress as runs of the system: from every reachable state in which no call is in flight. */
module Progress {
  import opened Results
  import opened Evidence
  import opened KernelSteps
  import opened StateMachines
  import opened Interleaving
  import opened WholeRuns
  import opened Cooperation

  lemma NoCallsMeansQuiescent(s: System)
    requires Inv(s) && s.calls == map[]
    ensures Quiescent(s.kernel)
  {
    hide Bound, History, CallFits;
    assert forall id :: !Runs(s, id) && !Holds(s, id);
  }

  /** The actions of one cooperative call. */
  function CallActions(k: Kernel, subject: string, target: string, now: Time): seq<Action> {
    var subject' := if k.observation.Some? then k.observation.value.subject else subject;
    var seen := FreshLook(subject', k.root, "", now);
    var result := ExecutionResult(EMPTY, true, "", "");
    if k.phase == Recovery then [CallRecover(seen)]
    else if k.phase == Verified then [CallCommit]
    else if k.phase == Started then
      if k.transition.Some? && k.observation.Some? then
        var answer := Some(FreshLook(subject', k.transition.value.after, k.observation.value.token, now));
        [EnterVerify(0), AdmitVerify(0), AnswerVerify(0, answer),
         if VerifyAlone(k, answer, now).1.None? then AcceptVerify(0) else RejectVerify(0)]
      else []
    else if k.phase == Idle || k.phase == Committed || !OnTrack(k, target, now) then [CallObserve(seen)]
    else if k.phase == Observed then [CallNormalize(Proposal(subject', target))]
    else if k.phase == Normalized then [CallReconcile]
    else if k.phase == Reconciled then
      if k.transition.Some? then [CallGovern(AllowPolicy(k.transition.value))] else []
    else if k.phase == Authorized then [CallReserve(0)]
    else if BeginStep(k, now).1.Ok? then [EnterStart(0), ReadBefore(0), LeaveStart(0, result)] else []
  }

  ghost predicate Does(s: System, actions: seq<Action>, k: Kernel) {
    && Possible(Steps(), s, actions)
    && var s' := After(Steps(), s, actions);
       s'.kernel == k && s'.calls == s.calls && s'.now == s.now
  }

  lemma OneActionDoes(s: System, a: Action, k: Kernel)
    requires Enabled(s, a) && Do(s, a).kernel == k && Do(s, a).calls == s.calls && Do(s, a).now == s.now
    ensures Does(s, [a], k)
  {
    hide Do, Enabled;
    OneStep(Steps(), s, a);
  }

  lemma ThreeActions(s: System, a: Action, b: Action, c: Action)
    requires Enabled(s, a) && Enabled(Do(s, a), b) && Enabled(Do(Do(s, a), b), c)
    ensures Possible(Steps(), s, [a, b, c])
    ensures After(Steps(), s, [a, b, c]) == Do(Do(Do(s, a), b), c)
  {
    hide Do, Enabled;
    var m := Steps();
    OneStep(m, s, a);
    RunThenRun(m, s, [a], [b]);
    OneStep(m, Do(s, a), b);
    RunThenRun(m, s, [a, b], [c]);
    OneStep(m, Do(Do(s, a), b), c);
    assert [a] + [b] == [a, b] && [a, b] + [c] == [a, b, c];
  }

  lemma FourActions(s: System, a: Action, b: Action, c: Action, d: Action)
    requires Enabled(s, a) && Enabled(Do(s, a), b) && Enabled(Do(Do(s, a), b), c) && Enabled(Do(Do(Do(s, a), b), c), d)
    ensures Possible(Steps(), s, [a, b, c, d])
    ensures After(Steps(), s, [a, b, c, d]) == Do(Do(Do(Do(s, a), b), c), d)
  {
    hide Do, Enabled;
    ThreeActions(s, a, b, c);
    RunThenRun(Steps(), s, [a, b, c], [d]);
    OneStep(Steps(), Do(Do(Do(s, a), b), c), d);
    assert [a, b, c] + [d] == [a, b, c, d];
  }

  lemma NothingDone(s: System)
    ensures Does(s, [], s.kernel)
  {
  }

  /** The calls that are one section each. */
  predicate IsOneSection(a: Action) {
    || a.CallObserve? || a.CallRecover? || a.CallNormalize? || a.CallReconcile? || a.CallGovern? || a.CallReserve?
    || a.CallCommit?
  }

  function SectionOf(k: Kernel, a: Action, now: Time): Kernel
    requires IsOneSection(a)
  {
    match a
    case CallObserve(o) => ObserveStep(k, o).0
    case CallRecover(o) => RecoverStep(k, o, now).0
    case CallNormalize(p) => NormalizeStep(k, p).0
    case CallReconcile => ReconcileStep(k).0
    case CallGovern(d) => GovernStep(k, t => d).0
    case CallReserve(lifetime) => ReserveStep(k, lifetime, now).0
    case CallCommit => CommitStep(k).0
  }

  lemma ReportingDoes(s: System, a: Action)
    requires IsOneSection(a)
    ensures Does(s, [a], SectionOf(s.kernel, a, s.now))
  {
    hide Validate, Evidence.Normalize, Evidence.Reconcile, BindsTransition;
    OneActionDoes(s, a, SectionOf(s.kernel, a, s.now));
  }

  lemma VerifyDoes(s: System, answer: Option<Observation>)
    requires 0 !in s.calls && s.kernel.phase == Started && !s.kernel.verificationActive && Completed(s.kernel)
    requires s.kernel.transition.Some? && s.kernel.authority.Some? && s.kernel.observation.Some?
    ensures var (k, err) := VerifyAlone(s.kernel, answer, s.now);
      Does(s, [EnterVerify(0), AdmitVerify(0), AnswerVerify(0, answer),
               if err.None? then AcceptVerify(0) else RejectVerify(0)], k)
  {
    var last := if VerifyAlone(s.kernel, answer, s.now).1.None? then AcceptVerify(0) else RejectVerify(0);
    VerifyAloneIsItsSections(s, 0, answer);
    hide Do, Enabled, VerifyAlone;
    FourActions(s, EnterVerify(0), AdmitVerify(0), AnswerVerify(0, answer), last);
  }

  lemma StartDoes(s: System, result: ExecutionResult)
    requires 0 !in s.calls && BeginStep(s.kernel, s.now).1.Ok?
    ensures Does(s, [EnterStart(0), ReadBefore(0), LeaveStart(0, result)], StartAlone(s.kernel, result, s.now, s.now).0)
  {
    StartAloneIsItsSections(s, 0, result);
    hide Do, Enabled, StartAlone, BeginStep;
    ThreeActions(s, EnterStart(0), ReadBefore(0), LeaveStart(0, result));
  }

  /** The actions of a cooperative call, run without a break, are the call. */
  lemma CallDoes(s: System, subject: string, target: string)
    requires Inv(s) && s.calls == map[]
    ensures Does(s, CallActions(s.kernel, subject, target, s.now), Cooperate(s.kernel, subject, target, s.now))
    ensures |CallActions(s.kernel, subject, target, s.now)| <= 4
  {
    hide Inv, KernelInv, Does, VerifyAlone, StartAlone, BeginStep, OnTrack;
    NoCallsMeansQuiescent(s);
    InvIsKernelInv(s);
    PhaseHas(s.kernel, s.now);
    var k, now := s.kernel, s.now;
    if k.phase == Started {
      hide ObserveStep, RecoverStep, NormalizeStep, ReconcileStep, GovernStep, ReserveStep, CommitStep;
      VerifyDoes(s, CallActions(k, subject, target, now)[2].answer);
    } else if k.phase == Reserved && OnTrack(k, target, now) {
      hide ObserveStep, RecoverStep, NormalizeStep, ReconcileStep, GovernStep, ReserveStep, CommitStep;
      if BeginStep(k, now).1.Ok? {
        StartDoes(s, ExecutionResult(EMPTY, true, "", ""));
      } else {
        NotStarting(k, ExecutionResult(EMPTY, true, "", ""), now);
        NothingDone(s);
      }
    } else {
      hide ObserveStep, RecoverStep, NormalizeStep, ReconcileStep, ReserveStep, CommitStep;
      ReportingDoes(s, CallActions(k, subject, target, now)[0]);
    }
  }

  lemma NotStarting(k: Kernel, result: ExecutionResult, now: Time)
    requires BeginStep(k, now).1.Err?
    ensures StartAlone(k, result, now, now).0 == k
  {
  }

  lemma PhaseHas(k: Kernel, now: Time)
    requires KernelInv(k, now)
    ensures Stage(k.phase) >= 3 ==> k.transition.Some? && k.observation.Some?
    ensures Stage(k.phase) >= 5 ==> k.authority.Some?
    ensures k.completedAt <= now
  {
    hide Validate, ValidateProposal, Reconcile, Authorizes, BindsTransition;
  }

  /** One clock tick and one call. */
  lemma OneCall(s: System, subject: string, target: string) returns (actions: seq<Action>)
    requires Inv(s) && s.calls == map[] && Feasible(s.kernel, subject, target) && !Reached(s.kernel, target)
    requires s.now + 1 < FIRST_UNENCODABLE
    ensures Possible(Steps(), s, actions) && |actions| <= 5
    ensures var s' := After(Steps(), s, actions);
      && Inv(s') && s'.calls == map[] && s'.now == s.now + 1 && Feasible(s'.kernel, subject, target)
      && Rank(s'.kernel, target, s'.now + 1) < Rank(s.kernel, target, s.now + 1)
  {
    hide Inv, Does, Cooperate, Rank, CallActions, Feasible, Reached;
    var s1 := Ticked(s);
    CallAdvances(s1, subject, target);
    CallDoes(s1, subject, target);
    var call := CallActions(s1.kernel, subject, target, s1.now);
    DoesRuns(s1, call, Cooperate(s1.kernel, subject, target, s1.now));
    RunKeepsInv(s1, call);
    actions := [Tick(s1.now)] + call;
    hide Steps;
    RunThenRun(Steps(), s, [Tick(s1.now)], call);
  }

  lemma DoesRuns(s: System, actions: seq<Action>, k: Kernel)
    requires Does(s, actions, k)
    ensures Possible(Steps(), s, actions)
    ensures var s' := After(Steps(), s, actions); s'.kernel == k && s'.calls == s.calls && s'.now == s.now
  {
  }

  lemma Ticked(s: System) returns (s': System)
    requires Inv(s)
    ensures s' == s.(now := s.now + 1) && Inv(s') && s'.kernel.completedAt < s'.now
    ensures Possible(Steps(), s, [Tick(s.now + 1)]) && After(Steps(), s, [Tick(s.now + 1)]) == s'
  {
    s' := s.(now := s.now + 1);
    assert s' == Do(s, Tick(s'.now)) && Enabled(s, Tick(s'.now));
    hide Do, Enabled;
    InvIsKernelInv(s);
    PhaseHas(s.kernel, s.now);
    hide Inv, KernelInv;
    StepKeepsInv(s, Tick(s'.now));
    OneStep(Steps(), s, Tick(s'.now));
  }

  lemma CallAdvances(s: System, subject: string, target: string)
    requires Inv(s) && s.calls == map[] && Feasible(s.kernel, subject, target) && !Reached(s.kernel, target)
    requires s.kernel.completedAt < s.now < FIRST_UNENCODABLE
    ensures var k := Cooperate(s.kernel, subject, target, s.now);
      Feasible(k, subject, target) && Rank(k, target, s.now + 1) < Rank(s.kernel, target, s.now)
  {
    hide Inv, KernelInv, Quiescent, Cooperate, Rank, Feasible;
    InvIsKernelInv(s);
    NoCallsMeansQuiescent(s);
    CooperationAdvances(s.kernel, subject, target, s.now, s.now + 1);
  }

  /** From every state that the invariant allows with no call in flight there is a run to COMMITTED at
      the target, of at most five actions for each step of the rank. */
  lemma {:induction false} RunToCommitted(s: System, subject: string, target: string) returns (actions: seq<Action>)
    requires Inv(s) && s.calls == map[] && Feasible(s.kernel, subject, target)
    requires s.now + Rank(s.kernel, target, s.now + 1) < FIRST_UNENCODABLE
    ensures Possible(Steps(), s, actions) && |actions| <= 5 * Rank(s.kernel, target, s.now + 1) <= 50
    ensures Reached(After(Steps(), s, actions).kernel, target) && After(Steps(), s, actions).calls == map[]
    decreases Rank(s.kernel, target, s.now + 1)
  {
    hide Inv, Steps, Rank, Feasible, Reached;
    RankIsSmall(s.kernel, target, s.now + 1);
    actions := [];
    if !Reached(s.kernel, target) {
      var call := OneCall(s, subject, target);
      var s' := After(Steps(), s, call);
      var rest := RunToCommitted(s', subject, target);
      actions := call + rest;
      RunThenRun(Steps(), s, call, rest);
    }
  }

  lemma RankIsSmall(k: Kernel, target: string, now: Time)
    ensures Rank(k, target, now) <= 10
    ensures Rank(k, target, now) == 0 <==> Reached(k, target)
  {
    hide OnTrack;
  }

  /** The same for what interleavings reach. */
  lemma ProgressFromAnywhere(s: System, subject: string, target: string) returns (actions: seq<Action>)
    requires Reachable(s) && s.calls == map[] && Feasible(s.kernel, subject, target) && s.now + 10 < FIRST_UNENCODABLE
    ensures Possible(Steps(), s, actions) && |actions| <= 5 * Rank(s.kernel, target, s.now + 1) <= 50
    ensures Reached(After(Steps(), s, actions).kernel, target) && Reachable(After(Steps(), s, actions))
  {
    ReachableInv(s);
    RankIsSmall(s.kernel, target, s.now + 1);
    hide Inv, Steps, Rank, Feasible, Reached;
    actions := RunToCommitted(s, subject, target);
    var root, now :| 0 < now && Reaches(Steps(), Boot(root, now), s);
    ReachesFurther(Steps(), Boot(root, now), s, actions);
  }
}
