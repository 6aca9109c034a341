/**
 The serialized lifecycle: one caller, executions and verifications that are
 single steps, no channels and no reservations. It is the reference that the
 concurrent runtime must not go beyond.
 */
module Serialized {
  import opened Results
  import opened Evidence
  import opened KernelSteps
  import opened Interleaving

  /** What has been established so far; each stage carries exactly its own evidence. */
  datatype Milestone =
    | Fresh
    | Seen(o: Observation)
    | Wanted(o: Observation, p: NormalizedProposal)
    | Planned(o: Observation, t: Transition)
    | Allowed(o: Observation, t: Transition)
    | Granted(o: Observation, t: Transition, a: Authority)
    | Executed(o: Observation, t: Transition, at: Time)
    | Proven(o: Observation, t: Transition, at: Time)
    | Settled(o: Observation)
    | Lost(o: Observation, at: Time)

  datatype Serial = Serial(stage: Milestone, root: string, now: Time)

  ghost predicate Observes(s: Serial, s': Serial) {
    && s'.stage.Seen? && Valid(s'.stage.o) && s'.root == s.root && s'.now == s.now
    && !s.stage.Executed? && !s.stage.Proven? && !s.stage.Lost?
    && (!s.stage.Fresh? ==> s'.stage.o.subject == s.stage.o.subject)
  }

  ghost predicate Recovers(s: Serial, s': Serial) {
    && s.stage.Lost? && s'.stage.Seen? && s'.root == s.root && s'.now == s.now
    && Valid(s'.stage.o) && s'.stage.o.subject == s.stage.o.subject
    && s.stage.at < s'.stage.o.observedAt <= s.now
  }

  ghost predicate Prepares(s: Serial, s': Serial) {
    && s'.root == s.root && s'.now == s.now
    && match s.stage
       case Seen(o) => s'.stage.Wanted? && s'.stage.o == o && ValidateProposal(s'.stage.p) == None
                       && s'.stage.p.subject == o.subject
       case Wanted(o, p) => s'.stage.Planned? && s'.stage.o == o && Reconcile(o, p) == Ok(s'.stage.t)
       case Planned(o, t) => t.decision == Execute && s'.stage == Allowed(o, t)
       case Allowed(o, t) => s'.stage.Granted? && s'.stage.o == o && s'.stage.t == t
                             && Authorizes(s'.stage.a, t) && !s'.stage.a.consumed
       case _ => false
  }

  /** The whole execution. It takes time, and others may change the root meanwhile. */
  ghost predicate Executes(s: Serial, s': Serial) {
    && s.stage.Granted?
    && ValidFor(s.stage.a, s.stage.t, s.stage.o, s.now) == None
    && s.root == s.stage.t.before
    && s.now <= s'.now
    && (s'.stage == Executed(s.stage.o, s.stage.t, s'.now) || s'.stage == Lost(s.stage.o, s'.now))
  }

  /** The whole verification: it succeeds only with evidence that proves the transition. */
  ghost predicate Verifies(s: Serial, s': Serial) {
    && s.stage.Executed? && s'.root == s.root && s'.now == s.now
    && (|| (s'.stage == Proven(s.stage.o, s.stage.t, s.stage.at)
            && exists evidence :: Proves(evidence, s.stage.t, s.stage.o, s.stage.at, s.now))
        || s'.stage == Lost(s.stage.o, s.stage.at))
  }

  ghost predicate Commits(s: Serial, s': Serial) {
    && s.stage.Proven? && s'.now == s.now
    && if s.root == s.stage.t.before
       then s'.root == s.stage.t.after && s'.stage == Settled(s.stage.o)
       else s'.root == s.root && s'.stage == Lost(s.stage.o, s.stage.at)
  }

  /** Time passes and someone else may change the root. */
  ghost predicate Elapses(s: Serial, s': Serial) {
    s'.stage == s.stage && s.now <= s'.now
  }

  ghost predicate Next(s: Serial, s': Serial) {
    || Observes(s, s') || Recovers(s, s') || Prepares(s, s') || Executes(s, s')
    || Verifies(s, s') || Commits(s, s') || Elapses(s, s')
  }

  predicate InFlight(k: Kernel) {
    k.phase == Started && !Completed(k)
  }

  /** The serialized state that a concurrent state stands for. An execution in
      flight has not happened yet: root and clock are those at which it began. */
  ghost function Abs(s: System): Serial
    requires Inv(s)
  {
    var k := s.kernel;
    if InFlight(k) then
      Serial(Granted(k.observation.value, k.transition.value, k.authority.value.(consumed := false)),
             k.transition.value.before, s.log[s.mark..][5].at)
    else
      Serial(AbsStage(k), k.root, s.now)
  }

  ghost function AbsStage(k: Kernel): Milestone
    requires Bound(k)
  {
    match k.phase
    case Idle => Fresh
    case Observed => Seen(k.observation.value)
    case Normalized => Wanted(k.observation.value, k.proposal.value)
    case Reconciled => Planned(k.observation.value, k.transition.value)
    case Authorized => Allowed(k.observation.value, k.transition.value)
    case Reserved => Granted(k.observation.value, k.transition.value, k.authority.value)
    case Started => Executed(k.observation.value, k.transition.value, k.completedAt)
    case Verified => Proven(k.observation.value, k.transition.value, k.completedAt)
    case Committed => Settled(k.observation.value)
    case Recovery => Lost(k.observation.value, k.completedAt)
  }

  ghost predicate Simulates(s: System, a: Action)
    requires Inv(s) && Enabled(s, a) && Inv(Do(s, a))
  {
    Abs(Do(s, a)) == Abs(s) || Next(Abs(s), Abs(Do(s, a)))
  }

  /** What an action answers is what the serialized lifecycle did: an accepted call is the serialized step
      of its kind with the same outcome, a refused call did nothing. */
  ghost predicate Answers(s: System, a: Action)
    requires Inv(s) && Enabled(s, a) && Inv(Do(s, a))
  {
    var (k, before, after) := (s.kernel, Abs(s), Abs(Do(s, a)));
    match a
    case Tick(_) => Elapses(before, after)
    case OutsideCas(_, _) => Elapses(before, after)
    case CallObserve(o) =>
      if ObserveStep(k, o).1.None? then Observes(before, after) && after.stage == Seen(o) else after == before
    case CallRecover(o) =>
      if RecoverStep(k, o, s.now).1.None? then Recovers(before, after) && after.stage == Seen(o) else after == before
    case CallNormalize(p) =>
      var r := NormalizeStep(k, p).1;
      if r.Ok? then Prepares(before, after) && after.stage == Wanted(before.stage.o, r.value) else after == before
    case CallReconcile =>
      var r := ReconcileStep(k).1;
      if r.Ok? then Prepares(before, after) && after.stage == Planned(before.stage.o, r.value) else after == before
    case CallGovern(d) =>
      if GovernStep(k, t => d).1.Ok? then Prepares(before, after) && after.stage.Allowed? else after == before
    case CallReserve(lifetime) =>
      var r := ReserveStep(k, lifetime, s.now).1;
      if r.Ok? then Prepares(before, after) && after.stage.Granted? && after.stage.a == r.value else after == before
    case LeaveStart(_, result) => Executes(before, after) && (after.stage.Executed? <==> result.success)
    case RejectVerify(_) => Verifies(before, after) && after.stage.Lost?
    case AcceptVerify(_) => Verifies(before, after) && after.stage.Proven?
    case CallCommit =>
      var err := CommitStep(k).1;
      if err.None? then Commits(before, after) && after.stage.Settled?
      else after == before || (err == Some(CasConflict) && Commits(before, after) && after.stage.Lost?)
    case _ => after == before
  }

  lemma PreparationSimulates(s: System, a: Action)
    requires Inv(s) && Enabled(s, a) && Inv(Do(s, a))
    requires a.CallNormalize? || a.CallReconcile? || a.CallGovern? || a.CallReserve?
    ensures Answers(s, a)
  {
    hide Calls, History, Channels, Validate, ValidateProposal, ValidFor;
  }

  lemma CommitSimulates(s: System, a: Action)
    requires Inv(s) && Enabled(s, a) && Inv(Do(s, a)) && a.CallCommit?
    ensures Answers(s, a)
  {
    hide Calls, History, Channels, Bound, AbsStage, InFlight, CommitStep, Valid;
    CommitIsLocal(s);
    CommittedStage(s.kernel);
  }

  lemma CommitIsLocal(s: System)
    ensures Do(s, CallCommit).kernel == CommitStep(s.kernel).0 && Do(s, CallCommit).now == s.now
  {
  }

  /** A commit settles a proven stage, or loses it to a root that has moved. */
  lemma CommittedStage(k: Kernel)
    requires Bound(k)
    ensures var (k', err) := CommitStep(k);
      && (k.phase != Verified ==> k' == k && err.Some? && err != Some(CasConflict))
      && (k.phase == Verified ==>
            && k.transition.Some? && k.observation.Some? && Bound(k') && !InFlight(k) && !InFlight(k')
            && AbsStage(k) == Proven(k.observation.value, k.transition.value, k.completedAt)
            && if k.root == k.transition.value.before
               then err.None? && k'.root == k.transition.value.after && AbsStage(k') == Settled(k.observation.value)
               else err == Some(CasConflict) && k'.root == k.root
                    && AbsStage(k') == Lost(k.observation.value, k.completedAt))
  {
    hide Valid, ValidateProposal, Reconcile;
  }

  lemma ObservationSimulates(s: System, a: Action)
    requires Inv(s) && Enabled(s, a) && Inv(Do(s, a))
    requires a.CallObserve? || a.CallRecover?
    ensures Answers(s, a)
  {
    hide Calls, History;
  }

  lemma EnvironmentSimulates(s: System, a: Action)
    requires Inv(s) && Enabled(s, a) && Inv(Do(s, a))
    requires a.Tick? || a.OutsideCas?
    ensures Answers(s, a)
  {
    hide Do, Enabled, Calls, Channels, History, Bound, AbsStage;
    EnvironmentIsOutside(s, a);
    StageIgnoresRoot(s.kernel, Do(s, a).kernel.root);
  }

  lemma EnvironmentIsOutside(s: System, a: Action)
    requires Enabled(s, a) && (a.Tick? || a.OutsideCas?)
    ensures var s' := Do(s, a);
      && s' == s.(kernel := s.kernel.(root := s'.kernel.root), now := s'.now, writes := s'.writes)
      && s.now <= s'.now
  {
  }

  lemma StageIgnoresRoot(k: Kernel, root: string)
    requires Bound(k) && Bound(k.(root := root))
    ensures AbsStage(k.(root := root)) == AbsStage(k)
  {
    hide Bound;
  }

  /** Beginning an execution is invisible. */
  lemma EnterStartSimulates(s: System, a: Action)
    requires Inv(s) && Enabled(s, a) && Inv(Do(s, a))
    requires a.EnterStart? || a.ReadBefore?
    ensures Abs(Do(s, a)) == Abs(s)
  {
    hide Calls, Shape, Backed, ValidFor;
    var s' := Do(s, a);
    if s' != s && a.EnterStart? {
      assert |s.log[s.mark..]| == 5 by {
        ShapeLength(s.kernel, s.log[s.mark..]);
      }
      assert s'.log[s'.mark..][5] == s'.log[|s.log|];
    }
  }

  lemma ShapeLength(k: Kernel, e: seq<Event>)
    requires Shape(k, e)
    ensures k.phase == Reserved ==> |e| == 5
    ensures InFlight(k) ==> |e| == 6 && e[5].DidBegin? && k.authority.Some? && k.transition.Some? && Begins(k, e[5].at)
  {
  }

  /** An executor that returns belongs to the execution in flight, which began with a valid authority. */
  lemma ExecutorIsCurrent(s: System, id: CallId)
    requires Calls(s) && Bound(s.kernel) && History(s) && id in s.calls && s.calls[id].Executing?
    ensures var (k, done) := (s.kernel, s.calls[id].ticket.done);
      && InFlight(k) && !Superseded(k, done) && k.transition.Some? && k.authority.Some? && k.observation.Some?
      && |s.log[s.mark..]| == 6 && s.log[s.mark..][5].DidBegin?
      && Begins(k, s.log[s.mark..][5].at) && s.log[s.mark..][5].at <= s.now
  {
    assert CallFits(s.kernel, s.calls[id], s.now);
    hide Calls, Bound, Backed, Shape;
    ShapeLength(s.kernel, s.log[s.mark..]);
    assert s.log[s.mark..][5] == s.log[s.mark + 5];
  }

  lemma LeavingIsLocal(s: System, id: CallId, result: ExecutionResult)
    requires Enabled(s, LeaveStart(id, result))
    ensures Do(s, LeaveStart(id, result)).now == s.now
    ensures Do(s, LeaveStart(id, result)).kernel == FinishStep(s.kernel, s.calls[id].ticket.done, result, s.now)
  {
  }

  /** The end of an execution is the serialized execution. */
  lemma LeaveStartSimulates(s: System, id: CallId, result: ExecutionResult)
    requires Inv(s) && Enabled(s, LeaveStart(id, result)) && Inv(Do(s, LeaveStart(id, result)))
    ensures Executes(Abs(s), Abs(Do(s, LeaveStart(id, result))))
    ensures Abs(Do(s, LeaveStart(id, result))).stage.Executed? <==> result.success
  {
    hide Calls, History, Bound, Channels, ValidFor, Do;
    ExecutorIsCurrent(s, id);
    LeavingIsLocal(s, id, result);
  }

  /** Reserving, waiting, giving up and calling the verifier are invisible. */
  lemma ReservationSimulates(s: System, a: Action)
    requires Inv(s) && Enabled(s, a) && Inv(Do(s, a))
    requires a.EnterVerify? || a.CancelVerify? || a.AdmitVerify? || a.AnswerVerify?
    ensures Abs(Do(s, a)) == Abs(s)
  {
    hide Calls, History, Channels, Bound, Proves;
  }

  lemma JudgedStage(k: Kernel, done: Done)
    requires Bound(k) && !Superseded(k, done) && k.verificationActive && Completed(k)
    ensures Bound(FailStep(k, done)) && !InFlight(FailStep(k, done))
    ensures !InFlight(k) && AbsStage(k) == Executed(k.observation.value, k.transition.value, k.completedAt)
    ensures AbsStage(FailStep(k, done)) == Lost(k.observation.value, k.completedAt)
    ensures Bound(AcceptStep(k, done).0) && !InFlight(AcceptStep(k, done).0)
    ensures AbsStage(AcceptStep(k, done).0) == Proven(k.observation.value, k.transition.value, k.completedAt)
  {
    hide Reconcile, Validate, ValidateProposal, Authorizes, BindsTransition;
  }

  /** A verifier about to decide belongs to the execution that the kernel has completed. */
  lemma JudgeIsCurrent(s: System, id: CallId)
    requires Calls(s) && Bound(s.kernel) && id in s.calls && (s.calls[id].Rejecting? || s.calls[id].Accepting?)
    ensures var (k, done) := (s.kernel, s.calls[id].Channel());
      && !Superseded(k, done) && k.verificationActive && Completed(k)
      && k.observation.Some? && k.transition.Some?
      && (s.calls[id].Accepting? ==>
            Proves(s.calls[id].evidence, k.transition.value, k.observation.value, k.completedAt, s.now))
  {
    hide Proves, Reconcile, Validate, ValidateProposal, Authorizes, BindsTransition;
    assert CallFits(s.kernel, s.calls[id], s.now) && Holds(s, id);
  }

  lemma JudgementIsLocal(s: System, a: Action, id: CallId)
    requires Enabled(s, a) && (a == RejectVerify(id) || a == AcceptVerify(id))
    ensures Do(s, a).now == s.now
    ensures Do(s, a).kernel ==
              if a.RejectVerify? then FailStep(s.kernel, s.calls[id].Channel())
              else AcceptStep(s.kernel, s.calls[id].Channel()).0
  {
  }

  /** The end of a verification is the serialized verification. */
  lemma JudgementSimulates(s: System, a: Action, id: CallId)
    requires Inv(s) && Enabled(s, a) && Inv(Do(s, a))
    requires a == RejectVerify(id) || a == AcceptVerify(id)
    ensures Verifies(Abs(s), Abs(Do(s, a)))
    ensures if a.RejectVerify? then Abs(Do(s, a)).stage.Lost? else Abs(Do(s, a)).stage.Proven?
  {
    hide Bound, Calls, History, Channels, Proves, AbsStage, InFlight, Do, Superseded;
    var k, done := s.kernel, s.calls[id].Channel();
    JudgeIsCurrent(s, id);
    JudgementIsLocal(s, a, id);
    JudgedStage(k, done);
  }

  lemma AnsweredSimulates(s: System, a: Action)
    requires Inv(s) && Enabled(s, a) && Inv(Do(s, a)) && Answers(s, a)
    ensures Simulates(s, a) && Next(Abs(s), Abs(Do(s, a)))
  {
    hide Inv, Do, Enabled, Abs, Observes, Recovers, Prepares, Executes, Verifies, Commits, ObserveStep, RecoverStep,
      NormalizeStep, ReconcileStep, GovernStep, ReserveStep, CommitStep;
    if Abs(Do(s, a)) == Abs(s) {
      assert Elapses(Abs(s), Abs(Do(s, a)));
    }
  }

  /** Every step of every interleaving is a serialized step with the same answer, or invisible. */
  lemma StepSimulates(s: System, a: Action)
    requires Inv(s) && Enabled(s, a)
    ensures Inv(Do(s, a)) && Answers(s, a) && Simulates(s, a) && Next(Abs(s), Abs(Do(s, a)))
  {
    StepKeepsInv(s, a);
    StepAnswers(s, a);
    hide Inv, Do, Enabled, Answers;
    AnsweredSimulates(s, a);
  }

  lemma StepAnswers(s: System, a: Action)
    requires Inv(s) && Enabled(s, a) && Inv(Do(s, a))
    ensures Answers(s, a)
  {
    hide Inv, Do, Abs, Executes, Verifies, Observes, Recovers, Prepares, Commits, Elapses, ObserveStep, RecoverStep,
      NormalizeStep, ReconcileStep, GovernStep, ReserveStep, CommitStep;
    match a
    case Tick(_) => EnvironmentSimulates(s, a);
    case OutsideCas(_, _) => EnvironmentSimulates(s, a);
    case CallObserve(_) => ObservationSimulates(s, a);
    case CallRecover(_) => ObservationSimulates(s, a);
    case EnterStart(_) => EnterStartSimulates(s, a);
    case ReadBefore(_) => EnterStartSimulates(s, a);
    case LeaveStart(id, result) => LeaveStartSimulates(s, id, result);
    case EnterVerify(_) => ReservationSimulates(s, a);
    case CancelVerify(_) => ReservationSimulates(s, a);
    case AdmitVerify(_) => ReservationSimulates(s, a);
    case AnswerVerify(_, _) => ReservationSimulates(s, a);
    case RejectVerify(id) => JudgementSimulates(s, a, id);
    case AcceptVerify(id) => JudgementSimulates(s, a, id);
    case CallCommit => CommitSimulates(s, a);
    case _ => PreparationSimulates(s, a);
  }
}
