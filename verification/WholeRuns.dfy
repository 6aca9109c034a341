/**
 Whole runs: any sequence of actions from a booted system, by any number of
 callers, in any interleaving. The main theorems of the lifecycle.
 */
module WholeRuns {
  import opened Results
  import opened Evidence
  import opened KernelSteps
  import opened StateMachines
  import opened Interleaving
  import opened Serialized

  /** A state that some interleaving reaches. */
  ghost predicate Reachable(s: System) {
    exists root: string, now: Time :: 0 < now && Reaches(Steps(), Boot(root, now), s)
  }

  lemma StepsKeepInv()
    ensures forall s, a | Inv(s) && Steps().enabled(s, a) :: Inv(Steps().next(s, a))
  {
    hide Inv, Do, Enabled;
    forall s, a | Inv(s) && Steps().enabled(s, a) ensures Inv(Steps().next(s, a)) {
      StepKeepsInv(s, a);
    }
  }

  lemma RunKeepsInv(s: System, actions: seq<Action>)
    requires Inv(s) && Possible(Steps(), s, actions)
    ensures Inv(After(Steps(), s, actions))
  {
    hide Inv, Steps;
    StepsKeepInv();
    RunKeeps(Steps(), s => Inv(s), s, actions);
  }

  lemma ReachableInv(s: System)
    requires Reachable(s)
    ensures Inv(s)
  {
    hide Inv, Steps;
    var root, now :| 0 < now && Reaches(Steps(), Boot(root, now), s);
    BootInv(root, now);
    StepsKeepInv();
    ReachedKeeps(Steps(), s => Inv(s), Boot(root, now), s);
  }

  // ---- Refinement ----

  ghost predicate SerialRun(path: seq<Serial>) {
    && path != []
    && forall i | 0 <= i < |path| - 1 :: Next(path[i], path[i + 1])
  }

  /** One action between two states, answered as the serialized lifecycle answers. */
  ghost predicate Fits(s: System, a: Action, s': System) {
    Inv(s) && Enabled(s, a) && s' == Do(s, a) && Inv(s') && Answers(s, a)
  }

  ghost predicate Mirrors(path: seq<Serial>, trace: seq<System>) {
    |path| == |trace| && forall i | 0 <= i < |trace| :: MirroredBy(trace[i], path[i])
  }

  ghost predicate MirroredBy(s: System, serial: Serial) {
    Inv(s) && Abs(s) == serial
  }

  /** Every run of the concurrent runtime is, state by state, a run of the serialized lifecycle, and
      what each action answers is what its serialized step does. */
  lemma RunIsSerializable(s: System, actions: seq<Action>)
    requires Inv(s) && Possible(Steps(), s, actions)
    ensures var trace := Trace(Steps(), s, actions);
      && (forall i | 0 <= i < |actions| :: Fits(trace[i], actions[i], trace[i + 1]))
      && exists path :: SerialRun(path) && Mirrors(path, trace)
  {
    hide Inv, Do, Enabled, Next, Answers, Simulates, Abs;
    var m, trace := Steps(), Trace(Steps(), s, actions);
    StepsKeepInv();
    TraceKeeps(m, s => Inv(s), s, actions);
    TraceIsARun(m, s, actions);
    forall i | 0 <= i < |actions|
      ensures Fits(trace[i], actions[i], trace[i + 1]) && Next(Abs(trace[i]), Abs(trace[i + 1]))
    {
      assert Enabled(trace[i], actions[i]) && trace[i + 1] == Do(trace[i], actions[i]);
      assert trace[i] in trace;
      StepSimulates(trace[i], actions[i]);
    }
    var path := seq(|trace|, i requires 0 <= i < |trace| => AbsIn(trace, i));
    assert SerialRun(path);
    forall i | 0 <= i < |trace| ensures MirroredBy(trace[i], path[i]) {
      assert trace[i] in trace;
    }
    assert Mirrors(path, trace);
  }

  ghost function AbsIn(trace: seq<System>, i: nat): Serial
    requires i < |trace| && forall s | s in trace :: Inv(s)
  {
    assert trace[i] in trace;
    Abs(trace[i])
  }

  // ---- History ----

  lemma WriteKeepsChain(root: string, s: System, s': System, w: Write)
    requires Chain(root, s) && s.log <= s'.log
    requires s'.writes == s.writes + [w] && w.before == s.kernel.root && w.after == s'.kernel.root
    requires w.commit.Some? ==>
              |s.log| <= w.commit.value < |s'.log| && s'.log[w.commit.value] == DidCommit(w.before, w.after)
    ensures Chain(root, s')
  {
    forall j: nat | j < |s'.writes|
      ensures s'.writes[j].before == RootAfter(root, s'.writes[..j])
    {
      assert s'.writes[..j] == s.writes[..j];
    }
    forall j: nat | j < |s'.writes| && s'.writes[j].commit.Some?
      ensures s'.writes[j].commit.value < |s'.log|
      ensures s'.log[s'.writes[j].commit.value] == DidCommit(s'.writes[j].before, s'.writes[j].after)
    {
      assert j < |s.writes| ==> s'.writes[j] == s.writes[j];
    }
    forall i: nat, j: nat | i < j < |s'.writes| && s'.writes[i].commit.Some? && s'.writes[j].commit.Some?
      ensures s'.writes[i].commit.value < s'.writes[j].commit.value
    {
      assert s'.writes[i] == s.writes[i];
      assert j < |s.writes| ==> s'.writes[j] == s.writes[j];
    }
  }

  /** Only a commit and an outside change write the root, and the log only grows. */
  lemma StepKeepsChain(root: string, s: System, a: Action)
    requires Bound(s.kernel) && Chain(root, s) && Enabled(s, a)
    ensures Chain(root, Do(s, a))
  {
    hide Chain;
    var s' := Do(s, a);
    if a.OutsideCas? || a.CallCommit? {
      OneWrite(s, a);
    } else {
      NoWrite(s, a);
    }
    hide Do, Enabled, Bound;
    if s'.writes != s.writes {
      WriteKeepsChain(root, s, s', s'.writes[|s.writes|]);
    } else {
      GrowthKeepsChain(root, s, s');
    }
  }

  lemma OneWrite(s: System, a: Action)
    requires Bound(s.kernel) && Enabled(s, a) && (a.OutsideCas? || a.CallCommit?)
    ensures var s' := Do(s, a);
      && s.log <= s'.log
      && (s'.writes == s.writes ==> s'.kernel.root == s.kernel.root)
      && (s'.writes != s.writes ==>
            && |s'.writes| == |s.writes| + 1
            && var w := s'.writes[|s.writes|];
               && s'.writes == s.writes + [w] && w.before == s.kernel.root && w.after == s'.kernel.root
               && (w.commit.Some? ==>
                     |s.log| <= w.commit.value < |s'.log| && s'.log[w.commit.value] == DidCommit(w.before, w.after)))
  {
  }

  lemma NoWrite(s: System, a: Action)
    requires Enabled(s, a) && !a.OutsideCas? && !a.CallCommit?
    ensures s.log <= Do(s, a).log && Do(s, a).writes == s.writes && Do(s, a).kernel.root == s.kernel.root
  {
    hide Validate, Reconcile, ValidateProposal, Evidence.Normalize, BindsTransition, Proves, ValidFor;
  }

  lemma GrowthKeepsChain(root: string, s: System, s': System)
    requires Chain(root, s) && s.log <= s'.log && s'.writes == s.writes && s'.kernel.root == s.kernel.root
    ensures Chain(root, s')
  {
  }

  lemma RunKeepsChain(root: string, s: System, actions: seq<Action>)
    requires Inv(s) && Chain(root, s) && Possible(Steps(), s, actions)
    ensures Chain(root, After(Steps(), s, actions))
  {
    hide Chain, Inv, Do, Enabled;
    var both := (s: System) => Inv(s) && Chain(root, s);
    forall s, a | both(s) && Steps().enabled(s, a) ensures both(Steps().next(s, a)) {
      StepKeepsInv(s, a);
      InvIsKernelInv(s);
      StepKeepsChain(root, s, a);
    }
    RunKeeps(Steps(), both, s, actions);
  }

  /** The commit history of any run. Every write of the root starts from the value
      the previous write left. Every write that a commit made is a real change, and
      right before it the log shows the complete attempt: observation, proposal,
      reconciliation, governance, reservation, one execution begun under a valid
      authority and completed successfully, and evidence that proves the transition.
      No attempt backs two writes: the nine events of different commits do not overlap. */
  lemma CommitHistory(root: string, now: Time, actions: seq<Action>)
    requires 0 < now && Possible(Steps(), Boot(root, now), actions)
    ensures var s := After(Steps(), Boot(root, now), actions);
      && Chain(root, s)
      && (forall j: nat | j < |s.writes| && s.writes[j].commit.Some? ::
            && CommitBacked(s.log, s.writes[j].commit.value)
            && s.log[s.writes[j].commit.value] == DidCommit(s.writes[j].before, s.writes[j].after)
            && s.writes[j].before != s.writes[j].after)
      && (forall i: nat, j: nat | i < j < |s.writes| && s.writes[i].commit.Some? && s.writes[j].commit.Some? ::
            s.writes[i].commit.value + 9 <= s.writes[j].commit.value)
  {
    BootInv(root, now);
    hide Do, Enabled, Steps;
    var s := After(Steps(), Boot(root, now), actions);
    RunKeepsInv(Boot(root, now), actions);
    RunKeepsChain(root, Boot(root, now), actions);
    assert Backed(s.log);
    hide Bound, Channels, Calls, Shape, Proves, Reconcile, ValidFor;
    forall j: nat | j < |s.writes| && s.writes[j].commit.Some?
      ensures CommitBacked(s.log, s.writes[j].commit.value) && s.writes[j].before != s.writes[j].after
    {
      assert s.log[s.writes[j].commit.value].DidCommit?;
    }
    forall i: nat, j: nat | i < j < |s.writes| && s.writes[i].commit.Some? && s.writes[j].commit.Some?
      ensures s.writes[i].commit.value + 9 <= s.writes[j].commit.value
    {
      AttemptsAreApart(s.log, s.writes[i].commit.value, s.writes[j].commit.value);
    }
  }

  lemma AttemptsAreApart(log: seq<Event>, i: nat, j: nat)
    requires i < j && CommitBacked(log, i) && CommitBacked(log, j)
    ensures i + 9 <= j
  {
    hide Proves, Reconcile, ValidFor;
  }

  /** Reservations are used at most once: executions that begin at different log
      positions have their own reservation right before them. */
  lemma ReservationsAreSingleUse(s: System, i: nat, j: nat)
    requires Reachable(s) && i < j < |s.log| && s.log[i].DidBegin? && s.log[j].DidBegin?
    ensures 0 < i && i < j - 1
    ensures s.log[i - 1].DidReserve? && s.log[i - 1].a.executionId == s.log[i].executionId
    ensures s.log[j - 1].DidReserve? && s.log[j - 1].a.executionId == s.log[j].executionId
  {
    BegunByReservation(s, i);
    BegunByReservation(s, j);
    hide Reachable;
  }

  lemma BegunByReservation(s: System, i: nat)
    requires Reachable(s) && i < |s.log| && s.log[i].DidBegin?
    ensures BeginBacked(s.log, i)
  {
    ReachableInv(s);
    hide Reachable, Steps, KernelInv, Calls, Shape, CommitBacked, BeginBacked;
  }

  // ---- Frozen attempts ----

  /** What an attempt is about. */
  function Attempt(k: Kernel): (Option<Observation>, Option<Transition>, Option<Authority>, Option<Done>) {
    (k.observation, k.transition, k.authority, k.executionDone)
  }

  /** From the consumption of the authority on, no call by anyone changes what the
      attempt is about, except a recovery after it has failed or a fresh observation
      after it was committed. */
  lemma AttemptIsFrozen(s: System, a: Action)
    requires Inv(s) && Enabled(s, a) && 6 <= Stage(s.kernel.phase)
    ensures Attempt(Do(s, a).kernel) == Attempt(s.kernel)
            || (s.kernel.phase == Recovery && a.CallRecover?)
            || (s.kernel.phase == Committed && a.CallObserve?)
    ensures s.kernel.phase == Started && Do(s, a).kernel.phase != Started ==>
              a.LeaveStart? || a.RejectVerify? || a.AcceptVerify?
  {
    match a
    case CallObserve(_) => FrozenWhilePreparing(s, a);
    case CallRecover(_) => FrozenWhilePreparing(s, a);
    case CallNormalize(_) => FrozenWhilePreparing(s, a);
    case CallReconcile => FrozenWhilePreparing(s, a);
    case CallGovern(_) => FrozenWhilePreparing(s, a);
    case CallReserve(_) => FrozenWhilePreparing(s, a);
    case _ => FrozenOtherwise(s, a);
  }

  predicate IsPreparation(a: Action) {
    a.CallObserve? || a.CallRecover? || a.CallNormalize? || a.CallReconcile? || a.CallGovern? || a.CallReserve?
  }

  lemma FrozenWhilePreparing(s: System, a: Action)
    requires Enabled(s, a) && 6 <= Stage(s.kernel.phase) && IsPreparation(a)
    ensures Attempt(Do(s, a).kernel) == Attempt(s.kernel)
            || (s.kernel.phase == Recovery && a.CallRecover?)
            || (s.kernel.phase == Committed && a.CallObserve?)
    ensures s.kernel.phase == Started ==> Do(s, a).kernel.phase == Started
  {
    hide Validate, Reconcile, ValidateProposal, Evidence.Normalize, BindsTransition;
  }

  lemma FrozenOtherwise(s: System, a: Action)
    requires Enabled(s, a) && 6 <= Stage(s.kernel.phase) && !IsPreparation(a)
    ensures Attempt(Do(s, a).kernel) == Attempt(s.kernel)
    ensures s.kernel.phase == Started && Do(s, a).kernel.phase != Started ==>
              a.LeaveStart? || a.RejectVerify? || a.AcceptVerify?
  {
    hide Proves, ValidFor;
  }

  /** At most one executor runs, it belongs to the current attempt, and what the
      unlocked read handed to it is the observation that was authorised. */
  lemma OneExecutor(s: System, i: CallId, j: CallId)
    requires Reachable(s) && Runs(s, i) && Runs(s, j)
    ensures i == j && s.kernel.phase == Started && s.kernel.executionDone == Some(s.calls[i].ticket.done)
    ensures s.calls[i].Executing? ==>
      var c := s.calls[i];
      && Valid(c.before) && c.before.fingerprint == c.ticket.authority.observation
      && c.before.state == c.ticket.transition.before
      && c.ticket.authority.transition == c.ticket.transition.fingerprint
  {
    ReachableInv(s);
    assert CallFits(s.kernel, s.calls[i], s.now);
    hide History, Channels;
  }

  /** The defensive re-checks never fire: a returning executor, an accepted
      verifier and a failed one always find their own attempt still current. The
      unlocked read never finds a missing observation. */
  lemma GuardsNeverFire(s: System, id: CallId)
    requires Reachable(s) && id in s.calls
    ensures s.calls[id].Starts() ==> !Superseded(s.kernel, s.calls[id].Channel()) && s.kernel.observation.Some?
                                     && s.calls[id].Channel() !in s.kernel.closed
    ensures s.calls[id].Accepting? ==> AcceptStep(s.kernel, s.calls[id].done).1.None?
    ensures s.calls[id].Rejecting? ==> FailStep(s.kernel, s.calls[id].done).phase == Recovery
  {
    ReachableInv(s);
    assert CallFits(s.kernel, s.calls[id], s.now);
    assert !s.calls[id].Starts() && s.calls[id].Channel() in s.kernel.closed && !s.calls[id].Awaiting? ==> Holds(s, id);
    hide History;
  }

  // ---- Verification reservations ----

  /** The reservation flag is set exactly when one live Verify of the current
      execution holds it. */
  lemma ReservationHasOneOwner(s: System)
    requires Reachable(s)
    ensures s.kernel.verificationActive <==> exists id :: Holds(s, id)
    ensures forall i, j | Holds(s, i) && Holds(s, j) :: i == j
  {
    ReachableInv(s);
    hide Bound, Channels, History;
  }

  /** A verifier from an older attempt cannot touch a newer one: whatever it does
      next leaves the runtime and the history as they were. */
  lemma StaleVerifierIsInvisible(s: System, a: Action, id: CallId)
    requires Reachable(s) && Enabled(s, a) && id in s.calls && !s.calls[id].Starts() && !Holds(s, id)
    requires a == CancelVerify(id) || a == AdmitVerify(id) || a == RejectVerify(id) || a == AcceptVerify(id)
             || (a.AnswerVerify? && a.id == id)
    ensures Do(s, a).kernel == s.kernel && Do(s, a).log == s.log && id !in Do(s, a).calls
  {
    hide Reachable, Do, Enabled, History, Bound, Channels;
    ReachableInv(s);
    assert CallFits(s.kernel, s.calls[id], s.now);
    StaleIsLocal(s, a, id);
  }

  lemma StaleIsLocal(s: System, a: Action, id: CallId)
    requires Enabled(s, a) && id in s.calls && !s.calls[id].Starts() && !Holds(s, id)
    requires CallFits(s.kernel, s.calls[id], s.now)
    requires a == CancelVerify(id) || a == AdmitVerify(id) || a == RejectVerify(id) || a == AcceptVerify(id)
             || (a.AnswerVerify? && a.id == id)
    ensures Do(s, a).kernel == s.kernel && Do(s, a).log == s.log && id !in Do(s, a).calls
  {
  }

  /** Giving up a wait releases the reservation of the call that gives up, no other's. */
  lemma CancellationReleasesOwnReservation(s: System, id: CallId)
    requires Reachable(s) && Enabled(s, CancelVerify(id))
    ensures Do(s, CancelVerify(id)).kernel ==
              s.kernel.(verificationActive := s.kernel.verificationActive && !Holds(s, id))
  {
    ReachableInv(s);
    CancellationIsLocal(s, id);
    hide Do, KernelInv, History, CallFits;
    assert Holds(s, id) ==> s.kernel.verificationActive;
  }

  lemma CancellationIsLocal(s: System, id: CallId)
    requires Enabled(s, CancelVerify(id))
    ensures Do(s, CancelVerify(id)).kernel ==
              if Holds(s, id) then s.kernel.(verificationActive := false) else s.kernel
  {
  }

  // ---- Phase binding ----

  /** In NORMALIZED the reconciliation cannot fail. */
  lemma ReconcileCannotFail(s: System)
    requires Reachable(s)
    ensures ReconcileStep(s.kernel).1.Ok? <==> s.kernel.phase == Normalized
  {
    ReachableInv(s);
    hide History, Calls, Channels;
  }

  /** Start fails in RESERVED exactly by expiry or by a root that has moved on. */
  lemma StartFailsExactlyWhen(s: System)
    requires Reachable(s) && s.kernel.phase == Reserved
    ensures s.kernel.authority.Some? && s.kernel.observation.Some?
    ensures var a := s.kernel.authority.value;
            var expired := a.expiresAt != ZERO_TIME && s.now >= a.expiresAt;
            var moved := s.kernel.root != s.kernel.observation.value.state;
            && (BeginStep(s.kernel, s.now).1.Err? <==> expired || moved)
            && (expired ==> BeginStep(s.kernel, s.now).1 == Err(AuthorityExpired))
  {
    ReachableInv(s);
    hide History, Calls, Channels;
  }

  /** Whatever happens, an observed runtime keeps its subject for life. */
  lemma SubjectIsLifelong(s: System, actions: seq<Action>)
    requires s.kernel.observation.Some? && Possible(Steps(), s, actions)
    ensures After(Steps(), s, actions).kernel.observation.Some?
    ensures After(Steps(), s, actions).kernel.observation.value.subject == s.kernel.observation.value.subject
  {
    hide Do, Enabled;
    var subject := s.kernel.observation.value.subject;
    var keeps := (s: System) => s.kernel.observation.Some? && s.kernel.observation.value.subject == subject;
    forall s, a | keeps(s) && Steps().enabled(s, a) ensures keeps(Steps().next(s, a)) {
      StepKeepsSubject(s, a);
    }
    RunKeeps(Steps(), keeps, s, actions);
  }

  lemma StepKeepsSubject(s: System, a: Action)
    requires s.kernel.observation.Some? && Enabled(s, a)
    ensures Do(s, a).kernel.observation.Some?
    ensures Do(s, a).kernel.observation.value.subject == s.kernel.observation.value.subject
  {
    hide Validate, ValidateProposal, ValidFor, Proves, Reconcile, Evidence.Normalize, BindsTransition;
  }

  /** RECOVERY always has a subject and a completion time; valid evidence is accepted
      exactly when it is for that subject, dated after the failed execution and not
      in the future. */
  lemma RecoveryAcceptsFreshEvidence(s: System, o: Observation)
    requires Reachable(s) && s.kernel.phase == Recovery && Valid(o)
    ensures s.kernel.observation.Some?
    ensures RecoverStep(s.kernel, o, s.now).1.None? <==>
              o.subject == s.kernel.observation.value.subject && s.kernel.completedAt < o.observedAt <= s.now
    ensures RecoverStep(s.kernel, o, s.now).1.None? ==> RecoverStep(s.kernel, o, s.now).0 == ResetTo(s.kernel, o)
    ensures s.kernel.completedAt != ZERO_TIME
  {
    hide History, Calls, Reconcile, ValidateProposal, Authorizes, BindsTransition;
    ReachableInv(s);
  }
}
