/**
 Any number of callers on one kernel runtime. An action is one critical section
 of one call, one unlocked step of a call, a clock tick, or a change of the root
 by someone else. Executor and verifier answers are parameters of the actions,
 so they are arbitrary. `log`, `mark` and `writes` are history: the effective
 lifecycle events so far, where the current attempt begins in them, and every
 change of the root.
 */
module Interleaving {
  import opened Results
  import opened Evidence
  import opened KernelSteps
  import opened StateMachines

  type CallId = nat

  /** Where an unfinished Start or Verify stands. */
  datatype Call =
    | Entered(ticket: Ticket)                          // Start: mutex released, observation not yet read
    | Executing(ticket: Ticket, before: Observation)   // Start: the executor runs
    | Awaiting(done: Done)                             // Verify: reserved, waiting for the executor
    | Checking(claim: Claim)                           // Verify: the verifier runs
    | Accepting(done: Done, evidence: Observation)     // Verify: the evidence passed every check
    | Rejecting(done: Done)                            // Verify: about to fail the attempt
  {
    predicate Starts() { Entered? || Executing? }

    function Channel(): Done {
      match this
      case Entered(t) => t.done
      case Executing(t, _) => t.done
      case Awaiting(d) => d
      case Checking(c) => c.done
      case Accepting(d, _) => d
      case Rejecting(d) => d
    }
  }

  datatype Event =
    | DidObserve(o: Observation, recovering: bool)
    | DidNormalize(p: NormalizedProposal)
    | DidReconcile(t: Transition)
    | DidGovern(d: GovernanceDecision)
    | DidReserve(a: Authority)
    | DidBegin(executionId: Digest, at: Time)
    | DidComplete(success: bool, at: Time)
    | DidVerify(evidence: Observation, at: Time)
    | DidReject
    | DidCommit(before: string, after: string)
    | DidConflict

  /** A change of the root; `commit` is the log position of the commit that made it. */
  datatype Write = Write(before: string, after: string, commit: Option<nat>)

  datatype System = System(
    kernel: Kernel,
    calls: map<CallId, Call>,
    now: Time,
    log: seq<Event>,
    mark: nat,
    writes: seq<Write>)

  datatype Action =
    | Tick(to: Time)
    | OutsideCas(expected: string, next: string)
    | CallObserve(o: Observation)
    | CallNormalize(p: Proposal)
    | CallReconcile
    | CallGovern(d: GovernanceDecision)
    | CallReserve(lifetime: int)
    | EnterStart(id: CallId)
    | ReadBefore(id: CallId)
    | LeaveStart(id: CallId, result: ExecutionResult)
    | EnterVerify(id: CallId)
    | CancelVerify(id: CallId)
    | AdmitVerify(id: CallId)
    | AnswerVerify(id: CallId, answer: Option<Observation>)
    | RejectVerify(id: CallId)
    | AcceptVerify(id: CallId)
    | CallCommit
    | CallRecover(o: Observation)

  function Boot(root: string, now: Time): System {
    System(Initial(root), map[], now, [], 0, [])
  }

  predicate Enabled(s: System, a: Action) {
    match a
    case Tick(to) => s.now <= to
    case EnterStart(id) => id !in s.calls
    case EnterVerify(id) => id !in s.calls
    case ReadBefore(id) => id in s.calls && s.calls[id].Entered?
    case LeaveStart(id, _) => id in s.calls && s.calls[id].Executing?
    // the select may take the cancellation even when the channel is closed
    case CancelVerify(id) => id in s.calls && s.calls[id].Awaiting?
    case AdmitVerify(id) => id in s.calls && s.calls[id].Awaiting? && s.calls[id].done in s.kernel.closed
    case AnswerVerify(id, _) => id in s.calls && s.calls[id].Checking?
    case RejectVerify(id) => id in s.calls && s.calls[id].Rejecting?
    case AcceptVerify(id) => id in s.calls && s.calls[id].Accepting?
    case _ => true
  }

  function Logged(s: System, k: Kernel, e: Event): System {
    s.(kernel := k, log := s.log + [e])
  }

  /** A new attempt begins with an accepted observation. */
  function Restarted(s: System, k: Kernel, o: Observation, recovering: bool): System {
    s.(kernel := k, log := s.log + [DidObserve(o, recovering)], mark := |s.log|)
  }

  function Do(s: System, a: Action): System
    requires Enabled(s, a)
  {
    match a
    case Tick(to) => s.(now := to)
    case OutsideCas(expected, next) =>
      var (root, err) := CompareAndSwap(s.kernel.root, expected, next);
      if err.Some? then s
      else s.(kernel := s.kernel.(root := root), writes := s.writes + [Write(expected, next, None)])
    case CallObserve(o) =>
      var (k, err) := ObserveStep(s.kernel, o);
      if err.Some? then s else Restarted(s, k, o, false)
    case CallNormalize(p) =>
      var (k, r) := NormalizeStep(s.kernel, p);
      if r.Err? then s else Logged(s, k, DidNormalize(r.value))
    case CallReconcile =>
      var (k, r) := ReconcileStep(s.kernel);
      if r.Err? then s else Logged(s, k, DidReconcile(r.value))
    case CallGovern(d) =>
      var (k, r) := GovernStep(s.kernel, t => d);
      if r.Err? then s else Logged(s, k, DidGovern(r.value))
    case CallReserve(lifetime) =>
      var (k, r) := ReserveStep(s.kernel, lifetime, s.now);
      if r.Err? then s else Logged(s, k, DidReserve(r.value))
    case EnterStart(id) =>
      var (k, r) := BeginStep(s.kernel, s.now);
      if r.Err? then s
      else Logged(s, k, DidBegin(r.value.authority.executionId, s.now)).(calls := s.calls[id := Entered(r.value)])
    case ReadBefore(id) =>
      (match s.kernel.observation
       case Some(o) => s.(calls := s.calls[id := Executing(s.calls[id].ticket, o)])
       case None => s)
    case LeaveStart(id, result) =>
      var done := s.calls[id].ticket.done;
      var s' := s.(calls := s.calls - {id});
      if Superseded(s.kernel, done) then s'
      else Logged(s', FinishStep(s.kernel, done, result, s.now), DidComplete(result.success, s.now))
    case EnterVerify(id) =>
      var (k, r) := BeginVerifyStep(s.kernel);
      if r.Err? then s else s.(kernel := k, calls := s.calls[id := Awaiting(r.value)])
    case CancelVerify(id) =>
      s.(kernel := ReleaseStep(s.kernel, s.calls[id].done), calls := s.calls - {id})
    case AdmitVerify(id) =>
      var (k, r) := AdmitStep(s.kernel, s.calls[id].done);
      s.(kernel := k, calls := if r.Err? then s.calls - {id} else s.calls[id := Checking(r.value)])
    case AnswerVerify(id, answer) =>
      var c := s.calls[id].claim;
      var call := if answer.Some? && Proves(answer.value, c.transition, c.before, c.completedAt, s.now)
                  then Accepting(c.done, answer.value) else Rejecting(c.done);
      s.(calls := s.calls[id := call])
    case RejectVerify(id) =>
      var k := FailStep(s.kernel, s.calls[id].done);
      var s' := s.(kernel := k, calls := s.calls - {id});
      if k.phase == s.kernel.phase then s' else Logged(s', k, DidReject)
    case AcceptVerify(id) =>
      var (k, err) := AcceptStep(s.kernel, s.calls[id].done);
      var s' := s.(calls := s.calls - {id});
      if err.Some? then s' else Logged(s', k, DidVerify(s.calls[id].evidence, s.now))
    case CallCommit =>
      var (k, err) := CommitStep(s.kernel);
      if k.phase == Recovery && s.kernel.phase != Recovery then Logged(s, k, DidConflict)
      else if err.Some? then s
      else
        var t := s.kernel.transition.value;
        Logged(s, k, DidCommit(t.before, t.after)).(writes := s.writes + [Write(t.before, t.after, Some(|s.log|))])
    case CallRecover(o) =>
      var (k, err) := RecoverStep(s.kernel, o, s.now);
      if err.Some? then s else Restarted(s, k, o, true)
  }

  function Steps(): Machine<System, Action> {
    Machine((s, a) => Enabled(s, a), (s, a) => if Enabled(s, a) then Do(s, a) else s)
  }

  // ---- The inductive invariant ----

  /** How far an attempt has come; RECOVERY keeps everything the failed attempt had. */
  function Stage(p: Phase): nat {
    match p
    case Idle => 0
    case Observed => 1
    case Normalized => 2
    case Reconciled => 3
    case Authorized => 4
    case Reserved => 5
    case Started => 6
    case Verified => 7
    case Committed => 8
    case Recovery => 9
  }

  /** The phase determines which parts of an attempt exist, and they belong together. */
  predicate Bound(k: Kernel) {
    var stage := Stage(k.phase);
    && (k.observation.Some? <==> 1 <= stage)
    && (k.proposal.Some? <==> 2 <= stage)
    && (k.transition.Some? <==> 3 <= stage)
    && (k.decision.Some? <==> 4 <= stage)
    && (k.authority.Some? <==> 5 <= stage)
    && (k.executionDone.Some? <==> 6 <= stage)
    && (k.observation.Some? ==> Valid(k.observation.value))
    && (k.proposal.Some? ==> ValidateProposal(k.proposal.value) == None
                             && k.proposal.value.subject == k.observation.value.subject)
    && (k.transition.Some? ==> Reconcile(k.observation.value, k.proposal.value) == Ok(k.transition.value))
    && (k.decision.Some? ==> k.decision.value.allowed && BindsTransition(k.decision.value, k.transition.value)
                             && k.transition.value.decision == Execute)
    && (k.authority.Some? ==> Authorizes(k.authority.value, k.transition.value)
                              && (k.authority.value.consumed <==> k.phase != Reserved))
  }

  predicate Authorizes(a: Authority, t: Transition) {
    a.executionId != EMPTY && a.transition == t.fingerprint
    && a.observation == t.observation && a.proposal == t.proposal
  }

  /** An executor of the current attempt has returned. */
  predicate Completed(k: Kernel) {
    k.executionDone.Some? && k.executionDone.value in k.closed
  }

  predicate Channels(k: Kernel, now: Time) {
    && 0 < now
    && (forall d | d in k.closed :: d < k.made)
    && (k.executionDone.Some? ==> k.executionDone.value < k.made)
    && (7 <= Stage(k.phase) ==> Completed(k))
    && (k.completedAt != ZERO_TIME <==> Completed(k))
    && (Completed(k) ==> k.completedAt <= now)
    && (k.phase != Recovery && Completed(k) ==> k.result.success)
    && (k.verificationActive ==> k.phase == Started || k.phase == Recovery)
  }

  predicate Runs(s: System, id: CallId) {
    id in s.calls && s.calls[id].Starts()
  }

  /** A live Verify call that is bound to the current execution. */
  predicate Holds(s: System, id: CallId) {
    id in s.calls && !s.calls[id].Starts() && Some(s.calls[id].Channel()) == s.kernel.executionDone
  }

  /** What each unfinished call may rely on. */
  predicate CallFits(k: Kernel, c: Call, now: Time) {
    && c.Channel() < k.made
    && (c.Starts() ==> k.phase == Started && k.executionDone == Some(c.ticket.done) && !Completed(k)
                       && Some(c.ticket.transition) == k.transition && Some(c.ticket.authority) == k.authority)
    && (c.Executing? ==> Some(c.before) == k.observation)
    && (c.Checking? || c.Accepting? || c.Rejecting? ==>
          k.phase == Started && k.executionDone == Some(c.Channel()) && Completed(k))
    && (c.Checking? || c.Accepting? ==> k.transition.Some? && k.authority.Some? && k.observation.Some?)
    && (c.Checking? ==> c.claim == Claim(c.Channel(), k.transition.value, k.authority.value,
                                         k.observation.value, k.result, k.completedAt))
    && (c.Accepting? ==> Proves(c.evidence, k.transition.value, k.observation.value, k.completedAt, now))
  }

  ghost predicate Calls(s: System) {
    && (forall id | id in s.calls :: CallFits(s.kernel, s.calls[id], s.now))
    && (forall i, j | Runs(s, i) && Runs(s, j) :: i == j)
    && (s.kernel.phase == Started && !Completed(s.kernel) ==> exists id :: Runs(s, id))
    && (forall i, j | Holds(s, i) && Holds(s, j) :: i == j)
    && (s.kernel.verificationActive <==> exists id :: Holds(s, id))
  }

  /** The events of the current attempt spell out the kernel's fields. */
  predicate Shape(k: Kernel, e: seq<Event>) {
    && |e| <= 10
    && (|e| >= 1 ==> e[0].DidObserve? && Some(e[0].o) == k.observation)
    && (|e| >= 2 ==> k.proposal.Some? && e[1] == DidNormalize(k.proposal.value))
    && (|e| >= 3 ==> k.transition.Some? && e[2] == DidReconcile(k.transition.value))
    && (|e| >= 4 ==> k.decision.Some? && e[3] == DidGovern(k.decision.value))
    && (|e| >= 5 ==> k.authority.Some? && e[4] == DidReserve(k.authority.value.(consumed := false)))
    && (|e| >= 6 ==> e[5].DidBegin? && e[5].executionId == k.authority.value.executionId
                     && Begins(k, e[5].at))
    && (|e| >= 7 ==> e[6].DidComplete? && e[6].at == k.completedAt)
    && (|e| >= 8 && e[7].DidVerify? ==>
          e[6].success && Proves(e[7].evidence, k.transition.value, k.observation.value, e[6].at, e[7].at))
    && (match k.phase
        case Idle => |e| == 0
        case Observed => |e| == 1
        case Normalized => |e| == 2
        case Reconciled => |e| == 3
        case Authorized => |e| == 4
        case Reserved => |e| == 5
        case Started => if Completed(k) then |e| == 7 && e[6].success else |e| == 6
        case Verified => |e| == 8 && e[7].DidVerify?
        case Committed => |e| == 9 && e[7].DidVerify?
        case Recovery =>
          || (|e| == 7 && !e[6].success)
          || (|e| == 8 && e[6].success && e[7].DidReject?)
          || (|e| == 9 && e[7].DidVerify? && e[8].DidConflict?))
  }

  /** The authority was valid when it was consumed. */
  predicate Begins(k: Kernel, at: Time)
    requires k.authority.Some? && k.transition.Some?
  {
    k.observation.Some?
    && ValidFor(k.authority.value.(consumed := false), k.transition.value, k.observation.value, at) == None
  }

  /** The eight events that must stand right before a commit, and how they belong together. */
  predicate CommitBacked(log: seq<Event>, i: nat) {
    && 8 <= i < |log|
    && log[i].DidCommit? && log[i-1].DidVerify? && log[i-2].DidComplete? && log[i-3].DidBegin?
    && log[i-4].DidReserve? && log[i-5].DidGovern? && log[i-6].DidReconcile?
    && log[i-7].DidNormalize? && log[i-8].DidObserve?
    && var (o, t, a) := (log[i-8].o, log[i-6].t, log[i-4].a);
    && Reconcile(o, log[i-7].p) == Ok(t)
    && t.decision == Execute
    && log[i] == DidCommit(t.before, t.after)
    && t.before == o.state && t.after == log[i-7].p.target && t.before != t.after
    && log[i-5].d.allowed && BindsTransition(log[i-5].d, t)
    && a.executionId == log[i-3].executionId
    && ValidFor(a, t, o, log[i-3].at) == None
    && log[i-2].success
    && Proves(log[i-1].evidence, t, o, log[i-2].at, log[i-1].at)
  }

  /** An execution begins only right after its own reservation. */
  predicate BeginBacked(log: seq<Event>, i: nat) {
    1 <= i < |log| && log[i].DidBegin? && log[i-1].DidReserve? && log[i-1].a.executionId == log[i].executionId
  }

  ghost predicate Backed(log: seq<Event>) {
    && (forall i: nat | i < |log| && log[i].DidCommit? :: CommitBacked(log, i))
    && (forall i: nat | i < |log| && log[i].DidBegin? :: BeginBacked(log, i))
  }

  ghost predicate History(s: System) {
    && s.mark <= |s.log|
    && Shape(s.kernel, s.log[s.mark..])
    && Backed(s.log)
    && (forall i: nat | i < |s.log| && s.log[i].DidBegin? :: s.log[i].at <= s.now)
  }

  /** The root after some writes. */
  function RootAfter(root: string, writes: seq<Write>): string {
    if writes == [] then root else writes[|writes| - 1].after
  }

  /** The recorded writes lead from `root` to the current root, each from the value
      that its predecessor left, and the commits among them are logged, each by an event of its own. */
  ghost predicate Chain(root: string, s: System) {
    && s.kernel.root == RootAfter(root, s.writes)
    && (forall j: nat | j < |s.writes| :: s.writes[j].before == RootAfter(root, s.writes[..j]))
    && (forall j: nat | j < |s.writes| && s.writes[j].commit.Some? ::
          s.writes[j].commit.value < |s.log|
          && s.log[s.writes[j].commit.value] == DidCommit(s.writes[j].before, s.writes[j].after))
    && (forall i: nat, j: nat | i < j < |s.writes| && s.writes[i].commit.Some? && s.writes[j].commit.Some? ::
          s.writes[i].commit.value < s.writes[j].commit.value)
  }

  predicate KernelInv(k: Kernel, now: Time) {
    Bound(k) && Channels(k, now)
  }

  ghost predicate Inv(s: System) {
    KernelInv(s.kernel, s.now) && Calls(s) && History(s)
  }

  lemma InvIsKernelInv(s: System)
    requires Inv(s)
    ensures KernelInv(s.kernel, s.now)
  {
  }

  // ---- Preservation ----

  lemma BootInv(root: string, now: Time)
    requires 0 < now
    ensures Inv(Boot(root, now)) && Chain(root, Boot(root, now))
  {
  }

  // The kernel's fields, one section at a time.

  lemma ObserveKeeps(k: Kernel, o: Observation, now: Time)
    requires KernelInv(k, now)
    ensures KernelInv(ObserveStep(k, o).0, now) && KernelInv(RecoverStep(k, o, now).0, now)
  {
  }

  lemma NormalizeKeeps(k: Kernel, p: Proposal, now: Time)
    requires KernelInv(k, now)
    ensures KernelInv(NormalizeStep(k, p).0, now)
  {
  }

  lemma ReconcileKeeps(k: Kernel, now: Time)
    requires KernelInv(k, now)
    ensures KernelInv(ReconcileStep(k).0, now)
  {
  }

  lemma GovernKeeps(k: Kernel, d: GovernanceDecision, now: Time)
    requires KernelInv(k, now)
    ensures KernelInv(GovernStep(k, t => d).0, now)
  {
  }

  lemma ReserveKeeps(k: Kernel, lifetime: int, now: Time)
    requires KernelInv(k, now)
    ensures KernelInv(ReserveStep(k, lifetime, now).0, now)
  {
  }

  lemma BeginKeeps(k: Kernel, now: Time)
    requires KernelInv(k, now)
    ensures KernelInv(BeginStep(k, now).0, now)
  {
  }

  lemma FinishKeeps(k: Kernel, done: Done, result: ExecutionResult, now: Time)
    requires KernelInv(k, now)
    ensures KernelInv(FinishStep(k, done, result, now), now)
  {
  }

  lemma ReserveVerifierKeeps(k: Kernel, done: Done, now: Time)
    requires KernelInv(k, now)
    ensures KernelInv(BeginVerifyStep(k).0, now) && KernelInv(ReleaseStep(k, done), now)
  {
  }

  lemma JudgeKeeps(k: Kernel, done: Done, now: Time)
    requires KernelInv(k, now) && Completed(k)
    ensures KernelInv(FailStep(k, done), now) && KernelInv(AcceptStep(k, done).0, now)
  {
  }

  lemma CommitKeeps(k: Kernel, now: Time)
    requires KernelInv(k, now)
    ensures KernelInv(CommitStep(k).0, now)
  {
  }

  lemma EnvironmentKeeps(k: Kernel, root: string, now: Time, to: Time)
    requires KernelInv(k, now) && now <= to
    ensures KernelInv(k.(root := root), now) && KernelInv(k, to)
  {
  }

  lemma StepKeepsKernel(s: System, a: Action)
    requires KernelInv(s.kernel, s.now) && Calls(s) && Enabled(s, a)
    ensures KernelInv(Do(s, a).kernel, Do(s, a).now)
  {
    hide Bound, Channels, Proves;
    match a
    case Tick(to) => EnvironmentKeeps(s.kernel, "", s.now, to);
    case OutsideCas(_, next) => EnvironmentKeeps(s.kernel, next, s.now, s.now);
    case CallObserve(o) => ObserveKeeps(s.kernel, o, s.now);
    case CallRecover(o) => ObserveKeeps(s.kernel, o, s.now);
    case CallNormalize(p) => NormalizeKeeps(s.kernel, p, s.now);
    case CallReconcile => ReconcileKeeps(s.kernel, s.now);
    case CallGovern(d) => GovernKeeps(s.kernel, d, s.now);
    case CallReserve(lifetime) => ReserveKeeps(s.kernel, lifetime, s.now);
    case EnterStart(_) => BeginKeeps(s.kernel, s.now);
    case LeaveStart(id, result) => FinishKeeps(s.kernel, s.calls[id].ticket.done, result, s.now);
    case EnterVerify(_) => ReserveVerifierKeeps(s.kernel, 0, s.now);
    case CancelVerify(id) => ReserveVerifierKeeps(s.kernel, s.calls[id].done, s.now);
    case AdmitVerify(id) => ReserveVerifierKeeps(s.kernel, s.calls[id].done, s.now);
    case RejectVerify(id) => JudgeKeeps(s.kernel, s.calls[id].done, s.now);
    case AcceptVerify(id) => JudgeKeeps(s.kernel, s.calls[id].done, s.now);
    case CallCommit => CommitKeeps(s.kernel, s.now);
    case _ =>
  }

  // The unfinished calls.

  /** Outside STARTED only waiting verifiers are left, and a reset cuts them loose. */
  lemma QuietKeepsCalls(s: System, s': System)
    requires Calls(s) && s'.calls == s.calls && s'.kernel.made == s.kernel.made && s.now <= s'.now
    requires s.kernel.phase != Started && s'.kernel.phase != Started
    requires || (s'.kernel.executionDone == s.kernel.executionDone
                 && s'.kernel.verificationActive == s.kernel.verificationActive)
             || (s'.kernel.executionDone.None? && !s'.kernel.verificationActive)
    ensures Calls(s')
  {
    assert forall id | Holds(s', id) :: Holds(s, id);
    if s'.kernel.verificationActive {
      var id :| Holds(s, id);
      assert Holds(s', id);
    }
  }

  /** The calls that run and the calls that hold stay the same ones. */
  lemma SameCallers(s: System, s': System)
    requires Calls(s)
    requires forall id | id in s'.calls :: CallFits(s'.kernel, s'.calls[id], s'.now)
    requires forall id :: (Runs(s', id) <==> Runs(s, id)) && (Holds(s', id) <==> Holds(s, id))
    requires s'.kernel.phase == s.kernel.phase && (Completed(s'.kernel) <==> Completed(s.kernel))
    requires s'.kernel.verificationActive == s.kernel.verificationActive
    ensures Calls(s')
  {
    if exists id :: Runs(s, id) {
      var id :| Runs(s, id);
      assert Runs(s', id);
    }
    if exists id :: Holds(s, id) {
      var id :| Holds(s, id);
      assert Holds(s', id);
    }
    if exists id :: Holds(s', id) {
      var id :| Holds(s', id);
      assert Holds(s, id);
    }
  }

  lemma EnvironmentKeepsCalls(s: System, a: Action)
    requires Calls(s) && (a.Tick? || a.OutsideCas?) && Enabled(s, a)
    ensures Calls(Do(s, a))
  {
    SameCallers(s, Do(s, a));
  }

  lemma PrepareKeepsCalls(s: System, a: Action)
    requires Channels(s.kernel, s.now) && Calls(s)
    requires a.CallObserve? || a.CallRecover? || a.CallNormalize? || a.CallReconcile?
             || a.CallGovern? || a.CallReserve? || a.CallCommit?
    ensures Calls(Do(s, a))
  {
    var s' := Do(s, a);
    if s' != s {
      QuietKeepsCalls(s, s');
    }
  }

  lemma EnterStartKeepsCalls(s: System, id: CallId)
    requires Channels(s.kernel, s.now) && Calls(s) && Enabled(s, EnterStart(id))
    ensures Calls(Do(s, EnterStart(id)))
  {
    var s' := Do(s, EnterStart(id));
    if s' != s {
      assert Runs(s', id) && forall i | i != id :: !Runs(s', i);
      assert forall i :: !Holds(s', i);
    }
  }

  /** The unlocked read finds the observation that was authorised. */
  lemma ReadBeforeKeepsCalls(s: System, id: CallId)
    requires Channels(s.kernel, s.now) && Calls(s) && Enabled(s, ReadBefore(id))
    ensures Calls(Do(s, ReadBefore(id)))
  {
    SameCallers(s, Do(s, ReadBefore(id)));
  }

  lemma LeaveStartKeepsCalls(s: System, id: CallId, result: ExecutionResult)
    requires Channels(s.kernel, s.now) && Calls(s) && Enabled(s, LeaveStart(id, result))
    ensures Calls(Do(s, LeaveStart(id, result)))
  {
    var s' := Do(s, LeaveStart(id, result));
    forall i ensures !Runs(s', i) && (Holds(s', i) <==> Holds(s, i)) {
      assert Runs(s, id) && (Runs(s', i) ==> Runs(s, i));
    }
    forall i | i in s'.calls ensures CallFits(s'.kernel, s'.calls[i], s'.now) {
      assert !Runs(s', i) && CallFits(s.kernel, s.calls[i], s.now);
    }
    if s'.kernel.verificationActive {
      var i :| Holds(s, i);
      assert Holds(s', i);
    }
  }

  lemma EnterVerifyKeepsCalls(s: System, id: CallId)
    requires Channels(s.kernel, s.now) && Calls(s) && Enabled(s, EnterVerify(id))
    ensures Calls(Do(s, EnterVerify(id)))
  {
    var s' := Do(s, EnterVerify(id));
    if s' != s {
      assert forall i :: Runs(s', i) <==> Runs(s, i);
      assert Holds(s', id) && forall i | i != id :: Holds(s', i) ==> Holds(s, i);
    }
  }

  /** A waiting Verify that goes away gives back its own reservation and no other. */
  lemma LeaveWaitKeepsCalls(s: System, id: CallId)
    requires Channels(s.kernel, s.now) && Calls(s) && Enabled(s, CancelVerify(id))
    ensures Calls(Do(s, CancelVerify(id)))
  {
    var s' := Do(s, CancelVerify(id));
    assert forall i :: Runs(s', i) <==> Runs(s, i);
    assert forall i :: Holds(s', i) <==> Holds(s, i) && i != id;
    if s'.kernel.verificationActive {
      var i :| Holds(s, i);
      assert !Holds(s, id) && Holds(s', i);
    }
    forall i | Holds(s', i) ensures s'.kernel.verificationActive {
      assert Holds(s, i) && !Holds(s, id);
    }
  }

  lemma AdmitVerifyKeepsCalls(s: System, id: CallId)
    requires Channels(s.kernel, s.now) && Calls(s) && Enabled(s, AdmitVerify(id))
    ensures Calls(Do(s, AdmitVerify(id)))
  {
    if AdmitStep(s.kernel, s.calls[id].done).1.Err? {
      LeaveWaitKeepsCalls(s, id);
    } else {
      SameCallers(s, Do(s, AdmitVerify(id)));
    }
  }

  lemma AnswerVerifyKeepsCalls(s: System, id: CallId, answer: Option<Observation>)
    requires Channels(s.kernel, s.now) && Calls(s) && Enabled(s, AnswerVerify(id, answer))
    ensures Calls(Do(s, AnswerVerify(id, answer)))
  {
    SameCallers(s, Do(s, AnswerVerify(id, answer)));
  }

  lemma JudgeKeepsCalls(s: System, a: Action, id: CallId)
    requires Channels(s.kernel, s.now) && Calls(s) && Enabled(s, a)
    requires a == RejectVerify(id) || a == AcceptVerify(id)
    ensures Calls(Do(s, a))
  {
    var s' := Do(s, a);
    forall i ensures !Runs(s', i) && !Holds(s', i) {
      assert Holds(s, id) && (Runs(s', i) ==> Runs(s, i)) && (Holds(s', i) ==> Holds(s, i));
    }
    forall i | i in s'.calls ensures CallFits(s'.kernel, s'.calls[i], s'.now) {
      assert !Runs(s', i) && !Holds(s', i) && CallFits(s.kernel, s.calls[i], s.now);
    }
  }

  lemma StepKeepsCalls(s: System, a: Action)
    requires Channels(s.kernel, s.now) && Calls(s) && Enabled(s, a)
    ensures Calls(Do(s, a))
  {
    match a
    case EnterStart(id) => EnterStartKeepsCalls(s, id);
    case ReadBefore(id) => ReadBeforeKeepsCalls(s, id);
    case LeaveStart(id, result) => LeaveStartKeepsCalls(s, id, result);
    case EnterVerify(id) => EnterVerifyKeepsCalls(s, id);
    case CancelVerify(id) => LeaveWaitKeepsCalls(s, id);
    case AdmitVerify(id) => AdmitVerifyKeepsCalls(s, id);
    case AnswerVerify(id, answer) => AnswerVerifyKeepsCalls(s, id, answer);
    case RejectVerify(id) => JudgeKeepsCalls(s, a, id);
    case AcceptVerify(id) => JudgeKeepsCalls(s, a, id);
    case Tick(_) => EnvironmentKeepsCalls(s, a);
    case OutsideCas(_, _) => EnvironmentKeepsCalls(s, a);
    case _ => PrepareKeepsCalls(s, a);
  }

  // The history.

  lemma AppendKeepsHistory(s: System, s': System, e: Event)
    requires History(s) && s'.log == s.log + [e] && s'.mark == s.mark
    requires Shape(s'.kernel, s.log[s.mark..] + [e])
    requires e.DidCommit? ==> CommitBacked(s'.log, |s.log|)
    requires e.DidBegin? ==> BeginBacked(s'.log, |s.log|) && e.at <= s'.now
    requires s.now <= s'.now
    ensures History(s')
  {
    hide Proves, Shape, Reconcile, ValidFor;
    assert s'.log[s'.mark..] == s.log[s.mark..] + [e];
    forall i: nat | i < |s'.log| && s'.log[i].DidCommit? ensures CommitBacked(s'.log, i) {
      if i < |s.log| {
        assert CommitBacked(s.log, i);
      }
    }
    forall i: nat | i < |s'.log| && s'.log[i].DidBegin? ensures BeginBacked(s'.log, i) {
      if i < |s.log| {
        assert BeginBacked(s.log, i);
      }
    }
  }

  lemma RestartKeepsHistory(s: System, o: Observation, recovering: bool)
    requires History(s)
    ensures History(Restarted(s, ResetTo(s.kernel, o), o, recovering))
  {
    var s' := Restarted(s, ResetTo(s.kernel, o), o, recovering);
    var pre := s.(kernel := ResetTo(s.kernel, o), mark := |s.log|);
    assert s'.log[s'.mark..] == [DidObserve(o, recovering)];
    forall i: nat | i < |s'.log| && s'.log[i].DidCommit? ensures CommitBacked(s'.log, i) {
      assert CommitBacked(s.log, i);
    }
    forall i: nat | i < |s'.log| && s'.log[i].DidBegin? ensures BeginBacked(s'.log, i) {
      assert BeginBacked(s.log, i);
    }
  }

  lemma PrepareKeepsShape(s: System, a: Action)
    requires Bound(s.kernel) && s.mark <= |s.log| && Shape(s.kernel, s.log[s.mark..])
    requires a.CallNormalize? || a.CallReconcile? || a.CallGovern? || a.CallReserve?
    ensures var s' := Do(s, a);
      s' == s || (s' == s.(kernel := s'.kernel, log := s'.log) && |s'.log| == |s.log| + 1
                  && var e := s'.log[|s.log|];
                     s'.log == s.log + [e] && !e.DidCommit? && !e.DidBegin? && Shape(s'.kernel, s.log[s.mark..] + [e]))
  {
    hide Proves, ValidFor, Validate, ValidateProposal, Evidence.Reconcile, Evidence.Normalize, Authorizes,
      BindsTransition;
  }

  lemma PrepareKeepsHistory(s: System, a: Action)
    requires Bound(s.kernel) && History(s)
    requires a.CallNormalize? || a.CallReconcile? || a.CallGovern? || a.CallReserve?
    ensures History(Do(s, a))
  {
    hide Bound, Shape, Backed;
    PrepareKeepsShape(s, a);
    hide Do;
    var s' := Do(s, a);
    if s' != s {
      AppendKeepsHistory(s, s', s'.log[|s.log|]);
    }
  }

  lemma EnterStartKeepsHistory(s: System, id: CallId)
    requires Bound(s.kernel) && Channels(s.kernel, s.now) && History(s) && Enabled(s, EnterStart(id))
    ensures History(Do(s, EnterStart(id)))
  {
    hide Validate, ValidateProposal, Evidence.Reconcile, BindsTransition, Proves;
    var s' := Do(s, EnterStart(id));
    if s' != s {
      assert s.log[|s.log| - 1] == s.log[s.mark..][4];
      AppendKeepsHistory(s, s', DidBegin(s.kernel.authority.value.executionId, s.now));
    }
  }

  lemma LeaveStartKeepsHistory(s: System, id: CallId, result: ExecutionResult)
    requires Channels(s.kernel, s.now) && Calls(s) && History(s) && Enabled(s, LeaveStart(id, result))
    ensures History(Do(s, LeaveStart(id, result)))
  {
    hide Proves, CommitBacked, BeginBacked, Backed;
    assert CallFits(s.kernel, s.calls[id], s.now);
    AppendKeepsHistory(s, Do(s, LeaveStart(id, result)), DidComplete(result.success, s.now));
  }

  lemma RejectKeepsHistory(s: System, id: CallId)
    requires Calls(s) && History(s) && Enabled(s, RejectVerify(id))
    ensures History(Do(s, RejectVerify(id)))
  {
    hide Proves, ValidFor, CommitBacked, BeginBacked, Backed;
    assert CallFits(s.kernel, s.calls[id], s.now) && Holds(s, id);
    AppendKeepsHistory(s, Do(s, RejectVerify(id)), DidReject);
  }

  lemma AcceptKeepsHistory(s: System, id: CallId)
    requires Calls(s) && History(s) && Enabled(s, AcceptVerify(id))
    ensures History(Do(s, AcceptVerify(id)))
  {
    hide Proves, ValidFor, CommitBacked, BeginBacked, Backed, Shape;
    assert CallFits(s.kernel, s.calls[id], s.now) && Holds(s, id);
    AcceptKeepsShape(s.kernel, s.log[s.mark..], s.calls[id].evidence, s.now);
    AppendKeepsHistory(s, Do(s, AcceptVerify(id)), DidVerify(s.calls[id].evidence, s.now));
  }

  lemma AcceptKeepsShape(k: Kernel, e: seq<Event>, evidence: Observation, now: Time)
    requires Shape(k, e) && k.phase == Started && Completed(k) && k.transition.Some? && k.observation.Some?
    requires Proves(evidence, k.transition.value, k.observation.value, k.completedAt, now)
    ensures Shape(k.(verificationActive := false, phase := Verified), e + [DidVerify(evidence, now)])
  {
    hide Proves, ValidFor;
  }

  /** In VERIFIED the last eight events are a complete, successful attempt. */
  lemma VerifiedIsBacked(s: System)
    requires Bound(s.kernel) && History(s) && s.kernel.phase == Verified
    ensures var t := s.kernel.transition.value;
            CommitBacked(s.log + [DidCommit(t.before, t.after)], |s.log|)
  {
    hide Proves, Authorizes, Validate, ValidateProposal, Backed;
    var t := s.kernel.transition.value;
    var log, e := s.log + [DidCommit(t.before, t.after)], s.log[s.mark..];
    assert forall i | 0 <= i < 8 :: log[|s.log| - 8 + i] == e[i];
  }

  lemma CommitKeepsShape(k: Kernel, root: string, before: string, after: string, e: seq<Event>)
    requires Shape(k, e) && k.phase == Verified
    ensures Shape(k.(root := root, phase := Committed), e + [DidCommit(before, after)])
    ensures Shape(k.(phase := Recovery), e + [DidConflict])
  {
    hide Proves, ValidFor;
  }

  lemma CommitKeepsHistory(s: System)
    requires Bound(s.kernel) && History(s)
    ensures History(Do(s, CallCommit))
  {
    var k, s' := s.kernel, Do(s, CallCommit);
    if k.phase == Verified {
      var t := k.transition.value;
      assert if k.root == t.before
             then
               && s'.kernel == k.(root := t.after, phase := Committed)
               && s'.log == s.log + [DidCommit(t.before, t.after)]
             else s'.kernel == k.(phase := Recovery) && s'.log == s.log + [DidConflict];
      assert s'.mark == s.mark && s'.now == s.now;
      VerifiedIsBacked(s);
      hide Do, Bound, Shape, CommitBacked, BeginBacked, Backed;
      CommitKeepsShape(k, t.after, t.before, t.after, s.log[s.mark..]);
      AppendKeepsHistory(s, s', s'.log[|s.log|]);
    } else {
      assert s' == s;
    }
  }

  /** Neither the root nor the verification reservation is part of an attempt's events. */
  lemma ShapeIgnores(k: Kernel, root: string, active: bool, e: seq<Event>)
    requires Shape(k, e)
    ensures Shape(k.(root := root, verificationActive := active), e)
  {
  }

  lemma StepKeepsHistory(s: System, a: Action)
    requires Inv(s) && Enabled(s, a)
    ensures History(Do(s, a))
  {
    hide Bound, Shape, Proves, Backed;
    match a
    case CallObserve(o) => RestartKeepsHistory(s, o, false);
    case CallRecover(o) => RestartKeepsHistory(s, o, true);
    case EnterStart(id) => EnterStartKeepsHistory(s, id);
    case LeaveStart(id, result) => LeaveStartKeepsHistory(s, id, result);
    case RejectVerify(id) => RejectKeepsHistory(s, id);
    case AcceptVerify(id) => AcceptKeepsHistory(s, id);
    case CallCommit => CommitKeepsHistory(s);
    case CallNormalize(_) => PrepareKeepsHistory(s, a);
    case CallReconcile => PrepareKeepsHistory(s, a);
    case CallGovern(_) => PrepareKeepsHistory(s, a);
    case CallReserve(_) => PrepareKeepsHistory(s, a);
    case _ => SilentKeepsHistory(s, a);
  }

  /** Steps that are no event of the attempt. */
  lemma SilentKeepsHistory(s: System, a: Action)
    requires History(s) && Enabled(s, a)
    requires a.Tick? || a.OutsideCas? || a.ReadBefore? || a.EnterVerify? || a.CancelVerify? || a.AdmitVerify?
             || a.AnswerVerify?
    ensures History(Do(s, a))
  {
    hide Shape, Proves, Backed;
    var k := Do(s, a).kernel;
    ShapeIgnores(s.kernel, k.root, k.verificationActive, s.log[s.mark..]);
  }

  lemma StepKeepsInv(s: System, a: Action)
    requires Inv(s) && Enabled(s, a)
    ensures Inv(Do(s, a))
  {
    StepKeepsKernel(s, a);
    StepKeepsCalls(s, a);
    StepKeepsHistory(s, a);
  }
}
