/** The MCP server's control call on a runtime that the server owns. */
module McpServer {
  import opened Results
  import opened Evidence
  import opened KernelSteps
  import opened Interleaving
  import opened Cooperation
  import opened RuntimeClass
  import opened Adapters
  import opened ControlSteps
  import opened ControlSuccess
  import opened LifecycleCalls

  const MILLISECOND: int := 1_000_000
  const MAX_DURATION: int := 0x7FFF_FFFF_FFFF_FFFF
  const MAX_TTL_MS: int := MAX_DURATION / MILLISECOND

  datatype ControlRequest = ControlRequest(subject: string, desired: string, ttlMs: int)

  datatype ControlError =
    | NotAdmitted      // the context ended at or before the lifecycle gate
    | BadTtl
    | WrongSubject
    | ObserveFailed    // refused at the provider gate, timed out, failed, or invalid
    | ContextEnded
    | Failed(failure: Failure)

  /** providerObserver.Observe: the provider must name the subject it was asked for. */
  function SeenByProvider(subject: string, answer: Option<Sighting>): (r: Option<Observation>)
    ensures r.Some? ==> Valid(r.value) && r.value.subject == subject
                        && answer.Some? && BeforeObservation(r.value) == answer.value
    ensures r.None? ==> forall o: Observation | Valid(o) && o.subject == subject :: answer != Some(BeforeObservation(o))
  {
    match answer
    case None => None
    case Some(s) =>
      if s.resource.id != subject || s.resource.fingerprint == "" then None
      else match ToKernel(s)
        case Ok(o) => Some(o)
        case Err(_) => None
  }

  /** What the outside contributes before the attempt: `answer` is a provider's, `direct` an observer's. */
  datatype Visit = Visit(
    admitted: bool, endedBefore: bool, answer: Option<Sighting>, direct: Option<Observation>, endedAfter: bool,
    at: Time)

  function Seen(provided: bool, subject: string, v: Visit): Option<Observation> {
    if provided then SeenByProvider(subject, v.answer) else v.direct
  }

  /** The call gets as far as an attempt. */
  predicate Enters(k: Kernel, token: bool, provided: bool, req: ControlRequest, v: Visit) {
    && v.admitted && token && !v.endedBefore && 0 <= req.ttlMs <= MAX_TTL_MS
    && Seen(provided, req.subject, v).Some? && !v.endedAfter
    && EnterSteps(k, Seen(provided, req.subject, v).value, v.at).1.None?
  }

  function WishOf(provided: bool, req: ControlRequest): Wish {
    Wish(ResourceRef(req.subject, req.desired),
         if provided
         then Provider(ExecuteRequest(EMPTY, ResourceRef(req.subject, ""), ResourceRef("", ""), None, req.desired))
         else Direct)
  }

  /** What a server is made of; a provider stands for all the others. */
  datatype Parts = Parts(provider: bool, executor: bool, verifier: bool, observer: bool, recoveryObserver: bool)

  lemma ObserveAgain(k: Kernel, o: Observation)
    requires Valid(o)
    ensures ObserveStep(ResetTo(k, o), o) == (ResetTo(k, o), None)
  {
    hide Validate;
  }

  lemma EnteredIsValid(k: Kernel, o: Observation, now: Time)
    ensures EnterSteps(k, o, now).1.None? ==> ObserveStep(ResetTo(k, o), o) == (ResetTo(k, o), None)
  {
    hide ObservationFingerprint;
    if EnterSteps(k, o, now).1.None? {
      ObserveAgain(k, o);
    }
  }

  class Server {
    const runtime: Runtime
    const clock: Clock
    const provided: bool   // made with a control provider, not with executor, verifier and observers

    /** Nobody else uses the runtime, and no attempt is stranded between its steps. */
    ghost predicate Settled()
      reads this, runtime, runtime.store, clock
    {
      && KernelInv(runtime.Snapshot(), clock.now) && Quiescent(runtime.Snapshot())
      && runtime.lifecycleToken && runtime.phase != Started && runtime.phase != Verified
    }

    /** NewServer and NewServerWithProvider: a provider, or each of the four parts. */
    static method New(parts: Parts, root: string, policy: Option<Policy>, now: Time) returns (r: Option<Server>)
      requires ZERO_TIME < now
      ensures r.Some? <==>
                parts.provider || (parts.executor && parts.verifier && parts.observer && parts.recoveryObserver)
      ensures r.Some? ==> fresh(r.value) && r.value.provided == parts.provider && r.value.Settled()
    {
      if !parts.provider && (!parts.executor || !parts.verifier || !parts.observer || !parts.recoveryObserver) {
        return None;
      }
      var server := new Server(root, policy, now, parts.provider);
      r := Some(server);
    }

    constructor (root: string, policy: Option<Policy>, now: Time, provided: bool)
      requires ZERO_TIME < now
      ensures this.provided == provided
      ensures Settled() && runtime.store.root == root && fresh(runtime) && fresh(runtime.store) && fresh(clock)
    {
      this.provided := provided;
      runtime := new Runtime(root, policy);
      clock := new Clock(now);
    }

    /** An observation of the subject through the provider gate; the context is looked at after it. */
    method Look(subject: string, ghost v: Visit) returns (r: Result<Observation, ControlError>, ghost v': Visit)
      ensures v' == v.(answer := v'.answer, direct := v'.direct, endedAfter := v'.endedAfter)
      ensures r.Ok? <==> Seen(provided, subject, v').Some? && !v'.endedAfter
      ensures r.Ok? ==> Seen(provided, subject, v') == Some(r.value)
      ensures r.Err? ==> r.error == ObserveFailed || r.error == ContextEnded
    {
      var ended: bool := *;
      var seen: Option<Observation>;
      if provided {
        var answer: Option<Sighting> := *;
        seen := SeenByProvider(subject, answer);
        v' := v.(answer := answer, endedAfter := ended);
      } else {
        seen := *;
        v' := v.(direct := seen, endedAfter := ended);
      }
      if seen.None? {
        return Err(ObserveFailed), v';
      }
      r := if ended then Err(ContextEnded) else Ok(seen.value);
    }

    /** A failed attempt is recovered and then observed again; any other phase is observed. */
    method Accept(o: Observation) returns (refused: Option<Error>)
      requires KernelInv(runtime.Snapshot(), clock.now) && Quiescent(runtime.Snapshot())
      modifies runtime, clock
      ensures KernelInv(runtime.Snapshot(), clock.now) && old(clock.now) <= clock.now
      ensures runtime.lifecycleToken == old(runtime.lifecycleToken)
      ensures refused == EnterSteps(old(runtime.Snapshot()), o, clock.now).1
      ensures runtime.Snapshot() ==
                if refused.Some? then old(runtime.Snapshot()) else ResetTo(old(runtime.Snapshot()), o)
      ensures old(runtime.phase) == Started || old(runtime.phase) == Verified ==> refused.Some?
    {
      ghost var before, from := runtime.Snapshot(), clock.now;
      hide Bound, Channels, Validate;
      var now := clock.Read();
      EnvironmentKeeps(before, before.root, from, now);
      EnterOutcome(before, o, now);
      EnteredIsValid(before, o, now);
      hide ObserveStep, RecoverStep, KernelInv;
      if runtime.phase == Recovery {
        refused := runtime.Recover(o, now);
        if refused.Some? {
          return;
        }
      }
      refused := runtime.Observe(o);
    }

    /** From the provider's observation of the subject to OBSERVED. */
    method Enter(subject: string, ghost v: Visit) returns (err: Option<ControlError>, ghost v': Visit)
      requires KernelInv(runtime.Snapshot(), clock.now) && Quiescent(runtime.Snapshot())
      modifies runtime, clock
      ensures KernelInv(runtime.Snapshot(), clock.now) && old(clock.now) <= clock.now
      ensures runtime.lifecycleToken == old(runtime.lifecycleToken)
      ensures v' == v.(answer := v'.answer, direct := v'.direct, endedAfter := v'.endedAfter, at := v'.at)
      ensures err.None? <==> Seen(provided, subject, v').Some? && !v'.endedAfter
                             && EnterSteps(old(runtime.Snapshot()), Seen(provided, subject, v').value, v'.at).1.None?
      ensures err.Some? ==> runtime.Snapshot() == old(runtime.Snapshot()) && !err.value.NotAdmitted?
      ensures err.None? ==> runtime.phase == Observed && runtime.observation == Seen(provided, subject, v')
                            && runtime.Snapshot() == ResetTo(old(runtime.Snapshot()), runtime.observation.value)
      ensures old(runtime.phase) == Started || old(runtime.phase) == Verified ==> err.Some?
    {
      hide KernelInv, EnterSteps, SeenByProvider;
      if runtime.phase == Recovery {
        var expected := runtime.RecoverySubject();
        if expected != Some(subject) {
          return Some(WrongSubject), v.(answer := None, direct := None);
        }
      }
      var look;
      look, v' := Look(subject, v);
      if look.Err? {
        return Some(look.error), v';
      }
      var refused := Accept(look.value);
      v' := v'.(at := clock.now);
      err := if refused.Some? then Some(Failed(Rejected(refused.value))) else None;
    }

    /** One control call. What it does is determined by the visit and the script: a call that gets as
        far as an attempt runs `DriveSteps`, any other changes nothing. The verification wait
        cannot be cancelled, so the call ends in STARTED or VERIFIED only if it found the
        runtime there; the lifecycle token is always given back; only a delivered change moves
        the root. */
    method Control(req: ControlRequest) returns (r: Option<ControlError>, ghost script: Script, ghost v: Visit)
      requires KernelInv(runtime.Snapshot(), clock.now) && Quiescent(runtime.Snapshot())
      modifies runtime, runtime.store, clock
      ensures KernelInv(runtime.Snapshot(), clock.now) && Quiescent(runtime.Snapshot())
      ensures runtime.lifecycleToken == old(runtime.lifecycleToken)
      ensures r.None? <==>
                && Enters(old(runtime.Snapshot()), old(runtime.lifecycleToken), provided, req, v)
                && Succeeds(ResetTo(old(runtime.Snapshot()), script.seen), WishOf(provided, req), runtime.policy,
                            req.ttlMs * MILLISECOND, script)
      ensures Ran(old(runtime.Snapshot()), old(runtime.lifecycleToken), provided, req, v, script, runtime.policy,
                  runtime.Snapshot(), r)
      ensures r.None? ==>
                Delivered(old(runtime.Snapshot()), runtime.Snapshot(), WishOf(provided, req), script, clock.now)
      ensures r.Some? ==> runtime.store.root == old(runtime.store.root)
      ensures runtime.phase == Started <==> old(runtime.phase) == Started
      ensures runtime.phase == Verified <==> old(runtime.phase) == Verified
      ensures old(Settled()) ==> Settled()
    {
      script := *;
      v := Visit(false, false, None, None, false, 0);
      var admitted: bool := *;
      if !admitted || !runtime.lifecycleToken {
        return Some(NotAdmitted), script, v;
      }
      hide Enters, DriveSteps, Delivered, Succeeds;
      runtime.lifecycleToken := false;
      r, script, v := HoldingToken(req);
      runtime.lifecycleToken := true;
    }

    /** Between the lifecycle token's acquisition and its deferred release. */
    method HoldingToken(req: ControlRequest) returns (r: Option<ControlError>, ghost script: Script, ghost v: Visit)
      requires KernelInv(runtime.Snapshot(), clock.now) && Quiescent(runtime.Snapshot())
      modifies runtime, runtime.store, clock
      ensures KernelInv(runtime.Snapshot(), clock.now) && Quiescent(runtime.Snapshot())
      ensures runtime.lifecycleToken == old(runtime.lifecycleToken)
      ensures r.None? <==>
                && Enters(old(runtime.Snapshot()), true, provided, req, v)
                && Succeeds(ResetTo(old(runtime.Snapshot()), script.seen), WishOf(provided, req), runtime.policy,
                            req.ttlMs * MILLISECOND, script)
      ensures Ran(old(runtime.Snapshot()), true, provided, req, v, script, runtime.policy, runtime.Snapshot(), r)
      ensures r.None? ==>
                Delivered(old(runtime.Snapshot()), runtime.Snapshot(), WishOf(provided, req), script, clock.now)
      ensures r.Some? ==> runtime.store.root == old(runtime.store.root)
      ensures runtime.phase == Started <==> old(runtime.phase) == Started
      ensures runtime.phase == Verified <==> old(runtime.phase) == Verified
    {
      script := *;
      var ended: bool := *;
      v := Visit(true, ended, None, None, false, 0);
      if ended {
        return Some(ContextEnded), script, v;
      }
      if req.ttlMs < 0 || req.ttlMs > MAX_TTL_MS {
        return Some(BadTtl), script, v;
      }
      assert 0 <= req.ttlMs * MILLISECOND <= MAX_DURATION;  // no wrap-around
      hide KernelInv, SeenByProvider, EnterSteps, DriveSteps, Delivered, Succeeds;
      r, v := Enter(req.subject, v);
      if r.Some? {
        return;
      }
      ghost var k := runtime.Snapshot();
      var failure;
      failure, script := Attempt(req);
      DeliveredFromRoot(old(runtime.Snapshot()), k, runtime.Snapshot(), WishOf(provided, req), script, clock.now);
      r := if failure.Some? then Some(Failed(failure.value)) else None;
    }

    /** The attempt on an accepted observation. */
    method Attempt(req: ControlRequest) returns (failure: Option<Failure>, ghost script: Script)
      requires KernelInv(runtime.Snapshot(), clock.now) && runtime.phase == Observed
      modifies runtime, runtime.store, clock
      ensures KernelInv(runtime.Snapshot(), clock.now) && Quiescent(runtime.Snapshot())
      ensures runtime.lifecycleToken == old(runtime.lifecycleToken)
      ensures Some(script.seen) == old(runtime.observation)
      ensures (runtime.Snapshot(), failure) ==
              DriveSteps(old(runtime.Snapshot()), WishOf(provided, req), runtime.policy, req.ttlMs * MILLISECOND,
                         script)
      ensures failure.None? ==>
                Delivered(old(runtime.Snapshot()), runtime.Snapshot(), WishOf(provided, req), script, clock.now)
      ensures failure.Some? ==> runtime.store.root == old(runtime.store.root)
      ensures runtime.phase != Started && runtime.phase != Verified
      ensures failure.None? <==>
                Succeeds(old(runtime.Snapshot()), WishOf(provided, req), runtime.policy, req.ttlMs * MILLISECOND,
                         script)
    {
      hide KernelInv, DriveSteps, Delivered, Stranded, Succeeds;
      ghost var k, from := runtime.Snapshot(), clock.now;
      var w := WishOf(provided, req);
      failure, script := Drive(runtime, clock, w, req.ttlMs * MILLISECOND, true, false);
      EnvironmentKeeps(k, k.root, from, script.reserveAt);
      assert k.(root := k.root) == k;
      DriveOutcome(k, w, runtime.policy, req.ttlMs * MILLISECOND, script, clock.now);
      DriveSucceedsExactly(k, w, runtime.policy, req.ttlMs * MILLISECOND, script);
    }
  }

  /** How a call's visit and script determine the runtime's new fields and the answer. */
  ghost predicate Ran(k: Kernel, token: bool, provided: bool, req: ControlRequest, v: Visit, x: Script, policy: Policy,
                      k': Kernel, r: Option<ControlError>)
  {
    if Enters(k, token, provided, req, v) then
      && Seen(provided, req.subject, v) == Some(x.seen)
      && var (end, failure) := DriveSteps(ResetTo(k, x.seen), WishOf(provided, req), policy, req.ttlMs * MILLISECOND,
                                          x);
         k' == end && r == if failure.None? then None else Some(Failed(failure.value))
    else
      r.Some? && k' == k
  }
}
