/** Host.Control: routing, the caller's precondition, and one controlled change. */
module HostControl {
  import opened Results
  import opened Evidence
  import opened KernelSteps
  import opened Interleaving
  import opened Cooperation
  import opened StateMachines
  import opened WholeRuns
  import opened RuntimeClass
  import opened Adapters
  import opened ControlSteps
  import opened ControlSuccess
  import opened LifecycleCalls

  datatype ControlError =
    | BadRequest
    | UnknownProvider
    | NotAdmitted      // the context ended before the lifecycle token came
    | ObserveFailed
    | StaleObservation
    | WrongSubject
    | Failed(failure: Failure)

  datatype ControlRequest = ControlRequest(
    target: ResourceRef, desired: ResourceRef, payload: string, ttl: int, expected: Option<Sighting>)

  /** The caller's earlier observation, if given, must match in everything but its time. */
  predicate MatchesExpected(expected: Option<Sighting>, seen: Sighting) {
    expected.None? || (expected.value.resource.fingerprint != "" && expected.value.resource == seen.resource
                       && expected.value.version == seen.version && expected.value.token == seen.token)
  }

  /** Errors before the lifecycle token is taken. */
  predicate Outside(e: ControlError) {
    e == BadRequest || e == UnknownProvider || e == NotAdmitted
  }

  /** What the outside contributes before the attempt: the token came in time, the
      provider's observation, the clock when the kernel looks at it. */
  datatype Visit = Visit(admitted: bool, answer: Option<Sighting>, at: Time)

  predicate WellPut(req: ControlRequest) {
    ValidRef(req.target) && ValidRef(req.desired) && req.target.id == req.desired.id
  }

  /** The observation is of the target, is the one the caller expected, and the kernel can take it. */
  predicate Acceptable(req: ControlRequest, seen: Sighting) {
    seen.resource.id == req.target.id && seen.resource.fingerprint != "" && MatchesExpected(req.expected, seen)
    && ToKernel(seen).Ok?
  }

  /** The call gets as far as an attempt. */
  predicate Enters(k: Kernel, token: bool, known: bool, req: ControlRequest, v: Visit) {
    && WellPut(req) && known && v.admitted && token && v.answer.Some? && Acceptable(req, v.answer.value)
    && EnterSteps(k, ToKernel(v.answer.value).value, v.at).1.None?
  }

  function WishOf(req: ControlRequest): Wish {
    Wish(req.desired, Provider(ExecuteRequest(EMPTY, req.target, req.desired, None, req.payload)))
  }

  /** A provider's identity; None in its place is the nil provider. */
  type Endpoint = nat

  class Host {
    const runtime: Runtime
    const clock: Clock
    var providers: set<string>

    constructor (runtime: Runtime, clock: Clock)
      ensures this.runtime == runtime && this.clock == clock && providers == {}
    {
      this.runtime := runtime;
      this.clock := clock;
      providers := {};
    }

    /** A name is registered once, for a provider that is there. */
    method Register(name: string, provider: Option<Endpoint>) returns (ok: bool)
      modifies this
      ensures ok <==> name != "" && provider.Some? && name !in old(providers)
      ensures providers == if ok then old(providers) + {name} else old(providers)
    {
      if name == "" || provider.None? || name in providers {
        return false;
      }
      providers := providers + {name};
      ok := true;
    }

    /** Admission and the provider's fresh observation; the kernel is not touched yet. */
    method Look(name: string, req: ControlRequest) returns (r: Result<Observation, ControlError>, ghost v: Visit)
      modifies runtime`lifecycleToken
      ensures runtime.lifecycleToken <==> old(runtime.lifecycleToken) && r.Err? && Outside(r.error)
      ensures r.Ok? <==> WellPut(req) && name in providers && v.admitted && old(runtime.lifecycleToken)
                         && v.answer.Some? && Acceptable(req, v.answer.value)
      ensures r.Ok? ==> Ok(r.value) == ToKernel(v.answer.value)
      ensures r.Err? ==> !r.error.Failed?
    {
      v := Visit(false, None, 0);
      if !WellPut(req) {
        return Err(BadRequest), v;
      }
      if name !in providers {
        return Err(UnknownProvider), v;
      }
      var admitted: bool := *;
      if !admitted || !runtime.lifecycleToken {
        return Err(NotAdmitted), v;
      }
      runtime.lifecycleToken := false;
      var answer: Option<Sighting> := *;
      v := Visit(true, answer, 0);
      match answer
      case None => return Err(ObserveFailed), v;
      case Some(seen) =>
        if seen.resource.id != req.target.id || seen.resource.fingerprint == "" {
          return Err(ObserveFailed), v;
        }
        if !MatchesExpected(req.expected, seen) {
          return Err(StaleObservation), v;
        }
        var o := ToKernel(seen);
        r := if o.Err? then Err(ObserveFailed) else Ok(o.value);
    }

    /** Recover from RECOVERY, observe from any other phase. */
    method Enter(o: Observation) returns (err: Option<ControlError>)
      requires KernelInv(runtime.Snapshot(), clock.now) && Quiescent(runtime.Snapshot())
      modifies runtime, clock
      ensures KernelInv(runtime.Snapshot(), clock.now) && old(clock.now) <= clock.now
      ensures runtime.lifecycleToken == old(runtime.lifecycleToken)
      ensures err.None? <==> EnterSteps(old(runtime.Snapshot()), o, clock.now).1.None?
      ensures runtime.Snapshot() == if err.Some? then old(runtime.Snapshot()) else ResetTo(old(runtime.Snapshot()), o)
      ensures old(runtime.phase) == Started || old(runtime.phase) == Verified ==> err.Some?
      ensures err.Some? ==> err.value == WrongSubject || (err.value.Failed? && err.value != Failed(VerifyCancelled))
    {
      ghost var before, from := runtime.Snapshot(), clock.now;
      var now := clock.Read();
      EnvironmentKeeps(before, before.root, from, now);
      EnterOutcome(before, o, now);
      hide Bound, Channels, ObserveStep, Validate;
      var refused: Option<Error>;
      if runtime.phase == Recovery {
        var subject := runtime.RecoverySubject();
        if subject != Some(o.subject) {
          return Some(WrongSubject);
        }
        hide RecoverStep;
        refused := runtime.Recover(o, now);
      } else {
        refused := runtime.Observe(o);
      }
      err := if refused.Some? then Some(Failed(Rejected(refused.value))) else None;
    }

    /** One controlled change. What it does is determined by the visit and the script: a call that
        gets as far as an attempt runs `DriveSteps`, any other call changes nothing. Success
        means that the root went from the observed state to the desired one on fresh,
        execution-bound evidence, and that the observation was the one the caller
        expected. Failure leaves the root alone. A call never moves the runtime to VERIFIED for
        good. It leaves it in STARTED exactly when the attempt is stranded: authorised, begun, executed
        with success, and its wait for the executor cancelled by the deadline. */
    method Control(name: string, req: ControlRequest) returns (r: Option<ControlError>, ghost script: Script,
                                                               ghost v: Visit)
      requires KernelInv(runtime.Snapshot(), clock.now) && Quiescent(runtime.Snapshot())
      modifies runtime, runtime.store, clock
      ensures KernelInv(runtime.Snapshot(), clock.now) && Quiescent(runtime.Snapshot())
      ensures runtime.lifecycleToken <==> old(runtime.lifecycleToken) && r.Some? && Outside(r.value)
      ensures
        if Enters(old(runtime.Snapshot()), old(runtime.lifecycleToken), name in old(providers), req, v) then
          && ToKernel(v.answer.value) == Ok(script.seen)
          && (runtime.Snapshot(), r) ==
             var (k, failure) := DriveSteps(ResetTo(old(runtime.Snapshot()), script.seen), WishOf(req), runtime.policy,
                                            req.ttl, script);
             (k, if failure.None? then None else Some(Failed(failure.value)))
        else
          r.Some? && runtime.Snapshot() == old(runtime.Snapshot())
      ensures r.None? ==> Delivered(old(runtime.Snapshot()), runtime.Snapshot(), WishOf(req), script, clock.now)
      ensures r.None? ==> MatchesExpected(req.expected, v.answer.value)
      ensures r.None? <==>
                && Enters(old(runtime.Snapshot()), old(runtime.lifecycleToken), name in old(providers), req, v)
                && Succeeds(ResetTo(old(runtime.Snapshot()), script.seen), WishOf(req), runtime.policy, req.ttl, script)
      ensures r.Some? ==> runtime.store.root == old(runtime.store.root)
      ensures runtime.phase == Started <==>
                || old(runtime.phase) == Started
                || (Enters(old(runtime.Snapshot()), old(runtime.lifecycleToken), name in old(providers), req, v)
                    && Stranded(ResetTo(old(runtime.Snapshot()), script.seen), WishOf(req), runtime.policy, req.ttl,
                                script))
      ensures r == Some(Failed(VerifyCancelled)) <==> runtime.phase == Started && old(runtime.phase) != Started
      ensures runtime.phase == Verified <==> old(runtime.phase) == Verified
    {
      hide Bound, Channels, Validate, NewObservation, Proves, WellPut, EnterSteps, DriveSteps, Stranded;
      script := *;
      var look;
      look, v := Look(name, req);
      if look.Err? {
        return Some(look.error), script, v;
      }
      var o := look.value;
      assert MatchesExpected(req.expected, v.answer.value);
      hide Acceptable, MatchesExpected;
      r := Enter(o);
      v := v.(at := clock.now);
      if r.Some? {
        return;
      }
      ghost var k, from := runtime.Snapshot(), clock.now;
      var w := WishOf(req);
      var failure;
      failure, script := Drive(runtime, clock, w, req.ttl, false, true);
      EnvironmentKeeps(k, k.root, from, script.reserveAt);
      DriveOutcome(k, w, runtime.policy, req.ttl, script, clock.now);
      DriveSucceedsExactly(k, w, runtime.policy, req.ttl, script);
      hide KernelInv, Succeeds;
      r := if failure.Some? then Some(Failed(failure.value)) else None;
    }
  }

  // ---- A call that leaves the runtime in STARTED ----

  const SEEN: Observation :=
    Observation("file", "old", 0, "", 1, OfObservation("file", "old", 0, "", 1))

  const REQUEST: ControlRequest :=
    ControlRequest(ResourceRef("file", "old"), ResourceRef("file", "new"), "payload", 0, None)

  const TRANSITION: Digest :=
    OfTransition("file", "old", "new", SEEN.fingerprint, OfProposal("file", "new"), Decision.Execute)

  /** The executor reports success under the right execution ID, and the deadline ends the wait. */
  const UNLUCKY: Script :=
    Script(SEEN, false, 1, 1, 1, 1, false, Ok(Execution(OfExecution(TRANSITION, 1), "")), NO_RESULT, true, false,
           Err(""), None)

  lemma UnluckyRun()
    ensures Stranded(ResetTo(Initial("old"), SEEN), WishOf(REQUEST), AllowPolicy, 0, UNLUCKY)
  {
    UnluckyProposal();
    UnluckyReservation();
    hide NormalizeStep, ReconcileStep, GovernStep, Reconcile, Validate;
  }

  /** The attempt of `UNLUCKY` after Normalize. */
  function Proposed(): Kernel {
    var k := ResetTo(Initial("old"), SEEN);
    k.(proposal := Some(NormalizedProposal("file", "new", OfProposal("file", "new"))), phase := Normalized)
  }

  /** The attempt of `UNLUCKY` after Govern. */
  function Allowed(): Kernel {
    var t := Transition(TRANSITION, "file", Decision.Execute, "old", "new", SEEN.fingerprint,
                        OfProposal("file", "new"), TRANSITION);
    Proposed().(transition := Some(t), decision := Some(AllowPolicy(t)), phase := Authorized)
  }

  lemma UnluckyProposal()
    ensures NormalizeStep(ResetTo(Initial("old"), SEEN), Proposal("file", "new")).0 == Proposed()
    ensures NormalizeStep(ResetTo(Initial("old"), SEEN), Proposal("file", "new")).1.Ok?
  {
  }

  lemma UnluckyReservation()
    ensures ReconcileStep(Proposed()).1.Ok?
    ensures GovernStep(ReconcileStep(Proposed()).0, AllowPolicy) == (Allowed(), Ok(Allowed().decision.value))
  {
    assert Valid(SEEN);
  }

  lemma ObservedIsReached()
    ensures exists s :: Reachable(s) && s.calls == map[] && s.now == 1 && s.kernel == ResetTo(Initial("old"), SEEN)
    ensures KernelInv(ResetTo(Initial("old"), SEEN), 1)
  {
    var boot, s := Boot("old", 1), Do(Boot("old", 1), CallObserve(SEEN));
    assert Valid(SEEN) && s.kernel == ResetTo(Initial("old"), SEEN) && s.calls == map[] && s.now == 1;
    assert Enabled(boot, CallObserve(SEEN));
    hide Do, Enabled, Inv, KernelInv, Boot;
    ReachesItself(Steps(), boot);
    ReachesOnward(Steps(), boot, boot, CallObserve(SEEN));
    assert Reachable(s);
    ReachableInv(s);
    InvIsKernelInv(s);
  }

  lemma FreshCallEnters()
    ensures Enters(Initial("old"), true, true, REQUEST, Visit(true, Some(Sighting(REQUEST.target, 0, "", 1)), 1))
    ensures ToKernel(Sighting(REQUEST.target, 0, "", 1)) == Ok(SEEN)
  {
    assert Valid(SEEN);
  }

  /** On a fresh runtime, whose next state is one that interleavings reach, a call gets as far as an
      attempt, strands it, and so ends in STARTED. */
  lemma StrandingHappens()
    ensures var k, v := Initial("old"), Visit(true, Some(Sighting(REQUEST.target, 0, "", 1)), 1);
      && Enters(k, true, true, REQUEST, v) && ToKernel(v.answer.value) == Ok(SEEN)
      && DriveSteps(ResetTo(k, SEEN), WishOf(REQUEST), AllowPolicy, REQUEST.ttl, UNLUCKY).0.phase == Started
    ensures exists s :: Reachable(s) && s.calls == map[] && s.now == 1 && s.kernel == ResetTo(Initial("old"), SEEN)
  {
    hide Stranded, DriveSteps, Reachable, KernelInv, Enters, ToKernel;
    FreshCallEnters();
    ObservedIsReached();
    UnluckyRun();
    DriveOutcome(ResetTo(Initial("old"), SEEN), WishOf(REQUEST), AllowPolicy, 0, UNLUCKY, 1);
  }
}
