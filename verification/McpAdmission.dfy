/**
 Callbacks under the MCP server's one-slot provider gate. Control calls are one at a
 time (the lifecycle token), but a control call returns when its callback times out,
 while the callback's goroutine still runs and still holds the gate.
 */
module McpAdmission {
  import opened StateMachines

  type ControlId = nat
  type CallbackId = nat

  datatype Kind = Observation | RecoveryObservation | Execution | Verification

  /** The goroutine of a callback, by the last thing it has done. */
  datatype Stage =
    | Running    // inside the provider
    | Returned   // the provider has returned
    | Sent       // the result is in the channel
    | Released   // the gate token is back

  datatype Callback = Callback(control: ControlId, kind: Kind, stage: Stage)

  datatype Point =
    | Holding                   // between two callbacks
    | Asking(kind: Kind)        // at the gate
    | Awaiting(cb: CallbackId)
    | Failed                    // refused at the gate, or timed out
    | Gone                      // returned; the lifecycle token is back

  datatype Event =
    | Began(cb: CallbackId, kind: Kind)
    | Ended(cb: CallbackId)

  datatype System = System(
    lifecycle: bool,
    gate: bool,
    controls: map<ControlId, Point>,
    callbacks: map<CallbackId, Callback>,
    log: seq<Event>)

  datatype Action =
    | Acquire(c: ControlId)
    | Ask(c: ControlId, kind: Kind)
    | Admit(c: ControlId, cb: CallbackId)
    | Refuse(c: ControlId)             // the bounded context ended at the gate
    | ProviderReturns(cb: CallbackId)
    | Send(cb: CallbackId)
    | Release(cb: CallbackId)
    | Deliver(c: ControlId)
    | Expire(c: ControlId)             // the bounded context ended during the callback
    | Return(c: ControlId)

  function Boot(): System {
    System(true, true, map[], map[], [])
  }

  predicate At(s: System, cb: CallbackId, stage: Stage) {
    cb in s.callbacks && s.callbacks[cb].stage == stage
  }

  predicate Enabled(s: System, a: Action) {
    match a
    case Acquire(c) => s.lifecycle && c !in s.controls
    case Ask(c, _) => c in s.controls && s.controls[c].Holding?
    case Admit(c, cb) => c in s.controls && s.controls[c].Asking? && s.gate && cb !in s.callbacks
    case Refuse(c) => c in s.controls && s.controls[c].Asking?
    case ProviderReturns(cb) => At(s, cb, Running)
    case Send(cb) => At(s, cb, Returned)
    case Release(cb) => At(s, cb, Sent)
    case Deliver(c) => c in s.controls && s.controls[c].Awaiting?
                       && (At(s, s.controls[c].cb, Sent) || At(s, s.controls[c].cb, Released))
    case Expire(c) => c in s.controls && s.controls[c].Awaiting?
    case Return(c) => c in s.controls && (s.controls[c].Holding? || s.controls[c].Failed?)
  }

  function Goto(s: System, c: ControlId, p: Point): System {
    s.(controls := s.controls[c := p])
  }

  function Advance(s: System, cb: CallbackId, stage: Stage): System
    requires cb in s.callbacks
  {
    s.(callbacks := s.callbacks[cb := s.callbacks[cb].(stage := stage)])
  }

  function Do(s: System, a: Action): System
    requires Enabled(s, a)
  {
    match a
    case Acquire(c) => Goto(s, c, Holding).(lifecycle := false)
    case Ask(c, kind) => Goto(s, c, Asking(kind))
    case Admit(c, cb) =>
      var kind := s.controls[c].kind;
      Goto(s, c, Awaiting(cb)).(gate := false, callbacks := s.callbacks[cb := Callback(c, kind, Running)],
                                log := s.log + [Began(cb, kind)])
    case Refuse(c) => Goto(s, c, Failed)
    case ProviderReturns(cb) => Advance(s, cb, Returned).(log := s.log + [Ended(cb)])
    case Send(cb) => Advance(s, cb, Sent)
    case Release(cb) => Advance(s, cb, Released).(gate := true)
    case Deliver(c) => Goto(s, c, Holding)
    case Expire(c) => Goto(s, c, Failed)
    case Return(c) => Goto(s, c, Gone).(lifecycle := true)
  }

  // ---- The inductive invariant ----

  predicate Live(s: System, c: ControlId) {
    c in s.controls && !s.controls[c].Gone?
  }

  predicate HasGate(s: System, cb: CallbackId) {
    cb in s.callbacks && !s.callbacks[cb].stage.Released?
  }

  ghost predicate LifecycleInv(s: System) {
    && (forall c, d | Live(s, c) && Live(s, d) :: c == d)
    && (s.lifecycle <==> !exists c :: Live(s, c))
  }

  ghost predicate GateInv(s: System) {
    && (forall cb, cb' | HasGate(s, cb) && HasGate(s, cb') :: cb == cb')
    && (s.gate <==> !exists cb :: HasGate(s, cb))
  }

  ghost predicate OwnInv(s: System) {
    forall c | c in s.controls && s.controls[c].Awaiting? ::
      s.controls[c].cb in s.callbacks && s.callbacks[s.controls[c].cb].control == c
  }

  /** The log is a sequence of begin-end pairs, the last of which may be open. */
  predicate Paired(log: seq<Event>, i: nat)
    requires i < |log|
  {
    if i % 2 == 0 then log[i].Began? else log[i] == Ended(log[i - 1].cb)
  }

  predicate Alternates(log: seq<Event>) {
    forall i | 0 <= i < |log| :: Paired(log, i)
  }

  ghost predicate LogInv(s: System) {
    && Alternates(s.log)
    && (forall i | 0 <= i < |s.log| && i % 2 == 0 :: s.log[i].cb in s.callbacks)
    && (|s.log| % 2 == 1 ==> At(s, s.log[|s.log| - 1].cb, Running))
    && (forall cb | At(s, cb, Running) :: |s.log| % 2 == 1 && s.log[|s.log| - 1].cb == cb)
    && (forall cb | cb in s.callbacks && !At(s, cb, Running) :: Ended(cb) in s.log)
  }

  ghost predicate Inv(s: System) {
    LifecycleInv(s) && GateInv(s) && OwnInv(s) && LogInv(s)
  }

  lemma BootInv()
    ensures Inv(Boot())
  {
  }

  lemma StepKeepsLifecycle(s: System, a: Action)
    requires LifecycleInv(s) && Enabled(s, a)
    ensures LifecycleInv(Do(s, a))
  {
    var s' := Do(s, a);
    assert forall c :: Live(s', c) <==> (Live(s, c) && a != Return(c)) || a == Acquire(c);
    assert s'.lifecycle == if a.Acquire? then false else s.lifecycle || a.Return?;
    match a
    case Acquire(c) => assert Live(s', c) && s.lifecycle;
    case Return(c) => assert Live(s, c) && !s.lifecycle;
    case _ =>
  }

  lemma StepKeepsGate(s: System, a: Action)
    requires GateInv(s) && Enabled(s, a)
    ensures GateInv(Do(s, a))
  {
    var s' := Do(s, a);
    assert forall cb :: HasGate(s', cb) <==> (HasGate(s, cb) && a != Release(cb)) || (a.Admit? && a.cb == cb);
    assert s'.gate == if a.Admit? then false else s.gate || a.Release?;
    match a
    case Admit(_, cb) => assert HasGate(s', cb) && s.gate;
    case Release(cb) => assert HasGate(s, cb) && !s.gate;
    case _ =>
  }

  lemma StepKeepsOwn(s: System, a: Action)
    requires OwnInv(s) && Enabled(s, a)
    ensures OwnInv(Do(s, a))
  {
  }

  lemma StepKeepsLog(s: System, a: Action)
    requires GateInv(s) && LogInv(s) && Enabled(s, a)
    ensures LogInv(Do(s, a))
  {
    var s' := Do(s, a);
    if a.Admit? || a.ProviderReturns? {
      EventKeepsLog(s, a);
    } else {
      assert s'.log == s.log && s'.callbacks.Keys == s.callbacks.Keys;
      assert forall cb :: At(s', cb, Running) <==> At(s, cb, Running);
    }
  }

  lemma EventKeepsLog(s: System, a: Action)
    requires GateInv(s) && LogInv(s) && Enabled(s, a) && (a.Admit? || a.ProviderReturns?)
    ensures LogInv(Do(s, a))
  {
    var s', n := Do(s, a), |s.log|;
    forall cb ensures At(s, cb, Running) ==> HasGate(s, cb) {
    }
    assert a.Admit? ==> n % 2 == 0;
    assert a.ProviderReturns? ==> n % 2 == 1 && s.log[n - 1].cb == a.cb;
    assert s'.log == s.log + [s'.log[n]] && s'.log[n].cb == a.cb && (s'.log[n].Began? <==> a.Admit?);
    assert s'.callbacks == s.callbacks[a.cb := s'.callbacks[a.cb]];
    assert s'.callbacks[a.cb].stage == (if a.Admit? then Running else Returned);
    hide Do, Enabled, GateInv, HasGate;
    forall i | 0 <= i < |s'.log| ensures Paired(s'.log, i) {
      assert i < n ==> Paired(s.log, i);
    }
    forall cb ensures At(s', cb, Running) <==> (a.Admit? && cb == a.cb) {
      assert cb != a.cb ==> (At(s', cb, Running) <==> At(s, cb, Running));
    }
    forall cb | cb in s'.callbacks && !At(s', cb, Running) ensures Ended(cb) in s'.log {
      assert s'.log[n] == Ended(a.cb) || cb != a.cb;
    }
  }

  lemma StepKeepsInv(s: System, a: Action)
    requires Inv(s) && Enabled(s, a)
    ensures Inv(Do(s, a))
  {
    StepKeepsLifecycle(s, a);
    StepKeepsGate(s, a);
    StepKeepsOwn(s, a);
    StepKeepsLog(s, a);
  }

  // ---- Theorems over every interleaving ----

  function Steps(): Machine<System, Action> {
    Machine((s, a) => Enabled(s, a), (s, a) => if Enabled(s, a) then Do(s, a) else s)
  }

  ghost predicate Reachable(s: System) {
    Reaches(Steps(), Boot(), s)
  }

  lemma ReachableInv(s: System)
    requires Reachable(s)
    ensures Inv(s)
  {
    hide Inv, Do, Enabled;
    BootInv();
    forall s, a | Inv(s) && Steps().enabled(s, a) ensures Inv(Steps().next(s, a)) {
      StepKeepsInv(s, a);
    }
    ReachedKeeps(Steps(), s => Inv(s), Boot(), s);
  }

  /** The gate token is never duplicated or lost: it is in the gate, or exactly one callback
      has it; and at most one control call is active. */
  lemma GateIsConserved(s: System)
    requires Reachable(s)
    ensures s.gate <==> !exists cb :: HasGate(s, cb)
    ensures forall cb, cb' | HasGate(s, cb) && HasGate(s, cb') :: cb == cb'
    ensures s.lifecycle <==> !exists c :: Live(s, c)
    ensures forall c, d | Live(s, c) && Live(s, d) :: c == d
  {
    ReachableInv(s);
  }

  /** Whatever timed out before, a callback is let in only when every earlier one has
      returned from the provider, sent its result and given the gate back. */
  lemma AdmissionSeesLateEffects(s: System, c: ControlId, cb: CallbackId)
    requires Reachable(s) && Enabled(s, Admit(c, cb))
    ensures forall old' | old' in s.callbacks :: s.callbacks[old'].stage == Released
    ensures forall i | 0 <= i < |s.log| && s.log[i].Began? :: i + 1 < |s.log| && s.log[i + 1] == Ended(s.log[i].cb)
  {
    ReachableInv(s);
    forall old' | old' in s.callbacks ensures s.callbacks[old'].stage == Released {
      assert !HasGate(s, old');
    }
    assert |s.log| % 2 == 0;
    forall i | 0 <= i < |s.log| && s.log[i].Began? ensures i + 1 < |s.log| && s.log[i + 1] == Ended(s.log[i].cb) {
      assert Paired(s.log, i);
      assert Paired(s.log, i + 1);
    }
  }

  /** Over a whole run: when a recovery observation, or any other callback, begins at
      position `j` of the log, each callback that began at an earlier position has ended
      between the two, timed out or not. */
  lemma CallbacksNeverOverlap(s: System, i: nat, j: nat)
    requires Reachable(s) && i < j < |s.log| && s.log[i].Began? && s.log[j].Began?
    ensures i + 1 < j && s.log[i + 1] == Ended(s.log[i].cb)
  {
    ReachableInv(s);
    assert Paired(s.log, i) && Paired(s.log, j) && Paired(s.log, i + 1);
  }

  /** A delivered result is the one of the control call's own callback, which has returned. */
  lemma ResultIsOwn(s: System, c: ControlId)
    requires Reachable(s) && Enabled(s, Deliver(c))
    ensures s.callbacks[s.controls[c].cb].control == c
    ensures Ended(s.controls[c].cb) in s.log
  {
    ReachableInv(s);
  }

  lemma ReachableStep(s: System, a: Action)
    requires Reachable(s) && Enabled(s, a)
    ensures Reachable(Do(s, a))
  {
    hide Do, Enabled;
    ReachesOnward(Steps(), Boot(), s, a);
  }

  /** The gate is what keeps late effects out: after an executor has timed out the lifecycle
      is free again, and a recovery can ask for its observation while the executor runs. */
  lemma RecoveryMayOutrunExecutor()
    ensures exists s :: Reachable(s) && 1 in s.controls && s.controls[1] == Asking(RecoveryObservation)
                        && At(s, 0, Running) && s.callbacks[0].kind == Execution
                        && forall cb :: !Enabled(s, Admit(1, cb))
  {
    hide Reachable;
    var s := RunningExecutor();
    ReachableStep(s, Expire(0));
    var s4 := Goto(s, 0, Failed);
    ReachableStep(s4, Return(0));
    var s5 := Goto(s4, 0, Gone).(lifecycle := true);
    ReachableStep(s5, Acquire(1));
    var s6 := Goto(s5, 1, Holding).(lifecycle := false);
    ReachableStep(s6, Ask(1, RecoveryObservation));
    var s7 := Goto(s6, 1, Asking(RecoveryObservation));
    assert At(s7, 0, Running) && !s7.gate;
  }

  lemma RunningExecutor() returns (s: System)
    ensures Reachable(s)
    ensures s == System(false, false, map[0 := Awaiting(0)], map[0 := Callback(0, Execution, Running)],
                        [Began(0, Execution)])
  {
    ReachesItself(Steps(), Boot());
    assert Reachable(Boot());
    hide Reachable;
    ReachableStep(Boot(), Acquire(0));
    var s1 := System(false, true, map[0 := Holding], map[], []);
    ReachableStep(s1, Ask(0, Execution));
    var s2 := System(false, true, map[0 := Asking(Execution)], map[], []);
    assert s2 == Do(s1, Ask(0, Execution));
    ReachableStep(s2, Admit(0, 0));
    s := Do(s2, Admit(0, 0));
    assert s.controls == map[0 := Awaiting(0)] && s.callbacks == map[0 := Callback(0, Execution, Running)];
  }
}
