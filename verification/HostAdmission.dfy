/**
 Provider callbacks under the Host. Any number of Control calls, on any number of
 Hosts that share one runtime, run callbacks that may outlive their deadline. An
 action is one step of a Control call, of a callback's goroutine, or of the
 goroutine that gives the lifecycle token back.
 */
module HostAdmission {
  import opened Results
  import opened StateMachines

  type ControlId = nat
  type CallbackId = nat

  /** One admission gate: a provider name on one Host. */
  datatype Gate = Gate(host: nat, provider: string)

  /** None is a nil error. */
  type Outcome = Option<string>

  /** The goroutine of a callback, by the last thing it has done. */
  datatype Stage =
    | Running                        // inside the provider
    | Finished(outcome: Outcome)     // the provider has returned
    | Discounted(outcome: Outcome)   // outstanding.Done()
    | Left(outcome: Outcome)         // gate.leave()
    | Marked(outcome: Outcome)       // completed = true
    | Sent(outcome: Outcome)         // result sent

  datatype Callback = Callback(control: ControlId, gate: Gate, stage: Stage)

  datatype Point =
    | Holding                             // between two callbacks
    | Counted(gate: Gate, grace: bool)    // outstanding.Add(1), not yet at the gate
    | Refused                             // the gate was busy; Add(1) not yet undone
    | Awaiting(cb: CallbackId, grace: bool)
    | InGrace(cb: CallbackId)             // deadline passed, waiting out the grace interval
    | Draining(cb: CallbackId)            // deadline passed, but the callback had completed
    | Failed                              // the call must return an error
    | Returning                           // Control has returned; releaseWhenDone waits
    | Released                            // the token went back

  datatype Control = Control(host: nat, outstanding: int, point: Point, succeeded: set<CallbackId>)

  datatype System = System(
    token: bool,
    controls: map<ControlId, Control>,
    callbacks: map<CallbackId, Callback>,
    gates: map<Gate, CallbackId>,  // the busy gates and who is inside
    acquired: nat,
    released: nat)

  datatype Action =
    | Acquire(c: ControlId, host: nat)
    | Count(c: ControlId, provider: string, grace: bool)
    | TryEnter(c: ControlId, cb: CallbackId)
    | Uncount(c: ControlId)
    | ProviderReturns(cb: CallbackId, outcome: Outcome)
    | Discount(cb: CallbackId)
    | Leave(cb: CallbackId)
    | Mark(cb: CallbackId)
    | Send(cb: CallbackId)
    | Deliver(c: ControlId)
    | Expire(c: ControlId)
    | GraceOver(c: ControlId)
    | Return(c: ControlId)
    | Release(c: ControlId)

  function Boot(): System {
    System(true, map[], map[], map[], 0, 0)
  }

  predicate Waits(p: Point) {
    p.Awaiting? || p.InGrace? || p.Draining?
  }

  predicate At(s: System, c: ControlId, p: Point -> bool) {
    c in s.controls && p(s.controls[c].point)
  }

  predicate Enabled(s: System, a: Action) {
    match a
    case Acquire(c, _) => c !in s.controls && s.token
    case Count(c, _, _) => c in s.controls && s.controls[c].point.Holding?
    case TryEnter(c, cb) => c in s.controls && s.controls[c].point.Counted? && cb !in s.callbacks
    case Uncount(c) => c in s.controls && s.controls[c].point.Refused?
    case ProviderReturns(cb, _) => cb in s.callbacks && s.callbacks[cb].stage.Running?
    case Discount(cb) => cb in s.callbacks && s.callbacks[cb].stage.Finished? && s.callbacks[cb].control in s.controls
    case Leave(cb) => cb in s.callbacks && s.callbacks[cb].stage.Discounted?
    case Mark(cb) => cb in s.callbacks && s.callbacks[cb].stage.Left?
    case Send(cb) => cb in s.callbacks && s.callbacks[cb].stage.Marked?
    case Deliver(c) => c in s.controls && Waits(s.controls[c].point) && s.controls[c].point.cb in s.callbacks
                       && s.callbacks[s.controls[c].point.cb].stage.Sent?
    case Expire(c) => c in s.controls && s.controls[c].point.Awaiting? && s.controls[c].point.cb in s.callbacks
    case GraceOver(c) => c in s.controls && s.controls[c].point.InGrace? && s.controls[c].point.cb in s.callbacks
    case Return(c) => c in s.controls && (s.controls[c].point.Holding? || s.controls[c].point.Failed?)
    case Release(c) => c in s.controls && s.controls[c].point.Returning? && s.controls[c].outstanding == 0
  }

  function Goto(s: System, c: ControlId, p: Point): System
    requires c in s.controls
  {
    s.(controls := s.controls[c := s.controls[c].(point := p)])
  }

  function Adjust(s: System, c: ControlId, delta: int): System
    requires c in s.controls
  {
    s.(controls := s.controls[c := s.controls[c].(outstanding := s.controls[c].outstanding + delta)])
  }

  function Advance(s: System, cb: CallbackId, stage: Stage): System
    requires cb in s.callbacks
  {
    s.(callbacks := s.callbacks[cb := s.callbacks[cb].(stage := stage)])
  }

  /** completed.Load() */
  predicate Completed(s: System, cb: CallbackId)
    requires cb in s.callbacks
  {
    s.callbacks[cb].stage.Marked? || s.callbacks[cb].stage.Sent?
  }

  function Do(s: System, a: Action): System
    requires Enabled(s, a)
  {
    match a
    case Acquire(c, host) =>
      s.(token := false, controls := s.controls[c := Control(host, 0, Holding, {})], acquired := s.acquired + 1)
    case Count(c, provider, grace) =>
      Adjust(Goto(s, c, Counted(Gate(s.controls[c].host, provider), grace)), c, 1)
    case TryEnter(c, cb) =>
      var p := s.controls[c].point;
      if p.gate in s.gates then Goto(s, c, Refused)
      else Goto(s, c, Awaiting(cb, p.grace)).(gates := s.gates[p.gate := cb],
                                              callbacks := s.callbacks[cb := Callback(c, p.gate, Running)])
    case Uncount(c) => Adjust(Goto(s, c, Failed), c, -1)
    case ProviderReturns(cb, outcome) => Advance(s, cb, Finished(outcome))
    case Discount(cb) =>
      Adjust(Advance(s, cb, Discounted(s.callbacks[cb].stage.outcome)), s.callbacks[cb].control, -1)
    case Leave(cb) =>
      Advance(s, cb, Left(s.callbacks[cb].stage.outcome)).(gates := s.gates - {s.callbacks[cb].gate})
    case Mark(cb) => Advance(s, cb, Marked(s.callbacks[cb].stage.outcome))
    case Send(cb) => Advance(s, cb, Sent(s.callbacks[cb].stage.outcome))
    case Deliver(c) =>
      var cb := s.controls[c].point.cb;
      if s.callbacks[cb].stage.outcome.Some? then Goto(s, c, Failed)
      else
        var control := s.controls[c].(point := Holding, succeeded := s.controls[c].succeeded + {cb});
        s.(controls := s.controls[c := control])
    case Expire(c) =>
      var p := s.controls[c].point;
      Goto(s, c, if Completed(s, p.cb) then Draining(p.cb) else if p.grace then InGrace(p.cb) else Failed)
    case GraceOver(c) =>
      var p := s.controls[c].point;
      Goto(s, c, if Completed(s, p.cb) then Draining(p.cb) else Failed)
    case Return(c) => Goto(s, c, Returning)
    case Release(c) => Goto(s, c, Released).(token := true, released := s.released + 1)
  }

  // ---- The inductive invariant ----

  /** A callback whose provider function has not been discounted yet. */
  predicate Live(s: System, cb: CallbackId) {
    cb in s.callbacks && (s.callbacks[cb].stage.Running? || s.callbacks[cb].stage.Finished?)
  }

  /** A callback that still occupies its gate. */
  predicate Inside(s: System, cb: CallbackId) {
    Live(s, cb) || (cb in s.callbacks && s.callbacks[cb].stage.Discounted?)
  }

  predicate HasToken(s: System, c: ControlId) {
    c in s.controls && !s.controls[c].point.Released?
  }

  ghost predicate TokenInv(s: System) {
    && (forall c, d | HasToken(s, c) && HasToken(s, d) :: c == d)
    && (s.token <==> !exists c :: HasToken(s, c))
    && s.acquired == s.released + (if s.token then 0 else 1)
  }

  ghost predicate AnyLive(s: System) {
    exists cb :: Live(s, cb)
  }

  /** Points at which a call has no callback that could still be live. */
  predicate Idle(p: Point) {
    p.Holding? || p.Counted? || p.Refused?
  }

  ghost predicate CallbackInv(s: System) {
    // a live callback belongs to the one call that has the token, and there is only one
    && (forall cb | Live(s, cb) :: HasToken(s, s.callbacks[cb].control))
    && (forall cb, cb' | Live(s, cb) && Live(s, cb') :: cb == cb')
    && (forall c | c in s.controls :: PointFits(s, c))
    && (forall c, cb | c in s.controls && cb in s.controls[c].succeeded ::
          cb in s.callbacks && Succeeded(s.callbacks[cb], c))
  }

  predicate Succeeded(callback: Callback, c: ControlId) {
    callback.control == c && callback.stage == Sent(None)
  }

  ghost predicate PointFits(s: System, c: ControlId)
    requires c in s.controls
  {
    var p := s.controls[c].point;
    && (Idle(p) ==> !AnyLive(s))
    && (Waits(p) ==>
          && p.cb in s.callbacks && s.callbacks[p.cb].control == c
          && (forall cb | Live(s, cb) :: cb == p.cb)
          && (p.Draining? ==> Completed(s, p.cb)))
  }

  ghost predicate CountInv(s: System) {
    forall c | c in s.controls ::
      s.controls[c].outstanding ==
        (if s.controls[c].point.Counted? || s.controls[c].point.Refused? then 1 else 0)
        + (if HasToken(s, c) && AnyLive(s) then 1 else 0)
  }

  ghost predicate GateInv(s: System) {
    && (forall g | g in s.gates :: Inside(s, s.gates[g]) && s.callbacks[s.gates[g]].gate == g)
    && (forall cb | Inside(s, cb) :: s.callbacks[cb].gate in s.gates && s.gates[s.callbacks[cb].gate] == cb)
  }

  ghost predicate Inv(s: System) {
    TokenInv(s) && CallbackInv(s) && CountInv(s) && GateInv(s)
  }

  lemma BootInv()
    ensures Inv(Boot())
  {
  }

  // ---- The token ----

  lemma StepKeepsToken(s: System, a: Action)
    requires TokenInv(s) && Enabled(s, a)
    ensures TokenInv(Do(s, a))
  {
    var s' := Do(s, a);
    match a
    case Acquire(c, _) =>
      forall d ensures HasToken(s', d) <==> d == c {
        assert !HasToken(s, d);
      }
      assert HasToken(s', c);
    case Release(c) =>
      forall d ensures !HasToken(s', d) {
        assert HasToken(s, c) && (HasToken(s', d) ==> HasToken(s, d) && d != c);
      }
      assert HasToken(s, c) && !s.token;
    case _ =>
      forall d ensures HasToken(s', d) <==> HasToken(s, d) {
      }
      SameHolders(s, s');
  }

  lemma SameHolders(s: System, s': System)
    requires TokenInv(s) && forall c :: HasToken(s', c) <==> HasToken(s, c)
    requires s'.token == s.token && s'.acquired == s.acquired && s'.released == s.released
    ensures TokenInv(s')
  {
  }

  // ---- The gates ----

  lemma SameInside(s: System, s': System)
    requires GateInv(s) && s'.gates == s.gates
    requires forall cb :: Inside(s', cb) <==> Inside(s, cb)
    requires forall cb | Inside(s, cb) && Inside(s', cb) :: s'.callbacks[cb].gate == s.callbacks[cb].gate
    ensures GateInv(s')
  {
  }

  lemma EnterKeepsGates(s: System, c: ControlId, cb: CallbackId)
    requires GateInv(s) && Enabled(s, TryEnter(c, cb))
    ensures GateInv(Do(s, TryEnter(c, cb)))
  {
    var g, s' := s.controls[c].point.gate, Do(s, TryEnter(c, cb));
    if g in s.gates {
      SameInside(s, s');
    } else {
      assert s'.gates == s.gates[g := cb] && s'.callbacks == s.callbacks[cb := Callback(c, g, Running)];
      hide Do, Enabled;
      assert forall cb' :: Inside(s', cb') <==> Inside(s, cb') || cb' == cb;
    }
  }

  lemma LeaveKeepsGates(s: System, cb: CallbackId)
    requires GateInv(s) && Enabled(s, Leave(cb))
    ensures GateInv(Do(s, Leave(cb)))
  {
    var s' := Do(s, Leave(cb));
    assert s'.gates == s.gates - {s.callbacks[cb].gate} && Inside(s, cb);
    assert s'.callbacks == s.callbacks[cb := s'.callbacks[cb]] && s'.callbacks[cb].stage.Left?;
    hide Do, Enabled;
    assert forall cb' :: Inside(s', cb') <==> Inside(s, cb') && cb' != cb;
  }

  lemma StepKeepsGates(s: System, a: Action)
    requires GateInv(s) && Enabled(s, a)
    ensures GateInv(Do(s, a))
  {
    hide GateInv;
    match a
    case TryEnter(c, cb) => EnterKeepsGates(s, c, cb);
    case Leave(cb) => LeaveKeepsGates(s, cb);
    case _ => SameInside(s, Do(s, a));
  }

  // ---- The callbacks and their count ----

  /** Steps of a goroutine that do not discount it. */
  lemma StageKeepsCallbacks(s: System, cb: CallbackId, stage: Stage)
    requires CallbackInv(s) && CountInv(s) && cb in s.callbacks
    requires Live(s, cb) ==> stage.Finished?
    requires !Live(s, cb) ==> stage.Left? || stage.Marked? || stage.Sent?
    requires Completed(s, cb) ==> stage.Sent? && s.callbacks[cb].stage.Marked?
    ensures CallbackInv(Advance(s, cb, stage)) && CountInv(Advance(s, cb, stage))
  {
    var s' := Advance(s, cb, stage);
    assert forall cb' :: Live(s', cb') <==> Live(s, cb');
    assert AnyLive(s') <==> AnyLive(s);
    assert forall c :: HasToken(s', c) <==> HasToken(s, c);
    forall c | c in s'.controls ensures PointFits(s', c) {
      assert PointFits(s, c);
    }
  }

  lemma DiscountKeepsCallbacks(s: System, cb: CallbackId)
    requires TokenInv(s) && CallbackInv(s) && CountInv(s) && Enabled(s, Discount(cb))
    ensures CallbackInv(Do(s, Discount(cb))) && CountInv(Do(s, Discount(cb)))
  {
    var s', c := Do(s, Discount(cb)), s.callbacks[cb].control;
    assert s'.callbacks == s.callbacks[cb := s'.callbacks[cb]] && s'.callbacks[cb].control == c;
    assert s'.callbacks[cb].stage.Discounted? && s.callbacks[cb].stage.Finished?;
    assert s'.controls == s.controls[c := s.controls[c].(outstanding := s.controls[c].outstanding - 1)];
    hide Do, Enabled;
    assert Live(s, cb) && HasToken(s, c) && AnyLive(s);
    forall cb' ensures !Live(s', cb') {
      assert Live(s', cb') ==> Live(s, cb') && cb' != cb;
    }
    assert !AnyLive(s');
    forall d | d in s'.controls ensures PointFits(s', d) {
      assert PointFits(s, d);
    }
    assert forall d :: HasToken(s', d) <==> HasToken(s, d);
  }

  /** A call that moves on while every goroutine stands still. */
  lemma MoveKeepsCallbacks(s: System, s': System, c: ControlId)
    requires TokenInv(s) && CallbackInv(s) && CountInv(s) && c in s.controls && c in s'.controls
    requires s'.callbacks == s.callbacks && s'.controls == s.controls[c := s'.controls[c]]
    requires HasToken(s, c) && HasToken(s', c)
    requires PointFits(s', c)
    requires forall cb | cb in s'.controls[c].succeeded :: cb in s.callbacks && Succeeded(s.callbacks[cb], c)
    requires var (p, p') := (s.controls[c].point, s'.controls[c].point);
      s'.controls[c].outstanding - s.controls[c].outstanding ==
        (if p'.Counted? || p'.Refused? then 1 else 0) - (if p.Counted? || p.Refused? then 1 else 0)
    ensures CallbackInv(s') && CountInv(s')
  {
    assert forall cb :: Live(s', cb) <==> Live(s, cb);
    assert AnyLive(s') <==> AnyLive(s);
    assert forall d :: HasToken(s', d) <==> HasToken(s, d);
    forall d | d in s'.controls ensures PointFits(s', d) {
      assert d != c ==> PointFits(s, d);
    }
  }

  predicate MovesOnly(a: Action) {
    a.Count? || a.Uncount? || a.Deliver? || a.Expire? || a.GraceOver? || a.Return?
  }

  lemma CallMoves(s: System, a: Action)
    requires Enabled(s, a) && MovesOnly(a) && PointFits(s, a.c)
    requires forall cb | cb in s.controls[a.c].succeeded :: cb in s.callbacks && Succeeded(s.callbacks[cb], a.c)
    ensures var (s', c) := (Do(s, a), a.c);
      && c in s'.controls && s'.callbacks == s.callbacks && s'.controls == s.controls[c := s'.controls[c]]
      && HasToken(s, c) && HasToken(s', c) && PointFits(s', c)
      && (forall cb | cb in s'.controls[c].succeeded :: cb in s.callbacks && Succeeded(s.callbacks[cb], c))
      && var (p, p') := (s.controls[c].point, s'.controls[c].point);
         s'.controls[c].outstanding - s.controls[c].outstanding ==
           (if p'.Counted? || p'.Refused? then 1 else 0) - (if p.Counted? || p.Refused? then 1 else 0)
  {
    var s' := Do(s, a);
    assert forall cb :: Live(s', cb) <==> Live(s, cb);
    assert AnyLive(s') <==> AnyLive(s);
  }

  lemma CallKeepsCallbacks(s: System, a: Action)
    requires TokenInv(s) && CallbackInv(s) && CountInv(s) && Enabled(s, a) && MovesOnly(a)
    ensures CallbackInv(Do(s, a)) && CountInv(Do(s, a))
  {
    assert PointFits(s, a.c);
    CallMoves(s, a);
    hide Do, Enabled, PointFits;
    MoveKeepsCallbacks(s, Do(s, a), a.c);
  }

  lemma EnterKeepsCallbacks(s: System, c: ControlId, cb: CallbackId)
    requires TokenInv(s) && CallbackInv(s) && CountInv(s) && Enabled(s, TryEnter(c, cb))
    ensures CallbackInv(Do(s, TryEnter(c, cb))) && CountInv(Do(s, TryEnter(c, cb)))
  {
    var s', g := Do(s, TryEnter(c, cb)), s.controls[c].point.gate;
    assert PointFits(s, c) && HasToken(s, c) && !AnyLive(s);
    if g in s.gates {
      assert forall cb :: Live(s', cb) <==> Live(s, cb);
      MoveKeepsCallbacks(s, s', c);
    } else {
      assert s'.controls == s.controls[c := s'.controls[c]] && s'.controls[c].point.Awaiting?;
      assert s'.controls[c].point.cb == cb && s'.controls[c].outstanding == s.controls[c].outstanding
             && s'.controls[c].succeeded == s.controls[c].succeeded;
      assert s'.callbacks == s.callbacks[cb := Callback(c, g, Running)];
      hide Do, Enabled;
      forall cb' ensures Live(s', cb') <==> cb' == cb {
        assert !Live(s, cb');
      }
      assert Live(s', cb) && AnyLive(s');
      assert forall d :: HasToken(s', d) <==> HasToken(s, d);
      forall d | d in s'.controls ensures PointFits(s', d) {
        assert d != c ==> PointFits(s, d) && !HasToken(s, d);
      }
    }
  }

  lemma TokenMoveKeepsCallbacks(s: System, a: Action)
    requires TokenInv(s) && CallbackInv(s) && CountInv(s) && Enabled(s, a) && (a.Acquire? || a.Release?)
    ensures CallbackInv(Do(s, a)) && CountInv(Do(s, a)) && !AnyLive(s)
  {
    var s', c := Do(s, a), a.c;
    assert s'.callbacks == s.callbacks && s'.controls == s.controls[c := s'.controls[c]];
    if a.Acquire? {
      assert forall d :: !HasToken(s, d);
    } else {
      assert HasToken(s, c);
    }
    assert !AnyLive(s);
    assert s'.controls[c].outstanding == 0 && (s'.controls[c].point.Holding? || s'.controls[c].point.Released?);
    assert s'.controls[c].succeeded == if a.Acquire? then {} else s.controls[c].succeeded;
    hide Do, Enabled;
    forall cb ensures !Live(s', cb) {
      assert !Live(s, cb);
    }
    forall d | d in s'.controls ensures PointFits(s', d) {
      assert d != c ==> PointFits(s, d);
    }
  }

  lemma StepKeepsCallbacks(s: System, a: Action)
    requires TokenInv(s) && CallbackInv(s) && CountInv(s) && Enabled(s, a)
    ensures CallbackInv(Do(s, a)) && CountInv(Do(s, a))
  {
    match a
    case Acquire(_, _) => TokenMoveKeepsCallbacks(s, a);
    case Release(_) => TokenMoveKeepsCallbacks(s, a);
    case TryEnter(c, cb) => EnterKeepsCallbacks(s, c, cb);
    case ProviderReturns(cb, outcome) => StageKeepsCallbacks(s, cb, Finished(outcome));
    case Discount(cb) => DiscountKeepsCallbacks(s, cb);
    case Leave(cb) =>
      StageKeepsCallbacks(s, cb, Left(s.callbacks[cb].stage.outcome));
      GatesDoNotMatter(Advance(s, cb, Left(s.callbacks[cb].stage.outcome)), Do(s, a).gates);
    case Mark(cb) => StageKeepsCallbacks(s, cb, Marked(s.callbacks[cb].stage.outcome));
    case Send(cb) => StageKeepsCallbacks(s, cb, Sent(s.callbacks[cb].stage.outcome));
    case _ => CallKeepsCallbacks(s, a);
  }

  lemma GatesDoNotMatter(s: System, gates: map<Gate, CallbackId>)
    requires CallbackInv(s) && CountInv(s)
    ensures CallbackInv(s.(gates := gates)) && CountInv(s.(gates := gates))
  {
    var s' := s.(gates := gates);
    assert forall cb :: Live(s', cb) <==> Live(s, cb);
    assert AnyLive(s') <==> AnyLive(s);
    forall d | d in s'.controls ensures PointFits(s', d) {
      assert PointFits(s, d);
    }
  }

  lemma StepKeepsInv(s: System, a: Action)
    requires Inv(s) && Enabled(s, a)
    ensures Inv(Do(s, a))
  {
    StepKeepsToken(s, a);
    StepKeepsGates(s, a);
    StepKeepsCallbacks(s, a);
  }

  // ---- Theorems over every interleaving ----

  function Steps(): Machine<System, Action> {
    Machine((s, a) => Enabled(s, a), (s, a) => if Enabled(s, a) then Do(s, a) else s)
  }

  ghost predicate Reachable(s: System) {
    Reaches(Steps(), Boot(), s)
  }

  lemma ReachableInv(s: System)
    requires Reachable(s)
    ensures Inv(s)
  {
    hide Inv, Do, Enabled;
    BootInv();
    forall s, a | Inv(s) && Steps().enabled(s, a) ensures Inv(Steps().next(s, a)) {
      StepKeepsInv(s, a);
    }
    ReachedKeeps(Steps(), s => Inv(s), Boot(), s);
  }

  /** At most one provider callback runs at any time, on all Hosts of the runtime
      together, and the call it belongs to has the lifecycle token. */
  lemma OneCallbackAtATime(s: System, cb: CallbackId, cb': CallbackId)
    requires Reachable(s) && Live(s, cb) && Live(s, cb')
    ensures cb == cb' && HasToken(s, s.callbacks[cb].control) && !s.token
  {
    ReachableInv(s);
    assert HasToken(s, s.callbacks[cb].control);
  }

  /** The token is never duplicated or lost, the wait group is never negative. */
  lemma TokenIsConserved(s: System)
    requires Reachable(s)
    ensures s.acquired == s.released + (if s.token then 0 else 1)
    ensures s.token <==> !exists c :: HasToken(s, c)
    ensures forall c, d | HasToken(s, c) && HasToken(s, d) :: c == d
    ensures forall c | c in s.controls :: 0 <= s.controls[c].outstanding <= 1
  {
    ReachableInv(s);
    forall c | c in s.controls ensures 0 <= s.controls[c].outstanding <= 1 {
      assert PointFits(s, c);
    }
    hide CallbackInv, GateInv;
  }

  /** The token goes back into an empty slot, and only when no callback is left running. */
  lemma ReleaseFollowsLastCallback(s: System, c: ControlId)
    requires Reachable(s) && Enabled(s, Release(c))
    ensures !s.token && forall cb :: !Live(s, cb)
  {
    ReachableInv(s);
    TokenMoveKeepsCallbacks(s, Release(c));
    assert HasToken(s, c);
    forall cb ensures !Live(s, cb) {
    }
    hide Inv, TokenInv, CallbackInv, CountInv, GateInv;
  }

  predicate IsReleased(s: System, c: ControlId) {
    c in s.controls && s.controls[c].point.Released?
  }

  predicate Finishes(a: Action, c: ControlId) {
    a == Release(c) || (a.Acquire? && a.c == c)
  }

  lemma StepKeepsReleased(s: System, a: Action, c: ControlId)
    requires IsReleased(s, c) && Enabled(s, a)
    ensures IsReleased(Do(s, a), c) && !Finishes(a, c)
  {
  }

  /** Whatever is done after a call has given the token back, it neither takes nor returns it again. */
  lemma {:induction false} ReleasedForGood(s: System, actions: seq<Action>, c: ControlId)
    requires IsReleased(s, c) && Possible(Steps(), s, actions)
    ensures IsReleased(After(Steps(), s, actions), c)
    ensures forall i | 0 <= i < |actions| :: !Finishes(actions[i], c)
    decreases |actions|
  {
    hide Do, Enabled;
    if actions != [] {
      StepKeepsReleased(s, actions[0], c);
      ReleasedForGood(Do(s, actions[0]), actions[1..], c);
      forall i | 0 <= i < |actions| ensures !Finishes(actions[i], c) {
        assert i > 0 ==> actions[i] == actions[1..][i - 1];
      }
    }
  }

  /** Over any run, each call returns the token at most once, and not before it has taken it. */
  lemma ReleasedOnce(actions: seq<Action>, i: nat, c: ControlId)
    requires Possible(Steps(), Boot(), actions) && i < |actions| && actions[i] == Release(c)
    ensures forall j | i < j < |actions| :: !Finishes(actions[j], c)
    ensures exists h :: 0 <= h < i && actions[h].Acquire? && actions[h].c == c
  {
    var past, future := actions[..i], actions[i..];
    assert actions == past + future;
    RunThenRun(Steps(), Boot(), past, future);
    var s := After(Steps(), Boot(), past);
    assert future[0] == Release(c) && Enabled(s, Release(c));
    AcquiredBefore(Boot(), past, c);
    assert IsReleased(Do(s, Release(c)), c);
    hide Do, Enabled, IsReleased;
    ReleasedForGood(Do(s, Release(c)), future[1..], c);
    forall j | i < j < |actions| ensures !Finishes(actions[j], c) {
      assert actions[j] == future[1..][j - i - 1];
    }
  }

  lemma {:induction false} AcquiredBefore(s: System, actions: seq<Action>, c: ControlId)
    requires Possible(Steps(), s, actions) && c !in s.controls && c in After(Steps(), s, actions).controls
    ensures exists h :: 0 <= h < |actions| && actions[h].Acquire? && actions[h].c == c
    decreases |actions|
  {
    var s' := Do(s, actions[0]);
    if c in s'.controls {
      assert actions[0].Acquire? && actions[0].c == c;
    } else {
      hide Do, Enabled;
      AcquiredBefore(s', actions[1..], c);
      var h :| 0 <= h < |actions[1..]| && actions[1..][h].Acquire? && actions[1..][h].c == c;
      assert actions[h + 1] == actions[1..][h];
    }
  }

  /** A call gets on after a callback exactly when that same callback has run to its
      end with a nil error; a deadline never turns into a nil error. */
  lemma NilErrorIsOwnCompletion(s: System, a: Action, c: ControlId)
    requires Reachable(s) && Enabled(s, a) && c in s.controls && Waits(s.controls[c].point)
    ensures Do(s, a).controls[c].point.Holding? <==>
              a == Deliver(c) && s.controls[c].point.cb in s.callbacks
              && Succeeded(s.callbacks[s.controls[c].point.cb], c)
  {
    hide Do, Enabled, TokenInv, CountInv, GateInv;
    ReachableInv(s);
    assert PointFits(s, c);
    OwnDelivery(s, a, c);
  }

  lemma OwnDelivery(s: System, a: Action, c: ControlId)
    requires Enabled(s, a) && c in s.controls && Waits(s.controls[c].point)
    requires s.controls[c].point.cb in s.callbacks && s.callbacks[s.controls[c].point.cb].control == c
    ensures Do(s, a).controls[c].point.Holding? <==>
              a == Deliver(c) && Succeeded(s.callbacks[s.controls[c].point.cb], c)
  {
  }

  /** A callback is refused admission exactly when one that has already returned from
      its provider has not yet left the gate: no refusal is due to a running callback. */
  lemma RefusalIsAlwaysLate(s: System, c: ControlId, cb: CallbackId)
    requires Reachable(s) && Enabled(s, TryEnter(c, cb))
    ensures Do(s, TryEnter(c, cb)).controls[c].point.Refused? <==>
              exists old' :: old' in s.callbacks && s.callbacks[old'].gate == s.controls[c].point.gate
                             && s.callbacks[old'].stage.Discounted?
  {
    ReachableInv(s);
    assert PointFits(s, c) && HasToken(s, c);
    var g := s.controls[c].point.gate;
    if g in s.gates {
      var inside := s.gates[g];
      assert Inside(s, inside) && !Live(s, inside);
      assert s.callbacks[inside].stage.Discounted?;
    }
    if old' :| old' in s.callbacks && s.callbacks[old'].gate == g && s.callbacks[old'].stage.Discounted? {
      assert Inside(s, old');
    }
  }

  lemma ReachableStep(s: System, a: Action)
    requires Reachable(s) && Enabled(s, a)
    ensures Reachable(Do(s, a))
  {
    hide Do, Enabled;
    ReachesOnward(Steps(), Boot(), s, a);
  }

  lemma RunningCallback(g: Gate) returns (s: System)
    requires g.host == 0
    ensures s == System(false, map[0 := Control(0, 1, Awaiting(0, false), {})], map[0 := Callback(0, g, Running)],
                        map[g := 0], 1, 0)
    ensures Reachable(s)
  {
    ReachesItself(Steps(), Boot());
    assert Reachable(Boot());
    hide Reachable;
    ReachableStep(Boot(), Acquire(0, 0));
    var s1 := System(false, map[0 := Control(0, 0, Holding, {})], map[], map[], 1, 0);
    ReachableStep(s1, Count(0, g.provider, false));
    var s2 := System(false, map[0 := Control(0, 1, Counted(g, false), {})], map[], map[], 1, 0);
    assert s2 == Do(s1, Count(0, g.provider, false));
    ReachableStep(s2, TryEnter(0, 0));
    s := System(false, map[0 := Control(0, 1, Awaiting(0, false), {})], map[0 := Callback(0, g, Running)], map[g := 0],
                1, 0);
    assert s == Do(s2, TryEnter(0, 0));
  }

  lemma TimedOutCallback(g: Gate) returns (s: System)
    requires g.host == 0
    ensures s == System(false, map[0 := Control(0, 1, Returning, {})], map[0 := Callback(0, g, Running)], map[g := 0],
                        1, 0)
    ensures Reachable(s)
  {
    hide Reachable;
    var s3 := RunningCallback(g);
    ReachableStep(s3, Expire(0));
    var s4 := Goto(s3, 0, Failed);
    ReachableStep(s4, Return(0));
    s := Goto(s4, 0, Returning);
  }

  /** A call whose only callback timed out, returned late and has yet to leave its gate. */
  lemma LateCallback(g: Gate) returns (s: System)
    requires g.host == 0
    ensures s == System(true, map[0 := Control(0, 0, Released, {})], map[0 := Callback(0, g, Discounted(None))],
                        map[g := 0], 1, 1)
    ensures Reachable(s)
  {
    var s5 := TimedOutCallback(g);
    hide Reachable;
    ReachableStep(s5, ProviderReturns(0, None));
    var s6 := Advance(s5, 0, Finished(None));
    ReachableStep(s6, Discount(0));
    var s7 := Adjust(Advance(s6, 0, Discounted(None)), 0, -1);
    ReachableStep(s7, Release(0));
    s := Do(s7, Release(0));
  }

  /** Such a refusal does happen: the token can be back before the gate is free. */
  lemma LateRefusalHappens()
    ensures exists s :: Reachable(s) && Enabled(s, TryEnter(1, 1)) && Do(s, TryEnter(1, 1)).controls[1].point.Refused?
                        && forall cb :: !Live(s, cb)
  {
    hide Reachable;
    var s := LateCallback(Gate(0, "p"));
    ReachableStep(s, Acquire(1, 0));
    var s1 := Do(s, Acquire(1, 0));
    ReachableStep(s1, Count(1, "p", false));
    var s2 := Do(s1, Count(1, "p", false));
    assert Enabled(s2, TryEnter(1, 1)) && Do(s2, TryEnter(1, 1)).controls[1].point.Refused?;
  }
}
