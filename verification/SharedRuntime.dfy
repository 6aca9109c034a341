/**
 Several Hosts on one runtime: the admission machine and the kernel side by side. The code of a Control call touches
 the kernel only while the call holds the lifecycle token and stands between two callbacks, so each holder finds the
 kernel as it left it, and whatever is proved of a lone caller holds for every holder.
 */
module SharedRuntime {
  import opened Evidence
  import opened KernelSteps
  import opened StateMachines
  import opened ControlSteps
  import opened Interleaving
  import opened Turns
  import Admission = HostAdmission

  datatype Joint = Joint(gates: Admission.System, runtime: System)

  datatype Step =
    | Gate(a: Admission.Action)                       // any step of any call or callback outside the kernel
    | Section(c: Admission.ControlId, section: Action)      // a section of the kernel, by the call `c`
    | Passing(to: Time)

  /** Control runs: it holds the token and is not waiting for a callback. */
  predicate Acts(gates: Admission.System, c: Admission.ControlId) {
    c in gates.controls && (gates.controls[c].point.Holding? || gates.controls[c].point.Failed?)
  }

  predicate CanStep(s: Joint, step: Step) {
    match step
    case Gate(a) => Admission.Enabled(s.gates, a)
    case Section(c, a) => Acts(s.gates, c) && !a.Tick? && !a.OutsideCas? && Enabled(s.runtime, a)
    case Passing(to) => s.runtime.now <= to
  }

  function DoStep(s: Joint, step: Step): Joint
    requires CanStep(s, step)
  {
    match step
    case Gate(a) => s.(gates := Admission.Do(s.gates, a))
    case Section(_, a) => s.(runtime := Do(s.runtime, a))
    case Passing(to) => s.(runtime := s.runtime.(now := to))
  }

  function JointSteps(): Machine<Joint, Step> {
    Machine((s, step) => CanStep(s, step), (s, step) => if CanStep(s, step) then DoStep(s, step) else s)
  }

  /** Only the holder of the token acts on the kernel. */
  lemma OnlyHolderActs(s: Joint, c: Admission.ControlId, d: Admission.ControlId, a: Action)
    requires Admission.TokenInv(s.gates) && Admission.HasToken(s.gates, c) && CanStep(s, Section(d, a))
    ensures d == c
  {
    assert Admission.HasToken(s.gates, d);
  }

  /** The holder goes on holding the token until it gives it back. */
  lemma HolderHolds(s: Joint, c: Admission.ControlId, step: Step)
    requires Admission.TokenInv(s.gates) && Admission.HasToken(s.gates, c) && CanStep(s, step)
    requires step != Gate(Admission.Release(c))
    ensures Admission.TokenInv(DoStep(s, step).gates) && Admission.HasToken(DoStep(s, step).gates, c)
  {
    if step.Gate? {
      Admission.StepKeepsToken(s.gates, step.a);
      KeepsHolder(s.gates, c, step.a);
    }
    hide Admission.Do, Admission.Enabled, Admission.TokenInv, Enabled, Do;
  }

  lemma KeepsHolder(s: Admission.System, c: Admission.ControlId, a: Admission.Action)
    requires Admission.TokenInv(s) && Admission.HasToken(s, c) && Admission.Enabled(s, a) && a != Admission.Release(c)
    ensures Admission.HasToken(Admission.Do(s, a), c)
  {
    assert !s.token;
    hide Admission.TokenInv;
  }

  /** What a run does to the runtime, everything else left out. */
  function KernelPart(steps: seq<Step>): seq<Action>
    decreases |steps|
  {
    if steps == [] then []
    else
      var rest := KernelPart(steps[1..]);
      match steps[0]
      case Gate(_) => rest
      case Section(_, a) => [a] + rest
      case Passing(to) => [Tick(to)] + rest
  }

  predicate KeepsToken(steps: seq<Step>, c: Admission.ControlId) {
    Gate(Admission.Release(c)) !in steps
  }

  /** One call's turn: until the holder of the token gives it back, every section of the kernel is its own,
      and the runtime does what these sections do with nobody else there. */
  lemma {:induction false} TurnIsOwn(s: Joint, steps: seq<Step>, c: Admission.ControlId)
    requires Admission.TokenInv(s.gates) && Admission.HasToken(s.gates, c)
    requires Possible(JointSteps(), s, steps) && KeepsToken(steps, c)
    ensures forall step | step in steps && step.Section? :: step.c == c
    ensures Possible(Steps(), s.runtime, KernelPart(steps))
    ensures After(JointSteps(), s, steps).runtime == After(Steps(), s.runtime, KernelPart(steps))
    ensures Admission.TokenInv(After(JointSteps(), s, steps).gates)
    ensures Admission.HasToken(After(JointSteps(), s, steps).gates, c)
    decreases |steps|
  {
    hide Admission.TokenInv, Admission.HasToken, Admission.Do, Admission.Enabled, Do;
    if steps != [] {
      var s1 := DoStep(s, steps[0]);
      HolderHolds(s, c, steps[0]);
      TurnIsOwn(s1, steps[1..], c);
      assert steps == [steps[0]] + steps[1..];
      match steps[0]
      case Gate(_) =>
      case Section(d, a) =>
        OnlyHolderActs(s, c, d, a);
        StepFirst(s.runtime, a, KernelPart(steps[1..]));
      case Passing(to) =>
        TickIsPassing(s.runtime, to);
        StepFirst(s.runtime, Tick(to), KernelPart(steps[1..]));
    }
  }

  lemma TickIsPassing(s: System, to: Time)
    requires s.now <= to
    ensures Enabled(s, Tick(to)) && Do(s, Tick(to)) == s.(now := to)
  {
  }

  lemma StepFirst(s: System, a: Action, rest: seq<Action>)
    requires Enabled(s, a) && Possible(Steps(), Do(s, a), rest)
    ensures Possible(Steps(), s, [a] + rest)
    ensures After(Steps(), s, [a] + rest) == After(Steps(), Do(s, a), rest)
  {
    hide Do, Enabled;
    OneStep(Steps(), s, a);
    RunThenRun(Steps(), s, [a], rest);
  }

  /** Between two sections of the holder nothing happens to the kernel but that time passes. */
  lemma {:induction false} HolderFindsItsKernel(s: Joint, steps: seq<Step>, c: Admission.ControlId)
    requires Admission.TokenInv(s.gates) && Admission.HasToken(s.gates, c)
    requires Possible(JointSteps(), s, steps) && KeepsToken(steps, c)
    requires forall step | step in steps && step.Section? :: step.c != c
    ensures var s' := After(JointSteps(), s, steps).runtime;
      s' == s.runtime.(now := s'.now) && s.runtime.now <= s'.now
    decreases |steps|
  {
    hide Admission.TokenInv, Admission.HasToken, Admission.Do, Admission.Enabled, Do, Enabled;
    if steps != [] {
      HolderHolds(s, c, steps[0]);
      assert steps == [steps[0]] + steps[1..] && steps[0] in steps;
      if steps[0].Section? {
        OnlyHolderActs(s, c, steps[0].c, steps[0].section);
      }
      HolderFindsItsKernel(DoStep(s, steps[0]), steps[1..], c);
    }
  }

  /** Whoever holds the token of a shared runtime and runs a controlled change has the outcome of a lone caller,
      whatever the other Hosts and late callbacks do meanwhile. */
  lemma HolderDrives(s: Joint, steps: seq<Step>, c: Admission.ControlId, w: Wish, policy: Policy, ttl: int, x: Script)
    requires Admission.Reachable(s.gates) && Admission.HasToken(s.gates, c)
    requires Possible(JointSteps(), s, steps) && KeepsToken(steps, c)
    requires KernelInv(s.runtime.kernel, s.runtime.now) && s.runtime.kernel.phase == Observed && c !in s.runtime.calls
    requires s.runtime.now <= x.reserveAt <= x.startAt <= x.completeAt <= x.judgeAt
    requires KernelPart(steps) == DriveActions(c, s.runtime.kernel, w, policy, ttl, x)
    ensures forall step | step in steps && step.Section? :: step.c == c
    ensures var s' := After(JointSteps(), s, steps);
      && s'.runtime.kernel == DriveSteps(s.runtime.kernel, w, policy, ttl, x).0
      && s'.runtime.calls == s.runtime.calls && Admission.HasToken(s'.gates, c)
  {
    hide Admission.HasToken, KernelInv, DriveActions, DriveSteps, KernelPart, KeepsToken, JointSteps, Steps;
    Admission.ReachableInv(s.gates);
    hide Admission.TokenInv;
    TurnIsOwn(s, steps, c);
    var now := DriveYields(s.runtime, c, w, policy, ttl, x);
  }
}
