/** Runs of a state machine, whatever its states and actions are. */
module StateMachines {

  datatype Machine<!S, !A> = Machine(enabled: (S, A) -> bool, next: (S, A) -> S)

  predicate Possible<S, A>(m: Machine<S, A>, s: S, actions: seq<A>)
    decreases |actions|
  {
    actions == [] || (m.enabled(s, actions[0]) && Possible(m, m.next(s, actions[0]), actions[1..]))
  }

  function After<S, A>(m: Machine<S, A>, s: S, actions: seq<A>): S
    requires Possible(m, s, actions)
    decreases |actions|
  {
    if actions == [] then s else After(m, m.next(s, actions[0]), actions[1..])
  }

  /** Every state of a run, the first and the last included. */
  function Trace<S, A>(m: Machine<S, A>, s: S, actions: seq<A>): (t: seq<S>)
    requires Possible(m, s, actions)
    ensures |t| == |actions| + 1 && t[0] == s
    decreases |actions|
  {
    [s] + if actions == [] then [] else Trace(m, m.next(s, actions[0]), actions[1..])
  }

  lemma {:induction false} TraceIsARun<S, A>(m: Machine<S, A>, s: S, actions: seq<A>)
    requires Possible(m, s, actions)
    ensures var t := Trace(m, s, actions);
      && t[|actions|] == After(m, s, actions)
      && forall i | 0 <= i < |actions| :: m.enabled(t[i], actions[i]) && t[i + 1] == m.next(t[i], actions[i])
    decreases |actions|
  {
    if actions != [] {
      var rest := Trace(m, m.next(s, actions[0]), actions[1..]);
      TraceIsARun(m, m.next(s, actions[0]), actions[1..]);
      var t := Trace(m, s, actions);
      assert t == [s] + rest;
      forall i | 0 <= i < |actions| ensures m.enabled(t[i], actions[i]) && t[i + 1] == m.next(t[i], actions[i]) {
        if i > 0 {
          assert t[i] == rest[i - 1] && t[i + 1] == rest[i] && actions[i] == actions[1..][i - 1];
        }
      }
    }
  }

  ghost predicate Reaches<S, A(!new)>(m: Machine<S, A>, s: S, t: S) {
    exists actions :: Possible(m, s, actions) && After(m, s, actions) == t
  }

  /** What every step keeps, every run keeps. */
  lemma {:induction false} RunKeeps<S(!new), A(!new)>(m: Machine<S, A>, inv: S -> bool, s: S, actions: seq<A>)
    requires inv(s) && Possible(m, s, actions)
    requires forall t, a :: inv(t) && m.enabled(t, a) ==> inv(m.next(t, a))
    ensures inv(After(m, s, actions))
    decreases |actions|
  {
    if actions != [] {
      RunKeeps(m, inv, m.next(s, actions[0]), actions[1..]);
    }
  }

  lemma {:induction false} TraceKeeps<S(!new), A(!new)>(m: Machine<S, A>, inv: S -> bool, s: S, actions: seq<A>)
    requires inv(s) && Possible(m, s, actions)
    requires forall t, a :: inv(t) && m.enabled(t, a) ==> inv(m.next(t, a))
    ensures forall t | t in Trace(m, s, actions) :: inv(t)
    decreases |actions|
  {
    if actions != [] {
      TraceKeeps(m, inv, m.next(s, actions[0]), actions[1..]);
    }
  }

  lemma ReachedKeeps<S(!new), A(!new)>(m: Machine<S, A>, inv: S -> bool, s: S, t: S)
    requires inv(s) && Reaches(m, s, t)
    requires forall u, a :: inv(u) && m.enabled(u, a) ==> inv(m.next(u, a))
    ensures inv(t)
  {
    var actions :| Possible(m, s, actions) && After(m, s, actions) == t;
    RunKeeps(m, inv, s, actions);
  }

  /** Two runs, one after the other, are a run. */
  lemma {:induction false} RunThenRun<S, A>(m: Machine<S, A>, s: S, a: seq<A>, b: seq<A>)
    ensures Possible(m, s, a + b) <==> Possible(m, s, a) && Possible(m, After(m, s, a), b)
    ensures Possible(m, s, a + b) ==> After(m, s, a + b) == After(m, After(m, s, a), b)
    decreases |a|
  {
    if a == [] {
      assert a + b == b;
    } else {
      RunThenRun(m, m.next(s, a[0]), a[1..], b);
      assert (a + b)[1..] == a[1..] + b;
    }
  }

  lemma OneStep<S, A>(m: Machine<S, A>, s: S, a: A)
    ensures Possible(m, s, [a]) <==> m.enabled(s, a)
    ensures Possible(m, s, [a]) ==> After(m, s, [a]) == m.next(s, a)
  {
    assert Possible(m, m.next(s, a), []) && [a][1..] == [];
  }

  lemma ReachesItself<S, A(!new)>(m: Machine<S, A>, s: S)
    ensures Reaches(m, s, s)
  {
    assert Possible(m, s, []) && After(m, s, []) == s;
  }

  lemma ReachesOnward<S, A(!new)>(m: Machine<S, A>, s: S, t: S, a: A)
    requires Reaches(m, s, t) && m.enabled(t, a)
    ensures Reaches(m, s, m.next(t, a))
  {
    var actions :| Possible(m, s, actions) && After(m, s, actions) == t;
    OneStep(m, t, a);
    RunThenRun(m, s, actions, [a]);
  }

  lemma ReachesFurther<S, A(!new)>(m: Machine<S, A>, s: S, t: S, more: seq<A>)
    requires Reaches(m, s, t) && Possible(m, t, more)
    ensures Reaches(m, s, After(m, t, more))
  {
    var actions :| Possible(m, s, actions) && After(m, s, actions) == t;
    RunThenRun(m, s, actions, more);
  }
}
