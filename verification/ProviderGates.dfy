/** Admission gates, one per provider name: the objects behind the gates of `HostAdmission`. */
module ProviderGates {
  import Admission = HostAdmission

  class ProviderGate {
    var busy: bool
    var owner: string

    constructor ()
      ensures !busy && owner == ""
    {
      busy, owner := false, "";
    }

    /** Admits exactly when nobody is inside; a refusal leaves the occupant alone. */
    method TryEnter(owner: string) returns (admitted: bool)
      modifies this
      ensures admitted <==> !old(busy)
      ensures busy && this.owner == if admitted then owner else old(this.owner)
    {
      if busy {
        return false;
      }
      busy := true;
      this.owner := owner;
      admitted := true;
    }

    method Leave()
      modifies this
      ensures !busy && owner == ""
    {
      busy := false;
      owner := "";
    }

    method CurrentOwner() returns (o: string)
      ensures o == owner
    {
      o := owner;
    }
  }

  class Gates {
    var gates: map<string, ProviderGate>

    /** Different providers never share a gate. */
    ghost predicate Valid()
      reads this
    {
      forall a, b | a in gates && b in gates && gates[a] == gates[b] :: a == b
    }

    constructor ()
      ensures Valid() && gates == map[]
    {
      gates := map[];
    }

    /** The gate of a provider is made on first use, free, and is the same ever after. */
    method ForProvider(name: string) returns (gate: ProviderGate)
      requires Valid()
      modifies this
      ensures Valid() && name in gates && gates[name] == gate
      ensures gates == old(gates)[name := gate]
      ensures name in old(gates) ==> gates == old(gates)
      ensures name !in old(gates) ==> fresh(gate) && !gate.busy
    {
      if name !in gates {
        var made := new ProviderGate();
        gates := gates[name := made];
      }
      gate := gates[name];
    }

    /** The gates of one Host in the state machine: a gate is busy exactly when its object is. */
    ghost predicate Represents(s: Admission.System, host: nat)
      reads this, gates.Values
    {
      forall name :: Admission.Gate(host, name) in s.gates <==> name in gates && gates[name].busy
    }

    /** The admission at the head of callProviderWithGrace, on the objects, is the step of the state machine. */
    method Enter(name: string, owner: string, ghost s: Admission.System, ghost host: nat,
                 ghost c: Admission.ControlId, ghost cb: Admission.CallbackId)
      returns (admitted: bool, gate: ProviderGate)
      requires Valid() && Represents(s, host) && Admission.Enabled(s, Admission.TryEnter(c, cb))
      requires s.controls[c].point.gate == Admission.Gate(host, name)
      modifies this, gates.Values
      ensures Valid() && Represents(Admission.Do(s, Admission.TryEnter(c, cb)), host)
      ensures admitted <==> Admission.Do(s, Admission.TryEnter(c, cb)).controls[c].point.Awaiting?
      ensures name in gates && gates[name] == gate && (admitted ==> gate.owner == owner)
    {
      gate := ForProvider(name);
      admitted := gate.TryEnter(owner);
    }

    /** The callback's goroutine leaves the gate that it was given. */
    method Exit(name: string, gate: ProviderGate, ghost s: Admission.System, ghost host: nat,
                ghost cb: Admission.CallbackId)
      requires Valid() && Represents(s, host) && Admission.Enabled(s, Admission.Leave(cb))
      requires s.callbacks[cb].gate == Admission.Gate(host, name) && name in gates && gates[name] == gate
      modifies gate
      ensures Valid() && Represents(Admission.Do(s, Admission.Leave(cb)), host)
    {
      gate.Leave();
    }

    /** No other step of any call or callback touches the gates, those at another Host's gates included. */
    lemma OtherStepsKeepGates(s: Admission.System, host: nat, a: Admission.Action)
      requires Represents(s, host) && Admission.Enabled(s, a) && !AtGateOf(s, host, a)
      ensures Represents(Admission.Do(s, a), host)
    {
    }

    /** The step enters or leaves one of this Host's gates. */
    ghost predicate AtGateOf(s: Admission.System, host: nat, a: Admission.Action)
      requires Admission.Enabled(s, a)
    {
      match a
      case TryEnter(c, _) => s.controls[c].point.gate.host == host
      case Leave(cb) => s.callbacks[cb].gate.host == host
      case _ => false
    }
  }
}
