/**
 The in-memory provider: one versioned resource, changed by executions and by other
 writers. The version is a 64-bit counter that wraps around.
 */
module MemoryResource {
  import opened Results
  import opened Evidence
  import opened Adapters

  const WRAP: nat := 0x1_0000_0000_0000_0000

  datatype Refusal = NoExecutionId | ContextEnded | WrongResource | Changed | NoPayload | NotBound | NotExpected

  datatype State = State(id: string, fingerprint: string, executionId: Digest, version: Word64)

  datatype Operation =
    | Attempt(request: ExecuteRequest)
    | Overwrite(fingerprint: string)

  function Successor(version: Word64): Word64 {
    (version + 1) % WRAP
  }

  /** Apart from its time, which is the clock's. */
  function ObserveOn(s: State, now: Time): Sighting {
    Sighting(ResourceRef(s.id, s.fingerprint), s.version, "", now)
  }

  /** A request that was not bound carries the zero observation. */
  function BeforeOf(request: ExecuteRequest): Sighting {
    if request.before.Some? then request.before.value else Sighting(ResourceRef("", ""), 0, "", ZERO_TIME)
  }

  function ExecuteOn(s: State, request: ExecuteRequest): (State, Option<Refusal>) {
    var before := BeforeOf(request);
    if request.executionId == EMPTY then (s, Some(NoExecutionId))
    else if before.resource.id != request.target.id || before.resource != ResourceRef(s.id, s.fingerprint)
            || before.version != s.version then
      (s, Some(Changed))
    else if request.payload == "" then (s, Some(NoPayload))
    else (State(s.id, request.payload, request.executionId, Successor(s.version)), None)
  }

  function VerifyOn(s: State, id: Digest, expected: ResourceRef): Option<Refusal> {
    if id == EMPTY then Some(NoExecutionId)
    else if s.executionId != id then Some(NotBound)
    else if expected != ResourceRef(s.id, s.fingerprint) then Some(NotExpected)
    else None
  }

  class Resource {
    var id: string
    var fingerprint: string
    var executionId: Digest
    var version: Word64

    function Value(): State
      reads this
    {
      State(id, fingerprint, executionId, version)
    }

    constructor (id: string, fingerprint: string)
      requires id != "" && fingerprint != ""
      ensures Value() == State(id, fingerprint, EMPTY, 1)
    {
      this.id, this.fingerprint, executionId, version := id, fingerprint, EMPTY, 1;
    }

    static method New(id: string, fingerprint: string) returns (r: Option<Resource>)
      ensures r.Some? <==> id != "" && fingerprint != ""
      ensures r.Some? ==> fresh(r.value) && r.value.Value() == State(id, fingerprint, EMPTY, 1)
    {
      if id == "" || fingerprint == "" {
        return None;
      }
      var resource := new Resource(id, fingerprint);
      r := Some(resource);
    }

    method Observe(ended: bool, target: string, now: Time) returns (r: Result<Sighting, Refusal>)
      ensures r.Ok? <==> !ended && target == id
      ensures r.Ok? ==> r.value == ObserveOn(Value(), now)
    {
      if ended {
        return Err(ContextEnded);
      }
      if target != id {
        return Err(WrongResource);
      }
      r := Ok(Sighting(ResourceRef(id, fingerprint), version, "", now));
    }

    method Execute(ended: bool, request: ExecuteRequest) returns (r: Result<Digest, Refusal>)
      modifies this
      ensures ended ==> r.Err? && Value() == old(Value())
      ensures !ended ==>
                (Value(), if r.Err? then Some(r.error) else None) == ExecuteOn(old(Value()), request)
      ensures r.Ok? ==> r.value == request.executionId
    {
      if request.executionId == EMPTY {
        return Err(NoExecutionId);
      }
      if ended {
        return Err(ContextEnded);
      }
      var before := BeforeOf(request);
      if before.resource.id != request.target.id || id != before.resource.id
         || fingerprint != before.resource.fingerprint || version != before.version {
        return Err(Changed);
      }
      if request.payload == "" {
        return Err(NoPayload);
      }
      fingerprint := request.payload;
      version := Successor(version);
      executionId := request.executionId;
      r := Ok(request.executionId);
    }

    method Verify(ended: bool, request: VerifyRequest, now: Time) returns (r: Result<Verification, Refusal>)
      ensures r.Ok? <==> !ended && VerifyOn(Value(), request.executionId, request.expected) == None
      ensures r.Ok? ==> r.value == Verification(request.expected, version, "", now)
    {
      if request.executionId == EMPTY {
        return Err(NoExecutionId);
      }
      if ended {
        return Err(ContextEnded);
      }
      if executionId != request.executionId {
        return Err(NotBound);
      }
      if id != request.expected.id || fingerprint != request.expected.fingerprint {
        return Err(NotExpected);
      }
      r := Ok(Verification(ResourceRef(id, fingerprint), version, "", now));
    }

    method Set(fingerprint: string)
      modifies this
      ensures Value() == Apply(old(Value()), Overwrite(fingerprint))
    {
      this.fingerprint := fingerprint;
      version := Successor(version);
      executionId := EMPTY;
    }
  }

  // ---- Any sequence of operations by anyone ----

  function Apply(s: State, op: Operation): State {
    match op
    case Attempt(request) => ExecuteOn(s, request).0
    case Overwrite(fingerprint) => State(s.id, fingerprint, EMPTY, Successor(s.version))
  }

  predicate Mutates(s: State, op: Operation) {
    op.Overwrite? || ExecuteOn(s, op.request).1 == None
  }

  function Run(s: State, ops: seq<Operation>): State
    decreases |ops|
  {
    if ops == [] then s else Run(Apply(s, ops[0]), ops[1..])
  }

  function Mutations(s: State, ops: seq<Operation>): nat
    decreases |ops|
  {
    if ops == [] then 0 else (if Mutates(s, ops[0]) then 1 else 0) + Mutations(Apply(s, ops[0]), ops[1..])
  }

  function LastMutation(s: State, ops: seq<Operation>): Option<Operation>
    decreases |ops|
  {
    if ops == [] then None
    else
      var later := LastMutation(Apply(s, ops[0]), ops[1..]);
      if later.None? && Mutates(s, ops[0]) then Some(ops[0]) else later
  }

  lemma {:induction false} RunInTwo(s: State, a: seq<Operation>, b: seq<Operation>)
    ensures Run(s, a + b) == Run(Run(s, a), b)
    decreases |a|
  {
    if a == [] {
      assert a + b == b;
    } else {
      assert (a + b)[1..] == a[1..] + b;
      RunInTwo(Apply(s, a[0]), a[1..], b);
    }
  }

  lemma SuccessorWraps(version: Word64, n: nat)
    ensures (Successor(version) + n) % WRAP == (version + (1 + n)) % WRAP
  {
    if version + 1 == WRAP {
      assert Successor(version) == 0;
    }
  }

  /** The version counts mutations, modulo 2^64. */
  lemma {:induction false} VersionCountsMutations(s: State, ops: seq<Operation>)
    ensures Run(s, ops).id == s.id
    ensures Run(s, ops).version == (s.version + Mutations(s, ops)) % WRAP
    ensures Mutations(s, ops) == 0 ==> Run(s, ops) == s
    decreases |ops|
  {
    if ops != [] {
      var s' := Apply(s, ops[0]);
      VersionCountsMutations(s', ops[1..]);
      SuccessorWraps(s.version, Mutations(s', ops[1..]));
      assert s'.version == (if Mutates(s, ops[0]) then Successor(s.version) else s.version) && s'.id == s.id;
      hide Apply, Mutates, Successor;
    }
  }

  /** Exactly when an execution on an old observation goes through: the number of mutations
      since is a multiple of 2^64 and the fingerprint is the observed one again. */
  lemma StaleExecutionExactly(s: State, now: Time, ops: seq<Operation>, request: ExecuteRequest)
    requires request.executionId != EMPTY && request.payload != "" && request.target.id == s.id
    requires request.before == Some(ObserveOn(s, now))
    ensures ExecuteOn(Run(s, ops), request).1 == None <==>
              Mutations(s, ops) % WRAP == 0 && Run(s, ops).fingerprint == s.fingerprint
  {
    VersionCountsMutations(s, ops);
  }

  /** No ABA below the wrap-around: an execution goes through only if nobody has changed the
      resource since the observation that it was authorised on. */
  lemma NoAba(s: State, now: Time, ops: seq<Operation>, request: ExecuteRequest)
    requires request.executionId != EMPTY && request.payload != "" && request.target.id == s.id
    requires request.before == Some(ObserveOn(s, now)) && Mutations(s, ops) < WRAP
    ensures ExecuteOn(Run(s, ops), request).1 == None <==> Mutations(s, ops) == 0
  {
    StaleExecutionExactly(s, now, ops, request);
    VersionCountsMutations(s, ops);
  }

  lemma {:induction false} ManySets(s: State, n: nat) returns (ops: seq<Operation>)
    ensures Mutations(s, ops) == n && Run(s, ops).fingerprint == s.fingerprint
    decreases n
  {
    ops := [];
    if n > 0 {
      var rest := ManySets(Apply(s, Overwrite(s.fingerprint)), n - 1);
      ops := [Overwrite(s.fingerprint)] + rest;
      assert ops[1..] == rest;
    }
  }

  /** At the wrap-around the guard does fail. */
  lemma AbaAtWrapAround(s: State, now: Time, request: ExecuteRequest)
    requires request.executionId != EMPTY && request.payload != "" && request.target.id == s.id
    requires request.before == Some(ObserveOn(s, now))
    ensures exists ops :: Mutations(s, ops) == WRAP && ExecuteOn(Run(s, ops), request).1 == None
  {
    var ops := ManySets(s, WRAP);
    StaleExecutionExactly(s, now, ops, request);
  }

  lemma {:induction false} ExecutionIdOfLastMutation(s: State, ops: seq<Operation>)
    ensures LastMutation(s, ops).None? <==> Mutations(s, ops) == 0
    ensures Run(s, ops).executionId ==
              match LastMutation(s, ops)
              case None => s.executionId
              case Some(Overwrite(_)) => EMPTY
              case Some(Attempt(request)) => request.executionId
    decreases |ops|
  {
    if ops != [] {
      ExecutionIdOfLastMutation(Apply(s, ops[0]), ops[1..]);
      VersionCountsMutations(Apply(s, ops[0]), ops[1..]);
    }
  }

  predicate Unused(id: Digest, ops: seq<Operation>) {
    forall i | 0 <= i < |ops| && ops[i].Attempt? :: ops[i].request.executionId != id
  }

  lemma {:induction false} LastMutationIsOneOfThem(s: State, ops: seq<Operation>)
    ensures LastMutation(s, ops).Some? ==> LastMutation(s, ops).value in ops
    decreases |ops|
  {
    if ops != [] {
      LastMutationIsOneOfThem(Apply(s, ops[0]), ops[1..]);
    }
  }

  /** With execution IDs used once, Verify confirms an execution exactly when it went through,
      set what is expected, and nobody has changed the resource since. */
  lemma VerifyMeansLastWriter(s: State, earlier: seq<Operation>, request: ExecuteRequest, later: seq<Operation>,
                              expected: ResourceRef)
    requires request.executionId != EMPTY && s.executionId != request.executionId
    requires Unused(request.executionId, earlier) && Unused(request.executionId, later)
    ensures VerifyOn(Run(s, earlier + [Attempt(request)] + later), request.executionId, expected) == None <==>
              && ExecuteOn(Run(s, earlier), request).1 == None
              && Mutations(Apply(Run(s, earlier), Attempt(request)), later) == 0
              && expected == ResourceRef(s.id, request.payload)
  {
    var s1, op := Run(s, earlier), Attempt(request);
    var s2 := Apply(s1, op);
    RunInTwo(s, earlier + [op], later);
    RunInTwo(s, earlier, [op]);
    assert Run(s1, [op]) == s2 by {
      assert Run(s2, []) == s2 && [op][1..] == [];
    }
    VersionCountsMutations(s, earlier);
    VersionCountsMutations(s2, later);
    ExecutionIdOfLastMutation(s, earlier);
    ExecutionIdOfLastMutation(s2, later);
    LastMutationIsOneOfThem(s, earlier);
    LastMutationIsOneOfThem(s2, later);
  }
}
