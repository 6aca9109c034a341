/**
 Host and Git provider together: one controlled change of a file, with the provider's own
 methods as the callbacks. The provider's strings and the kernel's are related by functions
 of which nothing is assumed.
 */
module GitControl {
  import opened Results
  import opened Evidence
  import opened KernelSteps
  import opened Interleaving
  import opened Cooperation
  import opened Adapters
  import opened ControlSteps
  import opened ControlSuccess
  import opened LifecycleCalls
  import opened HostControl
  import opened GitText
  import opened GitFormats
  import opened GitTrees
  import opened GitRepository
  import opened GitPaths
  import opened GitClaims
  import Git = GitProvider

  datatype Translation = Translation(
    idText: Digest -> string,
    fingerprint: string -> GitClaims.Fingerprint,
    text: GitClaims.Fingerprint -> string,
    payload: string -> Option<Git.FilePayload>,
    encode: Option<Git.ExecutionEvidence> -> string,
    decode: string -> Option<Git.ExecutionEvidence>)
  {
    /** Nothing that the provider says is lost on its way through the kernel. */
    ghost predicate Faithful() {
      && (forall f :: fingerprint(text(f)) == f)
      && (forall e :: decode(encode(e)) == e)
      && (forall id :: Git.PlainId(idText(id)))
    }

    function Ref(r: ResourceRef): Git.ResourceRef {
      Git.ResourceRef(r.id, fingerprint(r.fingerprint))
    }

    function Seen(s: Option<Sighting>): Git.FileSighting {
      match s
      case None => Git.FileSighting(Git.ResourceRef("", fingerprint("")), "")
      case Some(seen) => Git.FileSighting(Ref(seen.resource), seen.token)
    }

    function ToExecute(q: ExecuteRequest): Git.ExecuteRequest {
      Git.ExecuteRequest(idText(q.executionId), Ref(q.target), Ref(q.desired), Seen(q.before), payload(q.payload))
    }

    function ToVerify(q: VerifyRequest): Git.VerifyRequest {
      Git.VerifyRequest(idText(q.executionId), Ref(q.expected), Seen(q.before),
                        match q.execution
                        case None => Git.Execution("", None)
                        case Some(e) => Git.Execution(idText(e.executionId), decode(e.evidence)))
    }
  }

  /** Nobody else moved the branch and no command failed. */
  ghost predicate Smooth(a: Store, b: Store) {
    Alone(a, b) && a.failures == b.failures
  }

  lemma SmoothParts(a: Store, b: Store, c: Store)
    requires Smooth(a, c) && Later(a, b) && Later(b, c)
    ensures Smooth(a, b) && Smooth(b, c)
  {
    forall i | |a.moves| <= i < |b.moves| ensures b.moves[i].own {
      assert c.moves[i].own;
    }
  }

  /** Commands that only watch the branch leave it alone in a smooth run. */
  lemma SmoothWatch(a: Store, b: Store)
    requires Smooth(a, b) && Watched(a, b)
    ensures Undisturbed(a, b) && a.tip == b.tip
  {
    AloneBetween(a, a, b, b);
  }

  class FileControl {
    const host: Host
    const provider: Git.FileProvider
    const t: Translation

    constructor (host: Host, provider: Git.FileProvider, t: Translation)
      ensures this.host == host && this.provider == provider && this.t == t
    {
      this.host, this.provider, this.t := host, provider, t;
    }

    /** What the provider is asked to do for an attempt. */
    function Asked(w: Wish, a: Authority, before: Observation): Git.ExecuteRequest
      requires w.parties.Provider?
    {
      t.ToExecute(BindExecute(w.parties.request.(executionId := a.executionId), before))
    }

    /** What the provider is asked to confirm. */
    function Questioned(w: Wish, a: Authority, before: Observation, result: ExecutionResult): Git.VerifyRequest {
      t.ToVerify(BindVerify(VerifyRequest(EMPTY, w.desired, None, None), a, before, result))
    }

    /** The answer to the question is yes, as things stand. */
    ghost predicate Stands(q: Git.VerifyRequest)
      reads provider.repo
      requires WellFounded(provider.repo.objects, provider.repo.hash)
    {
      provider.Confirmed(provider.repo.objects, q) && provider.repo.tip == Some(provider.Claimed(q).value.2)
    }

    /** What the executor reports can be confirmed. */
    lemma PreparedStands(w: Wish, a: Authority, before: Observation, e: Git.Execution, made: (ObjectId, ObjectId))
      requires provider.repo.Valid() && w.parties.Provider? && w.parties.request.desired == w.desired && t.Faithful()
      requires provider.Prepared(provider.repo.objects, Asked(w, a, before), made.0, made.1)
      requires provider.repo.tip == Some(made.1)
      requires e == Git.Execution(t.idText(a.executionId),
                                  Some(Git.ExecutionEvidence(t.idText(a.executionId), made.0, made.1)))
      ensures Stands(Questioned(w, a, before, ExecutionResult(a.executionId, true, "", t.encode(e.evidence))))
    {
      provider.PreparedIsConfirmed(provider.repo.objects, Asked(w, a, before), made.0, made.1);
      hide Git.FileProvider.Confirmed, Git.FileProvider.Claimed, Git.FileProvider.Prepared, WellFounded, Chained;
      assert t.decode(t.encode(e.evidence)) == e.evidence;
      var result := ExecutionResult(a.executionId, true, "", t.encode(e.evidence));
      assert Questioned(w, a, before, result) == provider.Question(Asked(w, a, before), e);
    }

    /** The message of a result is not asked about. */
    lemma MessageIsNotAsked(w: Wish, a: Authority, before: Observation, result: ExecutionResult)
      ensures Questioned(w, a, before, result)
              == Questioned(w, a, before, ExecutionResult(result.executionId, true, "", result.evidence))
    {
    }

    /** The executor callback. In a smooth run it carries out what nothing stands in the way of. */
    method RunExecute(w: Wish, a: Authority, before: Observation, ghost x: Script)
      returns (result: ExecutionResult, ghost answered: Script)
      requires provider.repo.Valid() && w.parties.Provider?
      modifies provider.repo
      ensures provider.repo.Valid() && Later(old(provider.repo.Snapshot()), provider.repo.Snapshot())
      ensures result == ResultOf(w, a, answered)
      ensures answered == x.(executorCancelled := answered.executorCancelled, executorAnswer := answered.executorAnswer)
      ensures Smooth(old(provider.repo.Snapshot()), provider.repo.Snapshot()) && t.Faithful()
              && w.parties.request.desired == w.desired
              && provider.Executable(old(provider.repo.Snapshot()), Asked(w, a, before)) ==>
                result.success && Stands(Questioned(w, a, before, result))
    {
      hide OwnMoves, WellFounded, Chained, Later, Alone, Git.FileProvider.Executable, Git.FileProvider.Prepared,
        Stands, Questioned, Translation.Faithful;
      ghost var s0 := provider.repo.Snapshot();
      var q := w.parties.request.(executionId := a.executionId);
      var e, made, moved, reported, readBack := provider.Execute(t.ToExecute(BindExecute(q, before)));
      var answer: Result<Execution, string> :=
        if e.Ok? then Ok(Execution(a.executionId, t.encode(e.value.evidence))) else Err("git");
      result := ExecutionAnswer(BindExecute(q, before), false, answer);
      answered := x.(executorCancelled := false, executorAnswer := answer);
      if Smooth(s0, provider.repo.Snapshot()) && t.Faithful() && w.parties.request.desired == w.desired
         && provider.Executable(s0, Asked(w, a, before)) {
        PreparedStands(w, a, before, e.value, made.value);
        MessageIsNotAsked(w, a, before, result);
      }
    }

    /** Runtime.Start around it. */
    method Start(w: Wish, a: Authority) returns (r: Result<ExecutionResult, Error>, ghost script: Script)
      requires provider.repo.Valid() && w.parties.Provider?
      modifies host.runtime, host.clock, provider.repo
      ensures provider.repo.Valid() && Later(old(provider.repo.Snapshot()), provider.repo.Snapshot())
      ensures host.runtime.lifecycleToken == old(host.runtime.lifecycleToken)
      ensures old(host.clock.now) <= script.startAt <= script.completeAt == host.clock.now
      ensures r.Ok? ==> r.value == ResultOf(w, a, script)
      ensures (host.runtime.Snapshot(), if r.Ok? then None else Some(r.error)) ==
                StartAlone(old(host.runtime.Snapshot()), ResultOf(w, a, script), script.startAt, script.completeAt)
      ensures r.Ok? ==> old(host.runtime.observation).Some?
      ensures r.Ok? && Smooth(old(provider.repo.Snapshot()), provider.repo.Snapshot()) && t.Faithful()
              && w.parties.request.desired == w.desired
              && provider.Executable(old(provider.repo.Snapshot()),
                                     Asked(w, a, old(host.runtime.observation).value)) ==>
                r.value.success && Stands(Questioned(w, a, old(host.runtime.observation).value, r.value))
    {
      hide FinishStep, ValidFor, ExecutionAnswer, OwnMoves, WellFounded, Chained, Later, Smooth,
        Git.FileProvider.Executable, Stands, Questioned, Translation.Faithful;
      script := *;
      var startAt := host.clock.Read();
      script := script.(startAt := startAt, completeAt := startAt);
      var ticket := host.runtime.BeginStart(startAt);
      if ticket.Err? {
        LaterItself(provider.repo.Snapshot());
        return Err(ticket.error), script;
      }
      ghost var begun := host.runtime.Snapshot();
      var result;
      result, script := RunExecute(w, a, host.runtime.observation.value, script);
      assert host.runtime.Snapshot() == begun;
      var end := host.clock.Read();
      host.runtime.FinishStart(ticket.value.done, result, end);
      script := script.(completeAt := end);
      r := Ok(result);
    }

    /** The verifier callback; `q` is what the provider was asked. Undisturbed, it answers with evidence
        when the answer is yes. */
    method RunVerify(w: Wish, c: Claim, ghost x: Script)
      returns (evidence: Option<Observation>, ghost answered: Script, ghost q: Git.VerifyRequest)
      requires provider.repo.Valid() && w.parties.Provider?
      modifies provider.repo, host.clock
      ensures provider.repo.Valid() && Watched(old(provider.repo.Snapshot()), provider.repo.Snapshot())
      ensures old(host.clock.now) <= host.clock.now
      ensures evidence == EvidenceOf(w, answered)
      ensures answered == x.(verifierCancelled := answered.verifierCancelled, verifierAnswer := answered.verifierAnswer)
      ensures q == Questioned(w, c.authority, c.before, c.execution)
      ensures evidence.Some? ==> Vouched(q, evidence.value) && InTime(answered, evidence.value, host.clock.now)
      ensures old(Stands(Questioned(w, c.authority, c.before, c.execution)))
              && Undisturbed(old(provider.repo.Snapshot()), provider.repo.Snapshot())
              && ValidRef(w.desired) && 0 < old(host.clock.now) && host.clock.now < FIRST_UNENCODABLE ==>
                evidence.Some?
    {
      hide OwnMoves, WellFounded, Chained, Later, Watched, Git.FileProvider.Confirmed, Git.FileProvider.Claimed;
      var request := BindVerify(VerifyRequest(EMPTY, w.desired, None, None), c.authority, c.before, c.execution);
      q := t.ToVerify(request);
      var v := provider.Verify(t.ToVerify(request));
      var at := host.clock.Read();
      var answer: Result<Verification, string> :=
        if v.Ok? then Ok(Verification(w.desired, 0, v.value.token, at)) else Err("git");
      evidence := VerificationAnswer(request, false, answer);
      answered := x.(verifierCancelled := false, verifierAnswer := answer);
      BindingKeepsAnswer(w.desired, c, answered);
      hide NewObservation;
    }

    /** The evidence has the time of the provider's answer. */
    ghost predicate InTime(x: Script, evidence: Observation, now: Time) {
      x.verifierAnswer.Ok? && evidence.observedAt == x.verifierAnswer.value.verifiedAt && evidence.observedAt <= now
    }

    /** Runtime.Verify around it. */
    method Verify(w: Wish) returns (err: Option<Failure>, ghost script: Script, ghost q: Git.VerifyRequest)
      requires host.runtime.phase == Started && Completed(host.runtime.Snapshot()) && Bound(host.runtime.Snapshot())
      requires !host.runtime.verificationActive && provider.repo.Valid() && w.parties.Provider?
      modifies host.runtime, host.clock, provider.repo
      ensures provider.repo.Valid() && Watched(old(provider.repo.Snapshot()), provider.repo.Snapshot())
      ensures host.runtime.lifecycleToken == old(host.runtime.lifecycleToken)
      ensures old(host.clock.now) <= script.judgeAt == host.clock.now
      ensures script.waitCancelled ==>
                err == Some(VerifyCancelled) && host.runtime.Snapshot() == old(host.runtime.Snapshot())
      ensures !script.waitCancelled ==>
        var (k, e) := VerifyAlone(old(host.runtime.Snapshot()), EvidenceOf(w, script), script.judgeAt);
        host.runtime.Snapshot() == k && err == if e.Some? then Some(Rejected(e.value)) else None
      ensures old(host.runtime.observation).Some? && old(host.runtime.authority).Some?
      ensures err.None? ==> !script.waitCancelled && EvidenceOf(w, script).Some?
      ensures !script.waitCancelled ==>
        && q == Questioned(w, old(host.runtime.authority).value, old(host.runtime.observation).value,
                           old(host.runtime.executionResult))
        && (EvidenceOf(w, script).Some? ==>
              Vouched(q, EvidenceOf(w, script).value) && InTime(script, EvidenceOf(w, script).value, script.judgeAt))
        && (old(Stands(Questioned(w, host.runtime.authority.value, host.runtime.observation.value,
                                  host.runtime.executionResult)))
            && Undisturbed(old(provider.repo.Snapshot()), provider.repo.Snapshot())
            && ValidRef(w.desired) && 0 < old(host.clock.now) && host.clock.now < FIRST_UNENCODABLE ==>
              EvidenceOf(w, script).Some?)
    {
      hide Proves, VerificationAnswer, BeginVerifyStep, AdmitStep, FailStep, AcceptStep, OwnMoves, WellFounded,
        Chained, Later, Watched, Vouched, Stands, Questioned;
      script := *;
      q := *;
      script := script.(waitCancelled := false, judgeAt := host.clock.now);
      ghost var k, s0 := host.runtime.Snapshot(), provider.repo.Snapshot();
      StartedCanBeClaimed(k);
      hide Bound;
      WatchedItself(s0);
      var claim, cancelled := AwaitExecutor(host.runtime, true);
      if cancelled {
        return Some(VerifyCancelled), script.(waitCancelled := true), q;
      }
      var c := claim.value;
      ghost var admitted := host.runtime.Snapshot();
      ClaimIsBound(k, c);
      var evidence;
      evidence, script, q := RunVerify(w, c, script);
      var now := host.clock.Read();
      assert host.runtime.Snapshot() == admitted;
      script := script.(judgeAt := now);
      err := Judge(host.runtime, c, evidence, now);
    }

    /** The provider is asked about this change, on the observation that was authorised. */
    ghost predicate Asks(q: Git.VerifyRequest, w: Wish, before: Observation, a: Authority) {
      && q.before == t.Seen(Some(BeforeObservation(before))) && q.expected == t.Ref(w.desired)
      && q.executionId == t.idText(a.executionId)
    }

    /** Verify and Commit of an executed attempt. */
    method Settle(w: Wish) returns (failure: Option<Failure>, ghost script: Script, ghost q: Git.VerifyRequest)
      requires host.runtime.phase == Started && Completed(host.runtime.Snapshot()) && Bound(host.runtime.Snapshot())
      requires !host.runtime.verificationActive && provider.repo.Valid() && w.parties.Provider?
      modifies host.runtime, host.runtime.store, host.clock, provider.repo
      ensures provider.repo.Valid() && Watched(old(provider.repo.Snapshot()), provider.repo.Snapshot())
      ensures host.runtime.lifecycleToken == old(host.runtime.lifecycleToken)
      ensures old(host.clock.now) <= script.judgeAt == host.clock.now
      ensures (host.runtime.Snapshot(), failure) == JudgeSteps(old(host.runtime.Snapshot()), w, script)
      ensures old(host.runtime.observation).Some? && old(host.runtime.authority).Some?
      ensures failure.None? ==> !script.waitCancelled && EvidenceOf(w, script).Some?
      ensures !script.waitCancelled ==>
        && q == Questioned(w, old(host.runtime.authority).value, old(host.runtime.observation).value,
                           old(host.runtime.executionResult))
        && (EvidenceOf(w, script).Some? ==>
              Vouched(q, EvidenceOf(w, script).value) && InTime(script, EvidenceOf(w, script).value, script.judgeAt))
        && (old(Stands(Questioned(w, host.runtime.authority.value, host.runtime.observation.value,
                                  host.runtime.executionResult)))
            && Undisturbed(old(provider.repo.Snapshot()), provider.repo.Snapshot())
            && ValidRef(w.desired) && 0 < old(host.clock.now) && host.clock.now < FIRST_UNENCODABLE ==>
              EvidenceOf(w, script).Some?)
    {
      hide VerifyAlone, Bound, VerificationAnswer, CommitStep, OwnMoves, WellFounded, Chained, Later, Watched, Vouched,
        Stands, Questioned;
      failure, script, q := Verify(w);
      if failure.Some? {
        return;
      }
      var conflict := host.runtime.Commit();
      failure := if conflict.Some? then Some(Rejected(conflict.value)) else None;
    }

    /** Nothing stands in the way of an attempt on the observation `before` of the branch's present tip, which is
        not its own parent. */
    ghost predicate Clear(s: Store, w: Wish, a: Authority, before: Observation)
      requires WellFounded(s.objects, provider.repo.hash) && w.parties.Provider?
    {
      && t.Faithful() && w.parties.request.desired == w.desired && ValidRef(w.desired) && w.desired.id == before.subject
      && provider.Executable(s, Asked(w, a, before)) && NotOwnParent(s)
    }

    ghost predicate NotOwnParent(s: Store) {
      && s.tip.Some? && CommitAt(s.objects, provider.repo.hash, s.tip.value).Some?
      && CommitAt(s.objects, provider.repo.hash, s.tip.value).value.parents != [s.tip.value]
    }

    /** The wait for the executor is not cut short and the clock moves on before the verifier reads it. */
    ghost predicate Timely(x: Script) {
      !x.waitCancelled && (x.verifierAnswer.Ok? ==> x.completeAt < x.verifierAnswer.value.verifiedAt)
    }

    /** The new commit is another than the observed tip, so the token has changed. */
    lemma VouchedShows(s: Store, w: Wish, a: Authority, before: Observation, q: Git.VerifyRequest, e: Observation,
                       completedAt: Time, now: Time)
      requires provider.repo.Valid() && WellFounded(s.objects, provider.repo.hash) && Later(s, provider.repo.Snapshot())
      requires w.parties.Provider? && Clear(s, w, a, before) && Asks(q, w, before, a) && Vouched(q, e)
      requires Valid(e) && ResourceRef(e.subject, e.state) == w.desired && completedAt < e.observedAt <= now
      ensures Shows(e, before, w.desired, completedAt, now)
    {
      var (path, tip, result) := provider.Claimed(q).value;
      TipTokenRoundTrip(before.token, tip, provider.repo.hash);
      TipTokenRoundTrip(before.token, s.tip.value, provider.repo.hash);
      CommitIsStable(s.objects, provider.repo.objects, provider.repo.hash, tip);
      assert TipToken(tip)[|TIP_PREFIX|..] == tip && TipToken(result)[|TIP_PREFIX|..] == result;
      hide WellFounded, Matches, TipToken, ParseTip, CommitAt, SameElsewhere, Git.FileProvider.Locate,
        Translation.Faithful, Valid;
    }

    /** Start, Verify and Commit of a reserved attempt. In a smooth run it succeeds if nothing stands in its way. */
    method Fulfil(w: Wish, a: Authority) returns (failure: Option<Failure>, ghost script: Script,
                                                  ghost q: Git.VerifyRequest)
      requires KernelInv(host.runtime.Snapshot(), host.clock.now) && host.runtime.phase == Reserved
      requires host.runtime.authority == Some(a) && provider.repo.Valid() && w.parties.Provider?
      requires host.runtime.observation.Some? && host.runtime.observation.value.subject == w.desired.id
      requires host.runtime.transition.Some? && host.runtime.transition.value.after == w.desired.fingerprint
      modifies host.runtime, host.runtime.store, host.clock, provider.repo
      ensures provider.repo.Valid() && Later(old(provider.repo.Snapshot()), provider.repo.Snapshot())
      ensures host.runtime.lifecycleToken == old(host.runtime.lifecycleToken)
      ensures (host.runtime.Snapshot(), failure) == FulfilSteps(old(host.runtime.Snapshot()), w, a, script)
      ensures old(host.clock.now) <= script.startAt <= script.completeAt <= script.judgeAt == host.clock.now
      ensures failure.None? ==>
        && EvidenceOf(w, script).Some? && Vouched(q, EvidenceOf(w, script).value)
        && Asks(q, w, old(host.runtime.observation).value, a)
      ensures Smooth(old(provider.repo.Snapshot()), provider.repo.Snapshot())
              && Clear(old(provider.repo.Snapshot()), w, a, old(host.runtime.observation).value)
              && Timely(script) && host.clock.now < FIRST_UNENCODABLE
              && (a.expiresAt == ZERO_TIME || script.startAt < a.expiresAt)
              && old(host.runtime.store.root) == old(host.runtime.observation).value.state ==>
                failure.None?
    {
      hide StartAlone, KernelInv, ResultOf, JudgeSteps, OwnMoves, WellFounded, Chained, Later, Vouched, Asks,
        VerificationAnswer, Stands, Questioned, Clear, Smooth, Git.FileProvider.Executable, Watched,
        Translation.Faithful;
      ghost var k, from, s0 := host.runtime.Snapshot(), host.clock.now, provider.repo.Snapshot();
      ghost var before := k.observation.value;
      q := *;
      ClearMeans(s0, w, a, before);
      var result;
      result, script := Start(w, a);
      ghost var begun, s1 := script, provider.repo.Snapshot();
      script := script.(judgeAt := host.clock.now, waitCancelled := false);
      SameResult(w, a, begun, host.clock.now);
      if result.Err? {
        StartRefuses(k, a, ResultOf(w, a, begun), from, begun.startAt, begun.completeAt);
        return Some(Rejected(result.error)), script, q;
      }
      if !result.value.success {
        return Some(ExecutionFailed), script, q;
      }
      StartedIsReady(k, ResultOf(w, a, begun), from, begun.startAt, begun.completeAt);
      SameQuestion(w, a, before, result.value);
      TimeIsPositive(k, from);
      ghost var judged;
      failure, judged, q := Settle(w);
      ghost var s2 := provider.repo.Snapshot();
      WatchedIsLater(s1, s2);
      LaterThen(s0, s1, s2);
      QuestionAsks(w, a, before, result.value);
      script := Joined(begun, judged);
      if Smooth(s0, s2) && Clear(s0, w, a, before) && Timely(script) && host.clock.now < FIRST_UNENCODABLE
         && (a.expiresAt == ZERO_TIME || script.startAt < a.expiresAt) && k.root == before.state {
        SmoothParts(s0, s1, s2);
        SmoothWatch(s1, s2);
        var e := EvidenceOf(w, script).value;
        EvidenceIsValid(w, script);
        VouchedShows(s0, w, a, before, q, e, script.completeAt, script.judgeAt);
        PromiseIsKept(k, w, a, script, before, from);
      }
    }

    lemma ClearMeans(s: Store, w: Wish, a: Authority, before: Observation)
      requires WellFounded(s.objects, provider.repo.hash) && w.parties.Provider?
      ensures Clear(s, w, a, before) ==>
                t.Faithful() && w.parties.request.desired == w.desired && provider.Executable(s, Asked(w, a, before))
                && ValidRef(w.desired)
    {
    }

    /** Consuming the authority does not change the question. */
    lemma SameQuestion(w: Wish, a: Authority, before: Observation, result: ExecutionResult)
      ensures Questioned(w, a.(consumed := true), before, result) == Questioned(w, a, before, result)
    {
    }

    lemma QuestionAsks(w: Wish, a: Authority, before: Observation, result: ExecutionResult)
      ensures Asks(Questioned(w, a, before, result), w, before, a)
    {
    }

    /** From an accepted observation to the end of the attempt. */
    method Drive(w: Wish, ttl: int) returns (failure: Option<Failure>, ghost script: Script, ghost q: Git.VerifyRequest)
      requires KernelInv(host.runtime.Snapshot(), host.clock.now) && host.runtime.phase == Observed
      requires host.runtime.observation.Some? && host.runtime.observation.value.subject == w.desired.id
      requires provider.repo.Valid() && w.parties.Provider?
      modifies host.runtime, host.runtime.store, host.clock, provider.repo
      ensures provider.repo.Valid() && Later(old(provider.repo.Snapshot()), provider.repo.Snapshot())
      ensures host.runtime.lifecycleToken == old(host.runtime.lifecycleToken)
      ensures Some(script.seen) == old(host.runtime.observation)
      ensures old(host.clock.now) <= script.reserveAt <= script.startAt <= script.completeAt <= script.judgeAt
      ensures script.judgeAt == host.clock.now
      ensures (host.runtime.Snapshot(), failure) == DriveSteps(old(host.runtime.Snapshot()), w, host.runtime.policy,
                                                               ttl, script)
      ensures failure.None? ==>
        && EvidenceOf(w, script).Some? && Vouched(q, EvidenceOf(w, script).value)
        && host.runtime.authority.Some? && Asks(q, w, script.seen, host.runtime.authority.value)
      ensures Smooth(old(provider.repo.Snapshot()), provider.repo.Snapshot())
              && (forall a :: Clear(old(provider.repo.Snapshot()), w, a, script.seen))
              && Timely(script) && host.clock.now < FIRST_UNENCODABLE
              && Sanctioned(script.seen, Proposal(w.desired.id, w.desired.fingerprint), host.runtime.policy)
              && ttl >= 0 && (ttl > 0 ==> host.clock.now < old(host.clock.now) + ttl)
              && old(host.runtime.store.root) == script.seen.state ==>
                failure.None?
    {
      hide OwnMoves, WellFounded, Chained, Later, Vouched, Asks, VerificationAnswer, FulfilSteps, Clear, Smooth,
        KernelInv, AuthorizeSteps, Sanctioned;
      ghost var k, from, s0 := host.runtime.Snapshot(), host.clock.now, provider.repo.Snapshot();
      LaterItself(s0);
      q := *;
      var p := Proposal(w.desired.id, w.desired.fingerprint);
      var authority, aborted := Authorize(host.runtime, host.clock, p, ttl, false);
      EnvironmentKeeps(k, k.root, from, host.clock.now);
      TimeIsPositive(k, from);
      assert k.(root := k.root) == k;
      AuthorizeOutcome(k, p, host.runtime.policy, ttl, host.clock.now, aborted);
      AuthorizeSucceedsExactly(k, p, host.runtime.policy, ttl, host.clock.now, aborted);
      ghost var reserveAt, k1 := host.clock.now, host.runtime.Snapshot();
      ReservedHasParts(k1, reserveAt);
      if authority.Err? {
        script := *;
        script := script.(seen := k.observation.value, aborted := aborted, reserveAt := reserveAt,
                          startAt := reserveAt, completeAt := reserveAt, judgeAt := reserveAt);
        return Some(authority.error), script, q;
      }
      failure, script, q := Fulfil(w, authority.value);
      FulfilIgnores(k1, w, authority.value, script, k.observation.value, aborted, reserveAt);
      FulfilKeepsAuthority(k1, w, authority.value, script);
      script := script.(seen := k.observation.value, aborted := aborted, reserveAt := reserveAt);
      if failure.None? {
        SameAsker(q, w, script.seen, authority.value, host.runtime.authority.value);
      }
    }

    lemma SameAsker(q: Git.VerifyRequest, w: Wish, before: Observation, a: Authority, a': Authority)
      requires a.executionId == a'.executionId
      ensures Asks(q, w, before, a) <==> Asks(q, w, before, a')
    {
    }

    /** What a nil error says about the branch: at the last look it stood at a commit other than the observed
        tip, which carries the execution ID of this attempt, whose only parent is that tip, that changes no other
        file and has a file with the desired fingerprint at the target. */
    ghost predicate Changed(req: ControlRequest, tip: ObjectId, result: ObjectId)
      reads provider.repo, host.runtime
      requires WellFounded(provider.repo.objects, provider.repo.hash)
    {
      && host.runtime.authority.Some? && provider.Locate(req.target.id).Some?
      && provider.repo.tip == Some(result) && result != tip
      && Accomplished(provider.repo.objects, provider.repo.hash, provider.Locate(req.target.id).value, tip, result,
                      t.idText(host.runtime.authority.value.executionId), t.fingerprint(req.desired.fingerprint))
    }

    lemma WhatIsChanged(
        req: ControlRequest, q: Git.VerifyRequest, evidence: Observation, seen: Observation, tip: ObjectId)
      requires provider.repo.Valid() && WellPut(req) && Vouched(q, evidence)
      requires host.runtime.authority.Some? && Asks(q, WishOf(req), seen, host.runtime.authority.value)
      requires seen.token == TipToken(tip) && evidence.token != seen.token
      ensures Changed(req, tip, provider.Claimed(q).value.2)
    {
      var (path, before, result) := provider.Claimed(q).value;
      assert q.before.token == seen.token && q.expected == t.Ref(req.desired);
      TipTokenRoundTrip(seen.token, before, provider.repo.hash);
      assert TipToken(tip)[|TIP_PREFIX|..] == tip && TipToken(before)[|TIP_PREFIX|..] == before;
      hide WellFounded, Accomplished, Matches, TipToken, ParseTip, Git.FileProvider.Locate;
    }

    /** The changed file is the desired one, mode for mode and byte for byte, whatever file its fingerprint
        was made of; its commit is a child of the observed tip alone, and its message is this attempt's. */
    lemma ChangedIsExact(req: ControlRequest, tip: ObjectId, result: ObjectId, mode: string, content: string)
      requires provider.repo.Valid() && Changed(req, tip, result)
      requires FileStateFingerprint(mode, content) == Some(t.fingerprint(req.desired.fingerprint))
      ensures FileIs(provider.repo.objects, provider.repo.hash, result, provider.Locate(req.target.id).value, mode,
                     content)
      ensures var c := CommitAt(provider.repo.objects, provider.repo.hash, result).value;
        && c.parents == [tip]
        && c.message == ExecutionCommitMessage(t.idText(host.runtime.authority.value.executionId))
    {
      MatchedFileIsExact(provider.repo.objects, provider.repo.hash, result, provider.Locate(req.target.id).value, mode,
                         content, t.fingerprint(req.desired.fingerprint));
      hide WellFounded, Matches, FileIs, FileStateFingerprint, SameElsewhere;
    }

    /** The branch can take the change: the file at its tip is the one that the runtime's root `root` stands for,
        the payload is the desired file, and the listings on the way can be written again. */
    ghost predicate Replaceable(s: Store, req: ControlRequest, root: string)
      requires WellFounded(s.objects, provider.repo.hash)
    {
      && t.Faithful() && WellPut(req) && t.text(t.fingerprint(root)) == root != ""
      && NotOwnParent(s) && ValidObject(s.tip.value, provider.repo.hash)
      && provider.Locate(req.target.id).Some? && t.payload(req.payload).Some?
      && FileStateFingerprint(t.payload(req.payload).value.mode, t.payload(req.payload).value.content)
         == Some(t.fingerprint(req.desired.fingerprint))
      && var path := provider.Locate(req.target.id).value;
         && Matches(s.objects, provider.repo.hash, s.tip.value, path, t.fingerprint(root))
         && Rewritable(s.objects, provider.repo.hash, CommitAt(s.objects, provider.repo.hash, s.tip.value).value.tree,
                       Split(path, '/'))
    }

    lemma ReplaceableIsStable(a: Store, b: Store, req: ControlRequest, root: string)
      requires WellFounded(a.objects, provider.repo.hash) && WellFounded(b.objects, provider.repo.hash)
      requires Later(a, b) && a.tip == b.tip && Replaceable(a, req, root)
      ensures Replaceable(b, req, root)
    {
      hide WellFounded, Grows, Matches, CommitAt, Rewritable, Translation.Faithful, Git.FileProvider.Locate, Split,
        ValidObject;
      provider.ExecutableIsStable(a.objects, b.objects, a.tip.value, provider.Locate(req.target.id).value,
                                  t.fingerprint(root));
    }

    lemma ReplaceableIsClear(s: Store, req: ControlRequest, root: string, a: Authority, before: Observation)
      requires WellFounded(s.objects, provider.repo.hash) && Replaceable(s, req, root)
      requires before.subject == req.target.id && before.state == root && before.token == TipToken(s.tip.value)
      ensures Clear(s, WishOf(req), a, before)
    {
      TipTokenRoundTrip(before.token, s.tip.value, provider.repo.hash);
      assert Git.PlainId(t.idText(a.executionId));
      hide WellFounded, Matches, CommitAt, Rewritable, Git.FileProvider.Locate, Git.PlainId, Split, ValidObject,
        ParseTip, TipToken, FileStateFingerprint;
    }

    lemma ReplaceableIsWellPut(s: Store, req: ControlRequest, root: string)
      requires WellFounded(s.objects, provider.repo.hash)
      ensures Replaceable(s, req, root) ==> WellPut(req)
    {
    }

    /** What the caller expects is what an observation of the tip says. */
    predicate Expected(req: ControlRequest, root: string, tip: ObjectId) {
      MatchesExpected(req.expected, Sighting(ResourceRef(req.target.id, root), 0, TipToken(tip), ZERO_TIME))
    }

    /** The provider's observation, as the Host takes it. */
    method Look(req: ControlRequest, ghost root: string) returns (r: Result<Observation, ControlError>,
                                                                  ghost tip: ObjectId)
      requires provider.repo.Valid()
      modifies provider.repo, host.clock
      ensures provider.repo.Valid() && old(host.clock.now) <= host.clock.now
      ensures Watched(old(provider.repo.Snapshot()), provider.repo.Snapshot())
      ensures r.Ok? ==>
        && r.value.token == TipToken(tip) && Held(old(provider.repo.Snapshot()), provider.repo.Snapshot(), tip)
        && Valid(r.value) && r.value.subject == req.target.id
        && old(host.clock.now) <= r.value.observedAt <= host.clock.now
      ensures Undisturbed(old(provider.repo.Snapshot()), provider.repo.Snapshot())
              && Replaceable(old(provider.repo.Snapshot()), req, root)
              && Expected(req, root, old(provider.repo.tip).value)
              && 0 < old(host.clock.now) && host.clock.now < FIRST_UNENCODABLE ==>
                r.Ok? && r.value.state == root && Some(tip) == old(provider.repo.tip)
    {
      hide OwnMoves, WellFounded, Chained, Later, Watched, Held, Matches, Validate, CommitAt, Rewritable,
        Translation.Faithful, Split, ValidObject, TipToken;
      ghost var s0 := provider.repo.Snapshot();
      var look;
      look, tip := provider.Observe(req.target.id);
      var at := host.clock.Read();
      if look.Err? {
        return Err(ObserveFailed), tip;
      }
      assert Replaceable(s0, req, root) && Undisturbed(s0, provider.repo.Snapshot()) ==>
               look.value == Git.FileSighting(Git.ResourceRef(req.target.id, t.fingerprint(root)),
                                              TipToken(s0.tip.value));
      TokenNamesTip(tip, s0.tip);
      var seen := Sighting(ResourceRef(req.target.id, t.text(look.value.resource.fingerprint)), 0, look.value.token,
                           at);
      if !Acceptable(req, seen) {
        return Err(ObserveFailed), tip;
      }
      r := Ok(ToKernel(seen).value);
    }

    lemma VouchedIsClaimed(q: Git.VerifyRequest, evidence: Observation)
      requires provider.repo.Valid() && Vouched(q, evidence)
      ensures provider.Claimed(q).Some?
    {
    }

    /** The attempt on an accepted observation of `tip`. */
    method Attempt(req: ControlRequest, ghost tip: ObjectId)
      returns (failure: Option<Failure>, ghost script: Script, ghost result: ObjectId)
      requires KernelInv(host.runtime.Snapshot(), host.clock.now) && host.runtime.phase == Observed
      requires host.runtime.observation.Some? && host.runtime.observation.value.token == TipToken(tip)
      requires host.runtime.observation.value.subject == req.target.id
      requires provider.repo.Valid() && WellPut(req)
      modifies host.runtime, host.runtime.store, host.clock, provider.repo
      ensures KernelInv(host.runtime.Snapshot(), host.clock.now) && Quiescent(host.runtime.Snapshot())
      ensures provider.repo.Valid() && Later(old(provider.repo.Snapshot()), provider.repo.Snapshot())
      ensures old(host.clock.now) <= host.clock.now
      ensures failure.None? ==>
        && Delivered(old(host.runtime.Snapshot()), host.runtime.Snapshot(), WishOf(req), script, host.clock.now)
        && Changed(req, tip, result)
      ensures failure.Some? ==> host.runtime.store.root == old(host.runtime.store.root)
      ensures Smooth(old(provider.repo.Snapshot()), provider.repo.Snapshot()) && Timely(script)
              && Replaceable(old(provider.repo.Snapshot()), req, old(host.runtime.store.root))
              && old(provider.repo.tip) == Some(tip)
              && old(host.runtime.observation).value.state == old(host.runtime.store.root)
              && Sanctioned(old(host.runtime.observation).value, Proposal(req.desired.id, req.desired.fingerprint),
                            host.runtime.policy)
              && req.ttl >= 0 && (req.ttl > 0 ==> host.clock.now < old(host.clock.now) + req.ttl)
              && host.clock.now < FIRST_UNENCODABLE ==>
                failure.None?
    {
      hide OwnMoves, WellFounded, Chained, Later, Vouched, Bound, Channels, Asks, Changed, KernelInv, Smooth, Clear,
        Sanctioned, Proves, DriveSteps, Stranded, VerificationAnswer, TipToken, ExecutionAnswer, Replaceable, Timely;
      result := "";
      ghost var k, from, s0 := host.runtime.Snapshot(), host.clock.now, provider.repo.Snapshot();
      ghost var seen := k.observation.value;
      var w := WishOf(req);
      if Replaceable(s0, req, k.root) && s0.tip == Some(tip) && seen.state == k.root {
        forall a ensures Clear(s0, w, a, seen) {
          ReplaceableIsClear(s0, req, k.root, a, seen);
        }
      }
      ghost var q;
      failure, script, q := Drive(w, req.ttl);
      EnvironmentKeeps(k, k.root, from, script.reserveAt);
      assert k.(root := k.root) == k;
      DriveOutcome(k, w, host.runtime.policy, req.ttl, script, host.clock.now);
      if failure.None? {
        VouchedIsClaimed(q, EvidenceOf(w, script).value);
        result := provider.Claimed(q).value.2;
        TipTokenIsSomething(tip);
        WhatIsChanged(req, q, EvidenceOf(w, script).value, script.seen, tip);
      }
    }

    /** The runtime can take the change: its token is there and the observation opens an attempt. */
    ghost predicate Open(req: ControlRequest)
      reads host.runtime, host.clock
    {
      && host.runtime.lifecycleToken && host.runtime.phase != Started && host.runtime.phase != Verified
      && (host.runtime.observation.Some? ==> host.runtime.observation.value.subject == req.target.id)
      && (host.runtime.phase == Recovery ==> host.runtime.executionCompletedAt < host.clock.now)
    }

    /** The policy allows the change on every observation of the state `root`. */
    ghost predicate Willing(req: ControlRequest, root: string) {
      forall o | Valid(o) && o.subject == req.target.id && o.state == root ::
        Sanctioned(o, Proposal(req.desired.id, req.desired.fingerprint), host.runtime.policy)
    }

    /** One controlled change of a file, from admission to commit. A nil error means that it is there. When the
        runtime is open, the branch can take the change, the policy is willing and nobody interferes, the
        error is nil. */
    method Control(req: ControlRequest)
      returns (r: Option<ControlError>, ghost script: Script, ghost tip: ObjectId, ghost result: ObjectId)
      requires KernelInv(host.runtime.Snapshot(), host.clock.now) && Quiescent(host.runtime.Snapshot())
      requires provider.repo.Valid()
      modifies host.runtime, host.runtime.store, host.clock, provider.repo
      ensures KernelInv(host.runtime.Snapshot(), host.clock.now) && Quiescent(host.runtime.Snapshot())
      ensures provider.repo.Valid()
      ensures r.None? ==>
        && Delivered(old(host.runtime.Snapshot()), host.runtime.Snapshot(), WishOf(req), script, host.clock.now)
        && Held(old(provider.repo.Snapshot()), provider.repo.Snapshot(), tip) && Changed(req, tip, result)
      ensures r.Some? ==> host.runtime.store.root == old(host.runtime.store.root)
      ensures old(Open(req)) && Replaceable(old(provider.repo.Snapshot()), req, old(host.runtime.store.root))
              && Expected(req, old(host.runtime.store.root), old(provider.repo.tip).value)
              && Willing(req, old(host.runtime.store.root))
              && Smooth(old(provider.repo.Snapshot()), provider.repo.Snapshot()) && Timely(script)
              && req.ttl >= 0 && (req.ttl > 0 ==> host.clock.now < old(host.clock.now) + req.ttl)
              && host.clock.now < FIRST_UNENCODABLE ==>
                r.None?
    {
      hide OwnMoves, WellFounded, Chained, Later, Held, Bound, Channels, Changed, KernelInv, EnterSteps, TipToken,
        Smooth, Sanctioned, Replaceable, Timely, Expected, Watched, Valid, Delivered;
      script, result, tip := *, "", "";
      if !WellPut(req) {
        ReplaceableIsWellPut(provider.repo.Snapshot(), req, host.runtime.store.root);
        return Some(BadRequest), script, tip, result;
      }
      if !host.runtime.lifecycleToken {
        return Some(NotAdmitted), script, tip, result;
      }
      host.runtime.lifecycleToken := false;
      ghost var s0, k0, from := provider.repo.Snapshot(), host.runtime.Snapshot(), host.clock.now;
      TimeIsPositive(k0, from);
      var look;
      look, tip := Look(req, k0.root);
      ghost var s1 := provider.repo.Snapshot();
      SmoothLook(s0, s1);
      EnvironmentKeeps(k0, k0.root, from, host.clock.now);
      assert k0.(root := k0.root) == k0;
      if look.Err? {
        return Some(look.error), script, tip, result;
      }
      ghost var looked := host.clock.now;
      r := host.Enter(look.value);
      EnvironmentKeeps(k0, k0.root, from, host.clock.now);
      EnterSucceedsExactly(k0, look.value, host.clock.now);
      if r.Some? {
        return;
      }
      if Replaceable(s0, req, k0.root) && s0.tip == s1.tip {
        WatchedIsLater(s0, s1);
        ReplaceableIsStable(s0, s1, req, k0.root);
      }
      ghost var k1 := host.runtime.Snapshot();
      var failure;
      failure, script, result := Attempt(req, tip);
      ghost var s2 := provider.repo.Snapshot();
      WatchedIsLater(s0, s1);
      LaterThen(s0, s1, s2);
      if Smooth(s0, s2) {
        SmoothParts(s0, s1, s2);
        SmoothLook(s0, s1);
      }
      HeldBefore(s0, s1, s2, tip);
      DeliveredFromRoot(k0, k1, host.runtime.Snapshot(), WishOf(req), script, host.clock.now);
      r := if failure.Some? then Some(Failed(failure.value)) else None;
    }

    /** The provider has confirmed the claim and the branch is at the result commit; the evidence is
        for that commit. */
    ghost predicate Vouched(q: Git.VerifyRequest, evidence: Observation)
      reads provider.repo
      requires WellFounded(provider.repo.objects, provider.repo.hash)
    {
      && provider.Confirmed(provider.repo.objects, q)
      && var result := provider.Claimed(q).value.2;
         provider.repo.tip == Some(result) && evidence.token == TipToken(result)
    }
  }

  lemma ReservedHasParts(k: Kernel, now: Time)
    requires KernelInv(k, now)
    ensures k.phase == Reserved ==> k.observation.Some? && k.transition.Some?
  {
  }

  /** A carried-out attempt still has the authority that it was begun under. */
  lemma FulfilKeepsAuthority(k: Kernel, w: Wish, a: Authority, x: Script)
    requires k.authority == Some(a)
    ensures var k' := FulfilSteps(k, w, a, x).0;
      k'.authority.Some? && k'.authority.value.executionId == a.executionId
  {
    hide ResultOf, EvidenceOf, Proves, ValidFor;
  }

  /** The verifier can be asked about an execution that has finished. */
  lemma StartedCanBeClaimed(k: Kernel)
    requires k.phase == Started && Completed(k) && Bound(k) && !k.verificationActive
    ensures k.observation.Some? && k.authority.Some?
    ensures BeginVerifyStep(k).1.Ok? && AdmitStep(BeginVerifyStep(k).0, BeginVerifyStep(k).1.value).1.Ok?
  {
    hide Valid, ValidateProposal, Authorizes, BindsTransition;
  }

  lemma StartRefuses(k: Kernel, a: Authority, result: ExecutionResult, from: Time, start: Time, end: Time)
    requires KernelInv(k, from) && from <= start <= end && k.phase == Reserved && k.authority == Some(a)
    requires StartAlone(k, result, start, end).1.Some?
    ensures k.observation.Some?
    ensures !((a.expiresAt == ZERO_TIME || start < a.expiresAt) && k.root == k.observation.value.state)
  {
    EnvironmentKeeps(k, k.root, from, start);
    assert k.(root := k.root) == k;
    hide KernelInv;
    ExecuteOutcome(k, result, start, end);
    BeginSucceedsExactly(k, start);
    hide StartAlone, BeginStep;
  }

  lemma EvidenceIsValid(w: Wish, x: Script)
    requires w.parties.Provider? && EvidenceOf(w, x).Some?
    ensures Valid(EvidenceOf(w, x).value)
    ensures ResourceRef(EvidenceOf(w, x).value.subject, EvidenceOf(w, x).value.state) == w.desired
  {
    hide NewObservation, Valid;
  }

  lemma PromiseIsKept(k: Kernel, w: Wish, a: Authority, x: Script, before: Observation, from: Time)
    requires KernelInv(k, from) && from <= x.startAt <= x.completeAt <= x.judgeAt
    requires k.phase == Reserved && k.authority == Some(a) && k.observation == Some(before)
    requires k.transition.Some? && k.transition.value.after == w.desired.fingerprint && before.subject == w.desired.id
    requires (a.expiresAt == ZERO_TIME || x.startAt < a.expiresAt) && k.root == before.state
    requires w.parties.Provider? && ResultOf(w, a, x).success && !x.waitCancelled
    requires EvidenceOf(w, x).Some? && Shows(EvidenceOf(w, x).value, before, w.desired, x.completeAt, x.judgeAt)
    ensures FulfilSteps(k, w, a, x).1.None?
  {
    var y := x.(seen := before);
    EnvironmentKeeps(k, k.root, from, x.startAt);
    assert k.(root := k.root) == k;
    FulfilIgnores(k, w, a, x, before, x.aborted, x.reserveAt);
    assert x.(seen := before, aborted := x.aborted, reserveAt := x.reserveAt) == y;
    assert Executes(w, a.executionId, y) <==> ResultOf(w, a, x).success;
    assert EvidenceOf(w, y) == EvidenceOf(w, x);
    hide KernelInv, FulfilSteps, EvidenceOf, ResultOf, Executes, Shows;
    FulfilSucceedsExactly(k, w, a, y);
  }

  lemma TokenNamesTip(tip: ObjectId, other: Option<ObjectId>)
    ensures other.Some? && TipToken(tip) == TipToken(other.value) ==> other == Some(tip)
  {
    assert TipToken(tip)[|TIP_PREFIX|..] == tip;
    assert other.Some? ==> TipToken(other.value)[|TIP_PREFIX|..] == other.value;
  }

  lemma SmoothLook(a: Store, b: Store)
    requires Watched(a, b)
    ensures Smooth(a, b) ==> Undisturbed(a, b) && a.tip == b.tip
  {
    if Smooth(a, b) {
      SmoothWatch(a, b);
    }
  }

  lemma TipTokenIsSomething(tip: ObjectId)
    ensures TipToken(tip) != ""
  {
  }
}
