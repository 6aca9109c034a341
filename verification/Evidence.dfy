/**
 The kernel's value types and its pure functions: observations, proposals,
 transitions, governance decisions and authorities.

 A fingerprint is a symbolic digest: it carries what was hashed, so two digests
 are equal exactly when their inputs are. `Text` is any other string that a
 caller may put in a fingerprint field; the empty string is one of them.
 */
module Evidence {
  import opened Results

  /** Nanoseconds since Go's zero time, 1 January of year 1. */
  type Time = int

  type Word64 = n: int | 0 <= n < 0x1_0000_0000_0000_0000

  const ZERO_TIME: Time := 0
  const DAY: int := 86_400_000_000_000
  /** encoding/json renders a time only when its year lies in 0..9999; year 0 is a leap year. */
  const FIRST_ENCODABLE: Time := -366 * DAY
  const FIRST_UNENCODABLE: Time := 3_652_059 * DAY

  datatype Error =
    | InvalidObservation
    | StaleEvidence
    | InvalidProposal
    | InvalidTransition
    | GovernanceDenied
    | AuthorityMissing
    | AuthorityExpired
    | AuthorityConsumed
    | AuthorityMismatch
    | VerificationFailed
    | CasConflict
    | InvalidLifecycle

  datatype Decision = Noop | Execute | Stale

  datatype Digest =
    | Text(text: string)
    | OfObservation(subject: string, state: string, version: Word64, token: string, at: Time)
    | OfProposal(subject: string, target: string)
    | OfTransition(subject: string, before: string, after: string,
                   observation: Digest, proposal: Digest, decision: Decision)
    | OfExecution(transition: Digest, now: Time)

  const EMPTY: Digest := Text("")

  datatype Observation = Observation(
    subject: string,
    state: string,
    version: Word64,
    token: string,
    observedAt: Time,
    fingerprint: Digest)

  predicate Encodable(at: Time) {
    FIRST_ENCODABLE <= at < FIRST_UNENCODABLE
  }

  function ObservationFingerprint(o: Observation): Option<Digest> {
    if Encodable(o.observedAt)
    then Some(OfObservation(o.subject, o.state, o.version, o.token, o.observedAt))
    else None
  }

  /** NewObservationWithConcurrencyToken: what it builds is exactly what Validate accepts. */
  function NewObservation(subject: string, state: string, version: Word64, token: string, at: Time)
      : (r: Result<Observation, Error>)
    ensures r.Ok? <==> subject != "" && state != "" && at != ZERO_TIME && Encodable(at)
    ensures r.Ok? ==> Validate(r.value) == None && r.value.subject == subject && r.value.state == state
                      && r.value.token == token && r.value.observedAt == at && r.value.version == version
    ensures r.Err? ==> r.error == InvalidObservation
  {
    if subject == "" || state == "" || at == ZERO_TIME then
      Err(InvalidObservation)
    else
      var o := Observation(subject, state, version, token, at, EMPTY);
      match ObservationFingerprint(o)
      case None => Err(InvalidObservation)
      case Some(fingerprint) => Ok(o.(fingerprint := fingerprint))
  }

  function Validate(o: Observation): Option<Error> {
    if o.subject == "" || o.state == "" || o.observedAt == ZERO_TIME || o.fingerprint == EMPTY then
      Some(InvalidObservation)
    else
      match ObservationFingerprint(o)
      case None => Some(InvalidObservation)
      case Some(fingerprint) => if fingerprint != o.fingerprint then Some(StaleEvidence) else None
  }

  predicate Valid(o: Observation) {
    Validate(o) == None
  }

  /** A valid observation is determined by its fingerprint: no field, the time included,
      can be altered without the alteration being detected. */
  lemma FingerprintBindsObservation(a: Observation, b: Observation)
    requires Valid(a) && a.fingerprint == b.fingerprint
    ensures Valid(b) <==> a == b
  {
    if Valid(b) {
      assert ObservationFingerprint(a) == Some(a.fingerprint);
      assert ObservationFingerprint(b) == Some(b.fingerprint);
    }
  }

  datatype Proposal = Proposal(subject: string, target: string)

  datatype NormalizedProposal = NormalizedProposal(subject: string, target: string, fingerprint: Digest)

  function Normalize(p: Proposal): (r: Result<NormalizedProposal, Error>)
    ensures r.Ok? <==> p.subject != "" && p.target != ""
    ensures r.Ok? ==> ValidateProposal(r.value) == None
  {
    if p.subject == "" || p.target == ""
    then Err(InvalidProposal)
    else Ok(NormalizedProposal(p.subject, p.target, OfProposal(p.subject, p.target)))
  }

  function ValidateProposal(n: NormalizedProposal): Option<Error> {
    if n.subject == "" || n.target == "" || n.fingerprint == EMPTY then Some(InvalidProposal)
    else if OfProposal(n.subject, n.target) != n.fingerprint then Some(StaleEvidence)
    else None
  }

  datatype Transition = Transition(
    id: Digest,
    subject: string,
    decision: Decision,
    before: string,
    after: string,
    observation: Digest,
    proposal: Digest,
    fingerprint: Digest)

  function Reconcile(o: Observation, p: NormalizedProposal): (r: Result<Transition, Error>)
    ensures r.Ok? <==> Valid(o) && ValidateProposal(p) == None && o.subject == p.subject
    ensures r.Ok? ==> (r.value.decision == Execute <==> r.value.before != r.value.after)
  {
    if Validate(o).Some? then Err(Validate(o).value)
    else if ValidateProposal(p).Some? then Err(ValidateProposal(p).value)
    else if o.subject != p.subject then Err(InvalidTransition)
    else
      var decision := if p.target == o.state then Noop else Execute;
      var fingerprint := OfTransition(o.subject, o.state, p.target, o.fingerprint, p.fingerprint, decision);
      Ok(Transition(fingerprint, o.subject, decision, o.state, p.target, o.fingerprint, p.fingerprint, fingerprint))
  }

  /** A transition's fingerprint determines the observation and the proposal behind it. */
  lemma TransitionBindsEvidence(o: Observation, p: NormalizedProposal, o': Observation, p': NormalizedProposal)
    requires Reconcile(o, p).Ok? && Reconcile(o', p').Ok?
    ensures Reconcile(o, p).value.fingerprint == Reconcile(o', p').value.fingerprint <==> o == o' && p == p'
  {
    if Reconcile(o, p).value.fingerprint == Reconcile(o', p').value.fingerprint {
      FingerprintBindsObservation(o, o');
    }
  }

  datatype GovernanceDecision = GovernanceDecision(
    allowed: bool,
    transition: Digest,
    observation: Digest,
    proposal: Digest)

  type Policy = Transition -> GovernanceDecision

  predicate BindsTransition(d: GovernanceDecision, t: Transition) {
    d.transition == t.fingerprint && d.observation == t.observation && d.proposal == t.proposal
  }

  /** The default policy: executable transitions only, decisions bound to the transition. */
  function AllowPolicy(t: Transition): GovernanceDecision {
    GovernanceDecision(t.decision == Execute, t.fingerprint, t.observation, t.proposal)
  }

  /** The zero expiry time means that the authority does not expire. */
  datatype Authority = Authority(
    executionId: Digest,
    transition: Digest,
    observation: Digest,
    proposal: Digest,
    createdAt: Time,
    expiresAt: Time,
    consumed: bool)

  function ValidFor(a: Authority, t: Transition, o: Observation, now: Time): Option<Error> {
    if a.executionId == EMPTY then Some(AuthorityMissing)
    else if a.consumed then Some(AuthorityConsumed)
    else if a.expiresAt != ZERO_TIME && now >= a.expiresAt then Some(AuthorityExpired)
    else if a.transition != t.fingerprint || a.observation != o.fingerprint || a.proposal != t.proposal then
      Some(AuthorityMismatch)
    else None
  }

  /** Evidence is opaque bytes that the kernel hands from the executor to the verifier. */
  datatype ExecutionResult = ExecutionResult(executionId: Digest, success: bool, message: string, evidence: string)

  const NO_RESULT: ExecutionResult := ExecutionResult(EMPTY, false, "", "")
}
