/** The provider's vocabulary, and the layer that carries it over the kernel boundary. */
module Adapters {
  import opened Results
  import opened Evidence

  datatype ResourceRef = ResourceRef(id: string, fingerprint: string)

  predicate ValidRef(r: ResourceRef) {
    r.id != "" && r.fingerprint != ""
  }

  datatype Sighting = Sighting(resource: ResourceRef, version: Word64, token: string, observedAt: Time)

  datatype Execution = Execution(executionId: Digest, evidence: string)

  datatype ExecuteRequest = ExecuteRequest(
    executionId: Digest, target: ResourceRef, desired: ResourceRef, before: Option<Sighting>, payload: string)

  datatype VerifyRequest = VerifyRequest(
    executionId: Digest, expected: ResourceRef, before: Option<Sighting>, execution: Option<Execution>)

  datatype Verification = Verification(resource: ResourceRef, version: Word64, token: string, verifiedAt: Time)

  /** What the provider is told about the authorised state. */
  function BeforeObservation(o: Observation): Sighting {
    Sighting(ResourceRef(o.subject, o.state), o.version, o.token, o.observedAt)
  }

  function ToKernel(s: Sighting): Result<Observation, Error> {
    NewObservation(s.resource.id, s.resource.fingerprint, s.version, s.token, s.observedAt)
  }

  /** Nothing of a valid observation is lost or altered on its way to the provider. */
  lemma BeforeObservationIsFaithful(o: Observation)
    ensures Valid(o) <==> ToKernel(BeforeObservation(o)) == Ok(o)
  {
    var r := ToKernel(BeforeObservation(o));
    if r == Ok(o) {
      assert Validate(r.value) == None;
    }
    if Valid(o) {
      assert ObservationFingerprint(o) == Some(o.fingerprint);
    }
  }

  function BindExecute(request: ExecuteRequest, before: Observation): ExecuteRequest {
    request.(before := Some(BeforeObservation(before)))
  }

  /** providerExecutor.Execute: `cancelled` says that the context was done on entry. */
  function ExecutionAnswer(request: ExecuteRequest, cancelled: bool, answer: Result<Execution, string>)
      : (r: ExecutionResult)
    ensures r.success <==> !cancelled && answer.Ok? && answer.value.executionId == request.executionId
    ensures r.success ==> r.executionId == request.executionId && r.evidence == answer.value.evidence
  {
    if cancelled then NO_RESULT.(message := "context done")
    else match answer
      case Err(e) => NO_RESULT.(message := e)
      case Ok(execution) =>
        if execution.executionId != request.executionId
        then NO_RESULT.(message := "provider returned mismatched execution ID")
        else ExecutionResult(execution.executionId, true, "provider execution completed", execution.evidence)
  }

  function BindVerify(request: VerifyRequest, authority: Authority, before: Observation, execution: ExecutionResult)
      : VerifyRequest
  {
    VerifyRequest(authority.executionId, request.expected, Some(BeforeObservation(before)),
                  Some(Execution(execution.executionId, execution.evidence)))
  }

  /** providerVerifier.Verify: None is an error. */
  function VerificationAnswer(request: VerifyRequest, cancelled: bool, answer: Result<Verification, string>)
      : (r: Option<Observation>)
    ensures r.Some? ==> answer.Ok? && !cancelled && Valid(r.value)
                        && ResourceRef(r.value.subject, r.value.state) == request.expected
                        && BeforeObservation(r.value) == Sighting(request.expected, answer.value.version,
                                                                  answer.value.token, answer.value.verifiedAt)
    ensures r.None? <==> cancelled || answer.Err? || answer.value.resource != request.expected
                         || !ValidRef(request.expected) || answer.value.verifiedAt == ZERO_TIME
                         || !Encodable(answer.value.verifiedAt)
  {
    if cancelled || answer.Err? then None
    else
      var v := answer.value;
      if v.resource != request.expected || v.verifiedAt == ZERO_TIME then None
      else match NewObservation(v.resource.id, v.resource.fingerprint, v.version, v.token, v.verifiedAt)
        case Ok(o) => Some(o)
        case Err(_) => None
  }
}
