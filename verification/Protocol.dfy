/** The request and decision values that every component exchanges. */
module Protocol {
  import opened Wrappers
  import opened Bytes

  /** A sealed request.  Of the envelope's parameters only those that the modelled code reads are kept. */
  datatype ActionRequest = ActionRequest(
    requestId: string,
    organizationId: string,
    actorId: string,
    deviceId: string,
    action: string,
    target: string,
    contentBytes: Option<u64>,
    policyAttempt: bool,
    editRecipe: bool,
    expiresAtUnixMs: u64,
    envelopeDigest: Digest32)
  {
    function Key(): RequestKey {
      RequestKey(requestId, envelopeDigest)
    }
  }

  /** What approvals, consumptions and recovery records are filed under. */
  datatype RequestKey = RequestKey(requestId: string, envelopeDigest: Digest32)

  datatype PolicyDecisionKind = Auto | Approval | Deny

  datatype PolicyDecision = PolicyDecision(
    requestId: string,
    kind: PolicyDecisionKind,
    policyId: string,
    reasonCode: string,
    requiredCapability: Option<string>,
    envelopeDigest: Digest32)
}
