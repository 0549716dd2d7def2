/** Signed approvals: the byte string an approver signs, and the registry of approvers. */
module Approvals {
  import opened Wrappers
  import opened Bytes
  import opened Protocol

  const MAX_FIELD_BYTES: nat := 4096
  const NONCE_BYTES: nat := 32
  const APPROVAL_DOMAIN: seq<byte> := Utf8("vor-commander:approval:v1") + [0]

  datatype ApprovalError =
    | Protocol
    | DecisionMismatch
    | DecisionDoesNotRequireApproval
    | InvalidChallenge
    | ChallengeMismatch
    | InvalidExpiry
    | ApprovalExpired
    | UnknownApprover
    | ApproverRevoked
    | InvalidPublicKey
    | UnsupportedRequiredCapability
    | InsufficientApproverAuthority
    | ApproverTenantMismatch
    | DuplicateApprover
    | InvalidSignature

  datatype ApprovalChallenge = ApprovalChallenge(
    requestId: string,
    envelopeDigest: Digest32,
    policyId: string,
    requiredCapability: Option<string>,
    expiresAtUnixMs: u64,
    approvalNonce: Digest32)

  datatype SignedApproval = SignedApproval(
    challenge: ApprovalChallenge,
    approverId: string,
    signature: seq<byte>)

  // ----------------------------------------------------------- the signed message

  predicate ValidText(value: string) {
    !Blank(value) && |Utf8(value)| <= MAX_FIELD_BYTES && '\0' !in value
  }

  /** One length-prefixed text field. */
  function TextField(value: string): seq<byte>
    requires ValidText(value)
  {
    BigEndian(|Utf8(value)|, 4) + Utf8(value)
  }

  predicate Encodable(challenge: ApprovalChallenge, approverId: string) {
    && ValidText(challenge.requestId)
    && ValidText(challenge.policyId)
    && (challenge.requiredCapability.Some? ==> ValidText(challenge.requiredCapability.value))
    && ValidText(approverId)
  }

  function CapabilityField(capability: Option<string>): seq<byte>
    requires capability.Some? ==> ValidText(capability.value)
  {
    match capability
    case Some(value) => [1] + TextField(value)
    case None => [0]
  }

  /** The fixed-width fields and the approver that close a message. */
  function ClosingBytes(expiresAt: u64, nonce: Digest32, approverId: string): seq<byte>
    requires ValidText(approverId)
  {
    BigEndian(expiresAt, 8) + (nonce + TextField(approverId))
  }

  /** The policy fields followed by the closing fields. */
  function PolicyBytes(policyId: string, capability: Option<string>, closing: seq<byte>): seq<byte>
    requires ValidText(policyId) && (capability.Some? ==> ValidText(capability.value))
  {
    TextField(policyId) + (CapabilityField(capability) + closing)
  }

  function MessageBody(challenge: ApprovalChallenge, approverId: string): seq<byte>
    requires Encodable(challenge, approverId)
  {
    var closing := ClosingBytes(challenge.expiresAtUnixMs, challenge.approvalNonce, approverId);
    var policy := PolicyBytes(challenge.policyId, challenge.requiredCapability, closing);
    TextField(challenge.requestId) + (challenge.envelopeDigest + policy)
  }

  /** The exact bytes that are signed. */
  function MessageBytes(challenge: ApprovalChallenge, approverId: string): seq<byte>
    requires Encodable(challenge, approverId)
  {
    APPROVAL_DOMAIN + MessageBody(challenge, approverId)
  }

  function ApprovalMessage(challenge: ApprovalChallenge, approverId: string): Result<seq<byte>, ApprovalError> {
    if Encodable(challenge, approverId) then Ok(MessageBytes(challenge, approverId)) else Err(InvalidChallenge)
  }

  /** A text that fits a field: not blank, at most 4096 bytes long, and without a NUL. */
  ghost predicate FitsField(value: string) {
    && (exists i :: 0 <= i < |value| && !IsWhitespace(value[i]))
    && |Utf8(value)| <= 4096
    && forall i | 0 <= i < |value| :: value[i] as int != 0
  }

  lemma ValidTextFits(value: string)
    ensures ValidText(value) <==> FitsField(value)
  {
    if !Blank(value) {
      var c :| c in value && !IsWhitespace(c);
      var i :| 0 <= i < |value| && value[i] == c;
    }
    if i :| 0 <= i < |value| && !IsWhitespace(value[i]) {
      assert value[i] in value;
    }
    if forall i | 0 <= i < |value| :: value[i] as int != 0 {
      assert '\0' !in value;
    }
  }

  /** The message starts with the domain and a NUL, and holds five fixed fields, the texts and their lengths. */
  lemma MessageLayout(challenge: ApprovalChallenge, approverId: string)
    requires Encodable(challenge, approverId)
    ensures Utf8("vor-commander:approval:v1") + [0] <= MessageBytes(challenge, approverId)
    ensures |MessageBytes(challenge, approverId)|
         == |Utf8("vor-commander:approval:v1")| + 86
            + |Utf8(challenge.requestId)| + |Utf8(challenge.policyId)| + |Utf8(approverId)|
            + if challenge.requiredCapability.Some? then 4 + |Utf8(challenge.requiredCapability.value)| else 0
  {
    var closing := ClosingBytes(challenge.expiresAtUnixMs, challenge.approvalNonce, approverId);
    assert |closing| == 44 + |Utf8(approverId)|;
    assert |MessageBody(challenge, approverId)|
        == 4 + |Utf8(challenge.requestId)| + 32 + 4 + |Utf8(challenge.policyId)|
           + |CapabilityField(challenge.requiredCapability)| + |closing|;
  }

  /** What can be signed at all: a challenge and an approver id whose texts all fit. */
  lemma SignableExactly(challenge: ApprovalChallenge, approverId: string)
    ensures var capability := challenge.requiredCapability;
            var r := ApprovalMessage(challenge, approverId);
            && (r.Ok? <==> && FitsField(challenge.requestId) && FitsField(challenge.policyId) && FitsField(approverId)
                           && (capability.Some? ==> FitsField(capability.value)))
            && (r.Err? ==> r.error == InvalidChallenge)
  {
    ValidTextFits(challenge.requestId);
    ValidTextFits(challenge.policyId);
    ValidTextFits(approverId);
    if challenge.requiredCapability.Some? {
      ValidTextFits(challenge.requiredCapability.value);
    }
  }

  lemma Assoc(a: seq<byte>, b: seq<byte>, c: seq<byte>)
    ensures (a + b) + c == a + (b + c)
  {
  }

  /** Fields pushed one after the other make the same bytes as the fields joined from the right. */
  lemma PushOrder(domain: seq<byte>, a: seq<byte>, b: seq<byte>, c: seq<byte>, d: seq<byte>, e: seq<byte>,
          f: seq<byte>, g: seq<byte>)
    ensures domain + a + b + c + d + e + f + g == domain + (a + (b + (c + (d + (e + (f + g))))))
  {
    Assoc(domain + a + b + c + d + e, f, g);
    Assoc(domain + a + b + c + d, e, f + g);
    Assoc(domain + a + b + c, d, e + (f + g));
    Assoc(domain + a + b, c, d + (e + (f + g)));
    Assoc(domain + a, b, c + (d + (e + (f + g))));
    Assoc(domain, a, b + (c + (d + (e + (f + g)))));
  }

  method PushText(out: seq<byte>, value: string) returns (r: Result<seq<byte>, ApprovalError>)
    ensures r == if ValidText(value) then Ok(out + TextField(value)) else Err(InvalidChallenge)
  {
    if !ValidText(value) {
      return Err(InvalidChallenge);
    }
    var bytes := Utf8(value);
    Assoc(out, BigEndian(|bytes|, 4), bytes);
    r := Ok(out + BigEndian(|bytes|, 4) + bytes);
  }

  /** The buffer as the source fills it, one field after the other, after the domain it starts from. */
  method BuildApprovalMessage(domain: seq<byte>, challenge: ApprovalChallenge, approverId: string)
    returns (r: Result<seq<byte>, ApprovalError>)
    ensures r == if Encodable(challenge, approverId) then Ok(domain + MessageBody(challenge, approverId))
                 else Err(InvalidChallenge)
  {
    var step := PushText(domain, challenge.requestId);
    if step.Err? { return step; }
    var out := step.value + challenge.envelopeDigest;
    step := PushText(out, challenge.policyId);
    if step.Err? { return step; }
    out := step.value;
    ghost var before := out;
    match challenge.requiredCapability {
      case Some(value) =>
        step := PushText(out + [1], value);
        if step.Err? { return step; }
        Assoc(out, [1], TextField(value));
        out := step.value;
      case None =>
        out := out + [0];
    }
    assert out == before + CapabilityField(challenge.requiredCapability);
    out := out + BigEndian(challenge.expiresAtUnixMs, 8);
    out := out + challenge.approvalNonce;
    r := PushText(out, approverId);
    if r.Ok? {
      PushOrder(domain, TextField(challenge.requestId), challenge.envelopeDigest, TextField(challenge.policyId),
                CapabilityField(challenge.requiredCapability), BigEndian(challenge.expiresAtUnixMs, 8),
                challenge.approvalNonce, TextField(approverId));
    }
  }

  // ------------------------------------------------------------------- the decoder

  function TakeText(b: seq<byte>): Option<(string, seq<byte>)> {
    if |b| < 4 then None
    else
      var length := FromBigEndian(b[..4]);
      if |b| - 4 < length then None
      else
        var text :- FromUtf8(b[4..4 + length]);
        Some((text, b[4 + length..]))
  }

  function TakeCapability(b: seq<byte>): Option<(Option<string>, seq<byte>)> {
    if b == [] then None
    else if b[0] == 0 then Some((None, b[1..]))
    else
      var field :- TakeText(b[1..]);
      Some((Some(field.0), field.1))
  }

  function TakeClosing(b: seq<byte>): Option<(u64, Digest32, string)> {
    if |b| < 40 || FromBigEndian(b[..8]) > U64_MAX then None
    else
      var approver :- TakeText(b[40..]);
      if approver.1 != [] then None else Some((FromBigEndian(b[..8]), b[8..40], approver.0))
  }

  function TakePolicy(b: seq<byte>): Option<(string, Option<string>, seq<byte>)> {
    var policy :- TakeText(b);
    var capability :- TakeCapability(policy.1);
    Some((policy.0, capability.0, capability.1))
  }

  function DecodeBody(b: seq<byte>): Option<(ApprovalChallenge, string)> {
    var request :- TakeText(b);
    if |request.1| < 32 then None
    else
      var policy :- TakePolicy(request.1[32..]);
      var closing :- TakeClosing(policy.2);
      Some((ApprovalChallenge(request.0, request.1[..32], policy.0, policy.1, closing.0, closing.1), closing.2))
  }

  /** Reads a signed message back into the challenge and the approver it names. */
  function DecodeMessage(b: seq<byte>): Option<(ApprovalChallenge, string)> {
    var n := |APPROVAL_DOMAIN|;
    if |b| < n || b[..n] != APPROVAL_DOMAIN then None else DecodeBody(b[n..])
  }

  lemma Cut(a: seq<byte>, b: seq<byte>)
    ensures (a + b)[..|a|] == a
    ensures (a + b)[|a|..] == b
  {
  }

  lemma TakeTextInverts(value: string, rest: seq<byte>)
    requires ValidText(value)
    ensures TakeText(TextField(value) + rest) == Some((value, rest))
  {
    var n := |Utf8(value)|;
    var b := TextField(value) + rest;
    Pow256Values();
    BigEndianRoundTrip(n, 4);
    Utf8RoundTrip(value);
    assert b[..4] == BigEndian(n, 4);
    assert b[4..4 + n] == Utf8(value);
    assert b[4 + n..] == rest;
  }

  lemma TakeCapabilityInverts(capability: Option<string>, rest: seq<byte>)
    requires capability.Some? ==> ValidText(capability.value)
    ensures TakeCapability(CapabilityField(capability) + rest) == Some((capability, rest))
  {
    match capability {
      case None =>
        Cut([0], rest);
      case Some(value) =>
        assert ([1] + TextField(value)) + rest == [1] + (TextField(value) + rest);
        Cut([1], TextField(value) + rest);
        TakeTextInverts(value, rest);
    }
  }

  lemma TakeClosingInverts(expiresAt: u64, nonce: Digest32, approverId: string)
    requires ValidText(approverId)
    ensures TakeClosing(ClosingBytes(expiresAt, nonce, approverId)) == Some((expiresAt, nonce, approverId))
  {
    var b := ClosingBytes(expiresAt, nonce, approverId);
    var approver := TextField(approverId);
    Cut(BigEndian(expiresAt, 8), nonce + approver);
    assert b[8..40] == nonce;
    assert b[40..] == approver;
    assert approver + [] == approver;
    TakeTextInverts(approverId, []);
    Pow256Values();
    BigEndianRoundTrip(expiresAt, 8);
  }

  lemma TakePolicyInverts(policyId: string, capability: Option<string>, closing: seq<byte>)
    requires ValidText(policyId) && (capability.Some? ==> ValidText(capability.value))
    ensures TakePolicy(PolicyBytes(policyId, capability, closing)) == Some((policyId, capability, closing))
  {
    TakeTextInverts(policyId, CapabilityField(capability) + closing);
    TakeCapabilityInverts(capability, closing);
  }

  lemma DecodeBodyInverts(challenge: ApprovalChallenge, approverId: string)
    requires Encodable(challenge, approverId)
    ensures DecodeBody(MessageBody(challenge, approverId)) == Some((challenge, approverId))
  {
    var closing := ClosingBytes(challenge.expiresAtUnixMs, challenge.approvalNonce, approverId);
    var policy := PolicyBytes(challenge.policyId, challenge.requiredCapability, closing);
    TakeTextInverts(challenge.requestId, challenge.envelopeDigest + policy);
    Cut(challenge.envelopeDigest, policy);
    TakePolicyInverts(challenge.policyId, challenge.requiredCapability, closing);
    TakeClosingInverts(challenge.expiresAtUnixMs, challenge.approvalNonce, approverId);
  }

  /** Decoding inverts encoding: nothing about the challenge or the approver is lost in the signed bytes. */
  lemma MessageRoundTrip(challenge: ApprovalChallenge, approverId: string)
    requires Encodable(challenge, approverId)
    ensures DecodeMessage(MessageBytes(challenge, approverId)) == Some((challenge, approverId))
  {
    Cut(APPROVAL_DOMAIN, MessageBody(challenge, approverId));
    DecodeBodyInverts(challenge, approverId);
  }

  /** Equal signed bytes mean the same challenge, field by field, and the same approver. */
  lemma MessageInjective(c1: ApprovalChallenge, a1: string, c2: ApprovalChallenge, a2: string)
    requires Encodable(c1, a1) && Encodable(c2, a2)
    requires MessageBytes(c1, a1) == MessageBytes(c2, a2)
    ensures c1 == c2 && a1 == a2
  {
    MessageRoundTrip(c1, a1);
    MessageRoundTrip(c2, a2);
  }

  // ---------------------------------------------------------------------- verifying

  datatype ApproverAuthority = Approve | Elevated | Owner {
    function Rank(): nat {
      match this
      case Approve => 0
      case Elevated => 1
      case Owner => 2
    }
  }

  function RequiredFor(capability: Option<string>): Result<ApproverAuthority, ApprovalError> {
    match capability
    case None => Ok(Approve)
    case Some(value) =>
      if value == "elevated" then Ok(Elevated)
      else if value == "owner" || value == "full_owner" then Ok(Owner)
      else Err(UnsupportedRequiredCapability)
  }

  datatype TrustedApprover = TrustedApprover(
    key: seq<byte>,
    authority: ApproverAuthority,
    organizationId: Option<string>,
    revoked: bool)

  /** Ed25519 and the request's own seal, seen from outside. */
  datatype Crypto = Crypto(
    validKey: seq<byte> -> bool,
    checks: (seq<byte>, seq<byte>, seq<byte>) -> bool,
    sealed: (ActionRequest, u64) -> bool)

  predicate DecisionMatches(request: ActionRequest, decision: PolicyDecision) {
    decision.requestId == request.requestId && decision.envelopeDigest == request.envelopeDigest
  }

  /**
   * A challenge for this request and decision, or the first reason there can be none: the one challenge that the
   * later checks will find bound to them, with the expiry and the nonce it was given, for a sealed request and a
   * decision of its own that asks for approval under a policy with a name.
   */
  function Issue(crypto: Crypto, request: ActionRequest, decision: PolicyDecision,
                 now: u64, expiresAt: u64, nonce: Digest32): (r: Result<ApprovalChallenge, ApprovalError>)
    ensures forall c :: r == Ok(c) <==>
              && crypto.sealed(request, now) && DecisionMatches(request, decision) && decision.kind == Approval
              && !Blank(decision.policyId) && c.expiresAtUnixMs == expiresAt && c.approvalNonce == nonce
              && Bound(request, decision, c, now).Ok?
  {
    if !crypto.sealed(request, now) then Err(ApprovalError.Protocol)
    else if !DecisionMatches(request, decision) then Err(DecisionMismatch)
    else if decision.kind != Approval then Err(DecisionDoesNotRequireApproval)
    else if expiresAt <= now || expiresAt > request.expiresAtUnixMs then Err(InvalidExpiry)
    else if Blank(decision.policyId) then Err(InvalidChallenge)
    else Ok(ApprovalChallenge(request.requestId, request.envelopeDigest, decision.policyId,
                              decision.requiredCapability, expiresAt, nonce))
  }

  function Bound(request: ActionRequest, decision: PolicyDecision, challenge: ApprovalChallenge, now: u64)
    : Result<Unit, ApprovalError>
  {
    if challenge.requestId != request.requestId
       || challenge.envelopeDigest != request.envelopeDigest
       || challenge.policyId != decision.policyId
       || challenge.requiredCapability != decision.requiredCapability then Err(ChallengeMismatch)
    else if challenge.expiresAtUnixMs <= now then Err(ApprovalExpired)
    else if challenge.expiresAtUnixMs > request.expiresAtUnixMs then Err(InvalidExpiry)
    else Ok(Unit.Unit)
  }

  type Registry = map<string, TrustedApprover>

  /** The approver of this id, if it may decide this, or the first reason why not. */
  function ApproverFor(approvers: Registry, scoped: bool, request: ActionRequest, decision: PolicyDecision, id: string)
    : Result<TrustedApprover, ApprovalError>
  {
    if id !in approvers then Err(UnknownApprover)
    else
      var approver := approvers[id];
      if approver.revoked then Err(ApproverRevoked)
      else
        var required :- RequiredFor(decision.requiredCapability);
        if approver.authority.Rank() < required.Rank() then Err(InsufficientApproverAuthority)
        else if scoped && approver.organizationId.None? then Err(ApproverTenantMismatch)
        else if approver.organizationId.Some? && approver.organizationId.value != request.organizationId
        then Err(ApproverTenantMismatch)
        else Ok(approver)
  }

  /** The checks of the verifier, in the order that decides which error a caller sees. */
  function VerifyApproval(crypto: Crypto, approvers: Registry, scoped: bool, request: ActionRequest,
                          decision: PolicyDecision, approval: SignedApproval, now: u64)
    : (r: Result<Unit, ApprovalError>)
  {
    if !crypto.sealed(request, now) then Err(ApprovalError.Protocol)
    else if !DecisionMatches(request, decision) then Err(DecisionMismatch)
    else if decision.kind != Approval then Err(DecisionDoesNotRequireApproval)
    else
      var _ :- Bound(request, decision, approval.challenge, now);
      if approval.approverId !in approvers then Err(UnknownApprover)
      else
        var approver := approvers[approval.approverId];
        if approver.revoked then Err(ApproverRevoked)
        else
          var required :- RequiredFor(decision.requiredCapability);
          if approver.authority.Rank() < required.Rank() then Err(InsufficientApproverAuthority)
          else if scoped && approver.organizationId.None? then Err(ApproverTenantMismatch)
          else if approver.organizationId.Some? && approver.organizationId.value != request.organizationId
          then Err(ApproverTenantMismatch)
          else
            var message :- ApprovalMessage(approval.challenge, approval.approverId);
            if crypto.checks(approver.key, message, approval.signature) then Ok(Unit.Unit)
            else Err(InvalidSignature)
  }

  /** What an approver must be for what a decision asks for, and what no approver may decide. */
  predicate Suffices(authority: ApproverAuthority, capability: Option<string>) {
    || capability == None
    || (capability == Some("elevated") && (authority == Elevated || authority == Owner))
    || (capability == Some("owner") && authority == Owner)
    || (capability == Some("full_owner") && authority == Owner)
  }

  lemma RankedSuffices(authority: ApproverAuthority, capability: Option<string>)
    ensures RequiredFor(capability).Ok? && RequiredFor(capability).value.Rank() <= authority.Rank()
       <==> Suffices(authority, capability)
  {
    assert |"elevated"| == 8 && |"owner"| == 5 && |"full_owner"| == 10;
  }

  lemma UnknownTexts(capability: Option<string>)
    ensures RequiredFor(capability).Err? <==>
            capability.Some? && capability.value != "elevated" && capability.value != "owner" && capability.value != "full_owner"
    ensures RequiredFor(capability).Err? ==> RequiredFor(capability).error == UnsupportedRequiredCapability
  {}

  /**
   * Who may decide what, of a registered and unrevoked approver: a capability that is not one of the three is refused;
   * an "elevated" one takes only an approver who is elevated or an owner, and the two for owners only an owner; and
   * nobody who is enough is refused for authority, but only for belonging to another tenant.
   */
  lemma AuthorityExactly(approvers: Registry, scoped: bool, request: ActionRequest, decision: PolicyDecision, id: string)
    requires id in approvers && !approvers[id].revoked
    ensures var r := ApproverFor(approvers, scoped, request, decision, id);
            var approver, asked := approvers[id], decision.requiredCapability;
            var unknown := asked.Some? && asked.value != "elevated" && asked.value != "owner" && asked.value != "full_owner";
            var tooLow := || (asked == Some("elevated") && approver.authority == Approve)
                          || (asked == Some("owner") && (approver.authority == Approve || approver.authority == Elevated))
                          || (asked == Some("full_owner") && (approver.authority == Approve || approver.authority == Elevated));
            && (r == Err(UnsupportedRequiredCapability) <==> unknown)
            && (r == Err(InsufficientApproverAuthority) <==> tooLow)
            && (r == Err(ApproverTenantMismatch) <==>
                  !unknown && !tooLow && approver.organizationId != Some(request.organizationId)
                  && (scoped || approver.organizationId.Some?))
            && (r.Ok? ==> r.value == approver)
  {
    UnknownTexts(decision.requiredCapability);
    RankedSuffices(approvers[id].authority, decision.requiredCapability);
  }

  lemma ApproverForExactly(approvers: Registry, scoped: bool, request: ActionRequest, decision: PolicyDecision, id: string)
    ensures ApproverFor(approvers, scoped, request, decision, id).Ok? <==> MayApprove(approvers, scoped, request, decision, id)
    ensures var r := ApproverFor(approvers, scoped, request, decision, id); r.Ok? ==> r.value == approvers[id]
  {
    if id in approvers {
      RankedSuffices(approvers[id].authority, decision.requiredCapability);
    }
  }

  lemma RefusedForApprover(crypto: Crypto, approvers: Registry, scoped: bool, request: ActionRequest,
                           decision: PolicyDecision, approval: SignedApproval, now: u64)
    requires crypto.sealed(request, now) && DecisionMatches(request, decision) && decision.kind == Approval
    requires Bound(request, decision, approval.challenge, now).Ok?
    requires ApproverFor(approvers, scoped, request, decision, approval.approverId).Err?
    ensures VerifyApproval(crypto, approvers, scoped, request, decision, approval, now).Err?
    ensures VerifyApproval(crypto, approvers, scoped, request, decision, approval, now).error
         == ApproverFor(approvers, scoped, request, decision, approval.approverId).error
  {}

  lemma OnlyTheSignatureIsLeft(crypto: Crypto, approvers: Registry, scoped: bool, request: ActionRequest,
                               decision: PolicyDecision, approval: SignedApproval, now: u64)
    requires crypto.sealed(request, now) && DecisionMatches(request, decision) && decision.kind == Approval
    requires Bound(request, decision, approval.challenge, now).Ok?
    requires ApproverFor(approvers, scoped, request, decision, approval.approverId).Ok?
    ensures var r := VerifyApproval(crypto, approvers, scoped, request, decision, approval, now);
            r.Err? ==> r.error.InvalidChallenge? || r.error.InvalidSignature?
  {
    MessageOrInvalid(approval.challenge, approval.approverId);
    if MayApprove(approvers, scoped, request, decision, approval.approverId)
       && ApprovalMessage(approval.challenge, approval.approverId).Ok?
    {
      if Checks(crypto, approvers, approval) {
        VerifiesWhen(crypto, approvers, scoped, request, decision, approval, now);
      }
    }
  }

  lemma MessageOrInvalid(challenge: ApprovalChallenge, approverId: string)
    ensures ApprovalMessage(challenge, approverId).Err? ==> ApprovalMessage(challenge, approverId).error == InvalidChallenge
  {}

  /** The verifier answers what the authority check does, of an approval that passes the checks before it. */
  lemma ApproverDecides(crypto: Crypto, approvers: Registry, scoped: bool, request: ActionRequest,
                        decision: PolicyDecision, approval: SignedApproval, now: u64)
    requires crypto.sealed(request, now) && DecisionMatches(request, decision) && decision.kind == Approval
    requires Bound(request, decision, approval.challenge, now).Ok?
    ensures var r := VerifyApproval(crypto, approvers, scoped, request, decision, approval, now);
            var found := ApproverFor(approvers, scoped, request, decision, approval.approverId);
            && (found.Err? ==> r.Err? && r.error == found.error)
            && (found.Ok? && r.Err? ==> r.error.InvalidChallenge? || r.error.InvalidSignature?)
  {
    if ApproverFor(approvers, scoped, request, decision, approval.approverId).Err? {
      RefusedForApprover(crypto, approvers, scoped, request, decision, approval, now);
    } else {
      OnlyTheSignatureIsLeft(crypto, approvers, scoped, request, decision, approval, now);
    }
  }

  /** The challenge is for this request under this decision, word for word. */
  predicate SameTerms(request: ActionRequest, decision: PolicyDecision, challenge: ApprovalChallenge) {
    && challenge.requestId == request.requestId && challenge.envelopeDigest == request.envelopeDigest
    && challenge.policyId == decision.policyId && challenge.requiredCapability == decision.requiredCapability
  }

  lemma BoundExactly(request: ActionRequest, decision: PolicyDecision, challenge: ApprovalChallenge, now: u64)
    ensures var r, same := Bound(request, decision, challenge, now), SameTerms(request, decision, challenge);
            && (r == Err(ChallengeMismatch) <==> !same)
            && (r == Err(ApprovalExpired) <==> same && challenge.expiresAtUnixMs <= now)
            && (r == Err(InvalidExpiry) <==> same && now < challenge.expiresAtUnixMs && challenge.expiresAtUnixMs > request.expiresAtUnixMs)
            && (r.Ok? <==> same && now < challenge.expiresAtUnixMs <= request.expiresAtUnixMs)
  {}

  lemma RefusedBeforeApprover(crypto: Crypto, approvers: Registry, scoped: bool, request: ActionRequest,
                              decision: PolicyDecision, approval: SignedApproval, now: u64)
    requires !crypto.sealed(request, now) || !DecisionMatches(request, decision) || decision.kind != Approval
             || Bound(request, decision, approval.challenge, now).Err?
    ensures VerifyApproval(crypto, approvers, scoped, request, decision, approval, now)
         == if !crypto.sealed(request, now) then Err(ApprovalError.Protocol)
            else if !DecisionMatches(request, decision) then Err(DecisionMismatch)
            else if decision.kind != Approval then Err(DecisionDoesNotRequireApproval)
            else Bound(request, decision, approval.challenge, now)
  {}

  lemma ApproverFound(approvers: Registry, scoped: bool, request: ActionRequest, decision: PolicyDecision, id: string)
    ensures var r := ApproverFor(approvers, scoped, request, decision, id);
            && (r == Err(UnknownApprover) <==> id !in approvers)
            && (r == Err(ApproverRevoked) <==> id in approvers && approvers[id].revoked)
            && (r.Err? ==> r.error in {UnknownApprover, ApproverRevoked, UnsupportedRequiredCapability,
                                       InsufficientApproverAuthority, ApproverTenantMismatch})
  {
    UnknownTexts(decision.requiredCapability);
  }

  /** What an answer of the verifier says is so, and it is the first of these that is: up to the approver. */
  lemma RefusalsExactly(crypto: Crypto, approvers: Registry, scoped: bool, request: ActionRequest,
                        decision: PolicyDecision, approval: SignedApproval, now: u64)
    ensures var r, challenge := VerifyApproval(crypto, approvers, scoped, request, decision, approval, now), approval.challenge;
            var ours := decision.requestId == request.requestId && decision.envelopeDigest == request.envelopeDigest;
            var asked := crypto.sealed(request, now) && ours && decision.kind == PolicyDecisionKind.Approval;
            var same := asked && SameTerms(request, decision, challenge);
            var current := same && now < challenge.expiresAtUnixMs <= request.expiresAtUnixMs;
            && (r == Err(ApprovalError.Protocol) <==> !crypto.sealed(request, now))
            && (r == Err(DecisionMismatch) <==> crypto.sealed(request, now) && !ours)
            && (r == Err(DecisionDoesNotRequireApproval) <==> crypto.sealed(request, now) && ours && !asked)
            && (r == Err(ChallengeMismatch) <==> asked && !same)
            && (r == Err(ApprovalExpired) <==> same && challenge.expiresAtUnixMs <= now)
            && (r == Err(InvalidExpiry) <==> same && now < challenge.expiresAtUnixMs && !current)
            && (r == Err(UnknownApprover) <==> current && approval.approverId !in approvers)
            && (r == Err(ApproverRevoked) <==>
                  current && approval.approverId in approvers && approvers[approval.approverId].revoked)
  {
    BoundExactly(request, decision, approval.challenge, now);
    if crypto.sealed(request, now) && DecisionMatches(request, decision) && decision.kind == Approval
       && Bound(request, decision, approval.challenge, now).Ok?
    {
      ApproverFound(approvers, scoped, request, decision, approval.approverId);
      ApproverDecides(crypto, approvers, scoped, request, decision, approval, now);
    } else {
      RefusedBeforeApprover(crypto, approvers, scoped, request, decision, approval, now);
    }
  }

  /** Why there can be no challenge. */
  lemma UnissuedExactly(crypto: Crypto, request: ActionRequest, decision: PolicyDecision, now: u64, expiresAt: u64,
                        nonce: Digest32)
    ensures var r := Issue(crypto, request, decision, now, expiresAt, nonce);
            var ours := decision.requestId == request.requestId && decision.envelopeDigest == request.envelopeDigest;
            var asked := crypto.sealed(request, now) && ours && decision.kind == PolicyDecisionKind.Approval;
            && (r == Err(ApprovalError.Protocol) <==> !crypto.sealed(request, now))
            && (r == Err(DecisionMismatch) <==> crypto.sealed(request, now) && !ours)
            && (r == Err(DecisionDoesNotRequireApproval) <==> crypto.sealed(request, now) && ours && !asked)
            && (r == Err(InvalidExpiry) <==> asked && !(now < expiresAt <= request.expiresAtUnixMs))
            && (r == Err(InvalidChallenge) <==>
                  asked && now < expiresAt <= request.expiresAtUnixMs && forall c | c in decision.policyId :: IsWhitespace(c))
            && (r.Ok? ==> asked && SameTerms(request, decision, r.value)
                          && r.value.expiresAtUnixMs == expiresAt && r.value.approvalNonce == nonce)
  {}

  /** Who has signed what: the calls ever made to the signing routine, by key. */
  type Signatures = iset<(seq<byte>, ApprovalChallenge, string)>

  /** A signature checks only over a message that its key's holder signed. */
  ghost predicate Unforgeable(crypto: Crypto, signed: Signatures) {
    forall key, message, signature | crypto.checks(key, message, signature) ::
      exists c, a :: (key, c, a) in signed && ApprovalMessage(c, a) == Ok(message)
  }

  lemma SameMessage(c1: ApprovalChallenge, a1: string, c2: ApprovalChallenge, a2: string)
    requires ApprovalMessage(c1, a1).Ok? && ApprovalMessage(c1, a1) == ApprovalMessage(c2, a2)
    ensures c1 == c2 && a1 == a2
  {
    MessageInjective(c1, a1, c2, a2);
  }

  /**
   * An accepted approval was signed, over exactly its own challenge and approver id, with the key that is
   * registered now; that approver is unrevoked, of this tenant or of none and of the authority the decision asks
   * for, and the challenge is bound to the request and unexpired.
   */
  lemma AcceptedMeansSigned(crypto: Crypto, approvers: Registry, scoped: bool, request: ActionRequest,
                            decision: PolicyDecision, approval: SignedApproval, now: u64, signed: Signatures)
    requires Unforgeable(crypto, signed)
    requires VerifyApproval(crypto, approvers, scoped, request, decision, approval, now).Ok?
    ensures approval.approverId in approvers
    ensures var approver := approvers[approval.approverId];
            && !approver.revoked
            && (approver.key, approval.challenge, approval.approverId) in signed
            && (approver.organizationId == Some(request.organizationId)
                || (!scoped && approver.organizationId.None?))
            && Suffices(approver.authority, decision.requiredCapability)
    ensures approval.challenge.requestId == request.requestId
    ensures approval.challenge.envelopeDigest == request.envelopeDigest
    ensures approval.challenge.policyId == decision.policyId
    ensures approval.challenge.requiredCapability == decision.requiredCapability
    ensures now < approval.challenge.expiresAtUnixMs <= request.expiresAtUnixMs
    ensures crypto.sealed(request, now) && decision.kind == PolicyDecisionKind.Approval
    ensures decision.requestId == request.requestId && decision.envelopeDigest == request.envelopeDigest
  {
    VerifiedMeans(crypto, approvers, scoped, request, decision, approval, now);
    var approver := approvers[approval.approverId];
    var message := ApprovalMessage(approval.challenge, approval.approverId).value;
    assert crypto.checks(approver.key, message, approval.signature);
    var c, a :| (approver.key, c, a) in signed && ApprovalMessage(c, a) == Ok(message);
    SameMessage(c, a, approval.challenge, approval.approverId);
  }

  /** An approver who may decide this: registered, unrevoked, of enough authority and of the right tenant. */
  predicate MayApprove(approvers: Registry, scoped: bool, request: ActionRequest, decision: PolicyDecision, id: string) {
    && id in approvers && !approvers[id].revoked
    && Suffices(approvers[id].authority, decision.requiredCapability)
    && (approvers[id].organizationId == Some(request.organizationId) || (!scoped && approvers[id].organizationId.None?))
  }

  /** Whose hand it bears: the signature checks over this challenge and approver id with the registered key. */
  predicate Checks(crypto: Crypto, approvers: Registry, approval: SignedApproval)
    requires approval.approverId in approvers
  {
    var message := ApprovalMessage(approval.challenge, approval.approverId);
    message.Ok? && crypto.checks(approvers[approval.approverId].key, message.value, approval.signature)
  }

  /** What the checks of an accepted approval establish. */
  lemma VerifiedMeans(crypto: Crypto, approvers: Registry, scoped: bool, request: ActionRequest,
                      decision: PolicyDecision, approval: SignedApproval, now: u64)
    requires VerifyApproval(crypto, approvers, scoped, request, decision, approval, now).Ok?
    ensures crypto.sealed(request, now) && DecisionMatches(request, decision) && decision.kind == Approval
    ensures Bound(request, decision, approval.challenge, now).Ok?
    ensures MayApprove(approvers, scoped, request, decision, approval.approverId) && Checks(crypto, approvers, approval)
  {
    ApproverForExactly(approvers, scoped, request, decision, approval.approverId);
  }

  lemma VerifiesWhen(crypto: Crypto, approvers: Registry, scoped: bool, request: ActionRequest,
                     decision: PolicyDecision, approval: SignedApproval, now: u64)
    requires crypto.sealed(request, now) && DecisionMatches(request, decision) && decision.kind == Approval
    requires Bound(request, decision, approval.challenge, now).Ok?
    requires MayApprove(approvers, scoped, request, decision, approval.approverId) && Checks(crypto, approvers, approval)
    ensures VerifyApproval(crypto, approvers, scoped, request, decision, approval, now).Ok?
  {
    ApproverForExactly(approvers, scoped, request, decision, approval.approverId);
  }

  lemma IssuedIsBound(crypto: Crypto, request: ActionRequest, decision: PolicyDecision, now: u64, expiresAt: u64,
                      nonce: Digest32, later: u64)
    requires Issue(crypto, request, decision, now, expiresAt, nonce).Ok?
    ensures var challenge := Issue(crypto, request, decision, now, expiresAt, nonce).value;
            && DecisionMatches(request, decision) && decision.kind == Approval
            && (Bound(request, decision, challenge, later).Ok? <==> later < expiresAt)
  {}

  /**
   * The approval of an issued challenge verifies exactly until the challenge expires, exactly if an approver who
   * may decide it put a signature on it that checks.
   */
  lemma IssuedChallengeVerifies(
    crypto: Crypto, approvers: Registry, scoped: bool, request: ActionRequest, decision: PolicyDecision, now: u64,
    expiresAt: u64, nonce: Digest32, approval: SignedApproval, later: u64
  )
    requires Issue(crypto, request, decision, now, expiresAt, nonce) == Ok(approval.challenge)
    requires crypto.sealed(request, later)
    ensures VerifyApproval(crypto, approvers, scoped, request, decision, approval, later).Ok?
       <==> && later < expiresAt
            && MayApprove(approvers, scoped, request, decision, approval.approverId)
            && Checks(crypto, approvers, approval)
  {
    IssuedIsBound(crypto, request, decision, now, expiresAt, nonce, later);
    if VerifyApproval(crypto, approvers, scoped, request, decision, approval, later).Ok? {
      VerifiedMeans(crypto, approvers, scoped, request, decision, approval, later);
    }
    if later < expiresAt && MayApprove(approvers, scoped, request, decision, approval.approverId)
       && Checks(crypto, approvers, approval)
    {
      VerifiesWhen(crypto, approvers, scoped, request, decision, approval, later);
    }
  }

  // ----------------------------------------------------------------- the registry

  datatype RegistryOp =
    | Add(id: string, key: seq<byte>, authority: ApproverAuthority, organizationId: Option<string>)
    | Revoke(id: string)
    | Rotate(id: string, key: seq<byte>, authority: ApproverAuthority, tenant: string)

  function AddError(crypto: Crypto, approvers: Registry, id: string, key: seq<byte>, organizationId: Option<string>)
    : Option<ApprovalError>
  {
    if !ValidText(id) then Some(InvalidChallenge)
    else if id in approvers then Some(DuplicateApprover)
    else if organizationId.Some? && !ValidText(organizationId.value) then Some(InvalidChallenge)
    else if !crypto.validKey(key) then Some(InvalidPublicKey)
    else None
  }

  function RevokeError(approvers: Registry, id: string): Option<ApprovalError> {
    if !ValidText(id) then Some(InvalidChallenge)
    else if id !in approvers then Some(UnknownApprover)
    else None
  }

  function RotateError(crypto: Crypto, id: string, key: seq<byte>, tenant: string): Option<ApprovalError> {
    if !ValidText(id) || !ValidText(tenant) then Some(InvalidChallenge)
    else if !crypto.validKey(key) then Some(InvalidPublicKey)
    else None
  }

  function Apply(crypto: Crypto, approvers: Registry, op: RegistryOp): Registry {
    match op
    case Add(id, key, authority, organizationId) =>
      if AddError(crypto, approvers, id, key, organizationId).Some? then approvers
      else approvers[id := TrustedApprover(key, authority, organizationId, false)]
    case Revoke(id) =>
      if RevokeError(approvers, id).Some? then approvers
      else approvers[id := approvers[id].(revoked := true)]
    case Rotate(id, key, authority, tenant) =>
      if RotateError(crypto, id, key, tenant).Some? then approvers
      else approvers[id := TrustedApprover(key, authority, Some(tenant), false)]
  }

  function Replay(crypto: Crypto, ops: seq<RegistryOp>): Registry {
    if ops == [] then map[] else Apply(crypto, Replay(crypto, ops[..|ops| - 1]), ops[|ops| - 1])
  }

  class ApprovalVerifier {
    const crypto: Crypto
    var approvers: Registry
    var requiresScope: bool

    constructor (crypto: Crypto)
      ensures this.crypto == crypto && approvers == map[] && !requiresScope
    {
      this.crypto := crypto;
      approvers := map[];
      requiresScope := false;
    }

    method RequireOrganizationScope()
      modifies this`requiresScope
      ensures requiresScope
    {
      requiresScope := true;
    }

    method AddApproverForOrganization(id: string, key: seq<byte>, authority: ApproverAuthority,
                                      organizationId: Option<string>)
      returns (r: Result<Unit, ApprovalError>)
      modifies this`approvers
      ensures approvers == Apply(crypto, old(approvers), Add(id, key, authority, organizationId))
      ensures var fits := FitsField(id) && (organizationId.Some? ==> FitsField(organizationId.value));
              && (r.Ok? <==> fits && id !in old(approvers) && crypto.validKey(key))
              && (r == Err(DuplicateApprover) <==> FitsField(id) && id in old(approvers))
              && (r == Err(InvalidPublicKey) <==> fits && id !in old(approvers) && !crypto.validKey(key))
              && (r == Err(InvalidChallenge) <==> !fits && (FitsField(id) ==> id !in old(approvers)))
      ensures r.Err? ==> approvers == old(approvers)
    {
      ValidTextFits(id);
      if organizationId.Some? { ValidTextFits(organizationId.value); }
      var error := AddError(crypto, approvers, id, key, organizationId);
      if error.Some? { return Err(error.value); }
      approvers := approvers[id := TrustedApprover(key, authority, organizationId, false)];
      r := Ok(Unit.Unit);
    }

    method RevokeApprover(id: string) returns (r: Result<Unit, ApprovalError>)
      modifies this`approvers
      ensures approvers == Apply(crypto, old(approvers), Revoke(id))
      ensures r.Ok? <==> FitsField(id) && id in old(approvers)
      ensures r.Ok? ==> id in approvers && approvers[id].revoked
      ensures r == Err(UnknownApprover) <==> FitsField(id) && id !in old(approvers)
      ensures r == Err(InvalidChallenge) <==> !FitsField(id)
    {
      ValidTextFits(id);
      var error := RevokeError(approvers, id);
      if error.Some? { return Err(error.value); }
      approvers := approvers[id := approvers[id].(revoked := true)];
      r := Ok(Unit.Unit);
    }

    method RotateApproverForOrganization(id: string, key: seq<byte>, authority: ApproverAuthority, tenant: string)
      returns (r: Result<Unit, ApprovalError>)
      modifies this`approvers
      ensures approvers == Apply(crypto, old(approvers), Rotate(id, key, authority, tenant))
      ensures r.Ok? <==> FitsField(id) && FitsField(tenant) && crypto.validKey(key)
      ensures r == Err(InvalidPublicKey) <==> FitsField(id) && FitsField(tenant) && !crypto.validKey(key)
      ensures r == Err(InvalidChallenge) <==> !FitsField(id) || !FitsField(tenant)
    {
      ValidTextFits(id);
      ValidTextFits(tenant);
      var error := RotateError(crypto, id, key, tenant);
      if error.Some? { return Err(error.value); }
      approvers := approvers[id := TrustedApprover(key, authority, Some(tenant), false)];
      r := Ok(Unit.Unit);
    }

    method Verify(request: ActionRequest, decision: PolicyDecision, approval: SignedApproval, now: u64)
      returns (r: Result<Unit, ApprovalError>)
      ensures r == VerifyApproval(crypto, approvers, requiresScope, request, decision, approval, now)
      ensures r.Ok? ==> approval.approverId in approvers
                        && Suffices(approvers[approval.approverId].authority, decision.requiredCapability)
    {
      if VerifyApproval(crypto, approvers, requiresScope, request, decision, approval, now).Ok? {
        VerifiedMeans(crypto, approvers, requiresScope, request, decision, approval, now);
      }
      if !crypto.sealed(request, now) { return Err(ApprovalError.Protocol); }
      if !DecisionMatches(request, decision) { return Err(DecisionMismatch); }
      if decision.kind != Approval { return Err(DecisionDoesNotRequireApproval); }
      var bound := Bound(request, decision, approval.challenge, now);
      if bound.Err? { return bound; }
      if approval.approverId !in approvers { return Err(UnknownApprover); }
      var approver := approvers[approval.approverId];
      if approver.revoked { return Err(ApproverRevoked); }
      var required := RequiredFor(decision.requiredCapability);
      if required.Err? { return Err(required.error); }
      if approver.authority.Rank() < required.value.Rank() { return Err(InsufficientApproverAuthority); }
      if requiresScope && approver.organizationId.None? { return Err(ApproverTenantMismatch); }
      if approver.organizationId.Some? && approver.organizationId.value != request.organizationId {
        return Err(ApproverTenantMismatch);
      }
      var message := BuildApprovalMessage(APPROVAL_DOMAIN, approval.challenge, approval.approverId);
      if message.Err? { return Err(message.error); }
      r := if crypto.checks(approver.key, message.value, approval.signature) then Ok(Unit.Unit) else Err(InvalidSignature);
    }
  }

  // Which call registered the current key, told from the history alone.

  /** A call that would put this record under `id`, were the id free. */
  predicate Registers(crypto: Crypto, op: RegistryOp, id: string) {
    match op
    case Add(i, key, _, organizationId) =>
      && i == id && ValidText(id) && crypto.validKey(key)
      && (organizationId.Some? ==> ValidText(organizationId.value))
    case Rotate(i, key, _, tenant) => i == id && ValidText(id) && ValidText(tenant) && crypto.validKey(key)
    case Revoke(_) => false
  }

  function RecordOf(op: RegistryOp): TrustedApprover
    requires !op.Revoke?
  {
    match op
    case Add(_, key, authority, organizationId) => TrustedApprover(key, authority, organizationId, false)
    case Rotate(_, key, authority, tenant) => TrustedApprover(key, authority, Some(tenant), false)
  }

  ghost predicate EverRegistered(crypto: Crypto, ops: seq<RegistryOp>, id: string) {
    exists i | 0 <= i < |ops| :: Registers(crypto, ops[i], id)
  }

  predicate Displaces(crypto: Crypto, op: RegistryOp, id: string) {
    op == Revoke(id) || (op.Rotate? && Registers(crypto, op, id))
  }

  /** Call `i` registered `id` and nothing since has revoked or replaced that registration. */
  ghost predicate Stands(crypto: Crypto, ops: seq<RegistryOp>, i: int, id: string)
    requires 0 <= i < |ops|
  {
    && Registers(crypto, ops[i], id)
    && (ops[i].Add? ==> !EverRegistered(crypto, ops[..i], id))
    && forall j | i < j < |ops| :: !Displaces(crypto, ops[j], id)
  }

  ghost predicate StandsWith(crypto: Crypto, ops: seq<RegistryOp>, id: string, record: TrustedApprover) {
    exists i | 0 <= i < |ops| :: Stands(crypto, ops, i, id) && RecordOf(ops[i]) == record
  }

  lemma EverRegisteredStep(crypto: Crypto, before: seq<RegistryOp>, op: RegistryOp, id: string)
    ensures EverRegistered(crypto, before + [op], id)
       <==> EverRegistered(crypto, before, id) || Registers(crypto, op, id)
  {
    var ops := before + [op];
    if EverRegistered(crypto, before, id) {
      var i :| 0 <= i < |before| && Registers(crypto, before[i], id);
      assert ops[i] == before[i];
    }
    if Registers(crypto, op, id) {
      assert ops[|before|] == op;
    }
  }

  lemma StandsStep(crypto: Crypto, before: seq<RegistryOp>, op: RegistryOp, i: int, id: string)
    requires 0 <= i < |before|
    ensures Stands(crypto, before + [op], i, id) <==> Stands(crypto, before, i, id) && !Displaces(crypto, op, id)
  {
    var ops := before + [op];
    assert ops[..i] == before[..i];
    assert ops[|before|] == op;
    assert forall j | 0 <= j < |before| :: ops[j] == before[j];
  }

  lemma NewestStands(crypto: Crypto, before: seq<RegistryOp>, op: RegistryOp, id: string)
    ensures Stands(crypto, before + [op], |before|, id)
       <==> Registers(crypto, op, id) && (op.Add? ==> !EverRegistered(crypto, before, id))
  {
    assert (before + [op])[..|before|] == before;
  }

  lemma StandsWithStep(crypto: Crypto, before: seq<RegistryOp>, op: RegistryOp, id: string, record: TrustedApprover)
    ensures StandsWith(crypto, before + [op], id, record)
       <==> || (StandsWith(crypto, before, id, record) && !Displaces(crypto, op, id))
            || (Registers(crypto, op, id) && (op.Add? ==> !EverRegistered(crypto, before, id)) && RecordOf(op) == record)
  {
    var ops := before + [op];
    NewestStands(crypto, before, op, id);
    if StandsWith(crypto, ops, id, record) {
      var i :| 0 <= i < |ops| && Stands(crypto, ops, i, id) && RecordOf(ops[i]) == record;
      if i < |before| {
        StandsStep(crypto, before, op, i, id);
        assert before[i] == ops[i];
      }
    }
    if StandsWith(crypto, before, id, record) && !Displaces(crypto, op, id) {
      var i :| 0 <= i < |before| && Stands(crypto, before, i, id) && RecordOf(before[i]) == record;
      StandsStep(crypto, before, op, i, id);
      assert ops[i] == before[i];
    }
    if Registers(crypto, op, id) && (op.Add? ==> !EverRegistered(crypto, before, id)) && RecordOf(op) == record {
      assert ops[|before|] == op;
    }
  }

  lemma {:induction false} RegisteredOnlyByRegistering(crypto: Crypto, ops: seq<RegistryOp>, id: string)
    ensures id in Replay(crypto, ops) <==> EverRegistered(crypto, ops, id)
    ensures id in Replay(crypto, ops) ==> ValidText(id)
  {
    if ops != [] {
      var n := |ops| - 1;
      RegisteredOnlyByRegistering(crypto, ops[..n], id);
      assert ops == ops[..n] + [ops[n]];
      EverRegisteredStep(crypto, ops[..n], ops[n], id);
    }
  }

  predicate Active(approvers: Registry, id: string, record: TrustedApprover) {
    id in approvers && approvers[id] == record && !record.revoked
  }

  lemma ActiveStep(crypto: Crypto, approvers: Registry, op: RegistryOp, id: string, record: TrustedApprover)
    requires id in approvers ==> ValidText(id)
    ensures Active(Apply(crypto, approvers, op), id, record)
       <==> || (Active(approvers, id, record) && !Displaces(crypto, op, id))
            || (Registers(crypto, op, id) && (op.Add? ==> id !in approvers) && RecordOf(op) == record)
  {}

  /**
   * Over any history of adds, revocations and rotations, an id is registered and unrevoked with a record
   * exactly when some call made that record and stands: so a revocation lasts until a rotation, and adding
   * a revoked id again does not bring it back.
   */
  lemma {:induction false} ActiveExactlyWhenStanding(crypto: Crypto, ops: seq<RegistryOp>, id: string,
          record: TrustedApprover)
    ensures (id in Replay(crypto, ops) && Replay(crypto, ops)[id] == record && !record.revoked)
       <==> StandsWith(crypto, ops, id, record)
  {
    if ops != [] {
      var n := |ops| - 1;
      ActiveExactlyWhenStanding(crypto, ops[..n], id, record);
      RegisteredOnlyByRegistering(crypto, ops[..n], id);
      assert ops == ops[..n] + [ops[n]];
      StandsWithStep(crypto, ops[..n], ops[n], id, record);
      ActiveStep(crypto, Replay(crypto, ops[..n]), ops[n], id, record);
    }
  }
}
