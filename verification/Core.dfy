/** The broker: it turns a policy decision into an audited authorization and redeems signed approvals. */
module Core {
  import opened Wrappers
  import opened Bytes
  import opened Protocol
  import opened Approvals
  import opened Audit

  const RATE_WINDOW_MS: nat := 60_000

  /** The policy engine: a deterministic decision for every request, and the limits on automatic writes. */
  datatype Policy = Policy(
    evaluate: ActionRequest -> PolicyDecision,
    policyHash: string,
    maxFilesPerMinute: nat,
    maxBytesPerMinute: u64)

  datatype CoreError =
    | Protocol
    | Audit(audit: AuditError)
    | Approval(approval: ApprovalError)
    | ApprovalNotPrepared
    | ApprovalAlreadyConsumed

  datatype Authorization = Authorization(request: ActionRequest, decision: PolicyDecision)

  datatype ExecutionAuthorization = ExecutionAuthorization(
    authorization: Authorization,
    approverId: string,
    approvalExpiresAtUnixMs: u64)

  // ------------------------------------------------------------------------- events

  function OutcomeOf(kind: PolicyDecisionKind): string {
    match kind
    case Auto => "auto"
    case Approval => "approval"
    case Deny => "deny"
  }

  function DecisionEvent(policy: Policy, request: ActionRequest, decision: PolicyDecision, now: u64): AuditEvent {
    var safeList := decision.reasonCode == "terminal_safe_list";
    AuditEvent(now, request.organizationId, request.actorId, request.deviceId, request.requestId, request.action,
               request.target, OutcomeOf(decision.kind), request.envelopeDigest,
               if safeList then "safe-list" else if decision.kind == Auto then "policy" else "signature",
               if safeList then "safe-list"
               else if decision.kind == PolicyDecisionKind.Approval then "required"
               else if decision.kind == Deny then "denied" else "not-required",
               decision.reasonCode, policy.policyHash, request.contentBytes.UnwrapOr(0))
  }

  function ApprovalEvent(policy: Policy, request: ActionRequest, actorId: string, outcome: string, now: u64): AuditEvent {
    AuditEvent(now, request.organizationId, actorId, request.deviceId, request.requestId, request.action,
               request.target, outcome, request.envelopeDigest, "signature", "signature",
               policy.evaluate(request).reasonCode, policy.policyHash, 0)
  }

  function OutcomeEvent(policy: Policy, authorization: Authorization, outcome: string, now: u64): AuditEvent {
    var request, decision := authorization.request, authorization.decision;
    var safeList := decision.reasonCode == "terminal_safe_list";
    AuditEvent(now, request.organizationId, request.actorId, request.deviceId, request.requestId, request.action,
               request.target, outcome, request.envelopeDigest,
               if safeList then "safe-list" else if decision.kind == Auto then "policy" else "signature",
               if safeList then "safe-list" else if decision.kind == Auto then "not-required" else "signature",
               decision.reasonCode, policy.policyHash, 0)
  }

  // What the records say, told field by field.

  /** The record is of this request, made at this time. */
  predicate IsAbout(e: AuditEvent, policy: Policy, request: ActionRequest, now: u64) {
    && e.timestampUnixMs == now && e.policyHash == policy.policyHash
    && e.organizationId == request.organizationId && e.deviceId == request.deviceId
    && e.requestId == request.requestId && e.envelopeDigest == request.envelopeDigest
    && e.action == request.action && e.target == request.target
  }

  /**
   * What a record says of who allowed an action and how: for the safe list the list itself, and otherwise the policy,
   * or a signature that is required, denied or given.  Only the record of a decision counts the bytes of the content.
   */
  predicate TellsAuthority(e: AuditEvent) {
    if e.outcome == "approval_verified" || e.outcome == "approval_consumed" then
      e.authority == "signature" && e.approval == "signature" && e.contentBytes == 0
    else if e.policyRule == "terminal_safe_list" then
      e.authority == "safe-list" && e.approval == "safe-list"
    else if e.outcome == "auto" then
      e.authority == "policy" && e.approval == "not-required"
    else if e.outcome == "approval" then
      e.authority == "signature" && e.approval == "required"
    else if e.outcome == "deny" then
      e.authority == "signature" && e.approval == "denied"
    else
      && e.contentBytes == 0
      && (|| (e.authority == "policy" && e.approval == "not-required")
          || (e.authority == "signature" && e.approval == "signature"))
  }

  lemma DecisionRecorded(policy: Policy, request: ActionRequest, decision: PolicyDecision, now: u64)
    ensures var e := DecisionEvent(policy, request, decision, now);
            && IsAbout(e, policy, request, now) && TellsAuthority(e)
            && e.actorId == request.actorId && e.policyRule == decision.reasonCode
            && (e.outcome == "auto" <==> decision.kind == Auto)
            && (e.outcome == "approval" <==> decision.kind == PolicyDecisionKind.Approval)
            && (e.outcome == "deny" <==> decision.kind == Deny)
            && (request.contentBytes.Some? ==> e.contentBytes == request.contentBytes.value)
            && (request.contentBytes.None? ==> e.contentBytes == 0)
  {
    assert |"auto"| == 4 && |"approval"| == 8;
  }

  lemma ApprovalRecorded(policy: Policy, request: ActionRequest, actorId: string, outcome: string, now: u64)
    requires outcome in {"approval_verified", "approval_consumed"}
    ensures var e := ApprovalEvent(policy, request, actorId, outcome, now);
            && IsAbout(e, policy, request, now) && TellsAuthority(e)
            && e.actorId == actorId && e.outcome == outcome && e.policyRule == policy.evaluate(request).reasonCode
  {}

  lemma OutcomeRecorded(policy: Policy, authorization: Authorization, outcome: string, now: u64)
    requires outcome !in {"auto", "approval", "deny", "approval_verified", "approval_consumed"}
    ensures var e := OutcomeEvent(policy, authorization, outcome, now);
            && IsAbout(e, policy, authorization.request, now) && TellsAuthority(e)
            && e.actorId == authorization.request.actorId && e.outcome == outcome && e.contentBytes == 0
            && e.policyRule == authorization.decision.reasonCode
            && (authorization.decision.reasonCode != "terminal_safe_list" ==>
                  (e.authority == "policy" <==> authorization.decision.kind == Auto))
  {
    assert |"policy"| == 6 && |"signature"| == 9;
  }

  // -------------------------------------------------------------- the rate limit

  /** The decision after the rate limit: automatic writes over the budget of the last minute need approval. */
  function RateLimited(policy: Policy, events: seq<AuditEvent>, request: ActionRequest, now: u64)
    : Result<PolicyDecision, AuditError>
  {
    var decision := policy.evaluate(request);
    if decision.kind != Auto || request.action != "filesystem.write" then Ok(decision)
    else
      var since := SaturatingSub(now, RATE_WINDOW_MS);
      var count :- QueryCount(events, request.actorId, request.deviceId, since);
      var bytes :- QueryBytes(events, request.actorId, request.deviceId, since);
      if count >= policy.maxFilesPerMinute
         || SaturatingAdd(bytes, request.contentBytes.UnwrapOr(0)) > policy.maxBytesPerMinute
      then Ok(decision.(kind := PolicyDecisionKind.Approval, reasonCode := "auto_write_rate_limited"))
      else Ok(decision)
  }

  // The rate limit told from the records, one by one.

  /** The records that weigh on a decision at `now`: this actor's automatic writes on this device of the last 60 seconds. */
  ghost function Weighing(events: seq<AuditEvent>, actorId: string, deviceId: string, now: int): (indices: set<int>)
  {
    set i | 0 <= i < |events|
            && events[i].actorId == actorId && events[i].deviceId == deviceId
            && events[i].action == "filesystem.write" && events[i].outcome == "auto" && events[i].authority == "policy"
            && events[i].timestampUnixMs >= (if now < 60_000 then 0 else now - 60_000)
  }

  /** The bytes declared in the records with these indices. */
  ghost function BytesAt(events: seq<AuditEvent>, indices: set<int>): nat {
    if events == [] then 0
    else
      var n := |events| - 1;
      BytesAt(events[..n], indices) + if n in indices then events[n].contentBytes else 0
  }

  lemma {:induction false} BytesAtInside(events: seq<AuditEvent>, a: set<int>, b: set<int>)
    requires forall i | 0 <= i < |events| :: i in a <==> i in b
    ensures BytesAt(events, a) == BytesAt(events, b)
  {
    if events != [] {
      BytesAtInside(events[..|events| - 1], a, b);
    }
  }

  lemma WeighingStep(events: seq<AuditEvent>, actorId: string, deviceId: string, now: u64)
    requires events != []
    ensures var n := |events| - 1;
            var before := Weighing(events[..n], actorId, deviceId, now);
            Weighing(events, actorId, deviceId, now)
            == if InWindow(events[n], actorId, deviceId, SaturatingSub(now, RATE_WINDOW_MS)) then before + {n} else before
  {}

  lemma {:induction false} WeighingIsQueried(events: seq<AuditEvent>, actorId: string, deviceId: string, now: u64)
    ensures var since, weighing := SaturatingSub(now, RATE_WINDOW_MS), Weighing(events, actorId, deviceId, now);
            && CountSince(events, actorId, deviceId, since) == |weighing|
            && BytesSince(events, actorId, deviceId, since) == BytesAt(events, weighing)
  {
    if events != [] {
      var n := |events| - 1;
      WeighingIsQueried(events[..n], actorId, deviceId, now);
      WeighingStep(events, actorId, deviceId, now);
      BytesAtInside(events[..n], Weighing(events[..n], actorId, deviceId, now), Weighing(events, actorId, deviceId, now));
    }
  }

  /**
   * Which automatic writes stay automatic: those for which, of the records of this actor's automatic writes on this
   * device in the last 60 seconds, there are fewer than the files allowed, and whose bytes with its own (up to the
   * largest 64-bit number) are within the bytes allowed. It is an error if the counts do not fit their columns.
   */
  lemma RateLimitExactly(policy: Policy, events: seq<AuditEvent>, request: ActionRequest, now: u64)
    requires policy.evaluate(request).kind == Auto && request.action == "filesystem.write"
    ensures var weighing := Weighing(events, request.actorId, request.deviceId, now);
            var bytes := BytesAt(events, weighing);
            var own := if request.contentBytes.Some? then request.contentBytes.value else 0;
            var r := RateLimited(policy, events, request, now);
            && (r.Ok? <==> now <= I64_MAX + 60_000 && |weighing| <= U32_MAX && bytes <= I64_MAX)
            && (r.Ok? ==> (r.value.kind == Auto <==>
                             && |weighing| < policy.maxFilesPerMinute
                             && (bytes + own <= policy.maxBytesPerMinute || policy.maxBytesPerMinute == U64_MAX)))
            && (r.Ok? && r.value.kind == Auto ==> r.value == policy.evaluate(request))
            && (r.Ok? && r.value.kind != Auto ==>
                  r.value.kind == PolicyDecisionKind.Approval && r.value.reasonCode == "auto_write_rate_limited")
  {
    WeighingIsQueried(events, request.actorId, request.deviceId, now);
  }

  lemma {:induction false} UnweighedAdds(before: seq<AuditEvent>, e: AuditEvent, after: seq<AuditEvent>, actorId: string,
          deviceId: string, from: int)
    requires !InWindow(e, actorId, deviceId, from)
    ensures CountSince(before + [e] + after, actorId, deviceId, from) == CountSince(before + after, actorId, deviceId, from)
    ensures BytesSince(before + [e] + after, actorId, deviceId, from) == BytesSince(before + after, actorId, deviceId, from)
  {
    if after == [] {
      assert before + [e] + [] == before + [e] && before + [] == before;
      assert (before + [e])[..|before|] == before;
    } else {
      var n := |after| - 1;
      UnweighedAdds(before, e, after[..n], actorId, deviceId, from);
      assert before + [e] + after == (before + [e] + after[..n]) + [after[n]];
      assert before + after == (before + after[..n]) + [after[n]];
      LastCounts(before + [e] + after[..n], after[n], actorId, deviceId, from);
      LastCounts(before + after[..n], after[n], actorId, deviceId, from);
    }
  }

  lemma LastCounts(events: seq<AuditEvent>, last: AuditEvent, actorId: string, deviceId: string, from: int)
    ensures CountSince(events + [last], actorId, deviceId, from)
         == CountSince(events, actorId, deviceId, from) + if InWindow(last, actorId, deviceId, from) then 1 else 0
    ensures BytesSince(events + [last], actorId, deviceId, from)
         == BytesSince(events, actorId, deviceId, from) + if InWindow(last, actorId, deviceId, from) then last.contentBytes else 0
  {
    assert (events + [last])[..|events|] == events;
  }

  /** Older records, records of others and records of anything but automatic writes make no difference, wherever they stand. */
  lemma OthersDoNotWeigh(policy: Policy, before: seq<AuditEvent>, e: AuditEvent, after: seq<AuditEvent>,
                         request: ActionRequest, now: u64)
    requires || e.actorId != request.actorId || e.deviceId != request.deviceId || e.action != "filesystem.write"
             || e.outcome != "auto" || e.authority != "policy" || e.timestampUnixMs < now - 60_000
    ensures RateLimited(policy, before + [e] + after, request, now) == RateLimited(policy, before + after, request, now)
  {
    UnweighedAdds(before, e, after, request.actorId, request.deviceId, SaturatingSub(now, RATE_WINDOW_MS));
  }

  /** One thing that happens to the ledger of a broker: a request is authorized, or something else is noted. */
  datatype BrokerStep =
    | Authorize(request: ActionRequest, now: u64, recorded: bool)
    | Note(event: AuditEvent)

  predicate LawfulStep(step: BrokerStep) {
    step.Note? ==> step.event.outcome != "auto"
  }

  function StepBroker(policy: Policy, events: seq<AuditEvent>, step: BrokerStep): seq<AuditEvent> {
    match step
    case Note(event) => events + [event]
    case Authorize(request, now, recorded) =>
      match RateLimited(policy, events, request, now)
      case Err(_) => events
      case Ok(decision) => if recorded then events + [DecisionEvent(policy, request, decision, now)] else events
  }

  function RunBroker(policy: Policy, steps: seq<BrokerStep>): seq<AuditEvent> {
    if steps == [] then [] else StepBroker(policy, RunBroker(policy, steps[..|steps| - 1]), steps[|steps| - 1])
  }

  predicate InMinute(event: AuditEvent, actorId: string, deviceId: string, from: int) {
    IsAutoWrite(event, actorId, deviceId) && from <= event.timestampUnixMs <= from + RATE_WINDOW_MS
  }

  /** How many automatic writes fall in the closed minute that starts at `from`. */
  function WritesInMinute(events: seq<AuditEvent>, actorId: string, deviceId: string, from: int): nat {
    if events == [] then 0
    else
      var n := |events| - 1;
      WritesInMinute(events[..n], actorId, deviceId, from) + if InMinute(events[n], actorId, deviceId, from) then 1 else 0
  }

  function BytesInMinute(events: seq<AuditEvent>, actorId: string, deviceId: string, from: int): nat {
    if events == [] then 0
    else
      var n := |events| - 1;
      BytesInMinute(events[..n], actorId, deviceId, from)
      + if InMinute(events[n], actorId, deviceId, from) then events[n].contentBytes else 0
  }

  lemma {:induction false} MinuteWithinQuery(events: seq<AuditEvent>, actorId: string, deviceId: string,
          from: int, since: int)
    requires since <= from || since <= 0
    ensures WritesInMinute(events, actorId, deviceId, from) <= CountSince(events, actorId, deviceId, since)
    ensures BytesInMinute(events, actorId, deviceId, from) <= BytesSince(events, actorId, deviceId, since)
  {
    if events != [] {
      MinuteWithinQuery(events[..|events| - 1], actorId, deviceId, from, since);
    }
  }

  lemma {:induction false} FewWritesFewBytes(events: seq<AuditEvent>, actorId: string, deviceId: string, from: int)
    ensures BytesInMinute(events, actorId, deviceId, from) <= WritesInMinute(events, actorId, deviceId, from) * U64_MAX
  {
    if events != [] {
      FewWritesFewBytes(events[..|events| - 1], actorId, deviceId, from);
    }
  }

  lemma MinuteStep(policy: Policy, events: seq<AuditEvent>, step: BrokerStep, actorId: string, deviceId: string, from: int)
    requires LawfulStep(step)
    requires WritesInMinute(events, actorId, deviceId, from) <= policy.maxFilesPerMinute
    ensures WritesInMinute(StepBroker(policy, events, step), actorId, deviceId, from) <= policy.maxFilesPerMinute
    ensures policy.maxBytesPerMinute < U64_MAX
            && BytesInMinute(events, actorId, deviceId, from) <= policy.maxBytesPerMinute
            ==> BytesInMinute(StepBroker(policy, events, step), actorId, deviceId, from) <= policy.maxBytesPerMinute
  {
    var after := StepBroker(policy, events, step);
    if after != events {
      assert after[..|events|] == events;
      if step.Authorize? && InMinute(after[|events|], actorId, deviceId, from) {
        MinuteWithinQuery(events, actorId, deviceId, from, SaturatingSub(step.now, RATE_WINDOW_MS));
      }
    }
  }

  /**
   * Over every run of one broker, with timestamps in any order, no closed minute holds more automatic writes
   * of one actor on one device than the policy allows, nor more declared bytes.
   */
  lemma {:induction false} MinuteBudgetHolds(policy: Policy, steps: seq<BrokerStep>, actorId: string,
          deviceId: string, from: int)
    requires forall step | step in steps :: LawfulStep(step)
    ensures WritesInMinute(RunBroker(policy, steps), actorId, deviceId, from) <= policy.maxFilesPerMinute
    ensures policy.maxBytesPerMinute < U64_MAX || policy.maxFilesPerMinute <= 1 ==>
            BytesInMinute(RunBroker(policy, steps), actorId, deviceId, from) <= policy.maxBytesPerMinute
  {
    if steps != [] {
      var n := |steps| - 1;
      MinuteBudgetHolds(policy, steps[..n], actorId, deviceId, from);
      MinuteStep(policy, RunBroker(policy, steps[..n]), steps[n], actorId, deviceId, from);
    }
    FewWritesFewBytes(RunBroker(policy, steps), actorId, deviceId, from);
    if policy.maxBytesPerMinute == U64_MAX && policy.maxFilesPerMinute <= 1 {
      assert WritesInMinute(RunBroker(policy, steps), actorId, deviceId, from) * U64_MAX <= U64_MAX;
    }
  }

  ghost predicate BytesBounded(maxFiles: nat, maxBytes: u64) {
    forall policy: Policy, steps: seq<BrokerStep>, actorId: string, deviceId: string, from: int
      | policy.maxFilesPerMinute == maxFiles && policy.maxBytesPerMinute == maxBytes
        && (forall step | step in steps :: LawfulStep(step)) ::
      BytesInMinute(RunBroker(policy, steps), actorId, deviceId, from) <= maxBytes
  }

  function Permissive(maxFiles: nat, maxBytes: u64): Policy {
    Policy((r: ActionRequest) => PolicyDecision(r.requestId, Auto, "p", "auto_write", None, r.envelopeDigest),
            "h", maxFiles, maxBytes)
  }

  function SampleWrite(bytes: u64): ActionRequest {
    ActionRequest("r", "o", "a", "d", "filesystem.write", "t", Some(bytes), true, false, 0, ZERO_HASH)
  }

  lemma OneEvent(event: AuditEvent, actorId: string, deviceId: string)
    requires IsAutoWrite(event, actorId, deviceId)
    ensures CountSince([event], actorId, deviceId, 0) == 1
    ensures BytesSince([event], actorId, deviceId, 0) == event.contentBytes
    ensures event.timestampUnixMs == 0 ==> BytesInMinute([event], actorId, deviceId, 0) == event.contentBytes
  {
    assert [event][..0] == [];
    assert CountSince([], actorId, deviceId, 0) == 0 && BytesSince([], actorId, deviceId, 0) == 0;
    assert BytesInMinute([], actorId, deviceId, 0) == 0;
  }

  /** Under a saturated byte limit a second automatic write passes whatever its size. */
  lemma SecondWritePasses(policy: Policy, first: ActionRequest, second: ActionRequest, a: string, d: string)
    requires policy.maxFilesPerMinute >= 2 && policy.maxBytesPerMinute == U64_MAX
    requires first.action == second.action == "filesystem.write"
    requires first.actorId == second.actorId == a && first.deviceId == second.deviceId == d
    requires policy.evaluate(first).kind == policy.evaluate(second).kind == Auto
    requires policy.evaluate(first).reasonCode != "terminal_safe_list"
    requires policy.evaluate(second).reasonCode != "terminal_safe_list"
    requires first.contentBytes == Some(I64_MAX) && second.contentBytes == Some(U64_MAX)
    ensures BytesInMinute(RunBroker(policy, [Authorize(first, 0, true), Authorize(second, 0, true)]), a, d, 0)
         == I64_MAX + U64_MAX
  {
    var s1, s2 := Authorize(first, 0, true), Authorize(second, 0, true);
    var e1 := DecisionEvent(policy, first, policy.evaluate(first), 0);
    var e2 := DecisionEvent(policy, second, policy.evaluate(second), 0);
    assert CountSince([], a, d, 0) == 0 && BytesSince([], a, d, 0) == 0;
    assert StepBroker(policy, [], s1) == [e1];
    assert [s1][..0] == [] && [s1, s2][..1] == [s1];
    assert RunBroker(policy, [s1]) == [e1];
    OneEvent(e1, a, d);
    assert StepBroker(policy, [e1], s2) == [e1] + [e2];
    assert ([e1] + [e2])[..1] == [e1];
  }

  /** With no byte limit to speak of, the saturating sum lets the declared bytes of a minute exceed the limit. */
  lemma SaturationDefeatsBytes(maxFiles: nat)
    requires maxFiles >= 2
    ensures !BytesBounded(maxFiles, U64_MAX)
  {
    var policy := Permissive(maxFiles, U64_MAX);
    var first, second := SampleWrite(I64_MAX), SampleWrite(U64_MAX);
    var steps := [Authorize(first, 0, true), Authorize(second, 0, true)];
    SecondWritePasses(policy, first, second, first.actorId, first.deviceId);
    assert BytesInMinute(RunBroker(policy, steps), first.actorId, first.deviceId, 0) > U64_MAX;
  }

  /** The exact condition on the limits under which the byte budget holds over every run. */
  lemma BytesBoundedExactly(maxFiles: nat, maxBytes: u64)
    ensures BytesBounded(maxFiles, maxBytes) <==> maxBytes < U64_MAX || maxFiles <= 1
  {
    if maxBytes < U64_MAX || maxFiles <= 1 {
      forall policy: Policy, steps: seq<BrokerStep>, actorId: string, deviceId: string, from: int
        | policy.maxFilesPerMinute == maxFiles && policy.maxBytesPerMinute == maxBytes
          && (forall step | step in steps :: LawfulStep(step))
        ensures BytesInMinute(RunBroker(policy, steps), actorId, deviceId, from) <= maxBytes
      {
        MinuteBudgetHolds(policy, steps, actorId, deviceId, from);
      }
    } else {
      SaturationDefeatsBytes(maxFiles);
    }
  }

  /**
   * A challenge issued for the rate-limited decision can be redeemed exactly when the policy itself, without the
   * rate limit, asks for approval (and the signature is good and in time): redeeming evaluates the policy again and
   * leaves the rate limit out, so the approval of a write that only the rate limit held back is refused, however
   * well it is signed.
   */
  lemma RedeemableExactlyWhenPolicyAsks(
    policy: Policy, limited: PolicyDecision, crypto: Crypto, approvers: Registry, scoped: bool, request: ActionRequest,
    approval: SignedApproval, events: seq<AuditEvent>, issuedAt: u64, expiresAt: u64, nonce: Digest32, now: u64
  )
    requires RateLimited(policy, events, request, issuedAt) == Ok(limited)
    requires Issue(crypto, request, limited, issuedAt, expiresAt, nonce) == Ok(approval.challenge)
    requires crypto.sealed(request, now)
    ensures VerifyApproval(crypto, approvers, scoped, request, policy.evaluate(request), approval, now).Ok?
       <==> && policy.evaluate(request).kind == PolicyDecisionKind.Approval
            && now < expiresAt
            && MayApprove(approvers, scoped, request, limited, approval.approverId)
            && Checks(crypto, approvers, approval)
  {
    var decision := policy.evaluate(request);
    LimitKeepsTheRest(policy, events, request, issuedAt);
    if decision.kind == PolicyDecisionKind.Approval {
      assert limited == decision;
      IssuedChallengeVerifies(crypto, approvers, scoped, request, limited, issuedAt, expiresAt, nonce, approval, now);
    }
  }

  /** The rate limit turns "auto" into "approval" and gives its own reason; the rest of the decision stays. */
  lemma LimitKeepsTheRest(policy: Policy, events: seq<AuditEvent>, request: ActionRequest, now: u64)
    ensures var decision, r := policy.evaluate(request), RateLimited(policy, events, request, now);
            r.Ok? ==> || r.value == decision
                      || (decision.kind == Auto && request.action == "filesystem.write"
                          && r.value == decision.(kind := PolicyDecisionKind.Approval,
                                                  reasonCode := "auto_write_rate_limited"))
  {}

  const SAMPLE_POLICY := Permissive(1, U64_MAX)
  const SAMPLE_REQUEST := ActionRequest("r", "o", "a", "d", "filesystem.write", "t", Some(1), true, false, 1000, ZERO_HASH)
  const SAMPLE_CHALLENGE := ApprovalChallenge("r", ZERO_HASH, "p", None, 1000, ZERO_HASH)
  const SAMPLE_APPROVAL := SignedApproval(SAMPLE_CHALLENGE, "x", [])
  const SAMPLE_APPROVERS: Registry := map["x" := TrustedApprover([], Owner, None, false)]
  const SAMPLE_CRYPTO := Crypto((key: seq<byte>) => true, (key: seq<byte>, message: seq<byte>, signature: seq<byte>) => true,
                                (request: ActionRequest, now: u64) => true)

  /** What the ledger of a broker holds after one automatic write at time 0. */
  function SampleEvents(): seq<AuditEvent> {
    RunBroker(SAMPLE_POLICY, [Authorize(SAMPLE_REQUEST, 0, true)])
  }

  function HeldBack(): PolicyDecision {
    SAMPLE_POLICY.evaluate(SAMPLE_REQUEST).(kind := PolicyDecisionKind.Approval, reasonCode := "auto_write_rate_limited")
  }

  lemma SecondIsHeldBack()
    ensures RateLimited(SAMPLE_POLICY, SampleEvents(), SAMPLE_REQUEST, 1) == Ok(HeldBack())
  {
    var steps := [Authorize(SAMPLE_REQUEST, 0, true)];
    var event := DecisionEvent(SAMPLE_POLICY, SAMPLE_REQUEST, SAMPLE_POLICY.evaluate(SAMPLE_REQUEST), 0);
    assert steps[..0] == [] && RunBroker(SAMPLE_POLICY, []) == [];
    assert CountSince([], "a", "d", 0) == 0 && BytesSince([], "a", "d", 0) == 0;
    assert SampleEvents() == [] + [event] == [event];
    OneEvent(event, "a", "d");
  }

  lemma ShortTextValid(c: char)
    requires !IsWhitespace(c) && c as int < 0x80 && c != '\0'
    ensures ValidText([c])
  {
    assert [c][0] == c;
    assert Utf8([c]) == Utf8Char(c) + Utf8([]);
  }

  lemma SampleSigned()
    ensures MayApprove(SAMPLE_APPROVERS, false, SAMPLE_REQUEST, HeldBack(), "x")
    ensures Checks(SAMPLE_CRYPTO, SAMPLE_APPROVERS, SAMPLE_APPROVAL)
  {
    ShortTextValid('r');
    ShortTextValid('p');
    ShortTextValid('x');
    assert Encodable(SAMPLE_CHALLENGE, "x");
  }

  lemma SampleIssued()
    ensures Issue(SAMPLE_CRYPTO, SAMPLE_REQUEST, HeldBack(), 1, 1000, ZERO_HASH) == Ok(SAMPLE_CHALLENGE)
  {
    assert !IsWhitespace("p"[0]);
  }

  lemma AutoIsRefused(crypto: Crypto, approvers: Registry, scoped: bool, request: ActionRequest,
                      decision: PolicyDecision, approval: SignedApproval, now: u64)
    requires crypto.sealed(request, now) && DecisionMatches(request, decision) && decision.kind == Auto
    ensures VerifyApproval(crypto, approvers, scoped, request, decision, approval, now)
         == Err(DecisionDoesNotRequireApproval)
  {}

  /** It happens: the second write of a minute is held back, its approval is good, and redeeming refuses it. */
  lemma HeldBackWriteIsRefused()
    ensures RateLimited(SAMPLE_POLICY, SampleEvents(), SAMPLE_REQUEST, 1) == Ok(HeldBack())
    ensures Issue(SAMPLE_CRYPTO, SAMPLE_REQUEST, HeldBack(), 1, 1000, ZERO_HASH) == Ok(SAMPLE_CHALLENGE)
    ensures VerifyApproval(SAMPLE_CRYPTO, SAMPLE_APPROVERS, false, SAMPLE_REQUEST, HeldBack(), SAMPLE_APPROVAL, 2).Ok?
    ensures VerifyApproval(SAMPLE_CRYPTO, SAMPLE_APPROVERS, false, SAMPLE_REQUEST,
                           SAMPLE_POLICY.evaluate(SAMPLE_REQUEST), SAMPLE_APPROVAL, 2)
         == Err(DecisionDoesNotRequireApproval)
  {
    SecondIsHeldBack();
    SampleSigned();
    SampleIssued();
    AutoIsRefused(SAMPLE_CRYPTO, SAMPLE_APPROVERS, false, SAMPLE_REQUEST, SAMPLE_POLICY.evaluate(SAMPLE_REQUEST),
                  SAMPLE_APPROVAL, 2);
    IssuedChallengeVerifies(SAMPLE_CRYPTO, SAMPLE_APPROVERS, false, SAMPLE_REQUEST, HeldBack(), 1, 1000, ZERO_HASH,
                            SAMPLE_APPROVAL, 2);
  }

  // ---------------------------------------------------------------------- the broker

  /** The events of a table, when every row parses. */
  function TableEvents(codec: Codec, rows: seq<Row>): Option<seq<AuditEvent>> {
    if rows == [] then Some([])
    else
      var n := |rows| - 1;
      var before :- TableEvents(codec, rows[..n]);
      var last :- codec.fromJson(rows[n].eventJson);
      Some(before + [last])
  }

  lemma {:induction false} TableEventsOfChain(codec: Codec, records: seq<AuditRecord>)
    requires codec.Faithful()
    ensures TableEvents(codec, RowsOf(codec, records)) == Some(EventsOf(records))
  {
    if records != [] {
      var n := |records| - 1;
      TableEventsOfChain(codec, records[..n]);
      assert RowsOf(codec, records)[..n] == RowsOf(codec, records[..n]);
      assert EventsOf(records) == EventsOf(records[..n]) + [records[n].event];
    }
  }

  function Decide(policy: Policy, crypto: Crypto, codec: Codec, rows: seq<Row>, request: ActionRequest, now: u64)
    : Result<PolicyDecision, CoreError>
  {
    if !crypto.sealed(request, now) then Err(CoreError.Protocol)
    else if policy.evaluate(request).kind != Auto || request.action != "filesystem.write" then Ok(policy.evaluate(request))
    else match TableEvents(codec, rows)
      case None => Err(CoreError.Audit(Sql))
      case Some(events) =>
        match RateLimited(policy, events, request, now)
        case Err(error) => Err(CoreError.Audit(error))
        case Ok(decision) => Ok(decision)
  }

  /** What authorizing a request comes to: the table, the file, and the authorization once its decision is recorded. */
  function Authorizing(policy: Policy, crypto: Crypto, codec: Codec, rows: seq<Row>, jsonl: seq<AuditRecord>,
                       request: ActionRequest, now: u64, fault: AppendFault)
    : (seq<Row>, seq<AuditRecord>, Result<Authorization, CoreError>)
  {
    match Decide(policy, crypto, codec, rows, request, now)
    case Err(error) => (rows, jsonl, Err(error))
    case Ok(decision) =>
      var (newRows, newJsonl, r) := AppendEffect(codec, rows, jsonl, DecisionEvent(policy, request, decision, now), fault);
      (newRows, newJsonl, if r.Ok? then Ok(Authorization(request, decision)) else Err(CoreError.Audit(r.error)))
  }

  /** Two appends, the second only after the first succeeded. */
  function AppendTwo(codec: Codec, rows: seq<Row>, jsonl: seq<AuditRecord>, first: AuditEvent, f1: AppendFault,
                     second: AuditEvent, f2: AppendFault): (seq<Row>, seq<AuditRecord>, bool)
  {
    var (rows1, jsonl1, r1) := AppendEffect(codec, rows, jsonl, first, f1);
    if r1.Err? then (rows1, jsonl1, false)
    else
      var (rows2, jsonl2, r2) := AppendEffect(codec, rows1, jsonl1, second, f2);
      (rows2, jsonl2, r2.Ok?)
  }

  ghost predicate FoundBeforeBroken(codec: Codec, rows: seq<Row>, key: RequestKey, outcome: string) {
    exists i | 0 <= i < |rows| ::
      HasOutcome(codec, rows[i], key, outcome) && forall j | 0 <= j < i :: Parses(codec, rows[j])
  }

  /** The approval is prepared, verifies, and is claimed now for the first time. */
  ghost predicate Claimable(policy: Policy, crypto: Crypto, codec: Codec, approvers: Registry, scoped: bool,
                            rows: seq<Row>, consumed: map<RequestKey, u64>,
                            executions: map<RequestKey, ExecutionRecoveryState>,
                            request: ActionRequest, approval: SignedApproval, now: u64, faulty: bool) {
    && FoundBeforeBroken(codec, rows, request.Key(), "approval")
    && VerifyApproval(crypto, approvers, scoped, request, policy.evaluate(request), approval, now).Ok?
    && !faulty && now <= I64_MAX && request.Key() !in consumed && request.Key() !in executions
  }

  class Broker {
    const policy: Policy
    const ledger: Ledger

    constructor (policy: Policy, ledger: Ledger)
      ensures this.policy == policy && this.ledger == ledger
    {
      this.policy, this.ledger := policy, ledger;
    }

    /** The decision is recorded before it is returned; without the record there is no authorization. */
    method AuthorizeAt(crypto: Crypto, request: ActionRequest, now: u64, fault: AppendFault)
      returns (r: Result<Authorization, CoreError>)
      modifies ledger, ledger.files`rows, ledger.files`jsonl
      ensures (ledger.files.rows, ledger.files.jsonl, r)
           == Authorizing(policy, crypto, ledger.codec, old(ledger.files.rows), old(ledger.files.jsonl), request, now, fault)
    {
      if !crypto.sealed(request, now) { return Err(CoreError.Protocol); }
      var decision := policy.evaluate(request);
      var contentBytes := request.contentBytes.UnwrapOr(0);
      if decision.kind == Auto && request.action == "filesystem.write" {
        var since := SaturatingSub(now, RATE_WINDOW_MS);
        var events := TableEvents(ledger.codec, ledger.files.rows);
        if events.None? { return Err(CoreError.Audit(Sql)); }
        var count := QueryCount(events.value, request.actorId, request.deviceId, since);
        if count.Err? { return Err(CoreError.Audit(count.error)); }
        var bytes := QueryBytes(events.value, request.actorId, request.deviceId, since);
        if bytes.Err? { return Err(CoreError.Audit(bytes.error)); }
        if count.value >= policy.maxFilesPerMinute || SaturatingAdd(bytes.value, contentBytes) > policy.maxBytesPerMinute {
          decision := decision.(kind := PolicyDecisionKind.Approval, reasonCode := "auto_write_rate_limited");
        }
      }
      var appended := ledger.Append(DecisionEvent(policy, request, decision, now), fault);
      if appended.Err? { return Err(CoreError.Audit(appended.error)); }
      r := Ok(Authorization(request, decision));
    }

    method AuditOutcomeAt(authorization: Authorization, outcome: string, now: u64, fault: AppendFault)
      returns (r: Result<AuditRecord, AuditError>)
      modifies ledger, ledger.files`rows, ledger.files`jsonl
      ensures (ledger.files.rows, ledger.files.jsonl, r)
           == AppendEffect(ledger.codec, old(ledger.files.rows), old(ledger.files.jsonl),
                           OutcomeEvent(policy, authorization, outcome, now), fault)
    {
      r := ledger.Append(OutcomeEvent(policy, authorization, outcome, now), fault);
    }

    method SetExecutionRecoveryState(authorization: Authorization, state: ExecutionRecoveryState, now: u64, faulty: bool)
      returns (r: Result<Unit, AuditError>)
      modifies ledger.files`executions
      ensures var key := authorization.request.Key();
              && (r.Ok? <==> !faulty && RecoveryError(old(ledger.files.executions), key, state, now).None?)
              && ledger.files.executions
                 == if r.Ok? then old(ledger.files.executions)[key := state] else old(ledger.files.executions)
    {
      r := ledger.SetExecutionRecoveryState(authorization.request.Key(), state, now, faulty);
    }

    /** The checks before the claim: the request is intact, its approval was prepared, and it verifies now. */
    method Check(verifier: ApprovalVerifier, request: ActionRequest, approval: SignedApproval, now: u64)
      returns (error: Option<CoreError>)
      ensures error.None? <==>
              && FoundBeforeBroken(ledger.codec, ledger.files.rows, request.Key(), "approval")
              && VerifyApproval(verifier.crypto, verifier.approvers, verifier.requiresScope, request,
                                policy.evaluate(request), approval, now).Ok?
    {
      if !verifier.crypto.sealed(request, now) { return Some(CoreError.Protocol); }
      var prepared := ledger.HasOutcomeFor(request.Key(), "approval");
      if prepared.Err? { return Some(CoreError.Audit(prepared.error)); }
      if !prepared.value { return Some(ApprovalNotPrepared); }
      var verified := verifier.Verify(request, policy.evaluate(request), approval, now);
      error := if verified.Err? then Some(CoreError.Approval(verified.error)) else None;
    }

    /** Everything up to the claim; without an error the request is claimed, once and for all. */
    method CheckAndClaim(verifier: ApprovalVerifier, request: ActionRequest, approval: SignedApproval, now: u64,
                         claimFaulty: bool)
      returns (error: Option<CoreError>)
      modifies ledger.files`consumed, ledger.files`executions
      ensures var files, key := ledger.files, request.Key();
              && (error.None? <==>
                    Claimable(policy, verifier.crypto, ledger.codec, verifier.approvers, verifier.requiresScope,
                              files.rows, old(files.consumed), old(files.executions), request, approval, now, claimFaulty))
              && files.consumed == (if error.None? then old(files.consumed)[key := now] else old(files.consumed))
              && files.executions == (if error.None? then old(files.executions)[key := NotExecuted] else old(files.executions))
    {
      var key := request.Key();
      error := Check(verifier, request, approval, now);
      if error.Some? { return; }
      var claimed := ledger.ClaimApprovalConsumed(key, now, claimFaulty);
      if claimed.Err? { return Some(CoreError.Audit(claimed.error)); }
      if !claimed.value { return Some(ApprovalAlreadyConsumed); }
    }

    /** The two records of a claimed approval. */
    method AppendApprovalEvents(request: ActionRequest, approverId: string, now: u64, f1: AppendFault, f2: AppendFault)
      returns (r: Result<Unit, CoreError>)
      modifies ledger, ledger.files`rows, ledger.files`jsonl
      ensures (ledger.files.rows, ledger.files.jsonl, r.Ok?)
           == AppendTwo(ledger.codec, old(ledger.files.rows), old(ledger.files.jsonl),
                        ApprovalEvent(policy, request, approverId, "approval_verified", now), f1,
                        ApprovalEvent(policy, request, request.actorId, "approval_consumed", now), f2)
    {
      var first := ledger.Append(ApprovalEvent(policy, request, approverId, "approval_verified", now), f1);
      if first.Err? { return Err(CoreError.Audit(first.error)); }
      var second := ledger.Append(ApprovalEvent(policy, request, request.actorId, "approval_consumed", now), f2);
      if second.Err? { return Err(CoreError.Audit(second.error)); }
      r := Ok(Unit.Unit);
    }

    /**
     * Redeeming an approval: it is claimed exactly when it was prepared, verifies, and was never claimed
     * before; then the two approval records follow the claim, and a failure among them leaves it claimed.
     */
    method ConsumeApprovalAt(verifier: ApprovalVerifier, request: ActionRequest, approval: SignedApproval, now: u64,
                             claimFaulty: bool, f1: AppendFault, f2: AppendFault)
      returns (r: Result<ExecutionAuthorization, CoreError>)
      modifies ledger, ledger.files
      ensures var files, key := ledger.files, request.Key();
              var claimed := Claimable(policy, verifier.crypto, ledger.codec, verifier.approvers, verifier.requiresScope,
                                       old(files.rows), old(files.consumed), old(files.executions),
                                       request, approval, now, claimFaulty);
              if claimed then
                var (rows, jsonl, both) :=
                  AppendTwo(ledger.codec, old(files.rows), old(files.jsonl),
                            ApprovalEvent(policy, request, approval.approverId, "approval_verified", now), f1,
                            ApprovalEvent(policy, request, request.actorId, "approval_consumed", now), f2);
                && files.consumed == old(files.consumed)[key := now]
                && files.executions == old(files.executions)[key := NotExecuted]
                && files.rows == rows && files.jsonl == jsonl
                && (r.Ok? <==> both)
                && (r.Ok? ==> r.value.authorization == Authorization(request, policy.evaluate(request)))
              else
                && r.Err?
                && files.consumed == old(files.consumed) && files.executions == old(files.executions)
                && files.rows == old(files.rows) && files.jsonl == old(files.jsonl)
    {
      var refused := CheckAndClaim(verifier, request, approval, now, claimFaulty);
      if refused.Some? { return Err(refused.value); }
      var recorded := AppendApprovalEvents(request, approval.approverId, now, f1, f2);
      if recorded.Err? { return Err(recorded.error); }
      r := Ok(ExecutionAuthorization(Authorization(request, policy.evaluate(request)), approval.approverId,
                                     approval.challenge.expiresAtUnixMs));
    }
  }
}
