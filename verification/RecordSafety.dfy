/** What the records of every run say of who allowed the actions they are about. */
module RecordSafety {
  import opened Wrappers
  import opened Protocol
  import opened Audit
  import opened Core
  import opened Pipeline
  import LedgerSafety
  import BudgetSafety
  import PolicySafety

  /** The record is one of this device under this policy, and says what it should of who allowed the action. */
  predicate Tells(env: Env, e: AuditEvent) {
    e.deviceId == env.deviceId && e.policyHash == env.policy.policyHash && TellsAuthority(e)
  }

  lemma ShortOutcomes(site: Site, job: Job)
    requires !site.DecisionSite? && !site.VerifiedSite? && !site.ConsumedSite?
    ensures OutcomeAt(site, job) !in {"auto", "approval", "deny", "approval_verified", "approval_consumed"}
  {
    var outcome := OutcomeAt(site, job);
    if site.ExecutedSite? {
      assert outcome[0] == 'e';
    } else {
      assert |outcome| !in {4, 8, 17};
    }
  }

  lemma SiteTells(env: Env, site: Site, job: Job)
    requires job.request.deviceId == env.deviceId
    ensures Tells(env, EventAt(env, site, job))
  {
    if site.DecisionSite? {
      DecisionRecorded(env.policy, job.request, job.decision, job.now);
    } else if site.VerifiedSite? {
      ApprovalRecorded(env.policy, job.request, EventAt(env, site, job).actorId, "approval_verified", job.now);
    } else if site.ConsumedSite? {
      ApprovalRecorded(env.policy, job.request, job.request.actorId, "approval_consumed", job.now);
    } else {
      ShortOutcomes(site, job);
      OutcomeRecorded(env.policy, Authorization(job.request, job.decision), OutcomeAt(site, job), job.now);
    }
  }

  lemma StepTells(env: Env, w: World, a: Action)
    requires LedgerSafety.LedgerInv(env, w) && PolicySafety.PolicyInv(env, w)
    requires forall e | e in EventsOf(w.store.table) :: Tells(env, e)
    ensures forall e | e in EventsOf(Step(env, w, a).store.table) :: Tells(env, e)
  {
    BudgetSafety.TableOfStep(env, w, a);
    if EventsOf(Step(env, w, a).store.table) != EventsOf(w.store.table) {
      var proc := ProcOf(w, a.p);
      assert PolicySafety.Sound(env, proc);
      SiteTells(env, proc.pc.site, proc.job);
    }
  }

  /** Whatever is interleaved, and whoever crashes: every record tells who allowed its action, on this device. */
  lemma {:induction false} EveryRecordTells(env: Env, actions: seq<Action>)
    ensures forall e | e in EventsOf(Run(env, actions).store.table) ::
              e.deviceId == env.deviceId && e.policyHash == env.policy.policyHash && TellsAuthority(e)
  {
    if actions != [] {
      var n := |actions| - 1;
      EveryRecordTells(env, actions[..n]);
      LedgerSafety.LedgerAlways(env, actions[..n]);
      PolicySafety.PolicyAlways(env, actions[..n]);
      StepTells(env, Run(env, actions[..n]), actions[n]);
    }
  }

  /**
   * An edit is weighed against the budget, and recorded, as what it renders to: the bytes and the digest are those of
   * the rendering, and everything else is the request's own.
   */
  lemma EditCountsAsRendered(policy: Policy, events: seq<AuditEvent>, request: ActionRequest, rendering: Rendering,
                             decision: PolicyDecision, now: u64)
    requires request.action == "filesystem.write" && policy.evaluate(Rendered(request, rendering)).kind == Auto
    ensures var r := RateLimited(policy, events, Rendered(request, rendering), now);
            var weighing := Weighing(events, request.actorId, request.deviceId, now);
            r.Ok? && r.value.kind == Auto ==>
              && |weighing| < policy.maxFilesPerMinute
              && (|| BytesAt(events, weighing) + rendering.contentBytes <= policy.maxBytesPerMinute
                  || policy.maxBytesPerMinute == 0xFFFF_FFFF_FFFF_FFFF)
    ensures var e := DecisionEvent(policy, Rendered(request, rendering), decision, now);
            && e.contentBytes == rendering.contentBytes && e.envelopeDigest == rendering.digest
            && e.requestId == request.requestId && e.actorId == request.actorId && e.target == request.target
            && e.organizationId == request.organizationId && e.deviceId == request.deviceId && e.action == request.action
    ensures Rendered(request, rendering).policyAttempt == request.policyAttempt && !Rendered(request, rendering).editRecipe
            && Rendered(request, rendering).expiresAtUnixMs == request.expiresAtUnixMs
  {
    RateLimitExactly(policy, events, Rendered(request, rendering), now);
    DecisionRecorded(policy, Rendered(request, rendering), decision, now);
  }
}
