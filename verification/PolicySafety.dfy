/** Which actions a dispatcher ever starts, signed and unsigned, told from the request and the policy alone. */
module PolicySafety {
  import opened Wrappers
  import opened Bytes
  import opened Protocol
  import opened Audit
  import opened Core
  import opened Pipeline
  import opened LedgerSafety
  import ClaimSafety

  /** The actions that only look. */
  predicate OnlyReads(action: string) {
    || action == "filesystem.read" || action == "filesystem.list" || action == "filesystem.search_files"
    || action == "filesystem.search_content" || action == "filesystem.info" || action == "git.status"
    || action == "git.diff" || action == "process.list" || action == "process.inspect" || action == "terminal.poll"
    || action == "terminal.cancel"
  }

  /** The actions that take a signature. */
  predicate TakesSignature(action: string) {
    || action == "filesystem.write" || action == "terminal.exec" || action == "process.terminate"
    || action == "browser.session.use"
  }

  /** A write that says it relies on the policy, or a command the policy decided by its safe list. */
  predicate RunsUnasked(request: ActionRequest, decision: PolicyDecision) {
    && decision.kind == Auto
    && (|| (request.action == "filesystem.write" && request.policyAttempt)
        || (request.action == "terminal.exec" && decision.reasonCode == "terminal_safe_list"))
  }

  /** What may be started without a signature. */
  predicate RunsUnsigned(env: Env, request: ActionRequest) {
    var decision := env.policy.evaluate(request);
    request.deviceId == env.deviceId && decision.kind == Auto && (OnlyReads(request.action) || RunsUnasked(request, decision))
  }

  predicate RunsSigned(env: Env, request: ActionRequest) {
    request.deviceId == env.deviceId && TakesSignature(request.action)
  }

  lemma AllowedReads(action: string)
    ensures RemoteActionAllowed(action) <==> OnlyReads(action)
  {}

  lemma AllowedSigned(action: string)
    ensures RemoteApprovedActionAllowed(action) <==> TakesSignature(action)
  {}

  /** What a process relies on about the request in its hands. */
  predicate Sound(env: Env, proc: Proc) {
    proc.Busy? ==>
      var job := proc.job;
      && job.request.deviceId == env.deviceId
      && (!job.path.Direct? ==> TakesSignature(job.request.action))
      && (HoldsDecision(proc.pc) && job.decision.kind == Auto ==> job.decision == env.policy.evaluate(job.request))
      && (proc.pc.StartUnsigned? ==> RunsUnsigned(env, job.request))
  }

  /** The decision in its hands is for the request in its hands. */
  predicate HoldsDecision(pc: Pc) {
    pc.Decided? || (pc.Append? && pc.site.DecisionSite?)
  }

  ghost predicate EffectsSound(env: Env, log: seq<Effect>) {
    forall effect | effect in log && effect.Started? ::
      if effect.accepted.None? then RunsUnsigned(env, effect.request) else RunsSigned(env, effect.request)
  }

  ghost predicate PolicyInv(env: Env, w: World) {
    (forall p :: Sound(env, ProcOf(w, p))) && EffectsSound(env, w.log)
  }

  lemma PreparedIsSound(env: Env, job: Job, choice: Choice)
    requires job.request.deviceId == env.deviceId && TakesSignature(job.request.action)
    requires job.decision.kind == Auto ==> job.decision == env.policy.evaluate(job.request)
    ensures var next := PreparedNext(job, choice);
            && Sound(env, next) && (next.Busy? ==> next.job == job)
            && (next.Busy? && next.pc.StartUnsigned? <==> RunsUnasked(job.request, job.decision))
  {}

  lemma DecidedIsSound(env: Env, job: Job, choice: Choice)
    requires Sound(env, Busy(Pc.Decided, job))
    ensures Sound(env, DecidedNext(job, choice))
  {
    AllowedReads(job.request.action);
    if !job.path.Direct? {
      PreparedIsSound(env, job, choice);
    }
  }

  lemma ControlIsSound(env: Env, store: Store, pc: Pc, job: Job, choice: Choice)
    requires !pc.Append? && Sound(env, Busy(pc, job))
    ensures Sound(env, ControlMove(env, store, pc, job, choice).next)
  {
    if pc.Decided? {
      DecidedIsSound(env, job, choice);
    } else if pc.Evaluate? {
      LimitKeepsTheRest(env.policy, EventsOf(store.table), job.request, job.now);
    }
  }

  lemma ControlEffectsSound(env: Env, store: Store, pc: Pc, job: Job, choice: Choice)
    requires !pc.Append? && Sound(env, Busy(pc, job)) && ClaimSafety.Fits(env, Busy(pc, job))
    ensures EffectsSound(env, ControlMove(env, store, pc, job, choice).effects)
  {}

  lemma AppendIsSound(env: Env, store: Store, p: Pid, site: Site, phase: Phase, job: Job, choice: Choice)
    requires Sound(env, Busy(Append(site, phase), job))
    ensures Sound(env, AppendMove(env, store, p, site, phase, job, choice).next)
  {}

  lemma SoundAdvance(env: Env, w: World, p: Pid, choice: Choice)
    requires PolicyInv(env, w) && ClaimSafety.ClaimInv(env, w) && ProcOf(w, p).Busy?
    ensures PolicyInv(env, Step(env, w, Advance(p, choice)))
  {
    var after := Step(env, w, Advance(p, choice));
    var proc := ProcOf(w, p);
    AdvanceShape(env, w, p, choice);
    assert Sound(env, proc) && ClaimSafety.Fits(env, proc);
    if proc.pc.Append? {
      AppendIsSound(env, w.store, p, proc.pc.site, proc.pc.phase, proc.job, choice);
      AppendMoveShape(env, w.store, p, proc.pc.site, proc.pc.phase, proc.job, choice);
    } else {
      ControlIsSound(env, w.store, proc.pc, proc.job, choice);
      ControlEffectsSound(env, w.store, proc.pc, proc.job, choice);
    }
    forall q
      ensures Sound(env, ProcOf(after, q))
    {
      assert q != p ==> Sound(env, ProcOf(w, q));
    }
  }

  lemma SoundStep(env: Env, w: World, a: Action)
    requires PolicyInv(env, w) && ClaimSafety.ClaimInv(env, w)
    ensures PolicyInv(env, Step(env, w, a))
  {
    var after := Step(env, w, a);
    if a.Advance? && ProcOf(w, a.p).Busy? {
      SoundAdvance(env, w, a.p, a.choice);
    } else {
      if a.Submit? {
        AllowedSigned(a.request.action);
      }
      forall q
        ensures Sound(env, ProcOf(after, q))
      {
        assert Sound(env, ProcOf(w, q));
      }
    }
  }

  lemma {:induction false} PolicyAlways(env: Env, actions: seq<Action>)
    ensures PolicyInv(env, Run(env, actions))
  {
    if actions != [] {
      var n := |actions| - 1;
      PolicyAlways(env, actions[..n]);
      ClaimSafety.ClaimAlways(env, actions[..n]);
      SoundStep(env, Run(env, actions[..n]), actions[n]);
    }
  }

  /**
   * In every interleaving, crashes included: what is ever started without a signature is for this device, decided
   * "auto" by the policy, and either one of the actions that only look, or a write that relies on the policy, or a
   * command on the safe list; and what is started with one is one of the four actions that take a signature.
   */
  lemma StartedIsPermitted(env: Env, actions: seq<Action>, effect: Effect)
    requires effect in Run(env, actions).log && effect.Started?
    ensures effect.request.deviceId == env.deviceId
    ensures effect.accepted.Some? ==>
            effect.request.action in {"filesystem.write", "terminal.exec", "process.terminate", "browser.session.use"}
    ensures effect.accepted.None? ==>
            var request, decision := effect.request, env.policy.evaluate(effect.request);
            && decision.kind == Auto
            && (|| OnlyReads(request.action)
                || (request.action == "filesystem.write" && request.policyAttempt)
                || (request.action == "terminal.exec" && decision.reasonCode == "terminal_safe_list"))
  {
    PolicyAlways(env, actions);
  }
}
