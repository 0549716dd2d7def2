/**
 * At most one effect for each signed approval, and recovery records that tell the truth about it, over every
 * interleaving of dispatchers and through any crash.
 */
module ClaimSafety {
  import opened Wrappers
  import opened Protocol
  import opened Approvals
  import opened Audit
  import opened Core
  import opened Pipeline
  import opened LedgerSafety

  // --------------------------------------------------------------------- vocabulary

  /** What must hold of the recovery record and of the world once a claim has come this far. */
  datatype Stage = Stage(state: ExecutionRecoveryState, started: bool, finished: bool)

  predicate PostClaim(pc: Pc) {
    match pc
    case Append(site, _) =>
      site.VerifiedSite? || site.ConsumedSite? || site.WorkerFailedSite? || site.OverLimitSite? || site.ExecutedSite?
    case MarkUncertain => true
    case StartEffect => true
    case FinishEffect => true
    case MarkApplied => true
    case CheckOutput => true
    case MarkPostEffect => true
    case MarkCompleted => true
    case _ => false
  }

  function StageOf(pc: Pc): Stage
    requires PostClaim(pc)
  {
    match pc
    case Append(site, _) =>
      if site.VerifiedSite? || site.ConsumedSite? then Stage(NotExecuted, false, false)
      else if site.WorkerFailedSite? then Stage(EffectUncertain, true, false)
      else Stage(EffectApplied, true, true)
    case MarkUncertain => Stage(NotExecuted, false, false)
    case StartEffect => Stage(EffectUncertain, false, false)
    case FinishEffect => Stage(EffectUncertain, true, false)
    case MarkApplied => Stage(EffectUncertain, true, true)
    case _ => Stage(EffectApplied, true, true)
  }

  predicate SignedOnly(pc: Pc) {
    match pc
    case Append(site, _) => site.VerifiedSite? || site.ConsumedSite?
    case Redeem => true
    case Claim => true
    case MarkUncertain => true
    case StartEffect => true
    case FinishEffect => true
    case MarkApplied => true
    case MarkPostEffect => true
    case MarkCompleted => true
    case _ => false
  }

  predicate Accepts(env: Env, request: ActionRequest, now: u64, accepted: Accepted) {
    VerifyApproval(env.crypto, accepted.approvers, accepted.scoped, request,
                   env.policy.evaluate(request), accepted.approval, now).Ok?
  }

  /** Signed and unsigned dispatches never stray into each other's code. */
  predicate OnPath(pc: Pc, job: Job) {
    && (SignedOnly(pc) ==> job.path.Signed?)
    && (pc.StartUnsigned? || pc.FinishUnsigned? ==> !job.path.Signed?)
  }

  /** A process past the check of an approval carries an approval that passed it. */
  predicate Fits(env: Env, proc: Proc) {
    proc.Busy? ==>
      && OnPath(proc.pc, proc.job)
      && (proc.job.path.Signed? && (proc.pc.Claim? || PostClaim(proc.pc)) ==>
            proc.job.accepted.Some? && Accepts(env, proc.job.request, proc.job.now, proc.job.accepted.value))
  }

  /** The process owns the claim of its request. */
  predicate Holder(proc: Proc) {
    proc.Busy? && proc.job.path.Signed? && PostClaim(proc.pc)
  }

  function KeyOf(proc: Proc): RequestKey
    requires proc.Busy?
  {
    proc.job.request.Key()
  }

  predicate SignedStart(effect: Effect, key: RequestKey) {
    effect.Started? && effect.accepted.Some? && effect.request.Key() == key
  }

  ghost predicate StartedIn(log: seq<Effect>, key: RequestKey) {
    exists i | 0 <= i < |log| :: SignedStart(log[i], key)
  }

  ghost predicate FinishedIn(log: seq<Effect>, key: RequestKey) {
    Finished(key) in log
  }

  ghost predicate HolderTruth(w: World, proc: Proc) {
    Holder(proc) ==>
      var key, stage := KeyOf(proc), StageOf(proc.pc);
      && key in w.store.executions && w.store.executions[key] == stage.state
      && (StartedIn(w.log, key) <==> stage.started)
      && (stage.finished ==> FinishedIn(w.log, key))
  }

  ghost predicate OneHolder(w: World, p: Pid, q: Pid) {
    p != q && Holder(ProcOf(w, p)) && Holder(ProcOf(w, q)) ==> KeyOf(ProcOf(w, p)) != KeyOf(ProcOf(w, q))
  }

  /** No two of the logged effects are signed effects of one request. */
  ghost predicate AtMostOnce(log: seq<Effect>) {
    forall i, j, key | 0 <= i < j < |log| && SignedStart(log[i], key) :: !SignedStart(log[j], key)
  }

  /** What a recovery record says of the effect is so. */
  ghost predicate Truthful(w: World, key: RequestKey) {
    && (StartedIn(w.log, key) ==> key in w.store.executions && w.store.executions[key] != NotExecuted)
    && (key in w.store.executions && w.store.executions[key].Rank() >= EffectApplied.Rank() ==> FinishedIn(w.log, key))
    && (key in w.store.executions ==> key in w.store.consumed)
  }

  ghost predicate ClaimInv(env: Env, w: World) {
    && (forall p :: Fits(env, ProcOf(w, p)))
    && (forall p :: HolderTruth(w, ProcOf(w, p)))
    && (forall p, q :: OneHolder(w, p, q))
    && AtMostOnce(w.log)
    && (forall key :: Truthful(w, key))
    && (forall i | 0 <= i < |w.log| && w.log[i].Started? && w.log[i].accepted.Some? ::
          Accepts(env, w.log[i].request, w.log[i].now, w.log[i].accepted.value))
  }

  // ---------------------------------------------------------------------- the log

  lemma LogSnoc(log: seq<Effect>, effect: Effect, key: RequestKey)
    ensures StartedIn(log + [effect], key) <==> StartedIn(log, key) || SignedStart(effect, key)
    ensures FinishedIn(log + [effect], key) <==> FinishedIn(log, key) || effect == Finished(key)
  {
    var more := log + [effect];
    assert more[|log|] == effect;
    if StartedIn(log, key) {
      var i :| 0 <= i < |log| && SignedStart(log[i], key);
      assert more[i] == log[i];
    }
  }

  lemma OnceMore(log: seq<Effect>, effect: Effect)
    requires AtMostOnce(log)
    requires forall key | SignedStart(effect, key) :: !StartedIn(log, key)
    ensures AtMostOnce(log + [effect])
  {
    var more := log + [effect];
    forall i, j, key | 0 <= i < j < |more| && SignedStart(more[i], key)
      ensures !SignedStart(more[j], key)
    {
      assert more[i] == log[i];
      if j < |log| {
        assert more[j] == log[j];
      }
    }
  }

  // ------------------------------------------------------------------ kinds of steps

  /** A step of `p` that leaves claims and effects alone. */
  lemma QuietStep(env: Env, w: World, after: World, p: Pid)
    requires ClaimInv(env, w)
    requires after.store.executions == w.store.executions && after.log == w.log
    requires w.store.consumed.Keys <= after.store.consumed.Keys
    requires forall q | q != p :: ProcOf(after, q) == ProcOf(w, q)
    requires Fits(env, ProcOf(after, p))
    requires Holder(ProcOf(after, p)) ==>
             && Holder(ProcOf(w, p)) && KeyOf(ProcOf(after, p)) == KeyOf(ProcOf(w, p))
             && StageOf(ProcOf(after, p).pc) == StageOf(ProcOf(w, p).pc)
    ensures ClaimInv(env, after)
  {
    forall q
      ensures Fits(env, ProcOf(after, q)) && HolderTruth(after, ProcOf(after, q))
    {
      assert Fits(env, ProcOf(w, q)) && HolderTruth(w, ProcOf(w, q));
    }
    forall q, r
      ensures OneHolder(after, q, r)
    {
      assert OneHolder(w, q, r);
    }
    forall key
      ensures Truthful(after, key)
    {
      assert Truthful(w, key);
    }
  }

  /** A step of `p` that changes the record of its own request only, which no other process holds. */
  lemma PrivateStep(env: Env, w: World, after: World, p: Pid, key: RequestKey)
    requires ClaimInv(env, w)
    requires forall q | q != p :: ProcOf(after, q) == ProcOf(w, q)
    requires forall q | q != p && Holder(ProcOf(w, q)) :: KeyOf(ProcOf(w, q)) != key
    requires forall k | k != key :: k in after.store.executions <==> k in w.store.executions
    requires forall k | k != key && k in w.store.executions :: after.store.executions[k] == w.store.executions[k]
    requires w.store.consumed.Keys <= after.store.consumed.Keys
    requires after.log == w.log
             || (exists effect :: after.log == w.log + [effect] && (effect == Finished(key) || SignedStart(effect, key)))
    requires Fits(env, ProcOf(after, p)) && HolderTruth(after, ProcOf(after, p)) && Truthful(after, key)
    requires Holder(ProcOf(after, p)) ==> KeyOf(ProcOf(after, p)) == key
    requires AtMostOnce(after.log)
    requires forall i | |w.log| <= i < |after.log| && after.log[i].Started? && after.log[i].accepted.Some? ::
               Accepts(env, after.log[i].request, after.log[i].now, after.log[i].accepted.value)
    ensures ClaimInv(env, after)
  {
    forall k | k != key
      ensures StartedIn(after.log, k) <==> StartedIn(w.log, k)
      ensures FinishedIn(after.log, k) <==> FinishedIn(w.log, k)
    {
      if after.log != w.log {
        var effect :| after.log == w.log + [effect] && (effect == Finished(key) || SignedStart(effect, key));
        LogSnoc(w.log, effect, k);
      }
    }
    forall q
      ensures Fits(env, ProcOf(after, q)) && HolderTruth(after, ProcOf(after, q))
    {
      assert Fits(env, ProcOf(w, q)) && HolderTruth(w, ProcOf(w, q));
    }
    forall q, r
      ensures OneHolder(after, q, r)
    {
      assert OneHolder(w, q, r);
    }
    forall k
      ensures Truthful(after, k)
    {
      assert Truthful(w, k);
    }
  }

  lemma HolderIsAlone(env: Env, w: World, p: Pid)
    requires ClaimInv(env, w) && Holder(ProcOf(w, p))
    ensures forall q | q != p && Holder(ProcOf(w, q)) :: KeyOf(ProcOf(w, q)) != KeyOf(ProcOf(w, p))
  {
    forall q | q != p && Holder(ProcOf(w, q))
      ensures KeyOf(ProcOf(w, q)) != KeyOf(ProcOf(w, p))
    {
      assert OneHolder(w, p, q);
    }
  }

  // -------------------------------------------------------------------- step by step

  /** Where an append leads, whatever the approval in hand. */
  lemma AppendLeads(site: Site, phase: Phase, job: Job, next: Proc)
    requires OnPath(Append(site, phase), job)
    requires next.Busy? && next.pc.Append? && next.pc.site == site ==> next.job == job
    requires || next == AfterAppend(site, job) || next == AfterFailedAppend(site, job)
             || (next.Busy? && next.pc.Append? && next.pc.site == site)
    ensures next.Busy? ==> next.job == job && OnPath(next.pc, job) && !next.pc.Claim?
    ensures next.Busy? && job.path.Signed? && PostClaim(next.pc) ==>
            PostClaim(Append(site, phase)) && StageOf(next.pc) == StageOf(Append(site, phase))
  {
  }

  /** Wherever an append leads, the process stands at the same stage of its claim, or lets go of it. */
  lemma AppendKeepsStage(env: Env, site: Site, phase: Phase, job: Job, next: Proc)
    requires Fits(env, Busy(Append(site, phase), job))
    requires next.Busy? && next.pc.Append? && next.pc.site == site ==> next.job == job
    requires || next == AfterAppend(site, job) || next == AfterFailedAppend(site, job)
             || (next.Busy? && next.pc.Append? && next.pc.site == site)
    ensures Fits(env, next)
    ensures Holder(next) ==>
            && Holder(Busy(Append(site, phase), job)) && KeyOf(next) == job.request.Key()
            && StageOf(next.pc) == StageOf(Append(site, phase))
  {
    AppendLeads(site, phase, job, next);
  }

  lemma AppendKeepsClaims(env: Env, w: World, p: Pid, choice: Choice)
    requires ClaimInv(env, w) && ProcOf(w, p).Busy? && ProcOf(w, p).pc.Append?
    ensures ClaimInv(env, Step(env, w, Advance(p, choice)))
  {
    var after := Step(env, w, Advance(p, choice));
    var proc := ProcOf(w, p);
    var site, phase, job := proc.pc.site, proc.pc.phase, proc.job;
    assert Fits(env, proc);
    AdvanceShape(env, w, p, choice);
    AppendTouchesNoClaim(env, w.store, p, site, phase, job, choice);
    AppendKeepsStage(env, site, phase, job, ProcOf(after, p));
    QuietStep(env, w, after, p);
  }

  lemma AppendStepTouchesNoClaim(codec: Codec, store: Store, p: Pid, phase: Phase, event: AuditEvent, choice: Choice)
    ensures var o := AppendStep(codec, store, p, phase, event, choice);
            o.store.executions == store.executions && o.store.consumed == store.consumed
  {}

  lemma AppendTouchesNoClaim(env: Env, store: Store, p: Pid, site: Site, phase: Phase, job: Job, choice: Choice)
    ensures var m := AppendMove(env, store, p, site, phase, job, choice);
            && m.store.executions == store.executions && m.store.consumed == store.consumed && m.effects == []
            && (|| m.next == AfterAppend(site, job) || m.next == AfterFailedAppend(site, job)
                || (m.next.Busy? && m.next.pc.Append? && m.next.pc.site == site && m.next.job == job))
  {
    AppendStepTouchesNoClaim(env.codec, store, p, phase, EventAt(env, site, job), choice);
  }

  /** The claim: it succeeds only on a request that nobody has claimed, so nobody holds and nothing has run. */
  lemma ClaimKeepsClaims(env: Env, w: World, p: Pid, choice: Choice)
    requires ClaimInv(env, w) && ProcOf(w, p).Busy? && ProcOf(w, p).pc.Claim?
    ensures ClaimInv(env, Step(env, w, Advance(p, choice)))
  {
    var after := Step(env, w, Advance(p, choice));
    var proc := ProcOf(w, p);
    var key := KeyOf(proc);
    assert Fits(env, proc) && Truthful(w, key);
    AdvanceShape(env, w, p, choice);
    if after.store.executions == w.store.executions {
      QuietStep(env, w, after, p);
    } else {
      forall q | q != p && Holder(ProcOf(w, q))
        ensures KeyOf(ProcOf(w, q)) != key
      {
        assert HolderTruth(w, ProcOf(w, q));
      }
      PrivateStep(env, w, after, p, key);
    }
  }

  lemma MarkShape(env: Env, store: Store, pc: Pc, job: Job, choice: Choice)
    requires IsMark(pc)
    ensures var m, key := ControlMove(env, store, pc, job, choice), job.request.Key();
            && m.effects == []
            && (|| (m.store == store && (m.next == Idle || m.next == Busy(pc, job)))
                || (m.store == store.(executions := store.executions[key := MarkedState(pc)])
                    && m.next == AfterMark(pc, job)))
  {}

  lemma MarkedTruth(w: World, after: World, pc: Pc, job: Job)
    requires IsMark(pc) && job.path.Signed? && HolderTruth(w, Busy(pc, job)) && Truthful(w, job.request.Key())
    requires after.store == w.store.(executions := w.store.executions[job.request.Key() := MarkedState(pc)])
    requires after.log == w.log
    ensures HolderTruth(after, AfterMark(pc, job)) && Truthful(after, job.request.Key())
  {}

  /** The recovery record of the claim that `p` holds has been moved on. */
  lemma MarkedKeepsClaims(env: Env, w: World, after: World, p: Pid, pc: Pc, job: Job)
    requires ClaimInv(env, w) && ProcOf(w, p) == Busy(pc, job) && IsMark(pc)
    requires after.store == w.store.(executions := w.store.executions[job.request.Key() := MarkedState(pc)])
    requires after.log == w.log
    requires ProcOf(after, p) == AfterMark(pc, job) && forall q | q != p :: ProcOf(after, q) == ProcOf(w, q)
    ensures ClaimInv(env, after)
  {
    var key := job.request.Key();
    assert Fits(env, ProcOf(w, p)) && HolderTruth(w, ProcOf(w, p)) && Truthful(w, key);
    HolderIsAlone(env, w, p);
    MarkedTruth(w, after, pc, job);
    PrivateStep(env, w, after, p, key);
  }

  lemma MarkKeepsClaims(env: Env, w: World, p: Pid, choice: Choice)
    requires ClaimInv(env, w) && ProcOf(w, p).Busy? && IsMark(ProcOf(w, p).pc)
    ensures ClaimInv(env, Step(env, w, Advance(p, choice)))
  {
    var after := Step(env, w, Advance(p, choice));
    var pc, job := ProcOf(w, p).pc, ProcOf(w, p).job;
    assert Fits(env, ProcOf(w, p));
    AdvanceShape(env, w, p, choice);
    MarkShape(env, w.store, pc, job, choice);
    if after.store == w.store && (ProcOf(after, p) == Idle || ProcOf(after, p) == ProcOf(w, p)) {
      QuietStep(env, w, after, p);
    } else {
      MarkedKeepsClaims(env, w, after, p, pc, job);
    }
  }

  /** The effect begins: its record already says that it may have, and it never began before. */
  lemma StartKeepsClaims(env: Env, w: World, p: Pid, choice: Choice)
    requires ClaimInv(env, w) && ProcOf(w, p).Busy? && ProcOf(w, p).pc.StartEffect?
    ensures ClaimInv(env, Step(env, w, Advance(p, choice)))
  {
    var after := Step(env, w, Advance(p, choice));
    var proc := ProcOf(w, p);
    var key := KeyOf(proc);
    assert Fits(env, proc) && HolderTruth(w, proc) && Truthful(w, key);
    AdvanceShape(env, w, p, choice);
    HolderIsAlone(env, w, p);
    var effect := Started(proc.job.request, proc.job.now, proc.job.accepted, |w.store.table|);
    assert after.log == w.log + [effect] && SignedStart(effect, key);
    LogSnoc(w.log, effect, key);
    OnceMore(w.log, effect);
    PrivateStep(env, w, after, p, key);
  }

  lemma FailureKeepsClaims(env: Env, w: World, p: Pid)
    requires ClaimInv(env, w) && ProcOf(w, p).Busy? && ProcOf(w, p).pc.FinishEffect?
    ensures ClaimInv(env, Step(env, w, Advance(p, Fail)))
  {
    var after := Step(env, w, Advance(p, Fail));
    assert Fits(env, ProcOf(w, p));
    AdvanceShape(env, w, p, Fail);
    assert after.store == w.store && after.log == w.log;
    QuietStep(env, w, after, p);
  }

  lemma FinishedTruth(w: World, after: World, job: Job)
    requires HolderTruth(w, Busy(FinishEffect, job)) && Truthful(w, job.request.Key())
    requires after.store == w.store && after.log == w.log + [Finished(job.request.Key())]
    ensures HolderTruth(after, Busy(MarkApplied, job)) && Truthful(after, job.request.Key())
  {
    LogSnoc(w.log, Finished(job.request.Key()), job.request.Key());
  }

  /** The effect of `p` has finished, and its process turns to recording that. */
  lemma FinishedKeepsClaims(env: Env, w: World, after: World, p: Pid, job: Job)
    requires ClaimInv(env, w) && ProcOf(w, p) == Busy(FinishEffect, job)
    requires ProcOf(after, p) == Busy(MarkApplied, job) && forall q | q != p :: ProcOf(after, q) == ProcOf(w, q)
    requires after.store == w.store && after.log == w.log + [Finished(job.request.Key())]
    ensures ClaimInv(env, after)
  {
    var key, effect := job.request.Key(), Finished(job.request.Key());
    assert Fits(env, ProcOf(w, p)) && HolderTruth(w, ProcOf(w, p)) && Truthful(w, key);
    HolderIsAlone(env, w, p);
    FinishedTruth(w, after, job);
    OnceMore(w.log, effect);
    assert after.log[|w.log|] == effect && !effect.Started?;
    PrivateStep(env, w, after, p, key);
  }

  lemma FinishKeepsClaims(env: Env, w: World, p: Pid, choice: Choice)
    requires ClaimInv(env, w) && ProcOf(w, p).Busy? && ProcOf(w, p).pc.FinishEffect? && !choice.Fail?
    ensures ClaimInv(env, Step(env, w, Advance(p, choice)))
  {
    AdvanceShape(env, w, p, choice);
    FinishedKeepsClaims(env, w, Step(env, w, Advance(p, choice)), p, ProcOf(w, p).job);
  }

  /** An unsigned execution touches no claim. */
  lemma UnsignedKeepsClaims(env: Env, w: World, p: Pid, choice: Choice)
    requires ClaimInv(env, w) && ProcOf(w, p).Busy? && ProcOf(w, p).pc.StartUnsigned?
    ensures ClaimInv(env, Step(env, w, Advance(p, choice)))
  {
    var after := Step(env, w, Advance(p, choice));
    var proc := ProcOf(w, p);
    assert Fits(env, proc);
    AdvanceShape(env, w, p, choice);
    var effect := Started(proc.job.request, proc.job.now, None, |w.store.table|);
    assert after.log == w.log + [effect];
    OnceMore(w.log, effect);
    var mid := after.(log := w.log);
    assert forall q :: ProcOf(mid, q) == ProcOf(after, q);
    QuietStep(env, w, mid, p);
    forall key
      ensures StartedIn(after.log, key) <==> StartedIn(mid.log, key)
      ensures FinishedIn(after.log, key) <==> FinishedIn(mid.log, key)
    {
      LogSnoc(w.log, effect, key);
    }
    forall q
      ensures Fits(env, ProcOf(after, q)) && HolderTruth(after, ProcOf(after, q))
    {
      assert Fits(env, ProcOf(mid, q)) && HolderTruth(mid, ProcOf(mid, q));
    }
    forall q, r
      ensures OneHolder(after, q, r)
    {
      assert OneHolder(mid, q, r);
    }
    forall key
      ensures Truthful(after, key)
    {
      assert Truthful(mid, key);
    }
  }

  lemma ControlKeepsClaims(env: Env, w: World, p: Pid, choice: Choice)
    requires ClaimInv(env, w) && ProcOf(w, p).Busy?
    requires var pc := ProcOf(w, p).pc;
             pc in {Evaluate, Decided, Redeem, CheckOutput, FinishUnsigned}
    ensures ClaimInv(env, Step(env, w, Advance(p, choice)))
  {
    var after := Step(env, w, Advance(p, choice));
    assert Fits(env, ProcOf(w, p));
    AdvanceShape(env, w, p, choice);
    QuietStep(env, w, after, p);
  }

  lemma {:induction false} MigratedKeeps(table: seq<AuditRecord>, consumed: map<RequestKey, u64>)
    ensures consumed.Keys <= Migrated(table, consumed).Keys
  {
    if table != [] {
      MigratedKeeps(table[..|table| - 1], consumed);
    }
  }

  lemma ClaimStep(env: Env, w: World, a: Action)
    requires ClaimInv(env, w)
    ensures ClaimInv(env, Step(env, w, a))
  {
    var after := Step(env, w, a);
    if a.Advance? && ProcOf(w, a.p).Busy? {
      match ProcOf(w, a.p).pc
      case Append(_, _) => AppendKeepsClaims(env, w, a.p, a.choice);
      case Claim => ClaimKeepsClaims(env, w, a.p, a.choice);
      case StartEffect => StartKeepsClaims(env, w, a.p, a.choice);
      case FinishEffect =>
        if a.choice.Fail? { FailureKeepsClaims(env, w, a.p); } else { FinishKeepsClaims(env, w, a.p, a.choice); }
      case StartUnsigned => UnsignedKeepsClaims(env, w, a.p, a.choice);
      case MarkUncertain => MarkKeepsClaims(env, w, a.p, a.choice);
      case MarkApplied => MarkKeepsClaims(env, w, a.p, a.choice);
      case MarkPostEffect => MarkKeepsClaims(env, w, a.p, a.choice);
      case MarkCompleted => MarkKeepsClaims(env, w, a.p, a.choice);
      case _ => ControlKeepsClaims(env, w, a.p, a.choice);
    } else if a.RemoveLock? {
      assert forall q :: ProcOf(after, q) == ProcOf(w, q);
      assert Fits(env, ProcOf(w, 0));
      QuietStep(env, w, after, 0);
    } else {
      MigratedKeeps(w.store.table, w.store.consumed);
      assert Fits(env, ProcOf(w, a.p));
      QuietStep(env, w, after, a.p);
    }
  }

  lemma {:induction false} ClaimAlways(env: Env, actions: seq<Action>)
    ensures ClaimInv(env, Run(env, actions))
  {
    if actions != [] {
      var before := Run(env, actions[..|actions| - 1]);
      ClaimAlways(env, actions[..|actions| - 1]);
      ClaimStep(env, before, actions[|actions| - 1]);
    }
  }

  // -------------------------------------------------------------------- main results

  /**
   * In every interleaving of any number of dispatchers, with crashes and reopens between any two steps and the
   * lock file removed at any time, an approved request is executed at most once, and every signed execution
   * was of an approval that verified for that very request.
   */
  lemma EffectAtMostOnce(env: Env, actions: seq<Action>)
    ensures var log := Run(env, actions).log;
            forall i, j | 0 <= i < j < |log| && log[i].Started? && log[i].accepted.Some? && log[j].Started?
                          && log[j].accepted.Some? ::
              log[i].request.requestId != log[j].request.requestId
              || log[i].request.envelopeDigest != log[j].request.envelopeDigest
    ensures forall effect | effect in Run(env, actions).log && effect.Started? && effect.accepted.Some? ::
              Accepts(env, effect.request, effect.now, effect.accepted.value)
  {
    ClaimAlways(env, actions);
    var log := Run(env, actions).log;
    forall i, j | 0 <= i < j < |log| && log[i].Started? && log[i].accepted.Some? && log[j].Started? && log[j].accepted.Some?
      ensures log[i].request.requestId != log[j].request.requestId
              || log[i].request.envelopeDigest != log[j].request.envelopeDigest
    {
      assert SignedStart(log[i], log[i].request.Key());
      assert !SignedStart(log[j], log[i].request.Key());
    }
  }

  /**
   * After any crash the recovery record tells the truth: `NotExecuted` means the effect never started,
   * `EffectApplied` or later that it finished; and a recovery record never stands without its consumption.
   */
  lemma RecoveryTellsTruth(env: Env, actions: seq<Action>, key: RequestKey)
    ensures var w := Run(env, actions);
            && (key in w.store.executions && w.store.executions[key] == NotExecuted ==> !StartedIn(w.log, key))
            && (key in w.store.executions ==>
                  w.store.executions[key] in {EffectApplied, PostEffectUncertain, Completed} ==> FinishedIn(w.log, key))
            && (StartedIn(w.log, key) ==> key in w.store.executions)
            && (key in w.store.executions ==> key in w.store.consumed)
  {
    ClaimAlways(env, actions);
    assert Truthful(Run(env, actions), key);
  }

  ghost predicate Advanced(before: Store, after: Store) {
    && before.consumed.Keys <= after.consumed.Keys
    && forall key | key in before.executions ::
         key in after.executions && MayFollow(before.executions[key], after.executions[key])
  }

  lemma ControlAdvances(env: Env, store: Store, pc: Pc, job: Job, choice: Choice)
    requires !pc.Append?
    ensures Advanced(store, ControlMove(env, store, pc, job, choice).store)
  {
    if IsMark(pc) {
      MarkAdvances(store, pc, job, MarkedState(pc), AfterMark(pc, job), choice);
    }
  }

  lemma MarkAdvances(store: Store, pc: Pc, job: Job, state: ExecutionRecoveryState, next: Proc, choice: Choice)
    ensures Advanced(store, MarkMove(store, pc, job, state, next, choice).store)
  {
    var key := job.request.Key();
    if key in store.executions {
      RankFollows(store.executions[key], state);
    }
  }

  /** A claim is never withdrawn and a recovery record never moves back. */
  lemma ClaimsOnlyAdvance(env: Env, w: World, a: Action)
    ensures Advanced(w.store, Step(env, w, a).store)
  {
    MigratedKeeps(w.store.table, w.store.consumed);
    if a.Advance? && ProcOf(w, a.p).Busy? {
      var proc := ProcOf(w, a.p);
      AdvanceShape(env, w, a.p, a.choice);
      if proc.pc.Append? {
        AppendTouchesNoClaim(env, w.store, a.p, proc.pc.site, proc.pc.phase, proc.job, a.choice);
      } else {
        ControlAdvances(env, w.store, proc.pc, proc.job, a.choice);
      }
    }
  }
}
