/** Audit before effect: what the ledger already holds when anything is executed. */
module TrailSafety {
  import opened Wrappers
  import opened Bytes
  import opened Protocol
  import opened Approvals
  import opened Audit
  import opened Core
  import opened Pipeline
  import opened LedgerSafety
  import opened ClaimSafety

  const APPROVED: seq<string> := ["approval"]
  const VERIFIED: seq<string> := APPROVED + ["approval_verified"]
  const REDEEMED: seq<string> := VERIFIED + ["approval_consumed"]
  const COMPLETED: seq<string> := REDEEMED + ["executed"]
  const AUTOMATIC: seq<string> := ["auto"]

  /** What an execution on this path rests on. */
  function Basis(job: Job): seq<string> {
    if job.path.Signed? then REDEEMED else AUTOMATIC
  }

  function SiteBase(site: Site, job: Job): seq<string> {
    match site
    case VerifiedSite => APPROVED
    case ConsumedSite => VERIFIED
    case WorkerFailedSite => Basis(job)
    case OverLimitSite => Basis(job)
    case ExecutedSite => Basis(job)
    case _ => []
  }

  /** The outcomes that the ledger holds, in this order, for the request of a process that has come this far. */
  function Owed(pc: Pc, job: Job): seq<string> {
    match pc
    case Append(site, phase) => if phase.Release? then SiteBase(site, job) + [OutcomeAt(site, job)] else SiteBase(site, job)
    case Evaluate => []
    case Decided => [OutcomeOf(job.decision.kind)]
    case Redeem => APPROVED
    case Claim => APPROVED
    case MarkCompleted => COMPLETED
    case MarkPostEffect => REDEEMED
    case CheckOutput => Basis(job)
    case StartUnsigned => AUTOMATIC
    case FinishUnsigned => AUTOMATIC
    case _ => REDEEMED
  }

  ghost predicate Backed(table: seq<AuditRecord>, proc: Proc) {
    proc.Busy? ==> Trail(table, |table|, KeyOf(proc), Owed(proc.pc, proc.job))
  }

  /** The effect began after its records were written. */
  ghost predicate Preceded(table: seq<AuditRecord>, effect: Effect) {
    effect.Started? ==>
      && effect.position <= |table|
      && Trail(table, effect.position, effect.request.Key(), if effect.accepted.Some? then REDEEMED else AUTOMATIC)
  }

  ghost predicate CompletedOk(store: Store, key: RequestKey) {
    key in store.executions && store.executions[key] == Completed ==>
      Trail(store.table, |store.table|, key, COMPLETED)
  }

  ghost predicate TrailInv(w: World) {
    && (forall p :: Backed(w.store.table, ProcOf(w, p)))
    && (forall effect | effect in w.log :: Preceded(w.store.table, effect))
    && (forall key :: CompletedOk(w.store, key))
  }

  lemma TrailShortens(table: seq<AuditRecord>, n: nat, key: RequestKey, outcomes: seq<string>, outcome: string)
    requires n <= |table| && Trail(table, n, key, outcomes + [outcome])
    ensures Trail(table, n, key, outcomes)
  {
    var all := outcomes + [outcome];
    assert all[..|all| - 1] == outcomes;
    var i :| 0 <= i < n && Marks(table[i], key, outcome) && Trail(table, i, key, outcomes);
    TrailGrows(table, table, i, n, key, outcomes);
  }

  lemma BackedGrows(table: seq<AuditRecord>, longer: seq<AuditRecord>, proc: Proc)
    requires table <= longer && Backed(table, proc)
    ensures Backed(longer, proc)
  {
    if proc.Busy? {
      TrailGrows(table, longer, |table|, |longer|, KeyOf(proc), Owed(proc.pc, proc.job));
    }
  }

  /** What held before a step of `p` holds after it, of everything but `p` and what it adds. */
  lemma TrailFrame(w: World, after: World, p: Pid)
    requires TrailInv(w) && w.store.table <= after.store.table
    requires forall q | q != p :: ProcOf(after, q) == ProcOf(w, q)
    requires Backed(after.store.table, ProcOf(after, p))
    requires forall effect | effect in after.log :: effect in w.log || Preceded(after.store.table, effect)
    requires forall key | key in after.store.executions && after.store.executions[key] == Completed ::
               (key in w.store.executions && w.store.executions[key] == Completed) || CompletedOk(after.store, key)
    ensures TrailInv(after)
  {
    forall q
      ensures Backed(after.store.table, ProcOf(after, q))
    {
      if q != p {
        assert Backed(w.store.table, ProcOf(w, q));
        BackedGrows(w.store.table, after.store.table, ProcOf(w, q));
      }
    }
    forall effect | effect in after.log
      ensures Preceded(after.store.table, effect)
    {
      if effect in w.log && effect.Started? {
        assert Preceded(w.store.table, effect);
        TrailGrows(w.store.table, after.store.table, effect.position, effect.position, effect.request.Key(),
                   if effect.accepted.Some? then REDEEMED else AUTOMATIC);
      }
    }
    forall key
      ensures CompletedOk(after.store, key)
    {
      assert CompletedOk(w.store, key);
      if key in w.store.executions && w.store.executions[key] == Completed {
        TrailGrows(w.store.table, after.store.table, |w.store.table|, |after.store.table|, key, COMPLETED);
      }
    }
  }

  /** After an append that succeeded a process needs just what it had and the record it appended. */
  lemma DoneOwes(site: Site, job: Job)
    ensures var next := AfterAppend(site, job);
            next.Busy? ==> next.job == job && Owed(next.pc, next.job) == SiteBase(site, job) + [OutcomeAt(site, job)]
  {
    if site.DecisionSite? {
      assert [] + [OutcomeAt(site, job)] == [OutcomeAt(site, job)];
    }
  }

  /** After an append that failed it needs no more than it had before. */
  lemma FailedOwes(site: Site, job: Job)
    ensures var next := AfterFailedAppend(site, job);
            next.Busy? ==> next.job == job && Owed(next.pc, next.job) == SiteBase(site, job)
  {
  }

  /** Only a commit that succeeds adds to the table, and what it adds is the event. */
  lemma OnlyCommitAdds(codec: Codec, store: Store, p: Pid, phase: Phase, event: AuditEvent, choice: Choice)
    requires PhaseOk(codec, store, p, phase, event)
    ensures var o := AppendStep(codec, store, p, phase, event, choice);
            if phase.Commit? && !choice.Fail? then
              o.Continue? && phase.record.event == event && o.store.table == store.table + [phase.record]
            else
              && o.store.table == store.table
              && (o.Done? || (o.Continue? && o.phase.Release?) ==> phase.Release?)
  {
  }

  /** The trail of an append step, before the process goes anywhere. */
  lemma StepIsBacked(codec: Codec, store: Store, p: Pid, phase: Phase, event: AuditEvent, choice: Choice,
                     base: seq<string>)
    requires PhaseOk(codec, store, p, phase, event)
    requires Trail(store.table, |store.table|, event.Key(), if phase.Release? then base + [event.outcome] else base)
    ensures var o := AppendStep(codec, store, p, phase, event, choice);
            && Trail(o.store.table, |o.store.table|, event.Key(), base)
            && (o.Done? || (o.Continue? && o.phase.Release?) ==>
                  Trail(o.store.table, |o.store.table|, event.Key(), base + [event.outcome]))
  {
    var o := AppendStep(codec, store, p, phase, event, choice);
    OnlyCommitAdds(codec, store, p, phase, event, choice);
    if phase.Release? {
      TrailShortens(store.table, |store.table|, event.Key(), base, event.outcome);
    } else if phase.Commit? && !choice.Fail? {
      TrailExtends(store.table, phase.record, event.Key(), base, event.outcome);
      TrailGrows(store.table, o.store.table, |store.table|, |o.store.table|, event.Key(), base);
    }
  }

  lemma AfterOutcomeIsBacked(o: Outcome, site: Site, job: Job)
    requires Trail(o.store.table, |o.store.table|, job.request.Key(), SiteBase(site, job))
    requires o.Done? || (o.Continue? && o.phase.Release?) ==>
             Trail(o.store.table, |o.store.table|, job.request.Key(), SiteBase(site, job) + [OutcomeAt(site, job)])
    ensures Backed(o.store.table, AfterOutcome(o, site, job))
  {
    DoneOwes(site, job);
    FailedOwes(site, job);
  }

  lemma MoveIsOutcome(env: Env, store: Store, p: Pid, site: Site, phase: Phase, job: Job, choice: Choice)
    ensures var o := AppendStep(env.codec, store, p, phase, EventAt(env, site, job), choice);
            AppendMove(env, store, p, site, phase, job, choice) == Move(o.store, AfterOutcome(o, site, job), [])
  {}

  lemma OwedAtSite(site: Site, phase: Phase, job: Job)
    ensures Owed(Append(site, phase), job)
         == if phase.Release? then SiteBase(site, job) + [OutcomeAt(site, job)] else SiteBase(site, job)
  {}

  lemma StepLeavesBacked(codec: Codec, store: Store, p: Pid, phase: Phase, event: AuditEvent, choice: Choice, site: Site,
                         job: Job, base: seq<string>)
    requires PhaseOk(codec, store, p, phase, event)
    requires event.Key() == job.request.Key() && event.outcome == OutcomeAt(site, job) && base == SiteBase(site, job)
    requires Trail(store.table, |store.table|, event.Key(), if phase.Release? then base + [event.outcome] else base)
    ensures var o := AppendStep(codec, store, p, phase, event, choice);
            Backed(o.store.table, AfterOutcome(o, site, job))
  {
    StepIsBacked(codec, store, p, phase, event, choice, base);
    AfterOutcomeIsBacked(AppendStep(codec, store, p, phase, event, choice), site, job);
  }

  lemma OutcomeIsBacked(env: Env, store: Store, p: Pid, site: Site, phase: Phase, job: Job, choice: Choice)
    requires Chain(env.codec, store.table) && PhaseOk(env.codec, store, p, phase, EventAt(env, site, job))
    requires Trail(store.table, |store.table|, job.request.Key(), Owed(Append(site, phase), job))
    ensures var m := AppendMove(env, store, p, site, phase, job, choice);
            Backed(m.store.table, m.next)
  {
    MoveIsOutcome(env, store, p, site, phase, job, choice);
    OwedAtSite(site, phase, job);
    StepLeavesBacked(env.codec, store, p, phase, EventAt(env, site, job), choice, site, job, SiteBase(site, job));
  }

  lemma AppendKeepsTrail(env: Env, w: World, p: Pid, choice: Choice)
    requires TrailInv(w) && LedgerInv(env, w) && ClaimInv(env, w)
    requires ProcOf(w, p).Busy? && ProcOf(w, p).pc.Append?
    ensures TrailInv(Step(env, w, Advance(p, choice)))
  {
    var after := Step(env, w, Advance(p, choice));
    var proc := ProcOf(w, p);
    var site, phase, job := proc.pc.site, proc.pc.phase, proc.job;
    assert ProcOk(env, w.store, p, proc) && Fits(env, proc) && Backed(w.store.table, proc);
    LedgerStep(env, w, Advance(p, choice));
    AdvanceShape(env, w, p, choice);
    AppendTouchesNoClaim(env, w.store, p, site, phase, job, choice);
    OutcomeIsBacked(env, w.store, p, site, phase, job, choice);
    TrailFrame(w, after, p);
  }

  lemma DecidedOwes(job: Job, choice: Choice)
    ensures var next := DecidedNext(job, choice);
            next.Busy? ==>
              || Owed(next.pc, next.job) == []
              || (next.job == job && Owed(next.pc, next.job) == Owed(Decided, job))
  {
    assert [OutcomeOf(PolicyDecisionKind.Approval)] == APPROVED;
    assert [OutcomeOf(Auto)] == AUTOMATIC;
    var next := DecidedNext(job, choice);
    if next.Busy? && next.pc.StartUnsigned? {
      assert job.decision.kind == Auto;
    }
  }

  predicate OwesNoMore(proc: Proc, next: Proc)
    requires proc.Busy?
  {
    next.Busy? ==>
      || Owed(next.pc, next.job) == []
      || (KeyOf(next) == KeyOf(proc) && Owed(next.pc, next.job) == Owed(proc.pc, proc.job))
  }

  lemma MarkOwes(store: Store, pc: Pc, job: Job, state: ExecutionRecoveryState, next: Proc, choice: Choice)
    requires OwesNoMore(Busy(pc, job), next)
    ensures OwesNoMore(Busy(pc, job), MarkMove(store, pc, job, state, next, choice).next)
  {
  }

  lemma EarlyOwes(env: Env, store: Store, proc: Proc, choice: Choice)
    requires proc.Busy? && proc.pc in {Evaluate, Decided, Redeem, Claim}
    ensures OwesNoMore(proc, ControlMove(env, store, proc.pc, proc.job, choice).next)
  {
    if proc.pc.Decided? {
      DecidedOwes(proc.job, choice);
    }
  }

  /** A step that writes no record leads only where no new record is needed. */
  lemma ControlOwes(env: Env, store: Store, proc: Proc, choice: Choice)
    requires proc.Busy? && !proc.pc.Append? && OnPath(proc.pc, proc.job)
    ensures OwesNoMore(proc, ControlMove(env, store, proc.pc, proc.job, choice).next)
  {
    var job := proc.job;
    match proc.pc
    case MarkUncertain => MarkOwes(store, proc.pc, job, EffectUncertain, Busy(StartEffect, job), choice);
    case MarkApplied => MarkOwes(store, proc.pc, job, EffectApplied, Busy(CheckOutput, job), choice);
    case MarkPostEffect => MarkOwes(store, proc.pc, job, PostEffectUncertain, Idle, choice);
    case MarkCompleted => MarkOwes(store, proc.pc, job, Completed, Idle, choice);
    case StartEffect =>
    case FinishEffect =>
    case CheckOutput =>
    case StartUnsigned =>
    case FinishUnsigned =>
    case _ => EarlyOwes(env, store, proc, choice);
  }

  lemma ControlIsBacked(env: Env, store: Store, proc: Proc, choice: Choice)
    requires proc.Busy? && !proc.pc.Append? && Fits(env, proc) && Backed(store.table, proc)
    ensures Backed(store.table, ControlMove(env, store, proc.pc, proc.job, choice).next)
  {
    ControlOwes(env, store, proc, choice);
  }

  lemma ControlAddsPreceded(env: Env, store: Store, proc: Proc, choice: Choice)
    requires proc.Busy? && !proc.pc.Append? && Fits(env, proc) && Backed(store.table, proc)
    ensures var m := ControlMove(env, store, proc.pc, proc.job, choice);
            forall effect | effect in m.effects :: Preceded(store.table, effect)
  {
  }

  lemma ControlCompletes(env: Env, store: Store, proc: Proc, choice: Choice, key: RequestKey)
    requires proc.Busy? && !proc.pc.Append? && Backed(store.table, proc)
    ensures var m := ControlMove(env, store, proc.pc, proc.job, choice);
            key in m.store.executions && m.store.executions[key] == Completed ==>
              (key in store.executions && store.executions[key] == Completed)
              || Trail(store.table, |store.table|, key, COMPLETED)
  {
  }

  lemma ControlKeepsTrail(env: Env, w: World, p: Pid, choice: Choice)
    requires TrailInv(w) && ClaimInv(env, w)
    requires ProcOf(w, p).Busy? && !ProcOf(w, p).pc.Append?
    ensures TrailInv(Step(env, w, Advance(p, choice)))
  {
    var after := Step(env, w, Advance(p, choice));
    var proc := ProcOf(w, p);
    assert Fits(env, proc) && Backed(w.store.table, proc);
    AdvanceShape(env, w, p, choice);
    ControlMoveKeepsLedger(env, w.store, proc.pc, proc.job, choice);
    ControlIsBacked(env, w.store, proc, choice);
    ControlAddsPreceded(env, w.store, proc, choice);
    forall key
      ensures key in after.store.executions && after.store.executions[key] == Completed ==>
                (key in w.store.executions && w.store.executions[key] == Completed) || CompletedOk(after.store, key)
    {
      ControlCompletes(env, w.store, proc, choice, key);
    }
    TrailFrame(w, after, p);
  }

  lemma TrailStep(env: Env, w: World, a: Action)
    requires TrailInv(w) && LedgerInv(env, w) && ClaimInv(env, w)
    ensures TrailInv(Step(env, w, a))
  {
    var after := Step(env, w, a);
    if a.Advance? && ProcOf(w, a.p).Busy? {
      if ProcOf(w, a.p).pc.Append? {
        AppendKeepsTrail(env, w, a.p, a.choice);
      } else {
        ControlKeepsTrail(env, w, a.p, a.choice);
      }
    } else {
      var p := if a.RemoveLock? then 0 else a.p;
      assert Backed(w.store.table, ProcOf(w, p));
      TrailFrame(w, after, p);
    }
  }

  lemma {:induction false} TrailAlways(env: Env, actions: seq<Action>)
    ensures TrailInv(Run(env, actions))
  {
    if actions != [] {
      var before := actions[..|actions| - 1];
      TrailAlways(env, before);
      LedgerAlways(env, before);
      ClaimAlways(env, before);
      TrailStep(env, Run(env, before), actions[|actions| - 1]);
    }
  }

  /** The record is of this request, by its id and its digest, and of this outcome. */
  predicate Says(record: AuditRecord, requestId: string, digest: Digest32, outcome: string) {
    record.event.requestId == requestId && record.event.envelopeDigest == digest && record.event.outcome == outcome
  }

  /** The first `n` records hold an approval of this request, later its verification, and later its consumption. */
  ghost predicate RedeemedBefore(table: seq<AuditRecord>, n: nat, requestId: string, digest: Digest32)
    requires n <= |table|
  {
    exists i, j, k | 0 <= i < j < k < n ::
      && Says(table[i], requestId, digest, "approval") && Says(table[j], requestId, digest, "approval_verified")
      && Says(table[k], requestId, digest, "approval_consumed")
  }

  lemma TrailLast(table: seq<AuditRecord>, n: nat, key: RequestKey, outcomes: seq<string>, outcome: string) returns (i: nat)
    requires n <= |table| && Trail(table, n, key, outcomes + [outcome])
    ensures i < n && Says(table[i], key.requestId, key.envelopeDigest, outcome) && Trail(table, i, key, outcomes)
  {
    var all := outcomes + [outcome];
    assert all[..|all| - 1] == outcomes && all[|all| - 1] == outcome;
    i :| 0 <= i < n && Marks(table[i], key, outcome) && Trail(table, i, key, outcomes);
  }

  lemma RedeemedTrail(table: seq<AuditRecord>, n: nat, key: RequestKey)
    requires n <= |table| && Trail(table, n, key, REDEEMED)
    ensures RedeemedBefore(table, n, key.requestId, key.envelopeDigest)
  {
    var k := TrailLast(table, n, key, VERIFIED, "approval_consumed");
    var j := TrailLast(table, k, key, APPROVED, "approval_verified");
    assert [] + ["approval"] == APPROVED;
    var i := TrailLast(table, j, key, [], "approval");
  }

  lemma AutomaticTrail(table: seq<AuditRecord>, n: nat, key: RequestKey)
    requires n <= |table| && Trail(table, n, key, AUTOMATIC)
    ensures exists i :: 0 <= i < n && Says(table[i], key.requestId, key.envelopeDigest, "auto")
  {
    assert [] + ["auto"] == AUTOMATIC;
    var i := TrailLast(table, n, key, [], "auto");
  }

  /**
   * Over whole runs of every dispatch path: when a signed execution begins the ledger already holds, in this
   * order and under its request id and digest, an "approval", an "approval_verified" and an
   * "approval_consumed" record; when an unsigned one begins it already holds an "auto" record.
   */
  lemma AuditBeforeEffect(env: Env, actions: seq<Action>)
    ensures var w := Run(env, actions);
            forall effect | effect in w.log && effect.Started? ::
              var table, request := w.store.table, effect.request;
              && effect.position <= |table|
              && (effect.accepted.Some? ==>
                    RedeemedBefore(table, effect.position, request.requestId, request.envelopeDigest))
              && (effect.accepted.None? ==>
                    exists i :: 0 <= i < effect.position && Says(table[i], request.requestId, request.envelopeDigest, "auto"))
  {
    TrailAlways(env, actions);
    var w := Run(env, actions);
    forall effect | effect in w.log && effect.Started?
      ensures effect.position <= |w.store.table|
      ensures effect.accepted.Some? ==>
              RedeemedBefore(w.store.table, effect.position, effect.request.requestId, effect.request.envelopeDigest)
      ensures effect.accepted.None? ==>
              exists i :: 0 <= i < effect.position
                          && Says(w.store.table[i], effect.request.requestId, effect.request.envelopeDigest, "auto")
    {
      assert Preceded(w.store.table, effect);
      if effect.accepted.Some? {
        RedeemedTrail(w.store.table, effect.position, effect.request.Key());
      } else {
        AutomaticTrail(w.store.table, effect.position, effect.request.Key());
      }
    }
  }

  /** A request recorded as completed has all four of its records in the ledger, in order. */
  lemma CompletedIsRecorded(env: Env, actions: seq<Action>, key: RequestKey)
    requires var executions := Run(env, actions).store.executions;
             key in executions && executions[key] == Completed
    ensures var table := Run(env, actions).store.table;
            exists n :: 0 <= n < |table| && Says(table[n], key.requestId, key.envelopeDigest, "executed")
                        && RedeemedBefore(table, n, key.requestId, key.envelopeDigest)
  {
    TrailAlways(env, actions);
    assert CompletedOk(Run(env, actions).store, key);
    var table := Run(env, actions).store.table;
    var n := TrailLast(table, |table|, key, REDEEMED, "executed");
    RedeemedTrail(table, n, key);
  }

  // ---------------------------------------------------------------------- reopening

  /** Every consumed approval that the table records has its consumption row. */
  ghost predicate Migratable(table: seq<AuditRecord>, consumed: map<RequestKey, u64>) {
    forall record | record in table && record.event.outcome == "approval_consumed" :: record.event.Key() in consumed
  }

  lemma {:induction false} NothingToMigrate(table: seq<AuditRecord>, consumed: map<RequestKey, u64>)
    requires Migratable(table, consumed)
    ensures Migrated(table, consumed) == consumed
  {
    if table != [] {
      NothingToMigrate(table[..|table| - 1], consumed);
      assert table[|table| - 1] in table;
    }
  }

  lemma OnlyConsumedSite(site: Site, job: Job)
    ensures OutcomeAt(site, job) == "approval_consumed" <==> site.ConsumedSite?
  {
    if site.DecisionSite? {
      assert |OutcomeOf(job.decision.kind)| < |"approval_consumed"|;
    }
  }

  /** A process that is about to record a consumption holds the claim. */
  lemma ConsumedIsClaimed(env: Env, w: World, p: Pid)
    requires ClaimInv(env, w) && ProcOf(w, p).Busy? && ProcOf(w, p).pc.Append?
    ensures var proc := ProcOf(w, p);
            var event := EventAt(env, proc.pc.site, proc.job);
            event.outcome == "approval_consumed" ==> event.Key() in w.store.consumed
  {
    var proc := ProcOf(w, p);
    OnlyConsumedSite(proc.pc.site, proc.job);
    assert Fits(env, proc) && HolderTruth(w, proc) && Truthful(w, proc.job.request.Key());
  }

  lemma AppendKeepsMigratable(env: Env, w: World, p: Pid, choice: Choice)
    requires Migratable(w.store.table, w.store.consumed) && LedgerInv(env, w) && ClaimInv(env, w)
    requires ProcOf(w, p).Busy? && ProcOf(w, p).pc.Append?
    ensures var after := Step(env, w, Advance(p, choice)).store; Migratable(after.table, after.consumed)
  {
    var proc := ProcOf(w, p);
    AdvanceShape(env, w, p, choice);
    assert ProcOk(env, w.store, p, proc);
    ConsumedIsClaimed(env, w, p);
    OnlyCommitAdds(env.codec, w.store, p, proc.pc.phase, EventAt(env, proc.pc.site, proc.job), choice);
    AppendTouchesNoClaim(env, w.store, p, proc.pc.site, proc.pc.phase, proc.job, choice);
  }

  lemma MigratableStep(env: Env, w: World, a: Action)
    requires Migratable(w.store.table, w.store.consumed) && LedgerInv(env, w) && ClaimInv(env, w)
    ensures Migratable(Step(env, w, a).store.table, Step(env, w, a).store.consumed)
  {
    ClaimsOnlyAdvance(env, w, a);
    if a.Advance? && ProcOf(w, a.p).Busy? {
      var proc := ProcOf(w, a.p);
      AdvanceShape(env, w, a.p, a.choice);
      if proc.pc.Append? {
        AppendKeepsMigratable(env, w, a.p, a.choice);
      } else {
        ControlMoveKeepsLedger(env, w.store, proc.pc, proc.job, a.choice);
      }
    }
  }

  lemma {:induction false} MigratableAlways(env: Env, actions: seq<Action>)
    ensures Migratable(Run(env, actions).store.table, Run(env, actions).store.consumed)
  {
    if actions != [] {
      var before := actions[..|actions| - 1];
      MigratableAlways(env, before);
      LedgerAlways(env, before);
      ClaimAlways(env, before);
      MigratableStep(env, Run(env, before), actions[|actions| - 1]);
    }
  }

  /** Reopening after a crash, as often as one likes, changes neither store nor any claim. */
  lemma ReopenChangesNothing(env: Env, actions: seq<Action>, p: Pid)
    ensures Step(env, Run(env, actions), Open(p)).store == Run(env, actions).store
  {
    MigratableAlways(env, actions);
    NothingToMigrate(Run(env, actions).store.table, Run(env, actions).store.consumed);
  }
}
