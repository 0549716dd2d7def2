/**
 * The approved-action pipeline as a step machine.  Any number of dispatcher processes share one database, one
 * JSONL file and one lock file; a step is one write or read of that shared state, and between any two steps
 * any process may die, reopen, or see the lock file it relies on removed as abandoned.
 */
module Pipeline {
  import opened Wrappers
  import opened Bytes
  import opened Protocol
  import opened Approvals
  import opened Audit
  import opened Core

  type Pid = nat

  datatype Env = Env(codec: Codec, crypto: Crypto, policy: Policy, deviceId: string)

  // ---------------------------------------------------------------- the shared state

  /** An uncommitted insert into the table: SQLite admits one writer at a time. */
  datatype Tx = NoTx | OpenTx(owner: Pid, record: AuditRecord)

  datatype Store = Store(
    table: seq<AuditRecord>,
    jsonl: seq<AuditRecord>,
    tx: Tx,
    consumed: map<RequestKey, u64>,
    executions: map<RequestKey, ExecutionRecoveryState>,
    lock: Option<Pid>)

  /** Where an append call stands in the text of a dispatch. */
  datatype Site =
    | DecisionSite
    | PolicyRequiredSite
    | ScopeDeniedSite
    | ApprovalRequiredSite
    | ChallengeSite
    | VerifiedSite
    | ConsumedSite
    | WorkerFailedSite
    | OverLimitSite
    | ExecutedSite

  datatype Phase =
    | Acquire
    | ReadDb
    | ReadFile(dbLast: Head)
    | Insert(record: AuditRecord)
    | WriteLine(record: AuditRecord)
    | Commit(record: AuditRecord)
    | Release

  datatype Pc =
    | Evaluate
    | Decided
    | Redeem
    | Claim
    | MarkUncertain
    | StartEffect
    | FinishEffect
    | MarkApplied
    | CheckOutput
    | MarkPostEffect
    | MarkCompleted
    | StartUnsigned
    | FinishUnsigned
    | Append(site: Site, phase: Phase)

  /** `dispatch_approved_at`, `dispatch_at`, and `prepare_approved_at` before and after an edit is rendered. */
  datatype Path = Signed | Direct | Prepare | PrepareEdited

  /** The approval a process accepted, with the registry of approvers it checked it against. */
  datatype Accepted = Accepted(approvers: Registry, scoped: bool, approval: SignedApproval)

  datatype Job = Job(path: Path, request: ActionRequest, decision: PolicyDecision, now: u64, accepted: Option<Accepted>)

  datatype Proc = Closed | Idle | Busy(pc: Pc, job: Job)

  /** What really happened outside the ledger, and how long the ledger was when it did. */
  datatype Effect =
    | Started(request: ActionRequest, now: u64, accepted: Option<Accepted>, position: nat)
    | Finished(key: RequestKey)

  datatype World = World(store: Store, procs: map<Pid, Proc>, log: seq<Effect>)

  const INITIAL_STORE: Store := Store([], [], NoTx, map[], map[], None)
  const INITIAL_WORLD: World := World(INITIAL_STORE, map[], [])

  function ProcOf(w: World, p: Pid): Proc {
    if p in w.procs then w.procs[p] else Closed
  }

  // ----------------------------------------------------------------------- the steps

  /** What an edit renders to: so many bytes of content, and the digest the request has with it. */
  datatype Rendering = Rendering(contentBytes: u64, digest: Digest32)

  /** The request that is authorized in place of one that asks for an edit; everything else about it stays. */
  function Rendered(request: ActionRequest, rendering: Rendering): ActionRequest {
    request.(contentBytes := Some(rendering.contentBytes), editRecipe := false, envelopeDigest := rendering.digest)
  }

  /** How a step turns out: as asked, with an error, with an error after its durable part, or with an input. */
  datatype Choice =
    | Proceed
    | Fail
    | Late
    | Edit(rendering: Rendering)
    | Present(accepted: Accepted)

  datatype Action =
    | Open(p: Pid)
    | Crash(p: Pid)
    | RemoveLock
    | Submit(p: Pid, path: Path, request: ActionRequest, now: u64)
    | Advance(p: Pid, choice: Choice)

  datatype Move = Move(store: Store, next: Proc, effects: seq<Effect>)

  predicate RemoteActionAllowed(action: string) {
    action in {"filesystem.read", "filesystem.list", "filesystem.search_files", "filesystem.search_content",
               "filesystem.info", "git.status", "git.diff", "process.list", "process.inspect", "terminal.poll",
               "terminal.cancel"}
  }

  predicate RemoteApprovedActionAllowed(action: string) {
    action in {"filesystem.write", "terminal.exec", "process.terminate", "browser.session.use"}
  }

  function OutcomeAt(site: Site, job: Job): string {
    match site
    case DecisionSite => OutcomeOf(job.decision.kind)
    case PolicyRequiredSite => "remote_approval_policy_required"
    case ScopeDeniedSite => "remote_scope_denied"
    case ApprovalRequiredSite => "remote_approval_required"
    case ChallengeSite => "approval_challenge_issued"
    case VerifiedSite => "approval_verified"
    case ConsumedSite => "approval_consumed"
    case WorkerFailedSite => "worker_failed"
    case OverLimitSite => "output_limit_exceeded"
    case ExecutedSite => "executed"
  }

  function EventAt(env: Env, site: Site, job: Job): (event: AuditEvent)
    ensures event.Key() == job.request.Key() && event.outcome == OutcomeAt(site, job)
  {
    match site
    case DecisionSite => DecisionEvent(env.policy, job.request, job.decision, job.now)
    case VerifiedSite =>
      var approver := if job.accepted.Some? then job.accepted.value.approval.approverId else "";
      ApprovalEvent(env.policy, job.request, approver, "approval_verified", job.now)
    case ConsumedSite => ApprovalEvent(env.policy, job.request, job.request.actorId, "approval_consumed", job.now)
    case _ => OutcomeEvent(env.policy, Authorization(job.request, job.decision), OutcomeAt(site, job), job.now)
  }

  /** Where control goes after an append that succeeded. */
  function AfterAppend(site: Site, job: Job): Proc {
    match site
    case DecisionSite => Busy(Decided, job)
    case VerifiedSite => Busy(Append(ConsumedSite, Acquire), job)
    case ConsumedSite => Busy(MarkUncertain, job)
    case ExecutedSite => if job.path.Signed? then Busy(MarkCompleted, job) else Idle
    case _ => Idle
  }

  function AfterFailedAppend(site: Site, job: Job): Proc {
    if site.ExecutedSite? && job.path.Signed? then Busy(MarkPostEffect, job) else Idle
  }

  predicate Taken(table: seq<AuditRecord>, record: AuditRecord) {
    exists i | 0 <= i < |table| :: table[i].sequence == record.sequence || table[i].recordHash == record.recordHash
  }

  /** An append call goes on, returns its record, or returns an error. */
  datatype Outcome = Continue(store: Store, phase: Phase) | Done(store: Store) | Failed(store: Store)

  /** One step of `Ledger::append`: lock, read both stores, insert, write the line, commit, unlock. */
  function AppendStep(codec: Codec, store: Store, p: Pid, phase: Phase, event: AuditEvent, choice: Choice): Outcome {
    var unlocked := store.(lock := None);
    var rolledBack := unlocked.(tx := NoTx);
    match phase
    case Acquire =>
      if choice.Fail? then Failed(store)
      else if store.lock.Some? then Continue(store, phase)
      else Continue(store.(lock := Some(p)), ReadDb)
    case ReadDb =>
      if choice.Fail? then Failed(unlocked) else Continue(store, ReadFile(LoadJsonlLast(store.table)))
    case ReadFile(dbLast) =>
      if choice.Fail? || LoadJsonlLast(store.jsonl) != dbLast then Failed(unlocked)
      else Continue(store, Insert(NextRecord(codec, dbLast, event)))
    case Insert(record) =>
      if choice.Fail? then Failed(unlocked)
      else if store.tx.OpenTx? then Continue(store, phase)
      else if Taken(store.table, record) then Failed(unlocked)
      else Continue(store.(tx := OpenTx(p, record)), WriteLine(record))
    case WriteLine(record) =>
      if choice.Fail? then Failed(rolledBack)
      else if choice.Late? then Failed(rolledBack.(jsonl := store.jsonl + [record]))
      else Continue(store.(jsonl := store.jsonl + [record]), Commit(record))
    case Commit(record) =>
      if choice.Fail? then Failed(rolledBack)
      else Continue(store.(table := store.table + [record], tx := NoTx), Release)
    case Release =>
      if choice.Fail? then Failed(store) else Done(unlocked)
  }

  function AfterOutcome(o: Outcome, site: Site, job: Job): Proc {
    match o
    case Continue(_, phase) => Busy(Append(site, phase), job)
    case Done(_) => AfterAppend(site, job)
    case Failed(_) => AfterFailedAppend(site, job)
  }

  function AppendMove(env: Env, store: Store, p: Pid, site: Site, phase: Phase, job: Job, choice: Choice): Move {
    var o := AppendStep(env.codec, store, p, phase, EventAt(env, site, job), choice);
    Move(o.store, AfterOutcome(o, site, job), [])
  }

  /** Moving the recovery record of the job's request, as one transaction. */
  function MarkMove(store: Store, pc: Pc, job: Job, state: ExecutionRecoveryState, next: Proc, choice: Choice): Move {
    var key := job.request.Key();
    if choice.Fail? then Move(store, Idle, [])
    else if store.tx.OpenTx? then Move(store, Busy(pc, job), [])
    else if RecoveryError(store.executions, key, state, job.now).Some? then Move(store, Idle, [])
    else Move(store.(executions := store.executions[key := state]), next, [])
  }

  predicate IsMark(pc: Pc) {
    pc.MarkUncertain? || pc.MarkApplied? || pc.MarkPostEffect? || pc.MarkCompleted?
  }

  /** The record that a mark leaves, and where it leads. */
  function MarkedState(pc: Pc): ExecutionRecoveryState
    requires IsMark(pc)
  {
    match pc
    case MarkUncertain => EffectUncertain
    case MarkApplied => EffectApplied
    case MarkPostEffect => PostEffectUncertain
    case MarkCompleted => Completed
  }

  function AfterMark(pc: Pc, job: Job): Proc
    requires IsMark(pc)
  {
    match pc
    case MarkUncertain => Busy(StartEffect, job)
    case MarkApplied => Busy(CheckOutput, job)
    case _ => Idle
  }

  /** What follows a recorded decision while an approval is prepared, once any edit has been rendered. */
  function PreparedNext(job: Job, choice: Choice): Proc {
    var request, kind := job.request, job.decision.kind;
    var writes := request.action == "filesystem.write" && request.policyAttempt;
    var safeTerminal := request.action == "terminal.exec" && job.decision.reasonCode == "terminal_safe_list";
    if kind == Auto && (writes || safeTerminal) then Busy(StartUnsigned, job)
    else if kind != PolicyDecisionKind.Approval then Busy(Append(PolicyRequiredSite, Acquire), job)
    else if choice.Fail? then Idle
    else Busy(Append(ChallengeSite, Acquire), job)
  }

  /** What follows a recorded decision, on each of the dispatch paths. */
  function DecidedNext(job: Job, choice: Choice): Proc {
    var request, kind := job.request, job.decision.kind;
    match job.path
    case Signed =>
      if kind == Deny then Idle
      else if kind == PolicyDecisionKind.Approval then Busy(Redeem, job)
      else Busy(Append(PolicyRequiredSite, Acquire), job)
    case Direct =>
      if !RemoteActionAllowed(request.action) then Busy(Append(ScopeDeniedSite, Acquire), job)
      else if kind == Deny then Idle
      else if kind == PolicyDecisionKind.Approval then Busy(Append(ApprovalRequiredSite, Acquire), job)
      else Busy(StartUnsigned, job)
    case Prepare =>
      if kind == Deny then Idle
      else if !request.editRecipe then PreparedNext(job, choice)
      else if choice.Edit? then Busy(Evaluate, job.(path := PrepareEdited, request := Rendered(request, choice.rendering)))
      else Idle
    case PrepareEdited => PreparedNext(job, choice)
  }

  predicate RedeemAccepts(env: Env, store: Store, job: Job, accepted: Accepted) {
    && (exists i | 0 <= i < |store.table| :: Marks(store.table[i], job.request.Key(), "approval"))
    && VerifyApproval(env.crypto, accepted.approvers, accepted.scoped, job.request,
                      env.policy.evaluate(job.request), accepted.approval, job.now).Ok?
  }

  function ControlMove(env: Env, store: Store, pc: Pc, job: Job, choice: Choice): Move
    requires !pc.Append?
  {
    var key, n := job.request.Key(), |store.table|;
    match pc
    case Evaluate =>
      if !env.crypto.sealed(job.request, job.now) then Move(store, Idle, [])
      else
        var limited := RateLimited(env.policy, EventsOf(store.table), job.request, job.now);
        if limited.Err? then Move(store, Idle, [])
        else Move(store, Busy(Append(DecisionSite, Acquire), job.(decision := limited.value)), [])
    case Decided => Move(store, DecidedNext(job, choice), [])
    case Redeem =>
      if choice.Present? && RedeemAccepts(env, store, job, choice.accepted)
      then Move(store, Busy(Claim, job.(accepted := Some(choice.accepted))), [])
      else Move(store, Idle, [])
    case Claim =>
      if choice.Fail? then Move(store, Idle, [])
      else if store.tx.OpenTx? then Move(store, Busy(pc, job), [])
      else
        var (consumed, executions, r) := ClaimEffect(store.consumed, store.executions, key, job.now);
        Move(store.(consumed := consumed, executions := executions),
             if r == Ok(true) then Busy(Append(VerifiedSite, Acquire), job) else Idle, [])
    case MarkUncertain => MarkMove(store, pc, job, EffectUncertain, Busy(StartEffect, job), choice)
    case StartEffect => Move(store, Busy(FinishEffect, job), [Started(job.request, job.now, job.accepted, n)])
    case FinishEffect =>
      if choice.Fail? then Move(store, Busy(Append(WorkerFailedSite, Acquire), job), [])
      else Move(store, Busy(MarkApplied, job), [Finished(key)])
    case MarkApplied => MarkMove(store, pc, job, EffectApplied, Busy(CheckOutput, job), choice)
    case CheckOutput =>
      var site := if choice.Fail? then OverLimitSite else ExecutedSite;
      Move(store, Busy(Append(site, Acquire), job), [])
    case MarkPostEffect => MarkMove(store, pc, job, PostEffectUncertain, Idle, choice)
    case MarkCompleted => MarkMove(store, pc, job, Completed, Idle, choice)
    case StartUnsigned => Move(store, Busy(FinishUnsigned, job), [Started(job.request, job.now, None, n)])
    case FinishUnsigned =>
      if choice.Fail? then
        Move(store, if job.path.Direct? then Busy(Append(WorkerFailedSite, Acquire), job) else Idle, [])
      else Move(store, if job.path.Direct? then Busy(CheckOutput, job) else Busy(Append(ExecutedSite, Acquire), job), [])
  }

  function AdvanceMove(env: Env, store: Store, p: Pid, pc: Pc, job: Job, choice: Choice): Move {
    match pc
    case Append(site, phase) => AppendMove(env, store, p, site, phase, job, choice)
    case _ => ControlMove(env, store, pc, job, choice)
  }

  /** Consumption rows for the consumed approvals that the table records. */
  function Migrated(table: seq<AuditRecord>, consumed: map<RequestKey, u64>): map<RequestKey, u64> {
    if table == [] then consumed
    else
      var n := |table| - 1;
      var before := Migrated(table[..n], consumed);
      var event := table[n].event;
      if event.outcome == "approval_consumed" && event.Key() !in before
      then before[event.Key() := event.timestampUnixMs] else before
  }

  /** A step of the machine; an action that does not apply changes nothing. */
  function Step(env: Env, w: World, a: Action): World {
    match a
    case Open(p) =>
      if !ProcOf(w, p).Closed? then w
      else
        var store := w.store.(consumed := Migrated(w.store.table, w.store.consumed));
        var opens := LoadJsonlLast(store.table) == LoadJsonlLast(store.jsonl);
        World(store, w.procs[p := if opens then Idle else Closed], w.log)
    case Crash(p) =>
      var dead := w.store.tx.OpenTx? && w.store.tx.owner == p;
      World(if dead then w.store.(tx := NoTx) else w.store, w.procs[p := Closed], w.log)
    case RemoveLock => w.(store := w.store.(lock := None))
    case Submit(p, path, request, now) =>
      if !ProcOf(w, p).Idle? || request.deviceId != env.deviceId || path.PrepareEdited?
         || (!path.Direct? && !RemoteApprovedActionAllowed(request.action)) then w
      else
        var job := Job(path, request, env.policy.evaluate(request), now, None);
        w.(procs := w.procs[p := Busy(Evaluate, job)])
    case Advance(p, choice) =>
      match ProcOf(w, p)
      case Busy(pc, job) =>
        var move := AdvanceMove(env, w.store, p, pc, job, choice);
        World(move.store, w.procs[p := move.next], w.log + move.effects)
      case _ => w
  }

  function Run(env: Env, actions: seq<Action>): World {
    if actions == [] then INITIAL_WORLD else Step(env, Run(env, actions[..|actions| - 1]), actions[|actions| - 1])
  }

  // ---------------------------------------------------------- trails in the ledger

  predicate Marks(record: AuditRecord, key: RequestKey, outcome: string) {
    record.event.Key() == key && record.event.outcome == outcome
  }

  /** The first `n` records hold one record of this key for each outcome, in this order. */
  ghost predicate Trail(table: seq<AuditRecord>, n: nat, key: RequestKey, outcomes: seq<string>)
    requires n <= |table|
  {
    outcomes == []
    || exists i | 0 <= i < n ::
         Marks(table[i], key, outcomes[|outcomes| - 1]) && Trail(table, i, key, outcomes[..|outcomes| - 1])
  }

  lemma {:induction false} TrailGrows(table: seq<AuditRecord>, longer: seq<AuditRecord>, n: nat, m: nat,
                                      key: RequestKey, outcomes: seq<string>)
    requires table <= longer && n <= m <= |longer| && n <= |table|
    requires Trail(table, n, key, outcomes)
    ensures Trail(longer, m, key, outcomes)
    decreases |outcomes|
  {
    if outcomes != [] {
      var k := |outcomes| - 1;
      var i :| 0 <= i < n && Marks(table[i], key, outcomes[k]) && Trail(table, i, key, outcomes[..k]);
      TrailGrows(table, longer, i, i, key, outcomes[..k]);
      assert longer[i] == table[i];
    }
  }

  lemma TrailExtends(table: seq<AuditRecord>, record: AuditRecord, key: RequestKey, outcomes: seq<string>, outcome: string)
    requires Trail(table, |table|, key, outcomes) && Marks(record, key, outcome)
    ensures Trail(table + [record], |table| + 1, key, outcomes + [outcome])
  {
    var longer, all := table + [record], outcomes + [outcome];
    assert all[..|all| - 1] == outcomes && all[|all| - 1] == outcome;
    TrailGrows(table, longer, |table|, |table|, key, outcomes);
    assert longer[|table|] == record;
  }
}
