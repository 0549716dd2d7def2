/**
 * The dispatcher's own code, statement by statement, against the step machine: whatever its input and however
 * its reads and writes fail, a call does nothing that the machine could not do, so that everything proved of
 * the machine's runs holds of the code.
 */
module Dispatch {
  import opened Wrappers
  import opened Bytes
  import opened Protocol
  import opened Approvals
  import opened Audit
  import opened Core
  import opened Pipeline
  import opened Reachability
  import opened PolicySafety

  // ------------------------------------------------------------- one append, undisturbed

  function AppendRun(codec: Codec, store: Store, p: Pid, phase: Phase, event: AuditEvent, choices: seq<Choice>): Outcome
    decreases |choices|
  {
    if choices == [] then Continue(store, phase)
    else
      var o := AppendStep(codec, store, p, phase, event, choices[0]);
      if o.Continue? then AppendRun(codec, o.store, p, o.phase, event, choices[1..]) else o
  }

  function Times(n: nat, last: Choice): seq<Choice> {
    if n == 0 then [last] else [Proceed] + Times(n - 1, last)
  }

  /** What an append of this record, to stores that agree so far, comes to when it meets no other process. */
  function SoloInsert(store: Store, p: Pid, record: AuditRecord, fault: AppendFault): Outcome {
    var lined := store.(jsonl := store.jsonl + [record]);
    var both := lined.(table := store.table + [record]);
    if fault == InsertFails || Taken(store.table, record) || fault == LineFails then Failed(store)
    else match fault
      case SyncFails => Failed(lined)
      case CommitFails => Failed(lined)
      case ReleaseFails => Failed(both.(lock := Some(p)))
      case _ => Done(both)
  }

  /** What an append that meets no other process comes to. */
  function SoloOutcome(codec: Codec, store: Store, p: Pid, event: AuditEvent, fault: AppendFault): Outcome {
    if fault == LockTimesOut || LoadJsonlLast(store.jsonl) != LoadJsonlLast(store.table) then Failed(store)
    else SoloInsert(store, p, NextRecord(codec, LoadJsonlLast(store.table), event), fault)
  }

  lemma Tick(codec: Codec, store: Store, p: Pid, phase: Phase, event: AuditEvent, n: nat, last: Choice)
    requires n > 0
    ensures var o := AppendStep(codec, store, p, phase, event, Proceed);
            AppendRun(codec, store, p, phase, event, Times(n, last))
            == if o.Continue? then AppendRun(codec, o.store, p, o.phase, event, Times(n - 1, last)) else o
  {
    assert Times(n, last)[1..] == Times(n - 1, last);
  }

  lemma LastTick(codec: Codec, store: Store, p: Pid, phase: Phase, event: AuditEvent, last: Choice)
    ensures AppendRun(codec, store, p, phase, event, Times(0, last))
         == AppendStep(codec, store, p, phase, event, last)
  {
    var o := AppendStep(codec, store, p, phase, event, last);
    assert Times(0, last)[1..] == [];
    assert o.Continue? ==> AppendRun(codec, o.store, p, o.phase, event, []) == o;
  }

  /** The opening of an append: lock, two reads, and the comparison. */
  lemma OpeningTicks(codec: Codec, store: Store, p: Pid, event: AuditEvent, n: nat, last: Choice)
    requires store.lock.None? && store.tx.NoTx? && n >= 3
    ensures var head := LoadJsonlLast(store.table);
            AppendRun(codec, store, p, Acquire, event, Times(n, last))
            == if LoadJsonlLast(store.jsonl) != head then Failed(store)
               else AppendRun(codec, store.(lock := Some(p)), p, Insert(NextRecord(codec, head, event)), event,
                       Times(n - 3, last))
  {
    var locked := store.(lock := Some(p));
    var head := LoadJsonlLast(store.table);
    Tick(codec, store, p, Acquire, event, n, last);
    Tick(codec, locked, p, ReadDb, event, n - 1, last);
    Tick(codec, locked, p, ReadFile(head), event, n - 2, last);
  }

  lemma ClosingTicks(codec: Codec, store: Store, p: Pid, event: AuditEvent, record: AuditRecord, n: nat, last: Choice)
    requires store.lock == Some(p) && store.tx.NoTx? && 1 <= n <= 3 && !Taken(store.table, record)
    ensures var lined := store.(tx := OpenTx(p, record), jsonl := store.jsonl + [record]);
            var both := lined.(tx := NoTx, table := store.table + [record]);
            AppendRun(codec, store, p, Insert(record), event, Times(n, last))
            == if n == 1 then AppendStep(codec, store.(tx := OpenTx(p, record)), p, WriteLine(record), event, last)
               else if n == 2 then AppendStep(codec, lined, p, Commit(record), event, last)
               else AppendStep(codec, both, p, Release, event, last)
  {
    var inserted := store.(tx := OpenTx(p, record));
    var lined := inserted.(jsonl := store.jsonl + [record]);
    var both := lined.(tx := NoTx, table := store.table + [record]);
    Tick(codec, store, p, Insert(record), event, n, last);
    if n == 1 {
      LastTick(codec, inserted, p, WriteLine(record), event, last);
    } else {
      Tick(codec, inserted, p, WriteLine(record), event, n - 1, last);
      if n == 2 {
        LastTick(codec, lined, p, Commit(record), event, last);
      } else {
        Tick(codec, lined, p, Commit(record), event, n - 2, last);
        LastTick(codec, both, p, Release, event, last);
      }
    }
  }

  /** How many steps go well before the step that the fault strikes, and what happens there. */
  function Strikes(fault: AppendFault): (nat, Choice) {
    match fault
    case LockTimesOut => (0, Fail)
    case InsertFails => (3, Fail)
    case LineFails => (4, Fail)
    case SyncFails => (4, Late)
    case CommitFails => (5, Fail)
    case ReleaseFails => (6, Fail)
    case NoFault => (6, Proceed)
  }

  lemma SoloClosing(codec: Codec, store: Store, p: Pid, event: AuditEvent, record: AuditRecord, fault: AppendFault)
    requires store.lock.None? && store.tx.NoTx? && fault != LockTimesOut && fault != InsertFails
    ensures AppendRun(codec, store.(lock := Some(p)), p, Insert(record), event, Times(Strikes(fault).0 - 3, Strikes(fault).1))
         == SoloInsert(store, p, record, fault)
  {
    var locked := store.(lock := Some(p));
    var n: nat := Strikes(fault).0 - 3;
    if Taken(store.table, record) {
      Tick(codec, locked, p, Insert(record), event, n, Strikes(fault).1);
    } else {
      ClosingTicks(codec, locked, p, event, record, n, Strikes(fault).1);
    }
  }

  lemma SoloAppend(codec: Codec, store: Store, p: Pid, event: AuditEvent, fault: AppendFault)
    requires store.lock.None? && store.tx.NoTx?
    ensures AppendRun(codec, store, p, Acquire, event, Times(Strikes(fault).0, Strikes(fault).1))
         == SoloOutcome(codec, store, p, event, fault)
  {
    var head := LoadJsonlLast(store.table);
    if fault == LockTimesOut {
      LastTick(codec, store, p, Acquire, event, Fail);
    } else {
      OpeningTicks(codec, store, p, event, Strikes(fault).0, Strikes(fault).1);
      if LoadJsonlLast(store.jsonl) == head {
        if fault == InsertFails {
          LastTick(codec, store.(lock := Some(p)), p, Insert(NextRecord(codec, head, event)), event, Fail);
        } else {
          SoloClosing(codec, store, p, event, NextRecord(codec, head, event), fault);
        }
      }
    }
  }

  /** A run of append steps on the store is a run of the machine. */
  lemma {:induction false} AppendRunDrives(env: Env, w: World, p: Pid, site: Site, phase: Phase, job: Job,
          choices: seq<Choice>)
    requires ProcOf(w, p) == Busy(Append(site, phase), job)
    ensures var o := AppendRun(env.codec, w.store, p, phase, EventAt(env, site, job), choices);
            Drives(env, p, w, World(o.store, w.procs[p := AfterOutcome(o, site, job)], w.log))
    decreases |choices|
  {
    if choices == [] {
      DrivesSelf(env, p, w);
      assert w.procs[p := Busy(Append(site, phase), job)] == w.procs;
    } else {
      var o := AppendStep(env.codec, w.store, p, phase, EventAt(env, site, job), choices[0]);
      var v := Step(env, w, Advance(p, choices[0]));
      assert w.log + [] == w.log;
      assert v == World(o.store, w.procs[p := AfterOutcome(o, site, job)], w.log);
      if o.Continue? {
        AppendRunDrives(env, v, p, site, o.phase, job, choices[1..]);
        var last := AppendRun(env.codec, o.store, p, o.phase, EventAt(env, site, job), choices[1..]);
        assert v.procs[p := AfterOutcome(last, site, job)] == w.procs[p := AfterOutcome(last, site, job)];
        DrivesThen(env, p, w, Advance(p, choices[0]), World(last.store, w.procs[p := AfterOutcome(last, site, job)], w.log));
      } else {
        DrivesSelf(env, p, v);
        DrivesThen(env, p, w, Advance(p, choices[0]), v);
      }
    }
  }

  /** The world after an append that meets no other process; a lock file left behind is first removed. */
  function Recorded(env: Env, w: World, p: Pid, site: Site, job: Job, fault: AppendFault): World {
    var o := SoloOutcome(env.codec, w.store.(lock := None), p, EventAt(env, site, job), fault);
    World(o.store, w.procs[p := AfterOutcome(o, site, job)], w.log)
  }

  lemma SoloLeavesOwnLock(codec: Codec, store: Store, p: Pid, event: AuditEvent, fault: AppendFault)
    requires store.lock.None?
    ensures var o := SoloOutcome(codec, store, p, event, fault);
            !o.Continue? && (o.store.lock.Some? ==> o.store.lock.value == p)
  {}

  lemma RecordedReaches(env: Env, w: World, p: Pid, site: Site, job: Job, fault: AppendFault)
    requires ProcOf(w, p) == Busy(Append(site, Acquire), job) && w.store.tx.NoTx?
    ensures Reaches(env, p, w, Recorded(env, w, p, site, job, fault))
  {
    var v := Step(env, w, RemoveLock);
    SoloAppend(env.codec, v.store, p, EventAt(env, site, job), fault);
    SoloLeavesOwnLock(env.codec, v.store, p, EventAt(env, site, job), fault);
    AppendRunDrives(env, v, p, site, Acquire, job, Times(Strikes(fault).0, Strikes(fault).1));
    ReachesUnlocked(env, p, w, Recorded(env, w, p, site, job, fault));
  }

  /** The ledger's append and the machine's come to the same. */
  lemma AppendsAgree(codec: Codec, store: Store, p: Pid, event: AuditEvent, fault: AppendFault)
    ensures var o := SoloOutcome(codec, store, p, event, fault);
            var (rows, jsonl, r) := AppendEffect(codec, RowsOf(codec, store.table), store.jsonl, event, fault);
            && rows == RowsOf(codec, o.store.table) && jsonl == o.store.jsonl
            && (r.Ok? <==> o.Done?) && !o.Continue?
            && o.store.tx == store.tx && o.store.consumed == store.consumed && o.store.executions == store.executions
  {
    var rows := RowsOf(codec, store.table);
    var record := NextRecord(codec, LoadJsonlLast(store.table), event);
    HeadOfRows(codec, store.table);
    RowsSnoc(codec, store.table, record);
    ConflictsAgree(codec, store.table, record);
  }

  lemma ConflictsAgree(codec: Codec, table: seq<AuditRecord>, record: AuditRecord)
    ensures Conflicts(RowsOf(codec, table), RowOf(codec, record)) <==> Taken(table, record)
  {
    var rows := RowsOf(codec, table);
    assert forall i | 0 <= i < |table| :: rows[i] == RowOf(codec, table[i]);
    if Taken(table, record) {
      var i :| 0 <= i < |table| && (table[i].sequence == record.sequence || table[i].recordHash == record.recordHash);
      assert rows[i].sequence == RowOf(codec, record).sequence || rows[i].recordHash == RowOf(codec, record).recordHash;
    }
    if Conflicts(rows, RowOf(codec, record)) {
      var i :| 0 <= i < |rows|
               && (|| rows[i].sequence == RowOf(codec, record).sequence
                   || rows[i].recordHash == RowOf(codec, record).recordHash);
      assert table[i].sequence == record.sequence || table[i].recordHash == record.recordHash;
    }
  }

  // ------------------------------------------------------------------ the dispatcher

  datatype DispatchError =
    | WrongDevice
    | RemoteActionNotAllowed
    | Denied
    | ApprovalRequired
    | RemoteApprovalPolicyRequired
    | Core(core: CoreError)
    | Worker
    | OutputTooLarge(length: nat)
    | PostEffectUncertain(core: CoreError)
    | InvalidFilesystemParameters
    | Clock
    | Approval(approval: ApprovalError)

  /** Which of the reads and writes of one call fail. */
  datatype Faults = Faults(
    authorize: AppendFault,
    claim: bool,
    verified: AppendFault,
    consumed: AppendFault,
    uncertain: bool,
    applied: bool,
    outcome: AppendFault,
    closing: bool)

  const CHALLENGE_TTL_MS: u64 := 120_000

  /** What preparing an approval yields: a challenge to sign, or the output of a write that needed none. */
  datatype Preparation = ToSign(challenge: ApprovalChallenge) | Ran(length: nat)

  /** What the worker reports: the length of its output, or that it failed. */
  type WorkerReport = Option<nat>

  /** What is recorded of an execution that ended like this. */
  function OutcomeFor(worker: WorkerReport, maxOutputBytes: nat): string {
    if worker.None? then "worker_failed"
    else if worker.value > maxOutputBytes then "output_limit_exceeded"
    else "executed"
  }

  /** The table and the file once the broker has recorded this outcome, and what the broker answers. */
  function Noted(env: Env, rows: seq<Row>, jsonl: seq<AuditRecord>, authorization: Authorization, outcome: string,
                 now: u64, fault: AppendFault): (seq<Row>, seq<AuditRecord>, Result<Unit, CoreError>)
  {
    var event := OutcomeEvent(env.policy, authorization, outcome, now);
    var (newRows, newJsonl, r) := AppendEffect(env.codec, rows, jsonl, event, fault);
    (newRows, newJsonl, if r.Ok? then Ok(Unit.Unit) else Err(CoreError.Audit(r.error)))
  }

  /** An outcome that cannot be recorded is answered with the broker's error, whatever else went wrong. */
  function Otherwise(recorded: Result<Unit, CoreError>, r: Result<nat, DispatchError>): Result<nat, DispatchError> {
    if recorded.Err? then Err(DispatchError.Core(recorded.error)) else r
  }

  lemma DecidesAgree(env: Env, store: Store, request: ActionRequest, now: u64)
    requires env.codec.Faithful()
    ensures var decided := Core.Decide(env.policy, env.crypto, env.codec, RowsOf(env.codec, store.table), request, now);
            var limited := RateLimited(env.policy, EventsOf(store.table), request, now);
            && (decided.Ok? <==> env.crypto.sealed(request, now) && limited.Ok?)
            && (decided.Ok? ==> decided.value == limited.value)
  {
    TableEventsOfChain(env.codec, store.table);
  }

  lemma PreparedAgree(env: Env, table: seq<AuditRecord>, key: RequestKey, outcome: string)
    requires env.codec.Faithful()
    ensures FoundBeforeBroken(env.codec, RowsOf(env.codec, table), key, outcome)
       <==> exists i | 0 <= i < |table| :: Marks(table[i], key, outcome)
  {
    var rows := RowsOf(env.codec, table);
    forall i | 0 <= i < |table|
      ensures Parses(env.codec, rows[i])
      ensures HasOutcome(env.codec, rows[i], key, outcome) <==> Marks(table[i], key, outcome)
    {
      assert rows[i] == RowOf(env.codec, table[i]);
    }
    if exists i | 0 <= i < |table| :: Marks(table[i], key, outcome) {
      var i :| 0 <= i < |table| && Marks(table[i], key, outcome);
      assert HasOutcome(env.codec, rows[i], key, outcome) && forall j | 0 <= j < i :: Parses(env.codec, rows[j]);
    }
  }

  lemma ClaimsAgree(env: Env, store: Store, job: Job, accepted: Accepted, faulty: bool)
    requires env.codec.Faithful()
    ensures Claimable(env.policy, env.crypto, env.codec, accepted.approvers, accepted.scoped, RowsOf(env.codec, store.table),
                      store.consumed, store.executions, job.request, accepted.approval, job.now, faulty)
       <==> RedeemAccepts(env, store, job, accepted) && !faulty && job.now <= I64_MAX
            && job.request.Key() !in store.consumed && job.request.Key() !in store.executions
  {
    PreparedAgree(env, store.table, job.request.Key(), "approval");
  }

  /** The machine's append, seen from the ledger. */
  lemma RecordedAgrees(env: Env, w: World, p: Pid, site: Site, job: Job, event: AuditEvent, fault: AppendFault)
    requires w.store.tx.NoTx? && event == EventAt(env, site, job)
    ensures var n := Recorded(env, w, p, site, job, fault);
            var effect := AppendEffect(env.codec, RowsOf(env.codec, w.store.table), w.store.jsonl, event, fault);
            && RowsOf(env.codec, n.store.table) == effect.0 && n.store.jsonl == effect.1
            && ProcOf(n, p) == (if effect.2.Ok? then AfterAppend(site, job) else AfterFailedAppend(site, job))
            && n.store.tx.NoTx? && n.log == w.log
            && n.store.consumed == w.store.consumed && n.store.executions == w.store.executions
  {
    AppendsAgree(env.codec, w.store.(lock := None), p, event, fault);
  }

  /** The two records of a claimed approval. */
  function TwoRecorded(env: Env, w: World, p: Pid, job: Job, f1: AppendFault, f2: AppendFault): World {
    var first := Recorded(env, w, p, VerifiedSite, job, f1);
    if ProcOf(first, p).Busy? then Recorded(env, first, p, ConsumedSite, job, f2) else first
  }

  lemma TwoRecordedReaches(env: Env, w: World, p: Pid, job: Job, f1: AppendFault, f2: AppendFault)
    requires w.store.tx.NoTx? && ProcOf(w, p) == Busy(Append(VerifiedSite, Acquire), job)
    requires var first := Recorded(env, w, p, VerifiedSite, job, f1);
             && first.store.tx.NoTx?
             && (ProcOf(first, p).Busy? ==> ProcOf(first, p) == Busy(Append(ConsumedSite, Acquire), job))
    ensures Reaches(env, p, w, TwoRecorded(env, w, p, job, f1, f2))
  {
    var first := Recorded(env, w, p, VerifiedSite, job, f1);
    RecordedReaches(env, w, p, VerifiedSite, job, f1);
    if ProcOf(first, p).Busy? {
      RecordedReaches(env, first, p, ConsumedSite, job, f2);
      ReachesTrans(env, p, w, first, Recorded(env, first, p, ConsumedSite, job, f2));
    }
  }

  lemma AfterVerified(job: Job, ok: bool)
    ensures (if ok then AfterAppend(VerifiedSite, job) else AfterFailedAppend(VerifiedSite, job))
         == if ok then Busy(Append(ConsumedSite, Acquire), job) else Idle
    ensures (if ok then AfterAppend(ConsumedSite, job) else AfterFailedAppend(ConsumedSite, job))
         == if ok then Busy(MarkUncertain, job) else Idle
  {}

  lemma TwoRecordedAgree(env: Env, w: World, p: Pid, job: Job, e1: AuditEvent, f1: AppendFault, e2: AuditEvent,
                         f2: AppendFault)
    requires w.store.tx.NoTx? && ProcOf(w, p) == Busy(Append(VerifiedSite, Acquire), job)
    requires e1 == EventAt(env, VerifiedSite, job) && e2 == EventAt(env, ConsumedSite, job)
    ensures var n := TwoRecorded(env, w, p, job, f1, f2);
            && Reaches(env, p, w, n) && n.store.tx.NoTx? && n.log == w.log
            && n.store.consumed == w.store.consumed && n.store.executions == w.store.executions
            && (RowsOf(env.codec, n.store.table), n.store.jsonl, ProcOf(n, p).Busy?)
               == AppendTwo(env.codec, RowsOf(env.codec, w.store.table), w.store.jsonl, e1, f1, e2, f2)
            && ProcOf(n, p) == if ProcOf(n, p).Busy? then Busy(MarkUncertain, job) else Idle
  {
    var first := Recorded(env, w, p, VerifiedSite, job, f1);
    var effect := AppendEffect(env.codec, RowsOf(env.codec, w.store.table), w.store.jsonl, e1, f1);
    RecordedAgrees(env, w, p, VerifiedSite, job, e1, f1);
    AfterVerified(job, effect.2.Ok?);
    TwoRecordedReaches(env, w, p, job, f1, f2);
    if effect.2.Ok? {
      var second := AppendEffect(env.codec, effect.0, effect.1, e2, f2);
      RecordedAgrees(env, first, p, ConsumedSite, job, e2, f2);
      AfterVerified(job, second.2.Ok?);
    }
  }

  lemma PresentShape(env: Env, w: World, p: Pid, job: Job, accepted: Accepted)
    requires ProcOf(w, p) == Busy(Pc.Redeem, job)
    ensures var after := Step(env, w, Advance(p, Present(accepted)));
            && after.store == w.store && after.log == w.log
            && ProcOf(after, p) == if RedeemAccepts(env, w.store, job, accepted)
                                   then Busy(Claim, job.(accepted := Some(accepted))) else Idle
  {}

  lemma ClaimShape(env: Env, w: World, p: Pid, job: Job, faulty: bool)
    requires ProcOf(w, p) == Busy(Claim, job) && w.store.tx.NoTx?
    ensures var after := Step(env, w, Advance(p, if faulty then Fail else Proceed));
            var key := job.request.Key();
            var claimed := !faulty && job.now <= I64_MAX && key !in w.store.consumed && key !in w.store.executions;
            && after.log == w.log
            && after.store == (if claimed then w.store.(consumed := w.store.consumed[key := job.now],
                                                        executions := w.store.executions[key := NotExecuted])
                               else w.store)
            && ProcOf(after, p) == if claimed then Busy(Append(VerifiedSite, Acquire), job) else Idle
  {}

  /** The answer to an unsigned execution that ended like this. */
  function AnswerFor(worker: WorkerReport, maxOutputBytes: nat): Result<nat, DispatchError> {
    if worker.None? then Err(Worker)
    else if worker.value > maxOutputBytes then Err(OutputTooLarge(worker.value))
    else Ok(worker.value)
  }

  /** How a decided unsigned request ends: what is added to the table and the file, and the answer. */
  predicate DirectEnds(env: Env, rows: seq<Row>, jsonl: seq<AuditRecord>, newRows: seq<Row>, newJsonl: seq<AuditRecord>,
                       authorization: Authorization, now: u64, fault: AppendFault, worker: WorkerReport,
                       maxOutputBytes: nat, r: Result<nat, DispatchError>) {
    var allowed, kind := OnlyReads(authorization.request.action), authorization.decision.kind;
    if allowed && kind == Deny then newRows == rows && newJsonl == jsonl && r == Err(Denied)
    else
      var outcome := if !allowed then "remote_scope_denied"
                     else if kind == Auto then OutcomeFor(worker, maxOutputBytes) else "remote_approval_required";
      var (notedRows, notedJsonl, recorded) := Noted(env, rows, jsonl, authorization, outcome, now, fault);
      && newRows == notedRows && newJsonl == notedJsonl
      && r == Otherwise(recorded, if !allowed then Err(RemoteActionNotAllowed)
                                  else if kind == Auto then AnswerFor(worker, maxOutputBytes) else Err(ApprovalRequired))
  }

  /** The challenge for a decision that asks for approval, if one can be issued. */
  function ChallengeFor(env: Env, authorization: Authorization, now: u64, nonce: Digest32)
    : Result<ApprovalChallenge, DispatchError>
  {
    var request := authorization.request;
    if now + 120_000 > U64_MAX then Err(Clock)
    else
      match Issue(env.crypto, request, authorization.decision, now, Min(now + 120_000, request.expiresAtUnixMs), nonce)
      case Err(error) => Err(DispatchError.Approval(error))
      case Ok(challenge) => Ok(challenge)
  }

  function FirstError(recorded: Result<Unit, CoreError>, r: Result<Preparation, DispatchError>)
    : Result<Preparation, DispatchError>
  {
    if recorded.Err? then Err(DispatchError.Core(recorded.error)) else r
  }

  /**
   * What is recorded when a decided request is prepared, and the answer. It runs at once exactly if the policy decided
   * "auto" and it is a write that relies on the policy or a command on the safe list; any other request that is
   * decided "auto" is told to be signed.
   */
  function PreparedAnswer(env: Env, authorization: Authorization, now: u64, nonce: Digest32, worker: WorkerReport)
    : (Option<string>, Result<Preparation, DispatchError>)
  {
    if RunsUnasked(authorization.request, authorization.decision) then
      if worker.None? then (None, Err(Worker)) else (Some("executed"), Ok(Ran(worker.value)))
    else if authorization.decision.kind != PolicyDecisionKind.Approval then
      (Some("remote_approval_policy_required"), Err(RemoteApprovalPolicyRequired))
    else
      match ChallengeFor(env, authorization, now, nonce)
      case Err(error) => (None, Err(error))
      case Ok(challenge) => (Some("approval_challenge_issued"), Ok(ToSign(challenge)))
  }

  /** The outcome, if there is one, is recorded before the answer, and a record that fails is the answer. */
  predicate PreparedEnds(env: Env, rows: seq<Row>, jsonl: seq<AuditRecord>, newRows: seq<Row>, newJsonl: seq<AuditRecord>,
                         authorization: Authorization, now: u64, nonce: Digest32, fault: AppendFault, worker: WorkerReport,
                         r: Result<Preparation, DispatchError>) {
    var (outcome, answer) := PreparedAnswer(env, authorization, now, nonce, worker);
    if outcome.None? then newRows == rows && newJsonl == jsonl && r == answer
    else
      var (notedRows, notedJsonl, recorded) := Noted(env, rows, jsonl, authorization, outcome.value, now, fault);
      newRows == notedRows && newJsonl == notedJsonl && r == FirstError(recorded, answer)
  }

  /** What keeps a request from being prepared at all. */
  function PreparingError(env: Env, request: ActionRequest): Option<DispatchError> {
    if request.deviceId != env.deviceId then Some(WrongDevice)
    else if !TakesSignature(request.action) then Some(RemoteActionNotAllowed)
    else None
  }

  /** The request asked for is authorized, unless it is denied. */
  function AuthorizesFirst(env: Env, rows: seq<Row>, jsonl: seq<AuditRecord>, request: ActionRequest, now: u64,
                           fault: AppendFault): (seq<Row>, seq<AuditRecord>, Result<Authorization, DispatchError>)
  {
    var (newRows, newJsonl, decided) := Authorizing(env.policy, env.crypto, env.codec, rows, jsonl, request, now, fault);
    (newRows, newJsonl, if decided.Err? then Err(DispatchError.Core(decided.error))
                        else if decided.value.decision.kind == Deny then Err(Denied) else Ok(decided.value))
  }

  /** The request rendered from an edit is authorized in its place. */
  function AuthorizesRendered(env: Env, rows: seq<Row>, jsonl: seq<AuditRecord>, request: ActionRequest,
                              edited: Option<Rendering>, now: u64, fault: AppendFault)
    : (seq<Row>, seq<AuditRecord>, Result<Authorization, DispatchError>)
  {
    if edited.None? then (rows, jsonl, Err(InvalidFilesystemParameters))
    else
      var (newRows, newJsonl, decided) := Authorizing(env.policy, env.crypto, env.codec, rows, jsonl,
                                                      Rendered(request, edited.value), now, fault);
      (newRows, newJsonl, if decided.Ok? then Ok(decided.value) else Err(DispatchError.Core(decided.error)))
  }

  /**
   * The table, the file, and the request that is finally authorized when an approval is prepared: the one asked for, or
   * the one rendered from its edit, which is decided anew.
   */
  function Prepares(env: Env, rows: seq<Row>, jsonl: seq<AuditRecord>, request: ActionRequest, edited: Option<Rendering>,
                    now: u64, fault: AppendFault, again: AppendFault)
    : (seq<Row>, seq<AuditRecord>, Result<Authorization, DispatchError>)
  {
    if PreparingError(env, request).Some? then (rows, jsonl, Err(PreparingError(env, request).value))
    else AuthorizesBoth(env, rows, jsonl, request, edited, now, fault, again)
  }

  function AuthorizesBoth(env: Env, rows: seq<Row>, jsonl: seq<AuditRecord>, request: ActionRequest,
                          edited: Option<Rendering>, now: u64, fault: AppendFault, again: AppendFault)
    : (seq<Row>, seq<AuditRecord>, Result<Authorization, DispatchError>)
  {
    AuthorizesFinally(env, AuthorizesFirst(env, rows, jsonl, request, now, fault), request, edited, now, again)
  }

  function AuthorizesFinally(env: Env, first: (seq<Row>, seq<AuditRecord>, Result<Authorization, DispatchError>),
                             request: ActionRequest, edited: Option<Rendering>, now: u64, again: AppendFault)
    : (seq<Row>, seq<AuditRecord>, Result<Authorization, DispatchError>)
  {
    if first.2.Err? || !request.editRecipe then first
    else AuthorizesRendered(env, first.0, first.1, request, edited, now, again)
  }

  lemma PreparesFor(env: Env, rows: seq<Row>, jsonl: seq<AuditRecord>, request: ActionRequest, edited: Option<Rendering>,
                    now: u64, fault: AppendFault, again: AppendFault)
    ensures var r := Prepares(env, rows, jsonl, request, edited, now, fault, again).2;
            r.Ok? ==>
              && (request.editRecipe ==> edited.Some? && r.value.request == Rendered(request, edited.value))
              && (!request.editRecipe ==> r.value.request == request)
              && (r.value.decision.kind == Auto ==> r.value.decision == env.policy.evaluate(r.value.request))
  {
    AuthorizingKeepsRequest(env, rows, jsonl, request, now, fault);
    if edited.Some? {
      var first := Authorizing(env.policy, env.crypto, env.codec, rows, jsonl, request, now, fault);
      AuthorizingKeepsRequest(env, first.0, first.1, Rendered(request, edited.value), now, again);
    }
  }

  /** A challenge handed out is bound to the request that was authorized, and still open. */
  lemma HandedOutIsBound(env: Env, authorization: Authorization, now: u64, nonce: Digest32, worker: WorkerReport)
    requires var answer := PreparedAnswer(env, authorization, now, nonce, worker).1; answer.Ok? && answer.value.ToSign?
    ensures var challenge := PreparedAnswer(env, authorization, now, nonce, worker).1.value.challenge;
            && Bound(authorization.request, authorization.decision, challenge, now).Ok?
            && challenge.requestId == authorization.request.requestId
            && challenge.envelopeDigest == authorization.request.envelopeDigest && now < challenge.expiresAtUnixMs
    ensures !RunsUnasked(authorization.request, authorization.decision)
  {}

  lemma ChallengeIsForIt(env: Env, rows: seq<Row>, jsonl: seq<AuditRecord>, request: ActionRequest, edited: Option<Rendering>,
                         now: u64, nonce: Digest32, fault: AppendFault, again: AppendFault, worker: WorkerReport)
    requires Prepares(env, rows, jsonl, request, edited, now, fault, again).2.Ok?
    requires var answer := PreparedAnswer(env, Prepares(env, rows, jsonl, request, edited, now, fault, again).2.value, now,
                                          nonce, worker).1;
             answer.Ok? && answer.value.ToSign?
    ensures var authorization := Prepares(env, rows, jsonl, request, edited, now, fault, again).2.value;
            var challenge := PreparedAnswer(env, authorization, now, nonce, worker).1.value.challenge;
            && challenge.requestId == request.requestId
            && challenge.envelopeDigest
               == (if request.editRecipe && edited.Some? then edited.value.digest else request.envelopeDigest)
            && now < challenge.expiresAtUnixMs && !RunsUnasked(authorization.request, authorization.decision)
  {
    PreparesFor(env, rows, jsonl, request, edited, now, fault, again);
    HandedOutIsBound(env, Prepares(env, rows, jsonl, request, edited, now, fault, again).2.value, now, nonce, worker);
  }

  /** The approval is claimed, for the first time and in force, and its two records are made. */
  ghost predicate Redeems(env: Env, accepted: Accepted, rows: seq<Row>, jsonl: seq<AuditRecord>,
                          consumed: map<RequestKey, u64>, executions: map<RequestKey, ExecutionRecoveryState>,
                          request: ActionRequest, now: u64, faults: Faults) {
    && Claimable(env.policy, env.crypto, env.codec, accepted.approvers, accepted.scoped, rows, consumed, executions, request,
                 accepted.approval, now, faults.claim)
    && AppendTwo(env.codec, rows, jsonl,
                 ApprovalEvent(env.policy, request, accepted.approval.approverId, "approval_verified", now), faults.verified,
                 ApprovalEvent(env.policy, request, request.actorId, "approval_consumed", now), faults.consumed).2
  }

  /** When a signed request reaches the worker. */
  ghost predicate ReachesWorker(env: Env, accepted: Accepted, rows: seq<Row>, jsonl: seq<AuditRecord>,
                                consumed: map<RequestKey, u64>, executions: map<RequestKey, ExecutionRecoveryState>,
                                request: ActionRequest, now: u64, faults: Faults) {
    && PreparingError(env, request).None?
    && var (newRows, newJsonl, decided) := Authorizing(env.policy, env.crypto, env.codec, rows, jsonl, request, now,
                                                       faults.authorize);
       && decided.Ok? && decided.value.decision.kind == PolicyDecisionKind.Approval
       && Redeems(env, accepted, newRows, newJsonl, consumed, executions, request, now, faults)
       && !faults.uncertain
  }

  /** How a call ends whose output fits: completed, or uncertain because the outcome could not be recorded. */
  predicate Ends(before: map<RequestKey, ExecutionRecoveryState>, after: map<RequestKey, ExecutionRecoveryState>,
                   key: RequestKey, recorded: Result<Unit, CoreError>, length: nat, now: u64, faulty: bool,
                   r: Result<nat, DispatchError>) {
    var state := if recorded.Ok? then Completed else ExecutionRecoveryState.PostEffectUncertain;
    var marked := !faulty && RecoveryError(before, key, state, now).None?;
    && after == (if marked then before[key := state] else before)
    && (marked ==> r == if recorded.Ok? then Ok(length) else Err(DispatchError.PostEffectUncertain(recorded.error)))
    && (!marked ==> r.Err? && r.error.Core?)
  }

  lemma RedeemAcceptsNeedsApproval(env: Env, store: Store, job: Job, accepted: Accepted)
    requires RedeemAccepts(env, store, job, accepted)
    ensures env.policy.evaluate(job.request).kind == PolicyDecisionKind.Approval
  {}

  lemma EvaluateShape(env: Env, w: World, p: Pid, job: Job, decided: Result<PolicyDecision, CoreError>)
    requires ProcOf(w, p) == Busy(Evaluate, job)
    requires var limited := RateLimited(env.policy, EventsOf(w.store.table), job.request, job.now);
             && (decided.Ok? <==> env.crypto.sealed(job.request, job.now) && limited.Ok?)
             && (decided.Ok? ==> decided.value == limited.value)
    ensures var after := Step(env, w, Advance(p, Proceed));
            && after.store == w.store && after.log == w.log
            && ProcOf(after, p) == if decided.Ok? then Busy(Append(DecisionSite, Acquire), job.(decision := decided.value))
                                   else Idle
  {}

  lemma DecisionIsEvent(env: Env, job: Job)
    ensures EventAt(env, DecisionSite, job) == DecisionEvent(env.policy, job.request, job.decision, job.now)
    ensures AfterAppend(DecisionSite, job) == Busy(Decided, job) && AfterFailedAppend(DecisionSite, job) == Idle
  {}

  lemma AuthorizingKeepsRequest(env: Env, rows: seq<Row>, jsonl: seq<AuditRecord>, request: ActionRequest, now: u64,
                                fault: AppendFault)
    ensures var r := Authorizing(env.policy, env.crypto, env.codec, rows, jsonl, request, now, fault).2;
            r.Ok? ==>
              && r.value.request == request
              && (env.policy.evaluate(request).kind != Auto ==> r.value.decision == env.policy.evaluate(request))
              && (r.value.decision.kind == Auto ==> r.value.decision == env.policy.evaluate(request))
  {}

  /** Where a decided request goes on the way to an approval. */
  lemma PreparedStep(job: Job)
    requires job.path.PrepareEdited? || (job.path.Prepare? && !job.request.editRecipe && job.decision.kind != Deny)
    ensures DecidedNext(job, Proceed)
         == if RunsUnasked(job.request, job.decision) then Busy(StartUnsigned, job)
            else if job.decision.kind != PolicyDecisionKind.Approval then Busy(Append(PolicyRequiredSite, Acquire), job)
            else Busy(Append(ChallengeSite, Acquire), job)
    ensures job.decision.kind == PolicyDecisionKind.Approval ==> DecidedNext(job, Fail) == Idle
  {}

  lemma MarkShape(env: Env, w: World, p: Pid, pc: Pc, job: Job, faulty: bool)
    requires ProcOf(w, p) == Busy(pc, job) && IsMark(pc) && w.store.tx.NoTx?
    ensures var after := Step(env, w, Advance(p, if faulty then Fail else Proceed));
            var key := job.request.Key();
            var marked := !faulty && RecoveryError(w.store.executions, key, MarkedState(pc), job.now).None?;
            && after.log == w.log
            && after.store == (if marked then w.store.(executions := w.store.executions[key := MarkedState(pc)]) else w.store)
            && ProcOf(after, p) == if marked then AfterMark(pc, job) else Idle
  {}

  class ReadOnlyDispatcher {
    const env: Env
    const broker: Broker
    const verifier: ApprovalVerifier
    const maxOutputBytes: nat
    ghost const pid: Pid
    ghost var world: World
    var approvedWorkerInvocations: nat

    constructor (env: Env, broker: Broker, verifier: ApprovalVerifier, maxOutputBytes: nat, ghost pid: Pid,
            ghost world: World)
      ensures this.env == env && this.broker == broker && this.verifier == verifier
      ensures this.maxOutputBytes == maxOutputBytes && this.pid == pid && this.world == world
      ensures approvedWorkerInvocations == 0
    {
      this.env, this.broker, this.verifier := env, broker, verifier;
      this.maxOutputBytes, this.pid, this.world := maxOutputBytes, pid, world;
      approvedWorkerInvocations := 0;
    }

    /** The files of the device are the shared state of the machine's current world. */
    ghost predicate Synced()
      reads this, broker.ledger, broker.ledger.files
    {
      var files, store := broker.ledger.files, world.store;
      && env.codec.Faithful()
      && broker.policy == env.policy && broker.ledger.codec == env.codec && verifier.crypto == env.crypto
      && files.rows == RowsOf(env.codec, store.table) && files.jsonl == store.jsonl
      && files.consumed == store.consumed && files.executions == store.executions
      && store.tx.NoTx?
    }

    ghost predicate At(proc: Proc)
      reads this
    {
      ProcOf(world, pid) == proc
    }

    /** The process turns to `next` by a step that leaves the shared state alone. */
    ghost method Turn(origin: World, pc: Pc, job: Job, choice: Choice, next: Proc, effects: seq<Effect>)
      requires Synced() && Reaches(env, pid, origin, world) && At(Busy(pc, job)) && !pc.Append?
      requires ControlMove(env, world.store, pc, job, choice) == Move(world.store, next, effects)
      modifies this`world
      ensures Synced() && Reaches(env, pid, origin, world) && At(next)
      ensures world.store == old(world.store) && world.log == old(world.log) + effects
    {
      ReachesStep(env, pid, origin, world, Advance(pid, choice));
      world := Step(env, world, Advance(pid, choice));
    }

    ghost method StartUnsignedWork(origin: World, job: Job) returns (position: nat)
      requires Synced() && Reaches(env, pid, origin, world) && At(Busy(StartUnsigned, job))
      modifies this`world
      ensures Synced() && Reaches(env, pid, origin, world) && At(Busy(FinishUnsigned, job))
      ensures world.store == old(world.store)
      ensures world.log == old(world.log) + [Started(job.request, job.now, None, position)]
    {
      position := |world.store.table|;
      Turn(origin, StartUnsigned, job, Proceed, Busy(FinishUnsigned, job), [Started(job.request, job.now, None, position)]);
    }

    /** A request is taken up. */
    ghost method Begin(origin: World, path: Path, request: ActionRequest, now: u64) returns (job: Job)
      requires Synced() && Reaches(env, pid, origin, world) && At(Idle) && !path.PrepareEdited?
      requires request.deviceId == env.deviceId && (!path.Direct? ==> RemoteApprovedActionAllowed(request.action))
      modifies this`world
      ensures Synced() && Reaches(env, pid, origin, world)
      ensures job == Job(path, request, env.policy.evaluate(request), now, None) && At(Busy(Evaluate, job))
      ensures world.store == old(world.store) && world.log == old(world.log)
    {
      ReachesStep(env, pid, origin, world, Submit(pid, path, request, now));
      world := Step(env, world, Submit(pid, path, request, now));
      job := Job(path, request, env.policy.evaluate(request), now, None);
    }

    /** The machine appends the event that the code appended. */
    ghost method Follow(origin: World, site: Site, job: Job, event: AuditEvent, fault: AppendFault)
      requires Reaches(env, pid, origin, world) && world.store.tx.NoTx? && At(Busy(Append(site, Acquire), job))
      requires event == EventAt(env, site, job)
      modifies this`world
      ensures Reaches(env, pid, origin, world) && world.log == old(world.log) && world.store.tx.NoTx?
      ensures world.store.consumed == old(world.store.consumed) && world.store.executions == old(world.store.executions)
      ensures var (rows, jsonl, r) := AppendEffect(env.codec, RowsOf(env.codec, old(world.store.table)),
                                                   old(world.store.jsonl), event, fault);
              && RowsOf(env.codec, world.store.table) == rows && world.store.jsonl == jsonl
              && At(if r.Ok? then AfterAppend(site, job) else AfterFailedAppend(site, job))
    {
      var after := Recorded(env, world, pid, site, job, fault);
      RecordedAgrees(env, world, pid, site, job, event, fault);
      RecordedReaches(env, world, pid, site, job, fault);
      ReachesTrans(env, pid, origin, world, after);
      world := after;
    }

    /** One audited outcome. */
    method AuditOutcome(ghost origin: World, ghost site: Site, ghost job: Job, authorization: Authorization,
                        outcome: string, now: u64, fault: AppendFault) returns (r: Result<Unit, CoreError>)
      requires Synced() && Reaches(env, pid, origin, world) && At(Busy(Append(site, Acquire), job))
      requires !site.DecisionSite? && !site.VerifiedSite? && !site.ConsumedSite? && outcome == OutcomeAt(site, job)
      requires authorization == Authorization(job.request, job.decision) && job.now == now
      modifies this`world, broker.ledger, broker.ledger.files`rows, broker.ledger.files`jsonl
      ensures Synced() && Reaches(env, pid, origin, world)
      ensures At(if r.Ok? then AfterAppend(site, job) else AfterFailedAppend(site, job))
      ensures world.log == old(world.log)
      ensures world.store.consumed == old(world.store.consumed) && world.store.executions == old(world.store.executions)
      ensures (broker.ledger.files.rows, broker.ledger.files.jsonl, r)
           == Noted(env, old(broker.ledger.files.rows), old(broker.ledger.files.jsonl), authorization, outcome, now, fault)
    {
      var audited := broker.AuditOutcomeAt(authorization, outcome, now, fault);
      Follow(origin, site, job, OutcomeEvent(env.policy, authorization, outcome, now), fault);
      r := if audited.Ok? then Ok(Unit.Unit) else Err(CoreError.Audit(audited.error));
    }

    /** The machine's steps from a request to its recorded decision. */
    ghost method FollowAuthorize(origin: World, job: Job, fault: AppendFault)
      requires Reaches(env, pid, origin, world) && world.store.tx.NoTx? && env.codec.Faithful()
      requires At(Busy(Evaluate, job))
      modifies this`world
      ensures Reaches(env, pid, origin, world) && world.log == old(world.log) && world.store.tx.NoTx?
      ensures world.store.consumed == old(world.store.consumed) && world.store.executions == old(world.store.executions)
      ensures var (rows, jsonl, r) := Authorizing(env.policy, env.crypto, env.codec, RowsOf(env.codec, old(world.store.table)),
                                                  old(world.store.jsonl), job.request, job.now, fault);
              && RowsOf(env.codec, world.store.table) == rows && world.store.jsonl == jsonl
              && At(if r.Ok? then Busy(Decided, job.(decision := r.value.decision)) else Idle)
    {
      var store := world.store;
      var decided := Core.Decide(env.policy, env.crypto, env.codec, RowsOf(env.codec, store.table), job.request, job.now);
      DecidesAgree(env, store, job.request, job.now);
      EvaluateShape(env, world, pid, job, decided);
      ReachesStep(env, pid, origin, world, Advance(pid, Proceed));
      world := Step(env, world, Advance(pid, Proceed));
      if decided.Ok? {
        var decidedJob := job.(decision := decided.value);
        DecisionIsEvent(env, decidedJob);
        Follow(origin, DecisionSite, decidedJob, DecisionEvent(env.policy, job.request, decided.value, job.now), fault);
      }
    }

    /** A request comes in and its decision is recorded. */
    method Authorize(ghost origin: World, ghost job: Job, request: ActionRequest, now: u64, fault: AppendFault)
      returns (r: Result<Authorization, CoreError>)
      requires Synced() && Reaches(env, pid, origin, world)
      requires At(Busy(Evaluate, job)) && job.request == request && job.now == now
      modifies this`world, broker.ledger, broker.ledger.files`rows, broker.ledger.files`jsonl
      ensures Synced() && Reaches(env, pid, origin, world)
      ensures At(if r.Ok? then Busy(Decided, job.(decision := r.value.decision)) else Idle)
      ensures r.Ok? ==> r.value.request == request
      ensures r.Ok? && env.policy.evaluate(request).kind != Auto ==> r.value.decision == env.policy.evaluate(request)
      ensures r.Ok? && r.value.decision.kind == Auto ==> r.value.decision == env.policy.evaluate(request)
      ensures world.log == old(world.log)
      ensures world.store.consumed == old(world.store.consumed) && world.store.executions == old(world.store.executions)
      ensures (broker.ledger.files.rows, broker.ledger.files.jsonl, r)
           == Authorizing(env.policy, env.crypto, env.codec, old(broker.ledger.files.rows), old(broker.ledger.files.jsonl),
                          request, now, fault)
    {
      AuthorizingKeepsRequest(env, broker.ledger.files.rows, broker.ledger.files.jsonl, request, now, fault);
      r := broker.AuthorizeAt(verifier.crypto, request, now, fault);
      FollowAuthorize(origin, job, fault);
    }

    /** One move of the recovery record. */
    method Mark(ghost origin: World, ghost job: Job, ghost pc: Pc, authorization: Authorization,
                state: ExecutionRecoveryState, now: u64, faulty: bool) returns (r: Result<Unit, DispatchError>)
      requires Synced() && Reaches(env, pid, origin, world) && At(Busy(pc, job))
      requires IsMark(pc) && state == MarkedState(pc)
      requires job.request == authorization.request && job.now == now
      modifies this`world, broker.ledger.files`executions
      ensures Synced() && Reaches(env, pid, origin, world)
      ensures At(if r.Ok? then AfterMark(pc, job) else Idle)
      ensures world.log == old(world.log) && world.store.consumed == old(world.store.consumed)
      ensures r.Ok? <==> !faulty && RecoveryError(old(world.store.executions), authorization.request.Key(), state, now).None?
      ensures r.Err? ==> r.error.Core?
      ensures world.store.executions ==
              if r.Ok? then old(world.store.executions)[authorization.request.Key() := state] else old(world.store.executions)
    {
      var moved := broker.SetExecutionRecoveryState(authorization, state, now, faulty);
      ghost var a := Advance(pid, if faulty then Fail else Proceed);
      ReachesStep(env, pid, origin, world, a);
      MarkShape(env, world, pid, pc, job, faulty);
      world := Step(env, world, a);
      r := if moved.Ok? then Ok(Unit.Unit) else Err(DispatchError.Core(CoreError.Audit(moved.error)));
    }

    ghost method FollowClaim(origin: World, job: Job, accepted: Accepted, faulty: bool) returns (claimed: bool)
      requires Reaches(env, pid, origin, world) && world.store.tx.NoTx? && At(Busy(Pc.Redeem, job))
      modifies this`world
      ensures Reaches(env, pid, origin, world) && world.log == old(world.log)
      ensures var store, key := old(world.store), job.request.Key();
              claimed <==> RedeemAccepts(env, store, job, accepted) && !faulty && job.now <= I64_MAX
                           && key !in store.consumed && key !in store.executions
      ensures claimed ==> env.policy.evaluate(job.request).kind == PolicyDecisionKind.Approval
      ensures world.store == if claimed then
                old(world.store).(consumed := old(world.store.consumed)[job.request.Key() := job.now],
                                  executions := old(world.store.executions)[job.request.Key() := NotExecuted])
              else old(world.store)
      ensures At(if claimed then Busy(Append(VerifiedSite, Acquire), job.(accepted := Some(accepted))) else Idle)
    {
      ReachesStep(env, pid, origin, world, Advance(pid, Present(accepted)));
      PresentShape(env, world, pid, job, accepted);
      if RedeemAccepts(env, world.store, job, accepted) {
        RedeemAcceptsNeedsApproval(env, world.store, job, accepted);
      }
      world := Step(env, world, Advance(pid, Present(accepted)));
      claimed := false;
      if ProcOf(world, pid).Busy? {
        ghost var claim := Advance(pid, if faulty then Fail else Proceed);
        ReachesStep(env, pid, origin, world, claim);
        ClaimShape(env, world, pid, job.(accepted := Some(accepted)), faulty);
        world := Step(env, world, claim);
        claimed := ProcOf(world, pid).Busy?;
      }
    }

    ghost method FollowTwo(origin: World, job: Job, approverId: string, f1: AppendFault, f2: AppendFault)
      returns (both: bool)
      requires Reaches(env, pid, origin, world) && world.store.tx.NoTx? && At(Busy(Append(VerifiedSite, Acquire), job))
      requires job.accepted.Some? && job.accepted.value.approval.approverId == approverId
      modifies this`world
      ensures Reaches(env, pid, origin, world) && world.log == old(world.log) && world.store.tx.NoTx?
      ensures (RowsOf(env.codec, world.store.table), world.store.jsonl, both)
           == AppendTwo(env.codec, RowsOf(env.codec, old(world.store.table)), old(world.store.jsonl),
                        ApprovalEvent(env.policy, job.request, approverId, "approval_verified", job.now), f1,
                        ApprovalEvent(env.policy, job.request, job.request.actorId, "approval_consumed", job.now), f2)
      ensures world.store.consumed == old(world.store.consumed) && world.store.executions == old(world.store.executions)
      ensures At(if both then Busy(MarkUncertain, job) else Idle)
    {
      var e1 := ApprovalEvent(env.policy, job.request, approverId, "approval_verified", job.now);
      var e2 := ApprovalEvent(env.policy, job.request, job.request.actorId, "approval_consumed", job.now);
      var after := TwoRecorded(env, world, pid, job, f1, f2);
      TwoRecordedAgree(env, world, pid, job, e1, f1, e2, f2);
      ReachesTrans(env, pid, origin, world, after);
      world := after;
      both := ProcOf(after, pid).Busy?;
    }

    /** The machine's steps from the check of an approval to the end of its claim. */
    ghost method FollowRedeem(origin: World, job: Job, approval: SignedApproval, faults: Faults)
      returns (claimed: bool, both: bool)
      requires Reaches(env, pid, origin, world) && world.store.tx.NoTx? && env.codec.Faithful()
      requires job.accepted.Some? && job.accepted.value.approval == approval
      requires At(Busy(Pc.Redeem, job.(accepted := None)))
      modifies this`world
      ensures Reaches(env, pid, origin, world) && world.log == old(world.log) && world.store.tx.NoTx?
      ensures var accepted, store := job.accepted.value, old(world.store);
              claimed <==> Claimable(env.policy, env.crypto, env.codec, accepted.approvers, accepted.scoped,
                                     RowsOf(env.codec, store.table), store.consumed, store.executions,
                                     job.request, approval, job.now, faults.claim)
      ensures claimed ==>
              && (RowsOf(env.codec, world.store.table), world.store.jsonl, both)
                 == AppendTwo(env.codec, RowsOf(env.codec, old(world.store.table)), old(world.store.jsonl),
                              ApprovalEvent(env.policy, job.request, approval.approverId, "approval_verified", job.now),
                              faults.verified,
                              ApprovalEvent(env.policy, job.request, job.request.actorId, "approval_consumed", job.now),
                              faults.consumed)
              && world.store.consumed == old(world.store.consumed)[job.request.Key() := job.now]
              && world.store.executions == old(world.store.executions)[job.request.Key() := NotExecuted]
      ensures !claimed ==> world.store == old(world.store) && !both
      ensures claimed ==> job.request.Key() !in old(world.store.consumed)
                          && env.policy.evaluate(job.request).kind == PolicyDecisionKind.Approval
      ensures At(if both then Busy(MarkUncertain, job) else Idle)
    {
      ghost var before := job.(accepted := None);
      ClaimsAgree(env, world.store, before, job.accepted.value, faults.claim);
      claimed := FollowClaim(origin, before, job.accepted.value, faults.claim);
      both := false;
      if claimed {
        both := FollowTwo(origin, job, approval.approverId, faults.verified, faults.consumed);
      }
    }

    /** The approval is checked and claimed, and the claim is recorded. */
    method Redeem(ghost origin: World, ghost job: Job, request: ActionRequest, approval: SignedApproval,
            now: u64, faults: Faults)
      returns (r: Result<ExecutionAuthorization, CoreError>, ghost redeemed: Job)
      requires Synced() && Reaches(env, pid, origin, world) && At(Busy(Pc.Redeem, job))
      requires job.request == request && job.now == now && job.accepted.None?
      modifies this`world, broker.ledger, broker.ledger.files
      ensures Synced() && Reaches(env, pid, origin, world) && world.log == old(world.log)
      ensures redeemed == job.(accepted := Some(Accepted(verifier.approvers, verifier.requiresScope, approval)))
      ensures At(if r.Ok? then Busy(MarkUncertain, redeemed) else Idle)
      ensures r.Ok? <==> Redeems(env, Accepted(verifier.approvers, verifier.requiresScope, approval),
                                 old(broker.ledger.files.rows), old(broker.ledger.files.jsonl), old(world.store.consumed),
                                 old(world.store.executions), request, now, faults)
      ensures r.Ok? ==> now <= I64_MAX
      ensures r.Ok? ==>
              && request.Key() !in old(world.store.consumed)
              && request.Key() in world.store.executions && world.store.executions[request.Key()] == NotExecuted
              && r.value.authorization == Authorization(request, env.policy.evaluate(request))
              && env.policy.evaluate(request).kind == PolicyDecisionKind.Approval
    {
      redeemed := job.(accepted := Some(Accepted(verifier.approvers, verifier.requiresScope, approval)));
      r := broker.ConsumeApprovalAt(verifier, request, approval, now, faults.claim, faults.verified, faults.consumed);
      ghost var claimed, both := FollowRedeem(origin, redeemed, approval, faults);
    }

    /** Output over the limit is recorded as such. */
    method NoteOverLimit(ghost origin: World, ghost job: Job, authorization: Authorization, length: nat, now: u64,
                         fault: AppendFault)
      returns (r: Result<nat, DispatchError>)
      requires Synced() && Reaches(env, pid, origin, world) && At(Busy(CheckOutput, job))
      requires authorization == Authorization(job.request, job.decision) && job.now == now
      modifies this`world, broker.ledger, broker.ledger.files`rows, broker.ledger.files`jsonl
      ensures Synced() && Reaches(env, pid, origin, world) && At(Idle) && world.log == old(world.log)
      ensures world.store.consumed == old(world.store.consumed) && world.store.executions == old(world.store.executions)
      ensures var files := broker.ledger.files;
              var (rows, jsonl, recorded) := Noted(env, old(files.rows), old(files.jsonl), authorization,
                                                   "output_limit_exceeded", now, fault);
              files.rows == rows && files.jsonl == jsonl && r == Otherwise(recorded, Err(OutputTooLarge(length)))
    {
      Turn(origin, CheckOutput, job, Fail, Busy(Append(OverLimitSite, Acquire), job), []);
      var over := AuditOutcome(origin, OverLimitSite, job, authorization, "output_limit_exceeded", now, fault);
      r := Otherwise(over, Err(OutputTooLarge(length)));
    }

    /** Output within the limit is recorded as an execution; what follows depends on the path. */
    ghost method TurnChecked(origin: World, job: Job)
      requires Synced() && Reaches(env, pid, origin, world) && At(Busy(CheckOutput, job))
      modifies this`world
      ensures Synced() && Reaches(env, pid, origin, world) && At(Busy(Append(ExecutedSite, Acquire), job))
      ensures world.log == old(world.log) && world.store == old(world.store)
    {
      Turn(origin, CheckOutput, job, Proceed, Busy(Append(ExecutedSite, Acquire), job), []);
    }

    method NoteExecuted(ghost origin: World, ghost job: Job, authorization: Authorization, now: u64, fault: AppendFault)
      returns (recorded: Result<Unit, CoreError>)
      requires Synced() && Reaches(env, pid, origin, world) && At(Busy(CheckOutput, job))
      requires authorization == Authorization(job.request, job.decision) && job.now == now
      modifies this`world, broker.ledger, broker.ledger.files`rows, broker.ledger.files`jsonl
      ensures Synced() && Reaches(env, pid, origin, world) && world.log == old(world.log)
      ensures At(if !job.path.Signed? then Idle else Busy(if recorded.Ok? then MarkCompleted else MarkPostEffect, job))
      ensures world.store.consumed == old(world.store.consumed) && world.store.executions == old(world.store.executions)
      ensures (broker.ledger.files.rows, broker.ledger.files.jsonl, recorded)
           == Noted(env, old(broker.ledger.files.rows), old(broker.ledger.files.jsonl), authorization, "executed", now, fault)
    {
      TurnChecked(origin, job);
      recorded := AuditOutcome(origin, ExecutedSite, job, authorization, "executed", now, fault);
    }

    /** A worker that failed is recorded as such. */
    method NoteWorkerFailed(ghost origin: World, ghost pc: Pc, ghost job: Job, authorization: Authorization, now: u64,
                            fault: AppendFault)
      returns (r: Result<nat, DispatchError>)
      requires Synced() && Reaches(env, pid, origin, world) && At(Busy(pc, job))
      requires pc == (if job.path.Signed? then FinishEffect else FinishUnsigned) && (job.path.Signed? || job.path.Direct?)
      requires authorization == Authorization(job.request, job.decision) && job.now == now
      modifies this`world, broker.ledger, broker.ledger.files`rows, broker.ledger.files`jsonl
      ensures Synced() && Reaches(env, pid, origin, world) && At(Idle) && world.log == old(world.log)
      ensures world.store.consumed == old(world.store.consumed) && world.store.executions == old(world.store.executions)
      ensures var files := broker.ledger.files;
              var (rows, jsonl, recorded) := Noted(env, old(files.rows), old(files.jsonl), authorization, "worker_failed",
                                                   now, fault);
              files.rows == rows && files.jsonl == jsonl && r == Otherwise(recorded, Err(Worker))
    {
      Turn(origin, pc, job, Fail, Busy(Append(WorkerFailedSite, Acquire), job), []);
      var failed := AuditOutcome(origin, WorkerFailedSite, job, authorization, "worker_failed", now, fault);
      r := Otherwise(failed, Err(Worker));
    }

    /** Closing the recovery record, as completed or, if the outcome could not be recorded, as uncertain. */
    method Close(ghost origin: World, ghost job: Job, authorization: Authorization, recorded: Result<Unit, CoreError>,
                 length: nat, now: u64, faulty: bool)
      returns (r: Result<nat, DispatchError>)
      requires Synced() && Reaches(env, pid, origin, world)
      requires At(Busy(if recorded.Ok? then MarkCompleted else MarkPostEffect, job))
      requires authorization == Authorization(job.request, job.decision) && job.now == now
      modifies this`world, broker.ledger.files`executions
      ensures Synced() && Reaches(env, pid, origin, world) && At(Idle) && world.log == old(world.log)
      ensures world.store.consumed == old(world.store.consumed)
      ensures Ends(old(world.store.executions), world.store.executions, authorization.request.Key(), recorded, length,
                     now, faulty, r)
    {
      if recorded.Err? {
        var uncertain := Mark(origin, job, MarkPostEffect, authorization, ExecutionRecoveryState.PostEffectUncertain, now,
                              faulty);
        return Err(if uncertain.Ok? then DispatchError.PostEffectUncertain(recorded.error) else uncertain.error);
      }
      var marked := Mark(origin, job, MarkCompleted, authorization, Completed, now, faulty);
      r := if marked.Ok? then Ok(length) else Err(marked.error);
    }

    /** Output within the limit: the execution is recorded, and the recovery record closed. */
    method ConcludeWithin(ghost origin: World, ghost job: Job, authorization: Authorization, length: nat, now: u64,
                          faults: Faults)
      returns (r: Result<nat, DispatchError>)
      requires Synced() && Reaches(env, pid, origin, world) && At(Busy(CheckOutput, job)) && job.path.Signed?
      requires authorization == Authorization(job.request, job.decision) && job.now == now
      modifies this`world, broker.ledger, broker.ledger.files
      ensures Synced() && Reaches(env, pid, origin, world) && At(Idle) && world.log == old(world.log)
      ensures var files, key := broker.ledger.files, authorization.request.Key();
              var (rows, jsonl, recorded) := Noted(env, old(files.rows), old(files.jsonl), authorization, "executed", now,
                                                   faults.outcome);
              && files.rows == rows && files.jsonl == jsonl && files.consumed == old(files.consumed)
              && Ends(old(files.executions), files.executions, key, recorded, length, now, faults.closing, r)
    {
      var recorded := NoteExecuted(origin, job, authorization, now, faults.outcome);
      r := Close(origin, job, authorization, recorded, length, now, faults.closing);
    }

    /**
     * After the effect: the output is measured, the outcome recorded, the recovery record closed.  An outcome that
     * cannot be recorded is the broker's error for output over the limit, and else an uncertain effect.
     */
    method Conclude(ghost origin: World, ghost job: Job, authorization: Authorization, length: nat, now: u64, faults: Faults)
      returns (r: Result<nat, DispatchError>)
      requires Synced() && Reaches(env, pid, origin, world) && At(Busy(CheckOutput, job)) && job.path.Signed?
      requires authorization == Authorization(job.request, job.decision) && job.now == now
      modifies this`world, broker.ledger, broker.ledger.files
      ensures Synced() && Reaches(env, pid, origin, world) && At(Idle) && world.log == old(world.log)
      ensures var files, key := broker.ledger.files, authorization.request.Key();
              var (rows, jsonl, recorded) := Noted(env, old(files.rows), old(files.jsonl), authorization,
                                                   OutcomeFor(Some(length), maxOutputBytes), now, faults.outcome);
              && files.rows == rows && files.jsonl == jsonl && files.consumed == old(files.consumed)
              && (length > maxOutputBytes ==>
                    r == Otherwise(recorded, Err(OutputTooLarge(length))) && files.executions == old(files.executions))
              && (length <= maxOutputBytes ==>
                    Ends(old(files.executions), files.executions, key, recorded, length, now, faults.closing, r))
    {
      if length > maxOutputBytes {
        r := NoteOverLimit(origin, job, authorization, length, now, faults.outcome);
        return;
      }
      r := ConcludeWithin(origin, job, authorization, length, now, faults);
    }

    /** The worker is back, and its effect is marked as applied. */
    method FinishWork(ghost origin: World, ghost job: Job, authorization: Authorization, now: u64, faulty: bool)
      returns (marked: Result<Unit, DispatchError>)
      requires Synced() && Reaches(env, pid, origin, world) && At(Busy(FinishEffect, job)) && job.path.Signed?
      requires authorization == Authorization(job.request, job.decision) && job.now == now
      modifies this`world, broker.ledger.files`executions
      ensures Synced() && Reaches(env, pid, origin, world) && old(world.log) <= world.log
      ensures At(if marked.Ok? then Busy(CheckOutput, job) else Idle)
      ensures marked.Err? ==> marked.error.Core?
      ensures world.store.consumed == old(world.store.consumed)
      ensures var before, key := old(world.store.executions), authorization.request.Key();
              && (marked.Ok? <==> !faulty && RecoveryError(before, key, EffectApplied, now).None?)
              && world.store.executions == if marked.Ok? then before[key := EffectApplied] else before
    {
      Turn(origin, FinishEffect, job, Proceed, Busy(MarkApplied, job), [Finished(job.request.Key())]);
      marked := Mark(origin, job, MarkApplied, authorization, EffectApplied, now, faulty);
    }

    /** The worker has been called: its report decides what is recorded. */
    method Report(ghost origin: World, ghost job: Job, authorization: Authorization, now: u64, faults: Faults,
            worker: WorkerReport)
      returns (r: Result<nat, DispatchError>)
      requires Synced() && Reaches(env, pid, origin, world) && At(Busy(FinishEffect, job)) && job.path.Signed?
      requires authorization == Authorization(job.request, job.decision) && job.now == now
      modifies this`world, broker.ledger, broker.ledger.files
      ensures Synced() && Reaches(env, pid, origin, world) && At(Idle) && old(world.log) <= world.log
      ensures var files, key := broker.ledger.files, authorization.request.Key();
              var (rows, jsonl, recorded) := Noted(env, old(files.rows), old(files.jsonl), authorization,
                                                   OutcomeFor(worker, maxOutputBytes), now, faults.outcome);
              var applied := !faults.applied && RecoveryError(old(files.executions), key, EffectApplied, now).None?;
              && (if worker.None? || applied then files.rows == rows && files.jsonl == jsonl
                  else files.rows == old(files.rows) && files.jsonl == old(files.jsonl) && r.Err? && r.error.Core?)
              && (worker.None? ==> r == Otherwise(recorded, Err(Worker)) && files.executions == old(files.executions))
              && (applied && worker.Some? && worker.value > maxOutputBytes ==>
                    && r == Otherwise(recorded, Err(OutputTooLarge(worker.value)))
                    && files.executions == old(files.executions)[key := EffectApplied])
              && (applied && worker.Some? && worker.value <= maxOutputBytes ==>
                    Ends(old(files.executions)[key := EffectApplied], files.executions, key, recorded, worker.value,
                           now, faults.closing, r))
    {
      if worker.None? {
        r := NoteWorkerFailed(origin, FinishEffect, job, authorization, now, faults.outcome);
        return;
      }
      var marked := FinishWork(origin, job, authorization, now, faults.applied);
      if marked.Err? { return Err(marked.error); }
      r := Conclude(origin, job, authorization, worker.value, now, faults);
    }

    /** The worker is called only once the effect is marked as possible. */
    method StartWork(ghost origin: World, ghost job: Job, authorization: Authorization, now: u64, faulty: bool)
      returns (marked: Result<Unit, DispatchError>)
      requires Synced() && Reaches(env, pid, origin, world) && At(Busy(MarkUncertain, job)) && job.path.Signed?
      requires authorization == Authorization(job.request, job.decision) && job.now == now
      modifies this`world, broker.ledger.files`executions
      ensures Synced() && Reaches(env, pid, origin, world)
      ensures At(if marked.Ok? then Busy(FinishEffect, job) else Idle)
      ensures marked.Err? ==> world.log == old(world.log)
      ensures marked.Ok? <==> !faulty && RecoveryError(old(world.store.executions), authorization.request.Key(),
                                                       EffectUncertain, now).None?
      ensures marked.Ok? ==>
              exists position :: world.log == old(world.log) + [Started(job.request, now, job.accepted, position)]
    {
      marked := Mark(origin, job, MarkUncertain, authorization, EffectUncertain, now, faulty);
      if marked.Ok? {
        ghost var position := |world.store.table|;
        Turn(origin, StartEffect, job, Proceed, Busy(FinishEffect, job), [Started(job.request, now, job.accepted, position)]);
      }
    }

    /** The effect itself, between the two recovery records that bracket it. */
    method Perform(ghost origin: World, ghost job: Job, authorization: Authorization, now: u64, faults: Faults,
            worker: WorkerReport)
      returns (r: Result<nat, DispatchError>)
      requires Synced() && Reaches(env, pid, origin, world) && At(Busy(MarkUncertain, job)) && job.path.Signed?
      requires authorization == Authorization(job.request, job.decision) && job.now == now
      modifies this`world, this`approvedWorkerInvocations, broker.ledger, broker.ledger.files
      ensures Synced() && Reaches(env, pid, origin, world) && At(Idle)
      ensures old(approvedWorkerInvocations) <= approvedWorkerInvocations <= old(approvedWorkerInvocations) + 1
      ensures approvedWorkerInvocations > old(approvedWorkerInvocations) <==>
              !faults.uncertain && RecoveryError(old(world.store.executions), authorization.request.Key(), EffectUncertain,
                                                 now).None?
      ensures approvedWorkerInvocations == old(approvedWorkerInvocations) ==> world.log == old(world.log) && r.Err?
      ensures approvedWorkerInvocations > old(approvedWorkerInvocations) ==>
              exists position :: old(world.log) + [Started(job.request, now, job.accepted, position)] <= world.log
      ensures r.Ok? ==> worker == Some(r.value) && r.value <= maxOutputBytes
      ensures r.Ok? ==> authorization.request.Key() in world.store.executions
                        && world.store.executions[authorization.request.Key()] == Completed
    {
      var marked := StartWork(origin, job, authorization, now, faults.uncertain);
      if marked.Err? { return Err(marked.error); }
      approvedWorkerInvocations := approvedWorkerInvocations + 1;
      r := Report(origin, job, authorization, now, faults, worker);
    }

    /** Only four actions take a signature, and only on the right device. */
    method RefusesToPrepare(request: ActionRequest) returns (error: Option<DispatchError>)
      ensures error == PreparingError(env, request)
    {
      AllowedSigned(request.action);
      if request.deviceId != env.deviceId { return Some(WrongDevice); }
      if !RemoteApprovedActionAllowed(request.action) { return Some(RemoteActionNotAllowed); }
      error := None;
    }

    /** A request is taken up, decided, and its decision recorded; what comes next depends on the path. */
    method TakeUp(ghost origin: World, ghost path: Path, request: ActionRequest, now: u64, fault: AppendFault)
      returns (r: Result<Authorization, CoreError>, ghost job: Job)
      requires Synced() && Reaches(env, pid, origin, world) && At(Idle) && (path.Signed? || path.Direct?)
      requires request.deviceId == env.deviceId && (path.Signed? ==> PreparingError(env, request).None?)
      modifies this`world, broker.ledger, broker.ledger.files`rows, broker.ledger.files`jsonl
      ensures Synced() && Reaches(env, pid, origin, world) && world.log == old(world.log)
      ensures world.store.consumed == old(world.store.consumed) && world.store.executions == old(world.store.executions)
      ensures r.Err? ==> At(Idle)
      ensures r.Ok? ==>
              && job == Job(path, request, r.value.decision, now, None) && At(DecidedNext(job, Proceed))
              && r.value.request == request
              && (env.policy.evaluate(request).kind != Auto ==> r.value.decision == env.policy.evaluate(request))
      ensures (broker.ledger.files.rows, broker.ledger.files.jsonl, r)
           == Authorizing(env.policy, env.crypto, env.codec, old(broker.ledger.files.rows), old(broker.ledger.files.jsonl),
                          request, now, fault)
    {
      AllowedSigned(request.action);
      job := Begin(origin, path, request, now);
      r := Authorize(origin, job, request, now, fault);
      if r.Ok? {
        job := job.(decision := r.value.decision);
        Turn(origin, Decided, job, Proceed, DecidedNext(job, Proceed), []);
      }
    }

    /**
     * A signed request.  Whatever fails, the call is a run of the machine; it reaches the worker exactly when its
     * decision asks for approval and is on record, its approval is claimed for the first time and on record, and the
     * effect is marked; and it succeeds only with that and a completed recovery record.
     */
    method DispatchApprovedAt(request: ActionRequest, approval: SignedApproval, now: u64, faults: Faults,
            worker: WorkerReport)
      returns (r: Result<nat, DispatchError>)
      requires Synced() && At(Idle)
      modifies this`world, this`approvedWorkerInvocations, broker.ledger, broker.ledger.files
      ensures Synced() && Reaches(env, pid, old(world), world) && At(Idle)
      ensures old(approvedWorkerInvocations) <= approvedWorkerInvocations <= old(approvedWorkerInvocations) + 1
      ensures approvedWorkerInvocations > old(approvedWorkerInvocations) <==>
              ReachesWorker(env, Accepted(verifier.approvers, verifier.requiresScope, approval),
                            old(broker.ledger.files.rows), old(broker.ledger.files.jsonl), old(broker.ledger.files.consumed),
                            old(broker.ledger.files.executions), request, now, faults)
      ensures request.Key() in old(broker.ledger.files.consumed) ==>
              r.Err? && approvedWorkerInvocations == old(approvedWorkerInvocations)
      ensures approvedWorkerInvocations == old(approvedWorkerInvocations) ==> world.log == old(world.log)
      ensures approvedWorkerInvocations > old(approvedWorkerInvocations) ==>
              exists position ::
                old(world.log)
                + [Started(request, now, Some(Accepted(verifier.approvers, verifier.requiresScope, approval)), position)]
                <= world.log
      ensures r.Ok? ==> worker == Some(r.value) && r.value <= maxOutputBytes
      ensures r.Ok? ==> approvedWorkerInvocations == old(approvedWorkerInvocations) + 1
      ensures r.Ok? ==> request.Key() in broker.ledger.files.executions
                        && broker.ledger.files.executions[request.Key()] == Completed
    {
      ghost var origin := world;
      ReachesSelf(env, pid, origin);
      var refused := RefusesToPrepare(request);
      if refused.Some? { return Err(refused.value); }
      var authorization, job := TakeUp(origin, Signed, request, now, faults.authorize);
      if authorization.Err? { return Err(DispatchError.Core(authorization.error)); }
      r := FollowApproved(origin, job, authorization.value, approval, now, faults, worker);
    }

    /** The signed request once its decision is recorded: only one that needs approval goes on. */
    method FollowApproved(ghost origin: World, ghost job: Job, authorization: Authorization, approval: SignedApproval,
                          now: u64, faults: Faults, worker: WorkerReport)
      returns (r: Result<nat, DispatchError>)
      requires Synced() && Reaches(env, pid, origin, world) && At(DecidedNext(job, Proceed)) && job.path.Signed?
      requires authorization == Authorization(job.request, job.decision) && job.now == now && job.accepted.None?
      requires env.policy.evaluate(job.request).kind != Auto ==> job.decision == env.policy.evaluate(job.request)
      modifies this`world, this`approvedWorkerInvocations, broker.ledger, broker.ledger.files
      ensures Synced() && Reaches(env, pid, origin, world) && At(Idle)
      ensures old(approvedWorkerInvocations) <= approvedWorkerInvocations <= old(approvedWorkerInvocations) + 1
      ensures approvedWorkerInvocations > old(approvedWorkerInvocations) <==>
              && authorization.decision.kind == PolicyDecisionKind.Approval && !faults.uncertain
              && Redeems(env, Accepted(verifier.approvers, verifier.requiresScope, approval), old(broker.ledger.files.rows),
                         old(broker.ledger.files.jsonl), old(world.store.consumed), old(world.store.executions),
                         authorization.request, now, faults)
      ensures authorization.request.Key() in old(world.store.consumed) ==>
              r.Err? && approvedWorkerInvocations == old(approvedWorkerInvocations)
      ensures approvedWorkerInvocations == old(approvedWorkerInvocations) ==> world.log == old(world.log) && r.Err?
      ensures approvedWorkerInvocations > old(approvedWorkerInvocations) ==>
              exists position ::
                old(world.log)
                + [Started(authorization.request, now,
                           Some(Accepted(verifier.approvers, verifier.requiresScope, approval)), position)]
                <= world.log
      ensures r.Ok? ==> worker == Some(r.value) && r.value <= maxOutputBytes
      ensures r.Ok? ==> authorization.request.Key() in world.store.executions
                        && world.store.executions[authorization.request.Key()] == Completed
    {
      if authorization.decision.kind == Deny { return Err(Denied); }
      if authorization.decision.kind != PolicyDecisionKind.Approval {
        var noted := AuditOutcome(origin, PolicyRequiredSite, job, authorization, "remote_approval_policy_required",
                                  now, faults.outcome);
        if noted.Err? { return Err(DispatchError.Core(noted.error)); }
        return Err(RemoteApprovalPolicyRequired);
      }
      r := RedeemAndPerform(origin, job, authorization.request, approval, now, faults, worker);
    }

    /** The approved request once its decision is recorded: claimed, then executed. */
    method RedeemAndPerform(ghost origin: World, ghost job: Job, request: ActionRequest, approval: SignedApproval,
                            now: u64, faults: Faults, worker: WorkerReport)
      returns (r: Result<nat, DispatchError>)
      requires Synced() && Reaches(env, pid, origin, world) && At(Busy(Pc.Redeem, job)) && job.path.Signed?
      requires job.request == request && job.now == now && job.accepted.None?
      requires env.policy.evaluate(request).kind != Auto ==> job.decision == env.policy.evaluate(request)
      modifies this`world, this`approvedWorkerInvocations, broker.ledger, broker.ledger.files
      ensures Synced() && Reaches(env, pid, origin, world) && At(Idle)
      ensures old(approvedWorkerInvocations) <= approvedWorkerInvocations <= old(approvedWorkerInvocations) + 1
      ensures approvedWorkerInvocations > old(approvedWorkerInvocations) <==>
              Redeems(env, Accepted(verifier.approvers, verifier.requiresScope, approval), old(broker.ledger.files.rows),
                      old(broker.ledger.files.jsonl), old(world.store.consumed), old(world.store.executions), request, now,
                      faults)
              && !faults.uncertain
      ensures request.Key() in old(world.store.consumed) ==>
              r.Err? && approvedWorkerInvocations == old(approvedWorkerInvocations)
      ensures approvedWorkerInvocations == old(approvedWorkerInvocations) ==> world.log == old(world.log) && r.Err?
      ensures approvedWorkerInvocations > old(approvedWorkerInvocations) ==>
              exists position ::
                old(world.log)
                + [Started(request, now, Some(Accepted(verifier.approvers, verifier.requiresScope, approval)), position)]
                <= world.log
      ensures r.Ok? ==> worker == Some(r.value) && r.value <= maxOutputBytes
      ensures r.Ok? ==> request.Key() in world.store.executions && world.store.executions[request.Key()] == Completed
    {
      var execution, redeemed := Redeem(origin, job, request, approval, now, faults);
      if execution.Err? { return Err(DispatchError.Core(execution.error)); }
      r := Perform(origin, redeemed, execution.value.authorization, now, faults, worker);
    }

    /** Recording that an unsigned execution went well. */
    method ConcludeUnsigned(ghost origin: World, ghost job: Job, authorization: Authorization, length: nat,
            now: u64, fault: AppendFault)
      returns (r: Result<nat, DispatchError>)
      requires Synced() && Reaches(env, pid, origin, world) && At(Busy(Append(ExecutedSite, Acquire), job))
      requires !job.path.Signed?
      requires authorization == Authorization(job.request, job.decision) && job.now == now
      modifies this`world, broker.ledger, broker.ledger.files`rows, broker.ledger.files`jsonl
      ensures Synced() && Reaches(env, pid, origin, world) && At(Idle) && world.log == old(world.log)
      ensures world.store.consumed == old(world.store.consumed) && world.store.executions == old(world.store.executions)
      ensures var files := broker.ledger.files;
              var (rows, jsonl, recorded) := Noted(env, old(files.rows), old(files.jsonl), authorization, "executed",
                                                   now, fault);
              files.rows == rows && files.jsonl == jsonl && r == Otherwise(recorded, Ok(length))
    {
      var recorded := AuditOutcome(origin, ExecutedSite, job, authorization, "executed", now, fault);
      r := Otherwise(recorded, Ok(length));
    }

    /**
     * An unsigned request: it runs exactly when its decision could be recorded, was "auto", and it only reads; whatever
     * happens to it is recorded after its decision, and it touches no claim.
     */
    method DispatchAt(request: ActionRequest, now: u64, faults: Faults, worker: WorkerReport)
      returns (r: Result<nat, DispatchError>)
      requires Synced() && At(Idle)
      modifies this`world, broker.ledger, broker.ledger.files`rows, broker.ledger.files`jsonl
      ensures Synced() && Reaches(env, pid, old(world), world) && At(Idle)
      ensures var files := broker.ledger.files;
              var (rows, jsonl, decided) := Authorizing(env.policy, env.crypto, env.codec, old(files.rows), old(files.jsonl),
                                                        request, now, faults.authorize);
              if request.deviceId != env.deviceId then
                r == Err(WrongDevice) && world == old(world) && files.rows == old(files.rows) && files.jsonl == old(files.jsonl)
              else if decided.Err? then
                && r == Err(DispatchError.Core(decided.error)) && world.log == old(world.log)
                && files.rows == rows && files.jsonl == jsonl
              else
                && DirectEnds(env, rows, jsonl, files.rows, files.jsonl, decided.value, now, faults.outcome, worker,
                              maxOutputBytes, r)
                && if OnlyReads(request.action) && decided.value.decision.kind == Auto
                   then exists position :: world.log == old(world.log) + [Started(request, now, None, position)]
                   else world.log == old(world.log)
    {
      ghost var origin := world;
      ReachesSelf(env, pid, origin);
      if request.deviceId != env.deviceId { return Err(WrongDevice); }
      var authorized, job := TakeUp(origin, Direct, request, now, faults.authorize);
      if authorized.Err? { return Err(DispatchError.Core(authorized.error)); }
      r := FollowDecision(origin, job, authorized.value, now, faults, worker);
    }

    /** The unsigned request once its decision is recorded. */
    method FollowDecision(ghost origin: World, ghost job: Job, authorization: Authorization, now: u64, faults: Faults,
                          worker: WorkerReport)
      returns (r: Result<nat, DispatchError>)
      requires Synced() && Reaches(env, pid, origin, world) && At(DecidedNext(job, Proceed)) && job.path.Direct?
      requires authorization == Authorization(job.request, job.decision) && job.now == now
      modifies this`world, broker.ledger, broker.ledger.files`rows, broker.ledger.files`jsonl
      ensures Synced() && Reaches(env, pid, origin, world) && At(Idle)
      ensures if OnlyReads(authorization.request.action) && authorization.decision.kind == Auto
              then exists position :: world.log == old(world.log) + [Started(authorization.request, now, None, position)]
              else world.log == old(world.log)
      ensures DirectEnds(env, old(broker.ledger.files.rows), old(broker.ledger.files.jsonl), broker.ledger.files.rows,
                         broker.ledger.files.jsonl, authorization, now, faults.outcome, worker, maxOutputBytes, r)
    {
      AllowedReads(authorization.request.action);
      if !RemoteActionAllowed(authorization.request.action) {
        var noted := AuditOutcome(origin, ScopeDeniedSite, job, authorization, "remote_scope_denied", now, faults.outcome);
        return Otherwise(noted, Err(RemoteActionNotAllowed));
      }
      if authorization.decision.kind == Deny { return Err(Denied); }
      if authorization.decision.kind == PolicyDecisionKind.Approval {
        var noted := AuditOutcome(origin, ApprovalRequiredSite, job, authorization, "remote_approval_required",
                now, faults.outcome);
        return Otherwise(noted, Err(ApprovalRequired));
      }
      r := RunUnsigned(origin, job, authorization, now, faults, worker);
    }

    /** What an unsigned execution reports is recorded, and answered. */
    method ReportUnsigned(ghost origin: World, ghost job: Job, authorization: Authorization, now: u64,
            faults: Faults, worker: WorkerReport)
      returns (r: Result<nat, DispatchError>)
      requires Synced() && Reaches(env, pid, origin, world) && At(Busy(FinishUnsigned, job)) && job.path.Direct?
      requires authorization == Authorization(job.request, job.decision) && job.now == now
      modifies this`world, broker.ledger, broker.ledger.files`rows, broker.ledger.files`jsonl
      ensures Synced() && Reaches(env, pid, origin, world) && At(Idle) && world.log == old(world.log)
      ensures world.store.consumed == old(world.store.consumed) && world.store.executions == old(world.store.executions)
      ensures var files := broker.ledger.files;
              var (rows, jsonl, recorded) := Noted(env, old(files.rows), old(files.jsonl), authorization,
                                                   OutcomeFor(worker, maxOutputBytes), now, faults.outcome);
              files.rows == rows && files.jsonl == jsonl && r == Otherwise(recorded, AnswerFor(worker, maxOutputBytes))
    {
      if worker.None? {
        r := NoteWorkerFailed(origin, FinishUnsigned, job, authorization, now, faults.outcome);
        return;
      }
      Turn(origin, FinishUnsigned, job, Proceed, Busy(CheckOutput, job), []);
      r := MeasureUnsigned(origin, job, authorization, worker.value, now, faults);
    }

    method MeasureUnsigned(ghost origin: World, ghost job: Job, authorization: Authorization, length: nat,
            now: u64, faults: Faults)
      returns (r: Result<nat, DispatchError>)
      requires Synced() && Reaches(env, pid, origin, world) && At(Busy(CheckOutput, job)) && !job.path.Signed?
      requires authorization == Authorization(job.request, job.decision) && job.now == now
      modifies this`world, broker.ledger, broker.ledger.files`rows, broker.ledger.files`jsonl
      ensures Synced() && Reaches(env, pid, origin, world) && At(Idle) && world.log == old(world.log)
      ensures world.store.consumed == old(world.store.consumed) && world.store.executions == old(world.store.executions)
      ensures var files := broker.ledger.files;
              var (rows, jsonl, recorded) := Noted(env, old(files.rows), old(files.jsonl), authorization,
                                                   OutcomeFor(Some(length), maxOutputBytes), now, faults.outcome);
              files.rows == rows && files.jsonl == jsonl && r == Otherwise(recorded, AnswerFor(Some(length), maxOutputBytes))
    {
      if length > maxOutputBytes {
        r := NoteOverLimit(origin, job, authorization, length, now, faults.outcome);
        return;
      }
      var recorded := NoteExecuted(origin, job, authorization, now, faults.outcome);
      r := Otherwise(recorded, Ok(length));
    }

    method RunUnsigned(ghost origin: World, ghost job: Job, authorization: Authorization, now: u64,
            faults: Faults, worker: WorkerReport)
      returns (r: Result<nat, DispatchError>)
      requires Synced() && Reaches(env, pid, origin, world) && At(Busy(StartUnsigned, job)) && job.path.Direct?
      requires authorization == Authorization(job.request, job.decision) && job.now == now
      modifies this`world, broker.ledger, broker.ledger.files`rows, broker.ledger.files`jsonl
      ensures Synced() && Reaches(env, pid, origin, world) && At(Idle)
      ensures exists position :: world.log == old(world.log) + [Started(job.request, now, None, position)]
      ensures var files := broker.ledger.files;
              var (rows, jsonl, recorded) := Noted(env, old(files.rows), old(files.jsonl), authorization,
                                                   OutcomeFor(worker, maxOutputBytes), now, faults.outcome);
              files.rows == rows && files.jsonl == jsonl && r == Otherwise(recorded, AnswerFor(worker, maxOutputBytes))
    {
      ghost var position := StartUnsignedWork(origin, job);
      r := ReportUnsigned(origin, job, authorization, now, faults, worker);
    }

    /** The challenge that a decision calls for, handed out once it is recorded. */
    method MakeChallenge(ghost origin: World, ghost job: Job, authorization: Authorization, now: u64, nonce: Digest32,
                         fault: AppendFault) returns (r: Result<Preparation, DispatchError>)
      requires Synced() && Reaches(env, pid, origin, world) && At(Busy(Decided, job))
      requires DecidedNext(job, Proceed) == Busy(Append(ChallengeSite, Acquire), job) && DecidedNext(job, Fail) == Idle
      requires authorization == Authorization(job.request, job.decision) && job.now == now
      modifies this`world, broker.ledger, broker.ledger.files`rows, broker.ledger.files`jsonl
      ensures Synced() && Reaches(env, pid, origin, world) && At(Idle) && world.log == old(world.log)
      ensures var files := broker.ledger.files;
              var challenge := ChallengeFor(env, authorization, now, nonce);
              var (rows, jsonl, recorded) := Noted(env, old(files.rows), old(files.jsonl), authorization,
                                                   "approval_challenge_issued", now, fault);
              if challenge.Err? then
                files.rows == old(files.rows) && files.jsonl == old(files.jsonl) && r == Err(challenge.error)
              else
                files.rows == rows && files.jsonl == jsonl && r == FirstError(recorded, Ok(ToSign(challenge.value)))
    {
      var request, decision := authorization.request, authorization.decision;
      var expiresAt := CheckedAdd(now, CHALLENGE_TTL_MS);
      if expiresAt.None? {
        Turn(origin, Decided, job, Fail, Idle, []);
        return Err(Clock);
      }
      var challenge := Issue(verifier.crypto, request, decision, now, Min(expiresAt.value, request.expiresAtUnixMs), nonce);
      if challenge.Err? {
        Turn(origin, Decided, job, Fail, Idle, []);
        return Err(DispatchError.Approval(challenge.error));
      }
      Turn(origin, Decided, job, Proceed, Busy(Append(ChallengeSite, Acquire), job), []);
      var recorded := AuditOutcome(origin, ChallengeSite, job, authorization, "approval_challenge_issued", now, fault);
      r := if recorded.Ok? then Ok(ToSign(challenge.value)) else Err(DispatchError.Core(recorded.error));
    }

    /** The machine goes where preparing a request that needs no signature leads. */
    ghost method TurnPrepared(origin: World, job: Job)
      requires Synced() && Reaches(env, pid, origin, world) && At(Busy(Decided, job))
      requires job.path.PrepareEdited? || (job.path.Prepare? && !job.request.editRecipe && job.decision.kind != Deny)
      requires job.decision.kind != PolicyDecisionKind.Approval
      modifies this`world
      ensures Synced() && Reaches(env, pid, origin, world) && world.log == old(world.log) && world.store == old(world.store)
      ensures At(if RunsUnasked(job.request, job.decision) then Busy(StartUnsigned, job)
                 else Busy(Append(PolicyRequiredSite, Acquire), job))
    {
      PreparedStep(job);
      Turn(origin, Decided, job, Proceed, DecidedNext(job, Proceed), []);
    }

    /** A write that relies on the policy, or a command on the safe list, that the policy decided "auto". */
    method RunsAtOnce(request: ActionRequest, decision: PolicyDecision) returns (unasked: bool)
      ensures unasked == RunsUnasked(request, decision)
    {
      var writes := request.action == "filesystem.write" && request.policyAttempt;
      var safeTerminal := request.action == "terminal.exec" && decision.reasonCode == "terminal_safe_list";
      unasked := decision.kind == Auto && (writes || safeTerminal);
    }

    /** A decided request either runs now, because the policy lets it, or gets a challenge to be signed. */
    method ChallengeOrRun(ghost origin: World, ghost job: Job, authorization: Authorization, now: u64, nonce: Digest32,
                          faults: Faults, worker: WorkerReport) returns (r: Result<Preparation, DispatchError>)
      requires Synced() && Reaches(env, pid, origin, world) && At(Busy(Decided, job))
      requires job.path.PrepareEdited? || (job.path.Prepare? && !job.request.editRecipe && job.decision.kind != Deny)
      requires authorization == Authorization(job.request, job.decision) && job.now == now
      modifies this`world, broker.ledger, broker.ledger.files`rows, broker.ledger.files`jsonl
      ensures Synced() && Reaches(env, pid, origin, world) && At(Idle)
      ensures if RunsUnasked(authorization.request, authorization.decision)
              then exists position :: world.log == old(world.log) + [Started(authorization.request, now, None, position)]
              else world.log == old(world.log)
      ensures PreparedEnds(env, old(broker.ledger.files.rows), old(broker.ledger.files.jsonl), broker.ledger.files.rows,
                           broker.ledger.files.jsonl, authorization, now, nonce, faults.outcome, worker, r)
    {
      if authorization.decision.kind == PolicyDecisionKind.Approval {
        PreparedStep(job);
        r := MakeChallenge(origin, job, authorization, now, nonce, faults.outcome);
        return;
      }
      TurnPrepared(origin, job);
      var unasked := RunsAtOnce(authorization.request, authorization.decision);
      if unasked {
        var ran := RunPrepared(origin, job, authorization, now, faults, worker);
        return if ran.Ok? then Ok(Ran(ran.value)) else Err(ran.error);
      }
      var noted := AuditOutcome(origin, PolicyRequiredSite, job, authorization,
              "remote_approval_policy_required", now, faults.outcome);
      r := Err(if noted.Ok? then RemoteApprovalPolicyRequired else DispatchError.Core(noted.error));
    }

    /** The write or command that the policy lets run while its approval is prepared. */
    method RunPrepared(ghost origin: World, ghost job: Job, authorization: Authorization, now: u64,
            faults: Faults, worker: WorkerReport)
      returns (r: Result<nat, DispatchError>)
      requires Synced() && Reaches(env, pid, origin, world) && At(Busy(StartUnsigned, job))
      requires !job.path.Signed? && !job.path.Direct?
      requires authorization == Authorization(job.request, job.decision) && job.now == now
      modifies this`world, broker.ledger, broker.ledger.files`rows, broker.ledger.files`jsonl
      ensures Synced() && Reaches(env, pid, origin, world) && At(Idle)
      ensures exists position :: world.log == old(world.log) + [Started(job.request, now, None, position)]
      ensures var files := broker.ledger.files;
              var (rows, jsonl, recorded) := Noted(env, old(files.rows), old(files.jsonl), authorization, "executed", now,
                                                   faults.outcome);
              if worker.None? then files.rows == old(files.rows) && files.jsonl == old(files.jsonl) && r == Err(Worker)
              else files.rows == rows && files.jsonl == jsonl && r == Otherwise(recorded, Ok(worker.value))
    {
      ghost var position := StartUnsignedWork(origin, job);
      if worker.None? {
        Turn(origin, FinishUnsigned, job, Fail, Idle, []);
        return Err(Worker);
      }
      Turn(origin, FinishUnsigned, job, Proceed, Busy(Append(ExecutedSite, Acquire), job), []);
      r := ConcludeUnsigned(origin, job, authorization, worker.value, now, faults.outcome);
    }

    ghost method TurnDenied(origin: World, job: Job)
      requires Synced() && Reaches(env, pid, origin, world) && At(Busy(Decided, job))
      requires job.path.Prepare? && job.decision.kind == Deny
      modifies this`world
      ensures Synced() && Reaches(env, pid, origin, world) && At(Idle)
      ensures world.log == old(world.log) && world.store == old(world.store)
    {
      Turn(origin, Decided, job, Proceed, Idle, []);
    }

    /** A request whose approval is to be prepared is decided, and may be denied. */
    method TakeUpToPrepare(ghost origin: World, request: ActionRequest, now: u64, fault: AppendFault)
      returns (r: Result<Authorization, DispatchError>, ghost job: Job)
      requires Synced() && Reaches(env, pid, origin, world) && At(Idle)
      requires PreparingError(env, request).None?
      modifies this`world, broker.ledger, broker.ledger.files`rows, broker.ledger.files`jsonl
      ensures Synced() && Reaches(env, pid, origin, world) && world.log == old(world.log)
      ensures r.Err? ==> At(Idle)
      ensures r.Ok? ==>
              && job == Job(Prepare, request, r.value.decision, now, None) && At(Busy(Decided, job))
              && r.value.request == request && job.decision.kind != Deny
      ensures (broker.ledger.files.rows, broker.ledger.files.jsonl, r)
           == AuthorizesFirst(env, old(broker.ledger.files.rows), old(broker.ledger.files.jsonl), request, now, fault)
    {
      AllowedSigned(request.action);
      job := Begin(origin, Prepare, request, now);
      var authorized := Authorize(origin, job, request, now, fault);
      if authorized.Err? { return Err(DispatchError.Core(authorized.error)), job; }
      job := job.(decision := authorized.value.decision);
      if authorized.value.decision.kind == Deny {
        TurnDenied(origin, job);
        return Err(Denied), job;
      }
      r := Ok(authorized.value);
    }

    /** The rendered request is decided anew, if there is one. */
    method DecideRendered(ghost origin: World, ghost job: Job, request: ActionRequest, edited: Option<Rendering>, now: u64,
                          fault: AppendFault)
      returns (r: Result<Authorization, DispatchError>, ghost next: Job)
      requires Synced() && Reaches(env, pid, origin, world) && At(Busy(Decided, job)) && job.now == now
      requires job.path.Prepare? && job.request == request && request.editRecipe && job.decision.kind != Deny
      modifies this`world, broker.ledger, broker.ledger.files`rows, broker.ledger.files`jsonl
      ensures Synced() && Reaches(env, pid, origin, world) && world.log == old(world.log)
      ensures r.Err? ==> At(Idle)
      ensures r.Ok? ==>
              && next.path.PrepareEdited? && At(Busy(Decided, next)) && next.now == now
              && r.value == Authorization(next.request, next.decision)
      ensures (broker.ledger.files.rows, broker.ledger.files.jsonl, r)
           == AuthorizesRendered(env, old(broker.ledger.files.rows), old(broker.ledger.files.jsonl), request, edited, now, fault)
    {
      next := job;
      if edited.None? {
        Turn(origin, Decided, job, Fail, Idle, []);
        return Err(InvalidFilesystemParameters), next;
      }
      var rendered := Rendered(request, edited.value);
      next := job.(path := PrepareEdited, request := rendered);
      Turn(origin, Decided, job, Edit(edited.value), Busy(Evaluate, next), []);
      var authorized := Authorize(origin, next, rendered, now, fault);
      if authorized.Err? { return Err(DispatchError.Core(authorized.error)), next; }
      next := next.(decision := authorized.value.decision);
      r := Ok(authorized.value);
    }

    /** From the first authorization to the last. */
    method AuthorizeFinally(ghost origin: World, ghost first: Job, authorized: Result<Authorization, DispatchError>,
                            request: ActionRequest, edited: Option<Rendering>, now: u64, again: AppendFault)
      returns (r: Result<Authorization, DispatchError>, ghost job: Job)
      requires Synced() && Reaches(env, pid, origin, world)
      requires authorized.Err? ==> At(Idle)
      requires authorized.Ok? ==>
               && first == Job(Prepare, request, authorized.value.decision, now, None) && At(Busy(Decided, first))
               && authorized.value.request == request && first.decision.kind != Deny
      modifies this`world, broker.ledger, broker.ledger.files`rows, broker.ledger.files`jsonl
      ensures Synced() && Reaches(env, pid, origin, world) && world.log == old(world.log)
      ensures r.Err? ==> At(Idle)
      ensures r.Ok? ==>
              && At(Busy(Decided, job)) && r.value == Authorization(job.request, job.decision) && job.now == now
              && (job.path.PrepareEdited? || (job.path.Prepare? && !job.request.editRecipe && job.decision.kind != Deny))
      ensures (broker.ledger.files.rows, broker.ledger.files.jsonl, r)
           == AuthorizesFinally(env, (old(broker.ledger.files.rows), old(broker.ledger.files.jsonl), authorized), request,
                                edited, now, again)
    {
      r, job := authorized, first;
      if authorized.Ok? && request.editRecipe {
        r, job := DecideRendered(origin, first, request, edited, now, again);
      }
    }

    /** The first authorization and, for an edit, the one that replaces it. */
    method AuthorizeBoth(ghost origin: World, request: ActionRequest, edited: Option<Rendering>, now: u64,
                         fault: AppendFault, again: AppendFault)
      returns (r: Result<Authorization, DispatchError>, ghost job: Job)
      requires Synced() && Reaches(env, pid, origin, world) && At(Idle)
      requires PreparingError(env, request).None?
      modifies this`world, broker.ledger, broker.ledger.files`rows, broker.ledger.files`jsonl
      ensures Synced() && Reaches(env, pid, origin, world) && world.log == old(world.log)
      ensures r.Err? ==> At(Idle)
      ensures r.Ok? ==>
              && At(Busy(Decided, job)) && r.value == Authorization(job.request, job.decision) && job.now == now
              && (job.path.PrepareEdited? || (job.path.Prepare? && !job.request.editRecipe && job.decision.kind != Deny))
      ensures (broker.ledger.files.rows, broker.ledger.files.jsonl, r)
           == AuthorizesBoth(env, old(broker.ledger.files.rows), old(broker.ledger.files.jsonl), request, edited, now,
                             fault, again)
    {
      var first, firstJob := TakeUpToPrepare(origin, request, now, fault);
      r, job := AuthorizeFinally(origin, firstJob, first, request, edited, now, again);
    }

    /** Up to the request that is finally authorized. */
    method AuthorizePrepared(ghost origin: World, request: ActionRequest, edited: Option<Rendering>, now: u64,
                             fault: AppendFault, again: AppendFault)
      returns (r: Result<Authorization, DispatchError>, ghost job: Job)
      requires Synced() && Reaches(env, pid, origin, world) && At(Idle)
      modifies this`world, broker.ledger, broker.ledger.files`rows, broker.ledger.files`jsonl
      ensures Synced() && Reaches(env, pid, origin, world) && world.log == old(world.log)
      ensures r.Err? ==> At(Idle)
      ensures r.Ok? ==>
              && At(Busy(Decided, job)) && r.value == Authorization(job.request, job.decision) && job.now == now
              && (job.path.PrepareEdited? || (job.path.Prepare? && !job.request.editRecipe && job.decision.kind != Deny))
      ensures (broker.ledger.files.rows, broker.ledger.files.jsonl, r)
           == Prepares(env, old(broker.ledger.files.rows), old(broker.ledger.files.jsonl), request, edited, now, fault, again)
    {
      job := Job(Prepare, request, env.policy.evaluate(request), now, None);
      var refused := RefusesToPrepare(request);
      if refused.Some? { return Err(refused.value), job; }
      r, job := AuthorizeBoth(origin, request, edited, now, fault, again);
    }

    /**
     * Preparing an approval.  An edit is rendered into the request that will be signed, and that request is decided
     * anew; `edited` is what it renders to, absent when rendering fails.  The request finally authorized is executed
     * exactly if the policy decided "auto" and it is a write that relies on the policy or a command on the safe list;
     * otherwise nothing is, and what was decided "auto" is answered, on record, with the demand for a signature.
     */
    method PrepareDecided(request: ActionRequest, edited: Option<Rendering>, now: u64, nonce: Digest32,
                          faults: Faults, again: AppendFault, worker: WorkerReport)
      returns (r: Result<Preparation, DispatchError>)
      requires Synced() && At(Idle)
      modifies this`world, broker.ledger, broker.ledger.files`rows, broker.ledger.files`jsonl
      ensures Synced() && Reaches(env, pid, old(world), world) && At(Idle)
      ensures var files := broker.ledger.files;
              var (rows, jsonl, authorized) := Prepares(env, old(files.rows), old(files.jsonl), request, edited, now,
                                                        faults.authorize, again);
              if authorized.Err? then
                && r == Err(authorized.error) && world.log == old(world.log)
                && files.rows == rows && files.jsonl == jsonl
              else
                && PreparedEnds(env, rows, jsonl, files.rows, files.jsonl, authorized.value, now, nonce, faults.outcome, worker, r)
                && if RunsUnasked(authorized.value.request, authorized.value.decision)
                   then exists position ::
                          world.log == old(world.log) + [Started(authorized.value.request, now, None, position)]
                   else world.log == old(world.log)
    {
      ghost var origin := world;
      ReachesSelf(env, pid, origin);
      var authorized, job := AuthorizePrepared(origin, request, edited, now, faults.authorize, again);
      if authorized.Err? { return Err(authorized.error); }
      r := ChallengeOrRun(origin, job, authorized.value, now, nonce, faults, worker);
    }

    method PrepareApprovedAt(request: ActionRequest, edited: Option<Rendering>, now: u64, nonce: Digest32,
                             faults: Faults, again: AppendFault, worker: WorkerReport)
      returns (r: Result<Preparation, DispatchError>)
      requires Synced() && At(Idle)
      modifies this`world, broker.ledger, broker.ledger.files`rows, broker.ledger.files`jsonl
      ensures Synced() && Reaches(env, pid, old(world), world) && At(Idle)
      ensures var files := broker.ledger.files;
              var (rows, jsonl, authorized) := Prepares(env, old(files.rows), old(files.jsonl), request, edited, now,
                                                        faults.authorize, again);
              if authorized.Err? then
                && r == Err(authorized.error) && world.log == old(world.log)
                && files.rows == rows && files.jsonl == jsonl
              else
                && PreparedEnds(env, rows, jsonl, files.rows, files.jsonl, authorized.value, now, nonce, faults.outcome, worker, r)
                && if RunsUnasked(authorized.value.request, authorized.value.decision)
                   then exists position ::
                          world.log == old(world.log) + [Started(authorized.value.request, now, None, position)]
                   else world.log == old(world.log)
      ensures r.Ok? && r.value.ToSign? ==>
              && world.log == old(world.log)
              && r.value.challenge.requestId == request.requestId
              && r.value.challenge.envelopeDigest
                 == (if request.editRecipe && edited.Some? then edited.value.digest else request.envelopeDigest)
              && now < r.value.challenge.expiresAtUnixMs
    {
      ghost var rows, jsonl := broker.ledger.files.rows, broker.ledger.files.jsonl;
      r := PrepareDecided(request, edited, now, nonce, faults, again, worker);
      if r.Ok? && r.value.ToSign? {
        ChallengeIsForIt(env, rows, jsonl, request, edited, now, nonce, faults.authorize, again, worker);
      }
    }
  }
}
