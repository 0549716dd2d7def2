/** What every step of the pipeline keeps true of the audit table, whatever the lock file does. */
module LedgerSafety {
  import opened Wrappers
  import opened Bytes
  import opened Protocol
  import opened Audit
  import opened Core
  import opened Pipeline

  /** What an append that has come to `phase` knows about the table. */
  ghost predicate PhaseOk(codec: Codec, store: Store, p: Pid, phase: Phase, event: AuditEvent) {
    match phase
    case ReadFile(head) =>
      HeadSequence(head) <= |store.table| && head == LoadJsonlLast(store.table[..HeadSequence(head)])
    case Insert(r) =>
      && 1 <= r.sequence <= |store.table| + 1
      && r == NextRecord(codec, LoadJsonlLast(store.table[..r.sequence - 1]), event)
    case WriteLine(r) => store.tx == OpenTx(p, r) && r == NextRecord(codec, LoadJsonlLast(store.table), event)
    case Commit(r) => store.tx == OpenTx(p, r) && r == NextRecord(codec, LoadJsonlLast(store.table), event)
    case _ => true
  }

  ghost predicate ProcOk(env: Env, store: Store, p: Pid, proc: Proc) {
    proc.Busy? && proc.pc.Append? ==>
      PhaseOk(env.codec, store, p, proc.pc.phase, EventAt(env, proc.pc.site, proc.job))
  }

  /** The process is between its insert and its commit of this record. */
  predicate Writing(proc: Proc, record: AuditRecord) {
    proc.Busy? && proc.pc.Append? && WritingPhase(proc.pc.phase, record)
  }

  ghost predicate LedgerInv(env: Env, w: World) {
    && Chain(env.codec, w.store.table)
    && (forall p :: ProcOk(env, w.store, p, ProcOf(w, p)))
    && (w.store.tx.OpenTx? ==> Writing(ProcOf(w, w.store.tx.owner), w.store.tx.record))
  }

  lemma OtherProcOk(env: Env, store: Store, after: Store, q: Pid, proc: Proc)
    requires ProcOk(env, store, q, proc)
    requires store.table <= after.table
    requires store.tx.OpenTx? && store.tx.owner == q ==> after.table == store.table && after.tx == store.tx
    ensures ProcOk(env, after, q, proc)
  {
    if proc.Busy? && proc.pc.Append? {
      match proc.pc.phase
      case ReadFile(head) =>
        assert after.table[..HeadSequence(head)] == store.table[..HeadSequence(head)];
      case Insert(r) =>
        assert after.table[..r.sequence - 1] == store.table[..r.sequence - 1];
      case _ =>
    }
  }

  lemma HeadOfPrefix(codec: Codec, table: seq<AuditRecord>)
    requires Chain(codec, table)
    ensures HeadSequence(LoadJsonlLast(table)) == |table|
    ensures table[..|table|] == table
  {
    ChainSequences(codec, table);
  }

  /** An insert that meets no row of its number extends the very table it was computed from. */
  lemma BehindIsTaken(codec: Codec, table: seq<AuditRecord>, record: AuditRecord)
    requires Chain(codec, table) && 1 <= record.sequence <= |table|
    ensures Taken(table, record)
  {
    ChainSequences(codec, table);
    assert table[record.sequence - 1].sequence == record.sequence;
  }

  predicate WritingPhase(phase: Phase, record: AuditRecord) {
    phase == WriteLine(record) || phase == Commit(record)
  }

  /** What one step of an append by `p` may do to the table and to the open transaction. */
  ghost predicate Kept(codec: Codec, store: Store, p: Pid, phase: Phase, event: AuditEvent, o: Outcome) {
    && Chain(codec, o.store.table) && store.table <= o.store.table
    && (o.Continue? ==> PhaseOk(codec, o.store, p, o.phase, event))
    && (o.store.table != store.table ==> phase.Commit? && o.store.table == store.table + [phase.record])
    && (o.store.table != store.table || o.store.tx != store.tx ==> store.tx.NoTx? || store.tx.owner == p)
    && (o.store.tx.OpenTx? ==>
          || (o.store.tx == store.tx && !phase.WriteLine? && !phase.Commit?)
          || (o.store.tx.owner == p && o.Continue? && WritingPhase(o.phase, o.store.tx.record)))
    && o.store.consumed == store.consumed && o.store.executions == store.executions
  }

  lemma InsertKeeps(codec: Codec, store: Store, p: Pid, record: AuditRecord, event: AuditEvent, choice: Choice)
    requires Chain(codec, store.table) && PhaseOk(codec, store, p, Insert(record), event)
    ensures Kept(codec, store, p, Insert(record), event, AppendStep(codec, store, p, Insert(record), event, choice))
  {
    var o := AppendStep(codec, store, p, Insert(record), event, choice);
    assert o.store.table == store.table;
    if o.Continue? && o.phase.WriteLine? {
      if record.sequence <= |store.table| {
        BehindIsTaken(codec, store.table, record);
      }
      assert store.table[..record.sequence - 1] == store.table;
    }
  }

  lemma ReadsKeep(codec: Codec, store: Store, p: Pid, phase: Phase, event: AuditEvent, choice: Choice)
    requires phase.ReadDb? || phase.ReadFile?
    requires Chain(codec, store.table) && PhaseOk(codec, store, p, phase, event)
    ensures Kept(codec, store, p, phase, event, AppendStep(codec, store, p, phase, event, choice))
  {
    var o := AppendStep(codec, store, p, phase, event, choice);
    assert o.store.table == store.table;
    if phase.ReadDb? {
      HeadOfPrefix(codec, store.table);
    } else {
      var n := HeadSequence(phase.dbLast);
      assert store.table[..n] == store.table[..(n + 1) - 1];
    }
  }

  lemma PlainPhasesKeep(codec: Codec, store: Store, p: Pid, phase: Phase, event: AuditEvent, choice: Choice)
    requires phase.Acquire? || phase.WriteLine? || phase.Release?
    requires Chain(codec, store.table) && PhaseOk(codec, store, p, phase, event)
    ensures Kept(codec, store, p, phase, event, AppendStep(codec, store, p, phase, event, choice))
  {
    assert AppendStep(codec, store, p, phase, event, choice).store.table == store.table;
  }

  lemma CommitKeeps(codec: Codec, store: Store, p: Pid, record: AuditRecord, event: AuditEvent, choice: Choice)
    requires Chain(codec, store.table) && PhaseOk(codec, store, p, Commit(record), event)
    ensures Kept(codec, store, p, Commit(record), event, AppendStep(codec, store, p, Commit(record), event, choice))
  {
    ChainExtends(codec, store.table, record);
  }

  lemma AppendStepKeeps(codec: Codec, store: Store, p: Pid, phase: Phase, event: AuditEvent, choice: Choice)
    requires Chain(codec, store.table) && PhaseOk(codec, store, p, phase, event)
    ensures Kept(codec, store, p, phase, event, AppendStep(codec, store, p, phase, event, choice))
  {
    if phase.Insert? {
      InsertKeeps(codec, store, p, phase.record, event, choice);
    } else if phase.Commit? {
      CommitKeeps(codec, store, p, phase.record, event, choice);
    } else if phase.ReadDb? || phase.ReadFile? {
      ReadsKeep(codec, store, p, phase, event, choice);
    } else {
      PlainPhasesKeep(codec, store, p, phase, event, choice);
    }
  }

  predicate QuietMove(store: Store, m: Move) {
    && m.store.table == store.table && m.store.jsonl == store.jsonl && m.store.tx == store.tx
    && m.store.lock == store.lock
    && (m.next.Busy? && m.next.pc.Append? ==> m.next.pc.phase.Acquire?)
  }

  lemma ControlMoveKeepsLedger(env: Env, store: Store, pc: Pc, job: Job, choice: Choice)
    requires !pc.Append?
    ensures QuietMove(store, ControlMove(env, store, pc, job, choice))
  {
  }

  lemma OthersKept(env: Env, w: World, after: World, p: Pid)
    requires LedgerInv(env, w) && w.store.table <= after.store.table
    requires forall q | q != p :: ProcOf(after, q) == ProcOf(w, q)
    requires after.store.table != w.store.table || after.store.tx != w.store.tx ==>
             w.store.tx.NoTx? || w.store.tx.owner == p
    ensures forall q | q != p :: ProcOk(env, after.store, q, ProcOf(after, q))
  {
    forall q | q != p
      ensures ProcOk(env, after.store, q, ProcOf(after, q))
    {
      assert ProcOk(env, w.store, q, ProcOf(w, q));
      OtherProcOk(env, w.store, after.store, q, ProcOf(w, q));
    }
  }

  predicate AtStart(proc: Proc) {
    proc.Busy? && proc.pc.Append? ==> proc.pc.phase.Acquire?
  }

  lemma AppendMoveShape(env: Env, store: Store, p: Pid, site: Site, phase: Phase, job: Job, choice: Choice)
    ensures var m := AppendMove(env, store, p, site, phase, job, choice);
            var o := AppendStep(env.codec, store, p, phase, EventAt(env, site, job), choice);
            && m.store == o.store && m.effects == []
            && (if o.Continue? then m.next == Busy(Append(site, o.phase), job) else AtStart(m.next))
  {
  }

  /** The frame of an advance: the process moves as computed and every other process stays put. */
  lemma AdvanceShape(env: Env, w: World, p: Pid, choice: Choice)
    requires ProcOf(w, p).Busy?
    ensures var after := Step(env, w, Advance(p, choice));
            var m := AdvanceMove(env, w.store, p, ProcOf(w, p).pc, ProcOf(w, p).job, choice);
            && after.store == m.store && after.log == w.log + m.effects && ProcOf(after, p) == m.next
            && forall q | q != p :: ProcOf(after, q) == ProcOf(w, q)
  {
  }

  lemma LedgerAppendStep(env: Env, w: World, p: Pid, choice: Choice)
    requires LedgerInv(env, w) && ProcOf(w, p).Busy? && ProcOf(w, p).pc.Append?
    ensures LedgerInv(env, Step(env, w, Advance(p, choice)))
    ensures w.store.table <= Step(env, w, Advance(p, choice)).store.table
  {
    var after := Step(env, w, Advance(p, choice));
    var proc := ProcOf(w, p);
    var site, phase, job := proc.pc.site, proc.pc.phase, proc.job;
    assert ProcOk(env, w.store, p, proc);
    AdvanceShape(env, w, p, choice);
    AppendMoveShape(env, w.store, p, site, phase, job, choice);
    AppendStepKeeps(env.codec, w.store, p, phase, EventAt(env, site, job), choice);
    assert ProcOk(env, after.store, p, ProcOf(after, p));
    OthersKept(env, w, after, p);
  }

  lemma LedgerControlStep(env: Env, w: World, p: Pid, choice: Choice)
    requires LedgerInv(env, w) && ProcOf(w, p).Busy? && !ProcOf(w, p).pc.Append?
    ensures LedgerInv(env, Step(env, w, Advance(p, choice)))
    ensures w.store.table <= Step(env, w, Advance(p, choice)).store.table
  {
    var after := Step(env, w, Advance(p, choice));
    var m := ControlMove(env, w.store, ProcOf(w, p).pc, ProcOf(w, p).job, choice);
    ControlMoveKeepsLedger(env, w.store, ProcOf(w, p).pc, ProcOf(w, p).job, choice);
    assert after.store == m.store && ProcOf(after, p) == m.next;
    OthersKept(env, w, after, p);
  }

  /** The table is a gap-free chain at every moment, and no step ever removes or changes a record. */
  lemma LedgerStep(env: Env, w: World, a: Action)
    requires LedgerInv(env, w)
    ensures LedgerInv(env, Step(env, w, a))
    ensures w.store.table <= Step(env, w, a).store.table
  {
    var after := Step(env, w, a);
    match a
    case Advance(p, choice) =>
      if ProcOf(w, p).Busy? && ProcOf(w, p).pc.Append? {
        LedgerAppendStep(env, w, p, choice);
      } else if ProcOf(w, p).Busy? {
        LedgerControlStep(env, w, p, choice);
      }
    case RemoveLock =>
      assert forall q :: ProcOk(env, w.store, q, ProcOf(w, q)) && ProcOf(after, q) == ProcOf(w, q);
    case _ =>
      OthersKept(env, w, after, a.p);
  }

  lemma {:induction false} LedgerAlways(env: Env, actions: seq<Action>)
    ensures LedgerInv(env, Run(env, actions))
  {
    if actions != [] {
      LedgerAlways(env, actions[..|actions| - 1]);
      LedgerStep(env, Run(env, actions[..|actions| - 1]), actions[|actions| - 1]);
    }
  }
}
