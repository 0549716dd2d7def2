/** How far the audit table and its JSONL mirror can drift apart, with an exclusive lock and without one. */
module Agreement {
  import opened Wrappers
  import opened Bytes
  import opened Protocol
  import opened Audit
  import opened Core
  import opened Pipeline
  import opened LedgerSafety

  /** The process holds, or believes it holds, the lock file. */
  predicate InCritical(proc: Proc) {
    proc.Busy? && proc.pc.Append? && !proc.pc.phase.Acquire?
  }

  /** The file is exactly one record ahead of the table. */
  ghost predicate Ahead(codec: Codec, store: Store) {
    && |store.jsonl| == |store.table| + 1
    && store.table <= store.jsonl
    && Chain(codec, store.jsonl)
  }

  /** What the file looks like while a transaction is open. */
  ghost predicate MirrorsOpenTx(w: World) {
    w.store.tx.OpenTx? ==>
      var proc := ProcOf(w, w.store.tx.owner);
      && Writing(proc, w.store.tx.record)
      && w.store.jsonl == if proc.pc.phase.WriteLine? then w.store.table else w.store.table + [w.store.tx.record]
  }

  // ----------------------------------------------------------- with an exclusive lock

  /** The lock file is removed as abandoned only when its holder is no longer inside an append. */
  ghost predicate Lawful(w: World, a: Action) {
    a.RemoveLock? && w.store.lock.Some? ==> !InCritical(ProcOf(w, w.store.lock.value))
  }

  ghost predicate LawfulRun(env: Env, actions: seq<Action>) {
    forall i | 0 <= i < |actions| :: Lawful(Run(env, actions[..i]), actions[i])
  }

  ghost predicate HolderKnows(store: Store, phase: Phase) {
    match phase
    case ReadFile(head) => head == LoadJsonlLast(store.table)
    case Insert(r) => store.jsonl == store.table && store.tx.NoTx?
    case Release => store.jsonl == store.table && store.tx.NoTx?
    case _ => true
  }

  ghost predicate HolderOk(store: Store, p: Pid, proc: Proc) {
    InCritical(proc) ==> store.lock == Some(p) && HolderKnows(store, proc.pc.phase)
  }

  ghost predicate ExclusiveInv(env: Env, w: World) {
    && LedgerInv(env, w)
    && (forall p :: HolderOk(w.store, p, ProcOf(w, p)))
    && MirrorsOpenTx(w)
    && (w.store.tx.NoTx? ==> w.store.jsonl == w.store.table || Ahead(env.codec, w.store))
  }

  /** While one process is inside an append no other is, so nothing it relies on moves under it. */
  lemma OnlyHolder(env: Env, w: World, p: Pid, q: Pid)
    requires ExclusiveInv(env, w) && InCritical(ProcOf(w, p)) && q != p
    ensures !InCritical(ProcOf(w, q))
    ensures w.store.tx.OpenTx? ==> w.store.tx.owner == p
  {
    assert HolderOk(w.store, p, ProcOf(w, p)) && HolderOk(w.store, q, ProcOf(w, q));
    if w.store.tx.OpenTx? {
      assert HolderOk(w.store, w.store.tx.owner, ProcOf(w, w.store.tx.owner));
    }
  }

  lemma AheadOfNext(env: Env, store: Store, event: AuditEvent)
    requires Chain(env.codec, store.table)
    requires store.jsonl == store.table + [NextRecord(env.codec, LoadJsonlLast(store.table), event)]
    ensures Ahead(env.codec, store)
  {
    ChainExtends(env.codec, store.table, store.jsonl[|store.table|]);
  }

  lemma OthersHold(w: World, after: World, p: Pid)
    requires forall q :: HolderOk(w.store, q, ProcOf(w, q))
    requires forall q | q != p :: ProcOf(after, q) == ProcOf(w, q)
    requires (forall q | q != p :: !InCritical(ProcOf(w, q)))
             || (after.store.lock == w.store.lock && after.store.table == w.store.table
                 && after.store.jsonl == w.store.jsonl && after.store.tx == w.store.tx)
    ensures forall q | q != p :: HolderOk(after.store, q, ProcOf(after, q))
  {
    forall q | q != p
      ensures HolderOk(after.store, q, ProcOf(after, q))
    {
      assert HolderOk(w.store, q, ProcOf(w, q));
    }
  }

  /** What an append step does under an exclusive lock, told apart by phase. */
  lemma ExclusiveOutcome(env: Env, store: Store, p: Pid, phase: Phase, event: AuditEvent, choice: Choice)
    requires Chain(env.codec, store.table) && PhaseOk(env.codec, store, p, phase, event)
    requires !phase.Acquire? ==> store.lock == Some(p) && HolderKnows(store, phase)
    requires !phase.Acquire? && !phase.WriteLine? && !phase.Commit? ==> store.tx.NoTx?
    requires store.tx.NoTx? ==> store.jsonl == store.table || Ahead(env.codec, store)
    requires phase.WriteLine? ==> store.jsonl == store.table
    requires phase.Commit? ==> store.jsonl == store.table + [phase.record]
    ensures var o := AppendStep(env.codec, store, p, phase, event, choice);
            && (o.Continue? && !o.phase.Acquire? ==> o.store.lock == Some(p) && HolderKnows(o.store, o.phase))
            && (!phase.Acquire? && o.store.tx.NoTx? ==>
                  o.store.jsonl == o.store.table || Ahead(env.codec, o.store))
            && (!phase.Acquire? && o.store.tx.OpenTx? ==>
                  && o.Continue? && o.store.tx.owner == p
                  && WritingPhase(o.phase, o.store.tx.record)
                  && o.store.jsonl == if o.phase.WriteLine? then o.store.table else o.store.table + [o.store.tx.record])
  {
    match phase
    case ReadDb =>
      HeadOfPrefix(env.codec, store.table);
    case ReadFile(head) =>
      if store.jsonl != store.table {
        ChainSequences(env.codec, store.jsonl);
        ChainSequences(env.codec, store.table);
      }
    case WriteLine(record) =>
      AheadOfNext(env, store.(jsonl := store.jsonl + [record]), event);
      AheadOfNext(env, store.(jsonl := store.jsonl + [record], tx := NoTx, lock := None), event);
    case Commit(record) =>
      AheadOfNext(env, store, event);
      AheadOfNext(env, store.(tx := NoTx, lock := None), event);
    case _ =>
  }

  lemma ExclusiveAppendStep(env: Env, w: World, p: Pid, choice: Choice)
    requires ExclusiveInv(env, w) && ProcOf(w, p).Busy? && ProcOf(w, p).pc.Append?
    ensures ExclusiveInv(env, Step(env, w, Advance(p, choice)))
  {
    var after := Step(env, w, Advance(p, choice));
    var proc := ProcOf(w, p);
    var site, phase, job := proc.pc.site, proc.pc.phase, proc.job;
    LedgerStep(env, w, Advance(p, choice));
    AdvanceShape(env, w, p, choice);
    AppendMoveShape(env, w.store, p, site, phase, job, choice);
    assert ProcOk(env, w.store, p, proc) && HolderOk(w.store, p, proc);
    if phase.Acquire? {
      ExclusiveAcquire(env, w, p, choice);
    } else {
      forall q | q != p
        ensures !InCritical(ProcOf(w, q))
      {
        OnlyHolder(env, w, p, q);
      }
      OnlyHolder(env, w, p, p + 1);
      ExclusiveOutcome(env, w.store, p, phase, EventAt(env, site, job), choice);
      OthersHold(w, after, p);
      assert HolderOk(after.store, p, ProcOf(after, p));
    }
  }

  lemma ExclusiveAcquire(env: Env, w: World, p: Pid, choice: Choice)
    requires ExclusiveInv(env, w)
    requires ProcOf(w, p).Busy? && ProcOf(w, p).pc.Append? && ProcOf(w, p).pc.phase.Acquire?
    requires LedgerInv(env, Step(env, w, Advance(p, choice)))
    ensures ExclusiveInv(env, Step(env, w, Advance(p, choice)))
  {
    var after := Step(env, w, Advance(p, choice));
    var proc := ProcOf(w, p);
    AdvanceShape(env, w, p, choice);
    AppendMoveShape(env, w.store, p, proc.pc.site, proc.pc.phase, proc.job, choice);
    forall q | q != p
      ensures HolderOk(after.store, q, ProcOf(after, q))
    {
      assert HolderOk(w.store, q, ProcOf(w, q));
    }
    assert HolderOk(after.store, p, ProcOf(after, p));
  }

  lemma ExclusiveControlStep(env: Env, w: World, p: Pid, choice: Choice)
    requires ExclusiveInv(env, w) && ProcOf(w, p).Busy? && !ProcOf(w, p).pc.Append?
    ensures ExclusiveInv(env, Step(env, w, Advance(p, choice)))
  {
    var after := Step(env, w, Advance(p, choice));
    LedgerStep(env, w, Advance(p, choice));
    AdvanceShape(env, w, p, choice);
    ControlMoveKeepsLedger(env, w.store, ProcOf(w, p).pc, ProcOf(w, p).job, choice);
    OthersHold(w, after, p);
    assert HolderOk(after.store, p, ProcOf(after, p));
  }

  /** A writer that dies with its transaction open leaves its record in the file or nowhere. */
  lemma ExclusiveCrash(env: Env, w: World, p: Pid)
    requires ExclusiveInv(env, w) && w.store.tx.OpenTx? && w.store.tx.owner == p
    ensures ExclusiveInv(env, Step(env, w, Crash(p)))
  {
    var after := Step(env, w, Crash(p));
    LedgerStep(env, w, Crash(p));
    assert ProcOk(env, w.store, p, ProcOf(w, p));
    forall q | q != p
      ensures !InCritical(ProcOf(w, q))
    {
      OnlyHolder(env, w, p, q);
    }
    if w.store.jsonl != w.store.table {
      var proc := ProcOf(w, p);
      AheadOfNext(env, after.store, EventAt(env, proc.pc.site, proc.job));
    }
    OthersHold(w, after, p);
  }

  /** An exclusive lock keeps the file equal to the table or one record ahead of it, through any crash. */
  lemma RestShape(env: Env, w: World, a: Action)
    requires a.Advance? ==> !ProcOf(w, a.p).Busy?
    requires a.Crash? ==> w.store.tx.NoTx? || w.store.tx.owner != a.p
    ensures var after := Step(env, w, a);
            && after.store.table == w.store.table && after.store.jsonl == w.store.jsonl && after.store.tx == w.store.tx
            && after.store.lock == (if a.RemoveLock? then None else w.store.lock)
            && forall q :: ProcOf(after, q) == ProcOf(w, q) || (!a.RemoveLock? && q == a.p && !InCritical(ProcOf(after, q)))
  {}

  /** Opening, submitting, removing the lock and dying outside a transaction leave table and file alone. */
  lemma ExclusiveRest(env: Env, w: World, a: Action)
    requires ExclusiveInv(env, w) && Lawful(w, a)
    requires a.Advance? ==> !ProcOf(w, a.p).Busy?
    requires a.Crash? ==> w.store.tx.NoTx? || w.store.tx.owner != a.p
    ensures ExclusiveInv(env, Step(env, w, a))
  {
    var after := Step(env, w, a);
    LedgerStep(env, w, a);
    RestShape(env, w, a);
    RestHolds(w, after, a);
  }

  lemma RestHolds(w: World, after: World, a: Action)
    requires (forall q :: HolderOk(w.store, q, ProcOf(w, q))) && Lawful(w, a)
    requires after.store.table == w.store.table && after.store.jsonl == w.store.jsonl && after.store.tx == w.store.tx
    requires after.store.lock == if a.RemoveLock? then None else w.store.lock
    requires forall q :: ProcOf(after, q) == ProcOf(w, q) || (!a.RemoveLock? && q == a.p && !InCritical(ProcOf(after, q)))
    ensures forall q :: HolderOk(after.store, q, ProcOf(after, q))
  {
    forall q
      ensures HolderOk(after.store, q, ProcOf(after, q))
    {
      assert HolderOk(w.store, q, ProcOf(w, q));
    }
  }

  lemma ExclusiveStep(env: Env, w: World, a: Action)
    requires ExclusiveInv(env, w) && Lawful(w, a)
    ensures ExclusiveInv(env, Step(env, w, a))
  {
    if a.Advance? && ProcOf(w, a.p).Busy? {
      if ProcOf(w, a.p).pc.Append? {
        ExclusiveAppendStep(env, w, a.p, a.choice);
      } else {
        ExclusiveControlStep(env, w, a.p, a.choice);
      }
    } else if a.Crash? && w.store.tx.OpenTx? && w.store.tx.owner == a.p {
      ExclusiveCrash(env, w, a.p);
    } else {
      ExclusiveRest(env, w, a);
    }
  }

  lemma LawfulPrefix(env: Env, actions: seq<Action>)
    requires LawfulRun(env, actions) && actions != []
    ensures LawfulRun(env, actions[..|actions| - 1])
    ensures Lawful(Run(env, actions[..|actions| - 1]), actions[|actions| - 1])
  {
    var n := |actions| - 1;
    forall i | 0 <= i < n
      ensures Lawful(Run(env, actions[..n][..i]), actions[..n][i])
    {
      assert actions[..n][..i] == actions[..i];
      assert Lawful(Run(env, actions[..i]), actions[i]);
    }
  }

  lemma {:induction false} ExclusiveAlways(env: Env, actions: seq<Action>)
    requires LawfulRun(env, actions)
    ensures ExclusiveInv(env, Run(env, actions))
  {
    if actions != [] {
      LawfulPrefix(env, actions);
      ExclusiveAlways(env, actions[..|actions| - 1]);
      ExclusiveStep(env, Run(env, actions[..|actions| - 1]), actions[|actions| - 1]);
    }
  }

  /**
   * At every moment of every run with an exclusive lock, crashes and failing commits included, the table is a
   * gap-free chain and the file holds the same records, or those and exactly one more.
   */
  lemma StoresAgree(env: Env, actions: seq<Action>)
    requires LawfulRun(env, actions)
    ensures var store := Run(env, actions).store;
            Chain(env.codec, store.table) && (store.jsonl == store.table || Ahead(env.codec, store))
  {
    ExclusiveAlways(env, actions);
    var w := Run(env, actions);
    if w.store.tx.OpenTx? && w.store.jsonl != w.store.table {
      var proc := ProcOf(w, w.store.tx.owner);
      assert ProcOk(env, w.store, w.store.tx.owner, proc);
      AheadOfNext(env, w.store, EventAt(env, proc.pc.site, proc.job));
    }
  }

  /** On every reachable state the comparison of last records decides exactly what the full check decides. */
  lemma CheapCheckDecides(env: Env, actions: seq<Action>)
    requires LawfulRun(env, actions) && env.codec.Faithful()
    requires |Run(env, actions).store.jsonl| <= I64_MAX
    ensures var store := Run(env, actions).store;
            LoadDbLast(RowsOf(env.codec, store.table)) == Ok(LoadJsonlLast(store.jsonl))
            <==> Intact(env.codec, RowsOf(env.codec, store.table), store.jsonl)
  {
    StoresAgree(env, actions);
    var store := Run(env, actions).store;
    HeadOfRows(env.codec, store.table);
    ChainSequences(env.codec, store.table);
    if store.jsonl == store.table {
      ChainIsIntact(env.codec, store.table);
    } else {
      ChainSequences(env.codec, store.jsonl);
    }
  }

  /** No transaction is open and the file holds a record that was never committed. */
  predicate Diverged(store: Store) {
    store.tx.NoTx? && store.jsonl != store.table
  }

  lemma DivergedHeads(env: Env, w: World)
    requires ExclusiveInv(env, w) && Diverged(w.store)
    ensures LoadJsonlLast(w.store.jsonl) != LoadJsonlLast(w.store.table)
  {
    ChainSequences(env.codec, w.store.jsonl);
    ChainSequences(env.codec, w.store.table);
  }

  /** An append that meets different last records gets no further than comparing them. */
  lemma DivergedOutcome(codec: Codec, store: Store, p: Pid, phase: Phase, event: AuditEvent, choice: Choice)
    requires Diverged(store) && LoadJsonlLast(store.jsonl) != LoadJsonlLast(store.table)
    requires phase.Acquire? || phase.ReadDb? || phase == ReadFile(LoadJsonlLast(store.table))
    ensures var o := AppendStep(codec, store, p, phase, event, choice);
            && o.store.table == store.table && o.store.jsonl == store.jsonl && Diverged(o.store)
            && (phase.ReadFile? ==> o.Failed?)
  {}

  lemma DivergedPhase(env: Env, store: Store, p: Pid, proc: Proc)
    requires Diverged(store) && HolderOk(store, p, proc) && ProcOk(env, store, p, proc) && proc.Busy? && proc.pc.Append?
    ensures var phase := proc.pc.phase; phase.Acquire? || phase.ReadDb? || phase == ReadFile(LoadJsonlLast(store.table))
  {}

  lemma DivergedAdvance(env: Env, w: World, p: Pid, choice: Choice)
    requires ExclusiveInv(env, w) && Diverged(w.store) && ProcOf(w, p).Busy?
    ensures var after, proc := Step(env, w, Advance(p, choice)), ProcOf(w, p);
            && after.store.table == w.store.table && after.store.jsonl == w.store.jsonl && Diverged(after.store)
            && (proc.pc.Append? && proc.pc.phase.ReadFile? ==>
                  ProcOf(after, p) == AfterFailedAppend(proc.pc.site, proc.job))
  {
    var proc := ProcOf(w, p);
    AdvanceShape(env, w, p, choice);
    if !proc.pc.Append? {
      ControlMoveKeepsLedger(env, w.store, proc.pc, proc.job, choice);
    } else {
      var site, phase, job := proc.pc.site, proc.pc.phase, proc.job;
      assert HolderOk(w.store, p, proc) && ProcOk(env, w.store, p, proc);
      DivergedHeads(env, w);
      DivergedPhase(env, w.store, p, proc);
      DivergedOutcome(env.codec, w.store, p, phase, EventAt(env, site, job), choice);
    }
  }

  /**
   * A divergence is permanent: whatever happens next, neither store changes again, every open fails, and an
   * append that gets as far as comparing the two stores returns its error without an effect.
   */
  lemma DivergedStep(env: Env, w: World, a: Action)
    requires ExclusiveInv(env, w) && Lawful(w, a) && Diverged(w.store)
    ensures var after := Step(env, w, a);
            && after.store.table == w.store.table && after.store.jsonl == w.store.jsonl && Diverged(after.store)
            && (a.Open? && ProcOf(w, a.p).Closed? ==> ProcOf(after, a.p).Closed?)
            && (a.Advance? && ProcOf(w, a.p).Busy? && ProcOf(w, a.p).pc.Append? && ProcOf(w, a.p).pc.phase.ReadFile? ==>
                  ProcOf(after, a.p) == AfterFailedAppend(ProcOf(w, a.p).pc.site, ProcOf(w, a.p).job))
  {
    DivergedHeads(env, w);
    if a.Advance? && ProcOf(w, a.p).Busy? {
      DivergedAdvance(env, w, a.p, a.choice);
    }
  }

  lemma {:induction false} DivergedForever(env: Env, actions: seq<Action>, n: nat)
    requires LawfulRun(env, actions) && n <= |actions|
    requires Diverged(Run(env, actions[..n]).store)
    ensures var early, late := Run(env, actions[..n]).store, Run(env, actions).store;
            late.table == early.table && late.jsonl == early.jsonl && Diverged(late)
    decreases |actions|
  {
    if n < |actions| {
      var m := |actions| - 1;
      LawfulPrefix(env, actions);
      assert actions[..m][..n] == actions[..n];
      DivergedForever(env, actions[..m], n);
      ExclusiveAlways(env, actions[..m]);
      DivergedStep(env, Run(env, actions[..m]), actions[m]);
    } else {
      assert actions[..n] == actions;
    }
  }

  // --------------------------------------------------- without one, but without failures

  /** No process dies, no commit fails, and a line is written whole or not at all. */
  predicate Clean(w: World, a: Action) {
    && !a.Crash?
    && (a.Advance? ==>
          && !a.choice.Late?
          && (a.choice.Fail? && ProcOf(w, a.p).Busy? && ProcOf(w, a.p).pc.Append? ==> !ProcOf(w, a.p).pc.phase.Commit?))
  }

  ghost predicate CleanRun(env: Env, actions: seq<Action>) {
    forall i | 0 <= i < |actions| :: Clean(Run(env, actions[..i]), actions[i])
  }

  ghost predicate OverlapInv(env: Env, w: World) {
    LedgerInv(env, w) && MirrorsOpenTx(w) && (w.store.tx.NoTx? ==> w.store.jsonl == w.store.table)
  }

  lemma CleanOutcome(env: Env, store: Store, p: Pid, phase: Phase, event: AuditEvent, choice: Choice)
    requires Chain(env.codec, store.table) && PhaseOk(env.codec, store, p, phase, event)
    requires store.tx.NoTx? ==> store.jsonl == store.table
    requires phase.WriteLine? ==> store.jsonl == store.table
    requires phase.Commit? ==> store.jsonl == store.table + [phase.record]
    requires !choice.Late? && (choice.Fail? ==> !phase.Commit?)
    ensures var o := AppendStep(env.codec, store, p, phase, event, choice);
            && (o.store.tx.NoTx? ==> o.store.jsonl == o.store.table)
            && (o.store.tx.OpenTx? && o.store.tx.owner != p ==>
                  o.store.tx == store.tx && o.store.jsonl == store.jsonl && o.store.table == store.table)
            && (o.store.tx.OpenTx? && o.Continue? && WritingPhase(o.phase, o.store.tx.record) && o.store.tx.owner == p ==>
                  o.store.jsonl == if o.phase.WriteLine? then o.store.table else o.store.table + [o.store.tx.record])
  {
  }

  lemma OverlapAppendStep(env: Env, w: World, p: Pid, choice: Choice)
    requires OverlapInv(env, w) && ProcOf(w, p).Busy? && ProcOf(w, p).pc.Append? && Clean(w, Advance(p, choice))
    ensures OverlapInv(env, Step(env, w, Advance(p, choice)))
  {
    var after := Step(env, w, Advance(p, choice));
    var proc := ProcOf(w, p);
    var site, phase, job := proc.pc.site, proc.pc.phase, proc.job;
    LedgerStep(env, w, Advance(p, choice));
    AdvanceShape(env, w, p, choice);
    AppendMoveShape(env, w.store, p, site, phase, job, choice);
    assert ProcOk(env, w.store, p, proc);
    CleanOutcome(env, w.store, p, phase, EventAt(env, site, job), choice);
  }

  lemma OverlapStep(env: Env, w: World, a: Action)
    requires OverlapInv(env, w) && Clean(w, a)
    ensures OverlapInv(env, Step(env, w, a))
  {
    LedgerStep(env, w, a);
    if a.Advance? && ProcOf(w, a.p).Busy? {
      if ProcOf(w, a.p).pc.Append? {
        OverlapAppendStep(env, w, a.p, a.choice);
      } else {
        AdvanceShape(env, w, a.p, a.choice);
        ControlMoveKeepsLedger(env, w.store, ProcOf(w, a.p).pc, ProcOf(w, a.p).job, a.choice);
      }
    }
  }

  /**
   * Even when the lock file is removed under a live writer, at any moment and any number of times, runs without
   * crashes, failing commits and torn lines keep the two stores equal whenever no transaction is open, and the
   * table a gap-free chain always: the primary key admits an insert only into the table it was computed from.
   */
  lemma {:induction false} OverlapIsSafe(env: Env, actions: seq<Action>)
    requires CleanRun(env, actions)
    ensures OverlapInv(env, Run(env, actions))
    ensures var store := Run(env, actions).store;
            && Chain(env.codec, store.table)
            && store.table <= store.jsonl && |store.jsonl| <= |store.table| + 1
            && (store.tx.NoTx? ==> store.jsonl == store.table)
  {
    if actions != [] {
      var n := |actions| - 1;
      forall i | 0 <= i < n
        ensures Clean(Run(env, actions[..n][..i]), actions[..n][i])
      {
        assert actions[..n][..i] == actions[..i];
        assert Clean(Run(env, actions[..i]), actions[i]);
      }
      OverlapIsSafe(env, actions[..n]);
      assert Clean(Run(env, actions[..n]), actions[n]);
      OverlapStep(env, Run(env, actions[..n]), actions[n]);
    }
  }
}
