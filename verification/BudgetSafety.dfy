/**
 * The write budget and the processes that share a ledger: one dispatcher keeps it on every run, two do not,
 * because a decision is made on one state of the table and recorded on a later one.
 */
module BudgetSafety {
  import opened Wrappers
  import opened Bytes
  import opened Protocol
  import opened Approvals
  import opened Audit
  import opened Core
  import opened Pipeline
  import opened LedgerSafety
  import opened Reachability
  import Dispatch

  /** These events are what some run of one broker records. */
  ghost predicate BrokerRun(policy: Policy, events: seq<AuditEvent>) {
    exists steps :: (forall step | step in steps :: LawfulStep(step)) && RunBroker(policy, steps) == events
  }

  lemma BrokerRunGrows(policy: Policy, events: seq<AuditEvent>, step: BrokerStep)
    requires BrokerRun(policy, events) && LawfulStep(step)
    ensures BrokerRun(policy, StepBroker(policy, events, step))
  {
    var steps :| (forall s | s in steps :: LawfulStep(s)) && RunBroker(policy, steps) == events;
    assert (steps + [step])[..|steps|] == steps;
    assert RunBroker(policy, steps + [step]) == StepBroker(policy, events, step);
  }

  lemma BrokerRunInBudget(policy: Policy, events: seq<AuditEvent>, actorId: string, deviceId: string, from: int)
    requires BrokerRun(policy, events)
    ensures WritesInMinute(events, actorId, deviceId, from) <= policy.maxFilesPerMinute
    ensures policy.maxBytesPerMinute < U64_MAX || policy.maxFilesPerMinute <= 1 ==>
            BytesInMinute(events, actorId, deviceId, from) <= policy.maxBytesPerMinute
  {
    var steps :| (forall step | step in steps :: LawfulStep(step)) && RunBroker(policy, steps) == events;
    MinuteBudgetHolds(policy, steps, actorId, deviceId, from);
  }

  /** The process is about to record a decision, or is recording it. */
  predicate Deciding(proc: Proc) {
    proc.Busy? && proc.pc.Append? && proc.pc.site.DecisionSite? && !proc.pc.phase.Release?
  }

  /** The rate limit, asked again now, decides as it did. */
  predicate StillDecides(env: Env, store: Store, job: Job) {
    RateLimited(env.policy, EventsOf(store.table), job.request, job.now) == Ok(job.decision)
  }

  predicate CommitsDecision(w: World, a: Action) {
    a.Advance? && !a.choice.Fail? && Deciding(ProcOf(w, a.p)) && ProcOf(w, a.p).pc.phase.Commit?
  }

  /** A decision is committed only onto a table that it would still be made on. */
  predicate FreshCommit(env: Env, w: World, a: Action) {
    CommitsDecision(w, a) ==> StillDecides(env, w.store, ProcOf(w, a.p).job)
  }

  ghost predicate FreshRun(env: Env, actions: seq<Action>) {
    forall i | 0 <= i < |actions| :: FreshCommit(env, Run(env, actions[..i]), actions[i])
  }

  lemma OnlyDecisionsSayAuto(site: Site, job: Job)
    requires !site.DecisionSite?
    ensures OutcomeAt(site, job) != "auto"
  {
    assert |OutcomeAt(site, job)| > 4;
  }

  /** What one append step adds to the events. */
  lemma AppendAdds(env: Env, store: Store, p: Pid, site: Site, phase: Phase, job: Job, choice: Choice)
    requires Chain(env.codec, store.table) && PhaseOk(env.codec, store, p, phase, EventAt(env, site, job))
    ensures var o := AppendStep(env.codec, store, p, phase, EventAt(env, site, job), choice);
            if phase.Commit? && !choice.Fail? then EventsOf(o.store.table) == EventsOf(store.table) + [EventAt(env, site, job)]
            else o.store.table == store.table
  {
    AppendStepKeeps(env.codec, store, p, phase, EventAt(env, site, job), choice);
  }

  lemma TableOfStep(env: Env, w: World, a: Action)
    requires LedgerInv(env, w)
    ensures var events, after := EventsOf(w.store.table), EventsOf(Step(env, w, a).store.table);
            || after == events
            || (&& a.Advance? && !a.choice.Fail? && ProcOf(w, a.p).Busy? && ProcOf(w, a.p).pc.Append?
                && ProcOf(w, a.p).pc.phase.Commit?
                && after == events + [EventAt(env, ProcOf(w, a.p).pc.site, ProcOf(w, a.p).job)])
  {
    if a.Advance? && ProcOf(w, a.p).Busy? {
      var proc := ProcOf(w, a.p);
      AdvanceShape(env, w, a.p, a.choice);
      if proc.pc.Append? {
        assert ProcOk(env, w.store, a.p, proc);
        AppendMoveShape(env, w.store, a.p, proc.pc.site, proc.pc.phase, proc.job, a.choice);
        AppendAdds(env, w.store, a.p, proc.pc.site, proc.pc.phase, proc.job, a.choice);
      } else {
        ControlMoveKeepsLedger(env, w.store, proc.pc, proc.job, a.choice);
      }
    }
  }

  lemma NoteGrows(env: Env, events: seq<AuditEvent>, site: Site, job: Job)
    requires BrokerRun(env.policy, events)
    requires site.DecisionSite? ==> RateLimited(env.policy, events, job.request, job.now) == Ok(job.decision)
    ensures BrokerRun(env.policy, events + [EventAt(env, site, job)])
  {
    if site.DecisionSite? {
      BrokerRunGrows(env.policy, events, Authorize(job.request, job.now, true));
    } else {
      OnlyDecisionsSayAuto(site, job);
      BrokerRunGrows(env.policy, events, Note(EventAt(env, site, job)));
    }
  }

  lemma FreshStep(env: Env, w: World, a: Action)
    requires LedgerInv(env, w) && FreshCommit(env, w, a) && BrokerRun(env.policy, EventsOf(w.store.table))
    ensures BrokerRun(env.policy, EventsOf(Step(env, w, a).store.table))
  {
    TableOfStep(env, w, a);
    if EventsOf(Step(env, w, a).store.table) != EventsOf(w.store.table) {
      NoteGrows(env, EventsOf(w.store.table), ProcOf(w, a.p).pc.site, ProcOf(w, a.p).job);
    }
  }

  lemma FreshPrefix(env: Env, actions: seq<Action>)
    requires FreshRun(env, actions) && actions != []
    ensures FreshRun(env, actions[..|actions| - 1])
    ensures FreshCommit(env, Run(env, actions[..|actions| - 1]), actions[|actions| - 1])
  {
    var n := |actions| - 1;
    forall i | 0 <= i < n
      ensures FreshCommit(env, Run(env, actions[..n][..i]), actions[..n][i])
    {
      assert actions[..n][..i] == actions[..i];
      assert FreshCommit(env, Run(env, actions[..i]), actions[i]);
    }
  }

  lemma FreshSnoc(env: Env, actions: seq<Action>)
    requires actions != [] && FreshRun(env, actions[..|actions| - 1])
    requires FreshCommit(env, Run(env, actions[..|actions| - 1]), actions[|actions| - 1])
    ensures FreshRun(env, actions)
  {
    var n := |actions| - 1;
    forall i | 0 <= i < |actions|
      ensures FreshCommit(env, Run(env, actions[..i]), actions[i])
    {
      if i < n {
        assert actions[..n][..i] == actions[..i];
        assert FreshCommit(env, Run(env, actions[..n][..i]), actions[..n][i]);
      }
    }
  }

  /** However many processes, as long as no decision goes stale the table is what one broker would have recorded. */
  lemma {:induction false} FreshRunIsBrokerRun(env: Env, actions: seq<Action>)
    requires FreshRun(env, actions)
    ensures BrokerRun(env.policy, EventsOf(Run(env, actions).store.table))
  {
    if actions == [] {
      assert RunBroker(env.policy, []) == EventsOf([]);
    } else {
      var n := |actions| - 1;
      FreshPrefix(env, actions);
      FreshRunIsBrokerRun(env, actions[..n]);
      LedgerAlways(env, actions[..n]);
      FreshStep(env, Run(env, actions[..n]), actions[n]);
    }
  }

  // ------------------------------------------------------------------------ one process

  ghost predicate Solo(actions: seq<Action>, p: Pid) {
    forall a | a in actions :: By(a, p)
  }

  ghost predicate SoloInv(env: Env, w: World, p: Pid) {
    && (forall q | q != p :: ProcOf(w, q).Closed?)
    && (Deciding(ProcOf(w, p)) ==> StillDecides(env, w.store, ProcOf(w, p).job))
  }

  lemma ControlDecidesFresh(env: Env, store: Store, pc: Pc, job: Job, choice: Choice)
    requires !pc.Append?
    ensures var m := ControlMove(env, store, pc, job, choice);
            Deciding(m.next) ==> StillDecides(env, m.store, m.next.job)
  {}

  lemma AppendKeepsFresh(env: Env, store: Store, p: Pid, site: Site, phase: Phase, job: Job, choice: Choice)
    requires Chain(env.codec, store.table) && PhaseOk(env.codec, store, p, phase, EventAt(env, site, job))
    requires site.DecisionSite? && !phase.Release? ==> StillDecides(env, store, job)
    ensures var m := AppendMove(env, store, p, site, phase, job, choice);
            Deciding(m.next) ==> StillDecides(env, m.store, m.next.job)
  {
    AppendAdds(env, store, p, site, phase, job, choice);
    NextDecides(env, store, p, site, phase, job, choice);
  }

  lemma NextDecides(env: Env, store: Store, p: Pid, site: Site, phase: Phase, job: Job, choice: Choice)
    ensures var m := AppendMove(env, store, p, site, phase, job, choice);
            && m.store == AppendStep(env.codec, store, p, phase, EventAt(env, site, job), choice).store
            && (Deciding(m.next) ==> site.DecisionSite? && !phase.Release? && !phase.Commit? && m.next.job == job)
  {}

  lemma OthersStay(env: Env, w: World, p: Pid, q: Pid, a: Action)
    requires By(a, p) && q != p
    ensures ProcOf(Step(env, w, a), q) == ProcOf(w, q)
  {
    if a.Advance? && ProcOf(w, p).Busy? {
      AdvanceShape(env, w, p, a.choice);
    }
  }

  lemma SoloStep(env: Env, w: World, p: Pid, a: Action)
    requires LedgerInv(env, w) && SoloInv(env, w, p) && By(a, p)
    ensures SoloInv(env, Step(env, w, a), p) && FreshCommit(env, w, a)
  {
    forall q | q != p
      ensures ProcOf(Step(env, w, a), q).Closed?
    {
      OthersStay(env, w, p, q, a);
    }
    if a.Advance? && ProcOf(w, p).Busy? {
      var proc := ProcOf(w, p);
      AdvanceShape(env, w, p, a.choice);
      if proc.pc.Append? {
        assert ProcOk(env, w.store, p, proc);
        AppendKeepsFresh(env, w.store, p, proc.pc.site, proc.pc.phase, proc.job, a.choice);
      } else {
        ControlDecidesFresh(env, w.store, proc.pc, proc.job, a.choice);
      }
    }
  }

  lemma {:induction false} SoloIsFresh(env: Env, actions: seq<Action>, p: Pid)
    requires Solo(actions, p)
    ensures SoloInv(env, Run(env, actions), p) && FreshRun(env, actions)
  {
    if actions != [] {
      var n := |actions| - 1;
      SoloIsFresh(env, actions[..n], p);
      LedgerAlways(env, actions[..n]);
      SoloStep(env, Run(env, actions[..n]), p, actions[n]);
      FreshSnoc(env, actions);
    }
  }

  /**
   * What one dispatcher has a ledger record, through crashes, failing writes and lock files removed, is a run of
   * one broker: no closed minute of it holds more automatic writes, nor more bytes, than the policy allows.
   */
  lemma OneDispatcherKeepsBudget(env: Env, actions: seq<Action>, p: Pid, actorId: string, deviceId: string, from: int)
    requires Solo(actions, p)
    ensures var events, policy := EventsOf(Run(env, actions).store.table), env.policy;
            && BrokerRun(policy, events)
            && WritesInMinute(events, actorId, deviceId, from) <= policy.maxFilesPerMinute
            && (policy.maxBytesPerMinute < U64_MAX || policy.maxFilesPerMinute <= 1 ==>
                  BytesInMinute(events, actorId, deviceId, from) <= policy.maxBytesPerMinute)
  {
    SoloIsFresh(env, actions, p);
    FreshRunIsBrokerRun(env, actions);
    BrokerRunInBudget(env.policy, EventsOf(Run(env, actions).store.table), actorId, deviceId, from);
  }

  /** And so it is for what a call of that dispatcher leaves behind. */
  lemma ReachedKeepsBudget(env: Env, actions: seq<Action>, p: Pid, v: World, actorId: string, deviceId: string, from: int)
    requires Solo(actions, p) && Reaches(env, p, Run(env, actions), v)
    ensures WritesInMinute(EventsOf(v.store.table), actorId, deviceId, from) <= env.policy.maxFilesPerMinute
  {
    var more := ReachedByRun(env, p, actions, v);
    OneDispatcherKeepsBudget(env, actions + more, p, actorId, deviceId, from);
  }

  // ----------------------------------------------------------------------- two processes

  const SAMPLE_PREIMAGE: seq<byte> := Preimage(1, ZERO_HASH, [])
  const SAMPLE_CODEC := Codec((b: seq<byte>) => if b == SAMPLE_PREIMAGE then ZERO_HASH else BigEndian(1, 32),
                              (e: AuditEvent) => [], (b: seq<byte>) => None)
  const SAMPLE_ENV := Env(SAMPLE_CODEC, SAMPLE_CRYPTO, SAMPLE_POLICY, "d")

  /** A process has decided that the write may go ahead and is about to record that. */
  function SampleJob(): Job {
    Job(Direct, SAMPLE_REQUEST, SAMPLE_POLICY.evaluate(SAMPLE_REQUEST), 0, None)
  }

  function Decisive(): Proc {
    Busy(Append(DecisionSite, Acquire), SampleJob())
  }

  lemma OpensIdle(w: World, p: Pid)
    requires w.store == INITIAL_STORE && ProcOf(w, p).Closed?
    ensures Step(SAMPLE_ENV, w, Open(p)) == World(INITIAL_STORE, w.procs[p := Idle], w.log)
  {
    assert Migrated([], map[]) == map[];
  }

  lemma TakesUp(w: World, p: Pid)
    requires w.store == INITIAL_STORE && ProcOf(w, p).Idle?
    ensures Step(SAMPLE_ENV, w, Submit(p, Direct, SAMPLE_REQUEST, 0))
         == World(INITIAL_STORE, w.procs[p := Busy(Evaluate, SampleJob())], w.log)
  {}

  lemma FirstDecides()
    ensures RateLimited(SAMPLE_POLICY, EventsOf([]), SAMPLE_REQUEST, 0) == Ok(SAMPLE_POLICY.evaluate(SAMPLE_REQUEST))
  {
    assert EventsOf([]) == [];
    assert CountSince([], "a", "d", 0) == 0 && BytesSince([], "a", "d", 0) == 0;
  }

  lemma Evaluates(w: World, p: Pid)
    requires w.store == INITIAL_STORE && ProcOf(w, p) == Busy(Evaluate, SampleJob())
    ensures Step(SAMPLE_ENV, w, Advance(p, Proceed)) == World(INITIAL_STORE, w.procs[p := Decisive()], w.log)
  {
    FirstDecides();
    assert w.log + [] == w.log;
  }

  /** Runs of these processes lead there. */
  ghost predicate RunOf(env: Env, pids: set<Pid>, v: World) {
    exists actions :: AllIn(actions, pids) && Run(env, actions) == v
  }

  ghost predicate AllIn(actions: seq<Action>, pids: set<Pid>) {
    forall a | a in actions :: a.RemoveLock? || a.p in pids
  }

  lemma RunOfMoves(env: Env, pids: set<Pid>, p: Pid, v: World, more: seq<Action>, w: World)
    requires RunOf(env, pids, v) && p in pids && Moves(env, p, v, more, w)
    ensures RunOf(env, pids, w)
  {
    var actions :| AllIn(actions, pids) && Run(env, actions) == v;
    RunsAgree(env, actions);
    RunsAgree(env, actions + more);
    RunFromConcat(env, INITIAL_WORLD, actions, more);
    assert AllIn(actions + more, pids);
  }

  lemma RunOfStep(env: Env, pids: set<Pid>, p: Pid, v: World, a: Action)
    requires RunOf(env, pids, v) && p in pids && By(a, p)
    ensures RunOf(env, pids, Step(env, v, a))
  {
    MovesOnce(env, p, v, a);
    RunOfMoves(env, pids, p, v, [a], Step(env, v, a));
  }

  /** Up to its decision a process leaves the ledger as it found it. */
  lemma ComesToDecide(pids: set<Pid>, w: World, p: Pid) returns (v: World)
    requires RunOf(SAMPLE_ENV, pids, w) && p in pids
    requires w.store == INITIAL_STORE && ProcOf(w, p).Closed?
    ensures RunOf(SAMPLE_ENV, pids, v)
    ensures v == World(INITIAL_STORE, w.procs[p := Decisive()], w.log)
  {
    OpensIdle(w, p);
    RunOfStep(SAMPLE_ENV, pids, p, w, Open(p));
    v := World(INITIAL_STORE, w.procs[p := Idle], w.log);
    TakesUp(v, p);
    RunOfStep(SAMPLE_ENV, pids, p, v, Submit(p, Direct, SAMPLE_REQUEST, 0));
    v := World(INITIAL_STORE, v.procs[p := Busy(Evaluate, SampleJob())], w.log);
    Evaluates(v, p);
    RunOfStep(SAMPLE_ENV, pids, p, v, Advance(p, Proceed));
    v := World(INITIAL_STORE, v.procs[p := Decisive()], w.log);
    assert v.procs == w.procs[p := Decisive()];
  }

  /** And then it records it, whatever has been recorded meanwhile. */
  lemma RecordsDecision(pids: set<Pid>, w: World, p: Pid) returns (v: World)
    requires RunOf(SAMPLE_ENV, pids, w) && p in pids && ProcOf(w, p) == Decisive()
    requires w.store.tx.NoTx? && w.store.jsonl == w.store.table
    requires !Taken(w.store.table, NextRecord(SAMPLE_CODEC, LoadJsonlLast(w.store.table), SampleEvent()))
    ensures RunOf(SAMPLE_ENV, pids, v)
    ensures v.store.table == w.store.table + [NextRecord(SAMPLE_CODEC, LoadJsonlLast(w.store.table), SampleEvent())]
    ensures v.store.tx.NoTx? && v.store.jsonl == v.store.table
    ensures forall q | q != p :: ProcOf(v, q) == ProcOf(w, q)
  {
    v := Dispatch.Recorded(SAMPLE_ENV, w, p, DecisionSite, SampleJob(), NoFault);
    Dispatch.RecordedReaches(SAMPLE_ENV, w, p, DecisionSite, SampleJob(), NoFault);
    var more :| Moves(SAMPLE_ENV, p, w, more, v);
    RunOfMoves(SAMPLE_ENV, pids, p, w, more, v);
    assert SampleEvent() == EventAt(SAMPLE_ENV, DecisionSite, SampleJob());
  }

  function SampleEvent(): AuditEvent {
    DecisionEvent(SAMPLE_POLICY, SAMPLE_REQUEST, SAMPLE_POLICY.evaluate(SAMPLE_REQUEST), 0)
  }

  lemma HashesDiffer()
    ensures SAMPLE_CODEC.HashRecord(1, ZERO_HASH, []) == ZERO_HASH
    ensures SAMPLE_CODEC.HashRecord(2, ZERO_HASH, []) != ZERO_HASH
  {
    if Preimage(2, ZERO_HASH, []) == SAMPLE_PREIMAGE {
      PreimageInjective(2, ZERO_HASH, [], 1, ZERO_HASH, []);
    }
    OneIsNotZero();
  }

  lemma OneIsNotZero()
    ensures BigEndian(1, 32) != ZERO_HASH
  {
    assert BigEndian(1, 32)[31] == 1 && BigEndian(0, 32)[31] == 0;
  }

  lemma TwoWritesCounted(first: AuditRecord, second: AuditRecord)
    requires first.event == second.event == SampleEvent()
    ensures WritesInMinute(EventsOf([first, second]), "a", "d", 0) == 2
  {
    var e := SampleEvent();
    assert InMinute(e, "a", "d", 0);
    assert EventsOf([first, second]) == [e, e] && [e, e][..1] == [e] && [e][..0] == [];
    assert WritesInMinute([], "a", "d", 0) == 0;
    assert WritesInMinute([e], "a", "d", 0) == 1;
  }

  function FirstRecord(): AuditRecord {
    NextRecord(SAMPLE_CODEC, LoadJsonlLast([]), SampleEvent())
  }

  lemma FirstIsFree()
    ensures !Taken([], FirstRecord())
  {}

  lemma FreeBeside(first: AuditRecord, second: AuditRecord)
    requires first.sequence != second.sequence && first.recordHash != second.recordHash
    ensures !Taken([first], second)
  {}

  lemma RecordAfter(head: Head, event: AuditEvent)
    ensures var record := NextRecord(SAMPLE_CODEC, head, event);
            && record.sequence == HeadSequence(head) + 1
            && record.recordHash == SAMPLE_CODEC.HashRecord(record.sequence, HeadHash(head), [])
  {}

  lemma HeadOfOne(record: AuditRecord)
    ensures LoadJsonlLast([record]) == Some((record.sequence, record.recordHash))
  {}

  lemma FirstRecordIs()
    ensures FirstRecord().sequence == 1 && FirstRecord().recordHash == ZERO_HASH
  {
    RecordAfter(None, SampleEvent());
    HashesDiffer();
  }

  /** Whatever the event, the record after one with sequence 1 and hash zero collides with neither. */
  lemma NextIsFree(first: AuditRecord, event: AuditEvent)
    requires first.sequence == 1 && first.recordHash == ZERO_HASH
    ensures !Taken([first], NextRecord(SAMPLE_CODEC, LoadJsonlLast([first]), event))
  {
    HeadOfOne(first);
    RecordAfter(Some((1, ZERO_HASH)), event);
    HashesDiffer();
    FreeBeside(first, NextRecord(SAMPLE_CODEC, Some((1, ZERO_HASH)), event));
  }

  lemma SecondIsFree()
    ensures !Taken([FirstRecord()], NextRecord(SAMPLE_CODEC, LoadJsonlLast([FirstRecord()]), SampleEvent()))
  {
    FirstRecordIs();
    NextIsFree(FirstRecord(), SampleEvent());
  }

  lemma BothDecide(pids: set<Pid>, p: Pid, q: Pid) returns (v: World)
    requires p in pids && q in pids && p != q
    ensures RunOf(SAMPLE_ENV, pids, v)
    ensures v.store == INITIAL_STORE && ProcOf(v, p) == Decisive() && ProcOf(v, q) == Decisive()
  {
    assert AllIn([], pids) && Run(SAMPLE_ENV, []) == INITIAL_WORLD;
    v := ComesToDecide(pids, INITIAL_WORLD, p);
    v := ComesToDecide(pids, v, q);
  }

  /** Two dispatchers on one ledger, each of which decides before either has recorded its decision. */
  lemma TwoOverspend(pids: set<Pid>, p: Pid, q: Pid) returns (v: World)
    requires p in pids && q in pids && p != q
    ensures RunOf(SAMPLE_ENV, pids, v)
    ensures WritesInMinute(EventsOf(v.store.table), "a", "d", 0) == 2 && SAMPLE_POLICY.maxFilesPerMinute == 1
  {
    v := BothDecide(pids, p, q);
    FirstIsFree();
    v := RecordsDecision(pids, v, p);
    var first := FirstRecord();
    assert v.store.table == [] + [first] == [first];
    SecondIsFree();
    v := RecordsDecision(pids, v, q);
    var second := NextRecord(SAMPLE_CODEC, LoadJsonlLast([first]), SampleEvent());
    assert v.store.table == [first] + [second] == [first, second];
    TwoWritesCounted(first, second);
  }

  /** Whatever dispatchers with these process ids do, the automatic writes stay within what their policy allows. */
  ghost predicate KeepBudget(pids: set<Pid>) {
    forall env: Env, v: World, actorId: string, deviceId: string, from: int | RunOf(env, pids, v) ::
      WritesInMinute(EventsOf(v.store.table), actorId, deviceId, from) <= env.policy.maxFilesPerMinute
  }

  /** How many dispatchers may share a ledger if the write budget is to hold on every run: one. */
  lemma BudgetNeedsOneDispatcher(pids: set<Pid>)
    ensures KeepBudget(pids) <==> |pids| <= 1
  {
    if |pids| <= 1 {
      forall env: Env, v: World, actorId: string, deviceId: string, from: int | RunOf(env, pids, v)
        ensures WritesInMinute(EventsOf(v.store.table), actorId, deviceId, from) <= env.policy.maxFilesPerMinute
      {
        var actions :| AllIn(actions, pids) && Run(env, actions) == v;
        var p := OnlyOne(pids);
        OneDispatcherKeepsBudget(env, actions, p, actorId, deviceId, from);
      }
    } else {
      var p, q := TwoOf(pids);
      var v := TwoOverspend(pids, p, q);
      assert WritesInMinute(EventsOf(v.store.table), "a", "d", 0) > SAMPLE_ENV.policy.maxFilesPerMinute;
    }
  }

  lemma OnlyOne(pids: set<Pid>) returns (p: Pid)
    requires |pids| <= 1
    ensures pids <= {p}
  {
    p := 0;
    if pids != {} {
      p :| p in pids;
      assert |pids - {p}| == 0;
    }
  }

  lemma TwoOf(pids: set<Pid>) returns (p: Pid, q: Pid)
    requires |pids| > 1
    ensures p in pids && q in pids && p != q
  {
    p :| p in pids;
    assert |pids - {p}| > 0;
    q :| q in pids - {p};
  }
}
