/**
 * A state file shared by several store instances: what one call does to it, and the protocol by which
 * instances that each keep a possibly stale copy refresh it under a lock file, change it and write it back.
 */
module Stores {
  import opened Wrappers
  import opened Ids

  // ----------------------------------------------------------------- one call alone

  /** A kind of store: its calls, and what each does to a state nobody else is using. */
  datatype Spec<!S, !Op, R> = Spec(
    early: Op -> Option<Result<R, AuthError>>,
    fault: S -> Option<AuthError>,
    apply: (S, Op) -> Result<(S, R), AuthError>,
    initial: string -> S
  )

  /** What the system may do to a call: refuse the lock file, the read or the write. */
  datatype Faults = Faults(lock: Option<AuthError>, read: Option<AuthError>, write: Option<AuthError>)

  const NO_FAULTS := Faults(None, None, None)

  class StateFile<S> {
    var contents: Option<S>

    constructor (contents: Option<S>)
      ensures this.contents == contents
    {
      this.contents := contents;
    }
  }

  /** The contents after one change of a file holding `s`, and what the caller gets. */
  function UnderLock<S, T>(faults: Faults, fault: Option<AuthError>, s: S, mutate: S -> Result<(S, T), AuthError>)
    : (S, Result<T, AuthError>)
  {
    if faults.lock.Some? then (s, Err(faults.lock.value))
    else if faults.read.Some? then (s, Err(faults.read.value))
    else if fault.Some? then (s, Err(fault.value))
    else
      match mutate(s)
      case Err(e) => (s, Err(e))
      case Ok(done) => if faults.write.Some? then (s, Err(faults.write.value)) else (done.0, Ok(done.1))
  }

  /** One call on a store whose file holds `s`. */
  function Served<S, Op, R>(spec: Spec<S, Op, R>, faults: Faults, s: S, op: Op): (S, Result<R, AuthError>) {
    match spec.early(op)
    case Some(r) => (s, r)
    case None => UnderLock(faults, spec.fault(s), s, (t: S) => spec.apply(t, op))
  }

  /** One call on the atomic store the instances together are meant to be. */
  function Atomic<S, Op, R>(spec: Spec<S, Op, R>, s: S, op: Op): (S, Result<R, AuthError>) {
    Served(spec, NO_FAULTS, s, op)
  }

  function After<S, Op, R>(spec: Spec<S, Op, R>, s: S, ops: seq<Op>): S {
    if ops == [] then s else Atomic(spec, After(spec, s, ops[..|ops| - 1]), ops[|ops| - 1]).0
  }

  lemma AfterStep<S, Op, R>(spec: Spec<S, Op, R>, s: S, ops: seq<Op>, op: Op)
    ensures After(spec, s, ops + [op]) == Atomic(spec, After(spec, s, ops), op).0
  {
    assert (ops + [op])[..|ops|] == ops;
  }

  lemma {:induction false} AfterConcat<S, Op, R>(spec: Spec<S, Op, R>, s: S, first: seq<Op>, second: seq<Op>)
    ensures After(spec, s, first + second) == After(spec, After(spec, s, first), second)
  {
    if second == [] {
      assert first + second == first;
    } else {
      var n := |second| - 1;
      AfterConcat(spec, s, first, second[..n]);
      assert first + second == (first + second[..n]) + [second[n]];
      AfterStep(spec, s, first + second[..n], second[n]);
    }
  }

  // ------------------------------------------------------------- instances together

  datatype Phase<Op, R> =
    | Opening(deviceId: string)
    | Idle
    | Waiting(op: Op, began: nat)
    | Holding(op: Op, began: nat)
    | Refreshed(op: Op, began: nat)
    | Committed(op: Op, began: nat, at: nat, result: Result<R, AuthError>)
    | Dead

  /** A running instance; `cache` is its copy of the file, if it has one yet. */
  datatype Instance<S, Op, R> = Instance(cache: Option<S>, phase: Phase<Op, R>)

  /** A call in the order the store took them, with its outcome. */
  datatype Entry<Op, R> = Entry(op: Op, result: Result<R, AuthError>)

  /**
   * An outcome handed to a caller. The call lasted from when the log was `began` long to when it was `ended`
   * long, and is entry `at` of the log; the system's own failures have no entry.
   */
  datatype Reply<Op, R> = Reply(op: Op, began: nat, ended: nat, at: Option<nat>, result: Result<R, AuthError>)

  datatype World<S, Op, R> = World(
    file: Option<S>,
    lock: Option<nat>,
    instances: map<nat, Instance<S, Op, R>>,
    log: seq<Entry<Op, R>>,
    replies: seq<Reply<Op, R>>
  )

  datatype Action<Op> =
    | Open(id: nat, deviceId: string)
    | Create(id: nat)
    | Start(id: nat, op: Op)
    | Acquire(id: nat)
    | Refresh(id: nat)
    | Commit(id: nat)
    | Respond(id: nat)
    | Fail(id: nat, error: AuthError)
    | Crash(id: nat)

  /** Opening reads the file, or finds none and is about to write a new one; neither takes the lock. */
  function OpenStep<S, Op, R>(spec: Spec<S, Op, R>, w: World<S, Op, R>, id: nat, deviceId: string): World<S, Op, R> {
    if id in w.instances then w
    else if w.file.None? then w.(instances := w.instances[id := Instance(None, Opening(deviceId))])
    else if spec.fault(w.file.value).Some? then w
    else w.(instances := w.instances[id := Instance(w.file, Idle)])
  }

  function StartStep<S, Op, R>(spec: Spec<S, Op, R>, w: World<S, Op, R>, id: nat, op: Op): World<S, Op, R>
    requires id in w.instances && w.instances[id].phase.Idle?
  {
    match spec.early(op)
    case None => w.(instances := w.instances[id := w.instances[id].(phase := Waiting(op, |w.log|))])
    case Some(r) =>
      w.(log := w.log + [Entry(op, r)],
         replies := w.replies + [Reply(op, |w.log|, |w.log| + 1, Some(|w.log|), r)])
  }

  /** Reading the file back: a state that does not pass validation ends the call and leaves the copy alone. */
  function RefreshStep<S, Op, R>(spec: Spec<S, Op, R>, w: World<S, Op, R>, id: nat): World<S, Op, R>
    requires id in w.instances && w.instances[id].phase.Holding? && w.file.Some?
  {
    var me := w.instances[id];
    match spec.fault(w.file.value)
    case None => w.(instances := w.instances[id := Instance(w.file, Refreshed(me.phase.op, me.phase.began))])
    case Some(e) =>
      var done := Committed(me.phase.op, me.phase.began, |w.log|, Err(e));
      w.(instances := w.instances[id := me.(phase := done)], log := w.log + [Entry(me.phase.op, Err(e))])
  }

  /** The change, made on the copy, and its write over the whole file. */
  function CommitStep<S, Op, R>(spec: Spec<S, Op, R>, w: World<S, Op, R>, id: nat): World<S, Op, R>
    requires id in w.instances && w.instances[id].phase.Refreshed? && w.instances[id].cache.Some?
  {
    var me := w.instances[id];
    var outcome := spec.apply(me.cache.value, me.phase.op);
    var next := if outcome.Ok? then Some(outcome.value.0) else me.cache;
    var result := if outcome.Ok? then Ok(outcome.value.1) else Err(outcome.error);
    w.(file := if outcome.Ok? then next else w.file,
       instances := w.instances[id := Instance(next, Committed(me.phase.op, me.phase.began, |w.log|, result))],
       log := w.log + [Entry(me.phase.op, result)])
  }

  /** The lock file goes when the call returns. */
  function Released<S, Op, R>(w: World<S, Op, R>, id: nat, reply: Reply<Op, R>): World<S, Op, R>
    requires id in w.instances
  {
    w.(lock := if w.instances[id].phase.Waiting? then w.lock else None,
       instances := w.instances[id := w.instances[id].(phase := Idle)],
       replies := w.replies + [reply])
  }

  /** One step of one instance; a step that is not possible changes nothing. */
  function Step<S, Op, R>(spec: Spec<S, Op, R>, w: World<S, Op, R>, a: Action<Op>): World<S, Op, R> {
    if a.Open? then OpenStep(spec, w, a.id, a.deviceId)
    else if a.id !in w.instances then w
    else
      var me := w.instances[a.id];
      match a
      case Open(_, _) => w
      case Create(id) =>
        if !me.phase.Opening? then w
        else
          var made := Some(spec.initial(me.phase.deviceId));
          w.(file := made, instances := w.instances[id := Instance(made, Idle)])
      case Start(id, op) => if me.phase.Idle? then StartStep(spec, w, id, op) else w
      case Acquire(id) =>
        if !me.phase.Waiting? || w.lock.Some? then w
        else w.(lock := Some(id), instances := w.instances[id := me.(phase := Holding(me.phase.op, me.phase.began))])
      case Refresh(id) => if me.phase.Holding? && w.file.Some? then RefreshStep(spec, w, id) else w
      case Commit(id) => if me.phase.Refreshed? && me.cache.Some? then CommitStep(spec, w, id) else w
      case Respond(id) =>
        if !me.phase.Committed? then w
        else Released(w, id, Reply(me.phase.op, me.phase.began, |w.log|, Some(me.phase.at), me.phase.result))
      case Fail(id, e) =>
        if !(me.phase.Waiting? || me.phase.Holding? || me.phase.Refreshed?) then w
        else Released(w, id, Reply(me.phase.op, me.phase.began, |w.log|, None, Err(e)))
      case Crash(id) => w.(instances := w.instances[id := me.(phase := Dead)])
  }

  function Run<S, Op, R>(spec: Spec<S, Op, R>, w: World<S, Op, R>, actions: seq<Action<Op>>): World<S, Op, R>
    decreases |actions|
  {
    if actions == [] then w else Run(spec, Step(spec, w, actions[0]), actions[1..])
  }

  // --------------------------------------------------- the instances are one atomic store

  function Ops<Op, R>(log: seq<Entry<Op, R>>): (ops: seq<Op>)
    ensures |ops| == |log| && forall i | 0 <= i < |log| :: ops[i] == log[i].op
  {
    seq(|log|, i requires 0 <= i < |log| => log[i].op)
  }

  /** Every outcome in the log is what the atomic store gives, the calls before it in the log having been made. */
  ghost predicate Honest<S, Op, R>(spec: Spec<S, Op, R>, base: S, log: seq<Entry<Op, R>>) {
    forall i | 0 <= i < |log| :: log[i].result == Atomic(spec, After(spec, base, Ops(log[..i])), log[i].op).1
  }

  /** `at` is the place in the log of a call with this outcome that began when the log was `began` long. */
  ghost predicate Placed<Op, R>(log: seq<Entry<Op, R>>, op: Op, began: nat, at: nat, result: Result<R, AuthError>) {
    began <= at < |log| && log[at].op == op && log[at].result == result
  }

  ghost predicate RepliesPlaced<Op(!new), R(!new)>(log: seq<Entry<Op, R>>, replies: seq<Reply<Op, R>>) {
    && (forall r | r in replies ::
          && r.ended <= |log|
          && (r.at.Some? ==> r.at.value < r.ended && Placed(log, r.op, r.began, r.at.value, r.result))
          && (r.at.None? ==> r.result.Err?))
    && (forall i, j | 0 <= i < j < |replies| && replies[i].at.Some? :: replies[i].at != replies[j].at)
  }

  ghost predicate InstanceSound<S, Op, R>(spec: Spec<S, Op, R>, w: World<S, Op, R>, id: nat)
    requires id in w.instances
  {
    var me := w.instances[id];
    match me.phase
    case Opening(_) => false
    case Idle => true
    case Waiting(op, began) => began <= |w.log| && spec.early(op).None?
    case Holding(op, began) => w.lock == Some(id) && began <= |w.log| && spec.early(op).None?
    case Refreshed(op, began) =>
      && w.lock == Some(id) && began <= |w.log| && spec.early(op).None?
      && w.file.Some? && me.cache == w.file && spec.fault(w.file.value).None?
    case Committed(op, began, at, result) => w.lock == Some(id) && Placed(w.log, op, began, at, result)
    case Dead => true
  }

  /** The call that has its outcome but has not returned it is nobody else's entry. */
  ghost predicate Unanswered<S(!new), Op(!new), R(!new)>(w: World<S, Op, R>) {
    forall id, r | id in w.instances && w.instances[id].phase.Committed? && r in w.replies ::
      r.at != Some(w.instances[id].phase.at)
  }

  /**
   * The store is one atomic store: the file is what the logged calls make of `base`, each outcome is the one
   * that store gives, every caller was given the outcome of an entry of its own which was made during its
   * call, and what a copy holds matters only while it is fresh.
   */
  ghost predicate Linearized<S(!new), Op(!new), R(!new)>(spec: Spec<S, Op, R>, base: S, w: World<S, Op, R>) {
    && w.file == Some(After(spec, base, Ops(w.log)))
    && Honest(spec, base, w.log)
    && RepliesPlaced(w.log, w.replies)
    && Unanswered(w)
    && forall id | id in w.instances :: InstanceSound(spec, w, id)
  }

  /** A file in place, nobody creating it and nobody in the middle of a call; copies and the lock as they may be. */
  ghost predicate Settled<S(!new), Op(!new), R(!new)>(base: S, w: World<S, Op, R>) {
    && w.file == Some(base) && w.log == [] && w.replies == []
    && forall id | id in w.instances :: w.instances[id].phase.Idle? || w.instances[id].phase.Dead?
  }

  lemma LogGrows<S, Op, R>(spec: Spec<S, Op, R>, base: S, log: seq<Entry<Op, R>>, op: Op)
    requires Honest(spec, base, log)
    ensures var done := Atomic(spec, After(spec, base, Ops(log)), op);
            var grown := log + [Entry(op, done.1)];
            Honest(spec, base, grown) && After(spec, base, Ops(grown)) == done.0
  {
    var done := Atomic(spec, After(spec, base, Ops(log)), op);
    var grown := log + [Entry(op, done.1)];
    assert Ops(grown) == Ops(log) + [op];
    AfterStep(spec, base, Ops(log), op);
    forall i | 0 <= i < |grown|
      ensures grown[i].result == Atomic(spec, After(spec, base, Ops(grown[..i])), grown[i].op).1
    {
      assert grown[..i] == log[..i];
      if i == |log| {
        assert log[..i] == log;
      }
    }
  }

  lemma RepliesGrow<Op(!new), R(!new)>(log: seq<Entry<Op, R>>, replies: seq<Reply<Op, R>>, reply: Reply<Op, R>)
    requires RepliesPlaced(log, replies) && reply.ended <= |log|
    requires reply.at.Some? ==> reply.at.value < reply.ended
    requires reply.at.Some? ==> Placed(log, reply.op, reply.began, reply.at.value, reply.result)
    requires reply.at.None? ==> reply.result.Err?
    requires reply.at.Some? ==> forall r | r in replies :: r.at != reply.at
    ensures RepliesPlaced(log, replies + [reply])
  {
    var grown := replies + [reply];
    forall i, j | 0 <= i < j < |grown| && grown[i].at.Some?
      ensures grown[i].at != grown[j].at
    {
      assert grown[i] == replies[i] && replies[i] in replies;
      if j < |replies| {
        assert grown[j] == replies[j];
      }
    }
  }

  lemma LogGrowsUnderReplies<Op(!new), R(!new)>(log: seq<Entry<Op, R>>, replies: seq<Reply<Op, R>>, entry: Entry<Op, R>)
    requires RepliesPlaced(log, replies)
    ensures RepliesPlaced(log + [entry], replies)
    ensures forall r | r in replies :: r.at != Some(|log|)
  {}

  ghost predicate InstancesSound<S, Op, R>(spec: Spec<S, Op, R>, w: World<S, Op, R>) {
    forall id | id in w.instances :: InstanceSound(spec, w, id)
  }

  /** A step of one instance leaves the others sound: it changes the lock or the file only when they have no say. */
  lemma OthersSound<S, Op, R>(spec: Spec<S, Op, R>, w: World<S, Op, R>, n: World<S, Op, R>, id: nat)
    requires InstancesSound(spec, w) && w.log <= n.log
    requires id in n.instances && n.instances == w.instances[id := n.instances[id]] && InstanceSound(spec, n, id)
    requires n.lock == w.lock || w.lock.None? || w.lock == Some(id)
    requires n.file == w.file || w.lock == Some(id)
    ensures InstancesSound(spec, n)
  {
    forall other | other in n.instances && other != id
      ensures InstanceSound(spec, n, other)
    {
      assert InstanceSound(spec, w, other);
    }
  }

  /** A call refused before the lock is an entry that changes nothing. */
  lemma EarlyKeeps<S(!new), Op(!new), R(!new)>(
    spec: Spec<S, Op, R>, base: S, w: World<S, Op, R>, n: World<S, Op, R>, op: Op, r: Result<R, AuthError>
  )
    requires Linearized(spec, base, w) && spec.early(op) == Some(r)
    requires n.file == w.file && n.lock == w.lock && n.instances == w.instances && n.log == w.log + [Entry(op, r)]
    requires n.replies == w.replies + [Reply(op, |w.log|, |w.log| + 1, Some(|w.log|), r)]
    ensures Linearized(spec, base, n)
  {
    LogGrows(spec, base, w.log, op);
    LogGrowsUnderReplies(w.log, w.replies, Entry(op, r));
    assert n.log[|w.log|] == Entry(op, r);
    RepliesGrow(n.log, w.replies, Reply(op, |w.log|, |w.log| + 1, Some(|w.log|), r));
    forall id | id in w.instances
      ensures InstanceSound(spec, n, id)
      ensures w.instances[id].phase.Committed? ==> w.instances[id].phase.at < |w.log|
    {
      assert InstanceSound(spec, w, id);
    }
  }

  lemma RefreshKeeps<S(!new), Op(!new), R(!new)>(spec: Spec<S, Op, R>, base: S, w: World<S, Op, R>, id: nat)
    requires Linearized(spec, base, w) && id in w.instances && w.instances[id].phase.Holding?
    ensures Linearized(spec, base, RefreshStep(spec, w, id))
  {
    var me := w.instances[id];
    var n := RefreshStep(spec, w, id);
    assert InstancesSound(spec, w);
    assert InstanceSound(spec, w, id);
    if spec.fault(w.file.value).Some? {
      var entry := Entry(me.phase.op, Err(spec.fault(w.file.value).value));
      LogGrows(spec, base, w.log, me.phase.op);
      LogGrowsUnderReplies(w.log, w.replies, entry);
      assert n.log[|w.log|] == entry;
      UnansweredByGrowth(w, n, id);
    }
    OthersSound(spec, w, n, id);
  }

  lemma UnansweredByGrowth<S(!new), Op(!new), R(!new)>(w: World<S, Op, R>, n: World<S, Op, R>, id: nat)
    requires Unanswered(w) && n.replies == w.replies
    requires id in n.instances && n.instances == w.instances[id := n.instances[id]]
    requires n.instances[id].phase.Committed? ==>
      forall r | r in w.replies :: r.at != Some(n.instances[id].phase.at)
    ensures Unanswered(n)
  {}

  lemma CommitKeeps<S(!new), Op(!new), R(!new)>(spec: Spec<S, Op, R>, base: S, w: World<S, Op, R>, id: nat)
    requires Linearized(spec, base, w) && id in w.instances && w.instances[id].phase.Refreshed?
    requires w.instances[id].cache.Some?
    ensures Linearized(spec, base, CommitStep(spec, w, id))
  {
    var me := w.instances[id];
    var n := CommitStep(spec, w, id);
    assert InstancesSound(spec, w);
    assert InstanceSound(spec, w, id);
    var entry := Entry(me.phase.op, Atomic(spec, w.file.value, me.phase.op).1);
    LogGrows(spec, base, w.log, me.phase.op);
    LogGrowsUnderReplies(w.log, w.replies, entry);
    assert n.log == w.log + [entry] && n.log[|w.log|] == entry;
    UnansweredByGrowth(w, n, id);
    OthersSound(spec, w, n, id);
  }

  lemma ReleaseKeeps<S(!new), Op(!new), R(!new)>(
    spec: Spec<S, Op, R>, base: S, w: World<S, Op, R>, id: nat, reply: Reply<Op, R>
  )
    requires Linearized(spec, base, w) && id in w.instances
    requires var phase := w.instances[id].phase;
             || (phase.Committed? && reply == Reply(phase.op, phase.began, |w.log|, Some(phase.at), phase.result))
             || ((phase.Waiting? || phase.Holding? || phase.Refreshed?) && reply.result.Err?
                 && reply == Reply(phase.op, phase.began, |w.log|, None, reply.result))
    ensures Linearized(spec, base, Released(w, id, reply))
  {
    var n := Released(w, id, reply);
    assert InstancesSound(spec, w);
    assert InstanceSound(spec, w, id);
    RepliesGrow(w.log, w.replies, reply);
    assert Unanswered(n) by {
      forall other | other in w.instances && w.instances[other].phase.Committed?
        ensures w.lock == Some(other)
      {
        assert InstanceSound(spec, w, other);
      }
    }
    OthersSound(spec, w, n, id);
  }

  /** Steps that only move an instance on, or take the lock, or start or end an instance. */
  lemma QuietKeeps<S(!new), Op(!new), R(!new)>(spec: Spec<S, Op, R>, base: S, w: World<S, Op, R>, n: World<S, Op, R>, id: nat)
    requires Linearized(spec, base, w)
    requires n.file == w.file && n.log == w.log && n.replies == w.replies && (n.lock == w.lock || w.lock.None?)
    requires id in n.instances && n.instances == w.instances[id := n.instances[id]]
    requires InstanceSound(spec, n, id) && !n.instances[id].phase.Committed?
    ensures Linearized(spec, base, n)
  {
    assert InstancesSound(spec, w);
    UnansweredByGrowth(w, n, id);
    OthersSound(spec, w, n, id);
  }

  lemma StartKeeps<S(!new), Op(!new), R(!new)>(
    spec: Spec<S, Op, R>, base: S, w: World<S, Op, R>, id: nat, op: Op
  )
    requires Linearized(spec, base, w) && id in w.instances && w.instances[id].phase.Idle?
    ensures Linearized(spec, base, StartStep(spec, w, id, op))
  {
    var n := StartStep(spec, w, id, op);
    if spec.early(op).Some? {
      EarlyKeeps(spec, base, w, n, op, spec.early(op).value);
    } else {
      QuietKeeps(spec, base, w, n, id);
    }
  }

  lemma StepKeeps<S(!new), Op(!new), R(!new)>(spec: Spec<S, Op, R>, base: S, w: World<S, Op, R>, a: Action<Op>)
    requires Linearized(spec, base, w)
    ensures Linearized(spec, base, Step(spec, w, a))
  {
    var n := Step(spec, w, a);
    if n != w {
      if !a.Open? {
        assert InstanceSound(spec, w, a.id);
      }
      match a
      case Start(id, op) => StartKeeps(spec, base, w, id, op);
      case Refresh(id) => RefreshKeeps(spec, base, w, id);
      case Commit(id) => CommitKeeps(spec, base, w, id);
      case Respond(id) =>
        var phase := w.instances[id].phase;
        ReleaseKeeps(spec, base, w, id, Reply(phase.op, phase.began, |w.log|, Some(phase.at), phase.result));
      case Fail(id, e) =>
        var phase := w.instances[id].phase;
        ReleaseKeeps(spec, base, w, id, Reply(phase.op, phase.began, |w.log|, None, Err(e)));
      case _ => QuietKeeps(spec, base, w, n, a.id);
    }
  }

  lemma {:induction false} RunKeeps<S(!new), Op(!new), R(!new)>(
    spec: Spec<S, Op, R>, base: S, w: World<S, Op, R>, actions: seq<Action<Op>>
  )
    requires Linearized(spec, base, w)
    ensures Linearized(spec, base, Run(spec, w, actions))
    decreases |actions|
  {
    if actions == [] {
    } else {
      StepKeeps(spec, base, w, actions[0]);
      RunKeeps(spec, base, Step(spec, w, actions[0]), actions[1..]);
    }
  }

  /**
   * Any number of instances over one file, interleaved step by step, with crashes between any two steps,
   * failing reads and writes, lock time-outs and copies as stale as they like, are one atomic store.
   */
  lemma InstancesAreOneStore<S(!new), Op(!new), R(!new)>(
    spec: Spec<S, Op, R>, base: S, w: World<S, Op, R>, actions: seq<Action<Op>>
  )
    requires Settled(base, w)
    ensures Linearized(spec, base, Run(spec, w, actions))
  {
    RunKeeps(spec, base, w, actions);
  }

  /** What a caller was told is what the atomic store answers at that call's place among the others. */
  lemma ReplyIsAtomic<S(!new), Op(!new), R(!new)>(
    spec: Spec<S, Op, R>, base: S, w: World<S, Op, R>, actions: seq<Action<Op>>, reply: Reply<Op, R>
  )
    requires Settled(base, w)
    requires reply in Run(spec, w, actions).replies && reply.at.Some?
    ensures var ops := Ops(Run(spec, w, actions).log);
            var i := reply.at.value;
            && reply.began <= i < reply.ended <= |ops| && ops[i] == reply.op
            && reply.result == Atomic(spec, After(spec, base, ops[..i]), reply.op).1
  {
    InstancesAreOneStore(spec, base, w, actions);
    var log := Run(spec, w, actions).log;
    assert Placed(log, reply.op, reply.began, reply.at.value, reply.result);
    assert Ops(log[..reply.at.value]) == Ops(log)[..reply.at.value];
  }

  /** Calls that did not overlap are in the log in the order in which they were made. */
  lemma RealTimeOrder<S(!new), Op(!new), R(!new)>(
    spec: Spec<S, Op, R>, base: S, w: World<S, Op, R>, actions: seq<Action<Op>>, first: Reply<Op, R>, second: Reply<Op, R>
  )
    requires Settled(base, w)
    requires var n := Run(spec, w, actions); first in n.replies && second in n.replies
    requires first.at.Some? && second.at.Some? && first.ended <= second.began
    ensures first.at.value < second.at.value
  {
    InstancesAreOneStore(spec, base, w, actions);
  }

  // ------------------------------------------------------------------ creating the file

  lemma RunCons<S, Op, R>(spec: Spec<S, Op, R>, w: World<S, Op, R>, a: Action<Op>, rest: seq<Action<Op>>)
    ensures Run(spec, w, [a] + rest) == Run(spec, Step(spec, w, a), rest)
  {
    assert ([a] + rest)[1..] == rest;
  }

  function Call<Op>(id: nat, op: Op): seq<Action<Op>> {
    [Start(id, op)] + ([Acquire(id)] + ([Refresh(id)] + ([Commit(id)] + ([Respond(id)] + []))))
  }

  /** Two instances find no file; the first writes one and serves a call before the second writes its own. */
  function CreationRace<Op>(op: Op): seq<Action<Op>> {
    [Open(0, "first")] + ([Open(1, "second")] + ([Create(0)] + (Call(0, op) + ([Create(1)] + []))))
  }

  /** The five steps of a call by an instance with nobody else about. */
  lemma CallSteps<S, Op, R>(spec: Spec<S, Op, R>, w: World<S, Op, R>, id: nat, op: Op)
    requires id in w.instances && w.instances[id].phase.Idle? && w.lock.None? && w.file.Some?
    requires spec.early(op).None? && spec.fault(w.file.value).None? && spec.apply(w.file.value, op).Ok?
    ensures var done := spec.apply(w.file.value, op).value;
            var held := Step(spec, Step(spec, Step(spec, w, Start(id, op)), Acquire(id)), Refresh(id));
            var n := Step(spec, Step(spec, held, Commit(id)), Respond(id));
            && n.file == Some(done.0) && n.lock.None? && n.instances == w.instances[id := Instance(Some(done.0), Idle)]
            && n.log == w.log + [Entry(op, Ok(done.1))]
            && n.replies == w.replies + [Reply(op, |w.log|, |w.log| + 1, Some(|w.log|), Ok(done.1))]
  {
    var held := Step(spec, Step(spec, Step(spec, w, Start(id, op)), Acquire(id)), Refresh(id));
    assert held.instances == w.instances[id := Instance(w.file, Refreshed(op, |w.log|))];
  }

  lemma CallRuns<S, Op, R>(spec: Spec<S, Op, R>, w: World<S, Op, R>, id: nat, op: Op, rest: seq<Action<Op>>)
    ensures var held := Step(spec, Step(spec, Step(spec, w, Start(id, op)), Acquire(id)), Refresh(id));
            Run(spec, w, Call(id, op) + rest) == Run(spec, Step(spec, Step(spec, held, Commit(id)), Respond(id)), rest)
  {
    var w1 := Step(spec, w, Start(id, op));
    var w2 := Step(spec, w1, Acquire(id));
    var w3 := Step(spec, w2, Refresh(id));
    var w4 := Step(spec, w3, Commit(id));
    assert Call(id, op) + rest
        == [Start(id, op)] + ([Acquire(id)] + ([Refresh(id)] + ([Commit(id)] + ([Respond(id)] + rest))));
    RunCons(spec, w, Start(id, op), [Acquire(id)] + ([Refresh(id)] + ([Commit(id)] + ([Respond(id)] + rest))));
    RunCons(spec, w1, Acquire(id), [Refresh(id)] + ([Commit(id)] + ([Respond(id)] + rest)));
    RunCons(spec, w2, Refresh(id), [Commit(id)] + ([Respond(id)] + rest));
    RunCons(spec, w3, Commit(id), [Respond(id)] + rest);
    RunCons(spec, w4, Respond(id), rest);
  }

  /** After the first three steps of the race: the file is the first instance's, and the second still saw none. */
  function Raced<S, Op, R>(spec: Spec<S, Op, R>): World<S, Op, R> {
    var made := Some(spec.initial("first"));
    World(made, None, map[1 := Instance(None, Opening("second")), 0 := Instance(made, Idle)], [], [])
  }

  lemma RaceStarts<S, Op, R>(spec: Spec<S, Op, R>, rest: seq<Action<Op>>)
    ensures Run(spec, World(None, None, map[], [], []), [Open(0, "first")] + ([Open(1, "second")] + ([Create(0)] + rest)))
         == Run(spec, Raced(spec), rest)
  {
    var w0: World<S, Op, R> := World(None, None, map[], [], []);
    var w1 := Step(spec, w0, Open(0, "first"));
    var w2 := Step(spec, w1, Open(1, "second"));
    var w3 := Step(spec, w2, Create(0));
    RunCons(spec, w0, Open(0, "first"), [Open(1, "second")] + ([Create(0)] + rest));
    RunCons(spec, w1, Open(1, "second"), [Create(0)] + rest);
    RunCons(spec, w2, Create(0), rest);
    assert w3.instances == Raced(spec).instances;
  }

  /**
   * The file must be in place first: creating it takes no lock, so an instance that saw no file wipes out
   * whatever another created and was told it had stored.
   */
  lemma CreationRaceForgets<S, Op, R>(spec: Spec<S, Op, R>, op: Op)
    requires spec.early(op).None? && spec.fault(spec.initial("first")).None?
    requires spec.apply(spec.initial("first"), op).Ok?
    ensures var n := Run(spec, World(None, None, map[], [], []), CreationRace(op));
            && n.file == Some(spec.initial("second"))
            && n.replies == [Reply(op, 0, 1, Some(0), Ok(spec.apply(spec.initial("first"), op).value.1))]
  {
    RaceStarts(spec, Call(0, op) + ([Create(1)] + []));
    RaceEnds(spec, op);
  }

  lemma RaceEnds<S, Op, R>(spec: Spec<S, Op, R>, op: Op)
    requires spec.early(op).None? && spec.fault(spec.initial("first")).None?
    requires spec.apply(spec.initial("first"), op).Ok?
    ensures var n := Run(spec, Raced(spec), Call(0, op) + ([Create(1)] + []));
            && n.file == Some(spec.initial("second"))
            && n.replies == [Reply(op, 0, 1, Some(0), Ok(spec.apply(spec.initial("first"), op).value.1))]
  {
    var w: World<S, Op, R> := Raced(spec);
    var tail := [Create(1)] + [];
    CallRuns(spec, w, 0, op, tail);
    CallSteps(spec, w, 0, op);
    var held := Step(spec, Step(spec, Step(spec, w, Start(0, op)), Acquire(0)), Refresh(0));
    RunCons(spec, Step(spec, Step(spec, held, Commit(0)), Respond(0)), Create(1), []);
  }

  // When exactly a file in place is one atomic store.

  ghost predicate FileFollowsLog<S(!new), Op(!new), R(!new)>(spec: Spec<S, Op, R>, base: S, w: World<S, Op, R>) {
    w.file == Some(After(spec, base, Ops(w.log)))
  }

  /** A file in place and nobody in the middle of a call, though somebody may be about to create it. */
  ghost predicate Resting<S(!new), Op(!new), R(!new)>(base: S, w: World<S, Op, R>) {
    && w.file == Some(base) && w.log == [] && w.replies == [] && w.lock.None?
    && forall id | id in w.instances ::
         w.instances[id].phase.Idle? || w.instances[id].phase.Dead? || w.instances[id].phase.Opening?
  }

  lemma CreatingResets<S(!new), Op(!new), R(!new)>(spec: Spec<S, Op, R>, base: S, w: World<S, Op, R>, late: nat)
    requires Resting(base, w) && late in w.instances && w.instances[late].phase.Opening?
    requires spec.initial(w.instances[late].phase.deviceId) != base
    ensures !FileFollowsLog(spec, base, Run(spec, w, [Create(late)] + []))
  {
    RunCons(spec, w, Create(late), []);
    assert Ops(w.log) == [];
  }

  lemma CreatingLoses<S(!new), Op(!new), R(!new)>(
    spec: Spec<S, Op, R>, base: S, w: World<S, Op, R>, late: nat, other: nat, op: Op
  )
    requires Resting(base, w) && late in w.instances && w.instances[late].phase.Opening? && other !in w.instances
    requires spec.initial(w.instances[late].phase.deviceId) == base
    requires spec.early(op).None? && spec.fault(base).None? && spec.apply(base, op).Ok? && spec.apply(base, op).value.0 != base
    ensures !FileFollowsLog(spec, base, Run(spec, w, [Open(other, "")] + (Call(other, op) + ([Create(late)] + []))))
  {
    var v := Step(spec, w, Open(other, ""));
    RunCons(spec, w, Open(other, ""), Call(other, op) + ([Create(late)] + []));
    CallRuns(spec, v, other, op, [Create(late)] + []);
    CallSteps(spec, v, other, op);
    var held := Step(spec, Step(spec, Step(spec, v, Start(other, op)), Acquire(other)), Refresh(other));
    var done := Step(spec, Step(spec, held, Commit(other)), Respond(other));
    RunCons(spec, done, Create(late), []);
    AfterStep(spec, base, [], op);
    assert Ops(done.log) == [] + [op];
  }

  /**
   * A resting store is one atomic store over every run exactly if no instance has found the file missing and is
   * about to create it.
   */
  lemma OneStoreExactly<S(!new), Op(!new), R(!new)>(
    spec: Spec<S, Op, R>, base: S, w: World<S, Op, R>, other: nat, op: Op
  )
    requires Resting(base, w) && other !in w.instances
    requires spec.early(op).None? && spec.fault(base).None? && spec.apply(base, op).Ok? && spec.apply(base, op).value.0 != base
    ensures (forall actions :: FileFollowsLog(spec, base, Run(spec, w, actions)))
       <==> (forall id | id in w.instances :: !w.instances[id].phase.Opening?)
  {
    if forall id | id in w.instances :: !w.instances[id].phase.Opening? {
      forall actions
        ensures FileFollowsLog(spec, base, Run(spec, w, actions))
      {
        InstancesAreOneStore(spec, base, w, actions);
      }
    } else {
      var late :| late in w.instances && w.instances[late].phase.Opening?;
      if spec.initial(w.instances[late].phase.deviceId) == base {
        CreatingLoses(spec, base, w, late, other, op);
      } else {
        CreatingResets(spec, base, w, late);
      }
    }
  }
}
