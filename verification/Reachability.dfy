/**
 * What one process reaches by its own steps.  A call that starts while nobody else is inside an append continues
 * any run, lawful ones lawfully, so that the theorems about runs hold of what calls leave behind.
 */
module Reachability {
  import opened Wrappers
  import opened Bytes
  import opened Protocol
  import opened Audit
  import opened Core
  import opened Pipeline
  import LedgerSafety
  import Agreement
  import ClaimSafety
  import TrailSafety

  function RunFrom(env: Env, w: World, actions: seq<Action>): World {
    if actions == [] then w else Step(env, RunFrom(env, w, actions[..|actions| - 1]), actions[|actions| - 1])
  }

  /** The lock file is removed only when its holder is no longer inside an append, all along the way. */
  ghost predicate LawfulFrom(env: Env, w: World, actions: seq<Action>) {
    actions == []
    || var n := |actions| - 1;
       LawfulFrom(env, w, actions[..n]) && Agreement.Lawful(RunFrom(env, w, actions[..n]), actions[n])
  }

  /** A step of process `p`, or the removal of a lock file. */
  predicate By(a: Action, p: Pid) {
    a.RemoveLock? || a.p == p
  }

  ghost predicate Moves(env: Env, p: Pid, w: World, actions: seq<Action>, v: World) {
    RunFrom(env, w, actions) == v && forall a | a in actions :: By(a, p)
  }

  /** Whoever holds the lock file is not inside an append. */
  predicate Undisturbed(w: World) {
    w.store.lock.Some? ==> !Agreement.InCritical(ProcOf(w, w.store.lock.value))
  }

  /** Steps of `p` alone lead there; lawful ones, if nobody was inside an append. */
  ghost predicate Reaches(env: Env, p: Pid, w: World, v: World) {
    && (Undisturbed(w) ==> Undisturbed(v))
    && exists actions :: Moves(env, p, w, actions, v) && (Undisturbed(w) ==> LawfulFrom(env, w, actions))
  }

  /** Lawful steps of `p` lead there, whoever is inside an append. */
  ghost predicate Drives(env: Env, p: Pid, w: World, v: World) {
    exists actions :: Moves(env, p, w, actions, v) && LawfulFrom(env, w, actions)
  }

  lemma RunFromSnoc(env: Env, w: World, actions: seq<Action>, a: Action)
    ensures RunFrom(env, w, actions + [a]) == Step(env, RunFrom(env, w, actions), a)
    ensures LawfulFrom(env, w, actions + [a])
       <==> LawfulFrom(env, w, actions) && Agreement.Lawful(RunFrom(env, w, actions), a)
  {
    assert (actions + [a])[..|actions|] == actions;
  }

  lemma {:induction false} RunFromConcat(env: Env, u: World, first: seq<Action>, second: seq<Action>)
    ensures RunFrom(env, u, first + second) == RunFrom(env, RunFrom(env, u, first), second)
    ensures LawfulFrom(env, u, first) && LawfulFrom(env, RunFrom(env, u, first), second)
            ==> LawfulFrom(env, u, first + second)
  {
    if second == [] {
      assert first + second == first;
    } else {
      var n := |second| - 1;
      RunFromConcat(env, u, first, second[..n]);
      assert first + second == (first + second[..n]) + [second[n]];
      RunFromSnoc(env, u, first + second[..n], second[n]);
    }
  }

  lemma {:induction false} RunsAgree(env: Env, actions: seq<Action>)
    ensures RunFrom(env, INITIAL_WORLD, actions) == Run(env, actions)
  {
    if actions != [] {
      RunsAgree(env, actions[..|actions| - 1]);
    }
  }

  lemma MovesOnce(env: Env, p: Pid, w: World, a: Action)
    requires By(a, p)
    ensures Moves(env, p, w, [a], Step(env, w, a))
    ensures LawfulFrom(env, w, [a]) <==> Agreement.Lawful(w, a)
  {
    assert [] + [a] == [a];
    RunFromSnoc(env, w, [], a);
  }

  lemma MovesOn(env: Env, p: Pid, u: World, first: seq<Action>, v: World, second: seq<Action>, w: World)
    requires Moves(env, p, u, first, v) && Moves(env, p, v, second, w)
    ensures Moves(env, p, u, first + second, w)
    ensures LawfulFrom(env, u, first) && LawfulFrom(env, v, second) ==> LawfulFrom(env, u, first + second)
  {
    RunFromConcat(env, u, first, second);
  }

  lemma DrivesSelf(env: Env, p: Pid, w: World)
    ensures Drives(env, p, w, w)
  {
    assert Moves(env, p, w, [], w);
  }

  lemma DrivesThen(env: Env, p: Pid, u: World, a: Action, w: World)
    requires By(a, p) && !a.RemoveLock? && Drives(env, p, Step(env, u, a), w)
    ensures Drives(env, p, u, w)
  {
    var v := Step(env, u, a);
    var actions :| Moves(env, p, v, actions, w) && LawfulFrom(env, v, actions);
    MovesOnce(env, p, u, a);
    MovesOn(env, p, u, [a], v, actions, w);
  }

  lemma ReachesSelf(env: Env, p: Pid, w: World)
    ensures Reaches(env, p, w, w)
  {
    assert Moves(env, p, w, [], w);
  }

  lemma ReachesTrans(env: Env, p: Pid, u: World, v: World, w: World)
    requires Reaches(env, p, u, v) && Reaches(env, p, v, w)
    ensures Reaches(env, p, u, w)
  {
    var first :| Moves(env, p, u, first, v) && (Undisturbed(u) ==> LawfulFrom(env, u, first));
    var second :| Moves(env, p, v, second, w) && (Undisturbed(v) ==> LawfulFrom(env, v, second));
    MovesOn(env, p, u, first, v, second, w);
  }

  /** A process that is outside an append, and takes a step or takes up a request, keeps out of everyone's way. */
  lemma OutsideStaysClear(env: Env, v: World, a: Action)
    requires a.Submit? || (a.Advance? && (ProcOf(v, a.p).Busy? ==> !ProcOf(v, a.p).pc.Append?))
    requires Undisturbed(v)
    ensures Undisturbed(Step(env, v, a))
  {
    if a.Advance? && ProcOf(v, a.p).Busy? {
      LedgerSafety.AdvanceShape(env, v, a.p, a.choice);
      LedgerSafety.ControlMoveKeepsLedger(env, v.store, ProcOf(v, a.p).pc, ProcOf(v, a.p).job, a.choice);
    }
  }

  lemma ReachesStep(env: Env, p: Pid, w: World, v: World, a: Action)
    requires Reaches(env, p, w, v) && By(a, p)
    requires a.Submit? || (a.Advance? && (ProcOf(v, p).Busy? ==> !ProcOf(v, p).pc.Append?))
    ensures Reaches(env, p, w, Step(env, v, a))
  {
    if Undisturbed(v) {
      OutsideStaysClear(env, v, a);
    }
    MovesOnce(env, p, v, a);
    assert Reaches(env, p, v, Step(env, v, a));
    ReachesTrans(env, p, w, v, Step(env, v, a));
  }

  /** Removing a lock file that nobody relies on, and then going on. */
  lemma ReachesUnlocked(env: Env, p: Pid, w: World, v: World)
    requires Drives(env, p, Step(env, w, RemoveLock), v)
    requires v.store.lock.Some? ==> v.store.lock.value == p && !Agreement.InCritical(ProcOf(v, p))
    ensures Reaches(env, p, w, v)
  {
    var u := Step(env, w, RemoveLock);
    var actions :| Moves(env, p, u, actions, v) && LawfulFrom(env, u, actions);
    MovesOnce(env, p, w, RemoveLock);
    MovesOn(env, p, w, [RemoveLock], u, actions, v);
  }

  // --------------------------------------------------------- the theorems, of what is reached

  lemma LawfulRunSnoc(env: Env, actions: seq<Action>)
    requires actions != []
    requires Agreement.LawfulRun(env, actions[..|actions| - 1])
    requires Agreement.Lawful(Run(env, actions[..|actions| - 1]), actions[|actions| - 1])
    ensures Agreement.LawfulRun(env, actions)
  {
    var n := |actions| - 1;
    forall i | 0 <= i < |actions|
      ensures Agreement.Lawful(Run(env, actions[..i]), actions[i])
    {
      if i < n {
        assert actions[..n][..i] == actions[..i];
        assert Agreement.Lawful(Run(env, actions[..n][..i]), actions[..n][i]);
      }
    }
  }

  lemma {:induction false} LawfulsAgree(env: Env, actions: seq<Action>)
    ensures Agreement.LawfulRun(env, actions) <==> LawfulFrom(env, INITIAL_WORLD, actions)
  {
    if actions != [] {
      var n := |actions| - 1;
      LawfulsAgree(env, actions[..n]);
      RunsAgree(env, actions[..n]);
      if LawfulFrom(env, INITIAL_WORLD, actions) {
        LawfulRunSnoc(env, actions);
      } else if Agreement.LawfulRun(env, actions) {
        Agreement.LawfulPrefix(env, actions);
      }
    }
  }

  /** What is reached from the end of a run is the end of a longer one. */
  lemma ReachedByRun(env: Env, p: Pid, actions: seq<Action>, v: World) returns (more: seq<Action>)
    requires Reaches(env, p, Run(env, actions), v)
    ensures Run(env, actions + more) == v && forall a | a in more :: By(a, p)
    ensures Undisturbed(Run(env, actions)) && Agreement.LawfulRun(env, actions)
            ==> Agreement.LawfulRun(env, actions + more)
  {
    var w := Run(env, actions);
    more :| Moves(env, p, w, more, v) && (Undisturbed(w) ==> LawfulFrom(env, w, more));
    RunsAgree(env, actions);
    RunsAgree(env, actions + more);
    LawfulsAgree(env, actions);
    LawfulsAgree(env, actions + more);
    RunFromConcat(env, INITIAL_WORLD, actions, more);
  }

  /** What a call of the dispatcher leaves behind is safe, whatever ran before it and wherever it failed. */
  lemma ReachedIsSafe(env: Env, p: Pid, actions: seq<Action>, v: World)
    requires Reaches(env, p, Run(env, actions), v)
    ensures ClaimSafety.AtMostOnce(v.log)
    ensures forall key :: ClaimSafety.Truthful(v, key)
    ensures forall effect | effect in v.log :: TrailSafety.Preceded(v.store.table, effect)
  {
    var more := ReachedByRun(env, p, actions, v);
    ClaimSafety.ClaimAlways(env, actions + more);
    TrailSafety.TrailAlways(env, actions + more);
  }

  /**
   * And it keeps the two stores as an exclusive lock keeps them, if nobody else is inside an append when it starts:
   * equal or one record apart, told apart by the last records alone, and left alone once they differ.
   */
  lemma ReachedAgrees(env: Env, p: Pid, actions: seq<Action>, v: World)
    requires Agreement.LawfulRun(env, actions) && Undisturbed(Run(env, actions))
    requires Reaches(env, p, Run(env, actions), v)
    ensures Undisturbed(v)
    ensures Chain(env.codec, v.store.table)
    ensures v.store.jsonl == v.store.table || Agreement.Ahead(env.codec, v.store)
    ensures env.codec.Faithful() && |v.store.jsonl| <= I64_MAX ==>
            (LoadDbLast(RowsOf(env.codec, v.store.table)) == Ok(LoadJsonlLast(v.store.jsonl))
             <==> Intact(env.codec, RowsOf(env.codec, v.store.table), v.store.jsonl))
    ensures var before := Run(env, actions).store;
            Agreement.Diverged(before) ==>
              v.store.table == before.table && v.store.jsonl == before.jsonl && Agreement.Diverged(v.store)
  {
    var more := ReachedByRun(env, p, actions, v);
    Agreement.StoresAgree(env, actions + more);
    if env.codec.Faithful() && |v.store.jsonl| <= I64_MAX {
      Agreement.CheapCheckDecides(env, actions + more);
    }
    if Agreement.Diverged(Run(env, actions).store) {
      assert (actions + more)[..|actions|] == actions;
      Agreement.DivergedForever(env, actions + more, |actions|);
    }
  }
}
