/**
 * Billing state in a file that is written whole and never read again: exactly when nothing a caller was told is
 * missing from it.
 */
module BillingFiles {
  import opened Wrappers
  import opened Billing

  /** The delivery adds an event to the state. */
  predicate Records(s: BillingState, d: Delivery) {
    Delivered(s, d.event, d.now).1.Ok? && !Delivered(s, d.event, d.now).1.value.duplicate
  }

  lemma RecordingAdds(s: BillingState, d: Delivery)
    ensures var n := Delivered(s, d.event, d.now).0;
            if Records(s, d) then
              && d.event.id.Some? && d.event.id.value !in s.events
              && n.events.Keys == s.events.Keys + {d.event.id.value}
            else n == s
  {
    AppliesOrLeaves(s, d.event, d.now);
    if d.event.id.Some? && d.event.kind.Some? {
      ApplyLeavesEvents(s, d.event.id.value, d.event.kind.value, d.event, d.now);
      AppliedIsNew(s, d.event.id.value, d.event.kind.value, d.event, d.now);
    }
  }

  // ------------------------------------------------------------------ one store, failing writes

  /** A delivery, and whether its outcome can be written down. */
  datatype Attempt = Attempt(delivery: Delivery, canWrite: bool)

  /** Memory and file. */
  datatype Copies = Copies(memory: BillingState, file: BillingState)

  function Attempted(c: Copies, a: Attempt): Copies {
    var after := Delivered(c.memory, a.delivery.event, a.delivery.now).0;
    Copies(after, if Records(c.memory, a.delivery) && a.canWrite then after else c.file)
  }

  function AfterAttempts(s: BillingState, attempts: seq<Attempt>): Copies {
    if attempts == [] then Copies(s, s)
    else
      var n := |attempts| - 1;
      Attempted(AfterAttempts(s, attempts[..n]), attempts[n])
  }

  /** Which of the attempts recorded an event, and which could be written down. */
  function Recorded(s: BillingState, attempts: seq<Attempt>): (flags: seq<bool>)
    ensures |flags| == |attempts|
  {
    if attempts == [] then []
    else
      var n := |attempts| - 1;
      Recorded(s, attempts[..n]) + [Records(AfterAttempts(s, attempts[..n]).memory, attempts[n].delivery)]
  }

  function Writable(attempts: seq<Attempt>): seq<bool> {
    seq(|attempts|, i requires 0 <= i < |attempts| => attempts[i].canWrite)
  }

  /** The last index that is marked, if there is one, is good. */
  ghost predicate LastIsGood(marked: seq<bool>, good: seq<bool>)
    requires |marked| == |good|
  {
    forall i | 0 <= i < |marked| && marked[i] && (forall j | i < j < |marked| :: !marked[j]) :: good[i]
  }

  lemma LastIsGoodStep(marked: seq<bool>, good: seq<bool>, m: bool, g: bool)
    requires |marked| == |good|
    ensures LastIsGood(marked + [m], good + [g]) <==> if m then g else LastIsGood(marked, good)
  {
    var marks, goods, n := marked + [m], good + [g], |marked|;
    assert marks[n] == m && goods[n] == g;
    assert forall i | 0 <= i < n :: marks[i] == marked[i] && goods[i] == good[i];
    if LastIsGood(marks, goods) && !m {
      forall i | 0 <= i < n && marked[i] && (forall j | i < j < n :: !marked[j])
        ensures good[i]
      {
        assert forall j | i < j < n + 1 :: !marks[j];
        assert marks[i] && goods[i];
      }
    }
    if !m && LastIsGood(marked, good) {
      forall i | 0 <= i < n + 1 && marks[i] && (forall j | i < j < n + 1 :: !marks[j])
        ensures goods[i]
      {
        assert i < n && marked[i];
        assert forall j | i < j < n :: marks[j] == marked[j];
      }
    }
  }

  /** The last attempt that recorded an event, if there is one, was written down. */
  ghost predicate LastRecordingWritten(s: BillingState, attempts: seq<Attempt>) {
    LastIsGood(Recorded(s, attempts), Writable(attempts))
  }

  /** What the file holds is always what memory holds, or less. */
  lemma {:induction false} FileLags(s: BillingState, attempts: seq<Attempt>)
    ensures AfterAttempts(s, attempts).file.events.Keys <= AfterAttempts(s, attempts).memory.events.Keys
  {
    if attempts != [] {
      var n := |attempts| - 1;
      FileLags(s, attempts[..n]);
      RecordingAdds(AfterAttempts(s, attempts[..n]).memory, attempts[n].delivery);
    }
  }

  /**
   * Over any deliveries to one store, however their writes turn out: memory and file are the same exactly if the
   * last delivery that recorded an event was written down. A write that succeeds repairs those that failed.
   */
  lemma {:induction false} FileIsMemoryExactly(s: BillingState, attempts: seq<Attempt>)
    ensures var c := AfterAttempts(s, attempts);
            && (c.file == c.memory <==> LastRecordingWritten(s, attempts))
            && (c.memory.events.Keys <= c.file.events.Keys <==> LastRecordingWritten(s, attempts))
  {
    if attempts != [] {
      var n := |attempts| - 1;
      var before := AfterAttempts(s, attempts[..n]);
      FileIsMemoryExactly(s, attempts[..n]);
      FileLags(s, attempts[..n]);
      RecordingAdds(before.memory, attempts[n].delivery);
      assert Writable(attempts) == Writable(attempts[..n]) + [attempts[n].canWrite];
      LastIsGoodStep(Recorded(s, attempts[..n]), Writable(attempts[..n]),
                     Records(before.memory, attempts[n].delivery), attempts[n].canWrite);
    }
  }

  /** The event would be answered as already processed. */
  predicate Acknowledged(s: BillingState, event: Event) {
    event.id.Some? && event.kind.Some? && Delivered(s, event, 0).1.Ok? && Delivered(s, event, 0).1.value.duplicate
  }

  lemma AcknowledgedExactly(s: BillingState, event: Event)
    ensures Acknowledged(s, event) <==> event.id.Some? && event.kind.Some? && event.id.value in s.events
  {
    if event.id.Some? && event.kind.Some? {
      AppliedIsNew(s, event.id.value, event.kind.value, event, 0);
    }
  }

  /**
   * In the provider's terms: no event is answered as already processed that the file does not hold, exactly if
   * the last delivery that recorded an event was written down.
   */
  lemma AnswersAreDurableExactly(s: BillingState, attempts: seq<Attempt>)
    ensures var c := AfterAttempts(s, attempts);
            (forall event | Acknowledged(c.memory, event) :: event.id.value in c.file.events)
            <==> LastRecordingWritten(s, attempts)
  {
    var c := AfterAttempts(s, attempts);
    FileIsMemoryExactly(s, attempts);
    if c.memory.events.Keys <= c.file.events.Keys {
      forall event | Acknowledged(c.memory, event)
        ensures event.id.value in c.file.events
      {
        AcknowledgedExactly(c.memory, event);
      }
    } else {
      var id :| id in c.memory.events && id !in c.file.events;
      AcknowledgedExactly(c.memory, Event(Some(id), Some(""), None));
    }
  }

  /** The store's own method takes an attempt. */
  method Receive(store: BillingStore, ghost s: BillingState, ghost attempts: seq<Attempt>, a: Attempt)
    returns (r: Result<Outcome, BillingError>)
    requires store.file != null && AfterAttempts(s, attempts) == Copies(store.state, store.file.stored)
    modifies store`state, store.file
    ensures AfterAttempts(s, attempts + [a]) == Copies(store.state, store.file.stored)
    ensures r.Ok? <==> Delivered(old(store.state), a.delivery.event, a.delivery.now).1.Ok?
                       && (Records(old(store.state), a.delivery) ==> a.canWrite)
  {
    assert (attempts + [a])[..|attempts|] == attempts;
    r := store.ApplyTestWebhook(a.delivery.event, a.delivery.now, a.canWrite);
  }

  // ------------------------------------------------------------------- several stores, one file

  /** A store's memory, and how many writes the file had seen when the store last read or wrote it. */
  datatype Member = Member(memory: BillingState, seen: nat)

  /** The file, the stores that opened it, and every event some caller was told is processed. */
  datatype Shared = Shared(file: BillingState, writes: nat, stores: map<nat, Member>, told: set<string>)

  /** A store opens the file, for the first time or again, or takes a delivery; every write succeeds. */
  datatype Turn = Opens(store: nat) | Takes(store: nat, delivery: Delivery)

  function Told(s: BillingState, d: Delivery): set<string> {
    if d.event.id.Some? && Delivered(s, d.event, d.now).1.Ok? then {d.event.id.value} else {}
  }

  function Turned(w: Shared, t: Turn): Shared {
    match t
    case Opens(b) => w.(stores := w.stores[b := Member(w.file, w.writes)])
    case Takes(b, d) =>
      if b !in w.stores then w
      else
        var memory := w.stores[b].memory;
        var after := Delivered(memory, d.event, d.now).0;
        if Records(memory, d) then
          Shared(after, w.writes + 1, w.stores[b := Member(after, w.writes + 1)], w.told + Told(memory, d))
        else w.(told := w.told + Told(memory, d))
  }

  function AfterTurns(file: BillingState, turns: seq<Turn>): Shared {
    if turns == [] then Shared(file, 0, map[], file.events.Keys)
    else
      var n := |turns| - 1;
      Turned(AfterTurns(file, turns[..n]), turns[n])
  }

  /** Everything callers were told is processed is in the file. */
  predicate Durable(w: Shared) {
    w.told <= w.file.events.Keys
  }

  /** The turn writes the file. */
  predicate Writes(w: Shared, t: Turn) {
    t.Takes? && t.store in w.stores && Records(w.stores[t.store].memory, t.delivery)
  }

  /** A store that writes writes down every event the file holds already. */
  predicate Covers(w: Shared, t: Turn) {
    Writes(w, t) ==> w.file.events.Keys <= w.stores[t.store].memory.events.Keys + Told(w.stores[t.store].memory, t.delivery)
  }

  /** A store that writes does so with nobody having written since it last read or wrote the file. */
  predicate Current(w: Shared, t: Turn) {
    Writes(w, t) ==> w.stores[t.store].seen == w.writes
  }

  ghost predicate AlwaysDurable(file: BillingState, turns: seq<Turn>) {
    forall n | 0 <= n <= |turns| :: Durable(AfterTurns(file, turns[..n]))
  }

  ghost predicate AlwaysCovers(file: BillingState, turns: seq<Turn>) {
    forall n | 0 <= n < |turns| :: Covers(AfterTurns(file, turns[..n]), turns[n])
  }

  ghost predicate AlwaysCurrent(file: BillingState, turns: seq<Turn>) {
    forall n | 0 <= n < |turns| :: Current(AfterTurns(file, turns[..n]), turns[n])
  }

  ghost predicate OnlyTold(w: Shared) {
    w.file.events.Keys <= w.told && forall b | b in w.stores :: w.stores[b].memory.events.Keys <= w.told
  }

  lemma TurnKeepsOnlyTold(w: Shared, t: Turn)
    requires OnlyTold(w)
    ensures OnlyTold(Turned(w, t))
  {
    if t.Takes? && t.store in w.stores {
      RecordingAdds(w.stores[t.store].memory, t.delivery);
    }
  }

  lemma {:induction false} AlwaysOnlyTold(file: BillingState, turns: seq<Turn>)
    ensures OnlyTold(AfterTurns(file, turns))
  {
    if turns != [] {
      AlwaysOnlyTold(file, turns[..|turns| - 1]);
      TurnKeepsOnlyTold(AfterTurns(file, turns[..|turns| - 1]), turns[|turns| - 1]);
    }
  }

  lemma AnsweredIsHeld(s: BillingState, d: Delivery)
    ensures Told(s, d) <= Delivered(s, d.event, d.now).0.events.Keys
  {
    AppliesOrLeaves(s, d.event, d.now);
  }

  lemma TurnDurableExactly(w: Shared, t: Turn)
    requires OnlyTold(w) && Durable(w)
    ensures Durable(Turned(w, t)) <==> Covers(w, t)
  {
    if t.Takes? && t.store in w.stores {
      RecordingAdds(w.stores[t.store].memory, t.delivery);
      AnsweredIsHeld(w.stores[t.store].memory, t.delivery);
    }
  }

  lemma AfterTurn(file: BillingState, turns: seq<Turn>, t: Turn)
    ensures AfterTurns(file, turns + [t]) == Turned(AfterTurns(file, turns), t)
  {
    assert (turns + [t])[..|turns|] == turns;
  }

  lemma DurableOneMore(file: BillingState, turns: seq<Turn>, t: Turn)
    ensures AlwaysDurable(file, turns + [t]) <==> AlwaysDurable(file, turns) && Durable(AfterTurns(file, turns + [t]))
  {
    var more := turns + [t];
    assert more[..|more|] == more;
    assert forall i | 0 <= i <= |turns| :: more[..i] == turns[..i];
  }

  lemma CoversOneMore(file: BillingState, turns: seq<Turn>, t: Turn)
    ensures AlwaysCovers(file, turns + [t]) <==> AlwaysCovers(file, turns) && Covers(AfterTurns(file, turns), t)
  {
    var more := turns + [t];
    assert more[|turns|] == t && more[..|turns|] == turns;
    assert forall i | 0 <= i < |turns| :: more[..i] == turns[..i] && more[i] == turns[i];
  }

  lemma CurrentOneMore(file: BillingState, turns: seq<Turn>, t: Turn)
    ensures AlwaysCurrent(file, turns + [t]) <==> AlwaysCurrent(file, turns) && Current(AfterTurns(file, turns), t)
  {
    var more := turns + [t];
    assert more[|turns|] == t && more[..|turns|] == turns;
    assert forall i | 0 <= i < |turns| :: more[..i] == turns[..i] && more[i] == turns[i];
  }

  lemma DurableNow(file: BillingState, turns: seq<Turn>)
    requires AlwaysDurable(file, turns)
    ensures Durable(AfterTurns(file, turns))
  {
    assert turns[..|turns|] == turns;
  }

  /**
   * Any number of stores on one file, in any order: everything callers were told is in the file at every moment,
   * exactly if every store that writes knows all the file's events but the one it is writing.
   */
  lemma {:induction false} DurableExactlyWhenCovering(file: BillingState, turns: seq<Turn>)
    ensures AlwaysDurable(file, turns) <==> AlwaysCovers(file, turns)
  {
    if turns == [] {
    } else {
      var before, t := turns[..|turns| - 1], turns[|turns| - 1];
      assert turns == before + [t];
      DurableExactlyWhenCovering(file, before);
      DurableOneMore(file, before, t);
      CoversOneMore(file, before, t);
      if AlwaysDurable(file, before) {
        AlwaysOnlyTold(file, before);
        DurableNow(file, before);
        TurnDurableExactly(AfterTurns(file, before), t);
        AfterTurn(file, before, t);
      }
    }
  }

  /** Every event goes to one store, its owner. */
  ghost predicate Routed(owner: string -> nat, turns: seq<Turn>) {
    forall t | t in turns && t.Takes? && t.delivery.event.id.Some? :: t.store == owner(t.delivery.event.id.value)
  }

  /** A store that is behind lacks an event of the file which is not its own. */
  ghost predicate BehindLacks(owner: string -> nat, w: Shared) {
    forall b | b in w.stores ::
      && w.stores[b].seen <= w.writes
      && w.stores[b].memory.events.Keys <= w.file.events.Keys
      && (w.stores[b].seen == w.writes ==> w.stores[b].memory == w.file)
      && (w.stores[b].seen < w.writes ==>
            exists e :: e in w.file.events && e !in w.stores[b].memory.events && owner(e) != b)
  }

  lemma CurrentTurnKeeps(owner: string -> nat, w: Shared, t: Turn)
    requires BehindLacks(owner, w) && Current(w, t)
    requires t.Takes? && t.delivery.event.id.Some? ==> t.store == owner(t.delivery.event.id.value)
    ensures BehindLacks(owner, Turned(w, t))
  {
    var n := Turned(w, t);
    if Writes(w, t) {
      var id := t.delivery.event.id.value;
      RecordingAdds(w.stores[t.store].memory, t.delivery);
      forall b | b in n.stores && b != t.store
        ensures n.stores[b].memory.events.Keys <= n.file.events.Keys
        ensures id in n.file.events && id !in n.stores[b].memory.events && owner(id) != b
      {
        assert b in w.stores;
      }
    }
  }

  lemma CurrentExactlyWhenCovering(owner: string -> nat, w: Shared, t: Turn)
    requires BehindLacks(owner, w)
    requires t.Takes? && t.delivery.event.id.Some? ==> t.store == owner(t.delivery.event.id.value)
    ensures Current(w, t) <==> Covers(w, t)
  {
    if Writes(w, t) && w.stores[t.store].seen < w.writes {
      var e :| e in w.file.events && e !in w.stores[t.store].memory.events && owner(e) != t.store;
    }
  }

  lemma {:induction false} RoutedTurns(owner: string -> nat, file: BillingState, turns: seq<Turn>)
    requires Routed(owner, turns)
    ensures AlwaysCurrent(file, turns) <==> AlwaysCovers(file, turns)
    ensures AlwaysCurrent(file, turns) ==> BehindLacks(owner, AfterTurns(file, turns))
  {
    if turns != [] {
      var before, t := turns[..|turns| - 1], turns[|turns| - 1];
      assert turns == before + [t] && t in turns;
      RoutedTurns(owner, file, before);
      CurrentOneMore(file, before, t);
      CoversOneMore(file, before, t);
      if AlwaysCurrent(file, before) {
        CurrentExactlyWhenCovering(owner, AfterTurns(file, before), t);
        if Current(AfterTurns(file, before), t) {
          CurrentTurnKeeps(owner, AfterTurns(file, before), t);
          AfterTurn(file, before, t);
        }
      }
    }
  }

  /**
   * With each event going to one store only, everything callers were told is in the file at every moment exactly
   * if no store writes after another has written since it last read or wrote the file.
   */
  lemma DurableExactlyWhenCurrent(owner: string -> nat, file: BillingState, turns: seq<Turn>)
    requires Routed(owner, turns)
    ensures AlwaysDurable(file, turns) <==> AlwaysCurrent(file, turns)
  {
    RoutedTurns(owner, file, turns);
    DurableExactlyWhenCovering(file, turns);
  }

  ghost predicate CurrentIsSame(w: Shared) {
    forall b | b in w.stores ::
      w.stores[b].seen <= w.writes && (w.stores[b].seen == w.writes ==> w.stores[b].memory == w.file)
  }

  lemma CurrentTurnSame(w: Shared, t: Turn)
    requires CurrentIsSame(w) && Current(w, t)
    ensures CurrentIsSame(Turned(w, t)) && Covers(w, t)
  {}

  lemma {:induction false} CurrentCovers(file: BillingState, turns: seq<Turn>)
    requires AlwaysCurrent(file, turns)
    ensures AlwaysCovers(file, turns) && CurrentIsSame(AfterTurns(file, turns))
  {
    if turns != [] {
      var before, t := turns[..|turns| - 1], turns[|turns| - 1];
      assert turns == before + [t];
      CurrentOneMore(file, before, t);
      CoversOneMore(file, before, t);
      CurrentCovers(file, before);
      CurrentTurnSame(AfterTurns(file, before), t);
      AfterTurn(file, before, t);
    }
  }

  /** Without routing too, nothing is lost as long as no store writes behind another's back. */
  lemma CurrentWritersLoseNothing(file: BillingState, turns: seq<Turn>)
    requires AlwaysCurrent(file, turns)
    ensures AlwaysDurable(file, turns)
  {
    CurrentCovers(file, turns);
    DurableExactlyWhenCovering(file, turns);
  }

  /** An event of a kind that is only recorded. */
  function Probe(id: string): Event {
    Event(Some(id), Some("billing.probe"), None)
  }

  lemma ProbeIsRecorded(s: BillingState, id: string, now: u64)
    requires id !in s.events
    ensures Records(s, Delivery(Probe(id), now))
    ensures Delivered(s, Probe(id), now).0
         == s.(events := s.events[id := EventRecord(id, "billing.probe", now, None, false, "event_type_recorded_only")])
  {
    assert !AboutSubscription("billing.probe") && "billing.probe" != "checkout.session.completed";
  }

  /** Two stores open an empty file and are given the same event. */
  function SameTurns(id: string, now: u64): seq<Turn> {
    ((([] + [Opens(0)]) + [Opens(1)]) + [Takes(0, Delivery(Probe(id), now))]) + [Takes(1, Delivery(Probe(id), now))]
  }

  /**
   * Why the routing matters: two stores that are given the same event write one behind the other's back, and yet
   * the file lacks nothing.
   */
  lemma SameEventTwice(id: string, now: u64)
    ensures !AlwaysCurrent(EMPTY, SameTurns(id, now)) && AlwaysDurable(EMPTY, SameTurns(id, now))
  {
    var d := Delivery(Probe(id), now);
    var t1: seq<Turn> := [] + [Opens(0)];
    var t2 := t1 + [Opens(1)];
    var t3 := t2 + [Takes(0, d)];
    ProbeIsRecorded(EMPTY, id, now);
    AfterTurn(EMPTY, [], Opens(0));
    AfterTurn(EMPTY, t1, Opens(1));
    AfterTurn(EMPTY, t2, Takes(0, d));
    var w2, w3 := AfterTurns(EMPTY, t2), AfterTurns(EMPTY, t3);
    assert w2.stores[0] == Member(EMPTY, 0) && w2.stores[1] == Member(EMPTY, 0) && w2.writes == 0;
    assert w3.stores[1] == Member(EMPTY, 0) && w3.writes == 1 && w3.file.events.Keys == {id};
    CurrentOneMore(EMPTY, t3, Takes(1, d));
    CoversOneMore(EMPTY, [], Opens(0));
    CoversOneMore(EMPTY, t1, Opens(1));
    CoversOneMore(EMPTY, t2, Takes(0, d));
    CoversOneMore(EMPTY, t3, Takes(1, d));
    DurableExactlyWhenCovering(EMPTY, SameTurns(id, now));
  }

  /** A store's own method takes a turn of the stores' machine. */
  method TakeTurn(store: BillingStore, ghost w: Shared, ghost b: nat, d: Delivery)
    returns (r: Result<Outcome, BillingError>)
    requires store.file != null && store.file.stored == w.file && b in w.stores && w.stores[b].memory == store.state
    modifies store`state, store.file
    ensures var n := Turned(w, Takes(b, d));
            store.file.stored == n.file && b in n.stores && n.stores[b].memory == store.state
    ensures r.Ok? && d.event.id.Some? ==> d.event.id.value in Turned(w, Takes(b, d)).told
  {
    r := store.ApplyTestWebhook(d.event, d.now, true);
  }

  // ----------------------------------------------------------------- the two failures, in calls

  /**
   * A write that fails is not undone in memory: the provider's next attempt is told the event was already
   * processed, though no file holds it.
   */
  method FailedWriteIsForgotten(store: BillingStore, event: Event, now: u64, later: u64)
    returns (first: Result<Outcome, BillingError>, second: Result<Outcome, BillingError>)
    requires store.file != null && store.InSync()
    requires event.id.Some? && event.id.value !in store.state.events && Delivered(store.state, event, now).1.Ok?
    modifies store, store.file
    ensures first == Err(BillingError.Io) && second.Ok? && second.value.duplicate
    ensures store.file.stored == old(store.file.stored) && event.id.value !in store.file.stored.events
  {
    first := store.ApplyTestWebhook(event, now, false);
    second := store.ApplyTestWebhook(event, later, true);
  }

  /**
   * One store is not several: of two that opened the same file, the second to write erases what the first was
   * told it had stored, every write having succeeded.
   */
  method SecondStoreErases(a: BillingStore, b: BillingStore, first: Event, second: Event, now: u64)
    returns (ra: Result<Outcome, BillingError>, rb: Result<Outcome, BillingError>)
    requires a != b && a.file != null && a.file == b.file && a.InSync() && b.InSync()
    requires first.id.Some? && second.id.Some? && first.id != second.id
    requires first.id.value !in a.state.events && Delivered(a.state, first, now).1.Ok?
    requires second.id.value !in b.state.events && Delivered(b.state, second, now).1.Ok?
    modifies a, b, a.file
    ensures ra.Ok? && !ra.value.duplicate && rb.Ok?
    ensures first.id.value !in a.file.stored.events
  {
    ra := a.ApplyTestWebhook(first, now, true);
    rb := b.ApplyTestWebhook(second, now, true);
    AppliesOrLeaves(b.state, second, now);
    ApplyLeavesEvents(old(b.state), second.id.value, second.kind.value, second, now);
  }
}
