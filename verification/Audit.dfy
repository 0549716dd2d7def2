/**
 * The audit ledger: a hash chain kept in a database table and mirrored line by line in a JSONL file, and the
 * tables of consumed approvals and of execution recovery states that live in the same database.
 */
module Audit {
  import opened Wrappers
  import opened Bytes
  import opened Protocol

  datatype AuditEvent = AuditEvent(
    timestampUnixMs: u64,
    organizationId: string,
    actorId: string,
    deviceId: string,
    requestId: string,
    action: string,
    target: string,
    outcome: string,
    envelopeDigest: Digest32,
    authority: string,
    approval: string,
    policyRule: string,
    policyHash: string,
    contentBytes: u64)
  {
    function Key(): RequestKey {
      RequestKey(requestId, envelopeDigest)
    }
  }

  datatype AuditRecord = AuditRecord(
    sequence: nat,
    previousHash: Digest32,
    recordHash: Digest32,
    event: AuditEvent)

  /** One row of `audit_records`, as stored: nothing about it is trusted. */
  datatype Row = Row(sequence: int, previousHash: seq<byte>, recordHash: seq<byte>, eventJson: seq<byte>)

  datatype AuditError =
    | Divergence
    | InvalidSequence
    | InvalidHash
    | HashMismatch(sequence: int)
    | Json
    | Sql
    | Io
    | LockTimeout
    | MissingExecutionState
    | InvalidExecutionTransition

  datatype ExecutionRecoveryState =
    | NotExecuted
    | EffectUncertain
    | EffectApplied
    | PostEffectUncertain
    | Completed
  {
    function Rank(): nat {
      match this
      case NotExecuted => 0
      case EffectUncertain => 1
      case EffectApplied => 2
      case PostEffectUncertain => 3
      case Completed => 4
    }
  }

  /** SHA-256 and the JSON form of events: any functions, so that nothing rests on what they compute. */
  datatype Codec = Codec(
    sha256: seq<byte> -> Digest32,
    toJson: AuditEvent -> seq<byte>,
    fromJson: seq<byte> -> Option<AuditEvent>)
  {
    function HashRecord(sequence: nat, previous: seq<byte>, payload: seq<byte>): Digest32 {
      sha256(Preimage(sequence, previous, payload))
    }

    /** Reading back what was written gives the same event. */
    ghost predicate Faithful() {
      forall e :: fromJson(toJson(e)) == Some(e)
    }
  }

  /** What is hashed: the previous hash, the sequence number in eight bytes, then the payload. */
  function Preimage(sequence: nat, previous: seq<byte>, payload: seq<byte>): seq<byte> {
    previous + BigEndian(sequence, 8) + payload
  }

  lemma PreimageInjective(s1: nat, p1: Digest32, d1: seq<byte>, s2: nat, p2: Digest32, d2: seq<byte>)
    requires s1 <= U64_MAX && s2 <= U64_MAX
    requires Preimage(s1, p1, d1) == Preimage(s2, p2, d2)
    ensures s1 == s2 && p1 == p2 && d1 == d2
  {
    var a, b := Preimage(s1, p1, d1), Preimage(s2, p2, d2);
    assert p1 == a[..32] && p2 == b[..32];
    assert BigEndian(s1, 8) == a[32..40] && BigEndian(s2, 8) == b[32..40];
    assert d1 == a[40..] && d2 == b[40..];
    Pow256Values();
    BigEndianRoundTrip(s1, 8);
    BigEndianRoundTrip(s2, 8);
  }

  // ------------------------------------------------------------------- the full check

  predicate WellFormed(row: Row) {
    0 <= row.sequence <= I64_MAX && |row.previousHash| == 32 && |row.recordHash| == 32
  }

  function HashBefore(rows: seq<Row>, i: nat): seq<byte>
    requires i <= |rows|
  {
    if i == 0 then ZERO_HASH else rows[i - 1].recordHash
  }

  predicate LinkedAt(codec: Codec, rows: seq<Row>, i: nat)
    requires i < |rows|
  {
    && WellFormed(rows[i])
    && rows[i].previousHash == HashBefore(rows, i)
    && codec.HashRecord(rows[i].sequence, rows[i].previousHash, rows[i].eventJson) == rows[i].recordHash
    && codec.fromJson(rows[i].eventJson).Some?
  }

  /** Every row carries the hash of the row before it and the hash of its own content. */
  ghost predicate Linked(codec: Codec, rows: seq<Row>) {
    forall i | 0 <= i < |rows| :: LinkedAt(codec, rows, i)
  }

  function DecodeRow(codec: Codec, row: Row): AuditRecord
    requires WellFormed(row) && codec.fromJson(row.eventJson).Some?
  {
    AuditRecord(row.sequence, row.previousHash, row.recordHash, codec.fromJson(row.eventJson).value)
  }

  predicate DecodesTo(codec: Codec, row: Row, record: AuditRecord) {
    WellFormed(row) && codec.fromJson(row.eventJson).Some? && DecodeRow(codec, row) == record
  }

  /** One step of the chain check: the row as a record, if it follows on `previous`. */
  function CheckRow(codec: Codec, row: Row, previous: seq<byte>): (r: Result<AuditRecord, AuditError>)
    ensures r.Ok? ==> DecodesTo(codec, row, r.value)
    ensures r.Err? ==> r.error != Divergence
    ensures r.Err? && r.error.HashMismatch? ==> r.error.sequence == row.sequence
  {
    if row.sequence < 0 || row.sequence > I64_MAX then Err(InvalidSequence)
    else if |row.previousHash| != 32 || |row.recordHash| != 32 then Err(InvalidHash)
    else if row.previousHash != previous || codec.HashRecord(row.sequence, previous, row.eventJson) != row.recordHash
    then Err(HashMismatch(row.sequence))
    else match codec.fromJson(row.eventJson)
      case None => Err(Json)
      case Some(event) => Ok(AuditRecord(row.sequence, row.previousHash, row.recordHash, event))
  }

  lemma CheckRowDecides(codec: Codec, rows: seq<Row>, i: nat)
    requires i < |rows|
    ensures CheckRow(codec, rows[i], HashBefore(rows, i)).Ok? <==> LinkedAt(codec, rows, i)
  {}

  /** The records of the first `n` rows, or what is wrong with the first row that does not follow on. */
  function ReadTo(codec: Codec, rows: seq<Row>, n: nat): Result<seq<AuditRecord>, AuditError>
    requires n <= |rows|
  {
    if n == 0 then Ok([])
    else
      var before :- ReadTo(codec, rows, n - 1);
      var last :- CheckRow(codec, rows[n - 1], HashBefore(rows, n - 1));
      Ok(before + [last])
  }

  lemma {:induction false} StaysBroken(codec: Codec, rows: seq<Row>, i: nat, n: nat)
    requires i <= n <= |rows| && ReadTo(codec, rows, i).Err?
    ensures ReadTo(codec, rows, n) == ReadTo(codec, rows, i)
  {
    if i < n {
      StaysBroken(codec, rows, i, n - 1);
    }
  }

  lemma {:induction false} ReadToMeans(codec: Codec, rows: seq<Row>, n: nat)
    requires n <= |rows|
    ensures var r := ReadTo(codec, rows, n);
            && (r.Ok? <==> forall j | 0 <= j < n :: LinkedAt(codec, rows, j))
            && (r.Ok? ==> |r.value| == n && forall j | 0 <= j < n :: DecodesTo(codec, rows[j], r.value[j]))
            && (r.Err? ==> r.error != Divergence)
            && (r.Err? && r.error.HashMismatch? ==>
                  exists i :: FirstBroken(codec, rows, i) && rows[i].sequence == r.error.sequence)
  {
    if n > 0 {
      ReadToMeans(codec, rows, n - 1);
      CheckRowDecides(codec, rows, n - 1);
      if ReadTo(codec, rows, n - 1).Ok? && ReadTo(codec, rows, n).Err? {
        assert FirstBroken(codec, rows, n - 1);
      }
    }
  }

  /** The file holds exactly the records of the table, in order. */
  ghost predicate Mirrors(codec: Codec, rows: seq<Row>, jsonl: seq<AuditRecord>) {
    && |rows| == |jsonl|
    && forall i | 0 <= i < |rows| :: DecodesTo(codec, rows[i], jsonl[i])
  }

  lemma MirrorsOnlyItsRecords(codec: Codec, rows: seq<Row>, records: seq<AuditRecord>, jsonl: seq<AuditRecord>)
    requires Mirrors(codec, rows, records)
    ensures Mirrors(codec, rows, jsonl) <==> records == jsonl
  {
    if Mirrors(codec, rows, jsonl) {
      assert forall i | 0 <= i < |rows| :: DecodesTo(codec, rows[i], records[i]) && DecodesTo(codec, rows[i], jsonl[i]);
    }
  }

  /** The first row that breaks the chain. */
  ghost predicate FirstBroken(codec: Codec, rows: seq<Row>, i: int) {
    && 0 <= i < |rows| && !LinkedAt(codec, rows, i)
    && forall j | 0 <= j < i :: LinkedAt(codec, rows, j)
  }

  ghost predicate Intact(codec: Codec, rows: seq<Row>, jsonl: seq<AuditRecord>) {
    Linked(codec, rows) && Mirrors(codec, rows, jsonl)
  }

  // ------------------------------------------------------------------ the cheap check

  type Head = Option<(nat, Digest32)>

  function LoadDbLast(rows: seq<Row>): Result<Head, AuditError> {
    if rows == [] then Ok(None)
    else
      var last := rows[|rows| - 1];
      if last.sequence < 0 then Err(InvalidSequence)
      else if |last.recordHash| != 32 then Err(InvalidHash)
      else Ok(Some((last.sequence, last.recordHash)))
  }

  function LoadJsonlLast(jsonl: seq<AuditRecord>): Head {
    if jsonl == [] then None
    else Some((jsonl[|jsonl| - 1].sequence, jsonl[|jsonl| - 1].recordHash))
  }

  function HeadSequence(head: Head): nat {
    if head.None? then 0 else head.value.0
  }

  function HeadHash(head: Head): Digest32 {
    if head.None? then ZERO_HASH else head.value.1
  }

  function RowOf(codec: Codec, record: AuditRecord): (row: Row)
    ensures WellFormed(row) <==> record.sequence <= I64_MAX
  {
    Row(record.sequence, record.previousHash, record.recordHash, codec.toJson(record.event))
  }

  function RowsOf(codec: Codec, records: seq<AuditRecord>): (rows: seq<Row>)
    ensures |rows| == |records|
    ensures forall i | 0 <= i < |records| :: rows[i] == RowOf(codec, records[i])
  {
    seq(|records|, i requires 0 <= i < |records| => RowOf(codec, records[i]))
  }

  lemma RowsSnoc(codec: Codec, records: seq<AuditRecord>, record: AuditRecord)
    ensures RowsOf(codec, records + [record]) == RowsOf(codec, records) + [RowOf(codec, record)]
  {
  }

  lemma HeadOfRows(codec: Codec, records: seq<AuditRecord>)
    ensures LoadDbLast(RowsOf(codec, records)) == Ok(LoadJsonlLast(records))
  {
  }

  /** The record that extends a ledger whose last record is `head`. */
  function NextRecord(codec: Codec, head: Head, event: AuditEvent): AuditRecord {
    var sequence := HeadSequence(head) + 1;
    AuditRecord(sequence, HeadHash(head), codec.HashRecord(sequence, HeadHash(head), codec.toJson(event)), event)
  }

  /** A gap-free chain, as the ledger writes it. */
  ghost predicate Chain(codec: Codec, records: seq<AuditRecord>) {
    forall i | 0 <= i < |records| ::
      records[i] == NextRecord(codec, LoadJsonlLast(records[..i]), records[i].event)
  }

  lemma ChainSequences(codec: Codec, records: seq<AuditRecord>)
    requires Chain(codec, records)
    ensures forall i | 0 <= i < |records| :: records[i].sequence == i + 1
    ensures HeadSequence(LoadJsonlLast(records)) == |records|
  {
    forall i | 0 <= i < |records|
      ensures records[i].sequence == i + 1
    {
      ChainSequenceAt(codec, records, i);
    }
  }

  lemma {:induction false} ChainSequenceAt(codec: Codec, records: seq<AuditRecord>, i: nat)
    requires Chain(codec, records) && i < |records|
    ensures records[i].sequence == i + 1
  {
    assert records[i] == NextRecord(codec, LoadJsonlLast(records[..i]), records[i].event);
    if i > 0 {
      ChainSequenceAt(codec, records, i - 1);
      assert records[..i][i - 1] == records[i - 1];
    }
  }

  lemma ChainPrefix(codec: Codec, records: seq<AuditRecord>, n: nat)
    requires Chain(codec, records) && n <= |records|
    ensures Chain(codec, records[..n])
  {
    forall i | 0 <= i < n
      ensures records[..n][i] == NextRecord(codec, LoadJsonlLast(records[..n][..i]), records[..n][i].event)
    {
      assert records[..n][..i] == records[..i];
      assert records[i] == NextRecord(codec, LoadJsonlLast(records[..i]), records[i].event);
    }
  }

  lemma ChainExtends(codec: Codec, records: seq<AuditRecord>, record: AuditRecord)
    ensures Chain(codec, records + [record])
       <==> Chain(codec, records) && record == NextRecord(codec, LoadJsonlLast(records), record.event)
  {
    var more := records + [record];
    var n := |records|;
    assert more[..n] == records && more[n] == record;
    if Chain(codec, more) {
      ChainPrefix(codec, more, n);
      assert more[n] == NextRecord(codec, LoadJsonlLast(more[..n]), more[n].event);
    }
    if Chain(codec, records) && record == NextRecord(codec, LoadJsonlLast(records), record.event) {
      forall i | 0 <= i < |more|
        ensures more[i] == NextRecord(codec, LoadJsonlLast(more[..i]), more[i].event)
      {
        if i < n {
          assert more[..i] == records[..i] && more[i] == records[i];
        }
      }
    }
  }

  /** The full check accepts what the ledger writes: a chain, stored as rows and mirrored as lines. */
  lemma ChainIsIntact(codec: Codec, records: seq<AuditRecord>)
    requires codec.Faithful() && Chain(codec, records) && |records| <= I64_MAX
    ensures Intact(codec, RowsOf(codec, records), records)
  {
    var rows := RowsOf(codec, records);
    ChainSequences(codec, records);
    forall i | 0 <= i < |rows|
      ensures LinkedAt(codec, rows, i) && DecodesTo(codec, rows[i], records[i])
    {
      assert records[i] == NextRecord(codec, LoadJsonlLast(records[..i]), records[i].event);
      if i > 0 {
        assert records[..i][i - 1] == records[i - 1];
        assert rows[i - 1] == RowOf(codec, records[i - 1]);
      }
      assert rows[i] == RowOf(codec, records[i]);
    }
  }

  // ---------------------------------------------------- the head commits to everything

  function RowPreimage(row: Row): seq<byte>
    requires WellFormed(row)
  {
    Preimage(row.sequence, row.previousHash, row.eventJson)
  }

  ghost predicate CollisionAt(codec: Codec, a: seq<Row>, b: seq<Row>, i: int, j: int) {
    && 0 <= i < |a| && 0 <= j < |b| && WellFormed(a[i]) && WellFormed(b[j])
    && RowPreimage(a[i]) != RowPreimage(b[j])
    && codec.sha256(RowPreimage(a[i])) == codec.sha256(RowPreimage(b[j]))
  }

  ghost predicate ZeroAt(codec: Codec, rows: seq<Row>, i: int) {
    0 <= i < |rows| && WellFormed(rows[i]) && codec.sha256(RowPreimage(rows[i])) == ZERO_HASH
  }

  /** The two ledgers themselves exhibit a SHA-256 collision, or content that hashes to zero. */
  ghost predicate HashBroken(codec: Codec, a: seq<Row>, b: seq<Row>) {
    || (exists i, j :: CollisionAt(codec, a, b, i, j))
    || (exists i :: ZeroAt(codec, a, i))
    || (exists i :: ZeroAt(codec, b, i))
  }

  lemma LinkedPrefix(codec: Codec, rows: seq<Row>, n: nat)
    requires Linked(codec, rows) && n <= |rows|
    ensures Linked(codec, rows[..n])
  {
    forall i | 0 <= i < n
      ensures LinkedAt(codec, rows[..n], i)
    {
      assert LinkedAt(codec, rows, i);
    }
  }

  lemma BrokenPrefix(codec: Codec, a: seq<Row>, b: seq<Row>, m: nat, n: nat)
    requires m <= |a| && n <= |b| && HashBroken(codec, a[..m], b[..n])
    ensures HashBroken(codec, a, b)
  {
    if exists i, j :: CollisionAt(codec, a[..m], b[..n], i, j) {
      var i, j :| CollisionAt(codec, a[..m], b[..n], i, j);
      assert CollisionAt(codec, a, b, i, j);
    } else if exists i :: ZeroAt(codec, a[..m], i) {
      var i :| ZeroAt(codec, a[..m], i);
      assert ZeroAt(codec, a, i);
    } else {
      var i :| ZeroAt(codec, b[..n], i);
      assert ZeroAt(codec, b, i);
    }
  }

  /**
   * Two ledgers that pass the chain check and end in the same hash hold the same rows, byte for byte, unless
   * between them they exhibit a hash collision.
   */
  lemma {:induction false} HeadCommitsToHistory(codec: Codec, a: seq<Row>, b: seq<Row>)
    requires Linked(codec, a) && Linked(codec, b)
    requires HashBefore(a, |a|) == HashBefore(b, |b|)
    ensures a == b || HashBroken(codec, a, b)
    decreases |a| + |b|
  {
    if a == [] && b == [] {
    } else if a == [] {
      assert LinkedAt(codec, b, |b| - 1);
      assert ZeroAt(codec, b, |b| - 1);
    } else if b == [] {
      assert LinkedAt(codec, a, |a| - 1);
      assert ZeroAt(codec, a, |a| - 1);
    } else {
      var m, n := |a| - 1, |b| - 1;
      assert LinkedAt(codec, a, m) && LinkedAt(codec, b, n);
      if RowPreimage(a[m]) != RowPreimage(b[n]) {
        assert CollisionAt(codec, a, b, m, n);
      } else {
        PreimageInjective(a[m].sequence, a[m].previousHash, a[m].eventJson,
                          b[n].sequence, b[n].previousHash, b[n].eventJson);
        LinkedPrefix(codec, a, m);
        LinkedPrefix(codec, b, n);
        HeadCommitsToHistory(codec, a[..m], b[..n]);
        if a[..m] == b[..n] {
          assert a == a[..m] + [a[m]] && b == b[..n] + [b[n]];
        } else {
          BrokenPrefix(codec, a, b, m, n);
        }
      }
    }
  }

  lemma SameRowsSameRecords(codec: Codec, table: seq<AuditRecord>, jsonl: seq<AuditRecord>)
    requires codec.Faithful() && Chain(codec, table) && Chain(codec, jsonl)
    requires |table| <= I64_MAX && RowsOf(codec, table) == RowsOf(codec, jsonl)
    ensures table == jsonl
  {
    var rows := RowsOf(codec, table);
    assert |table| == |rows| == |jsonl|;
    ChainIsIntact(codec, table);
    ChainIsIntact(codec, jsonl);
    forall i | 0 <= i < |table|
      ensures table[i] == jsonl[i]
    {
      assert DecodesTo(codec, rows[i], table[i]);
      assert DecodesTo(codec, rows[i], jsonl[i]);
    }
  }

  lemma IntactHeadsAgree(codec: Codec, table: seq<AuditRecord>, jsonl: seq<AuditRecord>)
    requires codec.Faithful() && Chain(codec, table) && |table| <= I64_MAX
    requires Intact(codec, RowsOf(codec, table), jsonl)
    ensures LoadDbLast(RowsOf(codec, table)) == Ok(LoadJsonlLast(jsonl))
  {
    ChainIsIntact(codec, table);
    MirrorsOnlyItsRecords(codec, RowsOf(codec, table), table, jsonl);
    HeadOfRows(codec, table);
  }

  /**
   * Comparing the last records decides what comparing everything decides, for any two chains whatever their
   * history, hash collisions between them apart.
   */
  lemma CheapCheckMatchesFull(codec: Codec, table: seq<AuditRecord>, jsonl: seq<AuditRecord>)
    requires codec.Faithful() && Chain(codec, table) && Chain(codec, jsonl)
    requires |table| <= I64_MAX && |jsonl| <= I64_MAX
    ensures Intact(codec, RowsOf(codec, table), jsonl)
       ==> LoadDbLast(RowsOf(codec, table)) == Ok(LoadJsonlLast(jsonl))
    ensures LoadDbLast(RowsOf(codec, table)) == Ok(LoadJsonlLast(jsonl))
       ==> Intact(codec, RowsOf(codec, table), jsonl) || HashBroken(codec, RowsOf(codec, table), RowsOf(codec, jsonl))
  {
    var a, b := RowsOf(codec, table), RowsOf(codec, jsonl);
    ChainIsIntact(codec, table);
    ChainIsIntact(codec, jsonl);
    if Intact(codec, a, jsonl) {
      IntactHeadsAgree(codec, table, jsonl);
    }
    if LoadDbLast(a) == Ok(LoadJsonlLast(jsonl)) {
      HeadsCommit(codec, table, jsonl);
      if a == b {
        SameRowsSameRecords(codec, table, jsonl);
      }
    }
  }

  lemma HeadsCommit(codec: Codec, table: seq<AuditRecord>, jsonl: seq<AuditRecord>)
    requires Linked(codec, RowsOf(codec, table)) && Linked(codec, RowsOf(codec, jsonl))
    requires LoadDbLast(RowsOf(codec, table)) == Ok(LoadJsonlLast(jsonl))
    ensures RowsOf(codec, table) == RowsOf(codec, jsonl)
         || HashBroken(codec, RowsOf(codec, table), RowsOf(codec, jsonl))
  {
    HeadCommitsToHistory(codec, RowsOf(codec, table), RowsOf(codec, jsonl));
  }

  // ------------------------------------------------------------------ rate accounting

  predicate IsAutoWrite(event: AuditEvent, actorId: string, deviceId: string) {
    && event.actorId == actorId && event.deviceId == deviceId
    && event.action == "filesystem.write" && event.outcome == "auto" && event.authority == "policy"
  }

  predicate InWindow(event: AuditEvent, actorId: string, deviceId: string, from: int) {
    IsAutoWrite(event, actorId, deviceId) && event.timestampUnixMs >= from
  }

  function CountSince(events: seq<AuditEvent>, actorId: string, deviceId: string, from: int): nat {
    if events == [] then 0
    else
      var n := |events| - 1;
      CountSince(events[..n], actorId, deviceId, from) + if InWindow(events[n], actorId, deviceId, from) then 1 else 0
  }

  function BytesSince(events: seq<AuditEvent>, actorId: string, deviceId: string, from: int): nat {
    if events == [] then 0
    else
      var n := |events| - 1;
      BytesSince(events[..n], actorId, deviceId, from)
      + if InWindow(events[n], actorId, deviceId, from) then events[n].contentBytes else 0
  }

  /** The count the database answers with, in the widths it passes through. */
  function QueryCount(events: seq<AuditEvent>, actorId: string, deviceId: string, from: u64): Result<nat, AuditError> {
    var count := CountSince(events, actorId, deviceId, from);
    if from > I64_MAX || count > U32_MAX then Err(InvalidSequence) else Ok(count)
  }

  function QueryBytes(events: seq<AuditEvent>, actorId: string, deviceId: string, from: u64): Result<u64, AuditError> {
    var bytes := BytesSince(events, actorId, deviceId, from);
    if from > I64_MAX then Err(InvalidSequence) else if bytes > I64_MAX then Err(Sql) else Ok(bytes)
  }

  function EventsOf(records: seq<AuditRecord>): (events: seq<AuditEvent>)
    ensures |events| == |records|
    ensures forall i | 0 <= i < |records| :: events[i] == records[i].event
  {
    seq(|records|, i requires 0 <= i < |records| => records[i].event)
  }

  // ---------------------------------------------------------------------- operations

  /** Where an append may be interrupted by an error the ledger does not cause. */
  datatype AppendFault = NoFault | LockTimesOut | InsertFails | LineFails | SyncFails | CommitFails | ReleaseFails

  predicate Conflicts(rows: seq<Row>, row: Row) {
    exists i | 0 <= i < |rows| :: rows[i].sequence == row.sequence || rows[i].recordHash == row.recordHash
  }

  /** What an append leaves in the table and in the file, and what it returns. */
  function AppendEffect(codec: Codec, rows: seq<Row>, jsonl: seq<AuditRecord>, event: AuditEvent, fault: AppendFault)
    : (seq<Row>, seq<AuditRecord>, Result<AuditRecord, AuditError>)
  {
    if fault == LockTimesOut then (rows, jsonl, Err(LockTimeout))
    else match LoadDbLast(rows)
      case Err(error) => (rows, jsonl, Err(error))
      case Ok(head) =>
        if head != LoadJsonlLast(jsonl) then (rows, jsonl, Err(Divergence))
        else
          var record := NextRecord(codec, head, event);
          var row := RowOf(codec, record);
          if fault == InsertFails || Conflicts(rows, row) then (rows, jsonl, Err(Sql))
          else match fault
            case LineFails => (rows, jsonl, Err(Io))
            case SyncFails => (rows, jsonl + [record], Err(Io))
            case CommitFails => (rows, jsonl + [record], Err(Sql))
            case ReleaseFails => (rows + [row], jsonl + [record], Err(Io))
            case _ => (rows + [row], jsonl + [record], Ok(record))
  }

  /** An append to two stores that agree, told apart by what goes wrong. */
  lemma AppendFromAgreement(codec: Codec, table: seq<AuditRecord>, event: AuditEvent, fault: AppendFault)
    ensures var rows, record := RowsOf(codec, table), NextRecord(codec, LoadJsonlLast(table), event);
            var row := RowOf(codec, record);
            var effect := AppendEffect(codec, rows, table, event, fault);
            && (fault == LockTimesOut ==> effect == (rows, table, Err(LockTimeout)))
            && (fault != LockTimesOut && (fault == InsertFails || Conflicts(rows, row)) ==>
                  effect == (rows, table, Err(Sql)))
            && (fault != LockTimesOut && fault != InsertFails && !Conflicts(rows, row) ==>
                  effect == match fault
                            case LineFails => (rows, table, Err(Io))
                            case SyncFails => (rows, table + [record], Err(Io))
                            case CommitFails => (rows, table + [record], Err(Sql))
                            case ReleaseFails => (rows + [row], table + [record], Err(Io))
                            case _ => (rows + [row], table + [record], Ok(record)))
  {
    HeadOfRows(codec, table);
  }

  /** A record of the next number conflicts with the rows before it only if it has the hash of one of them. */
  lemma NewConflicts(codec: Codec, table: seq<AuditRecord>, record: AuditRecord)
    requires Chain(codec, table) && record.sequence == HeadSequence(LoadJsonlLast(table)) + 1
    ensures Conflicts(RowsOf(codec, table), RowOf(codec, record))
       <==> exists i :: 0 <= i < |table| && table[i].recordHash == record.recordHash
  {
    var rows := RowsOf(codec, table);
    ChainSequences(codec, table);
    if i :| 0 <= i < |table| && table[i].recordHash == record.recordHash {
      assert rows[i].recordHash == RowOf(codec, record).recordHash;
    }
    if Conflicts(rows, RowOf(codec, record)) {
      var i :| 0 <= i < |rows| && (rows[i].sequence == record.sequence || rows[i].recordHash == record.recordHash);
      assert rows[i] == RowOf(codec, table[i]);
    }
  }

  /**
   * One append from a sound ledger.  Success, or an error while releasing the lock, extends both stores by the
   * same next record; an error between the line and the commit leaves the file one record ahead of a table
   * that is still sound; every other error changes nothing.
   */
  lemma AppendKeepsChain(codec: Codec, table: seq<AuditRecord>, event: AuditEvent, fault: AppendFault)
    requires codec.Faithful() && Chain(codec, table) && |table| < I64_MAX
    ensures var (rows, jsonl, r) := AppendEffect(codec, RowsOf(codec, table), table, event, fault);
            var more := table + [NextRecord(codec, LoadJsonlLast(table), event)];
            && Chain(codec, more)
            && (r.Ok? <==> fault == NoFault && forall i | 0 <= i < |table| :: table[i].recordHash != more[|table|].recordHash)
            && (r.Ok? ==> r.value == more[|table|] && rows == RowsOf(codec, more) && jsonl == more)
            && (fault == ReleaseFails && r != Err(Sql) ==> rows == RowsOf(codec, more) && jsonl == more)
            && (r.Err? && (fault != ReleaseFails || r == Err(Sql)) ==> rows == RowsOf(codec, table))
            && (r.Err? && fault !in {SyncFails, CommitFails, ReleaseFails} ==> jsonl == table)
            && (fault in {SyncFails, CommitFails} ==> jsonl in {table, more})
  {
    var record := NextRecord(codec, LoadJsonlLast(table), event);
    ChainExtends(codec, table, record);
    RowsSnoc(codec, table, record);
    AppendFromAgreement(codec, table, event, fault);
    NewConflicts(codec, table, record);
  }

  /**
   * Once the file is one record ahead, every append and every open is refused and changes neither store: the
   * two never drift further apart, and nothing is ever written on top of a record that was not committed.
   */
  lemma DivergenceIsFinal(codec: Codec, table: seq<AuditRecord>, lost: AuditRecord, event: AuditEvent, fault: AppendFault)
    requires codec.Faithful() && Chain(codec, table + [lost]) && |table| < I64_MAX
    ensures LoadDbLast(RowsOf(codec, table)) != Ok(LoadJsonlLast(table + [lost]))
    ensures !Intact(codec, RowsOf(codec, table), table + [lost])
    ensures AppendEffect(codec, RowsOf(codec, table), table + [lost], event, fault)
         == (RowsOf(codec, table), table + [lost],
             if fault == LockTimesOut then Err(LockTimeout) else Err(Divergence))
  {
    ChainSequences(codec, table + [lost]);
    assert (table + [lost])[|table|] == lost;
    if table != [] {
      assert (table + [lost])[|table| - 1] == table[|table| - 1];
      assert table[|table| - 1].sequence == |table|;
    }
  }

  /** The claim, as one transaction: a key is claimed once, and a claim starts its recovery record. */
  function ClaimEffect(consumed: map<RequestKey, u64>, executions: map<RequestKey, ExecutionRecoveryState>,
          key: RequestKey, now: u64)
    : (map<RequestKey, u64>, map<RequestKey, ExecutionRecoveryState>, Result<bool, AuditError>)
  {
    if now > I64_MAX then (consumed, executions, Err(InvalidSequence))
    else if key in consumed then (consumed, executions, Ok(false))
    else if key in executions then (consumed, executions, Err(Sql))
    else (consumed[key := now], executions[key := NotExecuted], Ok(true))
  }

  function RecoveryError(executions: map<RequestKey, ExecutionRecoveryState>, key: RequestKey,
                         state: ExecutionRecoveryState, now: u64): Option<AuditError>
  {
    if key !in executions then Some(MissingExecutionState)
    else if state.Rank() < executions[key].Rank() then Some(InvalidExecutionTransition)
    else if now > I64_MAX then Some(InvalidSequence)
    else None
  }

  /** Which recovery state may come after which, the same one included. */
  predicate MayFollow(from: ExecutionRecoveryState, to: ExecutionRecoveryState) {
    match from
    case NotExecuted => true
    case EffectUncertain => to != NotExecuted
    case EffectApplied => to == EffectApplied || to == PostEffectUncertain || to == Completed
    case PostEffectUncertain => to == PostEffectUncertain || to == Completed
    case Completed => to == Completed
  }

  lemma RankFollows(from: ExecutionRecoveryState, to: ExecutionRecoveryState)
    ensures from.Rank() <= to.Rank() <==> MayFollow(from, to)
  {}

  /** The files behind every `Ledger` of a device; several ledgers may share them. */
  class AuditFiles {
    var rows: seq<Row>
    var jsonl: seq<AuditRecord>
    var consumed: map<RequestKey, u64>
    var executions: map<RequestKey, ExecutionRecoveryState>

    constructor ()
      ensures rows == [] && jsonl == [] && consumed == map[] && executions == map[]
    {
      rows, jsonl, consumed, executions := [], [], map[], map[];
    }
  }

  predicate Parses(codec: Codec, row: Row) {
    codec.fromJson(row.eventJson).Some?
  }

  predicate HasOutcome(codec: Codec, row: Row, key: RequestKey, outcome: string) {
    && Parses(codec, row)
    && codec.fromJson(row.eventJson).value.Key() == key
    && codec.fromJson(row.eventJson).value.outcome == outcome
  }

  ghost predicate ConsumedIn(codec: Codec, rows: seq<Row>, key: RequestKey) {
    exists i | 0 <= i < |rows| :: HasOutcome(codec, rows[i], key, "approval_consumed")
  }

  /** A row that opening the ledger can take over: it parses, and if it records a consumption its time fits a column. */
  predicate Migrates(codec: Codec, row: Row) {
    && Parses(codec, row)
    && var event := codec.fromJson(row.eventJson).value;
       event.outcome == "approval_consumed" ==> event.timestampUnixMs <= I64_MAX
  }

  ghost predicate AllMigrate(codec: Codec, rows: seq<Row>) {
    forall i | 0 <= i < |rows| :: Migrates(codec, rows[i])
  }

  class Ledger {
    const codec: Codec
    const files: AuditFiles
    var lastSequence: nat
    var lastHash: Digest32

    constructor (codec: Codec, files: AuditFiles, head: Head)
      ensures this.codec == codec && this.files == files
      ensures lastSequence == HeadSequence(head) && lastHash == HeadHash(head)
    {
      this.codec, this.files := codec, files;
      lastSequence, lastHash := HeadSequence(head), HeadHash(head);
    }

    /** Opening migrates old consumptions, then compares the last records of the two stores. */
    static method Open(codec: Codec, files: AuditFiles) returns (r: Result<Ledger, AuditError>)
      modifies files`consumed
      ensures r.Ok? ==> fresh(r.value) && r.value.codec == codec && r.value.files == files
      ensures r.Ok? ==> LoadDbLast(files.rows) == Ok(LoadJsonlLast(files.jsonl))
                        && r.value.lastSequence == HeadSequence(LoadJsonlLast(files.jsonl))
                        && r.value.lastHash == HeadHash(LoadJsonlLast(files.jsonl))
      ensures old(files.consumed.Keys) <= files.consumed.Keys
      ensures forall key | key in old(files.consumed) :: files.consumed[key] == old(files.consumed[key])
      ensures r.Ok? ==> forall key :: key in files.consumed <==>
                          key in old(files.consumed) || ConsumedIn(codec, files.rows, key)
      ensures r.Ok? <==> AllMigrate(codec, files.rows) && LoadDbLast(files.rows) == Ok(LoadJsonlLast(files.jsonl))
    {
      var migrated := MigrateApprovalConsumptions(codec, files);
      if migrated.Err? { return Err(migrated.error); }
      var dbLast := LoadDbLast(files.rows);
      if dbLast.Err? { return Err(dbLast.error); }
      if dbLast.value != LoadJsonlLast(files.jsonl) { return Err(Divergence); }
      var ledger := new Ledger(codec, files, dbLast.value);
      r := Ok(ledger);
    }

    /** Every record of a consumed approval becomes a consumption row, in one pass over the table. */
    static method MigrateApprovalConsumptions(codec: Codec, files: AuditFiles) returns (r: Result<Unit, AuditError>)
      modifies files`consumed
      ensures old(files.consumed.Keys) <= files.consumed.Keys
      ensures forall key | key in old(files.consumed) :: files.consumed[key] == old(files.consumed[key])
      ensures forall key | key in files.consumed :: key in old(files.consumed) || ConsumedIn(codec, files.rows, key)
      ensures r.Ok? ==> forall key | ConsumedIn(codec, files.rows, key) :: key in files.consumed
      ensures r.Ok? <==> AllMigrate(codec, files.rows)
    {
      var i := 0;
      while i < |files.rows|
        invariant 0 <= i <= |files.rows|
        invariant old(files.consumed.Keys) <= files.consumed.Keys
        invariant forall key | key in old(files.consumed) :: files.consumed[key] == old(files.consumed[key])
        invariant forall key | key in files.consumed :: key in old(files.consumed) || ConsumedIn(codec, files.rows, key)
        invariant forall j | 0 <= j < i :: Migrates(codec, files.rows[j])
        invariant forall j, key | 0 <= j < i && HasOutcome(codec, files.rows[j], key, "approval_consumed") ::
                    key in files.consumed
      {
        var event := codec.fromJson(files.rows[i].eventJson);
        if event.None? { return Err(Json); }
        if event.value.outcome == "approval_consumed" {
          if event.value.timestampUnixMs > I64_MAX { return Err(InvalidSequence); }
          var key := event.value.Key();
          assert HasOutcome(codec, files.rows[i], key, "approval_consumed");
          if key !in files.consumed {
            files.consumed := files.consumed[key := event.value.timestampUnixMs];
          }
        }
        i := i + 1;
      }
      r := Ok(Unit.Unit);
    }

    method Append(event: AuditEvent, fault: AppendFault) returns (r: Result<AuditRecord, AuditError>)
      modifies this, files`rows, files`jsonl
      ensures (files.rows, files.jsonl, r) == AppendEffect(codec, old(files.rows), old(files.jsonl), event, fault)
      ensures r.Ok? ==> lastSequence == r.value.sequence && lastHash == r.value.recordHash
    {
      if fault == LockTimesOut { return Err(LockTimeout); }
      var dbLast := LoadDbLast(files.rows);
      if dbLast.Err? { return Err(dbLast.error); }
      var fileLast := LoadJsonlLast(files.jsonl);
      if dbLast.value != fileLast { return Err(Divergence); }
      lastSequence := HeadSequence(dbLast.value);
      lastHash := HeadHash(dbLast.value);
      var sequence := lastSequence + 1;
      var eventJson := codec.toJson(event);
      var recordHash := codec.HashRecord(sequence, lastHash, eventJson);
      var record := AuditRecord(sequence, lastHash, recordHash, event);
      var row := Row(sequence, lastHash, recordHash, eventJson);
      if fault == InsertFails || Conflicts(files.rows, row) { return Err(Sql); }
      if fault == LineFails { return Err(Io); }
      files.jsonl := files.jsonl + [record];
      if fault == SyncFails { return Err(Io); }
      if fault == CommitFails { return Err(Sql); }
      files.rows := files.rows + [row];
      if fault == ReleaseFails { return Err(Io); }
      lastSequence := sequence;
      lastHash := recordHash;
      r := Ok(record);
    }

    /** The full check: it accepts exactly the intact stores, and names the first row that breaks the chain. */
    method VerifyIntegrity() returns (r: Result<Unit, AuditError>)
      ensures r.Ok? <==> Intact(codec, files.rows, files.jsonl)
      ensures r == Err(Divergence) <==>
              Linked(codec, files.rows) && !Mirrors(codec, files.rows, files.jsonl)
      ensures r.Err? && r.error.HashMismatch? ==>
              exists i :: FirstBroken(codec, files.rows, i) && files.rows[i].sequence == r.error.sequence
    {
      var dbRecords := LinkedRecords();
      ReadToMeans(codec, files.rows, |files.rows|);
      if dbRecords.Err? { return Err(dbRecords.error); }
      MirrorsOnlyItsRecords(codec, files.rows, dbRecords.value, files.jsonl);
      if dbRecords.value != files.jsonl {
        return Err(Divergence);
      }
      r := Ok(Unit.Unit);
    }

    /** The records of the table, in one pass that stops at the first row that does not link to the row before it. */
    method LinkedRecords() returns (r: Result<seq<AuditRecord>, AuditError>)
      ensures r == ReadTo(codec, files.rows, |files.rows|)
    {
      var previous: seq<byte> := ZERO_HASH;
      var dbRecords: seq<AuditRecord> := [];
      var i := 0;
      while i < |files.rows|
        invariant 0 <= i <= |files.rows|
        invariant previous == HashBefore(files.rows, i)
        invariant ReadTo(codec, files.rows, i) == Ok(dbRecords)
      {
        var checked := CheckRow(codec, files.rows[i], previous);
        if checked.Err? {
          StaysBroken(codec, files.rows, i + 1, |files.rows|);
          return Err(checked.error);
        }
        dbRecords := dbRecords + [checked.value];
        previous := files.rows[i].recordHash;
        i := i + 1;
      }
      r := Ok(dbRecords);
    }

    /** Whether some record of this request and digest has the outcome; a broken row before it is an error. */
    method HasOutcomeFor(key: RequestKey, outcome: string) returns (r: Result<bool, AuditError>)
      ensures r == Ok(true) <==>
              exists i | 0 <= i < |files.rows| ::
                && HasOutcome(codec, files.rows[i], key, outcome)
                && forall j | 0 <= j < i :: Parses(codec, files.rows[j])
      ensures r == Ok(false) <==>
              forall i | 0 <= i < |files.rows| ::
                Parses(codec, files.rows[i]) && !HasOutcome(codec, files.rows[i], key, outcome)
    {
      var i := 0;
      while i < |files.rows|
        invariant 0 <= i <= |files.rows|
        invariant forall j | 0 <= j < i ::
                    Parses(codec, files.rows[j]) && !HasOutcome(codec, files.rows[j], key, outcome)
      {
        var event := codec.fromJson(files.rows[i].eventJson);
        if event.None? {
          assert !Parses(codec, files.rows[i]);
          return Err(Json);
        }
        if event.value.Key() == key && event.value.outcome == outcome {
          assert HasOutcome(codec, files.rows[i], key, outcome);
          return Ok(true);
        }
        i := i + 1;
      }
      r := Ok(false);
    }

    method ClaimApprovalConsumed(key: RequestKey, now: u64, faulty: bool) returns (r: Result<bool, AuditError>)
      modifies files`consumed, files`executions
      ensures if faulty then r.Err? && files.consumed == old(files.consumed) && files.executions == old(files.executions)
              else (files.consumed, files.executions, r)
                   == ClaimEffect(old(files.consumed), old(files.executions), key, now)
      ensures var claimable := !faulty && now <= 0x7FFF_FFFF_FFFF_FFFF && key !in old(files.consumed) && key !in old(files.executions);
              && (r == Ok(true) <==> claimable)
              && (r == Ok(false) <==> !faulty && now <= 0x7FFF_FFFF_FFFF_FFFF && key in old(files.consumed))
              && files.consumed == (if claimable then old(files.consumed)[key := now] else old(files.consumed))
              && files.executions == (if claimable then old(files.executions)[key := NotExecuted] else old(files.executions))
    {
      if faulty { return Err(Sql); }
      if now > I64_MAX { return Err(InvalidSequence); }
      if key in files.consumed { return Ok(false); }
      if key in files.executions { return Err(Sql); }
      files.consumed := files.consumed[key := now];
      files.executions := files.executions[key := NotExecuted];
      r := Ok(true);
    }

    /** Recovery records only move forward. */
    method SetExecutionRecoveryState(key: RequestKey, state: ExecutionRecoveryState, now: u64, faulty: bool)
      returns (r: Result<Unit, AuditError>)
      modifies files`executions
      ensures r.Ok? <==> !faulty && RecoveryError(old(files.executions), key, state, now).None?
      ensures files.executions == if r.Ok? then old(files.executions)[key := state] else old(files.executions)
      ensures r.Ok? <==> && !faulty && key in old(files.executions) && MayFollow(old(files.executions)[key], state)
                         && now <= 0x7FFF_FFFF_FFFF_FFFF
      ensures !faulty && key !in old(files.executions) ==> r == Err(MissingExecutionState)
      ensures !faulty && key in old(files.executions) && !MayFollow(old(files.executions)[key], state) ==>
                r == Err(InvalidExecutionTransition)
      ensures forall k | k in old(files.executions) ::
                k in files.executions && MayFollow(old(files.executions[k]), files.executions[k])
    {
      if key in files.executions { RankFollows(files.executions[key], state); }
      if faulty { return Err(Sql); }
      var error := RecoveryError(files.executions, key, state, now);
      if error.Some? { return Err(error.value); }
      files.executions := files.executions[key := state];
      r := Ok(Unit.Unit);
    }
  }
}
