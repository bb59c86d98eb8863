/** src/adapters/persistence/mysql-state-persistence-repository.ts and
    src/application/persistence/state-persistence-subscriber.ts: every change of state is written to four
    tables in one transaction, and retried when that fails. SQL statements are steps on maps. */
module StatePersistence {
  import opened Basics
  import S = StateStore
  import N = Notifications
  import Outbox

  datatype HistoryRow = HistoryRow(
    revision: nat, occurredAt: int, cause: S.Command, before: S.Snapshot, after: S.Snapshot)

  datatype SnapshotRow = SnapshotRow(revision: nat, updatedAt: int, snapshot: S.Snapshot)

  datatype CheckpointRow = CheckpointRow(
    revision: nat, taskType: string, taskState: S.TaskState, updatedAt: int, task: S.Task)

  datatype HistoryKey = HistoryKey(runId: string, revision: nat)

  datatype CheckpointKey = CheckpointKey(runId: string, taskId: string)

  datatype Tables = Tables(
    history: map<HistoryKey, HistoryRow>, snapshots: map<string, SnapshotRow>,
    checkpoints: map<CheckpointKey, CheckpointRow>, outbox: Outbox.Records)

  const EMPTY_TABLES := Tables(map[], map[], map[], map[])

  // ---------------------------------------------------------------- the statements

  /** A duplicate key assigns the key to itself. */
  function InsertHistory(t: map<HistoryKey, HistoryRow>, runId: string, e: S.Event): map<HistoryKey, HistoryRow> {
    var key := HistoryKey(runId, e.revision);
    if key in t then t[key := t[key].(revision := e.revision)]
    else t[key := HistoryRow(e.revision, e.occurredAt, e.cause, e.before, e.after)]
  }

  /** ON DUPLICATE KEY UPDATE evaluates its assignments from left to right, each on the row as the one before
      left it; the revision is assigned last. */
  function UpdateSnapshot(row: SnapshotRow, values: SnapshotRow): SnapshotRow {
    var first := if values.revision > row.revision then row.(updatedAt := values.updatedAt) else row;
    var second := if values.revision > first.revision then first.(snapshot := values.snapshot) else first;
    if values.revision > second.revision then second.(revision := values.revision) else second
  }

  function UpsertSnapshot(t: map<string, SnapshotRow>, runId: string, e: S.Event): map<string, SnapshotRow> {
    var values := SnapshotRow(e.revision, e.after.updatedAt, e.after);
    t[runId := if runId in t then UpdateSnapshot(t[runId], values) else values]
  }

  function UpdateCheckpoint(row: CheckpointRow, values: CheckpointRow): CheckpointRow {
    var first := if values.revision > row.revision then row.(taskType := values.taskType) else row;
    var second := if values.revision > first.revision then first.(taskState := values.taskState) else first;
    var third := if values.revision > second.revision then second.(updatedAt := values.updatedAt) else second;
    var fourth := if values.revision > third.revision then third.(task := values.task) else third;
    if values.revision > fourth.revision then fourth.(revision := values.revision) else fourth
  }

  predicate HasCheckpoint(s: S.Snapshot) { s.task.id.Some? && s.task.taskType.Some? && !s.task.state.Idle? }

  type Checkpoints = map<CheckpointKey, CheckpointRow>

  function UpsertCheckpoint(t: Checkpoints, runId: string, s: S.Snapshot): Checkpoints {
    if !HasCheckpoint(s) then t
    else
      var key := CheckpointKey(runId, s.task.id.value);
      var values := CheckpointRow(s.revision, s.task.taskType.value, s.task.state, s.task.updatedAt, s.task);
      t[key := if key in t then UpdateCheckpoint(t[key], values) else values]
  }

  function OutboxRecord(m: N.Message): Outbox.Record {
    var text := N.TextOf(m.kind);
    Outbox.Enqueued(Outbox.Message(m.sourceRevision, text.name, text.severity, m.occurredAt, text.title, text.body))
  }

  function OutboxKey(runId: string, m: N.Message): Outbox.Key { Outbox.Key(runId, N.IdText(m.notificationId)) }

  function InsertOutbox(t: Outbox.Records, runId: string, m: N.Message): Outbox.Records {
    var key := OutboxKey(runId, m);
    if key in t then t else t[key := OutboxRecord(m)]
  }

  /** The whole transaction. */
  function Committed(t: Tables, runId: string, e: S.Event, notification: Option<N.Message>): Tables {
    Tables(InsertHistory(t.history, runId, e),
           UpsertSnapshot(t.snapshots, runId, e),
           UpsertCheckpoint(t.checkpoints, runId, e.after),
           if notification.Some? then InsertOutbox(t.outbox, runId, notification.value) else t.outbox)
  }

  // ---------------------------------------------------------------- tables where the greatest rank wins

  datatype Write<K, V> = Write(key: K, value: V)

  function Put<K, V>(m: map<K, V>, w: Option<Write<K, V>>, rank: V -> int): map<K, V> {
    if w.None? || (w.value.key in m && rank(w.value.value) <= rank(m[w.value.key])) then m
    else m[w.value.key := w.value.value]
  }

  /** A table after entries, each of which may write a row. */
  function Fold<E, K, V>(log: seq<E>, write: E -> Option<Write<K, V>>, rank: V -> int): map<K, V> {
    if log == [] then map[] else Put(Fold(log[..|log| - 1], write, rank), write(log[|log| - 1]), rank)
  }

  predicate Wrote<K(==), V>(w: Option<Write<K, V>>, k: K) { w.Some? && w.value.key == k }

  /** A table holds for each key written the value of greatest rank written there, and nothing else. */
  lemma {:induction false} FoldIsGreatest<E, K, V>(log: seq<E>, write: E -> Option<Write<K, V>>, rank: V -> int, k: K)
    ensures k in Fold(log, write, rank) <==> exists i :: 0 <= i < |log| && Wrote(write(log[i]), k)
    ensures k in Fold(log, write, rank) ==>
              exists i :: && 0 <= i < |log| && Wrote(write(log[i]), k)
                          && write(log[i]).value.value == Fold(log, write, rank)[k]
    ensures forall i :: 0 <= i < |log| && Wrote(write(log[i]), k) ==>
              rank(write(log[i]).value.value) <= rank(Fold(log, write, rank)[k])
  {
    if log != [] {
      var before := log[..|log| - 1];
      FoldIsGreatest(before, write, rank, k);
      assert forall i :: 0 <= i < |before| ==> before[i] == log[i];
      if k in Fold(before, write, rank) {
        var i :| 0 <= i < |before| && Wrote(write(before[i]), k)
                 && write(before[i]).value.value == Fold(before, write, rank)[k];
        assert Wrote(write(log[i]), k);
      }
      if Wrote(write(log[|log| - 1]), k) && k !in Fold(before, write, rank) {
        assert write(log[|log| - 1]).value.value == Fold(log, write, rank)[k];
      }
    }
  }

  predicate Ties<K(==), V>(v: Option<Write<K, V>>, w: Option<Write<K, V>>, rank: V -> int) {
    v.Some? && w.Some? && v.value.key == w.value.key && rank(v.value.value) == rank(w.value.value)
  }

  ghost predicate Settled<E(!new), K(!new), V>(log: seq<E>, write: E -> Option<Write<K, V>>, rank: V -> int) {
    forall a, b :: a in log && b in log && Ties(write(a), write(b), rank) ==> write(a) == write(b)
  }

  /** So, where equal ranks mean equal values, a table depends only on the set of its entries. */
  lemma FoldOfSet<E(!new), K(!new), V>(log: seq<E>, other: seq<E>, write: E -> Option<Write<K, V>>, rank: V -> int)
    requires Settled(log, write, rank)
    requires forall e :: e in log <==> e in other
    ensures Fold(log, write, rank) == Fold(other, write, rank)
  {
    var m, n := Fold(log, write, rank), Fold(other, write, rank);
    forall k ensures k in m <==> k in n ensures k in m && k in n ==> m[k] == n[k] {
      FoldIsGreatest(log, write, rank, k);
      FoldIsGreatest(other, write, rank, k);
      if i :| 0 <= i < |log| && Wrote(write(log[i]), k) { assert log[i] in other; }
      if i :| 0 <= i < |other| && Wrote(write(other[i]), k) { assert other[i] in log; }
      if k in m && k in n {
        var i :| 0 <= i < |log| && Wrote(write(log[i]), k) && write(log[i]).value.value == m[k];
        var j :| 0 <= j < |other| && Wrote(write(other[j]), k) && write(other[j]).value.value == n[k];
        assert log[i] in other && other[j] in log;
      }
    }
  }

  // ---------------------------------------------------------------- logs of committed transactions

  datatype Entry = Entry(runId: string, event: S.Event)

  function HistoryWrite(e: Entry): Option<Write<HistoryKey, HistoryRow>> {
    Some(Write(HistoryKey(e.runId, e.event.revision),
               HistoryRow(e.event.revision, e.event.occurredAt, e.event.cause, e.event.before, e.event.after)))
  }

  function SnapshotWrite(e: Entry): Option<Write<string, SnapshotRow>> {
    Some(Write(e.runId, SnapshotRow(e.event.revision, e.event.after.updatedAt, e.event.after)))
  }

  function CheckpointWrite(e: Entry): Option<Write<CheckpointKey, CheckpointRow>> {
    var s := e.event.after;
    if !HasCheckpoint(s) then None
    else Some(Write(CheckpointKey(e.runId, s.task.id.value),
                    CheckpointRow(s.revision, s.task.taskType.value, s.task.state, s.task.updatedAt, s.task)))
  }

  function OutboxWrite(e: Entry): Option<Write<Outbox.Key, Outbox.Record>> {
    var m := N.Mapped(e.event);
    if m.None? then None else Some(Write(OutboxKey(e.runId, m.value), OutboxRecord(m.value)))
  }

  function SnapshotRank(r: SnapshotRow): int { r.revision }

  function CheckpointRank(r: CheckpointRow): int { r.revision }

  function NoRank<V>(v: V): int { 0 }

  function Replay(log: seq<Entry>): Tables {
    if log == [] then EMPTY_TABLES
    else
      var e := log[|log| - 1];
      Committed(Replay(log[..|log| - 1]), e.runId, e.event, N.Mapped(e.event))
  }

  /** The assignments of an upsert, one after the other, replace the whole row or none of it. */
  lemma UpsertsTakeTheGreater(row: SnapshotRow, values: SnapshotRow, task: CheckpointRow, taskValues: CheckpointRow)
    ensures UpdateSnapshot(row, values) == if values.revision > row.revision then values else row
    ensures UpdateCheckpoint(task, taskValues) == if taskValues.revision > task.revision then taskValues else task
  {
  }

  lemma {:induction false} ReplayIsFold(log: seq<Entry>)
    ensures Replay(log).history == Fold(log, HistoryWrite, NoRank)
    ensures forall k :: k in Replay(log).history ==> Replay(log).history[k].revision == k.revision
    ensures Replay(log).snapshots == Fold(log, SnapshotWrite, SnapshotRank)
    ensures Replay(log).checkpoints == Fold(log, CheckpointWrite, CheckpointRank)
    ensures Replay(log).outbox == Fold(log, OutboxWrite, NoRank)
  {
    if log != [] {
      var e := log[|log| - 1];
      var before := Replay(log[..|log| - 1]);
      ReplayIsFold(log[..|log| - 1]);
      StatementsArePuts(before, e);
    }
  }

  lemma SnapshotIsPut(t: map<string, SnapshotRow>, e: Entry)
    ensures UpsertSnapshot(t, e.runId, e.event) == Put(t, SnapshotWrite(e), SnapshotRank)
  {
    if e.runId in t {
      var values := SnapshotWrite(e).value.value;
      assert UpdateSnapshot(t[e.runId], values) == if values.revision > t[e.runId].revision then values else t[e.runId];
    }
  }

  lemma CheckpointIsPut(t: Checkpoints, e: Entry)
    ensures UpsertCheckpoint(t, e.runId, e.event.after) == Put(t, CheckpointWrite(e), CheckpointRank)
  {
    var w := CheckpointWrite(e);
    if w.Some? && w.value.key in t {
      var row := t[w.value.key];
      assert UpdateCheckpoint(row, w.value.value) ==
             if w.value.value.revision > row.revision then w.value.value else row;
    }
  }

  /** Each statement is a write that wins only with a greater revision. */
  lemma StatementsArePuts(t: Tables, e: Entry)
    requires forall k :: k in t.history ==> t.history[k].revision == k.revision
    ensures InsertHistory(t.history, e.runId, e.event) == Put(t.history, HistoryWrite(e), NoRank)
    ensures UpsertSnapshot(t.snapshots, e.runId, e.event) == Put(t.snapshots, SnapshotWrite(e), SnapshotRank)
    ensures UpsertCheckpoint(t.checkpoints, e.runId, e.event.after) ==
            Put(t.checkpoints, CheckpointWrite(e), CheckpointRank)
    ensures N.Mapped(e.event).Some? ==>
              InsertOutbox(t.outbox, e.runId, N.Mapped(e.event).value) == Put(t.outbox, OutboxWrite(e), NoRank)
  {
    SnapshotIsPut(t.snapshots, e);
    CheckpointIsPut(t.checkpoints, e);
  }

  /** Entries as the store makes them: a run has one event per revision, and it carries its own revision. */
  ghost predicate Coherent(log: seq<Entry>) {
    && (forall e :: e in log ==> e.event.after.revision == e.event.revision)
    && (forall a, b :: a in log && b in log && a.runId == b.runId && a.event.revision == b.event.revision ==> a == b)
  }

  lemma CoherentIsSettled(log: seq<Entry>)
    requires Coherent(log)
    ensures Settled(log, HistoryWrite, NoRank)
    ensures Settled(log, SnapshotWrite, SnapshotRank)
    ensures Settled(log, CheckpointWrite, CheckpointRank)
    ensures Settled(log, OutboxWrite, NoRank)
  {
    forall a, b | a in log && b in log && Ties(OutboxWrite(a), OutboxWrite(b), NoRank)
      ensures OutboxWrite(a) == OutboxWrite(b)
    {
      N.IdReadsBack(N.Mapped(a.event).value.notificationId);
      N.IdReadsBack(N.Mapped(b.event).value.notificationId);
    }
  }

  /** The tables depend only on which events were committed: not on their order, and not on how often. */
  lemma SameEventsSameTables(log: seq<Entry>, other: seq<Entry>)
    requires Coherent(log)
    requires forall e :: e in log <==> e in other
    ensures Replay(log) == Replay(other)
  {
    CoherentIsSettled(log);
    FoldOfSet(log, other, HistoryWrite, NoRank);
    FoldOfSet(log, other, SnapshotWrite, SnapshotRank);
    FoldOfSet(log, other, CheckpointWrite, CheckpointRank);
    FoldOfSet(log, other, OutboxWrite, NoRank);
    ReplayIsFold(log);
    ReplayIsFold(other);
  }

  predicate Carries(e: Entry, key: CheckpointKey) {
    HasCheckpoint(e.event.after) && CheckpointKey(e.runId, e.event.after.task.id.value) == key
  }

  /** The snapshot of a run is the state after its greatest committed revision. */
  lemma SnapshotIsLatest(log: seq<Entry>, runId: string)
    ensures runId in Replay(log).snapshots <==> exists e :: e in log && e.runId == runId
    ensures runId in Replay(log).snapshots ==>
              exists e :: && e in log && e.runId == runId
                          && Replay(log).snapshots[runId].revision == e.event.revision
                          && Replay(log).snapshots[runId].updatedAt == e.event.after.updatedAt
                          && Replay(log).snapshots[runId].snapshot == e.event.after
                          && forall d :: d in log && d.runId == runId ==> d.event.revision <= e.event.revision
  {
    ReplayIsFold(log);
    FoldIsGreatest(log, SnapshotWrite, SnapshotRank, runId);
    forall d | d in log && d.runId == runId
      ensures runId in Replay(log).snapshots && d.event.revision <= Replay(log).snapshots[runId].revision
    {
      var i :| 0 <= i < |log| && log[i] == d;
      assert Wrote(SnapshotWrite(log[i]), runId);
    }
  }

  /** The checkpoint of a task is its state after the greatest committed revision that carries the task. */
  lemma CheckpointIsLatest(log: seq<Entry>, key: CheckpointKey)
    requires Coherent(log)
    ensures key in Replay(log).checkpoints <==> exists e :: e in log && Carries(e, key)
    ensures forall e :: Carries(e, key) <==>
              && e.runId == key.runId && e.event.after.task.id == Some(key.taskId)
              && e.event.after.task.taskType.Some? && e.event.after.task.state != S.Idle
    ensures key in Replay(log).checkpoints ==>
              exists e :: && e in log && Carries(e, key)
                          && Replay(log).checkpoints[key].revision == e.event.revision
                          && Replay(log).checkpoints[key].task == e.event.after.task
                          && Replay(log).checkpoints[key].taskState == e.event.after.task.state
                          && Replay(log).checkpoints[key].updatedAt == e.event.after.task.updatedAt
                          && Some(Replay(log).checkpoints[key].taskType) == e.event.after.task.taskType
                          && forall d :: d in log && Carries(d, key) ==> d.event.revision <= e.event.revision
  {
    ReplayIsFold(log);
    FoldIsGreatest(log, CheckpointWrite, CheckpointRank, key);
    forall d | d in log && Carries(d, key)
      ensures key in Replay(log).checkpoints && d.event.revision <= Replay(log).checkpoints[key].revision
    {
      var i :| 0 <= i < |log| && log[i] == d;
      assert Wrote(CheckpointWrite(log[i]), key);
    }
    if key in Replay(log).checkpoints {
      var i :| 0 <= i < |log| && Wrote(CheckpointWrite(log[i]), key)
               && CheckpointWrite(log[i]).value.value == Fold(log, CheckpointWrite, CheckpointRank)[key];
      assert log[i] in log && Carries(log[i], key);
    }
  }

  /** The history holds every committed event, by run and revision, as it was. */
  lemma HistoryIsTheEvents(log: seq<Entry>, key: HistoryKey)
    ensures key in Replay(log).history <==>
              exists e :: e in log && e.runId == key.runId && e.event.revision == key.revision
    ensures key in Replay(log).history ==>
              exists e :: && e in log && e.runId == key.runId && e.event.revision == key.revision
                          && Replay(log).history[key].revision == e.event.revision
                          && Replay(log).history[key].occurredAt == e.event.occurredAt
                          && Replay(log).history[key].cause == e.event.cause
                          && Replay(log).history[key].before == e.event.before
                          && Replay(log).history[key].after == e.event.after
  {
    ReplayIsFold(log);
    FoldIsGreatest(log, HistoryWrite, NoRank, key);
    if e :| e in log && e.runId == key.runId && e.event.revision == key.revision {
      var i :| 0 <= i < |log| && log[i] == e;
      assert Wrote(HistoryWrite(log[i]), key);
    }
    if key in Replay(log).history {
      var i :| 0 <= i < |log| && Wrote(HistoryWrite(log[i]), key)
               && HistoryWrite(log[i]).value.value == Fold(log, HistoryWrite, NoRank)[key];
      assert log[i] in log;
    }
  }

  /** An untouched record that carries revision, time and texts of what the event tells. */
  predicate RecordTells(r: Outbox.Record, e: S.Event) {
    && N.Mapped(e).Some?
    && var m, text := r.message, N.TextOf(N.Mapped(e).value.kind);
    && m.sourceRevision == e.revision && m.occurredAt == e.occurredAt
    && m.kind == text.name && m.severity == text.severity && m.title == text.title && m.body == text.body
    && Outbox.Untouched(r)
  }

  lemma WrittenTells(e: Entry)
    ensures OutboxWrite(e).Some? ==> RecordTells(OutboxWrite(e).value.value, e.event)
  {
  }

  /** Before any delivery, the outbox holds a record for every committed event that has something to tell. */
  lemma OutboxIsWhatIsTold(log: seq<Entry>, key: Outbox.Key)
    ensures key in Replay(log).outbox <==> exists e :: e in log && TellsAs(e, key)
    ensures key in Replay(log).outbox ==>
              exists e :: e in log && TellsAs(e, key) && RecordTells(Replay(log).outbox[key], e.event)
  {
    ReplayIsFold(log);
    FoldIsGreatest(log, OutboxWrite, NoRank, key);
    if e :| e in log && TellsAs(e, key) {
      var i :| 0 <= i < |log| && log[i] == e;
      assert Wrote(OutboxWrite(log[i]), key);
    }
    if key in Replay(log).outbox {
      var i :| 0 <= i < |log| && Wrote(OutboxWrite(log[i]), key)
               && OutboxWrite(log[i]).value.value == Fold(log, OutboxWrite, NoRank)[key];
      WrittenTells(log[i]);
      assert log[i] in log && TellsAs(log[i], key) && RecordTells(Replay(log).outbox[key], log[i].event);
    }
  }

  /** The event tells something, under that key. */
  predicate TellsAs(e: Entry, key: Outbox.Key) {
    N.Mapped(e.event).Some? && key == Outbox.Key(e.runId, N.IdText(N.Mapped(e.event).value.notificationId))
  }

  /** A transaction leaves every outbox record that is there as its deliveries have left it. */
  lemma OutboxRecordsStay(t: Tables, runId: string, e: S.Event, notification: Option<N.Message>, key: Outbox.Key)
    ensures key in t.outbox ==>
              && key in Committed(t, runId, e, notification).outbox
              && Committed(t, runId, e, notification).outbox[key] == t.outbox[key]
    ensures key !in t.outbox && key in Committed(t, runId, e, notification).outbox ==>
              && notification.Some? && key == OutboxKey(runId, notification.value)
              && Outbox.Untouched(Committed(t, runId, e, notification).outbox[key])
  {
  }

  lemma CommittingAgain(t: Tables, runId: string, e: S.Event, notification: Option<N.Message>)
    requires forall k :: k in t.history ==> t.history[k].revision == k.revision
    ensures Committed(Committed(t, runId, e, notification), runId, e, notification) ==
            Committed(t, runId, e, notification)
  {
  }

  /** Whatever each run's store went through, its events are coherent. */
  lemma StoreRunsAreCoherent(log: seq<Entry>, at: string -> int, runs: string -> seq<S.Dispatch>)
    requires forall e :: e in log ==> e.event in N.EventsOf(S.Initial(at(e.runId)), runs(e.runId))
    ensures Coherent(log)
  {
    forall e | e in log
      ensures e.event.after.revision == e.event.revision
      ensures 1 <= e.event.revision <= |N.EventsOf(S.Initial(at(e.runId)), runs(e.runId))|
      ensures N.EventsOf(S.Initial(at(e.runId)), runs(e.runId))[e.event.revision - 1] == e.event
    {
      N.EventsAreNumbered(S.Initial(at(e.runId)), runs(e.runId));
    }
  }

  // ---------------------------------------------------------------- the repository

  datatype ErrorKind = Transient | Fatal

  /** How the database answers one transaction. An answer may be lost after the commit. */
  datatype Answer = Commits | RollsBack(error: ErrorKind) | AnswerLost(error: ErrorKind)

  /** What a caller is told: nothing reaches the database of a closed repository or for an unknown run. */
  function Told(answer: Answer, reachable: bool): Result<(), ErrorKind> {
    if !reachable then Err(Fatal) else if answer.Commits? then Ok(()) else Err(answer.error)
  }

  /** The same but for the delivery columns of the outbox. */
  ghost predicate Agrees(t: Tables, u: Tables) {
    && t.history == u.history && t.snapshots == u.snapshots && t.checkpoints == u.checkpoints
    && t.outbox.Keys == u.outbox.Keys
    && forall k :: k in t.outbox ==> t.outbox[k].message == u.outbox[k].message
  }

  lemma CommittedAgrees(t: Tables, u: Tables, runId: string, e: S.Event, notification: Option<N.Message>)
    requires Agrees(t, u)
    ensures Agrees(Committed(t, runId, e, notification), Committed(u, runId, e, notification))
  {
  }

  ghost predicate Replays(log: seq<Entry>, t: Tables) { t == Replay(log) }

  lemma ReplayOneMore(log: seq<Entry>, e: Entry)
    ensures Replay(log + [e]) == Committed(Replay(log), e.runId, e.event, N.Mapped(e.event))
  {
    assert (log + [e])[..|log|] == log;
  }

  class MySqlStatePersistenceRepository {
    var closed: bool
    var runs: map<string, int>
    var history: map<HistoryKey, HistoryRow>
    var snapshots: map<string, SnapshotRow>
    var checkpoints: map<CheckpointKey, CheckpointRow>
    var outbox: Outbox.Records
    /** The transactions committed so far. */
    ghost var log: seq<Entry>

    constructor ()
      ensures Valid() && !closed && runs == map[] && log == []
    {
      closed, runs, history, snapshots, checkpoints, outbox, log := false, map[], map[], map[], map[], map[], [];
    }

    ghost function Contents(): Tables
      reads this
    {
      Tables(history, snapshots, checkpoints, outbox)
    }

    /** All but the delivery columns of the outbox is what the committed events say. The relation stands for
        the fold where a proof has no need to unfold it. */
    ghost predicate Valid()
      reads this
    {
      forall t :: Replays(log, t) ==> Agrees(Contents(), t)
    }

    method Initialize(runId: string, startedAt: int) returns (r: Result<(), ErrorKind>)
      requires Valid()
      modifies this`runs
      ensures Valid()
      ensures r.Err? <==> closed
      ensures runs == if closed || runId in old(runs) then old(runs) else old(runs)[runId := startedAt]
    {
      if closed { return Err(Fatal); }
      if runId !in runs { runs := runs[runId := startedAt]; }
      r := Ok(());
    }

    method Execute(runId: string, e: S.Event, notification: Option<N.Message>)
      modifies this`history, this`snapshots, this`checkpoints, this`outbox
      ensures Contents() == Committed(old(Contents()), runId, e, notification)
      ensures forall k :: k in old(outbox) ==> k in outbox && outbox[k] == old(outbox[k])
    {
      history := InsertHistory(history, runId, e);
      snapshots := UpsertSnapshot(snapshots, runId, e);
      checkpoints := UpsertCheckpoint(checkpoints, runId, e.after);
      if notification.Some? { outbox := InsertOutbox(outbox, runId, notification.value); }
    }

    /** Every row refers to its run, so nothing can be inserted for a run that was not initialised. */
    method Persist(runId: string, e: S.Event, answer: Answer) returns (r: Result<(), ErrorKind>)
      requires Valid()
      modifies this`history, this`snapshots, this`checkpoints, this`outbox, this`log
      ensures Valid()
      ensures var commits := !closed && runId in runs && !answer.RollsBack?;
              && (!commits ==> Contents() == old(Contents()))
              && log == old(log) + (if commits then [Entry(runId, e)] else [])
      ensures r == Told(answer, !closed && runId in runs)
      ensures forall k :: k in old(outbox) ==> k in outbox && outbox[k] == old(outbox[k])
    {
      if closed || runId !in runs { return Err(Fatal); }
      if answer.RollsBack? { return Err(answer.error); }
      assert Replays(log, Replay(log));
      CommittedAgrees(Contents(), Replay(log), runId, e, N.Mapped(e));
      ReplayOneMore(log, Entry(runId, e));
      log := log + [Entry(runId, e)];
      Execute(runId, e, N.Mapped(e));
      r := if answer.Commits? then Ok(()) else Err(answer.error);
    }

    /** The dispatchers move records on; they neither add nor drop one, nor change its message. */
    method OutboxWorked(next: Outbox.Records)
      requires Valid() && next.Keys == outbox.Keys && forall k :: k in next ==> next[k].message == outbox[k].message
      modifies this`outbox
      ensures Valid() && outbox == next
    {
      outbox := next;
    }

    method Close()
      modifies this`closed
      ensures closed
    {
      closed := true;
    }
  }

  // ---------------------------------------------------------------- the subscriber

  /** One attempt: the database's answer, and whether the subscriber is closed during it or in the wait
      that follows. */
  datatype Attempt = Attempt(answer: Answer, closesMeanwhile: bool, closesInWait: bool)

  datatype Ending = Acknowledged(attempts: nat) | Reported(attempts: nat, error: ErrorKind) | Dropped(attempts: nat)

  ghost predicate OnlyMore(before: seq<Entry>, now: seq<Entry>, e: Entry) {
    before <= now && forall i :: |before| <= i < |now| ==> now[i] == e
  }

  /** How one attempt ends the retries, if it does. */
  function EndsAt(a: Attempt, tried: nat, last: bool, reachable: bool, closed: bool): (ending: Option<Ending>)
    ensures ending.Some? ==> ending.value.attempts == tried + 1 && !ending.value.Dropped?
    ensures ending.None? ==> !closed && !last
  {
    match Told(a.answer, reachable)
    case Ok(_) => Some(Acknowledged(tried + 1))
    case Err(error) =>
      if error.Fatal? || last || closed || a.closesMeanwhile then Some(Reported(tried + 1, error)) else None
  }

  /** How the retries end from the next attempt on. */
  function EndsAs(attempts: seq<Attempt>, tried: nat, maxAttempts: nat, reachable: bool, closed: bool): Ending
    requires tried < maxAttempts <= |attempts|
    decreases maxAttempts - tried
  {
    match EndsAt(attempts[tried], tried, tried + 1 == maxAttempts, reachable, closed)
    case Some(ending) => ending
    case None =>
      if attempts[tried].closesInWait then Dropped(tried + 1)
      else EndsAs(attempts, tried + 1, maxAttempts, reachable, false)
  }

  /** It fails in a way worth retrying, and the subscriber stays open during it. */
  predicate FailsOpen(a: Attempt) {
    !a.answer.Commits? && a.answer.error.Transient? && !a.closesMeanwhile
  }

  predicate GoesOn(a: Attempt) { FailsOpen(a) && !a.closesInWait }

  ghost predicate GoOnBetween(attempts: seq<Attempt>, from: nat, to: nat) {
    forall i :: from <= i < to && i < |attempts| ==> GoesOn(attempts[i])
  }

  lemma {:induction false} EndingFrom(attempts: seq<Attempt>, from: nat, maxAttempts: nat, reachable: bool)
    requires from < maxAttempts <= |attempts|
    ensures var ending := EndsAs(attempts, from, maxAttempts, reachable, false);
            && from < ending.attempts <= maxAttempts
            && GoOnBetween(attempts, from, ending.attempts - 1)
            && var a := attempts[ending.attempts - 1];
            && (ending.Acknowledged? <==> reachable && a.answer.Commits?)
            && (ending.Dropped? <==>
                  reachable && FailsOpen(a) && a.closesInWait && ending.attempts < maxAttempts)
            && (ending.Reported? ==> ending.error.Fatal? || ending.attempts == maxAttempts || a.closesMeanwhile)
    decreases maxAttempts - from
  {
    var a := attempts[from];
    if EndsAt(a, from, from + 1 == maxAttempts, reachable, false).None? && !a.closesInWait {
      EndingFrom(attempts, from + 1, maxAttempts, reachable);
    }
  }

  /** The attempt before the one in whose wait the subscriber is closed all failed and left it open. */
  ghost predicate ClosedInWait(attempts: seq<Attempt>, n: nat) {
    n < |attempts| && GoOnBetween(attempts, 0, n) && FailsOpen(attempts[n]) && attempts[n].closesInWait
  }

  /** An event goes without acknowledgement or report exactly if the subscriber, open until then, is closed in
      the wait after an attempt that is not the last, where all attempts so far failed transiently. */
  lemma DroppedExactly(attempts: seq<Attempt>, maxAttempts: nat, reachable: bool, closed: bool)
    requires 1 <= maxAttempts <= |attempts|
    ensures EndsAs(attempts, 0, maxAttempts, reachable, closed).Dropped? <==>
              !closed && reachable && exists n: nat :: n + 1 < maxAttempts && ClosedInWait(attempts, n)
  {
    if !closed {
      EndingFrom(attempts, 0, maxAttempts, reachable);
      var ending := EndsAs(attempts, 0, maxAttempts, reachable, false);
      var last := ending.attempts - 1;
      if ending.Dropped? {
        assert ClosedInWait(attempts, last);
      } else {
        forall n: nat | n + 1 < maxAttempts && reachable ensures !ClosedInWait(attempts, n) {
          if ClosedInWait(attempts, n) {
            DropsAt(attempts, 0, n, maxAttempts);
          }
        }
      }
    }
  }

  lemma {:induction false} DropsAt(attempts: seq<Attempt>, from: nat, n: nat, maxAttempts: nat)
    requires from <= n && n + 1 < maxAttempts <= |attempts|
    requires GoOnBetween(attempts, from, n) && FailsOpen(attempts[n]) && attempts[n].closesInWait
    ensures EndsAs(attempts, from, maxAttempts, true, false) == Dropped(n + 1)
    decreases n - from
  {
    if from < n {
      assert GoesOn(attempts[from]);
      DropsAt(attempts, from + 1, n, maxAttempts);
    }
  }

  /** The committed transactions after the first n attempts. */
  function LogAfter(log: seq<Entry>, e: Entry, attempts: seq<Attempt>, n: nat, reachable: bool): seq<Entry>
    requires n <= |attempts|
  {
    if n == 0 then log
    else
      LogAfter(log, e, attempts, n - 1, reachable)
      + if reachable && !attempts[n - 1].answer.RollsBack? then [e] else []
  }

  lemma {:induction false} NothingElseIsLogged(log: seq<Entry>, e: Entry, attempts: seq<Attempt>, n: nat,
                                               reachable: bool)
    requires n <= |attempts|
    ensures OnlyMore(log, LogAfter(log, e, attempts, n, reachable), e)
    ensures |LogAfter(log, e, attempts, n, reachable)| <= |log| + n
  {
    if n > 0 { NothingElseIsLogged(log, e, attempts, n - 1, reachable); }
  }

  /** All attempts before the last failed in a way worth retrying and left the subscriber open; what is
      acknowledged is stored; and a failure is reported only if no attempt may follow it. */
  lemma EndingMeans(log: seq<Entry>, e: Entry, attempts: seq<Attempt>, maxAttempts: nat, reachable: bool, closed: bool)
    requires 1 <= maxAttempts <= |attempts|
    ensures var ending := EndsAs(attempts, 0, maxAttempts, reachable, closed);
            && 1 <= ending.attempts <= maxAttempts && (closed ==> ending.attempts == 1)
            && GoOnBetween(attempts, 0, ending.attempts - 1)
            && (ending.Acknowledged? ==> e in LogAfter(log, e, attempts, ending.attempts, reachable))
            && (ending.Reported? ==>
                  || ending.error.Fatal? || ending.attempts == maxAttempts
                  || closed || attempts[ending.attempts - 1].closesMeanwhile)
  {
    if !closed {
      EndingFrom(attempts, 0, maxAttempts, reachable);
    }
    var ending := EndsAs(attempts, 0, maxAttempts, reachable, closed);
    if ending.Acknowledged? {
      assert attempts[ending.attempts - 1].answer.Commits?;
      var logged := LogAfter(log, e, attempts, ending.attempts, reachable);
      assert logged[|logged| - 1] == e;
    }
  }

  /** The waits after the first n attempts. */
  function Backoffs(n: nat): seq<int> { if n == 0 then [] else Backoffs(n - 1) + [100 * Power2(n - 1)] }

  class StatePersistenceSubscriber {
    const repository: MySqlStatePersistenceRepository
    const runId: string
    const maxAttempts: int
    var lastAccepted: int
    var closed: bool
    /** The events whose turn has not come yet. */
    var tail: seq<S.Event>
    /** The waits for the present or latest event. */
    ghost var waits: seq<int>

    constructor (repository: MySqlStatePersistenceRepository, runId: string, maxAttempts: int)
      requires 1 <= maxAttempts <= 10
      ensures Valid() && tail == [] && !closed && lastAccepted == -1 && waits == []
      ensures this.repository == repository && this.runId == runId && this.maxAttempts == maxAttempts
    {
      this.repository, this.runId, this.maxAttempts := repository, runId, maxAttempts;
      lastAccepted, closed, tail, waits := -1, false, [], [];
    }

    /** Events wait in the order of their revisions. */
    ghost predicate Valid()
      reads this
    {
      && 1 <= maxAttempts <= 10
      && (forall i :: 0 <= i < |tail| ==> tail[i].revision <= lastAccepted)
      && (forall i, j :: 0 <= i < j < |tail| ==> tail[i].revision < tail[j].revision)
    }

    method Accept(e: S.Event)
      requires Valid()
      modifies this`lastAccepted, this`tail
      ensures Valid()
      ensures var taken := !closed && e.revision > old(lastAccepted);
              && tail == old(tail) + (if taken then [e] else [])
              && lastAccepted == if taken then e.revision else old(lastAccepted)
    {
      if closed || e.revision <= lastAccepted { return; }
      lastAccepted := e.revision;
      tail := tail + [e];
    }

    ghost predicate Reachable()
      reads repository
    {
      !repository.closed && runId in repository.runs
    }

    /** One more attempt, and the wait after it unless it was the last. */
    method Try(e: S.Event, attempt: Attempt, before: nat) returns (ending: Option<Ending>)
      requires repository.Valid() && before < maxAttempts
      modifies this`closed, this`waits, repository`history, repository`snapshots, repository`checkpoints,
               repository`outbox, repository`log
      ensures repository.Valid()
      ensures repository.log ==
              old(repository.log) + if Reachable() && !attempt.answer.RollsBack? then [Entry(runId, e)] else []
      ensures ending == EndsAt(attempt, before, before + 1 == maxAttempts, Reachable(), old(closed))
      ensures closed == if ending.Some? then old(closed) || attempt.closesMeanwhile else attempt.closesInWait
      ensures waits == old(waits) + if ending.Some? then [] else [100 * Power2(before)]
    {
      var r := repository.Persist(runId, e, attempt.answer);
      closed := closed || attempt.closesMeanwhile;
      if r.Ok? { return Some(Acknowledged(before + 1)); }
      if r.error.Fatal? || before + 1 >= maxAttempts || closed { return Some(Reported(before + 1, r.error)); }
      waits := waits + [100 * Power2(before)];
      closed := attempt.closesInWait;
      return None;
    }

    /** Answers and closes decide how it ends, and each attempt stores the event as a whole or not at all. */
    method Retry(e: S.Event, attempts: seq<Attempt>) returns (ending: Ending)
      requires 1 <= maxAttempts <= |attempts| && repository.Valid()
      modifies this`closed, this`waits, repository`history, repository`snapshots, repository`checkpoints,
               repository`outbox, repository`log
      ensures repository.Valid()
      ensures ending == EndsAs(attempts, 0, maxAttempts, Reachable(), old(closed))
      ensures ending.attempts <= maxAttempts
      ensures repository.log ==
              LogAfter(old(repository.log), Entry(runId, e), attempts, ending.attempts, Reachable())
      ensures ending.Dropped? || old(closed) ==> closed
      ensures ending.attempts > 0
      ensures ending.Reported? && attempts[ending.attempts - 1].closesMeanwhile ==> closed
      ensures waits == Backoffs(if ending.Dropped? then ending.attempts else ending.attempts - 1)
    {
      ghost var reachable, ends := Reachable(), EndsAs(attempts, 0, maxAttempts, Reachable(), closed);
      waits := [];
      var tried := 0;
      while tried < maxAttempts && (tried == 0 || !closed)
        invariant 0 <= tried < maxAttempts && repository.Valid() && Reachable() == reachable
        invariant if tried == 0 then closed == old(closed) else !old(closed)
        invariant ends == if tried > 0 && closed then Dropped(tried)
                          else EndsAs(attempts, tried, maxAttempts, reachable, closed)
        invariant repository.log == LogAfter(old(repository.log), Entry(runId, e), attempts, tried, reachable)
        invariant waits == Backoffs(tried)
      {
        var r := Try(e, attempts[tried], tried);
        tried := tried + 1;
        if r.Some? {
          ending := r.value;
          assert ending == ends && ending.attempts == tried;
          return;
        }
      }
      ending := Dropped(tried);
    }

    /** What is acknowledged is stored; an event that is neither acknowledged nor reported is dropped, and that
        exactly if the subscriber is closed in the wait after a failure it would have retried. */
    method PersistWithRetry(e: S.Event, attempts: seq<Attempt>) returns (ending: Ending)
      requires 1 <= maxAttempts <= |attempts| && repository.Valid()
      modifies this`closed, this`waits, repository`history, repository`snapshots, repository`checkpoints,
               repository`outbox, repository`log
      ensures repository.Valid()
      ensures ending == EndsAs(attempts, 0, maxAttempts, Reachable(), old(closed))
      ensures ending.Dropped? <==>
                !old(closed) && Reachable() && exists n: nat :: n + 1 < maxAttempts && ClosedInWait(attempts, n)
      ensures 1 <= ending.attempts <= maxAttempts && GoOnBetween(attempts, 0, ending.attempts - 1)
      ensures repository.log ==
              LogAfter(old(repository.log), Entry(runId, e), attempts, ending.attempts, Reachable())
      ensures OnlyMore(old(repository.log), repository.log, Entry(runId, e))
      ensures ending.Acknowledged? ==> Entry(runId, e) in repository.log
      ensures ending.Reported? ==> ending.error.Fatal? || ending.attempts == maxAttempts || closed
      ensures ending.Dropped? || old(closed) ==> closed
      ensures old(closed) ==> ending.attempts == 1
      ensures waits == Backoffs(if ending.Dropped? then ending.attempts else ending.attempts - 1)
    {
      ghost var logged, wasClosed := repository.log, closed;
      ending := Retry(e, attempts);
      DroppedExactly(attempts, maxAttempts, Reachable(), wasClosed);
      EndingMeans(logged, Entry(runId, e), attempts, maxAttempts, Reachable(), wasClosed);
      NothingElseIsLogged(logged, Entry(runId, e), attempts, ending.attempts, Reachable());
    }

    /** The first of the waiting events is persisted before the next is begun. */
    method PersistNext(attempts: seq<Attempt>) returns (ending: Ending)
      requires Valid() && tail != [] && maxAttempts <= |attempts| && repository.Valid()
      modifies this`tail, this`closed, this`waits, repository`history, repository`snapshots, repository`checkpoints,
               repository`outbox, repository`log
      ensures Valid() && repository.Valid() && tail == old(tail)[1..]
      ensures OnlyMore(old(repository.log), repository.log, Entry(runId, old(tail)[0]))
      ensures ending.Acknowledged? ==> Entry(runId, old(tail)[0]) in repository.log
    {
      var e := tail[0];
      tail := tail[1..];
      ending := PersistWithRetry(e, attempts);
    }

    method Close()
      requires Valid()
      modifies this`closed
      ensures Valid() && closed
    {
      closed := true;
    }
  }

  /** Closed in the wait after the first of two attempts: nobody hears of the event again. */
  method DroppedInItsWait(e: S.Event) returns (s: StatePersistenceSubscriber, ending: Ending)
    ensures s.maxAttempts == 2 && ending == Dropped(1) && s.repository.log == [] && s.Reachable()
  {
    var repository := new MySqlStatePersistenceRepository();
    var _ := repository.Initialize("run", 0);
    s := new StatePersistenceSubscriber(repository, "run", 2);
    var attempts := [Attempt(RollsBack(Transient), false, true), Attempt(Commits, false, false)];
    ending := s.PersistWithRetry(e, attempts);
  }
}
