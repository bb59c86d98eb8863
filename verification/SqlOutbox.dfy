/** src/adapters/persistence/mysql-notification-outbox-repository.ts: the same outbox in SQL. Each statement is
    an atomic step on the rows; an UPDATE assigns its columns from left to right; NULL is None. */
module SqlOutbox {
  import opened Basics
  import opened Outbox
  import OutboxRuns

  datatype SqlError = PoolClosed | BadRange | LockUnavailable

  /** attempts >= max_delivery_attempts as a condition: a comparison with NULL counts as false. */
  predicate Exhausted(r: Record) { r.maxAttempts.Some? && r.attempts >= r.maxAttempts.value }

  function SqlFailedRecord(r: Record, failedAt: int, next: Option<int>, code: string): Record {
    r.(status := if Exhausted(r) then Failed else Pending,
       nextAttemptAt := if Exhausted(r) then None else if next.Some? then next else Some(failedAt),
       leaseOwner := None, leaseExpiresAt := None, lastErrorCode := Some(code))
  }

  function SqlMarkFailedStep(m: Records, k: Key, workerId: string, failedAt: int, next: Option<int>, code: string)
    : Records
  {
    if Holds(m, k, workerId) then m[k := SqlFailedRecord(m[k], failedAt, next, code)] else m
  }

  /** What the SELECT after the UPDATE reports, from the rows that it finds. */
  function Reported(m: Records, k: Key): Option<Status> {
    if k in m && (m[k].status.Pending? || m[k].status.Failed?) then Some(m[k].status) else None
  }

  class MySqlOutbox {
    var rows: Records
    var closed: bool

    constructor (rows: Records)
      ensures this.rows == rows && !closed
    {
      this.rows, closed := rows, false;
    }

    /** One transaction under a named lock; on every table it does exactly what the in-memory claim does. */
    method ClaimNext(c: ClaimCall, lockAcquired: bool) returns (r: Result<Option<(Key, Record)>, SqlError>)
      modifies this`rows
      ensures r.Ok? <==> !closed && c.leaseDurationMs > 0 && c.maxAttempts > 0 && lockAcquired
      ensures r.Err? ==> rows == old(rows)
      ensures r.Err? ==>
                r.error == if closed then PoolClosed else if !Sensible(c) then BadRange else LockUnavailable
      ensures r.Ok? ==> ClaimStep(old(rows), c, rows, r.value)
      ensures r.Ok? ==> TakesWhatIsDue(old(rows), c, rows, r.value)
      ensures r.Ok? && r.value.Some? ==> TakesTheFirst(old(rows), r.value.value.0)
      ensures forall k :: r.Ok? && IsHead(old(rows), k) && old(rows)[k].status.Delivering? ==>
                old(rows)[k].leaseExpiresAt.Some? && old(rows)[k].leaseExpiresAt.value > c.now ==>
                  r.value.None? && rows == old(rows)
    {
      ghost var before := rows;
      r := ClaimHead(c, lockAcquired);
      if r.Ok? { LiveLeaseIsLeft(before, c, rows, r.value); }
    }

    method ClaimHead(c: ClaimCall, lockAcquired: bool) returns (r: Result<Option<(Key, Record)>, SqlError>)
      modifies this`rows
      ensures r.Ok? <==> !closed && c.leaseDurationMs > 0 && c.maxAttempts > 0 && lockAcquired
      ensures r.Err? ==> rows == old(rows)
      ensures r.Err? ==>
                r.error == if closed then PoolClosed else if !Sensible(c) then BadRange else LockUnavailable
      ensures r.Ok? ==> ClaimStep(old(rows), c, rows, r.value)
    {
      if closed { return Err(PoolClosed); }
      if !Sensible(c) { return Err(BadRange); }
      if !lockAcquired { return Err(LockUnavailable); }
      if forall k :: k in rows ==> !Open(rows[k]) { return Ok(None); }
      ghost var any :| any in rows && Open(rows[any]);
      ghost var head := HeadExists(rows, any);
      var k :| k in rows && Open(rows[k])
               && forall j :: j in rows && Open(rows[j]) && j != k ==> Before(rows, k, j);
      assert IsHead(rows, k);
      forall j | IsHead(rows, j) ensures j == k { HeadUnique(rows, j, k); }
      if !Available(rows[k], c.now) {
        assert rows == rows[k := rows[k]];
        return Ok(None);
      }
      var limit := if rows[k].maxAttempts.Some? then rows[k].maxAttempts.value else c.maxAttempts;
      if rows[k].attempts >= limit {
        var row := UpdateExhausted(rows[k], limit);
        rows := rows[k := row];
        return Ok(None);
      }
      var row := UpdateClaimed(rows[k], c);
      rows := rows[k := row];
      r := Ok(Some((k, rows[k])));
    }

    static method UpdateExhausted(before: Record, limit: int) returns (row: Record)
      ensures row == before.(status := Failed, maxAttempts := Some(limit), leaseOwner := None, leaseExpiresAt := None)
    {
      row := before.(status := Failed);
      row := row.(maxAttempts := Some(limit));
      row := row.(leaseOwner := None);
      row := row.(leaseExpiresAt := None);
    }

    static method UpdateClaimed(before: Record, c: ClaimCall) returns (row: Record)
      requires Claims(before, c)
      ensures row == ClaimRecord(before, c)
    {
      row := before.(status := Delivering);
      row := row.(attempts := row.attempts + 1);
      row := row.(maxAttempts := if row.maxAttempts.Some? then row.maxAttempts else Some(c.maxAttempts));
      row := row.(nextAttemptAt := None);
      row := row.(leaseOwner := Some(c.workerId));
      row := row.(leaseExpiresAt := Some(c.now + c.leaseDurationMs));
      row := row.(lastErrorCode := None);
    }

    method MarkDelivered(k: Key, workerId: string, at: int) returns (r: Result<bool, SqlError>)
      modifies this`rows
      ensures r == if closed then Err(PoolClosed) else Ok(Holds(old(rows), k, workerId))
      ensures rows == if closed then old(rows) else MarkDeliveredStep(old(rows), k, workerId, at)
    {
      if closed { return Err(PoolClosed); }
      var affected := Holds(rows, k, workerId);
      if affected {
        var row := rows[k];
        row := row.(status := Delivered);
        row := row.(deliveredAt := Some(at));
        row := row.(nextAttemptAt := None);
        row := row.(leaseOwner := None);
        row := row.(leaseExpiresAt := None);
        row := row.(lastErrorCode := None);
        rows := rows[k := row];
      }
      r := Ok(affected);
    }

    /** An UPDATE and then a separate SELECT: others may change the rows in between, and then the status
        reported is theirs, or nothing if they have the record under delivery or delivered again. */
    method MarkFailed(k: Key, workerId: string, failedAt: int, next: Option<int>, code: string,
                      leftBetween: Records -> Records)
      returns (r: Result<Option<Status>, SqlError>)
      modifies this`rows
      ensures closed ==> r == Err(PoolClosed) && rows == old(rows)
      ensures !closed && !Holds(old(rows), k, workerId) ==> r == Ok(None) && rows == old(rows)
      ensures !closed && Holds(old(rows), k, workerId) ==>
                && rows == leftBetween(SqlMarkFailedStep(old(rows), k, workerId, failedAt, next, code))
                && r == Ok(Reported(rows, k))
    {
      if closed { return Err(PoolClosed); }
      if !Holds(rows, k, workerId) { return Ok(None); }
      var row := rows[k];
      row := row.(status := if Exhausted(row) then Failed else Pending);
      row := row.(nextAttemptAt := if Exhausted(row) then None else if next.Some? then next else Some(failedAt));
      row := row.(leaseOwner := None);
      row := row.(leaseExpiresAt := None);
      row := row.(lastErrorCode := Some(code));
      rows := rows[k := row];
      rows := leftBetween(rows);
      var status := if k in rows then Some(rows[k].status) else None;
      r := Ok(if status == Some(Pending) || status == Some(Failed) then status else None);
    }
  }

  /** On one table the two adapters mark a failure alike exactly if the record is not held by the worker, or
      stores its limit, or was never attempted: without a stored limit the in-memory one counts to 1 and the
      SQL one never stops. */
  lemma MarkFailedAgreesExactly(m: Records, k: Key, workerId: string, failedAt: int, next: Option<int>, code: string)
    ensures SqlMarkFailedStep(m, k, workerId, failedAt, next, code) ==
            MarkFailedStep(m, k, workerId, failedAt, next, code)
            <==> (Holds(m, k, workerId) ==> m[k].maxAttempts.Some? || m[k].attempts < 1)
  {
    if Holds(m, k, workerId) {
      var sql := SqlMarkFailedStep(m, k, workerId, failedAt, next, code);
      var memory := MarkFailedStep(m, k, workerId, failedAt, next, code);
      assert sql[k] == SqlFailedRecord(m[k], failedAt, next, code);
      assert memory[k] == FailedRecord(m[k], failedAt, next, code);
    }
  }

  /** A table on which they differ: under delivery, attempted once, no limit stored. */
  lemma MarkFailedCanDiffer(k: Key, message: Message)
    ensures var r := Enqueued(message).(status := Delivering, attempts := 1, leaseOwner := Some("w"));
            && SqlMarkFailedStep(map[k := r], k, "w", 0, None, "E")[k].status.Pending?
            && MarkFailedStep(map[k := r], k, "w", 0, None, "E")[k].status.Failed?
  {
  }

  /** On every state a run can reach, whoever marks: the next states agree; and whatever rows the SELECT then
      finds, the results agree exactly if a record that was marked still has its status. */
  lemma MarkFailedAgreesOnRuns(states: seq<OutboxRuns.World>, actions: seq<OutboxRuns.Action>, i: nat,
                               k: Key, workerId: string, failedAt: int, next: Option<int>, code: string, found: Records)
    requires OutboxRuns.IsRun(states, actions) && i < |states|
    requires OutboxRuns.AllPending(states[0].records) && states[0] == OutboxRuns.Start(states[0].records)
    ensures var m := states[i].records;
            var marked := MarkFailedStep(m, k, workerId, failedAt, next, code);
            && SqlMarkFailedStep(m, k, workerId, failedAt, next, code) == marked
            && (Holds(m, k, workerId) ==>
                  (Reported(found, k) == Some(marked[k].status) <==>
                     k in found && found[k].status == marked[k].status))
  {
    OutboxRuns.RunKeepsInv(states, actions, i);
    var m := states[i].records;
    if k in m { assert RecordOk(m[k]); }
    MarkFailedAgreesExactly(m, k, workerId, failedAt, next, code);
  }

  /** Another worker claims the record between the two statements: it was marked pending, and nothing is
      reported. */
  lemma ReadAgainCanDiffer(k: Key, message: Message)
    ensures var held := Enqueued(message).(status := Delivering, attempts := 1, maxAttempts := Some(5),
                                           leaseOwner := Some("w"), leaseExpiresAt := Some(9));
            var marked := SqlMarkFailedStep(map[k := held], k, "w", 0, None, "E");
            var c := ClaimCall("v", 0, 1, 5);
            var found := marked[k := ClaimRecord(marked[k], c)];
            && ClaimStep(marked, c, found, Some((k, found[k])))
            && marked == MarkFailedStep(map[k := held], k, "w", 0, None, "E") && marked[k].status.Pending?
            && Reported(found, k) == None
  {
    var held := Enqueued(message).(status := Delivering, attempts := 1, maxAttempts := Some(5),
                                   leaseOwner := Some("w"), leaseExpiresAt := Some(9));
    var marked := SqlMarkFailedStep(map[k := held], k, "w", 0, None, "E");
    assert marked == map[k := marked[k]];
    assert IsHead(marked, k);
  }
}
