/** src/adapters/persistence/mysql-task-queue-repository.ts and
    src/application/task-queue/task-queue-service.ts: the shared table, whose statements are atomic,
    and the service that reads a row, computes its successor and writes it back if nothing moved. */
module TaskTable {
  import opened Basics
  import opened TaskQueue

  type Rows = map<string, TaskItem>

  /** The claim_owner and claim_expires_at columns. */
  datatype Lease = Lease(owner: string, expiresAt: int)

  datatype RepositoryError = RepositoryClosed | InstructionMismatch | Conflict

  datatype ServiceError = Queue(error: QueueError) | Repository(failure: RepositoryError)

  /** The columns an UPDATE writes; instruction and creation time are never written again. */
  function Write(row: TaskItem, item: TaskItem): TaskItem {
    row.(status := item.status, attempts := item.attempts, phase := item.phase,
         updatedAt := item.updatedAt, claimedAt := item.claimedAt, finishedAt := item.finishedAt)
  }

  /** The WHERE clause of the compare-and-set: id, status, phase and update time. */
  predicate Unmoved(rows: Rows, expected: TaskItem, item: TaskItem) {
    var id := item.instruction.taskId;
    && id in rows
    && rows[id].status == expected.status
    && rows[id].phase == expected.phase
    && rows[id].updatedAt == expected.updatedAt
  }

  function CompareAndSet(rows: Rows, expected: TaskItem, item: TaskItem): Rows {
    var id := item.instruction.taskId;
    if Unmoved(rows, expected, item) then rows[id := Write(rows[id], item)] else rows
  }

  /** A write leaves the item it was given, as long as that is one of the same instruction and creation. */
  lemma WrittenInFull(rows: Rows, expected: TaskItem, item: TaskItem)
    requires Unmoved(rows, expected, item)
    ensures var id := item.instruction.taskId;
            var now := CompareAndSet(rows, expected, item);
            && now.Keys == rows.Keys && (forall other :: other in rows && other != id ==> now[other] == rows[other])
            && now[id].instruction == rows[id].instruction && now[id].createdAt == rows[id].createdAt
            && (rows[id].instruction == item.instruction && rows[id].createdAt == item.createdAt ==> now[id] == item)
  {
  }

  function InsertRow(rows: Rows, item: TaskItem): Rows {
    var id := item.instruction.taskId;
    if id in rows then rows else rows[id := item]
  }

  /** ORDER BY priority DESC, created_at ASC, task_id ASC. */
  predicate Before(a: TaskItem, b: TaskItem) {
    || a.instruction.priority > b.instruction.priority
    || (a.instruction.priority == b.instruction.priority
        && (a.createdAt < b.createdAt
            || (a.createdAt == b.createdAt && StringLess(a.instruction.taskId, b.instruction.taskId))))
  }

  /** Queued, of an allowed type, and not locked by another transaction (SKIP LOCKED). */
  function Selectable(rows: Rows, allowed: Option<set<TaskType>>, locked: set<string>): (ids: set<string>) {
    set id | id in rows && rows[id].status.Queued? && id !in locked
             && (allowed.Some? ==> rows[id].instruction.taskType in allowed.value)
  }

  ghost predicate IsFirst(rows: Rows, ids: set<string>, id: string) {
    id in ids && ids <= rows.Keys && forall other :: other in ids ==> !Before(rows[other], rows[id])
  }

  lemma {:induction false} FirstExists(rows: Rows, ids: set<string>)
    requires ids != {} && ids <= rows.Keys
    ensures exists id :: IsFirst(rows, ids, id)
    decreases |ids|
  {
    var x :| x in ids;
    var rest := ids - {x};
    if rest == {} {
      StringLessIrreflexive(rows[x].instruction.taskId);
      assert forall other :: other in ids ==> other == x by { assert ids == rest + {x}; }
      assert IsFirst(rows, ids, x);
    } else {
      FirstExists(rows, rest);
      var y :| IsFirst(rows, rest, y);
      var winner := if Before(rows[x], rows[y]) then x else y;
      forall other | other in ids ensures !Before(rows[other], rows[winner]) {
        if Before(rows[other], rows[winner]) {
          if other == winner {
            StringLessIrreflexive(rows[x].instruction.taskId);
          } else if winner == x {
            BeforeTransitive(rows[other], rows[x], rows[y]);
          }
        }
      }
      assert IsFirst(rows, ids, winner);
    }
  }

  lemma BeforeTransitive(a: TaskItem, b: TaskItem, c: TaskItem)
    requires Before(a, b) && Before(b, c)
    ensures Before(a, c)
  {
    if StringLess(a.instruction.taskId, b.instruction.taskId)
       && StringLess(b.instruction.taskId, c.instruction.taskId) {
      StringLessTransitive(a.instruction.taskId, b.instruction.taskId, c.instruction.taskId);
    }
  }

  /** What another user of the table can do in one atomic statement or transaction. */
  datatype TableStep =
    | Inserting(item: TaskItem)
    | Claiming(taskId: string, at: int)
    | Replacing(expected: TaskItem, item: TaskItem)

  function ClaimRow(rows: Rows, id: string, at: int): Rows {
    if id in rows && ClaimTask(rows[id], at).Ok? then rows[id := ClaimTask(rows[id], at).value] else rows
  }

  function AfterStep(rows: Rows, s: TableStep): Rows {
    match s
    case Inserting(item) => InsertRow(rows, item)
    case Claiming(id, at) => ClaimRow(rows, id, at)
    case Replacing(expected, item) => CompareAndSet(rows, expected, item)
  }

  function AfterSteps(rows: Rows, steps: seq<TableStep>): Rows
    decreases |steps|
  {
    if steps == [] then rows else AfterSteps(AfterStep(rows, steps[0]), steps[1..])
  }

  /** On the fields: some queued, unlocked row of an allowed type, with none like it that has a greater
      priority, or the same and an earlier creation, is claimed, with one more attempt, at that time. */
  ghost predicate TakesTheFirst(rows: Rows, allowed: Option<set<TaskType>>, locked: set<string>, claimed: TaskItem,
                                at: int)
  {
    exists id :: && id in rows && rows[id].status.Queued? && id !in locked
                 && (allowed.None? || rows[id].instruction.taskType in allowed.value)
                 && NoneBefore(rows, allowed, locked, id)
                 && claimed == rows[id].(status := Claimed, attempts := rows[id].attempts + 1, updatedAt := at,
                                         claimedAt := Some(at), finishedAt := None)
  }

  ghost predicate NoneBefore(rows: Rows, allowed: Option<set<TaskType>>, locked: set<string>, id: string)
    requires id in rows
  {
    forall other :: && other in rows && rows[other].status.Queued? && other !in locked
                    && (allowed.None? || rows[other].instruction.taskType in allowed.value) ==>
      && rows[other].instruction.priority <= rows[id].instruction.priority
      && (rows[other].instruction.priority == rows[id].instruction.priority ==>
            rows[id].createdAt <= rows[other].createdAt)
  }

  lemma FirstIsTaken(rows: Rows, allowed: Option<set<TaskType>>, locked: set<string>, id: string, at: int)
    requires IsFirst(rows, Selectable(rows, allowed, locked), id) && ClaimTask(rows[id], at).Ok?
    ensures TakesTheFirst(rows, allowed, locked, ClaimTask(rows[id], at).value, at)
  {
    forall other | && other in rows && rows[other].status.Queued? && other !in locked
                   && (allowed.None? || rows[other].instruction.taskType in allowed.value)
      ensures rows[other].instruction.priority <= rows[id].instruction.priority
      ensures rows[other].instruction.priority == rows[id].instruction.priority ==>
                rows[id].createdAt <= rows[other].createdAt
    {
      assert other in Selectable(rows, allowed, locked);
    }
    assert NoneBefore(rows, allowed, locked, id);
  }

  class TaskTable {
    var rows: Rows
    var leases: map<string, Lease>
    var closed: bool

    constructor ()
      ensures rows == map[] && leases == map[] && !closed
    {
      rows, leases, closed := map[], map[], false;
    }

    /** Insert-if-absent, then a separate read of whatever is there by then. */
    method Insert(item: TaskItem, meanwhile: seq<TableStep>) returns (r: Result<TaskItem, RepositoryError>)
      modifies this`rows
      ensures closed ==> r == Err(RepositoryClosed) && rows == old(rows)
      ensures !closed ==> rows == AfterSteps(InsertRow(old(rows), item), meanwhile)
      ensures r.Ok? <==> !closed && item.instruction.taskId in rows
                         && InstructionEquals(rows[item.instruction.taskId].instruction, item.instruction)
      ensures r.Ok? ==> r.value == rows[item.instruction.taskId]
      ensures !closed && r.Err? ==> r.error == InstructionMismatch
    {
      if closed { return Err(RepositoryClosed); }
      rows := InsertRow(rows, item);
      rows := AfterSteps(rows, meanwhile);
      var found := Find(item.instruction.taskId);
      if found.value.None? || !InstructionEquals(found.value.value.instruction, item.instruction) {
        return Err(InstructionMismatch);
      }
      r := Ok(found.value.value);
    }

    method Find(id: string) returns (r: Result<Option<TaskItem>, RepositoryError>)
      ensures r == if closed then Err(RepositoryClosed) else Ok(if id in rows then Some(rows[id]) else None)
    {
      if closed { return Err(RepositoryClosed); }
      r := Ok(if id in rows then Some(rows[id]) else None);
    }

    method ClaimFirst(at: int, allowed: Option<set<TaskType>>, lease: Option<Lease>, locked: set<string>)
      returns (r: Result<Option<TaskItem>, RepositoryError>)
      modifies this`rows, this`leases
      ensures closed ==> r == Err(RepositoryClosed)
      ensures !closed ==> r.Ok?
      ensures r.Err? || r.value.None? ==> rows == old(rows) && leases == old(leases)
      ensures r.Ok? && r.value.None? ==> Selectable(old(rows), allowed, locked) == {}
      ensures r.Ok? && r.value.Some? ==>
                exists id :: && IsFirst(old(rows), Selectable(old(rows), allowed, locked), id)
                             && rows == ClaimRow(old(rows), id, at) && rows != old(rows)
                             && r.value.value == rows[id]
                             && leases == if lease.Some? then old(leases)[id := lease.value] else old(leases) - {id}
    {
      if closed { return Err(RepositoryClosed); }
      if allowed == Some({}) { return Ok(None); }
      var ids := Selectable(rows, allowed, locked);
      if ids == {} { return Ok(None); }
      FirstExists(rows, ids);
      var id :| id in ids && forall other :: other in ids ==> !Before(rows[other], rows[id]);
      assert IsFirst(rows, ids, id);
      var claimed := ClaimTask(rows[id], at).value;
      rows := rows[id := claimed];
      leases := leases - {id};
      if lease.Some? { leases := leases[id := lease.value]; }
      r := Ok(Some(claimed));
      assert rows[id].status.Claimed?;
    }

    /** One transaction: pick the first claimable row, claim it, note the owner. */
    method ClaimNext(at: int, allowed: Option<set<TaskType>>, lease: Option<Lease>, locked: set<string>)
      returns (r: Result<Option<TaskItem>, RepositoryError>)
      modifies this`rows, this`leases
      ensures closed ==> r == Err(RepositoryClosed)
      ensures !closed ==> r.Ok?
      ensures r.Err? || r.value.None? ==> rows == old(rows) && leases == old(leases)
      ensures r.Ok? && r.value.None? ==> Selectable(old(rows), allowed, locked) == {}
      ensures r.Ok? && r.value.Some? ==>
                exists id :: && IsFirst(old(rows), Selectable(old(rows), allowed, locked), id)
                             && rows == ClaimRow(old(rows), id, at) && rows != old(rows)
                             && r.value.value == rows[id]
                             && leases == if lease.Some? then old(leases)[id := lease.value] else old(leases) - {id}
      ensures r.Ok? && r.value.Some? ==> TakesTheFirst(old(rows), allowed, locked, r.value.value, at)
    {
      ghost var before := rows;
      r := ClaimFirst(at, allowed, lease, locked);
      if r.Ok? && r.value.Some? {
        ghost var id :| && IsFirst(before, Selectable(before, allowed, locked), id)
                        && rows == ClaimRow(before, id, at) && rows != before && r.value.value == rows[id];
        FirstIsTaken(before, allowed, locked, id, at);
      }
    }

    /** Forgetting who owned a claim never makes the claim itself available again. */
    method RecoverExpiredClaims(expiredAt: int) returns (recovered: Result<int, RepositoryError>)
      modifies this`leases
      ensures closed ==> recovered == Err(RepositoryClosed) && leases == old(leases)
      ensures !closed ==> recovered == Ok(|old(leases)| - |leases|)
      ensures !closed ==> forall id :: id in leases <==>
                id in old(leases) &&
                !(id in rows && rows[id].status.Claimed? && old(leases)[id].expiresAt <= expiredAt)
      ensures forall id :: id in leases ==> leases[id] == old(leases)[id]
    {
      if closed { return Err(RepositoryClosed); }
      var expired := set id | id in leases && id in rows && rows[id].status.Claimed?
                              && leases[id].expiresAt <= expiredAt;
      var kept := leases - expired;
      assert leases.Keys == kept.Keys + expired;
      recovered := Ok(|expired|);
      leases := kept;
    }

    method Replace(expected: TaskItem, item: TaskItem) returns (r: Result<(), RepositoryError>)
      modifies this`rows, this`leases
      ensures var id := item.instruction.taskId;
              r == if closed then Err(RepositoryClosed)
                   else if id in old(rows) && old(rows)[id].status == expected.status
                           && old(rows)[id].phase == expected.phase && old(rows)[id].updatedAt == expected.updatedAt
                     then Ok(())
                   else Err(Conflict)
      ensures rows == if closed then old(rows) else CompareAndSet(old(rows), expected, item)
      ensures leases == if r.Ok? then old(leases) - {item.instruction.taskId} else old(leases)
    {
      if closed { return Err(RepositoryClosed); }
      if !Unmoved(rows, expected, item) { return Err(Conflict); }
      rows := CompareAndSet(rows, expected, item);
      leases := leases - {item.instruction.taskId};
      r := Ok(());
    }

    method Close()
      modifies this`closed
      ensures closed
    {
      closed := true;
    }
  }

  /** Two different instructions are taken for the same one exactly if both are untyped, of the same id. */
  lemma EqualThoughDifferent(a: TaskInstruction, b: TaskInstruction)
    requires ValidInstruction(a) && ValidInstruction(b)
    ensures InstructionEquals(a, b) && a != b <==>
              a.details.None? && b.details.None? && a.taskId == b.taskId && a != b
  {
  }

  /** Inserted after another item with the same id: the table keeps and answers the first one exactly if the
      instructions agree, or differ but are both untyped; otherwise it refuses. */
  method InsertTwice(first: TaskItem, second: TaskItem) returns (t: TaskTable, r: Result<TaskItem, RepositoryError>)
    requires ValidInstruction(first.instruction) && ValidInstruction(second.instruction)
    requires first.instruction.taskId == second.instruction.taskId
    ensures t.rows == map[first.instruction.taskId := first]
    ensures r == if first.instruction == second.instruction
                    || (first.instruction.details.None? && second.instruction.details.None?)
                 then Ok(first) else Err(InstructionMismatch)
  {
    t := new TaskTable();
    var _ := t.Insert(first, []);
    r := t.Insert(second, []);
    EqualThoughDifferent(first.instruction, second.instruction);
  }

  /** Two untyped items of one id and different type: the second is accepted, and it is the first that is
      answered. */
  method DifferingUntypedIsAccepted() returns (t: TaskTable, r: Result<TaskItem, RepositoryError>)
    ensures r.Ok? && r.value.instruction.taskType == OtherType("survey")
    ensures t.rows.Keys == {"task-1"} && t.rows["task-1"] == r.value
  {
    var survey := TaskInstruction("task-1", OtherType("survey"), 0, 1, None);
    var patrol := survey.(taskType := OtherType("patrol"));
    t, r := InsertTwice(TaskItem(survey, Queued, 0, 0, 0, None, None, NotStarted),
                        TaskItem(patrol, Queued, 0, 1, 1, None, None, NotStarted));
  }

  class TaskQueueService {
    const repository: TaskTable

    constructor (repository: TaskTable)
      ensures this.repository == repository
    {
      this.repository := repository;
    }

    /** Every command on an existing task: the clock is read first, then the row, and other users of the
        table may act before the write. A success means that the row was not moved in between by anything
        the compare-and-set can see; a failure writes nothing. */
    method Dispatch(taskId: string, command: Command, occurredAt: int, meanwhile: seq<TableStep>)
      returns (r: Result<TaskItem, ServiceError>)
      modifies repository`rows, repository`leases
      ensures repository.closed ==> r == Err(Repository(RepositoryClosed)) && repository.rows == old(repository.rows)
      ensures r.Ok? ==> taskId in old(repository.rows)
                        && Compute(command, old(repository.rows)[taskId], occurredAt) == Ok(r.value)
      ensures r.Ok? ==> && Accepts(command, old(repository.rows)[taskId])
                        && Leaves(command, old(repository.rows)[taskId], occurredAt, r.value)
      ensures !repository.closed && taskId in old(repository.rows) ==>
                (r == Err(Queue(InvalidTaskTransition)) <==> !Accepts(command, old(repository.rows)[taskId]))
      ensures r.Ok? ==>
                var moved := AfterSteps(old(repository.rows), meanwhile);
                && Unmoved(moved, old(repository.rows)[taskId], r.value)
                && repository.rows == CompareAndSet(moved, old(repository.rows)[taskId], r.value)
      ensures r.Err? ==> || repository.rows == old(repository.rows)
                         || repository.rows == AfterSteps(old(repository.rows), meanwhile)
      ensures r == Err(Queue(TaskNotFound)) <==> !repository.closed && taskId !in old(repository.rows)
    {
      var current := repository.Find(taskId);
      if current.Err? { return Err(Repository(current.error)); }
      if current.value.None? { return Err(Queue(TaskNotFound)); }
      ComputeLeaves(command, current.value.value, occurredAt);
      var item := Compute(command, current.value.value, occurredAt);
      if item.Err? { return Err(Queue(item.error)); }
      repository.rows := AfterSteps(repository.rows, meanwhile);
      var replaced := repository.Replace(current.value.value, item.value);
      r := if replaced.Ok? then Ok(item.value) else Err(Repository(replaced.error));
    }
  }
}
