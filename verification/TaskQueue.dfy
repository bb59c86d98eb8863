/** src/domain/task-queue/task-queue.ts: the life of one queued task, as pure transitions on an item. */
module TaskQueue {
  import opened Basics

  datatype BlockPosition = BlockPosition(x: int, y: int, z: int, dimension: Dimension)

  /** A single dirt placement: the fields the source pins to literals are not repeated here. */
  datatype PlaceInstruction = PlaceInstruction(
    taskId: string, target: BlockPosition, support: BlockPosition, maxReach: real, timeoutMs: int)

  datatype Details =
    | PlaceSingleDirt(place: PlaceInstruction)
    | VerifyArrival(arrivalId: string, x: real, y: real, z: real, dimension: Dimension, tolerance: real)
    | RecordPosition(recordId: string)

  /** Task type names: the three reserved ones, and any other. */
  datatype TaskType = PlaceSingleDirtType | VerifyArrivalType | RecordPositionType | OtherType(name: string)

  datatype TaskInstruction = TaskInstruction(
    taskId: string, taskType: TaskType, priority: int, maxAttempts: int, details: Option<Details>)

  datatype Status = Queued | Claimed | Completed | Failed | Stopped | Cancelled

  datatype Outcome = OutcomeCompleted | OutcomeFailed | OutcomeStopped

  datatype Phase = NotStarted | DeliveryStarted | Verified

  datatype TaskItem = TaskItem(
    instruction: TaskInstruction, status: Status, attempts: int,
    createdAt: int, updatedAt: int, claimedAt: Option<int>, finishedAt: Option<int>, phase: Phase)

  datatype QueueError = InvalidTaskInstruction | TaskNotFound | InvalidTaskTransition

  datatype Disposition = Claimable | ManualReview | Terminal

  function OutcomeStatus(o: Outcome): Status {
    match o
    case OutcomeCompleted => Completed
    case OutcomeFailed => Failed
    case OutcomeStopped => Stopped
  }

  predicate IsTerminal(s: Status) { s.Completed? || s.Failed? || s.Stopped? || s.Cancelled? }

  function DetailsKind(d: Details): TaskType {
    match d
    case PlaceSingleDirt(_) => PlaceSingleDirtType
    case VerifyArrival(_, _, _, _, _, _) => VerifyArrivalType
    case RecordPosition(_) => RecordPositionType
  }

  function DetailsTaskId(d: Details): string {
    match d
    case PlaceSingleDirt(p) => p.taskId
    case VerifyArrival(id, _, _, _, _, _) => id
    case RecordPosition(id) => id
  }

  const MAX_BLOCK_REACH: real := 3.0
  const MAX_BLOCK_OPERATION_TIMEOUT_MS := 30_000
  const MAX_HORIZONTAL_COORDINATE := 30_000_000
  const MIN_WORLD_Y := -64
  const MAX_WORLD_Y := 320

  predicate ValidBlockPosition(p: BlockPosition) {
    && -MAX_HORIZONTAL_COORDINATE <= p.x <= MAX_HORIZONTAL_COORDINATE
    && MIN_WORLD_Y <= p.y <= MAX_WORLD_Y
    && -MAX_HORIZONTAL_COORDINATE <= p.z <= MAX_HORIZONTAL_COORDINATE
  }

  predicate ValidPlaceInstruction(p: PlaceInstruction) {
    && ValidBlockPosition(p.target)
    && ValidBlockPosition(p.support)
    && p.support == p.target.(y := p.target.y - 1)
    && 0.0 < p.maxReach <= MAX_BLOCK_REACH
    && 0 < p.timeoutMs <= MAX_BLOCK_OPERATION_TIMEOUT_MS
  }

  predicate ValidInstruction(i: TaskInstruction) {
    && 0 <= i.priority <= 100
    && 1 <= i.maxAttempts <= 10
    && (i.details.Some? ==>
          && i.taskId == DetailsTaskId(i.details.value)
          && i.taskType == DetailsKind(i.details.value)
          && (i.details.value.PlaceSingleDirt? ==>
                ValidPlaceInstruction(i.details.value.place) && i.maxAttempts == 1))
    && (i.details.None? ==> i.taskType.OtherType?)
  }

  /** What the queue accepts, by its numbers: a block is placed on the one below it, so never on the lowest
      layer, with a single attempt and from no further than three blocks; and what has no details bears none of
      the types that have. */
  lemma ValidMeans(i: TaskInstruction)
    ensures ValidInstruction(i) <==>
              && 0 <= i.priority <= 100 && 1 <= i.maxAttempts <= 10
              && match i.details
                 case None =>
                   && i.taskType != PlaceSingleDirtType && i.taskType != VerifyArrivalType
                   && i.taskType != RecordPositionType
                 case Some(VerifyArrival(id, _, _, _, _, _)) => i.taskType == VerifyArrivalType && i.taskId == id
                 case Some(RecordPosition(id)) => i.taskType == RecordPositionType && i.taskId == id
                 case Some(PlaceSingleDirt(p)) =>
                   && i.taskType == PlaceSingleDirtType && i.taskId == p.taskId && i.maxAttempts == 1
                   && -30_000_000 <= p.target.x <= 30_000_000 && -30_000_000 <= p.target.z <= 30_000_000
                   && -63 <= p.target.y <= 320
                   && p.support == BlockPosition(p.target.x, p.target.y - 1, p.target.z, p.target.dimension)
                   && 0.0 < p.maxReach <= 3.0 && 0 < p.timeoutMs <= 30_000
  {
  }

  /** Items without typed details are compared by id alone. */
  predicate InstructionEquals(left: TaskInstruction, right: TaskInstruction) {
    if left.details.None? && right.details.None? then left.taskId == right.taskId else left == right
  }

  predicate Allowed(from: Status, to: Status) {
    match from
    case Queued => to.Claimed? || to.Cancelled?
    case Claimed => to.Queued? || to.Completed? || to.Failed? || to.Stopped?
    case _ => false
  }

  function CreateQueuedTask(i: TaskInstruction, now: int): Result<TaskItem, QueueError> {
    if ValidInstruction(i) then Ok(TaskItem(i, Queued, 0, now, now, None, None, NotStarted))
    else Err(InvalidTaskInstruction)
  }

  /** The shared tail of every status change: check the table, stamp the time. */
  function Transition(item: TaskItem, next: TaskItem, to: Status, now: int): Result<TaskItem, QueueError> {
    if Allowed(item.status, to) then Ok(next.(status := to, updatedAt := now)) else Err(InvalidTaskTransition)
  }

  function ClaimTask(item: TaskItem, now: int): Result<TaskItem, QueueError> {
    Transition(item,
               item.(attempts := item.attempts + 1, claimedAt := Some(now), finishedAt := None),
               Claimed, now)
  }

  function CancelTask(item: TaskItem, now: int): Result<TaskItem, QueueError> {
    Transition(item, item.(finishedAt := Some(now)), Cancelled, now)
  }

  function ReleaseTask(item: TaskItem, now: int): Result<TaskItem, QueueError> {
    if !item.status.Claimed? then Err(InvalidTaskTransition)
    else if item.attempts >= item.instruction.maxAttempts then
      Transition(item, item.(finishedAt := Some(now)), Failed, now)
    else
      Transition(item, item.(claimedAt := None, finishedAt := None), Queued, now)
  }

  function FinishTask(item: TaskItem, outcome: Outcome, now: int): Result<TaskItem, QueueError> {
    Transition(item, item.(finishedAt := Some(now)), OutcomeStatus(outcome), now)
  }

  predicate IsPlacement(i: TaskInstruction) {
    i.details.Some? && i.details.value.PlaceSingleDirt?
  }

  function MarkDeliveryStarted(item: TaskItem, now: int): Result<TaskItem, QueueError> {
    if item.status.Claimed? && item.phase.NotStarted? && IsPlacement(item.instruction)
       && item.instruction.maxAttempts == 1
    then Ok(item.(phase := DeliveryStarted, updatedAt := now))
    else Err(InvalidTaskTransition)
  }

  function MarkVerified(item: TaskItem, now: int): Result<TaskItem, QueueError> {
    if item.status.Claimed? && item.phase.DeliveryStarted?
    then Ok(item.(phase := Verified, updatedAt := now))
    else Err(InvalidTaskTransition)
  }

  function RecoveryDisposition(item: TaskItem): Disposition {
    if item.status.Queued? then Claimable
    else if item.status.Claimed? then ManualReview
    else Terminal
  }

  /** The commands a service answers by reading an item, computing its successor and writing it back. */
  datatype Command = Cancel | Release | MarkStarted | MarkDone | Finish(outcome: Outcome)

  function Compute(c: Command, item: TaskItem, now: int): Result<TaskItem, QueueError> {
    match c
    case Cancel => CancelTask(item, now)
    case Release => ReleaseTask(item, now)
    case MarkStarted => MarkDeliveryStarted(item, now)
    case MarkDone => MarkVerified(item, now)
    case Finish(o) => FinishTask(item, o, now)
  }

  // ---------------------------------------------------------------- what every item keeps

  /** The shapes an item can take. */
  predicate Legal(item: TaskItem) {
    var max := item.instruction.maxAttempts;
    && ValidInstruction(item.instruction)
    && 0 <= item.attempts <= max
    && (item.status.Queued? ==> item.attempts < max && item.claimedAt.None?)
    && (item.status.Claimed? ==> item.attempts >= 1)
    && (item.claimedAt.Some? ==> item.attempts >= 1)
    && (item.finishedAt.Some? <==> IsTerminal(item.status))
    && (item.status.Claimed? || item.status.Completed? || item.status.Stopped? ==> item.claimedAt.Some?)
    && (item.status.Cancelled? ==> item.claimedAt.None?)
    && (!item.phase.NotStarted? ==>
          IsPlacement(item.instruction) && item.attempts == 1 && !item.status.Queued? && !item.status.Cancelled?)
  }

  /** An upper bound on the changes an item can still undergo. */
  function Life(item: TaskItem): int {
    var left := 2 * (item.instruction.maxAttempts - item.attempts);
    match item.status
    case Queued => left + 2
    case Claimed =>
      (match item.phase
       case NotStarted => left + 3
       case DeliveryStarted => left + 2
       case Verified => left + 1)
    case _ => 0
  }

  function PhaseRank(p: Phase): nat {
    match p case NotStarted => 0 case DeliveryStarted => 1 case Verified => 2
  }

  lemma CreatedIsLegal(i: TaskInstruction, now: int)
    requires ValidInstruction(i)
    ensures CreateQueuedTask(i, now).Ok?
    ensures var item := CreateQueuedTask(i, now).value;
            Legal(item) && Life(item) == 2 * i.maxAttempts + 2 && RecoveryDisposition(item) == Claimable
  {
  }

  /** Claiming succeeds exactly on queued items, uses up one attempt and shortens the life. */
  lemma ClaimProgress(item: TaskItem, now: int)
    requires Legal(item)
    ensures ClaimTask(item, now).Ok? <==> RecoveryDisposition(item) == Claimable
    ensures ClaimTask(item, now).Ok? ==>
              var next := ClaimTask(item, now).value;
              && Legal(next) && Life(next) < Life(item) && next.attempts == item.attempts + 1
              && next.instruction == item.instruction && next.createdAt == item.createdAt
              && next.phase == item.phase && RecoveryDisposition(next) == ManualReview
  {
  }

  /** Every other command keeps the attempts, never moves the phase back, never touches the instruction,
      shortens the life, and never re-queues an item whose delivery has started. */
  lemma ComputeProgress(c: Command, item: TaskItem, now: int)
    requires Legal(item)
    requires Compute(c, item, now).Ok?
    ensures var next := Compute(c, item, now).value;
            && Legal(next) && Life(next) < Life(item) && next.attempts == item.attempts
            && next.instruction == item.instruction && next.createdAt == item.createdAt
            && PhaseRank(item.phase) <= PhaseRank(next.phase)
            && (next.status.Queued? ==> item.attempts < item.instruction.maxAttempts && item.phase.NotStarted?)
  {
  }

  /** The status that says how a task ended. */
  predicate EndsAs(s: Status, o: Outcome) {
    (s.Completed? <==> o.OutcomeCompleted?) && (s.Failed? <==> o.OutcomeFailed?) && (s.Stopped? <==> o.OutcomeStopped?)
  }

  /** What each command asks of an item. */
  predicate Accepts(c: Command, item: TaskItem) {
    (c.Cancel? <==> item.status.Queued?) && (c.Cancel? || item.status.Claimed?)
    && (c.MarkStarted? ==>
          && item.phase.NotStarted? && item.instruction.maxAttempts == 1
          && item.instruction.details.Some? && item.instruction.details.value.PlaceSingleDirt?)
    && (c.MarkDone? ==> item.phase.DeliveryStarted?)
  }

  /** What it leaves: a cancelled item, a released one that is queued exactly while attempts are left, the
      phase marked, or the outcome as status. Nothing else changes. */
  predicate Leaves(c: Command, item: TaskItem, now: int, next: TaskItem) {
    && next.instruction == item.instruction && next.attempts == item.attempts && next.createdAt == item.createdAt
    && next.updatedAt == now
    && (next.finishedAt == if c.MarkStarted? || c.MarkDone? then item.finishedAt
                           else if next.status.Queued? then None else Some(now))
    && (next.claimedAt == if c.Release? && next.status.Queued? then None else item.claimedAt)
    && (c.Cancel? ==> next.status.Cancelled?)
    && (c.Release? ==>
          if item.attempts < item.instruction.maxAttempts then next.status.Queued? else next.status.Failed?)
    && (c.Finish? ==> EndsAs(next.status, c.outcome) && !next.status.Cancelled?)
    && (c.MarkStarted? || c.MarkDone? ==> next.status.Claimed?)
    && (c.MarkStarted? <==> next.phase.DeliveryStarted? && item.phase.NotStarted?)
    && (c.MarkDone? <==> next.phase.Verified? && item.phase.DeliveryStarted?)
    && (!c.MarkStarted? && !c.MarkDone? ==> next.phase == item.phase)
  }

  /** A command is computed exactly where it is accepted, and leaves just that. */
  lemma ComputeLeaves(c: Command, item: TaskItem, now: int)
    ensures Compute(c, item, now).Ok? <==> Accepts(c, item)
    ensures Compute(c, item, now).Ok? ==> Leaves(c, item, now, Compute(c, item, now).value)
  {
  }

  /** Terminal items accept no command at all, and none that is not terminal is stuck. */
  lemma TerminalIsAbsorbing(item: TaskItem, now: int)
    ensures IsTerminal(item.status) <==>
              ClaimTask(item, now).Err? && forall c :: Compute(c, item, now).Err?
  {
    if item.status.Queued? { assert Compute(Cancel, item, now).Ok?; }
    if item.status.Claimed? { assert Compute(Release, item, now).Ok?; }
  }

  /** A started delivery can never become claimable again by any one command. */
  lemma StartedNeverClaimable(c: Command, item: TaskItem, now: int)
    requires Legal(item) && !item.phase.NotStarted?
    ensures RecoveryDisposition(item) != Claimable
    ensures ClaimTask(item, now).Err?
    ensures Compute(c, item, now).Ok? ==> RecoveryDisposition(Compute(c, item, now).value) != Claimable
  {
  }
}
