/** src/application/block-operation/block-operation-coordinator.ts: one placement, from the claimed task to
    its recorded end. Everything the surroundings do at each await is part of a script: what the port, the
    queue and the timers answer, and which callbacks run meanwhile. */
module BlockCoordinator {
  import opened Basics
  import TaskQueue
  import StateStore
  import SafetyPolicy
  import BlockDistance
  import opened PlacementProtocol

  /** What another part of the runtime may do while an execution waits. */
  datatype Callback = CancelCalled | CloseCalled | StateChanged(snapshot: StateStore.Snapshot)

  datatype PortError = Unsupported | LostConnection | OperationFailed | UnknownError

  /** How the race between a port call and its timer ends. */
  datatype Race<+T> = Returned(value: T) | Threw(error: PortError) | TimerFired

  datatype PortCall<+T> = PortCall(beforeStart: seq<Callback>, meanwhile: seq<Callback>, race: Race<T>)

  datatype PortResult<+T> = Value(value: T) | Timeout | Cancelled | Error(error: PortError)

  datatype Observation = Observation(position: TaskQueue.BlockPosition, block: Block)

  /** How a command to the queue ends: read and written back, or thrown on the way. */
  datatype QueueCall = QueueCall(meanwhile: seq<Callback>, committed: bool)

  datatype Lookup = Lookup(meanwhile: seq<Callback>, found: Result<Option<TaskQueue.TaskItem>, ()>)

  datatype Script = Script(
    lookup: Lookup,
    initial: StateStore.Snapshot,
    supported: bool,
    before: PortCall<Observation>,
    support: PortCall<Observation>,
    beforeSend: StateStore.Snapshot,
    prepareClock: Option<int>,
    runClock: Option<int>,
    started: QueueCall,
    atSend: StateStore.Snapshot,
    place: PortCall<()>,
    afterSend: StateStore.Snapshot,
    after: PortCall<Observation>,
    verified: QueueCall,
    atFinish: StateStore.Snapshot,
    finishClock: Option<int>,
    finished: QueueCall)

  datatype FailureReason =
    | InvalidInstruction | TaskNotClaimed | TaskStateConflict | InvalidPosition | OutOfReach | UnexpectedBefore
    | UnsupportedSupport | UnexpectedAfter | UnsupportedAdapter | TimedOut | PortDisconnected | PortFailed
    | FinalizationError

  datatype StopCause = SafetyStop | CancelledByCaller

  datatype Outcome =
    | Completed(observation: Observation)
    | Stopped(cause: StopCause)
    | Failed(reason: FailureReason)

  datatype ExecuteError = OperationClosed | AlreadyActive

  predicate Unsafe(s: StateStore.Snapshot) { !SafetyPolicy.Evaluate(s, SafetyPolicy.Continue).disposition.Allow? }

  /** A cancellation, a close, or a state that stops the work. */
  predicate Disturbs(callbacks: seq<Callback>) {
    exists i :: 0 <= i < |callbacks| && (callbacks[i].StateChanged? ==> Unsafe(callbacks[i].snapshot))
  }

  /** A state that stops the work. */
  predicate Alarms(callbacks: seq<Callback>) {
    exists i :: 0 <= i < |callbacks| && callbacks[i].StateChanged? && Unsafe(callbacks[i].snapshot)
  }

  predicate OutOfRange(p: StateStore.Position, dimension: Dimension, command: TaskQueue.PlaceInstruction)
    requires p.x.Finite? && p.y.Finite? && p.z.Finite?
  {
    var dx := p.x.value - command.target.x as real;
    var dy := p.y.value - command.target.y as real;
    var dz := p.z.value - command.target.z as real;
    command.target.dimension != dimension || BlockDistance.Farther(dx, dy, dz, command.maxReach)
  }

  /** The reason, if any, to refuse an allowed start before the port is used, in the order of the checks. */
  function Refusal(command: TaskQueue.PlaceInstruction, s: Script): Option<FailureReason>
    requires StateStore.FinitePosition(s.initial.minecraft.position)
  {
    var minecraft := s.initial.minecraft;
    if minecraft.position.None? || minecraft.dimension.None? then Some(InvalidPosition)
    else if OutOfRange(minecraft.position.value, minecraft.dimension.value, command) then Some(OutOfReach)
    else if !s.supported then Some(UnsupportedAdapter)
    else None
  }

  /** Results other than the three that leave the task without a recorded end. */
  predicate Ordinary(o: Outcome) {
    o.Failed? ==> !o.reason.TaskNotClaimed? && !o.reason.FinalizationError? && !o.reason.InvalidInstruction?
  }

  function PortReason(e: PortError): FailureReason {
    match e
    case Unsupported => UnsupportedAdapter
    case LostConnection => PortDisconnected
    case _ => PortFailed
  }

  /** What a port call that gave no value ends the task as; a cancellation is put down to safety if the state
      has stopped the work by the time the end is recorded. */
  function PortEnd<T>(result: PortResult<T>, safetyStopped: bool): Outcome
    requires !result.Value?
  {
    match result
    case Cancelled => Stopped(if safetyStopped then SafetyStop else CancelledByCaller)
    case Timeout => Failed(TimedOut)
    case Error(e) => Failed(PortReason(e))
  }

  function TaskEnd(o: TaskQueue.Outcome): StateStore.TaskTarget {
    match o
    case OutcomeCompleted => StateStore.TaskCompleted
    case OutcomeFailed => StateStore.TaskFailed
    case OutcomeStopped => StateStore.TaskStopped
  }

  /** Whether the two state commands issued just before the send are accepted, in the snapshot read there.
      Each of them reads the clock. */
  predicate PreparesAndRuns(s: StateStore.Snapshot, id: string, prepareClock: Option<int>, runClock: Option<int>) {
    s.task.state.Idle? && !StateStore.Blank(id) && prepareClock.Some? && runClock.Some?
  }

  const PLACE_TYPE := "place_single_dirt"

  lemma PreparesAndRunsInStore(s: StateStore.Snapshot, id: string, prepareClock: Option<int>, runClock: Option<int>)
    ensures var prepare := StateStore.TaskPrepare(id, PLACE_TYPE);
            PreparesAndRuns(s, id, prepareClock, runClock) <==>
              && StateStore.Dispatched(s, prepare, prepareClock).Ok?
              && StateStore.Dispatched(StateStore.Next(s, prepare, prepareClock),
                                       StateStore.TaskTransition(StateStore.Running), runClock).Ok?
  {
    assert !StateStore.IsSpace(PLACE_TYPE[0]);
  }

  /** The command that ends the task in the state store is issued only for this task, while it is under way. */
  predicate EndIssued(s: StateStore.Snapshot, id: string) {
    s.task.id == Some(id) && (s.task.state.Preparing? || s.task.state.Running? || s.task.state.Paused?)
  }

  /** Whether the state store lets finalization proceed to the queue. */
  predicate StateAcceptsEnd(s: StateStore.Snapshot, id: string, o: TaskQueue.Outcome, clock: Option<int>) {
    EndIssued(s, id) ==> StateStore.TaskAllowed(s.task.state, TaskEnd(o)) && clock.Some?
  }

  lemma StateAcceptsEndInStore(s: StateStore.Snapshot, id: string, o: TaskQueue.Outcome, clock: Option<int>)
    ensures StateAcceptsEnd(s, id, o, clock) <==>
              (EndIssued(s, id) ==> StateStore.Dispatched(s, StateStore.TaskTransition(TaskEnd(o)), clock).Ok?)
  {
  }

  /** Ended in the store, the task has ended there as in the queue. */
  lemma EndsAlike(s: StateStore.Snapshot, o: TaskQueue.Outcome, clock: Option<int>)
    requires StateStore.Dispatched(s, StateStore.TaskTransition(TaskEnd(o)), clock).Ok?
    ensures var ended := StateStore.Next(s, StateStore.TaskTransition(TaskEnd(o)), clock).task.state;
            && (ended.TaskCompleted? <==> o.OutcomeCompleted?) && (ended.TaskFailed? <==> o.OutcomeFailed?)
            && (ended.TaskStopped? <==> o.OutcomeStopped?)
  {
  }

  /** Whether an attempt to finalize under an outcome succeeds. */
  predicate Finalizes(id: string, o: TaskQueue.Outcome, s: Script) {
    StateAcceptsEnd(s.atFinish, id, o, s.finishClock) && s.finished.committed
  }

  // ---------------------------------------------------------------- how far a script lets an execution go

  /** The row read first is the claimed one for this very instruction. */
  predicate FindsItsTask(command: TaskQueue.PlaceInstruction, s: Script) {
    s.lookup.found.Ok? && s.lookup.found.value.Some? && ReadyToPlace(s.lookup.found.value.value, command)
  }

  /** The state it starts from lets it use the port. */
  predicate MayStart(command: TaskQueue.PlaceInstruction, s: Script)
    requires StateStore.FinitePosition(s.initial.minecraft.position)
  {
    && s.initial.task.state.Idle?
    && SafetyPolicy.Evaluate(s.initial, SafetyPolicy.Start).disposition.Allow?
    && Refusal(command, s).None?
  }

  predicate SeesSupport(command: TaskQueue.PlaceInstruction, s: Script, aborted: bool) {
    && !aborted && !Disturbs(s.support.beforeStart)
    && s.support.race.Returned? && s.support.race.value.position == command.support
    && !s.support.race.value.block.Air?
  }

  /** Undisturbed at the beginning of both looks and during the first, it sees air on a solid support. */
  predicate SeesItsPlace(command: TaskQueue.PlaceInstruction, s: Script) {
    && !Disturbs(s.before.beforeStart) && s.before.race == Returned(Observation(command.target, Air))
    && SeesSupport(command, s, Disturbs(s.before.meanwhile))
  }

  /** The state store and the queue take note of the delivery. */
  predicate NotesTheStart(id: string, s: Script) {
    !Unsafe(s.beforeSend) && PreparesAndRuns(s.beforeSend, id, s.prepareClock, s.runClock) && s.started.committed
  }

  /** It is recorded that delivery starts. What happens during the look at the support is not asked. */
  predicate RecordsStart(command: TaskQueue.PlaceInstruction, s: Script)
    requires StateStore.FinitePosition(s.initial.minecraft.position)
  {
    && FindsItsTask(command, s) && MayStart(command, s) && !Disturbs(s.lookup.meanwhile) && SeesItsPlace(command, s)
    && NotesTheStart(command.taskId, s)
  }

  /** The step that sends is reached undisturbed, and the policy allows it there. */
  predicate SendsNow(s: Script) {
    !Disturbs(s.started.meanwhile) && !Disturbs(s.place.beforeStart) && !Unsafe(s.atSend)
  }

  /** The world is changed. */
  predicate Places(command: TaskQueue.PlaceInstruction, s: Script)
    requires StateStore.FinitePosition(s.initial.minecraft.position)
  {
    RecordsStart(command, s) && !Disturbs(s.support.meanwhile) && SendsNow(s)
  }

  /** A send that resolved is followed up. */
  predicate FollowsUp(s: Script) {
    s.place.race.Returned? && !Disturbs(s.place.meanwhile) && !Unsafe(s.afterSend)
  }

  /** The server shows the dirt, and every record of it is made. The last look may be disturbed. */
  predicate Verifies(command: TaskQueue.PlaceInstruction, s: Script) {
    && !Disturbs(s.after.beforeStart) && s.after.race == Returned(Observation(command.target, Dirt))
    && s.verified.committed && Finalizes(command.taskId, TaskQueue.OutcomeCompleted, s)
  }

  predicate Completes(command: TaskQueue.PlaceInstruction, s: Script)
    requires StateStore.FinitePosition(s.initial.minecraft.position)
  {
    Places(command, s) && FollowsUp(s) && Verifies(command, s)
  }

  // ---------------------------------------------------------------- the result

  /** How a port call of an execution answers, which may have been aborted before. */
  function AnswerOf<T>(call: PortCall<T>, aborted: bool): PortResult<T> {
    if aborted || Disturbs(call.beforeStart) then Cancelled
    else
      match call.race
      case Returned(v) => Value(v)
      case Threw(e) => if Disturbs(call.meanwhile) then Cancelled else Error(e)
      case TimerFired => if Disturbs(call.meanwhile) then Cancelled else Timeout
  }

  /** Whether a state has stopped the work by the time a port call is over. */
  predicate AlarmedAfter<T>(call: PortCall<T>, aborted: bool, alarmed: bool) {
    alarmed || (!aborted && (Alarms(call.beforeStart) || (!Disturbs(call.beforeStart) && Alarms(call.meanwhile))))
  }

  /** A result that counts only if the end is recorded. */
  function Ended(o: TaskQueue.Outcome, value: Outcome, id: string, s: Script): Outcome {
    if Finalizes(id, o, s) then value else Failed(FinalizationError)
  }

  /** Something was thrown before the end was tried. */
  function Broken(id: string, s: Script): Outcome { Ended(TaskQueue.OutcomeFailed, Failed(PortFailed), id, s) }

  function PortEnded<T>(result: PortResult<T>, alarmed: bool, id: string, s: Script): Outcome
    requires !result.Value?
  {
    Ended(if result.Cancelled? then TaskQueue.OutcomeStopped else TaskQueue.OutcomeFailed,
          PortEnd(result, alarmed || Alarms(s.finished.meanwhile)), id, s)
  }

  /** Turned down before the port is used. */
  function Declined(command: TaskQueue.PlaceInstruction, s: Script): Outcome
    requires StateStore.FinitePosition(s.initial.minecraft.position) && !MayStart(command, s)
  {
    var id := command.taskId;
    if !s.initial.task.state.Idle? then Ended(TaskQueue.OutcomeFailed, Failed(TaskStateConflict), id, s)
    else if Refusal(command, s).None? || !SafetyPolicy.Allowed(s.initial) then
      Ended(TaskQueue.OutcomeStopped, Stopped(SafetyStop), id, s)
    else Ended(TaskQueue.OutcomeFailed, Failed(Refusal(command, s).value), id, s)
  }

  /** Ended by one of the two looks. */
  function Looked(command: TaskQueue.PlaceInstruction, s: Script, aborted: bool, alarmed: bool): Outcome {
    var id := command.taskId;
    var before := AnswerOf(s.before, aborted);
    var alarmedBefore := AlarmedAfter(s.before, aborted, alarmed);
    if !before.Value? then PortEnded(before, alarmedBefore, id, s)
    else if before.value != Observation(command.target, Air) then
      Ended(TaskQueue.OutcomeFailed, Failed(UnexpectedBefore), id, s)
    else LookedDown(s, id, Disturbs(s.before.meanwhile), alarmedBefore)
  }

  function LookedDown(s: Script, id: string, aborted: bool, alarmed: bool): Outcome {
    var support := AnswerOf(s.support, aborted);
    if !support.Value? then PortEnded(support, AlarmedAfter(s.support, aborted, alarmed), id, s)
    else Ended(TaskQueue.OutcomeFailed, Failed(UnsupportedSupport), id, s)
  }

  /** From the record of the delivery on. */
  function SentOff(command: TaskQueue.PlaceInstruction, s: Script, aborted: bool, alarmed: bool): Outcome {
    var id := command.taskId;
    if Unsafe(s.beforeSend) then Ended(TaskQueue.OutcomeStopped, Stopped(SafetyStop), id, s)
    else if !NotesTheStart(id, s) then Broken(id, s)
    else
      Delivered(command, s, aborted || Disturbs(s.started.meanwhile), alarmed || Alarms(s.started.meanwhile))
  }

  function Delivered(command: TaskQueue.PlaceInstruction, s: Script, aborted: bool, alarmed: bool): Outcome {
    var id := command.taskId;
    if aborted || Disturbs(s.place.beforeStart) then
      PortEnded<()>(Cancelled, alarmed || (!aborted && Alarms(s.place.beforeStart)), id, s)
    else if Unsafe(s.atSend) then PortEnded<()>(Cancelled, true, id, s)
    else if !AnswerOf(s.place, false).Value? then
      PortEnded(AnswerOf(s.place, false), alarmed || Alarms(s.place.meanwhile), id, s)
    else if Disturbs(s.place.meanwhile) then
      Ended(TaskQueue.OutcomeStopped, Stopped(CancelledByCaller), id, s)
    else if Unsafe(s.afterSend) then Ended(TaskQueue.OutcomeStopped, Stopped(SafetyStop), id, s)
    else Checked(command, s, alarmed)
  }

  /** From the last look on. */
  function Checked(command: TaskQueue.PlaceInstruction, s: Script, alarmed: bool): Outcome {
    var id := command.taskId;
    var after := AnswerOf(s.after, false);
    if !after.Value? then PortEnded(after, AlarmedAfter(s.after, false, alarmed), id, s)
    else if after.value != Observation(command.target, Dirt) then
      Ended(TaskQueue.OutcomeFailed, Failed(UnexpectedAfter), id, s)
    else if !s.verified.committed then Broken(id, s)
    else Ended(TaskQueue.OutcomeCompleted, Completed(after.value), id, s)
  }

  /** What an execution answers, by its script alone. */
  function ResultOf(command: TaskQueue.PlaceInstruction, s: Script): Outcome
    requires StateStore.FinitePosition(s.initial.minecraft.position)
  {
    var aborted, alarmed := Disturbs(s.lookup.meanwhile), Alarms(s.lookup.meanwhile);
    if s.lookup.found.Err? then Broken(command.taskId, s)
    else if !FindsItsTask(command, s) then Failed(TaskNotClaimed)
    else if !MayStart(command, s) then Declined(command, s)
    else if aborted || !SeesItsPlace(command, s) then Looked(command, s, aborted, alarmed)
    else SentOff(command, s, Disturbs(s.support.meanwhile), alarmed || Alarms(s.support.meanwhile))
  }

  /** Results that leave the port stopped whatever the callbacks did. */
  predicate Halts(o: Outcome) {
    match o
    case Completed(_) => false
    case Stopped(_) => true
    case Failed(r) => r.TimedOut? || r.PortDisconnected? || r.PortFailed? || r.FinalizationError?
  }

  /** Callbacks add nothing but one stop of the port. */
  predicate StopAtMost(before: seq<Event>, now: seq<Event>) { now == before || now == before + [PortStopped] }

  class Coordinator {
    var active: Option<string>
    var aborted: bool
    var portStopped: bool
    var safetyStopped: bool
    var closed: bool
    var finalizationAttempted: bool
    /** The trace of the present or latest execution, and where it stands in the protocol. */
    ghost var trace: seq<Event>
    ghost var stage: Stage
    /** Whether the trace holds the record of a started delivery, and the call that sends. */
    ghost var startRecorded: bool
    ghost var sent: bool

    constructor ()
      ensures Valid() && active.None? && !closed && !aborted && !portStopped && !safetyStopped && trace == []
    {
      active, aborted, portStopped, safetyStopped, closed := None, false, false, false, false;
      finalizationAttempted := false;
      trace, stage, startRecorded, sent := [], Begun, false, false;
    }

    ghost predicate Valid()
      reads this
    {
      && Follow(trace) == Some(stage)
      && Count(trace, PortStopped) == (if portStopped then 1 else 0)
      && Count(trace, DeliveryRecorded) == (if startRecorded then 1 else 0)
      && Count(trace, PlaceCalled) == (if sent then 1 else 0)
      && (finalizationAttempted <==> stage.Finishing? || stage.Done?)
    }

    /** An execution is under way. Closing aborts it, and whatever aborts it stops the port. */
    ghost predicate Open()
      reads this
    {
      Valid() && active.Some? && (closed ==> aborted) && (aborted ==> portStopped)
    }

    ghost method Append(e: Event)
      modifies this`trace
      ensures trace == old(trace) + [e]
      ensures Follow(trace) == if Follow(old(trace)).None? then None else Advance(Follow(old(trace)).value, e)
      ensures Count(trace, PortStopped) == Count(old(trace), PortStopped) + if e == PortStopped then 1 else 0
      ensures Count(trace, DeliveryRecorded) ==
              Count(old(trace), DeliveryRecorded) + if e == DeliveryRecorded then 1 else 0
      ensures Count(trace, PlaceCalled) == Count(old(trace), PlaceCalled) + if e == PlaceCalled then 1 else 0
    {
      FollowAppend(trace, e);
      CountAppend(trace, e, PortStopped);
      CountAppend(trace, e, DeliveryRecorded);
      CountAppend(trace, e, PlaceCalled);
      trace := trace + [e];
    }

    ghost method Emit(e: Event)
      requires Valid() && Advance(stage, e).Some?
      requires !e.PortStopped? && !e.FinishAttempted? && !e.DeliveryRecorded? && !e.PlaceCalled?
      modifies this`trace, this`stage
      ensures Valid() && trace == old(trace) + [e] && stage == Advance(old(stage), e).value
    {
      Append(e);
      stage := Advance(stage, e).value;
    }

    ghost method EmitStart()
      requires Valid() && stage.SupportSolid?
      modifies this`trace, this`stage, this`startRecorded
      ensures Valid() && stage.Started? && startRecorded
    {
      AtMostOneOfEach(trace);
      Append(DeliveryRecorded);
      stage, startRecorded := Started, true;
    }

    ghost method EmitSend()
      requires Valid() && stage.Started?
      modifies this`trace, this`stage, this`sent
      ensures Valid() && stage.Placing? && sent
    {
      AtMostOneOfEach(trace);
      Append(PlaceCalled);
      stage, sent := Placing, true;
    }

    /** The port is told to stop at most once per execution. */
    method StopPortOnce()
      requires Valid()
      modifies this`portStopped, this`trace
      ensures Valid() && portStopped
      ensures trace == if old(portStopped) then old(trace) else old(trace) + [PortStopped]
    {
      if !portStopped {
        portStopped := true;
        Append(PortStopped);
      }
    }

    method Cancel()
      requires Valid()
      modifies this`aborted, this`portStopped, this`trace
      ensures Valid()
      ensures active.Some? ==> aborted
      ensures active.None? ==> aborted == old(aborted)
      ensures active.Some? && !old(aborted) ==> portStopped
      ensures StopAtMost(old(trace), trace)
    {
      if active.None? || aborted { return; }
      aborted := true;
      StopPortOnce();
    }

    method Close()
      requires Valid()
      modifies this`aborted, this`portStopped, this`trace, this`closed
      ensures Valid() && closed
      ensures active.Some? && !old(closed) ==> aborted
      ensures active.None? || old(closed) ==> aborted == old(aborted)
      ensures !old(closed) ==> portStopped
      ensures StopAtMost(old(trace), trace)
    {
      if closed { return; }
      closed := true;
      if active.Some? { aborted := true; }
      StopPortOnce();
    }

    /** The subscription an execution holds on the state store. */
    method OnStateChange(s: StateStore.Snapshot)
      requires Valid()
      modifies this`aborted, this`portStopped, this`safetyStopped, this`trace
      ensures Valid()
      ensures aborted == (old(aborted) || Unsafe(s)) && safetyStopped == (old(safetyStopped) || Unsafe(s))
      ensures portStopped == (old(portStopped) || Unsafe(s))
      ensures StopAtMost(old(trace), trace)
    {
      if Unsafe(s) {
        safetyStopped := true;
        aborted := true;
        StopPortOnce();
      }
    }

    method React(c: Callback)
      requires Open()
      modifies this`aborted, this`portStopped, this`safetyStopped, this`closed, this`trace
      ensures Open()
      ensures aborted == (old(aborted) || (c.StateChanged? ==> Unsafe(c.snapshot)))
      ensures safetyStopped == (old(safetyStopped) || (c.StateChanged? && Unsafe(c.snapshot)))
      ensures portStopped == (old(portStopped) || aborted)
      ensures closed == (old(closed) || c.CloseCalled?)
      ensures StopAtMost(old(trace), trace)
    {
      match c {
        case CancelCalled => Cancel();
        case CloseCalled => Close();
        case StateChanged(s) => OnStateChange(s);
      }
    }

    /** Callbacks run while an open execution waits; they can only stop the port and abort. */
    method Interleave(callbacks: seq<Callback>)
      requires Open()
      modifies this`aborted, this`portStopped, this`safetyStopped, this`closed, this`trace
      ensures Open()
      ensures portStopped == (old(portStopped) || aborted)
      ensures aborted == (old(aborted) || Disturbs(callbacks))
      ensures safetyStopped == (old(safetyStopped) || Alarms(callbacks))
      ensures StopAtMost(old(trace), trace)
    {
      for i := 0 to |callbacks|
        invariant Open()
        invariant aborted == (old(aborted) || Disturbs(callbacks[..i]))
        invariant safetyStopped == (old(safetyStopped) || Alarms(callbacks[..i]))
        invariant portStopped == (old(portStopped) || aborted)
        invariant StopAtMost(old(trace), trace)
      {
        assert callbacks[..i + 1] == callbacks[..i] + [callbacks[i]];
        OneMoreCallback(callbacks[..i], callbacks[i]);
        React(callbacks[i]);
      }
      assert callbacks[..|callbacks|] == callbacks;
    }

    /** The first half of a port call: it starts only if nothing has aborted by its first microtask. */
    method StartCall(beforeStart: seq<Callback>) returns (starts: bool)
      requires Open()
      modifies this`aborted, this`portStopped, this`safetyStopped, this`closed, this`trace
      ensures Open()
      ensures portStopped == (old(portStopped) || aborted)
      ensures starts <==> !aborted
      ensures starts <==> !old(aborted) && !Disturbs(beforeStart)
      ensures safetyStopped == (old(safetyStopped) || (!old(aborted) && Alarms(beforeStart)))
      ensures StopAtMost(old(trace), trace)
    {
      if aborted { return false; }
      Interleave(beforeStart);
      starts := !aborted;
    }

    /** The second half: whichever of call and timer settles first, unless the execution was aborted. */
    method EndCall<T>(meanwhile: seq<Callback>, race: Race<T>) returns (r: PortResult<T>)
      requires Open()
      modifies this`aborted, this`portStopped, this`safetyStopped, this`closed, this`trace
      ensures Open()
      ensures portStopped == (old(portStopped) || aborted)
      ensures aborted == (old(aborted) || Disturbs(meanwhile))
      ensures safetyStopped == (old(safetyStopped) || Alarms(meanwhile))
      ensures r.Value? <==> race.Returned?
      ensures r.Value? ==> r.value == race.value
      ensures !r.Value? ==>
                r == if aborted then Cancelled else if race.TimerFired? then Timeout else Error(race.error)
      ensures StopAtMost(old(trace), trace)
    {
      Interleave(meanwhile);
      match race {
        case Returned(v) => r := Value(v);
        case Threw(e) => r := if aborted then Cancelled else Error(e);
        case TimerFired => r := if aborted then Cancelled else Timeout;
      }
    }

    method Observe(call: PortCall<Observation>) returns (r: PortResult<Observation>)
      requires Open()
      modifies this`aborted, this`portStopped, this`safetyStopped, this`closed, this`trace
      ensures Open()
      ensures portStopped == (old(portStopped) || aborted)
      ensures aborted == (old(aborted) || Disturbs(call.beforeStart) || Disturbs(call.meanwhile))
      ensures r == AnswerOf(call, old(aborted))
      ensures safetyStopped == AlarmedAfter(call, old(aborted), old(safetyStopped))
      ensures StopAtMost(old(trace), trace)
    {
      var starts := StartCall(call.beforeStart);
      if !starts { return Cancelled; }
      r := EndCall(call.meanwhile, call.race);
    }

    /** The only world-changing call: the policy is asked once more in the very step that sends. */
    method Place(call: PortCall<()>, atSend: StateStore.Snapshot) returns (r: PortResult<()>)
      requires Open() && stage.Started?
      requires !sent
      modifies this`aborted, this`portStopped, this`safetyStopped, this`closed, this`trace, this`stage, this`sent
      ensures Open()
      ensures portStopped == (old(portStopped) || aborted)
      ensures sent <==> !old(aborted) && !Disturbs(call.beforeStart) && !Unsafe(atSend)
      ensures !sent ==> aborted
      ensures r.Value? <==> sent && call.race.Returned?
      ensures r.Value? ==> stage.Placed? && aborted == Disturbs(call.meanwhile)
      ensures !r.Value? ==> if sent then stage.Placing? else stage.Started? && r.Cancelled?
      ensures sent ==> r == AnswerOf(call, false) && safetyStopped == (old(safetyStopped) || Alarms(call.meanwhile))
      ensures !sent ==>
                safetyStopped == (|| old(safetyStopped) || (!old(aborted) && Alarms(call.beforeStart))
                                  || (!old(aborted) && !Disturbs(call.beforeStart)))
    {
      var starts := StartCall(call.beforeStart);
      if !starts { return Cancelled; }
      if Unsafe(atSend) {
        safetyStopped := true;
        aborted := true;
        StopPortOnce();
        return Cancelled;
      }
      EmitSend();
      r := EndCall(call.meanwhile, call.race);
      if r.Value? { Emit(PlaceResolved); }
    }

    method BeginFinish(o: TaskQueue.Outcome)
      requires Valid() && Advance(stage, FinishAttempted(o)).Some?
      modifies this`trace, this`stage, this`finalizationAttempted
      ensures Valid() && finalizationAttempted && stage == Finishing(o)
    {
      Append(FinishAttempted(o));
      finalizationAttempted := true;
      stage := Finishing(o);
    }

    /** The command to the state store, issued only for a task of this id that is under way; false stands for
        a thrown error. */
    method EndInState(id: string, o: TaskQueue.Outcome, s: Script) returns (ended: bool)
      ensures ended <==> StateAcceptsEnd(s.atFinish, id, o, s.finishClock)
    {
      StateAcceptsEndInStore(s.atFinish, id, o, s.finishClock);
      if !EndIssued(s.atFinish, id) { return true; }
      ended := StateStore.Dispatched(s.atFinish, StateStore.TaskTransition(TaskEnd(o)), s.finishClock).Ok?;
    }

    /** End the task in the state store, then in the queue; false stands for a thrown error. */
    method Finalize(id: string, o: TaskQueue.Outcome, s: Script) returns (recorded: bool)
      requires Open()
      requires Advance(stage, FinishAttempted(o)).Some?
      modifies this`aborted, this`portStopped, this`safetyStopped, this`closed, this`trace, this`stage,
               this`finalizationAttempted
      ensures Open() && finalizationAttempted
      ensures portStopped == (old(portStopped) || aborted)
      ensures old(aborted) ==> aborted
      ensures stage == if recorded then Done(o) else Finishing(o)
      ensures recorded <==> Finalizes(id, o, s)
      ensures recorded <==>
                var task := s.atFinish.task;
                var underWay := task.id == Some(id) &&
                                task.state in {StateStore.Preparing, StateStore.Running, StateStore.Paused};
                && s.finished.committed
                && (underWay ==> s.finishClock.Some? && (o.OutcomeCompleted? ==> task.state.Running?))
      ensures recorded ==> safetyStopped == (old(safetyStopped) || Alarms(s.finished.meanwhile))
    {
      BeginFinish(o);
      var ended := EndInState(id, o, s);
      if !ended { return false; }
      Interleave(s.finished.meanwhile);
      if !s.finished.committed { return false; }
      Emit(FinishRecorded(o));
      recorded := true;
    }

    /** A failed port call ends the execution; None stands for a thrown error. */
    method PortFailure<T>(result: PortResult<T>, id: string, s: Script) returns (r: Option<Outcome>)
      requires Open() && !finalizationAttempted
      requires !result.Value?
      modifies this`aborted, this`portStopped, this`safetyStopped, this`closed, this`trace, this`stage,
               this`finalizationAttempted
      ensures Open() && finalizationAttempted && portStopped
      ensures Ends(r)
      ensures r.Some? <==>
                Finalizes(id, if result.Cancelled? then TaskQueue.OutcomeStopped else TaskQueue.OutcomeFailed, s)
      ensures r.Some? ==>
                var alarmed := old(safetyStopped) || Alarms(s.finished.meanwhile);
                && (r.value == Stopped(SafetyStop) <==> result.Cancelled? && alarmed)
                && (r.value == Stopped(CancelledByCaller) <==> result.Cancelled? && !alarmed)
                && (r.value == Failed(TimedOut) <==> result.Timeout?)
                && (r.value == Failed(UnsupportedAdapter) <==> result == Error(Unsupported))
                && (r.value == Failed(PortDisconnected) <==> result == Error(LostConnection))
                && (r.value == Failed(PortFailed) <==> result in {Error(OperationFailed), Error(UnknownError)})
      ensures Final(r, id, s) == PortEnded(result, old(safetyStopped), id, s)
    {
      StopPortOnce();
      assert Valid() && !finalizationAttempted;
      var recorded :=
        Finalize(id, if result.Cancelled? then TaskQueue.OutcomeStopped else TaskQueue.OutcomeFailed, s);
      r := if recorded then Some(PortEnd(result, safetyStopped)) else None;
    }

    /** What a result comes to; without one an error was thrown, and is handled. */
    ghost function Final(r: Option<Outcome>, id: string, s: Script): Outcome
      reads this`finalizationAttempted
    {
      if r.Some? then r.value else if finalizationAttempted then Failed(FinalizationError) else Broken(id, s)
    }

    /** A finalized execution with a result has its end recorded under the matching outcome, and the port is
        stopped if the result is a stop or its failure. */
    ghost predicate Ends(r: Option<Outcome>)
      reads this
    {
      (r.Some? && Halts(r.value) ==> portStopped) &&
      match r
      case Some(Completed(_)) => stage == Done(TaskQueue.OutcomeCompleted)
      case Some(Stopped(_)) => stage == Done(TaskQueue.OutcomeStopped)
      case Some(Failed(reason)) => reason.TaskNotClaimed? || stage == Done(TaskQueue.OutcomeFailed)
      case None => finalizationAttempted ==> stage.Finishing?
    }

    method Fail(reason: FailureReason, id: string, s: Script) returns (r: Option<Outcome>)
      requires Open() && !finalizationAttempted && !Halts(Failed(reason))
      modifies this`aborted, this`portStopped, this`safetyStopped, this`closed, this`trace, this`stage,
               this`finalizationAttempted
      ensures Open() && finalizationAttempted
      ensures portStopped == (old(portStopped) || aborted)
      ensures Ends(r) && (r.Some? ==> r.value == Failed(reason))
      ensures Final(r, id, s) == Ended(TaskQueue.OutcomeFailed, Failed(reason), id, s)
    {
      var recorded := Finalize(id, TaskQueue.OutcomeFailed, s);
      r := if recorded then Some(Failed(reason)) else None;
    }

    method StopForSafety(id: string, s: Script) returns (r: Option<Outcome>)
      requires Open() && !finalizationAttempted
      modifies this`aborted, this`portStopped, this`safetyStopped, this`closed, this`trace, this`stage,
               this`finalizationAttempted
      ensures Open() && finalizationAttempted && portStopped
      ensures Ends(r) && (r.Some? ==> r.value == Stopped(SafetyStop))
      ensures Final(r, id, s) == Ended(TaskQueue.OutcomeStopped, Stopped(SafetyStop), id, s)
    {
      StopPortOnce();
      var recorded := Finalize(id, TaskQueue.OutcomeStopped, s);
      r := if recorded then Some(Stopped(SafetyStop)) else None;
    }

    /** The checks of policy and instruction, before the port is used. */
    method Permit(command: TaskQueue.PlaceInstruction, s: Script) returns (done: bool, r: Option<Outcome>)
      requires Open() && stage.Matched?
      requires StateStore.Sound(s.initial)
      modifies this`aborted, this`portStopped, this`safetyStopped, this`closed, this`trace, this`stage,
               this`finalizationAttempted
      ensures Open()
      ensures done ==> finalizationAttempted && Ends(r) && (r.Some? ==> Ordinary(r.value) && !r.value.Completed?)
      ensures !done ==> stage.Matched? && r.None? && aborted == old(aborted) && safetyStopped == old(safetyStopped)
      ensures !done <==> MayStart(command, s)
      ensures done ==> Final(r, command.taskId, s) == Declined(command, s)
    {
      var id := command.taskId;
      if !s.initial.task.state.Idle? {
        r := Fail(TaskStateConflict, id, s);
        return true, r;
      }
      SafetyPolicy.AllowedExactly(s.initial, SafetyPolicy.Start);
      if !SafetyPolicy.Evaluate(s.initial, SafetyPolicy.Start).disposition.Allow? {
        r := StopForSafety(id, s);
        return true, r;
      }
      var refusal := Refusal(command, s);
      if refusal.Some? {
        r := Fail(refusal.value, id, s);
        return true, r;
      }
      return false, None;
    }

    /** From the claimed row to the checks that need no port. On success nothing has been finalized;
        otherwise the execution has ended, or threw. */
    method Admit(command: TaskQueue.PlaceInstruction, s: Script) returns (done: bool, r: Option<Outcome>)
      requires Open() && stage.Begun?
      requires StateStore.Sound(s.initial)
      modifies this`aborted, this`portStopped, this`safetyStopped, this`closed, this`trace, this`stage,
               this`finalizationAttempted
      ensures Open()
      ensures !done <==> FindsItsTask(command, s) && MayStart(command, s)
      ensures !done ==> stage.Matched? && r.None? && aborted == (old(aborted) || Disturbs(s.lookup.meanwhile))
      ensures !done ==> safetyStopped == (old(safetyStopped) || Alarms(s.lookup.meanwhile))
      ensures s.lookup.found.Err? ==> r.None? && !finalizationAttempted
      ensures s.lookup.found.Ok? && !FindsItsTask(command, s) ==> r == Some(Failed(TaskNotClaimed))
      ensures done && FindsItsTask(command, s) ==> Final(r, command.taskId, s) == Declined(command, s)
      ensures done ==> Ends(r) && (r.Some? ==> !r.value.Completed?)
      ensures !finalizationAttempted && done ==> stage.Begun?
      ensures r.Some? && !finalizationAttempted ==> r.value == Failed(TaskNotClaimed)
      ensures r.Some? && finalizationAttempted ==> Ordinary(r.value)
    {
      Interleave(s.lookup.meanwhile);
      if s.lookup.found.Err? { return true, None; }
      if !FindsItsTask(command, s) {
        return true, Some(Failed(TaskNotClaimed));
      }
      Emit(TaskMatched);
      done, r := Permit(command, s);
    }

    /** The sight of the support, after that of the target. */
    method InspectSupport(command: TaskQueue.PlaceInstruction, s: Script) returns (done: bool, r: Option<Outcome>)
      requires Open() && stage.TargetAir?
      requires TaskQueue.ValidPlaceInstruction(command)
      modifies this`aborted, this`portStopped, this`safetyStopped, this`closed, this`trace, this`stage,
               this`finalizationAttempted
      ensures Open()
      ensures !done <==> SeesSupport(command, s, old(aborted))
      ensures !done ==> stage.SupportSolid? && r.None? && aborted == Disturbs(s.support.meanwhile)
      ensures !done ==> safetyStopped == (old(safetyStopped) || Alarms(s.support.meanwhile))
      ensures done ==> finalizationAttempted && Ends(r) && (r.Some? ==> Ordinary(r.value) && !r.value.Completed?)
      ensures done ==> Final(r, command.taskId, s) == LookedDown(s, command.taskId, old(aborted), old(safetyStopped))
    {
      var id := command.taskId;
      var support := Observe(s.support);
      if !support.Value? {
        r := PortFailure(support, id, s);
        return true, r;
      }
      if !TaskQueue.ValidBlockPosition(support.value.position) || support.value.position != command.support {
        r := Fail(UnsupportedSupport, id, s);
        return true, r;
      }
      Emit(SupportSeen(support.value.block));
      if support.value.block.Air? {
        r := Fail(UnsupportedSupport, id, s);
        return true, r;
      }
      return false, None;
    }

    /** The first sight of target and support. */
    method Inspect(command: TaskQueue.PlaceInstruction, s: Script) returns (done: bool, r: Option<Outcome>)
      requires Open() && stage.Matched?
      requires TaskQueue.ValidPlaceInstruction(command)
      modifies this`aborted, this`portStopped, this`safetyStopped, this`closed, this`trace, this`stage,
               this`finalizationAttempted
      ensures Open()
      ensures !done <==> !old(aborted) && SeesItsPlace(command, s)
      ensures !done ==> stage.SupportSolid? && r.None? && aborted == Disturbs(s.support.meanwhile)
      ensures !done ==> safetyStopped == (old(safetyStopped) || Alarms(s.support.meanwhile))
      ensures done ==> Final(r, command.taskId, s) == Looked(command, s, old(aborted), old(safetyStopped))
      ensures done ==> finalizationAttempted && Ends(r) && (r.Some? ==> Ordinary(r.value) && !r.value.Completed?)
    {
      var id := command.taskId;
      var before := Observe(s.before);
      if !before.Value? {
        r := PortFailure(before, id, s);
        return true, r;
      }
      if !TaskQueue.ValidBlockPosition(before.value.position) || before.value.position != command.target {
        r := Fail(UnexpectedBefore, id, s);
        return true, r;
      }
      Emit(TargetSeen(before.value.block));
      if !before.value.block.Air? {
        r := Fail(UnexpectedBefore, id, s);
        return true, r;
      }
      done, r := InspectSupport(command, s);
    }

    /** Send once, after the delivery was recorded. On success the placement has resolved. */
    method Deliver(command: TaskQueue.PlaceInstruction, s: Script) returns (done: bool, r: Option<Outcome>)
      requires Open() && stage.Started? && !sent
      modifies this`aborted, this`portStopped, this`safetyStopped, this`closed, this`trace, this`stage,
               this`finalizationAttempted, this`sent
      ensures Open()
      ensures Ends(r) && (r.Some? ==> finalizationAttempted && Ordinary(r.value) && !r.value.Completed?)
      ensures sent <==> !old(aborted) && !Disturbs(s.place.beforeStart) && !Unsafe(s.atSend)
      ensures !done <==> sent && FollowsUp(s)
      ensures !done ==> stage.Placed? && r.None? && !aborted && safetyStopped == old(safetyStopped)
      ensures SoFar(done, r, command, s) == Delivered(command, s, old(aborted), old(safetyStopped))
    {
      var id := command.taskId;
      var placed := Place(s.place, s.atSend);
      if !placed.Value? {
        r := PortFailure(placed, id, s);
        return true, r;
      }
      if aborted {
        StopPortOnce();
        var stopped := Finalize(id, TaskQueue.OutcomeStopped, s);
        return true, if stopped then Some(Stopped(CancelledByCaller)) else None;
      }
      if Unsafe(s.afterSend) {
        r := StopForSafety(id, s);
        return true, r;
      }
      return false, None;
    }

    /** Record that delivery starts, then send. */
    method Send(command: TaskQueue.PlaceInstruction, s: Script) returns (done: bool, r: Option<Outcome>)
      requires Open() && stage.SupportSolid? && !startRecorded && !sent
      modifies this`aborted, this`portStopped, this`safetyStopped, this`closed, this`trace, this`stage,
               this`finalizationAttempted, this`startRecorded, this`sent
      ensures Open()
      ensures Ends(r) && (r.Some? ==> finalizationAttempted && Ordinary(r.value) && !r.value.Completed?)
      ensures startRecorded <==> NotesTheStart(command.taskId, s)
      ensures sent <==> startRecorded && !old(aborted) && SendsNow(s)
      ensures !done <==> sent && FollowsUp(s)
      ensures !done ==> stage.Placed? && r.None? && !aborted
      ensures SoFar(done, r, command, s) == SentOff(command, s, old(aborted), old(safetyStopped))
    {
      var id := command.taskId;
      if Unsafe(s.beforeSend) {
        r := StopForSafety(id, s);
        return true, r;
      }
      if !PreparesAndRuns(s.beforeSend, id, s.prepareClock, s.runClock) { return true, None; }
      Interleave(s.started.meanwhile);
      if !s.started.committed { return true, None; }
      EmitStart();
      done, r := Deliver(command, s);
    }

    /** What it comes to, with the last look still ahead if it is not done. */
    ghost function SoFar(done: bool, r: Option<Outcome>, command: TaskQueue.PlaceInstruction, s: Script): Outcome
      reads this`finalizationAttempted, this`safetyStopped
    {
      if done then Final(r, command.taskId, s) else Checked(command, s, safetyStopped)
    }

    /** Only the server's own view of the target counts as success. */
    method Verify(command: TaskQueue.PlaceInstruction, s: Script) returns (r: Option<Outcome>)
      requires Open() && stage.Placed? && !aborted
      requires TaskQueue.ValidPlaceInstruction(command)
      modifies this`aborted, this`portStopped, this`safetyStopped, this`closed, this`trace, this`stage,
               this`finalizationAttempted
      ensures Open()
      ensures Ends(r) && (r.Some? ==> finalizationAttempted && Ordinary(r.value))
      ensures r.Some? && r.value.Completed? <==> Verifies(command, s)
      ensures r.Some? && r.value.Completed? ==> r.value.observation == Observation(command.target, Dirt)
      ensures Final(r, command.taskId, s) == Checked(command, s, old(safetyStopped))
    {
      var id := command.taskId;
      var after := Observe(s.after);
      if !after.Value? {
        r := PortFailure(after, id, s);
        return;
      }
      if !TaskQueue.ValidBlockPosition(after.value.position) || after.value.position != command.target {
        r := Fail(UnexpectedAfter, id, s);
        return;
      }
      Emit(TargetSeen(after.value.block));
      if !after.value.block.Dirt? {
        r := Fail(UnexpectedAfter, id, s);
        return;
      }
      var completed := Confirm(id, s);
      return if completed then Some(Completed(after.value)) else None;
    }

    /** Record the verification, then the completed end; false stands for a thrown error. */
    method Confirm(id: string, s: Script) returns (completed: bool)
      requires Open() && stage.TargetDirt?
      modifies this`aborted, this`portStopped, this`safetyStopped, this`closed, this`trace, this`stage,
               this`finalizationAttempted
      ensures Open()
      ensures portStopped == (old(portStopped) || aborted)
      ensures completed <==> s.verified.committed && Finalizes(id, TaskQueue.OutcomeCompleted, s)
      ensures completed ==> stage == Done(TaskQueue.OutcomeCompleted)
      ensures !completed && finalizationAttempted ==> stage.Finishing?
      ensures finalizationAttempted <==> s.verified.committed
      ensures Disturbs(s.verified.meanwhile) ==> aborted
    {
      Interleave(s.verified.meanwhile);
      if !s.verified.committed { return false; }
      Emit(VerificationRecorded);
      completed := Finalize(id, TaskQueue.OutcomeCompleted, s);
    }

    /** The handler for anything thrown: stop the port, and finalize unless that was tried already. */
    method Recover(id: string, s: Script) returns (r: Outcome)
      requires Open()
      requires finalizationAttempted ==> stage.Finishing?
      modifies this`aborted, this`portStopped, this`safetyStopped, this`closed, this`trace, this`stage,
               this`finalizationAttempted
      ensures Open()
      ensures r.Failed? && Recorded(r) && r == old(Final(None, id, s)) && portStopped
    {
      StopPortOnce();
      if finalizationAttempted { return Failed(FinalizationError); }
      var recorded := Finalize(id, TaskQueue.OutcomeFailed, s);
      r := Failed(if recorded then PortFailed else FinalizationError);
    }

    /** Up to the point where the delivery is to be recorded. */
    method Approach(command: TaskQueue.PlaceInstruction, s: Script) returns (done: bool, r: Option<Outcome>)
      requires Open() && stage.Begun?
      requires !aborted && !safetyStopped && StateStore.Sound(s.initial) && TaskQueue.ValidPlaceInstruction(command)
      modifies this`aborted, this`portStopped, this`safetyStopped, this`closed, this`trace, this`stage,
               this`finalizationAttempted
      ensures Open()
      ensures !done <==> && FindsItsTask(command, s) && MayStart(command, s)
                         && !Disturbs(s.lookup.meanwhile) && SeesItsPlace(command, s)
      ensures !done ==> stage.SupportSolid? && r.None? && aborted == Disturbs(s.support.meanwhile)
      ensures !done ==> safetyStopped == (Alarms(s.lookup.meanwhile) || Alarms(s.support.meanwhile))
      ensures done ==> Ends(r) && (r.Some? ==> Recorded(r.value) && !r.value.Completed?)
      ensures done ==> Final(r, command.taskId, s) == ResultOf(command, s)
    {
      done, r := Admit(command, s);
      if !done { done, r := Inspect(command, s); }
    }

    method Attempt(command: TaskQueue.PlaceInstruction, s: Script) returns (r: Outcome)
      requires Open() && stage.Begun?
      requires !aborted && !safetyStopped && !startRecorded && !sent
      requires StateStore.Sound(s.initial) && TaskQueue.ValidPlaceInstruction(command)
      modifies this`aborted, this`portStopped, this`safetyStopped, this`closed, this`trace, this`stage,
               this`finalizationAttempted, this`startRecorded, this`sent
      ensures Valid() && Recorded(r) && (Halts(r) ==> portStopped)
      ensures startRecorded <==> RecordsStart(command, s)
      ensures sent <==> Places(command, s)
      ensures r.Completed? <==> Completes(command, s)
      ensures r.Completed? ==> r.observation == Observation(command.target, Dirt)
      ensures r == ResultOf(command, s)
    {
      var done, outcome := Approach(command, s);
      if !done { done, outcome := Send(command, s); }
      if !done { outcome := Verify(command, s); }
      if outcome.None? { r := Recover(command.taskId, s); } else { r := outcome.value; }
    }

    /** The attempt, and what its trace holds. */
    method Undertake(command: TaskQueue.PlaceInstruction, s: Script) returns (r: Outcome)
      requires Open() && stage.Begun?
      requires !aborted && !safetyStopped && !startRecorded && !sent
      requires StateStore.Sound(s.initial) && TaskQueue.ValidPlaceInstruction(command)
      modifies this`aborted, this`portStopped, this`safetyStopped, this`closed, this`trace, this`stage,
               this`finalizationAttempted, this`startRecorded, this`sent
      ensures Valid() && Recorded(r)
      ensures Halts(r) ==> PortStopped in trace
      ensures Count(trace, PortStopped) <= 1 && Count(trace, PlaceCalled) <= 1 && Finishes(trace) <= 1
      ensures r.Completed? ==> StorySoFar(Done(TaskQueue.OutcomeCompleted), Core(trace))
                               && r.observation == Observation(command.target, Dirt)
      ensures DeliveryRecorded in trace <==> RecordsStart(command, s)
      ensures PlaceCalled in trace <==> Places(command, s)
      ensures PlaceCalled in trace ==> InReach(command, s.initial)
      ensures r.Completed? <==> Completes(command, s)
      ensures r == ResultOf(command, s)
    {
      r := Attempt(command, s);
      CountedIsIn(trace, DeliveryRecorded);
      CountedIsIn(trace, PlaceCalled);
      CountedIsIn(trace, PortStopped);
      AtMostOneOfEach(trace);
      if r.Completed? { CompletedStory(trace); }
      if Places(command, s) { PlacesInReach(command, s); }
    }

    /** The whole of execute. Whatever the surroundings do: the trace follows the protocol; the port is stopped
        at most once; every result but the two that say so has its end recorded; and the script decides exactly
        when the delivery is recorded, when the world is changed, and when the result is a completed one, which
        means the successful story and nothing else. */
    method Execute(command: TaskQueue.PlaceInstruction, s: Script) returns (r: Result<Outcome, ExecuteError>)
      requires Valid() && StateStore.Sound(s.initial)
      modifies this
      ensures Valid()
      ensures r.Err? <==> old(closed) || old(active).Some?
      ensures r.Err? ==> r.error == if old(closed) then OperationClosed else AlreadyActive
      ensures r.Err? ==> trace == old(trace) && active == old(active)
      ensures r.Ok? && !TaskQueue.ValidPlaceInstruction(command) ==>
                r.value == Failed(InvalidInstruction) && trace == old(trace)
      ensures r.Ok? && TaskQueue.ValidPlaceInstruction(command) ==>
                && active.None? && aborted
                && Count(trace, PortStopped) <= 1 && Count(trace, PlaceCalled) <= 1 && Finishes(trace) <= 1
                && Recorded(r.value)
                && (r.value.Completed? ==> StorySoFar(Done(TaskQueue.OutcomeCompleted), Core(trace))
                                           && r.value.observation == Observation(command.target, Dirt))
      ensures r.Ok? && TaskQueue.ValidPlaceInstruction(command) ==>
                && (DeliveryRecorded in trace <==> RecordsStart(command, s))
                && (PlaceCalled in trace <==> Places(command, s))
                && (r.value.Completed? <==> Completes(command, s))
                && r.value == ResultOf(command, s)
                && (PlaceCalled in trace ==> InReach(command, s.initial))
                && (Halts(r.value) ==> PortStopped in trace)
    {
      if closed { return Err(OperationClosed); }
      if active.Some? { return Err(AlreadyActive); }
      if !TaskQueue.ValidPlaceInstruction(command) { return Ok(Failed(InvalidInstruction)); }
      active := Some(command.taskId);
      aborted, portStopped, safetyStopped, finalizationAttempted := false, false, false, false;
      trace, stage, startRecorded, sent := [], Begun, false, false;
      var outcome := Undertake(command, s);
      aborted := true;
      active := None;
      r := Ok(outcome);
    }

    /** What each result says about the recorded end of the task. */
    ghost predicate Recorded(o: Outcome)
      reads this
    {
      match o
      case Completed(_) => stage == Done(TaskQueue.OutcomeCompleted)
      case Stopped(_) => stage == Done(TaskQueue.OutcomeStopped)
      case Failed(FinalizationError) => stage.Finishing?
      case Failed(TaskNotClaimed) => stage == Begun
      case Failed(_) => stage == Done(TaskQueue.OutcomeFailed)
    }
  }

  lemma OneMoreCallback(callbacks: seq<Callback>, c: Callback)
    ensures Disturbs(callbacks + [c]) <==> Disturbs(callbacks) || (c.StateChanged? ==> Unsafe(c.snapshot))
    ensures Alarms(callbacks + [c]) <==> Alarms(callbacks) || (c.StateChanged? && Unsafe(c.snapshot))
  {
    forall i | 0 <= i < |callbacks| ensures (callbacks + [c])[i] == callbacks[i] {}
    assert (callbacks + [c])[|callbacks|] == c;
  }

  // ---------------------------------------------------------------- reach

  /** The bot stands in the target's dimension, no further from it than the reach: in a straight line, and so
      in each coordinate. */
  predicate InReach(command: TaskQueue.PlaceInstruction, s: StateStore.Snapshot) {
    && s.minecraft.dimension == Some(command.target.dimension)
    && s.minecraft.position.Some?
    && var p, t, reach := s.minecraft.position.value, command.target, command.maxReach;
    && p.x.Finite? && p.y.Finite? && p.z.Finite?
    && var x, y, z := p.x.value - t.x as real, p.y.value - t.y as real, p.z.value - t.z as real;
    && -reach <= x <= reach && -reach <= y <= reach && -reach <= z <= reach
    && x * x + y * y + z * z <= reach * reach
  }

  /** An allowed start is refused for its position exactly if that is unknown or out of reach, whichever it
      is, and otherwise exactly if the adapter cannot place. */
  lemma RefusalMeans(command: TaskQueue.PlaceInstruction, s: Script)
    requires StateStore.FinitePosition(s.initial.minecraft.position) && command.maxReach > 0.0
    ensures var known := s.initial.minecraft.position.Some? && s.initial.minecraft.dimension.Some?;
            && (Refusal(command, s) == Some(InvalidPosition) <==> !known)
            && (Refusal(command, s) == Some(OutOfReach) <==> known && !InReach(command, s.initial))
            && (Refusal(command, s) == Some(UnsupportedAdapter) <==> InReach(command, s.initial) && !s.supported)
            && (Refusal(command, s).None? <==> InReach(command, s.initial) && s.supported)
  {
    if s.initial.minecraft.position.Some? {
      var p, t := s.initial.minecraft.position.value, command.target;
      var x, y, z := p.x.value - t.x as real, p.y.value - t.y as real, p.z.value - t.z as real;
      if !BlockDistance.Farther(x, y, z, command.maxReach) { BlockDistance.EachWithinReach(x, y, z, command.maxReach); }
    }
  }

  lemma PlacesInReach(command: TaskQueue.PlaceInstruction, s: Script)
    requires StateStore.FinitePosition(s.initial.minecraft.position) && command.maxReach > 0.0
    requires Places(command, s)
    ensures InReach(command, s.initial)
  {
    RefusalMeans(command, s);
  }

  /** Found and allowed, but beyond the reach: that is the answer, if the end can be recorded. */
  lemma BeyondReachIsAnswered(command: TaskQueue.PlaceInstruction, s: Script)
    requires StateStore.FinitePosition(s.initial.minecraft.position) && command.maxReach > 0.0
    requires FindsItsTask(command, s) && s.initial.task.state.Idle? && SafetyPolicy.Allowed(s.initial)
    requires s.initial.minecraft.position.Some? && s.initial.minecraft.dimension.Some? && !InReach(command, s.initial)
    ensures var recorded := Finalizes(command.taskId, TaskQueue.OutcomeFailed, s);
            ResultOf(command, s) == Failed(if recorded then OutOfReach else FinalizationError)
  {
    RefusalMeans(command, s);
  }

  // ---------------------------------------------------------------- who has stopped it

  /** Somebody cancels, or closes the coordinator. */
  predicate Called(callbacks: seq<Callback>) { CancelCalled in callbacks || CloseCalled in callbacks }

  lemma CalledOrAlarmed(callbacks: seq<Callback>)
    requires Disturbs(callbacks)
    ensures Called(callbacks) || Alarms(callbacks)
  {
    var i :| 0 <= i < |callbacks| && (callbacks[i].StateChanged? ==> Unsafe(callbacks[i].snapshot));
    assert callbacks[i] in callbacks;
  }

  predicate CalledIn<T>(call: PortCall<T>) { Called(call.beforeStart) || Called(call.meanwhile) }

  predicate CalledAnywhere(s: Script) {
    || Called(s.lookup.meanwhile) || CalledIn(s.before) || CalledIn(s.support) || Called(s.started.meanwhile)
    || CalledIn(s.place) || CalledIn(s.after)
  }

  lemma AbortedByWhom<T>(call: PortCall<T>, aborted: bool, alarmed: bool)
    requires AnswerOf(call, aborted).Cancelled? && !AlarmedAfter(call, aborted, alarmed)
    ensures aborted || CalledIn(call)
  {
    if Disturbs(call.beforeStart) { CalledOrAlarmed(call.beforeStart); }
    if Disturbs(call.meanwhile) { CalledOrAlarmed(call.meanwhile); }
  }

  /** An execution reported as cancelled was cancelled or closed by somebody, but for one whose send resolved
      although the state had stopped the work meanwhile: that is put down to the caller as well. */
  lemma CancelledMeans(command: TaskQueue.PlaceInstruction, s: Script)
    requires StateStore.FinitePosition(s.initial.minecraft.position)
    requires ResultOf(command, s) == Stopped(CancelledByCaller)
    ensures CalledAnywhere(s) || (Places(command, s) && s.place.race.Returned? && Alarms(s.place.meanwhile))
  {
    if Disturbs(s.lookup.meanwhile) { CalledOrAlarmed(s.lookup.meanwhile); }
    var aborted, alarmed := Disturbs(s.lookup.meanwhile), Alarms(s.lookup.meanwhile);
    if aborted || !SeesItsPlace(command, s) {
      if !AnswerOf(s.before, aborted).Value? {
        AbortedByWhom(s.before, aborted, alarmed);
      } else {
        if Disturbs(s.before.meanwhile) { CalledOrAlarmed(s.before.meanwhile); }
        AbortedByWhom(s.support, Disturbs(s.before.meanwhile), AlarmedAfter(s.before, aborted, alarmed));
      }
    } else {
      CancelledAfterwards(command, s);
    }
  }

  /** The same from the record of the delivery on. */
  lemma CancelledAfterwards(command: TaskQueue.PlaceInstruction, s: Script)
    requires StateStore.FinitePosition(s.initial.minecraft.position)
    requires FindsItsTask(command, s) && MayStart(command, s) && !Disturbs(s.lookup.meanwhile)
    requires SeesItsPlace(command, s) && ResultOf(command, s) == Stopped(CancelledByCaller)
    ensures CalledAnywhere(s) || (Places(command, s) && s.place.race.Returned? && Alarms(s.place.meanwhile))
  {
    if Disturbs(s.support.meanwhile) { CalledOrAlarmed(s.support.meanwhile); }
    if Disturbs(s.started.meanwhile) { CalledOrAlarmed(s.started.meanwhile); }
    if Disturbs(s.place.beforeStart) { CalledOrAlarmed(s.place.beforeStart); }
    if Disturbs(s.place.meanwhile) { CalledOrAlarmed(s.place.meanwhile); }
    if AnswerOf(s.after, false).Cancelled? && !AlarmedAfter(s.after, false, false) {
      AbortedByWhom(s.after, false, false);
    }
  }

  /** A state stops the work while the block is being sent, the send resolves, and nobody has cancelled. */
  lemma SafetyStopReportedAsCancelled(command: TaskQueue.PlaceInstruction)
    requires TaskQueue.ValidPlaceInstruction(command) && !StateStore.Blank(command.taskId)
    ensures var s := Hopeful(command).(place := PortCall([], [StateChanged(StateStore.Initial(0))], Returned(())));
            && StateStore.Sound(s.initial) && !CalledAnywhere(s) && Alarms(s.place.meanwhile)
            && ResultOf(command, s) == Stopped(CancelledByCaller)
  {
    HopefulCompletes(command);
    HopefulIsUnderWay(command);
    var s := Hopeful(command).(place := PortCall([], [StateChanged(StateStore.Initial(0))], Returned(())));
    SafetyPolicy.AllowedExactly(StateStore.Initial(0), SafetyPolicy.Continue);
    assert s.place.meanwhile[0] == StateChanged(StateStore.Initial(0));
    assert RecordsStart(command, s) && SendsNow(s);
  }

  // ---------------------------------------------------------------- recording and sending apart

  /** The script with nothing happening before the delivery is recorded. */
  function Calm(s: Script): Script {
    s.(lookup := s.lookup.(meanwhile := []), before := s.before.(beforeStart := [], meanwhile := []),
       support := s.support.(beforeStart := [], meanwhile := []))
  }

  /** What happens until the look at the support is under way. */
  function UpToTheSupport(s: Script): seq<Callback> {
    s.lookup.meanwhile + s.before.beforeStart + s.before.meanwhile + s.support.beforeStart
  }

  /** Of everything that can disturb an execution before its delivery is recorded, only what falls into the
      look at the support leaves the record standing; the send heeds that, too. */
  lemma OnlyTheSupportLookIsIgnored(command: TaskQueue.PlaceInstruction, s: Script)
    requires StateStore.FinitePosition(s.initial.minecraft.position)
    ensures RecordsStart(command, s) <==>
              && RecordsStart(command, Calm(s))
              && !Disturbs(UpToTheSupport(s))
    ensures Places(command, s) <==>
              && Places(command, Calm(s))
              && !Disturbs(UpToTheSupport(s) + s.support.meanwhile)
  {
    DisturbsConcat(s.lookup.meanwhile, s.before.beforeStart);
    DisturbsConcat(s.lookup.meanwhile + s.before.beforeStart, s.before.meanwhile);
    DisturbsConcat(s.lookup.meanwhile + s.before.beforeStart + s.before.meanwhile, s.support.beforeStart);
    DisturbsConcat(UpToTheSupport(s), s.support.meanwhile);
  }

  lemma DisturbsConcat(a: seq<Callback>, b: seq<Callback>)
    ensures Disturbs(a + b) <==> Disturbs(a) || Disturbs(b)
  {
    forall i | 0 <= i < |a| ensures (a + b)[i] == a[i] {}
    forall i | 0 <= i < |b| ensures (a + b)[|a| + i] == b[i] {}
  }

  /** A state in which the policy allows work, with the bot standing at its target. */
  function AtTheTarget(command: TaskQueue.PlaceInstruction): StateStore.Snapshot {
    var p := command.target;
    var position := StateStore.Position(StateStore.Finite(p.x as real), StateStore.Finite(p.y as real),
                                        StateStore.Finite(p.z as real));
    var full := Some(StateStore.Finite(20.0));
    StateStore.Initial(0).(
      runtime := StateStore.Ready,
      minecraft := StateStore.Minecraft(StateStore.Spawned, true, StateStore.Valid, Some(position),
                                        Some(p.dimension), full, full, false))
  }

  /** There, with the task under way. */
  function Busy(command: TaskQueue.PlaceInstruction): StateStore.Snapshot {
    var prepared := StateStore.Next(AtTheTarget(command), StateStore.TaskPrepare(command.taskId, PLACE_TYPE), Some(1));
    StateStore.Next(prepared, StateStore.TaskTransition(StateStore.Running), Some(2))
  }

  /** Everything goes as hoped, and nothing happens meanwhile. */
  function Hopeful(command: TaskQueue.PlaceInstruction): Script {
    var item := TaskQueue.TaskItem(
                  TaskQueue.TaskInstruction(command.taskId, TaskQueue.PlaceSingleDirtType, 0, 1,
                                            Some(TaskQueue.PlaceSingleDirt(command))),
                  TaskQueue.Claimed, 1, 0, 0, Some(0), None, TaskQueue.NotStarted);
    var here := AtTheTarget(command);
    var busy := Busy(command);
    var written := QueueCall([], true);
    Script(Lookup([], Ok(Some(item))), here, true,
           PortCall([], [], Returned(Observation(command.target, Air))),
           PortCall([], [], Returned(Observation(command.support, Dirt))),
           here, Some(1), Some(2), written, busy, PortCall([], [], Returned(())), busy,
           PortCall([], [], Returned(Observation(command.target, Dirt))), written, busy, Some(3), written)
  }

  lemma HopefulIsAdmitted(command: TaskQueue.PlaceInstruction)
    requires TaskQueue.ValidPlaceInstruction(command)
    ensures StateStore.Sound(Hopeful(command).initial)
    ensures FindsItsTask(command, Hopeful(command)) && MayStart(command, Hopeful(command))
    ensures !Unsafe(AtTheTarget(command))
  {
    assert command.maxReach * command.maxReach >= 0.0;
  }

  lemma HopefulIsUnderWay(command: TaskQueue.PlaceInstruction)
    requires TaskQueue.ValidPlaceInstruction(command) && !StateStore.Blank(command.taskId)
    ensures var busy := Busy(command);
            && busy.task.id == Some(command.taskId) && busy.task.state.Running?
            && busy.stopReason == AtTheTarget(command).stopReason && busy.runtime == AtTheTarget(command).runtime
            && busy.minecraft == AtTheTarget(command).minecraft
  {
    assert !StateStore.IsSpace(PLACE_TYPE[0]);
  }

  /** So it can complete, whatever the valid instruction. */
  lemma HopefulCompletes(command: TaskQueue.PlaceInstruction)
    requires TaskQueue.ValidPlaceInstruction(command) && !StateStore.Blank(command.taskId)
    ensures StateStore.Sound(Hopeful(command).initial) && Completes(command, Hopeful(command))
  {
    HopefulIsAdmitted(command);
    HopefulIsUnderWay(command);
    SafetyPolicy.AllowedExactly(AtTheTarget(command), SafetyPolicy.Continue);
    SafetyPolicy.AllowedExactly(Busy(command), SafetyPolicy.Continue);
  }

  /** Cancelled while it looks at the support: the delivery is recorded as started, and nothing is sent. */
  method CancelledLookingAtTheSupport(command: TaskQueue.PlaceInstruction) returns (c: Coordinator, s: Script)
    requires TaskQueue.ValidPlaceInstruction(command) && !StateStore.Blank(command.taskId)
    ensures s == Hopeful(command).(support := Hopeful(command).support.(meanwhile := [CancelCalled]))
    ensures DeliveryRecorded in c.trace && PlaceCalled !in c.trace
  {
    HopefulCompletes(command);
    s := Hopeful(command);
    s := s.(support := s.support.(meanwhile := [CancelCalled]));
    c := new Coordinator();
    var r := c.Execute(command, s);
    assert s.support.meanwhile[0].CancelCalled?;
  }
}
