/** Whole runs of one task table shared by any number of queue services and placement executions.
    Every await is a step boundary: a command reads in one step and writes in another, and anything may
    happen in between, including a crash, after which the actor simply never steps again. */
module QueueRuns {
  import opened Basics
  import opened TaskQueue
  import opened TaskTable
  import opened PlacementProtocol

  /** A command between its read and its write. */
  datatype Pending = Pending(command: Command, read: TaskItem, occurredAt: int)

  /** One call of the coordinator's execute. */
  datatype Execution = Execution(command: PlaceInstruction, stage: Stage, writing: Option<Pending>) {
    const taskId := command.taskId
  }

  /** A call of the port's place, with the row as persisted at that moment. */
  datatype PlaceCall = PlaceCall(command: PlaceInstruction, execution: nat, row: TaskItem) {
    const taskId := command.taskId
  }

  datatype World = World(
    rows: Rows,
    inflight: map<nat, Pending>,
    executions: map<nat, Execution>,
    begun: set<nat>,
    /** Which execution recorded the start of a task's delivery, if an execution did. */
    starter: map<string, nat>,
    places: seq<PlaceCall>,
    /** Per task: the claims committed, and the changes committed. */
    claims: map<string, nat>,
    writes: map<string, nat>)

  const INITIAL := World(map[], map[], map[], {}, map[], [], map[], map[])

  datatype Action =
    | Enqueue(instruction: TaskInstruction, at: int)
    | Claim(taskId: string, at: int)
    | Read(op: nat, taskId: string, command: Command, at: int)
    | WriteBack(op: nat)
    | Forget(op: nat)
    | Begin(execution: nat, placement: PlaceInstruction)
    | MatchTask(execution: nat)
    | Act(execution: nat, event: Event)
    | ReadFor(execution: nat, at: int)
    | WriteFor(execution: nat)
    | Crash(execution: nat)

  function Bump(m: map<string, nat>, id: string): map<string, nat> {
    m[id := if id in m then m[id] + 1 else 1]
  }

  function Tally(m: map<string, nat>, id: string): nat { if id in m then m[id] else 0 }

  function Next(p: Pending): Result<TaskItem, QueueError> { Compute(p.command, p.read, p.occurredAt) }

  predicate Lands(rows: Rows, p: Pending) {
    Next(p).Ok? && Unmoved(rows, p.read, Next(p).value)
  }

  /** Commit a pending command if nothing the compare-and-set can see has moved. */
  function Land(w: World, p: Pending): World {
    if Lands(w.rows, p) then
      w.(rows := CompareAndSet(w.rows, p.read, Next(p).value), writes := Bump(w.writes, p.read.instruction.taskId))
    else w
  }

  /** The queue command an execution issues at each stage, and the event its commit stands for. */
  function Wanted(s: Stage): Option<(Command, Event)> {
    match s
    case SupportSolid => Some((MarkStarted, DeliveryRecorded))
    case TargetDirt => Some((MarkDone, VerificationRecorded))
    case Finishing(o) => Some((Finish(o), FinishRecorded(o)))
    case _ => None
  }

  /** The events that touch no table row. */
  predicate LocalEvent(e: Event) {
    !e.TaskMatched? && !e.DeliveryRecorded? && !e.VerificationRecorded? && !e.FinishRecorded?
  }

  function SetExecution(w: World, e: nat, x: Execution): World { w.(executions := w.executions[e := x]) }

  /** What an execution learns from its own write: the stage moves only if it landed and is still wanted. */
  function Settle(w: World, e: nat, landed: bool): World
    requires e in w.executions && w.executions[e].writing.Some?
  {
    var x := w.executions[e];
    if landed && Wanted(x.stage).Some? && Wanted(x.stage).value.0 == x.writing.value.command then
      var event := Wanted(x.stage).value.1;
      SetExecution(w, e, x.(stage := Advance(x.stage, event).value, writing := None))
      .(starter := if event.DeliveryRecorded? then w.starter[x.taskId := e] else w.starter)
    else SetExecution(w, e, x.(writing := None))
  }

  function Apply(w: World, a: Action): World {
    match a
    case Enqueue(i, at) =>
      if CreateQueuedTask(i, at).Ok? then w.(rows := InsertRow(w.rows, CreateQueuedTask(i, at).value)) else w
    case Claim(id, at) =>
      if id in w.rows && ClaimTask(w.rows[id], at).Ok? then
        w.(rows := ClaimRow(w.rows, id, at), claims := Bump(w.claims, id), writes := Bump(w.writes, id))
      else w
    case Read(op, id, c, at) =>
      if id in w.rows && Compute(c, w.rows[id], at).Ok? then
        w.(inflight := w.inflight[op := Pending(c, w.rows[id], at)])
      else w
    case WriteBack(op) =>
      if op in w.inflight then Land(w, w.inflight[op]).(inflight := w.inflight - {op}) else w
    case Forget(op) => w.(inflight := w.inflight - {op})
    case Begin(e, command) =>
      if e in w.begun then w
      else SetExecution(w, e, Execution(command, Begun, None)).(begun := w.begun + {e})
    case MatchTask(e) =>
      if e in w.executions && w.executions[e].taskId in w.rows
         && Advance(w.executions[e].stage, TaskMatched).Some?
         && ReadyToPlace(w.rows[w.executions[e].taskId], w.executions[e].command)
      then SetExecution(w, e, w.executions[e].(stage := Matched))
      else w
    case Act(e, event) =>
      if e in w.executions && LocalEvent(event) && Advance(w.executions[e].stage, event).Some?
         && (event.PlaceCalled? ==> w.executions[e].taskId in w.rows)
      then
        var x := w.executions[e];
        var v := SetExecution(w, e, x.(stage := Advance(x.stage, event).value));
        if event.PlaceCalled? then v.(places := w.places + [PlaceCall(x.command, e, w.rows[x.taskId])]) else v
      else w
    case ReadFor(e, at) =>
      if e in w.executions && w.executions[e].taskId in w.rows && Wanted(w.executions[e].stage).Some?
         && Compute(Wanted(w.executions[e].stage).value.0, w.rows[w.executions[e].taskId], at).Ok?
      then
        var x := w.executions[e];
        SetExecution(w, e, x.(writing := Some(Pending(Wanted(x.stage).value.0, w.rows[x.taskId], at))))
      else w
    case WriteFor(e) =>
      if e in w.executions && w.executions[e].writing.Some? then
        Settle(Land(w, w.executions[e].writing.value), e, Lands(w.rows, w.executions[e].writing.value))
      else w
    case Crash(e) => w.(executions := w.executions - {e})
  }

  function Run(actions: seq<Action>): World {
    if actions == [] then INITIAL else Apply(Run(actions[..|actions| - 1]), actions[|actions| - 1])
  }

  // ---------------------------------------------------------------- what every run keeps

  ghost predicate RowsLegal(rows: Rows) {
    forall id :: id in rows ==> Legal(rows[id]) && rows[id].instruction.taskId == id
  }

  /** A pending command was computed from a legal earlier version of a row that still exists; for a task
      with a single attempt, that version is the present one or one with strictly more life left. */
  ghost predicate PendingOk(rows: Rows, p: Pending) {
    var id := p.read.instruction.taskId;
    && id in rows
    && Legal(p.read)
    && Next(p).Ok?
    && p.read.instruction == rows[id].instruction
    && p.read.createdAt == rows[id].createdAt
    && (rows[id].instruction.maxAttempts == 1 ==> p.read == rows[id] || Life(p.read) > Life(rows[id]))
  }

  ghost predicate ExecutionOk(w: World, e: nat, x: Execution) {
    && e in w.begun
    && (x.writing.Some? ==> PendingOk(w.rows, x.writing.value) && x.writing.value.read.instruction.taskId == x.taskId)
    && (x.stage.Started? ==> x.taskId in w.starter && w.starter[x.taskId] == e)
    && (Committed(x.stage) ==>
          x.taskId in w.rows && w.rows[x.taskId].instruction.details == Some(PlaceSingleDirt(x.command)))
    && (Vouching(x.stage) ==> x.taskId in w.rows && w.rows[x.taskId].phase.Verified?)
    && (x.stage.Done? ==> x.taskId in w.rows && EndsAs(w.rows[x.taskId].status, x.stage.outcome))
  }

  /** Stages an execution reaches only by having matched its command against the row. */
  predicate Committed(s: Stage) {
    !s.Begun? && !s.Abandoned? && (s.Finishing? || s.Done? ==> s.outcome.OutcomeCompleted?)
  }

  /** Stages an execution reaches only by having recorded that the placement was seen. */
  predicate Vouching(s: Stage) {
    s.Confirmed? || ((s.Finishing? || s.Done?) && s.outcome.OutcomeCompleted?)
  }

  ghost predicate PlaceOk(w: World, c: PlaceCall) {
    && c.taskId in w.starter
    && w.starter[c.taskId] == c.execution
    && c.execution in w.begun
    && (c.execution in w.executions ==> !BeforePlacing(w.executions[c.execution].stage))
    && !c.row.phase.NotStarted?
    && RecoveryDisposition(c.row) != Disposition.Claimable
    && c.row.instruction.details == Some(PlaceSingleDirt(c.command))
  }

  ghost predicate Inv(w: World) {
    && RowsLegal(w.rows)
    && (forall op :: op in w.inflight ==> PendingOk(w.rows, w.inflight[op]))
    && (forall e :: e in w.executions ==> ExecutionOk(w, e, w.executions[e]))
    && (forall id :: id in w.starter ==> id in w.rows && !w.rows[id].phase.NotStarted? && w.starter[id] in w.begun)
    && (forall i :: 0 <= i < |w.places| ==> PlaceOk(w, w.places[i]))
    && (forall i, j :: 0 <= i < j < |w.places| ==> w.places[i].taskId != w.places[j].taskId)
  }

  /** A row changes only by a command of its own, so the life of a single-attempt task only shrinks. */
  ghost predicate RowStep(before: TaskItem, after: TaskItem) {
    && after.instruction == before.instruction
    && after.createdAt == before.createdAt
    && Legal(after)
    && (IsTerminal(before.status) ==> after == before)
    && (after == before || before.instruction.maxAttempts > 1 ||
          (Life(after) < Life(before) && PhaseRank(before.phase) <= PhaseRank(after.phase)))
  }

  lemma PendingKept(rows: Rows, rows': Rows, p: Pending)
    requires PendingOk(rows, p) && RowsLegal(rows)
    requires forall id :: id in rows ==> id in rows' && RowStep(rows[id], rows'[id])
    ensures PendingOk(rows', p)
  {
  }

  /** The key of the compare-and-set is (status, phase, updatedAt); on a single-attempt task the first two
      alone already pin down how much life is left, so a stale write can never land. */
  lemma LandsOnlyOnPresent(rows: Rows, p: Pending)
    requires RowsLegal(rows) && PendingOk(rows, p) && Lands(rows, p)
    ensures Next(p).value.instruction.taskId == p.read.instruction.taskId
    ensures rows[p.read.instruction.taskId].instruction.maxAttempts == 1 ==>
              p.read == rows[p.read.instruction.taskId]
  {
    ComputeProgress(p.command, p.read, p.occurredAt);
  }

  lemma LandStep(w: World, p: Pending)
    requires RowsLegal(w.rows) && PendingOk(w.rows, p)
    ensures RowsLegal(Land(w, p).rows)
    ensures forall id :: id in w.rows <==> id in Land(w, p).rows
    ensures forall id :: id in w.rows ==> RowStep(w.rows[id], Land(w, p).rows[id])
    ensures Lands(w.rows, p) ==>
              var row := Land(w, p).rows[p.read.instruction.taskId];
              && row == Next(p).value
              && (p.command.Finish? ==> EndsAs(row.status, p.command.outcome))
              && (p.command.MarkDone? ==> row.phase.Verified?)
    ensures !IsPlacement(w.rows[p.read.instruction.taskId].instruction) || !Lands(w.rows, p) ||
            p.read == w.rows[p.read.instruction.taskId]
  {
    if Lands(w.rows, p) {
      LandsOnlyOnPresent(w.rows, p);
      ComputeProgress(p.command, p.read, p.occurredAt);
      ComputeLeaves(p.command, p.read, p.occurredAt);
    }
  }

  ghost predicate RowsStep(w: World, v: World) {
    && v == w.(rows := v.rows, claims := v.claims, writes := v.writes)
    && RowsLegal(v.rows)
    && forall id :: id in w.rows ==> id in v.rows && RowStep(w.rows[id], v.rows[id])
  }

  lemma ExecutionsStay(w: World, v: World)
    requires Inv(w) && RowsStep(w, v)
    ensures forall e :: e in v.executions ==> ExecutionOk(v, e, v.executions[e])
  {
    forall e | e in v.executions ensures ExecutionOk(v, e, v.executions[e]) {
      assert ExecutionOk(w, e, w.executions[e]);
      if v.executions[e].writing.Some? { PendingKept(w.rows, v.rows, v.executions[e].writing.value); }
    }
  }

  lemma PlacesStay(w: World, v: World)
    requires Inv(w) && RowsStep(w, v)
    ensures forall i :: 0 <= i < |v.places| ==> PlaceOk(v, v.places[i])
  {
    forall i | 0 <= i < |v.places| ensures PlaceOk(v, v.places[i]) {
      assert PlaceOk(w, w.places[i]);
    }
  }

  /** Everything but the rows carries over when rows only step forward. */
  lemma RowsOnlyStep(w: World, v: World)
    requires Inv(w) && RowsStep(w, v)
    ensures Inv(v)
  {
    forall op | op in v.inflight ensures PendingOk(v.rows, v.inflight[op]) {
      PendingKept(w.rows, v.rows, v.inflight[op]);
    }
    ExecutionsStay(w, v);
    PlacesStay(w, v);
  }

  lemma LandKeepsInv(w: World, p: Pending)
    requires Inv(w) && PendingOk(w.rows, p)
    ensures Inv(Land(w, p))
  {
    LandStep(w, p);
    RowsOnlyStep(w, Land(w, p));
  }

  /** Replacing one execution by a later one of itself. */
  lemma ExecutionStep(w: World, e: nat, x: Execution)
    requires Inv(w)
    requires ExecutionOk(w, e, x)
    requires e in w.executions ==> (!BeforePlacing(w.executions[e].stage) ==> !BeforePlacing(x.stage))
    requires e !in w.executions ==> forall i :: 0 <= i < |w.places| ==> w.places[i].execution != e
    ensures Inv(SetExecution(w, e, x))
  {
    var v := SetExecution(w, e, x);
    forall f | f in v.executions ensures ExecutionOk(v, f, v.executions[f]) {
      if f != e { assert ExecutionOk(w, f, w.executions[f]); }
    }
    forall i | 0 <= i < |v.places| ensures PlaceOk(v, v.places[i]) {
      assert PlaceOk(w, w.places[i]);
    }
  }

  lemma BeginKeepsInv(w: World, e: nat, command: PlaceInstruction)
    requires Inv(w)
    ensures Inv(Apply(w, Begin(e, command)))
  {
    if e !in w.begun {
      var u := w.(begun := w.begun + {e});
      assert Inv(u) by {
        forall f | f in u.executions ensures ExecutionOk(u, f, u.executions[f]) {
          assert ExecutionOk(w, f, w.executions[f]);
        }
        forall i | 0 <= i < |u.places| ensures PlaceOk(u, u.places[i]) { assert PlaceOk(w, w.places[i]); }
      }
      forall i | 0 <= i < |u.places| ensures u.places[i].execution != e { assert PlaceOk(w, w.places[i]); }
      assert forall f :: f in u.executions ==> ExecutionOk(w, f, w.executions[f]);
      ExecutionStep(u, e, Execution(command, Begun, None));
    }
  }

  /** The starter of a task that has just stepped past Started had not placed before. */
  lemma PlaceKeepsInv(w: World, u: World, e: nat)
    requires Inv(w) && Inv(u)
    requires e in w.executions && w.executions[e].stage.Started? && w.executions[e].taskId in w.rows
    requires u == SetExecution(w, e, w.executions[e].(stage := Placing))
    ensures var x := w.executions[e];
            Inv(u.(places := w.places + [PlaceCall(x.command, e, w.rows[x.taskId])]))
  {
    var id := w.executions[e].taskId;
    var v := u.(places := w.places + [PlaceCall(w.executions[e].command, e, w.rows[id])]);
    assert ExecutionOk(w, e, w.executions[e]);
    forall i | 0 <= i < |w.places| ensures w.places[i].taskId != id { assert PlaceOk(w, w.places[i]); }
    forall i | 0 <= i < |v.places| ensures PlaceOk(v, v.places[i]) {
      if i < |w.places| { assert PlaceOk(u, u.places[i]); }
    }
    forall f | f in v.executions ensures ExecutionOk(v, f, v.executions[f]) {
      assert ExecutionOk(u, f, u.executions[f]);
    }
  }

  lemma ActKeepsInv(w: World, e: nat, event: Event)
    requires Inv(w)
    ensures Inv(Apply(w, Act(e, event)))
  {
    if Apply(w, Act(e, event)) != w {
      var x := w.executions[e];
      assert ExecutionOk(w, e, x);
      var y := x.(stage := Advance(x.stage, event).value);
      ExecutionStep(w, e, y);
      if event.PlaceCalled? { PlaceKeepsInv(w, SetExecution(w, e, y), e); }
    }
  }

  /** The first recorded start of a task's delivery belongs to the execution that recorded it. */
  lemma StartKeepsInv(u: World, e: nat, y: Execution)
    requires Inv(u)
    requires e in u.executions && u.executions[e].stage.SupportSolid?
    requires y == u.executions[e].(stage := Started, writing := None)
    requires y.taskId !in u.starter && y.taskId in u.rows && !u.rows[y.taskId].phase.NotStarted?
    ensures Inv(SetExecution(u, e, y).(starter := u.starter[y.taskId := e]))
  {
    assert ExecutionOk(u, e, u.executions[e]);
    var t := u.(starter := u.starter[y.taskId := e]);
    assert Inv(t) by {
      forall f | f in t.executions ensures ExecutionOk(t, f, t.executions[f]) {
        assert ExecutionOk(u, f, u.executions[f]);
      }
      forall i | 0 <= i < |t.places| ensures PlaceOk(t, t.places[i]) { assert PlaceOk(u, u.places[i]); }
    }
    ExecutionStep(t, e, y);
  }

  lemma SettleKeepsInv(u: World, e: nat, landed: bool)
    requires Inv(u)
    requires e in u.executions && u.executions[e].writing.Some?
    requires landed && u.executions[e].writing.value.command == MarkStarted ==>
               var id := u.executions[e].taskId;
               id !in u.starter && id in u.rows && !u.rows[id].phase.NotStarted?
    requires landed ==>
               var x := u.executions[e];
               && x.taskId in u.rows
               && (x.writing.value.command.Finish? ==>
                     EndsAs(u.rows[x.taskId].status, x.writing.value.command.outcome))
               && (x.writing.value.command.MarkDone? ==> u.rows[x.taskId].phase.Verified?)
    ensures Inv(Settle(u, e, landed))
  {
    var x := u.executions[e];
    assert ExecutionOk(u, e, x);
    if landed && Wanted(x.stage).Some? && Wanted(x.stage).value.0 == x.writing.value.command {
      var event := Wanted(x.stage).value.1;
      var y := x.(stage := Advance(x.stage, event).value, writing := None);
      if event.DeliveryRecorded? {
        StartKeepsInv(u, e, y);
      } else {
        ExecutionStep(u, e, y);
      }
    } else {
      ExecutionStep(u, e, x.(writing := None));
    }
  }

  /** A landed start found the row not started, so no execution had recorded a start before. */
  lemma WriteForKeepsInv(w: World, e: nat)
    requires Inv(w)
    requires e in w.executions && w.executions[e].writing.Some?
    ensures Inv(Apply(w, WriteFor(e)))
  {
    assert ExecutionOk(w, e, w.executions[e]);
    var p := w.executions[e].writing.value;
    LandStep(w, p);
    LandKeepsInv(w, p);
    SettleKeepsInv(Land(w, p), e, Lands(w.rows, p));
    WriteForEffect(w, e);
  }

  /** Dropping or adding commands in flight, and losing executions, change nothing that was promised. */
  lemma OnlyActorsChange(w: World, v: World)
    requires Inv(w)
    requires v == w.(inflight := v.inflight, executions := v.executions)
    requires forall op :: op in v.inflight ==> PendingOk(w.rows, v.inflight[op])
    requires forall e :: e in v.executions ==> e in w.executions && v.executions[e] == w.executions[e]
    ensures Inv(v)
  {
    forall e | e in v.executions ensures ExecutionOk(v, e, v.executions[e]) {
      assert ExecutionOk(w, e, w.executions[e]);
    }
    forall i | 0 <= i < |v.places| ensures PlaceOk(v, v.places[i]) { assert PlaceOk(w, w.places[i]); }
  }

  lemma WriteBackKeepsInv(w: World, op: nat)
    requires Inv(w) && op in w.inflight
    ensures Inv(Apply(w, WriteBack(op)))
  {
    var u := Land(w, w.inflight[op]);
    LandKeepsInv(w, w.inflight[op]);
    OnlyActorsChange(u, u.(inflight := w.inflight - {op}));
  }

  lemma EnqueueKeepsInv(w: World, i: TaskInstruction, at: int)
    requires Inv(w)
    ensures Inv(Apply(w, Enqueue(i, at)))
  {
    if CreateQueuedTask(i, at).Ok? {
      CreatedIsLegal(i, at);
      RowsOnlyStep(w, Apply(w, Enqueue(i, at)));
    }
  }

  lemma ClaimKeepsInv(w: World, id: string, at: int)
    requires Inv(w)
    ensures Inv(Apply(w, Claim(id, at)))
  {
    if id in w.rows && ClaimTask(w.rows[id], at).Ok? {
      ClaimProgress(w.rows[id], at);
      RowsOnlyStep(w, Apply(w, Claim(id, at)));
    }
  }

  lemma StageActionKeepsInv(w: World, a: Action)
    requires Inv(w) && (a.MatchTask? || a.ReadFor?)
    ensures Inv(Apply(w, a))
  {
    var v := Apply(w, a);
    if v != w {
      var e := a.execution;
      assert ExecutionOk(w, e, w.executions[e]);
      ExecutionStep(w, e, v.executions[e]);
    }
  }

  lemma ActorActionKeepsInv(w: World, a: Action)
    requires Inv(w) && (a.Read? || a.Forget? || a.Crash?)
    ensures Inv(Apply(w, a))
  {
    match a
    case Read(op, id, c, at) => OnlyActorsChange(w, Apply(w, Read(op, id, c, at)));
    case Forget(op) => OnlyActorsChange(w, Apply(w, Forget(op)));
    case Crash(e) => OnlyActorsChange(w, Apply(w, Crash(e)));
  }

  lemma ApplyKeepsInv(w: World, a: Action)
    requires Inv(w)
    ensures Inv(Apply(w, a))
  {
    if a.Enqueue? { EnqueueKeepsInv(w, a.instruction, a.at); }
    else if a.Claim? { ClaimKeepsInv(w, a.taskId, a.at); }
    else if a.Read? || a.Forget? || a.Crash? { ActorActionKeepsInv(w, a); }
    else if a.MatchTask? || a.ReadFor? { StageActionKeepsInv(w, a); }
    else if a.Begin? { BeginKeepsInv(w, a.execution, a.placement); }
    else if a.Act? { ActKeepsInv(w, a.execution, a.event); }
    else if a.WriteBack? {
      if a.op in w.inflight { WriteBackKeepsInv(w, a.op); }
    } else {
      if a.execution in w.executions && w.executions[a.execution].writing.Some? { WriteForKeepsInv(w, a.execution); }
    }
  }

  lemma {:induction false} RunKeepsInv(actions: seq<Action>)
    ensures Inv(Run(actions))
  {
    if actions != [] {
      RunKeepsInv(actions[..|actions| - 1]);
      ApplyKeepsInv(Run(actions[..|actions| - 1]), actions[|actions| - 1]);
    }
  }

  // ---------------------------------------------------------------- placement: at most once, ever

  /** Over every interleaving, with crashes anywhere: at most one place call per task; and whenever place is
      called, the persisted row carries the very instruction placed, is already past not_started, and is not
      one that recovery would hand out. */
  lemma PlacedAtMostOnce(actions: seq<Action>)
    ensures var w := Run(actions);
            && (forall i, j :: 0 <= i < j < |w.places| ==> w.places[i].taskId != w.places[j].taskId)
            && (forall i :: 0 <= i < |w.places| ==>
                  && w.places[i].row.instruction.details == Some(PlaceSingleDirt(w.places[i].command))
                  && !w.places[i].row.phase.NotStarted?
                  && RecoveryDisposition(w.places[i].row) != Disposition.Claimable)
  {
    RunKeepsInv(actions);
    var w := Run(actions);
    forall i | 0 <= i < |w.places| ensures PlaceOk(w, w.places[i]) {}
  }

  /** An execution that is done has its end in the row: the status is the one asked for, and a completed one
      was seen and verified, and is that of the very instruction. */
  lemma DoneIsInTheRow(actions: seq<Action>, e: nat)
    requires e in Run(actions).executions && Run(actions).executions[e].stage.Done?
    ensures var w := Run(actions);
            var x := w.executions[e];
            && x.taskId in w.rows
            && (x.stage.outcome.OutcomeFailed? ==> w.rows[x.taskId].status.Failed?)
            && (x.stage.outcome.OutcomeStopped? ==> w.rows[x.taskId].status.Stopped?)
            && (x.stage.outcome.OutcomeCompleted? ==>
                  && w.rows[x.taskId].status.Completed? && w.rows[x.taskId].phase.Verified?
                  && w.rows[x.taskId].instruction.details == Some(PlaceSingleDirt(x.command)))
  {
    RunKeepsInv(actions);
    assert ExecutionOk(Run(actions), e, Run(actions).executions[e]);
  }

  /** The pending command an action tries to write, if any. */
  function Written(w: World, a: Action): Option<Pending> {
    match a
    case WriteBack(op) => if op in w.inflight then Some(w.inflight[op]) else None
    case WriteFor(e) => if e in w.executions then w.executions[e].writing else None
    case _ => None
  }

  lemma WrittenOk(w: World, a: Action)
    requires Inv(w)
    ensures Written(w, a).Some? ==> PendingOk(w.rows, Written(w, a).value)
  {
    if a.WriteFor? && a.execution in w.executions {
      assert ExecutionOk(w, a.execution, w.executions[a.execution]);
    }
  }

  lemma WriteBackEffect(w: World, op: nat)
    requires op in w.inflight
    ensures Apply(w, WriteBack(op)) == Land(w, w.inflight[op]).(inflight := w.inflight - {op})
  {
  }

  lemma WriteForEffect(w: World, e: nat)
    requires e in w.executions && w.executions[e].writing.Some?
    ensures var p := w.executions[e].writing.value;
            Apply(w, WriteFor(e)) == Settle(Land(w, p), e, Lands(w.rows, p))
  {
  }

  lemma SettleEffect(u: World, e: nat, landed: bool)
    requires e in u.executions && u.executions[e].writing.Some?
    ensures var v := Settle(u, e, landed);
            && v.rows == u.rows && v.claims == u.claims && v.writes == u.writes && v.inflight == u.inflight
            && v.executions == u.executions[e := v.executions[e]] && v.executions[e].writing.None?
  {
  }

  /** Beyond new rows and claims, an action reaches the rows only by landing a pending command. */
  lemma WriteEffect(w: World, a: Action)
    requires Written(w, a).Some?
    ensures var u := Land(w, Written(w, a).value);
            Apply(w, a).rows == u.rows && Apply(w, a).claims == u.claims && Apply(w, a).writes == u.writes
  {
    if a.WriteBack? {
      WriteBackEffect(w, a.op);
    } else {
      var p := w.executions[a.execution].writing.value;
      WriteForEffect(w, a.execution);
      SettleEffect(Land(w, p), a.execution, Lands(w.rows, p));
    }
  }

  lemma NoWriteEffect(w: World, a: Action)
    requires Written(w, a).None? && !a.Enqueue? && !a.Claim?
    ensures Apply(w, a).rows == w.rows && Apply(w, a).claims == w.claims && Apply(w, a).writes == w.writes
  {
  }

  lemma LandKeepsStarted(w: World, p: Pending, id: string)
    requires RowsLegal(w.rows) && PendingOk(w.rows, p)
    requires id in w.rows && !w.rows[id].phase.NotStarted?
    ensures id in Land(w, p).rows && !Land(w, p).rows[id].phase.NotStarted? && Land(w, p).claims == w.claims
  {
    LandStep(w, p);
    assert RowStep(w.rows[id], Land(w, p).rows[id]);
  }

  /** A row past not_started stays so, whoever acts next, and is not claimed. */
  lemma ApplyKeepsStarted(w: World, a: Action, id: string)
    requires RowsLegal(w.rows)
    requires Written(w, a).Some? ==> PendingOk(w.rows, Written(w, a).value)
    requires id in w.rows && !w.rows[id].phase.NotStarted?
    ensures var v := Apply(w, a);
            id in v.rows && !v.rows[id].phase.NotStarted? && Tally(v.claims, id) == Tally(w.claims, id)
  {
    if Written(w, a).Some? {
      WriteEffect(w, a);
      LandKeepsStarted(w, Written(w, a).value, id);
    } else if a.Enqueue? || a.Claim? {
      assert Legal(w.rows[id]);
    } else {
      NoWriteEffect(w, a);
    }
  }

  lemma PlacedIsStarted(w: World, c: PlaceCall)
    requires Inv(w) && c in w.places
    ensures c.taskId in w.rows && !w.rows[c.taskId].phase.NotStarted?
  {
    var i :| 0 <= i < |w.places| && w.places[i] == c;
    assert PlaceOk(w, w.places[i]);
  }

  lemma {:induction false} StartedForever(before: seq<Action>, after: seq<Action>, id: string)
    requires id in Run(before).rows && !Run(before).rows[id].phase.NotStarted?
    ensures var w := Run(before + after);
            id in w.rows && !w.rows[id].phase.NotStarted? && Tally(w.claims, id) == Tally(Run(before).claims, id)
    decreases |after|
  {
    if after == [] {
      assert before + after == before;
    } else {
      var shorter := after[..|after| - 1];
      assert (before + after)[..|before + after| - 1] == before + shorter;
      StartedForever(before, shorter, id);
      RunKeepsInv(before + shorter);
      WrittenOk(Run(before + shorter), after[|after| - 1]);
      ApplyKeepsStarted(Run(before + shorter), after[|after| - 1], id);
    }
  }

  /** Once place has been called for a task, no continuation of the run ever claims that task again. */
  lemma NeverClaimedAgain(before: seq<Action>, after: seq<Action>, c: PlaceCall)
    requires c in Run(before).places
    ensures var w := Run(before + after);
            && c.taskId in w.rows
            && !w.rows[c.taskId].phase.NotStarted?
            && RecoveryDisposition(w.rows[c.taskId]) != Disposition.Claimable
            && Tally(w.claims, c.taskId) == Tally(Run(before).claims, c.taskId)
  {
    RunKeepsInv(before);
    PlacedIsStarted(Run(before), c);
    StartedForever(before, after, c.taskId);
    RunKeepsInv(before + after);
  }
}
