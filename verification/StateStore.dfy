/** src/domain/state/state-store.ts and src/domain/state/transitions.ts: the runtime, connection and task
    state machines behind one store that replaces its snapshot on every accepted command. */
module StateStore {
  import opened Basics
  import WeekdayScheduler

  datatype RuntimeState = Starting | Connecting | Ready | Reconnecting | Stopping | Stopped | Failed

  datatype Connection = Disconnected | Dialing | Connected | Spawned

  datatype TaskState = Idle | Preparing | Running | Paused | TaskCompleted | TaskFailed | TaskStopped

  /** A number as JavaScript has it: finite, or one of NaN and the infinities. */
  datatype Number = Finite(value: real) | NotFinite

  datatype Position = Position(x: Number, y: Number, z: Number)

  datatype TelemetryStatus = Unknown | Valid | Invalid

  datatype Minecraft = Minecraft(
    connection: Connection, spawnCompleted: bool, telemetry: TelemetryStatus,
    position: Option<Position>, dimension: Option<Dimension>, health: Option<Number>, hunger: Option<Number>,
    otherPlayerDetected: bool)

  datatype Task = Task(
    state: TaskState, id: Option<string>, taskType: Option<string>, startedAt: Option<int>, updatedAt: int,
    finishedAt: Option<int>, progress: Option<Number>, message: Option<string>)

  /** What task.transition may name: a task is never sent to idle or preparing that way. */
  type TaskTarget = t: TaskState | !t.Idle? && !t.Preparing? witness Running

  datatype IntentKind = StartIntent | StopIntent

  datatype Schedule = Schedule(
    phase: WeekdayScheduler.SchedulePhase, intent: IntentKind,
    window: WeekdayScheduler.OperatingWindow, evaluatedAt: int)

  datatype StopReason =
    | OtherPlayerDetected | SignalSigint | SignalSigterm | StopRequested | ScheduleWindowEnded
    | ReconnectExhausted | ConnectionError | InternalError
    | OtherReason(text: string)

  datatype ErrorCode = ConnectionErrorCode | ReconnectExhaustedCode | InternalErrorCode

  datatype RecordedError = RecordedError(code: ErrorCode, message: string, occurredAt: int)

  datatype Snapshot = Snapshot(
    revision: nat, updatedAt: int, runtime: RuntimeState, minecraft: Minecraft, task: Task,
    schedule: Option<Schedule>, stopReason: Option<StopReason>, lastError: Option<RecordedError>)

  datatype Command =
    | RecordIntent(phase: WeekdayScheduler.SchedulePhase, intent: IntentKind,
                   window: WeekdayScheduler.OperatingWindow, evaluatedAt: int)
    | RuntimeTransition(runtime: RuntimeState)
    | ConnectionTransition(connection: Connection)
    | SpawnUpdate(completed: bool)
    | TelemetryUpdate(position: Option<Position>, dimension: Option<Dimension>,
                      health: Option<Number>, hunger: Option<Number>)
    | TelemetryInvalidate
    | PlayerDetected
    | TaskPrepare(taskId: string, taskType: string)
    | TaskTransition(to: TaskTarget)
    | TaskProgress(progress: Number, message: Option<string>)
    | TaskReset
    | RecordStopReason(reason: StopReason)
    | RecordError(code: ErrorCode, text: string)

  datatype StoreError = InvalidCommand | InvalidTransition

  /** A change of state, as handed to subscribers. */
  datatype Event = Event(revision: nat, occurredAt: int, cause: Command, before: Snapshot, after: Snapshot)

  predicate RuntimeAllowed(from: RuntimeState, to: RuntimeState) {
    match from
    case Starting => to.Connecting? || to.Stopping?
    case Connecting => to.Ready? || to.Reconnecting? || to.Stopping? || to.Failed?
    case Ready => to.Reconnecting? || to.Stopping? || to.Failed?
    case Reconnecting => to.Connecting? || to.Stopping? || to.Failed?
    case Stopping => to.Stopped? || to.Failed?
    case Stopped => false
    case Failed => false
  }

  predicate ConnectionAllowed(from: Connection, to: Connection) {
    match from
    case Disconnected => to.Dialing?
    case Dialing => to.Connected? || to.Disconnected?
    case Connected => to.Spawned? || to.Disconnected?
    case Spawned => to.Disconnected?
  }

  predicate TaskAllowed(from: TaskState, to: TaskState) {
    match from
    case Idle => to.Preparing?
    case Preparing => to.Running? || to.TaskFailed? || to.TaskStopped?
    case Running => to.Paused? || to.TaskCompleted? || to.TaskFailed? || to.TaskStopped?
    case Paused => to.Running? || to.TaskFailed? || to.TaskStopped?
    case _ => false
  }

  predicate IsTerminalTask(t: TaskState) { t.TaskCompleted? || t.TaskFailed? || t.TaskStopped? }

  predicate IsSpace(c: char) {
    c == ' ' || '\t' <= c <= '\r' || c == '\U{00A0}' || c == '\U{1680}' || '\U{2000}' <= c <= '\U{200A}'
    || c == '\U{2028}' || c == '\U{2029}' || c == '\U{202F}' || c == '\U{205F}' || c == '\U{3000}' || c == '\U{FEFF}'
  }

  predicate Blank(s: string) { forall i :: 0 <= i < |s| ==> IsSpace(s[i]) }

  predicate FiniteOrAbsent(n: Option<Number>) { n.Some? ==> n.value.Finite? }

  predicate FinitePosition(p: Option<Position>) {
    p.Some? ==> p.value.x.Finite? && p.value.y.Finite? && p.value.z.Finite?
  }

  function Or<T>(update: Option<T>, present: Option<T>): Option<T> { if update.Some? then update else present }

  const NO_TELEMETRY := Minecraft(Disconnected, false, Unknown, None, None, None, None, false)

  function Initial(at: int): Snapshot {
    Snapshot(0, at, Starting, NO_TELEMETRY, Task(Idle, None, None, None, at, None, None, None), None, None, None)
  }

  predicate ValidWindow(w: WeekdayScheduler.OperatingWindow) {
    w.startsAt < w.endsAt && w.id.slot == w.slot
  }

  /** The draft a command leaves, or nothing if it changes no field. */
  function Apply(s: Snapshot, c: Command): Result<Option<Snapshot>, StoreError> {
    match c
    case RecordIntent(phase, intent, window, at) =>
      if !ValidWindow(window) then Err(InvalidCommand)
      else if s.schedule.Some? && s.schedule.value.phase == phase && s.schedule.value.intent == intent
              && s.schedule.value.window.id == window.id && s.schedule.value.evaluatedAt == at
      then Ok(None)
      else Ok(Some(s.(schedule := Some(Schedule(phase, intent, window, at)))))
    case RuntimeTransition(to) =>
      if s.runtime == to then Ok(None)
      else if s.minecraft.otherPlayerDetected && (to.Connecting? || to.Ready? || to.Reconnecting?)
      then Err(InvalidTransition)
      else if !RuntimeAllowed(s.runtime, to) then Err(InvalidTransition)
      else Ok(Some(s.(runtime := to)))
    case ConnectionTransition(to) =>
      if s.minecraft.connection == to then Ok(None)
      else if !ConnectionAllowed(s.minecraft.connection, to) then Err(InvalidTransition)
      else if to.Disconnected? then
        Ok(Some(s.(minecraft := NO_TELEMETRY.(otherPlayerDetected := s.minecraft.otherPlayerDetected))))
      else Ok(Some(s.(minecraft := s.minecraft.(connection := to))))
    case SpawnUpdate(completed) =>
      if s.minecraft.spawnCompleted == completed then Ok(None)
      else if !completed then Err(InvalidCommand)
      else if !s.minecraft.connection.Connected? then Err(InvalidTransition)
      else Ok(Some(s.(minecraft := s.minecraft.(spawnCompleted := true, connection := Spawned))))
    case TelemetryUpdate(position, dimension, health, hunger) =>
      if !FiniteOrAbsent(health) || !FiniteOrAbsent(hunger) || !FinitePosition(position) then Err(InvalidCommand)
      else
        var m := s.minecraft;
        var updated := m.(telemetry := Valid, position := Or(position, m.position),
                          dimension := Or(dimension, m.dimension), health := Or(health, m.health),
                          hunger := Or(hunger, m.hunger));
        if updated == m then Ok(None) else Ok(Some(s.(minecraft := updated)))
    case TelemetryInvalidate =>
      if s.minecraft.telemetry.Invalid? then Ok(None)
      else
        Ok(Some(s.(minecraft := s.minecraft.(telemetry := Invalid, position := None, dimension := None,
                                             health := None, hunger := None))))
    case PlayerDetected =>
      if s.minecraft.otherPlayerDetected then Ok(None)
      else if !s.runtime.Connecting? && !s.runtime.Ready? then Err(InvalidTransition)
      else Ok(Some(s.(runtime := Stopping, minecraft := s.minecraft.(otherPlayerDetected := true),
                      stopReason := Some(OtherPlayerDetected))))
    case TaskPrepare(id, taskType) =>
      if !TaskAllowed(s.task.state, Preparing) then Err(InvalidTransition)
      else if Blank(id) || Blank(taskType) then Err(InvalidCommand)
      else Ok(Some(s.(task := Task(Preparing, Some(id), Some(taskType), None, s.task.updatedAt, None,
                                   Some(Finite(0.0)), None))))
    case TaskTransition(to) =>
      if !TaskAllowed(s.task.state, to) then Err(InvalidTransition)
      else Ok(Some(s.(task := s.task.(state := to))))
    case TaskProgress(progress, message) =>
      if progress.NotFinite? || progress.value < 0.0 || progress.value > 1.0 then Err(InvalidCommand)
      else if !s.task.state.Running? && !s.task.state.Paused? then Err(InvalidCommand)
      else if s.task.progress == Some(progress) && s.task.message == message then Ok(None)
      else Ok(Some(s.(task := s.task.(progress := Some(progress), message := message))))
    case TaskReset =>
      if !IsTerminalTask(s.task.state) then Err(InvalidTransition)
      else Ok(Some(s.(task := Task(Idle, None, None, None, s.task.updatedAt, None, None, None))))
    case RecordStopReason(reason) =>
      if reason.OtherReason? && Blank(reason.text) then Err(InvalidCommand)
      else if s.stopReason == Some(reason) then Ok(None)
      else Ok(Some(s.(stopReason := Some(reason))))
    case RecordError(_, text) =>
      if Blank(text) then Err(InvalidCommand) else Ok(Some(s))
  }

  predicate IsTaskCommand(c: Command) {
    c.TaskPrepare? || c.TaskTransition? || c.TaskProgress? || c.TaskReset?
  }

  /** The stamps a changed draft receives. */
  function Stamp(before: Snapshot, draft: Snapshot, c: Command, now: int): Snapshot {
    var touched := if IsTaskCommand(c) then draft.task.(updatedAt := now) else draft.task;
    var started :=
      if c.TaskTransition? && c.to.Running? && before.task.startedAt.None?
      then touched.(startedAt := Some(now)) else touched;
    var finished :=
      if c.TaskTransition? && IsTerminalTask(c.to) then started.(finishedAt := Some(now)) else started;
    draft.(revision := before.revision + 1, updatedAt := now, task := finished,
           lastError := if c.RecordError? then Some(RecordedError(c.code, c.text, now)) else draft.lastError)
  }

  /** The whole of dispatch: the clock is read only when something changed, and an unreadable clock is an
      error that leaves the store as it was. */
  function Dispatched(s: Snapshot, c: Command, clock: Option<int>): Result<Option<Event>, StoreError> {
    match Apply(s, c)
    case Err(e) => Err(e)
    case Ok(None) => Ok(None)
    case Ok(Some(draft)) =>
      if clock.None? then Err(InvalidCommand)
      else
        var after := Stamp(s, draft, c, clock.value);
        Ok(Some(Event(after.revision, clock.value, c, s, after)))
  }

  function Next(s: Snapshot, c: Command, clock: Option<int>): Snapshot {
    match Dispatched(s, c, clock)
    case Ok(Some(event)) => event.after
    case _ => s
  }

  class StateStore {
    var snapshot: Snapshot

    constructor (at: int)
      ensures snapshot == Initial(at)
    {
      snapshot := Initial(at);
    }

    method Dispatch(c: Command, clock: Option<int>) returns (r: Result<Option<Event>, StoreError>)
      modifies this
      ensures r == Dispatched(old(snapshot), c, clock)
      ensures snapshot == Next(old(snapshot), c, clock)
      ensures Sound(old(snapshot)) ==> Sound(snapshot)
      ensures Irreversible(old(snapshot), snapshot)
    {
      var before := snapshot;
      StepIsSound(before, c, clock);
      StepIsIrreversible(before, c, clock);
      var draft := Apply(before, c);
      if draft.Err? { return Err(draft.error); }
      if draft.value.None? { return Ok(None); }
      if clock.None? { return Err(InvalidCommand); }
      var after := Stamp(before, draft.value.value, c, clock.value);
      snapshot := after;
      r := Ok(Some(Event(after.revision, clock.value, c, before, after)));
    }
  }

  // ---------------------------------------------------------------- what every state keeps

  ghost predicate SoundMinecraft(s: Snapshot) {
    var m := s.minecraft;
    && (m.otherPlayerDetected ==> s.runtime.Stopping? || s.runtime.Stopped? || s.runtime.Failed?)
    && (m.otherPlayerDetected ==> s.stopReason.Some?)
    && (m.spawnCompleted ==> m.connection.Spawned?)
    && (!m.telemetry.Valid? ==> m.position.None? && m.dimension.None? && m.health.None? && m.hunger.None?)
    && FiniteOrAbsent(m.health) && FiniteOrAbsent(m.hunger) && FinitePosition(m.position)
  }

  ghost predicate SoundTask(t: Task) {
    && (t.finishedAt.Some? <==> IsTerminalTask(t.state))
    && (t.id.Some? <==> !t.state.Idle?)
    && (t.id.Some? <==> t.taskType.Some?)
    && (t.state.Running? || t.state.Paused? || t.state.TaskCompleted? ==> t.startedAt.Some?)
    && (t.progress.Some? ==> t.progress.value.Finite? && 0.0 <= t.progress.value.value <= 1.0)
  }

  ghost predicate Sound(s: Snapshot) { SoundMinecraft(s) && SoundTask(s.task) }

  predicate Ending(r: RuntimeState) { r.Stopping? || r.Stopped? || r.Failed? }

  /** What no later state takes back. */
  ghost predicate Irreversible(s: Snapshot, later: Snapshot) {
    && s.revision <= later.revision
    && (s.revision == later.revision ==> s == later)
    && (s.minecraft.otherPlayerDetected ==> later.minecraft.otherPlayerDetected)
    && (s.stopReason.Some? ==> later.stopReason.Some?)
    && (Ending(s.runtime) ==> Ending(later.runtime))
    && (s.runtime.Stopped? || s.runtime.Failed? ==> later.runtime == s.runtime)
    && (s.lastError.Some? ==> later.lastError.Some?)
    && (!s.runtime.Starting? ==> !later.runtime.Starting?)
  }

  lemma StepIsSoundTask(s: Snapshot, c: Command, clock: Option<int>)
    ensures SoundTask(s.task) ==> SoundTask(Next(s, c, clock).task)
  {
  }

  lemma StepIsSoundMinecraft(s: Snapshot, c: Command, clock: Option<int>)
    ensures SoundMinecraft(s) ==> SoundMinecraft(Next(s, c, clock))
  {
  }

  lemma StepIsSound(s: Snapshot, c: Command, clock: Option<int>)
    ensures Sound(s) ==> Sound(Next(s, c, clock))
  {
    StepIsSoundTask(s, c, clock);
    StepIsSoundMinecraft(s, c, clock);
  }

  lemma StepIsIrreversible(s: Snapshot, c: Command, clock: Option<int>)
    ensures Irreversible(s, Next(s, c, clock))
  {
  }

  /** Whatever a command changes follows the transition tables; only a reset leads out of a finished task. */
  lemma ChangesFollowTables(s: Snapshot, c: Command, clock: Option<int>)
    ensures var n := Next(s, c, clock);
            && (n.runtime != s.runtime ==> RuntimeAllowed(s.runtime, n.runtime))
            && (n.minecraft.connection != s.minecraft.connection ==>
                  ConnectionAllowed(s.minecraft.connection, n.minecraft.connection))
            && (n.task.state != s.task.state ==>
                  TaskAllowed(s.task.state, n.task.state) || (IsTerminalTask(s.task.state) && n.task.state.Idle?))
  {
  }

  /** The three machines change one at a time, but for a detection, which stops the runtime as it is noted. */
  lemma MachinesChangeApart(s: Snapshot, c: Command, clock: Option<int>)
    ensures var n := Next(s, c, clock);
            && (n.task != s.task ==> IsTaskCommand(c) && n.runtime == s.runtime && n.minecraft == s.minecraft)
            && (n.runtime != s.runtime && n.minecraft != s.minecraft ==>
                  n == s.(runtime := Stopping, minecraft := s.minecraft.(otherPlayerDetected := true),
                          stopReason := Some(OtherPlayerDetected), revision := n.revision, updatedAt := n.updatedAt))
            && (n.stopReason != s.stopReason ==> c.RecordStopReason? || n.minecraft.otherPlayerDetected)
            && (n.schedule != s.schedule ==> c.RecordIntent?)
            && (n.lastError != s.lastError ==> c.RecordError?)
  {
  }

  // ---------------------------------------------------------------- what each command does, on the fields

  /** The tables, read from their targets: from where each state is entered. */
  lemma EnteredFrom(runtime: RuntimeState, connection: Connection, task: TaskState)
    ensures !RuntimeAllowed(runtime, Starting)
    ensures RuntimeAllowed(runtime, Connecting) <==> runtime.Starting? || runtime.Reconnecting?
    ensures RuntimeAllowed(runtime, Ready) <==> runtime.Connecting?
    ensures RuntimeAllowed(runtime, Reconnecting) <==> runtime.Connecting? || runtime.Ready?
    ensures RuntimeAllowed(runtime, Stopping) <==> !runtime.Stopping? && !runtime.Stopped? && !runtime.Failed?
    ensures RuntimeAllowed(runtime, Stopped) <==> runtime.Stopping?
    ensures RuntimeAllowed(runtime, Failed) <==> !runtime.Starting? && !runtime.Stopped? && !runtime.Failed?
    ensures ConnectionAllowed(connection, Disconnected) <==> !connection.Disconnected?
    ensures ConnectionAllowed(connection, Dialing) <==> connection.Disconnected?
    ensures ConnectionAllowed(connection, Connected) <==> connection.Dialing?
    ensures ConnectionAllowed(connection, Spawned) <==> connection.Connected?
    ensures !TaskAllowed(task, Idle) && (TaskAllowed(task, Preparing) <==> task.Idle?)
    ensures TaskAllowed(task, Running) <==> task.Preparing? || task.Paused?
    ensures TaskAllowed(task, Paused) <==> task.Running?
    ensures TaskAllowed(task, TaskCompleted) <==> task.Running?
    ensures TaskAllowed(task, TaskFailed) <==> task.Preparing? || task.Running? || task.Paused?
    ensures TaskAllowed(task, TaskStopped) <==> task.Preparing? || task.Running? || task.Paused?
  {
  }

  /** The white space that trimming removes, by code point. */
  lemma SpacesAre(c: char)
    ensures IsSpace(c) <==>
              var code := c as int;
              || 9 <= code <= 13 || 8_192 <= code <= 8_202
              || code in {32, 160, 5_760, 8_232, 8_233, 8_239, 8_287, 12_288, 65_279}
  {
  }

  /** What a command asks of the state it meets. */
  predicate Timely(s: Snapshot, c: Command) {
    match c
    case RuntimeTransition(to) =>
      to == s.runtime || (RuntimeAllowed(s.runtime, to)
                          && (s.minecraft.otherPlayerDetected ==> to in {Stopping, Stopped, Failed}))
    case ConnectionTransition(to) => to == s.minecraft.connection || ConnectionAllowed(s.minecraft.connection, to)
    case SpawnUpdate(completed) => completed ==> s.minecraft.spawnCompleted || s.minecraft.connection.Connected?
    case PlayerDetected => s.minecraft.otherPlayerDetected || s.runtime in {Connecting, Ready}
    case TaskPrepare(_, _) => s.task.state.Idle?
    case TaskTransition(to) => TaskAllowed(s.task.state, to)
    case TaskReset => s.task.state in {TaskCompleted, TaskFailed, TaskStopped}
    case _ => true
  }

  /** What it asks of itself. Progress is asked of a task under way. */
  predicate Sane(s: Snapshot, c: Command) {
    match c
    case RecordIntent(_, _, window, _) => window.startsAt < window.endsAt && window.id.slot == window.slot
    case SpawnUpdate(completed) => !completed ==> !s.minecraft.spawnCompleted
    case TelemetryUpdate(p, _, health, hunger) =>
      && (p.Some? ==> p.value.x != NotFinite && p.value.y != NotFinite && p.value.z != NotFinite)
      && health != Some(NotFinite) && hunger != Some(NotFinite)
    case TaskPrepare(id, taskType) =>
      && (exists i :: 0 <= i < |id| && !IsSpace(id[i]))
      && (exists i :: 0 <= i < |taskType| && !IsSpace(taskType[i]))
    case TaskProgress(n, _) => s.task.state in {Running, Paused} && n != NotFinite && 0.0 <= n.value <= 1.0
    case RecordStopReason(reason) =>
      reason.OtherReason? ==> exists i :: 0 <= i < |reason.text| && !IsSpace(reason.text[i])
    case RecordError(_, text) => exists i :: 0 <= i < |text| && !IsSpace(text[i])
    case _ => true
  }

  /** A command is refused exactly if it comes at the wrong time or asks for what cannot be, the former first. */
  lemma RefusedExactly(s: Snapshot, c: Command)
    ensures Apply(s, c) == Err(InvalidTransition) <==> !Timely(s, c)
    ensures Apply(s, c) == Err(InvalidCommand) <==> Timely(s, c) && !Sane(s, c)
    ensures Apply(s, c).Ok? <==> Timely(s, c) && Sane(s, c)
  {
  }

  /** What an accepted command leaves as it is already there makes no change, and no revision. A reset, a
      transition or a preparation of the task and the record of an error always make one. */
  lemma UnchangedExactly(s: Snapshot, c: Command)
    requires Timely(s, c) && Sane(s, c)
    ensures Apply(s, c) == Ok(None) <==>
              match c
              case RecordIntent(phase, intent, window, at) =>
                && s.schedule.Some? && s.schedule.value.phase == phase && s.schedule.value.intent == intent
                && s.schedule.value.window.id == window.id && s.schedule.value.evaluatedAt == at
              case RuntimeTransition(to) => s.runtime == to
              case ConnectionTransition(to) => s.minecraft.connection == to
              case SpawnUpdate(completed) => s.minecraft.spawnCompleted == completed
              case TelemetryUpdate(p, d, health, hunger) =>
                && s.minecraft.telemetry.Valid?
                && (p.Some? ==> p == s.minecraft.position) && (d.Some? ==> d == s.minecraft.dimension)
                && (health.Some? ==> health == s.minecraft.health) && (hunger.Some? ==> hunger == s.minecraft.hunger)
              case TelemetryInvalidate => s.minecraft.telemetry.Invalid?
              case PlayerDetected => s.minecraft.otherPlayerDetected
              case TaskProgress(n, message) => s.task.progress == Some(n) && s.task.message == message
              case RecordStopReason(reason) => s.stopReason == Some(reason)
              case _ => false
  {
    RefusedExactly(s, c);
  }

  /** A command that empties the telemetry: the end of the connection, or news that cannot be read. */
  predicate Empties(c: Command) { c.TelemetryInvalidate? || (c.ConnectionTransition? && c.connection.Disconnected?) }

  /** Field by field, what a change leaves of runtime and connection. */
  lemma FieldsFollow(s: Snapshot, c: Command, at: int)
    requires Apply(s, c).Ok? && Apply(s, c).value.Some?
    ensures var n, m, was := Next(s, c, Some(at)), Next(s, c, Some(at)).minecraft, s.minecraft;
            && n.revision == s.revision + 1 && n.updatedAt == at
            && n.runtime == (if c.PlayerDetected? then Stopping
                             else if c.RuntimeTransition? then c.runtime else s.runtime)
            && n.stopReason == (if c.PlayerDetected? then Some(OtherPlayerDetected)
                                else if c.RecordStopReason? then Some(c.reason) else s.stopReason)
            && n.lastError == (if c.RecordError? then Some(RecordedError(c.code, c.text, at)) else s.lastError)
            && n.schedule == (if c.RecordIntent? then Some(Schedule(c.phase, c.intent, c.window, c.evaluatedAt))
                              else s.schedule)
            && m.connection == (if c.ConnectionTransition? then c.connection
                                else if c.SpawnUpdate? then Spawned else was.connection)
            && m.spawnCompleted == (if c.SpawnUpdate? then true
                                    else was.spawnCompleted && !(c.ConnectionTransition? && c.connection.Disconnected?))
            && m.otherPlayerDetected == (was.otherPlayerDetected || c.PlayerDetected?)
            && m.telemetry == (if c.TelemetryUpdate? then Valid else if c.TelemetryInvalidate? then Invalid
                               else if Empties(c) then Unknown else was.telemetry)
            && m.position == (if Empties(c) then None
                              else if c.TelemetryUpdate? && c.position.Some? then c.position else was.position)
            && m.dimension == (if Empties(c) then None
                               else if c.TelemetryUpdate? && c.dimension.Some? then c.dimension else was.dimension)
            && m.health == (if Empties(c) then None
                            else if c.TelemetryUpdate? && c.health.Some? then c.health else was.health)
            && m.hunger == (if Empties(c) then None
                            else if c.TelemetryUpdate? && c.hunger.Some? then c.hunger else was.hunger)
  {
  }

  /** And what it leaves of the task, with its times. */
  lemma TaskFollows(s: Snapshot, c: Command, at: int)
    requires Apply(s, c).Ok? && Apply(s, c).value.Some?
    ensures var t, was := Next(s, c, Some(at)).task, s.task;
            if c.TaskPrepare? then
              t == Task(Preparing, Some(c.taskId), Some(c.taskType), None, at, None, Some(Finite(0.0)), None)
            else if c.TaskReset? then t == Task(Idle, None, None, None, at, None, None, None)
            else
              && t.id == was.id && t.taskType == was.taskType
              && t.state == (if c.TaskTransition? then c.to else was.state)
              && t.progress == (if c.TaskProgress? then Some(c.progress) else was.progress)
              && t.message == (if c.TaskProgress? then c.message else was.message)
              && t.updatedAt == (if c.TaskTransition? || c.TaskProgress? then at else was.updatedAt)
              && t.startedAt == (if c.TaskTransition? && c.to.Running? && was.startedAt.None? then Some(at)
                                 else was.startedAt)
              && t.finishedAt == (if c.TaskTransition? && c.to in {TaskCompleted, TaskFailed, TaskStopped} then Some(at)
                                  else was.finishedAt)
  {
  }

  /** The clock is read for a change alone, and decides then whether there is one; the event of a change tells
      of it. */
  lemma EventsTell(s: Snapshot, c: Command, clock: Option<int>)
    ensures Dispatched(s, c, clock).Err? <==>
              Apply(s, c).Err? || (Apply(s, c).value.Some? && clock.None?)
    ensures Dispatched(s, c, clock) == Err(InvalidTransition) <==> Apply(s, c) == Err(InvalidTransition)
    ensures Dispatched(s, c, clock) == Ok(None) <==> Apply(s, c) == Ok(None)
    ensures Dispatched(s, c, clock).Ok? && Dispatched(s, c, clock).value.Some? ==>
              var e := Dispatched(s, c, clock).value.value;
              && e.revision == s.revision + 1 && Some(e.occurredAt) == clock && e.cause == c
              && e.before == s && e.after == Next(s, c, clock)
    ensures !(Dispatched(s, c, clock).Ok? && Dispatched(s, c, clock).value.Some?) ==> Next(s, c, clock) == s
  {
  }

  datatype Dispatch = Dispatch(command: Command, clock: Option<int>)

  function After(s: Snapshot, run: seq<Dispatch>): Snapshot
    decreases |run|
  {
    if run == [] then s else After(Next(s, run[0].command, run[0].clock), run[1..])
  }

  lemma {:induction false} RunIsIrreversible(s: Snapshot, run: seq<Dispatch>)
    ensures Irreversible(s, After(s, run))
    ensures Sound(s) ==> Sound(After(s, run))
    decreases |run|
  {
    if run != [] {
      StepIsSound(s, run[0].command, run[0].clock);
      StepIsIrreversible(s, run[0].command, run[0].clock);
      RunIsIrreversible(Next(s, run[0].command, run[0].clock), run[1..]);
    }
  }

  /** Every state a store can reach, from whatever commands and clock readings, is sound. */
  lemma ReachableIsSound(at: int, run: seq<Dispatch>)
    ensures Sound(After(Initial(at), run))
  {
    RunIsIrreversible(Initial(at), run);
  }

  lemma {:induction false} AfterAppend(s: Snapshot, first: seq<Dispatch>, second: seq<Dispatch>)
    ensures After(s, first + second) == After(After(s, first), second)
    decreases |first|
  {
    if first == [] {
      assert first + second == second;
    } else {
      assert (first + second)[1..] == first[1..] + second;
      AfterAppend(Next(s, first[0].command, first[0].clock), first[1..], second);
    }
  }
}
