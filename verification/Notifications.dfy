/** src/application/notifications/notification-mapper.ts and notification-subscriber.ts: what the owner is
    told about a change of state, and the subscriber that tells it once. */
module Notifications {
  import opened Basics
  import S = StateStore

  datatype Kind =
    | OtherPlayerSafetyStop | ReconnectExhaustedNotice | RuntimeFailed | StopRequestedNotice | ReconnectStarted
    | MinecraftConnecting | MinecraftConnected | MinecraftSpawned | MinecraftDisconnected | RuntimeStopped
    | TaskPreparing | TaskStarted | TaskResumed | TaskPaused | TaskCompleted | TaskFailed | TaskStopped

  datatype Text = Text(name: string, severity: string, title: string, body: string)

  /** What an id is made of; IdText is how it is written. */
  datatype NotificationId = NotificationId(revision: nat, kind: Kind)

  datatype Message = Message(notificationId: NotificationId, sourceRevision: nat, kind: Kind, occurredAt: int)

  function TextOf(kind: Kind): Text {
    match kind
    case OtherPlayerSafetyStop =>
      Text("other_player_safety_stop", "critical", "他プレイヤー検知による安全停止",
           "他プレイヤーを検知したため、安全切断を開始しました。")
    case ReconnectExhaustedNotice =>
      Text("reconnect_exhausted", "error", "再接続上限に到達", "再接続の上限回数に到達したため、通常運転を終了します。")
    case RuntimeFailed =>
      Text("runtime_failed", "error", "通常運転で回復不能なエラー", "回復不能なエラーにより通常運転を終了します。")
    case StopRequestedNotice =>
      Text("stop_requested", "info", "通常運転の停止要求", "シグナルまたは明示的な停止要求を受け付けました。")
    case ReconnectStarted =>
      Text("reconnect_started", "warning", "Minecraftへ再接続", "一時的な切断後の再接続処理を開始しました。")
    case MinecraftConnecting =>
      Text("minecraft_connecting", "info", "Minecraftへ接続開始", "Minecraftへの読み取り専用接続を開始しました。")
    case MinecraftConnected =>
      Text("minecraft_connected", "info", "Minecraftへ接続完了", "Minecraftへのloginが完了しました。")
    case MinecraftSpawned =>
      Text("minecraft_spawned", "info", "Minecraftでspawn完了",
           "spawnが完了し、読み取り専用の待機状態へ移行しました。")
    case MinecraftDisconnected =>
      Text("minecraft_disconnected", "warning", "Minecraft接続が一時切断", "Minecraftとの接続が一時的に切断されました。")
    case RuntimeStopped => Text("runtime_stopped", "info", "通常運転を終了", "通常運転を安全に終了しました。")
    case TaskPreparing => Text("task_preparing", "info", "作業準備を開始", "作業の準備状態へ移行しました。")
    case TaskStarted => Text("task_started", "info", "作業を開始", "準備が完了し、作業を開始しました。")
    case TaskResumed => Text("task_resumed", "info", "作業を再開", "一時停止していた作業を再開しました。")
    case TaskPaused => Text("task_paused", "warning", "作業を一時停止", "作業を一時停止しました。")
    case TaskCompleted => Text("task_completed", "info", "作業が完了", "作業が正常に完了しました。")
    case TaskFailed => Text("task_failed", "error", "作業が失敗", "作業を正常に完了できませんでした。")
    case TaskStopped => Text("task_stopped", "warning", "作業を停止", "作業を安全に停止しました。")
  }

  /** How urgent a notification is. */
  lemma SeveritiesAre(kind: Kind)
    ensures TextOf(kind).severity ==
            if kind.OtherPlayerSafetyStop? then "critical"
            else if kind in {ReconnectExhaustedNotice, RuntimeFailed, TaskFailed} then "error"
            else if kind in {ReconnectStarted, MinecraftDisconnected, TaskPaused, TaskStopped} then "warning"
            else "info"
  {
  }

  // ---------------------------------------------------------------- identifiers

  function Digit(d: nat): (c: char)
    requires d < 10
  {
    ('0' as int + d) as char
  }

  function Decimal(n: nat): string {
    if n < 10 then [Digit(n)] else Decimal(n / 10) + [Digit(n % 10)]
  }

  /** Reads a numeral back. */
  function Numeral(s: string): int {
    if s == "" then 0 else 10 * Numeral(s[..|s| - 1]) + (s[|s| - 1] as int - '0' as int)
  }

  lemma {:induction false} DecimalReadsBack(n: nat)
    ensures Numeral(Decimal(n)) == n
    ensures forall i :: 0 <= i < |Decimal(n)| ==> Decimal(n)[i] != ':'
  {
    if n >= 10 {
      DecimalReadsBack(n / 10);
      assert Decimal(n)[..|Decimal(n)| - 1] == Decimal(n / 10);
    } else {
      assert Decimal(n)[..0] == "";
    }
  }

  function IdText(id: NotificationId): string {
    "state:" + (Decimal(id.revision) + ":" + TextOf(id.kind).name)
  }

  /** The position of the first colon. */
  function FirstColon(s: string): (n: nat)
    ensures n <= |s|
  {
    if s == "" || s[0] == ':' then 0 else 1 + FirstColon(s[1..])
  }

  lemma {:induction false} ColonAfter(head: string, tail: string)
    requires forall i :: 0 <= i < |head| ==> head[i] != ':'
    ensures FirstColon(head + ":" + tail) == |head|
  {
    if head != "" {
      assert (head + ":" + tail)[1..] == head[1..] + ":" + tail;
      ColonAfter(head[1..], tail);
    }
  }

  /** The revision that an id names. */
  function RevisionOf(id: string): int {
    if |id| < 6 then -1 else Numeral(id[6..][..FirstColon(id[6..])])
  }

  lemma NumberReadsBack(r: nat, name: string)
    ensures RevisionOf("state:" + (Decimal(r) + ":" + name)) == r
  {
    var rest := Decimal(r) + ":" + name;
    assert ("state:" + rest)[6..] == rest;
    DecimalReadsBack(r);
    ColonAfter(Decimal(r), name);
    assert rest[..|Decimal(r)|] == Decimal(r);
  }

  /** An id can be read back, so two notifications written alike are about one revision. */
  lemma IdReadsBack(id: NotificationId)
    ensures RevisionOf(IdText(id)) == id.revision
  {
    NumberReadsBack(id.revision, TextOf(id.kind).name);
  }

  // ---------------------------------------------------------------- the mapper

  function TaskKind(before: S.TaskState, after: S.TaskState): Option<Kind> {
    if before == after then None
    else
      match after
      case Preparing => Some(TaskPreparing)
      case Running => if before.Paused? then Some(TaskResumed) else Some(TaskStarted)
      case Paused => Some(TaskPaused)
      case TaskCompleted => Some(TaskCompleted)
      case TaskFailed => Some(TaskFailed)
      case TaskStopped => Some(TaskStopped)
      case Idle => None
  }

  predicate AnnouncedStop(r: Option<S.StopReason>) {
    && r.Some?
    && (r.value.SignalSigint? || r.value.SignalSigterm? || r.value.StopRequested? || r.value.ScheduleWindowEnded?)
  }

  function KindOf(before: S.Snapshot, after: S.Snapshot): Option<Kind> {
    var errorChanged := before.lastError != after.lastError;
    var b, a := before.minecraft, after.minecraft;
    if !b.otherPlayerDetected && a.otherPlayerDetected then Some(OtherPlayerSafetyStop)
    else if errorChanged && after.lastError.Some? && after.lastError.value.code.ReconnectExhaustedCode? then
      Some(ReconnectExhaustedNotice)
    else if errorChanged && after.lastError.Some? then Some(RuntimeFailed)
    else if before.stopReason != after.stopReason && AnnouncedStop(after.stopReason) then Some(StopRequestedNotice)
    else if !before.runtime.Reconnecting? && after.runtime.Reconnecting? then Some(ReconnectStarted)
    else if b.connection.Disconnected? && a.connection.Dialing? then Some(MinecraftConnecting)
    else if b.connection.Dialing? && a.connection.Connected? then Some(MinecraftConnected)
    else if !b.spawnCompleted && a.spawnCompleted then Some(MinecraftSpawned)
    else if !b.connection.Disconnected? && a.connection.Disconnected?
            && (after.runtime.Connecting? || after.runtime.Ready?) then Some(MinecraftDisconnected)
    else if !before.runtime.Stopped? && after.runtime.Stopped? && after.stopReason != Some(S.OtherPlayerDetected) then
      Some(RuntimeStopped)
    else TaskKind(before.task.state, after.task.state)
  }

  function Mapped(e: S.Event): Option<Message> {
    match KindOf(e.before, e.after)
    case None => None
    case Some(kind) => Some(Message(NotificationId(e.revision, kind), e.revision, kind, e.occurredAt))
  }

  /** What each command has to be told as, said without the mapper's order of branches. */
  function Telling(c: S.Command, before: S.Snapshot, at: int): Option<Kind> {
    match c
    case PlayerDetected => Some(OtherPlayerSafetyStop)
    case RecordError(code, text) =>
      if before.lastError == Some(S.RecordedError(code, text, at)) then None
      else if code.ReconnectExhaustedCode? then Some(ReconnectExhaustedNotice) else Some(RuntimeFailed)
    case RecordStopReason(reason) =>
      if reason in {S.SignalSigint, S.SignalSigterm, S.StopRequested, S.ScheduleWindowEnded}
      then Some(StopRequestedNotice) else None
    case RuntimeTransition(to) =>
      if to.Reconnecting? then Some(ReconnectStarted)
      else if to.Stopped? && before.stopReason != Some(S.OtherPlayerDetected) then Some(RuntimeStopped)
      else None
    case ConnectionTransition(to) =>
      (match to
       case Dialing => Some(MinecraftConnecting)
       case Connected => Some(MinecraftConnected)
       case Spawned => None
       case Disconnected =>
         if before.runtime.Connecting? || before.runtime.Ready? then Some(MinecraftDisconnected) else None)
    case SpawnUpdate(_) => Some(MinecraftSpawned)
    case TaskPrepare(_, _) => Some(TaskPreparing)
    case TaskTransition(to) =>
      (match to
       case Running => if before.task.state.Paused? then Some(TaskResumed) else Some(TaskStarted)
       case Paused => Some(TaskPaused)
       case TaskCompleted => Some(TaskCompleted)
       case TaskFailed => Some(TaskFailed)
       case TaskStopped => Some(TaskStopped))
    case _ => None
  }

  /** For every change a store can make, the mapper's chain of branches tells what its command was about:
      no branch hides another. An error told again within the same millisecond is told once. */
  lemma ToldByCause(s: S.Snapshot, c: S.Command, clock: Option<int>)
    ensures var r := S.Dispatched(s, c, clock);
            r.Ok? && r.value.Some? ==>
              KindOf(r.value.value.before, r.value.value.after) == Telling(c, s, r.value.value.occurredAt)
  {
  }

  /** The store after an error has been recorded at an instant. */
  function AfterError(at: int): S.Snapshot {
    S.Next(S.Initial(0), S.RecordError(S.ReconnectExhaustedCode, "x"), Some(at))
  }

  /** An error recorded again within the same millisecond is an event, and nothing is told of it. */
  lemma SecondErrorIsNotTold()
    ensures var r := S.Dispatched(AfterError(1), S.RecordError(S.ReconnectExhaustedCode, "x"), Some(1));
            r.Ok? && r.value.Some? && Mapped(r.value.value).None?
  {
    var c := S.RecordError(S.ReconnectExhaustedCode, "x");
    assert c.text[0] == 'x';
    assert AfterError(1).lastError == Some(S.RecordedError(S.ReconnectExhaustedCode, "x", 1));
    ToldByCause(AfterError(1), c, Some(1));
  }

  // ---------------------------------------------------------------- runs of a store

  /** The events of a run, in the order in which they are handed to subscribers. */
  function EventsOf(s: S.Snapshot, run: seq<S.Dispatch>): seq<S.Event>
    decreases |run|
  {
    if run == [] then []
    else
      var r := S.Dispatched(s, run[0].command, run[0].clock);
      (if r.Ok? && r.value.Some? then [r.value.value] else [])
      + EventsOf(S.Next(s, run[0].command, run[0].clock), run[1..])
  }

  /** What is told of an event when those up to revision `last` are already known. */
  function Tells(e: S.Event, last: int): seq<Message> { Unless(e.revision <= last, Mapped(e)) }

  function Unless(known: bool, m: Option<Message>): seq<Message> { if known || m.None? then [] else [m.value] }

  function Latest(e: S.Event, last: int): int { if e.revision <= last then last else e.revision }

  function Told(events: seq<S.Event>, last: int): seq<Message> {
    if events == [] then [] else Tells(events[0], last) + Told(events[1..], Latest(events[0], last))
  }

  function LatestOf(events: seq<S.Event>, last: int): int {
    if events == [] then last else LatestOf(events[1..], Latest(events[0], last))
  }

  lemma {:induction false} ToldAppend(events: seq<S.Event>, e: S.Event, last: int)
    ensures Told(events + [e], last) == Told(events, last) + Tells(e, LatestOf(events, last))
    ensures LatestOf(events + [e], last) == Latest(e, LatestOf(events, last))
  {
    if events == [] {
      assert [e][1..] == [];
    } else {
      assert (events + [e])[1..] == events[1..] + [e];
      ToldAppend(events[1..], e, Latest(events[0], last));
    }
  }

  lemma {:induction false} ToldOfSome(events: seq<S.Event>, last: int, i: nat) returns (e: S.Event)
    requires i < |Told(events, last)|
    ensures e in events && Mapped(e) == Some(Told(events, last)[i])
  {
    var first := Tells(events[0], last);
    if i < |first| {
      e := events[0];
    } else {
      e := ToldOfSome(events[1..], Latest(events[0], last), i - |first|);
    }
  }

  function SafetyStops(ms: seq<Message>): nat {
    if ms == [] then 0 else (if ms[0].kind.OtherPlayerSafetyStop? then 1 else 0) + SafetyStops(ms[1..])
  }

  lemma {:induction false} EventsAreNumbered(s: S.Snapshot, run: seq<S.Dispatch>)
    ensures var es := EventsOf(s, run);
            && S.After(s, run).revision == s.revision + |es|
            && forall i :: 0 <= i < |es| ==> es[i].revision == es[i].after.revision == s.revision + 1 + i
    decreases |run|
  {
    if run != [] { EventsAreNumbered(S.Next(s, run[0].command, run[0].clock), run[1..]); }
  }

  lemma DispatchedEvent(s: S.Snapshot, c: S.Command, clock: Option<int>)
    ensures var r := S.Dispatched(s, c, clock);
            r.Ok? && r.value.Some? ==>
              var e := r.value.value;
              e.before == s && e.after == S.Next(s, c, clock) && e.revision == e.after.revision == s.revision + 1
  {
  }

  lemma SafetyStopTold(e: S.Event, last: int)
    requires e.revision > last
    ensures SafetyStops(Tells(e, last)) ==
            if !e.before.minecraft.otherPlayerDetected && e.after.minecraft.otherPlayerDetected then 1 else 0
  {
  }

  lemma SafetyStopsAppend(ms: seq<Message>, more: seq<Message>)
    requires |ms| <= 1
    ensures SafetyStops(ms + more) == SafetyStops(ms) + SafetyStops(more)
  {
    if ms == [] { assert ms + more == more; } else { assert (ms + more)[1..] == more; }
  }

  /** A run tells of another player at most once, and exactly if one was detected in it. */
  lemma {:induction false} SafetyStopToldOnce(s: S.Snapshot, run: seq<S.Dispatch>)
    ensures SafetyStops(Told(EventsOf(s, run), s.revision)) ==
            if !s.minecraft.otherPlayerDetected && S.After(s, run).minecraft.otherPlayerDetected then 1 else 0
    decreases |run|
  {
    if run != [] {
      var next := S.Next(s, run[0].command, run[0].clock);
      SafetyStopToldOnce(next, run[1..]);
      S.StepIsIrreversible(s, run[0].command, run[0].clock);
      S.RunIsIrreversible(next, run[1..]);
      DispatchedEvent(s, run[0].command, run[0].clock);
      var rest := EventsOf(next, run[1..]);
      var r := S.Dispatched(s, run[0].command, run[0].clock);
      if r.Ok? && r.value.Some? {
        assert EventsOf(s, run) == [r.value.value] + rest;
        assert ([r.value.value] + rest)[1..] == rest;
        SafetyStopTold(r.value.value, s.revision);
        SafetyStopsAppend(Tells(r.value.value, s.revision), Told(rest, r.value.value.revision));
      } else {
        assert EventsOf(s, run) == rest;
      }
    }
  }

  // ---------------------------------------------------------------- the subscriber

  /** Messages in the order of their revisions, all of them up to the last one accepted. */
  ghost predicate Behind(ms: seq<Message>, last: int) {
    && (forall i, j :: 0 <= i < j < |ms| ==> ms[i].sourceRevision < ms[j].sourceRevision)
    && (forall i :: 0 <= i < |ms| ==> ms[i].sourceRevision <= last)
  }

  lemma BehindLater(ms: seq<Message>, last: int, revision: nat)
    requires Behind(ms, last) && revision > last
    ensures Behind(ms, revision)
    ensures forall m: Message :: m.sourceRevision == revision ==> Behind(ms + [m], revision)
  {
  }

  predicate Genuine(m: Message) { m.notificationId.revision == m.sourceRevision }

  predicate EndsWith(all: seq<NotificationId>, end: seq<NotificationId>) {
    |end| <= |all| && forall i :: 0 <= i < |end| ==> end[i] == all[|all| - |end| + i]
  }

  class NotificationSubscriber {
    const capacity: int
    var seenIds: set<NotificationId>
    var seenOrder: seq<NotificationId>
    var lastAccepted: int
    var subscribed: bool
    var closed: bool
    /** Messages handed to the port, in order; one that fails does not hold up the next. */
    ghost var sent: seq<Message>
    ghost var ids: seq<NotificationId>
    /** The events heard while open, and the revision before the first of them. */
    ghost var heard: seq<S.Event>
    ghost var base: int

    constructor (capacity: int)
      requires capacity >= 1
      ensures Valid() && Complete() && heard == [] && sent == [] && lastAccepted == -1
      ensures !subscribed && !closed && this.capacity == capacity
    {
      this.capacity := capacity;
      seenIds, seenOrder, lastAccepted, subscribed, closed := {}, [], -1, false, false;
      sent, ids, heard, base := [], [], [], -1;
    }

    /** The filter remembers the last `capacity` ids that were sent. */
    ghost predicate Valid()
      reads this
    {
      && capacity >= 1
      && |ids| == |sent|
      && (forall i :: 0 <= i < |sent| ==> ids[i] == sent[i].notificationId && Genuine(sent[i]))
      && |seenOrder| == Min(|sent|, capacity)
      && EndsWith(ids, seenOrder)
      && (forall i, j :: 0 <= i < j < |seenOrder| ==> seenOrder[i] != seenOrder[j])
      && (forall id :: id in seenIds <==> id in seenOrder)
    }

    /** What was sent lies behind the last accepted revision. */
    ghost predicate Ahead()
      reads this
    {
      Behind(sent, lastAccepted)
    }

    /** For any events in any order, and whatever the capacity: what was sent is what they tell. */
    ghost predicate Complete()
      reads this
    {
      Ahead() && sent == Told(heard, base) && lastAccepted == LatestOf(heard, base)
    }

    /** No id that is remembered lies above the last accepted revision. */
    ghost predicate Clear()
      reads this
    {
      forall id :: id in seenIds ==> id.revision <= lastAccepted
    }

    /** Refused if closed or subscribed already; otherwise what a store has behind it counts as known. */
    method Subscribe(revision: nat) returns (ok: bool)
      requires Valid()
      modifies this`lastAccepted, this`base, this`subscribed
      ensures Valid() && (ok <==> !closed && !old(subscribed))
      ensures subscribed == (old(subscribed) || ok)
      ensures lastAccepted == if ok then revision else old(lastAccepted)
      ensures seenIds == old(seenIds) && sent == old(sent) && closed == old(closed)
      ensures old(Ahead()) && old(lastAccepted) <= revision ==> Ahead()
      ensures heard == [] && old(Complete()) ==> Complete()
    {
      if closed || subscribed { return false; }
      subscribed := true;
      lastAccepted := revision;
      if heard == [] { base := revision; }
      ok := true;
    }

    method Unsubscribe()
      requires Valid()
      modifies this`subscribed
      ensures Valid() && !subscribed
    {
      subscribed := false;
    }

    method Remember(m: Message)
      requires Valid() && m.notificationId !in seenIds && Genuine(m)
      modifies this`seenIds, this`seenOrder, this`sent, this`ids
      ensures Valid() && sent == old(sent) + [m]
      ensures seenIds <= old(seenIds) + {m.notificationId}
    {
      sent := sent + [m];
      ids := ids + [m.notificationId];
      seenIds := seenIds + {m.notificationId};
      seenOrder := seenOrder + [m.notificationId];
      while |seenOrder| > capacity
        invariant Min(|sent|, capacity) <= |seenOrder| <= |ids| == |sent|
        invariant sent == old(sent) + [m] && ids == old(ids) + [m.notificationId]
        invariant EndsWith(ids, seenOrder) && seenIds <= old(seenIds) + {m.notificationId}
        invariant forall i, j :: 0 <= i < j < |seenOrder| ==> seenOrder[i] != seenOrder[j]
        invariant forall id :: id in seenIds <==> id in seenOrder
      {
        seenIds := seenIds - {seenOrder[0]};
        seenOrder := seenOrder[1..];
      }
    }

    lemma NotSeen(m: Message)
      requires Valid() && Ahead() && Genuine(m) && m.sourceRevision > lastAccepted
      ensures m.notificationId !in seenIds
    {
      forall i | 0 <= i < |seenOrder| ensures seenOrder[i] != m.notificationId {
        assert seenOrder[i] == sent[|ids| - |seenOrder| + i].notificationId;
      }
    }

    /** A store at that revision would hand out some event that the filter drops. */
    ghost predicate WouldDrop(revision: nat)
      reads this
    {
      exists e: S.Event :: e.revision > revision && Mapped(e).Some? && Mapped(e).value.notificationId in seenIds
    }

    /** Subscribing again puts events at risk exactly if an id above the revision is still remembered. */
    lemma DropsAfterResubscribing(revision: nat)
      requires Valid() && Complete()
      ensures WouldDrop(revision) <==> exists id :: id in seenIds && id.revision > revision
    {
      if id :| id in seenIds && id.revision > revision {
        var i :| 0 <= i < |seenOrder| && seenOrder[i] == id;
        var at := |ids| - |seenOrder| + i;
        assert sent[at].notificationId == id;
        var e := ToldOfSome(heard, base, at);
        assert Mapped(e).value.notificationId == id;
      }
    }

    method Take(m: Option<Message>, revision: nat)
      requires Valid() && (m.Some? ==> Genuine(m.value) && m.value.sourceRevision == revision)
      modifies this`seenIds, this`seenOrder, this`sent, this`ids, this`lastAccepted
      ensures Valid()
      ensures lastAccepted == if closed || revision <= old(lastAccepted) then old(lastAccepted) else revision
      ensures sent == old(sent) + Unless(closed || (m.Some? && m.value.notificationId in old(seenIds))
                                         || revision <= old(lastAccepted), m)
      ensures old(Ahead()) ==> Ahead()
      ensures old(Clear()) ==> Clear()
      ensures old(Clear()) && m.Some? && revision > old(lastAccepted) ==> m.value.notificationId !in old(seenIds)
      ensures old(Ahead()) && m.Some? && revision > old(lastAccepted) ==> m.value.notificationId !in old(seenIds)
    {
      if m.Some? && revision > lastAccepted && Ahead() { NotSeen(m.value); }
      if closed || revision <= lastAccepted { return; }
      if Ahead() { BehindLater(sent, lastAccepted, revision); }
      lastAccepted := revision;
      if m.None? || m.value.notificationId in seenIds { return; }
      Remember(m.value);
    }

    /** The filter drops an event exactly if its id is among those remembered; ahead of what was sent, it
        never is, and then everything accepted that has something to tell is sent. */
    method Accept(e: S.Event)
      requires Valid()
      modifies this`seenIds, this`seenOrder, this`sent, this`ids, this`lastAccepted, this`heard
      ensures Valid() && heard == old(heard) + if closed then [] else [e]
      ensures old(Complete()) ==> Complete()
      ensures lastAccepted == if closed then old(lastAccepted) else Latest(e, old(lastAccepted))
      ensures sent == old(sent) + if closed || (Mapped(e).Some? && Mapped(e).value.notificationId in old(seenIds))
                                  then [] else Tells(e, old(lastAccepted))
      ensures old(Ahead()) ==> Ahead() && sent == old(sent) + if closed then [] else Tells(e, old(lastAccepted))
      ensures old(Clear()) ==> Clear() && sent == old(sent) + if closed then [] else Tells(e, old(lastAccepted))
    {
      if closed { return; }
      ToldAppend(heard, e, base);
      heard := heard + [e];
      Take(Mapped(e), e.revision);
    }

    /** Whatever a store hands out from then on: as long as it is open, and no id above the last accepted
        revision is remembered, nothing is dropped. */
    method AcceptAll(es: seq<S.Event>)
      requires Valid() && !closed && Clear()
      modifies this`seenIds, this`seenOrder, this`sent, this`ids, this`lastAccepted, this`heard
      ensures Valid() && Clear() && heard == old(heard) + es
      ensures sent == old(sent) + Told(es, old(lastAccepted)) && lastAccepted == LatestOf(es, old(lastAccepted))
    {
      for i := 0 to |es|
        invariant Valid() && !closed && Clear() && heard == old(heard) + es[..i]
        invariant sent == old(sent) + Told(es[..i], old(lastAccepted))
        invariant lastAccepted == LatestOf(es[..i], old(lastAccepted))
      {
        ToldAppend(es[..i], es[i], old(lastAccepted));
        assert es[..i + 1] == es[..i] + [es[i]];
        Accept(es[i]);
      }
      assert es[..|es|] == es;
    }

    method Close()
      requires Valid()
      modifies this`closed, this`subscribed
      ensures Valid() && closed && (!old(closed) ==> !subscribed)
    {
      if closed { return; }
      closed := true;
      Unsubscribe();
    }
  }

  /** The event of a fresh store that begins to connect. */
  function Dialing(at: int): S.Event {
    S.Dispatched(S.Initial(0), S.ConnectionTransition(S.Dialing), Some(at)).value.value
  }

  lemma DialingTold(at: int)
    ensures Dialing(at).revision == 1
    ensures Mapped(Dialing(at)) == Some(Message(NotificationId(1, MinecraftConnecting), 1, MinecraftConnecting, at))
  {
  }

  method ToldFirst(e: S.Event) returns (s: NotificationSubscriber)
    requires e.revision == 1 && Mapped(e).Some?
    ensures fresh(s) && s.Valid() && !s.closed && s.subscribed && s.heard == [e]
    ensures s.sent == [Mapped(e).value] && Mapped(e).value.notificationId in s.seenIds
  {
    s := new NotificationSubscriber(8);
    var _ := s.Subscribe(0);
    s.Accept(e);
    assert s.sent == [Mapped(e).value];
    assert s.ids[0] == s.seenOrder[0] == Mapped(e).value.notificationId;
  }

  /** Subscribed to one store and then to another, it tells of the first one's event and not of the second's. */
  method DroppedAfterResubscribing(first: S.Event, second: S.Event) returns (s: NotificationSubscriber)
    requires first.revision == second.revision == 1 && Mapped(first).Some? && Mapped(second).Some?
    requires Mapped(first).value.notificationId == Mapped(second).value.notificationId
    ensures s.heard == [first, second] && s.sent == [Mapped(first).value] && s.lastAccepted == 1
  {
    s := ToldFirst(first);
    s.Unsubscribe();
    var _ := s.Subscribe(0);
    s.Accept(second);
  }

  /** Two fresh stores that connect, one after the other. */
  method SecondConnectingIsDropped() returns (s: NotificationSubscriber)
    ensures s.heard == [Dialing(1), Dialing(2)] && s.sent == [Mapped(Dialing(1)).value]
  {
    DialingTold(1);
    DialingTold(2);
    s := DroppedAfterResubscribing(Dialing(1), Dialing(2));
  }
}
