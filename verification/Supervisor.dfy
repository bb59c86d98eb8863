/** src/runtime/supervisor.ts: connects, reconnects with growing delays, and ends the runtime. One script
    tells what happens at each await: connection events, timers, stop requests and other parts' commands. */
module Supervisor {
  import opened Basics
  import S = StateStore

  // ---------------------------------------------------------------- what the supervisor sees of the store

  datatype View = View(runtime: S.RuntimeState, connection: S.Connection, spawned: bool, detected: bool,
                       stopReason: Option<S.StopReason>)

  function ViewOf(s: S.Snapshot): View {
    View(s.runtime, s.minecraft.connection, s.minecraft.spawnCompleted, s.minecraft.otherPlayerDetected, s.stopReason)
  }

  function ViewAfter(v: View, c: S.Command): View {
    match c
    case RuntimeTransition(to) =>
      if v.detected && (to.Connecting? || to.Ready? || to.Reconnecting?) then v
      else if S.RuntimeAllowed(v.runtime, to) then v.(runtime := to) else v
    case ConnectionTransition(to) =>
      if !S.ConnectionAllowed(v.connection, to) then v
      else v.(connection := to, spawned := v.spawned && !to.Disconnected?)
    case SpawnUpdate(completed) =>
      if completed && !v.spawned && v.connection.Connected? then v.(spawned := true, connection := S.Spawned) else v
    case PlayerDetected =>
      if v.detected || !Working(v.runtime) then v
      else v.(runtime := S.Stopping, detected := true, stopReason := Some(S.OtherPlayerDetected))
    case RecordStopReason(reason) =>
      if reason.OtherReason? && S.Blank(reason.text) then v else v.(stopReason := Some(reason))
    case _ => v
  }

  predicate Working(r: S.RuntimeState) { r.Connecting? || r.Ready? }

  lemma ViewStep(s: S.Snapshot, c: S.Command, at: int)
    ensures ViewOf(S.Next(s, c, Some(at))) == ViewAfter(ViewOf(s), c)
  {
  }

  // ---------------------------------------------------------------- the order of openings and closings

  datatype Mark = Opened(id: nat) | Shut(id: nat) | StopSet(reason: S.StopReason)

  datatype Ledger = Ledger(started: nat, live: Option<nat>, reasons: seq<S.StopReason>)

  /** One connection at a time, numbered as opened, none opened once a stop reason is set. */
  function Entered(l: Ledger, m: Mark): Option<Ledger> {
    match m
    case Opened(id) =>
      if l.live.None? && l.reasons == [] && id == l.started then Some(Ledger(l.started + 1, Some(id), [])) else None
    case Shut(id) => if l.live == Some(id) then Some(l.(live := None)) else None
    case StopSet(reason) => Some(l.(reasons := l.reasons + [reason]))
  }

  function Balance(trace: seq<Mark>): Option<Ledger> {
    if trace == [] then Some(Ledger(0, None, []))
    else
      match Balance(trace[..|trace| - 1])
      case None => None
      case Some(l) => Entered(l, trace[|trace| - 1])
  }

  /** What a balanced ledger means: every connection is opened once and shut once, but for the one that is
      live; and nothing is opened after a stop reason. */
  lemma {:induction false} BalancedMeaning(trace: seq<Mark>, id: nat)
    requires Balance(trace).Some?
    ensures var l := Balance(trace).value;
            && Count(trace, Opened(id)) == (if id < l.started then 1 else 0)
            && Count(trace, Shut(id)) == (if id < l.started && l.live != Some(id) then 1 else 0)
            && (l.live.Some? ==> l.live.value < l.started)
            && (forall i: nat :: StopSetAt(trace, i) ==> l.reasons != [])
    ensures forall i, j :: 0 <= i < j < |trace| && trace[i].StopSet? ==> !trace[j].Opened?
  {
    if trace != [] {
      BalancedMeaning(trace[..|trace| - 1], id);
    }
    NoneAfterStop(trace);
  }

  predicate StopSetAt(trace: seq<Mark>, i: nat) { i < |trace| && trace[i].StopSet? }

  lemma {:induction false} NoneAfterStop(trace: seq<Mark>)
    requires Balance(trace).Some?
    ensures forall i: nat :: StopSetAt(trace, i) ==> Balance(trace).value.reasons != []
    ensures forall i, j :: 0 <= i < j < |trace| && trace[i].StopSet? ==> !trace[j].Opened?
  {
    if trace != [] {
      var before := trace[..|trace| - 1];
      NoneAfterStop(before);
      forall i: nat | StopSetAt(trace, i) ensures Balance(trace).value.reasons != [] {
        assert i < |before| ==> StopSetAt(before, i);
      }
      forall i, j | 0 <= i < j < |trace| && trace[i].StopSet? ensures !trace[j].Opened? {
        assert StopSetAt(before, i);
        if j < |before| { assert before[i] == trace[i] && before[j] == trace[j]; }
      }
    }
  }

  lemma EachShutOnce(trace: seq<Mark>)
    requires Balance(trace).Some? && Balance(trace).value.live.None?
    ensures forall id: nat :: id < Balance(trace).value.started ==>
              Count(trace, Opened(id)) == 1 == Count(trace, Shut(id))
    ensures forall i, j :: 0 <= i < j < |trace| && trace[i].StopSet? ==> !trace[j].Opened?
  {
    BalancedMeaning(trace, 0);
    forall id: nat | id < Balance(trace).value.started
      ensures Count(trace, Opened(id)) == 1 == Count(trace, Shut(id))
    {
      BalancedMeaning(trace, id);
    }
  }

  // ---------------------------------------------------------------- scripts

  datatype Player = Player(id: string, name: Option<string>)

  type ExternalStop =
    r: S.StopReason | r.SignalSigint? || r.SignalSigterm? || r.StopRequested? || r.ScheduleWindowEnded?
    witness S.StopRequested

  /** Other parts of the runtime use the same store, for tasks and schedule intents only. */
  type OtherCommand = c: S.Command | S.IsTaskCommand(c) || c.RecordIntent? witness S.TaskReset

  datatype Happening =
    | StopAsked(reason: ExternalStop)
    | OtherDispatch(command: OtherCommand)
    | Authenticated(name: string)
    | Joined
    | SpawnFinished
    | StateReceived(position: Option<S.Position>, dimension: Option<Option<Dimension>>,
                    health: Option<S.Number>, hunger: Option<S.Number>)
    | PlayerJoined(player: Player)
    | PlayerLeft(id: string)
    | ConnectionFailed(retryable: bool)
    | ConnectionClosed
    | ConnectTimerFired

  datatype Attempt =
    | CreationThrows(until: seq<Happening>)
    | BindingThrows(until: seq<Happening>)
    | Connects(until: seq<Happening>)

  /** One turn of the retry loop: the attempt and all that happens until the loop goes on, and then the wait. */
  datatype Turn = Turn(attempt: Attempt, waiting: seq<Happening>, waitThrows: bool)

  datatype Outcome = EndedByStop | Retryable | Fatal

  /** The variables one attempt's listeners share; they are gone once it has settled. */
  datatype Listening = Listening(playerName: Option<string>, players: seq<Player>, spawned: bool)

  const UNHEARD := Listening(None, [], false)

  /** The reason that stands is the last one set. It was the only one, unless a failure has overridden a
      reason for a normal end. */
  predicate Overridden(reasons: seq<S.StopReason>, standing: Option<S.StopReason>) {
    match standing
    case None => reasons == []
    case Some(reason) =>
      reasons == [reason] ||
      (|reasons| == 2 && reasons[1] == reason && ExitCode(reasons[0]) == 0 && ExitCode(reason) == 1)
  }

  function Prior(r: Option<S.StopReason>): seq<S.StopReason> { if r.Some? then [r.value] else [] }

  datatype RuntimeResult = RuntimeResult(reason: S.StopReason, exitCode: int)

  function ExitCode(r: S.StopReason): int {
    if r.OtherPlayerDetected? || r.SignalSigint? || r.SignalSigterm? || r.StopRequested? || r.ScheduleWindowEnded?
    then 0 else 1
  }

  predicate HasPlayer(players: seq<Player>, id: string) { exists p :: p in players && p.id == id }

  function WithoutPlayer(players: seq<Player>, id: string): seq<Player> {
    if players == [] then []
    else (if players[0].id == id then [] else [players[0]]) + WithoutPlayer(players[1..], id)
  }

  /** The bot itself is the only player that does not stop the runtime. */
  predicate IsSelf(player: Player, name: Option<string>) { player.name.Some? && player.name == name }

  /** What an attempt that goes on has learnt. */
  function Heard(l: Listening, h: Happening): Listening {
    match h
    case Authenticated(name) => l.(playerName := Some(name))
    case SpawnFinished => l.(spawned := true)
    case PlayerJoined(player) => if HasPlayer(l.players, player.id) then l else l.(players := l.players + [player])
    case PlayerLeft(id) => l.(players := WithoutPlayer(l.players, id))
    case _ => l
  }

  /** What a connection event that does not end its attempt makes of the store. */
  function Shown(v: View, h: Happening): View {
    match h
    case Joined => ViewAfter(v, S.ConnectionTransition(S.Connected))
    case SpawnFinished => ViewAfter(ViewAfter(v, S.SpawnUpdate(true)), S.RuntimeTransition(S.Ready))
    case _ => v
  }

  // ---------------------------------------------------------------- what decides an attempt, and a run

  datatype Verdict = ByStop(reason: S.StopReason) | ByError(outcome: Outcome)

  predicate Foreign(l: Listening, player: Player) { !IsSelf(player, l.playerName) }

  /** How a happening settles an attempt that has learnt l, if it does. */
  function Settles(l: Listening, h: Happening): Option<Verdict> {
    match h
    case StopAsked(reason) => Some(ByStop(reason))
    case SpawnFinished =>
      if exists p :: p in l.players && Foreign(l, p) then Some(ByStop(S.OtherPlayerDetected)) else None
    case PlayerJoined(player) =>
      if l.spawned && !HasPlayer(l.players, player.id) && Foreign(l, player)
      then Some(ByStop(S.OtherPlayerDetected)) else None
    case ConnectionFailed(retryable) => Some(ByError(if retryable then Retryable else Fatal))
    case ConnectionClosed => Some(ByError(Retryable))
    case ConnectTimerFired => if l.spawned then None else Some(ByError(Retryable))
    case _ => None
  }

  /** What the listeners, a stop request and the loop hand to one another. */
  datatype Standing = Standing(current: Option<Listening>, reason: Option<S.StopReason>, outcome: Option<Outcome>)

  function Next(s: Standing, h: Happening): Standing {
    if h.StopAsked? then
      if s.reason.Some? then s
      else Standing(None, Some(h.reason), if s.current.Some? then Some(EndedByStop) else s.outcome)
    else if s.current.None? then s
    else
      match Settles(s.current.value, h)
      case None => s.(current := Some(Heard(s.current.value, h)))
      case Some(ByStop(reason)) => Standing(None, Some(reason), Some(EndedByStop))
      case Some(ByError(outcome)) => Standing(None, s.reason, Some(outcome))
  }

  function NextAll(s: Standing, hs: seq<Happening>): Standing {
    if hs == [] then s else Next(NextAll(s, hs[..|hs| - 1]), hs[|hs| - 1])
  }

  /** Where an attempt and all that happens until the loop goes on leave things; one that returns has settled
      at last by its connection's own end. */
  function StandsAfter(a: Attempt): Standing {
    var s := NextAll(Standing(if a.CreationThrows? then None else Some(UNHEARD), None,
                              if a.CreationThrows? then Some(Fatal) else None), a.until);
    if a.Connects? && s.current.Some? then Standing(None, None, Some(Retryable)) else s
  }

  function OrElse(a: Option<S.StopReason>, b: Option<S.StopReason>): Option<S.StopReason> { if a.Some? then a else b }

  /** The first stop that is asked for. */
  function FirstStop(hs: seq<Happening>): Option<S.StopReason> {
    if hs == [] then None
    else
      var before := FirstStop(hs[..|hs| - 1]);
      if before.Some? then before
      else if hs[|hs| - 1].StopAsked? then Some(hs[|hs| - 1].reason) else None
  }

  /** The reason with which a turn ends the run, if it does. */
  function EndIn(turn: Turn, retry: nat, maxRetries: nat): Option<S.StopReason> {
    var s := StandsAfter(turn.attempt);
    if turn.attempt.BindingThrows? then Some(S.InternalError)
    else if s.outcome == Some(EndedByStop) then s.reason
    else if s.outcome == Some(Fatal) then Some(S.ConnectionError)
    else if retry >= maxRetries then Some(S.ReconnectExhausted)
    else if turn.waitThrows then Some(S.InternalError)
    else OrElse(s.reason, FirstStop(turn.waiting))
  }

  /** The reason that was set before in that turn, and is overridden. */
  function OverriddenIn(turn: Turn, retry: nat, maxRetries: nat): Option<S.StopReason> {
    var s := StandsAfter(turn.attempt);
    if turn.attempt.BindingThrows? then s.reason
    else if s.outcome == Some(EndedByStop) then None
    else if s.outcome == Some(Fatal) || retry >= maxRetries then s.reason
    else if turn.waitThrows then OrElse(s.reason, FirstStop(turn.waiting))
    else None
  }

  /** The turn in which a run ends. */
  function LastTurn(turns: seq<Turn>, retry: nat, maxRetries: nat): (last: nat)
    requires retry <= maxRetries < |turns|
    ensures retry <= last <= maxRetries
    ensures forall k :: retry <= k < last ==> EndIn(turns[k], k, maxRetries).None?
    decreases maxRetries - retry
  {
    if retry == maxRetries || EndIn(turns[retry], retry, maxRetries).Some? then retry
    else LastTurn(turns, retry + 1, maxRetries)
  }

  // ---------------------------------------------------------------- the first happening that settles

  /** What is learnt from happenings none of which settles. */
  function Learnt(l: Listening, hs: seq<Happening>): Listening {
    if hs == [] then l else Heard(Learnt(l, hs[..|hs| - 1]), hs[|hs| - 1])
  }

  /** The place of the first happening that settles an attempt, or the end. */
  function FirstSettling(l: Listening, hs: seq<Happening>): (n: nat)
    ensures n <= |hs|
    ensures n < |hs| ==> Settles(Learnt(l, hs[..n]), hs[n]).Some?
  {
    if hs == [] then 0
    else
      var before := hs[..|hs| - 1];
      var n := FirstSettling(l, before);
      if n < |before| then assert before[..n] == hs[..n]; n
      else if Settles(Learnt(l, before), hs[|before|]).Some? then |before| else |hs|
  }

  lemma {:induction false} NothingSettlesBefore(l: Listening, hs: seq<Happening>, j: nat)
    requires j < FirstSettling(l, hs)
    ensures j < |hs| && Settles(Learnt(l, hs[..j]), hs[j]).None?
  {
    var before := hs[..|hs| - 1];
    if j < |before| {
      assert before[..j] == hs[..j];
      NothingSettlesBefore(l, before, j);
    }
  }

  /** A place that settles, with nothing settling before it, is the first. */
  lemma {:induction false} FirstSettlingIs(l: Listening, hs: seq<Happening>, n: nat)
    requires n < |hs| && Settles(Learnt(l, hs[..n]), hs[n]).Some?
    requires forall j :: 0 <= j < n ==> Settles(Learnt(l, hs[..j]), hs[j]).None?
    ensures FirstSettling(l, hs) == n
  {
    var m := FirstSettling(l, hs);
    if n < m { NothingSettlesBefore(l, hs, n); }
  }

  /** The verdict on an attempt that returns: its creation failed, or something settled it, or at last its
      own connection's end did. */
  function VerdictOn(a: Attempt): Verdict {
    if a.CreationThrows? then ByError(Fatal)
    else
      var n := FirstSettling(UNHEARD, a.until);
      if n < |a.until| then Settles(Learnt(UNHEARD, a.until[..n]), a.until[n]).value else ByError(Retryable)
  }

  /** What still happens after an attempt has settled and before the loop goes on. */
  function After(a: Attempt): seq<Happening> {
    if a.CreationThrows? then a.until
    else
      var n := FirstSettling(UNHEARD, a.until);
      if n < |a.until| then a.until[n + 1..] else []
  }

  /** Whether an attempt whose listeners could not be attached leaves them behind unsettled. */
  predicate LeavesBehind(a: Attempt) { a.BindingThrows? && FirstSettling(UNHEARD, a.until) == |a.until| }

  /** Whether a happening settles listeners left behind by a run: a stop request does not reach them. */
  predicate SettlesLate(l: Listening, h: Happening) { !h.StopAsked? && Settles(l, h).Some? }

  predicate SettledLate(l: Listening, hs: seq<Happening>) {
    hs != []
    && (SettledLate(l, hs[..|hs| - 1]) || SettlesLate(Learnt(l, hs[..|hs| - 1]), hs[|hs| - 1]))
  }

  /** They are settled exactly if some happening settles what has been learnt before it. */
  lemma {:induction false} SettledLateMeans(l: Listening, hs: seq<Happening>)
    ensures SettledLate(l, hs) <==> exists n :: 0 <= n < |hs| && SettlesLate(Learnt(l, hs[..n]), hs[n])
  {
    if hs != [] {
      var before := hs[..|hs| - 1];
      SettledLateMeans(l, before);
      forall n | 0 <= n < |before| ensures before[..n] == hs[..n] && before[n] == hs[n] {}
    }
  }

  /** How a turn ends the run, by the verdict on its attempt. */
  function Decision(turn: Turn, retry: nat, maxRetries: nat): Option<S.StopReason> {
    if turn.attempt.BindingThrows? then Some(S.InternalError)
    else
      match VerdictOn(turn.attempt)
      case ByStop(reason) => Some(reason)
      case ByError(Fatal) => Some(S.ConnectionError)
      case ByError(_) =>
        if retry >= maxRetries then Some(S.ReconnectExhausted)
        else if turn.waitThrows then Some(S.InternalError)
        else OrElse(FirstStop(After(turn.attempt)), FirstStop(turn.waiting))
  }

  /** A stop already set that the end of the run overrides: one asked for after an error, before the run has
      dealt with it, or whatever settled an attempt whose listeners could not be attached. */
  function Overrides(turn: Turn, retry: nat, maxRetries: nat): Option<S.StopReason> {
    if LeavesBehind(turn.attempt) then None
    else
      var late := FirstStop(After(turn.attempt));
      match VerdictOn(turn.attempt)
      case ByStop(reason) => if turn.attempt.BindingThrows? then Some(reason) else None
      case ByError(outcome) =>
        if turn.attempt.BindingThrows? || outcome.Fatal? || retry >= maxRetries then late
        else if turn.waitThrows then OrElse(late, FirstStop(turn.waiting)) else None
  }

  lemma VerdictsAreNormal(a: Attempt)
    ensures VerdictOn(a).ByStop? ==> ExitCode(VerdictOn(a).reason) == 0
    ensures VerdictOn(a).ByError? ==> !VerdictOn(a).outcome.EndedByStop?
  {
  }

  lemma {:induction false} FirstStopIsNormal(hs: seq<Happening>)
    ensures FirstStop(hs).Some? ==> ExitCode(FirstStop(hs).value) == 0 && !FirstStop(hs).value.OtherPlayerDetected?
    ensures FirstStop(hs).Some? <==> exists i :: 0 <= i < |hs| && hs[i].StopAsked?
  {
    if hs != [] {
      FirstStopIsNormal(hs[..|hs| - 1]);
      if i :| 0 <= i < |hs| && hs[i].StopAsked? {
        if i < |hs| - 1 { assert hs[..|hs| - 1][i] == hs[i]; }
      }
    }
  }

  // ---------------------------------------------------------------- the verdict is what the variables come to

  lemma {:induction false} NotListening(s: Standing, hs: seq<Happening>)
    requires s.current.None?
    ensures NextAll(s, hs) == s.(reason := OrElse(s.reason, FirstStop(hs)))
  {
    if hs != [] { NotListening(s, hs[..|hs| - 1]); }
  }

  function Closed(l: Listening, o: Option<Outcome>, hs: seq<Happening>): Standing {
    var n := FirstSettling(l, hs);
    if n == |hs| then Standing(Some(Learnt(l, hs)), None, o)
    else
      match Settles(Learnt(l, hs[..n]), hs[n]).value
      case ByStop(reason) => Standing(None, Some(reason), Some(EndedByStop))
      case ByError(outcome) => Standing(None, FirstStop(hs[n + 1..]), Some(outcome))
  }

  /** Only the first settling happening counts, and after an error the first stop asked for. */
  lemma {:induction false} WhileListening(l: Listening, o: Option<Outcome>, hs: seq<Happening>)
    ensures NextAll(Standing(Some(l), None, o), hs) == Closed(l, o, hs)
  {
    if hs != [] {
      var before := hs[..|hs| - 1];
      var n := FirstSettling(l, before);
      WhileListening(l, o, before);
      if n < |before| {
        assert before[..n] == hs[..n];
        assert hs[n + 1..][..|hs[n + 1..]| - 1] == before[n + 1..];
      } else {
        assert hs[..|before|] == before;
        assert hs[|hs|..] == [];
      }
    }
  }

  /** What a state event makes of the telemetry: it is told, or it is known to be invalid and emptied. */
  function Told(m: S.Minecraft, h: Happening): S.Minecraft
    requires h.StateReceived?
  {
    if h.position.None? && h.dimension.None? && h.health.None? && h.hunger.None? then m
    else if (h.dimension.Some? && h.dimension.value.None?) || !S.FiniteOrAbsent(h.health)
            || !S.FiniteOrAbsent(h.hunger) || !S.FinitePosition(h.position)
    then
      if m.telemetry.Invalid? then m
      else m.(telemetry := S.Invalid, position := None, dimension := None, health := None, hunger := None)
    else
      m.(telemetry := S.Valid, position := S.Or(h.position, m.position),
         dimension := if h.dimension.Some? then h.dimension.value else m.dimension,
         health := S.Or(h.health, m.health), hunger := S.Or(h.hunger, m.hunger))
  }

  /** An attempt that returns leaves its verdict standing, with the first stop asked for since if it was an
      error; one that does not leaves its listeners behind exactly if nothing has settled it. */
  lemma VerdictStands(a: Attempt)
    ensures StandsAfter(a) ==
            if LeavesBehind(a) then Standing(Some(Learnt(UNHEARD, a.until)), None, None)
            else
              match VerdictOn(a)
              case ByStop(reason) => Standing(None, Some(reason), Some(EndedByStop))
              case ByError(o) => Standing(None, FirstStop(After(a)), Some(o))
    ensures VerdictOn(a).ByError? ==> !VerdictOn(a).outcome.EndedByStop?
  {
    if a.CreationThrows? {
      NotListening(Standing(None, None, Some(Fatal)), a.until);
    } else {
      WhileListening(UNHEARD, None, a.until);
      VerdictsAreNormal(a);
    }
  }

  /** The run's end and what it overrides are decided by the first happening that settles the attempt. */
  lemma VerdictDecides(turn: Turn, retry: nat, maxRetries: nat)
    ensures EndIn(turn, retry, maxRetries) == Decision(turn, retry, maxRetries)
    ensures OverriddenIn(turn, retry, maxRetries) == Overrides(turn, retry, maxRetries)
    ensures StandsAfter(turn.attempt).current.Some? <==> LeavesBehind(turn.attempt)
  {
    VerdictStands(turn.attempt);
  }

  /** A player who is not the bot, known at the spawn or joining after it, before anything else has settled
      the attempt, ends the run normally with that reason, in whichever turn it happens. */
  lemma ForeignPlayerStopsTheRun(turns: seq<Turn>, maxRetries: nat, k: nat, n: nat)
    requires k <= maxRetries < |turns| && turns[k].attempt.Connects? && n < |turns[k].attempt.until|
    requires forall j :: 0 <= j < k ==> EndIn(turns[j], j, maxRetries).None?
    requires forall j :: 0 <= j < n ==>
               Settles(Learnt(UNHEARD, turns[k].attempt.until[..j]), turns[k].attempt.until[j]).None?
    requires ForeignPlayerSeen(Learnt(UNHEARD, turns[k].attempt.until[..n]), turns[k].attempt.until[n])
    ensures LastTurn(turns, 0, maxRetries) == k
    ensures EndIn(turns[k], k, maxRetries) == Some(S.OtherPlayerDetected) && ExitCode(S.OtherPlayerDetected) == 0
  {
    OnlyStrangersSettle(Learnt(UNHEARD, turns[k].attempt.until[..n]), turns[k].attempt.until[n]);
    FirstSettlingIs(UNHEARD, turns[k].attempt.until, n);
    VerdictDecides(turns[k], k, maxRetries);
    LastTurnIs(turns, 0, maxRetries, k);
  }

  /** A player without a name, any player before the bot is authenticated, and one named otherwise than it. */
  predicate Stranger(l: Listening, player: Player) {
    player.name.None? || l.playerName.None? || player.name.value != l.playerName.value
  }

  /** A stranger known at the spawn, or joining after it under an id not known yet. */
  ghost predicate ForeignPlayerSeen(l: Listening, h: Happening) {
    || (h.SpawnFinished? && exists p :: p in l.players && Stranger(l, p))
    || (h.PlayerJoined? && l.spawned && Stranger(l, h.player)
        && forall p :: p in l.players ==> p.id != h.player.id)
  }

  /** The player that bears the authenticated name settles nothing, at the spawn or after it, and nor does
      anybody who joins before it, joins again, or leaves. */
  lemma OnlyStrangersSettle(l: Listening, h: Happening)
    requires h.SpawnFinished? || h.PlayerJoined? || h.PlayerLeft?
    ensures Settles(l, h) == if ForeignPlayerSeen(l, h) then Some(ByStop(S.OtherPlayerDetected)) else None
    ensures h.PlayerJoined? && h.player.name.Some? && h.player.name == l.playerName ==> Settles(l, h).None?
  {
  }

  /** What has been learnt, by what was heard: the latest name authenticated, whether a spawn was finished, and
      of which ids a player has joined and not left since. */
  lemma {:induction false} LearntMeans(hs: seq<Happening>)
    ensures var l := Learnt(UNHEARD, hs);
            && (l.spawned <==> exists i :: 0 <= i < |hs| && hs[i].SpawnFinished?)
            && (l.playerName.None? <==> forall i :: 0 <= i < |hs| ==> !hs[i].Authenticated?)
            && (forall name :: l.playerName == Some(name) ==> LatestName(hs, name))
            && (forall id :: (exists p :: p in l.players && p.id == id) <==> Present(hs, id))
  {
    if hs != [] {
      var before := hs[..|hs| - 1];
      var last := hs[|hs| - 1];
      LearntMeans(before);
      assert forall i :: 0 <= i < |before| ==> before[i] == hs[i];
      var l, now := Learnt(UNHEARD, before), Learnt(UNHEARD, hs);
      if now.playerName.Some? {
        var name := now.playerName.value;
        if last.Authenticated? {
          assert NameAt(hs, |hs| - 1, name);
        } else {
          var i: nat :| NameAt(before, i, name);
          assert NameAt(hs, i, name);
        }
      }
      forall id ensures (exists p :: p in now.players && p.id == id) <==> Present(hs, id) {
        PresentOneMore(before, last, id);
        assert before + [last] == hs;
        if last.PlayerLeft? { WithoutPlayerMeans(l.players, last.id); }
        if last.PlayerJoined? && !HasPlayer(l.players, last.player.id) {
          assert last.player in now.players;
          assert forall p :: p in now.players <==> p in l.players || p == last.player;
        }
      }
    }
  }

  predicate NameAt(hs: seq<Happening>, i: nat, name: string) {
    i < |hs| && hs[i] == Authenticated(name) && forall j :: i < j < |hs| ==> !hs[j].Authenticated?
  }

  ghost predicate LatestName(hs: seq<Happening>, name: string) { exists i: nat :: NameAt(hs, i, name) }

  predicate JoinedAt(hs: seq<Happening>, i: nat, id: string) {
    && i < |hs| && hs[i].PlayerJoined? && hs[i].player.id == id
    && forall j :: i < j < |hs| ==> hs[j] != PlayerLeft(id)
  }

  ghost predicate Present(hs: seq<Happening>, id: string) { exists i: nat :: JoinedAt(hs, i, id) }

  lemma PresentOneMore(hs: seq<Happening>, h: Happening, id: string)
    ensures Present(hs + [h], id) <==>
              (h.PlayerJoined? && h.player.id == id) || (Present(hs, id) && h != PlayerLeft(id))
  {
    var all := hs + [h];
    if h.PlayerJoined? && h.player.id == id { assert JoinedAt(all, |hs|, id); }
    if i: nat :| JoinedAt(hs, i, id) {
      if h != PlayerLeft(id) { assert JoinedAt(all, i, id); }
    }
    if i: nat :| JoinedAt(all, i, id) {
      assert all[|hs|] == h;
      if i < |hs| {
        assert forall j :: i < j < |hs| ==> all[j] == hs[j];
        assert JoinedAt(hs, i, id);
      }
    }
  }

  lemma {:induction false} WithoutPlayerMeans(players: seq<Player>, id: string)
    ensures forall p :: p in WithoutPlayer(players, id) <==> p in players && p.id != id
  {
    if players != [] {
      WithoutPlayerMeans(players[1..], id);
      assert players == [players[0]] + players[1..];
    }
  }

  lemma {:induction false} LastTurnIs(turns: seq<Turn>, retry: nat, maxRetries: nat, k: nat)
    requires retry <= k <= maxRetries < |turns| && EndIn(turns[k], k, maxRetries).Some?
    requires forall j :: retry <= j < k ==> EndIn(turns[j], j, maxRetries).None?
    ensures LastTurn(turns, retry, maxRetries) == k
    decreases maxRetries - retry
  {
    if retry < k { LastTurnIs(turns, retry + 1, maxRetries, k); }
  }

  /** A stop stands at the end exactly if it settled the attempt, or the attempt failed in a way that could
      have been repeated and the wait did not throw; and it is overridden exactly if the run ends with an
      error although a stop was asked for after the attempt had settled. */
  lemma StopStandsExactly(turn: Turn, retry: nat, maxRetries: nat)
    requires turn.attempt.Connects? && EndIn(turn, retry, maxRetries).Some?
    ensures var repeatable := VerdictOn(turn.attempt) == ByError(Retryable) && retry < maxRetries;
            && (ExitCode(EndIn(turn, retry, maxRetries).value) == 0 <==>
                  VerdictOn(turn.attempt).ByStop? || (repeatable && !turn.waitThrows))
            && (OverriddenIn(turn, retry, maxRetries).Some? <==>
                  && ExitCode(EndIn(turn, retry, maxRetries).value) == 1
                  && (FirstStop(After(turn.attempt)).Some? || (repeatable && FirstStop(turn.waiting).Some?)))
  {
    VerdictDecides(turn, retry, maxRetries);
    VerdictsAreNormal(turn.attempt);
    FirstStopIsNormal(After(turn.attempt));
    FirstStopIsNormal(turn.waiting);
  }

  lemma ErrorsAreNoStops(a: Attempt)
    ensures var s := StandsAfter(a);
            && (!a.BindingThrows? ==> s.current.None?) && (a.CreationThrows? ==> s.outcome == Some(Fatal))
            && (!a.BindingThrows? ==>
                  s.outcome == Some(EndedByStop) || s.outcome == Some(Retryable) || s.outcome == Some(Fatal))
            && (s.outcome == Some(EndedByStop) ==> s.reason.Some?)
            && (s.outcome.Some? && !s.outcome.value.EndedByStop? ==> s.reason != Some(S.OtherPlayerDetected))
  {
    VerdictStands(a);
    FirstStopIsNormal(After(a));
    if !a.BindingThrows? {
      var o := StandsAfter(a).outcome.value;
      assert o.EndedByStop? || o.Retryable? || o.Fatal?;
    }
  }

  /** The last turn does end the run. */
  lemma {:induction false} LastTurnEnds(turns: seq<Turn>, retry: nat, maxRetries: nat)
    requires retry <= maxRetries < |turns|
    ensures var last := LastTurn(turns, retry, maxRetries);
            EndIn(turns[last], last, maxRetries).Some?
    decreases maxRetries - retry
  {
    ErrorsAreNoStops(turns[retry].attempt);
    if retry < maxRetries && EndIn(turns[retry], retry, maxRetries).None? {
      LastTurnEnds(turns, retry + 1, maxRetries);
    }
  }

  class RuntimeSupervisor {
    const store: S.StateStore
    const maxRetries: nat
    const initialDelayMs: nat
    const maxDelayMs: nat
    /** What the clock reads when the store's next change is stamped. */
    const clock: nat -> int
    var connection: Option<nat>
    /** Connections created so far; each goes by its number. */
    var created: nat
    var current: Option<Listening>
    var outcome: Option<Outcome>
    var stopReason: Option<S.StopReason>
    var finished: bool
    ghost var trace: seq<Mark>
    ghost var waits: seq<int>

    constructor (store: S.StateStore, maxRetries: nat, initialDelayMs: nat, maxDelayMs: nat, clock: nat -> int)
      requires ViewOf(store.snapshot) == View(S.Starting, S.Disconnected, false, false, None)
      ensures Untouched() && this.store == store && this.maxRetries == maxRetries
      ensures this.initialDelayMs == initialDelayMs && this.maxDelayMs == maxDelayMs && stopReason.None?
    {
      this.store, this.maxRetries, this.clock := store, maxRetries, clock;
      this.initialDelayMs, this.maxDelayMs := initialDelayMs, maxDelayMs;
      connection, current, outcome, stopReason := None, None, None, None;
      created, finished := 0, false;
      trace, waits := [], [];
    }

    ghost function Seen(): View
      reads this, store
    {
      ViewOf(store.snapshot)
    }

    ghost predicate Ledgered()
      reads this
    {
      && Balance(trace).Some?
      && Balance(trace).value.live == connection
      && Balance(trace).value.started == created
      && Overridden(Balance(trace).value.reasons, stopReason)
      && (connection.Some? ==> current.Some? && connection.value + 1 == created)
    }

    /** Every stop reason set so far. */
    ghost function Reasons(): seq<S.StopReason>
      reads this
    {
      if Balance(trace).Some? then Balance(trace).value.reasons else []
    }

    /** While the runtime has not ended: a stop reason and the store agree, and an attempt listens only as
        long as no reason is set. */
    ghost predicate Alive()
      reads this, store
    {
      var v := Seen();
      && Ledgered()
      && (stopReason.None? ==> !v.detected && v.stopReason.None? && !S.Ending(v.runtime))
      && (stopReason.Some? ==> v.runtime.Stopping? && v.stopReason == stopReason && ExitCode(stopReason.value) == 0)
      && (v.detected <==> stopReason == Some(S.OtherPlayerDetected))
      && (current.Some? ==> connection.Some? && stopReason.None? && Working(v.runtime))
    }

    ghost predicate Untouched()
      reads this, store
    {
      && Alive()
      && created == 0 && current.None? && !finished && waits == []
      && Seen().connection.Disconnected?
      && (stopReason.None? ==> Seen().runtime.Starting?)
    }

    ghost method Note(m: Mark)
      requires Balance(trace).Some? && Entered(Balance(trace).value, m).Some?
      modifies this`trace
      ensures trace == old(trace) + [m]
      ensures Balance(trace) == Entered(Balance(old(trace)).value, m)
    {
      trace := trace + [m];
      assert trace[..|trace| - 1] == old(trace);
    }

    method DispatchState(c: S.Command) returns (ok: bool)
      modifies store
      ensures Seen() == ViewAfter(old(Seen()), c)
    {
      ViewStep(store.snapshot, c, clock(store.snapshot.revision));
      var r := store.Dispatch(c, Some(clock(store.snapshot.revision)));
      ok := r.Ok?;
    }

    method SetStopReason(r: S.StopReason)
      requires Ledgered()
      requires stopReason.Some? ==> ExitCode(stopReason.value) == 0 && ExitCode(r) == 1
      modifies this`stopReason, this`trace
      ensures Ledgered() && stopReason == Some(r) && created == old(created)
      ensures trace == old(trace) + [StopSet(r)] && Reasons() == old(Reasons()) + [r]
    {
      stopReason := Some(r);
      Note(StopSet(r));
    }

    /** Called at most once per attempt, for its listeners are removed with it. */
    method Settle(o: Outcome)
      requires Ledgered() && current.Some? && connection.Some?
      modifies this`connection, this`current, this`outcome, this`trace
      ensures Ledgered() && connection.None? && current.None? && outcome == Some(o)
      ensures trace == old(trace) + [Shut(created - 1)]
    {
      var id := connection.value;
      connection, current := None, None;
      Note(Shut(id));
      outcome := Some(o);
    }

    method Disconnect()
      requires Ledgered()
      modifies this`connection, this`trace
      ensures Ledgered() && connection.None? && created == old(created) && Reasons() == old(Reasons())
      ensures trace == if old(connection).Some? then old(trace) + [Shut(old(connection).value)] else old(trace)
    {
      if connection.Some? {
        var id := connection.value;
        connection := None;
        Note(Shut(id));
      }
    }

    method RecordStop(r: ExternalStop)
      requires S.RuntimeAllowed(Seen().runtime, S.Stopping)
      modifies store
      ensures Seen() == old(Seen()).(runtime := S.Stopping, stopReason := Some(r))
    {
      var recorded := DispatchState(S.RecordStopReason(r));
      var stopping := DispatchState(S.RuntimeTransition(S.Stopping));
    }

    /** The first reason wins; it is recorded, the runtime starts stopping and a listening attempt ends. */
    method RequestStop(r: ExternalStop)
      requires Alive()
      modifies this`stopReason, this`connection, this`current, this`outcome, this`trace, store
      ensures Alive() && connection.None? && current.None?
      ensures stopReason == if old(stopReason).Some? then old(stopReason) else Some(r)
      ensures old(stopReason).Some? ==> Seen() == old(Seen())
      ensures Seen().connection == old(Seen().connection)
      ensures old(current).None? ==> outcome == old(outcome)
      ensures old(current).Some? ==> outcome == Some(EndedByStop)
      ensures created == old(created)
    {
      if stopReason.Some? { return; }
      SetStopReason(r);
      RecordStop(r);
      if current.Some? { Settle(EndedByStop); }
      Disconnect();
    }

    method Detect(player: Player)
      requires Alive() && current.Some?
      modifies this`stopReason, this`connection, this`current, this`outcome, this`trace, store
      ensures Alive() && created == old(created)
      ensures IsSelf(player, old(current.value.playerName)) ==>
                current == old(current) && stopReason.None? && outcome == old(outcome) && Seen() == old(Seen())
      ensures !IsSelf(player, old(current.value.playerName)) ==>
                current.None? && outcome == Some(EndedByStop) && stopReason == Some(S.OtherPlayerDetected)
    {
      if !Foreign(current.value, player) { return; }
      SetStopReason(S.OtherPlayerDetected);
      var detected := DispatchState(S.PlayerDetected);
      Settle(EndedByStop);
    }

    /** A player who is not the bot stops the runtime at the spawn, or when joining after it. */
    method Spawn()
      requires Alive() && current.Some?
      modifies this`stopReason, this`connection, this`current, this`outcome, this`trace, store
      ensures Alive() && created == old(created)
      ensures stopReason.None? <==> current.Some?
      ensures stopReason.Some? <==>
                exists p :: p in old(current.value.players) && Stranger(old(current.value), p)
      ensures stopReason.Some? ==> stopReason == Some(S.OtherPlayerDetected) && outcome == Some(EndedByStop)
      ensures current.Some? ==> && current == Some(old(current).value.(spawned := true)) && outcome == old(outcome)
                                && Seen() == Shown(old(Seen()), SpawnFinished)
    {
      current := Some(current.value.(spawned := true));
      var updated := DispatchState(S.SpawnUpdate(true));
      var ready := DispatchState(S.RuntimeTransition(S.Ready));
      var players, name := current.value.players, current.value.playerName;
      var i := 0;
      while i < |players| && current.Some?
        invariant 0 <= i <= |players| && Alive() && created == old(created)
        invariant current.Some? ==> && current.value == old(current).value.(spawned := true) && outcome == old(outcome)
                                    && Seen() == Shown(old(Seen()), SpawnFinished)
        invariant stopReason.None? <==> current.Some?
        invariant current.Some? ==> forall k :: 0 <= k < i ==> IsSelf(players[k], name)
        invariant current.None? ==> && stopReason == Some(S.OtherPlayerDetected) && outcome == Some(EndedByStop)
                                    && exists p :: p in players && !IsSelf(p, name)
      {
        Detect(players[i]);
        assert players[i] in players;
        i := i + 1;
      }
    }

    method ReceiveState(h: Happening)
      requires h.StateReceived?
      modifies store
      ensures Seen() == old(Seen())
      ensures store.snapshot.minecraft == Told(old(store.snapshot.minecraft), h)
    {
      if h.position.None? && h.dimension.None? && h.health.None? && h.hunger.None? { return; }
      var at := Some(clock(store.snapshot.revision));
      if h.dimension.Some? && h.dimension.value.None? {
        var invalidated := store.Dispatch(S.TelemetryInvalidate, at);
        return;
      }
      var dimension := if h.dimension.Some? then h.dimension.value else None;
      var updated := store.Dispatch(S.TelemetryUpdate(h.position, dimension, h.health, h.hunger), at);
      if updated.Err? { var invalidated := store.Dispatch(S.TelemetryInvalidate, at); }
    }

    ghost function Now(): Standing
      reads this
    {
      Standing(current, stopReason, outcome)
    }

    /** One happening; a connection is heard only while its attempt listens. */
    method React(h: Happening)
      requires Alive()
      modifies this`stopReason, this`connection, this`current, this`outcome, this`trace, store
      ensures Alive() && created == old(created)
      ensures Now() == Next(old(Now()), h)
      ensures old(current).None? && stopReason.None? ==> Seen() == old(Seen())
      ensures current.Some? ==> Seen() == Shown(old(Seen()), h)
      ensures old(current).Some? && h.StateReceived? ==>
                store.snapshot.minecraft == Told(old(store.snapshot.minecraft), h)
      ensures stopReason.None? && Working(old(Seen().runtime)) ==> Working(Seen().runtime)
      ensures old(current).None? ==> Seen().connection == old(Seen().connection)
    {
      if h.StopAsked? {
        RequestStop(h.reason);
      } else if h.OtherDispatch? {
        var other := DispatchState(h.command);
      } else if current.Some? {
        match h
        case Authenticated(name) => current := Some(current.value.(playerName := Some(name)));
        case Joined => var joined := DispatchState(S.ConnectionTransition(S.Connected));
        case SpawnFinished => Spawn();
        case StateReceived(_, _, _, _) => ReceiveState(h);
        case PlayerJoined(player) =>
          if !HasPlayer(current.value.players, player.id) {
            current := Some(current.value.(players := current.value.players + [player]));
            if current.value.spawned { Detect(player); }
          }
        case PlayerLeft(id) =>
          current := Some(current.value.(players := WithoutPlayer(current.value.players, id)));
        case ConnectionFailed(retryable) => Settle(if retryable then Retryable else Fatal);
        case ConnectionClosed => Settle(if stopReason.Some? then EndedByStop else Retryable);
        case ConnectTimerFired => if !current.value.spawned { Settle(Retryable); }
      }
    }

    method ReactAll(hs: seq<Happening>)
      requires Alive()
      modifies this`stopReason, this`connection, this`current, this`outcome, this`trace, store
      ensures Alive() && created == old(created)
      ensures Now() == NextAll(old(Now()), hs)
      ensures old(current).None? && stopReason.None? ==> Seen() == old(Seen())
      ensures stopReason.None? && Working(old(Seen().runtime)) ==> Working(Seen().runtime)
      ensures old(current).None? ==> Seen().connection == old(Seen().connection)
    {
      for i := 0 to |hs|
        invariant Alive() && created == old(created)
        invariant Now() == NextAll(old(Now()), hs[..i])
        invariant old(current).None? ==> current.None? && Seen().connection == old(Seen().connection)
        invariant old(current).None? && stopReason.None? ==> Seen() == old(Seen())
        invariant stopReason.None? && Working(old(Seen().runtime)) ==> Working(Seen().runtime)
      {
        assert hs[..i + 1][..i] == hs[..i];
        React(hs[i]);
      }
      assert hs[..|hs|] == hs;
    }

    method Open()
      requires Alive() && stopReason.None? && current.None? && Working(Seen().runtime)
      modifies this`connection, this`created, this`current, this`outcome, this`trace
      ensures Alive() && Now() == Standing(Some(UNHEARD), None, None) && created == old(created) + 1
    {
      assert Balance(trace).value == Ledger(created, None, []);
      Note(Opened(created));
      assert Balance(trace).value == Ledger(created + 1, Some(created), []);
      connection, current, outcome := Some(created), Some(UNHEARD), None;
      created := created + 1;
    }

    /** Ends once the attempt has settled: the timer before the spawn, or the connection's own end after it,
        does so at last. An error thrown while listeners are attached is passed on. */
    method RunAttempt(a: Attempt) returns (threw: bool)
      requires Alive() && current.None? && stopReason.None? && Working(Seen().runtime)
      modifies this`stopReason, this`connection, this`created, this`current, this`outcome, this`trace, store
      ensures Alive() && created == old(created) + if a.CreationThrows? then 0 else 1
      ensures threw <==> a.BindingThrows?
      ensures Now() == StandsAfter(a) && (!threw ==> current.None?)
      ensures stopReason.None? ==> Working(Seen().runtime)
    {
      threw := a.BindingThrows?;
      if a.CreationThrows? {
        outcome := Some(Fatal);
        NotListening(Now(), a.until);
        ReactAll(a.until);
        return;
      }
      Open();
      ReactAll(a.until);
      if !threw && current.Some? { React(ConnectionClosed); }
    }

    method MarkMinecraftDisconnected()
      modifies store
      ensures Seen() == old(Seen()).(connection := S.Disconnected,
                                     spawned := old(Seen().spawned && Seen().connection.Disconnected?))
    {
      if store.snapshot.minecraft.connection.Disconnected? { return; }
      var marked := DispatchState(S.ConnectionTransition(S.Disconnected));
    }

    /** A failure overrides whatever reason a stop request may have set meanwhile. */
    method RecordFailure(reason: S.StopReason, code: S.ErrorCode, text: string)
      requires Ledgered() && !reason.OtherReason? && S.RuntimeAllowed(Seen().runtime, S.Failed)
      requires ExitCode(reason) == 1 && (stopReason.Some? ==> ExitCode(stopReason.value) == 0)
      modifies this`stopReason, this`trace, store
      ensures Ledgered() && stopReason == Some(reason) && Reasons() == old(Reasons()) + [reason]
      ensures Seen() == old(Seen()).(runtime := S.Failed, stopReason := Some(reason))
    {
      SetStopReason(reason);
      ShowFailure(reason, code, text);
    }

    method ShowFailure(reason: S.StopReason, code: S.ErrorCode, text: string)
      requires !reason.OtherReason? && S.RuntimeAllowed(Seen().runtime, S.Failed)
      modifies store
      ensures Seen() == old(Seen()).(runtime := S.Failed, stopReason := Some(reason))
    {
      var recorded := DispatchState(S.RecordStopReason(reason));
      var error := DispatchState(S.RecordError(code, text));
      var failed := DispatchState(S.RuntimeTransition(S.Failed));
    }

    method Dial()
      requires Seen().runtime.Starting? || Seen().runtime.Reconnecting?
      requires Seen().connection.Disconnected? && !Seen().detected
      modifies store
      ensures Seen() == old(Seen()).(runtime := S.Connecting, connection := S.Dialing)
    {
      var connecting := DispatchState(S.RuntimeTransition(S.Connecting));
      var dialing := DispatchState(S.ConnectionTransition(S.Dialing));
    }

    method Conclude() returns (r: RuntimeResult)
      requires Ledgered() && stopReason.Some? && Seen().stopReason == stopReason
      requires ExitCode(stopReason.value) == 0 ==> Seen().runtime.Stopping?
      requires ExitCode(stopReason.value) != 0 ==> Seen().runtime.Stopping? || Seen().runtime.Failed?
      modifies this`connection, this`trace, this`finished, store
      ensures Ledgered() && connection.None? && finished && Reasons() == old(Reasons())
      ensures r == RuntimeResult(stopReason.value, ExitCode(stopReason.value))
      ensures Seen().connection.Disconnected? && Seen().stopReason == stopReason
      ensures Seen().runtime == if r.exitCode == 0 then S.Stopped else S.Failed
      ensures Seen().detected == old(Seen().detected)
    {
      Disconnect();
      MarkMinecraftDisconnected();
      finished := true;
      r := RuntimeResult(stopReason.value, ExitCode(stopReason.value));
      if r.exitCode == 0 {
        var stopped := DispatchState(S.RuntimeTransition(S.Stopped));
      } else if !store.snapshot.runtime.Failed? {
        var failed := DispatchState(S.RuntimeTransition(S.Failed));
      }
    }

    function Delay(retry: nat): int { Min(initialDelayMs * Power2(retry), maxDelayMs) }

    /** The waits double from the first one on until they reach their limit. */
    lemma DelaysDouble(retry: nat)
      ensures Delay(0) == if initialDelayMs < maxDelayMs then initialDelayMs else maxDelayMs
      ensures Delay(retry + 1) == if 2 * Delay(retry) < maxDelayMs then 2 * Delay(retry) else maxDelayMs
    {
      var power := Power2(retry);
      PowerPositive(retry);
      assert Power2(retry + 1) == 2 * power;
      assert initialDelayMs * (2 * power) == 2 * (initialDelayMs * power);
      assert initialDelayMs * power >= 0;
    }

    /** What is detected, what is recorded and how the runtime stands, when the retry loop has ended. */
    ghost predicate Decided(threw: bool)
      reads this, store
    {
      var v := Seen();
      && Ledgered()
      && (v.detected ==> stopReason == Some(S.OtherPlayerDetected))
      && if threw then S.RuntimeAllowed(v.runtime, S.Failed) && (stopReason.Some? ==> ExitCode(stopReason.value) == 0)
         else
           && stopReason.Some? && v.stopReason == stopReason && current.None?
           && (v.detected <==> stopReason == Some(S.OtherPlayerDetected))
           && v.runtime == if ExitCode(stopReason.value) == 0 then S.Stopping else S.Failed
    }

    ghost predicate BetweenAttempts()
      reads this, store
    {
      && Alive() && current.None? && Seen().connection.Disconnected?
      && (stopReason.None? ==> Seen().runtime.Starting? || Seen().runtime.Reconnecting?)
    }

    method GiveUp(reason: S.StopReason, code: S.ErrorCode, text: string)
      requires Alive() && current.None? && (Seen().runtime.Stopping? || Working(Seen().runtime))
      requires ExitCode(reason) == 1 && !reason.OtherReason? && !Seen().detected
      modifies this`stopReason, this`trace, store
      ensures Decided(false) && stopReason == Some(reason) && current.None?
      ensures Reasons() == Prior(old(stopReason)) + [reason]
    {
      RecordFailure(reason, code, text);
    }

    method Pause(waiting: seq<Happening>)
      requires Alive() && current.None? && Seen().connection.Disconnected?
      requires stopReason.None? ==> Working(Seen().runtime)
      modifies this`stopReason, this`connection, this`current, this`outcome, this`trace, store
      ensures BetweenAttempts() && stopReason == OrElse(old(stopReason), FirstStop(waiting))
      ensures S.RuntimeAllowed(Seen().runtime, S.Failed) && (Seen().detected ==> old(Seen().detected))
    {
      var reconnecting := DispatchState(S.RuntimeTransition(S.Reconnecting));
      NotListening(Now(), waiting);
      FirstStopIsNormal(waiting);
      ReactAll(waiting);
    }

    /** What is to be said when a turn has been taken: the run goes on exactly if nothing in it ends the run;
        if it ends, the reason stands behind the one it overrides, or is about to be set. */
    ghost predicate TurnTaken(turn: Turn, retry: nat, threw: bool, more: bool)
      reads this, store
    {
      var end := EndIn(turn, retry, maxRetries);
      var overridden := OverriddenIn(turn, retry, maxRetries);
      && (more <==> end.None?)
      && (more ==> BetweenAttempts() && stopReason.None? && !threw && retry < maxRetries)
      && (!more ==> Decided(threw))
      && (!more && !threw ==> stopReason == end && Reasons() == Prior(overridden) + [stopReason.value])
      && (threw ==> end == Some(S.InternalError) && stopReason == overridden)
    }

    /** What follows an attempt that ended with an error: give up, or wait before the next one. */
    method GoOn(turn: Turn, retry: nat) returns (threw: bool, more: bool)
      requires Alive() && current.None? && retry <= maxRetries && !Seen().detected
      requires Now() == StandsAfter(turn.attempt) && !turn.attempt.BindingThrows?
      requires outcome == Some(Fatal) || outcome == Some(Retryable)
      requires stopReason.None? ==> Working(Seen().runtime)
      modifies this`stopReason, this`connection, this`current, this`outcome, this`trace, this`waits, store
      ensures current.None? && TurnTaken(turn, retry, threw, more)
      ensures waits == old(waits) + if old(outcome) == Some(Retryable) && retry < maxRetries then [Delay(retry)] else []
    {
      MarkMinecraftDisconnected();
      if outcome == Some(Fatal) {
        GiveUp(S.ConnectionError, S.ConnectionErrorCode, "Minecraft connection failed");
        return false, false;
      }
      if retry >= maxRetries {
        GiveUp(S.ReconnectExhausted, S.ReconnectExhaustedCode, "Reconnect attempts exhausted");
        return false, false;
      }
      waits := waits + [Delay(retry)];
      Pause(turn.waiting);
      return turn.waitThrows, !turn.waitThrows && stopReason.None?;
    }

    /** One turn of the loop, up to the end of the wait before the next attempt. */
    method TakeTurn(turn: Turn, retry: nat) returns (threw: bool, more: bool)
      requires BetweenAttempts() && stopReason.None? && retry <= maxRetries
      modifies this`stopReason, this`connection, this`created, this`current, this`outcome, this`trace, this`waits, store
      ensures created == old(created) + if turn.attempt.CreationThrows? then 0 else 1
      ensures TurnTaken(turn, retry, threw, more)
      ensures current == StandsAfter(turn.attempt).current
      ensures more ==> waits == old(waits) + [Delay(retry)] && created == old(created) + 1
      ensures waits == old(waits) || (retry < maxRetries && waits == old(waits) + [Delay(retry)])
    {
      Dial();
      threw := RunAttempt(turn.attempt);
      ErrorsAreNoStops(turn.attempt);
      if threw || outcome == Some(EndedByStop) { return threw, false; }
      threw, more := GoOn(turn, retry);
    }

    /** What the run has come to when its last turn has been taken. */
    ghost predicate Ended(turns: seq<Turn>, threw: bool)
      requires |turns| > maxRetries
      reads this, store
    {
      var last := LastTurn(turns, 0, maxRetries);
      && TurnTaken(turns[last], last, threw, false)
      && created == last + (if turns[last].attempt.CreationThrows? then 0 else 1)
      && current == StandsAfter(turns[last].attempt).current
    }

    /** Turns are taken until there is a reason to stop. */
    method Repeat(turns: seq<Turn>) returns (threw: bool)
      requires Untouched() && |turns| > maxRetries && stopReason.None?
      modifies this`stopReason, this`connection, this`created, this`current, this`outcome, this`trace, this`waits, store
      ensures Ended(turns, threw)
      ensures |waits| <= maxRetries && forall i :: 0 <= i < |waits| ==> waits[i] == Delay(i)
    {
      ghost var last := LastTurn(turns, 0, maxRetries);
      LastTurnEnds(turns, 0, maxRetries);
      var retry := 0;
      threw := false;
      var more := true;
      while stopReason.None? && more
        invariant retry <= last <= maxRetries && |waits| <= maxRetries
        invariant if more then |waits| == retry == created && BetweenAttempts() && stopReason.None?
                  else Ended(turns, threw)
        invariant forall i :: 0 <= i < |waits| ==> waits[i] == Delay(i)
        decreases maxRetries - retry, more
      {
        threw, more := TakeTurn(turns[retry], retry);
        if more { retry := retry + 1; }
      }
    }

    /** Whatever happens, the run ends: in the first turn that has something to end it, with the reason that
        gives, over the one set before it if there was one. Every connection opened was shut exactly once and
        none was opened after a stop reason; what is returned is what the store shows; and listeners are left
        behind exactly if attaching them threw in the last turn and nothing has settled them. */
    method Run(turns: seq<Turn>) returns (r: RuntimeResult)
      requires Untouched() && |turns| > maxRetries
      modifies this, store
      ensures Ledgered() && connection.None? && finished
      ensures forall id: nat :: id < created ==> Count(trace, Opened(id)) == 1 == Count(trace, Shut(id))
      ensures forall i, j :: 0 <= i < j < |trace| && trace[i].StopSet? ==> !trace[j].Opened?
      ensures stopReason == Some(r.reason) && r.exitCode == ExitCode(r.reason)
      ensures Seen().connection.Disconnected? && Seen().stopReason == stopReason
      ensures Seen().runtime == if r.exitCode == 0 then S.Stopped else S.Failed
      ensures r.reason.OtherPlayerDetected? ==> Seen().detected
      ensures Seen().detected ==> r.reason.OtherPlayerDetected? || r.reason.InternalError?
      ensures old(stopReason).Some? ==> created == 0 && r.reason == old(stopReason).value && current.None?
      ensures old(stopReason).None? ==>
                var last := LastTurn(turns, 0, maxRetries);
                && EndIn(turns[last], last, maxRetries) == Decision(turns[last], last, maxRetries) == Some(r.reason)
                && Reasons() == Prior(Overrides(turns[last], last, maxRetries)) + [r.reason]
                && created == last + (if turns[last].attempt.CreationThrows? then 0 else 1)
                && (current.Some? <==> LeavesBehind(turns[last].attempt))
                && (current.Some? ==> current == Some(Learnt(UNHEARD, turns[last].attempt.until)))
      ensures created <= maxRetries + 1
      ensures |waits| <= maxRetries && forall i :: 0 <= i < |waits| ==> waits[i] == Delay(i)
    {
      if stopReason.None? {
        ghost var last := LastTurn(turns, 0, maxRetries);
        VerdictDecides(turns[last], last, maxRetries);
        VerdictStands(turns[last].attempt);
        var threw := Repeat(turns);
        if threw { RecordFailure(S.InternalError, S.InternalErrorCode, "Unexpected runtime error"); }
      }
      r := Conclude();
      EachShutOnce(trace);
    }

    /** A run has ended, and listeners may be left over from an attempt that nobody waits for any more. */
    ghost predicate Over()
      reads this, store
    {
      && finished && connection.None? && stopReason.Some?
      && (current.Some? ==> created > 0 && Seen().runtime.Failed? && Seen().connection.Disconnected?)
    }

    /** What a happening does then, if the listener that hears it was attached: the store refuses whatever a
        connection says but its telemetry, a stop request comes too late, and what would have settled the
        attempt disconnects its connection. */
    method LeftoverReact(h: Happening)
      requires Over()
      modifies this`stopReason, this`current, this`outcome, this`trace, store
      ensures Over() && created == old(created)
      ensures Seen() == old(Seen())
      ensures var settles := old(current).Some? && SettlesLate(old(current).value, h);
              && current == (if old(current).None? || settles then None else Some(Heard(old(current).value, h)))
              && trace == old(trace) + (if settles then [Shut(created - 1)] else [])
              && stopReason == if settles && Settles(old(current).value, h).value.ByStop?
                               then Some(S.OtherPlayerDetected) else old(stopReason)
      ensures old(current).Some? && h.StateReceived? ==>
                store.snapshot.minecraft == Told(old(store.snapshot.minecraft), h)
    {
      if h.OtherDispatch? {
        var other := DispatchState(h.command);
      } else if current.Some? && !h.StopAsked? {
        var l := current.value;
        if h.Joined? { var joined := DispatchState(S.ConnectionTransition(S.Connected)); }
        if h.SpawnFinished? {
          var updated := DispatchState(S.SpawnUpdate(true));
          var ready := DispatchState(S.RuntimeTransition(S.Ready));
        }
        if h.StateReceived? { ReceiveState(h); }
        var verdict := Settles(l, h);
        if verdict.None? {
          current := Some(Heard(l, h));
        } else {
          if verdict.value.ByStop? {
            stopReason := Some(S.OtherPlayerDetected);
            var detected := DispatchState(S.PlayerDetected);
          }
          current := None;
          trace := trace + [Shut(created - 1)];
          outcome := Some(if verdict.value.ByStop? || h.ConnectionClosed? then EndedByStop else verdict.value.outcome);
        }
      }
    }

    /** Of all that happens then, the first that settles disconnects the connection, and nothing else does. */
    method LeftoverReactAll(hs: seq<Happening>)
      requires Over()
      modifies this`stopReason, this`current, this`outcome, this`trace, store
      ensures Over() && created == old(created) && Seen() == old(Seen())
      ensures var settled := old(current).Some? && SettledLate(old(current).value, hs);
              && current == (if old(current).None? || settled then None else Some(Learnt(old(current).value, hs)))
              && trace == old(trace) + (if settled then [Shut(created - 1)] else [])
    {
      for i := 0 to |hs|
        invariant Over() && created == old(created) && Seen() == old(Seen())
        invariant current == if old(current).None? || SettledLate(old(current).value, hs[..i])
                             then None else Some(Learnt(old(current).value, hs[..i]))
        invariant trace == old(trace) + if old(current).Some? && SettledLate(old(current).value, hs[..i])
                                        then [Shut(created - 1)] else []
      {
        assert hs[..i + 1][..i] == hs[..i];
        LeftoverReact(hs[i]);
      }
      assert hs[..|hs|] == hs;
    }

    /** A run and whatever happens after it: every connection is shut once, but for that of a last attempt
        whose listeners could not be attached, which is shut again exactly if something settles them late. */
    method RunAndAfter(turns: seq<Turn>, late: seq<Happening>) returns (r: RuntimeResult)
      requires Untouched() && |turns| > maxRetries && stopReason.None?
      modifies this, store
      ensures Over()
      ensures var last := LastTurn(turns, 0, maxRetries);
              EndIn(turns[last], last, maxRetries) == Some(r.reason)
      ensures var last := turns[LastTurn(turns, 0, maxRetries)].attempt;
              var again := LeavesBehind(last) && SettledLate(Learnt(UNHEARD, last.until), late);
              forall id: nat :: id < created ==>
                Count(trace, Shut(id)) == if again && id + 1 == created then 2 else 1
    {
      r := Run(turns);
      ghost var ran := trace;
      LeftoverReactAll(late);
      forall id: nat | id < created
        ensures Count(ran + [Shut(created - 1)], Shut(id)) == if id + 1 == created then 2 else 1
      {
        CountAppend(ran, Shut(created - 1), Shut(id));
      }
      assert ran + [] == ran;
    }
  }

  /** The connection of an attempt whose listeners could not be attached, shut once by the run and once more
      by the connect timer that was left behind. */
  method LeftoverShutsTwice(store: S.StateStore, clock: nat -> int) returns (supervisor: RuntimeSupervisor)
    requires ViewOf(store.snapshot) == View(S.Starting, S.Disconnected, false, false, None)
    modifies store
    ensures supervisor.created == 1 && supervisor.stopReason == Some(S.InternalError)
    ensures Count(supervisor.trace, Opened(0)) == 1 && Count(supervisor.trace, Shut(0)) == 2
  {
    supervisor := new RuntimeSupervisor(store, 0, 0, 0, clock);
    var turns := [Turn(BindingThrows([]), [], false)];
    var r := supervisor.Run(turns);
    ghost var before := supervisor.trace;
    supervisor.LeftoverReact(ConnectTimerFired);
    CountAppend(before, Shut(0), Opened(0));
    CountAppend(before, Shut(0), Shut(0));
  }

  /** A stop asked for while the run handles a fatal connection error: reported is the error. */
  lemma OverriddenStop()
    ensures var turn := Turn(Connects([ConnectionFailed(false), StopAsked(S.SignalSigint)]), [], false);
            && EndIn(turn, 0, 0) == Some(S.ConnectionError)
            && OverriddenIn(turn, 0, 0) == Some(S.SignalSigint)
  {
    var hs := [ConnectionFailed(false), StopAsked(S.SignalSigint)];
    assert hs[..0] == [];
    FirstSettlingIs(UNHEARD, hs, 0);
    assert hs[1..] == [StopAsked(S.SignalSigint)];
    assert hs[1..][..0] == [];
    VerdictDecides(Turn(Connects(hs), [], false), 0, 0);
  }
}
