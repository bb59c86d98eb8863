/** src/application/scheduling/scheduled-runtime-controller.ts: turns the scheduler's intents into sessions,
    one after the other. A script tells what happens at each await. */
module ScheduledController {
  import opened Basics
  import S = StateStore
  import opened WeekdayScheduler

  // ---------------------------------------------------------------- the order of sessions

  datatype Mark =
    | Asked(window: WindowId)
    | Created(id: nat)
    | StopSent(id: nat, reason: S.StopReason)
    | CloseStarted(id: nat)
    | CloseDone(id: nat)
    | Abandoned(id: nat)

  datatype Live = Live(id: nat, closing: bool)

  datatype Ledger = Ledger(created: nat, live: Option<Live>, asked: seq<WindowId>)

  /** A session is asked for only while none is live, and never twice for a window; it is closed once. */
  function Entered(l: Ledger, m: Mark): Option<Ledger> {
    match m
    case Asked(w) => if l.live.None? && w !in l.asked then Some(l.(asked := l.asked + [w])) else None
    case Created(id) =>
      if l.live.None? && id == l.created && l.created < |l.asked|
      then Some(l.(created := id + 1, live := Some(Live(id, false)))) else None
    case StopSent(id, _) => if l.live.Some? && l.live.value.id == id then Some(l) else None
    case CloseStarted(id) =>
      if l.live == Some(Live(id, false)) then Some(l.(live := Some(Live(id, true)))) else None
    case CloseDone(id) => if l.live == Some(Live(id, true)) then Some(l.(live := None)) else None
    case Abandoned(id) => if l.live == Some(Live(id, false)) then Some(l.(live := None)) else None
  }

  function Balance(trace: seq<Mark>): Option<Ledger> {
    if trace == [] then Some(Ledger(0, None, []))
    else
      match Balance(trace[..|trace| - 1])
      case None => None
      case Some(l) => Entered(l, trace[|trace| - 1])
  }

  /** Every created session is closed once, or abandoned, or it is the one that is live. */
  lemma {:induction false} BalancedMeaning(trace: seq<Mark>, id: nat)
    requires Balance(trace).Some?
    ensures var l := Balance(trace).value;
            && Count(trace, Created(id)) == (if id < l.created then 1 else 0)
            && Count(trace, CloseDone(id)) + Count(trace, Abandoned(id)) ==
               (if id < l.created && !(l.live.Some? && l.live.value.id == id) then 1 else 0)
            && Count(trace, CloseStarted(id)) + Count(trace, Abandoned(id)) ==
               (if id < l.created && l.live != Some(Live(id, false)) then 1 else 0)
            && (l.live.Some? ==> l.live.value.id + 1 == l.created)
  {
    if trace != [] { BalancedMeaning(trace[..|trace| - 1], id); }
  }

  lemma {:induction false} AskedOncePerWindow(trace: seq<Mark>, w: WindowId)
    requires Balance(trace).Some?
    ensures Count(trace, Asked(w)) == if w in Balance(trace).value.asked then 1 else 0
  {
    if trace != [] { AskedOncePerWindow(trace[..|trace| - 1], w); }
  }

  /** When a session is created, every earlier one has been closed before, or was abandoned. */
  lemma NextOnlyAfterClose(trace: seq<Mark>, at: nat, id: nat)
    requires at < |trace| && trace[at].Created? && id < trace[at].id && Balance(trace).Some?
    ensures CloseDone(id) in trace[..at] || Abandoned(id) in trace[..at]
  {
    PrefixBalances(trace, at + 1);
    assert trace[..at + 1][..at] == trace[..at];
    BalancedMeaning(trace[..at], id);
    CountedIsIn(trace[..at], CloseDone(id));
    CountedIsIn(trace[..at], Abandoned(id));
  }

  lemma {:induction false} PrefixBalances(trace: seq<Mark>, n: nat)
    requires n <= |trace| && Balance(trace).Some?
    ensures Balance(trace[..n]).Some?
  {
    if n < |trace| {
      PrefixBalances(trace[..|trace| - 1], n);
      assert trace[..|trace| - 1][..n] == trace[..n];
    } else {
      assert trace[..n] == trace;
    }
  }

  /** Once none is live, a session has been closed exactly once if and only if its start did not throw. */
  lemma ClosedExactlyIfStarted(trace: seq<Mark>, id: nat)
    requires Balance(trace).Some? && Balance(trace).value.live.None? && id < Balance(trace).value.created
    ensures Count(trace, CloseDone(id)) == 1 <==> Abandoned(id) !in trace
    ensures Count(trace, CloseDone(id)) <= 1
  {
    BalancedMeaning(trace, id);
    CountedIsIn(trace, Abandoned(id));
  }

  lemma AllClosedExactly(trace: seq<Mark>)
    requires Balance(trace).Some? && Balance(trace).value.live.None?
    ensures forall id: nat :: id < Balance(trace).value.created ==>
              (Count(trace, CloseDone(id)) == 1 <==> Abandoned(id) !in trace)
  {
    forall id: nat | id < Balance(trace).value.created
      ensures Count(trace, CloseDone(id)) == 1 <==> Abandoned(id) !in trace
    {
      ClosedExactlyIfStarted(trace, id);
    }
  }

  // ---------------------------------------------------------------- scripts

  type ExternalStop = r: S.StopReason | r.SignalSigint? || r.SignalSigterm? || r.StopRequested?
    witness S.StopRequested

  /** What may happen while the controller waits. A session that finishes is closed in the background. */
  datatype Happening = StopAsked(reason: ExternalStop) | CloseAsked | SessionFinished | SessionClosed

  datatype Stopping = Stopping(untilFinished: seq<Happening>, untilClosed: seq<Happening>)

  datatype Starting =
    | CreationFails(meanwhile: seq<Happening>)
    | CreationSucceeds(meanwhile: seq<Happening>, startThrows: bool)

  datatype Handling = Handling(recordThrows: bool, stopping: Stopping, starting: Starting)

  datatype Evaluating = Evaluating(now: Option<int>, first: Handling, second: Handling)

  datatype Poll = Poll(evaluating: Evaluating, waiting: seq<Happening>, waitThrows: bool)

  /** A request that closes the controller. */
  predicate Closes(hs: seq<Happening>) {
    exists i :: 0 <= i < |hs| && (hs[i].StopAsked? || hs[i].CloseAsked?)
  }

  lemma ClosesOneMore(hs: seq<Happening>, h: Happening)
    ensures Closes(hs + [h]) <==> Closes(hs) || h.StopAsked? || h.CloseAsked?
  {
    forall i | 0 <= i < |hs| ensures (hs + [h])[i] == hs[i] {}
    assert (hs + [h])[|hs|] == h;
  }

  /** A poll after which the controller goes on has read the clock, and its wait was left alone. */
  predicate GoesOnAfter(p: Poll) { p.evaluating.now.Some? && !Closes(p.waiting) && !p.waitThrows }

  /** The clock or the wait fails, or a stop cannot be recorded. */
  predicate MayThrow(p: Poll) { p.evaluating.now.None? || p.waitThrows || p.evaluating.first.recordThrows }

  /** Something in a poll throws, or closes the controller. */
  predicate MayEnd(p: Poll) {
    || MayThrow(p) || Closes(p.waiting) || StopEndsIt(p.evaluating.first)
    || Closes(p.evaluating.first.starting.meanwhile) || Closes(p.evaluating.second.starting.meanwhile)
  }

  /** The controller goes on after each of the first n. */
  predicate GoesOnAfterAll(polls: seq<Poll>, n: nat)
    requires n <= |polls|
  {
    n == 0 || (GoesOnAfterAll(polls, n - 1) && GoesOnAfter(polls[n - 1]))
  }

  /** What has gone on, closed or thrown with a poll is there in its script. */
  predicate Ended(p: Poll, threw: bool, closed: bool) {
    && (threw ==> MayThrow(p)) && (p.evaluating.now.None? ==> threw)
    && if threw || closed then MayEnd(p) else GoesOnAfter(p)
  }

  /** What a reading of the clock leaves of the scheduler. */
  function AfterClock(s: SchedulerState, now: Option<int>): SchedulerState {
    if now.Some? then AfterReading(s, now.value) else s
  }

  /** What the first n polls leave of the scheduler. */
  function AfterPolls(s: SchedulerState, polls: seq<Poll>, n: nat): SchedulerState
    requires n <= |polls|
  {
    if n == 0 then s else AfterClock(AfterPolls(s, polls, n - 1), polls[n - 1].evaluating.now)
  }

  /** Stopping a live session ends the handling of a reading. */
  predicate StopEndsIt(h: Handling) {
    h.recordThrows || Closes(h.stopping.untilFinished) || Closes(h.stopping.untilClosed)
  }

  /** For which window a reading asks for a session. A start is passed over exactly if it comes with the stop
      of a live session and that stop ends the handling. */
  function AskedFor(intents: seq<Intent>, live: bool, script: Evaluating): seq<WindowId> {
    if intents == [] then []
    else if intents[0].StartRequested? then [intents[0].window.id]
    else if |intents| == 1 || (live && StopEndsIt(script.first)) then []
    else [intents[1].window.id]
  }

  /** The windows of the starts among intents, in their order. */
  function StartedWindows(intents: seq<Intent>): seq<WindowId> {
    if intents == [] then []
    else
      var last := intents[|intents| - 1];
      StartedWindows(intents[..|intents| - 1]) + if last.StartRequested? then [last.window.id] else []
  }

  lemma OneMoreStarted(intents: seq<Intent>, i: Intent)
    ensures StartedWindows(intents + [i]) == StartedWindows(intents) + if i.StartRequested? then [i.window.id] else []
  {
    assert (intents + [i])[..|intents|] == intents;
  }

  /** A reading asks for the window it starts, if any, unless the stop that comes with it ends the handling. */
  lemma AskedOrDropped(past: seq<Intent>, s: SchedulerState, t: int, live: bool, script: Evaluating)
    ensures var intents := Intents(s, t);
            var asked, starts := AskedFor(intents, live, script), StartedWindows(past + intents);
            if live && |intents| == 2 && StopEndsIt(script.first)
            then asked == [] && starts != [] && starts[..|starts| - 1] == StartedWindows(past)
            else starts == StartedWindows(past) + asked
  {
    var intents := Intents(s, t);
    if intents == [] {
      assert past + intents == past;
    } else {
      OneMoreStarted(past, intents[0]);
      if |intents| == 1 {
        assert intents == [intents[0]];
      } else {
        assert past + intents == (past + [intents[0]]) + [intents[1]] && intents[0].StopRequested?;
        OneMoreStarted(past + [intents[0]], intents[1]);
      }
    }
  }

  /** How the start of a reading goes; a stop, if there is one, comes first. */
  function StartingOf(intents: seq<Intent>, script: Evaluating): Starting {
    if |intents| < 2 then script.first.starting else script.second.starting
  }

  datatype ActiveSession = ActiveSession(id: nat, window: OperatingWindow, finalizing: bool)

  /** What becomes of a created session. */
  function Opened(id: nat, closed: bool, startThrows: bool): seq<Mark> {
    if closed then [Created(id), CloseStarted(id), CloseDone(id)]
    else if startThrows then [Created(id), Abandoned(id)]
    else [Created(id)]
  }

  predicate StartsWindow(i: Intent, w: WindowId) { i.StartRequested? && i.window.id == w }

  ghost predicate Started(intents: seq<Intent>, w: WindowId) {
    exists k :: 0 <= k < |intents| && StartsWindow(intents[k], w)
  }

  /** Sessions were asked for only in answer to start intents. */
  ghost predicate InAnswerTo(asked: seq<WindowId>, intents: seq<Intent>) {
    forall w :: w in asked ==> Started(intents, w)
  }

  lemma MoreAnswers(asked: seq<WindowId>, intents: seq<Intent>, more: seq<Intent>)
    requires InAnswerTo(asked, intents)
    ensures InAnswerTo(asked, intents + more)
  {
    forall w | w in asked ensures Started(intents + more, w) {
      var k :| 0 <= k < |intents| && StartsWindow(intents[k], w);
      assert (intents + more)[k] == intents[k];
    }
  }

  lemma NewWindow(asked: seq<WindowId>, intents: seq<Intent>, i: Intent)
    requires i.StartRequested? && StartsOnce(intents + [i]) && InAnswerTo(asked, intents)
    ensures i.window.id !in asked
    ensures InAnswerTo(asked + [i.window.id], intents + [i])
  {
    forall w | w in asked ensures w != i.window.id {
      var k :| 0 <= k < |intents| && StartsWindow(intents[k], w);
      assert (intents + [i])[k] == intents[k] && (intents + [i])[|intents|] == i;
    }
    MoreAnswers(asked, intents, [i]);
    assert StartsWindow((intents + [i])[|intents|], i.window.id);
  }

  lemma StartsOnceInPrefix(intents: seq<Intent>, n: nat)
    requires n <= |intents| && StartsOnce(intents)
    ensures StartsOnce(intents[..n])
  {
  }

  /** What a happening leaves of the live session: finished, it is closed in the background. */
  function Towards(active: Option<ActiveSession>, h: Happening): Option<ActiveSession> {
    match h
    case SessionFinished => if active.Some? then Some(active.value.(finalizing := true)) else None
    case SessionClosed => if active.Some? && active.value.finalizing then None else active
    case _ => active
  }

  /** A session that goes on: the same one, and still closing if it was. */
  predicate GoesOn(before: Option<ActiveSession>, now: Option<ActiveSession>) {
    now.Some? ==>
      && before.Some? && now.value.id == before.value.id && now.value.window == before.value.window
      && (before.value.finalizing ==> now.value.finalizing)
  }

  function IdOf(active: Option<ActiveSession>): Option<WindowId> {
    if active.Some? then Some(active.value.window.id) else None
  }

  /** What is to be said of the live session's window when the intents from the i-th on are still to be
      handled: it is about to be stopped, or it is the one the scheduler has started last. */
  predicate Serves(live: Option<WindowId>, intents: seq<Intent>, i: nat, window: Option<OperatingWindow>) {
    live.Some? ==>
      if i < |intents| then intents[i].StopRequested? && intents[i].window.id == live.value
      else window.Some? && window.value.id == live.value
  }

  /** Handling an intent leaves nothing of a stopped window, and starts nothing but a started one. */
  predicate Handled(before: Option<WindowId>, intent: Intent, now: Option<WindowId>) {
    now.Some? ==>
      if intent.StopRequested? then now == before && intent.window.id != now.value
      else now == before || (before.None? && now.value == intent.window.id)
  }

  lemma ServesFromStart(live: Option<WindowId>, s: SchedulerState, t: int)
    requires Serves(live, [], 0, s.active)
    ensures Serves(live, Intents(s, t), 0, AfterReading(s, t).active)
    ensures |Intents(s, t)| <= 2
  {
  }

  lemma ServesNext(before: Option<WindowId>, now: Option<WindowId>, s: SchedulerState, t: int, i: nat)
    requires i < |Intents(s, t)| && Handled(before, Intents(s, t)[i], now)
    requires Serves(before, Intents(s, t), i, AfterReading(s, t).active)
    ensures Serves(now, Intents(s, t), i + 1, AfterReading(s, t).active)
  {
  }

  class ScheduledRuntimeController {
    const scheduler: Scheduler
    var active: Option<ActiveSession>
    var created: nat
    var stopReason: Option<S.StopReason>
    var running: bool
    var closed: bool
    ghost var trace: seq<Mark>

    constructor (scheduler: Scheduler)
      requires scheduler.Valid() && scheduler.history == []
      ensures Valid() && Serving() && active.None? && !running && !closed && trace == [] && this.scheduler == scheduler
    {
      this.scheduler := scheduler;
      active, created, stopReason, running, closed := None, 0, None, false, false;
      trace := [];
    }

    ghost predicate Balanced()
      reads this
    {
      && Balance(trace).Some?
      && Balance(trace).value.created == created
      && Balance(trace).value.live ==
         (if active.None? then None else Some(Live(active.value.id, active.value.finalizing)))
      && created <= |Balance(trace).value.asked|
      && (closed <==> stopReason.Some?)
    }

    ghost predicate Valid()
      reads this, scheduler
    {
      && Balanced()
      && scheduler.Valid()
      && InAnswerTo(Balance(trace).value.asked, scheduler.history)
    }

    /** As long as nothing went wrong every window that was to be started was asked for, in that order, and
        the live session is that of the window the scheduler started last. */
    ghost predicate Serving()
      requires Balanced()
      reads this, scheduler
    {
      !closed ==> Serves(IdOf(active), [], 0, scheduler.active) && AskedForAll()
    }

    ghost predicate AskedForAll()
      requires Balanced()
      reads this, scheduler
    {
      Balance(trace).value.asked == StartedWindows(scheduler.history)
    }

    /** The last start was passed over. */
    ghost predicate AskedForAllButTheLast()
      requires Balanced()
      reads this, scheduler
    {
      var starts := StartedWindows(scheduler.history);
      starts != [] && Balance(trace).value.asked == starts[..|starts| - 1]
    }

    ghost method Note(m: Mark)
      requires Balance(trace).Some? && Entered(Balance(trace).value, m).Some?
      modifies this`trace
      ensures trace == old(trace) + [m]
      ensures Balance(trace) == Entered(Balance(old(trace)).value, m)
    {
      trace := trace + [m];
      assert trace[..|trace| - 1] == old(trace);
    }

    method RequestStop(reason: ExternalStop)
      requires Balanced()
      modifies this`closed, this`stopReason, this`trace
      ensures Balanced() && closed && Balance(trace).value.asked == old(Balance(trace).value.asked)
      ensures stopReason == if old(closed) then old(stopReason) else Some(reason)
      ensures trace == if old(closed) || active.None? then old(trace)
                       else old(trace) + [StopSent(active.value.id, reason)]
    {
      if closed { return; }
      closed := true;
      stopReason := Some(reason);
      if active.Some? { Note(StopSent(active.value.id, reason)); }
    }

    /** Start closing a session unless that was done already. */
    method BeginFinalizing()
      requires Balanced() && active.Some?
      modifies this`active, this`trace
      ensures Balanced() && active == Some(old(active).value.(finalizing := true))
      ensures Balance(trace).value.asked == old(Balance(trace).value.asked)
      ensures trace == if old(active).value.finalizing then old(trace)
                       else old(trace) + [CloseStarted(old(active).value.id)]
    {
      if !active.value.finalizing {
        active := Some(active.value.(finalizing := true));
        Note(CloseStarted(active.value.id));
      }
    }

    method EndFinalizing()
      requires Balanced() && active.Some? && active.value.finalizing
      modifies this`active, this`trace
      ensures Balanced() && active.None? && trace == old(trace) + [CloseDone(old(active).value.id)]
      ensures Balance(trace).value.asked == old(Balance(trace).value.asked)
    {
      Note(CloseDone(active.value.id));
      active := None;
    }

    /** Whatever happens meanwhile, the live session can only go on towards its end. */
    method React(h: Happening)
      requires Balanced()
      modifies this`closed, this`stopReason, this`active, this`trace
      ensures Balanced() && (old(closed) ==> closed)
      ensures Balance(trace).value.asked == old(Balance(trace).value.asked)
      ensures GoesOn(old(active), active) && old(trace) <= trace
      ensures active == Towards(old(active), h)
      ensures closed <==> old(closed) || h.StopAsked? || h.CloseAsked?
      ensures !old(closed) && closed ==> stopReason == Some(if h.StopAsked? then h.reason else S.StopRequested)
      ensures h.CloseAsked? && !running && active.Some? ==>
                trace[|trace| - 1] == StopSent(active.value.id, stopReason.value)
    {
      match h
      case StopAsked(reason) => RequestStop(reason);
      case CloseAsked =>
        RequestStop(S.StopRequested);
        if !running && active.Some? { Note(StopSent(active.value.id, stopReason.value)); }
      case SessionFinished => if active.Some? { BeginFinalizing(); }
      case SessionClosed => if active.Some? && active.value.finalizing { EndFinalizing(); }
    }

    method ReactAll(hs: seq<Happening>)
      requires Balanced()
      modifies this`closed, this`stopReason, this`active, this`trace
      ensures Balanced()
      ensures Balance(trace).value.asked == old(Balance(trace).value.asked)
      ensures GoesOn(old(active), active) && old(trace) <= trace
      ensures closed <==> old(closed) || Closes(hs)
    {
      for i := 0 to |hs|
        invariant Balanced()
        invariant Balance(trace).value.asked == old(Balance(trace).value.asked)
        invariant GoesOn(old(active), active) && old(trace) <= trace
        invariant closed <==> old(closed) || Closes(hs[..i])
      {
        ClosesOneMore(hs[..i], hs[i]);
        assert hs[..i + 1] == hs[..i] + [hs[i]];
        React(hs[i]);
      }
      assert hs[..|hs|] == hs;
    }

    /** Ends with no session live, whether or not it was closing already. */
    method StopActive(reason: S.StopReason, script: Stopping)
      requires Balanced()
      modifies this`closed, this`stopReason, this`active, this`trace
      ensures Balanced() && active.None?
      ensures closed <==>
                old(closed) || (old(active).Some? && (Closes(script.untilFinished) || Closes(script.untilClosed)))
      ensures Balance(trace).value.asked == old(Balance(trace).value.asked)
      ensures old(active).None? ==> trace == old(trace)
      ensures old(active).Some? ==> old(trace) + [StopSent(old(active).value.id, reason)] <= trace
    {
      if active.None? { return; }
      Note(StopSent(active.value.id, reason));
      ReactAll(script.untilFinished);
      if active.Some? { BeginFinalizing(); }
      ReactAll(script.untilClosed);
      if active.Some? { EndFinalizing(); }
    }

    /** Answers a start intent: at most one session, and none left live unless it is active. */
    method Start(window: OperatingWindow, script: Starting)
      requires Balanced() && active.None? && !closed && window.id !in Balance(trace).value.asked
      modifies this`closed, this`stopReason, this`active, this`created, this`trace
      ensures Balanced() && Balance(trace).value.asked == old(Balance(trace).value.asked) + [window.id]
      ensures closed <==> Closes(script.meanwhile)
      ensures active == if script.CreationSucceeds? && !closed && !script.startThrows
                        then Some(ActiveSession(old(created), window, false)) else None
      ensures created == old(created) + if script.CreationSucceeds? then 1 else 0
      ensures trace == old(trace) + [Asked(window.id)]
                       + if script.CreationFails? then [] else Opened(old(created), closed, script.startThrows)
    {
      Note(Asked(window.id));
      StopsOnly(script.meanwhile);
      if script.CreationFails? { return; }
      Open(window, script.startThrows);
    }

    /** A session is there: closed at once if the controller was closed meanwhile, else started. */
    method Open(window: OperatingWindow, startThrows: bool)
      requires Balanced() && active.None? && created < |Balance(trace).value.asked|
      modifies this`active, this`created, this`trace
      ensures Balanced() && Balance(trace).value.asked == old(Balance(trace).value.asked)
      ensures active == if closed || startThrows then None else Some(ActiveSession(old(created), window, false))
      ensures created == old(created) + 1
      ensures trace == old(trace) + Opened(old(created), closed, startThrows)
    {
      var id := created;
      Note(Created(id));
      created := created + 1;
      if closed {
        Note(CloseStarted(id));
        Note(CloseDone(id));
      } else if startThrows {
        Note(Abandoned(id));
      } else {
        active := Some(ActiveSession(id, window, false));
      }
    }

    /** Without a session, only stop requests can make a difference. */
    method StopsOnly(hs: seq<Happening>)
      requires Balanced() && active.None?
      modifies this`closed, this`stopReason, this`active, this`trace
      ensures Balanced() && active.None? && trace == old(trace)
      ensures closed <==> old(closed) || Closes(hs)
    {
      for i := 0 to |hs|
        invariant Balanced() && active.None? && trace == old(trace)
        invariant closed <==> old(closed) || Closes(hs[..i])
      {
        ClosesOneMore(hs[..i], hs[i]);
        assert hs[..i + 1] == hs[..i] + [hs[i]];
        if hs[i].StopAsked? { RequestStop(hs[i].reason); }
        if hs[i].CloseAsked? { RequestStop(S.StopRequested); }
      }
      assert hs[..|hs|] == hs;
    }

    /** Where an answered start leaves the controller. */
    ghost predicate Begun(before: nat, window: OperatingWindow, starting: Starting)
      reads this
    {
      && (closed <==> Closes(starting.meanwhile))
      && created == before + (if starting.CreationSucceeds? then 1 else 0)
      && active == (if starting.CreationSucceeds? && !closed && !starting.startThrows
                    then Some(ActiveSession(before, window, false)) else None)
      && (starting.CreationSucceeds? && !closed ==>
            && trace != []
            && trace[|trace| - 1] == if starting.startThrows then Abandoned(before) else Created(before))
    }

    method Handle(intent: Intent, script: Handling) returns (threw: bool)
      requires Balanced() && !closed
      requires intent.StartRequested? && active.None? ==> intent.window.id !in Balance(trace).value.asked
      modifies this`closed, this`stopReason, this`active, this`created, this`trace
      ensures Balanced()
      ensures Balance(trace).value.asked ==
              old(Balance(trace).value.asked) +
              if intent.StartRequested? && old(active).None? then [intent.window.id] else []
      ensures threw <==> && intent.StopRequested? && script.recordThrows
                         && old(active).Some? && old(active).value.window.id == intent.window.id
      ensures !threw ==> Handled(old(IdOf(active)), intent, IdOf(active))
      ensures intent.StopRequested? && (old(active).None? || old(active).value.window.id == intent.window.id) ==>
                && (closed <==> old(active).Some? && StopEndsIt(script) && !script.recordThrows)
                && (!threw ==> active.None?) && created == old(created)
      ensures threw ==> active == old(active) && !closed
      ensures intent.StartRequested? && old(active).None? ==>
                Begun(old(created), intent.window, script.starting)
    {
      if intent.StopRequested? {
        if active.Some? && active.value.window.id == intent.window.id {
          if script.recordThrows { return true; }
          StopActive(S.ScheduleWindowEnded, script.stopping);
        }
      } else if active.None? {
        Start(intent.window, script.starting);
      }
      return false;
    }

    /** Handling keeps to the windows the scheduler has handed out, each once. */
    method HandleNext(intent: Intent, script: Handling, ghost past: seq<Intent>) returns (threw: bool)
      requires Balanced() && !closed && StartsOnce(past + [intent])
      requires InAnswerTo(Balance(trace).value.asked, past)
      modifies this`closed, this`stopReason, this`active, this`created, this`trace
      ensures Balanced() && InAnswerTo(Balance(trace).value.asked, past + [intent])
      ensures !threw ==> Handled(old(IdOf(active)), intent, IdOf(active))
      ensures Balance(trace).value.asked ==
              old(Balance(trace).value.asked) +
              if intent.StartRequested? && old(active).None? then [intent.window.id] else []
      ensures intent.StopRequested? && (old(active).None? || old(active).value.window.id == intent.window.id) ==>
                && (closed <==> old(active).Some? && StopEndsIt(script) && !script.recordThrows)
                && (threw <==> old(active).Some? && script.recordThrows)
                && (!threw ==> active.None?) && created == old(created)
      ensures threw ==> active == old(active) && !closed
      ensures intent.StartRequested? && old(active).None? ==>
                !threw && Begun(old(created), intent.window, script.starting)
    {
      MoreAnswers(Balance(trace).value.asked, past, [intent]);
      if intent.StartRequested? { NewWindow(Balance(trace).value.asked, past, intent); }
      threw := Handle(intent, script);
    }

    /** What a reading has asked for, how its start went, and whether its stop ended the handling. */
    ghost predicate Answered(before: seq<WindowId>, live: Option<ActiveSession>, createdBefore: nat,
                             intents: seq<Intent>, script: Evaluating, threw: bool)
      requires Balanced()
      reads this
    {
      var now := AskedFor(intents, live.Some?, script);
      var stops := intents != [] && intents[0].StopRequested? && live.Some?;
      && Balance(trace).value.asked == before + now
      && (threw <==> stops && script.first.recordThrows)
      && (now != [] ==> Begun(createdBefore, intents[|intents| - 1].window, StartingOf(intents, script)))
      && (now == [] ==>
            && (closed <==> stops && StopEndsIt(script.first) && !script.first.recordThrows)
            && created == createdBefore && active == if intents == [] || threw then live else None)
    }

    /** The intents of one reading, in their order. */
    method HandleAll(intents: seq<Intent>, script: Evaluating, ghost past: seq<Intent>, ghost before: SchedulerState,
                     ghost t: int)
      returns (threw: bool)
      requires Balanced() && !closed && InAnswerTo(Balance(trace).value.asked, past) && StartsOnce(past + intents)
      requires intents == Intents(before, t)
      modifies this`closed, this`stopReason, this`active, this`created, this`trace
      ensures Balanced() && InAnswerTo(Balance(trace).value.asked, past + intents)
      ensures var window := AfterReading(before, t).active;
              old(Serves(IdOf(active), intents, 0, window)) ==>
                && (!threw && !closed ==> Serves(IdOf(active), [], 0, window))
                && Answered(old(Balance(trace).value.asked), old(active), old(created), intents, script, threw)
    {
      ghost var window := AfterReading(before, t).active;
      assert past + intents[..0] == past;
      threw := false;
      var i := 0;
      while i < |intents| && !closed && !threw
        invariant 0 <= i <= |intents| && Balanced()
        invariant InAnswerTo(Balance(trace).value.asked, past + intents[..i])
        invariant !threw && old(Serves(IdOf(active), intents, 0, window)) && !closed ==>
                    Serves(IdOf(active), intents, i, window)
        invariant i == 0 ==> !threw && !closed && active == old(active) && created == old(created)
        invariant i == 0 ==> Balance(trace).value.asked == old(Balance(trace).value.asked)
        invariant old(Serves(IdOf(active), intents, 0, window)) ==>
                    if i > 0 && (threw || closed || i == |intents|)
                    then Answered(old(Balance(trace).value.asked), old(active), old(created), intents, script, threw)
                    else i == 1 ==>
                      && active.None? && created == old(created) && intents[0].StopRequested? && !threw && !closed
                      && !(old(active).Some? && StopEndsIt(script.first))
                      && Balance(trace).value.asked == old(Balance(trace).value.asked)
      {
        ghost var live := IdOf(active);
        ghost var done := past + intents[..i];
        assert done + [intents[i]] == (past + intents)[..|past| + i + 1] == past + intents[..i + 1];
        StartsOnceInPrefix(past + intents, |past| + i + 1);
        threw := HandleNext(intents[i], if i == 0 then script.first else script.second, done);
        if !threw && Serves(live, intents, i, window) { ServesNext(live, IdOf(active), before, t, i); }
        i := i + 1;
      }
      MoreAnswers(Balance(trace).value.asked, past + intents[..i], intents[i..]);
      assert (past + intents[..i]) + intents[i..] == past + intents;
    }

    /** One reading of the clock, and what follows from it. */
    method EvaluateOnce(script: Evaluating) returns (threw: bool)
      requires Valid()
      modifies this`closed, this`stopReason, this`active, this`created, this`trace, scheduler
      ensures Valid()
      ensures old(Serving()) && !threw ==> Serving()
      ensures old(Serving()) && !old(closed) ==> AskedForAll() || ((threw || closed) && AskedForAllButTheLast())
      ensures old(closed) ==> !threw && trace == old(trace) && active == old(active) && closed
      ensures old(closed) ==> scheduler.history == old(scheduler.history)
      ensures !old(closed) && script.now.None? ==>
                && threw && trace == old(trace) && active == old(active) && created == old(created) && !closed
                && scheduler.history == old(scheduler.history)
      ensures var taken := !old(closed) && script.now.Some?;
              && scheduler.State() == (if taken then AfterReading(old(scheduler.State()), script.now.value)
                                       else old(scheduler.State()))
              && (taken && old(Serving()) ==>
                    Answered(old(Balance(trace).value.asked), old(active), old(created),
                             Intents(old(scheduler.State()), script.now.value), script, threw))
    {
      if closed { return false; }
      ghost var past, before := scheduler.history, scheduler.State();
      var r := scheduler.Evaluate(script.now);
      if r.Err? { return true; }
      if Serves(IdOf(active), [], 0, before.active) { ServesFromStart(IdOf(active), before, script.now.value); }
      AskedOrDropped(past, before, script.now.value, active.Some?, script);
      threw := HandleAll(r.value.intents, script, past, before, script.now.value);
    }

    /** One poll: a reading of the clock, and a wait unless it ended with that. */
    method PollOnce(poll: Poll) returns (threw: bool)
      requires Valid() && Serving() && !closed && running
      modifies this`closed, this`stopReason, this`active, this`created, this`trace, scheduler
      ensures Valid() && (!threw ==> Serving())
      ensures AskedForAll() || ((threw || closed) && AskedForAllButTheLast())
      ensures scheduler.State() == AfterClock(old(scheduler.State()), poll.evaluating.now)
      ensures Ended(poll, threw, closed)
    {
      threw := EvaluateOnce(poll.evaluating);
      if !threw && !closed {
        ReactAll(poll.waiting);
        threw := poll.waitThrows;
      }
    }

    /** Takes every poll up to the one that ends it. */
    method PollOn(polls: seq<Poll>) returns (threw: bool, ghost taken: nat)
      requires Valid() && Serving() && !closed && running
      modifies this`closed, this`stopReason, this`active, this`created, this`trace, scheduler
      ensures Valid() && taken <= |polls|
      ensures scheduler.State() == AfterPolls(old(scheduler.State()), polls, taken)
      ensures if taken > 0 then GoesOnAfterAll(polls, taken - 1) && Ended(polls[taken - 1], threw, closed)
              else !threw && !closed
      ensures !closed && !threw ==> taken == |polls|
      ensures AskedForAll() || ((threw || closed) && AskedForAllButTheLast())
    {
      threw, taken := false, 0;
      var i := 0;
      while i < |polls| && !closed && !threw
        invariant 0 <= i == taken <= |polls| && Valid() && (!threw ==> Serving())
        invariant scheduler.State() == AfterPolls(old(scheduler.State()), polls, i)
        invariant if i > 0 then GoesOnAfterAll(polls, i - 1) && Ended(polls[i - 1], threw, closed)
                  else !threw && !closed
        invariant AskedForAll() || ((threw || closed) && AskedForAllButTheLast())
      {
        threw := PollOnce(polls[i]);
        i := i + 1;
        taken := i;
      }
    }

    /** However the polling ends, the live session is stopped. */
    method PollAndStop(polls: seq<Poll>, end: ExternalStop, ending: Stopping) returns (threw: bool, ghost taken: nat)
      requires Valid() && Serving() && !closed && running
      modifies this`closed, this`stopReason, this`active, this`created, this`trace, scheduler
      ensures Valid() && active.None? && (!threw ==> closed) && taken <= |polls|
      ensures scheduler.State() == AfterPolls(old(scheduler.State()), polls, taken)
      ensures taken > 0 ==> GoesOnAfterAll(polls, taken - 1)
      ensures taken < |polls| ==> taken > 0 && MayEnd(polls[taken - 1])
      ensures threw ==> taken > 0 && MayThrow(polls[taken - 1])
      ensures taken > 0 && polls[taken - 1].evaluating.now.None? ==> threw
      ensures AskedForAll() || (taken > 0 && MayEnd(polls[taken - 1]) && AskedForAllButTheLast())
    {
      threw, taken := PollOn(polls);
      if !threw && !closed { RequestStop(end); }
      StopActive(if stopReason.Some? then stopReason.value else S.StopRequested, ending);
    }

    /** Polls until it is closed, or an evaluation or a wait throws; refuses to run twice at a time. It takes
        every poll up to the one that ends it, and asks for every window that is to be started, unless that poll
        drops it. When it returns no session is live, unless it was closed with one before it was run, and every
        session ever created has been closed exactly once unless its own start threw. */
    method Run(polls: seq<Poll>, end: ExternalStop, ending: Stopping) returns (threw: bool, ghost taken: nat)
      requires Valid() && Serving()
      modifies this, scheduler
      ensures Valid() && taken <= |polls|
      ensures old(running) || old(closed) ==> active == old(active) && trace == old(trace) && running == old(running)
      ensures old(running) || old(closed) ==> taken == 0
      ensures old(running) ==> threw
      ensures !old(running) && old(closed) ==> !threw
      ensures !old(running) && !old(closed) ==> !running && active.None? && (!threw ==> closed)
      ensures active.None? ==>
                forall id: nat :: id < created ==> (Count(trace, CloseDone(id)) == 1 <==> Abandoned(id) !in trace)
      ensures scheduler.State() == AfterPolls(old(scheduler.State()), polls, taken)
      ensures taken > 0 ==> GoesOnAfterAll(polls, taken - 1)
      ensures !old(running) && !old(closed) && taken < |polls| ==> taken > 0 && MayEnd(polls[taken - 1])
      ensures !old(running) && threw ==> taken > 0 && MayThrow(polls[taken - 1])
      ensures taken > 0 && polls[taken - 1].evaluating.now.None? ==> threw
      ensures !old(running) && !old(closed) ==>
                AskedForAll() || (taken > 0 && MayEnd(polls[taken - 1]) && AskedForAllButTheLast())
    {
      threw, taken := running, 0;
      if !running && !closed {
        running := true;
        threw, taken := PollAndStop(polls, end, ending);
        running := false;
      }
      if active.None? { AllClosedExactly(trace); }
    }

    method Close(ending: Stopping)
      requires Valid()
      modifies this`closed, this`stopReason, this`active, this`trace
      ensures Valid() && closed
      ensures !running ==> active.None?
      ensures running ==> active == old(active)
    {
      RequestStop(S.StopRequested);
      if !running { StopActive(stopReason.value, ending); }
    }
  }

  /** Readings on a Monday morning and afternoon, both in local time. */
  const MONDAY_10_00 := UtcBoundary(4, 10 * 60)
  const MONDAY_12_30 := UtcBoundary(4, 12 * 60 + 30)

  lemma MondayReadings()
    ensures EvaluateWeekdayWindow(MONDAY_10_00).window == Some(Window(4, Morning))
    ensures EvaluateWeekdayWindow(MONDAY_12_30).window == Some(Window(4, Afternoon))
    ensures MONDAY_10_00 < MONDAY_12_30
  {
    CurrentWindowIsInterval(Window(4, Morning), MONDAY_10_00);
    CurrentWindowIsInterval(Window(4, Afternoon), MONDAY_12_30);
  }

  lemma MondayIntents()
    ensures var never := SchedulerState(None, None);
            var morning := SchedulerState(Some(MONDAY_10_00), Some(Window(4, Morning)));
            && Intents(never, MONDAY_10_00) == [StartRequested(Window(4, Morning), MONDAY_10_00)]
            && AfterReading(never, MONDAY_10_00) == morning
            && Intents(morning, MONDAY_12_30) == [StopRequested(Window(4, Morning), MONDAY_12_30),
                                                  StartRequested(Window(4, Afternoon), MONDAY_12_30)]
            && AfterReading(morning, MONDAY_12_30).active == Some(Window(4, Afternoon))
  {
    MondayReadings();
  }

  lemma ActiveWasStarted(s: SchedulerState, intents: seq<Intent>)
    requires Consistent(s, intents) && s.active.Some?
    ensures Started(intents, s.active.value.id)
  {
    assert AlternatesAt(intents, |intents| - 1);
    assert StartsWindow(intents[|intents| - 1], s.active.value.id);
  }

  /** A session whose start throws after its creation: nothing closes it. */
  method SessionAbandoned() returns (c: ScheduledRuntimeController)
    ensures c.Valid() && c.active.None? && c.created == 1
    ensures Abandoned(0) in c.trace && CloseDone(0) !in c.trace
  {
    MondayIntents();
    var scheduler := new Scheduler();
    c := new ScheduledRuntimeController(scheduler);
    var throwing := Handling(false, Stopping([], []), CreationSucceeds([], true));
    var threw := c.EvaluateOnce(Evaluating(Some(MONDAY_10_00), throwing, throwing));
    BalancedMeaning(c.trace, 0);
    CountedIsIn(c.trace, Abandoned(0));
    CountedIsIn(c.trace, CloseDone(0));
  }

  /** A reading that stops the morning and starts the afternoon: where the stop cannot be recorded, nobody
      asks for the afternoon's session, and the scheduler has handed out its only start. */
  method StartDroppedWithItsStop() returns (c: ScheduledRuntimeController)
    ensures c.Valid()
    ensures c.scheduler.active == Some(Window(4, Afternoon))
    ensures Started(c.scheduler.history, WindowId(4, Afternoon))
    ensures Balance(c.trace).value.asked == [WindowId(4, Morning)]
  {
    MondayIntents();
    var scheduler := new Scheduler();
    c := new ScheduledRuntimeController(scheduler);
    var smooth := Handling(false, Stopping([], []), CreationSucceeds([], false));
    var threw := c.EvaluateOnce(Evaluating(Some(MONDAY_10_00), smooth, smooth));
    threw := c.EvaluateOnce(Evaluating(Some(MONDAY_12_30), smooth.(recordThrows := true), smooth));
    ActiveWasStarted(scheduler.State(), scheduler.history);
  }
}
