/** src/domain/scheduler/weekday-scheduler.ts: operating windows on weekdays in Japan, and the scheduler
    that turns clock readings into start and stop intents. Times are milliseconds since the epoch. */
module WeekdayScheduler {
  import opened Basics

  datatype Slot = Morning | Afternoon

  datatype SchedulePhase = OutsideHours | MorningPhase | Handoff | AfternoonPhase

  /** A local calendar day and a slot; the day number stands for its printed date. */
  datatype WindowId = WindowId(day: int, slot: Slot)

  datatype OperatingWindow = OperatingWindow(id: WindowId, slot: Slot, startsAt: int, endsAt: int)

  datatype Intent =
    | StartRequested(window: OperatingWindow, evaluatedAt: int)
    | StopRequested(window: OperatingWindow, evaluatedAt: int)

  datatype WindowEvaluation = WindowEvaluation(phase: SchedulePhase, window: Option<OperatingWindow>)

  datatype Evaluation = Evaluation(phase: SchedulePhase, evaluatedAt: int, intents: seq<Intent>)

  datatype SchedulerError = InvalidClock

  const MS_PER_MINUTE := 60_000
  const MS_PER_DAY := 86_400_000
  const JST_OFFSET_MS := 9 * 60 * 60 * 1_000
  const MORNING_START_MINUTE := 9 * 60
  const MORNING_END_MINUTE := 11 * 60 + 59
  const AFTERNOON_START_MINUTE := 12 * 60
  const AFTERNOON_END_MINUTE := 17 * 60

  /** Day(t) and WeekDay(t) of section 21.4.1 of ECMA-262, on local time; Sunday is 0. */
  function LocalDay(t: int): int { (t + JST_OFFSET_MS) / MS_PER_DAY }

  function Weekday(day: int): int { (day + 4) % 7 }

  function MinuteOfDay(t: int): int { (t + JST_OFFSET_MS) % MS_PER_DAY / MS_PER_MINUTE }

  function UtcBoundary(day: int, minute: int): int { day * MS_PER_DAY + minute * MS_PER_MINUTE - JST_OFFSET_MS }

  function Window(day: int, slot: Slot): OperatingWindow {
    match slot
    case Morning =>
      OperatingWindow(WindowId(day, slot), slot, UtcBoundary(day, 9 * 60), UtcBoundary(day, 11 * 60 + 59))
    case Afternoon =>
      OperatingWindow(WindowId(day, slot), slot, UtcBoundary(day, 12 * 60), UtcBoundary(day, 17 * 60))
  }

  function EvaluateWeekdayWindow(t: int): WindowEvaluation {
    var day := LocalDay(t);
    var minute := MinuteOfDay(t);
    if Weekday(day) == 0 || Weekday(day) == 6 then WindowEvaluation(OutsideHours, None)
    else if MORNING_START_MINUTE <= minute < MORNING_END_MINUTE then
      WindowEvaluation(MorningPhase, Some(Window(day, Morning)))
    else if MORNING_END_MINUTE <= minute < AFTERNOON_START_MINUTE then WindowEvaluation(Handoff, None)
    else if AFTERNOON_START_MINUTE <= minute < AFTERNOON_END_MINUTE then
      WindowEvaluation(AfternoonPhase, Some(Window(day, Afternoon)))
    else WindowEvaluation(OutsideHours, None)
  }

  // ---------------------------------------------------------------- windows are intervals of time

  predicate IsWindow(w: OperatingWindow) {
    w == Window(w.id.day, w.id.slot) && 1 <= Weekday(w.id.day) <= 5
  }

  predicate Contains(w: OperatingWindow, t: int) { w.startsAt <= t < w.endsAt }

  /** The calendar arithmetic, inverted: a window is current at t exactly if it is a weekday window and t
      lies in its half-open interval. */
  lemma CurrentWindowIsInterval(w: OperatingWindow, t: int)
    ensures EvaluateWeekdayWindow(t).window == Some(w) <==> IsWindow(w) && Contains(w, t)
  {
    var local := t + JST_OFFSET_MS;
    assert local == LocalDay(t) * MS_PER_DAY + local % MS_PER_DAY;
    var rest := local % MS_PER_DAY;
    assert rest == MinuteOfDay(t) * MS_PER_MINUTE + rest % MS_PER_MINUTE;
    if IsWindow(w) && Contains(w, t) {
      var d := w.id.day;
      assert d * MS_PER_DAY <= local < d * MS_PER_DAY + MS_PER_DAY;
      assert LocalDay(t) == d;
    }
  }

  /** Distinct windows never share an instant. */
  lemma WindowsDisjoint(v: OperatingWindow, w: OperatingWindow)
    requires IsWindow(v) && IsWindow(w) && v.id != w.id
    ensures v.endsAt <= w.startsAt || w.endsAt <= v.startsAt
    ensures v.startsAt < v.endsAt
  {
    if v.id.day < w.id.day {
      assert (v.id.day + 1) * MS_PER_DAY <= w.id.day * MS_PER_DAY;
    } else if w.id.day < v.id.day {
      assert (w.id.day + 1) * MS_PER_DAY <= v.id.day * MS_PER_DAY;
    }
  }

  /** Days of the week follow one another, and one date is known: 2024-01-01 was a Monday. In local time its
      windows last from 09:00 to 11:59 and from 12:00 to 17:00, which is nine hours ahead of UTC. */
  lemma KnownDays(day: int)
    ensures Weekday(day + 1) == (if Weekday(day) == 6 then 0 else Weekday(day) + 1) && 0 <= Weekday(day) <= 6
    ensures Weekday(19_723) == 1 && LocalDay(1_704_067_200_000) == 19_723
    ensures Window(19_723, Morning).startsAt == 1_704_067_200_000
    ensures Window(19_723, Morning).endsAt == 1_704_067_200_000 + 179 * 60_000
    ensures Window(19_723, Afternoon).startsAt == 1_704_067_200_000 + 180 * 60_000
    ensures Window(19_723, Afternoon).endsAt == 1_704_067_200_000 + 480 * 60_000
    ensures forall slot :: Window(day + 1, slot).startsAt == Window(day, slot).startsAt + 86_400_000
    ensures forall slot :: Window(day + 1, slot).endsAt == Window(day, slot).endsAt + 86_400_000
  {
  }

  /** The phase of an instant: outside hours at weekends and outside the working day, the slot's own phase
      within its window, and the handoff in the minute between the two. */
  lemma PhaseMeans(t: int)
    ensures var e := EvaluateWeekdayWindow(t);
            && (e.phase.MorningPhase? <==> e.window.Some? && e.window.value.slot.Morning?)
            && (e.phase.AfternoonPhase? <==> e.window.Some? && e.window.value.slot.Afternoon?)
            && (e.phase.Handoff? <==>
                  exists day :: && 1 <= Weekday(day) <= 5
                                && Window(day, Morning).endsAt <= t < Window(day, Afternoon).startsAt)
  {
    var day := LocalDay(t);
    var local := t + JST_OFFSET_MS;
    assert local == day * MS_PER_DAY + local % MS_PER_DAY;
    var rest := local % MS_PER_DAY;
    assert rest == MinuteOfDay(t) * MS_PER_MINUTE + rest % MS_PER_MINUTE;
    forall d | 1 <= Weekday(d) <= 5 && Window(d, Morning).endsAt <= t < Window(d, Afternoon).startsAt
      ensures d == day
    {
      assert d * MS_PER_DAY <= local < d * MS_PER_DAY + MS_PER_DAY;
    }
    if EvaluateWeekdayWindow(t).phase.Handoff? {
      assert 1 <= Weekday(day) <= 5 && Window(day, Morning).endsAt <= t < Window(day, Afternoon).startsAt;
    }
  }

  // ---------------------------------------------------------------- the scheduler

  datatype SchedulerState = SchedulerState(lastEvaluated: Option<int>, active: Option<OperatingWindow>)

  predicate Accepts(s: SchedulerState, t: int) { s.lastEvaluated.Some? ==> t > s.lastEvaluated.value }

  predicate Current(active: Option<OperatingWindow>, window: Option<OperatingWindow>) {
    active.Some? && window.Some? && active.value.id == window.value.id
  }

  function Intents(s: SchedulerState, t: int): seq<Intent> {
    var now := EvaluateWeekdayWindow(t).window;
    if !Accepts(s, t) then []
    else
      (if s.active.Some? && !Current(s.active, now) then [StopRequested(s.active.value, t)] else [])
      + (if now.Some? && !Current(s.active, now) then [StartRequested(now.value, t)] else [])
  }

  function AfterReading(s: SchedulerState, t: int): SchedulerState {
    var now := EvaluateWeekdayWindow(t).window;
    if !Accepts(s, t) then s
    else SchedulerState(Some(t), if Current(s.active, now) then s.active else now)
  }

  class Scheduler {
    var lastEvaluated: Option<int>
    var active: Option<OperatingWindow>
    /** Every intent ever handed out. */
    ghost var history: seq<Intent>

    constructor ()
      ensures State() == SchedulerState(None, None) && history == []
      ensures Valid()
    {
      lastEvaluated, active, history := None, None, [];
    }

    ghost function State(): SchedulerState
      reads this
    {
      SchedulerState(lastEvaluated, active)
    }

    ghost predicate Valid()
      reads this
    {
      Consistent(State(), history)
    }

    /** A reading that cannot be represented is refused; one that does not advance changes nothing. */
    method Evaluate(now: Option<int>) returns (r: Result<Evaluation, SchedulerError>)
      requires Valid()
      modifies this
      ensures Valid()
      ensures r.Ok? <==> now.Some?
      ensures r.Err? ==> State() == old(State()) && history == old(history)
      ensures r.Ok? ==> && State() == AfterReading(old(State()), now.value)
                        && r.value.intents == Intents(old(State()), now.value)
                        && r.value.phase == EvaluateWeekdayWindow(now.value).phase
                        && r.value.evaluatedAt == now.value
                        && history == old(history) + r.value.intents
    {
      if now.None? { return Err(InvalidClock); }
      var t := now.value;
      var evaluated := EvaluateWeekdayWindow(t);
      ghost var before := State();
      if lastEvaluated.Some? && t <= lastEvaluated.value {
        assert history == history + [];
        return Ok(Evaluation(evaluated.phase, t, []));
      }
      lastEvaluated := Some(t);
      var intents: seq<Intent> := [];
      if active.Some? && (evaluated.window.None? || active.value.id != evaluated.window.value.id) {
        intents := intents + [StopRequested(active.value, t)];
        active := None;
      }
      if evaluated.window.Some? && (active.None? || active.value.id != evaluated.window.value.id) {
        active := evaluated.window;
        intents := intents + [StartRequested(evaluated.window.value, t)];
      }
      history := history + intents;
      r := Ok(Evaluation(evaluated.phase, t, intents));
      assert intents == Intents(before, t);
      ReadingKeepsConsistent(before, old(history), t);
    }
  }

  /** The state after a sequence of readings, and every intent handed out on the way. */
  function StateAfter(readings: seq<int>): SchedulerState {
    if readings == [] then SchedulerState(None, None)
    else AfterReading(StateAfter(readings[..|readings| - 1]), readings[|readings| - 1])
  }

  function IntentsOf(readings: seq<int>): seq<Intent> {
    if readings == [] then []
    else
      IntentsOf(readings[..|readings| - 1])
      + Intents(StateAfter(readings[..|readings| - 1]), readings[|readings| - 1])
  }

  // ---------------------------------------------------------------- whole runs

  /** Starts stand at even positions and stops at odd ones, each stop naming the window started before it. */
  ghost predicate Alternates(intents: seq<Intent>) {
    forall i :: 0 <= i < |intents| ==> AlternatesAt(intents, i)
  }

  predicate AlternatesAt(intents: seq<Intent>, i: nat)
    requires i < |intents|
  {
    if i % 2 == 0 then intents[i].StartRequested?
    else intents[i].StopRequested? && intents[i].window == intents[i - 1].window
  }

  ghost predicate StartsOnce(intents: seq<Intent>) {
    forall i, j :: 0 <= i < j < |intents| && intents[i].StartRequested? && intents[j].StartRequested? ==>
      intents[i].window.id != intents[j].window.id
  }

  ghost predicate Consistent(s: SchedulerState, intents: seq<Intent>) {
    && Alternates(intents)
    && StartsOnce(intents)
    && (s.active.Some? <==> |intents| % 2 == 1)
    && (s.active.Some? ==> intents[|intents| - 1].window == s.active.value && IsWindow(s.active.value))
    && (s.lastEvaluated.None? ==> intents == [])
    && (s.lastEvaluated.Some? ==> EvaluateWeekdayWindow(s.lastEvaluated.value).window == s.active)
    && (forall i :: 0 <= i < |intents| ==>
          && IsWindow(intents[i].window)
          && intents[i].window.startsAt <= s.lastEvaluated.value
          && (Some(intents[i].window) == s.active || intents[i].window.endsAt <= s.lastEvaluated.value))
  }

  lemma AlternatesOneMore(intents: seq<Intent>, i: Intent)
    requires Alternates(intents)
    requires if |intents| % 2 == 0 then i.StartRequested?
             else i.StopRequested? && i.window == intents[|intents| - 1].window
    ensures Alternates(intents + [i])
  {
    var all := intents + [i];
    forall k | 0 <= k < |all| ensures AlternatesAt(all, k) {
      if k < |intents| { assert AlternatesAt(intents, k); }
    }
  }

  lemma ReadingAlternates(s: SchedulerState, intents: seq<Intent>, t: int)
    requires Consistent(s, intents)
    ensures var all := intents + Intents(s, t);
            && Alternates(all)
            && (AfterReading(s, t).active.Some? <==> |all| % 2 == 1)
            && (AfterReading(s, t).active.Some? ==> all[|all| - 1].window == AfterReading(s, t).active.value)
  {
    var now := EvaluateWeekdayWindow(t).window;
    var all := intents;
    if Accepts(s, t) && s.active.Some? && !Current(s.active, now) {
      AlternatesOneMore(all, StopRequested(s.active.value, t));
      all := all + [StopRequested(s.active.value, t)];
    }
    if Accepts(s, t) && now.Some? && !Current(s.active, now) {
      AlternatesOneMore(all, StartRequested(now.value, t));
      all := all + [StartRequested(now.value, t)];
    }
    assert all == intents + Intents(s, t);
  }

  lemma ReadingKeepsConsistent(s: SchedulerState, intents: seq<Intent>, t: int)
    requires Consistent(s, intents)
    ensures Consistent(AfterReading(s, t), intents + Intents(s, t))
  {
    ReadingAlternates(s, intents, t);
    if !Accepts(s, t) {
      assert intents + Intents(s, t) == intents;
    } else {
      var now := EvaluateWeekdayWindow(t).window;
      if now.Some? { CurrentWindowIsInterval(now.value, t); }
      forall i | 0 <= i < |intents|
        ensures intents[i].window.startsAt <= t
        ensures Some(intents[i].window) == now || intents[i].window.endsAt <= t
      {
        CurrentWindowIsInterval(intents[i].window, t);
      }
      if s.active.Some? && now.Some? && Current(s.active, now) {
        assert s.active == now;
      }
      if now.Some? && !Current(s.active, now) {
        // A window started before and not active has ended by the last reading, so it is not current now.
        forall i | 0 <= i < |intents| ensures intents[i].window.id != now.value.id {
          CurrentWindowIsInterval(intents[i].window, t);
        }
      }
    }
  }

  lemma {:induction false} RunIsConsistent(readings: seq<int>)
    ensures Consistent(StateAfter(readings), IntentsOf(readings))
  {
    if readings != [] {
      var shorter := readings[..|readings| - 1];
      RunIsConsistent(shorter);
      ReadingKeepsConsistent(StateAfter(shorter), IntentsOf(shorter), readings[|readings| - 1]);
    }
  }

  /** Whatever the clock reads, forwards, backwards or skipping: starts and stops alternate, every stop names
      the window last started, and no window is started twice. */
  lemma StartedAtMostOnce(readings: seq<int>)
    ensures Alternates(IntentsOf(readings)) && StartsOnce(IntentsOf(readings))
  {
    RunIsConsistent(readings);
  }

  /** After an accepted reading the active window is that of the reading: the one weekday window whose
      interval holds it, or none if there is no such window. */
  lemma ActiveIsCurrent(readings: seq<int>, t: int)
    requires Accepts(StateAfter(readings), t)
    ensures var active := StateAfter(readings + [t]).active;
            forall w :: active == Some(w) <==> IsWindow(w) && Contains(w, t)
  {
    assert (readings + [t])[..|readings|] == readings;
    RunIsConsistent(readings + [t]);
    forall w { CurrentWindowIsInterval(w, t); }
  }
}
