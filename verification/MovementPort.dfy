/** src/adapters/minecraft/bedrock-movement-port.ts: one movement step at a time, each sending at most one
    frame, whose tick is used up before the frame is handed over. */
module MovementPort {
  import opened Basics
  import S = StateStore
  import opened FrameOwnership

  datatype MoveError =
    | AdapterClosed | AlreadyActive | InvalidFrame | Corrected | ObservationInvalid | Disconnected

  datatype Outcome = Moved(position: S.Position, dimension: Dimension) | Failed(error: MoveError)

  /** What the transport or a caller may do while a step is under way; a dimension may be unknown. */
  datatype Happening =
    | Observed(position: S.Position, dimension: Option<Dimension>)
    | CorrectionSeen(tick: int)
    | ConnectionLost
    | SignalAborted
    | StopCalled
    | FrameStreamClosed

  /** Calls of the transport may call back before they return, and may throw. */
  datatype Calling = Calling(meanwhile: seq<Happening>, throws: bool)

  datatype Script = Script(
    signalAborted: bool, frame: Option<nat>, observing: Calling, watching: Calling, queueing: Calling,
    waiting: seq<Happening>)

  /** The step under way: whether it watches for a lost connection and for its own abort. */
  datatype Step = Step(tick: int, dimension: Dimension, watching: bool, abortable: bool, sent: bool, aborted: bool,
                       outcome: Option<Outcome>)

  function Finished(s: Step, o: Outcome): Step { if s.outcome.Some? then s else s.(outcome := Some(o)) }

  /** The first answer to a sent frame decides; what comes before it is sent is ignored. */
  function Answered(s: Step, h: Happening): Step {
    match h
    case Observed(position, dimension) =>
      if !s.sent then s
      else if dimension != Some(s.dimension) || !S.FinitePosition(Some(position)) then
        Finished(s, Failed(ObservationInvalid))
      else Finished(s, Moved(position, s.dimension))
    case CorrectionSeen(tick) => if !s.sent || tick < s.tick then s else Finished(s, Failed(Corrected))
    case ConnectionLost => if s.watching then Finished(s, Failed(Disconnected)) else s
    case FrameStreamClosed => s
    case _ => Aborted(s)
  }

  function Aborted(s: Step): Step {
    var aborted := s.(aborted := true);
    if s.abortable then Finished(aborted, Failed(AdapterClosed)) else aborted
  }

  class BedrockMovementPort {
    const ownership: BedrockAuthoritativeFrameOwnership
    var lastSentTick: Option<int>
    var active: Option<Step>
    var closed: bool
    /** The ticks of the frames handed to the transport. */
    ghost var queued: seq<int>

    constructor (ownership: BedrockAuthoritativeFrameOwnership)
      requires ownership.Valid()
      ensures Valid() && this.ownership == ownership && queued == [] && active.None? && !closed
    {
      this.ownership := ownership;
      lastSentTick, active, closed, queued := None, None, false, [];
    }

    /** Every frame handed over has a tick of its own that was committed first, and they strictly increase. */
    ghost predicate Valid()
      reads this, ownership
    {
      && ownership.Valid()
      && Ordered(queued, lastSentTick)
      && (forall t :: t in queued ==> HasTick(ownership.commits, t))
    }

    method Stop()
      requires Valid()
      modifies this`closed, this`active, ownership`closed, ownership`active
      ensures Valid() && closed && queued == old(queued)
      ensures active == if old(active).Some? && !old(closed) then Some(Aborted(old(active).value)) else old(active)
      ensures !old(closed) ==> ownership.closed && ownership.active.None?
      ensures old(closed) ==> ownership.closed == old(ownership.closed) && ownership.active == old(ownership.active)
    {
      if closed { return; }
      closed := true;
      if active.Some? { active := Some(Aborted(active.value)); }
      ownership.Close();
    }

    /** What closing leaves: a step aborted for good, and nobody on the stream. */
    ghost predicate Steady()
      reads this, ownership
    {
      && Valid() && active.Some? && (closed ==> active.value.aborted && ownership.active.None?)
      && (active.value.aborted && active.value.abortable ==> active.value.outcome.Some?)
    }

    method React(h: Happening)
      requires Steady()
      modifies this`closed, this`active, ownership`closed, ownership`active
      ensures Steady() && active == Some(Answered(old(active).value, h))
      ensures closed == (old(closed) || h.StopCalled?)
      ensures ownership.active == if Shuts(h) then None else old(ownership.active)
    {
      if h.StopCalled? { Stop(); } else { active := Some(Answered(active.value, h)); }
      if h.FrameStreamClosed? { ownership.Close(); }
    }

    method ReactAll(hs: seq<Happening>)
      requires Steady()
      modifies this`closed, this`active, ownership`closed, ownership`active
      ensures Steady() && active == Some(Watched(old(active).value, hs))
      ensures ownership.active == if ShutBy(hs) then None else old(ownership.active)
    {
      for i := 0 to |hs|
        invariant Steady() && active == Some(Watched(old(active).value, hs[..i]))
        invariant ownership.active == if ShutBy(hs[..i]) then None else old(ownership.active)
      {
        assert hs[..i + 1] == hs[..i] + [hs[i]];
        OneMoreHappening(old(active).value, hs[..i], hs[i]);
        React(hs[i]);
      }
      assert hs[..|hs|] == hs;
    }

    /** Takes the tick for the frame that is handed over with it, if the lease still holds the stream. */
    method TakeTick(lease: nat) returns (taken: bool)
      requires Steady() && lease < |ownership.leases|
      requires ownership.leases[lease] == Lease(Movement, active.value.tick, None)
      requires lastSentTick.Some? ==> active.value.tick > lastSentTick.value
      modifies this`active, this`lastSentTick, this`queued, ownership`active, ownership`settled,
               ownership`lastCommittedTick, ownership`commits
      ensures Steady() && active == Some(old(active).value.(sent := true))
      ensures taken <==> old(ownership.active) == Some(lease)
      ensures if taken then Sent(old(ownership.commits), old(queued), active.value.tick)
              else queued == old(queued) && ownership.commits == old(ownership.commits)
      ensures ownership.active == old(ownership.active) || ownership.active.None?
    {
      active := Some(active.value.(sent := true));
      ghost var earlier := ownership.commits;
      var committed := ownership.CommitLease(lease, Reads(None, None));
      if committed.Err? { return false; }
      TicksStay(earlier, ownership.commits[|earlier|], queued);
      lastSentTick := Some(active.value.tick);
      queued := queued + [active.value.tick];
      taken := true;
    }

    /** Takes the tick and hands the frame over, or neither. The tick stays taken even if the transport throws. */
    method SendFrame(lease: nat, queueing: Calling) returns (ok: bool)
      requires Steady() && lease < |ownership.leases|
      requires ownership.leases[lease] == Lease(Movement, active.value.tick, None)
      requires lastSentTick.Some? ==> active.value.tick > lastSentTick.value
      modifies this`closed, this`active, this`lastSentTick, this`queued, ownership`closed, ownership`active,
               ownership`settled, ownership`lastCommittedTick, ownership`commits
      ensures Steady()
      ensures if old(ownership.active) == Some(lease)
              then && Sent(old(ownership.commits), old(queued), active.value.tick)
                   && active.value == Watched(old(active).value.(sent := true), queueing.meanwhile)
                   && ok == !queueing.throws
              else && !ok && queued == old(queued) && ownership.commits == old(ownership.commits)
                   && active.value == old(active).value.(sent := true)
      ensures ownership.active == old(ownership.active) || ownership.active.None?
      ensures active.value.tick == old(active).value.tick
    {
      var taken := TakeTick(lease);
      if !taken { return false; }
      WatchedKeeps(active.value, queueing.meanwhile);
      ReactAll(queueing.meanwhile);
      ok := !queueing.throws;
    }

    /** One tick was committed, after all others, and one frame handed over with it. */
    ghost predicate Sent(commitsBefore: seq<Commit>, queuedBefore: seq<int>, tick: int)
      reads this, ownership
    {
      && |ownership.commits| == |commitsBefore| + 1 && commitsBefore <= ownership.commits
      && ownership.commits[|commitsBefore|].tick == tick
      && queued == queuedBefore + [tick]
    }

    /** Attaches the listeners; fails if the transport throws. */
    method Listen(script: Script) returns (ok: bool)
      requires Steady() && !active.value.watching && !active.value.abortable && active.value.outcome.None?
      modifies this`closed, this`active, ownership`closed, ownership`active
      ensures Valid() && active.Some?
      ensures closed ==> active.value.aborted && ownership.active.None?
      ensures ok <==> !script.observing.throws && !script.watching.throws
      ensures active.value == Listened(old(active).value, script)
      ensures ok ==> ownership.active == if ShutFirst(script) then None else old(ownership.active)
      ensures ownership.active == old(ownership.active) || ownership.active.None?
    {
      WatchedKeeps(active.value, script.observing.meanwhile);
      ReactAll(script.observing.meanwhile);
      if script.observing.throws { return false; }
      active := Some(active.value.(watching := true));
      WatchedKeeps(active.value, script.watching.meanwhile);
      ReactAll(script.watching.meanwhile);
      if script.watching.throws { return false; }
      active := Some(active.value.(abortable := true));
      ok := true;
    }

    method Break(lease: nat)
      requires Valid() && active.Some? && lease < |ownership.leases|
      modifies this`active, ownership`active, ownership`settled
      ensures Valid() && active == Some(Finished(old(active).value, Failed(Disconnected)))
      ensures ownership.settled == old(ownership.settled)[lease := true]
      ensures ownership.active == if old(ownership.active) == Some(lease) then None else old(ownership.active)
    {
      ownership.Release(lease);
      active := Some(Finished(active.value, Failed(Disconnected)));
    }

    /** If nothing else decides the step, its caller's abort does. */
    method Await(waiting: seq<Happening>)
      requires Steady() && active.value.abortable
      modifies this`closed, this`active, ownership`closed, ownership`active
      ensures Valid() && active.Some? && active.value.tick == old(active).value.tick
      ensures active.value.outcome ==
              Finished(Watched(old(active).value, waiting), Failed(AdapterClosed)).outcome
      ensures ownership.active == old(ownership.active) || ownership.active.None?
    {
      WatchedKeeps(active.value, waiting);
      ReactAll(waiting);
      if active.value.outcome.None? { React(SignalAborted); }
    }

    method Transmit(lease: nat, script: Script)
      requires Steady() && active.value.abortable && lease < |ownership.leases|
      requires ownership.leases[lease] == Lease(Movement, active.value.tick, None)
      requires lastSentTick.Some? ==> active.value.tick > lastSentTick.value
      modifies this`closed, this`active, this`lastSentTick, this`queued, ownership`closed, ownership`active,
               ownership`settled, ownership`lastCommittedTick, ownership`commits
      ensures Valid() && active.Some? && active.value.tick == old(active).value.tick
      ensures ownership.active == old(ownership.active) || ownership.active.None?
      ensures if old(ownership.active) == Some(lease)
              then Sent(old(ownership.commits), old(queued), active.value.tick)
              else queued == old(queued) && ownership.commits == old(ownership.commits)
      ensures active.value.outcome ==
              Some(AfterSend(old(active).value.(sent := true), old(ownership.active) == Some(lease), script))
    {
      WatchedKeeps(active.value.(sent := true), script.queueing.meanwhile);
      var ok := SendFrame(lease, script.queueing);
      if ok { Await(script.waiting); } else { Break(lease); }
    }

    /** Listens, sends unless it was stopped meanwhile, and waits until something decides the outcome. */
    method Perform(lease: nat, script: Script)
      requires Steady() && active.value == NewStep(active.value.tick, active.value.dimension)
      requires lease < |ownership.leases| && ownership.leases[lease] == Lease(Movement, active.value.tick, None)
      requires ownership.active == Some(lease)
      requires lastSentTick.Some? ==> active.value.tick > lastSentTick.value
      modifies this`closed, this`active, this`lastSentTick, this`queued, ownership`closed, ownership`active,
               ownership`settled, ownership`lastCommittedTick, ownership`commits
      ensures Valid() && active.Some? && active.value.tick == old(active).value.tick
      ensures ownership.active == old(ownership.active) || ownership.active.None?
      ensures if HandsOver(script) then Sent(old(ownership.commits), old(queued), active.value.tick)
              else queued == old(queued) && ownership.commits == old(ownership.commits)
      ensures active.value.outcome == Some(ResultOf(old(active).value.tick, old(active).value.dimension, script))
    {
      ListenedKeeps(active.value, script);
      var ok := Listen(script);
      if ok && (active.value.aborted || closed) {
        active := Some(Finished(active.value, Failed(AdapterClosed)));
        return;
      }
      if ok {
        Transmit(lease, script);
      } else {
        Break(lease);
      }
    }

    /** A step that is granted a tick beyond all others hands its frame over with that tick, or neither, exactly
        as its script decides, and so is its answer. */
    method Move(dimension: Dimension, script: Script) returns (r: Outcome)
      requires Valid()
      modifies this, ownership
      ensures Valid() && active == old(active)
      ensures old(closed) ==> r == Failed(AdapterClosed)
      ensures !old(closed) && old(active).Some? ==> r == Failed(AlreadyActive)
      ensures !old(closed) && old(active).None? && script.signalAborted ==> r == Failed(AdapterClosed)
      ensures !old(closed) && old(active).None? && !script.signalAborted && !old(Grants(script.frame)) ==>
                r == Failed(InvalidFrame)
      ensures if old(Begins(script)) && HandsOver(script)
              then Sent(old(ownership.commits), old(queued), script.frame.value)
              else queued == old(queued) && ownership.commits == old(ownership.commits)
      ensures old(Begins(script)) ==> r == ResultOf(script.frame.value, dimension, script) && ownership.active.None?
      ensures !old(Begins(script)) ==> ownership.active == old(ownership.active)
    {
      if closed { return Failed(AdapterClosed); }
      if active.Some? { return Failed(AlreadyActive); }
      if script.signalAborted { return Failed(AdapterClosed); }
      if script.frame.None? { return Failed(InvalidFrame); }
      var tick := script.frame.value;
      if lastSentTick.Some? { LastSentIsCommitted(); }
      if lastSentTick.Some? && tick <= lastSentTick.value { return Failed(InvalidFrame); }
      var lease := ownership.AcquireMovement(tick);
      if lease.Err? { return Failed(InvalidFrame); }
      active := Some(NewStep(tick, dimension));
      Perform(lease.value, script);
      ownership.Release(lease.value);
      r := active.value.outcome.value;
      active := None;
    }

    /** The stream is open and free, and the frame's tick lies beyond every committed one. */
    ghost predicate Grants(frame: Option<nat>)
      reads this, ownership
    {
      && frame.Some? && !ownership.closed && ownership.active.None?
      && (ownership.lastCommittedTick.Some? ==> frame.value > ownership.lastCommittedTick.value)
    }

    ghost predicate Begins(script: Script)
      reads this, ownership
    {
      !closed && active.None? && !script.signalAborted && Grants(script.frame)
    }

    lemma LastSentIsCommitted()
      requires Valid() && lastSentTick.Some?
      ensures ownership.lastCommittedTick.Some? && lastSentTick.value <= ownership.lastCommittedTick.value
    {
      assert lastSentTick.value in queued;
      var i :| 0 <= i < |ownership.commits| && ownership.commits[i].tick == lastSentTick.value;
      assert i < |ownership.commits| - 1 ==>
               ownership.commits[i].tick < ownership.commits[|ownership.commits| - 1].tick;
    }
  }

  // ---------------------------------------------------------------- what a script decides

  predicate Shuts(h: Happening) { h.StopCalled? || h.FrameStreamClosed? }

  predicate ShutBy(hs: seq<Happening>) { exists i :: 0 <= i < |hs| && Shuts(hs[i]) }

  function NewStep(tick: int, dimension: Dimension): Step { Step(tick, dimension, false, false, false, false, None) }

  function Watched(s: Step, hs: seq<Happening>): Step {
    if hs == [] then s else Answered(Watched(s, hs[..|hs| - 1]), hs[|hs| - 1])
  }

  lemma OneMoreHappening(s: Step, hs: seq<Happening>, h: Happening)
    ensures Watched(s, hs + [h]) == Answered(Watched(s, hs), h)
    ensures ShutBy(hs + [h]) <==> ShutBy(hs) || Shuts(h)
  {
    assert (hs + [h])[..|hs|] == hs;
    forall i | 0 <= i < |hs| ensures (hs + [h])[i] == hs[i] {}
    assert (hs + [h])[|hs|] == h;
  }

  /** Both listeners attached, or as far as it came. */
  function Listened(s: Step, script: Script): Step {
    var observing := Watched(s, script.observing.meanwhile);
    if script.observing.throws then observing
    else
      var watching := Watched(observing.(watching := true), script.watching.meanwhile);
      if script.watching.throws then watching else watching.(abortable := true)
  }

  predicate ShutFirst(script: Script) { ShutBy(script.observing.meanwhile) || ShutBy(script.watching.meanwhile) }

  function Decided(s: Step, o: Outcome): Outcome { if s.outcome.Some? then s.outcome.value else o }

  /** From the send on, whether or not the tick can still be committed. */
  function AfterSend(s: Step, committed: bool, script: Script): Outcome {
    if !committed then Decided(s, Failed(Disconnected))
    else
      var queueing := Watched(s, script.queueing.meanwhile);
      if script.queueing.throws then Decided(queueing, Failed(Disconnected))
      else Decided(Watched(queueing, script.waiting), Failed(AdapterClosed))
  }

  function ResultOf(tick: int, dimension: Dimension, script: Script): Outcome {
    var s := Listened(NewStep(tick, dimension), script);
    if script.observing.throws || script.watching.throws then Decided(s, Failed(Disconnected))
    else if s.aborted then Decided(s, Failed(AdapterClosed))
    else AfterSend(s.(sent := true), !ShutFirst(script), script)
  }

  /** Something that stops a step before its frame is handed over. A lost connection does not. */
  predicate Interrupts(hs: seq<Happening>) {
    exists i :: 0 <= i < |hs| && (hs[i].SignalAborted? || hs[i].StopCalled? || hs[i].FrameStreamClosed?)
  }

  /** The frame of a step is handed over. */
  predicate HandsOver(script: Script) {
    && !script.observing.throws && !script.watching.throws
    && !Interrupts(script.observing.meanwhile) && !Interrupts(script.watching.meanwhile)
  }

  lemma {:induction false} WatchedKeeps(s: Step, hs: seq<Happening>)
    ensures var now := Watched(s, hs);
            && now.tick == s.tick && now.dimension == s.dimension && now.sent == s.sent
            && now.watching == s.watching && now.abortable == s.abortable
            && (s.outcome.Some? ==> now.outcome == s.outcome)
            && (now.aborted <==> s.aborted || AbortedBy(hs))
  {
    if hs != [] {
      WatchedKeeps(s, hs[..|hs| - 1]);
      OneMoreAbort(hs);
    }
  }

  lemma OneMoreAbort(hs: seq<Happening>)
    requires hs != []
    ensures var h := hs[|hs| - 1];
            AbortedBy(hs) <==> AbortedBy(hs[..|hs| - 1]) || h.SignalAborted? || h.StopCalled?
  {
    assert hs == hs[..|hs| - 1] + [hs[|hs| - 1]];
    forall i | 0 <= i < |hs| - 1 ensures hs[i] == hs[..|hs| - 1][i] {}
  }

  predicate AbortedBy(hs: seq<Happening>) {
    exists i :: 0 <= i < |hs| && (hs[i].SignalAborted? || hs[i].StopCalled?)
  }

  lemma ListenedKeeps(s: Step, script: Script)
    ensures var now := Listened(s, script);
            && now.tick == s.tick && now.dimension == s.dimension && now.sent == s.sent
            && (!script.observing.throws && !script.watching.throws ==>
                  && now.watching && now.abortable
                  && (now.aborted <==>
                        s.aborted || AbortedBy(script.observing.meanwhile) || AbortedBy(script.watching.meanwhile)))
  {
    WatchedKeeps(s, script.observing.meanwhile);
    WatchedKeeps(Watched(s, script.observing.meanwhile).(watching := true), script.watching.meanwhile);
  }

  // ---------------------------------------------------------------- when a step succeeds

  /** What settles a step whose frame is out: everything but a correction of an earlier tick and the end of
      the frame stream. */
  predicate Decisive(h: Happening, tick: int) {
    match h
    case CorrectionSeen(corrected) => corrected >= tick
    case FrameStreamClosed => false
    case _ => true
  }

  predicate FirstDecisive(hs: seq<Happening>, tick: int, k: nat) {
    k < |hs| && Decisive(hs[k], tick) && forall i :: 0 <= i < k ==> !Decisive(hs[i], tick)
  }

  /** The first decisive happening after the send gives the answer, and nothing else does. */
  lemma {:induction false} FirstDecisiveAnswers(s: Step, hs: seq<Happening>)
    requires s.sent && s.watching && s.abortable && s.outcome.None?
    ensures Watched(s, hs).outcome.None? <==> forall i :: 0 <= i < |hs| ==> !Decisive(hs[i], s.tick)
    ensures forall k: nat :: FirstDecisive(hs, s.tick, k) ==>
              Watched(s, hs).outcome == Some(
                match hs[k]
                case Observed(p, d) =>
                  if d == Some(s.dimension) && p.x.Finite? && p.y.Finite? && p.z.Finite? then Moved(p, s.dimension)
                  else Failed(ObservationInvalid)
                case CorrectionSeen(_) => Failed(Corrected)
                case ConnectionLost => Failed(Disconnected)
                case _ => Failed(AdapterClosed))
  {
    if hs != [] {
      var before, h := hs[..|hs| - 1], hs[|hs| - 1];
      FirstDecisiveAnswers(s, before);
      WatchedKeeps(s, before);
      assert hs == before + [h];
      forall k: nat | k < |before| && FirstDecisive(hs, s.tick, k) ensures FirstDecisive(before, s.tick, k) {}
    }
  }

  /** Before the send only a lost connection answers, once that is watched for. */
  lemma {:induction false} BeforeTheSend(s: Step, hs: seq<Happening>)
    requires !s.sent && !s.abortable && s.outcome.None?
    ensures Watched(s, hs).outcome == if s.watching && ConnectionLost in hs then Some(Failed(Disconnected)) else None
  {
    if hs != [] {
      BeforeTheSend(s, hs[..|hs| - 1]);
      WatchedKeeps(s, hs[..|hs| - 1]);
      assert hs == hs[..|hs| - 1] + [hs[|hs| - 1]];
    }
  }

  lemma {:induction false} WatchedInTurn(s: Step, a: seq<Happening>, b: seq<Happening>)
    ensures Watched(s, a + b) == Watched(Watched(s, a), b)
  {
    if b == [] {
      assert a + b == a;
    } else {
      WatchedInTurn(s, a, b[..|b| - 1]);
      assert (a + b)[..|a + b| - 1] == a + b[..|b| - 1];
    }
  }

  /** What may answer a frame that is out; a transport that throws ends the waiting before it begins. */
  function Answers(script: Script): seq<Happening> {
    script.queueing.meanwhile + if script.queueing.throws then [] else script.waiting
  }

  /** A step arrives exactly if its frame is handed over, no connection was lost before, and the first decisive
      happening afterwards is the sight of a finite position in its dimension: that one. */
  lemma ArrivesExactly(tick: int, dimension: Dimension, script: Script, p: S.Position)
    ensures ResultOf(tick, dimension, script) == Moved(p, dimension) <==>
              && HandsOver(script) && ConnectionLost !in script.watching.meanwhile
              && p.x.Finite? && p.y.Finite? && p.z.Finite?
              && exists k: nat :: FirstDecisive(Answers(script), tick, k)
                                  && Answers(script)[k] == Observed(p, Some(dimension))
    ensures ResultOf(tick, dimension, script).Moved? ==> ResultOf(tick, dimension, script).dimension == dimension
  {
    var s := NewStep(tick, dimension);
    ListenedKeeps(s, script);
    WatchedKeeps(s, script.observing.meanwhile);
    BeforeTheSend(s, script.observing.meanwhile);
    BeforeTheSend(Watched(s, script.observing.meanwhile).(watching := true), script.watching.meanwhile);
    if HandsOver(script) {
      var sending := Listened(s, script).(sent := true);
      WatchedInTurn(sending, script.queueing.meanwhile, if script.queueing.throws then [] else script.waiting);
      if sending.outcome.None? {
        FirstDecisiveAnswers(sending, Answers(script));
        FirstOrNone(Answers(script), tick);
      } else {
        WatchedKeeps(sending, Answers(script));
        WatchedKeeps(sending, script.queueing.meanwhile);
      }
    } else {
      InterruptedEarly(script);
    }
  }

  lemma InterruptedEarly(script: Script)
    requires !HandsOver(script)
    ensures script.observing.throws || script.watching.throws || ShutFirst(script)
            || AbortedBy(script.observing.meanwhile) || AbortedBy(script.watching.meanwhile)
  {
    forall hs: seq<Happening> | Interrupts(hs) && !AbortedBy(hs) ensures ShutBy(hs) {
      var i :| 0 <= i < |hs| && (hs[i].SignalAborted? || hs[i].StopCalled? || hs[i].FrameStreamClosed?);
      assert Shuts(hs[i]);
    }
  }

  lemma {:induction false} FirstOrNone(hs: seq<Happening>, tick: int)
    ensures (forall i :: 0 <= i < |hs| ==> !Decisive(hs[i], tick)) || exists k: nat :: FirstDecisive(hs, tick, k)
  {
    if hs != [] {
      var before := hs[..|hs| - 1];
      FirstOrNone(before, tick);
      if exists k: nat :: FirstDecisive(before, tick, k) {
        var k: nat :| FirstDecisive(before, tick, k);
        assert FirstDecisive(hs, tick, k);
      } else {
        forall i | 0 <= i < |before| ensures !Decisive(hs[i], tick) { assert hs[i] == before[i]; }
        assert Decisive(hs[|hs| - 1], tick) ==> FirstDecisive(hs, tick, |hs| - 1);
      }
    }
  }

  lemma TicksStay(commits: seq<Commit>, c: Commit, queued: seq<int>)
    requires forall t :: t in queued ==> HasTick(commits, t)
    ensures forall t :: t in queued + [c.tick] ==> HasTick(commits + [c], t)
  {
    forall t | t in queued + [c.tick] ensures HasTick(commits + [c], t) {
      if t in queued {
        var i :| 0 <= i < |commits| && commits[i].tick == t;
        assert (commits + [c])[i].tick == t;
      } else {
        assert (commits + [c])[|commits|].tick == t;
      }
    }
  }

  ghost predicate Ordered(ticks: seq<int>, last: Option<int>) {
    && (last.None? <==> ticks == [])
    && (ticks != [] ==> ticks[|ticks| - 1] == last.value)
    && forall i, j :: 0 <= i < j < |ticks| ==> ticks[i] < ticks[j]
  }

  ghost predicate HasTick(commits: seq<Commit>, t: int) { exists i :: 0 <= i < |commits| && commits[i].tick == t }
}
