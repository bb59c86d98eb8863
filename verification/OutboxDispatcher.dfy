/** src/application/notifications/outbox-dispatcher.ts: one dispatcher, claiming and delivering one record
    after another. What others leave in the repository while it waits is part of a script. */
module OutboxDispatcher {
  import opened Basics
  import opened Outbox
  import OutboxRuns

  /** What a dispatcher does with the world, in the order it does it. */
  datatype Happening =
    | DidClaim(key: Key)
    | DidSend(key: Key)
    | SendResolved(key: Key)
    | SendRejected(key: Key)
    | DidMarkDelivered(key: Key, accepted: bool)
    | MarkDeliveredThrew(key: Key)
    | DidMarkFailed(key: Key)

  /** Where a dispatcher stands: the activities of the whole-system runs, seen from inside. */
  datatype Position =
    | AtRest | HasClaimed(key: Key) | HasSent(key: Key) | HasResolved(key: Key) | HasRejected(key: Key)

  function Advance(p: Position, h: Happening): Option<Position> {
    match h
    case DidClaim(k) => if p.AtRest? then Some(HasClaimed(k)) else None
    case DidSend(k) => if p == HasClaimed(k) then Some(HasSent(k)) else None
    case SendResolved(k) => if p == HasSent(k) then Some(HasResolved(k)) else None
    case SendRejected(k) => if p == HasSent(k) then Some(HasRejected(k)) else None
    case DidMarkDelivered(k, _) => if p == HasResolved(k) then Some(AtRest) else None
    case MarkDeliveredThrew(k) => if p == HasResolved(k) then Some(HasRejected(k)) else None
    case DidMarkFailed(k) => if p == HasRejected(k) then Some(AtRest) else None
  }

  function Follow(trace: seq<Happening>): Option<Position> {
    if trace == [] then Some(AtRest)
    else
      var before := Follow(trace[..|trace| - 1]);
      if before.None? then None else Advance(before.value, trace[|trace| - 1])
  }

  function Accepted(trace: seq<Happening>): nat {
    if trace == [] then 0
    else
      Accepted(trace[..|trace| - 1])
      + if trace[|trace| - 1].DidMarkDelivered? && trace[|trace| - 1].accepted then 1 else 0
  }

  function Sends(trace: seq<Happening>): nat {
    if trace == [] then 0 else Sends(trace[..|trace| - 1]) + if trace[|trace| - 1].DidSend? then 1 else 0
  }

  lemma TraceAppend(trace: seq<Happening>, h: Happening)
    ensures Follow(trace + [h]) == if Follow(trace).None? then None else Advance(Follow(trace).value, h)
    ensures Accepted(trace + [h]) == Accepted(trace) + if h.DidMarkDelivered? && h.accepted then 1 else 0
    ensures Sends(trace + [h]) == Sends(trace) + if h.DidSend? then 1 else 0
  {
    assert (trace + [h])[..|trace|] == trace;
  }

  /** How a call of the repository ends; it may have taken effect although it throws. */
  datatype Reply = Answered | ThrewBefore | ThrewAfter

  /** What happens around one delivery: how the send ends, what others leave behind meanwhile, what the
      clock reads, whether the repository answers, and whether a stop is asked for from the claim on. */
  datatype Turn = Turn(
    now: int, claim: Reply, sendResolves: bool, leftBySend: Records, markedAt: int, mark: Reply,
    failedAt: int, code: string, markFailed: Reply, stopMeanwhile: bool)

  /** The first turn in which a stop is asked for, or one past the last. */
  function FirstStop(turns: seq<Turn>): (n: nat)
    ensures n <= |turns|
    ensures n < |turns| ==> turns[n].stopMeanwhile
    ensures forall i :: 0 <= i < n ==> !turns[i].stopMeanwhile
  {
    if turns == [] || turns[0].stopMeanwhile then 0 else 1 + FirstStop(turns[1..])
  }

  class OutboxDispatcher {
    const repository: InMemoryOutbox
    const workerId: string
    const maxAttempts: int
    const leaseDurationMs: int
    const retryBaseDelayMs: int
    const retryMaxDelayMs: int
    var stopping: bool
    ghost var trace: seq<Happening>
    /** How often the repository was asked for a record. */
    ghost var asked: nat

    constructor (repository: InMemoryOutbox, workerId: string, maxAttempts: int, leaseDurationMs: int,
                 retryBaseDelayMs: int, retryMaxDelayMs: int)
      requires 1 <= |workerId| <= 128
      requires maxAttempts >= 1 && leaseDurationMs >= 1 && retryBaseDelayMs >= 1 && retryMaxDelayMs >= 1
      ensures this.repository == repository && this.workerId == workerId
      ensures this.maxAttempts == maxAttempts && this.leaseDurationMs == leaseDurationMs
      ensures this.retryBaseDelayMs == retryBaseDelayMs && this.retryMaxDelayMs == retryMaxDelayMs
      ensures !stopping && trace == [] && asked == 0 && Valid()
    {
      this.repository, this.workerId := repository, workerId;
      this.maxAttempts, this.leaseDurationMs := maxAttempts, leaseDurationMs;
      this.retryBaseDelayMs, this.retryMaxDelayMs := retryBaseDelayMs, retryMaxDelayMs;
      stopping, trace, asked := false, [], 0;
    }

    ghost predicate Valid()
      reads this
    {
      && maxAttempts >= 1 && leaseDurationMs >= 1 && retryBaseDelayMs >= 1 && retryMaxDelayMs >= 1
      && Follow(trace).Some?
    }

    function RetryDelay(attempts: int): int {
      var doubled := retryBaseDelayMs * Power2(if attempts - 1 > 0 then attempts - 1 else 0);
      if doubled < retryMaxDelayMs then doubled else retryMaxDelayMs
    }

    /** The delay doubles with every attempt until it reaches its cap, and then stays there. */
    lemma RetryDelayDoubles(attempts: int)
      requires attempts >= 1 && retryBaseDelayMs >= 1 && retryMaxDelayMs >= 1
      ensures RetryDelay(1) == if retryBaseDelayMs < retryMaxDelayMs then retryBaseDelayMs else retryMaxDelayMs
      ensures RetryDelay(attempts + 1) ==
              if 2 * RetryDelay(attempts) < retryMaxDelayMs then 2 * RetryDelay(attempts) else retryMaxDelayMs
      ensures 1 <= RetryDelay(attempts) <= RetryDelay(attempts + 1)
    {
      var half := Power2(attempts - 1);
      assert Power2(attempts) == 2 * half;
      PowerPositive(attempts - 1);
      assert retryBaseDelayMs * (2 * half) == 2 * (retryBaseDelayMs * half);
      assert retryBaseDelayMs * half >= 1;
    }

    ghost method Note(h: Happening)
      requires Valid() && Advance(Follow(trace).value, h).Some?
      modifies this`trace
      ensures Valid() && trace == old(trace) + [h] && Follow(trace) == Advance(Follow(old(trace)).value, h)
      ensures Accepted(trace) == Accepted(old(trace)) + if h.DidMarkDelivered? && h.accepted then 1 else 0
      ensures Sends(trace) == Sends(old(trace)) + if h.DidSend? then 1 else 0
    {
      TraceAppend(trace, h);
      trace := trace + [h];
    }

    /** Send one claimed record and mark how it ended. A delivered mark is tried only after the send resolved;
        whenever that mark is not obtained, the failure is marked under the same worker id instead. */
    method Deliver(k: Key, record: Record, turn: Turn) returns (delivered: bool)
      requires Valid() && !repository.closed && Follow(trace) == Some(HasClaimed(k))
      modifies this`trace, repository`records
      ensures Valid() && Follow(trace) == Some(AtRest)
      ensures Accepted(trace) == Accepted(old(trace)) + if delivered then 1 else 0
      ensures Sends(trace) == Sends(old(trace)) + 1
      ensures delivered <==> turn.sendResolves && turn.mark.Answered? && Holds(turn.leftBySend, k, workerId)
      ensures delivered ==> repository.records == MarkDeliveredStep(turn.leftBySend, k, workerId, turn.markedAt)
      ensures !delivered && turn.sendResolves && turn.mark.Answered? ==> repository.records == turn.leftBySend
      ensures !(turn.sendResolves && turn.mark.Answered?) ==>
                var marked := if turn.sendResolves && turn.mark.ThrewAfter?
                              then MarkDeliveredStep(turn.leftBySend, k, workerId, turn.markedAt)
                              else turn.leftBySend;
                repository.records == if turn.markFailed.ThrewBefore? then marked
                                      else MarkFailedStep(marked, k, workerId, turn.failedAt,
                                                          Some(turn.failedAt + RetryDelay(record.attempts)), turn.code)
    {
      Note(DidSend(k));
      repository.records := turn.leftBySend;
      if turn.sendResolves {
        Note(SendResolved(k));
        if !turn.mark.ThrewBefore? {
          var marked := repository.MarkDelivered(k, workerId, turn.markedAt);
          if turn.mark.Answered? {
            delivered := marked.value;
            Note(DidMarkDelivered(k, delivered));
            return;
          }
        }
        Note(MarkDeliveredThrew(k));
      } else {
        Note(SendRejected(k));
      }
      MarkFailure(k, record, turn);
      delivered := false;
    }

    /** Record the failure with a backoff; an error of the repository itself is only reported. */
    method MarkFailure(k: Key, record: Record, turn: Turn)
      requires Valid() && !repository.closed && Follow(trace) == Some(HasRejected(k))
      modifies this`trace, repository`records
      ensures Valid() && Follow(trace) == Some(AtRest)
      ensures Accepted(trace) == Accepted(old(trace)) && Sends(trace) == Sends(old(trace))
      ensures !turn.markFailed.ThrewBefore? ==>
                repository.records == MarkFailedStep(old(repository.records), k, workerId, turn.failedAt,
                                                     Some(turn.failedAt + RetryDelay(record.attempts)), turn.code)
      ensures turn.markFailed.ThrewBefore? ==> repository.records == old(repository.records)
    {
      var delay := RetryDelay(record.attempts);
      if !turn.markFailed.ThrewBefore? {
        var status := repository.MarkFailed(k, workerId, turn.failedAt, Some(turn.failedAt + delay), turn.code);
      }
      Note(DidMarkFailed(k));
    }

    function CallOf(turn: Turn): ClaimCall { ClaimCall(workerId, turn.now, leaseDurationMs, maxAttempts) }

    /** A claim found nothing to deliver, and left these records. */
    ghost predicate FoundNothing(turn: Turn, left: Records) {
      exists before :: ClaimStep(before, CallOf(turn), left, None)
    }

    /** Claim a record and deliver it; true means that another turn may follow. */
    method TakeTurn(turn: Turn) returns (r: Result<bool, ()>)
      requires Valid() && Follow(trace) == Some(AtRest)
      modifies this`trace, this`stopping, this`asked, repository`records
      ensures Valid() && Follow(trace) == Some(AtRest) && asked == old(asked) + 1
      ensures r.Err? <==> repository.closed || !turn.claim.Answered?
      ensures r.Err? ==> trace == old(trace) && stopping == old(stopping)
      ensures r.Err? && (repository.closed || turn.claim.ThrewBefore?) ==> repository.records == old(repository.records)
      ensures r.Err? && !repository.closed && turn.claim.ThrewAfter? ==>
                exists claimed :: ClaimStep(old(repository.records), CallOf(turn), repository.records, claimed)
      ensures r.Ok? ==> stopping == (old(stopping) || turn.stopMeanwhile)
      ensures r.Ok? ==> && Accepted(trace) == Accepted(old(trace)) + (if r.value then 1 else 0)
                        && Sends(old(trace)) <= Sends(trace) <= Sends(old(trace)) + 1
      ensures r.Ok? && r.value ==> Sends(trace) == Sends(old(trace)) + 1
      ensures r.Ok? && Sends(trace) == Sends(old(trace)) ==> !r.value && FoundNothing(turn, repository.records)
    {
      asked := asked + 1;
      if turn.claim.ThrewBefore? { return Err(()); }
      ghost var before := repository.records;
      var claim := repository.ClaimNext(CallOf(turn));
      if claim.Err? || turn.claim.ThrewAfter? { return Err(()); }
      stopping := stopping || turn.stopMeanwhile;
      if claim.value.None? {
        assert ClaimStep(before, CallOf(turn), repository.records, None);
        return Ok(false);
      }
      var (k, record) := claim.value.value;
      Note(DidClaim(k));
      var delivered := Deliver(k, record, turn);
      r := Ok(delivered);
    }

    /** Deliver while records can be claimed and delivered, and nobody asks to stop. The number returned is
        that of the marks accepted; at most one send more than that was made, and only the last can have
        failed. Without a stop it ends only with a claim that finds nothing or a mark that is not obtained. A
        stop during a turn lets that turn end and no other begin. It throws exactly if the last claim did. */
    method DispatchAvailable(turns: seq<Turn>) returns (r: Result<nat, ()>)
      requires Valid() && Follow(trace) == Some(AtRest)
      modifies this`trace, this`stopping, this`asked, repository`records
      ensures Valid() && Follow(trace) == Some(AtRest)
      ensures r.Ok? ==>
                && r.value == Accepted(trace) - Accepted(old(trace))
                && r.value <= Sends(trace) - Sends(old(trace)) <= r.value + 1
      ensures r.Err? ==> Sends(trace) - Sends(old(trace)) == Accepted(trace) - Accepted(old(trace))
      ensures Sends(trace) - Sends(old(trace)) <= asked - old(asked) <= |turns|
      ensures r.Ok? && !stopping ==>
                || asked - old(asked) == |turns|
                || Sends(trace) - Sends(old(trace)) == r.value + 1
                || (asked > old(asked) && FoundNothing(turns[asked - old(asked) - 1], repository.records))
      ensures old(stopping) ==> r == Ok(0) && trace == old(trace) && asked == old(asked)
                                && repository.records == old(repository.records)
      ensures asked - old(asked) <= FirstStop(turns) + 1
      ensures r.Err? <==> asked > old(asked)
                          && (repository.closed || !turns[asked - old(asked) - 1].claim.Answered?)
    {
      var delivered := 0;
      while !stopping && delivered < |turns|
        invariant Valid() && Follow(trace) == Some(AtRest) && delivered <= |turns|
        invariant delivered == Accepted(trace) - Accepted(old(trace)) == Sends(trace) - Sends(old(trace))
        invariant delivered == asked - old(asked) <= FirstStop(turns) + 1
        invariant !stopping ==> delivered <= FirstStop(turns)
        invariant delivered > 0 ==> !repository.closed && turns[delivered - 1].claim.Answered?
        invariant old(stopping) ==> trace == old(trace) && repository.records == old(repository.records) && stopping
      {
        var marked := TakeTurn(turns[delivered]);
        if marked.Err? { return Err(()); }
        if !marked.value { break; }
        delivered := delivered + 1;
      }
      r := Ok(delivered);
    }

    method Stop()
      modifies this`stopping
      ensures stopping
    {
      stopping := true;
    }
  }

  // ---------------------------------------------------------------- one dispatcher among many

  function Standing(a: OutboxRuns.Activity): Position {
    match a
    case Idle => AtRest
    case Claimed(t) => HasClaimed(t.key)
    case Sending(t) => HasSent(t.key)
    case Resolved(t) => HasResolved(t.key)
    case Rejected(t) => HasRejected(t.key)
  }

  /** What the dispatcher that acts does in a step of the whole system; a claim in vain is nothing. */
  function Does(w: OutboxRuns.World, a: OutboxRuns.Action, v: OutboxRuns.World): seq<Happening>
    requires !a.Enqueue? && a.d in w.dispatchers && a.d in v.dispatchers
    requires !a.ClaimNext? && !a.Join? && !a.Crash? ==> !w.dispatchers[a.d].activity.Idle?
  {
    var x := w.dispatchers[a.d];
    match a
    case ClaimNext(d, _) =>
      if v.dispatchers[d].activity.Idle? then [] else [DidClaim(v.dispatchers[d].activity.token.key)]
    case Send(_) => [DidSend(x.activity.token.key)]
    case Resolve(_) => [SendResolved(x.activity.token.key)]
    case Reject(_) => [SendRejected(x.activity.token.key)]
    case MarkDelivered(_, _, _, throws) =>
      var k := x.activity.token.key;
      [if throws then MarkDeliveredThrew(k) else DidMarkDelivered(k, Holds(w.records, k, x.workerId))]
    case MarkFailed(_, _, _, _, _) => [DidMarkFailed(x.activity.token.key)]
    case _ => []
  }

  /** What a dispatcher of a run has done since it joined. A dispatcher that lost the answer to a claim has,
      in these runs, crashed and joined again. */
  ghost function TraceOf(states: seq<OutboxRuns.World>, actions: seq<OutboxRuns.Action>, i: nat, d: nat): seq<Happening>
    requires OutboxRuns.IsRun(states, actions) && i < |states|
  {
    if i == 0 then []
    else
      var a := actions[i - 1];
      assert OutboxRuns.Step(states[i - 1], a, states[i]);
      if a.Enqueue? || a.d != d then TraceOf(states, actions, i - 1, d)
      else if a.Join? || a.Crash? then []
      else TraceOf(states, actions, i - 1, d) + Does(states[i - 1], a, states[i])
  }

  lemma StepAdvances(w: OutboxRuns.World, a: OutboxRuns.Action, v: OutboxRuns.World)
    requires OutboxRuns.Step(w, a, v) && !a.Enqueue? && !a.Join? && !a.Crash?
    ensures a.d in w.dispatchers && a.d in v.dispatchers
    ensures var before, after := Standing(w.dispatchers[a.d].activity), Standing(v.dispatchers[a.d].activity);
            var does := Does(w, a, v);
            if does == [] then after == before else |does| == 1 && Advance(before, does[0]) == Some(after)
  {
  }

  lemma OthersStay(w: OutboxRuns.World, a: OutboxRuns.Action, v: OutboxRuns.World, d: nat)
    requires OutboxRuns.Step(w, a, v) && (a.Enqueue? || a.d != d)
    ensures d in v.dispatchers <==> d in w.dispatchers
    ensures d in w.dispatchers ==> v.dispatchers[d] == w.dispatchers[d]
  {
  }

  /** In every run of the whole system each dispatcher is where the single dispatcher's automaton stands
      after what it has done. */
  lemma {:induction false} EveryDispatcherFollows(states: seq<OutboxRuns.World>, actions: seq<OutboxRuns.Action>,
                                                  i: nat, d: nat)
    requires OutboxRuns.IsRun(states, actions) && i < |states| && states[0].dispatchers == map[]
    ensures d in states[i].dispatchers ==>
              Follow(TraceOf(states, actions, i, d)) == Some(Standing(states[i].dispatchers[d].activity))
  {
    if i > 0 {
      EveryDispatcherFollows(states, actions, i - 1, d);
      var w, a, v := states[i - 1], actions[i - 1], states[i];
      assert OutboxRuns.Step(w, a, v);
      if a.Enqueue? || a.d != d {
        OthersStay(w, a, v, d);
      } else if !a.Join? && !a.Crash? {
        StepAdvances(w, a, v);
        var before := TraceOf(states, actions, i - 1, d);
        if Does(w, a, v) == [] {
          assert before + Does(w, a, v) == before;
        } else {
          assert Does(w, a, v) == [Does(w, a, v)[0]];
          TraceAppend(before, Does(w, a, v)[0]);
        }
      }
    }
  }

  /** And whatever that automaton allows after a claim is a step of the whole system. */
  lemma EveryMoveIsAStep(w: OutboxRuns.World, d: nat, h: Happening)
    requires d in w.dispatchers && Advance(Standing(w.dispatchers[d].activity), h).Some? && !h.DidClaim?
    requires h.DidMarkDelivered? ==> (h.accepted <==> Holds(w.records, h.key, w.dispatchers[d].workerId))
    ensures exists a: OutboxRuns.Action, v: OutboxRuns.World ::
              && !a.Enqueue? && a.d == d && OutboxRuns.Step(w, a, v) && !a.Join? && !a.Crash?
              && Does(w, a, v) == [h]
  {
    var x := w.dispatchers[d];
    var t := x.activity.token;
    var a: OutboxRuns.Action, v: OutboxRuns.World;
    match h {
      case DidSend(_) =>
        a := OutboxRuns.Send(d);
        v := OutboxRuns.WithActivity(w.(sends := w.sends + [t]), d, OutboxRuns.Sending(t));
      case SendResolved(_) =>
        a := OutboxRuns.Resolve(d);
        v := OutboxRuns.WithActivity(w.(resolved := w.resolved + {t}), d, OutboxRuns.Resolved(t));
      case SendRejected(_) =>
        a := OutboxRuns.Reject(d);
        v := OutboxRuns.WithActivity(w, d, OutboxRuns.Rejected(t));
      case DidMarkDelivered(k, _) =>
        a := OutboxRuns.MarkDelivered(d, 0, true, false);
        var after := OutboxRuns.WithActivity(w, d, OutboxRuns.Idle);
        v := OutboxRuns.NoteMark(after.(records := MarkDeliveredStep(w.records, k, x.workerId, 0)),
                                 w.records, k, x.workerId);
      case MarkDeliveredThrew(_) =>
        a := OutboxRuns.MarkDelivered(d, 0, false, true);
        v := OutboxRuns.WithActivity(w, d, OutboxRuns.Rejected(t));
      case DidMarkFailed(_) =>
        a := OutboxRuns.MarkFailed(d, 0, None, "", false);
        v := OutboxRuns.WithActivity(w, d, OutboxRuns.Idle);
    }
    assert OutboxRuns.Step(w, a, v);
    assert Does(w, a, v) == [h];
  }
}
