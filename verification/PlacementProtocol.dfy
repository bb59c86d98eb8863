/** The order in which one execution of src/application/block-operation/block-operation-coordinator.ts
    may act on the world: an automaton over the events of its trace. The coordinator class is proved to
    follow it; the whole-system runs assume of an execution nothing but that it follows it. */
module PlacementProtocol {
  import opened Basics
  import opened TaskQueue

  datatype Block = Air | Dirt | SolidOther

  datatype Event =
    | TaskMatched
    | TargetSeen(block: Block)
    | SupportSeen(block: Block)
    | DeliveryRecorded
    | PlaceCalled
    | PlaceResolved
    | VerificationRecorded
    | FinishAttempted(outcome: Outcome)
    | FinishRecorded(outcome: Outcome)
    | PortStopped

  datatype Stage =
    | Begun | Matched | TargetAir | SupportSolid | Started | Placing | Placed | TargetDirt | Confirmed
    | Abandoned
    | Finishing(outcome: Outcome)
    | Done(outcome: Outcome)

  /** What execute demands of the row it finds before it does anything else. */
  predicate ReadyToPlace(item: TaskItem, command: PlaceInstruction) {
    && item.status.Claimed?
    && item.instruction.taskType.PlaceSingleDirtType?
    && item.instruction.maxAttempts == 1
    && item.attempts == 1
    && item.phase.NotStarted?
    && item.instruction.details == Some(PlaceSingleDirt(command))
  }

  function Advance(s: Stage, e: Event): Option<Stage> {
    match e
    case PortStopped => Some(s)
    case TaskMatched => if s.Begun? then Some(Matched) else None
    case TargetSeen(b) =>
      if s.Matched? then Some(if b.Air? then TargetAir else Abandoned)
      else if s.Placed? then Some(if b.Dirt? then TargetDirt else Abandoned)
      else None
    case SupportSeen(b) => if s.TargetAir? then Some(if b.Air? then Abandoned else SupportSolid) else None
    case DeliveryRecorded => if s.SupportSolid? then Some(Started) else None
    case PlaceCalled => if s.Started? then Some(Placing) else None
    case PlaceResolved => if s.Placing? then Some(Placed) else None
    case VerificationRecorded => if s.TargetDirt? then Some(Confirmed) else None
    case FinishAttempted(o) =>
      if s.Finishing? || s.Done? || (o.OutcomeCompleted? && !s.Confirmed?) then None else Some(Finishing(o))
    case FinishRecorded(o) => if s == Finishing(o) then Some(Done(o)) else None
  }

  /** The stage a trace leads to, if the automaton accepts it. */
  function Follow(trace: seq<Event>): Option<Stage> {
    if trace == [] then Some(Begun)
    else
      var before := Follow(trace[..|trace| - 1]);
      if before.None? then None else Advance(before.value, trace[|trace| - 1])
  }

  function Finishes(trace: seq<Event>): nat {
    if trace == [] then 0
    else Finishes(trace[..|trace| - 1]) + if trace[|trace| - 1].FinishAttempted? then 1 else 0
  }

  /** The trace without port stops, which may fall between any two other events. */
  function Core(trace: seq<Event>): seq<Event> {
    if trace == [] then []
    else
      var rest := Core(trace[..|trace| - 1]);
      if trace[|trace| - 1].PortStopped? then rest else rest + [trace[|trace| - 1]]
  }

  /** The one successful story, as far as it has been told at a stage on its way. */
  ghost predicate StorySoFar(s: Stage, core: seq<Event>) {
    var n := StoryLength(s);
    && |core| == n
    && (n > 0 ==> core[0] == TaskMatched)
    && (n > 1 ==> core[1] == TargetSeen(Air))
    && (n > 2 ==> core[2].SupportSeen? && !core[2].block.Air?)
    && (n > 3 ==> core[3] == DeliveryRecorded)
    && (n > 4 ==> core[4] == PlaceCalled)
    && (n > 5 ==> core[5] == PlaceResolved)
    && (n > 6 ==> core[6] == TargetSeen(Dirt))
    && (n > 7 ==> core[7] == VerificationRecorded)
    && (n > 8 ==> core[8] == FinishAttempted(OutcomeCompleted))
    && (n > 9 ==> core[9] == FinishRecorded(OutcomeCompleted))
  }

  predicate OnTrack(s: Stage) {
    !s.Abandoned? && (s.Finishing? || s.Done? ==> s.outcome.OutcomeCompleted?)
  }

  function StoryLength(s: Stage): nat {
    match s
    case Begun => 0
    case Matched => 1
    case TargetAir => 2
    case SupportSolid => 3
    case Started => 4
    case Placing => 5
    case Placed => 6
    case TargetDirt => 7
    case Confirmed => 8
    case Abandoned => 0
    case Finishing(_) => 9
    case Done(_) => 10
  }

  predicate BeforePlacing(s: Stage) {
    s.Begun? || s.Matched? || s.TargetAir? || s.SupportSolid? || s.Started?
  }

  /** Any trace that reaches a completed finish tells exactly the successful story, in order. */
  lemma {:induction false} CompletedStory(trace: seq<Event>)
    requires Follow(trace).Some? && OnTrack(Follow(trace).value)
    ensures StorySoFar(Follow(trace).value, Core(trace))
  {
    if trace != [] {
      CompletedStory(trace[..|trace| - 1]);
    }
  }

  /** On every accepted trace, completed or not: at most one place call, never without an earlier recorded
      delivery, and at most one attempt to finish. */
  lemma {:induction false} AtMostOneOfEach(trace: seq<Event>)
    requires Follow(trace).Some?
    ensures Count(trace, PlaceCalled) <= Count(trace, DeliveryRecorded) <= 1
    ensures Count(trace, PlaceResolved) <= Count(trace, PlaceCalled)
    ensures Finishes(trace) <= 1
    ensures var s := Follow(trace).value;
            && (BeforePlacing(s) ==> Count(trace, PlaceCalled) == 0)
            && (BeforePlacing(s) && !s.Started? ==> Count(trace, DeliveryRecorded) == 0)
            && (s.Placing? ==> Count(trace, PlaceResolved) == 0)
            && (s.Started? || s.Placing? || s.Placed? ==> Count(trace, DeliveryRecorded) == 1)
            && (s.Placing? || s.Placed? ==> Count(trace, PlaceCalled) == 1)
            && (Finishes(trace) == 0 || s.Finishing? || s.Done?)
  {
    if trace != [] {
      AtMostOneOfEach(trace[..|trace| - 1]);
    }
  }

  lemma FollowAppend(trace: seq<Event>, e: Event)
    ensures Follow(trace + [e]) == if Follow(trace).None? then None else Advance(Follow(trace).value, e)
    ensures Count(trace + [e], PortStopped) == Count(trace, PortStopped) + if e == PortStopped then 1 else 0
    ensures Count(trace + [e], PlaceCalled) == Count(trace, PlaceCalled) + if e == PlaceCalled then 1 else 0
  {
    assert (trace + [e])[..|trace + [e]| - 1] == trace;
  }
}
