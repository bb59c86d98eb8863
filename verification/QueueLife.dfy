/** How long a task lives and how often it is claimed, over whole runs of the shared table; and exactly
    when the compare-and-set key is too weak to keep that count. */
module QueueLife {
  import opened TaskQueue
  import opened TaskTable
  import opened QueueRuns

  /** Every change an action commits to the task carries a later time than the row had. */
  ghost predicate Advances(w: World, a: Action, id: string) {
    var v := Apply(w, a);
    id in w.rows && id in v.rows && Tally(v.writes, id) > Tally(w.writes, id) ==>
      v.rows[id].updatedAt > w.rows[id].updatedAt
  }

  ghost predicate TimeAdvances(actions: seq<Action>, id: string) {
    forall k :: 0 <= k < |actions| ==> Advances(Run(actions[..k]), actions[k], id)
  }

  /** A command still in flight read either the present row or one that can be told apart from it. */
  ghost predicate Distinguishable(rows: Rows, p: Pending, id: string) {
    p.read.instruction.taskId == id && id in rows ==>
      p.read == rows[id] || rows[id].instruction.maxAttempts == 1 || p.read.updatedAt < rows[id].updatedAt
  }

  ghost predicate Counted(w: World, id: string) {
    if id in w.rows then
      && Tally(w.claims, id) == w.rows[id].attempts
      && Tally(w.writes, id) + Life(w.rows[id]) <= 2 * w.rows[id].instruction.maxAttempts + 2
    else Tally(w.claims, id) == 0 && Tally(w.writes, id) == 0
  }

  ghost predicate InvFor(w: World, id: string) {
    && Counted(w, id)
    && (forall op :: op in w.inflight ==> Distinguishable(w.rows, w.inflight[op], id))
    && (forall e :: e in w.executions && w.executions[e].writing.Some? ==>
          Distinguishable(w.rows, w.executions[e].writing.value, id))
  }

  lemma LandCounts(w: World, p: Pending, id: string)
    requires RowsLegal(w.rows) && PendingOk(w.rows, p)
    requires Counted(w, id) && Distinguishable(w.rows, p, id)
    ensures Counted(Land(w, p), id)
  {
    if Lands(w.rows, p) {
      LandsOnlyOnPresent(w.rows, p);
      ComputeProgress(p.command, p.read, p.occurredAt);
      LandStep(w, p);
    }
  }

  /** Pending commands come from the previous state or were read from the present row. */
  lemma PendingsAfter(w: World, a: Action, id: string)
    requires Inv(w) && InvFor(w, id)
    requires id in w.rows ==> w.rows[id].instruction.maxAttempts == 1 || Advances(w, a, id)
    requires Moves(w, Apply(w, a), id)
    ensures forall op :: op in w.inflight ==> Distinguishable(Apply(w, a).rows, w.inflight[op], id)
    ensures forall e :: e in w.executions && w.executions[e].writing.Some? ==>
              Distinguishable(Apply(w, a).rows, w.executions[e].writing.value, id)
  {
    forall e | e in w.executions && w.executions[e].writing.Some?
      ensures Distinguishable(Apply(w, a).rows, w.executions[e].writing.value, id)
    {
      assert ExecutionOk(w, e, w.executions[e]);
    }
  }

  /** The commands in flight after an action were in flight before, or were just read from the present row. */
  lemma InflightAfter(w: World, a: Action)
    ensures var v := Apply(w, a);
            forall op :: op in v.inflight ==>
              || (op in w.inflight && v.inflight[op] == w.inflight[op])
              || (a.Read? && a.taskId in w.rows && v.inflight[op].read == w.rows[a.taskId] && v.rows == w.rows)
  {
    if a.WriteBack? && a.op in w.inflight { WriteBackEffect(w, a.op); }
    if a.WriteFor? && a.execution in w.executions && w.executions[a.execution].writing.Some? {
      var p := w.executions[a.execution].writing.value;
      WriteForEffect(w, a.execution);
      SettleEffect(Land(w, p), a.execution, Lands(w.rows, p));
    }
  }

  /** The same of the commands the executions have under way. */
  ghost predicate WritingsFrom(w: World, v: World) {
    forall e :: e in v.executions && v.executions[e].writing.Some? ==>
      || (e in w.executions && v.executions[e].writing == w.executions[e].writing)
      || (v.rows == w.rows && v.executions[e].taskId in w.rows
          && v.executions[e].writing.value.read == w.rows[v.executions[e].taskId])
  }

  lemma WritingsAfterOne(w: World, e: nat, x: Execution)
    requires x.writing.Some? ==>
               || (e in w.executions && x.writing == w.executions[e].writing)
               || (x.taskId in w.rows && x.writing.value.read == w.rows[x.taskId])
    ensures WritingsFrom(w, SetExecution(w, e, x))
  {
  }

  lemma WritingsAfterStage(w: World, a: Action)
    requires a.Begin? || a.MatchTask? || a.Act? || a.ReadFor?
    ensures WritingsFrom(w, Apply(w, a))
  {
    var v := Apply(w, a);
    if v != w {
      WritingsAfterOne(w, a.execution, v.executions[a.execution]);
      assert v.executions == w.executions[a.execution := v.executions[a.execution]];
    }
  }

  lemma WritingsAfterLanding(w: World, a: Action)
    requires Written(w, a).Some?
    ensures WritingsFrom(w, Apply(w, a))
  {
    var u := Land(w, Written(w, a).value);
    assert u.executions == w.executions;
    if a.WriteBack? {
      WriteBackEffect(w, a.op);
    } else {
      WriteForEffect(w, a.execution);
      SettleEffect(u, a.execution, Lands(w.rows, Written(w, a).value));
    }
  }

  lemma WritingAfter(w: World, a: Action)
    ensures WritingsFrom(w, Apply(w, a))
  {
    if Written(w, a).Some? {
      WritingsAfterLanding(w, a);
    } else if a.Begin? || a.MatchTask? || a.Act? || a.ReadFor? {
      WritingsAfterStage(w, a);
    }
  }

  /** How the counts and the row of a task move together in one step. */
  ghost predicate Moves(w: World, v: World, id: string) {
    && Counted(v, id)
    && (id in w.rows ==> id in v.rows && v.rows[id].instruction == w.rows[id].instruction)
    && Tally(v.writes, id) >= Tally(w.writes, id)
    && (id in w.rows && Tally(v.writes, id) == Tally(w.writes, id) ==> v.rows[id] == w.rows[id])
  }

  lemma EnqueueMoves(w: World, i: TaskInstruction, at: int, id: string)
    requires RowsLegal(w.rows) && Counted(w, id)
    ensures Moves(w, Apply(w, Enqueue(i, at)), id)
  {
    if CreateQueuedTask(i, at).Ok? { CreatedIsLegal(i, at); }
  }

  lemma ClaimMoves(w: World, taskId: string, at: int, id: string)
    requires RowsLegal(w.rows) && Counted(w, id)
    ensures Moves(w, Apply(w, Claim(taskId, at)), id)
  {
    if taskId in w.rows { ClaimProgress(w.rows[taskId], at); }
  }

  lemma LandMoves(w: World, p: Pending, id: string)
    requires RowsLegal(w.rows) && PendingOk(w.rows, p)
    requires Counted(w, id) && Distinguishable(w.rows, p, id)
    ensures Moves(w, Land(w, p), id)
  {
    LandStep(w, p);
    LandCounts(w, p, id);
  }

  lemma RowsAfter(w: World, a: Action, id: string)
    requires Inv(w) && InvFor(w, id)
    ensures Moves(w, Apply(w, a), id)
  {
    WrittenOk(w, a);
    if Written(w, a).Some? {
      LandMoves(w, Written(w, a).value, id);
      WriteEffect(w, a);
    } else if a.Enqueue? {
      EnqueueMoves(w, a.instruction, a.at, id);
    } else if a.Claim? {
      ClaimMoves(w, a.taskId, a.at, id);
    } else {
      NoWriteEffect(w, a);
    }
  }

  lemma StepKeepsInvFor(w: World, a: Action, id: string)
    requires Inv(w) && InvFor(w, id)
    requires id in w.rows ==> w.rows[id].instruction.maxAttempts == 1 || Advances(w, a, id)
    ensures InvFor(Apply(w, a), id)
  {
    RowsAfter(w, a, id);
    PendingsAfter(w, a, id);
    InflightAfter(w, a);
    WritingAfter(w, a);
  }

  ghost predicate SingleOrTimed(actions: seq<Action>, id: string) {
    || (id in Run(actions).rows && Run(actions).rows[id].instruction.maxAttempts == 1)
    || TimeAdvances(actions, id)
  }

  lemma {:induction false} RunKeepsInvFor(actions: seq<Action>, id: string)
    requires id in Run(actions).rows ==> SingleOrTimed(actions, id)
    ensures InvFor(Run(actions), id)
  {
    RunKeepsInv(actions);
    if actions != [] {
      var shorter := actions[..|actions| - 1];
      var last := actions[|actions| - 1];
      RunKeepsInv(shorter);
      assert Run(actions) == Apply(Run(shorter), last);
      InstructionsStay(Run(shorter), last, id);
      if id in Run(shorter).rows {
        if TimeAdvances(actions, id) {
          assert Advances(Run(actions[..|shorter|]), actions[|shorter|], id);
          forall k | 0 <= k < |shorter| ensures Advances(Run(shorter[..k]), shorter[k], id) {
            assert shorter[..k] == actions[..k];
          }
        }
      }
      RunKeepsInvFor(shorter, id);
      StepKeepsInvFor(Run(shorter), last, id);
    }
  }

  lemma InstructionsStay(w: World, a: Action, id: string)
    requires Inv(w)
    ensures id in w.rows ==> id in Apply(w, a).rows && Apply(w, a).rows[id].instruction == w.rows[id].instruction
  {
    WrittenOk(w, a);
    if Written(w, a).Some? {
      WriteEffect(w, a);
      LandStep(w, Written(w, a).value);
    } else if !a.Enqueue? && !a.Claim? {
      NoWriteEffect(w, a);
    }
  }

  /** With one attempt, or with times that advance, in every run: a task's attempts are exactly its claims,
      never more than allowed; a queued task has one left; and its whole life has at most 2 * maxAttempts + 2
      committed changes. */
  lemma AttemptsAreClaims(actions: seq<Action>, id: string)
    requires id in Run(actions).rows && SingleOrTimed(actions, id)
    ensures var w := Run(actions);
            var item := w.rows[id];
            && Tally(w.claims, id) == item.attempts <= item.instruction.maxAttempts
            && (item.status.Queued? ==> item.attempts < item.instruction.maxAttempts)
            && Tally(w.writes, id) <= 2 * item.instruction.maxAttempts + 2
            && (item.status.Claimed? ==> Tally(w.claims, id) >= 1)
  {
    RunKeepsInv(actions);
    RunKeepsInvFor(actions, id);
  }

  /** A run in which a release computed from the first claim lands on the second: both were stamped alike. */
  function StaleRelease(i: TaskInstruction): seq<Action> {
    StaleReleasePrefix(i) + [WriteBack(1)] + [Claim(i.taskId, 1)] + [WriteBack(0)]
  }

  function StaleReleasePrefix(i: TaskInstruction): seq<Action> {
    [] + [Enqueue(i, 0)] + [Claim(i.taskId, 1)] + [Read(0, i.taskId, Release, 5)] + [Read(1, i.taskId, Release, 2)]
  }

  lemma RunOneMore(actions: seq<Action>, a: Action)
    ensures Run(actions + [a]) == Apply(Run(actions), a)
  {
    assert (actions + [a])[..|actions|] == actions;
  }

  lemma StaleReleasePrefixRuns(i: TaskInstruction, first: TaskItem)
    requires ValidInstruction(i)
    requires first == ClaimTask(CreateQueuedTask(i, 0).value, 1).value
    ensures Run(StaleReleasePrefix(i)) ==
            INITIAL.(rows := map[i.taskId := first],
                     inflight := map[0 := Pending(Release, first, 5), 1 := Pending(Release, first, 2)],
                     claims := map[i.taskId := 1], writes := map[i.taskId := 1])
  {
    var id := i.taskId;
    var created := CreateQueuedTask(i, 0).value;
    RunOneMore([], Enqueue(i, 0));
    var s1: seq<Action> := [] + [Enqueue(i, 0)];
    assert Run(s1) == INITIAL.(rows := map[id := created]);
    RunOneMore(s1, Claim(id, 1));
    var s2 := s1 + [Claim(id, 1)];
    assert Run(s2) == INITIAL.(rows := map[id := first], claims := map[id := 1], writes := map[id := 1]);
    RunOneMore(s2, Read(0, id, Release, 5));
    RunOneMore(s2 + [Read(0, id, Release, 5)], Read(1, id, Release, 2));
  }

  /** The second release lands, and the task is claimed again at the time of its first claim. */
  lemma StaleReleaseSecondClaim(i: TaskInstruction, first: TaskItem, released: TaskItem, second: TaskItem)
    requires ValidInstruction(i) && i.maxAttempts >= 2
    requires first == ClaimTask(CreateQueuedTask(i, 0).value, 1).value
    requires released == ReleaseTask(first, 2).value && second == ClaimTask(released, 1).value
    ensures var w := Run(StaleReleasePrefix(i) + [WriteBack(1)] + [Claim(i.taskId, 1)]);
            && w.rows == map[i.taskId := second] && w.inflight == map[0 := Pending(Release, first, 5)]
            && Tally(w.claims, i.taskId) == 2
  {
    var s4 := StaleReleasePrefix(i);
    StaleReleasePrefixRuns(i, first);
    RunOneMore(s4, WriteBack(1));
    WriteBackEffect(Run(s4), 1);
    var w5 := Run(s4 + [WriteBack(1)]);
    assert w5.rows == map[i.taskId := released] && w5.inflight == map[0 := Pending(Release, first, 5)];
    RunOneMore(s4 + [WriteBack(1)], Claim(i.taskId, 1));
  }

  lemma StaleReleaseLands(i: TaskInstruction)
    requires ValidInstruction(i) && i.maxAttempts >= 2
    ensures var w := Run(StaleRelease(i));
            i.taskId in w.rows && w.rows[i.taskId].instruction == i
            && w.rows[i.taskId].attempts == 1 && Tally(w.claims, i.taskId) == 2
  {
    var first := ClaimTask(CreateQueuedTask(i, 0).value, 1).value;
    var released := ReleaseTask(first, 2).value;
    var second := ClaimTask(released, 1).value;
    StaleReleaseSecondClaim(i, first, released, second);
    var before := StaleReleasePrefix(i) + [WriteBack(1)] + [Claim(i.taskId, 1)];
    RunOneMore(before, WriteBack(0));
    WriteBackEffect(Run(before), 0);
    assert Land(Run(before), Pending(Release, first, 5)).rows[i.taskId].attempts == 1;
  }

  /** Whatever the clocks do, attempts count the claims of every task of an instruction exactly if that
      instruction allows a single attempt. */
  lemma ClaimsCountedWhateverTheClocks(i: TaskInstruction)
    requires ValidInstruction(i)
    ensures (forall actions :: var w := Run(actions);
               i.taskId in w.rows && w.rows[i.taskId].instruction == i ==>
                 Tally(w.claims, i.taskId) == w.rows[i.taskId].attempts)
            <==> i.maxAttempts == 1
  {
    if i.maxAttempts == 1 {
      forall actions | i.taskId in Run(actions).rows && Run(actions).rows[i.taskId].instruction == i
        ensures Tally(Run(actions).claims, i.taskId) == Run(actions).rows[i.taskId].attempts
      {
        AttemptsAreClaims(actions, i.taskId);
      }
    } else {
      StaleReleaseLands(i);
    }
  }
}
