/** src/domain/safety/work-safety-policy.ts: whether work may start or go on in a given state. */
module SafetyPolicy {
  import opened Basics
  import opened StateStore

  datatype WorkIntent = Start | Continue

  datatype Disposition = Allow | Block | Stop

  datatype Vital = Health | Hunger

  datatype Reason =
    | Safe | OtherPlayer | StopWasRequested | RuntimeNotReady | NotSpawned
    | TelemetryUnavailable | TelemetryInvalid
    | VitalUnavailable(vital: Vital) | VitalInvalid(vital: Vital) | VitalCritical(vital: Vital)

  datatype Decision = Decision(disposition: Disposition, reason: Reason, resumable: bool)

  const MINIMUM_WORK_HEALTH: real := 10.0
  const MINIMUM_WORK_HUNGER: real := 6.0
  const MAXIMUM_TELEMETRY_VALUE: real := 20.0

  function Deny(intent: WorkIntent, reason: Reason, resumable: bool): Decision {
    Decision(if intent.Start? then Block else Stop, reason, resumable)
  }

  function VitalReason(value: Option<Number>, vital: Vital, minimum: real): Option<Reason> {
    if value.None? then Some(VitalUnavailable(vital))
    else if value.value.NotFinite? || value.value.value < 0.0 || value.value.value > MAXIMUM_TELEMETRY_VALUE
    then Some(VitalInvalid(vital))
    else if value.value.value < minimum then Some(VitalCritical(vital))
    else None
  }

  function Evaluate(s: Snapshot, intent: WorkIntent): Decision {
    var health := VitalReason(s.minecraft.health, Health, MINIMUM_WORK_HEALTH);
    var hunger := VitalReason(s.minecraft.hunger, Hunger, MINIMUM_WORK_HUNGER);
    if s.minecraft.otherPlayerDetected then Deny(intent, OtherPlayer, false)
    else if s.stopReason.Some? || Ending(s.runtime) then Deny(intent, StopWasRequested, false)
    else if !s.runtime.Ready? then Deny(intent, RuntimeNotReady, true)
    else if !s.minecraft.connection.Spawned? || !s.minecraft.spawnCompleted then Deny(intent, NotSpawned, true)
    else if s.minecraft.telemetry.Invalid? then Deny(intent, TelemetryInvalid, true)
    else if !s.minecraft.telemetry.Valid? then Deny(intent, TelemetryUnavailable, true)
    else if health.Some? then Deny(intent, health.value, true)
    else if hunger.Some? then Deny(intent, hunger.value, true)
    else Decision(Allow, Safe, true)
  }

  predicate Allowed(s: Snapshot) { Evaluate(s, Continue).disposition.Allow? }

  predicate Resumable(s: Snapshot) { Evaluate(s, Continue).resumable }

  predicate Within(n: Option<Number>, low: real) {
    n.Some? && n.value.Finite? && low <= n.value.value <= MAXIMUM_TELEMETRY_VALUE
  }

  /** Work is allowed exactly in a ready, spawned, undisturbed runtime with sufficient known vitals; the
      intent only decides how a refusal is phrased. */
  lemma AllowedExactly(s: Snapshot, intent: WorkIntent)
    ensures Evaluate(s, intent).disposition.Allow? <==> Allowed(s)
    ensures Evaluate(s, intent).resumable <==> Resumable(s)
    ensures Allowed(s) <==>
              && s.runtime.Ready? && s.stopReason.None? && !s.minecraft.otherPlayerDetected
              && s.minecraft.connection.Spawned? && s.minecraft.spawnCompleted && s.minecraft.telemetry.Valid?
              && Within(s.minecraft.health, MINIMUM_WORK_HEALTH) && Within(s.minecraft.hunger, MINIMUM_WORK_HUNGER)
    ensures forall health :: Within(health, MINIMUM_WORK_HEALTH) <==>
              health.Some? && health.value.Finite? && 10.0 <= health.value.value <= 20.0
    ensures forall hunger :: Within(hunger, MINIMUM_WORK_HUNGER) <==>
              hunger.Some? && hunger.value.Finite? && 6.0 <= hunger.value.value <= 20.0
    ensures !Allowed(s) ==> if intent.Start? then Evaluate(s, intent).disposition.Block?
                            else Evaluate(s, intent).disposition.Stop?
  {
  }

  predicate Vitals(s: Snapshot, vital: Vital, known: bool, sane: bool, enough: bool) {
    var value := if vital.Health? then s.minecraft.health else s.minecraft.hunger;
    && (known <==> value.Some?)
    && (known ==> (sane <==> value.value.Finite? && 0.0 <= value.value.value <= 20.0))
    && (known && sane ==> (enough <==> value.value.value >= if vital.Health? then 10.0 else 6.0))
  }

  /** The reason names the first thing that is wrong; only another player, a stop or an ending runtime is
      final. */
  lemma ReasonMeans(s: Snapshot, intent: WorkIntent)
    ensures var d := Evaluate(s, intent);
            var m := s.minecraft;
            var stopped := s.stopReason.Some? || s.runtime.Stopping? || s.runtime.Stopped? || s.runtime.Failed?;
            var there := m.connection.Spawned? && m.spawnCompleted;
            var working := !m.otherPlayerDetected && !stopped && s.runtime.Ready? && there && m.telemetry.Valid?;
            && (d.resumable <==> !m.otherPlayerDetected && !stopped)
            && (d.reason.OtherPlayer? <==> m.otherPlayerDetected)
            && (d.reason.StopWasRequested? <==> !m.otherPlayerDetected && stopped)
            && (d.reason.RuntimeNotReady? <==> d.resumable && !s.runtime.Ready?)
            && (d.reason.NotSpawned? <==> d.resumable && s.runtime.Ready? && !there)
            && (d.reason.TelemetryInvalid? <==> d.resumable && s.runtime.Ready? && there && m.telemetry.Invalid?)
            && (d.reason.TelemetryUnavailable? <==>
                  d.resumable && s.runtime.Ready? && there && m.telemetry.Unknown?)
            && (d.reason.Safe? <==> d.disposition.Allow?)
            && (d.reason.VitalUnavailable? ==> working && Vitals(s, d.reason.vital, false, false, false))
            && (d.reason.VitalInvalid? ==> working && Vitals(s, d.reason.vital, true, false, false))
            && (d.reason.VitalCritical? ==> working && Vitals(s, d.reason.vital, true, true, false))
            && (working && !Vitals(s, Health, true, true, true) ==>
                  (d.reason.VitalUnavailable? || d.reason.VitalInvalid? || d.reason.VitalCritical?)
                  && d.reason.vital.Health?)
  {
  }

  /** Once the policy answers that work cannot be resumed, it gives that answer in every later state. */
  lemma NeverResumedAgain(s: Snapshot, run: seq<Dispatch>)
    requires !Resumable(s)
    ensures !Resumable(After(s, run)) && !Allowed(After(s, run))
  {
    RunIsIrreversible(s, run);
  }

  const RECOVERY_TELEMETRY := TelemetryUpdate(None, None, Some(Finite(20.0)), Some(Finite(20.0)))

  /** A run of commands after which a resumable state allows work. */
  function Recovery(s: Snapshot, at: int): seq<Dispatch> {
    var clock := Some(at);
    var runtime :=
      if s.runtime.Ready? then []
      else if s.runtime.Connecting? then [Dispatch(RuntimeTransition(Ready), clock)]
      else [Dispatch(RuntimeTransition(Connecting), clock), Dispatch(RuntimeTransition(Ready), clock)];
    var connection :=
      [Dispatch(ConnectionTransition(Disconnected), clock), Dispatch(ConnectionTransition(Dialing), clock),
       Dispatch(ConnectionTransition(Connected), clock), Dispatch(SpawnUpdate(true), clock),
       Dispatch(RECOVERY_TELEMETRY, clock)];
    runtime + connection
  }

  lemma RuntimeRecovers(s: Snapshot, at: int)
    requires Resumable(s)
    ensures var runtime := Recovery(s, at)[..|Recovery(s, at)| - 5];
            After(s, runtime) == s.(runtime := Ready, revision := After(s, runtime).revision,
                                    updatedAt := After(s, runtime).updatedAt)
  {
    var runtime := Recovery(s, at)[..|Recovery(s, at)| - 5];
    var clock := Some(at);
    if s.runtime.Ready? {
      assert runtime == [];
    } else if s.runtime.Connecting? {
      assert runtime == [Dispatch(RuntimeTransition(Ready), clock)];
      assert After(Next(s, RuntimeTransition(Ready), clock), runtime[1..]) == Next(s, RuntimeTransition(Ready), clock);
    } else {
      var s1 := Next(s, RuntimeTransition(Connecting), clock);
      var s2 := Next(s1, RuntimeTransition(Ready), clock);
      assert runtime[1..] == [Dispatch(RuntimeTransition(Ready), clock)];
      assert After(s1, runtime[1..]) == After(s2, runtime[1..][1..]) == s2;
      assert After(s, runtime) == s2;
    }
  }

  lemma AfterFour(s: Snapshot, a: Command, b: Command, c: Command, d: Command, clock: Option<int>)
    ensures var run := [Dispatch(a, clock), Dispatch(b, clock), Dispatch(c, clock), Dispatch(d, clock)];
            After(s, run) == Next(Next(Next(Next(s, a, clock), b, clock), c, clock), d, clock)
  {
    var run := [Dispatch(a, clock), Dispatch(b, clock), Dispatch(c, clock), Dispatch(d, clock)];
    var s1 := Next(s, a, clock);
    var s2 := Next(s1, b, clock);
    var s3 := Next(s2, c, clock);
    assert run[1..][1..][1..][1..] == [];
    assert After(s3, run[1..][1..][1..]) == Next(s3, d, clock);
    assert After(s2, run[1..][1..]) == Next(s3, d, clock);
    assert After(s1, run[1..]) == Next(s3, d, clock);
  }

  lemma DialingRecovers(s: Snapshot, clock: Option<int>)
    requires Resumable(s) && s.runtime.Ready? && clock.Some?
    requires s.minecraft.connection.Disconnected? && !s.minecraft.spawnCompleted
    ensures Allowed(Next(Next(Next(Next(s, ConnectionTransition(Dialing), clock),
                                   ConnectionTransition(Connected), clock),
                              SpawnUpdate(true), clock), RECOVERY_TELEMETRY, clock))
  {
    var s2 := Next(s, ConnectionTransition(Dialing), clock);
    var s3 := Next(s2, ConnectionTransition(Connected), clock);
    var s4 := Next(s3, SpawnUpdate(true), clock);
    assert s4.minecraft == s.minecraft.(connection := Spawned, spawnCompleted := true);
  }

  lemma ConnectionRecovers(s: Snapshot, at: int)
    requires Sound(s) && Resumable(s) && s.runtime.Ready?
    ensures Allowed(After(s, Recovery(s, at)))
  {
    var clock := Some(at);
    var s1 := Next(s, ConnectionTransition(Disconnected), clock);
    assert Recovery(s, at)[1..] ==
           [Dispatch(ConnectionTransition(Dialing), clock), Dispatch(ConnectionTransition(Connected), clock),
            Dispatch(SpawnUpdate(true), clock), Dispatch(RECOVERY_TELEMETRY, clock)];
    AfterFour(s1, ConnectionTransition(Dialing), ConnectionTransition(Connected), SpawnUpdate(true),
              RECOVERY_TELEMETRY, clock);
    DialingRecovers(s1, clock);
  }

  /** The answer is exact: from a sound state, some continuation allows work if and only if the policy
      answers that work can be resumed. */
  lemma ResumableIsExact(s: Snapshot, at: int)
    requires Sound(s)
    ensures Resumable(s) <==> exists run :: Allowed(After(s, run))
  {
    if Resumable(s) {
      var all := Recovery(s, at);
      var runtime := all[..|all| - 5];
      var rest := all[|all| - 5..];
      assert all == runtime + rest;
      RuntimeRecovers(s, at);
      AfterAppend(s, runtime, rest);
      var ready := After(s, runtime);
      assert Recovery(ready, at) == rest;
      RunIsIrreversible(s, runtime);
      ConnectionRecovers(ready, at);
      assert Allowed(After(s, all));
    } else {
      forall run ensures !Allowed(After(s, run)) { NeverResumedAgain(s, run); }
    }
  }
}
