/** src/adapters/minecraft/bedrock-authoritative-frame-ownership.ts: leases on the ticks of the one input
    stream. A lease goes by its number; its holder may commit or release it at any time. */
module FrameOwnership {
  import opened Basics
  import BlockDistance
  import TaskQueue

  datatype Owner = Movement | BlockPlacement

  datatype OwnershipError =
    | OwnershipClosed | AlreadyOwned | InvalidTick | StaleObservation | DimensionMismatch | OutOfReach | SafetyStop
    | GateFailed

  datatype Point = Point(x: real, y: real, z: real)

  /** What a block placement asks for. A revision that is not an integer is None. */
  datatype Request = Request(
    tick: int, position: Option<Point>, dimension: Dimension, target: TaskQueue.BlockPosition, revision: Option<int>)

  /** What the gate's two sources say when they are asked, if they are there and answer. */
  datatype Reading = Throws | Reads(allowed: Option<bool>, latestRevision: Option<int>)

  datatype Lease = Lease(owner: Owner, tick: int, request: Option<Request>)

  datatype Commit = Commit(lease: nat, tick: int, reading: Reading)

  predicate SafeRevision(r: Option<int>) { r.Some? && 0 <= r.value <= MAX_SAFE_INTEGER }

  /** Work is allowed now, and the placement rests on the latest observation. */
  predicate PassesGate(request: Request, reading: Reading) {
    && reading.Reads?
    && reading.allowed == Some(true)
    && request.revision.Some? && 0 <= request.revision.value <= 9_007_199_254_740_991
    && reading.latestRevision == request.revision
  }

  function GateError(request: Request, reading: Reading): Option<OwnershipError> {
    if reading.Throws? then Some(GateFailed)
    else if reading.allowed != Some(true) then Some(SafetyStop)
    else if request.revision.None? || !SafeRevision(request.revision) || reading.latestRevision.None?
            || !SafeRevision(reading.latestRevision) || request.revision.value != reading.latestRevision.value
    then Some(StaleObservation)
    else None
  }

  lemma GateIsExact(request: Request, reading: Reading)
    ensures GateError(request, reading).None? <==> PassesGate(request, reading)
    ensures GateError(request, reading) == Some(GateFailed) <==> reading.Throws?
    ensures GateError(request, reading) == Some(SafetyStop) <==> reading.Reads? && reading.allowed != Some(true)
  {
  }

  /** No further than the greatest reach, in the same dimension; compared by squares. */
  predicate WithinReach(request: Request) {
    && request.position.Some? && request.target.dimension == request.dimension
    && var p, t := request.position.value, request.target;
       var dx, dy, dz := p.x - t.x as real, p.y - t.y as real, p.z - t.z as real;
       !BlockDistance.Farther(dx, dy, dz, TaskQueue.MAX_BLOCK_REACH)
  }

  /** No further than three blocks: in a straight line, and so in each coordinate. */
  lemma ReachIsThreeBlocks(request: Request)
    ensures WithinReach(request) <==>
              && request.position.Some? && request.target.dimension == request.dimension
              && var p, t := request.position.value, request.target;
                 var x, y, z := p.x - t.x as real, p.y - t.y as real, p.z - t.z as real;
                 && -3.0 <= x <= 3.0 && -3.0 <= y <= 3.0 && -3.0 <= z <= 3.0
                 && x * x + y * y + z * z <= 9.0
  {
    if request.position.Some? {
      var p, t := request.position.value, request.target;
      var x, y, z := p.x - t.x as real, p.y - t.y as real, p.z - t.z as real;
      if !BlockDistance.Farther(x, y, z, 3.0) { BlockDistance.EachWithinReach(x, y, z, 3.0); }
    }
  }

  predicate Reaching(l: Lease) {
    (l.owner.BlockPlacement? <==> l.request.Some?) && (l.request.Some? ==> WithinReach(l.request.value))
  }

  /** A commit by a settled lease of its own, whose placement was in reach and passed its gate just then. */
  predicate Proper(c: Commit, leases: seq<Lease>, settled: seq<bool>) {
    && c.lease < |leases| == |settled| && settled[c.lease] && leases[c.lease].tick == c.tick && c.tick >= 0
    && (leases[c.lease].request.Some? ==>
          PassesGate(leases[c.lease].request.value, c.reading) && WithinReach(leases[c.lease].request.value))
  }

  /** Ticks strictly increase, and no lease commits twice. */
  ghost predicate Committed(commits: seq<Commit>, leases: seq<Lease>, settled: seq<bool>, last: Option<int>) {
    && (last.None? <==> commits == [])
    && (commits != [] ==> commits[|commits| - 1].tick == last.value)
    && (forall i, j :: 0 <= i < j < |commits| ==>
          commits[i].tick < commits[j].tick && commits[i].lease != commits[j].lease)
    && (forall i :: 0 <= i < |commits| ==> Proper(commits[i], leases, settled))
  }

  lemma SettlingKeepsCommitted(commits: seq<Commit>, leases: seq<Lease>, settled: seq<bool>, last: Option<int>,
                               lease: nat)
    requires Committed(commits, leases, settled, last) && lease < |settled| == |leases|
    ensures Committed(commits, leases, settled[lease := true], last)
  {
    forall i | 0 <= i < |commits| ensures Proper(commits[i], leases, settled[lease := true]) {
      assert Proper(commits[i], leases, settled);
    }
  }

  lemma OneMoreCommit(commits: seq<Commit>, leases: seq<Lease>, settled: seq<bool>, last: Option<int>, c: Commit)
    requires Committed(commits, leases, settled, last) && c.lease < |settled| == |leases| && !settled[c.lease]
    requires Proper(c, leases, settled[c.lease := true]) && (last.Some? ==> c.tick > last.value)
    ensures Committed(commits + [c], leases, settled[c.lease := true], Some(c.tick))
  {
    SettlingKeepsCommitted(commits, leases, settled, last, c.lease);
    forall i | 0 <= i < |commits| ensures commits[i].tick < c.tick && commits[i].lease != c.lease {
      assert Proper(commits[i], leases, settled);
      if i < |commits| - 1 { assert commits[i].tick < commits[|commits| - 1].tick; }
    }
  }

  class BedrockAuthoritativeFrameOwnership {
    var leases: seq<Lease>
    var settled: seq<bool>
    var active: Option<nat>
    var lastCommittedTick: Option<int>
    var closed: bool
    ghost var commits: seq<Commit>

    constructor ()
      ensures Valid() && leases == [] && commits == [] && !closed && active.None? && lastCommittedTick.None?
    {
      leases, settled, active, lastCommittedTick, closed, commits := [], [], None, None, false, [];
    }

    /** Whatever holders do: at most one lease is active, and before a close it is the one that is not
        settled; and what was committed was committed properly. */
    ghost predicate Valid()
      reads this
    {
      && |settled| == |leases|
      && (active.Some? ==> !closed && active.value < |leases| && !settled[active.value])
      && (forall i :: 0 <= i < |leases| && !settled[i] && !closed ==> active == Some(i))
      && (active.Some? ==> Beyond(leases[active.value].tick))
      && (forall i :: 0 <= i < |leases| ==> Reaching(leases[i]))
      && Committed(commits, leases, settled, lastCommittedTick)
    }

    ghost predicate Beyond(tick: int)
      reads this
    {
      tick >= 0 && (lastCommittedTick.Some? ==> tick > lastCommittedTick.value)
    }

    method Acquire(owner: Owner, tick: int, request: Option<Request>) returns (r: Result<nat, OwnershipError>)
      requires Valid() && Reaching(Lease(owner, tick, request))
      modifies this`leases, this`settled, this`active
      ensures Valid()
      ensures r.Ok? <==> !closed && old(active).None? && Beyond(tick)
      ensures r.Ok? ==> && r.value == |old(leases)| && active == Some(r.value)
                        && leases == old(leases) + [Lease(owner, tick, request)] && settled == old(settled) + [false]
      ensures r.Err? ==> leases == old(leases) && settled == old(settled) && active == old(active)
      ensures r.Err? ==>
                r.error == if closed then OwnershipClosed else if active.Some? then AlreadyOwned else InvalidTick
    {
      if closed { return Err(OwnershipClosed); }
      if active.Some? { return Err(AlreadyOwned); }
      if tick < 0 || (lastCommittedTick.Some? && tick <= lastCommittedTick.value) { return Err(InvalidTick); }
      forall i | 0 <= i < |commits|
        ensures Proper(commits[i], leases + [Lease(owner, tick, request)], settled + [false])
      {
        assert Proper(commits[i], leases, settled);
      }
      leases := leases + [Lease(owner, tick, request)];
      settled := settled + [false];
      active := Some(|leases| - 1);
      r := Ok(|leases| - 1);
    }

    method AcquireMovement(tick: int) returns (r: Result<nat, OwnershipError>)
      requires Valid()
      modifies this`leases, this`settled, this`active
      ensures Valid()
      ensures r.Ok? <==> !closed && old(active).None? && Beyond(tick)
      ensures r.Ok? ==> && r.value == |old(leases)| && active == Some(r.value)
                        && leases == old(leases) + [Lease(Movement, tick, None)] && settled == old(settled) + [false]
      ensures r.Err? ==> leases == old(leases) && settled == old(settled) && active == old(active)
    {
      r := Acquire(Movement, tick, None);
    }

    method AcquireBlockPlacement(request: Request, reading: Reading) returns (r: Result<nat, OwnershipError>)
      requires Valid()
      modifies this`leases, this`settled, this`active
      ensures Valid()
      ensures r.Ok? <==> && PassesGate(request, reading) && WithinReach(request)
                         && !closed && old(active).None? && Beyond(request.tick)
      ensures r.Ok? ==> && r.value == |old(leases)| && active == Some(r.value)
                        && leases == old(leases) + [Lease(BlockPlacement, request.tick, Some(request))]
                        && settled == old(settled) + [false]
      ensures r.Err? ==> leases == old(leases) && settled == old(settled) && active == old(active)
      ensures r.Err? ==>
                r.error == if !PassesGate(request, reading) then GateError(request, reading).value
                           else if request.position.None? || request.target.dimension != request.dimension
                           then DimensionMismatch
                           else if !WithinReach(request) then OutOfReach
                           else if closed then OwnershipClosed
                           else if active.Some? then AlreadyOwned
                           else InvalidTick
    {
      GateIsExact(request, reading);
      var gate := GateError(request, reading);
      if gate.Some? { return Err(gate.value); }
      if request.target.dimension != request.dimension || request.position.None? { return Err(DimensionMismatch); }
      if !WithinReach(request) { return Err(OutOfReach); }
      r := Acquire(BlockPlacement, request.tick, Some(request));
    }

    /** Succeeds exactly for the active lease whose gate, asked once more, still passes; a gate that fails
        uses the lease up. */
    method CommitLease(lease: nat, reading: Reading) returns (r: Result<(), OwnershipError>)
      requires Valid() && lease < |leases|
      modifies this`settled, this`active, this`lastCommittedTick, this`commits
      ensures Valid()
      ensures r.Ok? <==> && old(active) == Some(lease)
                         && (leases[lease].request.Some? ==> PassesGate(leases[lease].request.value, reading))
      ensures r.Ok? ==> && commits == old(commits) + [Commit(lease, leases[lease].tick, reading)]
                        && lastCommittedTick == Some(leases[lease].tick)
      ensures r.Err? ==> commits == old(commits) && lastCommittedTick == old(lastCommittedTick)
      ensures r.Err? && old(active) == Some(lease) ==> r.error == GateError(leases[lease].request.value, reading).value
      ensures old(active) == Some(lease) ==> active.None? && settled == old(settled)[lease := true]
      ensures old(active) != Some(lease) ==>
                active == old(active) && settled == old(settled) && r == Err(OwnershipClosed)
    {
      if settled[lease] || active != Some(lease) || closed { return Err(OwnershipClosed); }
      var request := leases[lease].request;
      var gate := if request.Some? then GateError(request.value, reading) else None;
      if request.Some? { GateIsExact(request.value, reading); }
      if gate.Some? {
        Release(lease);
        return Err(gate.value);
      }
      OneMoreCommit(commits, leases, settled, lastCommittedTick, Commit(lease, leases[lease].tick, reading));
      settled := settled[lease := true];
      lastCommittedTick := Some(leases[lease].tick);
      active := None;
      commits := commits + [Commit(lease, leases[lease].tick, reading)];
      r := Ok(());
    }

    method Release(lease: nat)
      requires Valid() && lease < |leases|
      modifies this`settled, this`active
      ensures Valid() && settled == old(settled)[lease := true]
      ensures active == if old(active) == Some(lease) then None else old(active)
    {
      if settled[lease] { return; }
      SettlingKeepsCommitted(commits, leases, settled, lastCommittedTick, lease);
      settled := settled[lease := true];
      if active == Some(lease) { active := None; }
    }

    method Close()
      requires Valid()
      modifies this`closed, this`active
      ensures Valid() && closed && active.None?
    {
      closed := true;
      active := None;
    }
  }
}
