/** src/domain/world-observation/world-observation-store.ts: what the server has shown of the world, with a
    bounded first-in-first-out cache of blocks. */
module WorldObservation {
  import opened Basics

  datatype Availability = Disconnected | PreSpawn | Ready | DimensionTransition

  datatype BlockPosition = BlockPosition(x: int, y: int, z: int, dimension: Dimension)

  datatype Air = IsAir | NotAir | UnknownAir

  datatype ObservedBlock = ObservedBlock(position: BlockPosition, runtimeId: int, air: Air, observedAt: int)

  datatype HeldItem =
    | UnknownItem | EmptyHand | InconsistentItem
    | KnownItem(networkId: int, count: int, metadata: int, blockRuntimeId: int, stackNetworkId: Option<int>,
                extraSupported: bool)

  datatype Inventory = Inventory(selectedSlot: Option<int>, heldItem: HeldItem)

  datatype Registry = Unavailable | InconsistentRegistry | KnownRegistry(generation: int, itemCount: int, dirtId: int)

  datatype Snapshot = Snapshot(
    revision: nat, updatedAt: int, lastSequence: int, availability: Availability, generation: nat,
    dimension: Option<Dimension>, inventory: Inventory, registry: Registry, blocks: seq<ObservedBlock>)

  datatype Observation =
    | ConnectionStarted(dimension: Dimension)
    | SpawnCompleted(dimension: Dimension)
    | DimensionChanging(next: Option<Dimension>)
    | ConnectionLost
    | HeldItemObserved(selectedSlot: int, heldItem: HeldItem)
    | InventoryInvalidated
    | RegistryObserved(registry: Registry)
    | BlockObserved(position: BlockPosition, runtimeId: int, air: Air)

  datatype ObservationError = ObservationClosed | InvalidObservation | ObservationUnavailable

  const UINT16_MAX := 65_535
  const UINT32_MAX := 4_294_967_295
  const INT32_MAX := 2_147_483_647
  const EMPTY_INVENTORY := Inventory(None, UnknownItem)

  predicate ValidPosition(p: BlockPosition) { SafeInteger(p.x) && SafeInteger(p.y) && SafeInteger(p.z) }

  predicate ValidHeldItem(i: HeldItem) {
    i.KnownItem? ==>
      && i.networkId != 0 && -32768 <= i.networkId <= 32767
      && 0 < i.count <= UINT16_MAX
      && 0 <= i.metadata <= UINT32_MAX
      && 0 <= i.blockRuntimeId <= UINT32_MAX
      && (i.stackNetworkId.Some? ==> 1 <= i.stackNetworkId.value <= INT32_MAX)
  }

  predicate ValidRegistry(r: Registry, generation: nat) {
    match r
    case Unavailable => false
    case InconsistentRegistry => true
    case KnownRegistry(g, count, dirt) =>
      g == generation && 1 <= count <= MAX_SAFE_INTEGER && dirt != 0 && -32768 <= dirt <= 32767
  }

  // ---------------------------------------------------------------- the block cache

  function Without(blocks: seq<ObservedBlock>, p: BlockPosition): (r: seq<ObservedBlock>)
    ensures |r| <= |blocks|
  {
    if blocks == [] then []
    else if blocks[0].position == p then Without(blocks[1..], p)
    else [blocks[0]] + Without(blocks[1..], p)
  }

  function Find(blocks: seq<ObservedBlock>, p: BlockPosition): Option<ObservedBlock> {
    if blocks == [] then None
    else if blocks[0].position == p then Some(blocks[0])
    else Find(blocks[1..], p)
  }

  predicate Known(blocks: seq<ObservedBlock>, b: ObservedBlock) {
    var found := Find(blocks, b.position);
    found.Some? && SameSight(found.value, b)
  }

  /** Remove, push, and shift if over the limit. */
  function Push(blocks: seq<ObservedBlock>, b: ObservedBlock, maxBlocks: int): seq<ObservedBlock> {
    var pushed := Without(blocks, b.position) + [b];
    if |pushed| > maxBlocks then pushed[1..] else pushed
  }

  function Observe(blocks: seq<ObservedBlock>, b: ObservedBlock, maxBlocks: int): seq<ObservedBlock> {
    if Known(blocks, b) then blocks else Push(blocks, b, maxBlocks)
  }

  /** The cache after observations, and the observations that were pushed, in order. */
  function Cache(seen: seq<ObservedBlock>, maxBlocks: int): seq<ObservedBlock> {
    if seen == [] then []
    else Observe(Cache(seen[..|seen| - 1], maxBlocks), seen[|seen| - 1], maxBlocks)
  }

  function Pushed(seen: seq<ObservedBlock>, maxBlocks: int): seq<ObservedBlock> {
    if seen == [] then []
    else
      var before := seen[..|seen| - 1];
      var b := seen[|seen| - 1];
      if Known(Cache(before, maxBlocks), b) then Pushed(before, maxBlocks) else Pushed(before, maxBlocks) + [b]
  }

  /** The index of the latest entry for a position, or -1. */
  function Latest(list: seq<ObservedBlock>, p: BlockPosition): (i: int)
    ensures -1 <= i < |list|
    ensures i >= 0 ==> list[i].position == p
    ensures forall j :: i < j < |list| ==> list[j].position != p
  {
    if list == [] then -1
    else if list[|list| - 1].position == p then |list| - 1
    else Latest(list[..|list| - 1], p)
  }

  predicate SameSight(a: ObservedBlock, b: ObservedBlock) { a.runtimeId == b.runtimeId && a.air == b.air }

  /** Cached blocks stand in the order of their latest pushes. */
  ghost predicate InOrder(blocks: seq<ObservedBlock>, pushed: seq<ObservedBlock>) {
    forall i, j :: 0 <= i < j < |blocks| ==> Latest(pushed, blocks[i].position) < Latest(pushed, blocks[j].position)
  }

  ghost predicate Genuine(blocks: seq<ObservedBlock>, pushed: seq<ObservedBlock>) {
    forall i :: 0 <= i < |blocks| ==>
      Latest(pushed, blocks[i].position) >= 0 && pushed[Latest(pushed, blocks[i].position)] == blocks[i]
  }

  /** What is missing was pushed out: the cache is full, and all of it was pushed later. */
  ghost predicate OnlyEvicted(blocks: seq<ObservedBlock>, pushed: seq<ObservedBlock>, maxBlocks: int)
    requires maxBlocks >= 1
  {
    forall p: BlockPosition :: Latest(pushed, p) >= 0 && Find(blocks, p).None? ==>
      |blocks| == maxBlocks && Latest(pushed, p) < Latest(pushed, blocks[0].position)
  }

  ghost predicate CacheOk(blocks: seq<ObservedBlock>, pushed: seq<ObservedBlock>, maxBlocks: int)
    requires maxBlocks >= 1
  {
    && |blocks| <= maxBlocks
    && InOrder(blocks, pushed) && Genuine(blocks, pushed) && OnlyEvicted(blocks, pushed, maxBlocks)
  }

  lemma {:induction false} FindIsIn(blocks: seq<ObservedBlock>, p: BlockPosition)
    ensures Find(blocks, p).Some? ==> Find(blocks, p).value in blocks && Find(blocks, p).value.position == p
    ensures Find(blocks, p).None? <==> forall i :: 0 <= i < |blocks| ==> blocks[i].position != p
  {
    if blocks != [] {
      FindIsIn(blocks[1..], p);
      if Find(blocks, p).None? {
        forall i | 0 <= i < |blocks| ensures blocks[i].position != p {
          if i > 0 { assert blocks[i] == blocks[1..][i - 1]; }
        }
      }
    }
  }

  lemma {:induction false} WithoutMembers(blocks: seq<ObservedBlock>, p: BlockPosition)
    ensures forall b :: b in Without(blocks, p) <==> b in blocks && b.position != p
  {
    if blocks != [] {
      assert blocks == [blocks[0]] + blocks[1..];
      WithoutMembers(blocks[1..], p);
    }
  }

  lemma {:induction false} WithoutFinds(blocks: seq<ObservedBlock>, p: BlockPosition, q: BlockPosition)
    requires q != p
    ensures Find(Without(blocks, p), q) == Find(blocks, q)
  {
    if blocks != [] {
      WithoutFinds(blocks[1..], p, q);
      assert ([blocks[0]] + Without(blocks[1..], p))[1..] == Without(blocks[1..], p);
    }
  }

  lemma {:induction false} WithoutNone(blocks: seq<ObservedBlock>, p: BlockPosition)
    requires Find(blocks, p).None?
    ensures Without(blocks, p) == blocks
  {
    if blocks != [] {
      WithoutNone(blocks[1..], p);
      assert blocks == [blocks[0]] + blocks[1..];
    }
  }

  lemma Tail(blocks: seq<ObservedBlock>, pushed: seq<ObservedBlock>)
    requires blocks != [] && InOrder(blocks, pushed) && Genuine(blocks, pushed)
    ensures InOrder(blocks[1..], pushed) && Genuine(blocks[1..], pushed)
    ensures forall b :: b in blocks[1..] ==> Latest(pushed, blocks[0].position) < Latest(pushed, b.position)
  {
    forall b | b in blocks[1..] ensures Latest(pushed, blocks[0].position) < Latest(pushed, b.position) {
      var i :| 0 <= i < |blocks| - 1 && blocks[1..][i] == b;
      assert blocks[i + 1] == b;
    }
  }

  lemma Cons(b: ObservedBlock, rest: seq<ObservedBlock>, pushed: seq<ObservedBlock>)
    requires InOrder(rest, pushed) && Genuine(rest, pushed) && Genuine([b], pushed)
    requires forall c :: c in rest ==> Latest(pushed, b.position) < Latest(pushed, c.position)
    ensures InOrder([b] + rest, pushed) && Genuine([b] + rest, pushed)
  {
    assert [b][0] == b;
  }

  lemma {:induction false} WithoutInOrder(blocks: seq<ObservedBlock>, pushed: seq<ObservedBlock>, p: BlockPosition)
    requires InOrder(blocks, pushed) && Genuine(blocks, pushed)
    ensures InOrder(Without(blocks, p), pushed) && Genuine(Without(blocks, p), pushed)
    ensures Find(blocks, p).Some? ==> |Without(blocks, p)| == |blocks| - 1
  {
    if blocks != [] {
      Tail(blocks, pushed);
      WithoutInOrder(blocks[1..], pushed, p);
      if blocks[0].position == p {
        FindIsIn(blocks[1..], p);
        WithoutNone(blocks[1..], p);
      } else {
        WithoutMembers(blocks[1..], p);
        Cons(blocks[0], Without(blocks[1..], p), pushed);
      }
    }
  }

  lemma WithoutKeeps(blocks: seq<ObservedBlock>, pushed: seq<ObservedBlock>, p: BlockPosition)
    requires InOrder(blocks, pushed) && Genuine(blocks, pushed)
    ensures InOrder(Without(blocks, p), pushed) && Genuine(Without(blocks, p), pushed)
    ensures forall b :: b in Without(blocks, p) <==> b in blocks && b.position != p
    ensures forall q :: q != p ==> Find(Without(blocks, p), q) == Find(blocks, q)
    ensures Find(blocks, p).Some? ==> |Without(blocks, p)| == |blocks| - 1
    ensures Find(blocks, p).None? ==> Without(blocks, p) == blocks
  {
    WithoutInOrder(blocks, pushed, p);
    WithoutMembers(blocks, p);
    if Find(blocks, p).None? { WithoutNone(blocks, p); }
    forall q | q != p ensures Find(Without(blocks, p), q) == Find(blocks, q) { WithoutFinds(blocks, p, q); }
  }

  lemma LatestAfterPush(pushed: seq<ObservedBlock>, b: ObservedBlock, p: BlockPosition)
    ensures Latest(pushed + [b], p) == if p == b.position then |pushed| else Latest(pushed, p)
  {
    assert (pushed + [b])[..|pushed|] == pushed;
  }

  lemma PushedRanks(blocks: seq<ObservedBlock>, pushed: seq<ObservedBlock>, b: ObservedBlock, i: nat)
    requires i < |blocks| && Find(blocks, b.position).None?
    ensures Latest(pushed + [b], blocks[i].position) == Latest(pushed, blocks[i].position)
  {
    FindIsIn(blocks, b.position);
    LatestAfterPush(pushed, b, blocks[i].position);
  }

  lemma PushedInOrder(blocks: seq<ObservedBlock>, pushed: seq<ObservedBlock>, b: ObservedBlock)
    requires InOrder(blocks, pushed) && Genuine(blocks, pushed) && Find(blocks, b.position).None?
    ensures InOrder(blocks + [b], pushed + [b]) && Genuine(blocks + [b], pushed + [b])
  {
    LatestAfterPush(pushed, b, b.position);
    forall i | 0 <= i < |blocks|
      ensures Latest(pushed + [b], blocks[i].position) == Latest(pushed, blocks[i].position)
    {
      PushedRanks(blocks, pushed, b, i);
    }
  }

  /** The cache after a push, before its front is shifted off, and what is left of it afterwards. */
  lemma PushShifts(blocks: seq<ObservedBlock>, pushed: seq<ObservedBlock>, b: ObservedBlock, maxBlocks: int)
    requires maxBlocks >= 1 && CacheOk(blocks, pushed, maxBlocks)
    ensures var all := Without(blocks, b.position) + [b];
            && InOrder(all, pushed + [b]) && Genuine(all, pushed + [b])
            && Push(blocks, b, maxBlocks) == (if |all| > maxBlocks then all[1..] else all)
            && |Push(blocks, b, maxBlocks)| <= maxBlocks
  {
    WithoutKeeps(blocks, pushed, b.position);
    FindIsIn(Without(blocks, b.position), b.position);
    PushedInOrder(Without(blocks, b.position), pushed, b);
  }

  lemma ShiftedInOrder(all: seq<ObservedBlock>, pushed: seq<ObservedBlock>)
    requires all != [] && InOrder(all, pushed) && Genuine(all, pushed)
    ensures InOrder(all[1..], pushed) && Genuine(all[1..], pushed)
  {
  }

  lemma PushKeepsOk(blocks: seq<ObservedBlock>, pushed: seq<ObservedBlock>, b: ObservedBlock, maxBlocks: int)
    requires maxBlocks >= 1 && CacheOk(blocks, pushed, maxBlocks)
    ensures CacheOk(Push(blocks, b, maxBlocks), pushed + [b], maxBlocks)
  {
    PushShifts(blocks, pushed, b, maxBlocks);
    ShiftedInOrder(Without(blocks, b.position) + [b], pushed + [b]);
    var result := Push(blocks, b, maxBlocks);
    forall p: BlockPosition | Latest(pushed + [b], p) >= 0 && Find(result, p).None?
      ensures |result| == maxBlocks && Latest(pushed + [b], p) < Latest(pushed + [b], result[0].position)
    {
      PushLeavesOnlyEvicted(blocks, pushed, b, maxBlocks, p);
    }
  }

  /** What a push drops is the front of a full cache. */
  lemma PushDropsFront(blocks: seq<ObservedBlock>, pushed: seq<ObservedBlock>, b: ObservedBlock,
                       maxBlocks: int, p: BlockPosition)
    requires maxBlocks >= 1 && CacheOk(blocks, pushed, maxBlocks) && p != b.position
    requires Find(blocks, p).Some? && Find(Push(blocks, b, maxBlocks), p).None?
    ensures var result := Push(blocks, b, maxBlocks);
            |result| == maxBlocks && Latest(pushed + [b], p) < Latest(pushed + [b], result[0].position)
  {
    var left := Without(blocks, b.position);
    var all := left + [b];
    var result := Push(blocks, b, maxBlocks);
    PushShifts(blocks, pushed, b, maxBlocks);
    WithoutKeeps(blocks, pushed, b.position);
    FindIsIn(result, p);
    FindIsIn(blocks, p);
    var i :| 0 <= i < |left| && left[i] == Find(blocks, p).value;
    assert all[i].position == p;
    assert i == 0 && |all| > maxBlocks;
    assert all[1] == result[0];
  }

  /** What was missing stays behind everything cached. */
  lemma PushKeepsBehind(blocks: seq<ObservedBlock>, pushed: seq<ObservedBlock>, b: ObservedBlock,
                        maxBlocks: int, p: BlockPosition)
    requires maxBlocks >= 1 && CacheOk(blocks, pushed, maxBlocks) && p != b.position
    requires Latest(pushed, p) >= 0 && Find(blocks, p).None?
    ensures var result := Push(blocks, b, maxBlocks);
            |result| == maxBlocks && Latest(pushed + [b], p) < Latest(pushed + [b], result[0].position)
  {
    var result := Push(blocks, b, maxBlocks);
    WithoutKeeps(blocks, pushed, b.position);
    LatestAfterPush(pushed, b, p);
    LatestAfterPush(pushed, b, result[0].position);
    if result[0] != b {
      assert result[0] in Without(blocks, b.position);
      var i :| 0 <= i < |blocks| && blocks[i] == result[0];
      assert Latest(pushed, blocks[0].position) <= Latest(pushed, blocks[i].position);
    }
  }

  lemma PushLeavesOnlyEvicted(blocks: seq<ObservedBlock>, pushed: seq<ObservedBlock>, b: ObservedBlock,
                              maxBlocks: int, p: BlockPosition)
    requires maxBlocks >= 1 && CacheOk(blocks, pushed, maxBlocks)
    requires Latest(pushed + [b], p) >= 0 && Find(Push(blocks, b, maxBlocks), p).None?
    ensures var result := Push(blocks, b, maxBlocks);
            |result| == maxBlocks && Latest(pushed + [b], p) < Latest(pushed + [b], result[0].position)
  {
    var result := Push(blocks, b, maxBlocks);
    FindIsIn(result, p);
    assert result[|result| - 1] == b;
    LatestAfterPush(pushed, b, p);
    if Find(blocks, p).Some? {
      PushDropsFront(blocks, pushed, b, maxBlocks, p);
    } else {
      PushKeepsBehind(blocks, pushed, b, maxBlocks, p);
    }
  }

  lemma {:induction false} CacheIsOk(seen: seq<ObservedBlock>, maxBlocks: int)
    requires maxBlocks >= 1
    ensures CacheOk(Cache(seen, maxBlocks), Pushed(seen, maxBlocks), maxBlocks)
  {
    if seen != [] {
      var before := seen[..|seen| - 1];
      CacheIsOk(before, maxBlocks);
      PushKeepsOk(Cache(before, maxBlocks), Pushed(before, maxBlocks), seen[|seen| - 1], maxBlocks);
    }
  }

  /** Skipping a repeated sight never hides anything: per position, the latest push shows what the latest
      observation showed. */
  lemma {:induction false} PushesShowTheLatest(seen: seq<ObservedBlock>, maxBlocks: int, p: BlockPosition)
    requires maxBlocks >= 1
    ensures var pushed := Pushed(seen, maxBlocks);
            && (Latest(seen, p) >= 0 <==> Latest(pushed, p) >= 0)
            && (Latest(seen, p) >= 0 ==> SameSight(pushed[Latest(pushed, p)], seen[Latest(seen, p)]))
  {
    if seen != [] {
      var before := seen[..|seen| - 1];
      var b := seen[|seen| - 1];
      PushesShowTheLatest(before, maxBlocks, p);
      assert seen == before + [b];
      LatestAfterPush(before, b, p);
      if Known(Cache(before, maxBlocks), b) {
        CacheIsOk(before, maxBlocks);
        FindIsIn(Cache(before, maxBlocks), b.position);
      } else {
        LatestAfterPush(Pushed(before, maxBlocks), b, p);
      }
    }
  }

  /** The cache never contradicts the observations: what it holds of a position is what was last observed
      there. */
  lemma CacheAgreesWithLatest(seen: seq<ObservedBlock>, maxBlocks: int, p: BlockPosition)
    requires maxBlocks >= 1
    ensures var found := Find(Cache(seen, maxBlocks), p);
            found.Some? ==>
              found.value.position == p && Latest(seen, p) >= 0 && SameSight(found.value, seen[Latest(seen, p)])
    ensures |Cache(seen, maxBlocks)| <= maxBlocks
    ensures forall i, j :: 0 <= i < j < |Cache(seen, maxBlocks)| ==>
              Cache(seen, maxBlocks)[i].position != Cache(seen, maxBlocks)[j].position
  {
    CacheIsOk(seen, maxBlocks);
    FindIsIn(Cache(seen, maxBlocks), p);
    PushesShowTheLatest(seen, maxBlocks, p);
  }

  function Positions(seen: seq<ObservedBlock>): (ps: set<BlockPosition>) { set b | b in seen :: b.position }

  lemma {:induction false} DistinctPositions(blocks: seq<ObservedBlock>)
    requires forall i, j :: 0 <= i < j < |blocks| ==> blocks[i].position != blocks[j].position
    ensures |Positions(blocks)| == |blocks|
  {
    if blocks != [] {
      var rest := blocks[..|blocks| - 1];
      DistinctPositions(rest);
      assert blocks == rest + [blocks[|blocks| - 1]];
      assert Positions(blocks) == Positions(rest) + {blocks[|blocks| - 1].position};
    }
  }

  lemma PositionsMonotone(s: set<BlockPosition>, t: set<BlockPosition>)
    requires s <= t
    ensures |s| <= |t|
  {
    assert t == s + (t - s);
  }

  lemma MissingWasEvicted(seen: seq<ObservedBlock>, maxBlocks: int, p: BlockPosition)
    requires maxBlocks >= 1 && Latest(seen, p) >= 0 && Find(Cache(seen, maxBlocks), p).None?
    ensures var cache := Cache(seen, maxBlocks);
            var pushed := Pushed(seen, maxBlocks);
            && |cache| == maxBlocks
            && forall i :: 0 <= i < |cache| ==> cache[i] in pushed[Latest(pushed, p) + 1..]
  {
    var cache := Cache(seen, maxBlocks);
    var pushed := Pushed(seen, maxBlocks);
    CacheIsOk(seen, maxBlocks);
    PushesShowTheLatest(seen, maxBlocks, p);
    forall i | 0 <= i < |cache| ensures cache[i] in pushed[Latest(pushed, p) + 1..] {
      var at := Latest(pushed, cache[i].position);
      assert Latest(pushed, cache[0].position) <= at;
      assert pushed[Latest(pushed, p) + 1..][at - Latest(pushed, p) - 1] == cache[i];
    }
  }

  lemma CachedWasSeen(seen: seq<ObservedBlock>, maxBlocks: int, q: BlockPosition)
    requires maxBlocks >= 1 && (Latest(seen, q) >= 0 || q in Positions(Cache(seen, maxBlocks)))
    ensures q in Positions(seen)
  {
    var cache := Cache(seen, maxBlocks);
    CacheIsOk(seen, maxBlocks);
    PushesShowTheLatest(seen, maxBlocks, q);
    if q in Positions(cache) {
      var i :| 0 <= i < |cache| && cache[i].position == q;
      assert Latest(Pushed(seen, maxBlocks), q) >= 0;
    }
    assert seen[Latest(seen, q)] in seen;
  }

  /** An observed position is missing only if the cache is full of blocks all pushed after its own latest
      push; so nothing is missing while at most maxBlocks positions were observed. */
  lemma MissingOnlyIfEvicted(seen: seq<ObservedBlock>, maxBlocks: int, p: BlockPosition)
    requires maxBlocks >= 1 && Latest(seen, p) >= 0 && Find(Cache(seen, maxBlocks), p).None?
    ensures var cache := Cache(seen, maxBlocks);
            var pushed := Pushed(seen, maxBlocks);
            && |cache| == maxBlocks
            && forall i :: 0 <= i < |cache| ==> cache[i] in pushed[Latest(pushed, p) + 1..]
    ensures |Positions(seen)| > maxBlocks
  {
    var cache := Cache(seen, maxBlocks);
    MissingWasEvicted(seen, maxBlocks, p);
    FindIsIn(cache, p);
    CacheAgreesWithLatest(seen, maxBlocks, p);
    DistinctPositions(cache);
    forall q | q in Positions(cache) + {p} ensures q in Positions(seen) { CachedWasSeen(seen, maxBlocks, q); }
    PositionsMonotone(Positions(cache) + {p}, Positions(seen));
  }

  // ---------------------------------------------------------------- the store

  datatype Event = Event(revision: nat, occurredAt: int, cause: Observation, before: Snapshot, after: Snapshot)

  function Initial(at: int): Snapshot {
    Snapshot(0, at, -1, Disconnected, 0, None, EMPTY_INVENTORY, Unavailable, [])
  }

  function Emptied(s: Snapshot, availability: Availability, dimension: Option<Dimension>): Snapshot {
    s.(availability := availability, dimension := dimension, inventory := EMPTY_INVENTORY,
       registry := Unavailable, blocks := [])
  }

  function Changed(s: Snapshot, next: Snapshot): Option<Snapshot> { if next == s then None else Some(next) }

  /** What an observation makes of a snapshot before it is stamped: nothing if it shows nothing new. */
  function Draft(s: Snapshot, o: Observation, at: int, maxBlocks: int): Result<Option<Snapshot>, ObservationError> {
    match o
    case ConnectionStarted(dimension) =>
      Ok(Some(Emptied(s, PreSpawn, Some(dimension)).(generation := s.generation + 1)))
    case SpawnCompleted(dimension) =>
      if !s.availability.PreSpawn? then Err(ObservationUnavailable)
      else if s.dimension == Some(dimension) then Ok(Some(s.(availability := Ready)))
      else Ok(Some(Emptied(s, Ready, Some(dimension))))
    case DimensionChanging(next) => Ok(Some(Emptied(s, DimensionTransition, next)))
    case ConnectionLost => Ok(Some(Emptied(s, Disconnected, None)))
    case HeldItemObserved(slot, item) =>
      if !s.availability.Ready? then Err(ObservationUnavailable)
      else if !(0 <= slot <= 8) || !ValidHeldItem(item) then Err(InvalidObservation)
      else Ok(Changed(s, s.(inventory := Inventory(Some(slot), item))))
    case InventoryInvalidated =>
      if !s.availability.Ready? then Err(ObservationUnavailable)
      else Ok(Changed(s, s.(inventory := Inventory(None, InconsistentItem))))
    case RegistryObserved(registry) =>
      if !s.availability.PreSpawn? && !s.availability.Ready? then Err(ObservationUnavailable)
      else if !ValidRegistry(registry, s.generation) then Err(InvalidObservation)
      else Ok(Changed(s, s.(registry := registry)))
    case BlockObserved(position, runtimeId, air) =>
      if !s.availability.Ready? then Err(ObservationUnavailable)
      else if !ValidSight(s, position, runtimeId) then Err(InvalidObservation)
      else
        var block := ObservedBlock(position, runtimeId, air, at);
        if Known(s.blocks, block) then Ok(None)
        else Ok(Some(s.(blocks := Push(s.blocks, block, maxBlocks))))
  }

  /** An observation is refused exactly if it comes at the wrong time, or says what cannot be. */
  lemma RefusedExactly(s: Snapshot, o: Observation, at: int, maxBlocks: int)
    ensures var timely :=
              match o
              case SpawnCompleted(_) => s.availability.PreSpawn?
              case HeldItemObserved(_, _) => s.availability.Ready?
              case InventoryInvalidated => s.availability.Ready?
              case RegistryObserved(_) => s.availability.PreSpawn? || s.availability.Ready?
              case BlockObserved(_, _, _) => s.availability.Ready?
              case _ => true;
            var sane :=
              match o
              case HeldItemObserved(slot, item) => 0 <= slot <= 8 && ValidHeldItem(item)
              case RegistryObserved(registry) => ValidRegistry(registry, s.generation)
              case BlockObserved(p, id, _) =>
                && s.dimension == Some(p.dimension) && 0 <= id <= MAX_SAFE_INTEGER
                && SafeInteger(p.x) && SafeInteger(p.y) && SafeInteger(p.z)
              case _ => true;
            && (Draft(s, o, at, maxBlocks) == Err(ObservationUnavailable) <==> !timely)
            && (Draft(s, o, at, maxBlocks) == Err(InvalidObservation) <==> timely && !sane)
            && (Draft(s, o, at, maxBlocks).Ok? <==> timely && sane)
  {
  }

  /** What a world does not keep when it is entered anew. */
  predicate EntersAnew(s: Snapshot, o: Observation) {
    || o.ConnectionStarted? || o.DimensionChanging? || o.ConnectionLost?
    || (o.SpawnCompleted? && s.dimension != Some(o.dimension))
  }

  /** Field by field, what an accepted observation makes of a snapshot: availability follows the connection, a
      connection starts a generation, and what a world has shown is kept until the next one is entered; a
      spawn in the dimension that was announced is no new one. */
  lemma FieldsFollow(s: Snapshot, o: Observation, at: int, maxBlocks: int)
    requires Draft(s, o, at, maxBlocks).Ok?
    ensures var drafted := Draft(s, o, at, maxBlocks).value;
            var v := if drafted.Some? then drafted.value else s;
            && v.availability == (if o.ConnectionStarted? then PreSpawn else if o.SpawnCompleted? then Ready
                                  else if o.DimensionChanging? then DimensionTransition
                                  else if o.ConnectionLost? then Disconnected else s.availability)
            && v.generation == (if o.ConnectionStarted? then s.generation + 1 else s.generation)
            && v.dimension == (if o.ConnectionStarted? || o.SpawnCompleted? then Some(o.dimension)
                               else if o.DimensionChanging? then o.next
                               else if o.ConnectionLost? then None else s.dimension)
            && v.registry == (if EntersAnew(s, o) then Unavailable
                              else if o.RegistryObserved? then o.registry else s.registry)
            && v.inventory == (if EntersAnew(s, o) then Inventory(None, UnknownItem)
                               else if o.HeldItemObserved? then Inventory(Some(o.selectedSlot), o.heldItem)
                               else if o.InventoryInvalidated? then Inventory(None, InconsistentItem) else s.inventory)
            && (EntersAnew(s, o) ==> v.blocks == [])
            && (!EntersAnew(s, o) && !o.BlockObserved? ==> v.blocks == s.blocks)
            && v.revision == s.revision && v.updatedAt == s.updatedAt && v.lastSequence == s.lastSequence
            && (drafted.None? ==> !EntersAnew(s, o))
  {
  }

  /** What a held item and a registry must look like. */
  lemma ValidMeans(i: HeldItem, r: Registry, generation: nat)
    ensures ValidHeldItem(i) && i.KnownItem? <==>
              && i.KnownItem? && -32_768 <= i.networkId <= 32_767 && i.networkId != 0 && 1 <= i.count < 65_536
              && 0 <= i.metadata < 4_294_967_296 && 0 <= i.blockRuntimeId < 4_294_967_296
              && (i.stackNetworkId.None? || 1 <= i.stackNetworkId.value < 2_147_483_648)
    ensures !i.KnownItem? ==> ValidHeldItem(i)
    ensures ValidRegistry(r, generation) <==>
              || r.InconsistentRegistry?
              || (r.KnownRegistry? && r.generation == generation && 1 <= r.itemCount <= 9_007_199_254_740_991
                  && -32_768 <= r.dirtId <= 32_767 && r.dirtId != 0)
  {
  }

  predicate ValidSight(s: Snapshot, position: BlockPosition, runtimeId: int) {
    ValidPosition(position) && s.dimension == Some(position.dimension) && 0 <= runtimeId <= MAX_SAFE_INTEGER
  }

  /** The block observations made since the world they describe was entered. */
  function Sights(seen: seq<ObservedBlock>, s: Snapshot, o: Observation, at: int): seq<ObservedBlock> {
    match o
    case ConnectionStarted(_) => []
    case SpawnCompleted(dimension) => if s.dimension == Some(dimension) then seen else []
    case DimensionChanging(_) => []
    case ConnectionLost => []
    case BlockObserved(position, runtimeId, air) => seen + [ObservedBlock(position, runtimeId, air, at)]
    case _ => seen
  }

  /** The store's state, beside the block observations it has accepted in the present world. */
  datatype World = World(lastAccepted: int, snapshot: Snapshot, seen: seq<ObservedBlock>)

  datatype Reading = Reading(sequence: int, observation: Observation, clock: Option<int>)

  function Stamped(w: World, r: Reading, draft: Snapshot, at: int): Snapshot {
    draft.(revision := w.snapshot.revision + 1, updatedAt := at, lastSequence := r.sequence)
  }

  /** What one reading is answered by an open store: stale sequences are ignored, refused ones change nothing. */
  function Answer(w: World, r: Reading, maxBlocks: int): Result<Option<Event>, ObservationError> {
    if !SafeInteger(r.sequence) || r.sequence < 0 then Err(InvalidObservation)
    else if r.sequence <= w.lastAccepted then Ok(None)
    else if r.clock.None? then Err(InvalidObservation)
    else
      match Draft(w.snapshot, r.observation, r.clock.value, maxBlocks)
      case Err(e) => Err(e)
      case Ok(None) => Ok(None)
      case Ok(Some(draft)) =>
        var after := Stamped(w, r, draft, r.clock.value);
        Ok(Some(Event(after.revision, r.clock.value, r.observation, w.snapshot, after)))
  }

  function Step(w: World, r: Reading, maxBlocks: int): World {
    var answer := Answer(w, r, maxBlocks);
    if answer.Err? || r.sequence <= w.lastAccepted then w
    else
      World(r.sequence,
            if answer.value.Some? then answer.value.value.after else w.snapshot,
            Sights(w.seen, w.snapshot, r.observation, r.clock.value))
  }

  function RunFrom(w: World, run: seq<Reading>, maxBlocks: int): World {
    if run == [] then w else Step(RunFrom(w, run[..|run| - 1], maxBlocks), run[|run| - 1], maxBlocks)
  }

  ghost predicate Faithful(w: World, maxBlocks: int) {
    var s := w.snapshot;
    && s.blocks == Cache(w.seen, maxBlocks)
    && (!s.availability.Ready? ==> w.seen == [])
    && (s.availability.Ready? || s.availability.PreSpawn? ==> s.dimension.Some?)
    && (s.registry.KnownRegistry? ==> s.registry.generation == s.generation)
    && (!s.registry.Unavailable? ==> s.availability.Ready? || s.availability.PreSpawn?)
    && (s.inventory != EMPTY_INVENTORY ==> s.availability.Ready?)
    && s.lastSequence <= w.lastAccepted
    && (forall i :: 0 <= i < |w.seen| ==> s.dimension == Some(w.seen[i].position.dimension))
  }

  lemma CacheAfter(seen: seq<ObservedBlock>, b: ObservedBlock, maxBlocks: int)
    ensures Cache(seen + [b], maxBlocks) == Observe(Cache(seen, maxBlocks), b, maxBlocks)
  {
    assert (seen + [b])[..|seen|] == seen;
  }

  function SightOf(r: Reading): ObservedBlock
    requires r.observation.BlockObserved? && r.clock.Some?
  {
    ObservedBlock(r.observation.position, r.observation.runtimeId, r.observation.air, r.clock.value)
  }

  /** An accepted sight goes through the cache and touches nothing else. */
  lemma SightStep(w: World, r: Reading, maxBlocks: int)
    requires r.observation.BlockObserved?
    ensures var v := Step(w, r, maxBlocks);
            v != w ==>
              && r.clock.Some? && w.snapshot.availability.Ready?
              && w.snapshot.dimension == Some(SightOf(r).position.dimension)
              && v.lastAccepted == r.sequence > w.lastAccepted
              && v.seen == w.seen + [SightOf(r)]
              && v.snapshot == w.snapshot.(blocks := Observe(w.snapshot.blocks, SightOf(r), maxBlocks),
                                           revision := v.snapshot.revision, updatedAt := v.snapshot.updatedAt,
                                           lastSequence := v.snapshot.lastSequence)
              && v.snapshot.lastSequence in [w.snapshot.lastSequence, r.sequence]
  {
  }

  lemma SightIsFaithful(w: World, r: Reading, maxBlocks: int)
    requires Faithful(w, maxBlocks) && r.observation.BlockObserved?
    ensures Faithful(Step(w, r, maxBlocks), maxBlocks)
  {
    var v := Step(w, r, maxBlocks);
    SightStep(w, r, maxBlocks);
    if v != w {
      CacheAfter(w.seen, SightOf(r), maxBlocks);
      forall i | 0 <= i < |v.seen| ensures v.snapshot.dimension == Some(v.seen[i].position.dimension) {
        if i < |w.seen| { assert v.seen[i] == w.seen[i]; }
      }
    }
  }

  lemma OtherIsFaithful(w: World, r: Reading, maxBlocks: int)
    requires Faithful(w, maxBlocks) && !r.observation.BlockObserved?
    ensures Faithful(Step(w, r, maxBlocks), maxBlocks)
  {
  }

  lemma StepIsFaithful(w: World, r: Reading, maxBlocks: int)
    requires Faithful(w, maxBlocks)
    ensures Faithful(Step(w, r, maxBlocks), maxBlocks)
  {
    if r.observation.BlockObserved? { SightIsFaithful(w, r, maxBlocks); } else { OtherIsFaithful(w, r, maxBlocks); }
  }

  lemma {:induction false} RunIsFaithful(at: int, run: seq<Reading>, maxBlocks: int)
    ensures Faithful(RunFrom(World(-1, Initial(at), []), run, maxBlocks), maxBlocks)
  {
    if run != [] {
      RunIsFaithful(at, run[..|run| - 1], maxBlocks);
      StepIsFaithful(RunFrom(World(-1, Initial(at), []), run[..|run| - 1], maxBlocks), run[|run| - 1], maxBlocks);
    }
  }

  function BlockAt(s: Snapshot, p: BlockPosition): Option<ObservedBlock> {
    if !s.availability.Ready? || s.dimension != Some(p.dimension) then None else Find(s.blocks, p)
  }

  /** After any observations: a block that is given out shows what was last observed there in this world; one
      that was observed and is not given out was evicted by maxBlocks others; and a world with at most
      maxBlocks observed positions misses none. */
  lemma BlocksAreTheLatest(at: int, run: seq<Reading>, maxBlocks: int, p: BlockPosition)
    requires maxBlocks >= 1
    ensures var w := RunFrom(World(-1, Initial(at), []), run, maxBlocks);
            var found := BlockAt(w.snapshot, p);
            && |w.snapshot.blocks| <= maxBlocks
            && (found.Some? ==> Latest(w.seen, p) >= 0 && SameSight(found.value, w.seen[Latest(w.seen, p)]))
            && (found.None? && Latest(w.seen, p) >= 0 ==> |Positions(w.seen)| > maxBlocks)
            && (found.None? && Latest(w.seen, p) >= 0 ==> |w.snapshot.blocks| == maxBlocks)
  {
    var w := RunFrom(World(-1, Initial(at), []), run, maxBlocks);
    RunIsFaithful(at, run, maxBlocks);
    CacheAgreesWithLatest(w.seen, maxBlocks, p);
    if BlockAt(w.snapshot, p).None? && Latest(w.seen, p) >= 0 {
      assert w.seen[Latest(w.seen, p)].position == p;
      MissingOnlyIfEvicted(w.seen, maxBlocks, p);
    }
  }

  /** Nothing observed before a reconnect, a disconnect or a change of dimension is ever given out after it. */
  lemma NothingOutlivesItsWorld(w: World, r: Reading, maxBlocks: int)
    requires Faithful(w, maxBlocks) && r.sequence > w.lastAccepted && Answer(w, r, maxBlocks).Ok?
    requires r.observation.ConnectionStarted? || r.observation.ConnectionLost? || r.observation.DimensionChanging?
    ensures var next := Step(w, r, maxBlocks);
            && next.snapshot.blocks == [] && next.seen == [] && next.snapshot.inventory == EMPTY_INVENTORY
            && next.snapshot.registry == Unavailable && !next.snapshot.availability.Ready?
  {
  }

  class WorldObservationStore {
    const maxBlocks: int
    var closed: bool
    var lastAccepted: int
    var snapshot: Snapshot
    ghost var seen: seq<ObservedBlock>

    constructor (maxBlocks: int, at: int)
      requires maxBlocks >= 1
      ensures Valid() && !closed && this.maxBlocks == maxBlocks
      ensures State() == World(-1, Initial(at), [])
      ensures snapshot.revision == 0 && snapshot.lastSequence == -1 && snapshot.generation == 0
    {
      this.maxBlocks := maxBlocks;
      closed, lastAccepted, snapshot, seen := false, -1, Initial(at), [];
    }

    ghost function State(): World
      reads this
    {
      World(lastAccepted, snapshot, seen)
    }

    ghost predicate Valid()
      reads this
    {
      maxBlocks >= 1 && Faithful(State(), maxBlocks)
    }

    method Dispatch(sequence: int, observation: Observation, clock: Option<int>)
      returns (r: Result<Option<Event>, ObservationError>)
      requires Valid()
      modifies this
      ensures Valid() && closed == old(closed)
      ensures closed ==> r == Err(ObservationClosed) && State() == old(State())
      ensures !closed ==> var reading := Reading(sequence, observation, clock);
                          && r == Answer(old(State()), reading, maxBlocks)
                          && State() == Step(old(State()), reading, maxBlocks)
      ensures r.Ok? && r.value.Some? ==> && sequence > old(lastAccepted)
                                         && snapshot.revision == old(snapshot.revision) + 1
      ensures !(r.Ok? && r.value.Some?) ==> snapshot == old(snapshot)
    {
      ghost var before := State();
      StepIsFaithful(before, Reading(sequence, observation, clock), maxBlocks);
      if closed { return Err(ObservationClosed); }
      if !SafeInteger(sequence) || sequence < 0 { return Err(InvalidObservation); }
      if sequence <= lastAccepted { return Ok(None); }
      if clock.None? { return Err(InvalidObservation); }
      var draft := Draft(snapshot, observation, clock.value, maxBlocks);
      if draft.Err? { return Err(draft.error); }
      lastAccepted := sequence;
      seen := Sights(seen, snapshot, observation, clock.value);
      if draft.value.None? { return Ok(None); }
      var after := draft.value.value.(revision := snapshot.revision + 1, updatedAt := clock.value,
                                      lastSequence := sequence);
      r := Ok(Some(Event(after.revision, clock.value, observation, snapshot, after)));
      snapshot := after;
    }

    /** Absent, or the latest sight of that position since the world was entered. */
    method GetBlock(p: BlockPosition) returns (found: Option<ObservedBlock>)
      requires Valid()
      ensures found.Some? ==> && !closed && snapshot.availability.Ready?
                              && found.value.position == p && Latest(seen, p) >= 0
                              && SameSight(found.value, seen[Latest(seen, p)])
      ensures !closed && Latest(seen, p) >= 0 && |Positions(seen)| <= maxBlocks ==> found.Some?
      ensures !closed ==> found == BlockAt(snapshot, p)
      ensures closed ==> found == None
    {
      if closed || !snapshot.availability.Ready? || snapshot.dimension != Some(p.dimension) {
        assert Latest(seen, p) >= 0 ==> seen[Latest(seen, p)].position == p;
        return None;
      }
      found := Find(snapshot.blocks, p);
      CacheAgreesWithLatest(seen, maxBlocks, p);
      if found.None? && Latest(seen, p) >= 0 { MissingOnlyIfEvicted(seen, maxBlocks, p); }
    }

    /** The identifier learnt on the present connection, if any; the generation check never refuses one. */
    method GetItemNetworkId() returns (id: Option<int>)
      requires Valid()
      ensures id.Some? <==> !closed && snapshot.availability.Ready? && snapshot.registry.KnownRegistry?
      ensures id.Some? ==> id.value == snapshot.registry.dirtId && snapshot.registry.generation == snapshot.generation
    {
      if closed || !snapshot.availability.Ready? || !snapshot.registry.KnownRegistry?
         || snapshot.registry.generation != snapshot.generation {
        return None;
      }
      id := Some(snapshot.registry.dirtId);
    }

    method Close()
      requires Valid()
      modifies this`closed
      ensures Valid() && closed
    {
      closed := true;
    }
  }
}
