/** Whole runs of one outbox under any number of dispatchers (src/application/notifications/outbox-dispatcher.ts).
    Claiming, sending, the end of a send and marking are separate steps: clocks may read anything, leases
    expire, a slow send may end after others, the repository may fail with or without effect, a dispatcher
    may crash anywhere, and new records may be persisted at any time. */
module OutboxRuns {
  import opened Basics
  import opened Outbox

  /** One claim: the record claimed and which attempt on it this is. */
  datatype Token = Token(key: Key, attempt: int)

  datatype Activity =
    | Idle
    | Claimed(token: Token)
    | Sending(token: Token)
    | Resolved(token: Token)
    | Rejected(token: Token)

  datatype Dispatcher = Dispatcher(workerId: string, maxAttempts: int, leaseDurationMs: int, activity: Activity)

  datatype World = World(
    records: Records,
    dispatchers: map<nat, Dispatcher>,
    claims: seq<Token>,
    /** Under which worker id each claim was made. */
    claimants: map<Token, string>,
    sends: seq<Token>,
    resolved: set<Token>,
    marks: seq<Token>)

  datatype Action =
    | Enqueue(key: Key, message: Message)
    | Join(d: nat, workerId: string, maxAttempts: int, leaseDurationMs: int)
    | ClaimNext(d: nat, now: int)
    | Send(d: nat)
    | Resolve(d: nat)
    | Reject(d: nat)
    | MarkDelivered(d: nat, at: int, effective: bool, throws: bool)
    | MarkFailed(d: nat, at: int, next: Option<int>, code: string, effective: bool)
    | Crash(d: nat)

  function Start(records: Records): World { World(records, map[], [], map[], [], {}, []) }

  function WithActivity(w: World, d: nat, a: Activity): World
    requires d in w.dispatchers
  {
    w.(dispatchers := w.dispatchers[d := w.dispatchers[d].(activity := a)])
  }

  ghost predicate Step(w: World, a: Action, v: World) {
    match a
    case Enqueue(k, message) => v == if k in w.records then w else w.(records := w.records[k := Enqueued(message)])
    case Join(d, id, max, lease) =>
      d !in w.dispatchers && max > 0 && lease > 0
      && v == w.(dispatchers := w.dispatchers[d := Dispatcher(id, max, lease, Idle)])
    case ClaimNext(d, now) =>
      d in w.dispatchers && w.dispatchers[d].activity.Idle?
      && var x := w.dispatchers[d];
      exists m: Records, r: Option<(Key, Record)> ::
        && ClaimStep(w.records, ClaimCall(x.workerId, now, x.leaseDurationMs, x.maxAttempts), m, r)
        && v == if r.None? then w.(records := m)
                else TakeClaim(w.(records := m), d, Token(r.value.0, r.value.1.attempts))
    case Send(d) =>
      d in w.dispatchers && w.dispatchers[d].activity.Claimed?
      && var t := w.dispatchers[d].activity.token;
      v == WithActivity(w.(sends := w.sends + [t]), d, Sending(t))
    case Resolve(d) =>
      d in w.dispatchers && w.dispatchers[d].activity.Sending?
      && var t := w.dispatchers[d].activity.token;
      v == WithActivity(w.(resolved := w.resolved + {t}), d, Resolved(t))
    case Reject(d) =>
      d in w.dispatchers && w.dispatchers[d].activity.Sending?
      && v == WithActivity(w, d, Rejected(w.dispatchers[d].activity.token))
    case MarkDelivered(d, at, effective, throws) =>
      d in w.dispatchers && w.dispatchers[d].activity.Resolved? && (effective || throws)
      && var x := w.dispatchers[d];
      var k := x.activity.token.key;
      var after := WithActivity(w, d, if throws then Rejected(x.activity.token) else Idle);
      v == if effective then
             NoteMark(after.(records := MarkDeliveredStep(w.records, k, x.workerId, at)), w.records, k, x.workerId)
           else after
    case MarkFailed(d, at, next, code, effective) =>
      d in w.dispatchers && w.dispatchers[d].activity.Rejected?
      && var x := w.dispatchers[d];
      var k := x.activity.token.key;
      var after := WithActivity(w, d, Idle);
      v == if effective then
             NoteMark(after.(records := MarkFailedStep(w.records, k, x.workerId, at, next, code)),
                      w.records, k, x.workerId)
           else after
    case Crash(d) => v == w.(dispatchers := w.dispatchers - {d})
  }

  function TakeClaim(w: World, d: nat, t: Token): World
    requires d in w.dispatchers
  {
    WithActivity(w.(claims := w.claims + [t], claimants := w.claimants[t := w.dispatchers[d].workerId]), d, Claimed(t))
  }

  /** An accepted mark settles the record's latest claim. */
  function NoteMark(w: World, before: Records, k: Key, workerId: string): World {
    if Holds(before, k, workerId) then w.(marks := w.marks + [Token(k, before[k].attempts)]) else w
  }

  /** A run: the states it passes through, each reached from the one before. */
  ghost predicate IsRun(states: seq<World>, actions: seq<Action>) {
    && |states| == |actions| + 1
    && forall i :: 0 <= i < |actions| ==> Step(states[i], actions[i], states[i + 1])
  }

  // ---------------------------------------------------------------- what every run keeps

  ghost predicate RecordsOk(m: Records) { forall k :: k in m ==> RecordOk(m[k]) }

  ghost predicate NoDuplicates(ts: seq<Token>) { forall i, j :: 0 <= i < j < |ts| ==> ts[i] != ts[j] }

  /** A token of a claim really made. */
  ghost predicate Issued(w: World, t: Token) {
    t.key in w.records && 1 <= t.attempt <= w.records[t.key].attempts && t in w.claimants
  }

  ghost predicate DispatcherOk(w: World, d: nat, x: Dispatcher) {
    && x.maxAttempts > 0 && x.leaseDurationMs > 0
    && (!x.activity.Idle? ==> Issued(w, x.activity.token) && w.claimants[x.activity.token] == x.workerId)
    && (x.activity.Claimed? ==> x.activity.token !in w.sends)
    && (x.activity.Resolved? ==> x.activity.token in w.resolved)
    && (x.activity.Sending? || x.activity.Resolved? || x.activity.Rejected? ==> x.activity.token in w.sends)
  }

  ghost predicate TokensOk(w: World) {
    && (forall t :: t in w.claims ==> Issued(w, t))
    && (forall t :: t in w.sends ==> Issued(w, t))
    && (forall t :: t in w.resolved ==> t in w.sends)
    && (forall t :: t in w.marks ==> Issued(w, t))
    && NoDuplicates(w.claims) && NoDuplicates(w.sends) && NoDuplicates(w.marks)
    && (forall t :: t in w.claimants ==> t.key in w.records && t.attempt <= w.records[t.key].attempts)
  }

  ghost predicate KeysOk(w: World) {
    forall k :: k in w.records ==>
      && (w.records[k].attempts > 0 ==> Token(k, w.records[k].attempts) in w.claimants)
      && (w.records[k].status.Delivering? ==>
            && w.records[k].attempts > 0
            && w.records[k].leaseOwner == Some(w.claimants[Token(k, w.records[k].attempts)])
            && Token(k, w.records[k].attempts) !in w.marks)
      && (w.records[k].status.Delivered? ==> exists n :: Token(k, n) in w.resolved)
  }

  /** Claims never go back in the order of the outbox. */
  ghost predicate ClaimsInOrder(w: World) {
    forall i, j :: 0 <= i < j < |w.claims| && w.claims[i].key in w.records && w.claims[j].key in w.records ==>
      w.claims[i].key == w.claims[j].key || Before(w.records, w.claims[i].key, w.claims[j].key)
  }

  /** No two dispatchers work on the same claim. */
  ghost predicate Apart(x: Dispatcher, y: Dispatcher) {
    x.activity.Idle? || y.activity.Idle? || x.activity.token != y.activity.token
  }

  ghost predicate Inv(w: World) {
    && RecordsOk(w.records)
    && (forall d :: d in w.dispatchers ==> DispatcherOk(w, d, w.dispatchers[d]))
    && (forall d, e :: d in w.dispatchers && e in w.dispatchers && d != e ==> Apart(w.dispatchers[d], w.dispatchers[e]))
    && TokensOk(w)
    && KeysOk(w)
  }

  /** What the order of the records adds; it holds as long as every record is persisted in its turn. */
  ghost predicate Ordered(w: World) { Shape(w.records) && ClaimsInOrder(w) }

  /** No record that comes after a new one has been touched. */
  ghost predicate InTurn(m: Records, k: Key, message: Message) {
    forall b :: b in m && Earlier(k, message, b, m[b].message) ==> Untouched(m[b])
  }

  ghost predicate EnqueuesInTurn(m: Records, a: Action) { a.Enqueue? && a.key !in m ==> InTurn(m, a.key, a.message) }

  /** How the records of a fixed set may change in one step. */
  ghost predicate RecordsStep(m: Records, m': Records) {
    m'.Keys == m.Keys && forall k :: k in m ==> RecordStep(m[k], m'[k])
  }

  lemma ClaimTaken(w: World, d: nat, c: ClaimCall, m: Records, r: Option<(Key, Record)>)
    returns (k: Key)
    requires Inv(w) && Sensible(c) && ClaimStep(w.records, c, m, r)
    requires m != w.records || r.Some?
    ensures IsHead(w.records, k) && m == w.records[k := ClaimRecord(w.records[k], c)]
    ensures r == if Claims(w.records[k], c) then Some((k, ClaimRecord(w.records[k], c))) else None
    ensures RecordsStep(w.records, m)
    ensures Shape(w.records) ==> Shape(m)
  {
    k :| IsHead(w.records, k) && m == w.records[k := ClaimRecord(w.records[k], c)]
         && r == if Claims(w.records[k], c) then Some((k, ClaimRecord(w.records[k], c))) else None;
    ClaimRecordStep(w.records[k], c);
    if Shape(w.records) { HeadStepKeepsShape(w.records, k, ClaimRecord(w.records[k], c)); }
    OneRecordSteps(w.records, k, ClaimRecord(w.records[k], c));
  }

  lemma OneRecordSteps(m: Records, k: Key, r: Record)
    requires RecordsOk(m) && k in m && RecordStep(m[k], r)
    ensures RecordsStep(m, m[k := r])
  {
  }

  lemma OrderStays(m: Records, m': Records, a: Key, b: Key)
    requires a in m && b in m && a in m' && b in m' && RecordStep(m[a], m'[a]) && RecordStep(m[b], m'[b])
    ensures Before(m', a, b) <==> Before(m, a, b)
  {
  }

  /** Records that step without a new attempt: whatever was said about tokens stays true. */
  lemma TokensStay(w: World, v: World)
    requires TokensOk(w) && RecordsStep(w.records, v.records)
    requires v == w.(records := v.records)
    ensures TokensOk(v)
    ensures forall d :: d in w.dispatchers && DispatcherOk(w, d, w.dispatchers[d]) ==>
              DispatcherOk(v, d, v.dispatchers[d])
  {
  }

  /** A record turned down or failed at the claim: no attempt is made. */
  lemma UnclaimedKeepsInv(w: World, k: Key, r: Record)
    requires Inv(w) && IsHead(w.records, k)
    requires RecordsStep(w.records, w.records[k := r])
    requires r == w.records[k] || (r.status.Failed? && r.attempts == w.records[k].attempts)
    ensures Inv(w.(records := w.records[k := r]))
  {
    TokensStay(w, w.(records := w.records[k := r]));
  }

  /** The token of a new claim was never seen before. */
  lemma NewToken(w: World, k: Key)
    requires Inv(w) && IsHead(w.records, k)
    ensures var t := Token(k, w.records[k].attempts + 1);
            t !in w.claimants && t !in w.claims && t !in w.sends && t !in w.marks && t !in w.resolved
  {
  }

  /** And its record is no earlier than any claimed so far. */
  lemma ClaimedBefore(w: World, k: Key)
    requires Inv(w) && Shape(w.records) && IsHead(w.records, k)
    ensures forall c :: c in w.claims ==> c.key in w.records && (c.key == k || Before(w.records, c.key, k))
  {
    forall c | c in w.claims ensures c.key in w.records && (c.key == k || Before(w.records, c.key, k)) {
      assert Issued(w, c);
      BeforeTotal(w.records, c.key, k);
    }
  }

  lemma ClaimedTokensOk(w: World, d: nat, k: Key, r: Record)
    requires TokensOk(w) && d in w.dispatchers && k in w.records && r.attempts == w.records[k].attempts + 1 >= 1
    requires Token(k, r.attempts) !in w.claims
    ensures TokensOk(TakeClaim(w.(records := w.records[k := r]), d, Token(k, r.attempts)))
  {
    var v := TakeClaim(w.(records := w.records[k := r]), d, Token(k, r.attempts));
    forall t | t in v.claims ensures Issued(v, t) {
      if t in w.claims { assert Issued(w, t); }
    }
    forall t | t in v.sends ensures Issued(v, t) { assert Issued(w, t); }
    forall t | t in v.marks ensures Issued(v, t) { assert Issued(w, t); }
  }

  lemma ClaimedInOrder(w: World, d: nat, k: Key, r: Record)
    requires ClaimsInOrder(w) && d in w.dispatchers && k in w.records
    requires RecordsStep(w.records, w.records[k := r])
    requires forall c :: c in w.claims ==> c.key in w.records && (c.key == k || Before(w.records, c.key, k))
    ensures ClaimsInOrder(TakeClaim(w.(records := w.records[k := r]), d, Token(k, r.attempts)))
  {
    var m := w.records[k := r];
    var v := TakeClaim(w.(records := m), d, Token(k, r.attempts));
    forall i, j | 0 <= i < j < |v.claims| && v.claims[i].key in m && v.claims[j].key in m
      ensures v.claims[i].key == v.claims[j].key || Before(m, v.claims[i].key, v.claims[j].key)
    {
      OrderStays(w.records, m, v.claims[i].key, v.claims[j].key);
      if j == |w.claims| { assert v.claims[i] in w.claims; }
    }
  }

  lemma ClaimedDispatchersOk(w: World, d: nat, k: Key, r: Record)
    requires Inv(w) && d in w.dispatchers && IsHead(w.records, k)
    requires RecordsStep(w.records, w.records[k := r])
    requires r.attempts == w.records[k].attempts + 1
    ensures var v := TakeClaim(w.(records := w.records[k := r]), d, Token(k, r.attempts));
            && (forall e :: e in v.dispatchers ==> DispatcherOk(v, e, v.dispatchers[e]))
            && (forall e, f :: e in v.dispatchers && f in v.dispatchers && e != f ==>
                  Apart(v.dispatchers[e], v.dispatchers[f]))
  {
    var v := TakeClaim(w.(records := w.records[k := r]), d, Token(k, r.attempts));
    NewToken(w, k);
    forall e | e in v.dispatchers ensures DispatcherOk(v, e, v.dispatchers[e]) {
      assert DispatcherOk(w, e, w.dispatchers[e]);
    }
    forall e, f | e in v.dispatchers && f in v.dispatchers && e != f ensures Apart(v.dispatchers[e], v.dispatchers[f]) {
      assert DispatcherOk(w, e, w.dispatchers[e]) && DispatcherOk(w, f, w.dispatchers[f]);
      assert Apart(w.dispatchers[e], w.dispatchers[f]);
    }
  }

  lemma ClaimedKeysOk(w: World, d: nat, k: Key, r: Record)
    requires KeysOk(w) && TokensOk(w) && d in w.dispatchers && k in w.records
    requires Token(k, r.attempts) !in w.claimants && Token(k, r.attempts) !in w.marks
    requires r.attempts > 0 && r.status.Delivering? && r.leaseOwner == Some(w.dispatchers[d].workerId)
    ensures KeysOk(TakeClaim(w.(records := w.records[k := r]), d, Token(k, r.attempts)))
  {
  }

  lemma ClaimedKeepsInv(w: World, d: nat, k: Key, r: Record)
    requires Inv(w) && d in w.dispatchers && w.dispatchers[d].activity.Idle? && IsHead(w.records, k)
    requires RecordsStep(w.records, w.records[k := r])
    requires r.attempts == w.records[k].attempts + 1 && r.status.Delivering?
    requires r.leaseOwner == Some(w.dispatchers[d].workerId)
    ensures Inv(TakeClaim(w.(records := w.records[k := r]), d, Token(k, r.attempts)))
  {
    NewToken(w, k);
    assert RecordOk(w.records[k]);
    ClaimedTokensOk(w, d, k, r);
    ClaimedDispatchersOk(w, d, k, r);
    ClaimedKeysOk(w, d, k, r);
  }

  /** A claim leaves all as it is, or changes the head, and takes it or does not. */
  ghost predicate HeadClaimed(w: World, d: nat, k: Key, r: Record, v: World)
    requires d in w.dispatchers
  {
    && IsHead(w.records, k) && RecordsStep(w.records, w.records[k := r])
    && (Shape(w.records) ==> Shape(w.records[k := r]))
    && if r.attempts == w.records[k].attempts + 1
       then && v == TakeClaim(w.(records := w.records[k := r]), d, Token(k, r.attempts))
            && r.status.Delivering? && r.leaseOwner == Some(w.dispatchers[d].workerId)
       else && v == w.(records := w.records[k := r]) && r.attempts == w.records[k].attempts
            && (r == w.records[k] || r.status.Failed?)
  }

  lemma ClaimOutcome(w: World, d: nat, now: int, v: World) returns (k: Key, r: Record)
    requires Inv(w) && Step(w, ClaimNext(d, now), v)
    ensures v == w || HeadClaimed(w, d, k, r, v)
  {
    var x := w.dispatchers[d];
    assert DispatcherOk(w, d, x);
    var c := ClaimCall(x.workerId, now, x.leaseDurationMs, x.maxAttempts);
    var m: Records, taken: Option<(Key, Record)> :|
      && ClaimStep(w.records, c, m, taken)
      && v == if taken.None? then w.(records := m)
              else TakeClaim(w.(records := m), d, Token(taken.value.0, taken.value.1.attempts));
    k, r := *, *;
    if m != w.records || taken.Some? {
      k := ClaimTaken(w, d, c, m, taken);
      r := ClaimRecord(w.records[k], c);
      ClaimRecordStep(w.records[k], c);
    }
  }

  lemma ClaimKeepsInv(w: World, d: nat, now: int, v: World)
    requires Inv(w) && Step(w, ClaimNext(d, now), v)
    ensures Inv(v) && RecordsStep(w.records, v.records)
  {
    var k, r := ClaimOutcome(w, d, now, v);
    SameRecordsStep(w.records);
    if v != w {
      if r.attempts == w.records[k].attempts + 1 { ClaimedKeepsInv(w, d, k, r); } else { UnclaimedKeepsInv(w, k, r); }
    }
  }

  lemma SameRecordsStep(m: Records)
    requires RecordsOk(m)
    ensures RecordsStep(m, m)
  {
  }

  /** A dispatcher going on with its own claim. */
  lemma ActivityKeepsInv(w: World, v: World, d: nat, a: Activity)
    requires Inv(w) && d in w.dispatchers
    requires a.Idle? || (!w.dispatchers[d].activity.Idle? && a.token == w.dispatchers[d].activity.token)
    requires v == WithActivity(w.(sends := v.sends, resolved := v.resolved), d, a)
    requires TokensOk(v)
    requires forall t :: t in w.resolved ==> t in v.resolved
    requires forall t :: t in w.sends ==> t in v.sends
    requires forall t :: t in v.sends && t !in w.sends ==>
               !w.dispatchers[d].activity.Idle? && t == w.dispatchers[d].activity.token
    requires DispatcherOk(v, d, v.dispatchers[d])
    ensures Inv(v)
  {
    forall e | e in v.dispatchers ensures DispatcherOk(v, e, v.dispatchers[e]) {
      assert DispatcherOk(w, e, w.dispatchers[e]);
      if e != d { assert Apart(w.dispatchers[d], w.dispatchers[e]); }
    }
    forall e, f | e in v.dispatchers && f in v.dispatchers && e != f ensures Apart(v.dispatchers[e], v.dispatchers[f]) {
      assert Apart(w.dispatchers[e], w.dispatchers[f]);
    }
    forall k | k in v.records && v.records[k].status.Delivered? ensures exists n :: Token(k, n) in v.resolved {
      var n :| Token(k, n) in w.resolved;
      assert Token(k, n) in v.resolved;
    }
  }

  lemma SendKeepsInv(w: World, d: nat, v: World)
    requires Inv(w) && Step(w, Send(d), v)
    ensures Inv(v) && v.records == w.records
  {
    assert DispatcherOk(w, d, w.dispatchers[d]);
    ActivityKeepsInv(w, v, d, v.dispatchers[d].activity);
  }

  lemma SettlingKeepsInv(w: World, a: Action, v: World)
    requires Inv(w) && Step(w, a, v) && (a.Resolve? || a.Reject?)
    ensures Inv(v) && v.records == w.records
  {
    assert DispatcherOk(w, a.d, w.dispatchers[a.d]);
    ActivityKeepsInv(w, v, a.d, v.dispatchers[a.d].activity);
  }

  /** What a mark may make of the record its worker holds. */
  ghost predicate Settles(w: World, k: Key, r: Record)
    requires k in w.records
  {
    && RecordStep(w.records[k], r) && r.attempts == w.records[k].attempts && !r.status.Delivering?
    && (r.status.Delivered? ==> exists n :: Token(k, n) in w.resolved)
  }

  lemma HolderMarkRecords(w: World, k: Key, workerId: string, r: Record)
    requires Inv(w) && Holds(w.records, k, workerId) && Settles(w, k, r)
    ensures var m := w.records[k := r];
            RecordsStep(w.records, m) && RecordsOk(m) && (Shape(w.records) ==> Shape(m))
  {
    SameRecordsStep(w.records);
    if Shape(w.records) {
      StartedIsHead(w.records, k);
      HeadStepKeepsShape(w.records, k, r);
    }
  }

  /** The mark of whoever holds the lease settles the claim. */
  lemma HolderMarkKeepsInv(w: World, k: Key, workerId: string, r: Record)
    requires Inv(w) && Holds(w.records, k, workerId) && Settles(w, k, r)
    ensures Inv(NoteMark(w.(records := w.records[k := r]), w.records, k, workerId))
    ensures RecordsStep(w.records, w.records[k := r])
  {
    HolderMarkRecords(w, k, workerId, r);
    var u := w.(records := w.records[k := r]);
    TokensStay(w, u);
    HolderMarkTokens(w, k, u);
    HolderMarkDispatchers(u, NoteMark(u, w.records, k, workerId));
  }

  lemma HolderMarkDispatchers(u: World, v: World)
    requires v == u.(marks := v.marks)
    requires forall d :: d in u.dispatchers ==> DispatcherOk(u, d, u.dispatchers[d])
    ensures forall d :: d in v.dispatchers ==> DispatcherOk(v, d, v.dispatchers[d])
  {
    forall d | d in v.dispatchers ensures DispatcherOk(v, d, v.dispatchers[d]) {
      assert DispatcherOk(u, d, u.dispatchers[d]);
    }
  }

  lemma HolderMarkTokens(w: World, k: Key, u: World)
    requires Inv(w) && TokensOk(u) && k in w.records && w.records[k].status.Delivering?
    requires u == w.(records := u.records) && k in u.records && u.records[k].attempts == w.records[k].attempts
    requires u.records == w.records[k := u.records[k]] && !u.records[k].status.Delivering?
    requires u.records[k].status.Delivered? ==> exists n :: Token(k, n) in w.resolved
    ensures var v := u.(marks := w.marks + [Token(k, w.records[k].attempts)]);
            TokensOk(v) && KeysOk(v)
  {
    assert Token(k, w.records[k].attempts) !in w.marks;
  }

  /** A mark under a lease held by someone else changes no record. */
  lemma MarkKeepsInv(w: World, k: Key, workerId: string, r: Record)
    requires Inv(w) && k in w.records
    requires Holds(w.records, k, workerId) ==> Settles(w, k, r)
    ensures var m := if Holds(w.records, k, workerId) then w.records[k := r] else w.records;
            && Inv(NoteMark(w.(records := m), w.records, k, workerId)) && RecordsStep(w.records, m)
            && (Shape(w.records) ==> Shape(m))
  {
    if Holds(w.records, k, workerId) {
      HolderMarkRecords(w, k, workerId, r);
      HolderMarkKeepsInv(w, k, workerId, r);
    } else {
      SameRecordsStep(w.records);
    }
  }

  lemma BackToIdleKeepsInv(w: World, d: nat, a: Activity)
    requires Inv(w) && d in w.dispatchers
    requires w.dispatchers[d].activity.Resolved? || w.dispatchers[d].activity.Rejected?
    requires a.Idle? || a == Rejected(w.dispatchers[d].activity.token)
    ensures Inv(WithActivity(w, d, a))
  {
    assert DispatcherOk(w, d, w.dispatchers[d]);
    ActivityKeepsInv(w, WithActivity(w, d, a), d, a);
  }

  lemma MarkDeliveredKeepsInv(w: World, d: nat, at: int, effective: bool, throws: bool, v: World)
    requires Inv(w) && Step(w, MarkDelivered(d, at, effective, throws), v)
    ensures Inv(v) && RecordsStep(w.records, v.records) && (Shape(w.records) ==> Shape(v.records))
  {
    var x := w.dispatchers[d];
    assert DispatcherOk(w, d, x);
    var k := x.activity.token.key;
    assert k in w.records && RecordOk(w.records[k]);
    var next := if throws then Rejected(x.activity.token) else Idle;
    BackToIdleKeepsInv(w, d, next);
    SameRecordsStep(w.records);
    if effective {
      if Holds(w.records, k, x.workerId) {
        MarkRecordStep(w.records[k], at, None, "");
        assert Token(k, x.activity.token.attempt) in w.resolved;
      }
      MarkKeepsInv(WithActivity(w, d, next), k, x.workerId, DeliveredRecord(w.records[k], at));
    }
  }

  lemma MarkFailedKeepsInv(w: World, d: nat, at: int, next: Option<int>, code: string, effective: bool, v: World)
    requires Inv(w) && Step(w, MarkFailed(d, at, next, code, effective), v)
    ensures Inv(v) && RecordsStep(w.records, v.records) && (Shape(w.records) ==> Shape(v.records))
  {
    var x := w.dispatchers[d];
    assert DispatcherOk(w, d, x);
    var k := x.activity.token.key;
    assert k in w.records && RecordOk(w.records[k]);
    BackToIdleKeepsInv(w, d, Idle);
    SameRecordsStep(w.records);
    if effective {
      if Holds(w.records, k, x.workerId) { MarkRecordStep(w.records[k], at, next, code); }
      MarkKeepsInv(WithActivity(w, d, Idle), k, x.workerId, FailedRecord(w.records[k], at, next, code));
    }
  }

  lemma JoinOrCrashKeepsInv(w: World, a: Action, v: World)
    requires Inv(w) && Step(w, a, v) && (a.Join? || a.Crash?)
    ensures Inv(v) && v.records == w.records
  {
    forall e | e in v.dispatchers ensures DispatcherOk(v, e, v.dispatchers[e]) {
      if e in w.dispatchers { assert DispatcherOk(w, e, w.dispatchers[e]); }
    }
    forall e, f | e in v.dispatchers && f in v.dispatchers && e != f ensures Apart(v.dispatchers[e], v.dispatchers[f]) {
      if e in w.dispatchers && f in w.dispatchers { assert Apart(w.dispatchers[e], w.dispatchers[f]); }
    }
  }

  lemma EnqueuedTokensOk(w: World, v: World)
    requires TokensOk(w) && v == w.(records := v.records) && w.records.Keys <= v.records.Keys
    requires forall k :: k in w.records ==> v.records[k] == w.records[k]
    ensures TokensOk(v)
    ensures forall d :: d in w.dispatchers && DispatcherOk(w, d, w.dispatchers[d]) ==>
              DispatcherOk(v, d, v.dispatchers[d])
  {
    forall t | t in v.claims ensures Issued(v, t) { assert Issued(w, t); }
    forall t | t in v.sends ensures Issued(v, t) { assert Issued(w, t); }
    forall t | t in v.marks ensures Issued(v, t) { assert Issued(w, t); }
  }

  /** A record persisted at any time, in its turn or not. */
  lemma EnqueueKeepsInv(w: World, k: Key, message: Message)
    requires Inv(w) && k !in w.records
    ensures Inv(w.(records := w.records[k := Enqueued(message)]))
  {
    EnqueuedTokensOk(w, w.(records := w.records[k := Enqueued(message)]));
  }

  /** How the records may change in one step: those that are there step, and new ones are untouched. */
  ghost predicate Grows(m: Records, m': Records) {
    && m.Keys <= m'.Keys
    && (forall k :: k in m ==> RecordStep(m[k], m'[k]))
    && (forall k :: k in m' && k !in m ==> Untouched(m'[k]))
  }

  lemma StepsGrow(m: Records, m': Records)
    requires RecordsStep(m, m')
    ensures Grows(m, m')
  {
  }

  lemma DispatcherStepKeepsInv(w: World, a: Action, v: World)
    requires Inv(w) && Step(w, a, v) && !a.Enqueue?
    ensures Inv(v) && RecordsStep(w.records, v.records)
  {
    SameRecordsStep(w.records);
    if a.ClaimNext? { ClaimKeepsInv(w, a.d, a.now, v); }
    else if a.Send? { SendKeepsInv(w, a.d, v); }
    else if a.Resolve? || a.Reject? { SettlingKeepsInv(w, a, v); }
    else if a.MarkDelivered? { MarkDeliveredKeepsInv(w, a.d, a.at, a.effective, a.throws, v); }
    else if a.MarkFailed? { MarkFailedKeepsInv(w, a.d, a.at, a.next, a.code, a.effective, v); }
    else { JoinOrCrashKeepsInv(w, a, v); }
  }

  lemma EnqueueGrows(m: Records, k: Key, message: Message)
    requires RecordsOk(m) && k !in m
    ensures Grows(m, m[k := Enqueued(message)])
  {
  }

  lemma StepKeepsInv(w: World, a: Action, v: World)
    requires Inv(w) && Step(w, a, v)
    ensures Inv(v) && Grows(w.records, v.records)
  {
    if a.Enqueue? {
      if a.key in w.records {
        SameRecordsStep(w.records);
        StepsGrow(w.records, v.records);
      } else {
        EnqueueKeepsInv(w, a.key, a.message);
        EnqueueGrows(w.records, a.key, a.message);
      }
    } else {
      DispatcherStepKeepsInv(w, a, v);
      StepsGrow(w.records, v.records);
    }
  }

  // ---------------------------------------------------------------- what order adds

  /** The order of claimed records is that of their messages, which stay. */
  lemma ClaimsStayInOrder(w: World, v: World)
    requires TokensOk(w) && ClaimsInOrder(w) && Grows(w.records, v.records) && v.claims == w.claims
    ensures ClaimsInOrder(v)
  {
    forall i, j | 0 <= i < j < |v.claims| && v.claims[i].key in v.records && v.claims[j].key in v.records
      ensures v.claims[i].key == v.claims[j].key || Before(v.records, v.claims[i].key, v.claims[j].key)
    {
      assert Issued(w, w.claims[i]) && Issued(w, w.claims[j]);
      OrderStays(w.records, v.records, v.claims[i].key, v.claims[j].key);
    }
  }

  lemma ClaimKeepsOrdered(w: World, d: nat, now: int, v: World)
    requires Inv(w) && Ordered(w) && Step(w, ClaimNext(d, now), v)
    ensures Ordered(v)
  {
    var k, r := ClaimOutcome(w, d, now, v);
    if v != w {
      if r.attempts == w.records[k].attempts + 1 {
        ClaimedBefore(w, k);
        ClaimedInOrder(w, d, k, r);
      } else {
        StepsGrow(w.records, v.records);
        ClaimsStayInOrder(w, v);
      }
    }
  }

  lemma StepKeepsShape(w: World, a: Action, v: World)
    requires Inv(w) && Shape(w.records) && Step(w, a, v) && !a.ClaimNext? && EnqueuesInTurn(w.records, a)
    ensures Shape(v.records) && v.claims == w.claims
  {
    if a.Enqueue? {
      if a.key !in w.records { EnqueueKeepsShape(w.records, a.key, a.message); }
    } else if a.MarkDelivered? {
      MarkDeliveredKeepsInv(w, a.d, a.at, a.effective, a.throws, v);
    } else if a.MarkFailed? {
      MarkFailedKeepsInv(w, a.d, a.at, a.next, a.code, a.effective, v);
    }
  }

  /** Only a record persisted out of turn can break the order. */
  lemma StepKeepsOrdered(w: World, a: Action, v: World)
    requires Inv(w) && Ordered(w) && Step(w, a, v) && EnqueuesInTurn(w.records, a)
    ensures Ordered(v)
  {
    if a.ClaimNext? {
      ClaimKeepsOrdered(w, a.d, a.now, v);
    } else {
      StepKeepsShape(w, a, v);
      StepKeepsInv(w, a, v);
      ClaimsStayInOrder(w, v);
    }
  }

  /** Every record as first enqueued. */
  ghost predicate AllPending(m: Records) { forall k :: k in m ==> Untouched(m[k]) }

  lemma {:induction false} RunKeepsInv(states: seq<World>, actions: seq<Action>, i: nat)
    requires IsRun(states, actions) && i < |states|
    requires AllPending(states[0].records) && states[0] == Start(states[0].records)
    ensures Inv(states[i])
  {
    if i > 0 {
      RunKeepsInv(states, actions, i - 1);
      StepKeepsInv(states[i - 1], actions[i - 1], states[i]);
    }
  }

  // ---------------------------------------------------------------- the promises

  predicate IsDelivering(m: Records, k: Key) { k in m && m[k].status.Delivering? }

  /** Every record of a run up to a state was persisted in its turn. */
  ghost predicate AllInTurn(states: seq<World>, actions: seq<Action>, i: nat)
    requires IsRun(states, actions) && i < |states|
  {
    forall j :: 0 <= j < i ==> EnqueuesInTurn(states[j].records, actions[j])
  }

  lemma {:induction false} RunKeepsOrdered(states: seq<World>, actions: seq<Action>, i: nat)
    requires IsRun(states, actions) && i < |states| && AllInTurn(states, actions, i)
    requires AllPending(states[0].records) && states[0] == Start(states[0].records)
    ensures Ordered(states[i])
  {
    if i > 0 {
      RunKeepsOrdered(states, actions, i - 1);
      RunKeepsInv(states, actions, i - 1);
      assert EnqueuesInTurn(states[i - 1].records, actions[i - 1]);
      StepKeepsOrdered(states[i - 1], actions[i - 1], states[i]);
    }
  }

  /** From an all-pending start, under any interleaving in which records are persisted in their turn: the
      outbox always has its shape, at most one record is being delivered, and claims never go backwards in
      its order. */
  lemma OutboxDrainsInOrder(states: seq<World>, actions: seq<Action>, i: nat)
    requires IsRun(states, actions) && i < |states| && AllInTurn(states, actions, i)
    requires AllPending(states[0].records) && states[0] == Start(states[0].records)
    ensures Shape(states[i].records)
    ensures forall a, b :: IsDelivering(states[i].records, a) && IsDelivering(states[i].records, b) ==> a == b
    ensures ClaimsInOrder(states[i])
  {
    RunKeepsOrdered(states, actions, i);
    RunKeepsInv(states, actions, i);
    var m := states[i].records;
    forall a, b | IsDelivering(m, a) && IsDelivering(m, b) ensures a == b {
      AtMostOneStarted(m, a, b);
    }
  }

  /** Out of turn is where the shape breaks first: as long as it holds, a record persisted out of its turn
      ends it. */
  lemma OutOfTurnBreaksShape(w: World, k: Key, message: Message, v: World)
    requires Shape(w.records) && k !in w.records && Step(w, Enqueue(k, message), v)
    ensures Shape(v.records) <==> InTurn(w.records, k, message)
  {
    EnqueueKeepsShape(w.records, k, message);
  }

  // A record persisted out of its turn: while the later one is sent, the earlier one is claimed.

  function Late(): Message { Message(2, "task_stopped", "warning", 2, "", "") }

  function Early(): Message { Message(1, "task_started", "info", 1, "", "") }

  const LATE := Key("run", "late")
  const EARLY := Key("run", "early")

  function Persisted(w: World, k: Key, message: Message): World {
    w.(records := w.records[k := Enqueued(message)])
  }

  function Joined(w: World, d: nat, workerId: string): World {
    w.(dispatchers := w.dispatchers[d := Dispatcher(workerId, 5, 10, Idle)])
  }

  function Taken(w: World, d: nat, k: Key): World
    requires d in w.dispatchers && k in w.records
  {
    var r := ClaimRecord(w.records[k], ClaimCall(w.dispatchers[d].workerId, 0, 10, 5));
    TakeClaim(w.(records := w.records[k := r]), d, Token(k, 1))
  }

  /** The first untouched record is claimed by whoever asks. */
  lemma TakesFirst(w: World, d: nat, k: Key)
    requires d in w.dispatchers && w.dispatchers[d] == Dispatcher(w.dispatchers[d].workerId, 5, 10, Idle)
    requires k in w.records && Untouched(w.records[k])
    requires forall j :: j in w.records && j != k ==> Before(w.records, k, j)
    ensures Step(w, ClaimNext(d, 0), Taken(w, d, k))
  {
    assert IsHead(w.records, k);
    forall j | IsHead(w.records, j) ensures j == k { HeadUnique(w.records, j, k); }
    var c := ClaimCall(w.dispatchers[d].workerId, 0, 10, 5);
    var r := ClaimRecord(w.records[k], c);
    assert ClaimStep(w.records, c, w.records[k := r], Some((k, r)));
  }

  /** Persist, join, claim: three steps on a world in which the new record comes first. */
  lemma PersistedAndTaken(w: World, k: Key, message: Message, d: nat, workerId: string)
    requires k !in w.records && d !in w.dispatchers
    requires forall j :: j in w.records ==> Earlier(k, message, j, w.records[j].message)
    ensures Step(w, Enqueue(k, message), Persisted(w, k, message))
    ensures Step(Persisted(w, k, message), Join(d, workerId, 5, 10), Joined(Persisted(w, k, message), d, workerId))
    ensures Step(Joined(Persisted(w, k, message), d, workerId), ClaimNext(d, 0),
                 Taken(Joined(Persisted(w, k, message), d, workerId), d, k))
  {
    TakesFirst(Joined(Persisted(w, k, message), d, workerId), d, k);
  }

  function LateTaken(): World { Taken(Joined(Persisted(Start(map[]), LATE, Late()), 0, "a"), 0, LATE) }

  function BothTaken(): World { Taken(Joined(Persisted(LateTaken(), EARLY, Early()), 1, "b"), 1, EARLY) }

  lemma BothUnderDelivery()
    ensures var w := BothTaken();
            && IsDelivering(w.records, LATE) && IsDelivering(w.records, EARLY)
            && w.claims == [Token(LATE, 1), Token(EARLY, 1)] && !Before(w.records, LATE, EARLY)
  {
  }

  /** So out of turn two records can be under delivery at a time, and claims go backwards. */
  lemma OutOfTurnTwoAtOnce() returns (states: seq<World>, actions: seq<Action>)
    ensures IsRun(states, actions) && states[0] == Start(map[]) && |actions| == 6
    ensures IsDelivering(states[6].records, LATE) && IsDelivering(states[6].records, EARLY)
    ensures !ClaimsInOrder(states[6])
  {
    var start, first, second := Start(map[]), LateTaken(), BothTaken();
    actions := [Enqueue(LATE, Late()), Join(0, "a", 5, 10), ClaimNext(0, 0),
                Enqueue(EARLY, Early()), Join(1, "b", 5, 10), ClaimNext(1, 0)];
    states := [start, Persisted(start, LATE, Late()), Joined(Persisted(start, LATE, Late()), 0, "a"), first,
               Persisted(first, EARLY, Early()), Joined(Persisted(first, EARLY, Early()), 1, "b"), second];
    PersistedAndTaken(start, LATE, Late(), 0, "a");
    PersistedAndTaken(first, EARLY, Early(), 1, "b");
    forall i | 0 <= i < |actions| ensures Step(states[i], actions[i], states[i + 1]) {
      assert i == 0 || i == 1 || i == 2 || i == 3 || i == 4 || i == 5;
    }
    BothUnderDelivery();
    assert second.claims[0].key == LATE && second.claims[1].key == EARLY;
  }

  /** What no later state takes from a record: its message, its end, and its limit. */
  predicate Keeps(r: Record, later: Record) {
    && later.message == r.message
    && (Terminal(r) ==> later == r)
    && (r.maxAttempts.Some? ==> later.maxAttempts == r.maxAttempts)
  }

  ghost predicate AllKept(m: Records, later: Records) {
    m.Keys <= later.Keys && forall k :: k in m ==> Keeps(m[k], later[k])
  }

  lemma StepKeepsAll(m: Records, middle: Records, later: Records)
    requires AllKept(m, middle) && Grows(middle, later)
    ensures AllKept(m, later)
  {
    forall k | k in m ensures Keeps(m[k], later[k]) {
      assert Keeps(m[k], middle[k]) && RecordStep(middle[k], later[k]);
    }
  }

  /** Whatever is persisted meanwhile, no record is lost and no message altered; finished records never change;
      a limit, once stored, stays. */
  lemma {:induction false} NothingLostOrAltered(states: seq<World>, actions: seq<Action>, i: nat, j: nat)
    requires IsRun(states, actions) && i <= j < |states|
    requires AllPending(states[0].records) && states[0] == Start(states[0].records)
    ensures AllKept(states[i].records, states[j].records)
    decreases j - i
  {
    if i < j {
      NothingLostOrAltered(states, actions, i, j - 1);
      RunKeepsInv(states, actions, j - 1);
      StepKeepsInv(states[j - 1], actions[j - 1], states[j]);
      StepKeepsAll(states[i].records, states[j - 1].records, states[j].records);
    }
  }

  // ---------------------------------------------------------------- leases and backoffs are kept

  ghost predicate Starts(states: seq<World>) {
    |states| > 0 && AllPending(states[0].records) && states[0] == Start(states[0].records)
  }

  /** The step claims the record for another attempt. */
  ghost predicate ClaimsAt(states: seq<World>, actions: seq<Action>, i: nat, k: Key)
    requires IsRun(states, actions)
  {
    && i < |actions| && actions[i].ClaimNext?
    && k in states[i].records && k in states[i + 1].records
    && states[i + 1].records[k].attempts == states[i].records[k].attempts + 1
  }

  /** The action records a failure of the delivery that its dispatcher's worker holds. */
  ghost predicate Fails(w: World, a: Action, k: Key) {
    && a.MarkFailed? && a.effective && a.d in w.dispatchers && k in w.records
    && w.dispatchers[a.d].activity.Rejected? && w.dispatchers[a.d].activity.token.key == k
    && w.records[k].status.Delivering? && w.records[k].leaseOwner == Some(w.dispatchers[a.d].workerId)
  }

  ghost predicate FailsAt(states: seq<World>, actions: seq<Action>, m: nat, k: Key)
    requires IsRun(states, actions)
  {
    m < |actions| && Fails(states[m], actions[m], k)
  }

  /** When a failure asks for the next attempt. */
  function RetryAt(a: Action): int
    requires a.MarkFailed?
  {
    if a.next.Some? then a.next.value else a.at
  }

  /** No attempt beyond the n-th is open to anybody before t. */
  ghost predicate ClosedUntil(r: Record, n: int, t: int) {
    && r.attempts == n
    && (|| r.status.Delivered? || r.status.Failed?
        || (r.status.Delivering? && r.leaseExpiresAt == Some(t))
        || (r.status.Pending? && r.nextAttemptAt == Some(t)))
  }

  function CallOf(x: Dispatcher, now: int): ClaimCall {
    ClaimCall(x.workerId, now, x.leaseDurationMs, x.maxAttempts)
  }

  /** A claim changes at most one record, by what claiming makes of it. */
  lemma ClaimChangesOne(w: World, d: nat, now: int, v: World) returns (head: Key)
    requires Inv(w) && Step(w, ClaimNext(d, now), v)
    ensures d in w.dispatchers && Sensible(CallOf(w.dispatchers[d], now))
    ensures v.records == w.records ||
            (IsHead(w.records, head)
             && v.records == w.records[head := ClaimRecord(w.records[head], CallOf(w.dispatchers[d], now))])
  {
    var x := w.dispatchers[d];
    assert DispatcherOk(w, d, x);
    var c := CallOf(x, now);
    var m: Records, taken: Option<(Key, Record)> :|
      && ClaimStep(w.records, c, m, taken)
      && v == if taken.None? then w.(records := m)
              else TakeClaim(w.(records := m), d, Token(taken.value.0, taken.value.1.attempts));
    head := *;
    if m != w.records || taken.Some? { head := ClaimTaken(w, d, c, m, taken); }
  }

  lemma ClaimRecordCloses(r: Record, c: ClaimCall, n: int, t: int)
    requires RecordOk(r) && Sensible(c) && Open(r)
    ensures var s := ClaimRecord(r, c);
            && (ClosedUntil(r, n, t) ==> ClosedUntil(s, n, t) || (s.attempts == n + 1 && c.now >= t))
            && (s.attempts == r.attempts + 1 ==> ClosedUntil(s, r.attempts + 1, c.now + c.leaseDurationMs))
  {
  }

  lemma ClaimKeepsClosed(w: World, d: nat, now: int, v: World, k: Key, n: int, t: int)
    requires Inv(w) && Step(w, ClaimNext(d, now), v) && k in w.records && ClosedUntil(w.records[k], n, t)
    ensures k in v.records
    ensures ClosedUntil(v.records[k], n, t) || (v.records[k].attempts == n + 1 && now >= t)
  {
    var head := ClaimChangesOne(w, d, now, v);
    if v.records != w.records { ClaimRecordCloses(w.records[head], CallOf(w.dispatchers[d], now), n, t); }
  }

  lemma StepKeepsClosed(w: World, a: Action, v: World, k: Key, n: int, t: int)
    requires Inv(w) && Step(w, a, v) && k in w.records && ClosedUntil(w.records[k], n, t)
    ensures k in v.records
    ensures || ClosedUntil(v.records[k], n, t)
            || (Fails(w, a, k) && ClosedUntil(v.records[k], n, RetryAt(a)))
            || (a.ClaimNext? && v.records[k].attempts == n + 1 && a.now >= t)
  {
    if a.ClaimNext? {
      ClaimKeepsClosed(w, a.d, a.now, v, k, n, t);
    } else if a.MarkDelivered? || a.MarkFailed? {
      assert DispatcherOk(w, a.d, w.dispatchers[a.d]);
    }
  }

  /** A claim closes the record for as long as its lease lasts. */
  lemma ClaimCloses(w: World, d: nat, now: int, v: World, k: Key)
    requires Inv(w) && Step(w, ClaimNext(d, now), v)
    requires k in w.records && k in v.records && v.records[k].attempts == w.records[k].attempts + 1
    ensures d in w.dispatchers
    ensures ClosedUntil(v.records[k], w.records[k].attempts + 1, now + w.dispatchers[d].leaseDurationMs)
  {
    var head := ClaimChangesOne(w, d, now, v);
    if v.records != w.records { ClaimRecordCloses(w.records[head], CallOf(w.dispatchers[d], now), 0, 0); }
  }

  ghost predicate ClosedBy(states: seq<World>, actions: seq<Action>, i: nat, p: nat, k: Key, m: nat, t: int)
    requires IsRun(states, actions) && i < |actions| && p < |states| && actions[i].ClaimNext?
  {
    && actions[i].d in states[i].dispatchers
    && k in states[p].records && k in states[i + 1].records
    && ClosedUntil(states[p].records[k], states[i + 1].records[k].attempts, t)
    && (|| t == actions[i].now + states[i].dispatchers[actions[i].d].leaseDurationMs
        || (i < m < p && FailsAt(states, actions, m, k) && t == RetryAt(actions[m])))
  }

  lemma ClosedAtFirst(states: seq<World>, actions: seq<Action>, i: nat, k: Key)
    requires IsRun(states, actions) && Starts(states) && ClaimsAt(states, actions, i, k)
    ensures actions[i].d in states[i].dispatchers
    ensures ClosedBy(states, actions, i, i + 1, k, i,
                     actions[i].now + states[i].dispatchers[actions[i].d].leaseDurationMs)
  {
    RunKeepsInv(states, actions, i);
    assert Step(states[i], actions[i], states[i + 1]);
    ClaimCloses(states[i], actions[i].d, actions[i].now, states[i + 1], k);
  }

  lemma ClosedOneMore(states: seq<World>, actions: seq<Action>, i: nat, p: nat, k: Key, m: nat, t: int)
    returns (m': nat, t': int)
    requires IsRun(states, actions) && Starts(states) && i < p < |actions| && actions[i].ClaimNext?
    requires ClosedBy(states, actions, i, p, k, m, t) && !ClaimsAt(states, actions, p, k)
    ensures ClosedBy(states, actions, i, p + 1, k, m', t')
  {
    RunKeepsInv(states, actions, p);
    assert Step(states[p], actions[p], states[p + 1]);
    var n := states[i + 1].records[k].attempts;
    StepKeepsClosed(states[p], actions[p], states[p + 1], k, n, t);
    if ClosedUntil(states[p + 1].records[k], n, t) {
      m', t' := m, t;
    } else {
      m', t' := p, RetryAt(actions[p]);
    }
  }

  /** Between a claim and the next one the record is closed until the lease ends, or until the time asked for
      by a failure recorded since. */
  lemma {:induction false} ClosedSince(states: seq<World>, actions: seq<Action>, i: nat, p: nat, k: Key)
    returns (m: nat, t: int)
    requires IsRun(states, actions) && Starts(states)
    requires ClaimsAt(states, actions, i, k) && i < p < |states|
    requires forall q :: i < q < p ==> !ClaimsAt(states, actions, q, k)
    ensures ClosedBy(states, actions, i, p, k, m, t)
    decreases p
  {
    if p == i + 1 {
      ClosedAtFirst(states, actions, i, k);
      m, t := i, actions[i].now + states[i].dispatchers[actions[i].d].leaseDurationMs;
    } else {
      m, t := ClosedSince(states, actions, i, p - 1, k);
      m, t := ClosedOneMore(states, actions, i, p - 1, k, m, t);
    }
  }

  /** Of two successive claims of a record, whoever makes them: the later one's clock has passed the end of the
      earlier one's lease, or the time that a failure recorded in between has asked for. */
  lemma LeasesAreKept(states: seq<World>, actions: seq<Action>, i: nat, j: nat, k: Key)
    requires IsRun(states, actions) && Starts(states)
    requires i < j && ClaimsAt(states, actions, i, k) && ClaimsAt(states, actions, j, k)
    requires forall q :: i < q < j ==> !ClaimsAt(states, actions, q, k)
    ensures actions[i].d in states[i].dispatchers
    ensures || actions[j].now >= actions[i].now + states[i].dispatchers[actions[i].d].leaseDurationMs
            || exists m :: i < m < j && FailsAt(states, actions, m, k) && actions[j].now >= RetryAt(actions[m])
  {
    var m, t := ClosedSince(states, actions, i, j, k);
    RunKeepsInv(states, actions, j);
    assert Step(states[j], actions[j], states[j + 1]);
    StepKeepsClosed(states[j], actions[j], states[j + 1], k, states[i + 1].records[k].attempts, t);
  }

  function CountOf(ts: seq<Token>, k: Key): nat {
    if ts == [] then 0 else CountOf(ts[..|ts| - 1], k) + if ts[|ts| - 1].key == k then 1 else 0
  }

  function TokensOf(ts: seq<Token>, k: Key): (tokens: set<Token>) { set t | t in ts && t.key == k }

  lemma {:induction false} CountIsSize(ts: seq<Token>, k: Key)
    requires NoDuplicates(ts)
    ensures CountOf(ts, k) == |TokensOf(ts, k)|
  {
    if ts != [] {
      var rest := ts[..|ts| - 1];
      var last := ts[|ts| - 1];
      CountIsSize(rest, k);
      assert ts == rest + [last];
      assert last !in rest;
      assert TokensOf(ts, k) == if last.key == k then TokensOf(rest, k) + {last} else TokensOf(rest, k);
    }
  }

  lemma {:induction false} SizeUpTo(s: set<Token>, k: Key, n: nat)
    requires forall t :: t in s ==> t.key == k && 1 <= t.attempt <= n
    ensures |s| <= n
  {
    if n == 0 {
      assert s == {};
    } else {
      SizeUpTo(s - {Token(k, n)}, k, n - 1);
    }
  }

  lemma IssuedCount(w: World, ts: seq<Token>, k: Key)
    requires RecordsOk(w.records) && NoDuplicates(ts) && k in w.records
    requires forall t :: t in ts ==> Issued(w, t)
    ensures CountOf(ts, k) <= w.records[k].attempts
  {
    CountIsSize(ts, k);
    assert RecordOk(w.records[k]);
    SizeUpTo(TokensOf(ts, k), k, w.records[k].attempts);
  }

  /** Sends and accepted marks per record never exceed its claims, which never exceed the limit stored at its
      first claim; a record without a stored limit was never sent; each claim has at most one accepted mark;
      and delivered implies an earlier send that resolved. */
  lemma SendsWithinLimit(states: seq<World>, actions: seq<Action>, i: nat, k: Key)
    requires IsRun(states, actions) && i < |states| && k in states[i].records
    requires AllPending(states[0].records) && states[0] == Start(states[0].records)
    ensures var w := states[i];
            var r := w.records[k];
            && CountOf(w.sends, k) <= r.attempts
            && CountOf(w.marks, k) <= r.attempts
            && (r.maxAttempts.Some? ==> r.attempts <= r.maxAttempts.value)
            && (r.maxAttempts.None? ==> r.attempts == 0)
            && NoDuplicates(w.marks)
            && (r.status.Delivered? ==> exists n :: Token(k, n) in w.resolved && Token(k, n) in w.sends)
  {
    RunKeepsInv(states, actions, i);
    var w := states[i];
    IssuedCount(w, w.sends, k);
    IssuedCount(w, w.marks, k);
    if w.records[k].status.Delivered? {
      var n :| Token(k, n) in w.resolved;
      assert Token(k, n) in w.sends;
    }
  }

  /** A mark is accepted exactly while the record is being delivered and its latest claim was made under the
      marking worker's id; so once another worker has reclaimed a lease, the former holder cannot mark. */
  lemma AcceptedExactlyForLatestClaim(states: seq<World>, actions: seq<Action>, i: nat, k: Key, workerId: string)
    requires IsRun(states, actions) && i < |states| && k in states[i].records
    requires AllPending(states[0].records) && states[0] == Start(states[0].records)
    ensures var w := states[i];
            var latest := Token(k, w.records[k].attempts);
            Holds(w.records, k, workerId) <==>
              w.records[k].status.Delivering? && latest in w.claimants && w.claimants[latest] == workerId
  {
    RunKeepsInv(states, actions, i);
  }
}
