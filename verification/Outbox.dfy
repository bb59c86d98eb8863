/** src/adapters/persistence/in-memory-notification-outbox-repository.ts: the notification outbox, from
    which workers claim the first open record under a lease and mark how its delivery ended. */
module Outbox {
  import opened Basics

  datatype Key = Key(runId: string, notificationId: string)

  datatype Message = Message(sourceRevision: int, kind: string, severity: string, occurredAt: int,
                             title: string, body: string)

  datatype Status = Pending | Delivering | Delivered | Failed

  datatype Record = Record(
    message: Message, status: Status, attempts: int, maxAttempts: Option<int>, nextAttemptAt: Option<int>,
    leaseOwner: Option<string>, leaseExpiresAt: Option<int>, deliveredAt: Option<int>, lastErrorCode: Option<string>)

  type Records = map<Key, Record>

  datatype OutboxError = OutboxClosed | OutOfRange

  predicate Open(r: Record) { r.status.Pending? || r.status.Delivering? }

  predicate Terminal(r: Record) { r.status.Delivered? || r.status.Failed? }

  function Enqueued(message: Message): Record {
    Record(message, Pending, 0, None, None, None, None, None, None)
  }

  predicate Untouched(r: Record) { r == Enqueued(r.message) }

  /** By time of occurrence, then source revision, then run, then id. */
  predicate Earlier(a: Key, m: Message, b: Key, n: Message) {
    || m.occurredAt < n.occurredAt
    || (m.occurredAt == n.occurredAt
        && (|| m.sourceRevision < n.sourceRevision
            || (m.sourceRevision == n.sourceRevision
                && (StringLess(a.runId, b.runId)
                    || (a.runId == b.runId && StringLess(a.notificationId, b.notificationId))))))
  }

  predicate Before(m: Records, a: Key, b: Key)
    requires a in m && b in m
  {
    Earlier(a, m[a].message, b, m[b].message)
  }

  lemma BeforeIrreflexive(m: Records, a: Key)
    requires a in m
    ensures !Before(m, a, a)
  {
    StringLessIrreflexive(a.runId);
    StringLessIrreflexive(a.notificationId);
  }

  lemma BeforeTransitive(m: Records, a: Key, b: Key, c: Key)
    requires a in m && b in m && c in m
    requires Before(m, a, b) && Before(m, b, c)
    ensures Before(m, a, c)
  {
    if StringLess(a.runId, b.runId) && StringLess(b.runId, c.runId) {
      StringLessTransitive(a.runId, b.runId, c.runId);
    }
    if StringLess(a.notificationId, b.notificationId) && StringLess(b.notificationId, c.notificationId) {
      StringLessTransitive(a.notificationId, b.notificationId, c.notificationId);
    }
  }

  lemma BeforeTotal(m: Records, a: Key, b: Key)
    requires a in m && b in m
    ensures Before(m, a, b) || Before(m, b, a) || a == b
  {
    StringLessTotal(a.runId, b.runId);
    StringLessTotal(a.notificationId, b.notificationId);
  }

  ghost predicate IsHead(m: Records, k: Key) {
    && k in m && Open(m[k])
    && forall j :: j in m && Open(m[j]) && j != k ==> Before(m, k, j)
  }

  lemma {:induction false} HeadAmong(m: Records, ks: set<Key>) returns (k: Key)
    requires ks != {} && ks <= m.Keys
    ensures k in ks && forall j :: j in ks && j != k ==> Before(m, k, j)
    decreases |ks|
  {
    var x :| x in ks;
    if ks == {x} {
      k := x;
    } else {
      var rest := ks - {x};
      assert ks == rest + {x};
      var y := HeadAmong(m, rest);
      BeforeTotal(m, x, y);
      if Before(m, x, y) {
        k := x;
        forall j | j in ks && j != x ensures Before(m, x, j) {
          if j != y { BeforeTransitive(m, x, y, j); }
        }
      } else {
        k := y;
      }
    }
  }

  lemma HeadExists(m: Records, k: Key) returns (head: Key)
    requires k in m && Open(m[k])
    ensures IsHead(m, head)
  {
    var open := set j | j in m && Open(m[j]);
    assert k in open;
    head := HeadAmong(m, open);
  }

  lemma HeadUnique(m: Records, a: Key, b: Key)
    requires IsHead(m, a) && IsHead(m, b)
    ensures a == b
  {
    if a != b {
      BeforeTransitive(m, a, b, a);
      BeforeIrreflexive(m, a);
    }
  }

  predicate Available(r: Record, now: int) {
    || (r.status.Pending? && (r.nextAttemptAt.Some? ==> r.nextAttemptAt.value <= now))
    || (r.status.Delivering? && r.leaseExpiresAt.Some? && r.leaseExpiresAt.value <= now)
  }

  function Limit(r: Record, maxAttempts: int): int {
    if r.maxAttempts.Some? then r.maxAttempts.value else maxAttempts
  }

  datatype ClaimCall = ClaimCall(workerId: string, now: int, leaseDurationMs: int, maxAttempts: int)

  predicate Sensible(c: ClaimCall) { c.leaseDurationMs > 0 && c.maxAttempts > 0 }

  /** What claiming makes of the first open record. */
  function ClaimRecord(r: Record, c: ClaimCall): Record {
    if !Available(r, c.now) then r
    else if r.attempts >= Limit(r, c.maxAttempts) then
      r.(status := Failed, maxAttempts := Some(Limit(r, c.maxAttempts)), leaseOwner := None, leaseExpiresAt := None)
    else
      r.(status := Delivering, attempts := r.attempts + 1, maxAttempts := Some(Limit(r, c.maxAttempts)),
         nextAttemptAt := None, leaseOwner := Some(c.workerId),
         leaseExpiresAt := Some(c.now + c.leaseDurationMs), lastErrorCode := None)
  }

  predicate Claims(r: Record, c: ClaimCall) { Available(r, c.now) && r.attempts < Limit(r, c.maxAttempts) }

  /** The records after a claim, and the record handed to the worker if there is one. */
  ghost predicate ClaimStep(m: Records, c: ClaimCall, m': Records, claimed: Option<(Key, Record)>) {
    if exists k :: IsHead(m, k) then
      var k :| IsHead(m, k);
      && m' == m[k := ClaimRecord(m[k], c)]
      && claimed == if Claims(m[k], c) then Some((k, ClaimRecord(m[k], c))) else None
    else m' == m && claimed.None?
  }

  /** On the fields: a claim touches nothing that is not due, and hands out only what it has put under
      delivery, with one more attempt within the limit and a lease from now on. */
  ghost predicate TakesWhatIsDue(m: Records, c: ClaimCall, m': Records, claimed: Option<(Key, Record)>) {
    && (forall k :: k in m' <==> k in m)
    && (forall k :: k in m && m'[k] != m[k] ==>
          || (m[k].status.Pending? && (m[k].nextAttemptAt.Some? ==> m[k].nextAttemptAt.value <= c.now))
          || (m[k].status.Delivering? && m[k].leaseExpiresAt.Some? && m[k].leaseExpiresAt.value <= c.now))
    && (claimed.Some? ==>
          var k, r := claimed.value.0, claimed.value.1;
          && k in m && m'[k] == r && r.attempts == m[k].attempts + 1 && r.maxAttempts.Some?
          && r.attempts <= r.maxAttempts.value
          && r.maxAttempts.value == (if m[k].maxAttempts.Some? then m[k].maxAttempts.value else c.maxAttempts)
          && r.status.Delivering? && r.leaseOwner == Some(c.workerId)
          && r.leaseExpiresAt == Some(c.now + c.leaseDurationMs)
          && r.message == m[k].message && r.nextAttemptAt.None? && r.lastErrorCode.None?)
    && (claimed.None? ==>
          forall k :: k in m && m'[k] != m[k] ==>
            && m'[k].status.Failed? && m'[k].attempts == m[k].attempts && m'[k].message == m[k].message
            && m[k].attempts >= if m[k].maxAttempts.Some? then m[k].maxAttempts.value else c.maxAttempts)
  }

  /** What is first and due is handed out as long as attempts are left, and failed when none are. */
  ghost predicate TakesWhatItMay(m: Records, c: ClaimCall, m': Records, claimed: Option<(Key, Record)>, k: Key)
    requires k in m && m'.Keys == m.Keys
  {
    var limit := if m[k].maxAttempts.Some? then m[k].maxAttempts.value else c.maxAttempts;
    var due := || (m[k].status.Pending? && (m[k].nextAttemptAt.Some? ==> m[k].nextAttemptAt.value <= c.now))
               || (m[k].status.Delivering? && m[k].leaseExpiresAt.Some? && m[k].leaseExpiresAt.value <= c.now);
    && (due && m[k].attempts < limit ==> claimed == Some((k, m'[k])))
    && (due && m[k].attempts >= limit ==> claimed.None? && m'[k].status.Failed? && m'[k].leaseOwner.None?)
  }

  /** First by time of occurrence, then by source revision. */
  ghost predicate TakesTheFirst(m: Records, k: Key)
    requires k in m
  {
    forall j :: j in m && (m[j].status.Pending? || m[j].status.Delivering?) ==>
      && m[k].message.occurredAt <= m[j].message.occurredAt
      && (m[k].message.occurredAt == m[j].message.occurredAt ==>
            m[k].message.sourceRevision <= m[j].message.sourceRevision)
  }

  lemma ClaimStepTakes(m: Records, c: ClaimCall, m': Records, claimed: Option<(Key, Record)>)
    requires ClaimStep(m, c, m', claimed)
    ensures TakesWhatIsDue(m, c, m', claimed)
    ensures claimed.Some? ==> TakesTheFirst(m, claimed.value.0)
    ensures forall k :: k in m && m'[k] != m[k] ==> TakesTheFirst(m, k)
    ensures forall k :: IsHead(m, k) ==> TakesWhatItMay(m, c, m', claimed, k)
  {
    forall k | IsHead(m, k) ensures TakesWhatItMay(m, c, m', claimed, k) {
      var head :| IsHead(m, head) && m' == m[head := ClaimRecord(m[head], c)]
                  && claimed == if Claims(m[head], c) then Some((head, ClaimRecord(m[head], c))) else None;
      HeadUnique(m, head, k);
      assert head == k && m'[k] == ClaimRecord(m[k], c);
    }
  }

  lemma LiveLeaseIsLeft(m: Records, c: ClaimCall, m': Records, claimed: Option<(Key, Record)>)
    requires ClaimStep(m, c, m', claimed)
    ensures TakesWhatIsDue(m, c, m', claimed)
    ensures claimed.Some? ==> TakesTheFirst(m, claimed.value.0)
    ensures forall k :: && IsHead(m, k) && m[k].status.Delivering?
                        && m[k].leaseExpiresAt.Some? && m[k].leaseExpiresAt.value > c.now
                        ==> claimed.None? && m' == m
  {
    ClaimStepTakes(m, c, m', claimed);
    forall k | IsHead(m, k) && m[k].status.Delivering? && m[k].leaseExpiresAt.Some?
               && m[k].leaseExpiresAt.value > c.now
      ensures claimed.None? && m' == m
    {
      var head :| IsHead(m, head) && m' == m[head := ClaimRecord(m[head], c)];
      HeadUnique(m, head, k);
    }
  }

  predicate Holds(m: Records, k: Key, workerId: string) {
    k in m && m[k].status.Delivering? && m[k].leaseOwner == Some(workerId)
  }

  function DeliveredRecord(r: Record, at: int): Record {
    r.(status := Delivered, deliveredAt := Some(at), nextAttemptAt := None, leaseOwner := None,
       leaseExpiresAt := None, lastErrorCode := None)
  }

  function MarkDeliveredStep(m: Records, k: Key, workerId: string, at: int): Records {
    if Holds(m, k, workerId) then m[k := DeliveredRecord(m[k], at)] else m
  }

  function FailedStatus(r: Record): Status {
    if r.attempts >= Limit(r, 1) then Failed else Pending
  }

  function FailedRecord(r: Record, failedAt: int, nextAttemptAt: Option<int>, code: string): Record {
    r.(status := FailedStatus(r),
       nextAttemptAt := if FailedStatus(r).Failed? then None
                        else if nextAttemptAt.Some? then nextAttemptAt else Some(failedAt),
       leaseOwner := None, leaseExpiresAt := None, lastErrorCode := Some(code))
  }

  function MarkFailedStep(m: Records, k: Key, workerId: string, failedAt: int, next: Option<int>, code: string)
    : Records
  {
    if Holds(m, k, workerId) then m[k := FailedRecord(m[k], failedAt, next, code)] else m
  }

  class InMemoryOutbox {
    var records: Records
    var closed: bool

    constructor (records: Records)
      ensures this.records == records && !closed
    {
      this.records, closed := records, false;
    }

    /** What is claimed is due; a head under delivery whose lease ends after now is left as it is. */
    method ClaimNext(c: ClaimCall) returns (r: Result<Option<(Key, Record)>, OutboxError>)
      modifies this`records
      ensures r.Ok? <==> !closed && c.leaseDurationMs > 0 && c.maxAttempts > 0
      ensures r.Err? ==> records == old(records) && r.error == if closed then OutboxClosed else OutOfRange
      ensures r.Ok? ==> ClaimStep(old(records), c, records, r.value)
      ensures r.Ok? ==> TakesWhatIsDue(old(records), c, records, r.value)
      ensures r.Ok? && r.value.Some? ==> TakesTheFirst(old(records), r.value.value.0)
      ensures forall k :: r.Ok? && IsHead(old(records), k) && old(records)[k].status.Delivering? ==>
                old(records)[k].leaseExpiresAt.Some? && old(records)[k].leaseExpiresAt.value > c.now ==>
                  r.value.None? && records == old(records)
    {
      ghost var before := records;
      r := ClaimHead(c);
      if r.Ok? { LiveLeaseIsLeft(before, c, records, r.value); }
    }

    method ClaimHead(c: ClaimCall) returns (r: Result<Option<(Key, Record)>, OutboxError>)
      modifies this`records
      ensures r.Ok? <==> !closed && c.leaseDurationMs > 0 && c.maxAttempts > 0
      ensures r.Err? ==> records == old(records) && r.error == if closed then OutboxClosed else OutOfRange
      ensures r.Ok? ==> ClaimStep(old(records), c, records, r.value)
    {
      if closed { return Err(OutboxClosed); }
      if !Sensible(c) { return Err(OutOfRange); }
      if forall k :: k in records ==> !Open(records[k]) { return Ok(None); }
      ghost var any :| any in records && Open(records[any]);
      ghost var head := HeadExists(records, any);
      var k :| k in records && Open(records[k])
               && forall j :: j in records && Open(records[j]) && j != k ==> Before(records, k, j);
      assert IsHead(records, k);
      forall j | IsHead(records, j) ensures j == k { HeadUnique(records, j, k); }
      var selected := records[k];
      if !Available(selected, c.now) {
        assert records == records[k := selected];
        return Ok(None);
      }
      var limit := if selected.maxAttempts.Some? then selected.maxAttempts.value else c.maxAttempts;
      if selected.attempts >= limit {
        records := records[k := selected.(status := Failed, maxAttempts := Some(limit), leaseOwner := None,
                                          leaseExpiresAt := None)];
        return Ok(None);
      }
      var claimed := selected.(status := Delivering, attempts := selected.attempts + 1, maxAttempts := Some(limit),
                               nextAttemptAt := None, leaseOwner := Some(c.workerId),
                               leaseExpiresAt := Some(c.now + c.leaseDurationMs), lastErrorCode := None);
      records := records[k := claimed];
      r := Ok(Some((k, claimed)));
    }

    method MarkDelivered(k: Key, workerId: string, at: int) returns (r: Result<bool, OutboxError>)
      modifies this`records
      ensures r == if closed then Err(OutboxClosed) else Ok(Holds(old(records), k, workerId))
      ensures records == if closed then old(records) else MarkDeliveredStep(old(records), k, workerId, at)
    {
      if closed { return Err(OutboxClosed); }
      if k !in records || !records[k].status.Delivering? || records[k].leaseOwner != Some(workerId) {
        return Ok(false);
      }
      records := records[k := DeliveredRecord(records[k], at)];
      r := Ok(true);
    }

    method MarkFailed(k: Key, workerId: string, failedAt: int, next: Option<int>, code: string)
      returns (r: Result<Option<Status>, OutboxError>)
      modifies this`records
      ensures closed ==> r == Err(OutboxClosed) && records == old(records)
      ensures !closed ==>
                && records == MarkFailedStep(old(records), k, workerId, failedAt, next, code)
                && r == Ok(if Holds(old(records), k, workerId) then Some(records[k].status) else None)
    {
      if closed { return Err(OutboxClosed); }
      if k !in records || !records[k].status.Delivering? || records[k].leaseOwner != Some(workerId) {
        return Ok(None);
      }
      records := records[k := FailedRecord(records[k], failedAt, next, code)];
      r := Ok(Some(records[k].status));
    }

    method Close()
      modifies this`closed
      ensures closed
    {
      closed := true;
    }
  }

  // ---------------------------------------------------------------- what every record keeps

  ghost predicate RecordOk(r: Record) {
    && 0 <= r.attempts
    && (r.maxAttempts.Some? ==> 1 <= r.attempts <= r.maxAttempts.value)
    && (r.maxAttempts.None? ==> Untouched(r))
    && (r.status.Delivering? <==> r.leaseOwner.Some?)
    && (r.status.Delivering? <==> r.leaseExpiresAt.Some?)
    && (r.status.Pending? && r.maxAttempts.Some? ==> r.attempts < r.maxAttempts.value)
    && (r.status.Delivered? <==> r.deliveredAt.Some?)
  }

  /** How one record may change in one step. */
  ghost predicate RecordStep(r: Record, r': Record) {
    && RecordOk(r')
    && r'.message == r.message
    && (Terminal(r) ==> r' == r)
    && (r.maxAttempts.Some? ==> r'.maxAttempts == r.maxAttempts)
    && r.attempts <= r'.attempts <= r.attempts + 1
    && (!Untouched(r) ==> !Untouched(r'))
    && (r'.attempts == r.attempts + 1 ==> Open(r) && r'.status.Delivering?)
    && (r'.status.Delivered? && !r.status.Delivered? ==> r.status.Delivering? && r'.attempts == r.attempts)
  }

  lemma ClaimRecordStep(r: Record, c: ClaimCall)
    requires RecordOk(r) && Sensible(c) && Open(r)
    ensures RecordStep(r, ClaimRecord(r, c))
    ensures Claims(r, c) <==> ClaimRecord(r, c).attempts == r.attempts + 1
    ensures Claims(r, c) ==> ClaimRecord(r, c).status.Delivering? && ClaimRecord(r, c).leaseOwner == Some(c.workerId)
  {
  }

  lemma MarkRecordStep(r: Record, at: int, next: Option<int>, code: string)
    requires RecordOk(r) && r.status.Delivering?
    ensures RecordStep(r, DeliveredRecord(r, at)) && DeliveredRecord(r, at).attempts == r.attempts
    ensures RecordStep(r, FailedRecord(r, at, next, code)) && FailedRecord(r, at, next, code).attempts == r.attempts
    ensures FailedRecord(r, at, next, code).status.Failed? <==> r.attempts == r.maxAttempts.value
  {
  }

  // ---------------------------------------------------------------- the shape of the outbox

  /** Whatever lies before a touched record is finished. */
  ghost predicate Shape(m: Records) {
    forall a, b :: a in m && b in m && !Untouched(m[b]) && Before(m, a, b) ==> Terminal(m[a])
  }

  /** At most one record is being delivered, or has been begun and not finished. */
  lemma AtMostOneStarted(m: Records, a: Key, b: Key)
    requires Shape(m) && a in m && b in m
    requires !Untouched(m[a]) && Open(m[a]) && !Untouched(m[b]) && Open(m[b])
    ensures a == b
  {
    BeforeTotal(m, a, b);
  }

  /** Changing the head, and nothing else, keeps the shape. */
  lemma HeadStepKeepsShape(m: Records, k: Key, r: Record)
    requires Shape(m) && IsHead(m, k) && RecordStep(m[k], r)
    ensures Shape(m[k := r])
  {
    var m' := m[k := r];
    forall a, b | a in m' && b in m' && !Untouched(m'[b]) && Before(m', a, b) ensures Terminal(m'[a]) {
      assert Before(m, a, b);
      if b == k {
        if a == k { BeforeIrreflexive(m, k); }
        if Open(m[a]) {
          BeforeTransitive(m, k, a, k);
          BeforeIrreflexive(m, k);
        }
      }
    }
  }

  /** The started record, if any, is the head. */
  lemma StartedIsHead(m: Records, k: Key)
    requires Shape(m) && k in m && Open(m[k]) && !Untouched(m[k])
    ensures IsHead(m, k)
  {
    forall j | j in m && Open(m[j]) && j != k ensures Before(m, k, j) { BeforeTotal(m, j, k); }
  }

  /** Read in order, an outbox of this shape is a finished prefix, at most one started record, and untouched
      records from there on. */
  lemma {:induction false} ShapeInOrder(m: Records, order: seq<Key>) returns (n: nat)
    requires Shape(m)
    requires forall i :: 0 <= i < |order| ==> order[i] in m
    requires forall i, j :: 0 <= i < j < |order| ==> Before(m, order[i], order[j])
    ensures n <= |order|
    ensures forall i :: 0 <= i < n ==> Terminal(m[order[i]])
    ensures n < |order| ==> Open(m[order[n]])
    ensures forall i :: n < i < |order| ==> Untouched(m[order[i]])
  {
    n := 0;
    while n < |order| && Terminal(m[order[n]])
      invariant n <= |order|
      invariant forall i :: 0 <= i < n ==> Terminal(m[order[i]])
    {
      n := n + 1;
    }
    if n < |order| {
      forall i | n < i < |order| ensures Untouched(m[order[i]]) { assert Before(m, order[n], order[i]); }
    }
  }

  /** A newly persisted record keeps the shape exactly if no touched record comes after it. */
  lemma EnqueueKeepsShape(m: Records, k: Key, message: Message)
    requires Shape(m) && k !in m
    ensures Shape(m[k := Enqueued(message)]) <==>
              forall b :: b in m && Earlier(k, message, b, m[b].message) ==> Untouched(m[b])
  {
    var m' := m[k := Enqueued(message)];
    if Shape(m') {
      forall b | b in m && Earlier(k, message, b, m[b].message) ensures Untouched(m[b]) {
        assert Before(m', k, b);
      }
    } else {
      var a, b :| a in m' && b in m' && !Untouched(m'[b]) && Before(m', a, b) && !Terminal(m'[a]);
      assert b != k;
      if a != k { assert Before(m, a, b); }
    }
  }
}
