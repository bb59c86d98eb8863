/** src/adapters/notifications/discord-webhook-notification-port.ts: one message is posted with bounded
    retries under a total time budget. Time is in milliseconds and passes only where the code waits; a
    script says how long each wait lasts and how it ends. */
module DiscordWebhook {
  import opened Basics

  datatype Classification = Configuration | Cancelled | TimedOut | Network | RateLimited | ClientError | ServerError

  datatype Code =
    | DeliveryCancelled | ContentTooLong | BudgetExhausted | AttemptTimedOut | NetworkFailed | WaitFailed
    | RateLimitedCode | RetriesExhausted | HttpRejected

  datatype DeliveryError = DeliveryError(code: Code, classification: Classification, attempts: nat, status: Option<int>)

  /** A header or a number in a body: absent, unreadable and not finite are all None. */
  type Seconds = Option<real>

  datatype Response = Response(status: int, retryAfter: Seconds, exhausted: bool, resetAfter: Seconds)

  datatype Exchange = Exchange(elapsed: real, closes: bool, timerFires: bool, response: Option<Response>)

  datatype BodyRead = BodyRead(elapsed: real, closes: bool, retryAfter: Seconds)

  datatype Waiting = Waiting(elapsed: real, closes: bool, fails: bool)

  datatype Turn = Turn(exchange: Exchange, body: BodyRead, jitter: Option<real>, waiting: Waiting)

  datatype Script = Script(waiting: Waiting, turns: seq<Turn>)

  /** A transport call: when it began and with which timeout, what came of it, and until when the next one
      has to be put off. */
  datatype Call = Call(at: real, timeout: real, status: Option<int>, until: real)

  const MAX_CONTENT_LENGTH := 2_000
  const DAY_MS := 86_400_000.0

  predicate TimeRunsForward(s: Script) {
    && s.waiting.elapsed >= 0.0
    && forall i :: 0 <= i < |s.turns| ==> Forward(s.turns[i])
  }

  predicate Forward(t: Turn) { t.exchange.elapsed >= 0.0 && t.body.elapsed >= 0.0 && t.waiting.elapsed >= 0.0 }

  function ParseSeconds(seconds: Seconds): (ms: Option<real>)
    ensures ms.Some? ==> 0.0 <= ms.value <= DAY_MS
    ensures ms.Some? <==> seconds.Some? && 0.0 <= seconds.value <= 86_400.0
    ensures ms.Some? ==> ms.value == seconds.value * 1000.0
  {
    if seconds.None? || seconds.value < 0.0 || seconds.value * 1000.0 > DAY_MS then None
    else Some(seconds.value * 1000.0)
  }

  function SafeJitter(jitter: Option<real>): int {
    if jitter.Some? && jitter.value >= 0.0 then jitter.value.Floor else 0
  }

  predicate Retryable(status: Option<int>) {
    status.None? || status.value == 429 || status.value in [500, 502, 503, 504]
  }

  predicate Success(status: int) { 200 <= status < 300 }

  function Smaller(a: real, b: real): real { if a < b then a else b }

  /** A call may take as long as is set for one, and as long as the budget lasts. */
  lemma TimeoutFits(timeout: real, remaining: real, lasts: real)
    ensures lasts <= Smaller(timeout, remaining) <==> lasts <= timeout && lasts <= remaining
  {
  }

  function RetryDelay(attempts: nat, jitter: Option<real>): real
    requires attempts >= 1
  {
    (250 * Power2(attempts - 1) + SafeJitter(jitter)) as real
  }

  /** When the next call may begin after one that was not successful: after the delay a 429 asks for, in its
      header or else in its body, or after a backoff that doubles with every attempt. */
  function DueAt(at: real, status: Option<int>, turn: Turn, attempts: nat): real
    requires attempts >= 1
  {
    var answered := at + turn.exchange.elapsed;
    if status == Some(429) && turn.exchange.response.Some? then
      var header := ParseSeconds(turn.exchange.response.value.retryAfter);
      var asked := if header.Some? then header else ParseSeconds(turn.body.retryAfter);
      answered + (if header.Some? then 0.0 else turn.body.elapsed) + (if asked.Some? then asked.value else 0.0)
    else answered + RetryDelay(attempts, turn.jitter)
  }

  /** The next call is never due before the answer; a 429 puts it off for the reading of its body and a day
      at most, anything else for the backoff and its jitter. */
  lemma DueWithinADay(at: real, status: Option<int>, turn: Turn, attempts: nat)
    requires attempts >= 1 && Forward(turn)
    ensures var answered := at + turn.exchange.elapsed;
            && answered <= DueAt(at, status, turn, attempts)
            && (status == Some(429) && turn.exchange.response.Some? ==>
                  DueAt(at, status, turn, attempts) <= answered + turn.body.elapsed + DAY_MS)
            && (status != Some(429) ==> DueAt(at, status, turn, attempts) >= answered + 250.0)
  {
    PowerPositive(attempts - 1);
  }

  /** Without jitter the backoff begins with 250 ms and doubles; a jitter is added in whole milliseconds, if it
      is readable and not negative. */
  lemma BackoffDoubles(attempts: nat, jitter: Option<real>)
    requires attempts >= 1
    ensures RetryDelay(1, None) == 250.0
    ensures RetryDelay(attempts + 1, None) == 2.0 * RetryDelay(attempts, None)
    ensures var added := RetryDelay(attempts, jitter) - RetryDelay(attempts, None);
            && (jitter.None? || jitter.value < 0.0 ==> added == 0.0)
            && (jitter.Some? && jitter.value >= 0.0 ==> jitter.value - 1.0 < added <= jitter.value)
  {
    var power := Power2(attempts - 1);
    assert Power2(attempts) == 2 * power;
  }

  /** Until when the transport asks to be left alone after a success, if it says so. */
  function RestUntil(response: Response, now: real, before: real): real {
    if response.exhausted && response.resetAfter.Some? && 0.0 <= response.resetAfter.value <= 86_400.0
    then now + response.resetAfter.value * 1000.0
    else before
  }

  /** Nothing takes any time. */
  predicate Instant(t: Turn) { t.exchange.elapsed == 0.0 && t.body.elapsed == 0.0 && t.waiting.elapsed == 0.0 }

  predicate NothingLasts(s: Script) {
    s.waiting.elapsed == 0.0 && forall i :: 0 <= i < |s.turns| ==> Instant(s.turns[i])
  }

  /** Every wait would last for all of the budget. */
  predicate WaitsForLong(s: Script, budget: real) {
    s.waiting.elapsed >= budget && forall i :: 0 <= i < |s.turns| ==> s.turns[i].waiting.elapsed >= budget
  }

  /** The error of a call without an answer. */
  function Missed(aborted: bool, attempts: nat, x: Exchange): DeliveryError {
    if aborted then DeliveryError(DeliveryCancelled, Cancelled, attempts, None)
    else if x.timerFires || x.response.Some? then DeliveryError(AttemptTimedOut, TimedOut, attempts, None)
    else DeliveryError(NetworkFailed, Network, attempts, None)
  }

  class DiscordWebhookNotificationPort {
    const requestTimeoutMs: real
    const maxAttempts: int
    const totalBudgetMs: real
    var nextAllowedAt: real
    var aborted: bool
    var now: real
    /** The transport calls of the present send. */
    ghost var calls: seq<Call>
    /** Nothing has lasted longer than it was given. */
    ghost var punctual: bool
    /** No wait has ended before its time and gone on. */
    ghost var patient: bool

    constructor (requestTimeoutMs: real, maxAttempts: int, totalBudgetMs: real, now: real)
      ensures this.requestTimeoutMs == requestTimeoutMs && this.maxAttempts == maxAttempts
      ensures this.totalBudgetMs == totalBudgetMs && this.now == now && !aborted && nextAllowedAt == 0.0
      ensures punctual && patient && calls == []
    {
      this.requestTimeoutMs, this.maxAttempts, this.totalBudgetMs := requestTimeoutMs, maxAttempts, totalBudgetMs;
      this.now, aborted, nextAllowedAt := now, false, 0.0;
      calls, punctual, patient := [], true, true;
    }

    function RemainingBudget(startedAt: real): real
      reads this
    {
      totalBudgetMs - (now - startedAt)
    }

    /** At an await time passes, and the port may be closed. */
    method Pass(elapsed: real, allotted: real, closes: bool)
      requires elapsed >= 0.0
      modifies this`now, this`aborted, this`punctual
      ensures now == old(now) + elapsed && aborted == (old(aborted) || closes)
      ensures punctual <==> old(punctual) && elapsed <= allotted
    {
      now := now + elapsed;
      aborted := aborted || closes;
      punctual := punctual && elapsed <= allotted;
    }

    /** What is behind an error of a wait until then. */
    ghost predicate WaitEnds(e: DeliveryError, until: real, startedAt: real, w: Waiting)
      reads this
    {
      && e.status.None? && (e.code.DeliveryCancelled? <==> aborted)
      && match e.code
         case DeliveryCancelled => e.classification.Cancelled?
         case BudgetExhausted => e.classification.TimedOut? && until - startedAt > totalBudgetMs
         case WaitFailed => e.classification.Network? && w.fails
         case _ => false
    }

    /** What is behind an error after a call: closing, the budget, a wait, or what the call was answered. */
    ghost predicate Blames(e: DeliveryError, startedAt: real, call: Call, turn: Turn, attempts: nat)
      reads this
    {
      && e.attempts == attempts && (e.code.DeliveryCancelled? <==> aborted)
      && match e.code
         case DeliveryCancelled => e.classification.Cancelled? && e.status.None?
         case ContentTooLong => false
         case BudgetExhausted =>
           && e.classification.TimedOut? && e.status.None?
           && (RemainingBudget(startedAt) <= 0.0 || call.until - startedAt > totalBudgetMs)
         case WaitFailed => e.classification.Network? && e.status.None? && turn.waiting.fails
         case AttemptTimedOut =>
           && e.classification.TimedOut? && e.status.None? && attempts >= maxAttempts
           && (turn.exchange.timerFires || turn.exchange.response.Some?) && call.status.None?
         case NetworkFailed =>
           && e.classification.Network? && e.status.None? && attempts >= maxAttempts
           && !turn.exchange.timerFires && turn.exchange.response.None?
         case RateLimitedCode =>
           && e.classification.RateLimited? && e.status == call.status == Some(429) && RemainingBudget(startedAt) > 0.0
           && (attempts < maxAttempts ==>
                 && ParseSeconds(turn.body.retryAfter).None?
                 && (turn.exchange.response.Some? ==>
                       ParseSeconds(turn.exchange.response.value.retryAfter).None?))
         case RetriesExhausted =>
           && e.classification.ServerError? && e.status == call.status && attempts >= maxAttempts
           && (call.status == Some(500) || call.status == Some(502) || call.status == Some(503)
               || call.status == Some(504))
         case HttpRejected =>
           && e.status == call.status && call.status.Some? && !Success(call.status.value) && !Retryable(call.status)
           && e.classification == if 400 <= call.status.value < 500 then ClientError else ServerError
    }

    method WaitWithinBudget(delay: real, startedAt: real, attempts: nat, w: Waiting) returns (e: Option<DeliveryError>)
      requires w.elapsed >= 0.0
      modifies this`now, this`aborted, this`punctual, this`patient
      ensures now >= old(now)
      ensures punctual ==>
                old(punctual) && (old(RemainingBudget(startedAt)) >= 0.0 ==> RemainingBudget(startedAt) >= 0.0)
      ensures patient ==> old(patient) && (e.None? ==> now >= old(now) + delay)
      ensures old(punctual) && w.elapsed == 0.0 ==> punctual
      ensures old(patient) && w.elapsed >= old(RemainingBudget(startedAt)) ==> patient
      ensures old(aborted) ==> e == Some(DeliveryError(DeliveryCancelled, Cancelled, attempts, None))
      ensures !old(aborted) && 0.0 < delay && delay > old(RemainingBudget(startedAt)) ==>
                e == Some(DeliveryError(BudgetExhausted, TimedOut, attempts, None)) && now == old(now)
      ensures !old(aborted) && delay <= 0.0 ==> e.None? && now == old(now) && !aborted
      ensures !old(aborted) && 0.0 < delay <= old(RemainingBudget(startedAt)) ==> (e.None? <==> !w.fails)
      ensures e.Some? ==> e.value.attempts == attempts && WaitEnds(e.value, old(now) + delay, startedAt, w)
    {
      if aborted { return Some(DeliveryError(DeliveryCancelled, Cancelled, attempts, None)); }
      if delay <= 0.0 { return None; }
      if delay > RemainingBudget(startedAt) { return Some(DeliveryError(BudgetExhausted, TimedOut, attempts, None)); }
      Pass(w.elapsed, delay, w.closes);
      if !w.fails {
        patient := patient && w.elapsed >= delay;
        return None;
      }
      if aborted { return Some(DeliveryError(DeliveryCancelled, Cancelled, attempts, None)); }
      return Some(DeliveryError(WaitFailed, Network, attempts, None));
    }

    /** One call of the transport; an answer that comes too late, or after closing, is none. */
    method Attempt(timeout: real, attempts: nat, x: Exchange) returns (r: Result<Response, DeliveryError>)
      requires x.elapsed >= 0.0 && !aborted
      modifies this`now, this`aborted, this`punctual, this`calls
      ensures now == old(now) + x.elapsed && aborted == (old(aborted) || x.closes)
      ensures punctual <==> old(punctual) && x.elapsed <= timeout
      ensures calls == old(calls) + [Call(old(now), timeout, if r.Ok? then Some(r.value.status) else None, now)]
      ensures r.Ok? <==> x.response.Some? && !x.closes && !x.timerFires && x.elapsed < timeout
      ensures r.Ok? ==> r.value == x.response.value
      ensures r.Err? ==> r.error == Missed(aborted, attempts, x)
    {
      Pass(x.elapsed, timeout, x.closes);
      if x.response.None? {
        r := Err(if aborted then DeliveryError(DeliveryCancelled, Cancelled, attempts, None)
                 else if x.timerFires then DeliveryError(AttemptTimedOut, TimedOut, attempts, None)
                 else DeliveryError(NetworkFailed, Network, attempts, None));
      } else if aborted {
        r := Err(DeliveryError(DeliveryCancelled, Cancelled, attempts, None));
      } else if x.timerFires || x.elapsed >= timeout {
        r := Err(DeliveryError(AttemptTimedOut, TimedOut, attempts, None));
      } else {
        r := Ok(x.response.value);
      }
      calls := calls + [Call(old(now), timeout, if r.Ok? then Some(r.value.status) else None, now)];
    }

    /** Every call began within the budget, with a timeout that fits into it. */
    ghost predicate WithinBudget(startedAt: real)
      reads this
    {
      forall i :: 0 <= i < |calls| ==>
        && calls[i].at - startedAt < totalBudgetMs
        && calls[i].timeout == Smaller(requestTimeoutMs, totalBudgetMs - (calls[i].at - startedAt))
    }

    /** Every call but the last was answered by nothing or by a status that may be retried, and the next one
        was put off for as long as it had to be. */
    ghost predicate Retried(turns: seq<Turn>)
      requires |turns| >= |calls|
      reads this
    {
      forall i :: 0 <= i < |calls| - 1 ==>
        && Retryable(calls[i].status)
        && calls[i].until == DueAt(calls[i].at, calls[i].status, turns[i], i + 1)
        && (patient ==> calls[i].until <= calls[i + 1].at)
    }

    /** Notes until when the next call has to be put off, and waits that long. */
    method PutOff(delay: real, startedAt: real, attempts: nat, w: Waiting) returns (e: Option<DeliveryError>)
      requires w.elapsed >= 0.0 && calls != []
      modifies this`now, this`aborted, this`punctual, this`patient, this`calls
      ensures calls == old(calls)[..|old(calls)| - 1] + [old(calls)[|old(calls)| - 1].(until := old(now) + delay)]
      ensures now >= old(now)
      ensures punctual ==>
                old(punctual) && (old(RemainingBudget(startedAt)) >= 0.0 ==> RemainingBudget(startedAt) >= 0.0)
      ensures patient ==> old(patient) && (e.None? ==> calls[|calls| - 1].until <= now)
      ensures old(punctual) && w.elapsed == 0.0 ==> punctual
      ensures old(patient) && w.elapsed >= old(RemainingBudget(startedAt)) ==> patient
      ensures old(aborted) ==> e.Some?
      ensures e.Some? ==>
                e.value.attempts == attempts && WaitEnds(e.value, calls[|calls| - 1].until, startedAt, w)
    {
      calls := calls[..|calls| - 1] + [calls[|calls| - 1].(until := now + delay)];
      e := WaitWithinBudget(delay, startedAt, attempts, w);
    }

    /** The header decides; without a readable one the body is read. */
    method RetryAfter(response: Response, body: BodyRead, budget: real) returns (delay: Option<real>)
      requires body.elapsed >= 0.0
      modifies this`now, this`aborted, this`punctual
      ensures delay == if ParseSeconds(response.retryAfter).Some? then ParseSeconds(response.retryAfter)
                       else ParseSeconds(body.retryAfter)
      ensures now == old(now) + if ParseSeconds(response.retryAfter).Some? then 0.0 else body.elapsed
      ensures punctual ==> old(punctual) && (budget >= 0.0 ==> now <= old(now) + budget)
      ensures old(punctual) && body.elapsed == 0.0 <= budget ==> punctual
      ensures aborted == (old(aborted) || (ParseSeconds(response.retryAfter).None? && body.closes))
    {
      delay := ParseSeconds(response.retryAfter);
      if delay.None? {
        Pass(body.elapsed, budget, body.closes);
        delay := ParseSeconds(body.retryAfter);
      }
    }

    method RecordRateLimit(response: Response)
      modifies this`nextAllowedAt
      ensures nextAllowedAt == RestUntil(response, now, old(nextAllowedAt))
      ensures nextAllowedAt != old(nextAllowedAt) ==> now <= nextAllowedAt <= now + DAY_MS
    {
      if !response.exhausted { return; }
      var resetAfter := ParseSeconds(response.resetAfter);
      if resetAfter.Some? { nextAllowedAt := now + resetAfter.value; }
    }

    /** What an answer below success leads to: nothing means that the next attempt may begin. */
    method Refused(response: Response, startedAt: real, attempts: nat, turn: Turn) returns (e: Option<DeliveryError>)
      requires Forward(turn) && attempts >= 1 && !Success(response.status) && RemainingBudget(startedAt) > 0.0
      requires turn.exchange.response == Some(response) && !aborted
      requires calls != [] && calls[|calls| - 1].status == Some(response.status)
      modifies this`now, this`aborted, this`punctual, this`patient, this`calls
      ensures |calls| == |old(calls)| && calls[..|calls| - 1] == old(calls)[..|calls| - 1]
      ensures calls[|calls| - 1] == old(calls)[|calls| - 1].(until := calls[|calls| - 1].until)
      ensures now >= old(now)
      ensures punctual ==> old(punctual) && RemainingBudget(startedAt) >= 0.0
      ensures patient ==> old(patient) && (e.None? ==> calls[|calls| - 1].until <= now)
      ensures e.None? ==> attempts < maxAttempts && Retryable(Some(response.status))
      ensures old(punctual) && Instant(turn) ==> punctual
      ensures old(patient) && turn.waiting.elapsed >= old(RemainingBudget(startedAt)) ==> patient
      ensures e.None? ==>
                calls[|calls| - 1].until ==
                DueAt(old(now) - turn.exchange.elapsed, Some(response.status), turn, attempts)
      ensures e.Some? ==> Blames(e.value, startedAt, calls[|calls| - 1], turn, attempts)
    {
      if response.status == 429 {
        var retryAfter := RetryAfter(response, turn.body, RemainingBudget(startedAt));
        if aborted { return Some(DeliveryError(DeliveryCancelled, Cancelled, attempts, None)); }
        if RemainingBudget(startedAt) <= 0.0 { return Some(DeliveryError(BudgetExhausted, TimedOut, attempts, None)); }
        if retryAfter.None? || attempts >= maxAttempts {
          return Some(DeliveryError(RateLimitedCode, RateLimited, attempts, Some(response.status)));
        }
        e := PutOff(retryAfter.value, startedAt, attempts, turn.waiting);
      } else {
        var retryable := response.status in [500, 502, 503, 504];
        if !retryable || attempts >= maxAttempts {
          return Some(DeliveryError(if retryable then RetriesExhausted else HttpRejected,
                                    if 400 <= response.status < 500 then ClientError else ServerError,
                                    attempts, Some(response.status)));
        }
        e := PutOff(RetryDelay(attempts, turn.jitter), startedAt, attempts, turn.waiting);
      }
    }

    /** What follows a call that has just ended; nothing means that the next attempt may begin. */
    method Settle(answer: Result<Response, DeliveryError>, startedAt: real, attempts: nat, turn: Turn)
      returns (done: Option<Result<(), DeliveryError>>)
      requires Forward(turn) && attempts >= 1 && calls != []
      requires answer.Ok? ==> turn.exchange.response == Some(answer.value) && !aborted
      requires answer.Ok? ==> calls[|calls| - 1].status == Some(answer.value.status)
      requires answer.Err? ==>
                 answer.error == Missed(aborted, attempts, turn.exchange) && calls[|calls| - 1].status.None?
      requires calls[|calls| - 1].until == now == calls[|calls| - 1].at + turn.exchange.elapsed
      modifies this
      ensures |calls| == |old(calls)| && calls[..|calls| - 1] == old(calls)[..|calls| - 1]
      ensures calls[|calls| - 1] == old(calls)[|calls| - 1].(until := calls[|calls| - 1].until)
      ensures now >= old(now)
      ensures punctual ==>
                old(punctual) && (old(RemainingBudget(startedAt)) >= 0.0 ==> RemainingBudget(startedAt) >= 0.0)
      ensures patient ==> old(patient) && (done.None? ==> calls[|calls| - 1].until <= now)
      ensures old(punctual) && Instant(turn) ==> punctual
      ensures old(patient) && turn.waiting.elapsed >= old(RemainingBudget(startedAt)) ==> patient
      ensures done.None? ==>
                var last := calls[|calls| - 1];
                && attempts < maxAttempts && Retryable(last.status)
                && last.until == DueAt(last.at, last.status, turn, attempts)
      ensures done.Some? && done.value.Err? ==> Blames(done.value.error, startedAt, calls[|calls| - 1], turn, attempts)
      ensures done.Some? && done.value.Ok? <==>
                answer.Ok? && Success(answer.value.status) && old(RemainingBudget(startedAt)) > 0.0
      ensures done.Some? && done.value.Ok? ==>
                now == old(now) && nextAllowedAt == RestUntil(answer.value, now, old(nextAllowedAt))
      ensures answer.Ok? && Success(answer.value.status) ==> done.Some?
      ensures done.None? || done.value.Err? ==> nextAllowedAt == old(nextAllowedAt)
    {
      if answer.Err? {
        if answer.error.classification.Cancelled? || attempts >= maxAttempts { return Some(Err(answer.error)); }
        var e := PutOff(RetryDelay(attempts, turn.jitter), startedAt, attempts, turn.waiting);
        return if e.Some? then Some(Err(e.value)) else None;
      }
      if RemainingBudget(startedAt) <= 0.0 {
        return Some(Err(DeliveryError(BudgetExhausted, TimedOut, attempts, None)));
      }
      if Success(answer.value.status) {
        RecordRateLimit(answer.value);
        return Some(Ok(()));
      }
      var e := Refused(answer.value, startedAt, attempts, turn);
      return if e.Some? then Some(Err(e.value)) else None;
    }

    /** One turn of the retry loop; nothing means that the loop goes on. */
    method TakeTurn(startedAt: real, before: nat, turn: Turn) returns (done: Option<Result<(), DeliveryError>>)
      requires Forward(turn) && before < maxAttempts && |calls| == before && WithinBudget(startedAt)
      modifies this
      ensures WithinBudget(startedAt) && |old(calls)| <= |calls| && calls[..before] == old(calls)
      ensures now >= old(now)
      ensures punctual ==>
                old(punctual) && (old(RemainingBudget(startedAt)) >= 0.0 ==> RemainingBudget(startedAt) >= 0.0)
      ensures patient ==> old(patient)
      ensures old(punctual) && Instant(turn) && requestTimeoutMs >= 0.0 ==> punctual
      ensures old(patient) && turn.waiting.elapsed >= old(RemainingBudget(startedAt)) ==> patient
      ensures |calls| == before <==> old(aborted) || old(RemainingBudget(startedAt)) <= 0.0
      ensures |calls| == before ==>
                && done == Some(Err(if aborted then DeliveryError(DeliveryCancelled, Cancelled, before, None)
                                    else DeliveryError(BudgetExhausted, TimedOut, before, None)))
                && (aborted || RemainingBudget(startedAt) <= 0.0)
      ensures |calls| > before ==> |calls| == before + 1 && calls[before].at == old(now)
      ensures done.None? ==> && |calls| == before + 1 < maxAttempts && Retryable(calls[before].status)
                             && calls[before].until == DueAt(calls[before].at, calls[before].status, turn, before + 1)
                             && (patient ==> calls[before].until <= now)
      ensures |calls| > before ==> Concludes(done, startedAt, calls[before], turn, old(nextAllowedAt))
      ensures done.None? || done.value.Err? ==> nextAllowedAt == old(nextAllowedAt)
    {
      if aborted { return Some(Err(DeliveryError(DeliveryCancelled, Cancelled, before, None))); }
      var remaining := RemainingBudget(startedAt);
      if remaining <= 0.0 { return Some(Err(DeliveryError(BudgetExhausted, TimedOut, before, None))); }
      var answer := Attempt(Smaller(requestTimeoutMs, remaining), before + 1, turn.exchange);
      done := Settle(answer, startedAt, before + 1, turn);
    }

    /** How a call ends the send: with its success if the budget has not run out meanwhile, or with an error
        that has its reason. */
    ghost predicate Concludes(done: Option<Result<(), DeliveryError>>, startedAt: real, call: Call, turn: Turn,
                              rest: real)
      reads this
    {
      && (done.Some? && done.value.Ok? <==>
            && call.status.Some? && 200 <= call.status.value < 300
            && call.at + turn.exchange.elapsed - startedAt < totalBudgetMs)
      && (done.Some? && done.value.Ok? ==>
            && now == call.at + turn.exchange.elapsed && turn.exchange.response.Some?
            && nextAllowedAt == RestUntil(turn.exchange.response.value, now, rest))
      && (done.Some? && done.value.Err? ==> Blames(done.value.error, startedAt, call, turn, |calls|))
    }

    /** The retry loop. */
    method Retry(startedAt: real, script: Script) returns (r: Result<(), DeliveryError>)
      requires TimeRunsForward(script) && |script.turns| >= maxAttempts && calls == [] && startedAt <= now
      modifies this
      ensures |calls| <= |script.turns| && (calls == [] || |calls| <= maxAttempts)
      ensures WithinBudget(startedAt) && Retried(script.turns)
      ensures maxAttempts < 1 ==> r.Ok? && calls == [] && now == old(now)
      ensures calls != [] ==>
                && calls[0].at == old(now)
                && Concludes(Some(r), startedAt, calls[|calls| - 1], script.turns[|calls| - 1], old(nextAllowedAt))
      ensures calls == [] && maxAttempts >= 1 ==>
                && r == Err(if aborted then DeliveryError(DeliveryCancelled, Cancelled, 0, None)
                            else DeliveryError(BudgetExhausted, TimedOut, 0, None))
                && (aborted || RemainingBudget(startedAt) <= 0.0)
      ensures r.Err? || calls == [] ==> nextAllowedAt == old(nextAllowedAt)
      ensures punctual ==>
                old(punctual) && (old(RemainingBudget(startedAt)) >= 0.0 ==> RemainingBudget(startedAt) >= 0.0)
      ensures patient ==> old(patient)
      ensures old(punctual) && requestTimeoutMs >= 0.0 && NothingLasts(script) ==> punctual
      ensures old(patient) && WaitsForLong(script, totalBudgetMs) ==> patient
    {
      var attempts := 0;
      while attempts < maxAttempts
        invariant attempts == |calls| && (attempts == 0 || attempts < maxAttempts)
        invariant attempts <= |script.turns| && WithinBudget(startedAt) && Retried(script.turns)
        invariant nextAllowedAt == old(nextAllowedAt) && startedAt <= now
        invariant calls == [] ==> now == old(now)
        invariant calls != [] ==>
                    var last := calls[attempts - 1];
                    && calls[0].at == old(now) && Retryable(last.status) && (patient ==> last.until <= now)
                    && last.until == DueAt(last.at, last.status, script.turns[attempts - 1], attempts)
        invariant punctual ==>
                    old(punctual) && (old(RemainingBudget(startedAt)) >= 0.0 ==> RemainingBudget(startedAt) >= 0.0)
        invariant patient ==> old(patient)
        invariant old(punctual) && requestTimeoutMs >= 0.0 && NothingLasts(script) ==> punctual
        invariant old(patient) && WaitsForLong(script, totalBudgetMs) ==> patient
      {
        var done := TakeTurn(startedAt, attempts, script.turns[attempts]);
        attempts := attempts + 1;
        if done.Some? { return done.value; }
      }
      r := Ok(());
    }

    /** With an attempt allowed, a message counts as sent exactly if a last call was answered with success in
        time; no more than maxAttempts calls are made, each within the budget and only after a failure that may
        be retried; every error tells how many there were, and has its reason; and if nothing lasts longer than
        it was given, the send is over within the budget. Without an attempt allowed, it counts as sent and
        nothing was called. */
    method Send(contentLength: nat, script: Script) returns (r: Result<(), DeliveryError>)
      requires TimeRunsForward(script) && |script.turns| >= maxAttempts
      modifies this
      ensures WithinBudget(old(now)) && |calls| <= |script.turns| && Retried(script.turns)
      ensures calls != [] ==>
                Concludes(Some(r), old(now), calls[|calls| - 1], script.turns[|calls| - 1], old(nextAllowedAt))
      ensures calls == [] && maxAttempts >= 1 ==> r.Err?
      ensures calls == [] && r.Err? ==>
                BeforeAnyCall(r.error, contentLength, old(now), old(nextAllowedAt), script.waiting)
      ensures maxAttempts < 1 ==>
                && calls == []
                && (r.Ok? <==>
                      && !old(aborted) && contentLength <= MAX_CONTENT_LENGTH
                      && var early := old(nextAllowedAt) - old(now);
                         early <= 0.0 || (early <= totalBudgetMs && !script.waiting.fails))
      ensures calls == [] || |calls| <= maxAttempts
      ensures r.Err? ==> r.error.attempts == |calls|
      ensures r.Err? || calls == [] ==> nextAllowedAt == old(nextAllowedAt)
      ensures patient && calls != [] ==> calls[0].at >= old(nextAllowedAt)
      ensures punctual && totalBudgetMs >= 0.0 ==> now - old(now) <= totalBudgetMs
      ensures requestTimeoutMs >= 0.0 && NothingLasts(script) ==> punctual
      ensures WaitsForLong(script, totalBudgetMs) ==> patient
      ensures old(aborted) ==> r == Err(DeliveryError(DeliveryCancelled, Cancelled, 0, None))
      ensures !old(aborted) && contentLength > MAX_CONTENT_LENGTH ==>
                r == Err(DeliveryError(ContentTooLong, Configuration, 0, None))
    {
      calls, punctual, patient := [], true, true;
      if aborted { return Err(DeliveryError(DeliveryCancelled, Cancelled, 0, None)); }
      if contentLength > MAX_CONTENT_LENGTH { return Err(DeliveryError(ContentTooLong, Configuration, 0, None)); }
      var startedAt := now;
      var early := nextAllowedAt - now;
      var e := WaitWithinBudget(if early > 0.0 then early else 0.0, startedAt, 0, script.waiting);
      if e.Some? { return Err(e.value); }
      r := Retry(startedAt, script);
    }

    /** What is behind an error with no call made. */
    ghost predicate BeforeAnyCall(e: DeliveryError, contentLength: nat, startedAt: real, rest: real, w: Waiting)
      reads this
    {
      && e.attempts == 0 && e.status.None? && (e.code.DeliveryCancelled? <==> aborted)
      && match e.code
         case DeliveryCancelled => e.classification.Cancelled?
         case ContentTooLong => e.classification.Configuration? && contentLength > MAX_CONTENT_LENGTH
         case BudgetExhausted =>
           e.classification.TimedOut? && (RemainingBudget(startedAt) <= 0.0 || rest - startedAt > totalBudgetMs)
         case WaitFailed => e.classification.Network? && w.fails
         case _ => false
    }

    method Close()
      modifies this`aborted
      ensures aborted
    {
      aborted := true;
    }
  }

  /** That a message counts as sent only after a call answered with success takes an attempt: for any number
      below one there is a send that resolves without a call. */
  method SentWithoutACall(maxAttempts: int) returns (port: DiscordWebhookNotificationPort, r: Result<(), DeliveryError>)
    requires maxAttempts < 1
    ensures port.maxAttempts == maxAttempts && r.Ok? && port.calls == []
  {
    port := new DiscordWebhookNotificationPort(1_000.0, maxAttempts, 10_000.0, 0.0);
    r := port.Send(0, Script(Waiting(0.0, false, false), []));
  }
}
