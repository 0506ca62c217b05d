/**
  The outbox rows and the code that changes them in place: the repository
  (src/outbox/repository.py) and one batch of the publishing worker
  (src/worker.py). Times are microseconds.
*/
module Outbox {
  import opened Common

  const SECOND := 1_000_000
  const MAX_ATTEMPTS := 5
  const MAX_DELAY := 300
  const ERROR_LIMIT := 2000

  datatype Status = Pending | Processing | Processed | Failed

  datatype Row = Row(
    createdAt: int,
    status: Status,
    attempts: nat,
    nextAttemptAt: Option<int>,
    lastError: Option<string>,
    processedAt: Option<int>)

  function Pow2(n: nat): (r: nat)
    ensures r > n
  {
    if n == 0 then 1 else 2 * Pow2(n - 1)
  }

  function Delay(attempts: nat): int {
    Min(MAX_DELAY, Pow2(attempts)) * SECOND
  }

  lemma {:induction false} Doubling(n: nat, k: nat)
    requires k <= n
    ensures Pow2(n) >= Pow2(k)
  {
    if k < n {
      Doubling(n - 1, k);
    }
  }

  /** The delays in seconds: doubling up to 256, then 300. */
  lemma DelayTable(attempts: nat)
    ensures attempts <= 8 ==> Delay(attempts) == [1, 2, 4, 8, 16, 32, 64, 128, 256][attempts] * 1_000_000
    ensures attempts >= 9 ==> Delay(attempts) == 300 * 1_000_000
  {
    assert Pow2(2) == 4 && Pow2(4) == 16 && Pow2(6) == 64 && Pow2(8) == 256;
    if attempts >= 9 {
      Doubling(attempts, 9);
    }
  }

  predicate Due(r: Row, now: int) {
    && r.status == Pending
    && (r.nextAttemptAt == None || r.nextAttemptAt.value <= now)
  }

  function FreshRow(createdAt: int): Row {
    Row(createdAt, Pending, 0, None, None, None)
  }

  function ClaimedRow(r: Row): Row {
    r.(status := Processing)
  }

  function ProcessedRow(r: Row, now: int): Row {
    r.(status := Processed, processedAt := Some(now), lastError := None)
  }

  function FailedRow(r: Row, error: string, now: int, maxAttempts: nat := MAX_ATTEMPTS): Row {
    var counted := r.(attempts := r.attempts + 1, lastError := Some(Prefix(error, ERROR_LIMIT)));
    if counted.attempts >= maxAttempts then counted.(status := Failed)
    else counted.(status := Pending, nextAttemptAt := Some(now + Delay(counted.attempts)))
  }

  // ---- the claim query -------------------------------------------------

  /** The rows the claim may take: due and not locked by another transaction. */
  function Candidates(rows: seq<Row>, locked: set<nat>, now: int): set<nat> {
    set i | 0 <= i < |rows| && Due(rows[i], now) && i !in locked
  }

  ghost predicate OldestFirst(order: seq<nat>, rows: seq<Row>) {
    && (forall i :: 0 <= i < |order| ==> order[i] < |rows|)
    && forall i, j :: 0 <= i < j < |order| ==> rows[order[i]].createdAt <= rows[order[j]].createdAt
  }

  ghost predicate Enumerates(order: seq<nat>, rows: seq<Row>, locked: set<nat>, now: int) {
    && Distinct(order)
    && (forall i :: i in order <==> i in Candidates(rows, locked, now))
    && OldestFirst(order, rows)
  }

  /** ORDER BY created_at LIMIT limit FOR UPDATE SKIP LOCKED: some ordering of
      the candidates by age, cut off after `limit`. Ties may fall either way. */
  ghost predicate Selects(ids: seq<nat>, rows: seq<Row>, locked: set<nat>, now: int, limit: nat) {
    exists order: seq<nat> :: Enumerates(order, rows, locked, now) && ids == Prefix<nat>(order, limit)
  }

  /** What a claim gets: at most `limit` distinct rows, all PENDING, due and
      unlocked, where a row without a time for its next attempt is due; and such
      a row is passed over only when the batch is full and nothing in it is
      younger. */
  lemma ClaimTakesTheOldest(ids: seq<nat>, rows: seq<Row>, locked: set<nat>, now: int, limit: nat)
    requires Selects(ids, rows, locked, now, limit)
    ensures |ids| <= limit && Distinct(ids)
    ensures forall i <- ids ::
              && i in Candidates(rows, locked, now) && i < |rows| && i !in locked && rows[i].status == Pending
              && (rows[i].nextAttemptAt == None || rows[i].nextAttemptAt.value <= now)
    ensures forall c: nat :: c < |rows| && c !in ids && c !in locked && rows[c].status == Pending &&
                             (rows[c].nextAttemptAt == None || rows[c].nextAttemptAt.value <= now) ==>
              && c in Candidates(rows, locked, now) && |ids| == limit
              && forall i <- ids :: rows[i].createdAt <= rows[c].createdAt
  {
    var order: seq<nat> :| Enumerates(order, rows, locked, now) && ids == Prefix<nat>(order, limit);
    assert ids == if |order| <= limit then order else order[..limit];
    forall i <- ids ensures i in Candidates(rows, locked, now) {
      assert i in order;
    }
    forall c | c in Candidates(rows, locked, now) && c !in ids
      ensures |ids| == limit && forall i <- ids :: rows[i].createdAt <= rows[c].createdAt
    {
      assert c in order;
      var b :| 0 <= b < |order| && order[b] == c;
      assert forall k :: 0 <= k < |ids| ==> order[k] == ids[k] && order[k] in ids;
    }
  }

  // ---- the mapped object and the methods that assign its columns -------

  class OutboxEvent {
    const createdAt: int
    var status: Status
    var attempts: nat
    var nextAttemptAt: Option<int>
    var lastError: Option<string>
    var processedAt: Option<int>

    constructor (createdAt: int)
      ensures this.createdAt == createdAt && status == Pending && attempts == 0
      ensures nextAttemptAt == None && lastError == None && processedAt == None
      ensures View() == FreshRow(createdAt)
    {
      this.createdAt := createdAt;
      status, attempts, nextAttemptAt, lastError, processedAt := Pending, 0, None, None, None;
    }

    function View(): Row
      reads this
    {
      Row(createdAt, status, attempts, nextAttemptAt, lastError, processedAt)
    }
  }

  /** claim_pending: `events` is what the query returned. */
  method ClaimPending(events: seq<OutboxEvent>)
    requires Distinct(events)
    modifies events
    ensures forall e <- events :: e.View() == ClaimedRow(old(e.View()))
    ensures forall e <- events ::
              && e.status == Processing && e.attempts == old(e.attempts) && e.nextAttemptAt == old(e.nextAttemptAt)
              && e.lastError == old(e.lastError) && e.processedAt == old(e.processedAt)
  {
    for i := 0 to |events|
      invariant forall j :: 0 <= j < i ==> events[j].View() == ClaimedRow(old(events[j].View()))
      invariant forall j :: i <= j < |events| ==> events[j].View() == old(events[j].View())
    {
      events[i].status := Processing;
    }
  }

  method MarkProcessed(event: OutboxEvent, now: int)
    modifies event
    ensures event.View() == ProcessedRow(old(event.View()), now)
    ensures event.status == Processed && event.processedAt == Some(now) && event.lastError == None
    ensures event.attempts == old(event.attempts) && event.nextAttemptAt == old(event.nextAttemptAt)
  {
    event.status := Processed;
    event.processedAt := Some(now);
    event.lastError := None;
  }

  method MarkFailedOrRetry(event: OutboxEvent, error: string, now: int, maxAttempts: nat := MAX_ATTEMPTS)
    modifies event
    ensures event.View() == FailedRow(old(event.View()), error, now, maxAttempts)
    ensures event.attempts == old(event.attempts) + 1 && event.processedAt == old(event.processedAt)
    ensures event.lastError == Some(if |error| <= 2000 then error else error[..2000])
    ensures if event.attempts >= maxAttempts then event.status == Failed && event.nextAttemptAt == old(event.nextAttemptAt)
            else event.status == Pending && event.nextAttemptAt.Some? &&
                 (event.attempts <= 8 ==>
                    event.nextAttemptAt.value == now + [1, 2, 4, 8, 16, 32, 64, 128, 256][event.attempts] * 1_000_000) &&
                 (event.attempts >= 9 ==> event.nextAttemptAt.value == now + 300 * 1_000_000)
  {
    DelayTable(event.attempts + 1);
    event.attempts := event.attempts + 1;
    event.lastError := Some(Prefix(error, ERROR_LIMIT));
    if event.attempts >= maxAttempts {
      event.status := Failed;
      return;
    }
    var delaySeconds := Min(MAX_DELAY, Pow2(event.attempts));
    event.status := Pending;
    event.nextAttemptAt := Some(now + delaySeconds * SECOND);
  }

  /** Where the try block raised: building the message, publishing it (which
      may have reached the exchange all the same), or marking it PROCESSED. */
  datatype Stage = InBuild | InPublish(delivered: bool) | InMark

  /** How one event of a batch went: published and marked at `at`, or an
      exception handled at `at`. */
  datatype Outcome = Published(at: int) | Raised(stage: Stage, error: string, at: int)

  function Successes(outcomes: seq<Outcome>): nat {
    if outcomes == [] then 0 else (if outcomes[0].Published? then 1 else 0) + Successes(outcomes[1..])
  }

  function MarkedRow(r: Row, o: Outcome): Row {
    match o
    case Published(at) => ProcessedRow(r, at)
    case Raised(_, error, at) => FailedRow(r, error, at)
  }

  function SettledRow(r: Row, o: Outcome): Row {
    MarkedRow(ClaimedRow(r), o)
  }

  /** The body of the batch loop: the try, except and else branches. */
  method Mark(event: OutboxEvent, o: Outcome)
    modifies event
    ensures event.View() == MarkedRow(old(event.View()), o)
  {
    match o {
      case Published(at) => MarkProcessed(event, at);
      case Raised(_, error, at) => MarkFailedOrRetry(event, error, at);
    }
  }

  /** The batch loop. Where the outcomes end before the events do, the batch
      stops: its next marking transaction failed, or the process did. */
  method MarkBatch(events: seq<OutboxEvent>, outcomes: seq<Outcome>) returns (processed: nat)
    requires Distinct(events) && |outcomes| <= |events|
    modifies events
    ensures forall i :: 0 <= i < |outcomes| ==> events[i].View() == MarkedRow(old(events[i].View()), outcomes[i])
    ensures forall i :: |outcomes| <= i < |events| ==> events[i].View() == old(events[i].View())
    ensures processed == Successes(outcomes)
  {
    processed := 0;
    for i := 0 to |outcomes|
      invariant forall j :: 0 <= j < i ==> events[j].View() == MarkedRow(old(events[j].View()), outcomes[j])
      invariant forall j :: i <= j < |events| ==> events[j].View() == old(events[j].View())
      invariant processed + Successes(outcomes[i..]) == Successes(outcomes)
    {
      Mark(events[i], outcomes[i]);
      if outcomes[i].Published? {
        processed := processed + 1;
      }
    }
  }

  /** process_outbox_once: claim, then publish and mark one event after another.
      `events` is the query's answer, `outcomes` what the broker and the
      database do with each; the call raises when the batch stops. */
  method ProcessOutboxOnce(events: seq<OutboxEvent>, outcomes: seq<Outcome>) returns (processed: Option<nat>)
    requires Distinct(events) && |outcomes| <= |events|
    modifies events
    ensures forall i :: 0 <= i < |outcomes| ==> events[i].View() == SettledRow(old(events[i].View()), outcomes[i])
    ensures forall i :: |outcomes| <= i < |events| ==> events[i].View() == ClaimedRow(old(events[i].View()))
    ensures processed == if |outcomes| < |events| then None else Some(Successes(outcomes))
  {
    ClaimPending(events);
    var n := MarkBatch(events, outcomes);
    return if |outcomes| < |events| then None else Some(n);
  }

  /** A settled event is not PROCESSING, a failure has cost it exactly one
      attempt, and what is not marked PROCESSED is retried later or given up. */
  lemma RowIsSettled(r: Row, o: Outcome)
    ensures var q := SettledRow(r, o);
            q.createdAt == r.createdAt &&
            match o
            case Published(at) =>
              && q.status == Processed && q.processedAt == Some(at) && q.lastError == None
              && q.attempts == r.attempts && q.nextAttemptAt == r.nextAttemptAt
            case Raised(_, error, at) =>
              && q.attempts == r.attempts + 1 && q.processedAt == r.processedAt
              && q.lastError == Some(if |error| <= 2000 then error else error[..2000])
              && (r.attempts >= 4 ==> q.status == Failed && q.nextAttemptAt == r.nextAttemptAt)
              && (r.attempts < 4 ==>
                    q.status == Pending && q.nextAttemptAt == Some(at + [2, 4, 8, 16][r.attempts] * 1_000_000))
  {
    if o.Raised? {
      DelayTable(r.attempts + 1);
    }
  }

  /** Below the fifth failure a row is due again exactly from 2, 4, 8 or 16
      seconds later on; the fifth ends it. */
  lemma Backoff(r: Row, error: string, now: int)
    ensures var f := FailedRow(r, error, now);
            if r.attempts >= 4 then f.status == Failed && forall t :: !Due(f, t)
            else f.status == Pending && forall t :: Due(f, t) <==> t >= now + [2, 4, 8, 16][r.attempts] * 1_000_000
  {
    DelayTable(r.attempts + 1);
  }
}
