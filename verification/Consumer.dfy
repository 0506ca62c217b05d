/**
  The webhook consumers as a state machine over message copies, one await point
  at a time (src/webhook_worker.py, src/messaging/idempotency.py). Any number
  of deliveries are in progress at once; a copy's number is its index.
*/
module Consumer {
  import opened Common
  import opened Topology
  import opened Retry
  import opened Delivery

  datatype Body = Event(id: nat) | Garbage

  /** How far one delivery of a message has come. */
  datatype Phase =
    | Received
    | Inserted(acquired: bool)           // marker statement done, nothing committed
    | Worked(target: Target, rows: seq<DeliveryRow>)   // marker and rows pending in the transaction
    | Settled                            // transaction committed, ack to follow
    | Retrying                           // rolled back, publish_retry to follow
    | RetrySent                          // retry copy confirmed, ack to follow
    | Rejecting                          // reject to follow
    | Stuck                              // handle_retry raised, nothing follows

  /** Gone is where a handler ends whose message went back to the queue. */
  datatype Place = Queued | Held(phase: Phase) | Waiting(level: Level) | Dead | Acked | Gone

  /** A copy that is not `attached` is a handler that goes on after its broker
      connection dropped; the message itself is another copy by then.
      `born`, `visits`, `crashes` (with dropped connections) and `waited`
      (milliseconds) record the history of the message; a retry copy continues
      its original's. */
  datatype Copy = Copy(
    body: Body, headers: Headers, place: Place, attached: bool, born: int, visits: nat, crashes: nat, waited: nat)

  /** The Prometheus counters (`results` sums WEBHOOK_MESSAGES_PROCESSED_TOTAL
      over its labels, `dlq` WEBHOOK_DLQ_TOTAL) and what crashes took from them. */
  datatype Tally = Tally(
    invocations: nat, results: nat, invalid: nat, dlq: nat, retries: nat,
    lostResults: nat, lostRejects: nat, unconfirmed: nat)

  /** `served` records what the transaction that committed an event's marker
      found to deliver to. */
  datatype Mesh = Mesh(
    copies: seq<Copy>, markers: set<nat>, deliveries: seq<DeliveryRow>, served: map<nat, Target>, tally: Tally)

  datatype Action =
    | Publish(body: Body, headers: Headers)
    | Deliver(c: nat)
    | RefuseBody(c: nat)
    | Insert(c: nat)
    | Work(c: nat, target: Target)
    | Commit(c: nat)
    | CommitUnknown(c: nat)
    | Fail(c: nat, retryable: bool)
    | PublishRetry(c: nat)
    | PublishRetryError(c: nat, delivered: bool)
    | GiveUp(c: nat)
    | Reject(c: nat)
    | Ack(c: nat)
    | Expire(c: nat)
    | Crash(c: nat)
    | Detach(c: nat)

  /** Before anything was published. */
  predicate Fresh(m: Mesh) {
    && m.copies == [] && m.markers == {} && m.deliveries == [] && m.served == map[]
    && m.tally == Tally(0, 0, 0, 0, 0, 0, 0, 0)
  }

  predicate At(m: Mesh, c: nat, p: Place) {
    c < |m.copies| && m.copies[c].place == p
  }

  predicate Busy(m: Mesh, c: nat) {
    c < |m.copies| && m.copies[c].place.Held?
  }

  /** The copy's open transaction holds the marker row of event `e`. */
  predicate HoldsMarker(k: Copy, e: nat) {
    k.body == Event(e) && (k.place == Held(Inserted(true)) || (k.place.Held? && k.place.phase.Worked?))
  }

  predicate InTransaction(k: Copy) {
    k.body.Event? && k.place.Held? && (k.place.phase.Received? || k.place.phase.Inserted? || k.place.phase.Worked?)
  }

  /** Subscription ids come out of one table. */
  predicate ValidTarget(t: Target) {
    t.Subscribed? ==> forall i, j :: 0 <= i < j < |t.hooks| ==> t.hooks[i].id != t.hooks[j].id
  }

  /** INSERT ... ON CONFLICT DO NOTHING waits while another open transaction
      has inserted the same marker. */
  predicate Enabled(m: Mesh, a: Action) {
    match a
    case Publish(_, _) => true
    case Deliver(c) => At(m, c, Queued)
    case RefuseBody(c) => At(m, c, Held(Received)) && m.copies[c].body.Garbage?
    case Insert(c) =>
      && At(m, c, Held(Received)) && m.copies[c].body.Event?
      && forall d :: 0 <= d < |m.copies| ==> !HoldsMarker(m.copies[d], m.copies[c].body.id)
    case Work(c, target) =>
      && At(m, c, Held(Inserted(true))) && m.copies[c].body.Event? && ValidTarget(target)
      && Delivery.Deliver(target, m.copies[c].body.id).Some?
    case Commit(c) =>
      Busy(m, c) && m.copies[c].body.Event? &&
      (m.copies[c].place.phase == Inserted(false) || m.copies[c].place.phase.Worked?)
    case CommitUnknown(c) => Busy(m, c) && m.copies[c].body.Event? && m.copies[c].place.phase.Worked?
    case Fail(c, _) => c < |m.copies| && InTransaction(m.copies[c])
    case PublishRetry(c) => At(m, c, Held(Retrying)) && RetryLevel(RetryCount(m.copies[c].headers)).Some?
    case PublishRetryError(c, _) => At(m, c, Held(Retrying)) && RetryLevel(RetryCount(m.copies[c].headers)).Some?
    case GiveUp(c) => At(m, c, Held(Retrying)) && RetryLevel(RetryCount(m.copies[c].headers)).None?
    case Reject(c) => At(m, c, Held(Rejecting))
    case Ack(c) => At(m, c, Held(Settled)) || At(m, c, Held(RetrySent))
    case Expire(c) => c < |m.copies| && m.copies[c].place.Waiting?
    case Crash(c) => Busy(m, c)
    case Detach(c) => Busy(m, c) && m.copies[c].attached
  }

  function Move(m: Mesh, c: nat, p: Place): Mesh
    requires c < |m.copies|
  {
    m.(copies := m.copies[c := m.copies[c].(place := p)])
  }

  function RetryCopy(k: Copy): Copy
    requires RetryLevel(RetryCount(k.headers)).Some?
  {
    var level := RetryLevel(RetryCount(k.headers)).value;
    k.(headers := NextHeaders(k.headers), place := Waiting(level), attached := true, waited := k.waited + Ttl(level))
  }

  function Committed(m: Mesh, c: nat): Mesh
    requires Busy(m, c) && m.copies[c].body.Event? && m.copies[c].place.phase.Worked?
  {
    var e, phase := m.copies[c].body.id, m.copies[c].place.phase;
    m.(markers := m.markers + {e}, deliveries := m.deliveries + phase.rows, served := m.served[e := phase.target])
  }

  /** An ack or reject over a connection that is gone raises and settles nothing. */
  function Settle(k: Copy, p: Place): Copy {
    k.(place := if k.attached then p else Gone)
  }

  /** The result that the code counts only after the ack or the failure. */
  predicate Uncounted(p: Place) {
    p.Held? && (p.phase.Received? || p.phase.Inserted? || p.phase.Worked? || p.phase.Settled?)
  }

  function Apply(m: Mesh, a: Action): Mesh
    requires Enabled(m, a)
  {
    var t := m.tally;
    match a
    case Publish(body, headers) =>
      m.(copies := m.copies + [Copy(body, headers, Queued, true, RetryCount(headers), 0, 0, 0)])
    case Deliver(c) =>
      var k := m.copies[c];
      m.(copies := m.copies[c := k.(place := Held(Received), visits := k.visits + 1)],
         tally := t.(invocations := t.invocations + 1))
    case RefuseBody(c) =>
      Move(m, c, Held(Rejecting)).(tally := t.(results := t.results + 1, invalid := t.invalid + 1))
    case Insert(c) => Move(m, c, Held(Inserted(m.copies[c].body.id !in m.markers)))
    case Work(c, target) => Move(m, c, Held(Worked(target, Delivery.Deliver(target, m.copies[c].body.id).value)))
    case Commit(c) =>
      if m.copies[c].place.phase.Worked? then Move(Committed(m, c), c, Held(Settled)) else Move(m, c, Held(Settled))
    case CommitUnknown(c) =>
      Move(Committed(m, c), c, Held(Retrying)).(tally := t.(results := t.results + 1))
    case Fail(c, retryable) =>
      if retryable then Move(m, c, Held(Retrying)).(tally := t.(results := t.results + 1))
      else Move(m, c, Held(Rejecting)).(tally := t.(results := t.results + 1, dlq := t.dlq + 1))
    case PublishRetry(c) =>
      var sent := Move(m, c, Held(RetrySent));
      sent.(copies := sent.copies + [RetryCopy(m.copies[c])], tally := t.(retries := t.retries + 1))
    case PublishRetryError(c, delivered) =>
      var failed := Move(m, c, Held(Stuck));
      if delivered then
        failed.(copies := failed.copies + [RetryCopy(m.copies[c])], tally := t.(unconfirmed := t.unconfirmed + 1))
      else failed
    case GiveUp(c) => Move(m, c, Held(Rejecting)).(tally := t.(dlq := t.dlq + 1))
    case Reject(c) =>
      var k := m.copies[c];
      m.(copies := m.copies[c := Settle(k, Dead)],
         tally := if k.attached then t else t.(lostRejects := t.lostRejects + 1))
    case Ack(c) =>
      var k := m.copies[c];
      m.(copies := m.copies[c := Settle(k, Acked)],
         tally := if !k.place.phase.Settled? then t
                  else if k.attached then t.(results := t.results + 1)
                  else t.(lostResults := t.lostResults + 1))
    case Expire(c) => Move(m, c, Queued)
    case Crash(c) =>
      var k := m.copies[c];
      m.(copies := m.copies[c := if k.attached then k.(place := Queued, crashes := k.crashes + 1) else k.(place := Gone)],
         tally := if Uncounted(k.place) then t.(lostResults := t.lostResults + 1)
                  else if k.place.phase.Rejecting? then t.(lostRejects := t.lostRejects + 1)
                  else t)
    case Detach(c) =>
      var k := m.copies[c];
      m.(copies := m.copies[c := k.(attached := false)] + [k.(place := Queued, crashes := k.crashes + 1)])
  }

  predicate Runs(m: Mesh, acts: seq<Action>)
    decreases acts
  {
    acts == [] || (Enabled(m, acts[0]) && Runs(Apply(m, acts[0]), acts[1..]))
  }

  function After(m: Mesh, acts: seq<Action>): Mesh
    requires Runs(m, acts)
    decreases acts
  {
    if acts == [] then m else After(Apply(m, acts[0]), acts[1..])
  }

  // ---- one marker, one set of rows ---------------------------------------

  function RowsFor(rows: seq<DeliveryRow>, e: nat): seq<DeliveryRow> {
    if rows == [] then []
    else (if rows[0].event == e then [rows[0]] else []) + RowsFor(rows[1..], e)
  }

  lemma {:induction false} RowsForConcat(a: seq<DeliveryRow>, b: seq<DeliveryRow>, e: nat)
    ensures RowsFor(a + b, e) == RowsFor(a, e) + RowsFor(b, e)
  {
    if a == [] {
      assert a + b == b;
    } else {
      assert (a + b)[0] == a[0] && (a + b)[1..] == a[1..] + b;
      RowsForConcat(a[1..], b, e);
      var first := if a[0].event == e then [a[0]] else [];
      assert first + (RowsFor(a[1..], e) + RowsFor(b, e)) == first + RowsFor(a[1..], e) + RowsFor(b, e);
    }
  }

  lemma {:induction false} RowsForOne(rows: seq<DeliveryRow>, e: nat, f: nat)
    requires forall r <- rows :: r.event == e
    ensures RowsFor(rows, f) == if f == e then rows else []
  {
    if rows != [] {
      RowsForOne(rows[1..], e, f);
    }
  }

  /** `rows` is what delivering event `e` to `target` leaves. */
  predicate Complete(target: Target, rows: seq<DeliveryRow>, e: nat) {
    ValidTarget(target) && Delivery.Deliver(target, e) == Some(rows)
  }

  /** The subscribers that get a row, in order. */
  function Receivers(target: Target): seq<nat> {
    if target.Subscribed? then EligibleIds(target.hooks) else []
  }

  lemma CompleteRows(target: Target, rows: seq<DeliveryRow>, e: nat)
    requires Complete(target, rows, e)
    ensures forall r <- rows :: r.event == e
    ensures Webhooks(rows) == Receivers(target) && Distinct(Receivers(target))
    ensures target.Subscribed? ==> forall h <- target.hooks :: !Raises(h)
  {
    if target.Subscribed? {
      OneRowPerEligibleSubscriber(target.hooks, e);
      NoRepeatedSubscriber(target.hooks);
    }
  }

  ghost predicate CopyInv(m: Mesh, k: Copy) {
    && (k.body.Garbage? ==> k.place.Held? ==> k.place.phase.Received? || k.place.phase.Rejecting?)
    && (k.body.Garbage? ==> !k.place.Waiting? && !k.place.Acked?)
    && (k.place.Gone? ==> !k.attached) && (!k.attached ==> k.place.Held? || k.place.Gone?)
    && (k.place.Held? && k.place.phase.Worked? ==> Complete(k.place.phase.target, k.place.phase.rows, k.body.id))
    && (k.body.Event? ==> HoldsMarker(k, k.body.id) ==> k.body.id !in m.markers)
    && (k.place == Held(Inserted(false)) || k.place == Held(Settled) ==> k.body.id in m.markers)
  }

  ghost predicate MarkerInv(m: Mesh) {
    && (forall c :: 0 <= c < |m.copies| ==> CopyInv(m, m.copies[c]))
    && (forall c, d, e | 0 <= c < |m.copies| && 0 <= d < |m.copies| &&
                         HoldsMarker(m.copies[c], e) && HoldsMarker(m.copies[d], e) :: c == d)
  }

  /** Each event's rows are those of one complete delivery to what was recorded. */
  ghost predicate RowsAgree(deliveries: seq<DeliveryRow>, served: map<nat, Target>) {
    forall e: nat ::
      if e in served then Complete(served[e], RowsFor(deliveries, e), e) else RowsFor(deliveries, e) == []
  }

  ghost predicate RowsInv(m: Mesh) {
    m.served.Keys == m.markers && RowsAgree(m.deliveries, m.served)
  }

  ghost predicate Inv(m: Mesh) {
    MarkerInv(m) && RowsInv(m)
  }

  lemma FreshIsGood(m: Mesh)
    requires Fresh(m)
    ensures Inv(m)
  {
  }

  /** Does this step commit the marker and the rows of event `e`? */
  predicate Commits(m: Mesh, a: Action, e: nat)
    requires Enabled(m, a)
  {
    (a.Commit? || a.CommitUnknown?) && HoldsMarker(m.copies[a.c], e)
  }

  /** What appending the rows of event `e` does to the rows of each event. */
  lemma RowsAfterAppend(rows: seq<DeliveryRow>, more: seq<DeliveryRow>, e: nat, f: nat)
    requires forall r <- more :: r.event == e
    ensures RowsFor(rows + more, f) == if f == e then RowsFor(rows, f) + more else RowsFor(rows, f)
  {
    RowsForConcat(rows, more, f);
    RowsForOne(more, e, f);
    assert RowsFor(rows, f) + [] == RowsFor(rows, f);
  }

  lemma CommitKeepsMarkers(m: Mesh, a: Action)
    requires Inv(m) && Enabled(m, a) && (a.Commit? || a.CommitUnknown?)
    ensures MarkerInv(Apply(m, a))
  {
    var n := Apply(m, a);
    assert CopyInv(m, m.copies[a.c]);
    forall c | 0 <= c < |n.copies| ensures CopyInv(n, n.copies[c]) {
      assert CopyInv(m, m.copies[c]);
    }
  }

  lemma AppendKeepsRows(deliveries: seq<DeliveryRow>, served: map<nat, Target>,
                        target: Target, rows: seq<DeliveryRow>, id: nat)
    requires RowsAgree(deliveries, served) && id !in served && Complete(target, rows, id)
    ensures RowsAgree(deliveries + rows, served[id := target])
  {
    CompleteRows(target, rows, id);
    forall e: nat
      ensures if e in served[id := target] then Complete(served[id := target][e], RowsFor(deliveries + rows, e), e)
              else RowsFor(deliveries + rows, e) == []
    {
      RowsAfterAppend(deliveries, rows, id, e);
      assert [] + rows == rows;
    }
  }

  lemma CommitKeepsRows(m: Mesh, a: Action)
    requires Inv(m) && Enabled(m, a) && (a.Commit? || a.CommitUnknown?)
    ensures RowsInv(Apply(m, a))
  {
    var k := m.copies[a.c];
    assert CopyInv(m, k);
    if k.place.phase.Worked? {
      AppendKeepsRows(m.deliveries, m.served, k.place.phase.target, k.place.phase.rows, k.body.id);
    }
  }

  /** A step touches its own copy only, may append one that is queued or
      waiting, and writes to the database only when it commits. */
  lemma StepFrame(m: Mesh, a: Action)
    requires Enabled(m, a)
    ensures var n := Apply(m, a);
            && |m.copies| <= |n.copies| <= |m.copies| + 1
            && (!a.Publish? ==> a.c < |m.copies|)
            && (forall c :: 0 <= c < |m.copies| && (a.Publish? || c != a.c) ==> n.copies[c] == m.copies[c])
            && (|n.copies| > |m.copies| ==>
                  n.copies[|m.copies|].attached &&
                  (n.copies[|m.copies|].place.Queued? || n.copies[|m.copies|].place.Waiting?))
            && (!a.Commit? && !a.CommitUnknown? ==>
                  n.markers == m.markers && n.deliveries == m.deliveries && n.served == m.served)
  {
  }

  lemma OwnCopyKeepsInv(m: Mesh, a: Action)
    requires Inv(m) && Enabled(m, a) && !a.Publish? && !a.Commit? && !a.CommitUnknown?
    ensures CopyInv(Apply(m, a), Apply(m, a).copies[a.c])
  {
    assert CopyInv(m, m.copies[a.c]);
  }

  lemma NewCopyKeepsInv(m: Mesh, a: Action)
    requires Inv(m) && Enabled(m, a) && |Apply(m, a).copies| > |m.copies|
    ensures CopyInv(Apply(m, a), Apply(m, a).copies[|m.copies|])
  {
    StepFrame(m, a);
    if !a.Publish? {
      assert CopyInv(m, m.copies[a.c]);
    }
  }

  lemma CopyKeepsInv(m: Mesh, a: Action, c: nat)
    requires Inv(m) && Enabled(m, a) && !a.Commit? && !a.CommitUnknown? && c < |Apply(m, a).copies|
    ensures CopyInv(Apply(m, a), Apply(m, a).copies[c])
  {
    StepFrame(m, a);
    if c == |m.copies| {
      NewCopyKeepsInv(m, a);
    } else if !a.Publish? && c == a.c {
      OwnCopyKeepsInv(m, a);
    } else {
      assert CopyInv(m, m.copies[c]);
    }
  }

  /** Only the insert makes a copy a holder. */
  lemma HoldersAreOld(m: Mesh, a: Action, c: nat, e: nat)
    requires Enabled(m, a) && c < |Apply(m, a).copies| && HoldsMarker(Apply(m, a).copies[c], e)
    ensures c < |m.copies| && (HoldsMarker(m.copies[c], e) || (a.Insert? && a.c == c && m.copies[c].body == Event(e)))
  {
    StepFrame(m, a);
  }

  /** An insert waits for other holders, so there is never a second one. */
  lemma HoldersStaySingle(m: Mesh, a: Action, c: nat, d: nat, e: nat)
    requires Inv(m) && Enabled(m, a)
    requires c < |Apply(m, a).copies| && d < |Apply(m, a).copies|
    requires HoldsMarker(Apply(m, a).copies[c], e) && HoldsMarker(Apply(m, a).copies[d], e)
    ensures c == d
  {
    HoldersAreOld(m, a, c, e);
    HoldersAreOld(m, a, d, e);
  }

  lemma StepKeepsInv(m: Mesh, a: Action)
    requires Inv(m) && Enabled(m, a)
    ensures Inv(Apply(m, a))
  {
    if a.Commit? || a.CommitUnknown? {
      CommitKeepsMarkers(m, a);
      CommitKeepsRows(m, a);
    } else {
      var n := Apply(m, a);
      StepFrame(m, a);
      forall c | 0 <= c < |n.copies| ensures CopyInv(n, n.copies[c]) {
        CopyKeepsInv(m, a, c);
      }
      forall c, d, e | 0 <= c < |n.copies| && 0 <= d < |n.copies| &&
                       HoldsMarker(n.copies[c], e) && HoldsMarker(n.copies[d], e)
        ensures c == d
      {
        HoldersStaySingle(m, a, c, d, e);
      }
    }
  }

  lemma {:induction false} RunKeepsInv(m: Mesh, acts: seq<Action>)
    requires Inv(m) && Runs(m, acts)
    ensures Inv(After(m, acts))
    decreases acts
  {
    if acts != [] {
      StepKeepsInv(m, acts[0]);
      RunKeepsInv(Apply(m, acts[0]), acts[1..]);
    }
  }

  function CommitCount(m: Mesh, acts: seq<Action>, e: nat): nat
    requires Runs(m, acts)
    decreases acts
  {
    if acts == [] then 0
    else (if Commits(m, acts[0], e) then 1 else 0) + CommitCount(Apply(m, acts[0]), acts[1..], e)
  }

  /** The commits of an event's effects in a run are exactly what its marker
      says: one if the run set the marker, none otherwise. */
  lemma {:induction false} EffectsCommitOnce(m: Mesh, acts: seq<Action>, e: nat)
    requires Inv(m) && Runs(m, acts)
    ensures (if e in m.markers then 1 else 0) + CommitCount(m, acts, e)
            == if e in After(m, acts).markers then 1 else 0
    decreases acts
  {
    if acts != [] {
      if e in m.markers {
        NoSecondCommit(m, acts[0], e);
      }
      StepKeepsInv(m, acts[0]);
      EffectsCommitOnce(Apply(m, acts[0]), acts[1..], e);
    }
  }

  /** In every reachable state an event has its marker and exactly one row for
      every subscriber that the committing transaction found and could call,
      recording what the call returned, or no marker and no rows. */
  lemma AllOrNothing(m: Mesh, acts: seq<Action>, e: nat)
    requires Fresh(m) && Runs(m, acts)
    ensures var n := After(m, acts);
            && (e in n.markers <==> e in n.served)
            && (e !in n.markers ==> RowsFor(n.deliveries, e) == [])
            && (e in n.markers ==>
                  && Delivery.Deliver(n.served[e], e) == Some(RowsFor(n.deliveries, e))
                  && Webhooks(RowsFor(n.deliveries, e)) == Receivers(n.served[e])
                  && Distinct(Receivers(n.served[e]))
                  && (n.served[e].Subscribed? ==>
                        exists idx :: Records(n.served[e].hooks, RowsFor(n.deliveries, e), idx, e))
                  && (n.served[e].NoTask? || n.served[e].NoOrganization? ==> RowsFor(n.deliveries, e) == []))
  {
    FreshIsGood(m);
    RunKeepsInv(m, acts);
    var n := After(m, acts);
    if e in n.markers {
      CompleteRows(n.served[e], RowsFor(n.deliveries, e), e);
      if n.served[e].Subscribed? {
        var idx := RowsRecordCalls(n.served[e].hooks, e);
      }
    }
  }

  // ---- where the record comes from ---------------------------------------

  /** The event a delivery is for and what it found. */
  function FoundBy(m: Mesh, a: Action): set<(nat, Target)>
    requires Enabled(m, a)
  {
    if a.Work? then {(m.copies[a.c].body.id, a.target)} else {}
  }

  function Found(m: Mesh, acts: seq<Action>): set<(nat, Target)>
    requires Runs(m, acts)
    decreases acts
  {
    if acts == [] then {} else FoundBy(m, acts[0]) + Found(Apply(m, acts[0]), acts[1..])
  }

  predicate FoundFor(k: Copy, found: set<(nat, Target)>) {
    k.body.Event? && k.place.Held? && k.place.phase.Worked? ==> (k.body.id, k.place.phase.target) in found
  }

  ghost predicate Explained(m: Mesh, found: set<(nat, Target)>) {
    && (forall c :: 0 <= c < |m.copies| ==> FoundFor(m.copies[c], found))
    && (forall e <- m.served :: (e, m.served[e]) in found)
  }

  /** Only Work makes a copy hold what it found. */
  lemma CopyIsExplained(m: Mesh, a: Action, c: nat)
    requires Enabled(m, a) && c < |Apply(m, a).copies|
    ensures (c < |m.copies| && Apply(m, a).copies[c] == m.copies[c])
            || FoundFor(Apply(m, a).copies[c], FoundBy(m, a))
            || (c < |m.copies| && Apply(m, a).copies[c].body == m.copies[c].body
                && Apply(m, a).copies[c].place == m.copies[c].place)
  {
    StepFrame(m, a);
  }

  /** Only a commit records it. */
  lemma RecordIsExplained(m: Mesh, a: Action, found: set<(nat, Target)>)
    requires Explained(m, found) && Enabled(m, a)
    ensures forall e <- Apply(m, a).served :: (e, Apply(m, a).served[e]) in found
  {
    if a.Commit? || a.CommitUnknown? {
      assert FoundFor(m.copies[a.c], found);
    } else {
      StepFrame(m, a);
    }
  }

  lemma StepIsExplained(m: Mesh, a: Action, found: set<(nat, Target)>)
    requires Explained(m, found) && Enabled(m, a)
    ensures Explained(Apply(m, a), found + FoundBy(m, a))
  {
    forall c | 0 <= c < |Apply(m, a).copies| ensures FoundFor(Apply(m, a).copies[c], found + FoundBy(m, a)) {
      CopyIsExplained(m, a, c);
    }
    RecordIsExplained(m, a, found);
  }

  lemma {:induction false} RecordsAreFound(m: Mesh, acts: seq<Action>, found: set<(nat, Target)>)
    requires Explained(m, found) && Runs(m, acts)
    ensures Explained(After(m, acts), found + Found(m, acts))
    decreases acts
  {
    if acts == [] {
      assert found + Found(m, acts) == found;
    } else {
      var here := FoundBy(m, acts[0]);
      StepIsExplained(m, acts[0], found);
      RecordsAreFound(Apply(m, acts[0]), acts[1..], found + here);
      assert found + here + Found(Apply(m, acts[0]), acts[1..]) == found + Found(m, acts);
    }
  }

  /** What is recorded for an event is what some delivery of the run for that
      very event found. */
  lemma ServedWasFound(m: Mesh, acts: seq<Action>, e: nat)
    requires Fresh(m) && Runs(m, acts) && e in After(m, acts).served
    ensures (e, After(m, acts).served[e]) in Found(m, acts)
  {
    RecordsAreFound(m, acts, {});
    assert {} + Found(m, acts) == Found(m, acts);
  }

  lemma StepKeepsRows(m: Mesh, a: Action, e: nat)
    requires Inv(m) && Enabled(m, a) && !Commits(m, a, e)
    ensures RowsFor(Apply(m, a).deliveries, e) == RowsFor(m.deliveries, e)
    ensures e in Apply(m, a).markers <==> e in m.markers
  {
    StepFrame(m, a);
    if a.Commit? || a.CommitUnknown? {
      var k := m.copies[a.c];
      assert CopyInv(m, k);
      if k.place.phase.Worked? {
        CompleteRows(k.place.phase.target, k.place.phase.rows, k.body.id);
        RowsAfterAppend(m.deliveries, k.place.phase.rows, k.body.id, e);
        assert Apply(m, a).deliveries == m.deliveries + k.place.phase.rows;
      }
    }
  }

  lemma NoSecondCommit(m: Mesh, a: Action, e: nat)
    requires Inv(m) && Enabled(m, a) && e in m.markers
    ensures !Commits(m, a, e)
  {
  }

  /** Once committed, an event's effects never change again, however often and
      wherever its message turns up afterwards. */
  lemma {:induction false} CommittedEffectsAreFinal(m: Mesh, acts: seq<Action>, e: nat)
    requires Inv(m) && Runs(m, acts) && e in m.markers
    ensures e in After(m, acts).markers
    ensures RowsFor(After(m, acts).deliveries, e) == RowsFor(m.deliveries, e)
    decreases acts
  {
    if acts != [] {
      NoSecondCommit(m, acts[0], e);
      StepKeepsRows(m, acts[0], e);
      StepKeepsInv(m, acts[0]);
      CommittedEffectsAreFinal(Apply(m, acts[0]), acts[1..], e);
    }
  }

  // ---- no event is forgotten ---------------------------------------------

  /** Copy `c` of event `e` is somewhere from where it can still be handled or
      inspected: queued, held, waiting or dead, but not merely awaiting the ack
      that follows a confirmed retry, nor a handler that lost its message. */
  predicate Carries(m: Mesh, c: nat, e: nat) {
    c < |m.copies| && m.copies[c].body == Event(e) && m.copies[c].attached &&
    !m.copies[c].place.Acked? && m.copies[c].place != Held(RetrySent)
  }

  ghost predicate Safe(m: Mesh, e: nat) {
    e in m.markers || exists c: nat :: Carries(m, c, e)
  }

  ghost predicate HandedOn(m: Mesh) {
    forall c :: 0 <= c < |m.copies| && m.copies[c].place == Held(RetrySent) ==>
      m.copies[c].body.Event? && Safe(m, m.copies[c].body.id)
  }

  lemma StepKeepsSafe(m: Mesh, a: Action, e: nat)
    requires Inv(m) && Enabled(m, a) && Safe(m, e)
    ensures Safe(Apply(m, a), e)
  {
    var n := Apply(m, a);
    StepFrame(m, a);
    if e !in n.markers {
      var c: nat :| Carries(m, c, e);
      assert CopyInv(m, m.copies[c]);
      if !Carries(n, c, e) {
        assert Carries(n, |m.copies|, e);
      }
    }
  }

  /** A copy awaits that ack from its retry on. */
  lemma RetrySentSince(m: Mesh, a: Action, c: nat)
    requires Enabled(m, a) && c < |Apply(m, a).copies| && Apply(m, a).copies[c].place == Held(RetrySent)
    ensures c < |m.copies| && Apply(m, a).copies[c].body == m.copies[c].body
    ensures m.copies[c].place == Held(RetrySent) || a == PublishRetry(c)
  {
    StepFrame(m, a);
  }

  lemma RetryIsCarried(m: Mesh, c: nat)
    requires Inv(m) && Enabled(m, PublishRetry(c))
    ensures m.copies[c].body.Event? && Safe(Apply(m, PublishRetry(c)), m.copies[c].body.id)
  {
    assert CopyInv(m, m.copies[c]);
    assert Carries(Apply(m, PublishRetry(c)), |m.copies|, m.copies[c].body.id);
  }

  lemma StepKeepsHandedOn(m: Mesh, a: Action)
    requires Inv(m) && HandedOn(m) && Enabled(m, a)
    ensures HandedOn(Apply(m, a))
  {
    var n := Apply(m, a);
    forall c | 0 <= c < |n.copies| && n.copies[c].place == Held(RetrySent)
      ensures n.copies[c].body.Event? && Safe(n, n.copies[c].body.id)
    {
      RetrySentSince(m, a, c);
      if a == PublishRetry(c) {
        RetryIsCarried(m, c);
      } else {
        StepKeepsSafe(m, a, m.copies[c].body.id);
      }
    }
  }
}
