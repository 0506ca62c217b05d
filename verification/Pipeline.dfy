/**
  Outbox workers and webhook consumers together: from the row a task
  transaction wrote to the committed effects, with crashes on either side.
*/
module Pipeline {
  import opened Common
  import Outbox
  import O = OutboxMachine
  import T = Topology
  import Retry
  import C = Consumer

  datatype State = State(o: O.State, m: C.Mesh)

  datatype Step = Relay(a: O.Action) | Consume(b: C.Action)

  ghost predicate Enabled(s: State, x: Step) {
    match x
    case Relay(a) => O.Enabled(s.o, a)
    case Consume(b) => C.Enabled(s.m, b)
  }

  /** The step puts a copy of the worker's first event on the events exchange. */
  predicate Emits(a: O.Action) {
    a.Publish? || (a.PublishError? && a.delivered)
  }

  /** The publisher sets no retry header, and no other header matters here. */
  ghost function MeshStep(s: State, x: Step): Option<C.Action>
    requires Enabled(s, x)
  {
    match x
    case Relay(a) => if Emits(a) then Some(C.Publish(C.Event(O.Head(s.o, a.w)), map[])) else None
    case Consume(b) => Some(b)
  }

  ghost function Apply(s: State, x: Step): State
    requires Enabled(s, x)
  {
    var y := MeshStep(s, x);
    State(if x.Relay? then O.Apply(s.o, x.a) else s.o, if y.Some? then C.Apply(s.m, y.value) else s.m)
  }

  ghost predicate Runs(s: State, xs: seq<Step>)
    decreases xs
  {
    xs == [] || (Enabled(s, xs[0]) && Runs(Apply(s, xs[0]), xs[1..]))
  }

  ghost function After(s: State, xs: seq<Step>): State
    requires Runs(s, xs)
    decreases xs
  {
    if xs == [] then s else After(Apply(s, xs[0]), xs[1..])
  }

  ghost predicate Initial(s: State) {
    && s.o.rows == [] && s.o.orphans == {} && (forall k <- s.o.workers :: k.Idle?)
    && C.Fresh(s.m)
  }

  /** The broker has confirmed event `e` to a worker that has not marked it yet. */
  predicate Confirmed(o: O.State, w: nat, e: nat) {
    O.AtHead(o, w) && O.Head(o, w) == e && o.workers[w].phase.Sent?
  }

  ghost predicate Published(o: O.State, e: nat) {
    || (e < |o.rows| && o.rows[e].status == Outbox.Processed)
    || exists w: nat :: Confirmed(o, w, e)
  }

  ghost predicate Inv(s: State) {
    && O.Inv(s.o) && C.Inv(s.m) && C.HandedOn(s.m)
    && forall e: nat :: Published(s.o, e) ==> C.Safe(s.m, e)
  }

  lemma ConfirmedOnlyByPublishing(o: O.State, a: O.Action, w: nat, e: nat)
    requires O.Inv(o) && O.Enabled(o, a) && Confirmed(O.Apply(o, a), w, e)
    ensures Confirmed(o, w, e) || (a.Publish? && a.w == w && O.Head(o, w) == e)
  {
    if w < |o.workers| && o.workers[w] == O.Apply(o, a).workers[w] {
      assert O.Held(o, o.workers[w]) && e in O.Ids(o.workers[w]);
    }
  }

  lemma ProcessedOnlyByMarking(o: O.State, a: O.Action, e: nat)
    requires O.Inv(o) && O.Enabled(o, a)
    requires e < |O.Apply(o, a).rows| && O.Apply(o, a).rows[e].status == Outbox.Processed
    ensures || (e < |o.rows| && o.rows[e].status == Outbox.Processed)
            || (a.MarkProcessed? && Confirmed(o, a.w, e))
  {
  }

  /** An event becomes published only by a confirmed publish. */
  lemma PublishedOnlyByPublishing(o: O.State, a: O.Action, e: nat)
    requires O.Inv(o) && O.Enabled(o, a) && Published(O.Apply(o, a), e)
    ensures Published(o, e) || (a.Publish? && O.Head(o, a.w) == e)
  {
    var p := O.Apply(o, a);
    if w: nat :| Confirmed(p, w, e) {
      ConfirmedOnlyByPublishing(o, a, w, e);
    } else {
      ProcessedOnlyByMarking(o, a, e);
    }
  }

  lemma EmittedIsSafe(m: C.Mesh, e: nat)
    ensures C.Safe(C.Apply(m, C.Publish(C.Event(e), map[])), e)
  {
    assert C.Carries(C.Apply(m, C.Publish(C.Event(e), map[])), |m.copies|, e);
  }

  lemma StepKeepsInv(s: State, x: Step)
    requires Inv(s) && Enabled(s, x)
    ensures Inv(Apply(s, x))
  {
    var t := Apply(s, x);
    var y := MeshStep(s, x);
    if x.Relay? {
      O.StepKeepsInv(s.o, x.a);
    }
    if y.Some? {
      C.StepKeepsInv(s.m, y.value);
      C.StepKeepsHandedOn(s.m, y.value);
    }
    forall e: nat | Published(t.o, e) ensures C.Safe(t.m, e) {
      if x.Relay? {
        PublishedOnlyByPublishing(s.o, x.a, e);
        if x.a.Publish? && O.Head(s.o, x.a.w) == e {
          EmittedIsSafe(s.m, e);
        }
      }
      if Published(s.o, e) && y.Some? {
        C.StepKeepsSafe(s.m, y.value, e);
      }
    }
  }

  lemma {:induction false} RunKeepsInv(s: State, xs: seq<Step>)
    requires Inv(s) && Runs(s, xs)
    ensures Inv(After(s, xs))
    decreases xs
  {
    if xs != [] {
      StepKeepsInv(s, xs[0]);
      RunKeepsInv(Apply(s, xs[0]), xs[1..]);
    }
  }

  lemma InitialIsGood(s: State)
    requires Initial(s)
    ensures Inv(s)
  {
  }

  /** Nothing is lost: in every reachable state, whatever workers and consumers
      crashed on the way, an event marked PROCESSED has its effects committed
      or a copy in the webhook queue, with a consumer, in a retry queue or in
      the dead-letter queue. */
  lemma NoEventIsLost(s: State, xs: seq<Step>, e: nat)
    requires Initial(s) && Runs(s, xs)
    requires e < |After(s, xs).o.rows| && After(s, xs).o.rows[e].status == Outbox.Processed
    ensures var m := After(s, xs).m;
            e in m.markers || exists c: nat :: C.Carries(m, c, e)
  {
    InitialIsGood(s);
    RunKeepsInv(s, xs);
    assert Published(After(s, xs).o, e);
  }

  // ---- the two halves on their own ---------------------------------------

  ghost function MeshActions(s: State, xs: seq<Step>): seq<C.Action>
    requires Runs(s, xs)
    decreases xs
  {
    if xs == [] then []
    else
      var y := MeshStep(s, xs[0]);
      (if y.Some? then [y.value] else []) + MeshActions(Apply(s, xs[0]), xs[1..])
  }

  ghost function OutboxActions(s: State, xs: seq<Step>): seq<O.Action>
    requires Runs(s, xs)
    decreases xs
  {
    if xs == [] then []
    else (if xs[0].Relay? then [xs[0].a] else []) + OutboxActions(Apply(s, xs[0]), xs[1..])
  }

  /** Every run of the whole is a run of either half, so what holds in all runs
      of the outbox machine or of the consumer machine holds here. */
  lemma {:induction false} RunsProject(s: State, xs: seq<Step>)
    requires Runs(s, xs)
    ensures C.Runs(s.m, MeshActions(s, xs)) && C.After(s.m, MeshActions(s, xs)) == After(s, xs).m
    ensures O.Runs(s.o, OutboxActions(s, xs)) && O.After(s.o, OutboxActions(s, xs)) == After(s, xs).o
    decreases xs
  {
    if xs != [] {
      var t := Apply(s, xs[0]);
      RunsProject(t, xs[1..]);
      var y := MeshStep(s, xs[0]);
      if y.Some? {
        assert MeshActions(s, xs)[1..] == MeshActions(t, xs[1..]);
      } else {
        assert MeshActions(s, xs) == MeshActions(t, xs[1..]);
      }
      if xs[0].Relay? {
        assert OutboxActions(s, xs)[1..] == OutboxActions(t, xs[1..]);
      } else {
        assert OutboxActions(s, xs) == OutboxActions(t, xs[1..]);
      }
    }
  }

  /** However often the workers publish an event and the broker redelivers it,
      its effects are committed at most once, and exactly once if its marker
      exists. */
  lemma EffectsAtMostOnce(s: State, xs: seq<Step>, e: nat)
    requires Initial(s) && Runs(s, xs)
    ensures C.Runs(s.m, MeshActions(s, xs))
    ensures C.CommitCount(s.m, MeshActions(s, xs), e) == if e in After(s, xs).m.markers then 1 else 0
  {
    RunsProject(s, xs);
    C.FreshIsGood(s.m);
    C.EffectsCommitOnce(s.m, MeshActions(s, xs), e);
  }

  // ---- the machine's moves are the broker's ------------------------------

  /** The queue a message belongs to, unacknowledged or not. A handler that
      lost its connection has no message. */
  function QueueOf(k: C.Copy): Option<T.QueueName> {
    if !k.attached then None
    else
      match k.place
      case Queued => Some(T.WebhookQueue)
      case Held(_) => Some(T.WebhookQueue)
      case Waiting(level) => Some(T.RetryQueue(level))
      case Dead => Some(T.WebhooksDlq)
      case _ => None
  }

  lemma QueueChanges(m: C.Mesh, a: C.Action)
    requires C.Enabled(m, a) && !a.Publish?
    ensures var before, after := QueueOf(m.copies[a.c]), QueueOf(C.Apply(m, a).copies[a.c]);
            || after == before || after == None
            || (a.Expire? && before == Some(T.RetryQueue(m.copies[a.c].place.level)) && after == Some(T.WebhookQueue))
            || (a.Reject? && before == Some(T.WebhookQueue) && after == Some(T.WebhooksDlq))
    ensures a.Detach? ==> QueueOf(C.Apply(m, a).copies[|m.copies|]) == QueueOf(m.copies[a.c])
  {
  }

  /** A message that a step puts into another queue is put where the queue it
      leaves dead-letters to, when it expires and when it is rejected alike. A
      dropped connection leaves it in its queue, as another copy. */
  lemma MovesFollowTheTopology(m: C.Mesh, a: C.Action)
    requires C.Inv(m) && C.Enabled(m, a) && !a.Publish?
    ensures var before, after := QueueOf(m.copies[a.c]), QueueOf(C.Apply(m, a).copies[a.c]);
            after == before || after == None ||
            (before.Some? && after.Some? &&
             T.DeadLetterRoutes(T.WEBHOOK_LAYOUT, before.value) == {after.value})
    ensures a.Detach? ==> QueueOf(C.Apply(m, a).copies[|m.copies|]) == QueueOf(m.copies[a.c])
  {
    assert C.CopyInv(m, m.copies[a.c]);
    QueueChanges(m, a);
    if a.Expire? {
      T.RetryQueueReturnsToWebhooks(m.copies[a.c].place.level);
    } else if a.Reject? {
      T.RejectedMessagesAreKept();
    }
  }

  /** A retry copy is put where the retry exchange routes its key. */
  lemma RetriesFollowTheTopology(k: C.Copy)
    requires Retry.RetryLevel(Retry.RetryCount(k.headers)).Some?
    ensures !Retry.OffLadder(k.headers)
    ensures var level := Retry.RetryLevel(Retry.RetryCount(k.headers)).value;
            && QueueOf(C.RetryCopy(k)) == Some(T.RetryQueue(level))
            && T.Routes(T.WEBHOOK_LAYOUT, T.RetryExchange, T.RetryKey(level)) == {T.RetryQueue(level)}
  {
    Retry.RetryLaw(k.headers);
    T.RetryKeyReachesItsQueue(Retry.RetryLevel(Retry.RetryCount(k.headers)).value);
  }
}
