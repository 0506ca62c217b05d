/**
  Any number of outbox workers over one table, one transaction step at a time
  (src/worker.py, src/outbox/repository.py). An event's id is its index.
*/
module OutboxMachine {
  import opened Common
  import opened Outbox

  /** Where a worker is with the first event of its batch. */
  datatype Phase = Ready | Sent | Errored(error: string)

  datatype Worker =
    | Idle
    | Claiming(ids: seq<nat>)                   // rows locked, claim not committed
    | Running(todo: seq<nat>, phase: Phase)     // claim committed

  /** `orphans` records the events whose batch stopped; `failures` is
      OUTBOX_PUBLISH_FAILURES_TOTAL, `lost` the failures never written to a row. */
  datatype State = State(
    now: int, rows: seq<Row>, workers: seq<Worker>, orphans: set<nat>, failures: nat, lost: nat)

  datatype Action =
    | Tick(elapsed: nat)
    | Insert(createdAt: int)
    | Lock(w: nat, ids: seq<nat>, limit: nat)
    | CommitClaim(w: nat)
    | RollbackClaim(w: nat)
    | Publish(w: nat)
    | PublishError(w: nat, error: string, delivered: bool)
    | BuildError(w: nat, error: string)
    | MarkProcessed(w: nat)
    | MarkError(w: nat, error: string)
    | MarkFailed(w: nat)
    | Stop(w: nat)

  function Ids(k: Worker): seq<nat> {
    match k
    case Idle => []
    case Claiming(ids) => ids
    case Running(todo, _) => todo
  }

  function LockedIds(workers: seq<Worker>): set<nat> {
    set w, i | 0 <= w < |workers| && workers[w].Claiming? && i in workers[w].ids :: i
  }

  /** What the worker holds once the first event of `todo` is dealt with. */
  function AfterHead(todo: seq<nat>): Worker
    requires todo != []
  {
    if |todo| == 1 then Idle else Running(todo[1..], Ready)
  }

  predicate AtHead(s: State, w: nat) {
    w < |s.workers| && s.workers[w].Running? && s.workers[w].todo != [] && s.workers[w].todo[0] < |s.rows|
  }

  function Head(s: State, w: nat): nat
    requires AtHead(s, w)
  {
    s.workers[w].todo[0]
  }

  ghost predicate Enabled(s: State, a: Action) {
    match a
    case Tick(_) => true
    case Insert(_) => true
    case Lock(w, ids, limit) =>
      w < |s.workers| && s.workers[w].Idle? && Selects(ids, s.rows, LockedIds(s.workers), s.now, limit)
    case CommitClaim(w) => w < |s.workers| && s.workers[w].Claiming?
    case RollbackClaim(w) => w < |s.workers| && s.workers[w].Claiming?
    case Publish(w) => AtHead(s, w) && s.workers[w].phase.Ready?
    case PublishError(w, _, _) => AtHead(s, w) && s.workers[w].phase.Ready?
    case BuildError(w, _) => AtHead(s, w) && s.workers[w].phase.Ready?
    case MarkProcessed(w) => AtHead(s, w) && s.workers[w].phase.Sent?
    case MarkError(w, _) => AtHead(s, w) && s.workers[w].phase.Sent?
    case MarkFailed(w) => AtHead(s, w) && s.workers[w].phase.Errored?
    case Stop(w) => w < |s.workers| && s.workers[w].Running?
  }

  function SetWorker(s: State, w: nat, k: Worker): State
    requires w < |s.workers|
  {
    s.(workers := s.workers[w := k])
  }

  function ClaimAll(rows: seq<Row>, ids: seq<nat>): seq<Row> {
    seq(|rows|, i requires 0 <= i < |rows| => if i in ids then ClaimedRow(rows[i]) else rows[i])
  }

  ghost function Apply(s: State, a: Action): State
    requires Enabled(s, a)
  {
    match a
    case Tick(elapsed) => s.(now := s.now + elapsed)
    case Insert(createdAt) => s.(rows := s.rows + [FreshRow(createdAt)])
    case Lock(w, ids, _) => SetWorker(s, w, Claiming(ids))
    case CommitClaim(w) =>
      var ids := s.workers[w].ids;
      SetWorker(s.(rows := ClaimAll(s.rows, ids)), w, if ids == [] then Idle else Running(ids, Ready))
    case RollbackClaim(w) => SetWorker(s, w, Idle)
    case Publish(w) => SetWorker(s, w, s.workers[w].(phase := Sent))
    case PublishError(w, error, _) => Errs(s, w, error)
    case BuildError(w, error) => Errs(s, w, error)
    case MarkProcessed(w) =>
      var e := Head(s, w);
      SetWorker(s.(rows := s.rows[e := ProcessedRow(s.rows[e], s.now)]), w, AfterHead(s.workers[w].todo))
    case MarkError(w, error) => Errs(s, w, error)
    case MarkFailed(w) =>
      var e := Head(s, w);
      SetWorker(s.(rows := s.rows[e := FailedRow(s.rows[e], s.workers[w].phase.error, s.now)]),
                w, AfterHead(s.workers[w].todo))
    case Stop(w) =>
      SetWorker(s.(orphans := s.orphans + (set i | i in s.workers[w].todo),
                   lost := s.lost + if s.workers[w].phase.Errored? then 1 else 0), w, Idle)
  }

  /** The except branch up to the counter; the row is written by MarkFailed. */
  function Errs(s: State, w: nat, error: string): State
    requires AtHead(s, w)
  {
    SetWorker(s, w, s.workers[w].(phase := Errored(error))).(failures := s.failures + 1)
  }

  ghost predicate Runs(s: State, acts: seq<Action>)
    decreases acts
  {
    acts == [] || (Enabled(s, acts[0]) && Runs(Apply(s, acts[0]), acts[1..]))
  }

  ghost function After(s: State, acts: seq<Action>): State
    requires Runs(s, acts)
    decreases acts
  {
    if acts == [] then s else After(Apply(s, acts[0]), acts[1..])
  }

  function Start(workers: nat, now: int): State {
    State(now, [], seq(workers, _ => Idle), {}, 0, 0)
  }

  // ---- claim exclusivity -----------------------------------------------

  ghost predicate Held(s: State, k: Worker) {
    && Distinct(Ids(k))
    && (forall i <- Ids(k) :: i < |s.rows| && i !in s.orphans)
    && (k.Claiming? ==> forall i <- k.ids :: Due(s.rows[i], s.now))
    && (k.Running? ==> k.todo != [] && forall i <- k.todo :: s.rows[i].status == Processing)
  }

  ghost predicate Exclusive(s: State) {
    forall v, w :: 0 <= v < w < |s.workers| ==>
      forall i :: !(i in Ids(s.workers[v]) && i in Ids(s.workers[w]))
  }

  ghost predicate AllHeld(s: State) {
    (forall v :: 0 <= v < |s.workers| ==> Held(s, s.workers[v])) && Exclusive(s)
  }

  predicate Runner(s: State, w: nat, i: nat) {
    w < |s.workers| && s.workers[w].Running? && i in s.workers[w].todo
  }

  ghost predicate Accounted(s: State, i: nat) {
    i in s.orphans || exists w: nat :: Runner(s, w, i)
  }

  ghost predicate AllAccounted(s: State) {
    && (forall i <- s.orphans :: i < |s.rows| && s.rows[i].status == Processing)
    && (forall i: nat :: i < |s.rows| && s.rows[i].status == Processing ==> Accounted(s, i))
  }

  ghost predicate Inv(s: State) {
    AllHeld(s) && AllAccounted(s)
  }

  /** A step of worker `w` that leaves alone the rows the others hold. */
  lemma OwnStep(s: State, t: State, w: nat)
    requires Inv(s) && w < |s.workers| == |t.workers|
    requires forall v :: 0 <= v < |s.workers| && v != w ==> t.workers[v] == s.workers[v]
    requires Held(t, t.workers[w])
    requires forall v :: 0 <= v < |s.workers| && v != w ==>
               forall i <- Ids(s.workers[v]) ::
                 i !in Ids(t.workers[w]) && i < |t.rows| && t.rows[i] == s.rows[i] && i !in t.orphans
    requires s.now == t.now
    ensures AllHeld(t)
  {
  }

  /** What worker `w` holds, nobody else does. */
  lemma Alone(s: State, w: nat)
    requires Inv(s) && w < |s.workers|
    ensures forall v, i :: 0 <= v < |s.workers| && v != w && i in Ids(s.workers[v]) ==>
              i !in Ids(s.workers[w]) && i < |s.rows| && i !in s.orphans
  {
  }

  lemma AfterHeadIds(todo: seq<nat>)
    requires todo != [] && Distinct(todo)
    ensures Distinct(Ids(AfterHead(todo)))
    ensures forall i :: i in Ids(AfterHead(todo)) <==> i in todo && i != todo[0]
  {
  }

  lemma LockIsOwnStep(s: State, w: nat, ids: seq<nat>, limit: nat)
    requires Inv(s) && Enabled(s, Lock(w, ids, limit))
    ensures AllHeld(Apply(s, Lock(w, ids, limit)))
  {
    ClaimTakesTheOldest(ids, s.rows, LockedIds(s.workers), s.now, limit);
    var t := Apply(s, Lock(w, ids, limit));
    forall v, i | 0 <= v < |s.workers| && v != w && i in Ids(s.workers[v])
      ensures i !in ids && i < |s.rows| && i !in s.orphans
    {
      assert Held(s, s.workers[v]);
      if s.workers[v].Claiming? {
        assert i in LockedIds(s.workers);
      }
    }
    OwnStep(s, t, w);
  }

  lemma CommitIsOwnStep(s: State, w: nat)
    requires Inv(s) && Enabled(s, CommitClaim(w))
    ensures AllHeld(Apply(s, CommitClaim(w)))
  {
    Alone(s, w);
    assert Held(s, s.workers[w]);
    OwnStep(s, Apply(s, CommitClaim(w)), w);
  }

  lemma MarkIsOwnStep(s: State, a: Action)
    requires Inv(s) && Enabled(s, a) && (a.MarkProcessed? || a.MarkFailed?)
    ensures AllHeld(Apply(s, a))
  {
    Alone(s, a.w);
    assert Held(s, s.workers[a.w]);
    AfterHeadIds(s.workers[a.w].todo);
    OwnStep(s, Apply(s, a), a.w);
  }

  lemma StopIsOwnStep(s: State, w: nat)
    requires Inv(s) && Enabled(s, Stop(w))
    ensures AllHeld(Apply(s, Stop(w)))
  {
  }

  /** Steps that change the worker's phase only, or give its locks up. */
  lemma QuietIsOwnStep(s: State, a: Action)
    requires Inv(s) && Enabled(s, a)
    requires a.RollbackClaim? || a.Publish? || a.PublishError? || a.BuildError? || a.MarkError?
    ensures AllHeld(Apply(s, a))
  {
    Alone(s, a.w);
    assert Held(s, s.workers[a.w]);
    OwnStep(s, Apply(s, a), a.w);
  }

  lemma StepKeepsHeld(s: State, a: Action)
    requires Inv(s) && Enabled(s, a)
    ensures AllHeld(Apply(s, a))
  {
    match a {
      case Tick(_) => assert forall k :: Held(s, k) ==> Held(Apply(s, a), k);
      case Insert(_) => assert forall k :: Held(s, k) ==> Held(Apply(s, a), k);
      case Lock(w, ids, limit) => LockIsOwnStep(s, w, ids, limit);
      case CommitClaim(w) => CommitIsOwnStep(s, w);
      case MarkProcessed(_) => MarkIsOwnStep(s, a);
      case MarkFailed(_) => MarkIsOwnStep(s, a);
      case Stop(w) => StopIsOwnStep(s, w);
      case _ => QuietIsOwnStep(s, a);
    }
  }

  lemma OwnAccount(s: State, t: State, w: nat)
    requires Inv(s) && w < |s.workers| == |t.workers|
    requires forall v :: 0 <= v < |s.workers| && v != w ==> t.workers[v] == s.workers[v]
    requires s.orphans <= t.orphans
    requires forall i <- t.orphans :: i < |t.rows| && t.rows[i].status == Processing
    requires forall i: nat :: i < |t.rows| && t.rows[i].status == Processing ==>
               || (i < |s.rows| && s.rows[i].status == Processing && !Runner(s, w, i))
               || Runner(t, w, i)
               || i in t.orphans
    ensures AllAccounted(t)
  {
    forall i: nat | i < |t.rows| && t.rows[i].status == Processing
      ensures Accounted(t, i)
    {
      if i !in t.orphans && !Runner(t, w, i) {
        assert Accounted(s, i);
        var v: nat :| Runner(s, v, i);
        assert Runner(t, v, i);
      }
    }
  }

  lemma MarkKeepsAccount(s: State, a: Action)
    requires Inv(s) && Enabled(s, a) && (a.MarkProcessed? || a.MarkFailed?)
    ensures AllAccounted(Apply(s, a))
  {
    var t := Apply(s, a);
    var e := Head(s, a.w);
    assert Held(s, s.workers[a.w]);
    AfterHeadIds(s.workers[a.w].todo);
    assert Runner(s, a.w, e) && t.rows[e].status != Processing;
    assert forall i: nat :: i < |s.rows| && i != e ==> t.rows[i] == s.rows[i];
    OwnAccount(s, t, a.w);
  }

  lemma ClaimKeepsAccount(s: State, w: nat)
    requires Inv(s) && Enabled(s, CommitClaim(w))
    ensures AllAccounted(Apply(s, CommitClaim(w)))
  {
    assert Held(s, s.workers[w]);
    OwnAccount(s, Apply(s, CommitClaim(w)), w);
  }

  lemma StopKeepsAccount(s: State, w: nat)
    requires Inv(s) && Enabled(s, Stop(w))
    ensures AllAccounted(Apply(s, Stop(w)))
  {
    assert Held(s, s.workers[w]);
    OwnAccount(s, Apply(s, Stop(w)), w);
  }

  lemma QuietKeepsAccount(s: State, a: Action)
    requires Inv(s) && Enabled(s, a)
    requires a.Lock? || a.RollbackClaim? || a.Publish? || a.PublishError? || a.BuildError? || a.MarkError?
    ensures AllAccounted(Apply(s, a))
  {
    OwnAccount(s, Apply(s, a), a.w);
  }

  lemma IdleStepKeepsAccount(s: State, a: Action)
    requires Inv(s) && Enabled(s, a) && (a.Tick? || a.Insert?)
    ensures AllAccounted(Apply(s, a))
  {
    var t := Apply(s, a);
    forall i: nat | i < |t.rows| && t.rows[i].status == Processing ensures Accounted(t, i) {
      assert Accounted(s, i);
      if i !in s.orphans {
        var v: nat :| Runner(s, v, i);
        assert Runner(t, v, i);
      }
    }
  }

  lemma StepKeepsAccount(s: State, a: Action)
    requires Inv(s) && Enabled(s, a)
    ensures AllAccounted(Apply(s, a))
  {
    match a {
      case Tick(_) => IdleStepKeepsAccount(s, a);
      case Insert(_) => IdleStepKeepsAccount(s, a);
      case MarkProcessed(_) => MarkKeepsAccount(s, a);
      case MarkFailed(_) => MarkKeepsAccount(s, a);
      case Stop(w) => StopKeepsAccount(s, w);
      case CommitClaim(w) => ClaimKeepsAccount(s, w);
      case _ => QuietKeepsAccount(s, a);
    }
  }

  lemma StepKeepsInv(s: State, a: Action)
    requires Inv(s) && Enabled(s, a)
    ensures Inv(Apply(s, a))
  {
    StepKeepsHeld(s, a);
    StepKeepsAccount(s, a);
  }

  lemma {:induction false} RunKeepsInv(s: State, acts: seq<Action>)
    requires Inv(s) && Runs(s, acts)
    ensures Inv(After(s, acts))
    decreases acts
  {
    if acts != [] {
      StepKeepsInv(s, acts[0]);
      RunKeepsInv(Apply(s, acts[0]), acts[1..]);
    }
  }

  lemma StartIsGood(workers: nat, now: int)
    ensures Inv(Start(workers, now))
  {
  }

  /** In every reachable state no event is held twice, whether by a claim that
      is not committed yet or by a running batch, and every PROCESSING event
      belongs to exactly one running batch or was left by a stopped one. */
  lemma ClaimsAreExclusive(workers: nat, now: int, acts: seq<Action>)
    requires Runs(Start(workers, now), acts)
    ensures var s := After(Start(workers, now), acts);
            && (forall v, w, i |
                  0 <= v < |s.workers| && 0 <= w < |s.workers| && i in Ids(s.workers[v]) && i in Ids(s.workers[w])
                  :: v == w)
            && (forall i: nat :: i < |s.rows| ==>
                  (s.rows[i].status == Processing <==> Accounted(s, i)))
            && (forall i: nat, w: nat :: Runner(s, w, i) ==> i !in s.orphans)
  {
    StartIsGood(workers, now);
    RunKeepsInv(Start(workers, now), acts);
    var s := After(Start(workers, now), acts);
    forall i: nat, w: nat | Runner(s, w, i)
      ensures i !in s.orphans && i < |s.rows| && s.rows[i].status == Processing
    {
      assert Held(s, s.workers[w]);
    }
  }

  // ---- bounded publishing ------------------------------------------------

  /** Does this step hand event `e` to the publisher? */
  ghost predicate Hands(s: State, a: Action, e: nat)
    requires Enabled(s, a)
  {
    (a.Publish? || a.PublishError?) && Head(s, a.w) == e
  }

  ghost function Handed(s: State, acts: seq<Action>, e: nat): nat
    requires Runs(s, acts)
    decreases acts
  {
    if acts == [] then 0
    else (if Hands(s, acts[0], e) then 1 else 0) + Handed(Apply(s, acts[0]), acts[1..], e)
  }

  /** Attempts a pending row still has. */
  function Left(attempts: nat): nat {
    if attempts + 1 >= MAX_ATTEMPTS then 1 else MAX_ATTEMPTS - attempts
  }

  /** The event is at the head of a batch and its publishing is behind it. */
  ghost predicate PastPublish(s: State, w: nat, e: nat) {
    AtHead(s, w) && Head(s, w) == e && !s.workers[w].phase.Ready?
  }

  /** How often `e` may still be handed over. */
  ghost function Budget(s: State, e: nat): nat {
    if e >= |s.rows| then MAX_ATTEMPTS
    else
      match s.rows[e].status
      case Pending => Left(s.rows[e].attempts)
      case Processing =>
        if e in s.orphans then 0
        else if exists w: nat :: PastPublish(s, w, e) then Left(s.rows[e].attempts) - 1
        else Left(s.rows[e].attempts)
      case _ => 0
  }

  /** A step on other events changes nothing about `e`. */
  lemma OthersKeepRow(s: State, a: Action, e: nat)
    requires Inv(s) && Enabled(s, a)
    requires !a.Tick? && !a.Insert? && e < |s.rows| && e !in Ids(s.workers[a.w])
    ensures var t := Apply(s, a);
            e < |t.rows| && t.rows[e] == s.rows[e] && (e in t.orphans <==> e in s.orphans)
  {
  }

  lemma OthersKeepPhase(s: State, a: Action, e: nat, w: nat)
    requires Inv(s) && Enabled(s, a)
    requires !a.Tick? && !a.Insert? && e !in Ids(s.workers[a.w]) && e !in Ids(Apply(s, a).workers[a.w])
    ensures PastPublish(Apply(s, a), w, e) <==> PastPublish(s, w, e)
  {
  }

  /** Only the worker that holds `e` matters for its budget. */
  lemma OthersKeepBudget(s: State, a: Action, e: nat)
    requires Inv(s) && Enabled(s, a)
    requires !a.Tick? && !a.Insert? && e < |s.rows| && e !in Ids(s.workers[a.w])
    requires e !in Ids(Apply(s, a).workers[a.w])
    ensures Apply(s, a).rows[e] == s.rows[e] && Budget(Apply(s, a), e) == Budget(s, e)
  {
    OthersKeepRow(s, a, e);
    forall w: nat ensures PastPublish(Apply(s, a), w, e) <==> PastPublish(s, w, e) {
      OthersKeepPhase(s, a, e, w);
    }
  }

  lemma IdleStepKeepsBudget(s: State, a: Action, e: nat)
    requires Inv(s) && Enabled(s, a) && (a.Tick? || a.Insert?)
    ensures Budget(Apply(s, a), e) == Budget(s, e)
  {
    var t := Apply(s, a);
    assert t.workers == s.workers;
    forall w: nat ensures PastPublish(t, w, e) <==> PastPublish(s, w, e) {
      if w < |s.workers| && s.workers[w].Running? {
        assert Held(s, s.workers[w]);
        assert s.workers[w].todo[0] in Ids(s.workers[w]);
      }
    }
    assert (exists w: nat :: PastPublish(t, w, e)) <==> (exists w: nat :: PastPublish(s, w, e));
  }

  lemma StepSpends(s: State, a: Action, e: nat)
    requires Inv(s) && Enabled(s, a)
    ensures Budget(Apply(s, a), e) + (if Hands(s, a, e) then 1 else 0) <= Budget(s, e)
  {
    if a.Tick? || a.Insert? {
      IdleStepKeepsBudget(s, a, e);
    } else {
      StepKeepsInv(s, a);
      var t := Apply(s, a);
      assert Held(s, s.workers[a.w]) && Held(t, t.workers[a.w]);
      if e in Ids(s.workers[a.w]) || e in Ids(t.workers[a.w]) {
        HolderSpends(s, a, e);
      } else if e < |s.rows| {
        OthersKeepBudget(s, a, e);
      }
    }
  }

  /** `e` is in nobody's hands but `w`'s, so nobody else is past its publishing. */
  lemma PastPublishOnlyBy(s: State, w: nat, e: nat)
    requires Inv(s) && w < |s.workers| && e in Ids(s.workers[w])
    ensures (exists v: nat :: PastPublish(s, v, e)) <==> PastPublish(s, w, e)
  {
  }

  lemma ClaimSpends(s: State, a: Action, e: nat)
    requires Inv(s) && Enabled(s, a) && Inv(Apply(s, a))
    requires a.Lock? || a.CommitClaim? || a.RollbackClaim?
    requires e in Ids(s.workers[a.w]) || e in Ids(Apply(s, a).workers[a.w])
    ensures Budget(Apply(s, a), e) <= Budget(s, e)
  {
  }

  lemma PhaseMovesOn(s: State, a: Action)
    requires Enabled(s, a) && (a.Publish? || a.PublishError? || a.BuildError? || a.MarkError?)
    ensures var t := Apply(s, a);
            && t.rows == s.rows && t.orphans == s.orphans && |t.workers| == |s.workers|
            && t.workers[a.w].Running? && t.workers[a.w].todo == s.workers[a.w].todo
            && !t.workers[a.w].phase.Ready?
  {
  }

  /** Leaving Ready at the head of a batch costs one; nothing else does. */
  lemma PhaseChangeSpends(s: State, t: State, w: nat, e: nat)
    requires Inv(s) && Inv(t) && AtHead(s, w) && e in s.workers[w].todo
    requires t.rows == s.rows && t.orphans == s.orphans && |t.workers| == |s.workers|
    requires t.workers[w].Running? && t.workers[w].todo == s.workers[w].todo && !t.workers[w].phase.Ready?
    ensures Budget(t, e) + (if s.workers[w].phase.Ready? && Head(s, w) == e then 1 else 0) <= Budget(s, e)
  {
    assert Held(s, s.workers[w]);
    PastPublishOnlyBy(s, w, e);
    PastPublishOnlyBy(t, w, e);
  }

  lemma PhaseSpends(s: State, a: Action, e: nat)
    requires Inv(s) && Enabled(s, a) && Inv(Apply(s, a))
    requires a.Publish? || a.PublishError? || a.BuildError? || a.MarkError?
    requires e in Ids(s.workers[a.w])
    ensures Budget(Apply(s, a), e) + (if Hands(s, a, e) then 1 else 0) <= Budget(s, e)
  {
    PhaseMovesOn(s, a);
    PhaseChangeSpends(s, Apply(s, a), a.w, e);
  }

  lemma MarkedHeadSpends(s: State, a: Action)
    requires Inv(s) && Enabled(s, a) && (a.MarkProcessed? || a.MarkFailed?)
    ensures Budget(Apply(s, a), Head(s, a.w)) <= Budget(s, Head(s, a.w))
  {
  }

  lemma MarkMovesOn(s: State, a: Action)
    requires Enabled(s, a) && (a.MarkProcessed? || a.MarkFailed?)
    ensures var t := Apply(s, a);
            && t.orphans == s.orphans && |t.workers| == |s.workers| && |t.rows| == |s.rows|
            && t.workers[a.w] == AfterHead(s.workers[a.w].todo)
            && forall e :: 0 <= e < |s.rows| && e != Head(s, a.w) ==> t.rows[e] == s.rows[e]
  {
  }

  lemma MarkKeepsTheRest(s: State, t: State, w: nat, e: nat)
    requires Inv(s) && Inv(t) && AtHead(s, w) && e in s.workers[w].todo && e != Head(s, w)
    requires t.orphans == s.orphans && |t.workers| == |s.workers| && e < |s.rows| && e < |t.rows|
    requires t.workers[w] == AfterHead(s.workers[w].todo) && t.rows[e] == s.rows[e]
    ensures Budget(t, e) == Budget(s, e)
  {
    AfterHeadIds(s.workers[w].todo);
    PastPublishOnlyBy(s, w, e);
    PastPublishOnlyBy(t, w, e);
    assert !PastPublish(s, w, e) && !PastPublish(t, w, e);
  }

  lemma MarkSpends(s: State, a: Action, e: nat)
    requires Inv(s) && Enabled(s, a) && Inv(Apply(s, a)) && (a.MarkProcessed? || a.MarkFailed?)
    requires e in Ids(s.workers[a.w])
    ensures Budget(Apply(s, a), e) <= Budget(s, e)
  {
    if e == Head(s, a.w) {
      MarkedHeadSpends(s, a);
    } else {
      MarkMovesOn(s, a);
      assert Held(s, s.workers[a.w]);
      MarkKeepsTheRest(s, Apply(s, a), a.w, e);
    }
  }

  lemma HolderSpends(s: State, a: Action, e: nat)
    requires Inv(s) && Enabled(s, a) && Inv(Apply(s, a))
    requires !a.Tick? && !a.Insert? && e < |s.rows|
    requires e in Ids(s.workers[a.w]) || e in Ids(Apply(s, a).workers[a.w])
    ensures Budget(Apply(s, a), e) + (if Hands(s, a, e) then 1 else 0) <= Budget(s, e)
  {
    match a {
      case Lock(_, _, _) => ClaimSpends(s, a, e);
      case CommitClaim(_) => ClaimSpends(s, a, e);
      case RollbackClaim(_) => ClaimSpends(s, a, e);
      case MarkProcessed(w) => AfterHeadIds(s.workers[w].todo); MarkSpends(s, a, e);
      case MarkFailed(w) => AfterHeadIds(s.workers[w].todo); MarkSpends(s, a, e);
      case Stop(_) =>
      case _ => PhaseSpends(s, a, e);
    }
  }

  /** Along any run an event is handed over no more often than its budget
      allows: five times in all, when it starts with no attempts. */
  lemma {:induction false} HandedWithinBudget(s: State, acts: seq<Action>, e: nat)
    requires Inv(s) && Runs(s, acts)
    ensures Handed(s, acts, e) + Budget(After(s, acts), e) <= Budget(s, e)
    ensures Handed(s, acts, e) <= Budget(s, e)
    decreases acts
  {
    if acts != [] {
      StepSpends(s, acts[0], e);
      StepKeepsInv(s, acts[0]);
      HandedWithinBudget(Apply(s, acts[0]), acts[1..], e);
    }
  }

  lemma PublishedAtMostFiveTimes(workers: nat, now: int, acts: seq<Action>, e: nat)
    requires Runs(Start(workers, now), acts)
    ensures Handed(Start(workers, now), acts, e) <= 5
  {
    StartIsGood(workers, now);
    HandedWithinBudget(Start(workers, now), acts, e);
  }

  // ---- backoff -------------------------------------------------------------

  lemma StepRespectsBackoff(s: State, a: Action, e: nat)
    requires Inv(s) && Enabled(s, a)
    requires e < |s.rows| && s.rows[e].status == Pending && !Due(s.rows[e], s.now)
    ensures e < |Apply(s, a).rows| && Apply(s, a).rows[e] == s.rows[e]
  {
  }

  lemma {:induction false} TimeMovesOn(s: State, acts: seq<Action>)
    requires Runs(s, acts)
    ensures After(s, acts).now >= s.now
    decreases acts
  {
    if acts != [] {
      TimeMovesOn(Apply(s, acts[0]), acts[1..]);
    }
  }

  /** A row put off stays as it is, in nobody's hands, until it is due,
      whatever the workers do. */
  lemma {:induction false} NotClaimedEarly(s: State, acts: seq<Action>, e: nat)
    requires Inv(s) && Runs(s, acts)
    requires e < |s.rows| && s.rows[e].status == Pending && !Due(s.rows[e], After(s, acts).now)
    ensures var t := After(s, acts);
            && e < |t.rows| && t.rows[e] == s.rows[e]
            && forall w :: 0 <= w < |t.workers| ==> e !in Ids(t.workers[w])
    decreases acts
  {
    TimeMovesOn(s, acts);
    if acts == [] {
      forall w | 0 <= w < |s.workers| ensures e !in Ids(s.workers[w]) {
        assert Held(s, s.workers[w]);
      }
    } else {
      StepRespectsBackoff(s, acts[0], e);
      StepKeepsInv(s, acts[0]);
      NotClaimedEarly(Apply(s, acts[0]), acts[1..], e);
    }
  }

  /** After its first, second, third and fourth failure an event is neither
      locked nor claimed by anyone for 2, 4, 8 and 16 seconds, in any
      continuation of the run. */
  lemma FailureDefersTheEvent(s: State, w: nat, acts: seq<Action>)
    requires Inv(s) && Enabled(s, MarkFailed(w)) && Runs(Apply(s, MarkFailed(w)), acts)
    requires var k := s.rows[Head(s, w)].attempts + 1;
             k <= 4 && After(Apply(s, MarkFailed(w)), acts).now < s.now + [2, 4, 8, 16][k - 1] * 1_000_000
    ensures var t := After(Apply(s, MarkFailed(w)), acts);
            var e := Head(s, w);
            && e < |t.rows| && t.rows[e] == Apply(s, MarkFailed(w)).rows[e]
            && forall v :: 0 <= v < |t.workers| ==> e !in Ids(t.workers[v])
  {
    DelayTable(s.rows[Head(s, w)].attempts + 1);
    StepKeepsInv(s, MarkFailed(w));
    NotClaimedEarly(Apply(s, MarkFailed(w)), acts, Head(s, w));
  }

  // ---- progress of one row -----------------------------------------------

  function StatusRank(st: Status): nat {
    match st
    case Pending => 2
    case Processing => 1
    case _ => 0
  }

  /** The pair (attempts left, status rank), compared lexicographically. */
  predicate Before(r: Row, q: Row) {
    var left, left' := if r.attempts < MAX_ATTEMPTS then MAX_ATTEMPTS - r.attempts else 0,
                       if q.attempts < MAX_ATTEMPTS then MAX_ATTEMPTS - q.attempts else 0;
    left' < left || (left' == left && StatusRank(q.status) < StatusRank(r.status))
  }

  /** Every step leaves a row exactly as it was or moves it strictly down the
      rank; PROCESSED and FAILED are final. */
  lemma RowsOnlyMoveForward(s: State, a: Action, e: nat)
    requires Inv(s) && Enabled(s, a) && e < |s.rows|
    ensures var t := Apply(s, a);
            e < |t.rows| && (t.rows[e] == s.rows[e] || Before(s.rows[e], t.rows[e]))
    ensures StatusRank(s.rows[e].status) == 0 ==> Apply(s, a).rows[e] == s.rows[e]
  {
  }

  // ---- the failure counter -----------------------------------------------

  function Attempts(rows: seq<Row>): nat {
    if rows == [] then 0 else rows[0].attempts + Attempts(rows[1..])
  }

  function Unwritten(workers: seq<Worker>): nat {
    if workers == [] then 0
    else (if workers[0].Running? && workers[0].phase.Errored? then 1 else 0) + Unwritten(workers[1..])
  }

  lemma {:induction false} AttemptsOfUpdate(rows: seq<Row>, e: nat, r: Row)
    requires e < |rows|
    ensures Attempts(rows[e := r]) == Attempts(rows) - rows[e].attempts + r.attempts
  {
    if e > 0 {
      assert rows[e := r][1..] == rows[1..][e - 1 := r];
      AttemptsOfUpdate(rows[1..], e - 1, r);
    }
  }

  lemma {:induction false} UnwrittenOfUpdate(ks: seq<Worker>, w: nat, k: Worker)
    requires w < |ks|
    ensures Unwritten(ks[w := k]) == Unwritten(ks) - Unwritten([ks[w]]) + Unwritten([k])
  {
    if w > 0 {
      assert ks[w := k][1..] == ks[1..][w - 1 := k];
      UnwrittenOfUpdate(ks[1..], w - 1, k);
    }
  }

  lemma {:induction false} AttemptsOfClaim(rows: seq<Row>, ids: seq<nat>, from: nat)
    requires from <= |rows|
    ensures Attempts(ClaimAll(rows, ids)[from..]) == Attempts(rows[from..])
    decreases |rows| - from
  {
    if from < |rows| {
      AttemptsOfClaim(rows, ids, from + 1);
      assert rows[from..][1..] == rows[from + 1..];
      assert ClaimAll(rows, ids)[from..][1..] == ClaimAll(rows, ids)[from + 1..];
    }
  }

  lemma {:induction false} AttemptsOfAppend(rows: seq<Row>, r: Row)
    ensures Attempts(rows + [r]) == Attempts(rows) + r.attempts
  {
    if rows != [] {
      assert (rows + [r])[1..] == rows[1..] + [r];
      AttemptsOfAppend(rows[1..], r);
    }
  }

  ghost predicate Counted(s: State) {
    s.failures == Attempts(s.rows) + Unwritten(s.workers) + s.lost
  }

  lemma ClaimKeepsCount(s: State, w: nat)
    requires Counted(s) && Enabled(s, CommitClaim(w))
    ensures Counted(Apply(s, CommitClaim(w)))
  {
    var t := Apply(s, CommitClaim(w));
    UnwrittenOfUpdate(s.workers, w, t.workers[w]);
    AttemptsOfClaim(s.rows, s.workers[w].ids, 0);
    assert ClaimAll(s.rows, s.workers[w].ids)[0..] == t.rows && s.rows[0..] == s.rows;
  }

  lemma MarkKeepsCount(s: State, a: Action)
    requires Counted(s) && Enabled(s, a) && (a.MarkProcessed? || a.MarkFailed?)
    ensures Counted(Apply(s, a))
  {
    var t := Apply(s, a);
    UnwrittenOfUpdate(s.workers, a.w, t.workers[a.w]);
    AttemptsOfUpdate(s.rows, Head(s, a.w), t.rows[Head(s, a.w)]);
  }

  /** Steps that leave the rows alone. */
  lemma PhaseKeepsCount(s: State, a: Action)
    requires Counted(s) && Enabled(s, a)
    requires !a.Tick? && !a.Insert? && !a.CommitClaim? && !a.MarkProcessed? && !a.MarkFailed?
    ensures Counted(Apply(s, a))
  {
    var t := Apply(s, a);
    assert t.rows == s.rows && t.workers == s.workers[a.w := t.workers[a.w]];
    UnwrittenOfUpdate(s.workers, a.w, t.workers[a.w]);
  }

  lemma StepKeepsCount(s: State, a: Action)
    requires Counted(s) && Enabled(s, a)
    ensures Counted(Apply(s, a))
  {
    match a {
      case Tick(_) =>
      case Insert(createdAt) => AttemptsOfAppend(s.rows, FreshRow(createdAt));
      case CommitClaim(w) => ClaimKeepsCount(s, w);
      case MarkProcessed(_) => MarkKeepsCount(s, a);
      case MarkFailed(_) => MarkKeepsCount(s, a);
      case _ => PhaseKeepsCount(s, a);
    }
  }

  lemma {:induction false} RunKeepsCount(s: State, acts: seq<Action>)
    requires Counted(s) && Runs(s, acts)
    ensures Counted(After(s, acts))
    decreases acts
  {
    if acts != [] {
      StepKeepsCount(s, acts[0]);
      RunKeepsCount(Apply(s, acts[0]), acts[1..]);
    }
  }

  lemma {:induction false} NothingLostWithoutStops(s: State, acts: seq<Action>)
    requires Runs(s, acts) && forall a <- acts :: !a.Stop?
    ensures After(s, acts).lost == s.lost
    decreases acts
  {
    if acts != [] {
      NothingLostWithoutStops(Apply(s, acts[0]), acts[1..]);
    }
  }

  lemma {:induction false} NobodyUnwritten(ks: seq<Worker>)
    requires forall k <- ks :: !k.Running? || !k.phase.Errored?
    ensures Unwritten(ks) == 0
  {
    if ks != [] {
      NobodyUnwritten(ks[1..]);
    }
  }

  /** The publish-failure counter never understates the attempts written to
      the table; without a stopped batch it equals their sum whenever no
      failure is waiting to be written. */
  lemma FailureCounterLaw(workers: nat, now: int, acts: seq<Action>)
    requires Runs(Start(workers, now), acts)
    ensures var s := After(Start(workers, now), acts);
            && Attempts(s.rows) <= s.failures
            && ((forall a <- acts :: !a.Stop?) && (forall k <- s.workers :: !k.Running? || !k.phase.Errored?)
                ==> Attempts(s.rows) == s.failures)
  {
    var s0 := Start(workers, now);
    NobodyUnwritten(s0.workers);
    RunKeepsCount(s0, acts);
    var s := After(s0, acts);
    if (forall a <- acts :: !a.Stop?) && (forall k <- s.workers :: !k.Running? || !k.phase.Errored?) {
      NothingLostWithoutStops(s0, acts);
      NobodyUnwritten(s.workers);
    }
  }
}
