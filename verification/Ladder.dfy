/**
  The retry ladder on the consumer machine: how often a message can come round,
  how long it waits, and that it always comes to rest.
*/
module Ladder {
  import opened Retry
  import opened Consumer

  /** Visits to the consumer not yet explained by a retry or a crash. */
  function Open(p: Place): nat {
    if p.Held? || p.Dead? || p.Acked? || p.Gone? then 1 else 0
  }

  /** The message's count went up from the one it was published with, staying on
      the ladder; every step of it cost its queue's TTL; and each visit ended
      in a retry, a crash, or is the present one. */
  ghost predicate OnLadder(k: Copy) {
    var now := RetryCount(k.headers);
    && k.born <= now
    && (k.born < now ==> 0 <= k.born && now <= MAX_RETRIES)
    && k.waited == WaitBetween(k.born, now)
    && k.visits == (now - k.born) + k.crashes + Open(k.place)
  }

  ghost predicate AllOnLadder(m: Mesh) {
    forall c :: 0 <= c < |m.copies| ==> OnLadder(m.copies[c])
  }

  lemma RetryCopyOnLadder(k: Copy)
    requires OnLadder(k) && k.place == Held(Retrying) && RetryLevel(RetryCount(k.headers)).Some?
    ensures OnLadder(RetryCopy(k))
    ensures RetryCount(RetryCopy(k).headers) == RetryCount(k.headers) + 1
  {
  }

  /** A step of a copy's own changes nothing its rung depends on. */
  lemma OwnCopyKeepsRung(m: Mesh, a: Action)
    requires Enabled(m, a) && !a.Publish?
    ensures var j, k := Apply(m, a).copies[a.c], m.copies[a.c];
            j.headers == k.headers && j.born == k.born && j.waited == k.waited
  {
  }

  lemma OwnVisitsAddUp(m: Mesh, a: Action)
    requires Enabled(m, a) && !a.Publish?
    ensures var j, k := Apply(m, a).copies[a.c], m.copies[a.c];
            j.visits + k.crashes + Open(k.place) == k.visits + j.crashes + Open(j.place)
  {
  }

  lemma CopyKeepsLadder(m: Mesh, a: Action, c: nat)
    requires AllOnLadder(m) && Enabled(m, a) && c < |m.copies|
    ensures OnLadder(Apply(m, a).copies[c])
  {
    assert OnLadder(m.copies[c]);
    if !a.Publish? && c == a.c {
      OwnCopyKeepsRung(m, a);
      OwnVisitsAddUp(m, a);
    } else {
      StepFrame(m, a);
    }
  }

  lemma StepKeepsLadder(m: Mesh, a: Action)
    requires AllOnLadder(m) && Enabled(m, a)
    ensures AllOnLadder(Apply(m, a))
  {
    var n := Apply(m, a);
    forall c | 0 <= c < |n.copies| ensures OnLadder(n.copies[c]) {
      if c < |m.copies| {
        CopyKeepsLadder(m, a, c);
      } else if a.Publish? {
        assert WaitBetween(n.copies[c].born, n.copies[c].born) == 0;
      } else if a.Detach? {
        assert OnLadder(m.copies[a.c]);
      } else {
        assert n.copies[c] == RetryCopy(m.copies[a.c]);
        RetryCopyOnLadder(m.copies[a.c]);
      }
    }
  }

  lemma {:induction false} RunKeepsLadder(m: Mesh, acts: seq<Action>)
    requires AllOnLadder(m) && Runs(m, acts)
    ensures AllOnLadder(After(m, acts))
    decreases acts
  {
    if acts != [] {
      StepKeepsLadder(m, acts[0]);
      RunKeepsLadder(Apply(m, acts[0]), acts[1..]);
    }
  }

  /** In any run a message reaches the consumer at most four times plus once
      per crash, and waits at most 370 seconds in retry queues; one that was
      published with a count outside 0..2 is never sent to a retry queue. */
  lemma VisitsAndWaitsAreBounded(m: Mesh, acts: seq<Action>, c: nat)
    requires Fresh(m) && Runs(m, acts) && c < |After(m, acts).copies|
    ensures var k := After(m, acts).copies[c];
            && k.visits <= 4 + k.crashes
            && k.waited <= 370_000
            && (!(0 <= k.born <= 2) ==> k.waited == 0 && k.visits <= 1 + k.crashes)
  {
    RunKeepsLadder(m, acts);
    var k := After(m, acts).copies[c];
    assert OnLadder(k);
    if k.born < RetryCount(k.headers) {
      LadderWaitsAtMost(k.born, RetryCount(k.headers));
    }
  }

  // ---- a message is not given up early ---------------------------------------

  /** Published without a retry header, and retried as often as its header says. */
  predicate Plain(k: Copy) {
    && k.born == 0
    && if "x-retry-count" !in k.headers then k.waited == 0
       else match k.headers["x-retry-count"]
            case IntValue(n) =>
              (n == 1 && k.waited == 10_000) || (n == 2 && k.waited == 70_000) || (n == 3 && k.waited == 370_000)
            case _ => false
  }

  ghost predicate AllPlain(m: Mesh) {
    forall c :: 0 <= c < |m.copies| ==> Plain(m.copies[c])
  }

  /** As the outbox publisher does. */
  predicate WithoutHeader(a: Action) {
    a.Publish? ==> "x-retry-count" !in a.headers
  }

  lemma RetryCopyIsPlain(k: Copy)
    requires Plain(k) && RetryLevel(RetryCount(k.headers)).Some?
    ensures Plain(RetryCopy(k))
  {
    RetryLaw(k.headers);
  }

  lemma NewCopyIsPlain(m: Mesh, a: Action)
    requires AllPlain(m) && Enabled(m, a) && WithoutHeader(a) && |Apply(m, a).copies| > |m.copies|
    ensures Plain(Apply(m, a).copies[|m.copies|])
  {
    if a.PublishRetry? || a.PublishRetryError? {
      RetryCopyIsPlain(m.copies[a.c]);
    } else if a.Detach? {
      assert Plain(m.copies[a.c]);
    }
  }

  lemma StepKeepsPlain(m: Mesh, a: Action)
    requires AllPlain(m) && Enabled(m, a) && WithoutHeader(a)
    ensures AllPlain(Apply(m, a))
  {
    var n := Apply(m, a);
    StepFrame(m, a);
    forall c | 0 <= c < |n.copies| ensures Plain(n.copies[c]) {
      if c == |m.copies| {
        NewCopyIsPlain(m, a);
      } else {
        assert Plain(m.copies[c]);
        if !a.Publish? && c == a.c {
          OwnCopyKeepsRung(m, a);
        }
      }
    }
  }

  lemma {:induction false} RunKeepsPlain(m: Mesh, acts: seq<Action>)
    requires AllPlain(m) && Runs(m, acts) && forall a <- acts :: WithoutHeader(a)
    ensures AllPlain(After(m, acts))
    decreases acts
  {
    if acts != [] {
      assert acts[0] in acts;
      StepKeepsPlain(m, acts[0]);
      RunKeepsPlain(Apply(m, acts[0]), acts[1..]);
    }
  }

  /** Of messages published without a retry header, one is given up only after
      exactly three retries and 370 seconds in retry queues, on its fourth visit
      not counting those that a crash cut short. */
  lemma GivenUpAfterThreeRetries(m: Mesh, acts: seq<Action>, c: nat)
    requires Fresh(m) && Runs(m, acts) && forall a <- acts :: WithoutHeader(a)
    requires Enabled(After(m, acts), GiveUp(c))
    ensures var k := After(m, acts).copies[c];
            && "x-retry-count" in k.headers && k.headers["x-retry-count"] == IntValue(3)
            && k.waited == 370_000 && k.visits == 4 + k.crashes
  {
    RunKeepsPlain(m, acts);
    RunKeepsLadder(m, acts);
    var k := After(m, acts).copies[c];
    assert Plain(k) && OnLadder(k);
    RetryLaw(k.headers);
  }

  // ---- crash-free runs come to rest ----------------------------------------

  /** Nothing new is published and no consumer stops or loses its connection;
      the broker may still fail to confirm. */
  predicate Internal(a: Action) {
    !a.Publish? && !a.Crash? && !a.Detach?
  }

  function RetriesLeft(h: Headers): nat {
    var n := RetryCount(h);
    if 0 <= n < MAX_RETRIES then MAX_RETRIES - n else 0
  }

  /** Steps this copy and its retries can still take. */
  function Fuel(k: Copy): nat {
    var r := 7 * RetriesLeft(k.headers);
    match k.place
    case Queued => r + 6
    case Waiting(_) => r + 7
    case Dead => 0
    case Acked => 0
    case Gone => 0
    case Held(phase) =>
      match phase
      case Received => r + 5
      case Inserted(_) => r + 4
      case Worked(_, _) => r + 3
      case Retrying => r + 2
      case Stuck => 0
      case _ => 1
  }

  function TotalFuel(copies: seq<Copy>): nat {
    if copies == [] then 0 else Fuel(copies[0]) + TotalFuel(copies[1..])
  }

  lemma {:induction false} FuelOfUpdate(copies: seq<Copy>, c: nat, k: Copy)
    requires c < |copies|
    ensures TotalFuel(copies[c := k]) == TotalFuel(copies) - Fuel(copies[c]) + Fuel(k)
  {
    if c > 0 {
      assert copies[c := k][1..] == copies[1..][c - 1 := k];
      FuelOfUpdate(copies[1..], c - 1, k);
    }
  }

  lemma {:induction false} FuelOfAppend(copies: seq<Copy>, k: Copy)
    ensures TotalFuel(copies + [k]) == TotalFuel(copies) + Fuel(k)
  {
    if copies != [] {
      assert (copies + [k])[1..] == copies[1..] + [k];
      FuelOfAppend(copies[1..], k);
    }
  }

  lemma FuelOfRetryCopy(k: Copy)
    requires RetryLevel(RetryCount(k.headers)).Some?
    ensures Fuel(RetryCopy(k)) == 7 * RetriesLeft(k.headers)
  {
    assert RetryCopy(k).headers[RETRY_HEADER] == IntValue(RetryCount(k.headers) + 1);
  }

  /** A retry burns fuel, confirmed or not, with or without its copy. */
  lemma RetryBurnsFuel(m: Mesh, a: Action)
    requires Enabled(m, a) && (a.PublishRetry? || a.PublishRetryError?)
    ensures TotalFuel(Apply(m, a).copies) < TotalFuel(m.copies)
  {
    var n := Apply(m, a);
    var moved := m.copies[a.c := n.copies[a.c]];
    FuelOfUpdate(m.copies, a.c, n.copies[a.c]);
    FuelOfRetryCopy(m.copies[a.c]);
    FuelOfAppend(moved, RetryCopy(m.copies[a.c]));
    assert n.copies == moved || n.copies == moved + [RetryCopy(m.copies[a.c])];
  }

  lemma OwnFuelDrops(m: Mesh, a: Action)
    requires Enabled(m, a) && Internal(a) && !a.PublishRetry? && !a.PublishRetryError?
    ensures |Apply(m, a).copies| == |m.copies| && Apply(m, a).copies[a.c].headers == m.copies[a.c].headers
    ensures Fuel(Apply(m, a).copies[a.c]) < Fuel(m.copies[a.c])
  {
  }

  lemma StepBurnsFuel(m: Mesh, a: Action)
    requires Enabled(m, a) && Internal(a)
    ensures TotalFuel(Apply(m, a).copies) < TotalFuel(m.copies)
  {
    if a.PublishRetry? || a.PublishRetryError? {
      RetryBurnsFuel(m, a);
    } else {
      var n := Apply(m, a);
      OwnFuelDrops(m, a);
      StepFrame(m, a);
      assert n.copies == m.copies[a.c := n.copies[a.c]];
      FuelOfUpdate(m.copies, a.c, n.copies[a.c]);
    }
  }

  lemma {:induction false} CrashFreeRunsAreFinite(m: Mesh, acts: seq<Action>)
    requires Runs(m, acts) && forall a <- acts :: Internal(a)
    ensures |acts| + TotalFuel(After(m, acts).copies) <= TotalFuel(m.copies)
    decreases acts
  {
    if acts != [] {
      StepBurnsFuel(m, acts[0]);
      CrashFreeRunsAreFinite(Apply(m, acts[0]), acts[1..]);
    }
  }

  predicate AtRest(k: Copy) {
    k.place.Acked? || k.place.Dead? || k.place.Gone?
  }

  predicate IsStuck(k: Copy) {
    k.place == Held(Stuck)
  }

  /** A consumer holding a message can always take a step: its own, or, while
      its insert waits, that of the transaction it waits for. */
  lemma SomeStepIsEnabled(m: Mesh, c: nat) returns (a: Action)
    requires Inv(m) && c < |m.copies| && !AtRest(m.copies[c]) && !IsStuck(m.copies[c])
    ensures Enabled(m, a) && Internal(a)
  {
    assert CopyInv(m, m.copies[c]);
    match m.copies[c].place {
      case Queued => a := Action.Deliver(c);
      case Waiting(_) => a := Expire(c);
      case Held(phase) =>
        match phase {
          case Received =>
            if m.copies[c].body.Garbage? {
              a := RefuseBody(c);
            } else if d: nat :| d < |m.copies| && HoldsMarker(m.copies[d], m.copies[c].body.id) {
              a := Fail(d, true);
            } else {
              a := Insert(c);
            }
          case Inserted(_) => a := Fail(c, true);
          case Worked(_, _) => a := Commit(c);
          case Settled => a := Ack(c);
          case RetrySent => a := Ack(c);
          case Rejecting => a := Reject(c);
          case Retrying =>
            a := if RetryLevel(RetryCount(m.copies[c].headers)).Some? then PublishRetry(c) else GiveUp(c);
        }
    }
  }

  /** So a crash-free run takes at most TotalFuel steps (27 for each message
      queued without a retry header), whatever the broker confirms, and where it
      can go no further every copy is settled or, after a retry publish that
      raised, stuck with its consumer. If no publish raised in the run, only
      copies stuck before it are. */
  lemma EveryMessageComesToRest(m: Mesh, acts: seq<Action>)
    requires Inv(m) && Runs(m, acts) && forall a <- acts :: Internal(a)
    ensures |acts| <= TotalFuel(m.copies)
    ensures (forall a :: Internal(a) ==> !Enabled(After(m, acts), a)) ==>
              forall k <- After(m, acts).copies :: AtRest(k) || IsStuck(k)
    ensures (forall a <- acts :: !a.PublishRetryError?) ==>
              forall c :: 0 <= c < |After(m, acts).copies| && IsStuck(After(m, acts).copies[c]) ==>
                            c < |m.copies| && IsStuck(m.copies[c])
  {
    CrashFreeRunsAreFinite(m, acts);
    RunKeepsInv(m, acts);
    var n := After(m, acts);
    if forall a :: Internal(a) ==> !Enabled(n, a) {
      forall k <- n.copies ensures AtRest(k) || IsStuck(k) {
        var c :| 0 <= c < |n.copies| && n.copies[c] == k;
        if !AtRest(k) && !IsStuck(k) {
          var a := SomeStepIsEnabled(n, c);
        }
      }
    }
    if forall a <- acts :: !a.PublishRetryError? {
      NobodyGetsStuck(m, acts);
    }
  }

  /** Given up on: off the ladder, after a retryable failure. */
  predicate Doomed(k: Copy) {
    && k.attached && !(0 <= RetryCount(k.headers) < MAX_RETRIES)
    && (k.place == Held(Retrying) || k.place == Held(Rejecting) || k.place == Dead)
  }

  lemma StepDooms(m: Mesh, a: Action, c: nat)
    requires Enabled(m, a) && c < |m.copies| && Doomed(m.copies[c]) && a != Crash(c) && a != Detach(c)
    ensures c < |Apply(m, a).copies| && Doomed(Apply(m, a).copies[c])
  {
    StepFrame(m, a);
  }

  lemma {:induction false} StaysDoomed(m: Mesh, acts: seq<Action>, c: nat)
    requires Runs(m, acts) && c < |m.copies| && Doomed(m.copies[c]) && Crash(c) !in acts && Detach(c) !in acts
    ensures c < |After(m, acts).copies| && Doomed(After(m, acts).copies[c])
    decreases acts
  {
    if acts != [] {
      StepDooms(m, acts[0], c);
      StaysDoomed(Apply(m, acts[0]), acts[1..], c);
    }
  }

  /** With a count outside 0..2 a retryable failure ends in the dead-letter
      queue: in every run, unless its consumer stops or loses its connection, the
      message is being given up or dead, and it is dead where nothing more can
      happen. */
  lemma OffLadderGoesToDeadLetters(m: Mesh, acts: seq<Action>, c: nat)
    requires Inv(m) && Runs(m, acts) && At(m, c, Held(Retrying)) && m.copies[c].attached
    requires !(0 <= RetryCount(m.copies[c].headers) < MAX_RETRIES)
    requires Crash(c) !in acts && Detach(c) !in acts
    ensures c < |After(m, acts).copies| && Doomed(After(m, acts).copies[c])
    ensures (forall a :: Internal(a) ==> !Enabled(After(m, acts), a)) ==> At(After(m, acts), c, Dead)
  {
    StaysDoomed(m, acts, c);
    RunKeepsInv(m, acts);
    var n := After(m, acts);
    if n.copies[c].place != Dead {
      var a := SomeStepIsEnabled(n, c);
    }
  }

  lemma StepSticksNobody(m: Mesh, a: Action, c: nat)
    requires Enabled(m, a) && Internal(a) && !a.PublishRetryError?
    requires c < |Apply(m, a).copies| && IsStuck(Apply(m, a).copies[c])
    ensures c < |m.copies| && IsStuck(m.copies[c])
  {
    StepFrame(m, a);
  }

  lemma {:induction false} NobodyGetsStuck(m: Mesh, acts: seq<Action>)
    requires Runs(m, acts) && forall a <- acts :: Internal(a) && !a.PublishRetryError?
    ensures forall c :: 0 <= c < |After(m, acts).copies| && IsStuck(After(m, acts).copies[c]) ==>
                          c < |m.copies| && IsStuck(m.copies[c])
    decreases acts
  {
    if acts != [] {
      assert acts[0] in acts;
      var n := Apply(m, acts[0]);
      NobodyGetsStuck(n, acts[1..]);
      forall c | 0 <= c < |n.copies| && IsStuck(n.copies[c]) ensures c < |m.copies| && IsStuck(m.copies[c]) {
        StepSticksNobody(m, acts[0], c);
      }
    }
  }
}
