/**
  One call of process_outbox_once (src/worker.py) as a run of the outbox
  machine: what the method does to its events is what some run does to the
  table, so every law of the machine's runs covers it.
*/
module OutboxBatch {
  import opened Common
  import opened Outbox
  import opened OutboxMachine

  lemma {:induction false} RunThenRun(s: State, xs: seq<Action>, ys: seq<Action>)
    requires Runs(s, xs) && Runs(After(s, xs), ys)
    ensures Runs(s, xs + ys) && After(s, xs + ys) == After(After(s, xs), ys)
    decreases xs
  {
    if xs == [] {
      assert xs + ys == ys;
    } else {
      assert (xs + ys)[1..] == xs[1..] + ys;
      RunThenRun(Apply(s, xs[0]), xs[1..], ys);
    }
  }

  lemma OneStep(s: State, a: Action)
    requires Enabled(s, a)
    ensures Runs(s, [a]) && After(s, [a]) == Apply(s, a)
  {
    assert [a][1..] == [];
    assert Runs(Apply(s, a), []) && After(Apply(s, a), []) == Apply(s, a);
  }

  lemma TwoSteps(s: State, a: Action, b: Action)
    requires Enabled(s, a) && Enabled(Apply(s, a), b)
    ensures Runs(s, [a, b]) && After(s, [a, b]) == Apply(Apply(s, a), b)
  {
    assert [a, b][1..] == [b];
    OneStep(Apply(s, a), b);
  }

  lemma ThreeSteps(s: State, a: Action, b: Action, c: Action)
    requires Enabled(s, a) && Enabled(Apply(s, a), b) && Enabled(Apply(Apply(s, a), b), c)
    ensures Runs(s, [a, b, c]) && After(s, [a, b, c]) == Apply(Apply(Apply(s, a), b), c)
  {
    assert [a, b, c][1..] == [b, c];
    TwoSteps(Apply(s, a), b, c);
  }

  // ---- the steps of a call ---------------------------------------------------

  /** Where a batch stops that does: its process ends, or the transaction that
      marks a failure raises. */
  datatype Halt = BeforePublish | BeforeMark | AfterError(stage: Stage, error: string)

  /** The outcomes come one after another, from `now` on. */
  predicate InOrder(outcomes: seq<Outcome>, now: int) {
    outcomes == [] || (now <= outcomes[0].at && InOrder(outcomes[1..], outcomes[0].at))
  }

  /** The try block up to the exception. */
  function RaiseScript(w: nat, stage: Stage, error: string): seq<Action> {
    match stage
    case InBuild => [BuildError(w, error)]
    case InPublish(delivered) => [PublishError(w, error, delivered)]
    case InMark => [Publish(w), MarkError(w, error)]
  }

  /** The try, except and else branches for one event. */
  function HeadScript(w: nat, now: int, o: Outcome): seq<Action>
    requires now <= o.at
  {
    match o
    case Published(at) => [Publish(w), Tick(at - now), MarkProcessed(w)]
    case Raised(stage, error, at) => RaiseScript(w, stage, error) + [Tick(at - now), MarkFailed(w)]
  }

  function HaltScript(w: nat, halt: Halt): seq<Action> {
    match halt
    case BeforePublish => [Stop(w)]
    case BeforeMark => [Publish(w), Stop(w)]
    case AfterError(stage, error) => RaiseScript(w, stage, error) + [Stop(w)]
  }

  function LoopScript(w: nat, now: int, outcomes: seq<Outcome>, halt: Option<Halt>): seq<Action>
    requires InOrder(outcomes, now)
    decreases |outcomes|
  {
    if outcomes != [] then
      HeadScript(w, now, outcomes[0]) + LoopScript(w, outcomes[0].at, outcomes[1..], halt)
    else if halt.Some? then HaltScript(w, halt.value)
    else []
  }

  /** All steps of a call whose query answers `ids`. */
  function BatchScript(w: nat, now: int, ids: seq<nat>, limit: nat, outcomes: seq<Outcome>, halt: Option<Halt>)
    : seq<Action>
    requires InOrder(outcomes, now)
  {
    [Lock(w, ids, limit), CommitClaim(w)] + LoopScript(w, now, outcomes, halt)
  }

  /** Outcomes for all events, or for the first few and then a halt. */
  predicate Covers(ids: seq<nat>, outcomes: seq<Outcome>, halt: Option<Halt>) {
    |outcomes| <= |ids| && (halt.Some? <==> |outcomes| < |ids|)
  }

  function Failures(outcomes: seq<Outcome>): nat {
    if outcomes == [] then 0 else (if outcomes[0].Raised? then 1 else 0) + Failures(outcomes[1..])
  }

  function HaltFailures(halt: Option<Halt>): nat {
    if halt.Some? && halt.value.AfterError? then 1 else 0
  }

  // ---- what they do to the table ---------------------------------------------

  predicate Within(todo: seq<nat>, rows: seq<Row>) {
    forall k :: 0 <= k < |todo| ==> todo[k] < |rows|
  }

  /** The table once the first events of `todo` have met their outcomes. */
  function MarkAll(rows: seq<Row>, todo: seq<nat>, outcomes: seq<Outcome>): seq<Row>
    requires |outcomes| <= |todo| && Within(todo, rows)
    decreases |todo|
  {
    if outcomes == [] then rows
    else MarkAll(rows[todo[0] := MarkedRow(rows[todo[0]], outcomes[0])], todo[1..], outcomes[1..])
  }

  /** Distinct events do not disturb one another. */
  lemma {:induction false} MarkAllAt(rows: seq<Row>, todo: seq<nat>, outcomes: seq<Outcome>)
    requires |outcomes| <= |todo| && Distinct(todo) && Within(todo, rows)
    ensures var after := MarkAll(rows, todo, outcomes);
            && |after| == |rows|
            && (forall k :: 0 <= k < |outcomes| ==> after[todo[k]] == MarkedRow(rows[todo[k]], outcomes[k]))
            && (forall e :: 0 <= e < |rows| && e !in todo[..|outcomes|] ==> after[e] == rows[e])
    decreases |todo|
  {
    if outcomes != [] {
      var e := todo[0];
      var rest, more := todo[1..], outcomes[1..];
      MarkAllAt(rows[e := MarkedRow(rows[e], outcomes[0])], rest, more);
      assert forall k :: 1 <= k < |outcomes| ==> rest[k - 1] == todo[k] && more[k - 1] == outcomes[k];
      assert todo[..|outcomes|] == [e] + rest[..|more|];
      assert e !in rest[..|more|];
    }
  }

  function Events(todo: seq<nat>): set<nat> {
    set i | i in todo
  }

  lemma RaiseRun(s: State, w: nat, stage: Stage, error: string)
    requires AtHead(s, w) && s.workers[w].phase.Ready?
    ensures Runs(s, RaiseScript(w, stage, error)) && After(s, RaiseScript(w, stage, error)) == Errs(s, w, error)
  {
    match stage {
      case InBuild => OneStep(s, BuildError(w, error));
      case InPublish(delivered) => OneStep(s, PublishError(w, error, delivered));
      case InMark => TwoSteps(s, Publish(w), MarkError(w, error));
    }
  }

  /** The machine after one event of the batch. */
  function AfterOutcome(s: State, w: nat, o: Outcome): State
    requires AtHead(s, w)
  {
    var e := Head(s, w);
    s.(now := o.at, rows := s.rows[e := MarkedRow(s.rows[e], o)],
       workers := s.workers[w := AfterHead(s.workers[w].todo)],
       failures := s.failures + if o.Raised? then 1 else 0)
  }

  /** Time passes and the mark is written. */
  lemma MarkRun(s: State, r: State, w: nat, o: Outcome)
    requires AtHead(s, w) && s.now <= o.at
    requires match o
             case Published(_) => r == SetWorker(s, w, s.workers[w].(phase := Sent))
             case Raised(_, error, _) => r == Errs(s, w, error)
    ensures var steps := [Tick(o.at - s.now), if o.Published? then MarkProcessed(w) else MarkFailed(w)];
            Runs(r, steps) && After(r, steps) == AfterOutcome(s, w, o)
  {
    var mark := if o.Published? then MarkProcessed(w) else MarkFailed(w);
    TwoSteps(r, Tick(o.at - s.now), mark);
    var t := Apply(Apply(r, Tick(o.at - s.now)), mark);
    assert t.workers == s.workers[w := AfterHead(s.workers[w].todo)];
    assert t.rows == s.rows[Head(s, w) := MarkedRow(s.rows[Head(s, w)], o)];
  }

  lemma PublishedRun(s: State, w: nat, at: int)
    requires AtHead(s, w) && s.workers[w].phase.Ready? && s.now <= at
    ensures var script := HeadScript(w, s.now, Published(at));
            Runs(s, script) && After(s, script) == AfterOutcome(s, w, Published(at))
  {
    OneStep(s, Publish(w));
    MarkRun(s, Apply(s, Publish(w)), w, Published(at));
    RunThenRun(s, [Publish(w)], [Tick(at - s.now), MarkProcessed(w)]);
    assert HeadScript(w, s.now, Published(at)) == [Publish(w)] + [Tick(at - s.now), MarkProcessed(w)];
  }

  lemma RaisedRun(s: State, w: nat, stage: Stage, error: string, at: int)
    requires AtHead(s, w) && s.workers[w].phase.Ready? && s.now <= at
    ensures var o := Raised(stage, error, at);
            Runs(s, HeadScript(w, s.now, o)) && After(s, HeadScript(w, s.now, o)) == AfterOutcome(s, w, o)
  {
    RaiseRun(s, w, stage, error);
    MarkRun(s, Errs(s, w, error), w, Raised(stage, error, at));
    RunThenRun(s, RaiseScript(w, stage, error), [Tick(at - s.now), MarkFailed(w)]);
  }

  lemma HeadRun(s: State, w: nat, o: Outcome)
    requires AtHead(s, w) && s.workers[w].phase.Ready? && s.now <= o.at
    ensures Runs(s, HeadScript(w, s.now, o)) && After(s, HeadScript(w, s.now, o)) == AfterOutcome(s, w, o)
  {
    match o {
      case Published(at) => PublishedRun(s, w, at);
      case Raised(stage, error, at) => RaisedRun(s, w, stage, error, at);
    }
  }

  /** The machine after the batch has stopped. */
  function AfterHalt(s: State, w: nat, halt: Halt): State
    requires AtHead(s, w)
  {
    var failed := if halt.AfterError? then 1 else 0;
    s.(workers := s.workers[w := Idle], orphans := s.orphans + Events(s.workers[w].todo),
       failures := s.failures + failed, lost := s.lost + failed)
  }

  lemma HaltRun(s: State, w: nat, halt: Halt)
    requires AtHead(s, w) && s.workers[w].phase.Ready?
    ensures Runs(s, HaltScript(w, halt)) && After(s, HaltScript(w, halt)) == AfterHalt(s, w, halt)
  {
    match halt {
      case BeforePublish => OneStep(s, Stop(w));
      case BeforeMark => TwoSteps(s, Publish(w), Stop(w));
      case AfterError(stage, error) =>
        RaiseRun(s, w, stage, error);
        OneStep(Errs(s, w, error), Stop(w));
        RunThenRun(s, RaiseScript(w, stage, error), [Stop(w)]);
    }
  }

  /** What the loop leaves, whether or not it comes to its end. */
  ghost predicate LoopDone(s: State, t: State, w: nat, todo: seq<nat>, outcomes: seq<Outcome>, halt: Option<Halt>)
    requires w < |s.workers| && Within(todo, s.rows) && |outcomes| <= |todo|
  {
    && t.rows == MarkAll(s.rows, todo, outcomes) && t.workers == s.workers[w := Idle]
    && t.orphans == s.orphans + Events(todo[|outcomes|..])
    && t.failures == s.failures + Failures(outcomes) + HaltFailures(halt)
    && t.lost == s.lost + HaltFailures(halt)
  }

  lemma LoopGoesOn(s: State, w: nat, t: State, outcomes: seq<Outcome>, halt: Option<Halt>)
    requires AtHead(s, w) && Within(s.workers[w].todo, s.rows) && outcomes != []
    requires Covers(s.workers[w].todo, outcomes, halt)
    requires LoopDone(AfterOutcome(s, w, outcomes[0]), t, w, s.workers[w].todo[1..], outcomes[1..], halt)
    ensures LoopDone(s, t, w, s.workers[w].todo, outcomes, halt)
  {
    var todo := s.workers[w].todo;
    assert todo[1..][|outcomes| - 1..] == todo[|outcomes|..];
  }

  lemma {:induction false} LoopRun(s: State, w: nat, outcomes: seq<Outcome>, halt: Option<Halt>)
    requires w < |s.workers| && s.workers[w].Running? && s.workers[w].phase.Ready?
    requires s.workers[w].todo != [] && Within(s.workers[w].todo, s.rows)
    requires Covers(s.workers[w].todo, outcomes, halt) && InOrder(outcomes, s.now)
    ensures Runs(s, LoopScript(w, s.now, outcomes, halt))
    ensures LoopDone(s, After(s, LoopScript(w, s.now, outcomes, halt)), w, s.workers[w].todo, outcomes, halt)
    decreases |outcomes|
  {
    var todo := s.workers[w].todo;
    if outcomes == [] {
      HaltRun(s, w, halt.value);
      assert todo[0..] == todo;
    } else {
      var t := AfterOutcome(s, w, outcomes[0]);
      var head, rest := HeadScript(w, s.now, outcomes[0]), LoopScript(w, t.now, outcomes[1..], halt);
      HeadRun(s, w, outcomes[0]);
      if |todo| > 1 {
        LoopRun(t, w, outcomes[1..], halt);
      } else {
        assert outcomes[1..] == [] && todo[1..] == [] && rest == [];
      }
      RunThenRun(s, head, rest);
      LoopGoesOn(s, w, After(t, rest), outcomes, halt);
    }
  }

  lemma ClaimRun(s: State, w: nat, ids: seq<nat>, limit: nat)
    requires Enabled(s, Lock(w, ids, limit))
    ensures Runs(s, [Lock(w, ids, limit), CommitClaim(w)])
    ensures Distinct(ids) && Within(ids, s.rows) && forall k :: 0 <= k < |ids| ==> s.rows[ids[k]].status == Pending
    ensures After(s, [Lock(w, ids, limit), CommitClaim(w)])
            == s.(rows := ClaimAll(s.rows, ids),
                  workers := s.workers[w := if ids == [] then Idle else Running(ids, Ready)])
  {
    ClaimTakesTheOldest(ids, s.rows, LockedIds(s.workers), s.now, limit);
    assert forall k :: 0 <= k < |ids| ==> ids[k] in ids;
    TwoSteps(s, Lock(w, ids, limit), CommitClaim(w));
  }

  /** Every row whose outcome came is settled by it, the others of the batch are
      PROCESSING, and the rest is as before. */
  ghost predicate Settles(before: seq<Row>, after: seq<Row>, ids: seq<nat>, outcomes: seq<Outcome>)
    requires Within(ids, before) && |outcomes| <= |ids|
  {
    && |after| == |before|
    && (forall k :: 0 <= k < |outcomes| ==> after[ids[k]] == SettledRow(before[ids[k]], outcomes[k]))
    && (forall k :: |outcomes| <= k < |ids| ==> after[ids[k]] == ClaimedRow(before[ids[k]]))
    && (forall e :: 0 <= e < |before| && e !in ids ==> after[e] == before[e])
  }

  /** Claiming and then marking settles each row by its outcome. */
  lemma ClaimThenMark(rows: seq<Row>, ids: seq<nat>, outcomes: seq<Outcome>)
    requires |outcomes| <= |ids| && Distinct(ids) && Within(ids, rows)
    ensures var after := MarkAll(ClaimAll(rows, ids), ids, outcomes);
            Settles(rows, after, ids, outcomes)
  {
    assert forall k :: 0 <= k < |ids| ==> ids[k] in ids;
    MarkAllAt(ClaimAll(rows, ids), ids, outcomes);
  }

  lemma BatchRun(s: State, w: nat, ids: seq<nat>, limit: nat, outcomes: seq<Outcome>, halt: Option<Halt>)
    requires Enabled(s, Lock(w, ids, limit)) && Covers(ids, outcomes, halt) && InOrder(outcomes, s.now)
    ensures var script := BatchScript(w, s.now, ids, limit, outcomes, halt);
            && Runs(s, script) && Distinct(ids) && Within(ids, s.rows)
            && After(s, script).workers == s.workers
            && LoopDone(s.(rows := ClaimAll(s.rows, ids)), After(s, script), w, ids, outcomes, halt)
  {
    ClaimRun(s, w, ids, limit);
    var claim := [Lock(w, ids, limit), CommitClaim(w)];
    var r := After(s, claim);
    if ids == [] {
      assert s.workers[w := Idle] == s.workers;
    } else {
      assert r.workers[w := Idle] == s.workers && s.workers[w := Idle] == s.workers;
      LoopRun(r, w, outcomes, halt);
    }
    RunThenRun(s, claim, LoopScript(w, s.now, outcomes, halt));
  }

  /** From the claim on, the steps of a call are a run of the machine: every row
      whose outcome came is settled by it, the others of the batch stay
      PROCESSING and are orphaned, no other row is touched, every exception is
      counted, and the worker is free again. */
  lemma BatchIsARun(s: State, w: nat, ids: seq<nat>, limit: nat, outcomes: seq<Outcome>, halt: Option<Halt>)
    requires Enabled(s, Lock(w, ids, limit)) && Covers(ids, outcomes, halt) && InOrder(outcomes, s.now)
    ensures Runs(s, BatchScript(w, s.now, ids, limit, outcomes, halt))
    ensures Distinct(ids) && Within(ids, s.rows)
    ensures var t := After(s, BatchScript(w, s.now, ids, limit, outcomes, halt));
            && t.workers == s.workers && Settles(s.rows, t.rows, ids, outcomes)
            && t.orphans == s.orphans + Events(ids[|outcomes|..])
            && t.failures == s.failures + Failures(outcomes) + HaltFailures(halt)
  {
    BatchRun(s, w, ids, limit, outcomes, halt);
    ClaimThenMark(s.rows, ids, outcomes);
  }

  // ---- what the call counts ----------------------------------------------------

  function CountProcessed(rows: seq<Row>): nat {
    if rows == [] then 0 else (if rows[0].status == Processed then 1 else 0) + CountProcessed(rows[1..])
  }

  lemma {:induction false} CountOfUpdate(rows: seq<Row>, e: nat, r: Row)
    requires e < |rows|
    ensures CountProcessed(rows[e := r])
            == CountProcessed(rows) - (if rows[e].status == Processed then 1 else 0) + (if r.status == Processed then 1 else 0)
  {
    if e > 0 {
      assert rows[e := r][1..] == rows[1..][e - 1 := r];
      CountOfUpdate(rows[1..], e - 1, r);
    }
  }

  /** Claiming touches neither count. */
  lemma {:induction false} CountOfClaim(rows: seq<Row>, ids: seq<nat>, from: nat)
    requires from <= |rows| && forall i :: 0 <= i < |rows| && i in ids ==> rows[i].status == Pending
    ensures CountProcessed(ClaimAll(rows, ids)[from..]) == CountProcessed(rows[from..])
    decreases |rows| - from
  {
    if from < |rows| {
      CountOfClaim(rows, ids, from + 1);
      assert rows[from..][1..] == rows[from + 1..];
      assert ClaimAll(rows, ids)[from..][1..] == ClaimAll(rows, ids)[from + 1..];
    }
  }

  lemma {:induction false} CountsOfMarks(rows: seq<Row>, todo: seq<nat>, outcomes: seq<Outcome>)
    requires |outcomes| <= |todo| && Distinct(todo) && Within(todo, rows)
    requires forall k :: 0 <= k < |todo| ==> rows[todo[k]].status == Processing
    ensures CountProcessed(MarkAll(rows, todo, outcomes)) == CountProcessed(rows) + Successes(outcomes)
    ensures Attempts(MarkAll(rows, todo, outcomes)) == Attempts(rows) + Failures(outcomes)
    decreases |todo|
  {
    if outcomes != [] {
      var e, r := todo[0], MarkedRow(rows[todo[0]], outcomes[0]);
      CountOfUpdate(rows, e, r);
      AttemptsOfUpdate(rows, e, r);
      CountsOfMarks(rows[e := r], todo[1..], outcomes[1..]);
    }
  }

  /** The call moves exactly as many rows to PROCESSED as it counts, and raises
      the attempts by one per exception; a complete one leaves no event of the
      batch in PROCESSING. */
  lemma BatchSettlesEverything(s: State, w: nat, ids: seq<nat>, limit: nat,
                               outcomes: seq<Outcome>, halt: Option<Halt>)
    requires Enabled(s, Lock(w, ids, limit)) && Covers(ids, outcomes, halt) && InOrder(outcomes, s.now)
    ensures var script := BatchScript(w, s.now, ids, limit, outcomes, halt);
            && Runs(s, script)
            && CountProcessed(After(s, script).rows) == CountProcessed(s.rows) + Successes(outcomes)
            && Attempts(After(s, script).rows) == Attempts(s.rows) + Failures(outcomes)
            && (halt.None? ==> forall i <- ids :: i < |s.rows| == |After(s, script).rows| &&
                                                  After(s, script).rows[i].status != Processing)
  {
    BatchIsARun(s, w, ids, limit, outcomes, halt);
    BatchRun(s, w, ids, limit, outcomes, halt);
    ClaimRun(s, w, ids, limit);
    var claimed := ClaimAll(s.rows, ids);
    CountsOfMarks(claimed, ids, outcomes);
    assert forall i :: 0 <= i < |s.rows| && i in ids ==> s.rows[i].status == Pending;
    CountOfClaim(s.rows, ids, 0);
    AttemptsOfClaim(s.rows, ids, 0);
    assert claimed[0..] == claimed && s.rows[0..] == s.rows;
    forall i <- ids ensures halt.None? ==> After(s, BatchScript(w, s.now, ids, limit, outcomes, halt)).rows[i].status != Processing {
      var k :| 0 <= k < |ids| && ids[k] == i;
      if halt.None? {
        RowIsSettled(s.rows[i], outcomes[k]);
      }
    }
  }

  /** The call on the objects of a whole table. */
  method BatchOnTable(table: seq<OutboxEvent>, ids: seq<nat>, outcomes: seq<Outcome>) returns (processed: Option<nat>)
    requires Distinct(table) && Distinct(ids) && |outcomes| <= |ids| && Within(ids, Views(table))
    modifies table
    ensures Settles(old(Views(table)), Views(table), ids, outcomes)
    ensures processed == if |outcomes| < |ids| then None else Some(Successes(outcomes))
  {
    var events := seq(|ids|, k requires 0 <= k < |ids| => table[ids[k]]);
    assert |Views(table)| == |table|;
    assert forall k :: 0 <= k < |ids| ==> events[k] == table[ids[k]] && table[ids[k]] in table;
    processed := ProcessOutboxOnce(events, outcomes);
    forall e | 0 <= e < |table| && e !in ids ensures table[e].View() == old(table[e].View()) {
      assert table[e] !in events;
    }
  }

  /** The effect leaves no choice. */
  lemma SameTable(before: seq<Row>, a: seq<Row>, b: seq<Row>, ids: seq<nat>, outcomes: seq<Outcome>)
    requires |outcomes| <= |ids| && Within(ids, before)
    requires Settles(before, a, ids, outcomes) && Settles(before, b, ids, outcomes)
    ensures a == b
  {
    forall e | 0 <= e < |before| ensures a[e] == b[e] {
      if e in ids {
        var k :| 0 <= k < |ids| && ids[k] == e;
      }
    }
  }

  /** Objects and machine together: `table` holds the rows of the state, and the
      query has answered `ids`. Whatever the outcomes, the objects end up as the
      table of the run that the call's steps are, and the call returns how many
      rows that run moves to PROCESSED. */
  method RunBatch(table: seq<OutboxEvent>, ids: seq<nat>, limit: nat, outcomes: seq<Outcome>,
                  ghost halt: Option<Halt>, ghost s: State, ghost w: nat)
    returns (processed: Option<nat>)
    requires Distinct(table) && Views(table) == s.rows
    requires Enabled(s, Lock(w, ids, limit)) && Covers(ids, outcomes, halt) && InOrder(outcomes, s.now)
    modifies table
    ensures Runs(s, BatchScript(w, s.now, ids, limit, outcomes, halt))
    ensures var t := After(s, BatchScript(w, s.now, ids, limit, outcomes, halt));
            && Views(table) == t.rows
            && processed == if halt.Some? then None else Some(CountProcessed(t.rows) - CountProcessed(s.rows))
  {
    BatchIsARun(s, w, ids, limit, outcomes, halt);
    BatchSettlesEverything(s, w, ids, limit, outcomes, halt);
    ghost var t := After(s, BatchScript(w, s.now, ids, limit, outcomes, halt));
    processed := BatchOnTable(table, ids, outcomes);
    SameTable(s.rows, Views(table), t.rows, ids, outcomes);
  }

  ghost function Views(table: seq<OutboxEvent>): seq<Row>
    reads table
  {
    seq(|table|, i requires 0 <= i < |table| reads table => table[i].View())
  }
}
