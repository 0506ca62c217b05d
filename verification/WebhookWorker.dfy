/**
  process_message and handle_retry as the code runs them
  (src/webhook_worker.py, src/messaging/idempotency.py,
  src/messaging/retry.py). Each statement that waits for the database or the
  broker is one step of the consumer machine. While it waits, other handlers,
  the broker and the publisher go on, and the connection may drop; a call is a
  run of the machine with all their steps in it.
*/
module WebhookWorker {
  import opened Common
  import Topology
  import opened Retry
  import opened Delivery
  import opened Consumer

  /** Where the database fails, if it does. A commit that fails may have been durable. */
  datatype Fault = NoFault | AtInsert | InDelivery | AtCommit(durable: bool)

  datatype Confirm = Confirmed | Failed(delivered: bool)

  /** What others would do while the call waits for its insert, the delivery,
      the commit, the retry exchange and its answer to the broker. */
  datatype Others = Others(
    atInsert: seq<Action>, atDelivery: seq<Action>, atCommit: seq<Action>,
    atRetry: seq<Action>, atBroker: seq<Action>)

  /** What one call meets: the database, the delivery target, the retry
      exchange, everybody else. */
  datatype Env = Env(fault: Fault, target: Target, retry: Confirm, others: Others)

  datatype Verdict = Done(duplicate: bool) | Retryable | Fatal

  /** What the marker statement says. */
  datatype Reply = Broken | Blocked | Answered(won: bool)

  /** A call ends, raises, or waits for another transaction's marker. */
  datatype Ending = Ended | Raised | Waits

  function Outcome(v: Verdict): Phase {
    match v
    case Done(_) => Settled
    case Retryable => Retrying
    case Fatal => Rejecting
  }

  /** A step of this handler, rather than of somebody else or the connection. */
  predicate Own(a: Action, c: nat) {
    !a.Publish? && !a.Detach? && a.c == c
  }

  function OwnSteps(acts: seq<Action>, c: nat): seq<Action> {
    if acts == [] then []
    else OwnSteps(acts[..|acts| - 1], c) + if Own(acts[|acts| - 1], c) then [acts[|acts| - 1]] else []
  }

  lemma {:induction false} RunOn(m: Mesh, acts: seq<Action>, a: Action, c: nat)
    requires Runs(m, acts) && Enabled(After(m, acts), a)
    ensures Runs(m, acts + [a]) && After(m, acts + [a]) == Apply(After(m, acts), a)
    ensures OwnSteps(acts + [a], c) == OwnSteps(acts, c) + if Own(a, c) then [a] else []
    decreases acts
  {
    assert (acts + [a])[..|acts|] == acts;
    if acts == [] {
      assert acts + [a] == [a] && [a][1..] == [];
    } else {
      assert (acts + [a])[1..] == acts[1..] + [a];
      RunOn(Apply(m, acts[0]), acts[1..], a, c);
    }
  }

  /** The marker statement is step `i` of the run, and has won if and only if the
      marker was not there at that moment. */
  ghost predicate InsertedAt(m: Mesh, acts: seq<Action>, c: nat, i: int, e: nat, won: bool) {
    && 0 <= i < |acts| && acts[i] == Insert(c) && Runs(m, acts[..i])
    && (won <==> e !in After(m, acts[..i]).markers)
  }

  lemma InsertedBefore(m: Mesh, done: seq<Action>, acts: seq<Action>, c: nat, i: int, e: nat, won: bool)
    requires InsertedAt(m, done, c, i, e, won) && done <= acts
    ensures InsertedAt(m, acts, c, i, e, won)
  {
    assert acts[..i] == done[..i];
  }

  /** How the transaction ends whose delivery returned. */
  function LastStep(c: nat, fault: Fault): Action {
    match fault
    case AtCommit(durable) => if durable then CommitUnknown(c) else Fail(c, true)
    case _ => Commit(c)
  }

  /** The handler's own steps once its marker statement is done. */
  function WorkScript(c: nat, e: nat, won: bool, env: Env): seq<Action> {
    if !won then if env.fault.AtCommit? then [Fail(c, true)] else [Commit(c)]
    else if env.fault.InDelivery? then [Fail(c, true)]
    else if Delivery.Deliver(env.target, e).None? then [Fail(c, false)]
    else
      [Work(c, env.target), LastStep(c, env.fault)]
  }

  /** How the transaction is taken by the except clauses. */
  function Judge(e: nat, won: bool, env: Env): Verdict {
    if env.fault.AtInsert? || (env.fault.AtCommit? && (!won || Delivery.Deliver(env.target, e).Some?)) then Retryable
    else if !won then Done(true)
    else if env.fault.InDelivery? then Retryable
    else if Delivery.Deliver(env.target, e).None? then Fatal
    else Done(false)
  }

  function TransactionScript(c: nat, e: nat, won: bool, env: Env): seq<Action> {
    if env.fault.AtInsert? then [Fail(c, true)] else [Insert(c)] + WorkScript(c, e, won, env)
  }

  /** The retry of a message with these headers: 10 s away with header 1 if there
      is no count, 10 s, 60 s or 300 s away with the count raised if there is. */
  ghost predicate HasRetryPlace(k: Copy, headers: Headers) {
    && k.attached && "x-retry-count" in k.headers
    && (var next := k.headers["x-retry-count"];
        if "x-retry-count" !in headers || headers["x-retry-count"].OtherValue? then
          k.place == Waiting(Topology.After10s) && next == IntValue(1)
        else
          match headers["x-retry-count"]
          case IntValue(n) =>
            && next == IntValue(n + 1)
            && (n == 0 ==> k.place == Waiting(Topology.After10s)) && (n == 1 ==> k.place == Waiting(Topology.After60s))
            && (n == 2 ==> k.place == Waiting(Topology.After300s))
          case BoolValue(b) =>
            if b then k.place == Waiting(Topology.After60s) && next == IntValue(2)
            else k.place == Waiting(Topology.After10s) && next == IntValue(1))
    && forall key :: key != "x-retry-count" ==>
         (key in k.headers <==> key in headers) && (key in headers ==> k.headers[key] == headers[key])
  }

  function RetryScript(headers: Headers, c: nat, retry: Confirm): seq<Action> {
    if RetryLevel(RetryCount(headers)).None? then [GiveUp(c), Reject(c)]
    else
      match retry
      case Confirmed => [PublishRetry(c), Ack(c)]
      case Failed(delivered) => [PublishRetryError(c, delivered)]
  }

  lemma AfterFirstRetryStep(m: Mesh, c: nat, retry: Confirm)
    requires At(m, c, Held(Retrying))
    ensures var script := RetryScript(m.copies[c].headers, c, retry);
            && Own(script[0], c) && Enabled(m, script[0])
            && if |script| == 1 then At(Apply(m, script[0]), c, Held(Stuck))
               else |script| == 2 && script[1] in {Ack(c), Reject(c)} &&
                    Enabled(Apply(m, script[0]), script[1])
  {
  }

  function EndScript(headers: Headers, c: nat, verdict: Verdict, env: Env): seq<Action> {
    match verdict
    case Done(_) => [Ack(c)]
    case Fatal => [Reject(c)]
    case Retryable => RetryScript(headers, c, env.retry)
  }

  /** All the handler's own steps in one call. */
  function Script(k: Copy, c: nat, won: bool, env: Env): seq<Action> {
    if k.body.Garbage? then [RefuseBody(c), Reject(c)]
    else
      TransactionScript(c, k.body.id, won, env) + EndScript(k.headers, c, Judge(k.body.id, won, env), env)
  }

  /** When the transaction of a call inserts, delivers, commits and fails, and
      what the except clauses make of it. Without the insert nothing is won. */
  lemma TransactionSteps(c: nat, e: nat, won: bool, env: Env)
    requires won ==> !env.fault.AtInsert?
    ensures var own := TransactionScript(c, e, won, env);
            var raised := won && !env.fault.InDelivery? && DeliveryRaises(env.target);
            var broke := env.fault.AtInsert? || (won && env.fault.InDelivery?) || (env.fault.AtCommit? && !raised);
            && (Insert(c) in own <==> !env.fault.AtInsert?)
            && (Work(c, env.target) in own <==> won && !env.fault.InDelivery? && !raised)
            && (Commit(c) in own <==> !raised && !broke)
            && (Fail(c, false) in own <==> raised)
            && (Fail(c, true) in own || CommitUnknown(c) in own <==> broke)
            && Ack(c) !in own && Reject(c) !in own
            && (Judge(e, won, env).Fatal? <==> raised) && (Judge(e, won, env).Retryable? <==> broke)
  {
    RaisesWhen(env.target, e);
  }

  /** When a call commits, fails, acks and rejects. */
  lemma WhatTheStepsAre(k: Copy, c: nat, won: bool, env: Env)
    requires k.body.Event? && (won ==> !env.fault.AtInsert?)
    ensures var own, off := Script(k, c, won, env), OffLadder(k.headers);
            var raised := won && !env.fault.InDelivery? && DeliveryRaises(env.target);
            var broke := env.fault.AtInsert? || (won && env.fault.InDelivery?) || (env.fault.AtCommit? && !raised);
            && (Insert(c) in own <==> !env.fault.AtInsert?)
            && (Work(c, env.target) in own <==> won && !env.fault.InDelivery? && !raised)
            && (Commit(c) in own <==> !raised && !broke)
            && (Fail(c, false) in own <==> raised)
            && (Fail(c, true) in own || CommitUnknown(c) in own <==> broke)
            && (Ack(c) in own <==> (!raised && !broke) || (broke && !off && env.retry.Confirmed?))
            && (Reject(c) in own <==> raised || (broke && off))
            && (Judge(k.body.id, won, env).Fatal? <==> raised)
            && (Judge(k.body.id, won, env).Retryable? <==> broke)
  {
    TransactionSteps(c, k.body.id, won, env);
    RetryLaw(k.headers);
    var verdict := Judge(k.body.id, won, env);
    var start, end := TransactionScript(c, k.body.id, won, env), EndScript(k.headers, c, verdict, env);
    assert forall a :: a in start + end <==> a in start || a in end;
  }

  class Worker {
    var copies: seq<Copy>
    var markers: set<nat>
    var deliveries: seq<DeliveryRow>
    var served: map<nat, Target>
    var tally: Tally

    function View(): Mesh
      reads this
    {
      Mesh(copies, markers, deliveries, served, tally)
    }

    /** What the call knows of its message: all but whether its connection stands. */
    predicate Mine(k: Copy, c: nat, p: Place)
      reads this
    {
      c < |copies| && copies[c] == k.(place := p, attached := copies[c].attached)
    }

    /** Others go on while the call waits: `wishes`, as far as they can be done.
        They may take the connection away, but not move the handler. */
    method Await(c: nat, wishes: seq<Action>, ghost m: Mesh, ghost done: seq<Action>) returns (ghost acts: seq<Action>)
      requires Runs(m, done) && View() == After(m, done) && c < |copies|
      modifies this
      ensures Runs(m, acts) && View() == After(m, acts)
      ensures Mine(old(copies[c]), c, old(copies[c].place)) && OwnSteps(acts, c) == OwnSteps(done, c)
      ensures done <= acts
    {
      acts := done;
      for i := 0 to |wishes|
        invariant Runs(m, acts) && View() == After(m, acts) && done <= acts
        invariant Mine(old(copies[c]), c, old(copies[c].place)) && OwnSteps(acts, c) == OwnSteps(done, c)
      {
        var a := wishes[i];
        if !Own(a, c) && Enabled(View(), a) {
          StepFrame(View(), a);
          RunOn(m, acts, a, c);
          acts := acts + [a];
          var n := Apply(View(), a);
          copies, markers, deliveries, served, tally := n.copies, n.markers, n.deliveries, n.served, n.tally;
        }
      }
    }

    method Place(c: nat, p: Place)
      requires c < |copies|
      modifies this`copies
      ensures View() == Move(old(View()), c, p)
    {
      copies := copies[c := copies[c].(place := p)];
    }

    /** try_mark_processed: the insert has won unless the marker is there. */
    method TryMarkProcessed(c: nat) returns (acquired: bool)
      requires Enabled(View(), Insert(c))
      modifies this`copies
      ensures View() == Apply(old(View()), Insert(c))
      ensures acquired <==> copies[c].body.id !in markers
    {
      acquired := copies[c].body.id !in markers;
      Place(c, Held(Inserted(acquired)));
    }

    /** An exception rolls the transaction back and is counted. */
    method RollBack(c: nat, retryable: bool)
      requires Enabled(View(), Fail(c, retryable))
      modifies this`copies, this`tally
      ensures View() == Apply(old(View()), Fail(c, retryable))
    {
      tally := tally.(results := tally.results + 1);
      if retryable {
        Place(c, Held(Retrying));
      } else {
        tally := tally.(dlq := tally.dlq + 1);
        Place(c, Held(Rejecting));
      }
    }

    /** The rollback as the next step of the run. */
    method FailStep(c: nat, retryable: bool, ghost m: Mesh, ghost done: seq<Action>) returns (ghost acts: seq<Action>)
      requires Runs(m, done) && View() == After(m, done) && Enabled(View(), Fail(c, retryable))
      modifies this`copies, this`tally
      ensures Runs(m, acts) && View() == After(m, acts) && done <= acts
      ensures Mine(old(copies[c]), c, Held(if retryable then Retrying else Rejecting))
      ensures OwnSteps(acts, c) == OwnSteps(done, c) + [Fail(c, retryable)]
    {
      RunOn(m, done, Fail(c, retryable), c);
      acts := done + [Fail(c, retryable)];
      RollBack(c, retryable);
    }

    /** The commit of marker and rows, or its failure, durable or not. */
    method FinishWork(c: nat, fault: Fault)
      requires Enabled(View(), CommitUnknown(c))
      modifies this
      ensures Enabled(old(View()), LastStep(c, fault)) && View() == Apply(old(View()), LastStep(c, fault))
    {
      if fault == AtCommit(false) {
        RollBack(c, true);
        return;
      }
      var phase := copies[c].place.phase;
      markers := markers + {copies[c].body.id};
      deliveries := deliveries + phase.rows;
      served := served[copies[c].body.id := phase.target];
      if fault.AtCommit? {
        tally := tally.(results := tally.results + 1);
        Place(c, Held(Retrying));
      } else {
        Place(c, Held(Settled));
      }
    }

    /** Delivery inside the transaction; None if it returns with its rows pending. */
    method Work(c: nat, env: Env, ghost m: Mesh, ghost done: seq<Action>)
      returns (verdict: Option<Verdict>, ghost acts: seq<Action>)
      requires Runs(m, done) && View() == After(m, done) && ValidTarget(env.target)
      requires At(View(), c, Held(Inserted(true))) && copies[c].body.Event?
      modifies this
      ensures Runs(m, acts) && View() == After(m, acts) && done <= acts
      ensures var k, delivered := old(copies[c]), Delivery.Deliver(env.target, old(copies[c]).body.id);
              if env.fault.InDelivery? then
                && verdict == Some(Retryable) && Mine(k, c, Held(Retrying))
                && OwnSteps(acts, c) == OwnSteps(done, c) + [Fail(c, true)]
              else if delivered.None? then
                && verdict == Some(Fatal) && Mine(k, c, Held(Rejecting))
                && OwnSteps(acts, c) == OwnSteps(done, c) + [Fail(c, false)]
              else
                && verdict == None && Mine(k, c, Held(Worked(env.target, delivered.value)))
                && OwnSteps(acts, c) == OwnSteps(done, c) + [Action.Work(c, env.target)]
    {
      var e := copies[c].body.id;
      acts := Await(c, env.others.atDelivery, m, done);
      if env.fault.InDelivery? {
        acts := FailStep(c, true, m, acts);
        return Some(Retryable), acts;
      }
      var session := new Session();
      var ok := session.DeliverWebhooks(env.target, e);
      if !ok {
        acts := FailStep(c, false, m, acts);
        return Some(Fatal), acts;
      }
      RunOn(m, acts, Action.Work(c, env.target), c);
      acts := acts + [Action.Work(c, env.target)];
      assert session.added == Delivery.Deliver(env.target, e).value;
      Place(c, Held(Worked(env.target, session.added)));
      verdict := None;
    }

    /** Delivery inside the transaction that holds the marker, then its end. */
    method WorkAndCommit(c: nat, env: Env, ghost m: Mesh, ghost done: seq<Action>)
      returns (verdict: Verdict, ghost acts: seq<Action>)
      requires Runs(m, done) && View() == After(m, done) && ValidTarget(env.target) && !env.fault.AtInsert?
      requires At(View(), c, Held(Inserted(true))) && copies[c].body.Event?
      modifies this
      ensures Runs(m, acts) && View() == After(m, acts) && done <= acts
      ensures verdict == Judge(old(copies[c]).body.id, true, env)
      ensures Mine(old(copies[c]), c, Held(Outcome(verdict)))
      ensures OwnSteps(acts, c) == OwnSteps(done, c) + WorkScript(c, old(copies[c]).body.id, true, env)
    {
      var early: Option<Verdict>;
      early, acts := Work(c, env, m, done);
      match early {
        case Some(v) => verdict := v;
        case None => verdict, acts := EndWork(c, env, m, acts);
      }
    }

    method EndWork(c: nat, env: Env, ghost m: Mesh, ghost done: seq<Action>)
      returns (verdict: Verdict, ghost acts: seq<Action>)
      requires Runs(m, done) && View() == After(m, done) && Enabled(View(), CommitUnknown(c))
      modifies this
      ensures Runs(m, acts) && View() == After(m, acts) && done <= acts
      ensures verdict == if env.fault.AtCommit? then Retryable else Done(false)
      ensures Mine(old(copies[c]), c, Held(Outcome(verdict)))
      ensures OwnSteps(acts, c) == OwnSteps(done, c) + [LastStep(c, env.fault)]
    {
      acts := Await(c, env.others.atCommit, m, done);
      assert Enabled(View(), LastStep(c, env.fault));
      RunOn(m, acts, LastStep(c, env.fault), c);
      acts := acts + [LastStep(c, env.fault)];
      FinishWork(c, env.fault);
      verdict := if env.fault.AtCommit? then Retryable else Done(false);
    }

    method CommitNothing(c: nat)
      requires At(View(), c, Held(Inserted(false))) && copies[c].body.Event?
      modifies this`copies
      ensures Enabled(old(View()), Commit(c)) && View() == Apply(old(View()), Commit(c))
    {
      Place(c, Held(Settled));
    }

    /** The transaction of a message that was processed before. */
    method EndDuplicate(c: nat, env: Env, ghost m: Mesh, ghost done: seq<Action>)
      returns (verdict: Verdict, ghost acts: seq<Action>)
      requires Runs(m, done) && View() == After(m, done) && !env.fault.AtInsert?
      requires At(View(), c, Held(Inserted(false))) && copies[c].body.Event?
      modifies this
      ensures Runs(m, acts) && View() == After(m, acts) && done <= acts
      ensures verdict == Judge(old(copies[c]).body.id, false, env)
      ensures Mine(old(copies[c]), c, Held(Outcome(verdict)))
      ensures OwnSteps(acts, c) == OwnSteps(done, c) + WorkScript(c, old(copies[c]).body.id, false, env)
    {
      acts := Await(c, env.others.atCommit, m, done);
      if env.fault.AtCommit? {
        acts := FailStep(c, true, m, acts);
        return Retryable, acts;
      }
      RunOn(m, acts, Commit(c), c);
      acts := acts + [Commit(c)];
      CommitNothing(c);
      verdict := Done(true);
    }

    /** The marker statement: it fails, waits, or says whether it has won. */
    method TakeMarker(c: nat, env: Env, ghost m: Mesh, ghost done: seq<Action>)
      returns (reply: Reply, ghost acts: seq<Action>)
      requires Runs(m, done) && View() == After(m, done)
      requires At(View(), c, Held(Received)) && copies[c].body.Event?
      modifies this
      ensures Runs(m, acts) && View() == After(m, acts) && done <= acts
      ensures var k := old(copies[c]);
              match reply
              case Broken => env.fault.AtInsert? && Mine(k, c, Held(Retrying))
                             && OwnSteps(acts, c) == OwnSteps(done, c) + [Fail(c, true)]
              case Blocked => !env.fault.AtInsert? && Mine(k, c, Held(Received))
                              && OwnSteps(acts, c) == OwnSteps(done, c)
                              && exists d :: 0 <= d < |copies| && HoldsMarker(copies[d], k.body.id)
              case Answered(won) => !env.fault.AtInsert? && Mine(k, c, Held(Inserted(won)))
                                    && OwnSteps(acts, c) == OwnSteps(done, c) + [Insert(c)]
                                    && InsertedAt(m, acts, c, |acts| - 1, k.body.id, won)
    {
      acts := Await(c, env.others.atInsert, m, done);
      if env.fault.AtInsert? {
        acts := FailStep(c, true, m, acts);
        return Broken, acts;
      }
      if !Enabled(View(), Insert(c)) {
        return Blocked, acts;
      }
      RunOn(m, acts, Insert(c), c);
      assert (acts + [Insert(c)])[..|acts|] == acts;
      acts := acts + [Insert(c)];
      var won := TryMarkProcessed(c);
      reply := Reply.Answered(won);
    }

    /** The transaction from its marker statement on. */
    method AfterMarker(c: nat, won: bool, env: Env, ghost m: Mesh, ghost done: seq<Action>)
      returns (verdict: Verdict, ghost acts: seq<Action>)
      requires Runs(m, done) && View() == After(m, done) && ValidTarget(env.target) && !env.fault.AtInsert?
      requires At(View(), c, Held(Inserted(won))) && copies[c].body.Event?
      modifies this
      ensures Runs(m, acts) && View() == After(m, acts) && done <= acts
      ensures verdict == Judge(old(copies[c]).body.id, won, env)
      ensures Mine(old(copies[c]), c, Held(Outcome(verdict)))
      ensures OwnSteps(acts, c) == OwnSteps(done, c) + WorkScript(c, old(copies[c]).body.id, won, env)
    {
      if won {
        verdict, acts := WorkAndCommit(c, env, m, done);
      } else {
        verdict, acts := EndDuplicate(c, env, m, done);
      }
    }

    /** The transaction of process_message and what the except clauses make of
        it; None while another open transaction holds the marker. */
    method RunTransaction(c: nat, env: Env, ghost m: Mesh, ghost done: seq<Action>)
      returns (verdict: Option<Verdict>, ghost won: bool, ghost at: int, ghost acts: seq<Action>)
      requires Runs(m, done) && View() == After(m, done) && ValidTarget(env.target)
      requires At(View(), c, Held(Received)) && copies[c].body.Event?
      modifies this
      ensures Runs(m, acts) && View() == After(m, acts) && done <= acts
      ensures var k := old(copies[c]);
              if verdict.None? then
                && Mine(k, c, Held(Received)) && OwnSteps(acts, c) == OwnSteps(done, c)
                && exists d :: 0 <= d < |copies| && HoldsMarker(copies[d], k.body.id)
              else
                && (won ==> !env.fault.AtInsert?)
                && verdict.value == Judge(k.body.id, won, env) && Mine(k, c, Held(Outcome(verdict.value)))
                && OwnSteps(acts, c) == OwnSteps(done, c) + TransactionScript(c, k.body.id, won, env)
                && (env.fault.AtInsert? || InsertedAt(m, acts, c, at, k.body.id, won))
    {
      var reply: Reply;
      reply, acts := TakeMarker(c, env, m, done);
      won := reply == Reply.Answered(true);
      at := |acts| - 1;
      match reply {
        case Broken => verdict := Some(Retryable);
        case Blocked => verdict := None;
        case Answered(first) =>
          var v: Verdict;
          ghost var inserted := acts;
          v, acts := AfterMarker(c, first, env, m, acts);
          InsertedBefore(m, inserted, acts, c, at, old(copies[c]).body.id, won);
          verdict := Some(v);
      }
    }

    /** publish_retry: the count goes up in a copy of the headers; false when
        the ladder is at its end. */
    method TryPublishRetry(c: nat) returns (published: bool)
      requires At(View(), c, Held(Retrying))
      modifies this
      ensures published == Enabled(old(View()), PublishRetry(c))
      ensures View() == if published then Apply(old(View()), PublishRetry(c)) else old(View())
      ensures published <==> !OffLadder(old(copies[c]).headers)
      ensures published ==>
                && |copies| == |old(copies)| + 1 && copies[|old(copies)|].body == old(copies[c]).body
                && HasRetryPlace(copies[|old(copies)|], old(copies[c]).headers)
    {
      RetryLaw(copies[c].headers);
      var count := RetryCount(copies[c].headers);
      var level := RetryLevel(count);
      if level == None {
        return false;
      }
      var headers := copies[c].headers[RETRY_HEADER := IntValue(count + 1)];
      var k := copies[c];
      Place(c, Held(RetrySent));
      copies := copies + [k.(headers := headers, place := Waiting(level.value), attached := true,
                             waited := k.waited + Topology.Ttl(level.value))];
      tally := tally.(retries := tally.retries + 1);
      return true;
    }

    method DoAck(c: nat)
      requires Enabled(View(), Ack(c))
      modifies this
      ensures View() == Apply(old(View()), Ack(c))
    {
      if copies[c].place.phase.Settled? {
        tally := if copies[c].attached then tally.(results := tally.results + 1)
                 else tally.(lostResults := tally.lostResults + 1);
      }
      Place(c, if copies[c].attached then Acked else Gone);
    }

    method DoReject(c: nat)
      requires Enabled(View(), Reject(c))
      modifies this
      ensures View() == Apply(old(View()), Reject(c))
    {
      if !copies[c].attached {
        tally := tally.(lostRejects := tally.lostRejects + 1);
      }
      Place(c, if copies[c].attached then Dead else Gone);
    }

    /** message.ack() or message.reject(requeue=False), after whatever happens
        before the broker hears of it. */
    method Answer(c: nat, a: Action, env: Env, ghost m: Mesh, ghost done: seq<Action>)
      returns (ending: Ending, ghost acts: seq<Action>)
      requires Runs(m, done) && View() == After(m, done) && a in {Ack(c), Reject(c)} && Enabled(View(), a)
      modifies this
      ensures Runs(m, acts) && View() == After(m, acts) && done <= acts
      ensures OwnSteps(acts, c) == OwnSteps(done, c) + [a]
      ensures ending.Ended? ==> At(View(), c, if a.Ack? then Acked else Dead)
      ensures !ending.Ended? ==> ending.Raised? && At(View(), c, Gone)
    {
      acts := Await(c, env.others.atBroker, m, done);
      RunOn(m, acts, a, c);
      acts := acts + [a];
      ending := if copies[c].attached then Ended else Raised;
      if a.Ack? {
        DoAck(c);
      } else {
        DoReject(c);
      }
    }

    /** The broker refuses or does not confirm the retry copy. */
    method FailRetry(c: nat, delivered: bool)
      requires Enabled(View(), PublishRetryError(c, delivered))
      modifies this
      ensures View() == Apply(old(View()), PublishRetryError(c, delivered))
    {
      var k := copies[c];
      Place(c, Held(Stuck));
      if delivered {
        copies := copies + [RetryCopy(k)];
        tally := tally.(unconfirmed := tally.unconfirmed + 1);
      }
    }

    method DoGiveUp(c: nat)
      requires Enabled(View(), GiveUp(c))
      modifies this
      ensures View() == Apply(old(View()), GiveUp(c))
    {
      tally := tally.(dlq := tally.dlq + 1);
      Place(c, Held(Rejecting));
    }

    /** publish_retry and its count: what to tell the broker next, or None if
        publishing raises. */
    method DecideRetry(c: nat, env: Env) returns (answer: Option<Action>)
      requires At(View(), c, Held(Retrying))
      modifies this
      ensures var script := RetryScript(old(copies[c]).headers, c, env.retry);
              && Enabled(old(View()), script[0]) && View() == Apply(old(View()), script[0])
              && answer == if |script| == 1 then None else Some(script[1])
    {
      if env.retry.Failed? && RetryLevel(RetryCount(copies[c].headers)).Some? {
        FailRetry(c, env.retry.delivered);
        return None;
      }
      var published := TryPublishRetry(c);
      if published {
        return Some(Ack(c));
      }
      DoGiveUp(c);
      answer := Some(Reject(c));
    }

    /** publish_retry, after whatever happens before the exchange has the copy. */
    method StepRetry(c: nat, env: Env, ghost m: Mesh, ghost done: seq<Action>)
      returns (answer: Option<Action>, ghost acts: seq<Action>)
      requires Runs(m, done) && View() == After(m, done) && At(View(), c, Held(Retrying))
      modifies this
      ensures Runs(m, acts) && View() == After(m, acts) && done <= acts
      ensures var script := RetryScript(old(copies[c]).headers, c, env.retry);
              && OwnSteps(acts, c) == OwnSteps(done, c) + [script[0]]
              && if |script| == 1 then answer == None && At(View(), c, Held(Stuck))
                 else answer == Some(script[1]) && script[1] in {Ack(c), Reject(c)} && Enabled(View(), script[1])
    {
      acts := Await(c, env.others.atRetry, m, done);
      ghost var script := RetryScript(copies[c].headers, c, env.retry);
      AfterFirstRetryStep(View(), c, env.retry);
      RunOn(m, acts, script[0], c);
      acts := acts + [script[0]];
      answer := DecideRetry(c, env);
    }

    /** handle_retry: when publishing raises, nothing follows and the message
        stays unacknowledged. */
    method HandleRetry(c: nat, env: Env, ghost m: Mesh, ghost done: seq<Action>)
      returns (ending: Ending, ghost acts: seq<Action>)
      requires Runs(m, done) && View() == After(m, done) && At(View(), c, Held(Retrying))
      modifies this
      ensures Runs(m, acts) && View() == After(m, acts) && done <= acts
      ensures OwnSteps(acts, c) == OwnSteps(done, c) + RetryScript(old(copies[c]).headers, c, env.retry)
      ensures OwnSteps(acts, c) == OwnSteps(done, c) +
                (if OffLadder(old(copies[c]).headers) then [GiveUp(c), Reject(c)]
                 else if env.retry.Confirmed? then [PublishRetry(c), Ack(c)]
                 else [PublishRetryError(c, env.retry.delivered)])
      ensures ending.Ended? ==> At(View(), c, if OffLadder(old(copies[c]).headers) then Dead else Acked)
      ensures ending.Ended? ==> At(View(), c, Acked) || At(View(), c, Dead)
      ensures !ending.Ended? ==> ending.Raised? && (At(View(), c, Held(Stuck)) || At(View(), c, Gone))
    {
      RetryLaw(copies[c].headers);
      ghost var script := RetryScript(copies[c].headers, c, env.retry);
      var answer: Option<Action>;
      answer, acts := StepRetry(c, env, m, done);
      match answer {
        case None =>
          assert script == [script[0]];
          ending := Raised;
        case Some(a) =>
          assert script == [script[0]] + [a];
          ending, acts := Answer(c, a, env, m, acts);
      }
    }

    method DoRefuse(c: nat)
      requires Enabled(View(), RefuseBody(c))
      modifies this
      ensures View() == Apply(old(View()), RefuseBody(c))
    {
      tally := tally.(results := tally.results + 1, invalid := tally.invalid + 1);
      Place(c, Held(Rejecting));
    }

    /** What follows the transaction. */
    method Conclude(c: nat, verdict: Verdict, env: Env, ghost m: Mesh, ghost done: seq<Action>)
      returns (ending: Ending, ghost acts: seq<Action>)
      requires Runs(m, done) && View() == After(m, done) && At(View(), c, Held(Outcome(verdict)))
      modifies this
      ensures Runs(m, acts) && View() == After(m, acts) && done <= acts
      ensures OwnSteps(acts, c) == OwnSteps(done, c) + EndScript(old(copies[c]).headers, c, verdict, env)
      ensures ending.Ended? ==>
                At(View(), c, if verdict.Fatal? || (verdict.Retryable? && OffLadder(old(copies[c]).headers)) then Dead
                              else Acked)
      ensures ending.Ended? ==> At(View(), c, Acked) || At(View(), c, Dead)
      ensures !ending.Ended? ==> ending.Raised? && (At(View(), c, Held(Stuck)) || At(View(), c, Gone))
    {
      match verdict {
        case Done(_) => ending, acts := Answer(c, Ack(c), env, m, done);
        case Retryable => ending, acts := HandleRetry(c, env, m, done);
        case Fatal => ending, acts := Answer(c, Reject(c), env, m, done);
      }
    }

    method RefuseGarbage(c: nat, env: Env, ghost m: Mesh) returns (ending: Ending, ghost acts: seq<Action>)
      requires View() == m && Enabled(m, RefuseBody(c))
      modifies this
      ensures Runs(m, acts) && View() == After(m, acts) && OwnSteps(acts, c) == [RefuseBody(c), Reject(c)]
      ensures ending.Ended? ==> At(View(), c, Dead)
      ensures !ending.Ended? ==> ending.Raised? && At(View(), c, Gone)
    {
      RunOn(m, [], RefuseBody(c), c);
      assert [] + [RefuseBody(c)] == [RefuseBody(c)];
      DoRefuse(c);
      ending, acts := Answer(c, Reject(c), env, m, [RefuseBody(c)]);
    }

    /** The call on a message that holds an event. */
    method ProcessEvent(c: nat, env: Env, ghost m: Mesh)
      returns (ending: Ending, ghost won: bool, ghost at: int, ghost acts: seq<Action>)
      requires View() == m && At(View(), c, Held(Received)) && ValidTarget(env.target) && copies[c].body.Event?
      modifies this
      ensures Runs(m, acts) && View() == After(m, acts)
      ensures ending.Waits? ==>
                && OwnSteps(acts, c) == [] && At(View(), c, Held(Received)) && copies[c].body.Event?
                && exists d :: 0 <= d < |copies| && HoldsMarker(copies[d], copies[c].body.id)
      ensures !ending.Waits? ==>
                && OwnSteps(acts, c) == Script(old(copies[c]), c, won, env) && (won ==> !env.fault.AtInsert?)
                && (env.fault.AtInsert? || InsertedAt(m, acts, c, at, old(copies[c]).body.id, won))
      ensures ending.Ended? ==>
                var verdict := Judge(old(copies[c]).body.id, won, env);
                At(View(), c, if verdict.Fatal? || (verdict.Retryable? && OffLadder(old(copies[c]).headers)) then Dead
                              else Acked)
      ensures ending.Raised? ==> At(View(), c, Held(Stuck)) || At(View(), c, Gone)
    {
      ghost var e := copies[c].body.id;
      var verdict: Option<Verdict>;
      verdict, won, at, acts := RunTransaction(c, env, m, []);
      if verdict == None {
        return Waits, won, at, acts;
      }
      ghost var done := acts;
      ending, acts := Conclude(c, verdict.value, env, m, acts);
      if !env.fault.AtInsert? {
        InsertedBefore(m, done, acts, c, at, e, won);
      }
    }

    /** process_message on a message just received, in the middle of whatever
        everybody else does: the call is a run of the machine. Its marker
        statement wins if and only if the marker is not there; then the delivery
        works and commits, unless the database fails or the delivery raises. A
        duplicate commits nothing new. A delivery that raises is dead-lettered,
        a database failure leads to a retry, or to the dead-letter queue off the
        ladder; everything else is acked. The call settles its message unless a
        broker call raises, or it still waits for the marker that another open
        transaction holds. */
    method ProcessMessage(c: nat, env: Env)
      returns (ending: Ending, ghost won: bool, ghost at: int, ghost acts: seq<Action>)
      requires At(View(), c, Held(Received)) && ValidTarget(env.target)
      modifies this
      ensures Runs(old(View()), acts) && View() == After(old(View()), acts)
      ensures ending.Waits? ==>
                && OwnSteps(acts, c) == [] && At(View(), c, Held(Received))
                && copies[c].body.Event?
                && exists d :: 0 <= d < |copies| && HoldsMarker(copies[d], copies[c].body.id)
      ensures !ending.Waits? ==> OwnSteps(acts, c) == Script(old(copies[c]), c, won, env)
      ensures old(copies[c]).body.Garbage? ==>
                && OwnSteps(acts, c) == [RefuseBody(c), Reject(c)] && !ending.Waits?
                && (ending.Ended? ==> At(View(), c, Dead))
      ensures old(copies[c]).body.Event? && !ending.Waits? && !env.fault.AtInsert? ==>
                InsertedAt(old(View()), acts, c, at, old(copies[c]).body.id, won)
      ensures old(copies[c]).body.Event? && !ending.Waits? ==>
                var own, off := OwnSteps(acts, c), OffLadder(old(copies[c]).headers);
                var raised := won && !env.fault.AtInsert? && !env.fault.InDelivery? && DeliveryRaises(env.target);
                var broke := env.fault.AtInsert? || (won && env.fault.InDelivery?) || (env.fault.AtCommit? && !raised);
                && (Insert(c) in own <==> !env.fault.AtInsert?)
                && (Action.Work(c, env.target) in own <==> won && !env.fault.AtInsert? && !env.fault.InDelivery? && !raised)
                && (Commit(c) in own <==> !raised && !broke)
                && (Fail(c, false) in own <==> raised)
                && (Fail(c, true) in own || CommitUnknown(c) in own <==> broke)
                && (Ack(c) in own <==> (!raised && !broke) || (broke && !off && env.retry.Confirmed?))
                && (Reject(c) in own <==> raised || (broke && off))
                && (ending.Ended? ==> At(View(), c, if raised || (broke && off) then Dead else Acked))
      ensures ending.Raised? ==> At(View(), c, Held(Stuck)) || At(View(), c, Gone)
    {
      ghost var m := View();
      ghost var k := copies[c];
      if copies[c].body.Garbage? {
        won, at := false, -1;
        ending, acts := RefuseGarbage(c, env, m);
        return;
      }
      ending, won, at, acts := ProcessEvent(c, env, m);
      if !ending.Waits? {
        WhatTheStepsAre(k, c, won, env);
      }
    }
  }
}
