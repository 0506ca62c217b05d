/**
  Task rows, their status history and the outbox events written with them,
  under concurrent requests (src/tasks/service.py, src/tasks/repository.py).
  An update reads the row first and writes it later, on condition that the
  version is still the one the client sent; other requests may come between.
*/
module Tasks {
  import opened Common

  datatype Status = Todo | InProgress | Review | Done | Canceled

  datatype Priority = Low | Medium | High | Critical

  datatype Task = Task(
    project: nat, createdBy: nat, assignee: Option<nat>, title: string, description: Option<string>,
    status: Status, priority: Priority, due: Option<int>, position: int, createdAt: int, version: int)

  /** TaskUpdate: an absent field stays as it is. */
  datatype Update = Update(
    title: Option<string>, description: Option<string>, assignee: Option<nat>,
    status: Option<Status>, priority: Option<Priority>, due: Option<int>, version: int)

  /** What TaskUpdate's validator demands. */
  predicate Edits(u: Update) {
    u.title.Some? || u.description.Some? || u.assignee.Some? || u.status.Some? || u.priority.Some? || u.due.Some?
  }

  function Or<T>(o: Option<T>, otherwise: T): T {
    if o.Some? then o.value else otherwise
  }

  function Edited(t: Task, u: Update): Task {
    t.(title := Or(u.title, t.title),
       description := if u.description.Some? then u.description else t.description,
       assignee := if u.assignee.Some? then u.assignee else t.assignee,
       status := Or(u.status, t.status),
       priority := Or(u.priority, t.priority),
       due := if u.due.Some? then u.due else t.due,
       version := t.version + 1)
  }

  datatype Change = Change(before: Option<Status>, after: Status)

  /** The payload of task.created and task.updated. */
  datatype Snapshot = Snapshot(
    project: nat, title: string, description: Option<string>, status: Status, priority: Priority,
    due: Option<int>, assignee: Option<nat>, createdBy: nat)

  function SnapshotOf(t: Task): Snapshot {
    Snapshot(t.project, t.title, t.description, t.status, t.priority, t.due, t.assignee, t.createdBy)
  }

  datatype Event =
    | Created(task: nat, snapshot: Snapshot)
    | Updated(task: nat, snapshot: Snapshot)
    | StatusChanged(task: nat, project: nat, before: Status, after: Status)
    | Deleted(task: nat, project: nat)

  datatype Tx =
    | Free
    | Read(id: nat, u: Update, seen: Task)
    | Written(id: nat, u: Update, seen: Task, row: Task)   // row updated and locked, not committed
    | Deleting(id: nat, project: nat)
    | DeleteWritten(id: nat, project: nat)

  /** Events are in commit order; a deleted task takes its history with it. */
  datatype State = State(
    tasks: map<nat, Task>, history: map<nat, seq<Change>>, outbox: seq<Event>, nextId: nat, txs: seq<Tx>)

  datatype Action =
    | Create(task: Task)
    | BeginUpdate(t: nat, id: nat, u: Update)
    | Write(t: nat)
    | BeginDelete(t: nat, id: nat)
    | WriteDelete(t: nat)
    | Commit(t: nat)
    | Abort(t: nat)

  predicate Holds(tx: Tx, id: nat) {
    (tx.Written? && tx.id == id) || (tx.DeleteWritten? && tx.id == id)
  }

  predicate LockFree(s: State, t: nat, id: nat) {
    forall v :: 0 <= v < |s.txs| && v != t ==> !Holds(s.txs[v], id)
  }

  predicate Enabled(s: State, a: Action) {
    match a
    case Create(task) => task.status == Todo && task.version == 1 && task.position == 0
    case BeginUpdate(t, id, u) => t < |s.txs| && s.txs[t].Free? && id in s.tasks && Edits(u)
    case Write(t) =>
      && t < |s.txs| && s.txs[t].Read? && LockFree(s, t, s.txs[t].id)
      && s.txs[t].id in s.tasks && s.tasks[s.txs[t].id].version == s.txs[t].u.version
    case BeginDelete(t, id) => t < |s.txs| && s.txs[t].Free? && id in s.tasks
    case WriteDelete(t) => t < |s.txs| && s.txs[t].Deleting? && LockFree(s, t, s.txs[t].id)
    case Commit(t) =>
      t < |s.txs| && ((s.txs[t].Written? && s.txs[t].id in s.history) || s.txs[t].DeleteWritten?)
    case Abort(t) => t < |s.txs|
  }

  /** The history row and the events of an update that read `seen` and wrote `row`. */
  function Changes(u: Update, seen: Task): seq<Change> {
    if u.status.Some? && u.status.value != seen.status then [Change(Some(seen.status), u.status.value)] else []
  }

  function UpdateEvents(id: nat, u: Update, seen: Task, row: Task): seq<Event> {
    (if u.status.Some? && u.status.value != seen.status
     then [StatusChanged(id, row.project, seen.status, u.status.value)] else [])
    + [Updated(id, SnapshotOf(row))]
  }

  function SetTx(s: State, t: nat, tx: Tx): State
    requires t < |s.txs|
  {
    s.(txs := s.txs[t := tx])
  }

  function Apply(s: State, a: Action): State
    requires Enabled(s, a)
  {
    match a
    case Create(task) =>
      s.(tasks := s.tasks[s.nextId := task],
         history := s.history[s.nextId := [Change(None, task.status)]],
         outbox := s.outbox + [Created(s.nextId, SnapshotOf(task))],
         nextId := s.nextId + 1)
    case BeginUpdate(t, id, u) => SetTx(s, t, Read(id, u, s.tasks[id]))
    case Write(t) =>
      var k := s.txs[t];
      SetTx(s, t, Written(k.id, k.u, k.seen, Edited(s.tasks[k.id], k.u)))
    case BeginDelete(t, id) => SetTx(s, t, Deleting(id, s.tasks[id].project))
    case WriteDelete(t) => SetTx(s, t, DeleteWritten(s.txs[t].id, s.txs[t].project))
    case Commit(t) =>
      var k := s.txs[t];
      if k.Written? then
        SetTx(s.(tasks := s.tasks[k.id := k.row],
                 history := s.history[k.id := s.history[k.id] + Changes(k.u, k.seen)],
                 outbox := s.outbox + UpdateEvents(k.id, k.u, k.seen, k.row)), t, Free)
      else
        SetTx(s.(tasks := s.tasks - {k.id}, history := s.history - {k.id},
                 outbox := s.outbox + [Deleted(k.id, k.project)]), t, Free)
    case Abort(t) => SetTx(s, t, Free)
  }

  predicate Runs(s: State, acts: seq<Action>)
    decreases acts
  {
    acts == [] || (Enabled(s, acts[0]) && Runs(Apply(s, acts[0]), acts[1..]))
  }

  function After(s: State, acts: seq<Action>): State
    requires Runs(s, acts)
    decreases acts
  {
    if acts == [] then s else After(Apply(s, acts[0]), acts[1..])
  }

  // ---- the outbox agrees with the table -----------------------------------

  /** The payload of the task's latest created or updated event. */
  function LastSnapshot(outbox: seq<Event>, id: nat): Option<Snapshot> {
    if outbox == [] then None
    else
      var e := outbox[|outbox| - 1];
      if e.task == id && (e.Created? || e.Updated?) then Some(e.snapshot)
      else LastSnapshot(outbox[..|outbox| - 1], id)
  }

  function CountUpdated(outbox: seq<Event>, id: nat): nat {
    if outbox == [] then 0
    else
      var e := outbox[|outbox| - 1];
      CountUpdated(outbox[..|outbox| - 1], id) + if e.task == id && e.Updated? then 1 else 0
  }

  function CountStatusChanged(outbox: seq<Event>, id: nat): nat {
    if outbox == [] then 0
    else
      var e := outbox[|outbox| - 1];
      CountStatusChanged(outbox[..|outbox| - 1], id) + if e.task == id && e.StatusChanged? then 1 else 0
  }

  lemma AppendEvent(outbox: seq<Event>, e: Event, id: nat)
    ensures var o := outbox + [e];
            && LastSnapshot(o, id) == (if e.task == id && (e.Created? || e.Updated?) then Some(e.snapshot)
                                       else LastSnapshot(outbox, id))
            && CountUpdated(o, id) == CountUpdated(outbox, id) + (if e.task == id && e.Updated? then 1 else 0)
            && CountStatusChanged(o, id)
               == CountStatusChanged(outbox, id) + (if e.task == id && e.StatusChanged? then 1 else 0)
  {
  }

  lemma AppendUpdate(outbox: seq<Event>, k: Tx, id: nat)
    requires k.Written?
    ensures var o := outbox + UpdateEvents(k.id, k.u, k.seen, k.row);
            var changed := |Changes(k.u, k.seen)|;
            && LastSnapshot(o, id) == (if k.id == id then Some(SnapshotOf(k.row)) else LastSnapshot(outbox, id))
            && CountUpdated(o, id) == CountUpdated(outbox, id) + (if k.id == id then 1 else 0)
            && CountStatusChanged(o, id) == CountStatusChanged(outbox, id) + (if k.id == id then changed else 0)
  {
    var events := UpdateEvents(k.id, k.u, k.seen, k.row);
    if |events| == 2 {
      AppendEvent(outbox, events[0], id);
      AppendEvent(outbox + [events[0]], events[1], id);
      assert outbox + events == outbox + [events[0]] + [events[1]];
    } else {
      AppendEvent(outbox, events[0], id);
    }
  }

  /** No event speaks of a task that has not been created. */
  ghost predicate Agrees(s: State, id: nat) {
    if id in s.tasks then
      && id < s.nextId && id in s.history
      && LastSnapshot(s.outbox, id) == Some(SnapshotOf(s.tasks[id]))
      && CountUpdated(s.outbox, id) == s.tasks[id].version - 1
      && CountStatusChanged(s.outbox, id) == |s.history[id]| - 1
    else
      id !in s.history &&
      (id >= s.nextId ==> CountUpdated(s.outbox, id) == 0 && CountStatusChanged(s.outbox, id) == 0)
  }

  ghost predicate TxInv(s: State, k: Tx) {
    && (!k.Free? ==> k.id < s.nextId)
    && (k.Written? ==>
          && k.id in s.tasks
          && s.tasks[k.id].version == k.u.version && k.row == Edited(s.tasks[k.id], k.u))
  }

  ghost predicate Inv(s: State) {
    && (forall id: nat :: Agrees(s, id))
    && (forall t :: 0 <= t < |s.txs| ==> TxInv(s, s.txs[t]))
    && (forall t, v, id | 0 <= t < |s.txs| && 0 <= v < |s.txs| && Holds(s.txs[t], id) && Holds(s.txs[v], id) :: t == v)
  }

  lemma StepKeepsAgreement(s: State, a: Action, id: nat)
    requires Inv(s) && Enabled(s, a)
    ensures Agrees(Apply(s, a), id)
  {
    assert Agrees(s, id);
    match a {
      case Create(task) =>
        assert Agrees(s, s.nextId);
        AppendEvent(s.outbox, Created(s.nextId, SnapshotOf(task)), id);
      case Commit(t) =>
        assert TxInv(s, s.txs[t]);
        if s.txs[t].Written? {
          AppendUpdate(s.outbox, s.txs[t], id);
        } else {
          AppendEvent(s.outbox, Deleted(s.txs[t].id, s.txs[t].project), id);
        }
      case _ =>
    }
  }

  lemma StepKeepsTx(s: State, a: Action, t: nat)
    requires Inv(s) && Enabled(s, a) && t < |s.txs|
    ensures TxInv(Apply(s, a), Apply(s, a).txs[t])
  {
    assert TxInv(s, s.txs[t]);
    match a {
      case BeginUpdate(_, id, _) => assert Agrees(s, id);
      case BeginDelete(_, id) => assert Agrees(s, id);
      case Create(_) => assert Agrees(s, s.nextId);
      case Commit(v) =>
        if s.txs[t].Written? && t != v {
          assert Holds(s.txs[t], s.txs[t].id);
          assert !Holds(s.txs[v], s.txs[t].id);
        }
      case _ =>
    }
  }

  lemma StepKeepsLocks(s: State, a: Action, t: nat, v: nat, id: nat)
    requires Inv(s) && Enabled(s, a)
    requires t < |Apply(s, a).txs| && v < |Apply(s, a).txs|
    requires Holds(Apply(s, a).txs[t], id) && Holds(Apply(s, a).txs[v], id)
    ensures t == v
  {
  }

  lemma StepKeepsInv(s: State, a: Action)
    requires Inv(s) && Enabled(s, a)
    ensures Inv(Apply(s, a))
  {
    var n := Apply(s, a);
    forall id: nat ensures Agrees(n, id) {
      StepKeepsAgreement(s, a, id);
    }
    forall t | 0 <= t < |n.txs| ensures TxInv(n, n.txs[t]) {
      StepKeepsTx(s, a, t);
    }
    forall t, v, id | 0 <= t < |n.txs| && 0 <= v < |n.txs| && Holds(n.txs[t], id) && Holds(n.txs[v], id)
      ensures t == v
    {
      StepKeepsLocks(s, a, t, v, id);
    }
  }

  lemma {:induction false} RunKeepsInv(s: State, acts: seq<Action>)
    requires Inv(s) && Runs(s, acts)
    ensures Inv(After(s, acts))
    decreases acts
  {
    if acts != [] {
      StepKeepsInv(s, acts[0]);
      RunKeepsInv(Apply(s, acts[0]), acts[1..]);
    }
  }

  ghost predicate Initial(s: State) {
    s.tasks == map[] && s.history == map[] && s.outbox == [] && forall k <- s.txs :: k.Free?
  }

  lemma InitialIsGood(s: State)
    requires Initial(s)
    ensures Inv(s)
  {
    forall t | 0 <= t < |s.txs| ensures s.txs[t].Free? {
      assert s.txs[t] in s.txs;
    }
  }

  /** In every reachable state of any interleaving, and for every live task, the
      last created or updated event carries the task as it is now, there is one
      updated event per version after the first, and one status event per
      history row after the first. */
  lemma OutboxAgreesWithTable(s: State, acts: seq<Action>, id: nat)
    requires Initial(s) && Runs(s, acts) && id in After(s, acts).tasks
    ensures var n := After(s, acts);
            && id in n.history
            && LastSnapshot(n.outbox, id).Some?
            && (var p, row := LastSnapshot(n.outbox, id).value, n.tasks[id];
                && p.project == row.project && p.title == row.title && p.description == row.description
                && p.status == row.status && p.priority == row.priority && p.due == row.due
                && p.assignee == row.assignee && p.createdBy == row.createdBy)
            && CountUpdated(n.outbox, id) == n.tasks[id].version - 1
            && CountStatusChanged(n.outbox, id) == |n.history[id]| - 1
  {
    InitialIsGood(s);
    RunKeepsInv(s, acts);
    assert Agrees(After(s, acts), id);
  }

  // ---- the history is a chain ----------------------------------------------

  ghost predicate Chain(h: seq<Change>, status: Status) {
    && h != [] && h[0] == Change(None, Todo) && h[|h| - 1].after == status
    && forall i :: 1 <= i < |h| ==> h[i].before == Some(h[i - 1].after) && h[i].after != h[i - 1].after
  }

  /** A client that sets the status sends a version it can have seen committed. */
  predicate Honest(s: State, a: Action) {
    a.BeginUpdate? && a.id in s.tasks && a.u.status.Some? ==> a.u.version <= s.tasks[a.id].version
  }

  predicate HonestRun(s: State, acts: seq<Action>)
    requires Runs(s, acts)
    decreases acts
  {
    acts == [] || (Honest(s, acts[0]) && HonestRun(Apply(s, acts[0]), acts[1..]))
  }

  /** What a read is worth: the row is still the one seen, or has moved on. */
  ghost predicate Fresh(s: State, k: Tx) {
    && (k.Read? && k.u.status.Some? ==> k.u.version <= k.seen.version)
    && (k.Read? && k.id in s.tasks ==>
          k.seen.version <= s.tasks[k.id].version &&
          (k.seen.version == s.tasks[k.id].version ==> k.seen == s.tasks[k.id]))
    && (k.Written? && k.u.status.Some? && k.id in s.tasks ==> k.seen == s.tasks[k.id])
  }

  ghost predicate ChainInv(s: State) {
    && (forall t :: 0 <= t < |s.txs| ==> Fresh(s, s.txs[t]))
    && (forall id :: id in s.tasks && id in s.history ==> Chain(s.history[id], s.tasks[id].status))
  }

  lemma StepKeepsFresh(s: State, a: Action, t: nat)
    requires Inv(s) && ChainInv(s) && Enabled(s, a) && Honest(s, a) && t < |s.txs|
    ensures Fresh(Apply(s, a), Apply(s, a).txs[t])
  {
    assert Fresh(s, s.txs[t]) && TxInv(s, s.txs[t]);
    if a.Commit? {
      assert TxInv(s, s.txs[a.t]);
      if s.txs[t].Written? && t != a.t {
        assert Holds(s.txs[t], s.txs[t].id);
        assert !Holds(s.txs[a.t], s.txs[t].id);
      }
    }
  }

  lemma StepKeepsChain(s: State, a: Action)
    requires Inv(s) && ChainInv(s) && Enabled(s, a) && Honest(s, a)
    ensures ChainInv(Apply(s, a))
  {
    var n := Apply(s, a);
    forall t | 0 <= t < |n.txs| ensures Fresh(n, n.txs[t]) {
      StepKeepsFresh(s, a, t);
    }
    if a.Commit? {
      assert TxInv(s, s.txs[a.t]) && Fresh(s, s.txs[a.t]);
    }
    forall id | id in n.tasks && id in n.history ensures Chain(n.history[id], n.tasks[id].status) {
      if id in s.tasks {
        assert Agrees(s, id);
        assert Chain(s.history[id], s.tasks[id].status);
      }
    }
  }

  lemma {:induction false} RunKeepsChain(s: State, acts: seq<Action>)
    requires Inv(s) && ChainInv(s) && Runs(s, acts) && HonestRun(s, acts)
    ensures ChainInv(After(s, acts))
    decreases acts
  {
    if acts != [] {
      StepKeepsChain(s, acts[0]);
      StepKeepsInv(s, acts[0]);
      RunKeepsChain(Apply(s, acts[0]), acts[1..]);
    }
  }

  /** If clients that set a status submit only versions they can have observed,
      then in every interleaving the history of a task runs from nothing to TODO to its
      present status without a gap and without an idle step. */
  lemma HistoryIsAChain(s: State, acts: seq<Action>, id: nat)
    requires Initial(s) && Runs(s, acts) && HonestRun(s, acts) && id in After(s, acts).tasks
    ensures id in After(s, acts).history
    ensures Chain(After(s, acts).history[id], After(s, acts).tasks[id].status)
  {
    InitialIsGood(s);
    forall t | 0 <= t < |s.txs| ensures s.txs[t].Free? {
      assert s.txs[t] in s.txs;
    }
    RunKeepsInv(s, acts);
    RunKeepsChain(s, acts);
    assert Agrees(After(s, acts), id);
  }

  // ---- building runs, and what a guessed version does ------------------------

  lemma {:induction false} RunThenRun(s: State, xs: seq<Action>, ys: seq<Action>)
    requires Runs(s, xs) && Runs(After(s, xs), ys)
    ensures Runs(s, xs + ys) && After(s, xs + ys) == After(After(s, xs), ys)
    ensures HonestRun(s, xs) && HonestRun(After(s, xs), ys) ==> HonestRun(s, xs + ys)
    decreases xs
  {
    if xs == [] {
      assert xs + ys == ys;
    } else {
      assert (xs + ys)[1..] == xs[1..] + ys;
      RunThenRun(Apply(s, xs[0]), xs[1..], ys);
    }
  }

  lemma OneStep(s: State, a: Action)
    requires Enabled(s, a)
    ensures Runs(s, [a]) && After(s, [a]) == Apply(s, a)
    ensures Honest(s, a) ==> HonestRun(s, [a])
  {
  }

  lemma TwoSteps(s: State, a: Action, b: Action)
    requires Enabled(s, a) && Enabled(Apply(s, a), b)
    ensures Runs(s, [a, b]) && After(s, [a, b]) == Apply(Apply(s, a), b)
    ensures Honest(s, a) && Honest(Apply(s, a), b) ==> HonestRun(s, [a, b])
  {
    assert [a, b][1..] == [b];
    OneStep(Apply(s, a), b);
  }

  /** The committed effect of an update that nobody disturbs. */
  function WithUpdate(s: State, id: nat, u: Update): State
    requires id in s.tasks && id in s.history
  {
    var seen := s.tasks[id];
    var row := Edited(seen, u);
    s.(tasks := s.tasks[id := row],
       history := s.history[id := s.history[id] + Changes(u, seen)],
       outbox := s.outbox + UpdateEvents(id, u, seen, row))
  }

  /** An update writes the fields it names and no others, raises the version by
      one, records the change of status if there is one, and appends the event of
      that change, old status first, and the event of the update, with the new
      row field by field. */
  lemma UpdateWrites(s: State, id: nat, u: Update)
    requires id in s.tasks && id in s.history
    ensures var n := WithUpdate(s, id, u);
            && n.tasks.Keys == s.tasks.Keys && n.history.Keys == s.history.Keys
            && (forall i <- s.tasks :: i != id ==> n.tasks[i] == s.tasks[i])
            && (forall i <- s.history :: i != id ==> n.history[i] == s.history[i])
    ensures var was, row := s.tasks[id], WithUpdate(s, id, u).tasks[id];
            && row.title == (if u.title.Some? then u.title.value else was.title)
            && row.description == (if u.description.Some? then u.description else was.description)
            && row.assignee == (if u.assignee.Some? then u.assignee else was.assignee)
            && row.status == (if u.status.Some? then u.status.value else was.status)
            && row.priority == (if u.priority.Some? then u.priority.value else was.priority)
            && row.due == (if u.due.Some? then u.due else was.due)
            && row.project == was.project && row.createdBy == was.createdBy && row.position == was.position
            && row.createdAt == was.createdAt && row.version == was.version + 1
    ensures var was, row, n := s.tasks[id], WithUpdate(s, id, u).tasks[id], WithUpdate(s, id, u);
            var updated := Updated(id, Snapshot(row.project, row.title, row.description, row.status, row.priority,
                                                row.due, row.assignee, row.createdBy));
            if u.status.Some? && u.status.value != was.status then
              && n.history[id] == s.history[id] + [Change(Some(was.status), u.status.value)]
              && n.outbox == s.outbox + [StatusChanged(id, was.project, was.status, u.status.value), updated]
            else n.history[id] == s.history[id] && n.outbox == s.outbox + [updated]
  {
  }

  /** The machine's commit of an update is such a write, on the row of now. */
  lemma CommitWritesUpdate(s: State, t: nat)
    requires Inv(s) && Enabled(s, Commit(t)) && s.txs[t].Written?
    ensures s.txs[t].id in s.tasks && s.txs[t].id in s.history
    ensures Apply(s, Commit(t)).tasks == WithUpdate(s, s.txs[t].id, s.txs[t].u).tasks
    ensures Apply(s, Commit(t)).outbox
            == s.outbox + UpdateEvents(s.txs[t].id, s.txs[t].u, s.txs[t].seen, Apply(s, Commit(t)).tasks[s.txs[t].id])
  {
    assert TxInv(s, s.txs[t]);
  }

  lemma UpdateRun(s: State, t: nat, id: nat, u: Update) returns (acts: seq<Action>)
    requires t < |s.txs| && s.txs[t].Free? && LockFree(s, t, id) && Edits(u)
    requires id in s.tasks && id in s.history && s.tasks[id].version == u.version
    ensures Runs(s, acts) && After(s, acts) == WithUpdate(s, id, u) && HonestRun(s, acts)
  {
    TwoSteps(s, BeginUpdate(t, id, u), Write(t));
    var r := After(s, [BeginUpdate(t, id, u), Write(t)]);
    OneStep(r, Commit(t));
    RunThenRun(s, [BeginUpdate(t, id, u), Write(t)], [Commit(t)]);
    acts := [BeginUpdate(t, id, u), Write(t)] + [Commit(t)];
    assert s.txs[t := Free] == s.txs;
  }

  function SetStatus(status: Status, version: int): Update {
    Update(None, None, None, Some(status), None, None, version)
  }

  /** Honest updates can bring a task to any later version, in any status. */
  lemma {:induction false} Advance(s: State, t: nat, id: nat, status: Status, goal: int) returns (acts: seq<Action>)
    requires t < |s.txs| && s.txs[t].Free? && LockFree(s, t, id) && id in s.tasks && id in s.history
    requires s.history[id] != [] && s.history[id][|s.history[id]| - 1].after == s.tasks[id].status
    requires s.tasks[id].version < goal
    ensures Runs(s, acts) && HonestRun(s, acts)
    ensures var n := After(s, acts);
            && n.txs == s.txs && id in n.tasks && id in n.history && n.tasks[id].version == goal
            && n.history[id] != [] && n.history[id][|n.history[id]| - 1].after == n.tasks[id].status == status
    decreases goal - s.tasks[id].version
  {
    var u := SetStatus(status, s.tasks[id].version);
    acts := UpdateRun(s, t, id, u);
    var n := After(s, acts);
    if n.tasks[id].version < goal {
      var rest := Advance(n, t, id, status, goal);
      RunThenRun(s, acts, rest);
      acts := acts + rest;
    }
  }

  /** All transactions but `t` give up: one of the things that may happen. */
  lemma {:induction false} OthersAbort(s: State, t: nat, n: nat) returns (acts: seq<Action>)
    requires t < |s.txs| && n <= |s.txs|
    ensures Runs(s, acts) && HonestRun(s, acts)
    ensures After(s, acts) == s.(txs := seq(|s.txs|, v requires 0 <= v < |s.txs| => if v < n && v != t then Free else s.txs[v]))
    decreases n
  {
    if n == 0 {
      acts := [];
      assert s.txs == seq(|s.txs|, v requires 0 <= v < |s.txs| => if v < 0 && v != t then Free else s.txs[v]);
    } else {
      acts := OthersAbort(s, t, n - 1);
      if n - 1 != t {
        var r := After(s, acts);
        OneStep(r, Abort(n - 1));
        RunThenRun(s, acts, [Abort(n - 1)]);
        acts := acts + [Abort(n - 1)];
      }
      assert After(s, acts).txs
             == seq(|s.txs|, v requires 0 <= v < |s.txs| => if v < n && v != t then Free else s.txs[v]);
    }
  }

  /** A run that starts with `begin`, is honest from then on, and leaves a
      history of the task that is no chain. */
  ghost predicate BreaksChain(s: State, begin: Action, acts: seq<Action>, id: nat) {
    && acts != [] && acts[0] == begin && Runs(s, acts) && HonestRun(Apply(s, begin), acts[1..])
    && var n := After(s, acts);
       id in n.tasks && id in n.history && !Chain(n.history[id], n.tasks[id].status)
  }

  /** A stale read meets its version by chance: `seen` is of an earlier version,
      the row has another status by now. */
  lemma StaleWriteBreaksTheChain(s: State, t: nat) returns (acts: seq<Action>)
    requires t < |s.txs| && s.txs[t].Read? && s.txs[t].u.status.Some?
    requires var k := s.txs[t];
             && LockFree(s, t, k.id) && k.id in s.tasks && k.id in s.history
             && s.tasks[k.id].version == k.u.version
             && s.history[k.id] != [] && s.history[k.id][|s.history[k.id]| - 1].after == s.tasks[k.id].status
             && s.tasks[k.id].status != k.seen.status
    ensures Runs(s, acts) && HonestRun(s, acts)
    ensures var id, n := s.txs[t].id, After(s, acts);
            id in n.tasks && id in n.history && !Chain(n.history[id], n.tasks[id].status)
  {
    var k := s.txs[t];
    TwoSteps(s, Write(t), Commit(t));
    acts := [Write(t), Commit(t)];
    var n := After(s, acts);
    var h := s.history[k.id];
    assert n.history[k.id] == h + Changes(k.u, k.seen);
    assert n.history[k.id][|h| - 1] == h[|h| - 1];
    if k.u.status.value != k.seen.status {
      assert n.history[k.id][|h|].before == Some(k.seen.status);
    }
  }

  /** A client that sets a status and sends a version later than the present
      one can hit it by chance after others have moved the task on. Then the
      history row names a status the task no longer had, or, if the client sets
      the status it saw, no row tells of the change back. */
  lemma GuessedVersionBreaksTheChain(s: State, t: nat, id: nat, u: Update)
    requires Inv(s) && ChainInv(s) && Enabled(s, BeginUpdate(t, id, u)) && |s.txs| >= 2
    requires u.status.Some? && u.version > s.tasks[id].version
    ensures exists acts :: BreaksChain(s, BeginUpdate(t, id, u), acts, id)
  {
    assert Agrees(s, id);
    var begin := BeginUpdate(t, id, u);
    var r := Apply(s, begin);
    var alone := OthersAbort(r, t, |r.txs|);
    var p := After(r, alone);
    var other := if s.tasks[id].status == Todo then Done else Todo;
    var v := if t == 0 then 1 else 0;
    var between := Advance(p, v, id, other, u.version);
    RunThenRun(r, alone, between);
    var q := After(p, between);
    var last := StaleWriteBreaksTheChain(q, t);
    RunThenRun(r, alone + between, last);
    var rest := alone + between + last;
    var acts := [begin] + rest;
    assert acts[1..] == rest;
    assert BreaksChain(s, begin, acts, id);
  }

  /** So an update keeps the history a chain in every continuation exactly when
      it sets no status or its version is not later than the one present at its
      start, whatever else is going on. */
  lemma HonestyDecides(s: State, t: nat, id: nat, u: Update)
    requires Inv(s) && ChainInv(s) && Enabled(s, BeginUpdate(t, id, u)) && |s.txs| >= 2
    ensures (forall acts :: !BreaksChain(s, BeginUpdate(t, id, u), acts, id))
            <==> u.status.None? || u.version <= s.tasks[id].version
  {
    if u.status.Some? && u.version > s.tasks[id].version {
      GuessedVersionBreaksTheChain(s, t, id, u);
    } else if acts :| BreaksChain(s, BeginUpdate(t, id, u), acts, id) {
      RunKeepsChain(s, acts);
      RunKeepsInv(s, acts);
      assert false;
    }
  }
}
