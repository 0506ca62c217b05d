/**
  The task service as one request runs it (src/tasks/service.py). Each method
  is an honest run of the task machine with one transaction, so what holds
  there holds here.
*/
module TaskService {
  import opened Common
  import opened Tasks
  import Topology

  datatype TaskError = ProjectNotFound | TaskNotFound | AssigneeNotMember | VersionConflict

  ghost predicate Reaches(s: State, t: State) {
    exists acts :: Runs(s, acts) && HonestRun(s, acts) && After(s, acts) == t
  }

  ghost predicate Good(s: State) {
    Inv(s) && ChainInv(s)
  }

  lemma ReachesBy(s: State, acts: seq<Action>, t: State)
    requires Good(s) && Runs(s, acts) && HonestRun(s, acts) && After(s, acts) == t
    ensures Reaches(s, t) && Good(t)
  {
    RunKeepsInv(s, acts);
    RunKeepsChain(s, acts);
  }

  /** The new task under the next id, its first history row and its event. */
  function WithTask(s: State, task: Task): State {
    s.(tasks := s.tasks[s.nextId := task], history := s.history[s.nextId := [Change(None, task.status)]],
       outbox := s.outbox + [Created(s.nextId, SnapshotOf(task))], nextId := s.nextId + 1)
  }

  lemma CreateReaches(s: State, task: Task)
    requires Good(s) && Enabled(s, Create(task))
    ensures s.nextId !in s.tasks && s.nextId !in s.history
    ensures Reaches(s, WithTask(s, task)) && Good(WithTask(s, task))
  {
    assert Agrees(s, s.nextId);
    assert Apply(s, Create(task)) == WithTask(s, task);
    OneStep(s, Create(task));
    ReachesBy(s, [Create(task)], Apply(s, Create(task)));
  }

  lemma UpdateReaches(s: State, id: nat, u: Update)
    requires Good(s) && s.txs == [Free] && id in s.tasks && s.tasks[id].version == u.version && Edits(u)
    ensures id in s.history && Reaches(s, WithUpdate(s, id, u)) && Good(WithUpdate(s, id, u))
  {
    assert Agrees(s, id);
    var acts := UpdateRun(s, 0, id, u);
    ReachesBy(s, acts, WithUpdate(s, id, u));
  }

  function WithoutTask(s: State, id: nat): State
    requires id in s.tasks
  {
    s.(tasks := s.tasks - {id}, history := s.history - {id},
       outbox := s.outbox + [Deleted(id, s.tasks[id].project)])
  }

  lemma DeleteReaches(s: State, id: nat)
    requires Good(s) && s.txs == [Free] && id in s.tasks
    ensures Reaches(s, WithoutTask(s, id)) && Good(WithoutTask(s, id))
  {
    TwoSteps(s, BeginDelete(0, id), WriteDelete(0));
    var r := After(s, [BeginDelete(0, id), WriteDelete(0)]);
    OneStep(r, Commit(0));
    RunThenRun(s, [BeginDelete(0, id), WriteDelete(0)], [Commit(0)]);
    ReachesBy(s, [BeginDelete(0, id), WriteDelete(0)] + [Commit(0)], WithoutTask(s, id));
  }

  class Service {
    const projects: map<nat, nat>        // project to organization
    const members: set<(nat, nat)>       // organization and user
    var tasks: map<nat, Task>
    var history: map<nat, seq<Change>>
    var outbox: seq<Event>
    var nextId: nat

    function View(): State
      reads this
    {
      State(tasks, history, outbox, nextId, [Free])
    }

    ghost predicate Valid()
      reads this
    {
      Good(View())
    }

    predicate Accessible(project: nat, user: nat) {
      project in projects && (projects[project], user) in members
    }

    predicate MayAssign(project: nat, assignee: Option<nat>) {
      assignee.Some? ==> project in projects && (projects[project], assignee.value) in members
    }

    method CreateTask(project: nat, user: nat, title: string, description: Option<string>, assignee: Option<nat>,
                      priority: Priority, due: Option<int>, now: int)
      returns (r: Result<nat, TaskError>)
      requires Valid()
      modifies this
      ensures Valid() && Reaches(old(View()), View())
      ensures r == if !(project in projects && (projects[project], user) in members) then Err(ProjectNotFound)
                   else if assignee.Some? && (projects[project], assignee.value) !in members then Err(AssigneeNotMember)
                   else Ok(old(nextId))
      ensures r.Err? ==> View() == old(View())
      ensures r.Ok? ==>
                && r.value !in old(tasks) && r.value !in old(history)
                && View() == WithTask(old(View()),
                     Task(project, user, assignee, title, description, Todo, priority, due, 0, now, 1))
                && tasks == old(tasks)[r.value := Task(project, user, assignee, title, description, Todo,
                                                       priority, due, 0, now, 1)]
                && history == old(history)[r.value := [Change(None, Todo)]]
                && outbox == old(outbox) + [Created(r.value, Snapshot(project, title, description, Todo, priority,
                                                                      due, assignee, user))]
    {
      ghost var s := View();
      ReachesBy(s, [], s);
      if !Accessible(project, user) {
        return Err(ProjectNotFound);
      }
      if !MayAssign(project, assignee) {
        return Err(AssigneeNotMember);
      }
      var task := Task(project, user, assignee, title, description, Todo, priority, due, 0, now, 1);
      CreateReaches(s, task);
      tasks := tasks[nextId := task];
      history := history[nextId := [Change(None, Todo)]];
      outbox := outbox + [Created(nextId, SnapshotOf(task))];
      nextId := nextId + 1;
      assert View() == WithTask(s, task);
      return Ok(nextId - 1);
    }

    /** update_task_optimistic: a compare-and-set on the version. */
    method UpdateOptimistic(id: nat, u: Update) returns (updated: bool)
      modifies this`tasks
      ensures updated <==> id in old(tasks) && old(tasks)[id].version == u.version
      ensures tasks == if updated then old(tasks)[id := Edited(old(tasks)[id], u)] else old(tasks)
      ensures updated ==>
                var was, row := old(tasks)[id], tasks[id];
                && row.title == (if u.title.Some? then u.title.value else was.title)
                && row.description == (if u.description.Some? then u.description else was.description)
                && row.assignee == (if u.assignee.Some? then u.assignee else was.assignee)
                && row.status == (if u.status.Some? then u.status.value else was.status)
                && row.priority == (if u.priority.Some? then u.priority.value else was.priority)
                && row.due == (if u.due.Some? then u.due else was.due)
                && row.project == was.project && row.createdBy == was.createdBy && row.position == was.position
                && row.createdAt == was.createdAt && row.version == was.version + 1
    {
      if id !in tasks || tasks[id].version != u.version {
        return false;
      }
      tasks := tasks[id := Edited(tasks[id], u)];
      return true;
    }

    /** The history row and the events of an update that read `was`. */
    method RecordUpdate(id: nat, u: Update, was: Task)
      requires id in tasks && id in history
      modifies this`history, this`outbox
      ensures history == old(history)[id := old(history)[id] + Changes(u, was)]
      ensures outbox == old(outbox) + UpdateEvents(id, u, was, tasks[id])
    {
      var row := tasks[id];
      if u.status.Some? && u.status.value != was.status {
        history := history[id := history[id] + [Change(Some(was.status), u.status.value)]];
        outbox := outbox + [StatusChanged(id, row.project, was.status, u.status.value)];
      } else {
        assert history[id] + [] == history[id] && history[id := history[id]] == history;
      }
      outbox := outbox + [Updated(id, SnapshotOf(row))];
      assert outbox == old(outbox) + UpdateEvents(id, u, was, row);
    }

    /** A conflict, a missing task or an outside assignee leaves no trace. */
    method UpdateTask(id: nat, u: Update, user: nat) returns (r: Result<Task, TaskError>)
      requires Valid()
      requires u.title.Some? || u.description.Some? || u.assignee.Some? || u.status.Some? || u.priority.Some? || u.due.Some?
      modifies this
      ensures Valid() && Reaches(old(View()), View())
      ensures r.Err? ==> View() == old(View())
      ensures
        if id !in old(tasks)
           || !(old(tasks)[id].project in projects && (projects[old(tasks)[id].project], user) in members)
        then r == Err(TaskNotFound)
        else if u.assignee.Some? && (projects[old(tasks)[id].project], u.assignee.value) !in members
        then r == Err(AssigneeNotMember)
        else if old(tasks)[id].version != u.version then r == Err(VersionConflict)
        else r.Ok?
      ensures r.Ok? ==>
                && id in old(tasks) && id in old(history) && View() == WithUpdate(old(View()), id, u)
                && tasks.Keys == old(tasks).Keys && history.Keys == old(history).Keys
                && (forall i <- old(tasks) :: i != id ==> tasks[i] == old(tasks)[i])
                && (forall i <- old(history) :: i != id ==> history[i] == old(history)[i])
      ensures r.Ok? ==>
                var was, row := old(tasks)[id], r.value;
                && tasks[id] == row
                && row.title == (if u.title.Some? then u.title.value else was.title)
                && row.description == (if u.description.Some? then u.description else was.description)
                && row.assignee == (if u.assignee.Some? then u.assignee else was.assignee)
                && row.status == (if u.status.Some? then u.status.value else was.status)
                && row.priority == (if u.priority.Some? then u.priority.value else was.priority)
                && row.due == (if u.due.Some? then u.due else was.due)
                && row.project == was.project && row.createdBy == was.createdBy && row.position == was.position
                && row.createdAt == was.createdAt && row.version == was.version + 1
      ensures r.Ok? ==>
                var was, row := old(tasks)[id], r.value;
                var updated := Updated(id, Snapshot(row.project, row.title, row.description, row.status, row.priority,
                                                    row.due, row.assignee, row.createdBy));
                if u.status.Some? && u.status.value != was.status then
                  && history[id] == old(history)[id] + [Change(Some(was.status), u.status.value)]
                  && outbox == old(outbox) + [StatusChanged(id, was.project, was.status, u.status.value), updated]
                else history[id] == old(history)[id] && outbox == old(outbox) + [updated]
    {
      ghost var s := View();
      ReachesBy(s, [], s);
      if id !in tasks || !Accessible(tasks[id].project, user) {
        return Err(TaskNotFound);
      }
      var task := tasks[id];
      if !MayAssign(task.project, u.assignee) {
        return Err(AssigneeNotMember);
      }
      var updated := UpdateOptimistic(id, u);
      if !updated {
        return Err(VersionConflict);
      }
      UpdateReaches(s, id, u);
      UpdateWrites(s, id, u);
      RecordUpdate(id, u, task);
      assert View() == WithUpdate(s, id, u);
      return Ok(tasks[id]);
    }

    method DeleteTask(project: nat, id: nat, user: nat) returns (r: Result<bool, TaskError>)
      requires Valid()
      modifies this
      ensures Valid() && Reaches(old(View()), View())
      ensures r.Err? ==> View() == old(View())
      ensures if !(project in projects && (projects[project], user) in members) then r == Err(ProjectNotFound)
              else if id !in old(tasks) || old(tasks)[id].project != project then r == Err(TaskNotFound)
              else r == Ok(true)
      ensures r.Ok? ==>
                && id in old(tasks) && View() == WithoutTask(old(View()), id)
                && tasks == old(tasks) - {id} && history == old(history) - {id}
                && outbox == old(outbox) + [Deleted(id, project)]
    {
      ghost var s := View();
      ReachesBy(s, [], s);
      if !Accessible(project, user) {
        return Err(ProjectNotFound);
      }
      if id !in tasks || !Accessible(tasks[id].project, user) || tasks[id].project != project {
        return Err(TaskNotFound);
      }
      DeleteReaches(s, id);
      tasks, history, outbox := tasks - {id}, history - {id}, outbox + [Deleted(id, tasks[id].project)];
      return Ok(true);
    }
  }

  /** The event type, which the publisher uses as routing key. */
  function EventKey(e: Event): Topology.Key {
    match e
    case Created(_, _) => ["task", "created"]
    case Updated(_, _) => ["task", "updated"]
    case StatusChanged(_, _, _, _) => ["task", "status_changed"]
    case Deleted(_, _) => ["task", "deleted"]
  }

  /** Every event the service writes is routed to the webhook queue, once. */
  lemma EveryEventReachesTheWebhooks(e: Event)
    ensures EventKey(e) == ["task", match e
                                    case Created(_, _) => "created"
                                    case Updated(_, _) => "updated"
                                    case StatusChanged(_, _, _, _) => "status_changed"
                                    case Deleted(_, _) => "deleted"]
    ensures Topology.Routes(Topology.WEBHOOK_LAYOUT, Topology.EventsExchange, EventKey(e)) == {Topology.WebhookQueue}
  {
    Topology.EventsExchangeRoutes(EventKey(e));
    assert |EventKey(e)| == 2 && EventKey(e)[0] == "task";
  }
}
