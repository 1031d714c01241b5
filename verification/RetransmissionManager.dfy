// retransmit.Manager and Task as objects (internal/pkg/retransmit/manager.go), with
// BackendMsgHandler.Handle and DownstreamAckHandler.Handle, one call at a time. The ghost
// model is a reachable state of the machine of Retransmission, and every statement on
// shared state takes one step of it: the code below is a run of that machine in which
// nobody else interferes.

module RetransmissionManager {
  import opened Common
  import opened Retransmission
  import opened RetransmissionRuns
  import opened RetransmissionTheorems
  import Keys

  class TaskObject {
    const key: string
    const connId: string
    const msgId: string
    ghost const index: nat            // its place among all tasks ever created
    var timerPtr: Option<nat>
    var retransmitCnt: int

    constructor (key: string, connId: string, msgId: string, ghost index: nat)
      ensures this.key == key && this.connId == connId && this.msgId == msgId && this.index == index
      ensures timerPtr == None && retransmitCnt == 0
    {
      this.key, this.connId, this.msgId, this.index := key, connId, msgId, index;
      timerPtr, retransmitCnt := None, 0;
    }
  }

  // What the machine records of a task object.
  ghost predicate Mirrors(o: TaskObject, t: Task)
    reads o
  {
    && o.key == t.key && o.connId == t.connId && o.msgId == t.msgId
    && o.timerPtr == t.timer && o.retransmitCnt == t.cnt
  }

  // Both maps have the same keys, and lead to the same tasks.
  ghost predicate Points(tasks: map<string, TaskObject>, indices: map<string, nat>, created: seq<TaskObject>)
  {
    && (forall k :: k in tasks <==> k in indices)
    && (forall k :: k in tasks ==>
          indices[k] < |created| && tasks[k] == created[indices[k]] && tasks[k].key == k)
  }

  lemma PointsDelete(tasks: map<string, TaskObject>, indices: map<string, nat>, created: seq<TaskObject>, key: string)
    requires Points(tasks, indices, created)
    ensures Points(tasks - {key}, indices - {key}, created)
  {
  }

  lemma PointsInsert(tasks: map<string, TaskObject>, indices: map<string, nat>, created: seq<TaskObject>,
                     task: TaskObject)
    requires Points(tasks, indices, created)
    ensures Points(tasks[task.key := task], indices[task.key := |created|], created + [task])
  {
  }

  // One agent and, perhaps, its task's entry move; the rest of the state stays.
  lemma DeletePerforms(s: State, i: nat, key: string, caller: Caller)
    requires i < |s.agents| && s.agents[i] == DeleteLoad(key, caller) && Refers(|s.recs|, |s.agents|, s.agents[i])
    requires key in s.tasks && s.tasks[key] < |s.recs|
    ensures var t := s.tasks[key]; var op := Delete(key, caller, DeletePtr(t, caller));
            && Operation(s, i, Go) == Some(op) && Applicable(s, op)
            && Perform(s, i, op) == s.(tasks := s.tasks - {key}, agents := s.agents[i := op.next],
                                       recs := s.recs[t := s.recs[t].(fate := Removed(caller))])
  {
  }

  lemma InsertPerforms(s: State, i: nat, call: Call, j: nat)
    requires i < |s.agents| && s.agents[i] == StartStore(call, j) && Refers(|s.recs|, |s.agents|, s.agents[i])
    requires Keys.TaskKey(call.conns[j], call.msgId) !in s.tasks
    ensures var key := Keys.TaskKey(call.conns[j], call.msgId);
            var task := Task(key, call.conns[j], call.msgId, Slot(i, j), 0, None, 0, 0, Registered);
            var op := Insert(task, StartArm(call, j, |s.recs|));
            && Operation(s, i, Go) == Some(op)
            && Perform(s, i, op) == s.(tasks := s.tasks[key := |s.recs|], recs := s.recs + [task],
                                       agents := s.agents[i := op.next])
  {
  }

  lemma AgentRefers(s: State, i: nat)
    requires Reachable(s) && i < |s.agents|
    ensures Refers(|s.recs|, |s.agents|, s.agents[i])
  {
    ReachableInv(s);
  }

  class Manager {
    const maxRetryCnt: int
    var tasks: map<string, TaskObject>
    var totalTaskCnt: int
    var closed: bool
    var started: nat                  // goroutines and timers the runtime has started
    ghost var created: seq<TaskObject>
    ghost var model: State

    ghost predicate Valid()
      reads this, created
    {
      && Reachable(model) && Agrees(model)
    }

    // The fields are the shared state of the machine.
    ghost predicate Agrees(s: State)
      reads this, created
    {
      && s.max == maxRetryCnt && s.closed == closed && s.total == totalTaskCnt
      && |s.agents| == started && |s.recs| == |created|
      && Points(tasks, s.tasks, created)
      && (forall n :: 0 <= n < |created| ==> created[n].index == n && Mirrors(created[n], s.recs[n]))
    }

    constructor (maxRetryCnt: int)
      requires maxRetryCnt <= MAX_INT32
      ensures Valid() && model == NewManager(maxRetryCnt) && created == []
      ensures this.maxRetryCnt == (if maxRetryCnt <= 0 then 3 else maxRetryCnt)
      ensures tasks == map[] && totalTaskCnt == 0 && !closed
    {
      this.maxRetryCnt := if maxRetryCnt <= 0 then DEFAULT_MAX_RETRY_CNT else maxRetryCnt;
      tasks, totalTaskCnt, closed, started := map[], 0, false, 0;
      created, model := [], NewManager(maxRetryCnt);
      new;
      assert IsHistory(maxRetryCnt, [model], []);
    }

    // The machine takes the step of agent i.
    ghost method Follow(i: nat, c: Choice)
      requires Reachable(model) && i < |model.agents|
      requires Refers(|model.recs|, |model.agents|, model.agents[i]) && Operation(model, i, c).Some?
      requires Applicable(model, Operation(model, i, c).value)
      modifies this`model
      ensures Leads(old(model), model)
      ensures Reachable(model) && model == Perform(old(model), i, Operation(old(model), i, c).value)
    {
      LeadsStep(model, Act(i, c), Perform(model, i, Operation(model, i, c).value));
      var s' := Perform(model, i, Operation(model, i, c).value);
      assert Takes(model, Act(i, c), s');
      ReachableStep(model, Act(i, c), s');
      model := s';
    }

    // A goroutine enters the manager.
    ghost method Enter(a: Agent)
      requires Reachable(model) && EntryPoint(a)
      modifies this`model
      ensures Leads(old(model), model)
      ensures Reachable(model) && model == Spawned(old(model), a)
    {
      LeadsStep(model, Spawn(a), Spawned(model, a));
      assert Takes(model, Spawn(a), Spawned(model, a));
      ReachableStep(model, Spawn(a), Spawned(model, a));
      model := Spawned(model, a);
    }

    ghost predicate AgentIs(i: nat, a: Agent)
      reads this
    {
      i < |model.agents| && model.agents[i] == a
    }

    // ---------- single steps ----------

    // A step that changes nothing shared.
    ghost method Look(i: nat, c: Choice, next: Agent)
      requires Valid() && i < |model.agents| && Refers(|model.recs|, |model.agents|, model.agents[i])
      requires Operation(model, i, c) == Some(Read(next))
      modifies this`model
      ensures Leads(old(model), model)
      ensures Valid() && model == old(model).(agents := old(model).agents[i := next])
    {
      hide Leads, Reachable;
      Follow(i, c);
    }

    // time.AfterFunc returns the number of the new timer.
    method AfterFunc(ghost i: nat, ghost t: nat, ghost next: Agent) returns (timer: nat)
      requires Valid() && i < |model.agents| && Refers(|model.recs|, |model.agents|, model.agents[i])
      requires Operation(model, i, Go) == Some(Arm(t, next))
      modifies this`model, this`started
      ensures Leads(old(model), model)
      ensures Valid() && timer == old(started) && started == timer + 1
      ensures model == old(model).(agents := old(model).agents[i := next] + [Armed(t)])
    {
      hide Leads, Reachable;
      timer := started;
      started := started + 1;
      Follow(i, Go);
    }

    method LoadAndDelete(key: string, ghost i: nat, ghost caller: Caller)
      returns (task: TaskObject, ghost t: nat)
      requires Valid() && AgentIs(i, DeleteLoad(key, caller)) && key in tasks
      modifies this`model, this`tasks
      ensures Leads(old(model), model)
      ensures Valid() && tasks == old(tasks) - {key} && task == old(tasks[key])
      ensures model.agents == old(model).agents[i := DeletePtr(t, caller)] && model.log == old(model).log
      ensures t < |created| && task == created[t]
    {
      hide Leads, Reachable;
      AgentRefers(model, i);
      PointsDelete(tasks, model.tasks, created, key);
      DeletePerforms(model, i, key, caller);
      task, t := tasks[key], model.tasks[key];
      tasks := tasks - {key};
      Follow(i, Go);
    }

    // timer.Stop
    ghost method StopTimer(i: nat, t: nat, timer: nat, caller: Caller)
      requires Valid() && AgentIs(i, DeleteStop(t, timer, caller))
      modifies this`model
      ensures Leads(old(model), model)
      ensures Valid() && AgentIs(i, DeleteAdd(t, caller))
      ensures model.log == old(model).log && |model.agents| == |old(model).agents|
      ensures timer < |model.agents| && !model.agents[timer].Armed?
      ensures OthersStay(old(model), model, i, Some(timer))
    {
      hide Leads, Reachable;
      AgentRefers(model, i);
      Follow(i, Go);
    }

    // LoadOrStore of an absent key
    method Store(task: TaskObject, ghost i: nat, ghost call: Call, ghost j: nat)
      requires Valid() && AgentIs(i, StartStore(call, j)) && j < |call.conns|
      requires task.key == Keys.TaskKey(call.conns[j], call.msgId) && task.key !in tasks && task.index == |created|
      requires task.connId == call.conns[j] && task.msgId == call.msgId
      requires task.timerPtr == None && task.retransmitCnt == 0
      modifies this`model, this`tasks, this`created
      ensures Leads(old(model), model)
      ensures Valid() && tasks == old(tasks)[task.key := task] && created == old(created) + [task]
      ensures model.agents == old(model).agents[i := StartArm(call, j, |old(created)|)] && model.log == old(model).log
    {
      hide Leads, Reachable;
      AgentRefers(model, i);
      PointsInsert(tasks, model.tasks, created, task);
      InsertPerforms(model, i, call, j);
      tasks := tasks[task.key := task];
      created := created + [task];
      Follow(i, Go);
    }

    // timerPtr.Store
    method SetTimer(task: TaskObject, timer: nat, ghost i: nat, ghost t: nat, ghost next: Agent)
      requires Valid() && i < |model.agents| && t < |created| && task == created[t]
      requires Refers(|model.recs|, |model.agents|, model.agents[i])
      requires Operation(model, i, Go) == Some(SetPtr(t, timer, next))
      modifies this`model, task`timerPtr
      ensures Leads(old(model), model)
      ensures Valid() && task.timerPtr == Some(timer)
      ensures model.agents == old(model).agents[i := next] && model.log == old(model).log
    {
      hide Leads, Reachable;
      AgentRefers(model, i);
      task.timerPtr := Some(timer);
      Follow(i, Go);
    }

    // totalTaskCnt.Add(1)
    method RaiseTotal(ghost i: nat, ghost call: Call, ghost j: nat, ghost t: nat)
      requires Valid() && AgentIs(i, StartAdd(call, j, t))
      modifies this`model, this`totalTaskCnt
      ensures Leads(old(model), model)
      ensures Valid() && totalTaskCnt == old(totalTaskCnt) + 1
      ensures model.agents == old(model).agents[i := NextConn(call, j)] && model.log == old(model).log
    {
      hide Leads, Reachable;
      AgentRefers(model, i);
      totalTaskCnt := totalTaskCnt + 1;
      Follow(i, Go);
    }

    // retransmitCnt.Add(1)
    method Increment(task: TaskObject, ghost i: nat, ghost t: nat)
      requires Valid() && AgentIs(i, RunInc(t)) && t < |created| && task == created[t]
      modifies this`model, task`retransmitCnt
      ensures Leads(old(model), model)
      ensures t < |model.recs| && t < |old(model).recs| && model.recs[t].slot == old(model).recs[t].slot
      ensures Valid() && task.retransmitCnt == Inc32(old(task.retransmitCnt))
      ensures model.agents == old(model).agents[i := RunCheck(t)] && model.log == old(model).log
    {
      hide Leads, Reachable;
      AgentRefers(model, i);
      task.retransmitCnt := Inc32(task.retransmitCnt);
      Follow(i, Go);
    }

    // One call of the push function; ok is what it returns.
    ghost method PushOnce(i: nat, ok: bool, attempt: Attempt, next: Agent)
      requires Valid() && i < |model.agents| && Refers(|model.recs|, |model.agents|, model.agents[i])
      requires Operation(model, i, if ok then Go else Fail) == Some(Push(attempt, next))
      modifies this`model
      ensures Leads(old(model), model)
      ensures Valid() && model == old(model).(agents := old(model).agents[i := next], log := old(model).log + [attempt])
    {
      LeadsIsPreorder();
      hide Leads, Reachable;
      Follow(i, if ok then Go else Fail);
    }

    // ---------- the methods of the source ----------

    // The timer fires: Task.run. pushed says whether the push function was called. A
    // callback of a key that is gone does nothing; any other counts, pushes as long as
    // the limit is not reached, and either arms the next timer or takes its key out.
    method Run(task: TaskObject, pushOk: bool, ghost i: nat, ghost t: nat) returns (pushed: bool)
      requires Valid() && AgentIs(i, Armed(t)) && t < |created| && task == created[t]
      modifies this`model, this`tasks, this`totalTaskCnt, this`started, task
      ensures Leads(old(model), model)
      ensures Valid() && AgentIs(i, Done)
      ensures if task.key !in old(tasks) then
                !pushed && tasks == old(tasks) && started == old(started) && model.log == old(model).log
              else
                && task.retransmitCnt == Inc32(old(task.retransmitCnt))
                && (pushed <==> task.retransmitCnt < maxRetryCnt)
                && tasks == (if pushed && pushOk then old(tasks) else old(tasks) - {task.key})
                && model.log == old(model).log + (if pushed then [Attempt(old(model).recs[t].slot, Some(t))] else [])
                && started == old(started) + (if pushed && pushOk then 1 else 0)
                && (pushed && pushOk ==> task.timerPtr == Some(old(started)) && AgentIs(old(started), Armed(t)))
    {
      LeadsIsPreorder();
      hide Leads, Reachable;
      var alive := LoadAndCount(task, i, t);
      if !alive {
        return false;
      }
      pushed := CheckAndPush(task, pushOk, i, t);
    }

    // The first half of Task.run.
    method LoadAndCount(task: TaskObject, ghost i: nat, ghost t: nat) returns (alive: bool)
      requires Valid() && AgentIs(i, Armed(t)) && t < |created| && task == created[t]
      modifies this`model, task`retransmitCnt
      ensures Leads(old(model), model)
      ensures Valid() && alive == (task.key in tasks)
      ensures task.retransmitCnt == if alive then Inc32(old(task.retransmitCnt)) else old(task.retransmitCnt)
      ensures AgentIs(i, if alive then RunCheck(t) else Done)
      ensures model.log == old(model).log
      ensures t < |model.recs| && t < |old(model).recs| && model.recs[t].slot == old(model).recs[t].slot
    {
      LeadsIsPreorder();
      hide Leads, Reachable;
      alive := LoadKey(task, i, t);
      if alive {
        Increment(task, i, t);
      }
    }

    // The timer fires, and Task.run looks for its key.
    method LoadKey(task: TaskObject, ghost i: nat, ghost t: nat) returns (found: bool)
      requires Valid() && AgentIs(i, Armed(t)) && t < |created| && task == created[t]
      modifies this`model
      ensures Leads(old(model), model)
      ensures Valid() && found == (task.key in tasks)
      ensures model == old(model).(agents := old(model).agents[i := if found then RunInc(t) else Done])
    {
      LeadsIsPreorder();
      hide Leads, Reachable;
      AgentRefers(model, i);
      Look(i, Go, RunLoad(t));
      AgentRefers(model, i);
      found := task.key in tasks;
      Look(i, Go, if found then RunInc(t) else Done);
    }

    method CheckAndPush(task: TaskObject, pushOk: bool, ghost i: nat, ghost t: nat) returns (pushed: bool)
      requires Valid() && AgentIs(i, RunCheck(t)) && t < |created| && task == created[t]
      modifies this`model, this`tasks, this`totalTaskCnt, this`started, task`timerPtr
      ensures Leads(old(model), model)
      ensures Valid() && AgentIs(i, Done)
      ensures pushed <==> task.retransmitCnt < maxRetryCnt
      ensures tasks == (if pushed && pushOk then old(tasks) else old(tasks) - {task.key})
      ensures model.log == old(model).log + (if pushed then [Attempt(old(model).recs[t].slot, Some(t))] else [])
      ensures started == old(started) + (if pushed && pushOk then 1 else 0)
      ensures pushed && pushOk ==> task.timerPtr == Some(old(started)) && AgentIs(old(started), Armed(t))
    {
      LeadsIsPreorder();
      hide Leads, Reachable, Agrees;
      pushed := CheckLimit(task, i, t);
      if pushed {
        Retransmit(task, pushOk, i, t);
      } else {
        var _ := StopAndDelete(task.key, i, ByRun(t, Exhausted));
      }
    }

    method CheckLimit(task: TaskObject, ghost i: nat, ghost t: nat) returns (below: bool)
      requires Valid() && AgentIs(i, RunCheck(t)) && t < |created| && task == created[t]
      modifies this`model
      ensures Leads(old(model), model)
      ensures Valid() && below == (task.retransmitCnt < maxRetryCnt) && t < |model.recs|
      ensures var next := if below then RunPush(t) else DeleteLoad(task.key, ByRun(t, Exhausted));
              model == old(model).(agents := old(model).agents[i := next])
    {
      AgentRefers(model, i);
      below := task.retransmitCnt < maxRetryCnt;
      Look(i, Go, if below then RunPush(t) else DeleteLoad(task.key, ByRun(t, Exhausted)));
    }

    method Retransmit(task: TaskObject, pushOk: bool, ghost i: nat, ghost t: nat)
      requires Valid() && AgentIs(i, RunPush(t)) && t < |created| && task == created[t]
      modifies this`model, this`tasks, this`totalTaskCnt, this`started, task`timerPtr
      ensures Leads(old(model), model)
      ensures Valid() && AgentIs(i, Done)
      ensures tasks == (if pushOk then old(tasks) else old(tasks) - {task.key})
      ensures model.log == old(model).log + [Attempt(old(model).recs[t].slot, Some(t))]
      ensures started == old(started) + (if pushOk then 1 else 0)
      ensures pushOk ==> task.timerPtr == Some(old(started)) && AgentIs(old(started), Armed(t))
    {
      LeadsIsPreorder();
      hide Leads, Reachable;
      AgentRefers(model, i);
      ghost var attempt := Attempt(model.recs[t].slot, Some(t));
      if pushOk {
        PushOnce(i, true, attempt, RunArm(t));
        ArmAgain(task, i, t);
      } else {
        PushOnce(i, false, attempt, DeleteLoad(task.key, ByRun(t, PushFailed)));
        var _ := StopAndDelete(task.key, i, ByRun(t, PushFailed));
      }
    }

    // timerPtr.Store(time.AfterFunc(...)) of run.
    method ArmAgain(task: TaskObject, ghost i: nat, ghost t: nat)
      requires Valid() && AgentIs(i, RunArm(t)) && t < |created| && task == created[t]
      modifies this`model, this`started, task`timerPtr
      ensures Leads(old(model), model)
      ensures Valid() && task.timerPtr == Some(old(started)) && started == old(started) + 1
      ensures AgentIs(i, Done)
      ensures AgentIs(old(started), Armed(t)) && model.log == old(model).log
    {
      LeadsIsPreorder();
      hide Leads, Reachable;
      AgentRefers(model, i);
      var timer := AfterFunc(i, t, RunPtr(t, started));
      AgentRefers(model, i);
      SetTimer(task, timer, i, t, Done);
    }

    // start, for target j of a Handle call.
    method StartOne(connId: string, msgId: string, ghost i: nat, ghost call: Call, ghost j: nat)
      requires Valid() && AgentIs(i, StartCheck(call, j))
      requires j < |call.conns| && connId == call.conns[j] && msgId == call.msgId
      modifies this
      ensures Leads(old(model), model)
      ensures Valid() && AgentIs(i, StartCheck(call, j + 1))
      ensures model.log == old(model).log && closed == old(closed) && old(created) <= created
      ensures OthersStay(old(model), model, i, None)
      ensures var key := Keys.TaskKey(connId, msgId);
              if closed || key in old(tasks) then
                tasks == old(tasks) && totalTaskCnt == old(totalTaskCnt) && started == old(started)
              else
                && key in tasks && tasks == old(tasks)[key := tasks[key]]
                && |old(created)| < |created| && tasks[key] == created[|old(created)|]
                && totalTaskCnt == old(totalTaskCnt) + 1
                && AgentIs(old(started), Armed(|old(created)|)) && started == old(started) + 1
    {
      LeadsIsPreorder();
      hide Leads, Reachable, Agrees;
      var open := ReadClosed(i, call, j);
      if open {
        StartOpen(connId, msgId, i, call, j);
      }
    }

    // closed.Load() in start
    method ReadClosed(ghost i: nat, ghost call: Call, ghost j: nat) returns (open: bool)
      requires Valid() && AgentIs(i, StartCheck(call, j)) && j < |call.conns|
      modifies this`model
      ensures Leads(old(model), model)
      ensures Valid() && open == !closed
      ensures var next := if open then StartStore(call, j) else NextConn(call, j);
              model == old(model).(agents := old(model).agents[i := next])
    {
      AgentRefers(model, i);
      open := !closed;
      Look(i, Go, if open then StartStore(call, j) else NextConn(call, j));
    }

    // start, once it has read closed as false.
    method StartOpen(connId: string, msgId: string, ghost i: nat, ghost call: Call, ghost j: nat)
      requires Valid() && AgentIs(i, StartStore(call, j))
      requires j < |call.conns| && connId == call.conns[j] && msgId == call.msgId
      modifies this
      ensures Leads(old(model), model)
      ensures closed == old(closed) && model.log == old(model).log && old(created) <= created
      ensures OthersStay(old(model), model, i, None)
      ensures var key := Keys.TaskKey(connId, msgId);
              if key in old(tasks) then
                tasks == old(tasks) && totalTaskCnt == old(totalTaskCnt) && started == old(started)
              else
                && key in tasks && tasks == old(tasks)[key := tasks[key]]
                && |old(created)| < |created| && tasks[key] == created[|old(created)|]
                && totalTaskCnt == old(totalTaskCnt) + 1
                && AgentIs(old(started), Armed(|old(created)|)) && started == old(started) + 1
      ensures Valid() && AgentIs(i, StartCheck(call, j + 1))
    {
      LeadsIsPreorder();
      hide Leads, Reachable, Agrees, Refers;
      var key := Keys.TaskKey(connId, msgId);
      if key in tasks {
        FindStored(key, i, call, j);
        return;
      }
      ghost var t := |created|;
      var _ := Register(key, connId, msgId, i, call, j);
      RaiseTotal(i, call, j, t);
    }

    // LoadOrStore of a present key
    ghost method FindStored(key: string, i: nat, call: Call, j: nat)
      requires Valid() && AgentIs(i, StartStore(call, j)) && j < |call.conns|
      requires key == Keys.TaskKey(call.conns[j], call.msgId) && key in tasks
      modifies this`model
      ensures Leads(old(model), model)
      ensures Valid() && model == old(model).(agents := old(model).agents[i := NextConn(call, j)])
    {
      AgentRefers(model, i);
      Look(i, Go, NextConn(call, j));
    }

    // The new task of start: into the map and armed.
    method Register(key: string, connId: string, msgId: string, ghost i: nat, ghost call: Call, ghost j: nat)
      returns (task: TaskObject)
      requires Valid() && AgentIs(i, StartStore(call, j)) && j < |call.conns|
      requires connId == call.conns[j] && msgId == call.msgId && key == Keys.TaskKey(connId, msgId) && key !in tasks
      modifies this
      ensures Leads(old(model), model)
      ensures model.log == old(model).log && closed == old(closed)
      ensures tasks == old(tasks)[key := task] && fresh(task)
      ensures created == old(created) + [task] && OthersStay(old(model), model, i, None)
      ensures task.retransmitCnt == 0 && task.timerPtr == Some(old(started))
      ensures totalTaskCnt == old(totalTaskCnt)
      ensures AgentIs(old(started), Armed(|old(created)|)) && i != old(started) && started == old(started) + 1
      ensures Valid() && AgentIs(i, StartAdd(call, j, |old(created)|))
    {
      LeadsIsPreorder();
      hide Leads, Reachable, Agrees, Refers, Keys.TaskKey;
      task := new TaskObject(key, connId, msgId, |created|);
      ghost var t := |created|;
      Store(task, i, call, j);
      ArmFirst(task, i, call, j, t);
    }

    // timerPtr.Store(time.AfterFunc(...)) of start.
    method ArmFirst(task: TaskObject, ghost i: nat, ghost call: Call, ghost j: nat, ghost t: nat)
      requires Valid() && AgentIs(i, StartArm(call, j, t)) && t < |created| && task == created[t]
      modifies this`model, this`started, task`timerPtr
      ensures Leads(old(model), model)
      ensures Valid() && task.timerPtr == Some(old(started)) && started == old(started) + 1
      ensures AgentIs(i, StartAdd(call, j, t)) && OthersStay(old(model), model, i, None)
      ensures AgentIs(old(started), Armed(t)) && i != old(started) && model.log == old(model).log
    {
      LeadsIsPreorder();
      hide Leads, Reachable;
      AgentRefers(model, i);
      var timer := AfterFunc(i, t, StartPtr(call, j, t, started));
      AgentRefers(model, i);
      SetTimer(task, timer, i, t, StartAdd(call, j, t));
    }

    // Task.stop
    method StopTask(task: TaskObject, ghost i: nat, ghost t: nat, ghost caller: Caller)
      requires Valid() && AgentIs(i, DeletePtr(t, caller)) && t < |created| && task == created[t]
      modifies this`model
      ensures Leads(old(model), model)
      ensures Valid() && AgentIs(i, DeleteAdd(t, caller))
      ensures model.log == old(model).log && |model.agents| == |old(model).agents|
      ensures NotArmed(model, task.timerPtr) && OthersStay(old(model), model, i, task.timerPtr)
    {
      LeadsIsPreorder();
      hide Leads, Reachable;
      AgentRefers(model, i);
      if task.timerPtr.Some? {
        Look(i, Go, DeleteStop(t, task.timerPtr.value, caller));
        StopTimer(i, t, task.timerPtr.value, caller);
      } else {
        Look(i, Go, DeleteAdd(t, caller));
      }
    }

    // stopAndDelete, on behalf of the caller.
    method StopAndDelete(key: string, ghost i: nat, ghost caller: Caller) returns (deleted: bool)
      requires Valid() && AgentIs(i, DeleteLoad(key, caller))
      modifies this`model, this`tasks, this`totalTaskCnt
      ensures Leads(old(model), model)
      ensures Valid() && AgentIs(i, Resume(caller))
      ensures deleted == (key in old(tasks)) && tasks == old(tasks) - {key}
      ensures totalTaskCnt == old(totalTaskCnt) - (if deleted then 1 else 0)
      ensures model.log == old(model).log && |model.agents| == |old(model).agents|
      ensures deleted ==> NotArmed(model, old(tasks[key].timerPtr))
      ensures OthersStay(old(model), model, i, if deleted then old(tasks[key].timerPtr) else None)
    {
      LeadsIsPreorder();
      hide Leads, Reachable, Agrees;
      deleted := key in tasks;
      if !deleted {
        FindNothing(key, i, caller);
        return;
      }
      var task, t := LoadAndDelete(key, i, caller);
      StopTask(task, i, t, caller);
      DropTotal(i, t, caller);
    }

    // LoadAndDelete of an absent key
    ghost method FindNothing(key: string, i: nat, caller: Caller)
      requires Valid() && AgentIs(i, DeleteLoad(key, caller)) && key !in tasks
      modifies this`model
      ensures Leads(old(model), model)
      ensures Valid() && model == old(model).(agents := old(model).agents[i := Resume(caller)])
    {
      AgentRefers(model, i);
      Look(i, Go, Resume(caller));
    }

    // totalTaskCnt.Add(-1)
    method DropTotal(ghost i: nat, ghost t: nat, ghost caller: Caller)
      requires Valid() && AgentIs(i, DeleteAdd(t, caller))
      modifies this`model, this`totalTaskCnt
      ensures Leads(old(model), model)
      ensures Valid() && totalTaskCnt == old(totalTaskCnt) - 1
      ensures model.agents == old(model).agents[i := Resume(caller)] && model.log == old(model).log
    {
      hide Leads, Reachable;
      AgentRefers(model, i);
      totalTaskCnt := totalTaskCnt - 1;
      Follow(i, Go);
    }

    // A new goroutine enters the manager.
    method Begin(ghost a: Agent) returns (ghost i: nat)
      requires Valid() && EntryPoint(a)
      modifies this`model, this`started
      ensures Leads(old(model), model)
      ensures Valid() && i == |old(model).agents| && model == Spawned(old(model), a)
      ensures AgentIs(i, a) && started == old(started) + 1
    {
      hide Leads, Reachable;
      i := |model.agents|;
      started := started + 1;
      Enter(a);
    }

    // Stop, which DownstreamAckHandler.Handle calls with the id of its connection.
    method Stop(connId: string, messageId: string)
      requires Valid()
      modifies this`model, this`tasks, this`totalTaskCnt, this`started
      ensures Leads(old(model), model)
      ensures Valid()
      ensures tasks == old(tasks) - {Keys.TaskKey(connId, messageId)}
      ensures totalTaskCnt == old(totalTaskCnt) - (if Keys.TaskKey(connId, messageId) in old(tasks) then 1 else 0)
      ensures AgentIs(|old(model).agents|, Done) && model.log == old(model).log
      ensures var key := Keys.TaskKey(connId, messageId); var i := |old(model).agents|;
              if key in old(tasks) then
                && NotArmed(model, old(tasks[key].timerPtr))
                && OthersStay(old(model), model, i, old(tasks[key].timerPtr))
              else OthersStay(old(model), model, i, None)
    {
      LeadsIsPreorder();
      hide Leads, Reachable, Agrees;
      var key := Keys.TaskKey(connId, messageId);
      var found, i := FindKey(key);
      if found {
        var _ := StopAndDelete(key, i, ByAck(key));
      }
    }

    // The load of Stop.
    method FindKey(key: string) returns (found: bool, ghost i: nat)
      requires Valid()
      modifies this`model, this`started
      ensures Leads(old(model), model)
      ensures Valid() && found == (key in tasks) && i == |old(model).agents|
      ensures model.agents == old(model).agents + [if found then DeleteLoad(key, ByAck(key)) else Done]
      ensures model.log == old(model).log && OthersStay(old(model), model, i, None)
    {
      LeadsIsPreorder();
      hide Leads, Reachable;
      i := Begin(StopLoad(key));
      AgentRefers(model, i);
      found := key in tasks;
      Look(i, Go, if found then DeleteLoad(key, ByAck(key)) else Done);
    }

    // Range hands the callback of ClearByConn or Close a key that it wants; next is the
    // caller that has visited it.
    method VisitAndDelete(key: string, ghost i: nat, ghost caller: Caller, ghost next: Caller)
      requires Valid() && AgentIs(i, Ranging(caller)) && Visits(caller, key, next) && key in tasks
      requires caller.ByClose? || tasks[key].connId == caller.connId
      modifies this`model, this`tasks, this`totalTaskCnt
      ensures Leads(old(model), model)
      ensures tasks == old(tasks) - {key} && totalTaskCnt == old(totalTaskCnt) - 1
      ensures model.log == old(model).log
      ensures Valid() && AgentIs(i, Ranging(next))
    {
      LeadsIsPreorder();
      hide Leads, Reachable, Agrees;
      VisitLooks(key, true, i, caller, next);
      var _ := StopAndDelete(key, i, next);
    }

    ghost method VisitLooks(key: string, wanted: bool, i: nat, caller: Caller, next: Caller)
      requires Valid() && AgentIs(i, Ranging(caller)) && Visits(caller, key, next) && key in tasks
      requires wanted == (caller.ByClose? || tasks[key].connId == caller.connId)
      modifies this`model
      ensures Leads(old(model), model)
      ensures Valid() && model.log == old(model).log
      ensures model.agents == old(model).agents[i := if wanted then DeleteLoad(key, next) else Ranging(next)]
    {
      LeadsIsPreorder();
      hide Leads, Reachable;
      AgentRefers(model, i);
      Look(i, Visit(key, model.tasks[key]), if wanted then DeleteLoad(key, next) else Ranging(next));
    }

    // The callback of ClearByConn.
    method ClearKey(key: string, ghost i: nat, ghost caller: Caller, ghost next: Caller, connId: string)
      returns (deleted: bool)
      requires Valid() && AgentIs(i, Ranging(caller)) && Visits(caller, key, next) && key in tasks
      requires caller.ByClear? && caller.connId == connId
      modifies this`model, this`tasks, this`totalTaskCnt
      ensures Leads(old(model), model)
      ensures Valid() && AgentIs(i, Ranging(next))
      ensures deleted == (old(tasks)[key].connId == connId)
      ensures tasks == if deleted then old(tasks) - {key} else old(tasks)
      ensures totalTaskCnt == old(totalTaskCnt) - (if deleted then 1 else 0)
      ensures model.log == old(model).log
    {
      LeadsIsPreorder();
      hide Leads, Reachable;
      deleted := tasks[key].connId == connId;
      if deleted {
        VisitAndDelete(key, i, caller, next);
      } else {
        VisitLooks(key, false, i, caller, next);
      }
    }

    // ClearByConn and Close begin their Range.
    ghost method RangeBegins(i: nat, connId: Option<string>) returns (caller: Caller)
      requires Valid() && AgentIs(i, if connId.Some? then ClearBegin(connId.value) else CloseBegin)
      modifies this`model
      ensures Leads(old(model), model)
      ensures Valid() && AgentIs(i, Ranging(caller))
      ensures |model.agents| == |old(model).agents| && model.log == old(model).log
      ensures if connId.Some? then caller.ByClear? && caller.connId == connId.value else caller.ByClose?
      ensures caller.range.visited == {} && forall k :: k in caller.range.snap ==> k in tasks
    {
      hide Leads, Reachable;
      AgentRefers(model, i);
      var range := Range(model.tasks, |model.recs|, {});
      caller := if connId.Some? then ByClear(connId.value, range) else ByClose(range);
      Look(i, Go, Ranging(caller));
    }

    ghost method RangeEnds(i: nat, caller: Caller)
      requires Valid() && AgentIs(i, Ranging(caller)) && (caller.ByClear? || caller.ByClose?)
      requires forall k :: k in caller.range.snap ==> k in caller.range.visited
      modifies this`model
      ensures Leads(old(model), model)
      ensures Valid() && AgentIs(i, Ended(caller))
      ensures |model.agents| == |old(model).agents| && model.log == old(model).log
    {
      hide Leads, Reachable;
      AgentRefers(model, i);
      Look(i, Finish, Ended(caller));
    }

    // ClearByConn; cnt is what it logs.
    method ClearByConn(connId: string) returns (cnt: nat)
      requires Valid()
      modifies this`model, this`tasks, this`totalTaskCnt, this`started
      ensures Leads(old(model), model)
      ensures Valid()
      ensures |old(model).agents| < |model.agents| && model.agents[|old(model).agents|].Ended?
      ensures forall k :: k in tasks <==> k in old(tasks) && old(tasks)[k].connId != connId
      ensures forall k :: k in tasks ==> tasks[k] == old(tasks)[k]
      ensures totalTaskCnt == old(totalTaskCnt) - cnt && cnt == |old(tasks)| - |tasks|
      ensures model.log == old(model).log
    {
      LeadsIsPreorder();
      hide Leads, Reachable;
      ghost var i := Begin(ClearBegin(connId));
      ghost var caller := RangeBegins(i, Some(connId));
      var left := tasks.Keys;
      cnt := 0;
      while left != {}
        invariant Valid() && AgentIs(i, Ranging(caller))
        invariant Leads(old(model), model)
        invariant caller.ByClear? && caller.connId == connId && model.log == old(model).log
        invariant forall k :: k in left ==> k in tasks && k !in caller.range.visited
        invariant forall k :: k in caller.range.snap ==> k in left || k in caller.range.visited
        invariant forall k :: k in tasks <==> k in old(tasks) && (k in left || old(tasks)[k].connId != connId)
        invariant forall k :: k in tasks ==> tasks[k] == old(tasks)[k]
        invariant totalTaskCnt == old(totalTaskCnt) - cnt && cnt == |old(tasks)| - |tasks|
        decreases left
      {
        var key :| key in left;
        left := left - {key};
        SizeWithout(tasks, key);
        var deleted := ClearKey(key, i, caller, Visited(caller, key), connId);
        cnt := cnt + if deleted then 1 else 0;
        caller := Visited(caller, key);
      }
      RangeEnds(i, caller);
    }

    // Close; cnt is what it logs.
    method Close() returns (cnt: nat)
      requires Valid()
      modifies this`model, this`tasks, this`totalTaskCnt, this`started, this`closed
      ensures Leads(old(model), model)
      ensures Valid() && closed
      ensures |old(model).agents| < |model.agents| && Finished(model.agents[|old(model).agents|])
      ensures tasks == if old(closed) then old(tasks) else map[]
      ensures totalTaskCnt == old(totalTaskCnt) - cnt && cnt == |old(tasks)| - |tasks|
      ensures model.log == old(model).log
    {
      LeadsIsPreorder();
      hide Leads, Reachable;
      var swapped, i := SwapClosed();
      cnt := 0;
      if swapped {
        cnt := CloseAll(i);
      }
    }

    // closed.CompareAndSwap(false, true)
    method SwapClosed() returns (swapped: bool, ghost i: nat)
      requires Valid()
      modifies this`model, this`started, this`closed
      ensures Leads(old(model), model)
      ensures Valid() && closed && swapped == !old(closed) && i == |old(model).agents|
      ensures model.agents == old(model).agents + [if swapped then CloseBegin else Done]
      ensures model.log == old(model).log
    {
      LeadsIsPreorder();
      hide Leads, Reachable;
      i := Begin(CloseSwap);
      AgentRefers(model, i);
      swapped := !closed;
      closed := true;
      Follow(i, Go);
    }

    // The Range of Close.
    method CloseAll(ghost i: nat) returns (cnt: nat)
      requires Valid() && AgentIs(i, CloseBegin)
      modifies this`model, this`tasks, this`totalTaskCnt
      ensures Leads(old(model), model)
      ensures Valid() && tasks == map[]
      ensures i < |model.agents| && model.agents[i].Ended?
      ensures totalTaskCnt == old(totalTaskCnt) - cnt && cnt == |old(tasks)|
      ensures model.log == old(model).log
    {
      LeadsIsPreorder();
      hide Leads, Reachable;
      ghost var caller := RangeBegins(i, None);
      var left := tasks.Keys;
      cnt := 0;
      while left != {}
        invariant Valid() && AgentIs(i, Ranging(caller))
        invariant Leads(old(model), model)
        invariant caller.ByClose? && model.log == old(model).log
        invariant forall k :: k in left ==> k in tasks && k !in caller.range.visited
        invariant forall k :: k in caller.range.snap ==> k in left || k in caller.range.visited
        invariant forall k :: k in tasks ==> k in left
        invariant totalTaskCnt == old(totalTaskCnt) - cnt && cnt == |old(tasks)| - |tasks|
        decreases left
      {
        var key :| key in left;
        left := left - {key};
        SizeWithout(tasks, key);
        VisitAndDelete(key, i, caller, Visited(caller, key));
        caller := Visited(caller, key);
        cnt := cnt + 1;
      }
      RangeEnds(i, caller);
    }

    // BackendMsgHandler.Handle: pushes to the targets up to the first failure, pushOk
    // saying which pushes succeed; then the deferred Start.
    method Handle(conns: seq<string>, msgId: string, pushOk: seq<bool>) returns (ok: bool, reached: nat)
      requires Valid() && |pushOk| == |conns|
      modifies this
      ensures Leads(old(model), model)
      ensures Valid() && closed == old(closed)
      ensures AgentIs(|old(model).agents|, Returned(Call(conns, msgId)))
      ensures ok <==> forall j :: 0 <= j < |conns| ==> pushOk[j]
      ensures reached <= |conns| && (forall j :: 0 <= j < reached - 1 ==> pushOk[j])
      ensures model.log == old(model).log + FirstPushes(|old(model).agents|, reached)
      ensures reached < |conns| ==> reached > 0 && !pushOk[reached - 1]
      ensures (!closed ==> AllIn(tasks, conns, msgId, |conns|)) && (closed ==> tasks == old(tasks))
      ensures Kept(old(tasks), tasks) && OthersStay(old(model), model, |old(model).agents|, None)
      ensures forall k :: k in tasks && k !in old(tasks) ==> Ticking(tasks, created, model.agents, k)
    {
      LeadsIsPreorder();
      hide Leads, Reachable;
      ghost var call := Call(conns, msgId);
      ghost var i := Begin(Pushing(call, 0));
      ok, reached := PushAll(conns, pushOk, i, call);
      Start(conns, msgId, i, call);
    }

    // The push loop of Handle.
    method PushAll(conns: seq<string>, pushOk: seq<bool>, ghost i: nat, ghost call: Call)
      returns (ok: bool, reached: nat)
      requires Valid() && AgentIs(i, Pushing(call, 0)) && call.conns == conns && |pushOk| == |conns|
      modifies this`model
      ensures Leads(old(model), model)
      ensures Valid() && AgentIs(i, StartCheck(call, 0))
      ensures |model.agents| == |old(model).agents| && OthersStay(old(model), model, i, None)
      ensures ok <==> forall j :: 0 <= j < |conns| ==> pushOk[j]
      ensures reached <= |conns| && (forall j :: 0 <= j < reached - 1 ==> pushOk[j])
      ensures reached < |conns| ==> reached > 0 && !pushOk[reached - 1]
      ensures model.log == old(model).log + FirstPushes(i, reached)
    {
      LeadsIsPreorder();
      hide Leads, Reachable, Agrees;
      reached := 0;
      while reached < |conns|
        invariant Valid() && AgentIs(i, Pushing(call, reached))
        invariant Leads(old(model), model)
        invariant |model.agents| == |old(model).agents| && reached <= |conns|
        invariant OthersStay(old(model), model, i, None)
        invariant forall j :: 0 <= j < reached ==> pushOk[j]
        invariant model.log == old(model).log + FirstPushes(i, reached)
      {
        AgentRefers(model, i);
        if !pushOk[reached] {
          PushOnce(i, false, Attempt(Slot(i, reached), None), StartCheck(call, 0));
          reached := reached + 1;
          return false, reached;
        }
        PushOnce(i, true, Attempt(Slot(i, reached), None), Pushing(call, reached + 1));
        reached := reached + 1;
      }
      AgentRefers(model, i);
      Look(i, Go, StartCheck(call, 0));
      ok := true;
    }

    method Start(conns: seq<string>, msgId: string, ghost i: nat, ghost call: Call)
      requires Valid() && AgentIs(i, StartCheck(call, 0)) && call == Call(conns, msgId)
      modifies this
      ensures Leads(old(model), model)
      ensures closed == old(closed) && model.log == old(model).log
      ensures (!closed ==> AllIn(tasks, conns, msgId, |conns|)) && (closed ==> tasks == old(tasks))
      ensures Kept(old(tasks), tasks) && OthersStay(old(model), model, i, None)
      ensures forall k :: k in tasks && k !in old(tasks) ==> Ticking(tasks, created, model.agents, k)
      ensures Valid() && AgentIs(i, Returned(call))
    {
      LeadsIsPreorder();
      hide Leads, Reachable, Agrees, Ticking, Refers, Keys.TaskKey;
      for n := 0 to |conns|
        invariant Valid() && AgentIs(i, StartCheck(call, n))
        invariant Leads(old(model), model)
        invariant closed == old(closed) && model.log == old(model).log
        invariant (!closed ==> AllIn(tasks, conns, msgId, n)) && (closed ==> tasks == old(tasks))
        invariant Kept(old(tasks), tasks) && OthersStay(old(model), model, i, None)
        invariant forall k :: k in tasks && k !in old(tasks) ==> Ticking(tasks, created, model.agents, k)
      {
        StartTarget(conns, msgId, i, call, n);
      }
      ghost var agentsBefore := model.agents;
      StartReturns(i, call);
      TickingOn(tasks, tasks, created, created, agentsBefore, model.agents, i);
    }

    // One iteration of Start.
    method StartTarget(conns: seq<string>, msgId: string, ghost i: nat, ghost call: Call, n: nat)
      requires Valid() && AgentIs(i, StartCheck(call, n)) && call == Call(conns, msgId) && n < |conns|
      modifies this
      ensures Leads(old(model), model)
      ensures closed == old(closed) && model.log == old(model).log
      ensures Kept(old(tasks), tasks) && OthersStay(old(model), model, i, None)
      ensures if closed then tasks == old(tasks) else Keys.TaskKey(conns[n], msgId) in tasks
      ensures forall k :: Ticking(old(tasks), old(created), old(model).agents, k) ==>
                Ticking(tasks, created, model.agents, k)
      ensures forall k :: k in tasks && k !in old(tasks) ==> Ticking(tasks, created, model.agents, k)
      ensures Valid() && AgentIs(i, StartCheck(call, n + 1))
    {
      hide Leads, Reachable, Agrees, Ticking, Keys.TaskKey;
      StartOne(conns[n], msgId, i, call, n);
      TickingOn(old(tasks), tasks, old(created), created, old(model).agents, model.agents, i);
      if tasks != old(tasks) {
        TickingNow(tasks, created, model.agents, Keys.TaskKey(conns[n], msgId), old(started), |old(created)|);
      }
    }

    ghost method StartReturns(i: nat, call: Call)
      requires Valid() && AgentIs(i, StartCheck(call, |call.conns|))
      modifies this`model
      ensures Leads(old(model), model)
      ensures Valid() && model == old(model).(agents := old(model).agents[i := Returned(call)])
    {
      hide Leads, Reachable;
      AgentRefers(model, i);
      Look(i, Go, Returned(call));
    }

    // TotalTaskCnt; between calls it is the number of tasks.
    method TotalTaskCnt() returns (n: int)
      requires Valid()
      requires forall i :: 0 <= i < |model.agents| ==> Finished(model.agents[i]) || model.agents[i].Armed?
      ensures n == |tasks|
    {
      n := totalTaskCnt;
      SameSize(tasks, model.tasks);
      AtRestCounted(model);
    }
  }

  // The attempts of the first n pushes of one Handle call.
  function FirstPushes(call: nat, n: nat): seq<Attempt>
  {
    if n == 0 then [] else FirstPushes(call, n - 1) + [Attempt(Slot(call, n - 1), None)]
  }

  // Nothing has been taken out of the map or replaced.
  ghost predicate Kept(before: map<string, TaskObject>, after: map<string, TaskObject>)
  {
    forall k :: k in before ==> k in after && after[k] == before[k]
  }

  // The task under the key has an armed timer.
  ghost predicate Ticking(tasks: map<string, TaskObject>, created: seq<TaskObject>, agents: seq<Agent>, key: string)
  {
    && key in tasks
    && exists m, t :: 0 <= m < |agents| && 0 <= t < |created| && agents[m] == Armed(t) && tasks[key] == created[t]
  }

  lemma TickingNow(tasks: map<string, TaskObject>, created: seq<TaskObject>, agents: seq<Agent>, key: string,
                   m: nat, t: nat)
    requires m < |agents| && agents[m] == Armed(t) && t < |created| && key in tasks && tasks[key] == created[t]
    ensures Ticking(tasks, created, agents, key)
  {
  }

  lemma TickingOn(tasks: map<string, TaskObject>, tasks': map<string, TaskObject>, created: seq<TaskObject>,
                  created': seq<TaskObject>, agents: seq<Agent>, agents': seq<Agent>, i: nat)
    requires Kept(tasks, tasks') && created <= created' && |agents| <= |agents'| && i < |agents| && !agents[i].Armed?
    requires forall j :: 0 <= j < |agents| && j != i ==> agents'[j] == agents[j]
    ensures forall k :: Ticking(tasks, created, agents, k) ==> Ticking(tasks', created', agents', k)
  {
    forall k | Ticking(tasks, created, agents, k)
      ensures Ticking(tasks', created', agents', k)
    {
      var m, t :| 0 <= m < |agents| && 0 <= t < |created| && agents[m] == Armed(t) && tasks[k] == created[t];
      assert agents'[m] == Armed(t) && tasks'[k] == created'[t];
    }
  }

  // No agent has moved but i and, perhaps, one timer.
  ghost predicate OthersStay(s: State, s': State, i: nat, timer: Option<nat>)
  {
    && |s.agents| <= |s'.agents|
    && forall j :: 0 <= j < |s.agents| && j != i && timer != Some(j) ==> s'.agents[j] == s.agents[j]
  }

  ghost predicate NotArmed(s: State, timer: Option<nat>)
  {
    timer.Some? ==> timer.value < |s.agents| && !s.agents[timer.value].Armed?
  }

  // The first n targets have their tasks.
  ghost predicate AllIn(tasks: map<string, TaskObject>, conns: seq<string>, msgId: string, n: nat)
    requires n <= |conns|
  {
    forall j :: 0 <= j < n ==> Keys.TaskKey(conns[j], msgId) in tasks
  }

  lemma {:induction false} SameSize(a: map<string, TaskObject>, b: map<string, nat>)
    requires forall k :: k in a <==> k in b
    ensures |a| == |b|
  {
    assert a.Keys == b.Keys;
    assert |a| == |a.Keys| && |b| == |b.Keys|;
  }

  lemma AtRestCounted(s: State)
    requires Reachable(s)
    requires forall i :: 0 <= i < |s.agents| ==> Finished(s.agents[i]) || s.agents[i].Armed?
    ensures s.total == |s.tasks|
  {
    TotalTaskCount(s);
  }

  // The Range of caller visits key for the first time.
  ghost predicate Visits(caller: Caller, key: string, next: Caller)
  {
    && (caller.ByClear? || caller.ByClose?) && key !in caller.range.visited
    && next == Visited(caller, key)
  }

}
