// The retransmission protocol: retransmit.Manager and Task, started by
// BackendMsgHandler.Handle and stopped by DownstreamAckHandler.Handle.
//
// Any number of goroutines share one map, one flag and two kinds of counters.
// Every goroutine is an Agent with a program counter; every step of the system
// is one operation on the shared state (a map operation, an atomic operation, a
// timer operation or one push) together with the move of that one agent.

module Retransmission {
  import opened Common
  import Keys

  // ---------- agents ----------

  // One BackendMsgHandler.Handle call: the connection ids of its targets and the message id.
  datatype Call = Call(conns: seq<string>, msgId: string)

  // One target of one call.
  datatype Slot = Slot(call: nat, idx: nat)

  // A Range over the task map. Tasks are never put back into the map, so a key of
  // the snapshot that still maps to the same task was present throughout.
  // born is the number of tasks created when the Range began.
  datatype Range = Range(snap: map<string, nat>, born: nat, visited: set<string>)

  datatype Why = Exhausted | PushFailed

  // On whose behalf stopAndDelete is running, and where it returns to.
  datatype Caller =
    | ByRun(task: nat, why: Why)
    | ByAck(key: string)
    | ByClear(connId: string, range: Range)
    | ByClose(range: Range)

  datatype Agent =
    // BackendMsgHandler.Handle, with the deferred Manager.Start
    | Pushing(call: Call, idx: nat)
    | StartCheck(call: Call, idx: nat)
    | StartStore(call: Call, idx: nat)
    | StartArm(call: Call, idx: nat, task: nat)
    | StartPtr(call: Call, idx: nat, task: nat, timer: nat)
    | StartAdd(call: Call, idx: nat, task: nat)
    | Returned(call: Call)
    // an AfterFunc timer; when it fires it turns into the goroutine of Task.run
    | Armed(task: nat)
    | Disarmed
    | RunLoad(task: nat)
    | RunInc(task: nat)
    | RunCheck(task: nat)
    | RunPush(task: nat)
    | RunArm(task: nat)
    | RunPtr(task: nat, timer: nat)
    // Manager.Stop, ClearByConn and Close
    | StopLoad(key: string)
    | ClearBegin(connId: string)
    | CloseSwap
    | CloseBegin
    | Ranging(caller: Caller)
    | Ended(caller: Caller)
    // Manager.stopAndDelete with Task.stop
    | DeleteLoad(key: string, caller: Caller)
    | DeletePtr(task: nat, caller: Caller)
    | DeleteStop(task: nat, timer: nat, caller: Caller)
    | DeleteAdd(task: nat, caller: Caller)
    | Done

  // ---------- shared state ----------

  datatype Fate = Registered | Removed(remover: Caller)

  // slot, adds, subs and fate are the history of the task: who created it, how often
  // totalTaskCnt was changed for it, and who took it out of the map.
  datatype Task = Task(key: string, connId: string, msgId: string, slot: Slot, cnt: int,
                       timer: Option<nat>, adds: nat, subs: nat, fate: Fate)

  // One call of the push function; source is the retransmitting task, if any.
  datatype Attempt = Attempt(slot: Slot, source: Option<nat>)

  datatype State = State(max: int, closed: bool, tasks: map<string, nat>, recs: seq<Task>,
                         agents: seq<Agent>, total: int, log: seq<Attempt>)

  const DEFAULT_MAX_RETRY_CNT: int := 3

  function NewManager(maxRetryCnt: int): State
  {
    State(if maxRetryCnt <= 0 then DEFAULT_MAX_RETRY_CNT else maxRetryCnt, false, map[], [], [], 0, [])
  }

  // ---------- steps ----------

  // What one step does to the shared state; every operation also moves the agent to next.
  datatype Op =
    | Read(next: Agent)                                    // a load that changes nothing
    | Swap(next: Agent)                                    // closed.CompareAndSwap(false, true)
    | Insert(record: Task, next: Agent)                    // LoadOrStore of a new key
    | Delete(key: string, caller: Caller, next: Agent)         // LoadAndDelete of a present key
    | Arm(task: nat, next: Agent)                          // time.AfterFunc
    | SetPtr(task: nat, timer: nat, next: Agent)           // timerPtr.Store
    | Disarm(timer: nat, next: Agent)                      // timer.Stop
    | Count(task: nat, next: Agent)                        // retransmitCnt.Add(1)
    | AddTotal(task: nat, next: Agent)                     // totalTaskCnt.Add(1)
    | SubTotal(task: nat, next: Agent)                     // totalTaskCnt.Add(-1)
    | Push(attempt: Attempt, next: Agent)                  // one call of the push function

  // What the environment decides in a step.
  datatype Choice = Go | Fail | Visit(key: string, task: nat) | Finish

  function NewTasks(s: State, op: Op): map<string, nat>
  {
    match op
    case Insert(task, _) => s.tasks[task.key := |s.recs|]
    case Delete(key, _, _) => s.tasks - {key}
    case _ => s.tasks
  }

  function NewRecs(s: State, op: Op): seq<Task>
    requires Applicable(s, op)
  {
    match op
    case Insert(task, _) => s.recs + [task]
    case Delete(key, caller, _) =>
      var t := s.tasks[key];
      s.recs[t := s.recs[t].(fate := Removed(caller))]
    case SetPtr(t, m, _) => s.recs[t := s.recs[t].(timer := Some(m))]
    case Count(t, _) => s.recs[t := s.recs[t].(cnt := Inc32(s.recs[t].cnt))]
    case AddTotal(t, _) => s.recs[t := s.recs[t].(adds := s.recs[t].adds + 1)]
    case SubTotal(t, _) => s.recs[t := s.recs[t].(subs := s.recs[t].subs + 1)]
    case _ => s.recs
  }

  function NewAgents(s: State, i: nat, op: Op): seq<Agent>
    requires i < |s.agents| && Applicable(s, op)
  {
    match op
    case Arm(t, _) => s.agents[i := op.next] + [Armed(t)]
    case Disarm(m, _) =>
      (if s.agents[m].Armed? then s.agents[m := Disarmed] else s.agents)[i := op.next]
    case _ => s.agents[i := op.next]
  }

  function NewTotal(s: State, op: Op): int
  {
    match op
    case AddTotal(_, _) => s.total + 1
    case SubTotal(_, _) => s.total - 1
    case _ => s.total
  }

  function NewLog(s: State, op: Op): seq<Attempt>
  {
    if op.Push? then s.log + [op.attempt] else s.log
  }

  function Perform(s: State, i: nat, op: Op): State
    requires i < |s.agents| && Applicable(s, op)
  {
    State(s.max, s.closed || op.Swap?, NewTasks(s, op), NewRecs(s, op), NewAgents(s, i, op),
          NewTotal(s, op), NewLog(s, op))
  }

  predicate Applicable(s: State, op: Op)
  {
    match op
    case Delete(key, _, _) => key in s.tasks && s.tasks[key] < |s.recs|
    case SetPtr(t, _, _) => t < |s.recs|
    case Disarm(m, _) => m < |s.agents|
    case Count(t, _) => t < |s.recs|
    case AddTotal(t, _) => t < |s.recs|
    case SubTotal(t, _) => t < |s.recs|
    case _ => true
  }

  // Where stopAndDelete returns to.
  function Resume(caller: Caller): Agent
  {
    if caller.ByRun? || caller.ByAck? then Done else Ranging(caller)
  }

  function NextConn(call: Call, idx: nat): Agent
  {
    StartCheck(call, idx + 1)
  }

  // A Range may call back on a key it has not visited, with a task that was stored
  // there at some time; a key present throughout comes with its one task.
  predicate Visitable(s: State, r: Range, k: string, t: nat)
  {
    && k !in r.visited
    && t < |s.recs| && s.recs[t].key == k
    && (k in s.tasks && k in r.snap && s.tasks[k] == r.snap[k] ==> t == r.snap[k])
  }

  // A Range may end once every key present throughout was visited.
  predicate MayEnd(s: State, r: Range)
  {
    forall k :: k in r.snap && k !in r.visited ==> k !in s.tasks || s.tasks[k] != r.snap[k]
  }

  function Visited(caller: Caller, k: string): Caller
    requires caller.ByClear? || caller.ByClose?
  {
    caller.(range := caller.range.(visited := caller.range.visited + {k}))
  }

  // Does the Range callback of this caller delete the key it is called with?
  predicate Wants(caller: Caller, task: Task)
  {
    caller.ByClose? || (caller.ByClear? && task.connId == caller.connId)
  }

  // The numbers in an agent's program counter refer to existing tasks and timers.
  predicate Refers(recs: int, agents: int, a: Agent)
  {
    match a
    case Pushing(call, j) => j <= |call.conns|
    case StartCheck(call, j) => j <= |call.conns|
    case StartStore(call, j) => j < |call.conns|
    case StartArm(call, j, t) => j < |call.conns| && t < recs
    case StartPtr(call, j, t, m) => j < |call.conns| && t < recs && m < agents
    case StartAdd(call, j, t) => j < |call.conns| && t < recs
    case Armed(t) => t < recs
    case RunLoad(t) => t < recs
    case RunInc(t) => t < recs
    case RunCheck(t) => t < recs
    case RunPush(t) => t < recs
    case RunArm(t) => t < recs
    case RunPtr(t, m) => t < recs && m < agents
    case Ranging(caller) => caller.ByClear? || caller.ByClose?
    case Ended(caller) => caller.ByClear? || caller.ByClose?
    case DeleteLoad(_, caller) => caller.ByRun? ==> caller.task < recs
    case DeletePtr(t, _) => t < recs
    case DeleteStop(t, m, _) => t < recs && m < agents
    case DeleteAdd(t, _) => t < recs
    case _ => true
  }

  ghost predicate Refs(s: State)
  {
    && (forall i :: 0 <= i < |s.agents| ==> Refers(|s.recs|, |s.agents|, s.agents[i]))
    && (forall k :: k in s.tasks ==> s.tasks[k] < |s.recs|)
  }

  // ---------- the operation agent i performs next; None when the choice does not fit ----------

  predicate InHandle(a: Agent)
  {
    a.Pushing? || a.StartCheck? || a.StartStore? || a.StartArm? || a.StartPtr? || a.StartAdd?
  }

  predicate InRun(a: Agent)
  {
    a.Armed? || a.RunLoad? || a.RunInc? || a.RunCheck? || a.RunPush? || a.RunArm? || a.RunPtr?
  }

  predicate InDelete(a: Agent)
  {
    a.DeleteLoad? || a.DeletePtr? || a.DeleteStop? || a.DeleteAdd?
  }

  function Operation(s: State, i: nat, c: Choice): Option<Op>
    requires i < |s.agents| && Refers(|s.recs|, |s.agents|, s.agents[i])
  {
    var a := s.agents[i];
    if InHandle(a) then HandleOperation(s, i, c)
    else if InRun(a) then RunOperation(s, i, c)
    else if InDelete(a) then DeleteOperation(s, i)
    else CallOperation(s, i, c)
  }

  // BackendMsgHandler.Handle: the push loop, left at the first error, then the
  // deferred Manager.Start, which calls start for every connection.
  function HandleOperation(s: State, i: nat, c: Choice): Option<Op>
    requires i < |s.agents| && Refers(|s.recs|, |s.agents|, s.agents[i])
  {
    match s.agents[i]
    case Pushing(call, j) =>
      if j == |call.conns| then Some(Read(StartCheck(call, 0)))
      else if c.Go? then Some(Push(Attempt(Slot(i, j), None), Pushing(call, j + 1)))
      else if c.Fail? then Some(Push(Attempt(Slot(i, j), None), StartCheck(call, 0)))
      else None
    case StartCheck(call, j) =>
      if j == |call.conns| then Some(Read(Returned(call)))
      else if s.closed then Some(Read(NextConn(call, j)))
      else Some(Read(StartStore(call, j)))
    case StartStore(call, j) =>
      var key := Keys.TaskKey(call.conns[j], call.msgId);
      if key in s.tasks then Some(Read(NextConn(call, j)))
      else
        var task := Task(key, call.conns[j], call.msgId, Slot(i, j), 0, None, 0, 0, Registered);
        Some(Insert(task, StartArm(call, j, |s.recs|)))
    case StartArm(call, j, t) => Some(Arm(t, StartPtr(call, j, t, |s.agents|)))
    case StartPtr(call, j, t, m) => Some(SetPtr(t, m, StartAdd(call, j, t)))
    case StartAdd(call, j, t) => Some(AddTotal(t, NextConn(call, j)))
    case _ => None
  }

  // The timer fires, and Task.run.
  function RunOperation(s: State, i: nat, c: Choice): Option<Op>
    requires i < |s.agents| && Refers(|s.recs|, |s.agents|, s.agents[i])
  {
    match s.agents[i]
    case Armed(t) => Some(Read(RunLoad(t)))
    case RunLoad(t) => Some(Read(if s.recs[t].key in s.tasks then RunInc(t) else Done))
    case RunInc(t) => Some(Count(t, RunCheck(t)))
    case RunCheck(t) =>
      if s.recs[t].cnt >= s.max then Some(Read(DeleteLoad(s.recs[t].key, ByRun(t, Exhausted))))
      else Some(Read(RunPush(t)))
    case RunPush(t) =>
      var attempt := Attempt(s.recs[t].slot, Some(t));
      if c.Go? then Some(Push(attempt, RunArm(t)))
      else if c.Fail? then Some(Push(attempt, DeleteLoad(s.recs[t].key, ByRun(t, PushFailed))))
      else None
    case RunArm(t) => Some(Arm(t, RunPtr(t, |s.agents|)))
    case RunPtr(t, m) => Some(SetPtr(t, m, Done))
    case _ => None
  }

  // Manager.Stop, ClearByConn and Close, up to their calls of stopAndDelete.
  function CallOperation(s: State, i: nat, c: Choice): Option<Op>
    requires i < |s.agents| && Refers(|s.recs|, |s.agents|, s.agents[i])
  {
    match s.agents[i]
    case StopLoad(key) => Some(Read(if key in s.tasks then DeleteLoad(key, ByAck(key)) else Done))
    case ClearBegin(connId) => Some(Read(Ranging(ByClear(connId, Range(s.tasks, |s.recs|, {})))))
    case CloseSwap => if s.closed then Some(Read(Done)) else Some(Swap(CloseBegin))
    case CloseBegin => Some(Read(Ranging(ByClose(Range(s.tasks, |s.recs|, {})))))
    case Ranging(caller) =>
      if c.Visit? && Visitable(s, caller.range, c.key, c.task) then
        var caller' := Visited(caller, c.key);
        Some(Read(if Wants(caller, s.recs[c.task]) then DeleteLoad(c.key, caller') else Ranging(caller')))
      else if c.Finish? && MayEnd(s, caller.range) then Some(Read(Ended(caller)))
      else None
    case _ => None
  }

  // Manager.stopAndDelete with Task.stop.
  function DeleteOperation(s: State, i: nat): Option<Op>
    requires i < |s.agents| && Refers(|s.recs|, |s.agents|, s.agents[i])
  {
    match s.agents[i]
    case DeleteLoad(key, caller) =>
      if key in s.tasks then Some(Delete(key, caller, DeletePtr(s.tasks[key], caller)))
      else Some(Read(Resume(caller)))
    case DeletePtr(t, caller) =>
      Some(Read(match s.recs[t].timer
                case None => DeleteAdd(t, caller)
                case Some(m) => DeleteStop(t, m, caller)))
    case DeleteStop(t, m, caller) => Some(Disarm(m, DeleteAdd(t, caller)))
    case DeleteAdd(t, caller) => Some(SubTotal(t, Resume(caller)))
    case _ => None
  }

  // The calls the rest of the gateway makes into the protocol.
  predicate EntryPoint(a: Agent)
  {
    (a.Pushing? && a.idx == 0) || a.StopLoad? || a.ClearBegin? || a.CloseSwap?
  }

  datatype Move = Spawn(agent: Agent) | Act(idx: nat, choice: Choice)

  ghost predicate Acts(s: State, i: nat, c: Choice, s': State)
  {
    && i < |s.agents| && Refers(|s.recs|, |s.agents|, s.agents[i])
    && var op := Operation(s, i, c);
       op.Some? && Applicable(s, op.value) && s' == Perform(s, i, op.value)
  }

  function Spawned(s: State, a: Agent): State
  {
    s.(agents := s.agents + [a])
  }

  ghost predicate Takes(s: State, move: Move, s': State)
  {
    match move
    case Spawn(a) => EntryPoint(a) && s' == Spawned(s, a)
    case Act(i, c) => Acts(s, i, c, s')
  }

  // A run of the protocol: states[0] --moves[0]--> states[1] --moves[1]--> ...
  ghost predicate IsRun(states: seq<State>, moves: seq<Move>)
  {
    && |states| == |moves| + 1
    && forall n :: 0 <= n < |moves| ==> StepAt(states, moves, n)
  }

  ghost predicate StepAt(states: seq<State>, moves: seq<Move>, n: nat)
    requires n < |moves| < |states|
  {
    Takes(states[n], moves[n], states[n + 1])
  }
}
