// What the retransmission protocol promises, for every reachable state and every run.

module RetransmissionTheorems {
  import opened Common
  import opened Retransmission
  import opened RetransmissionSums
  import opened RetransmissionInvariant
  import opened RetransmissionCounts
  import opened RetransmissionSlots
  import opened RetransmissionHistory
  import opened RetransmissionRuns
  import opened RetransmissionSafety
  import opened RetransmissionDrain
  import Keys

  // ---------- one callback source per task ----------

  // No two agents can both lead to a callback of the same task, and a task that is
  // in the map always has the one agent that will call it back.
  lemma OneCallbackSource(s: State, t: nat)
    requires Reachable(s) && t < |s.recs|
    ensures forall i, j ::
              0 <= i < |s.agents| && 0 <= j < |s.agents| && IsSource(s.agents[i], t) && IsSource(s.agents[j], t) ==>
              i == j
    ensures s.recs[t].key in s.tasks && s.tasks[s.recs[t].key] == t ==>
              exists i :: 0 <= i < |s.agents| && IsSource(s.agents[i], t)
  {
    ReachableInv(s);
    forall i, j | 0 <= i < |s.agents| && 0 <= j < |s.agents| && IsSource(s.agents[i], t) && IsSource(s.agents[j], t)
      ensures i == j
    {
      SourceTaskIsSource(s.agents[i], t);
      SourceTaskIsSource(s.agents[j], t);
      OneSource(s, i, j, t);
    }
    if s.recs[t].key in s.tasks && s.tasks[s.recs[t].key] == t {
      var i := SumWitness(s.agents, SourceOf(t));
      assert IsSource(s.agents[i], t);
    }
  }

  // ---------- the task counter ----------

  // totalTaskCnt is the size of the map, up to the starts and deleters that are
  // between their map operation and their counter operation.
  lemma TotalTaskCount(s: State)
    requires Reachable(s)
    ensures s.total == |s.tasks| - Sum(s.agents, Adding) + Sum(s.agents, Dropping)
    ensures (forall i :: 0 <= i < |s.agents| ==> Val(Adding, s.agents[i]) == Val(Dropping, s.agents[i]) == 0) ==>
              s.total == |s.tasks|
  {
    ReachableInv(s);
    if forall i :: 0 <= i < |s.agents| ==> Val(Adding, s.agents[i]) == Val(Dropping, s.agents[i]) == 0 {
      SumZero(s.agents, Adding);
      SumZero(s.agents, Dropping);
    }
  }

  // No task is counted or uncounted twice, whoever removes it, and only a task
  // that is out of the map is ever uncounted.
  lemma CountedOnce(s: State, t: nat)
    requires Reachable(s) && t < |s.recs|
    ensures s.recs[t].adds <= 1 && s.recs[t].subs <= 1
    ensures s.recs[t].subs == 1 ==> !(s.recs[t].key in s.tasks && s.tasks[s.recs[t].key] == t)
  {
    ReachableInv(s);
    SumNonNegative(s.agents, AddOf(t));
    SumNonNegative(s.agents, DropOf(t));
  }

  // ---------- bounded sending ----------

  lemma AttemptsWithin(s: State, slot: Slot)
    requires Reachable(s)
    ensures Tally(s.log, AllOf(slot)) <= s.max
  {
    ReachableInv(s);
    assert FirstPushes(s, slot);
    if t :| 0 <= t < |s.recs| && s.recs[t].slot == slot {
      assert Bounded(s, t);
    } else {
      assert forall t :: 0 <= t < |s.recs| ==> s.recs[t].slot != slot;
    }
  }

  lemma CounterWithin(s: State, t: nat)
    requires Reachable(s) && t < |s.recs|
    ensures 0 <= s.recs[t].cnt <= s.max <= MAX_INT32 && Sent(s, t) <= s.max - 1
    ensures s.recs[t].fate == Removed(ByRun(t, Exhausted)) ==> Sent(s, t) == s.max - 1
  {
    ReachableInv(s);
    assert Bounded(s, t);
  }

  // A Handle call makes at most maxRetryCnt push attempts for each of its targets, the
  // first push and all retransmissions together; three when it was given no such number.
  lemma BoundedAttempts(maxRetryCnt: int, states: seq<State>, moves: seq<Move>, slot: Slot)
    requires IsHistory(maxRetryCnt, states, moves)
    ensures Tally(states[|moves|].log, AllOf(slot)) <= if maxRetryCnt <= 0 then 3 else maxRetryCnt
  {
    LimitOfHistory(maxRetryCnt, states, moves);
    AttemptsWithin(states[|moves|], slot);
  }

  // The 32-bit counter never passes the limit, so it never wraps around.
  lemma BoundedRetransmissions(maxRetryCnt: int, states: seq<State>, moves: seq<Move>, t: nat)
    requires IsHistory(maxRetryCnt, states, moves) && t < |states[|moves|].recs|
    ensures var s, limit := states[|moves|], if maxRetryCnt <= 0 then 3 else maxRetryCnt;
            0 <= s.recs[t].cnt <= limit <= MAX_INT32 && Sent(s, t) <= limit - 1
  {
    LimitOfHistory(maxRetryCnt, states, moves);
    CounterWithin(states[|moves|], t);
  }

  // A task that nobody stopped and whose pushes succeeded ends by exhausting its
  // retries; it has then been retransmitted exactly one time less than the limit.
  lemma ExhaustedTasksSentAll(maxRetryCnt: int, states: seq<State>, moves: seq<Move>, t: nat)
    requires IsHistory(maxRetryCnt, states, moves) && t < |states[|moves|].recs|
    requires states[|moves|].recs[t].fate == Removed(ByRun(t, Exhausted))
    ensures Sent(states[|moves|], t) == (if maxRetryCnt <= 0 then 3 else maxRetryCnt) - 1
  {
    LimitOfHistory(maxRetryCnt, states, moves);
    CounterWithin(states[|moves|], t);
  }

  // A callback that has not sent anything yet pushes, unless only one attempt is allowed.
  lemma FirstFirePushes(s: State, i: nat)
    requires Reachable(s) && i < |s.agents| && s.agents[i].RunCheck?
    requires s.agents[i].task < |s.recs| && Sent(s, s.agents[i].task) == 0
    ensures Operation(s, i, Go)
         == if s.max >= 2 then Some(Read(RunPush(s.agents[i].task)))
            else Some(Read(DeleteLoad(s.recs[s.agents[i].task].key, ByRun(s.agents[i].task, Exhausted))))
  {
    hide Reachable, HandleOperation, DeleteOperation, CallOperation;
    ReachableInv(s);
    assert SourceTask(s.agents[i]) == Some(s.agents[i].task);
    hide Linked, Timers, Sources, Tallies, Ledger, Slots, Attempts, History;
  }

  // ---------- acks and disconnects hit their own tasks ----------

  // An ack of user u for message m removes no task but the one of u and m.
  lemma AckRemovesItsOwnTask(s: State, t: nat, u: Keys.User, m: string, v: Keys.User)
    requires Reachable(s) && t < |s.recs|
    requires Keys.ColonFree(u.device) && Keys.ColonFree(v.device)
    requires s.recs[t].connId == Keys.ConnID(v)
    requires s.recs[t].fate == Removed(ByAck(Keys.TaskKey(Keys.ConnID(u), m)))
    ensures u == v && s.recs[t].msgId == m
  {
    ReachableInv(s);
    assert OwnsSlot(s, t);
    Keys.TaskKeyInjective(u, m, v, s.recs[t].msgId);
  }

  // ClearByConn removes tasks of no other connection.
  lemma ClearRemovesItsOwnTasks(s: State, t: nat, u: Keys.User, r: Range, v: Keys.User)
    requires Reachable(s) && t < |s.recs|
    requires Keys.ColonFree(u.device) && Keys.ColonFree(v.device)
    requires s.recs[t].connId == Keys.ConnID(v)
    requires s.recs[t].fate == Removed(ByClear(Keys.ConnID(u), r))
    ensures u == v
  {
    ReachableInv(s);
    assert OwnsSlot(s, t);
    assert CallerKnows(s.recs, s.recs[t].fate.remover, s.recs[t].key);
    var m :| s.recs[t].key == Keys.TaskKey(Keys.ConnID(u), m);
    Keys.TaskKeyInjective(u, m, v, s.recs[t].msgId);
  }

  // When ClearByConn returns, every task of the connection that was in the map
  // when its Range began is out of it.
  lemma ClearSweeps(s: State, i: nat, connId: string, r: Range, k: string)
    requires Reachable(s) && i < |s.agents| && s.agents[i] == Ended(ByClear(connId, r))
    requires k in r.snap && r.snap[k] < |s.recs| && s.recs[r.snap[k]].connId == connId
    ensures !(k in s.tasks && s.tasks[k] == r.snap[k])
  {
    ReachableInv(s);
    assert HistoryOk(s.recs, s.agents[i]);
  }

  // When Close returns, whatever is in the map was put there after its Range began.
  lemma CloseSweeps(s: State, i: nat, r: Range, k: string)
    requires Reachable(s) && i < |s.agents| && s.agents[i] == Ended(ByClose(r))
    requires k in s.tasks
    ensures s.tasks[k] >= r.born
  {
    ReachableInv(s);
    assert HistoryOk(s.recs, s.agents[i]);
  }

  // ---------- after Close ----------

  // A closed manager stays closed, and no agent comes to stand before its LoadOrStore.
  lemma ClosedAct(s: State, i: nat, c: Choice, op: Op)
    requires OpIs(s, i, c, op) && s.closed
    ensures !op.next.StartStore?
    ensures op.Insert? ==> s.agents[i].StartStore? && op.record.slot == Slot(i, s.agents[i].idx)
  {
  }

  // The starts that may still store were there before, and so were the ones that have
  // stored a task since.
  ghost predicate OldStarts(s0: State, s: State)
  {
    && |s0.recs| <= |s.recs| && |s0.agents| <= |s.agents|
    && (forall i :: 0 <= i < |s.agents| && s.agents[i].StartStore? ==> i < |s0.agents| && s0.agents[i] == s.agents[i])
    && (forall t :: |s0.recs| <= t < |s.recs| ==> StoodToStore(s0, s.recs[t].slot))
  }

  ghost predicate StoodToStore(s0: State, slot: Slot)
  {
    slot.call < |s0.agents| && s0.agents[slot.call].StartStore? && s0.agents[slot.call].idx == slot.idx
  }

  lemma OldStartsAct(s0: State, s: State, i: nat, c: Choice, op: Op)
    requires OpIs(s, i, c, op) && s.closed && OldStarts(s0, s)
    ensures OldStarts(s0, Perform(s, i, op))
  {
    ClosedAct(s, i, c, op);
    forall t | 0 <= t < |s.recs|
      ensures |NewRecs(s, op)| >= |s.recs| && NewRecs(s, op)[t].slot == s.recs[t].slot
    {
      RecordChange(s, op, t);
    }
    hide Operation, OpIs;
  }

  lemma ClosedStep(s0: State, s: State, move: Move, s': State)
    requires Inv(s) && Takes(s, move, s') && s.closed && OldStarts(s0, s)
    ensures s'.closed && OldStarts(s0, s')
    ensures |s'.recs| + Sum(s'.agents, AtStore) <= |s.recs| + Sum(s.agents, AtStore)
  {
    match move
    case Spawn(a) => SumAppend(s.agents, a, AtStore);
    case Act(i, c) =>
      ActDrops(s, i, c, s');
      OldStartsAct(s0, s, i, c, Operation(s, i, c).value);
  }

  ghost predicate ClosedAt(states: seq<State>, n: nat, bound: int)
  {
    && n < |states| && states[n].closed && OldStarts(states[0], states[n])
    && |states[n].recs| + Sum(states[n].agents, AtStore) <= bound
  }

  lemma StaysClosed(states: seq<State>, moves: seq<Move>, bound: int, n: nat)
    requires IsRun(states, moves) && InvAt(states, 0) && ClosedAt(states, 0, bound) && n < |states|
    ensures InvAt(states, n) && ClosedAt(states, n, bound)
  {
    forall m: nat | m < |moves| && StepAt(states, moves, m) && InvAt(states, m) && ClosedAt(states, m, bound)
      ensures InvAt(states, m + 1) && ClosedAt(states, m + 1, bound)
    {
      StepInv(states[m], moves[m], states[m + 1]);
      ClosedStep(states[0], states[m], moves[m], states[m + 1]);
    }
    RunInduction(states, moves, m => InvAt(states, m) && ClosedAt(states, m, bound), n);
  }

  // Once the manager is closed only a start that has already read closed as false,
  // and stands before its LoadOrStore, can still put a task into the map: every late
  // task is the one such a start was about to store, and there are no more of them.
  lemma LateTasks(states: seq<State>, moves: seq<Move>)
    requires IsRun(states, moves) && Reachable(states[0]) && states[0].closed
    ensures states[|moves|].closed
    ensures |states[|moves|].recs| - |states[0].recs| <= Sum(states[0].agents, AtStore)
    ensures forall t :: |states[0].recs| <= t < |states[|moves|].recs| ==>
              StoodToStore(states[0], states[|moves|].recs[t].slot)
  {
    ReachableInv(states[0]);
    StaysClosed(states, moves, |states[0].recs| + Sum(states[0].agents, AtStore), |moves|);
    StoresAreInserts(states[|moves|].agents, |states[|moves|].recs|, |states[|moves|].agents|);
  }

  // ---------- after a removal ----------

  // The key of task t is not in the map.
  ghost predicate Retired(s: State, t: nat)
  {
    t < |s.recs| && s.recs[t].key !in s.tasks
  }

  // A callback of a retired task can push only if it is past its load check.
  lemma RetiredOperation(s: State, i: nat, c: Choice, op: Op, t: nat)
    requires OpIs(s, i, c, op) && t < |s.recs| && s.recs[t].key !in s.tasks
    ensures (if op.Push? then Hits(SentBy(t), op.attempt) else 0) + Val(PastCheck(t), op.next)
         <= Val(PastCheck(t), s.agents[i])
  {
    if InRun(s.agents[i]) {
      RetiredRun(s, i, c, op, t);
    } else if InHandle(s.agents[i]) {
      RetiredHandle(s, i, c, op, t);
    }
  }

  lemma RetiredRun(s: State, i: nat, c: Choice, op: Op, t: nat)
    requires i < |s.agents| && Refers(|s.recs|, |s.agents|, s.agents[i]) && InRun(s.agents[i])
    requires RunOperation(s, i, c) == Some(op) && t < |s.recs| && s.recs[t].key !in s.tasks
    ensures (if op.Push? then Hits(SentBy(t), op.attempt) else 0) + Val(PastCheck(t), op.next)
         <= Val(PastCheck(t), s.agents[i])
  {
  }

  lemma RetiredHandle(s: State, i: nat, c: Choice, op: Op, t: nat)
    requires i < |s.agents| && Refers(|s.recs|, |s.agents|, s.agents[i]) && InHandle(s.agents[i])
    requires HandleOperation(s, i, c) == Some(op)
    ensures (if op.Push? then Hits(SentBy(t), op.attempt) else 0) + Val(PastCheck(t), op.next) == 0
  {
  }

  lemma RetiredAct(s: State, i: nat, c: Choice, s': State, t: nat)
    requires Inv(s) && Acts(s, i, c, s') && Retired(s, t)
    ensures Sent(s', t) + Sum(s'.agents, PastCheck(t)) <= Sent(s, t) + Sum(s.agents, PastCheck(t))
  {
    var op := Operation(s, i, c).value;
    OperationFacts(s, i, c, op);
    RetiredOperation(s, i, c, op, t);
    PerformSent(s, i, op, t);
    SumChange(s, i, op, PastCheck(t));
  }

  lemma RetiredTake(s: State, move: Move, s': State, t: nat)
    requires Inv(s) && Takes(s, move, s') && Retired(s, t)
    ensures Sent(s', t) + Sum(s'.agents, PastCheck(t)) <= Sent(s, t) + Sum(s.agents, PastCheck(t))
  {
    hide Inv, Tally;
    match move
    case Spawn(a) => SumAppend(s.agents, a, PastCheck(t));
    case Act(i, c) => RetiredAct(s, i, c, s', t);
  }

  ghost predicate SilentAt(states: seq<State>, n: int, t: nat, bound: int)
  {
    0 <= n < |states| && Sent(states[n], t) + Sum(states[n].agents, PastCheck(t)) <= bound
  }

  ghost predicate RetiredAt(states: seq<State>, n: int, t: nat)
  {
    0 <= n < |states| && Retired(states[n], t)
  }

  lemma StaysSilent(states: seq<State>, moves: seq<Move>, t: nat, bound: int)
    requires IsRun(states, moves) && InvAt(states, 0) && SilentAt(states, 0, t, bound)
    requires forall m :: 0 <= m < |states| ==> RetiredAt(states, m, t)
    ensures SilentAt(states, |moves|, t, bound)
  {
    forall m: nat | m < |moves| && StepAt(states, moves, m) && InvAt(states, m) && SilentAt(states, m, t, bound)
      ensures InvAt(states, m + 1) && SilentAt(states, m + 1, t, bound)
    {
      assert RetiredAt(states, m, t);
      StepInv(states[m], moves[m], states[m + 1]);
      RetiredTake(states[m], moves[m], states[m + 1], t);
    }
    RunInduction(states, moves, m => InvAt(states, m) && SilentAt(states, m, t, bound), |moves|);
  }

  // After a task was taken out of the map, by an ack or otherwise, at most one more
  // retransmission of it happens, as long as its key is not in the map again.
  lemma SilentWhileRetired(states: seq<State>, moves: seq<Move>, t: nat)
    requires IsRun(states, moves) && Reachable(states[0])
    requires forall m :: 0 <= m < |states| ==> Retired(states[m], t)
    ensures Sent(states[|moves|], t) <= Sent(states[0], t) + 1
  {
    ReachableInv(states[0]);
    var agents := states[0].agents;
    assert Retired(states[0], t);
    assert forall m :: 0 <= m < |states| ==> Retired(states[m], t) == RetiredAt(states, m, t);
    PastChecksAreSources(agents, t);
    StaysSilent(states, moves, t, Sent(states[0], t) + 1);
    SumNonNegative(states[|moves|].agents, PastCheck(t));
  }

  lemma {:induction false} PastChecksAreSources(agents: seq<Agent>, t: nat)
    ensures Sum(agents, PastCheck(t)) <= Sum(agents, SourceOf(t))
  {
    if agents != [] {
      PastChecksAreSources(agents[..|agents| - 1], t);
    }
  }

  // ---------- coming to rest ----------

  ghost predicate Quiet(s: State)
  {
    forall i, c, s' :: !Acts(s, i, c, s')
  }

  predicate Finished(a: Agent)
  {
    a.Returned? || a.Disarmed? || a.Ended? || a.Done?
  }

  lemma RangeChoice(s: State, caller: Caller) returns (c: Choice)
    requires Refs(s) && (caller.ByClear? || caller.ByClose?) && RangeOk(s.recs, caller.range)
    ensures if c.Visit? then Visitable(s, caller.range, c.key, c.task) else c == Finish && MayEnd(s, caller.range)
  {
    var r := caller.range;
    if MayEnd(s, r) {
      c := Finish;
    } else {
      var k :| k in r.snap && k !in r.visited && k in s.tasks && s.tasks[k] == r.snap[k];
      c := Visit(k, r.snap[k]);
    }
  }

  lemma HasOperation(s: State, i: nat, c: Choice)
    requires i < |s.agents| && Refers(|s.recs|, |s.agents|, s.agents[i]) && !Finished(s.agents[i])
    requires forall k :: k in s.tasks ==> s.tasks[k] < |s.recs|
    requires if s.agents[i].Ranging? then
               var r := s.agents[i].caller.range;
               if c.Visit? then Visitable(s, r, c.key, c.task) else c == Finish && MayEnd(s, r)
             else c == Go
    ensures Operation(s, i, c).Some? && Applicable(s, Operation(s, i, c).value)
  {
  }

  lemma CanMove(s: State, i: nat)
    requires Refs(s) && History(s) && i < |s.agents| && !Finished(s.agents[i])
    ensures exists c, s' :: Acts(s, i, c, s')
  {
    assert Refers(|s.recs|, |s.agents|, s.agents[i]);
    assert HistoryOk(s.recs, s.agents[i]);
    var c := Go;
    if s.agents[i].Ranging? {
      c := RangeChoice(s, s.agents[i].caller);
    }
    HasOperation(s, i, c);
    assert Acts(s, i, c, Perform(s, i, Operation(s, i, c).value));
  }

  lemma AllFinished(s: State)
    requires Reachable(s) && Quiet(s)
    ensures forall i :: 0 <= i < |s.agents| ==> Finished(s.agents[i])
  {
    hide Reachable, Acts, Finished;
    ReachableInv(s);
    forall i | 0 <= i < |s.agents|
      ensures Finished(s.agents[i])
    {
      if !Finished(s.agents[i]) {
        CanMove(s, i);
        assert false;
      }
    }
  }

  // When nothing is left to do the map is empty, no timer is armed, the counter is
  // zero, and every task was counted and uncounted exactly once.
  lemma RestMeansEmpty(s: State)
    requires Reachable(s) && Quiet(s)
    ensures s.tasks == map[] && s.total == 0
    ensures forall i :: 0 <= i < |s.agents| ==> !s.agents[i].Armed?
    ensures forall t :: 0 <= t < |s.recs| ==> s.recs[t].adds == 1 && s.recs[t].subs == 1
  {
    hide Reachable, Quiet;
    ReachableInv(s);
    AllFinished(s);
    hide Timers, Counts, Slots, Attempts, History;
    SumZero(s.agents, Adding);
    SumZero(s.agents, Dropping);
    forall t | 0 <= t < |s.recs|
      ensures s.recs[t].fate.Removed? && s.recs[t].adds == 1 && s.recs[t].subs == 1
    {
      FinishedTask(s, t);
    }
    assert s.tasks.Keys == {};
  }

  lemma FinishedTask(s: State, t: nat)
    requires Sources(s) && Tallies(s) && t < |s.recs|
    requires forall i :: 0 <= i < |s.agents| ==> Finished(s.agents[i])
    ensures s.recs[t].fate.Removed? && s.recs[t].adds == 1 && s.recs[t].subs == 1
  {
    SumZero(s.agents, SourceOf(t));
    SumZero(s.agents, AddOf(t));
    SumZero(s.agents, DropOf(t));
  }

  // What a new call may add to the steps still to come.
  function Cost(room: nat, move: Move): nat
  {
    if move.Act? then 0
    else
      match move.agent
      case Pushing(call, _) => 3 * |call.conns| + 2
      case StopLoad(_) => 6
      case _ => 8 * room + 4
  }

  function Costs(room: nat, moves: seq<Move>): nat
  {
    if moves == [] then 0 else Costs(room, moves[..|moves| - 1]) + Cost(room, moves[|moves| - 1])
  }

  // The steps of a run that are not new calls.
  function StepCount(moves: seq<Move>): nat
  {
    if moves == [] then 0
    else StepCount(moves[..|moves| - 1]) + (if moves[|moves| - 1].Act? then 1 else 0)
  }

  // Acks, disconnects and Close may come at any time, Handle calls only after Close.
  ghost predicate NoNewTargets(states: seq<State>, moves: seq<Move>)
    requires |moves| < |states|
  {
    forall n :: 0 <= n < |moves| && moves[n].Spawn? && moves[n].agent.Pushing? ==> states[n].closed
  }

  lemma {:induction false} TimesTwo(n: nat)
    ensures Times(n, 2) == 2 * n
  {
    if n > 0 {
      TimesTwo(n - 1);
    }
  }

  lemma EntryCosts(s: State, a: Agent, room: nat)
    requires EntryPoint(a) && (a.Pushing? ==> s.closed) && Room(s) <= room
    ensures Weight(ScaleOf(s), s.recs, a) <= Cost(room, Spawn(a))
  {
    hide Sum;
    if a.Pushing? {
      TimesTwo(|a.call.conns|);
    }
  }

  lemma SpawnPotential(s: State, a: Agent, room: nat)
    requires EntryPoint(a) && (a.Pushing? ==> s.closed) && Room(s) <= room
    ensures Potential(Spawned(s, a)) <= Potential(s) + Cost(room, Spawn(a))
    ensures Room(Spawned(s, a)) == Room(s)
  {
    hide Total, Weight, Cost, Sum;
    SumAppend(s.agents, a, Inserts);
    SumAppend(s.agents, a, AtStore);
    assert ScaleOf(Spawned(s, a)) == ScaleOf(s) && Room(Spawned(s, a)) == Room(s);
    hide ScaleOf, Room;
    TotalAppend(ScaleOf(s), s.recs, s.agents, a);
    EntryCosts(s, a, room);
  }

  ghost predicate PaidAt(states: seq<State>, moves: seq<Move>, n: nat, room: nat)
  {
    && n <= |moves| && n < |states| && Room(states[n]) <= room
    && StepCount(moves[..n]) + Potential(states[n]) <= Potential(states[0]) + Costs(room, moves[..n])
  }

  lemma PaidStep(states: seq<State>, moves: seq<Move>, n: nat, room: nat)
    requires n < |moves| < |states| && StepAt(states, moves, n) && InvAt(states, n)
    requires moves[n].Spawn? && moves[n].agent.Pushing? ==> states[n].closed
    requires PaidAt(states, moves, n, room)
    ensures PaidAt(states, moves, n + 1, room)
  {
    assert moves[..n + 1][..n] == moves[..n];
    match moves[n]
    case Spawn(a) => SpawnPotential(states[n], a, room);
    case Act(i, c) => ActDrops(states[n], i, c, states[n + 1]);
  }

  lemma AllPaid(states: seq<State>, moves: seq<Move>, room: nat)
    requires IsRun(states, moves) && InvAt(states, 0) && NoNewTargets(states, moves) && Room(states[0]) <= room
    ensures PaidAt(states, moves, |moves|, room)
  {
    forall m: nat | m < |moves| && StepAt(states, moves, m) && InvAt(states, m) && PaidAt(states, moves, m, room)
      ensures InvAt(states, m + 1) && PaidAt(states, moves, m + 1, room)
    {
      StepInv(states[m], moves[m], states[m + 1]);
      PaidStep(states, moves, m, room);
    }
    RunInduction(states, moves, m => InvAt(states, m) && PaidAt(states, moves, m, room), |moves|);
  }

  // Every run comes to rest: as long as no new targets come in, or the manager is
  // closed, the number of its steps is bounded by the potential it started with and
  // the costs of the calls made meanwhile.
  lemma RunsComeToRest(states: seq<State>, moves: seq<Move>)
    requires IsRun(states, moves) && Reachable(states[0]) && NoNewTargets(states, moves)
    ensures StepCount(moves) <= Potential(states[0]) + Costs(NonNegative(Room(states[0])), moves)
  {
    ReachableInv(states[0]);
    AllPaid(states, moves, NonNegative(Room(states[0])));
    assert moves[..|moves|] == moves;
  }

  // After Close, whatever calls still come in: the run is bounded, and when nothing can
  // move any more the map is empty, nothing is armed and the counter is zero.
  lemma CloseDrains(states: seq<State>, moves: seq<Move>)
    requires IsRun(states, moves) && Reachable(states[0]) && states[0].closed
    ensures StepCount(moves) <= Potential(states[0]) + Costs(NonNegative(Room(states[0])), moves)
    ensures var s := states[|moves|];
            Quiet(s) ==> s.tasks == map[] && s.total == 0 && forall i :: 0 <= i < |s.agents| ==> !s.agents[i].Armed?
  {
    ReachableInv(states[0]);
    var bound := |states[0].recs| + Sum(states[0].agents, AtStore);
    forall n | 0 <= n < |moves| && moves[n].Spawn? && moves[n].agent.Pushing?
      ensures states[n].closed
    {
      StaysClosed(states, moves, bound, n);
    }
    RunsComeToRest(states, moves);
    StaysReachable(states, moves);
    if Quiet(states[|moves|]) {
      RestMeansEmpty(states[|moves|]);
    }
  }

  // From every reachable state the agents, left to themselves, come to rest.
  lemma {:induction false} RestIsReachable(s: State) returns (states: seq<State>, moves: seq<Move>)
    requires Reachable(s)
    ensures IsRun(states, moves) && states[0] == s && Quiet(states[|moves|])
    ensures forall n :: 0 <= n < |moves| ==> moves[n].Act?
    decreases Potential(s)
  {
    states, moves := [s], [];
    if i, c, s' :| Acts(s, i, c, s') {
      ReachableInv(s);
      ActDrops(s, i, c, s');
      ReachableStep(s, Act(i, c), s');
      var rest, more := RestIsReachable(s');
      states, moves := [s] + rest, [Act(i, c)] + more;
      ConsRun(s, Act(i, c), rest, more);
    }
  }
}
