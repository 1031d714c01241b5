// What every step of the retransmission protocol keeps.

module RetransmissionInvariant {
  import opened Common
  import opened Retransmission
  import opened RetransmissionSums
  import Keys

  // The map and the task records agree.
  ghost predicate Linked(s: State)
  {
    && (forall k :: k in s.tasks ==>
         && s.tasks[k] < |s.recs|
         && s.recs[s.tasks[k]].key == k
         && s.recs[s.tasks[k]].fate.Registered?)
    && (forall t :: 0 <= t < |s.recs| && s.recs[t].fate.Registered? ==>
         s.recs[t].key in s.tasks && s.tasks[s.recs[t].key] == t)
  }

  // timerPtr is nil or points to a timer of its task, perhaps a stale one; the
  // same holds of the timer a start, a run or a stop has in hand.
  ghost predicate Timers(s: State)
  {
    && (forall t :: 0 <= t < |s.recs| && s.recs[t].timer.Some? ==> TimerOf(s, s.recs[t].timer.value, t))
    && (forall i :: 0 <= i < |s.agents| && HoldsTimer(s.agents[i]) ==>
          TimerOf(s, s.agents[i].timer, s.agents[i].task))
  }

  predicate HoldsTimer(a: Agent)
  {
    a.StartPtr? || a.RunPtr? || a.DeleteStop?
  }

  predicate TimerOf(s: State, m: nat, t: nat)
  {
    m < |s.agents| && (s.agents[m].Armed? ==> s.agents[m].task == t)
  }

  // Every task has at most one callback source, every registered task exactly one.
  ghost predicate Sources(s: State)
  {
    forall t :: 0 <= t < |s.recs| ==>
      && 0 <= Sum(s.agents, SourceOf(t)) <= 1
      && (s.recs[t].fate.Registered? ==> Sum(s.agents, SourceOf(t)) == 1)
  }

  // Every task raises totalTaskCnt once, and lowers it once after its removal.
  ghost predicate Tallies(s: State)
  {
    forall t :: 0 <= t < |s.recs| ==>
      && s.recs[t].adds + Sum(s.agents, AddOf(t)) == 1
      && s.recs[t].subs + Sum(s.agents, DropOf(t)) == One(!s.recs[t].fate.Registered?)
  }

  ghost predicate Ledger(s: State)
  {
    s.total == |s.tasks| - Sum(s.agents, Adding) + Sum(s.agents, Dropping)
  }

  lemma FreshTask(s: State, t: nat)
    requires Refs(s) && t >= |s.recs|
    ensures Sum(s.agents, SourceOf(t)) == 0
    ensures Sum(s.agents, AddOf(t)) == 0
    ensures Sum(s.agents, DropOf(t)) == 0
  {
    forall i | 0 <= i < |s.agents|
      ensures Val(SourceOf(t), s.agents[i]) == 0
      ensures Val(AddOf(t), s.agents[i]) == 0
      ensures Val(DropOf(t), s.agents[i]) == 0
    {
      assert Refers(|s.recs|, |s.agents|, s.agents[i]);
    }
    SumZero(s.agents, SourceOf(t));
    SumZero(s.agents, AddOf(t));
    SumZero(s.agents, DropOf(t));
  }

  // ---------- what the operation of an agent does to the counts ----------

  ghost predicate OpIs(s: State, i: nat, c: Choice, op: Op)
  {
    && i < |s.agents| && Refers(|s.recs|, |s.agents|, s.agents[i])
    && Operation(s, i, c) == Some(op) && Applicable(s, op)
  }

  ghost predicate MapFacts(s: State, op: Op)
  {
    && (op.Insert? ==>
          && op.record.key !in s.tasks
          && op.record.key == Keys.TaskKey(op.record.connId, op.record.msgId)
          && op.record.fate.Registered?
          && op.record.adds == op.record.subs == op.record.cnt == 0
          && op.record.timer == None)
    && (op.Delete? ==> op.key in s.tasks)
  }

  ghost predicate TimerFacts(s: State, a: Agent, op: Op)
  {
    && !op.next.Armed?
    && (op.SetPtr? ==> (a.StartPtr? || a.RunPtr?) && op.task == a.task && op.timer == a.timer)
    && (op.Disarm? ==> a.DeleteStop? && op.timer == a.timer)
    && (HoldsTimer(op.next) ==>
          || (op.Arm? && op.next.timer == |s.agents| && op.next.task == op.task)
          || (op.next.task < |s.recs| && s.recs[op.next.task].timer == Some(op.next.timer)))
  }

  ghost predicate RefFacts(s: State, op: Op)
  {
    && Refers(|s.recs| + One(op.Insert?), |s.agents| + One(op.Arm?), op.next)
    && (op.Arm? ==> op.task < |s.recs|)
  }

  ghost predicate SourceFacts(s: State, a: Agent, op: Op, t: nat)
  {
    var d := Val(SourceOf(t), op.next) - Val(SourceOf(t), a) + (if op.Arm? then One(op.task == t) else 0);
    && (op.Insert? ==> d == One(t == |s.recs|))
    && (!op.Insert? ==> d <= 0)
    && (d < 0 && t < |s.recs| ==>
          s.recs[t].key !in s.tasks || (op.Delete? && op.key == s.recs[t].key))
  }

  ghost predicate TallyFacts(s: State, a: Agent, op: Op, t: nat)
    requires Applicable(s, op)
  {
    && Val(AddOf(t), op.next) - Val(AddOf(t), a)
       == (if op.Insert? then One(t == |s.recs|) else if op.AddTotal? then -One(t == op.task) else 0)
    && Val(DropOf(t), op.next) - Val(DropOf(t), a)
       == (if op.Delete? then One(t == s.tasks[op.key]) else if op.SubTotal? then -One(t == op.task) else 0)
  }

  ghost predicate LedgerFacts(a: Agent, op: Op)
  {
    && Val(Adding, op.next) - Val(Adding, a) == One(op.Insert?) - One(op.AddTotal?)
    && Val(Dropping, op.next) - Val(Dropping, a) == One(op.Delete?) - One(op.SubTotal?)
  }

  ghost predicate ShapeFacts(s: State, a: Agent, op: Op)
  {
    MapFacts(s, op) && TimerFacts(s, a, op) && RefFacts(s, op)
  }

  ghost predicate CountFacts(s: State, a: Agent, op: Op, t: nat)
    requires Applicable(s, op)
  {
    SourceFacts(s, a, op, t) && TallyFacts(s, a, op, t) && LedgerFacts(a, op)
  }

  // A run that gives up deletes the key of its own task.
  predicate DeletesOwnKey(s: State, a: Agent)
  {
    a.DeleteLoad? && a.caller.ByRun? ==> a.caller.task < |s.recs| && a.key == s.recs[a.caller.task].key
  }

  lemma HandleShape(s: State, i: nat, c: Choice, op: Op)
    requires OpIs(s, i, c, op) && InHandle(s.agents[i])
    ensures ShapeFacts(s, s.agents[i], op)
  {
  }

  lemma RunShape(s: State, i: nat, c: Choice, op: Op)
    requires OpIs(s, i, c, op) && InRun(s.agents[i])
    ensures ShapeFacts(s, s.agents[i], op)
  {
  }

  lemma DeleteShape(s: State, i: nat, c: Choice, op: Op)
    requires OpIs(s, i, c, op) && InDelete(s.agents[i]) && Timers(s)
    ensures ShapeFacts(s, s.agents[i], op)
  {
    if s.agents[i].DeletePtr? && s.recs[s.agents[i].task].timer.Some? {
      assert TimerOf(s, s.recs[s.agents[i].task].timer.value, s.agents[i].task);
    }
  }

  lemma CallShape(s: State, i: nat, c: Choice, op: Op)
    requires OpIs(s, i, c, op) && !InHandle(s.agents[i]) && !InRun(s.agents[i]) && !InDelete(s.agents[i])
    ensures ShapeFacts(s, s.agents[i], op)
  {
  }

  lemma HandleCounts(s: State, i: nat, c: Choice, op: Op, t: nat)
    requires OpIs(s, i, c, op) && InHandle(s.agents[i])
    ensures CountFacts(s, s.agents[i], op, t)
  {
  }

  lemma RunCounts(s: State, i: nat, c: Choice, op: Op, t: nat)
    requires OpIs(s, i, c, op) && InRun(s.agents[i])
    ensures CountFacts(s, s.agents[i], op, t)
  {
    var a := s.agents[i];
    if a.RunPush? || a.RunArm? || a.RunPtr? {
      LateRunCounts(s, i, c, op, t);
    } else {
      EarlyRunCounts(s, i, c, op, t);
    }
  }

  lemma EarlyRunCounts(s: State, i: nat, c: Choice, op: Op, t: nat)
    requires OpIs(s, i, c, op)
    requires var a := s.agents[i]; a.Armed? || a.RunLoad? || a.RunInc? || a.RunCheck?
    ensures CountFacts(s, s.agents[i], op, t)
  {
  }

  lemma LateRunCounts(s: State, i: nat, c: Choice, op: Op, t: nat)
    requires OpIs(s, i, c, op)
    requires var a := s.agents[i]; a.RunPush? || a.RunArm? || a.RunPtr?
    ensures CountFacts(s, s.agents[i], op, t)
  {
  }

  lemma DeleteCounts(s: State, i: nat, c: Choice, op: Op, t: nat)
    requires OpIs(s, i, c, op) && InDelete(s.agents[i])
    requires DeletesOwnKey(s, s.agents[i])
    ensures CountFacts(s, s.agents[i], op, t)
  {
  }

  lemma CallCounts(s: State, i: nat, c: Choice, op: Op, t: nat)
    requires OpIs(s, i, c, op) && !InHandle(s.agents[i]) && !InRun(s.agents[i]) && !InDelete(s.agents[i])
    ensures CountFacts(s, s.agents[i], op, t)
  {
  }

  // ---------- the invariants, one operation at a time ----------

  lemma KeepRefs(s: State, i: nat, op: Op)
    requires i < |s.agents| && Applicable(s, op) && Refs(s) && RefFacts(s, op)
    ensures Refs(Perform(s, i, op))
  {
    var s' := Perform(s, i, op);
    forall j | 0 <= j < |s'.agents|
      ensures Refers(|s'.recs|, |s'.agents|, s'.agents[j])
    {
      if j < |s.agents| {
        assert Refers(|s.recs|, |s.agents|, s.agents[j]);
      }
    }
  }

  lemma KeepLinked(s: State, i: nat, op: Op)
    requires i < |s.agents| && Applicable(s, op) && Linked(s) && MapFacts(s, op)
    ensures Linked(Perform(s, i, op))
  {
  }

  lemma KeepTimers(s: State, i: nat, op: Op)
    requires i < |s.agents| && Applicable(s, op) && MapFacts(s, op) && TimerFacts(s, s.agents[i], op)
    requires Timers(s)
    ensures Timers(Perform(s, i, op))
  {
    var s' := Perform(s, i, op);
    forall m, t | TimerOf(s, m, t)
      ensures TimerOf(s', m, t)
    {
    }
    forall j | 0 <= j < |s'.agents| && HoldsTimer(s'.agents[j])
      ensures TimerOf(s', s'.agents[j].timer, s'.agents[j].task)
    {
      if j != i {
        assert j < |s.agents| && s'.agents[j] == s.agents[j];
      }
    }
  }

  lemma TaskMapSize(s: State, op: Op)
    requires op.Insert? ==> op.record.key !in s.tasks
    requires op.Delete? ==> op.key in s.tasks
    ensures |NewTasks(s, op)| == |s.tasks| + One(op.Insert?) - One(op.Delete?)
  {
    if op.Delete? {
      assert s.tasks.Keys == NewTasks(s, op).Keys + {op.key};
    }
    if op.Insert? {
      assert NewTasks(s, op).Keys == s.tasks.Keys + {op.record.key};
    }
  }

  lemma KeepLedger(s: State, i: nat, op: Op)
    requires i < |s.agents| && Applicable(s, op) && MapFacts(s, op) && LedgerFacts(s.agents[i], op)
    requires op.Disarm? ==> !s.agents[i].Armed?
    requires Ledger(s)
    ensures Ledger(Perform(s, i, op))
  {
    PerformSums(s, i, op, Adding);
    PerformSums(s, i, op, Dropping);
    TaskMapSize(s, op);
  }

  // How an operation changes the record of a task.
  lemma RecordChange(s: State, op: Op, t: nat)
    requires Applicable(s, op) && t < |s.recs|
    ensures |NewRecs(s, op)| == |s.recs| + One(op.Insert?)
    ensures var old', new' := s.recs[t], NewRecs(s, op)[t];
            && new'.key == old'.key && new'.connId == old'.connId && new'.msgId == old'.msgId && new'.slot == old'.slot
            && new'.adds == old'.adds + One(op.AddTotal? && op.task == t)
            && new'.subs == old'.subs + One(op.SubTotal? && op.task == t)
            && new'.cnt == (if op.Count? && op.task == t then Inc32(old'.cnt) else old'.cnt)
            && new'.fate == (if op.Delete? && s.tasks[op.key] == t then Removed(op.caller) else old'.fate)
  {
  }

  // Counts that no timer matters for.
  lemma SumChange(s: State, i: nat, op: Op, q: Query)
    requires i < |s.agents| && Applicable(s, op) && (op.Disarm? ==> !s.agents[i].Armed?)
    requires !q.SourceOf? && q != Inserts
    ensures Sum(NewAgents(s, i, op), q) == Sum(s.agents, q) + Val(q, op.next) - Val(q, s.agents[i])
  {
    PerformSums(s, i, op, q);
  }

  lemma KeepTally(s: State, i: nat, op: Op, t: nat)
    requires Refs(s) && i < |s.agents| && Applicable(s, op) && Linked(s)
    requires MapFacts(s, op) && (op.Disarm? ==> !s.agents[i].Armed?) && TallyFacts(s, s.agents[i], op, t)
    requires Tallies(s)
    ensures var recs, agents := NewRecs(s, op), NewAgents(s, i, op);
            t < |recs| ==>
              && recs[t].adds + Sum(agents, AddOf(t)) == 1
              && recs[t].subs + Sum(agents, DropOf(t)) == One(!recs[t].fate.Registered?)
  {
    SumChange(s, i, op, AddOf(t));
    SumChange(s, i, op, DropOf(t));
    if t < |s.recs| {
      RecordChange(s, op, t);
    } else {
      FreshTask(s, t);
    }
  }

  lemma KeepSource(s: State, i: nat, op: Op, t: nat)
    requires Refs(s) && i < |s.agents| && Applicable(s, op) && Linked(s)
    requires MapFacts(s, op) && TimerFacts(s, s.agents[i], op) && SourceFacts(s, s.agents[i], op, t)
    requires Sources(s) && Tallies(s) && Timers(s)
    ensures var recs, agents := NewRecs(s, op), NewAgents(s, i, op);
            t < |recs| ==>
              && 0 <= Sum(agents, SourceOf(t)) <= 1
              && (recs[t].fate.Registered? ==> Sum(agents, SourceOf(t)) == 1)
  {
    PerformSums(s, i, op, SourceOf(t));
    SumNonNegative(NewAgents(s, i, op), SourceOf(t));
    if t < |s.recs| {
      RecordChange(s, op, t);
    } else {
      FreshTask(s, t);
    }
    if op.Disarm? && s.agents[op.timer].Armed? {
      // the deleter has a removed task in hand, so the timer it stops is of a removed task
      SumAtLeast(s.agents, i, DropOf(s.agents[i].task));
    }
  }
}
