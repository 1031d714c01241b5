// Safety of the retransmission protocol over whole runs.

module RetransmissionSafety {
  import opened Common
  import opened Retransmission
  import opened RetransmissionSums
  import opened RetransmissionInvariant
  import opened RetransmissionCounts
  import opened RetransmissionSlots
  import opened RetransmissionHistory

  ghost predicate Inv(s: State)
  {
    && Refs(s) && Linked(s) && Timers(s) && Sources(s) && Tallies(s) && Ledger(s)
    && Counts(s) && Slots(s) && Attempts(s) && History(s)
  }

  lemma InitialInv(maxRetryCnt: int)
    requires maxRetryCnt <= MAX_INT32
    ensures Inv(NewManager(maxRetryCnt))
  {
    var s := NewManager(maxRetryCnt);
    forall slot
      ensures FirstPushes(s, slot)
    {
    }
  }

  // A new call starts with a clean slate.
  lemma SpawnCounts(s: State, a: Agent, q: Query)
    requires EntryPoint(a) && q != Inserts
    ensures Sum(s.agents + [a], q) == Sum(s.agents, q)
  {
    SumAppend(s.agents, a, q);
  }

  lemma SpawnSums(s: State, a: Agent)
    requires Sources(s) && Tallies(s) && Ledger(s) && EntryPoint(a)
    ensures var s' := Spawned(s, a); Sources(s') && Tallies(s') && Ledger(s')
  {
    var agents := s.agents + [a];
    forall t | 0 <= t < |s.recs|
      ensures Sum(agents, SourceOf(t)) == Sum(s.agents, SourceOf(t))
      ensures Sum(agents, AddOf(t)) == Sum(s.agents, AddOf(t))
      ensures Sum(agents, DropOf(t)) == Sum(s.agents, DropOf(t))
    {
      SpawnCounts(s, a, SourceOf(t));
      SpawnCounts(s, a, AddOf(t));
      SpawnCounts(s, a, DropOf(t));
    }
    SpawnCounts(s, a, Adding);
    SpawnCounts(s, a, Dropping);
  }

  lemma SpawnBounds(s: State, a: Agent)
    requires Counts(s) && EntryPoint(a)
    ensures Counts(Spawned(s, a))
  {
    var s' := Spawned(s, a);
    forall t | 0 <= t < |s'.recs|
      ensures Bounded(s', t)
    {
      assert Bounded(s, t);
      SpawnCounts(s, a, SourceOf(t));
    }
    forall j | 0 <= j < |s'.agents| && SourceTask(s'.agents[j]).Some?
      ensures var t := SourceTask(s'.agents[j]).value;
              t < |s'.recs| && Healthy(s'.max, s'.recs[t].cnt, Sent(s', t), s'.agents[j])
    {
      assert j < |s.agents| && s'.agents[j] == s.agents[j];
    }
  }

  lemma SpawnInv(s: State, a: Agent)
    requires Inv(s) && EntryPoint(a)
    ensures Inv(Spawned(s, a))
  {
    SpawnShapes(s, a);
    SpawnSums(s, a);
    SpawnBounds(s, a);
    SpawnSlots(s, a);
    var s' := Spawned(s, a);
    assert Refs(s'); assert Linked(s'); assert Timers(s'); assert Sources(s');
    assert Tallies(s'); assert Ledger(s'); assert Counts(s');
    assert Slots(s'); assert Attempts(s'); assert History(s');
  }

  lemma SpawnShapes(s: State, a: Agent)
    requires Refs(s) && Timers(s) && History(s) && EntryPoint(a)
    ensures var s' := Spawned(s, a); Refs(s') && Timers(s') && History(s')
  {
    var s' := Spawned(s, a);
    forall j | 0 <= j < |s.agents|
      ensures Refers(|s'.recs|, |s'.agents|, s'.agents[j])
    {
      assert Refers(|s.recs|, |s.agents|, s.agents[j]);
    }
  }

  lemma SpawnSlots(s: State, a: Agent)
    requires Slots(s) && Attempts(s) && EntryPoint(a)
    ensures var s' := Spawned(s, a); Slots(s') && Attempts(s')
  {
    var s' := Spawned(s, a);
    forall t | 0 <= t < |s'.recs|
      ensures OwnsSlot(s', t)
    {
      assert OwnsSlot(s, t);
    }
    forall slot
      ensures FirstPushes(s', slot)
    {
      assert FirstPushes(s, slot);
    }
  }

  // The facts about one operation, for whichever part of the program the agent is in.
  lemma OperationFacts(s: State, i: nat, c: Choice, op: Op)
    requires Inv(s) && OpIs(s, i, c, op)
    ensures Effects(s, i, op) && RefFacts(s, op) && LedgerFacts(s.agents[i], op) && CallFacts(s, i, op)
    ensures HistoryOk(NewRecs(s, op), op.next)
    ensures op.Delete? ==> CallerKnows(s.recs, op.caller, op.key)
  {
    assert HistoryOk(s.recs, s.agents[i]);
    OperationCounts(s, i, c, op, 0);
    if InHandle(s.agents[i]) {
      HandleShape(s, i, c, op);
      HandleSends(s, i, c, op);
      HandleCalls(s, i, c, op);
      HandleHistory(s, i, c, op);
    } else {
      OtherCalls(s, i, c, op);
      if InRun(s.agents[i]) {
        RunShape(s, i, c, op);
        RunSends(s, i, c, op);
        RunHistory(s, i, c, op);
      } else if InDelete(s.agents[i]) {
        DeleteShape(s, i, c, op);
        DeleteSends(s, i, c, op);
        DeleteHistory(s, i, c, op);
      } else {
        CallShape(s, i, c, op);
        CallSends(s, i, c, op);
        CallHistory(s, i, c, op);
      }
    }
  }

  lemma OperationCounts(s: State, i: nat, c: Choice, op: Op, t: nat)
    requires Inv(s) && OpIs(s, i, c, op)
    ensures CountFacts(s, s.agents[i], op, t)
  {
    if InHandle(s.agents[i]) {
      HandleCounts(s, i, c, op, t);
    } else if InRun(s.agents[i]) {
      RunCounts(s, i, c, op, t);
    } else if InDelete(s.agents[i]) {
      assert HistoryOk(s.recs, s.agents[i]);
      DeleteCounts(s, i, c, op, t);
    } else {
      CallCounts(s, i, c, op, t);
    }
  }

  lemma OperationHealth(s: State, i: nat, c: Choice, op: Op)
    requires Inv(s) && OpIs(s, i, c, op) && SourceTask(op.next).Some? && !op.Insert?
    ensures var t := SourceTask(op.next).value;
            t < |s.recs| && HealthFacts(s, s.agents[i], op, s.recs[t].cnt, Sent(s, t))
  {
    if InHandle(s.agents[i]) {
      HandleSends(s, i, c, op);
    } else if InRun(s.agents[i]) {
      RunSends(s, i, c, op);
      assert Bounded(s, s.agents[i].task);
      RunHealth(s, i, c, op);
    } else if InDelete(s.agents[i]) {
      DeleteSends(s, i, c, op);
    } else {
      CallSends(s, i, c, op);
    }
  }

  lemma BoundedStep(s: State, i: nat, c: Choice, op: Op)
    requires Inv(s) && OpIs(s, i, c, op) && Effects(s, i, op)
    ensures var s' := Perform(s, i, op); forall t :: 0 <= t < |s'.recs| ==> Bounded(s', t)
  {
    forall t | 0 <= t < |NewRecs(s, op)|
      ensures Bounded(Perform(s, i, op), t)
    {
      OperationCounts(s, i, c, op, t);
      KeepBounded(s, i, op, t);
    }
  }

  lemma CountsStep(s: State, i: nat, c: Choice, op: Op)
    requires Inv(s) && OpIs(s, i, c, op) && Effects(s, i, op)
    ensures Counts(Perform(s, i, op))
  {
    hide Bounded, Healthy, HealthFacts, Sum;
    var s' := Perform(s, i, op);
    BoundedStep(s, i, c, op);
    if SourceTask(op.next).Some? && !op.Insert? {
      OperationHealth(s, i, c, op);
    }
    forall j | 0 <= j < |s'.agents| && SourceTask(s'.agents[j]).Some?
      ensures var t := SourceTask(s'.agents[j]).value;
              t < |s'.recs| && Healthy(s'.max, s'.recs[t].cnt, Sent(s', t), s'.agents[j])
    {
      KeepHealthy(s, i, op, j);
    }
  }

  lemma SourcesStep(s: State, i: nat, c: Choice, op: Op)
    requires Inv(s) && OpIs(s, i, c, op) && Effects(s, i, op)
    ensures Sources(Perform(s, i, op)) && Tallies(Perform(s, i, op))
  {
    var s' := Perform(s, i, op);
    forall t | 0 <= t < |s'.recs|
      ensures 0 <= Sum(s'.agents, SourceOf(t)) <= 1
      ensures s'.recs[t].fate.Registered? ==> Sum(s'.agents, SourceOf(t)) == 1
      ensures s'.recs[t].adds + Sum(s'.agents, AddOf(t)) == 1
      ensures s'.recs[t].subs + Sum(s'.agents, DropOf(t)) == One(!s'.recs[t].fate.Registered?)
    {
      OperationCounts(s, i, c, op, t);
      KeepSource(s, i, op, t);
      KeepTally(s, i, op, t);
    }
  }

  lemma ActInv(s: State, i: nat, c: Choice, s': State)
    requires Inv(s) && Acts(s, i, c, s')
    ensures Inv(s')
  {
    var op := Operation(s, i, c).value;
    OperationFacts(s, i, c, op);
    KeepRefs(s, i, op);
    KeepLinked(s, i, op);
    KeepTimers(s, i, op);
    SourcesStep(s, i, c, op);
    KeepLedger(s, i, op);
    CountsStep(s, i, c, op);
    KeepSlots(s, i, op);
    KeepAttempts(s, i, op);
    KeepHistory(s, i, op);
  }

  lemma StepInv(s: State, move: Move, s': State)
    requires Inv(s) && Takes(s, move, s')
    ensures Inv(s')
  {
    match move
    case Spawn(a) => SpawnInv(s, a);
    case Act(i, c) => ActInv(s, i, c, s');
  }
}
