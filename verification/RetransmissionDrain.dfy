// The retransmission protocol always comes to rest. Every agent carries a weight
// that bounds the steps still to come from it, and every step uses some of it up.

module RetransmissionDrain {
  import opened Common
  import opened Retransmission
  import opened RetransmissionSums
  import opened RetransmissionInvariant
  import opened RetransmissionCounts
  import opened RetransmissionSlots
  import opened RetransmissionHistory
  import opened RetransmissionSafety

  // n * m, one addition at a time.
  function Times(n: nat, m: nat): nat
  {
    if n == 0 then 0 else Times(n - 1, m) + m
  }

  lemma {:induction false} TimesMonotone(n: nat, m: nat, m': nat)
    requires m <= m'
    ensures Times(n, m) <= Times(n, m')
  {
    if n > 0 {
      TimesMonotone(n - 1, m, m');
    }
  }

  // What the weights depend on: the retry limit, what one target may cost, and
  // how many tasks there may ever be.
  datatype Scale = Scale(max: nat, target: nat, room: nat)

  function NonNegative(x: int): nat
  {
    if x < 0 then 0 else x
  }

  function Fires(max: int, recs: seq<Task>, t: nat): nat
  {
    16 * NonNegative(if t < |recs| then max - recs[t].cnt else 0)
  }

  function Remaining(call: Call, idx: nat): nat
  {
    NonNegative(|call.conns| - idx)
  }

  function RangeWeight(w: Scale, caller: Caller): nat
  {
    if caller.ByRun? || caller.ByAck? then 0 else 8 * NonNegative(w.room - |caller.range.visited|) + 1
  }

  function Weight(w: Scale, recs: seq<Task>, a: Agent): nat
  {
    match a
    case Pushing(call, j) => Times(|call.conns|, w.target) + 2 + Remaining(call, j)
    case StartCheck(call, j) => Times(Remaining(call, j), w.target) + 1
    case StartStore(call, j) => Times(Remaining(call, j + 1), w.target) + 16 * w.max + 30
    case StartArm(call, j, _) => Times(Remaining(call, j + 1), w.target) + 16 * w.max + 20
    case StartPtr(call, j, _, _) => Times(Remaining(call, j + 1), w.target) + 4
    case StartAdd(call, j, _) => Times(Remaining(call, j + 1), w.target) + 3
    case Armed(t) => Fires(w.max, recs, t) + 10
    case RunLoad(t) => Fires(w.max, recs, t) + 9
    case RunInc(t) => Fires(w.max, recs, t) + 8
    case RunCheck(t) => Fires(w.max, recs, t) + 23
    case RunPush(t) => Fires(w.max, recs, t) + 22
    case RunArm(t) => Fires(w.max, recs, t) + 21
    case RunPtr(_, _) => 1
    case StopLoad(_) => 6
    case ClearBegin(_) => 8 * w.room + 2
    case CloseSwap => 8 * w.room + 4
    case CloseBegin => 8 * w.room + 2
    case Ranging(caller) => RangeWeight(w, caller)
    case DeleteLoad(_, caller) => RangeWeight(w, caller) + 5
    case DeletePtr(_, caller) => RangeWeight(w, caller) + 4
    case DeleteStop(_, _, caller) => RangeWeight(w, caller) + 3
    case DeleteAdd(_, caller) => RangeWeight(w, caller) + 2
    case Returned(_) => 0
    case Disarmed => 0
    case Ended(_) => 0
    case Done => 0
  }

  function Total(w: Scale, recs: seq<Task>, agents: seq<Agent>): nat
  {
    if agents == [] then 0
    else Total(w, recs, agents[..|agents| - 1]) + Weight(w, recs, agents[|agents| - 1])
  }

  lemma TotalAppend(w: Scale, recs: seq<Task>, agents: seq<Agent>, a: Agent)
    ensures Total(w, recs, agents + [a]) == Total(w, recs, agents) + Weight(w, recs, a)
  {
    assert (agents + [a])[..|agents|] == agents;
  }

  lemma {:induction false} TotalUpdate(w: Scale, recs: seq<Task>, agents: seq<Agent>, i: nat, a: Agent)
    requires i < |agents|
    ensures Total(w, recs, agents[i := a]) == Total(w, recs, agents) - Weight(w, recs, agents[i]) + Weight(w, recs, a)
  {
    var n := |agents| - 1;
    if i == n {
      assert agents[i := a][..n] == agents[..n];
    } else {
      TotalUpdate(w, recs, agents[..n], i, a);
      assert agents[i := a][..n] == agents[..n][i := a];
    }
  }

  // Counting further and having less room only makes agents lighter.
  ghost predicate Lighter(w: Scale, recs: seq<Task>, w': Scale, recs': seq<Task>)
  {
    && w'.max == w.max && w'.target <= w.target && w'.room <= w.room
    && |recs| <= |recs'|
    && forall t :: 0 <= t < |recs| ==> recs'[t].cnt >= recs[t].cnt
  }

  lemma WeightLighter(w: Scale, recs: seq<Task>, w': Scale, recs': seq<Task>, agents: int, a: Agent)
    requires Lighter(w, recs, w', recs') && Refers(|recs|, agents, a)
    ensures Weight(w', recs', a) <= Weight(w, recs, a)
  {
    if CallOf(a).Some? {
      TimesMonotone(|a.call.conns|, w'.target, w.target);
      if !a.Pushing? && !a.Returned? {
        TimesMonotone(Remaining(a.call, a.idx), w'.target, w.target);
        TimesMonotone(Remaining(a.call, a.idx + 1), w'.target, w.target);
      }
    }
  }

  lemma {:induction false} TotalLighter(w: Scale, recs: seq<Task>, w': Scale, recs': seq<Task>, n: int,
                                        agents: seq<Agent>)
    requires Lighter(w, recs, w', recs')
    requires forall i :: 0 <= i < |agents| ==> Refers(|recs|, n, agents[i])
    ensures Total(w', recs', agents) <= Total(w, recs, agents)
  {
    if agents != [] {
      TotalLighter(w, recs, w', recs', n, agents[..|agents| - 1]);
      WeightLighter(w, recs, w', recs', n, agents[|agents| - 1]);
    }
  }

  // ---------- the scale of a state ----------

  // How many tasks there are and may still be put into the map.
  function Room(s: State): int
  {
    |s.recs| + Sum(s.agents, if s.closed then AtStore else Inserts)
  }

  // A closed manager turns every target away in two steps.
  function ScaleOf(s: State): Scale
  {
    Scale(NonNegative(s.max), if s.closed then 2 else 16 * NonNegative(s.max) + 30, NonNegative(Room(s)))
  }

  function Potential(s: State): nat
  {
    Total(ScaleOf(s), s.recs, s.agents)
  }

  // Every agent that may insert a task is counted by Room.
  lemma {:induction false} StoresAreInserts(agents: seq<Agent>, recs: int, n: int)
    requires forall i :: 0 <= i < |agents| ==> Refers(recs, n, agents[i])
    ensures 0 <= Sum(agents, AtStore) <= Sum(agents, Inserts)
  {
    if agents != [] {
      StoresAreInserts(agents[..|agents| - 1], recs, n);
    }
  }

  ghost predicate InsertFacts(s: State, a: Agent, op: Op)
  {
    && Val(Inserts, op.next) <= Val(Inserts, a) - One(op.Insert?)
    && (s.closed ==> Val(AtStore, op.next) <= Val(AtStore, a) - One(op.Insert?))
  }

  lemma HandleInserts(s: State, i: nat, c: Choice, op: Op)
    requires OpIs(s, i, c, op) && InHandle(s.agents[i])
    ensures InsertFacts(s, s.agents[i], op) && !op.Swap?
  {
  }

  lemma RunInserts(s: State, i: nat, c: Choice, op: Op)
    requires OpIs(s, i, c, op) && InRun(s.agents[i])
    ensures InsertFacts(s, s.agents[i], op)
  {
    hide HandleOperation, DeleteOperation, CallOperation;
  }

  lemma OtherInserts(s: State, i: nat, c: Choice, op: Op)
    requires OpIs(s, i, c, op) && !InHandle(s.agents[i])
    ensures InsertFacts(s, s.agents[i], op)
  {
    hide HandleOperation, RunOperation;
    if InRun(s.agents[i]) {
      RunInserts(s, i, c, op);
    }
  }

  // Both counts that Room is made of, before and after.
  lemma InsertSums(s: State, i: nat, op: Op)
    requires i < |s.agents| && Applicable(s, op) && (op.Disarm? ==> !s.agents[i].Armed?)
    requires Refs(s) && RefFacts(s, op)
    ensures var agents := NewAgents(s, i, op);
            && Sum(agents, Inserts) == Sum(s.agents, Inserts) + Val(Inserts, op.next) - Val(Inserts, s.agents[i])
            && Sum(agents, AtStore) == Sum(s.agents, AtStore) + Val(AtStore, op.next) - Val(AtStore, s.agents[i])
            && 0 <= Sum(agents, AtStore) <= Sum(agents, Inserts)
            && Sum(s.agents, AtStore) <= Sum(s.agents, Inserts)
  {
    PerformSums(s, i, op, Inserts);
    PerformSums(s, i, op, AtStore);
    KeepRefs(s, i, op);
    StoresAreInserts(NewAgents(s, i, op), |NewRecs(s, op)|, |NewAgents(s, i, op)|);
    StoresAreInserts(s.agents, |s.recs|, |s.agents|);
  }

  lemma RoomShrinks(s: State, i: nat, op: Op)
    requires i < |s.agents| && Applicable(s, op) && (op.Disarm? ==> !s.agents[i].Armed?)
    requires Refs(s) && RefFacts(s, op) && InsertFacts(s, s.agents[i], op)
    ensures |NewRecs(s, op)| <= Room(Perform(s, i, op)) <= Room(s)
  {
    InsertSums(s, i, op);
    assert |NewRecs(s, op)| == |s.recs| + One(op.Insert?);
  }

  lemma CountersGrow(s: State, i: nat, op: Op)
    requires Counts(s) && Effects(s, i, op)
    ensures forall t :: 0 <= t < |s.recs| ==> NewRecs(s, op)[t].cnt >= s.recs[t].cnt
  {
    forall t | 0 <= t < |s.recs|
      ensures NewRecs(s, op)[t].cnt >= s.recs[t].cnt
    {
      RecordChange(s, op, t);
      if op.Count? && op.task == t {
        assert SourceTask(s.agents[i]) == Some(t);
      }
    }
  }

  lemma StepLighter(s: State, i: nat, c: Choice, op: Op)
    requires Inv(s) && OpIs(s, i, c, op) && Effects(s, i, op)
    ensures var s' := Perform(s, i, op);
            Lighter(ScaleOf(s), s.recs, ScaleOf(s'), s'.recs) && |s'.recs| <= Room(s') <= Room(s)
  {
    OperationFacts(s, i, c, op);
    if InHandle(s.agents[i]) {
      HandleInserts(s, i, c, op);
    } else {
      OtherInserts(s, i, c, op);
    }
    RoomShrinks(s, i, op);
    CountersGrow(s, i, op);
  }

  // ---------- every operation uses up weight ----------

  // The weight of what an operation leaves of its agent.
  function Left(w: Scale, recs: seq<Task>, op: Op): nat
  {
    Weight(w, recs, op.next) + (if op.Arm? then Weight(w, recs, Armed(op.task)) else 0)
  }

  lemma HandleDrops(w: Scale, s: State, i: nat, c: Choice, op: Op)
    requires OpIs(s, i, c, op) && InHandle(s.agents[i])
    requires w.max == s.max && w.target == (if s.closed then 2 else 16 * w.max + 30)
    requires op.Arm? ==> op.task < |s.recs| && 0 <= s.recs[op.task].cnt
    ensures Left(w, NewRecs(s, op), op) < Weight(w, s.recs, s.agents[i])
  {
  }

  lemma RunDrops(w: Scale, s: State, i: nat, c: Choice, op: Op)
    requires OpIs(s, i, c, op) && InRun(s.agents[i])
    requires w.max == s.max <= MAX_INT32
    requires s.recs[s.agents[i].task].cnt < s.max || s.agents[i].RunCheck? || s.agents[i].RunPtr?
    ensures Left(w, NewRecs(s, op), op) < Weight(w, s.recs, s.agents[i])
  {
  }

  lemma DeleteDrops(w: Scale, s: State, i: nat, c: Choice, op: Op)
    requires OpIs(s, i, c, op) && InDelete(s.agents[i])
    ensures Left(w, NewRecs(s, op), op) < Weight(w, s.recs, s.agents[i])
  {
  }

  lemma {:induction false} KeysOfRecords(recs: seq<Task>, keys: set<string>)
    requires forall k :: k in keys ==> HasTask(recs, k)
    ensures |keys| <= |recs|
  {
    if recs == [] {
      assert keys == {};
    } else {
      var last := recs[|recs| - 1].key;
      var rest := recs[..|recs| - 1];
      forall k | k in keys - {last}
        ensures HasTask(rest, k)
      {
        var t :| 0 <= t < |recs| && recs[t].key == k;
        assert rest[t].key == k;
      }
      KeysOfRecords(rest, keys - {last});
      assert |keys - {last}| >= |keys| - 1;
    }
  }

  lemma CallDrops(w: Scale, s: State, i: nat, c: Choice, op: Op)
    requires OpIs(s, i, c, op) && !InHandle(s.agents[i]) && !InRun(s.agents[i]) && !InDelete(s.agents[i])
    requires s.agents[i].Ranging? && c.Visit? ==> |s.agents[i].caller.range.visited| + 1 <= w.room
    ensures Left(w, NewRecs(s, op), op) < Weight(w, s.recs, s.agents[i])
  {
  }

  lemma VisitsFit(s: State, a: Agent, k: string, t: nat)
    requires a.Ranging? && (a.caller.ByClear? || a.caller.ByClose?)
    requires HistoryOk(s.recs, a) && Visitable(s, a.caller.range, k, t)
    ensures |a.caller.range.visited| + 1 <= |s.recs|
  {
    assert HasTask(s.recs, k);
    KeysOfRecords(s.recs, a.caller.range.visited + {k});
  }

  lemma HandleCase(s: State, i: nat, c: Choice, op: Op)
    requires Inv(s) && OpIs(s, i, c, op) && InHandle(s.agents[i])
    ensures Left(ScaleOf(s), NewRecs(s, op), op) < Weight(ScaleOf(s), s.recs, s.agents[i])
  {
    hide Left, Weight, Operation;
    HandleSends(s, i, c, op);
    if op.Arm? {
      assert Bounded(s, op.task);
    }
    HandleDrops(ScaleOf(s), s, i, c, op);
  }

  lemma RunCase(s: State, i: nat, c: Choice, op: Op)
    requires Inv(s) && OpIs(s, i, c, op) && InRun(s.agents[i])
    ensures Left(ScaleOf(s), NewRecs(s, op), op) < Weight(ScaleOf(s), s.recs, s.agents[i])
  {
    hide Left, Weight, Operation;
    assert s.agents[i].RunPtr? || SourceTask(s.agents[i]) == Some(s.agents[i].task);
    RunDrops(ScaleOf(s), s, i, c, op);
  }

  lemma CallCase(s: State, i: nat, c: Choice, op: Op)
    requires Inv(s) && OpIs(s, i, c, op)
    requires !InHandle(s.agents[i]) && !InRun(s.agents[i]) && !InDelete(s.agents[i])
    ensures Left(ScaleOf(s), NewRecs(s, op), op) < Weight(ScaleOf(s), s.recs, s.agents[i])
  {
    hide Left, Weight, Operation;
    var a := s.agents[i];
    assert HistoryOk(s.recs, a);
    StoresAreInserts(s.agents, |s.recs|, |s.agents|);
    if a.Ranging? && c.Visit? {
      RangingVisits(s, i, c, op);
      VisitsFit(s, a, c.key, c.task);
    }
    CallDrops(ScaleOf(s), s, i, c, op);
  }

  lemma RangingVisits(s: State, i: nat, c: Choice, op: Op)
    requires OpIs(s, i, c, op) && s.agents[i].Ranging? && c.Visit?
    ensures Visitable(s, s.agents[i].caller.range, c.key, c.task)
  {
  }

  lemma OperationDrops(s: State, i: nat, c: Choice, op: Op)
    requires Inv(s) && OpIs(s, i, c, op)
    ensures Left(ScaleOf(s), NewRecs(s, op), op) < Weight(ScaleOf(s), s.recs, s.agents[i])
  {
    hide Inv, Left, Weight, ScaleOf, NewRecs, Operation;
    if InHandle(s.agents[i]) {
      HandleCase(s, i, c, op);
    } else if InRun(s.agents[i]) {
      RunCase(s, i, c, op);
    } else if InDelete(s.agents[i]) {
      DeleteDrops(ScaleOf(s), s, i, c, op);
    } else {
      CallCase(s, i, c, op);
    }
  }

  // The weight of all agents after an operation, at the scale and records of recs.
  lemma PerformTotal(w: Scale, recs: seq<Task>, s: State, i: nat, op: Op)
    requires i < |s.agents| && Applicable(s, op)
    requires op.Disarm? ==> !s.agents[i].Armed?
    ensures Total(w, recs, NewAgents(s, i, op)) <= Total(w, recs, s.agents[i := Done]) + Left(w, recs, op)
  {
    TotalUpdate(w, recs, s.agents[i := Done], i, op.next);
    assert s.agents[i := Done][i := op.next] == s.agents[i := op.next];
    match op
    case Arm(t, _) =>
      TotalAppend(w, recs, s.agents[i := op.next], Armed(t));
    case Disarm(m, _) =>
      if s.agents[m].Armed? {
        TotalUpdate(w, recs, s.agents[i := op.next], m, Disarmed);
        assert s.agents[m := Disarmed][i := op.next] == s.agents[i := op.next][m := Disarmed];
      }
    case _ =>
  }

  // The other agents do not get heavier.
  lemma OthersLighter(s: State, i: nat, op: Op)
    requires i < |s.agents| && Applicable(s, op) && Refs(s)
    requires Lighter(ScaleOf(s), s.recs, ScaleOf(Perform(s, i, op)), NewRecs(s, op))
    ensures Total(ScaleOf(Perform(s, i, op)), NewRecs(s, op), s.agents[i := Done])
         <= Potential(s) - Weight(ScaleOf(s), s.recs, s.agents[i])
  {
    TotalLighter(ScaleOf(s), s.recs, ScaleOf(Perform(s, i, op)), NewRecs(s, op), |s.agents|, s.agents[i := Done]);
    TotalUpdate(ScaleOf(s), s.recs, s.agents, i, Done);
  }

  // Reading what is left of the agent at the new scale can only make it less.
  lemma LeftLighter(s: State, i: nat, op: Op)
    requires i < |s.agents| && Applicable(s, op) && RefFacts(s, op)
    requires Lighter(ScaleOf(s), s.recs, ScaleOf(Perform(s, i, op)), NewRecs(s, op))
    ensures Left(ScaleOf(Perform(s, i, op)), NewRecs(s, op), op) <= Left(ScaleOf(s), NewRecs(s, op), op)
  {
    var recs, w, w' := NewRecs(s, op), ScaleOf(s), ScaleOf(Perform(s, i, op));
    assert Lighter(w, recs, w', recs);
    WeightLighter(w, recs, w', recs, |s.agents| + 1, op.next);
    if op.Arm? {
      WeightLighter(w, recs, w', recs, |s.agents| + 1, Armed(op.task));
    }
  }

  lemma ActDrops(s: State, i: nat, c: Choice, s': State)
    requires Inv(s) && Acts(s, i, c, s')
    ensures Potential(s') < Potential(s)
    ensures Room(s') <= Room(s)
  {
    var op := Operation(s, i, c).value;
    OperationFacts(s, i, c, op);
    StepLighter(s, i, c, op);
    OperationDrops(s, i, c, op);
    PerformTotal(ScaleOf(s'), s'.recs, s, i, op);
    OthersLighter(s, i, op);
    LeftLighter(s, i, op);
  }
}
