// Counting agents and push attempts. The invariants of the protocol are linear
// equations between such counts, and a step changes each count by a known amount.

module RetransmissionSums {
  import opened Common
  import opened Retransmission

  // What an agent is counted for.
  datatype Query =
    | SourceOf(task: nat)   // can still lead to a callback of this task
    | DropOf(task: nat)     // has taken this task out of the map, not yet lowered totalTaskCnt
    | AddOf(task: nat)      // has put this task into the map, not yet raised totalTaskCnt
    | PastCheck(task: nat)  // a callback of this task past its load check that has not pushed yet
    | Adding                // any AddOf
    | Dropping              // any DropOf
    | AtStore               // a start that has read closed as false and not yet stored
    | Inserts               // how many tasks this agent may still put into the map

  function One(b: bool): int
  {
    if b then 1 else 0
  }

  predicate IsSource(a: Agent, t: nat)
  {
    || ((a.StartArm? || a.Armed? || a.RunLoad? || a.RunInc? || a.RunCheck? || a.RunPush? || a.RunArm?)
        && a.task == t)
    || (a.DeleteLoad? && a.caller.ByRun? && a.caller.task == t)
  }

  function Val(q: Query, a: Agent): (n: int)
    ensures q != Inserts ==> 0 <= n <= 1
  {
    match q
    case SourceOf(t) => One(IsSource(a, t))
    case DropOf(t) => One((a.DeletePtr? || a.DeleteStop? || a.DeleteAdd?) && a.task == t)
    case AddOf(t) => One((a.StartArm? || a.StartPtr? || a.StartAdd?) && a.task == t)
    case PastCheck(t) => One((a.RunInc? || a.RunCheck? || a.RunPush?) && a.task == t)
    case Adding => One(a.StartArm? || a.StartPtr? || a.StartAdd?)
    case Dropping => One(a.DeletePtr? || a.DeleteStop? || a.DeleteAdd?)
    case AtStore => One(a.StartStore?)
    case Inserts =>
      match a
      case Pushing(call, _) => |call.conns|
      case StartCheck(call, j) => |call.conns| - j
      case StartStore(call, j) => |call.conns| - j
      case StartArm(call, j, _) => |call.conns| - j - 1
      case StartPtr(call, j, _, _) => |call.conns| - j - 1
      case StartAdd(call, j, _) => |call.conns| - j - 1
      case _ => 0
  }

  function Sum(agents: seq<Agent>, q: Query): int
  {
    if agents == [] then 0
    else Sum(agents[..|agents| - 1], q) + Val(q, agents[|agents| - 1])
  }

  lemma SumAppend(agents: seq<Agent>, a: Agent, q: Query)
    ensures Sum(agents + [a], q) == Sum(agents, q) + Val(q, a)
  {
    assert (agents + [a])[..|agents|] == agents;
  }

  lemma {:induction false} SumUpdate(agents: seq<Agent>, i: nat, a: Agent, q: Query)
    requires i < |agents|
    ensures Sum(agents[i := a], q) == Sum(agents, q) - Val(q, agents[i]) + Val(q, a)
  {
    var n := |agents| - 1;
    if i == n {
      assert agents[i := a][..n] == agents[..n];
    } else {
      SumUpdate(agents[..n], i, a, q);
      assert agents[i := a][..n] == agents[..n][i := a];
    }
  }

  lemma {:induction false} SumZero(agents: seq<Agent>, q: Query)
    requires forall i :: 0 <= i < |agents| ==> Val(q, agents[i]) == 0
    ensures Sum(agents, q) == 0
  {
    if agents != [] {
      SumZero(agents[..|agents| - 1], q);
    }
  }

  lemma {:induction false} SumNonNegative(agents: seq<Agent>, q: Query)
    requires forall i :: 0 <= i < |agents| ==> Val(q, agents[i]) >= 0
    ensures Sum(agents, q) >= 0
  {
    if agents != [] {
      SumNonNegative(agents[..|agents| - 1], q);
    }
  }

  // Each agent is worth at most the sum.
  lemma {:induction false} SumAtLeast(agents: seq<Agent>, i: nat, q: Query)
    requires i < |agents| && q != Inserts
    ensures Sum(agents, q) >= Val(q, agents[i])
  {
    var n := |agents| - 1;
    SumNonNegative(agents[..n], q);
    if i < n {
      SumAtLeast(agents[..n], i, q);
    }
  }

  // Two agents that are both counted make two.
  lemma SumAtLeastTwo(agents: seq<Agent>, i: nat, j: nat, q: Query)
    requires i < |agents| && j < |agents| && i != j && q != Inserts
    ensures Sum(agents, q) >= Val(q, agents[i]) + Val(q, agents[j])
  {
    SumUpdate(agents, i, Done, q);
    SumAtLeast(agents[i := Done], j, q);
  }

  // A sum that is not zero has an agent that is counted.
  lemma {:induction false} SumWitness(agents: seq<Agent>, q: Query) returns (i: nat)
    requires Sum(agents, q) != 0
    ensures i < |agents| && Val(q, agents[i]) != 0
  {
    var n := |agents| - 1;
    if Val(q, agents[n]) != 0 {
      i := n;
    } else {
      i := SumWitness(agents[..n], q);
    }
  }

  // How an operation of agent i changes a count.
  function Delta(s: State, i: nat, op: Op, q: Query): int
    requires i < |s.agents| && Applicable(s, op)
  {
    Val(q, op.next) - Val(q, s.agents[i])
    + (if op.Arm? then Val(q, Armed(op.task)) else 0)
    - (if op.Disarm? && s.agents[op.timer].Armed? then Val(q, s.agents[op.timer]) else 0)
  }

  lemma DisarmSums(agents: seq<Agent>, i: nat, m: nat, next: Agent, q: Query)
    requires i < |agents| && m < |agents| && agents[m].Armed? && !agents[i].Armed?
    ensures Sum(agents[m := Disarmed][i := next], q)
         == Sum(agents, q) + Val(q, next) - Val(q, agents[i]) - Val(q, agents[m])
  {
    SumUpdate(agents, m, Disarmed, q);
    SumUpdate(agents[m := Disarmed], i, next, q);
  }

  lemma PerformSums(s: State, i: nat, op: Op, q: Query)
    requires i < |s.agents| && Applicable(s, op)
    requires op.Disarm? ==> !s.agents[i].Armed?
    ensures Sum(NewAgents(s, i, op), q) == Sum(s.agents, q) + Delta(s, i, op, q)
  {
    if op.Disarm? && s.agents[op.timer].Armed? {
      DisarmSums(s.agents, i, op.timer, op.next, q);
    } else {
      SumUpdate(s.agents, i, op.next, q);
      if op.Arm? {
        SumAppend(s.agents[i := op.next], Armed(op.task), q);
      }
    }
  }

  // ---------- push attempts ----------

  datatype LogQuery =
    | SentBy(task: nat)      // retransmissions of this task
    | FirstOf(slot: Slot)    // pushes by the Handle call itself
    | AllOf(slot: Slot)      // both

  function Hits(q: LogQuery, e: Attempt): int
  {
    match q
    case SentBy(t) => One(e.source == Some(t))
    case FirstOf(slot) => One(e.slot == slot && e.source == None)
    case AllOf(slot) => One(e.slot == slot)
  }

  function Tally(log: seq<Attempt>, q: LogQuery): (n: int)
    ensures n >= 0
  {
    if log == [] then 0
    else Tally(log[..|log| - 1], q) + Hits(q, log[|log| - 1])
  }

  lemma TallyAppend(log: seq<Attempt>, e: Attempt, q: LogQuery)
    ensures Tally(log + [e], q) == Tally(log, q) + Hits(q, e)
  {
    assert (log + [e])[..|log|] == log;
  }

  // The retransmissions of task t so far.
  function Sent(s: State, t: nat): int
  {
    Tally(s.log, SentBy(t))
  }

  lemma PerformSent(s: State, i: nat, op: Op, t: nat)
    requires i < |s.agents| && Applicable(s, op)
    ensures Sent(Perform(s, i, op), t)
         == Sent(s, t) + (if op.Push? then Hits(SentBy(t), op.attempt) else 0)
  {
    if op.Push? {
      TallyAppend(s.log, op.attempt, SentBy(t));
    }
  }
}
