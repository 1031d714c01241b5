// What two outcomes mean for the rest of a run: a retransmission that fails, and an ack
// that returns.

module RetransmissionOutcomes {
  import opened Common
  import opened Retransmission
  import opened RetransmissionSums
  import opened RetransmissionInvariant
  import opened RetransmissionCounts
  import opened RetransmissionSafety
  import opened RetransmissionRuns

  // ---------- a failed retransmission ----------

  // The callback of task t is about to delete its key for good, or has done so.
  ghost predicate GivingUp(s: State, i: nat, t: nat)
  {
    && t < |s.recs| && i < |s.agents|
    && (Sum(s.agents, SourceOf(t)) == 0
        || (s.agents[i].DeleteLoad? && s.agents[i].caller.ByRun? && s.agents[i].caller.task == t))
  }

  lemma FailStep(s: State, i: nat, s': State, t: nat)
    requires Inv(s) && i < |s.agents| && s.agents[i] == RunPush(t) && Acts(s, i, Fail, s')
    ensures GivingUp(s', i, t) && Sent(s', t) == Sent(s, t) + 1
  {
    hide HandleOperation, DeleteOperation, CallOperation, Inv;
    TallyAppend(s.log, Attempt(s.recs[t].slot, Some(t)), SentBy(t));
  }

  // It has no source any more.
  lemma GoneAct(s: State, j: nat, op: Op, i: nat, t: nat)
    requires Effects(s, j, op) && SourceFacts(s, s.agents[j], op, t) && t < |s.recs| && i < |s.agents|
    requires Sum(s.agents, SourceOf(t)) == 0
    ensures GivingUp(Perform(s, j, op), i, t) && Sent(Perform(s, j, op), t) == Sent(s, t)
  {
    PerformSent(s, j, op, t);
    AfterRemoval(s, j, op, t);
    hide Sum, Tally, Effects, SourceFacts;
  }

  // It is not the one that moves.
  lemma OtherAct(s: State, j: nat, op: Op, i: nat, t: nat)
    requires Effects(s, j, op) && t < |s.recs| && i < |s.agents| && i != j
    requires s.agents[i].DeleteLoad? && s.agents[i].caller.ByRun? && s.agents[i].caller.task == t
    requires SourceTask(s.agents[j]) != Some(t)
    ensures GivingUp(Perform(s, j, op), i, t) && Sent(Perform(s, j, op), t) == Sent(s, t)
  {
    hide Sum, Tally;
    PerformSent(s, j, op, t);
    LeavesItThere(s, j, op, i);
  }

  lemma GivingUpAct(s: State, j: nat, c: Choice, op: Op, i: nat, t: nat)
    requires Inv(s) && OpIs(s, j, c, op) && Effects(s, j, op) && GivingUp(s, i, t)
    ensures GivingUp(Perform(s, j, op), i, t) && Sent(Perform(s, j, op), t) == Sent(s, t)
  {
    hide Sum, Tally, Inv, OpIs, MapFacts, TimerFacts, SendFacts, SourceFacts, Sources;
    if Sum(s.agents, SourceOf(t)) == 0 {
      FollowsSources(s, j, c, op, t);
      GoneAct(s, j, op, i, t);
    } else if j == i {
      DeletesNext(s, i, c, op);
      SourcesOf(s);
      LastSource(s, i, op, t);
      PerformSent(s, j, op, t);
    } else {
      OnlySource(s, i, j, t);
      OtherAct(s, j, op, i, t);
    }
  }

  lemma FollowsSources(s: State, j: nat, c: Choice, op: Op, t: nat)
    requires Inv(s) && OpIs(s, j, c, op)
    ensures SourceFacts(s, s.agents[j], op, t)
  {
    OperationCounts(s, j, c, op, t);
  }

  lemma SourcesOf(s: State)
    requires Inv(s)
    ensures Sources(s)
  {
  }

  lemma LeavesItThere(s: State, j: nat, op: Op, i: nat)
    requires j < |s.agents| && Applicable(s, op) && i < |s.agents| && i != j && !s.agents[i].Armed?
    ensures i < |NewAgents(s, j, op)| && NewAgents(s, j, op)[i] == s.agents[i]
  {
  }

  // Its next step deletes, or finds nothing to delete.
  lemma DeletesNext(s: State, i: nat, c: Choice, op: Op)
    requires OpIs(s, i, c, op) && s.agents[i].DeleteLoad?
    ensures !op.Push? && !op.Arm? && !op.Disarm? && SourceTask(op.next).None?
  {
    hide HandleOperation, RunOperation, CallOperation;
  }

  lemma LastSource(s: State, i: nat, op: Op, t: nat)
    requires Sources(s) && t < |s.recs| && i < |s.agents| && Applicable(s, op)
    requires SourceTask(s.agents[i]) == Some(t) && SourceTask(op.next).None? && !op.Arm? && !op.Disarm?
    ensures Sum(NewAgents(s, i, op), SourceOf(t)) == 0
  {
    PerformSums(s, i, op, SourceOf(t));
    SumNonNegative(NewAgents(s, i, op), SourceOf(t));
    SourceTaskIsSource(s.agents[i], t);
    SourceTaskIsSource(op.next, t);
  }

  lemma OnlySource(s: State, i: nat, j: nat, t: nat)
    requires Inv(s) && t < |s.recs| && i < |s.agents| && j < |s.agents| && i != j
    requires SourceTask(s.agents[i]) == Some(t)
    ensures SourceTask(s.agents[j]) != Some(t)
  {
    if SourceTask(s.agents[j]) == Some(t) {
      OneSource(s, i, j, t);
    }
  }

  lemma GivingUpStep(s: State, move: Move, s': State, i: nat, t: nat)
    requires Inv(s) && Takes(s, move, s') && GivingUp(s, i, t)
    ensures GivingUp(s', i, t) && Sent(s', t) == Sent(s, t)
  {
    hide Inv, Effects, Tally, Sum;
    match move
    case Spawn(a) => SumAppend(s.agents, a, SourceOf(t));
    case Act(j, c) =>
      var op := Operation(s, j, c).value;
      hide Operation, GivingUp;
      OperationFacts(s, j, c, op);
      GivingUpAct(s, j, c, op, i, t);
  }

  // A retransmission that fails is the last one of its task.
  lemma FailedPushIsTheLast(states: seq<State>, moves: seq<Move>, n: nat, m: nat, i: nat, t: nat)
    requires IsRun(states, moves) && Reachable(states[0]) && n < |moves| && n < m < |states|
    requires moves[n] == Act(i, Fail) && i < |states[n].agents| && states[n].agents[i] == RunPush(t)
    ensures Sent(states[m], t) == Sent(states[n], t) + 1
  {
    ReachableInv(states[0]);
    RunInv(states, moves, n);
    assert StepAt(states, moves, n);
    FailStep(states[n], i, states[n + 1], t);
    StaysGivingUp(states, moves, n + 1, m, i, t);
  }

  lemma {:induction false} StaysGivingUp(states: seq<State>, moves: seq<Move>, n: nat, m: nat, i: nat, t: nat)
    requires IsRun(states, moves) && InvAt(states, 0) && n <= m < |states| && GivingUp(states[n], i, t)
    ensures GivingUp(states[m], i, t) && Sent(states[m], t) == Sent(states[n], t)
  {
    hide Inv, Takes, GivingUp;
    if n < m {
      StaysGivingUp(states, moves, n, m - 1, i, t);
      RunInv(states, moves, m - 1);
      assert StepAt(states, moves, m - 1);
      GivingUpStep(states[m - 1], moves[m - 1], states[m], i, t);
    }
  }

  // ---------- an ack ----------

  // The key was out of the map at some moment from n to m.
  ghost predicate WasOut(states: seq<State>, n: nat, m: nat, key: string)
  {
    exists k :: n <= k <= m && k < |states| && key !in states[k].tasks
  }

  predicate StillLooking(s: State, i: nat, key: string)
  {
    i < |s.agents| && (s.agents[i] == StopLoad(key) || s.agents[i] == DeleteLoad(key, ByAck(key)))
  }

  // An ack that goes on has seen its key absent, or has just removed it.
  lemma AckStep(s: State, move: Move, s': State, i: nat, key: string)
    requires Takes(s, move, s') && StillLooking(s, i, key)
    ensures StillLooking(s', i, key) || key !in s.tasks || key !in s'.tasks
  {
    match move
    case Spawn(_) =>
    case Act(j, c) =>
      if j == i {
        hide HandleOperation, RunOperation;
      } else {
        hide Operation;
        LeavesItThere(s, j, Operation(s, j, c).value, i);
      }
  }

  // When the ack of a message has returned, its key was out of the map at some moment
  // since it came: whatever task was there is not there any more.
  lemma AckTakesTheKeyOut(states: seq<State>, moves: seq<Move>, n: nat, m: nat, i: nat, key: string)
    requires IsRun(states, moves) && n <= m < |states|
    requires i < |states[n].agents| && states[n].agents[i] == StopLoad(key)
    requires i < |states[m].agents| && states[m].agents[i] == Done
    ensures WasOut(states, n, m, key)
  {
    LookingOrOut(states, moves, n, m, i, key);
  }

  lemma {:induction false} LookingOrOut(states: seq<State>, moves: seq<Move>, n: nat, m: nat, i: nat, key: string)
    requires IsRun(states, moves) && n <= m < |states| && StillLooking(states[n], i, key)
    ensures StillLooking(states[m], i, key) || WasOut(states, n, m, key)
  {
    if n < m {
      LookingOrOut(states, moves, n, m - 1, i, key);
      assert StepAt(states, moves, m - 1);
      hide Takes;
      if StillLooking(states[m - 1], i, key) {
        AckStep(states[m - 1], moves[m - 1], states[m], i, key);
      } else {
        var k :| n <= k <= m - 1 && k < |states| && key !in states[k].tasks;
      }
    }
  }
}
