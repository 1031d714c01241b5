// How often a task counts and sends: one callback at a time raises the counter of
// a task, and the counter is the number of its retransmissions so far, give or
// take the one in progress.

module RetransmissionCounts {
  import opened Common
  import opened Retransmission
  import opened RetransmissionSums
  import opened RetransmissionInvariant

  // The counter and the retransmissions of the task this agent is a source of.
  ghost predicate Healthy(max: int, cnt: int, sent: int, a: Agent)
  {
    match a
    case StartArm(_, _, _) => cnt == 0 && sent == 0
    case Armed(_) => cnt < max && sent == cnt
    case RunLoad(_) => cnt < max && sent == cnt
    case RunInc(_) => cnt < max && sent == cnt
    case RunCheck(_) => 1 <= cnt && sent == cnt - 1
    case RunPush(_) => 1 <= cnt < max && sent == cnt - 1
    case RunArm(_) => 1 <= cnt < max && sent == cnt
    case DeleteLoad(_, ByRun(_, Exhausted)) => cnt == max && sent == max - 1
    case _ => true
  }

  // The task an agent is a source of.
  function SourceTask(a: Agent): Option<nat>
  {
    if a.StartArm? || a.Armed? || a.RunLoad? || a.RunInc? || a.RunCheck? || a.RunPush? || a.RunArm? then Some(a.task)
    else if a.DeleteLoad? && a.caller.ByRun? then Some(a.caller.task)
    else None
  }

  lemma SourceTaskIsSource(a: Agent, t: nat)
    ensures IsSource(a, t) <==> SourceTask(a) == Some(t)
  {
  }

  // The finished story of a task that removed itself.
  ghost predicate OwnEnd(max: int, sent: int, sources: int, fate: Fate, t: nat)
  {
    fate.Removed? && fate.remover.ByRun? && fate.remover.task == t ==>
      && sources == 0
      && (fate.remover.why.Exhausted? ==> sent == max - 1)
  }

  ghost predicate Bounded(s: State, t: nat)
    requires t < |s.recs|
  {
    && 0 <= s.recs[t].cnt <= s.max
    && Sent(s, t) <= s.recs[t].cnt
    && Sent(s, t) < s.max
    && OwnEnd(s.max, Sent(s, t), Sum(s.agents, SourceOf(t)), s.recs[t].fate, t)
  }

  ghost predicate Counts(s: State)
  {
    && 1 <= s.max <= MAX_INT32
    && (forall e :: e in s.log && e.source.Some? ==> e.source.value < |s.recs|)
    && (forall t :: 0 <= t < |s.recs| ==> Bounded(s, t))
    && (forall i :: 0 <= i < |s.agents| && SourceTask(s.agents[i]).Some? ==>
          var t := SourceTask(s.agents[i]).value;
          t < |s.recs| && Healthy(s.max, s.recs[t].cnt, Sent(s, t), s.agents[i]))
  }

  // What the operation does to the counter and the log of task t.
  ghost predicate SendFacts(s: State, a: Agent, op: Op)
  {
    && (op.Count? ==> a == RunInc(op.task) && op.next == RunCheck(op.task))
    && (op.Push? && op.attempt.source.Some? ==>
          var t := op.attempt.source.value;
          a == RunPush(t) && SourceTask(op.next) == Some(t) && t < |s.recs| && op.attempt.slot == s.recs[t].slot)
    && (op.Push? && op.attempt.source.None? ==> SourceTask(op.next).None? && SourceTask(a).None?)
    && (op.Arm? ==> a == RunArm(op.task) || (a.StartArm? && a.task == op.task))
    && (op.Insert? ==> op.next.StartArm? && op.next.task == |s.recs|)
    && (op.Delete? ==> a.DeleteLoad? && op.caller == a.caller && op.key == a.key && SourceTask(op.next).None?)
    && (SourceTask(op.next).Some? && !op.Insert? ==> SourceTask(a) == SourceTask(op.next))
  }

  // The next agent is healthy, if its task is what the old agent knew it to be.
  ghost predicate HealthFacts(s: State, a: Agent, op: Op, cnt: int, sent: int)
  {
    SourceTask(a).Some? && SourceTask(op.next).Some? && Healthy(s.max, cnt, sent, a) ==>
      Healthy(s.max, if op.Count? then cnt + 1 else cnt, if op.Push? then sent + 1 else sent, op.next)
  }

  lemma HandleSends(s: State, i: nat, c: Choice, op: Op)
    requires OpIs(s, i, c, op) && InHandle(s.agents[i])
    ensures SendFacts(s, s.agents[i], op)
    ensures SourceTask(op.next).Some? ==> op.Insert?
  {
  }

  lemma RunSends(s: State, i: nat, c: Choice, op: Op)
    requires OpIs(s, i, c, op) && InRun(s.agents[i])
    ensures SendFacts(s, s.agents[i], op)
  {
  }

  lemma RunHealth(s: State, i: nat, c: Choice, op: Op)
    requires OpIs(s, i, c, op) && InRun(s.agents[i])
    requires var t := s.agents[i].task; 0 <= s.recs[t].cnt <= s.max
    ensures var t := s.agents[i].task; HealthFacts(s, s.agents[i], op, s.recs[t].cnt, Sent(s, t))
  {
  }

  lemma DeleteSends(s: State, i: nat, c: Choice, op: Op)
    requires OpIs(s, i, c, op) && InDelete(s.agents[i])
    ensures SendFacts(s, s.agents[i], op)
    ensures SourceTask(op.next).None?
  {
  }

  lemma CallSends(s: State, i: nat, c: Choice, op: Op)
    requires OpIs(s, i, c, op)
    requires !InHandle(s.agents[i]) && !InRun(s.agents[i]) && !InDelete(s.agents[i])
    ensures SendFacts(s, s.agents[i], op)
    ensures SourceTask(op.next).None?
  {
  }

  lemma FreshSent(s: State, t: nat)
    requires forall e :: e in s.log && e.source.Some? ==> e.source.value < |s.recs|
    requires t >= |s.recs|
    ensures Sent(s, t) == 0
  {
    NoHits(s.log, SentBy(t));
  }

  lemma {:induction false} NoHits(log: seq<Attempt>, q: LogQuery)
    requires forall e :: e in log ==> Hits(q, e) == 0
    ensures Tally(log, q) == 0
  {
    if log != [] {
      NoHits(log[..|log| - 1], q);
    }
  }

  // Two different agents are never sources of the same task.
  lemma OneSource(s: State, i: nat, j: nat, t: nat)
    requires Sources(s) && t < |s.recs| && i < |s.agents| && j < |s.agents|
    requires SourceTask(s.agents[i]) == Some(t) && SourceTask(s.agents[j]) == Some(t)
    ensures i == j
  {
    if i != j {
      SourceTaskIsSource(s.agents[i], t);
      SourceTaskIsSource(s.agents[j], t);
      SumAtLeastTwo(s.agents, i, j, SourceOf(t));
    }
  }

  ghost predicate Effects(s: State, i: nat, op: Op)
  {
    && i < |s.agents| && Applicable(s, op)
    && MapFacts(s, op) && TimerFacts(s, s.agents[i], op) && SendFacts(s, s.agents[i], op)
  }

  lemma AfterRemoval(s: State, i: nat, op: Op, t: nat)
    requires Effects(s, i, op) && SourceFacts(s, s.agents[i], op, t) && t < |s.recs|
    requires Sum(s.agents, SourceOf(t)) == 0
    ensures Sum(NewAgents(s, i, op), SourceOf(t)) == 0
    ensures !(op.Push? && op.attempt.source == Some(t)) && !(op.Count? && op.task == t)
    ensures !(op.Delete? && op.caller.ByRun? && op.caller.task == t)
  {
    PerformSums(s, i, op, SourceOf(t));
    SumNonNegative(NewAgents(s, i, op), SourceOf(t));
    SumAtLeast(s.agents, i, SourceOf(t));
    SourceTaskIsSource(s.agents[i], t);
  }

  lemma OwnDeletion(s: State, i: nat, op: Op, t: nat)
    requires Effects(s, i, op) && Sources(s) && t < |s.recs|
    requires op.Delete? && op.caller.ByRun? && op.caller.task == t
    ensures Sum(NewAgents(s, i, op), SourceOf(t)) == 0
  {
    PerformSums(s, i, op, SourceOf(t));
    SumNonNegative(NewAgents(s, i, op), SourceOf(t));
  }

  lemma KeepOwnEnd(s: State, i: nat, op: Op, t: nat)
    requires Effects(s, i, op) && SourceFacts(s, s.agents[i], op, t) && Sources(s) && Linked(s) && Counts(s)
    requires t < |s.recs|
    ensures t < |NewRecs(s, op)|
    ensures var s' := Perform(s, i, op);
            OwnEnd(s.max, Sent(s', t), Sum(s'.agents, SourceOf(t)), s'.recs[t].fate, t)
  {
    PerformSent(s, i, op, t);
    RecordChange(s, op, t);
    assert Bounded(s, t);
    if op.Delete? && op.caller.ByRun? && op.caller.task == t {
      OwnDeletion(s, i, op, t);
    }
    if Sum(s.agents, SourceOf(t)) == 0 {
      AfterRemoval(s, i, op, t);
    }
  }

  lemma KeepOldBounded(s: State, i: nat, op: Op, t: nat)
    requires Effects(s, i, op) && SourceFacts(s, s.agents[i], op, t) && Sources(s) && Linked(s) && Counts(s)
    requires t < |s.recs|
    ensures t < |NewRecs(s, op)| && Bounded(Perform(s, i, op), t)
  {
    hide OwnEnd, Linked, Sources, SourceFacts;
    PerformSent(s, i, op, t);
    RecordChange(s, op, t);
    assert Bounded(s, t);
    KeepOwnEnd(s, i, op, t);
  }

  lemma KeepBounded(s: State, i: nat, op: Op, t: nat)
    requires Effects(s, i, op) && SourceFacts(s, s.agents[i], op, t) && Sources(s) && Linked(s) && Counts(s)
    requires t < |NewRecs(s, op)|
    ensures Bounded(Perform(s, i, op), t)
  {
    if t < |s.recs| {
      KeepOldBounded(s, i, op, t);
    } else {
      PerformSent(s, i, op, t);
      FreshSent(s, t);
    }
  }

  // The counter and log of a task change only through its one source.
  lemma Untouched(s: State, i: nat, op: Op, j: nat, t: nat)
    requires Effects(s, i, op) && Sources(s) && Counts(s)
    requires j < |s.agents| && j != i && SourceTask(s.agents[j]) == Some(t)
    ensures t < |s.recs| && NewRecs(s, op)[t].cnt == s.recs[t].cnt
    ensures Sent(Perform(s, i, op), t) == Sent(s, t)
    ensures Healthy(s.max, s.recs[t].cnt, Sent(s, t), s.agents[j])
  {
    PerformSent(s, i, op, t);
    RecordChange(s, op, t);
    if SourceTask(s.agents[i]) == Some(t) {
      OneSource(s, i, j, t);
    }
  }

  // The agent that made the step.
  lemma KeepOwnHealthy(s: State, i: nat, op: Op)
    requires Effects(s, i, op) && Counts(s) && SourceTask(op.next).Some?
    requires !op.Insert? ==>
               var t := SourceTask(op.next).value;
               t < |s.recs| && HealthFacts(s, s.agents[i], op, s.recs[t].cnt, Sent(s, t))
    ensures var s' := Perform(s, i, op);
            var t := SourceTask(op.next).value;
            t < |s'.recs| && Healthy(s'.max, s'.recs[t].cnt, Sent(s', t), op.next)
  {
    var t := SourceTask(op.next).value;
    PerformSent(s, i, op, t);
    if op.Insert? {
      FreshSent(s, t);
    } else {
      RecordChange(s, op, t);
    }
  }

  // The timer that the step has armed, if it has.
  lemma KeepNewHealthy(s: State, i: nat, op: Op)
    requires Effects(s, i, op) && Counts(s)
    requires |NewAgents(s, i, op)| > |s.agents| && SourceTask(NewAgents(s, i, op)[|s.agents|]).Some?
    ensures var s' := Perform(s, i, op);
            var t := SourceTask(s'.agents[|s.agents|]).value;
            t < |s'.recs| && Healthy(s'.max, s'.recs[t].cnt, Sent(s', t), s'.agents[|s.agents|])
  {
    var t := SourceTask(NewAgents(s, i, op)[|s.agents|]).value;
    assert SourceTask(s.agents[i]) == Some(t);
    RecordChange(s, op, t);
    PerformSent(s, i, op, t);
  }

  lemma KeepHealthy(s: State, i: nat, op: Op, j: nat)
    requires Effects(s, i, op) && Sources(s) && Counts(s)
    requires SourceTask(op.next).Some? && !op.Insert? ==>
               var t := SourceTask(op.next).value;
               t < |s.recs| && HealthFacts(s, s.agents[i], op, s.recs[t].cnt, Sent(s, t))
    requires j < |NewAgents(s, i, op)| && SourceTask(NewAgents(s, i, op)[j]).Some?
    ensures var s' := Perform(s, i, op);
            var t := SourceTask(s'.agents[j]).value;
            t < |s'.recs| && Healthy(s'.max, s'.recs[t].cnt, Sent(s', t), s'.agents[j])
  {
    hide Sources, Counts, Healthy, HealthFacts;
    if j == i {
      KeepOwnHealthy(s, i, op);
    } else if j < |s.agents| {
      assert Perform(s, i, op).agents[j] == s.agents[j];
      Untouched(s, i, op, j, SourceTask(s.agents[j]).value);
    } else {
      KeepNewHealthy(s, i, op);
    }
  }
}
