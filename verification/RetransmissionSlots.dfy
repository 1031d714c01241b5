// The targets of Handle calls: every target gets at most one first push and at
// most one task.

module RetransmissionSlots {
  import opened Common
  import opened Retransmission
  import opened RetransmissionSums
  import opened RetransmissionInvariant
  import opened RetransmissionCounts
  import Keys

  function CallOf(a: Agent): Option<Call>
  {
    if InHandle(a) || a.Returned? then Some(a.call) else None
  }

  // How many targets the push loop has dealt with, by pushing or by giving up.
  function Pushed(a: Agent): int
  {
    if a.Pushing? then a.idx
    else if InHandle(a) || a.Returned? then |a.call.conns|
    else 0
  }

  // How many targets Manager.Start has dealt with.
  function Started(a: Agent): int
  {
    if a.StartCheck? || a.StartStore? then a.idx
    else if a.StartArm? || a.StartPtr? || a.StartAdd? then a.idx + 1
    else if a.Returned? then |a.call.conns|
    else 0
  }

  // The record of a task and the call it was created by.
  ghost predicate OwnsSlot(s: State, t: nat)
    requires t < |s.recs|
  {
    var r := s.recs[t];
    && r.slot.call < |s.agents|
    && CallOf(s.agents[r.slot.call]).Some?
    && r.slot.idx < Started(s.agents[r.slot.call])
    && r.slot.idx < |CallOf(s.agents[r.slot.call]).value.conns|
    && r.connId == CallOf(s.agents[r.slot.call]).value.conns[r.slot.idx]
    && r.msgId == CallOf(s.agents[r.slot.call]).value.msgId
    && r.key == Keys.TaskKey(r.connId, r.msgId)
  }

  ghost predicate Slots(s: State)
  {
    && (forall t :: 0 <= t < |s.recs| ==> OwnsSlot(s, t))
    && (forall t, u :: 0 <= t < u < |s.recs| ==> s.recs[t].slot != s.recs[u].slot)
  }

  // The push log, slot by slot.
  ghost predicate FirstPushes(s: State, slot: Slot)
  {
    Tally(s.log, FirstOf(slot)) <= One(slot.call < |s.agents| && slot.idx < Pushed(s.agents[slot.call]))
  }

  ghost predicate Attempts(s: State)
  {
    && (forall slot :: FirstPushes(s, slot))
    && (forall t :: 0 <= t < |s.recs| ==>
          Tally(s.log, AllOf(s.recs[t].slot)) == Tally(s.log, FirstOf(s.recs[t].slot)) + Sent(s, t))
    && (forall slot :: (forall t :: 0 <= t < |s.recs| ==> s.recs[t].slot != slot) ==>
          Tally(s.log, AllOf(slot)) == Tally(s.log, FirstOf(slot)))
  }

  ghost predicate HasTask(recs: seq<Task>, key: string)
  {
    exists t :: 0 <= t < |recs| && recs[t].key == key
  }

  // How an operation moves the call of its agent.
  ghost predicate CallFacts(s: State, i: nat, op: Op)
    requires i < |s.agents|
  {
    var a := s.agents[i];
    && CallOf(op.next) == CallOf(a)
    && Pushed(op.next) >= Pushed(a)
    && Started(a) <= Started(op.next) <= Started(a) + 1
    && (op.Insert? ==>
          && CallOf(a).Some?
          && op.record.slot == Slot(i, Started(a)) && Started(op.next) == Started(a) + 1
          && Started(a) < |CallOf(a).value.conns|
          && op.record.connId == CallOf(a).value.conns[Started(a)]
          && op.record.msgId == CallOf(a).value.msgId)
    && (op.Push? && op.attempt.source.None? ==> op.attempt.slot == Slot(i, Pushed(a)) && Pushed(a) < Pushed(op.next))
    && (Started(op.next) > Started(a) && !op.Insert? && !s.closed ==>
          && Started(a) < |CallOf(a).value.conns|
          && Keys.TaskKey(CallOf(a).value.conns[Started(a)], CallOf(a).value.msgId) in s.tasks)
  }

  lemma HandleCalls(s: State, i: nat, c: Choice, op: Op)
    requires OpIs(s, i, c, op) && InHandle(s.agents[i])
    ensures CallFacts(s, i, op)
  {
  }

  lemma OtherCalls(s: State, i: nat, c: Choice, op: Op)
    requires OpIs(s, i, c, op) && !InHandle(s.agents[i])
    ensures CallFacts(s, i, op)
  {
  }

  // Calls and progress of all agents, before and after.
  lemma CallChange(s: State, i: nat, op: Op, j: nat)
    requires i < |s.agents| && Applicable(s, op) && CallFacts(s, i, op)
    requires j < |NewAgents(s, i, op)|
    ensures var a' := NewAgents(s, i, op)[j];
            if j < |s.agents| then
              && CallOf(a') == CallOf(s.agents[j])
              && Started(a') == (if j == i then Started(op.next) else Started(s.agents[j]))
              && Pushed(a') == (if j == i then Pushed(op.next) else Pushed(s.agents[j]))
            else CallOf(a') == None && Started(a') == Pushed(a') == 0
    ensures |s.agents| <= |NewAgents(s, i, op)|
  {
  }

  lemma KeepSlots(s: State, i: nat, op: Op)
    requires i < |s.agents| && Applicable(s, op) && MapFacts(s, op) && CallFacts(s, i, op) && Slots(s)
    ensures Slots(Perform(s, i, op))
  {
    var s' := Perform(s, i, op);
    forall t | 0 <= t < |s'.recs|
      ensures OwnsSlot(s', t)
      ensures forall u :: 0 <= u < t ==> s'.recs[u].slot != s'.recs[t].slot
    {
      KeepSlot(s, i, op, t);
    }
  }

  lemma KeepSlot(s: State, i: nat, op: Op, t: nat)
    requires i < |s.agents| && Applicable(s, op) && MapFacts(s, op) && CallFacts(s, i, op) && Slots(s)
    requires t < |NewRecs(s, op)|
    ensures OwnsSlot(Perform(s, i, op), t)
    ensures forall u :: 0 <= u < t ==> NewRecs(s, op)[u].slot != NewRecs(s, op)[t].slot
  {
    forall u | 0 <= u < t
      ensures NewRecs(s, op)[u].slot != NewRecs(s, op)[t].slot
    {
      RecordChange(s, op, u);
      assert OwnsSlot(s, u);
      if t < |s.recs| {
        RecordChange(s, op, t);
      }
    }
    if t < |s.recs| {
      RecordChange(s, op, t);
      assert OwnsSlot(s, t);
      CallChange(s, i, op, s.recs[t].slot.call);
    } else {
      CallChange(s, i, op, i);
    }
  }

  lemma KeepFirstPushes(s: State, i: nat, op: Op, slot: Slot)
    requires i < |s.agents| && Applicable(s, op) && CallFacts(s, i, op) && FirstPushes(s, slot)
    ensures FirstPushes(Perform(s, i, op), slot)
  {
    if op.Push? {
      TallyAppend(s.log, op.attempt, FirstOf(slot));
    }
    if slot.call < |s.agents| {
      CallChange(s, i, op, slot.call);
    }
  }

  lemma KeepAttempts(s: State, i: nat, op: Op)
    requires Effects(s, i, op) && CallFacts(s, i, op) && Slots(s) && Counts(s) && Attempts(s)
    ensures Attempts(Perform(s, i, op))
  {
    var s' := Perform(s, i, op);
    forall slot
      ensures FirstPushes(s', slot)
      ensures (forall t :: 0 <= t < |s'.recs| ==> s'.recs[t].slot != slot) ==>
          Tally(s'.log, AllOf(slot)) == Tally(s'.log, FirstOf(slot))
    {
      assert FirstPushes(s, slot);
      KeepFirstPushes(s, i, op, slot);
      if forall t :: 0 <= t < |s'.recs| ==> s'.recs[t].slot != slot {
        KeepIdleSlot(s, i, op, slot);
      }
    }
    forall t | 0 <= t < |s'.recs|
      ensures Tally(s'.log, AllOf(s'.recs[t].slot)) == Tally(s'.log, FirstOf(s'.recs[t].slot)) + Sent(s', t)
    {
      KeepTaskAttempts(s, i, op, t);
    }
  }

  lemma KeepIdleSlot(s: State, i: nat, op: Op, slot: Slot)
    requires Effects(s, i, op) && Attempts(s)
    requires forall t :: 0 <= t < |NewRecs(s, op)| ==> NewRecs(s, op)[t].slot != slot
    ensures Tally(NewLog(s, op), AllOf(slot)) == Tally(NewLog(s, op), FirstOf(slot))
  {
    forall t | 0 <= t < |s.recs|
      ensures s.recs[t].slot != slot
    {
      RecordChange(s, op, t);
    }
    if op.Push? {
      TallyAppend(s.log, op.attempt, AllOf(slot));
      TallyAppend(s.log, op.attempt, FirstOf(slot));
    }
  }

  lemma KeepTaskAttempts(s: State, i: nat, op: Op, t: nat)
    requires Effects(s, i, op) && CallFacts(s, i, op) && Slots(s) && Counts(s) && Attempts(s)
    requires t < |NewRecs(s, op)|
    ensures var slot := NewRecs(s, op)[t].slot;
            Tally(NewLog(s, op), AllOf(slot)) == Tally(NewLog(s, op), FirstOf(slot)) + Sent(Perform(s, i, op), t)
  {
    var slot := NewRecs(s, op)[t].slot;
    PerformSent(s, i, op, t);
    if t < |s.recs| {
      RecordChange(s, op, t);
      if op.Push? {
        TallyAppend(s.log, op.attempt, AllOf(slot));
        TallyAppend(s.log, op.attempt, FirstOf(slot));
      }
    } else {
      FreshSent(s, t);
      FreshSlot(s, i, op);
    }
  }

  lemma FreshSlot(s: State, i: nat, op: Op)
    requires Effects(s, i, op) && CallFacts(s, i, op) && Slots(s) && op.Insert?
    ensures forall u :: 0 <= u < |s.recs| ==> s.recs[u].slot != op.record.slot
  {
    forall u | 0 <= u < |s.recs|
      ensures s.recs[u].slot != op.record.slot
    {
      assert OwnsSlot(s, u);
    }
  }
}
