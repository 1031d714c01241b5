// Where the protocol falls short of what its comments promise: a run for each of two
// races. RetransmissionRestarts says exactly when they happen.

module RetransmissionRaces {
  import opened Common
  import opened Retransmission
  import opened RetransmissionSums
  import opened RetransmissionRuns
  import Keys

  // ---------- building runs ----------

  lemma LeadsFromStart(maxRetryCnt: int, s: State)
    requires maxRetryCnt <= MAX_INT32 && Leads(NewManager(maxRetryCnt), s)
    ensures Reachable(s)
  {
    var states, moves :| IsRun(states, moves) && states[0] == NewManager(maxRetryCnt) && states[|moves|] == s;
    assert IsHistory(maxRetryCnt, states, moves);
  }

  // Agent i makes its next step.
  lemma Next(s: State, s': State, i: nat, c: Choice) returns (s'': State)
    requires Leads(s, s') && i < |s'.agents| && Refers(|s'.recs|, |s'.agents|, s'.agents[i])
    requires Operation(s', i, c).Some? && Applicable(s', Operation(s', i, c).value)
    ensures Leads(s, s'') && s'' == Perform(s', i, Operation(s', i, c).value)
  {
    s'' := Perform(s', i, Operation(s', i, c).value);
    LeadsStep(s', Act(i, c), s'');
    LeadsTransitive(s, s', s'');
  }

  lemma Call(s: State, s': State, a: Agent) returns (s'': State)
    requires Leads(s, s') && EntryPoint(a)
    ensures Leads(s, s'') && s'' == Spawned(s', a)
  {
    s'' := Spawned(s', a);
    LeadsStep(s', Spawn(a), s'');
    LeadsTransitive(s, s', s'');
  }

  // ---------- the early ack ----------

  // The push is out, the ack came and went, Start has not begun.
  function Acked(call: Retransmission.Call): State
  {
    State(3, false, map[], [], [Pushing(call, 1), Done], 0, [Attempt(Slot(0, 0), None)])
  }

  // The task of the message, with its timer armed.
  function Awaiting(call: Retransmission.Call, connId: string): State
  {
    var key := Keys.TaskKey(connId, call.msgId);
    var task := Task(key, connId, call.msgId, Slot(0, 0), 0, None, 0, 0, Registered);
    Acked(call).(tasks := map[key := 0], recs := [task],
                 agents := [StartPtr(call, 0, 0, 2), Done, Armed(0)])
  }

  lemma AckComesEarly(call: Retransmission.Call, connId: string)
    requires call.conns == [connId]
    ensures Leads(NewManager(3), Acked(call))
  {
    var s0 := NewManager(3);
    LeadsNowhere(s0);
    var s := Call(s0, s0, Pushing(call, 0));
    s := Next(s0, s, 0, Go);
    s := Call(s0, s, StopLoad(Keys.TaskKey(connId, call.msgId)));
    s := Next(s0, s, 1, Go);
    assert s == Acked(call);
  }

  lemma StartComesLate(call: Retransmission.Call, connId: string)
    requires call.conns == [connId]
    ensures Leads(Acked(call), Awaiting(call, connId))
  {
    var s0 := Acked(call);
    LeadsNowhere(s0);
    var s := Next(s0, s0, 0, Go);
    s := Next(s0, s, 0, Go);
    s := Next(s0, s, 0, Go);
    s := Next(s0, s, 0, Go);
    assert s == Awaiting(call, connId);
  }

  // The armed timer has fired and its callback has got as far as the push.
  function AboutToPush(call: Retransmission.Call, connId: string): State
  {
    var s := Awaiting(call, connId);
    s.(agents := s.agents[2 := RunPush(0)], recs := [s.recs[0].(cnt := 1)])
  }

  lemma CallbackGetsToPush(call: Retransmission.Call, connId: string)
    requires call.conns == [connId]
    ensures Leads(Awaiting(call, connId), AboutToPush(call, connId))
  {
    var s0 := Awaiting(call, connId);
    LeadsNowhere(s0);
    var s := Next(s0, s0, 2, Go);
    s := Next(s0, s, 2, Go);
    s := Next(s0, s, 2, Go);
    s := Next(s0, s, 2, Go);
    assert s == AboutToPush(call, connId);
  }

  lemma CallbackPushes(call: Retransmission.Call, connId: string) returns (s: State)
    requires call.conns == [connId]
    ensures Leads(AboutToPush(call, connId), s) && Sent(s, 0) == 1
  {
    var s0 := AboutToPush(call, connId);
    LeadsNowhere(s0);
    s := Next(s0, s0, 2, Go);
    TallyAppend([Attempt(Slot(0, 0), None)], Attempt(Slot(0, 0), Some(0)), SentBy(0));
    TallyAppend([], Attempt(Slot(0, 0), None), SentBy(0));
  }

  // The deferred Start comes after the push, so a client may ack before there is a
  // task: the ack stops nothing, and the message it acked is sent again.
  lemma EarlyAckStopsNothing(connId: string, msgId: string) returns (acked: State, later: State)
    ensures Reachable(acked) && |acked.agents| == 2 && acked.agents[1] == Done && acked.recs == []
    ensures Leads(acked, later) && Sent(later, 0) == 1
  {
    var call := Retransmission.Call([connId], msgId);
    acked := Acked(call);
    AckComesEarly(call, connId);
    LeadsFromStart(3, acked);
    later := CallbackPushes(call, connId);
    StartComesLate(call, connId);
    CallbackGetsToPush(call, connId);
    LeadsTransitive(acked, Awaiting(call, connId), AboutToPush(call, connId));
    LeadsTransitive(acked, AboutToPush(call, connId), later);
  }

  // ---------- the stale callback ----------

  // The timer of task 0 has fired, and an ack has removed task 0 before its callback looks.
  function Orphaned(call: Retransmission.Call, connId: string): State
  {
    var s := Awaiting(call, connId);
    var ack := ByAck(Keys.TaskKey(connId, call.msgId));
    s.(tasks := map[], recs := [s.recs[0].(fate := Removed(ack))],
       agents := [s.agents[0], Done, RunLoad(0), DeletePtr(0, ack)])
  }

  // The backend has pushed the same message again: task 1 has the key of task 0.
  function Reborn(call: Retransmission.Call, connId: string): State
  {
    var s := Orphaned(call, connId);
    var key := Keys.TaskKey(connId, call.msgId);
    var task := Task(key, connId, call.msgId, Slot(4, 0), 0, None, 0, 0, Registered);
    s.(tasks := map[key := 1], recs := s.recs + [task],
       agents := s.agents + [StartArm(call, 0, 1)], log := s.log + [Attempt(Slot(4, 0), None)])
  }

  lemma AckOvertakesCallback(call: Retransmission.Call, connId: string)
    requires call.conns == [connId]
    ensures Leads(Awaiting(call, connId), Orphaned(call, connId))
  {
    var s0 := Awaiting(call, connId);
    var key := Keys.TaskKey(connId, call.msgId);
    LeadsNowhere(s0);
    var s := Next(s0, s0, 2, Go);
    s := Call(s0, s, StopLoad(key));
    s := Next(s0, s, 3, Go);
    s := Next(s0, s, 3, Go);
    assert map[key := 0] - {key} == map[];
    assert s == Orphaned(call, connId);
  }

  lemma MessageComesAgain(call: Retransmission.Call, connId: string)
    requires call.conns == [connId]
    ensures Leads(Orphaned(call, connId), Reborn(call, connId))
  {
    var s0 := Orphaned(call, connId);
    LeadsNowhere(s0);
    var s := Call(s0, s0, Pushing(call, 0));
    s := Next(s0, s, 4, Go);
    s := Next(s0, s, 4, Go);
    s := Next(s0, s, 4, Go);
    s := Next(s0, s, 4, Go);
    assert s == Reborn(call, connId);
  }

  // The callback of task 0 has found the key and is about to push.
  function Revived(call: Retransmission.Call, connId: string): State
  {
    var s := Reborn(call, connId);
    s.(agents := s.agents[2 := RunPush(0)], recs := s.recs[0 := s.recs[0].(cnt := 1)])
  }

  lemma StaleCallbackGoesOn(call: Retransmission.Call, connId: string)
    requires call.conns == [connId]
    ensures Leads(Reborn(call, connId), Revived(call, connId))
  {
    var s0 := Reborn(call, connId);
    LeadsNowhere(s0);
    var s := Next(s0, s0, 2, Go);
    s := Next(s0, s, 2, Go);
    s := Next(s0, s, 2, Go);
    assert s == Revived(call, connId);
  }

  lemma StaleCallbackDeletes(call: Retransmission.Call, connId: string) returns (s: State)
    requires call.conns == [connId]
    ensures Leads(Revived(call, connId), s)
    ensures var s0 := Revived(call, connId);
            s.recs == [s0.recs[0], s0.recs[1].(fate := Removed(ByRun(0, PushFailed)))]
  {
    var s0 := Revived(call, connId);
    LeadsNowhere(s0);
    s := Next(s0, s0, 2, Fail);
    s := Next(s0, s, 2, Go);
  }

  // A stale callback whose push fails takes its successor out of the map, so the
  // second message loses its retransmission although nobody acked or stopped it.
  lemma StaleCallbackDropsSuccessor(connId: string, msgId: string) returns (s: State)
    ensures Reachable(s) && |s.recs| == 2
    ensures s.recs[0].key == s.recs[1].key
    ensures s.recs[0].fate == Removed(ByAck(s.recs[0].key))
    ensures s.recs[1].fate == Removed(ByRun(0, PushFailed))
  {
    var call := Retransmission.Call([connId], msgId);
    var s0 := NewManager(3);
    AckComesEarly(call, connId);
    StartComesLate(call, connId);
    AckOvertakesCallback(call, connId);
    MessageComesAgain(call, connId);
    StaleCallbackGoesOn(call, connId);
    s := StaleCallbackDeletes(call, connId);
    LeadsTransitive(s0, Acked(call), Awaiting(call, connId));
    LeadsTransitive(s0, Awaiting(call, connId), Orphaned(call, connId));
    LeadsTransitive(s0, Orphaned(call, connId), Reborn(call, connId));
    LeadsTransitive(s0, Reborn(call, connId), Revived(call, connId));
    LeadsTransitive(s0, Revived(call, connId), s);
    LeadsFromStart(3, s);
  }

  // ---------- the callback under way ----------

  // The callback of task 0 is past its look when an ack removes task 0.
  function AckedWhilePushing(call: Retransmission.Call, connId: string): State
  {
    var s := AboutToPush(call, connId);
    var ack := ByAck(Keys.TaskKey(connId, call.msgId));
    s.(tasks := map[], recs := [s.recs[0].(fate := Removed(ack))], agents := s.agents + [DeletePtr(0, ack)])
  }

  // And then the backend pushes the message again.
  function PushedAgain(call: Retransmission.Call, connId: string): State
  {
    var s := AckedWhilePushing(call, connId);
    var key := Keys.TaskKey(connId, call.msgId);
    var task := Task(key, connId, call.msgId, Slot(4, 0), 0, None, 0, 0, Registered);
    s.(tasks := map[key := 1], recs := s.recs + [task],
       agents := s.agents + [StartArm(call, 0, 1)], log := s.log + [Attempt(Slot(4, 0), None)])
  }

  lemma AckOvertakesPush(call: Retransmission.Call, connId: string)
    requires call.conns == [connId]
    ensures Leads(AboutToPush(call, connId), AckedWhilePushing(call, connId))
  {
    var s0 := AboutToPush(call, connId);
    var key := Keys.TaskKey(connId, call.msgId);
    LeadsNowhere(s0);
    var s := Call(s0, s0, StopLoad(key));
    s := Next(s0, s, 3, Go);
    s := Next(s0, s, 3, Go);
    assert map[key := 0] - {key} == map[];
    assert s == AckedWhilePushing(call, connId);
  }

  lemma MessageIsPushedAgain(call: Retransmission.Call, connId: string)
    requires call.conns == [connId]
    ensures Leads(AckedWhilePushing(call, connId), PushedAgain(call, connId))
  {
    var s0 := AckedWhilePushing(call, connId);
    LeadsNowhere(s0);
    var s := Call(s0, s0, Pushing(call, 0));
    s := Next(s0, s, 4, Go);
    s := Next(s0, s, 4, Go);
    s := Next(s0, s, 4, Go);
    s := Next(s0, s, 4, Go);
    assert s == PushedAgain(call, connId);
  }

  // A callback that found its own task drops the next one of its key too, when its push fails.
  lemma CallbackUnderWayDropsSuccessor(connId: string, msgId: string) returns (s: State)
    ensures Reachable(s) && |s.recs| == 2
    ensures s.recs[0].key == s.recs[1].key
    ensures s.recs[0].fate == Removed(ByAck(s.recs[0].key))
    ensures s.recs[1].fate == Removed(ByRun(0, PushFailed))
  {
    var call := Retransmission.Call([connId], msgId);
    var s0, s1 := NewManager(3), PushedAgain(call, connId);
    AckComesEarly(call, connId);
    StartComesLate(call, connId);
    CallbackGetsToPush(call, connId);
    AckOvertakesPush(call, connId);
    MessageIsPushedAgain(call, connId);
    LeadsTransitive(s0, Acked(call), Awaiting(call, connId));
    LeadsTransitive(s0, Awaiting(call, connId), AboutToPush(call, connId));
    LeadsTransitive(s0, AboutToPush(call, connId), AckedWhilePushing(call, connId));
    LeadsTransitive(s0, AckedWhilePushing(call, connId), s1);
    s := PushFails(call, connId);
    LeadsTransitive(s0, s1, s);
    LeadsFromStart(3, s);
  }

  lemma PushFails(call: Retransmission.Call, connId: string) returns (s: State)
    requires call.conns == [connId]
    ensures Leads(PushedAgain(call, connId), s)
    ensures var s0 := PushedAgain(call, connId);
            s.recs == [s0.recs[0], s0.recs[1].(fate := Removed(ByRun(0, PushFailed)))]
  {
    var s0 := PushedAgain(call, connId);
    LeadsNowhere(s0);
    s := Next(s0, s0, 2, Fail);
    s := Next(s0, s, 2, Go);
  }

  // ---------- orphans ----------

  // The ack of the message has taken the one task out of the map and is about to stop it.
  function AckDeletes(s: State, key: string): State
    requires |s.recs| == 1
  {
    s.(tasks := map[], recs := [s.recs[0].(fate := Removed(ByAck(key)))],
       agents := s.agents + [DeletePtr(0, ByAck(key))])
  }

  lemma AckComes(s0: State, key: string)
    requires s0.tasks == map[key := 0] && |s0.recs| == 1
    ensures Leads(s0, AckDeletes(s0, key))
  {
    var i := |s0.agents|;
    LeadsNowhere(s0);
    var s := Call(s0, s0, StopLoad(key));
    s := Next(s0, s, i, Go);
    s := Next(s0, s, i, Go);
    assert map[key := 0] - {key} == map[];
    assert s == AckDeletes(s0, key);
  }

  // It has returned, and has stopped the timer of the pointer, if there was one.
  lemma AckReturns(s0: State, i: nat, ack: Caller) returns (s: State)
    requires |s0.recs| == 1 && i < |s0.agents| && s0.agents[i] == DeletePtr(0, ack) && ack.ByAck?
    requires s0.recs[0].timer.Some? ==> s0.recs[0].timer.value < |s0.agents|
    ensures Leads(s0, s) && |s.agents| == |s0.agents| && s.agents[i] == Done
    ensures |s.recs| == 1 && s.recs[0].key == s0.recs[0].key
    ensures s.recs[0].fate == s0.recs[0].fate && s.recs[0].timer == s0.recs[0].timer
    ensures forall j :: 0 <= j < |s0.agents| && j != i && s0.recs[0].timer != Some(j) ==> s.agents[j] == s0.agents[j]
  {
    LeadsNowhere(s0);
    s := Next(s0, s0, i, Go);
    if s0.recs[0].timer.Some? {
      s := Next(s0, s, i, Go);
    }
    s := Next(s0, s, i, Go);
  }

  // The ack of the message comes, stops the task and returns.
  lemma AckStops(s0: State, key: string) returns (s: State)
    requires s0.tasks == map[key := 0] && |s0.recs| == 1 && s0.recs[0].key == key
    requires s0.recs[0].timer.Some? ==> s0.recs[0].timer.value < |s0.agents|
    ensures Leads(s0, s) && |s.agents| == |s0.agents| + 1 && s.agents[|s0.agents|] == Done
    ensures |s.recs| == 1 && s.recs[0].key == key
    ensures s.recs[0].fate == Removed(ByAck(key)) && s.recs[0].timer == s0.recs[0].timer
    ensures forall j :: 0 <= j < |s0.agents| && s0.recs[0].timer != Some(j) ==> s.agents[j] == s0.agents[j]
  {
    var s1 := AckDeletes(s0, key);
    AckComes(s0, key);
    hide Leads;
    s := AckReturns(s1, |s0.agents|, ByAck(key));
    LeadsTransitive(s0, s1, s);
  }

  // The timer is armed and its pointer not stored yet: the ack finds nil and stops nothing.
  lemma NilPointerLeavesOrphan(connId: string, msgId: string) returns (s: State)
    ensures Reachable(s) && |s.recs| == 1 && s.recs[0].fate == Removed(ByAck(s.recs[0].key))
    ensures |s.agents| == 4 && s.agents[3] == Done && s.agents[2] == Armed(0) && s.recs[0].timer == None
  {
    hide Leads, Reachable;
    var call := Retransmission.Call([connId], msgId);
    var s0, s1 := NewManager(3), Awaiting(call, connId);
    AckComesEarly(call, connId);
    StartComesLate(call, connId);
    LeadsTransitive(s0, Acked(call), s1);
    s := AckStops(s1, Keys.TaskKey(connId, msgId));
    LeadsTransitive(s0, s1, s);
    LeadsFromStart(3, s);
  }

  // The callback has armed the next timer and not stored its pointer yet.
  function Rearmed(call: Retransmission.Call, connId: string): State
  {
    var s := Awaiting(call, connId);
    s.(recs := [s.recs[0].(timer := Some(2), cnt := 1)],
       agents := [StartAdd(call, 0, 0), Done, RunPtr(0, 3), Armed(0)], log := s.log + [Attempt(Slot(0, 0), Some(0))])
  }

  lemma CallbackRearms(call: Retransmission.Call, connId: string)
    requires call.conns == [connId]
    ensures Leads(AboutToPush(call, connId), Rearmed(call, connId))
  {
    var s0 := AboutToPush(call, connId);
    LeadsNowhere(s0);
    var s := Next(s0, s0, 0, Go);
    s := Next(s0, s, 2, Go);
    s := Next(s0, s, 2, Go);
    assert s == Rearmed(call, connId);
  }

  // The ack stops the timer of the pointer, which has fired long ago.
  lemma StalePointerLeavesOrphan(connId: string, msgId: string) returns (s: State)
    ensures Reachable(s) && |s.recs| == 1 && s.recs[0].fate == Removed(ByAck(s.recs[0].key))
    ensures |s.agents| == 5 && s.agents[4] == Done && s.agents[3] == Armed(0) && s.recs[0].timer == Some(2)
  {
    hide Leads, Reachable;
    var call := Retransmission.Call([connId], msgId);
    var s0, s1 := NewManager(3), Rearmed(call, connId);
    AckComesEarly(call, connId);
    StartComesLate(call, connId);
    CallbackGetsToPush(call, connId);
    CallbackRearms(call, connId);
    LeadsTransitive(s0, Acked(call), Awaiting(call, connId));
    LeadsTransitive(s0, Awaiting(call, connId), AboutToPush(call, connId));
    LeadsTransitive(s0, AboutToPush(call, connId), s1);
    s := AckStops(s1, Keys.TaskKey(connId, msgId));
    LeadsTransitive(s0, s1, s);
    LeadsFromStart(3, s);
  }
}
