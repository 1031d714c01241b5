// When the ack of a message is final: from a state on in which its key is out of the map,
// who can still start a task of the key, and what is sent if nobody can.

module RetransmissionRestarts {
  import opened Common
  import opened Retransmission
  import opened RetransmissionSums
  import opened RetransmissionInvariant
  import opened RetransmissionHistory
  import opened RetransmissionRuns
  import opened RetransmissionTheorems
  import Keys

  // ---------- single steps ----------

  ghost predicate CanAct(s: State, i: nat, c: Choice)
  {
    && i < |s.agents| && Refers(|s.recs|, |s.agents|, s.agents[i])
    && Operation(s, i, c).Some? && Applicable(s, Operation(s, i, c).value)
  }

  ghost function After(s: State, i: nat, c: Choice): State
    requires CanAct(s, i, c)
  {
    Perform(s, i, Operation(s, i, c).value)
  }

  // ---------- who may start a task ----------

  // Some target of the call, from the given one on, has the key.
  ghost predicate Aims(call: Call, from: int, key: string)
  {
    exists k :: from <= k < |call.conns| && 0 <= k && Keys.TaskKey(call.conns[k], call.msgId) == key
  }

  // The first target whose start has not begun.
  function Upcoming(a: Agent): int
  {
    if a.Pushing? then 0
    else if a.StartCheck? then a.idx
    else if InHandle(a) then a.idx + 1
    else 0
  }

  // The agent may still store a task under the key: it stands before the store, or will
  // come to it if it finds the manager open.
  ghost predicate MayStart(closed: bool, a: Agent, key: string)
  {
    || (a.StartStore? && a.idx < |a.call.conns| && Keys.TaskKey(a.call.conns[a.idx], a.call.msgId) == key)
    || (!closed && InHandle(a) && Aims(a.call, Upcoming(a), key))
  }

  ghost predicate SomeMayStart(s: State, key: string)
  {
    exists i :: 0 <= i < |s.agents| && MayStart(s.closed, s.agents[i], key)
  }

  // No new Handle call has a target with the key.
  ghost predicate NotSentAnew(moves: seq<Move>, key: string)
  {
    forall n :: 0 <= n < |moves| && moves[n].Spawn? && moves[n].agent.Pushing? ==> !Aims(moves[n].agent.call, 0, key)
  }

  ghost predicate LeadsWithout(s: State, s': State, key: string)
  {
    exists states, moves ::
      IsRun(states, moves) && states[0] == s && states[|moves|] == s' && NotSentAnew(moves, key)
  }

  lemma LeadsNowhereWithout(s: State, key: string)
    ensures LeadsWithout(s, s, key)
  {
    var states, moves: seq<Move> := [s], [];
    assert IsRun(states, moves) && NotSentAnew(moves, key);
  }

  lemma LeadsOnWithout(s: State, s': State, s'': State, key: string)
    requires LeadsWithout(s, s', key) && LeadsWithout(s', s'', key)
    ensures LeadsWithout(s, s'', key)
  {
    var states, moves :|
      IsRun(states, moves) && states[0] == s && states[|moves|] == s' && NotSentAnew(moves, key);
    var states', moves' :|
      IsRun(states', moves') && states'[0] == s' && states'[|moves'|] == s'' && NotSentAnew(moves', key);
    JoinRuns(states, moves, states', moves');
    assert NotSentAnew(moves + moves', key);
  }

  // One step of an agent.
  lemma Proceeds(s: State, i: nat, c: Choice, key: string)
    requires Reachable(s) && CanAct(s, i, c)
    ensures LeadsWithout(s, After(s, i, c), key) && Reachable(After(s, i, c))
  {
    var s', move := After(s, i, c), Act(i, c);
    assert Takes(s, move, s');
    ReachableStep(s, move, s');
    assert StepAt([s, s'], [move], 0);
    assert IsRun([s, s'], [move]) && NotSentAnew([move], key);
  }

  lemma PrefixLeads(states: seq<State>, moves: seq<Move>, n: nat, key: string)
    requires IsRun(states, moves) && NotSentAnew(moves, key) && n < |states|
    ensures LeadsWithout(states[0], states[n], key)
  {
    var first, before := states[..n + 1], moves[..n];
    forall m | 0 <= m < n
      ensures StepAt(first, before, m)
    {
      assert StepAt(states, moves, m);
    }
    assert IsRun(first, before) && first[0] == states[0] && first[|before|] == states[n];
    forall m | 0 <= m < |before| && before[m].Spawn? && before[m].agent.Pushing?
      ensures !Aims(before[m].agent.call, 0, key)
    {
      assert before[m] == moves[m];
    }
  }

  lemma LeadsKeeps(s: State, s': State, key: string)
    requires Reachable(s) && LeadsWithout(s, s', key)
    ensures Reachable(s') && Extends(s.recs, s'.recs)
  {
    var states, moves :|
      IsRun(states, moves) && states[0] == s && states[|moves|] == s' && NotSentAnew(moves, key);
    StaysReachable(states, moves);
    RunExtends(states, moves, |moves|);
  }

  // Task t of s' has the key and was created after s.
  ghost predicate Restarted(s: State, s': State, key: string, t: int)
  {
    |s.recs| <= t < |s'.recs| && s'.recs[t].key == key
  }

  // ---------- without such an agent the key is never stored ----------

  lemma NoStartOperation(s: State, i: nat, c: Choice, op: Op, key: string)
    requires OpIs(s, i, c, op) && !MayStart(s.closed, s.agents[i], key)
    ensures !MayStart(s.closed || op.Swap?, op.next, key)
    ensures op.Insert? ==> op.record.key != key
  {
    hide MayStart;
    if InHandle(s.agents[i]) {
      NoStartHandle(s, i, c, op, key);
    } else {
      NotInHandle(s, i, c, op);
      OnlyHandleStarts(s.closed || op.Swap?, op.next, key);
    }
  }

  lemma NotInHandle(s: State, i: nat, c: Choice, op: Op)
    requires OpIs(s, i, c, op) && !InHandle(s.agents[i])
    ensures !InHandle(op.next) && !op.Insert?
  {
  }

  lemma OnlyHandleStarts(closed: bool, a: Agent, key: string)
    ensures MayStart(closed, a, key) ==> InHandle(a)
  {
  }

  lemma NoStartHandle(s: State, i: nat, c: Choice, op: Op, key: string)
    requires i < |s.agents| && Refers(|s.recs|, |s.agents|, s.agents[i]) && InHandle(s.agents[i])
    requires HandleOperation(s, i, c) == Some(op) && !MayStart(s.closed, s.agents[i], key)
    ensures !op.Swap? && !MayStart(s.closed, op.next, key)
    ensures op.Insert? ==> op.record.key != key
  {
    var a := s.agents[i];
    if InHandle(op.next) && Aims(op.next.call, Upcoming(op.next), key) {
      var k :| Upcoming(op.next) <= k < |a.call.conns| && 0 <= k && Keys.TaskKey(a.call.conns[k], a.call.msgId) == key;
      assert Aims(a.call, Upcoming(a), key);
    }
  }

  // From s0 on nothing has been stored under the key, and nobody can any more.
  ghost predicate Unstarted(s0: State, s: State, key: string)
  {
    && |s0.recs| <= |s.recs| && !SomeMayStart(s, key)
    && forall t :: |s0.recs| <= t < |s.recs| ==> s.recs[t].key != key
  }

  lemma UnstartedAct(s0: State, s: State, i: nat, c: Choice, op: Op, key: string)
    requires OpIs(s, i, c, op) && Unstarted(s0, s, key)
    ensures Unstarted(s0, Perform(s, i, op), key)
  {
    NoStartOperation(s, i, c, op, key);
    var s' := Perform(s, i, op);
    forall t | 0 <= t < |s.recs|
      ensures |NewRecs(s, op)| >= |s.recs| && NewRecs(s, op)[t].key == s.recs[t].key
    {
      RecordChange(s, op, t);
    }
    forall j | 0 <= j < |s'.agents|
      ensures !MayStart(s'.closed, s'.agents[j], key)
    {
      if j < |s.agents| && j != i {
        assert !MayStart(s.closed, s.agents[j], key);
      }
    }
  }

  lemma UnstartedTake(s0: State, s: State, move: Move, s': State, key: string)
    requires Takes(s, move, s') && Unstarted(s0, s, key)
    requires move.Spawn? && move.agent.Pushing? ==> !Aims(move.agent.call, 0, key)
    ensures Unstarted(s0, s', key)
  {
    match move
    case Spawn(a) =>
      forall j | 0 <= j < |s'.agents|
        ensures !MayStart(s'.closed, s'.agents[j], key)
      {
        if j < |s.agents| {
          assert !MayStart(s.closed, s.agents[j], key);
        }
      }
    case Act(i, c) => UnstartedAct(s0, s, i, c, Operation(s, i, c).value, key);
  }

  lemma NeverStarted(s: State, s': State, key: string)
    requires !SomeMayStart(s, key) && LeadsWithout(s, s', key)
    ensures Unstarted(s, s', key)
  {
    var states, moves :|
      IsRun(states, moves) && states[0] == s && states[|moves|] == s' && NotSentAnew(moves, key);
    forall m: nat | m < |moves| && StepAt(states, moves, m) && Unstarted(s, states[m], key)
      ensures Unstarted(s, states[m + 1], key)
    {
      UnstartedTake(s, states[m], moves[m], states[m + 1], key);
    }
    RunInduction(states, moves, (m: nat) => m < |states| && Unstarted(s, states[m], key), |moves|);
  }

  // The key stays out of the map, and no task of it is created.
  lemma KeyStaysOut(s: State, s': State, key: string)
    requires Reachable(s) && key !in s.tasks && !SomeMayStart(s, key) && LeadsWithout(s, s', key)
    ensures key !in s'.tasks && !SomeMayStart(s', key)
    ensures forall t :: 0 <= t < |s'.recs| && s'.recs[t].key == key ==> t < |s.recs|
  {
    NeverStarted(s, s', key);
    LeadsKeeps(s, s', key);
    ReachableInv(s);
    ReachableInv(s');
    hide Reachable, LeadsWithout, SomeMayStart;
    assert forall t :: 0 <= t < |s.recs| && s'.recs[t].fate.Registered? ==> s.recs[t].key in s.tasks;
  }

  // ---------- with one it can be ----------

  // How many steps a Handle call has still to make, at least.
  function Ahead(a: Agent): int
  {
    if a.Pushing? then 6 * |a.call.conns| + 6
    else if a.StartCheck? then 6 * (|a.call.conns| - a.idx) + 5
    else if a.StartStore? then 6 * (|a.call.conns| - a.idx) + 4
    else if a.StartArm? then 6 * (|a.call.conns| - a.idx) + 3
    else if a.StartPtr? then 6 * (|a.call.conns| - a.idx) + 2
    else if a.StartAdd? then 6 * (|a.call.conns| - a.idx) + 1
    else 0
  }

  // The push loop is left at once, everything else takes its course.
  function Hurry(a: Agent): Choice
  {
    if a.Pushing? && a.idx < |a.call.conns| then Fail else Go
  }

  // One step brings such an agent nearer to the store, or is the store.
  lemma HurryStep(s: State, i: nat, key: string)
    requires i < |s.agents| && Refers(|s.recs|, |s.agents|, s.agents[i]) && MayStart(s.closed, s.agents[i], key)
    requires key !in s.tasks
    ensures CanAct(s, i, Hurry(s.agents[i]))
    ensures var s1 := After(s, i, Hurry(s.agents[i]));
            && |s.recs| <= |s1.recs| && s1.closed == s.closed && s1.max == s.max
            && (if key in s1.tasks then
                  && |s1.recs| == |s.recs| + 1 && s1.recs[|s.recs|].key == key && s1.tasks[key] == |s.recs|
                  && s1.recs[|s.recs|].cnt == 0
                  && i < |s1.agents| && s1.agents[i].StartArm? && s1.agents[i].task == |s.recs|
                else
                  && i < |s1.agents| && MayStart(s1.closed, s1.agents[i], key)
                  && 0 <= Ahead(s1.agents[i]) < Ahead(s.agents[i]))
  {
    var a := s.agents[i];
    if Aims(a.call, Upcoming(a), key) {
      var k :| Upcoming(a) <= k < |a.call.conns| && 0 <= k && Keys.TaskKey(a.call.conns[k], a.call.msgId) == key;
    }
  }

  // A Handle call stops no timer: the other agents stay as they are.
  lemma HandleLeavesOthers(s: State, i: nat, c: Choice)
    requires CanAct(s, i, c) && InHandle(s.agents[i])
    ensures var s1 := After(s, i, c);
            |s.agents| <= |s1.agents| && forall j :: 0 <= j < |s.agents| && j != i ==> s1.agents[j] == s.agents[j]
  {
  }

  // A task of the key has just been stored by agent i, and the others are where they were.
  ghost predicate Stored(s: State, s': State, i: nat, key: string)
  {
    && |s.recs| < |s'.recs| && s'.max == s.max && key in s'.tasks && s'.tasks[key] == |s'.recs| - 1
    && s'.recs[|s'.recs| - 1].key == key && s'.recs[|s'.recs| - 1].cnt == 0
    && i < |s'.agents| && s'.agents[i].StartArm? && s'.agents[i].task == |s'.recs| - 1
    && |s.agents| <= |s'.agents| && forall j :: 0 <= j < |s.agents| && j != i ==> s'.agents[j] == s.agents[j]
  }

  lemma ReachableRefers(s: State, i: nat)
    requires Reachable(s) && i < |s.agents|
    ensures Refers(|s.recs|, |s.agents|, s.agents[i]) && forall k :: k in s.tasks ==> s.tasks[k] < |s.recs|
  {
    ReachableInv(s);
  }

  // The agent, left alone, stores the key, and has the new task's timer to arm.
  lemma {:induction false} HurriesToStore(s: State, i: nat, key: string) returns (s': State)
    requires Reachable(s) && i < |s.agents| && MayStart(s.closed, s.agents[i], key) && key !in s.tasks
    ensures LeadsWithout(s, s', key) && Reachable(s') && Stored(s, s', i, key)
    decreases Ahead(s.agents[i])
  {
    var c := Hurry(s.agents[i]);
    ReachableRefers(s, i);
    HurryStep(s, i, key);
    OnlyHandleStarts(s.closed, s.agents[i], key);
    HandleLeavesOthers(s, i, c);
    Proceeds(s, i, c, key);
    hide CanAct, After, Reachable, LeadsWithout, MayStart;
    s' := After(s, i, c);
    if key !in s'.tasks {
      var s1 := s';
      s' := HurriesToStore(s1, i, key);
      LeadsOnWithout(s, s1, s', key);
    }
  }

  // ---------- the main results ----------

  // Right after an ack has found no task of its key, or has removed the one it found, the
  // key is not in the map. Unless the backend sends the message anew, another task of
  // the key is ever started exactly when some Handle call may still store it.
  lemma AckIsOvertakenIff(s: State, key: string)
    requires Reachable(s) && key !in s.tasks
    ensures (exists s', t :: LeadsWithout(s, s', key) && Restarted(s, s', key, t)) <==> SomeMayStart(s, key)
  {
    hide Reachable;
    if SomeMayStart(s, key) {
      var i :| 0 <= i < |s.agents| && MayStart(s.closed, s.agents[i], key);
      var s' := HurriesToStore(s, i, key);
      assert Restarted(s, s', key, |s'.recs| - 1);
    } else {
      forall s', t | LeadsWithout(s, s', key)
        ensures !Restarted(s, s', key, t)
      {
        NeverStarted(s, s', key);
      }
    }
  }

  // And when no Handle call may, the key of a task that was taken out of the map, by an
  // ack or otherwise, stays out, and at most one more retransmission of the task happens.
  lemma OneMorePush(states: seq<State>, moves: seq<Move>, t: nat)
    requires IsRun(states, moves) && Reachable(states[0]) && Retired(states[0], t)
    requires !SomeMayStart(states[0], states[0].recs[t].key) && NotSentAnew(moves, states[0].recs[t].key)
    ensures forall m :: 0 <= m < |states| ==> Retired(states[m], t)
    ensures Sent(states[|moves|], t) <= Sent(states[0], t) + 1
  {
    var key := states[0].recs[t].key;
    forall m | 0 <= m < |states|
      ensures Retired(states[m], t)
    {
      PrefixLeads(states, moves, m, key);
      KeyStaysOut(states[0], states[m], key);
      LeadsKeeps(states[0], states[m], key);
    }
    SilentWhileRetired(states, moves, t);
  }
}
