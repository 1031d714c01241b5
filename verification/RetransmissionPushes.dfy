// What is still sent once a task is out of the map: the callbacks that are past their look
// go on, and whoever starts the key again starts to send again.

module RetransmissionPushes {
  import opened Common
  import opened Retransmission
  import opened RetransmissionSums
  import opened RetransmissionInvariant
  import opened RetransmissionCounts
  import opened RetransmissionSafety
  import opened RetransmissionRuns
  import opened RetransmissionDrain
  import opened RetransmissionTheorems
  import opened RetransmissionRestarts

  // ---------- callbacks past their look ----------

  // A callback of task t that is past its look and will not give up at the limit.
  predicate PushesOn(max: int, cnt: int, a: Agent, t: nat)
  {
    (a == RunInc(t) && cnt + 1 < max) || (a == RunCheck(t) && cnt < max) || a == RunPush(t)
  }

  // The agent may arm a timer of task t although its key is gone.
  predicate ArmsOn(max: int, cnt: int, a: Agent, t: nat)
  {
    (a.StartArm? && a.task == t) || a == RunArm(t) || PushesOn(max, cnt, a, t)
  }

  ghost predicate NoPusher(s: State, t: nat)
    requires t < |s.recs|
  {
    forall j :: 0 <= j < |s.agents| ==> !PushesOn(s.max, s.recs[t].cnt, s.agents[j], t)
  }

  ghost predicate NoArmer(s: State, t: nat)
    requires t < |s.recs|
  {
    forall j :: 0 <= j < |s.agents| ==> !ArmsOn(s.max, s.recs[t].cnt, s.agents[j], t)
  }

  // How the operation moves an agent on, as far as task t is concerned.
  ghost predicate OnwardFacts(s: State, a: Agent, op: Op, t: nat)
    requires Applicable(s, op) && t < |s.recs| && t < |NewRecs(s, op)|
  {
    var cnt := NewRecs(s, op)[t].cnt;
    && (PushesOn(s.max, cnt, op.next, t) ==> PushesOn(s.max, s.recs[t].cnt, a, t))
    && (ArmsOn(s.max, cnt, op.next, t) ==> ArmsOn(s.max, s.recs[t].cnt, a, t))
    && (op.Push? && op.attempt.source == Some(t) ==> a == RunPush(t))
    && (op.Arm? && op.task == t ==> ArmsOn(s.max, s.recs[t].cnt, a, t) && !ArmsOn(s.max, cnt, op.next, t))
    && (op.next.StartPtr? || op.next.RunPtr? ==> op.Arm? && op.task == op.next.task)
  }

  lemma HandleOnward(s: State, i: nat, c: Choice, op: Op, t: nat)
    requires OpIs(s, i, c, op) && InHandle(s.agents[i]) && t < |s.recs|
    ensures t < |NewRecs(s, op)| && OnwardFacts(s, s.agents[i], op, t)
  {
    hide RunOperation, DeleteOperation, CallOperation;
  }

  lemma RunOnward(s: State, i: nat, c: Choice, op: Op, t: nat)
    requires OpIs(s, i, c, op) && InRun(s.agents[i]) && t < |s.recs| && s.recs[t].key !in s.tasks
    requires s.agents[i] == RunInc(t) ==> s.recs[t].cnt < MAX_INT32
    ensures t < |NewRecs(s, op)| && OnwardFacts(s, s.agents[i], op, t)
  {
    hide HandleOperation, DeleteOperation, CallOperation;
  }

  lemma OtherOnward(s: State, i: nat, c: Choice, op: Op, t: nat)
    requires OpIs(s, i, c, op) && !InHandle(s.agents[i]) && !InRun(s.agents[i]) && t < |s.recs|
    ensures t < |NewRecs(s, op)| && OnwardFacts(s, s.agents[i], op, t)
  {
    hide HandleOperation, RunOperation;
  }

  lemma Onward(s: State, i: nat, c: Choice, op: Op, t: nat)
    requires Inv(s) && OpIs(s, i, c, op) && t < |s.recs| && s.recs[t].key !in s.tasks
    ensures t < |NewRecs(s, op)| && OnwardFacts(s, s.agents[i], op, t)
  {
    if InHandle(s.agents[i]) {
      HandleOnward(s, i, c, op, t);
    } else if InRun(s.agents[i]) {
      assert s.agents[i] == RunInc(t) ==> SourceTask(s.agents[i]) == Some(t);
      RunOnward(s, i, c, op, t);
    } else {
      OtherOnward(s, i, c, op, t);
    }
  }

  // An agent that has not moved was no less eager before.
  lemma EagerBefore(max: int, cnt: int, cnt': int, a: Agent, t: nat)
    requires cnt <= cnt'
    ensures PushesOn(max, cnt', a, t) ==> PushesOn(max, cnt, a, t)
    ensures ArmsOn(max, cnt', a, t) ==> ArmsOn(max, cnt, a, t)
  {
  }

  // An agent of the next state is the one that moved, a new or stopped timer, or as it was.
  lemma NextAgent(s: State, i: nat, op: Op, j: nat)
    requires i < |s.agents| && Applicable(s, op) && j < |NewAgents(s, i, op)|
    ensures var a' := NewAgents(s, i, op)[j];
            || (j == i && a' == op.next)
            || (j == |s.agents| && op.Arm? && a' == Armed(op.task))
            || (j < |s.agents| && j != i && a' == s.agents[j])
            || (j < |s.agents| && op.Disarm? && op.timer == j && a' == Disarmed)
  {
  }

  // ---------- pushes on their way ----------

  lemma NoPusherAct(s: State, i: nat, c: Choice, op: Op, t: nat)
    requires Inv(s) && OpIs(s, i, c, op) && Effects(s, i, op) && Retired(s, t) && NoPusher(s, t)
    ensures t < |NewRecs(s, op)| && NoPusher(Perform(s, i, op), t) && Sent(Perform(s, i, op), t) == Sent(s, t)
  {
    Onward(s, i, c, op, t);
    CountersGrow(s, i, op);
    PerformSent(s, i, op, t);
    assert !PushesOn(s.max, s.recs[t].cnt, s.agents[i], t);
    hide Inv, Effects, OpIs, Sent, PushesOn, ArmsOn;
    var s' := Perform(s, i, op);
    forall j | 0 <= j < |s'.agents|
      ensures !PushesOn(s'.max, s'.recs[t].cnt, s'.agents[j], t)
    {
      NextAgent(s, i, op, j);
      TimersAreIdle(s.max, s'.recs[t].cnt, t);
      EagerBefore(s.max, s.recs[t].cnt, s'.recs[t].cnt, s'.agents[j], t);
    }
  }

  lemma TimersAreIdle(max: int, cnt: int, t: nat)
    ensures !ArmsOn(max, cnt, Disarmed, t) && forall u :: !ArmsOn(max, cnt, Armed(u), t)
    ensures !PushesOn(max, cnt, Disarmed, t) && forall u :: !PushesOn(max, cnt, Armed(u), t)
  {
  }

  lemma NoPusherStep(s: State, move: Move, s': State, t: nat)
    requires Inv(s) && Takes(s, move, s') && Retired(s, t) && NoPusher(s, t)
    ensures t < |s'.recs| && NoPusher(s', t) && Sent(s', t) == Sent(s, t)
  {
    if move.Act? {
      var op := Operation(s, move.idx, move.choice).value;
      OperationFacts(s, move.idx, move.choice, op);
      NoPusherAct(s, move.idx, move.choice, op, t);
    }
  }

  ghost predicate NothingSentAt(states: seq<State>, n: int, t: nat)
  {
    0 <= n < |states| && t < |states[n].recs| && NoPusher(states[n], t) && Sent(states[n], t) == Sent(states[0], t)
  }

  // Without such a callback, and with nobody to start the key again, nothing is sent.
  lemma NothingSent(s: State, s': State, key: string, t: nat)
    requires Reachable(s) && LeadsWithout(s, s', key) && Retired(s, t) && s.recs[t].key == key
    requires !SomeMayStart(s, key) && NoPusher(s, t)
    ensures Sent(s', t) == Sent(s, t)
  {
    var states, moves :|
      IsRun(states, moves) && states[0] == s && states[|moves|] == s' && NotSentAnew(moves, key);
    ReachableInv(s);
    OneMorePush(states, moves, t);
    assert NothingSentAt(states, 0, t);
    hide Reachable, LeadsWithout, Retired, NoPusher, Sent;
    forall m: nat | m < |moves| && StepAt(states, moves, m) && InvAt(states, m) && NothingSentAt(states, m, t)
      ensures InvAt(states, m + 1) && NothingSentAt(states, m + 1, t)
    {
      StepInv(states[m], moves[m], states[m + 1]);
      NoPusherStep(states[m], moves[m], states[m + 1], t);
    }
    RunInduction(states, moves, m => InvAt(states, m) && NothingSentAt(states, m, t), |moves|);
  }

  function PushRank(a: Agent): nat
  {
    if a.RunInc? then 2 else if a.RunCheck? then 1 else 0
  }

  // Such a callback, left alone, pushes.
  lemma PusherStep(s: State, i: nat, t: nat)
    requires i < |s.agents| && Refers(|s.recs|, |s.agents|, s.agents[i]) && t < |s.recs|
    requires PushesOn(s.max, s.recs[t].cnt, s.agents[i], t) && s.max <= MAX_INT32
    ensures CanAct(s, i, Go)
    ensures var s' := After(s, i, Go);
            && s'.max == s.max && |s'.recs| == |s.recs| && s'.recs[t].key == s.recs[t].key
            && (if s.agents[i].RunPush? then Sent(s', t) == Sent(s, t) + 1
                else
                  && Sent(s', t) == Sent(s, t) && i < |s'.agents|
                  && PushesOn(s'.max, s'.recs[t].cnt, s'.agents[i], t)
                  && PushRank(s'.agents[i]) < PushRank(s.agents[i]))
  {
    hide HandleOperation, DeleteOperation, CallOperation;
    if s.agents[i].RunPush? {
      PushStep(s, i, t);
    }
  }

  lemma PushStep(s: State, i: nat, t: nat)
    requires i < |s.agents| && s.agents[i] == RunPush(t) && t < |s.recs|
    ensures CanAct(s, i, Go)
    ensures var s' := After(s, i, Go); s'.max == s.max && s'.recs == s.recs && Sent(s', t) == Sent(s, t) + 1
  {
    hide HandleOperation, DeleteOperation, CallOperation;
    TallyAppend(s.log, Attempt(s.recs[t].slot, Some(t)), SentBy(t));
  }

  lemma {:induction false} PusherSends(s: State, i: nat, t: nat, key: string) returns (s': State)
    requires Reachable(s) && i < |s.agents| && t < |s.recs| && PushesOn(s.max, s.recs[t].cnt, s.agents[i], t)
    ensures LeadsWithout(s, s', key) && t < |s'.recs| && s'.recs[t].key == s.recs[t].key && Sent(s', t) > Sent(s, t)
    decreases PushRank(s.agents[i])
  {
    ReachableInv(s);
    ReachableRefers(s, i);
    PusherStep(s, i, t);
    Proceeds(s, i, Go, key);
    hide Reachable, CanAct, After, LeadsWithout, Sent;
    s' := After(s, i, Go);
    if !s.agents[i].RunPush? {
      var s1 := s';
      s' := PusherSends(s1, i, t, key);
      LeadsOnWithout(s, s1, s', key);
    }
  }

  // The start of a task arms its timer, the timer fires, and the callback finds the key.
  lemma StartStep(s: State, i: nat, t: nat)
    requires i < |s.agents| && Refers(|s.recs|, |s.agents|, s.agents[i])
    requires s.agents[i].StartArm? && s.agents[i].task == t
    requires t < |s.recs|
    ensures CanAct(s, i, Go)
    ensures var s' := After(s, i, Go);
            s'.max == s.max && s'.recs == s.recs && s'.tasks == s.tasks && s'.log == s.log
            && |s'.agents| == |s.agents| + 1 && s'.agents[|s.agents|] == Armed(t)
  {
  }

  lemma FireStep(s: State, i: nat, t: nat)
    requires i < |s.agents| && (s.agents[i] == Armed(t) || s.agents[i] == RunLoad(t)) && t < |s.recs|
    requires s.recs[t].key in s.tasks
    ensures CanAct(s, i, Go)
    ensures After(s, i, Go) == s.(agents := s.agents[i := if s.agents[i].Armed? then RunLoad(t) else RunInc(t)])
  {
  }

  lemma NewTaskSends(s: State, i: nat, t: nat, key: string) returns (s': State)
    requires Reachable(s) && i < |s.agents| && s.agents[i].StartArm? && s.agents[i].task == t && t < |s.recs|
    requires s.recs[t].key in s.tasks && s.recs[t].cnt == 0 && s.max >= 2
    ensures LeadsWithout(s, s', key) && t < |s'.recs| && s'.recs[t].key == s.recs[t].key && Sent(s', t) > Sent(s, t)
  {
    var m := |s.agents|;
    ReachableRefers(s, i);
    StartStep(s, i, t);
    Proceeds(s, i, Go, key);
    var s1 := After(s, i, Go);
    FireStep(s1, m, t);
    Proceeds(s1, m, Go, key);
    hide Reachable, CanAct, After, LeadsWithout;
    var s2 := After(s1, m, Go);
    FireStep(s2, m, t);
    Proceeds(s2, m, Go, key);
    var s3 := After(s2, m, Go);
    s' := PusherSends(s3, m, t, key);
    LeadsOnWithout(s, s1, s2, key);
    LeadsOnWithout(s, s2, s3, key);
    LeadsOnWithout(s, s3, s', key);
  }

  // Between s and s', some task of the key has retransmitted its message.
  ghost predicate Resent(s: State, s': State, key: string, t: nat)
  {
    t < |s'.recs| && s'.recs[t].key == key && Sent(s', t) > Sent(s, t)
  }

  lemma NotSentYet(s: State, t: nat)
    requires Reachable(s) && t >= |s.recs|
    ensures Sent(s, t) == 0
  {
    ReachableInv(s);
    FreshSent(s, t);
  }

  lemma OvertakingTaskSends(s: State, key: string) returns (s': State, t: nat)
    requires Reachable(s) && key !in s.tasks && SomeMayStart(s, key) && s.max >= 2
    ensures LeadsWithout(s, s', key) && Restarted(s, s', key, t) && Resent(s, s', key, t)
  {
    var i :| 0 <= i < |s.agents| && MayStart(s.closed, s.agents[i], key);
    var s1 := HurriesToStore(s, i, key);
    t := |s1.recs| - 1;
    NotSentYet(s, t);
    ReachableRefers(s1, i);
    hide Reachable, MayStart, SomeMayStart;
    s' := NewTaskSends(s1, i, t, key);
    LeadsOnWithout(s, s1, s', key);
    LeadsKeeps(s1, s', key);
  }

  lemma SameMaximum(s: State, s': State, key: string)
    requires LeadsWithout(s, s', key)
    ensures s'.max == s.max
  {
    var states: seq<State>, moves: seq<Move> :|
      IsRun(states, moves) && states[0] == s && states[|moves|] == s' && NotSentAnew(moves, key);
    LimitStays(states, moves, |moves|);
  }

  // Some callback of a task of the key is past its look and below the limit.
  ghost predicate PushUnderWay(s: State, key: string)
  {
    exists t :: 0 <= t < |s.recs| && s.recs[t].key == key && !NoPusher(s, t)
  }

  lemma ResentHasCause(s: State, s': State, key: string, t: nat)
    requires Reachable(s) && key !in s.tasks && LeadsWithout(s, s', key) && Resent(s, s', key, t)
    ensures PushUnderWay(s, key) || (SomeMayStart(s, key) && s.max >= 2)
  {
    LeadsKeeps(s, s', key);
    if SomeMayStart(s, key) {
      SameMaximum(s, s', key);
      CounterWithin(s', t);
    } else {
      KeyStaysOut(s, s', key);
      if NoPusher(s, t) {
        NothingSent(s, s', key, t);
      }
    }
  }

  // The message is acknowledged and its key is out of the map. As long as the backend does
  // not send it anew, it is retransmitted on some continuation exactly when a callback is
  // past its look and below the limit, or some Handle call may still start a task of the
  // key and more than one attempt is allowed.
  lemma AckedMessageIsResentIff(s: State, key: string)
    requires Reachable(s) && key !in s.tasks
    ensures (exists s', t: nat :: LeadsWithout(s, s', key) && Resent(s, s', key, t))
       <==> PushUnderWay(s, key) || (SomeMayStart(s, key) && s.max >= 2)
  {
    hide Reachable, LeadsWithout, SomeMayStart;
    if SomeMayStart(s, key) && s.max >= 2 {
      var s', t := OvertakingTaskSends(s, key);
    } else if PushUnderWay(s, key) {
      var t :| 0 <= t < |s.recs| && s.recs[t].key == key && !NoPusher(s, t);
      var i :| 0 <= i < |s.agents| && PushesOn(s.max, s.recs[t].cnt, s.agents[i], t);
      var s' := PusherSends(s, i, t, key);
      assert Resent(s, s', key, t);
    } else {
      forall s', t: nat | LeadsWithout(s, s', key)
        ensures !Resent(s, s', key, t)
      {
        if Resent(s, s', key, t) {
          ResentHasCause(s, s', key, t);
          assert false;
        }
      }
    }
  }
}
