// What Task.stop achieves. It stops the timer that timerPtr leads to, and that pointer can
// be nil or stale: then an orphan is left, a timer of the task that is still armed when
// stop has returned. An orphan fires once and does nothing.

module RetransmissionOrphans {
  import opened Common
  import opened Retransmission
  import opened RetransmissionInvariant
  import opened RetransmissionCounts
  import opened RetransmissionSafety
  import opened RetransmissionRuns
  import opened RetransmissionDrain
  import opened RetransmissionTheorems
  import opened RetransmissionRestarts
  import opened RetransmissionPushes

  // ---------- how many timers are still armed ----------

  // The step has armed a timer of task t.
  ghost predicate Arms(s: State, s': State, t: nat)
  {
    |s.agents| < |s'.agents| && s'.agents[|s.agents|] == Armed(t)
  }

  // How many timers of task t the first n steps have armed.
  ghost function TimersArmed(states: seq<State>, n: nat, t: nat): nat
    requires n < |states|
  {
    if n == 0 then 0
    else TimersArmed(states, n - 1, t) + (if Arms(states[n - 1], states[n], t) then 1 else 0)
  }

  // Who arms a timer of t is its one source, and has then done so.
  lemma ArmerIsAlone(s: State, i: nat, op: Op, t: nat)
    requires Sources(s) && Effects(s, i, op) && t < |s.recs| && op.Arm? && op.task == t
    ensures forall j :: 0 <= j < |s.agents| && j != i ==> !ArmsOn(s.max, s.recs[t].cnt, s.agents[j], t)
  {
    assert SourceTask(s.agents[i]) == Some(t);
    forall j | 0 <= j < |s.agents| && j != i
      ensures !ArmsOn(s.max, s.recs[t].cnt, s.agents[j], t)
    {
      if SourceTask(s.agents[j]) == Some(t) {
        OneSource(s, i, j, t);
      }
    }
  }

  lemma ArmerAct(s: State, i: nat, c: Choice, op: Op, t: nat)
    requires Inv(s) && OpIs(s, i, c, op) && Effects(s, i, op) && Retired(s, t)
    ensures t < |NewRecs(s, op)|
    ensures NoArmer(s, t) || Arms(s, Perform(s, i, op), t) ==> NoArmer(Perform(s, i, op), t)
    ensures NoArmer(s, t) ==> !Arms(s, Perform(s, i, op), t)
  {
    Onward(s, i, c, op, t);
    CountersGrow(s, i, op);
    if op.Arm? && op.task == t {
      ArmerIsAlone(s, i, op, t);
    }
    hide Inv, Effects, OpIs, PushesOn, ArmsOn;
    var s' := Perform(s, i, op);
    if NoArmer(s, t) || Arms(s, s', t) {
      forall j | 0 <= j < |s'.agents|
        ensures !ArmsOn(s'.max, s'.recs[t].cnt, s'.agents[j], t)
      {
        NextAgent(s, i, op, j);
        TimersAreIdle(s.max, s'.recs[t].cnt, t);
        EagerBefore(s.max, s.recs[t].cnt, s'.recs[t].cnt, s'.agents[j], t);
      }
    }
  }

  lemma ArmerStep(s: State, move: Move, s': State, t: nat)
    requires Inv(s) && Takes(s, move, s') && Retired(s, t)
    ensures t < |s'.recs|
    ensures NoArmer(s, t) || Arms(s, s', t) ==> NoArmer(s', t)
    ensures NoArmer(s, t) ==> !Arms(s, s', t)
  {
    if move.Act? {
      var op := Operation(s, move.idx, move.choice).value;
      OperationFacts(s, move.idx, move.choice, op);
      ArmerAct(s, move.idx, move.choice, op, t);
    }
  }

  ghost predicate OneTimerAt(states: seq<State>, n: int, t: nat)
  {
    && 0 <= n < |states| && t < |states[n].recs| && t < |states[0].recs|
    && TimersArmed(states, n, t) <= 1
    && (NoArmer(states[0], t) || TimersArmed(states, n, t) == 1 ==> NoArmer(states[n], t))
    && (NoArmer(states[0], t) ==> TimersArmed(states, n, t) == 0)
  }

  lemma OneTimerStep(states: seq<State>, moves: seq<Move>, n: nat, t: nat)
    requires n < |moves| < |states| && StepAt(states, moves, n) && InvAt(states, n)
    requires OneTimerAt(states, n, t) && Retired(states[n], t)
    ensures OneTimerAt(states, n + 1, t)
  {
    ArmerStep(states[n], moves[n], states[n + 1], t);
    hide Takes, Inv, NoArmer, Arms, Retired;
  }

  // The look of a callback whose key is gone ends it.
  lemma LookEnds(s: State, i: nat, c: Choice, s': State, t: nat)
    requires Acts(s, i, c, s') && s.agents[i] == RunLoad(t) && Retired(s, t)
    ensures s' == s.(agents := s.agents[i := Done])
  {
  }

  // Once a task is out of the map, with nobody to start its key again, at most one more
  // timer of it is armed, none unless a start or a callback was on its way to do so;
  // and a callback of the task that then looks for its key changes no shared state.
  lemma OneMoreTimer(states: seq<State>, moves: seq<Move>, t: nat)
    requires IsRun(states, moves) && Reachable(states[0]) && Retired(states[0], t)
    requires !SomeMayStart(states[0], states[0].recs[t].key) && NotSentAnew(moves, states[0].recs[t].key)
    ensures TimersArmed(states, |moves|, t) <= 1
    ensures NoArmer(states[0], t) ==> TimersArmed(states, |moves|, t) == 0
    ensures forall n :: 0 <= n < |moves| && moves[n].Act? && LooksFor(states[n], moves[n].idx, t) ==>
              states[n + 1] == states[n].(agents := states[n].agents[moves[n].idx := Done])
  {
    OneMorePush(states, moves, t);
    ReachableInv(states[0]);
    forall n | 0 <= n < |moves| && moves[n].Act? && LooksFor(states[n], moves[n].idx, t)
      ensures states[n + 1] == states[n].(agents := states[n].agents[moves[n].idx := Done])
    {
      assert StepAt(states, moves, n);
      LookEnds(states[n], moves[n].idx, moves[n].choice, states[n + 1], t);
    }
    hide Reachable, Retired, NoArmer, SomeMayStart, Takes;
    assert OneTimerAt(states, 0, t);
    forall m: nat | m < |moves| && StepAt(states, moves, m) && InvAt(states, m) && OneTimerAt(states, m, t)
      ensures InvAt(states, m + 1) && OneTimerAt(states, m + 1, t)
    {
      StepInv(states[m], moves[m], states[m + 1]);
      OneTimerStep(states, moves, m, t);
    }
    RunInduction(states, moves, m => InvAt(states, m) && OneTimerAt(states, m, t), |moves|);
  }

  predicate LooksFor(s: State, i: nat, t: nat)
  {
    i < |s.agents| && s.agents[i] == RunLoad(t)
  }

  // ---------- when stop leaves an orphan ----------

  // Agent i has taken task t out of the map and is about to stop it.
  predicate AboutToStop(s: State, i: nat, t: nat)
  {
    i < |s.agents| && s.agents[i].DeletePtr? && s.agents[i].task == t
  }

  // It has returned from Task.stop.
  predicate Stopped(s: State, i: nat, t: nat)
  {
    i < |s.agents| && !((s.agents[i].DeletePtr? || s.agents[i].DeleteStop?) && s.agents[i].task == t)
  }

  ghost predicate HasTimer(s: State, t: nat)
  {
    exists m :: 0 <= m < |s.agents| && s.agents[m] == Armed(t)
  }

  predicate Sets(a: Agent, t: nat)
  {
    (a.StartPtr? || a.RunPtr?) && a.task == t
  }

  // The pointer leads to timer m, and nobody is about to store another one.
  ghost predicate LeadsTo(s: State, t: nat, m: nat)
    requires t < |s.recs|
  {
    && s.recs[t].timer == Some(m)
    && forall k :: 0 <= k < |s.agents| && Sets(s.agents[k], t) ==> s.agents[k].timer == m
  }

  // No start and no callback is about to arm a timer, and the pointer leads to the one
  // that is armed.
  ghost predicate Stoppable(s: State, t: nat)
    requires t < |s.recs|
  {
    NoArmer(s, t) && forall m :: 0 <= m < |s.agents| && s.agents[m] == Armed(t) ==> LeadsTo(s, t, m)
  }

  // What Task.stop keeps, before, between and after its two steps.
  ghost predicate Stopping(s: State, i: nat, t: nat)
    requires t < |s.recs|
  {
    && NoArmer(s, t) && i < |s.agents|
    && forall m :: 0 <= m < |s.agents| && s.agents[m] == Armed(t) ==>
         if AboutToStop(s, i, t) then LeadsTo(s, t, m)
         else s.agents[i].DeleteStop? && s.agents[i].task == t && s.agents[i].timer == m
  }

  // The steps of stop.
  ghost predicate StopFacts(s: State, a: Agent, op: Op)
  {
    && (a.DeleteStop? ==> op == Disarm(a.timer, DeleteAdd(a.task, a.caller)))
    && (a.DeletePtr? ==>
          && a.task < |s.recs|
          && op == Read(if s.recs[a.task].timer.None? then DeleteAdd(a.task, a.caller)
                        else DeleteStop(a.task, s.recs[a.task].timer.value, a.caller)))
  }

  lemma StopOperation(s: State, i: nat, c: Choice, op: Op)
    requires OpIs(s, i, c, op)
    ensures StopFacts(s, s.agents[i], op)
  {
    hide HandleOperation, RunOperation, CallOperation;
  }

  lemma LeadsToKept(s: State, i: nat, c: Choice, op: Op, t: nat, m: nat)
    requires OpIs(s, i, c, op) && Effects(s, i, op) && t < |s.recs| && t < |NewRecs(s, op)|
    requires OnwardFacts(s, s.agents[i], op, t) && NoArmer(s, t) && LeadsTo(s, t, m)
    ensures LeadsTo(Perform(s, i, op), t, m)
  {
    var s' := Perform(s, i, op);
    assert !ArmsOn(s.max, s.recs[t].cnt, s.agents[i], t);
    hide OpIs, ArmsOn;
    forall k | 0 <= k < |s'.agents| && Sets(s'.agents[k], t)
      ensures s'.agents[k].timer == m
    {
      NextAgent(s, i, op, k);
    }
    assert op.SetPtr? && op.task == t ==> Sets(s.agents[i], t);
  }

  // A timer of t that is armed afterwards was armed before.
  lemma TimerWasArmed(s: State, a: nat, c: Choice, op: Op, t: nat, m: nat)
    requires OpIs(s, a, c, op) && Effects(s, a, op) && t < |s.recs| && t < |NewRecs(s, op)|
    requires OnwardFacts(s, s.agents[a], op, t) && NoArmer(s, t)
    requires m < |NewAgents(s, a, op)| && NewAgents(s, a, op)[m] == Armed(t)
    ensures m < |s.agents| && m != a && s.agents[m] == Armed(t)
    ensures LeadsTo(s, t, m) ==> LeadsTo(Perform(s, a, op), t, m)
  {
    NextAgent(s, a, op, m);
    if LeadsTo(s, t, m) {
      LeadsToKept(s, a, c, op, t, m);
    }
  }

  lemma StoppingMoves(s: State, a: nat, op: Op, i: nat, t: nat)
    requires a < |s.agents| && Applicable(s, op) && StopFacts(s, s.agents[a], op)
    requires t < |s.recs| && t < |NewRecs(s, op)| && Stopping(s, i, t) && NoArmer(Perform(s, a, op), t)
    requires var s' := Perform(s, a, op);
             forall m :: 0 <= m < |s'.agents| && s'.agents[m] == Armed(t) ==>
               && m < |s.agents| && m != a && s.agents[m] == Armed(t)
               && (LeadsTo(s, t, m) ==> LeadsTo(s', t, m))
    ensures Stopping(Perform(s, a, op), i, t)
  {
    hide NoArmer, NewRecs;
    NextAgent(s, a, op, i);
  }

  lemma StoppingAct(s: State, a: nat, c: Choice, op: Op, i: nat, t: nat)
    requires Inv(s) && OpIs(s, a, c, op) && Effects(s, a, op) && Retired(s, t) && Stopping(s, i, t)
    ensures t < |NewRecs(s, op)| && Stopping(Perform(s, a, op), i, t)
  {
    var s' := Perform(s, a, op);
    Onward(s, a, c, op, t);
    ArmerAct(s, a, c, op, t);
    StopOperation(s, a, c, op);
    hide Inv, LeadsTo, StopFacts, OnwardFacts;
    forall m | 0 <= m < |s'.agents| && s'.agents[m] == Armed(t)
      ensures m < |s.agents| && m != a && s.agents[m] == Armed(t)
      ensures LeadsTo(s, t, m) ==> LeadsTo(s', t, m)
    {
      TimerWasArmed(s, a, c, op, t, m);
    }
    StoppingMoves(s, a, op, i, t);
  }

  lemma StoppingStep(s: State, move: Move, s': State, i: nat, t: nat)
    requires Inv(s) && Takes(s, move, s') && Retired(s, t) && Stopping(s, i, t)
    ensures t < |s'.recs| && Stopping(s', i, t)
  {
    hide Inv;
    match move
    case Spawn(a) =>
      assert forall m :: LeadsTo(s, t, m) ==> LeadsTo(s', t, m);
    case Act(a, c) =>
      var op := Operation(s, a, c).value;
      hide Operation, Stopping, NoArmer, Effects;
      OperationFacts(s, a, c, op);
      StoppingAct(s, a, c, op, i, t);
  }

  ghost predicate StoppingAt(states: seq<State>, n: int, i: nat, t: nat)
  {
    0 <= n < |states| && t < |states[n].recs| && Stopping(states[n], i, t)
  }

  lemma StaysStopping(s: State, s': State, key: string, i: nat, t: nat)
    requires Reachable(s) && LeadsWithout(s, s', key) && Retired(s, t) && s.recs[t].key == key
    requires !SomeMayStart(s, key) && Stopping(s, i, t)
    ensures t < |s'.recs| && Stopping(s', i, t)
  {
    var states, moves :|
      IsRun(states, moves) && states[0] == s && states[|moves|] == s' && NotSentAnew(moves, key);
    ReachableInv(s);
    OneMorePush(states, moves, t);
    hide Reachable, LeadsWithout, Retired, Stopping, SomeMayStart, Takes;
    forall m: nat | m < |moves| && StepAt(states, moves, m) && InvAt(states, m) && StoppingAt(states, m, i, t)
      ensures InvAt(states, m + 1) && StoppingAt(states, m + 1, i, t)
    {
      StepInv(states[m], moves[m], states[m + 1]);
      StoppingStep(states[m], moves[m], states[m + 1], i, t);
    }
    RunInduction(states, moves, m => InvAt(states, m) && StoppingAt(states, m, i, t), |moves|);
  }

  // ---------- the runs that leave one ----------

  // Agent i stops the task alone: no agent but the timer it stops is touched.
  lemma StopsAlone(s: State, i: nat, t: nat, key: string) returns (s': State)
    requires Reachable(s) && AboutToStop(s, i, t) && t < |s.recs|
    ensures LeadsWithout(s, s', key) && Reachable(s') && Stopped(s', i, t)
    ensures s'.recs == s.recs && s'.max == s.max && |s'.agents| == |s.agents|
    ensures forall j :: 0 <= j < |s.agents| && j != i && !(s.agents[j].Armed? && s.recs[t].timer == Some(j)) ==>
              s'.agents[j] == s.agents[j]
  {
    ReachableRefers(s, i);
    PointerLoads(s, i, t);
    Proceeds(s, i, Go, key);
    s' := After(s, i, Go);
    if s.recs[t].timer.Some? {
      var s1 := s';
      ReachableRefers(s1, i);
      TimerStops(s1, i, t);
      Proceeds(s1, i, Go, key);
      hide Reachable, CanAct, After;
      s' := After(s1, i, Go);
      LeadsOnWithout(s, s1, s', key);
    }
  }

  lemma PointerLoads(s: State, i: nat, t: nat)
    requires AboutToStop(s, i, t) && t < |s.recs|
    ensures CanAct(s, i, Go)
    ensures After(s, i, Go) == s.(agents := s.agents[i := if s.recs[t].timer.None? then DeleteAdd(t, s.agents[i].caller)
                                   else DeleteStop(t, s.recs[t].timer.value, s.agents[i].caller)])
  {
  }

  lemma TimerStops(s: State, i: nat, t: nat)
    requires i < |s.agents| && s.agents[i].DeleteStop? && s.agents[i].task == t
    requires Refers(|s.recs|, |s.agents|, s.agents[i])
    ensures CanAct(s, i, Go)
    ensures var s', m := After(s, i, Go), s.agents[i].timer;
            && s'.recs == s.recs && s'.max == s.max && |s'.agents| == |s.agents|
            && s'.agents[i] == DeleteAdd(t, s.agents[i].caller)
            && forall j :: 0 <= j < |s.agents| && j != i && !(s.agents[j].Armed? && m == j) ==>
                 s'.agents[j] == s.agents[j]
  {
  }

  // Between the arming of timers, an agent that is about to arm one gets nearer to it.
  function ArmRank(a: Agent): nat
  {
    if a.RunInc? then 3 else if a.RunCheck? then 2 else if a.RunPush? then 1 else 0
  }

  lemma ArmerGoes(s: State, j: nat, t: nat, i: nat)
    requires j < |s.agents| && Refers(|s.recs|, |s.agents|, s.agents[j]) && t < |s.recs| && s.max <= MAX_INT32
    requires ArmsOn(s.max, s.recs[t].cnt, s.agents[j], t) && i < |s.agents| && i != j
    ensures CanAct(s, j, Go)
    ensures var s' := After(s, j, Go);
            && s'.max == s.max && |s'.recs| == |s.recs| && i < |s'.agents| && s'.agents[i] == s.agents[i]
            && (if s.agents[j].StartArm? || s.agents[j].RunArm? then Arms(s, s', t)
                else
                  && j < |s'.agents| && ArmsOn(s'.max, s'.recs[t].cnt, s'.agents[j], t)
                  && ArmRank(s'.agents[j]) < ArmRank(s.agents[j]))
  {
  }

  lemma {:induction false} ArmerArms(s: State, j: nat, t: nat, i: nat, key: string) returns (s': State)
    requires Reachable(s) && j < |s.agents| && t < |s.recs| && ArmsOn(s.max, s.recs[t].cnt, s.agents[j], t)
    requires i != j && Stopped(s, i, t)
    ensures LeadsWithout(s, s', key) && Stopped(s', i, t) && HasTimer(s', t)
    decreases ArmRank(s.agents[j])
  {
    ReachableInv(s);
    ReachableRefers(s, j);
    ArmerGoes(s, j, t, i);
    Proceeds(s, j, Go, key);
    hide Reachable, CanAct, After, LeadsWithout, ArmsOn;
    s' := After(s, j, Go);
    if s.agents[j].StartArm? || s.agents[j].RunArm? {
      assert s'.agents[|s.agents|] == Armed(t);
    } else {
      var s1 := s';
      s' := ArmerArms(s1, j, t, i, key);
      LeadsOnWithout(s, s1, s', key);
    }
  }

  // Somebody is about to arm a timer: let stop return first.
  lemma OrphanByArming(s: State, i: nat, j: nat, t: nat, key: string) returns (s': State)
    requires Reachable(s) && AboutToStop(s, i, t) && t < |s.recs|
    requires j < |s.agents| && ArmsOn(s.max, s.recs[t].cnt, s.agents[j], t)
    ensures LeadsWithout(s, s', key) && Stopped(s', i, t) && HasTimer(s', t)
  {
    var s1 := StopsAlone(s, i, t, key);
    s' := ArmerArms(s1, j, t, i, key);
    LeadsOnWithout(s, s1, s', key);
  }

  // The pointer does not lead to the armed timer.
  lemma OrphanByPointer(s: State, i: nat, m: nat, t: nat, key: string) returns (s': State)
    requires Reachable(s) && AboutToStop(s, i, t) && t < |s.recs|
    requires m < |s.agents| && s.agents[m] == Armed(t) && s.recs[t].timer != Some(m)
    ensures LeadsWithout(s, s', key) && Stopped(s', i, t) && HasTimer(s', t)
  {
    s' := StopsAlone(s, i, t, key);
    assert s'.agents[m] == Armed(t);
  }

  // Somebody is about to store a pointer to another timer: let that happen first.
  lemma OrphanByStore(s: State, i: nat, m: nat, k: nat, t: nat, key: string) returns (s': State)
    requires Reachable(s) && AboutToStop(s, i, t) && t < |s.recs|
    requires m < |s.agents| && s.agents[m] == Armed(t)
    requires k < |s.agents| && Sets(s.agents[k], t) && s.agents[k].timer != m
    ensures LeadsWithout(s, s', key) && Stopped(s', i, t) && HasTimer(s', t)
  {
    ReachableRefers(s, k);
    PointerStored(s, k, t);
    Proceeds(s, k, Go, key);
    var s1 := After(s, k, Go);
    s' := OrphanByPointer(s1, i, m, t, key);
    LeadsOnWithout(s, s1, s', key);
  }

  lemma PointerStored(s: State, k: nat, t: nat)
    requires k < |s.agents| && Sets(s.agents[k], t) && Refers(|s.recs|, |s.agents|, s.agents[k])
    ensures CanAct(s, k, Go)
    ensures var s' := After(s, k, Go);
            && |s'.recs| == |s.recs| && t < |s'.recs| && s'.recs[t].timer == Some(s.agents[k].timer)
            && |s'.agents| == |s.agents| && forall j :: 0 <= j < |s.agents| && j != k ==> s'.agents[j] == s.agents[j]
  {
  }

  lemma UnstoppableOrphan(s: State, i: nat, t: nat, key: string) returns (s': State)
    requires Reachable(s) && AboutToStop(s, i, t) && t < |s.recs| && !Stoppable(s, t)
    ensures LeadsWithout(s, s', key) && Stopped(s', i, t) && HasTimer(s', t)
  {
    hide Reachable, LeadsWithout, ArmsOn, HasTimer;
    if !NoArmer(s, t) {
      var j :| 0 <= j < |s.agents| && ArmsOn(s.max, s.recs[t].cnt, s.agents[j], t);
      s' := OrphanByArming(s, i, j, t, key);
    } else {
      var m :| 0 <= m < |s.agents| && s.agents[m] == Armed(t) && !LeadsTo(s, t, m);
      if s.recs[t].timer != Some(m) {
        s' := OrphanByPointer(s, i, m, t, key);
      } else {
        var k :| 0 <= k < |s.agents| && Sets(s.agents[k], t) && s.agents[k].timer != m;
        s' := OrphanByStore(s, i, m, k, t, key);
      }
    }
  }

  // Whoever takes a task out of the map stops it. As long as nobody starts its key again,
  // a timer of the task is armed after stop has returned, on some continuation, exactly
  // when a start or a callback is about to arm one, or the pointer does not lead to the
  // timer that is armed, or is about to be overwritten with another one.
  lemma StopLeavesOrphanIff(s: State, i: nat, t: nat)
    requires Reachable(s) && AboutToStop(s, i, t) && Retired(s, t) && !SomeMayStart(s, s.recs[t].key)
    ensures (exists s' :: LeadsWithout(s, s', s.recs[t].key) && Stopped(s', i, t) && HasTimer(s', t))
       <==> !Stoppable(s, t)
  {
    var key := s.recs[t].key;
    if Stoppable(s, t) {
      assert Stopping(s, i, t);
      forall s' | LeadsWithout(s, s', key) && Stopped(s', i, t)
        ensures !HasTimer(s', t)
      {
        StaysStopping(s, s', key, i, t);
      }
    } else {
      var s' := UnstoppableOrphan(s, i, t, key);
    }
  }
}
