// What the callback of a task that is out of the map can still do: take another task of
// its key out of the map, and send the message once more.

module RetransmissionCallbacks {
  import opened Retransmission
  import opened RetransmissionSums
  import opened RetransmissionInvariant
  import opened RetransmissionCounts
  import opened RetransmissionHistory
  import opened RetransmissionSafety
  import opened RetransmissionRuns
  import opened RetransmissionRestarts

  // ---------- a callback on its way ----------

  // How far a source of a task is from its deletion.
  function Rank(a: Agent): nat
  {
    match a
    case StartArm(_, _, _) => 6
    case RunArm(_) => 6
    case Armed(_) => 5
    case RunLoad(_) => 4
    case RunInc(_) => 3
    case RunCheck(_) => 2
    case RunPush(_) => 1
    case _ => 0
  }

  // The agent that is the source of task t after a step of source i.
  function NextSource(s: State, i: nat): nat
    requires i < |s.agents|
  {
    if s.agents[i].StartArm? || s.agents[i].RunArm? then |s.agents| else i
  }

  // A callback that finds its key goes on, and when its push fails it comes to its deletion.
  lemma SourceStep(s: State, i: nat, t: nat)
    requires i < |s.agents| && Refers(|s.recs|, |s.agents|, s.agents[i])
    requires IsSource(s.agents[i], t) && !s.agents[i].DeleteLoad?
    requires t < |s.recs| && s.recs[t].key in s.tasks
    ensures var c := if s.agents[i].RunPush? then Fail else Go;
            && CanAct(s, i, c)
            && var s', j := After(s, i, c), NextSource(s, i);
               && j < |s'.agents| && IsSource(s'.agents[j], t) && Rank(s'.agents[j]) < Rank(s.agents[i])
               && s'.tasks == s.tasks && |s'.recs| == |s.recs|
               && forall u :: 0 <= u < |s.recs| ==> s'.recs[u].key == s.recs[u].key && s'.recs[u].fate == s.recs[u].fate
  {
  }

  // Between s and s', a callback of task t has taken another task of its key out of the map.
  ghost predicate DropsAnother(s: State, s': State, t: nat)
  {
    exists u :: u != t && NewlyDropped(s, s', t, u)
  }

  ghost predicate NewlyDropped(s: State, s': State, t: nat, u: int)
  {
    && 0 <= u < |s'.recs| && t < |s'.recs| && s'.recs[u].key == s'.recs[t].key
    && s'.recs[u].fate.Removed? && s'.recs[u].fate.remover.ByRun? && s'.recs[u].fate.remover.task == t
    && !(u < |s.recs| && s.recs[u].fate.Removed?)
  }

  // The last step: the deletion itself.
  lemma DeletionDrops(s: State, i: nat, t: nat, caller: Caller)
    requires t < |s.recs| && s.recs[t].fate.Removed?
    requires i < |s.agents| && s.agents[i] == DeleteLoad(s.recs[t].key, caller)
    requires caller.ByRun? && caller.task == t
    requires s.recs[t].key in s.tasks && s.tasks[s.recs[t].key] < |s.recs|
    requires var u := s.tasks[s.recs[t].key]; s.recs[u].key == s.recs[t].key && s.recs[u].fate.Registered?
    ensures CanAct(s, i, Go) && s.tasks[s.recs[t].key] != t
    ensures NewlyDropped(s, After(s, i, Go), t, s.tasks[s.recs[t].key])
  {
    hide HandleOperation, RunOperation, CallOperation;
  }

  lemma SourceDeletes(s: State, i: nat, t: nat)
    requires Reachable(s) && i < |s.agents| && IsSource(s.agents[i], t) && s.agents[i].DeleteLoad?
    requires t < |s.recs| && s.recs[t].key in s.tasks && s.recs[t].fate.Removed?
    ensures CanAct(s, i, Go) && s.tasks[s.recs[t].key] != t
    ensures NewlyDropped(s, After(s, i, Go), t, s.tasks[s.recs[t].key])
  {
    DeletesItsKey(s, i);
    hide Reachable, CanAct, NewlyDropped;
    DeletionDrops(s, i, t, s.agents[i].caller);
  }

  lemma DeletesItsKey(s: State, i: nat)
    requires Reachable(s) && i < |s.agents|
    ensures s.agents[i].DeleteLoad? && s.agents[i].caller.ByRun? ==>
              s.agents[i].caller.task < |s.recs| && s.agents[i].key == s.recs[s.agents[i].caller.task].key
    ensures forall k :: k in s.tasks ==>
              s.tasks[k] < |s.recs| && s.recs[s.tasks[k]].key == k && s.recs[s.tasks[k]].fate.Registered?
  {
    ReachableInv(s);
    assert HistoryOk(s.recs, s.agents[i]);
  }

  // With the key in the map, a source of the removed task t drops the task found there.
  lemma {:induction false} SourceDrops(s: State, i: nat, t: nat) returns (s': State)
    requires Reachable(s) && i < |s.agents| && IsSource(s.agents[i], t)
    requires t < |s.recs| && s.recs[t].key in s.tasks && s.recs[t].fate.Removed?
    ensures LeadsWithout(s, s', s.recs[t].key) && DropsAnother(s, s', t)
    decreases Rank(s.agents[i])
  {
    var key := s.recs[t].key;
    ReachableRefers(s, i);
    if s.agents[i].DeleteLoad? {
      SourceDeletes(s, i, t);
      Proceeds(s, i, Go, key);
      s' := After(s, i, Go);
    } else {
      var c := if s.agents[i].RunPush? then Fail else Go;
      SourceStep(s, i, t);
      Proceeds(s, i, c, key);
      hide CanAct, After, IsSource, Rank, Reachable, LeadsWithout;
      var s1 := After(s, i, c);
      s' := SourceDrops(s1, NextSource(s, i), t);
      LeadsOnWithout(s, s1, s', key);
      LaterIsNew(s, s1, s', t);
    }
  }

  lemma LaterIsNew(s: State, s1: State, s': State, t: nat)
    requires DropsAnother(s1, s', t) && |s1.recs| == |s.recs|
    requires forall u :: 0 <= u < |s.recs| ==> s1.recs[u].fate == s.recs[u].fate
    ensures DropsAnother(s, s', t)
  {
    var u :| u != t && NewlyDropped(s1, s', t, u);
    assert NewlyDropped(s, s', t, u);
  }

  ghost predicate HasSource(s: State, t: nat)
  {
    exists i :: 0 <= i < |s.agents| && IsSource(s.agents[i], t)
  }

  // A start that has not armed its timer yet does so.
  lemma LeaveTheStart(s: State, i: nat, t: nat, key: string) returns (s': State, j: nat)
    requires Reachable(s) && i < |s.agents| && IsSource(s.agents[i], t) && SomeMayStart(s, key) && key !in s.tasks
    ensures LeadsWithout(s, s', key) && Reachable(s') && SomeMayStart(s', key) && key !in s'.tasks
    ensures j < |s'.agents| && IsSource(s'.agents[j], t) && !InHandle(s'.agents[j])
  {
    if InHandle(s.agents[i]) {
      ReachableRefers(s, i);
      var m :| 0 <= m < |s.agents| && MayStart(s.closed, s.agents[m], key);
      StartArmsIt(s, i, m, key);
      Proceeds(s, i, Go, key);
      s', j := After(s, i, Go), |s.agents|;
    } else {
      LeadsNowhereWithout(s, key);
      s', j := s, i;
    }
  }

  lemma StartArmsIt(s: State, i: nat, m: nat, key: string)
    requires i < |s.agents| && Refers(|s.recs|, |s.agents|, s.agents[i]) && s.agents[i].StartArm?
    requires m < |s.agents| && MayStart(s.closed, s.agents[m], key)
    ensures CanAct(s, i, Go)
    ensures var s' := After(s, i, Go);
            && s'.closed == s.closed && s'.tasks == s.tasks && s'.recs == s.recs
            && m < |s'.agents| && MayStart(s'.closed, s'.agents[m], key)
            && |s'.agents| == |s.agents| + 1 && s'.agents[|s.agents|] == Armed(s.agents[i].task)
  {
    var a := s.agents[m];
    if Aims(a.call, Upcoming(a), key) {
      assert m == i ==> Upcoming(After(s, i, Go).agents[m]) == Upcoming(a);
    }
  }

  // With somebody to store the key, a source of the removed task t drops what is stored.
  lemma SourceWaitsAndDrops(s: State, i: nat, t: nat) returns (s': State)
    requires Reachable(s) && i < |s.agents| && IsSource(s.agents[i], t)
    requires t < |s.recs| && s.recs[t].fate.Removed? && s.recs[t].key !in s.tasks && SomeMayStart(s, s.recs[t].key)
    ensures LeadsWithout(s, s', s.recs[t].key) && DropsAnother(s, s', t)
  {
    var key := s.recs[t].key;
    var s1, j := LeaveTheStart(s, i, t, key);
    var m :| 0 <= m < |s1.agents| && MayStart(s1.closed, s1.agents[m], key);
    OnlyHandleStarts(s1.closed, s1.agents[m], key);
    var s2 := HurriesToStore(s1, m, key);
    LeadsOnWithout(s, s1, s2, key);
    LeadsKeeps(s, s2, key);
    s' := SourceDrops(s2, j, t);
    LeadsOnWithout(s, s2, s', key);
    LeadsKeeps(s2, s', key);
    var u :| u != t && NewlyDropped(s2, s', t, u);
    assert NewlyDropped(s, s', t, u);
  }

  // ---------- without a source, or without the key, nothing is dropped ----------

  // Task t has no source, and its callbacks have dropped nothing since s0.
  ghost predicate Harmless(s0: State, s: State, t: nat)
  {
    && t < |s.recs| && Sum(s.agents, SourceOf(t)) == 0
    && forall u :: 0 <= u < |s.recs| && s.recs[u].fate.Removed?
                   && s.recs[u].fate.remover.ByRun? && s.recs[u].fate.remover.task == t ==>
         u < |s0.recs| && s0.recs[u].fate.Removed?
  }

  lemma HarmlessOperation(s0: State, s: State, i: nat, op: Op, t: nat)
    requires Effects(s, i, op) && SourceFacts(s, s.agents[i], op, t) && Harmless(s0, s, t)
    ensures Harmless(s0, Perform(s, i, op), t)
  {
    AfterRemoval(s, i, op, t);
    forall u | 0 <= u < |s.recs|
      ensures |NewRecs(s, op)| == |s.recs| + One(op.Insert?)
      ensures NewRecs(s, op)[u].fate
           == if op.Delete? && s.tasks[op.key] == u then Removed(op.caller) else s.recs[u].fate
    {
      RecordChange(s, op, u);
    }
    hide SourceFacts, Sum;
  }

  lemma HarmlessStep(s0: State, s: State, move: Move, s': State, t: nat)
    requires Inv(s) && Takes(s, move, s') && Harmless(s0, s, t)
    ensures Harmless(s0, s', t)
  {
    hide Inv, Effects, CountFacts;
    match move
    case Spawn(a) => SumAppend(s.agents, a, SourceOf(t));
    case Act(i, c) =>
      var op := Operation(s, i, c).value;
      hide Operation, Harmless;
      OperationFacts(s, i, c, op);
      SourcesFollow(s, i, c, op, t);
      HarmlessOperation(s0, s, i, op, t);
  }

  lemma SourcesFollow(s: State, i: nat, c: Choice, op: Op, t: nat)
    requires Inv(s) && OpIs(s, i, c, op)
    ensures SourceFacts(s, s.agents[i], op, t)
  {
    OperationCounts(s, i, c, op, t);
  }

  ghost predicate HarmlessAt(states: seq<State>, n: int, t: nat)
  {
    0 <= n < |states| && Harmless(states[0], states[n], t)
  }

  lemma StaysHarmless(s: State, s': State, key: string, t: nat)
    requires Reachable(s) && LeadsWithout(s, s', key) && t < |s.recs| && !HasSource(s, t)
    ensures Harmless(s, s', t)
  {
    var states, moves :|
      IsRun(states, moves) && states[0] == s && states[|moves|] == s' && NotSentAnew(moves, key);
    ReachableInv(s);
    SumZero(s.agents, SourceOf(t));
    hide Reachable, LeadsWithout, Harmless, Takes;
    NothingDroppedYet(s, t);
    forall m: nat | m < |moves| && StepAt(states, moves, m) && InvAt(states, m) && HarmlessAt(states, m, t)
      ensures InvAt(states, m + 1) && HarmlessAt(states, m + 1, t)
    {
      StepInv(states[m], moves[m], states[m + 1]);
      HarmlessStep(s, states[m], moves[m], states[m + 1], t);
    }
    RunInduction(states, moves, m => InvAt(states, m) && HarmlessAt(states, m, t), |moves|);
  }

  lemma NothingDroppedYet(s: State, t: nat)
    requires t < |s.recs| && Sum(s.agents, SourceOf(t)) == 0
    ensures Harmless(s, s, t)
  {
  }

  // What has been dropped is a task of the key that was registered or is new.
  lemma DroppedIsCurrent(s: State, s': State, t: nat)
    requires Reachable(s) && t < |s.recs| && LeadsWithout(s, s', s.recs[t].key) && DropsAnother(s, s', t)
    ensures s.recs[t].key in s.tasks || SomeMayStart(s, s.recs[t].key)
  {
    var key := s.recs[t].key;
    var u :| u != t && NewlyDropped(s, s', t, u);
    LeadsKeeps(s, s', key);
    ReachableInv(s);
    if !SomeMayStart(s, key) {
      NeverStarted(s, s', key);
      hide Reachable, LeadsWithout, SomeMayStart;
      assert u < |s.recs| && s.recs[u].fate.Registered? && s.recs[u].key == key;
    }
  }

  // ---------- the main result on stale callbacks ----------

  // However the run goes on, as long as the backend does not send the message anew: the
  // callback of a removed task takes another task out of the map on some continuation
  // exactly when one is still to come or on its way, and its key is in the map or may
  // still be stored by some Handle call.
  lemma StaleCallbackDropsIff(s: State, t: nat)
    requires Reachable(s) && t < |s.recs| && s.recs[t].fate.Removed?
    ensures (exists s' :: LeadsWithout(s, s', s.recs[t].key) && DropsAnother(s, s', t))
       <==> HasSource(s, t) && (s.recs[t].key in s.tasks || SomeMayStart(s, s.recs[t].key))
  {
    var key := s.recs[t].key;
    hide Reachable, LeadsWithout, IsSource, SomeMayStart;
    if HasSource(s, t) && (key in s.tasks || SomeMayStart(s, key)) {
      var i :| 0 <= i < |s.agents| && IsSource(s.agents[i], t);
      if key in s.tasks {
        var s' := SourceDrops(s, i, t);
      } else {
        var s' := SourceWaitsAndDrops(s, i, t);
      }
    } else {
      forall s' | LeadsWithout(s, s', key)
        ensures !DropsAnother(s, s', t)
      {
        if DropsAnother(s, s', t) {
          DroppedIsCurrent(s, s', t);
          StaysHarmless(s, s', key, t);
          assert false;
        }
      }
    }
  }
}
