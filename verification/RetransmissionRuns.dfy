// Runs of the protocol: the invariant holds in every state a run reaches.

module RetransmissionRuns {
  import opened Common
  import opened Retransmission
  import opened RetransmissionHistory
  import opened RetransmissionSafety

  // A run that starts with NewManager.
  ghost predicate IsHistory(maxRetryCnt: int, states: seq<State>, moves: seq<Move>)
  {
    && maxRetryCnt <= MAX_INT32
    && IsRun(states, moves) && states[0] == NewManager(maxRetryCnt)
  }

  // The invariant as an atom, for reasoning about runs.
  ghost predicate InvAt(states: seq<State>, n: int)
  {
    0 <= n < |states| && Inv(states[n])
  }

  // What holds at first and is kept by every step holds all along a run.
  lemma {:induction false} RunInduction(states: seq<State>, moves: seq<Move>, P: nat -> bool, n: nat)
    requires IsRun(states, moves) && P(0) && n < |states|
    requires forall m: nat :: m < |moves| && StepAt(states, moves, m) && P(m) ==> P(m + 1)
    ensures P(n)
  {
    if n > 0 {
      RunInduction(states, moves, P, n - 1);
      assert StepAt(states, moves, n - 1);
    }
  }

  lemma RunInv(states: seq<State>, moves: seq<Move>, n: nat)
    requires IsRun(states, moves) && InvAt(states, 0) && n < |states|
    ensures InvAt(states, n)
  {
    forall m: nat | m < |moves| && StepAt(states, moves, m) && InvAt(states, m)
      ensures InvAt(states, m + 1)
    {
      StepInv(states[m], moves[m], states[m + 1]);
    }
    RunInduction(states, moves, m => InvAt(states, m), n);
  }

  ghost predicate Reachable(s: State)
  {
    exists maxRetryCnt, states, moves ::
      IsHistory(maxRetryCnt, states, moves) && s == states[|moves|]
  }

  lemma ReachableInv(s: State)
    requires Reachable(s)
    ensures Inv(s)
  {
    var maxRetryCnt, states, moves :|
      IsHistory(maxRetryCnt, states, moves) && s == states[|moves|];
    InitialInv(maxRetryCnt);
    RunInv(states, moves, |moves|);
  }

  lemma ReachableStep(s: State, move: Move, s': State)
    requires Reachable(s) && Takes(s, move, s')
    ensures Reachable(s')
  {
    var m, states, moves :| m <= MAX_INT32 && IsHistory(m, states, moves) && states[|moves|] == s;
    var states', moves' := states + [s'], moves + [move];
    forall n | 0 <= n < |moves'|
      ensures StepAt(states', moves', n)
    {
      if n < |moves| {
        assert StepAt(states, moves, n);
      }
    }
    assert IsHistory(m, states', moves');
  }

  lemma StaysReachable(states: seq<State>, moves: seq<Move>)
    requires IsRun(states, moves) && Reachable(states[0])
    ensures Reachable(states[|moves|])
  {
    hide Reachable;
    forall m: nat | m < |moves| && StepAt(states, moves, m) && Reachable(states[m])
      ensures Reachable(states[m + 1])
    {
      ReachableStep(states[m], moves[m], states[m + 1]);
    }
    RunInduction(states, moves, (m: nat) => m < |states| && Reachable(states[m]), |moves|);
  }

  // One step in front of a run.
  lemma ConsRun(s: State, move: Move, states: seq<State>, moves: seq<Move>)
    requires IsRun(states, moves) && Takes(s, move, states[0])
    ensures IsRun([s] + states, [move] + moves)
  {
    forall n | 0 <= n < |moves| + 1
      ensures StepAt([s] + states, [move] + moves, n)
    {
      if n > 0 {
        assert StepAt(states, moves, n - 1);
      }
    }
  }

  // Some run leads from s to s'.
  ghost predicate Leads(s: State, s': State)
  {
    exists states, moves :: IsRun(states, moves) && states[0] == s && states[|moves|] == s'
  }

  lemma LeadsNowhere(s: State)
    ensures Leads(s, s)
  {
    var states, moves: seq<Move> := [s], [];
    assert IsRun(states, moves);
  }

  lemma LeadsStep(s: State, move: Move, s': State)
    requires Takes(s, move, s')
    ensures Leads(s, s')
  {
    assert StepAt([s, s'], [move], 0);
    assert IsRun([s, s'], [move]);
  }

  lemma JoinRuns(states: seq<State>, moves: seq<Move>, states': seq<State>, moves': seq<Move>)
    requires IsRun(states, moves) && IsRun(states', moves') && states'[0] == states[|moves|]
    ensures IsRun(states + states'[1..], moves + moves')
    ensures (states + states'[1..])[|moves + moves'|] == states'[|moves'|]
  {
    var joined, all := states + states'[1..], moves + moves';
    forall n | 0 <= n < |all|
      ensures StepAt(joined, all, n)
    {
      if n < |moves| {
        assert StepAt(states, moves, n);
      } else {
        assert StepAt(states', moves', n - |moves|);
      }
    }
  }

  lemma LeadsTransitive(s: State, s': State, s'': State)
    requires Leads(s, s') && Leads(s', s'')
    ensures Leads(s, s'')
  {
    var states, moves :| IsRun(states, moves) && states[0] == s && states[|moves|] == s';
    var states', moves' :| IsRun(states', moves') && states'[0] == s' && states'[|moves'|] == s'';
    JoinRuns(states, moves, states', moves');
    assert (states + states'[1..])[0] == s;
  }

  lemma LeadsIsPreorder()
    ensures forall s :: Leads(s, s)
    ensures forall s, s', s'' :: Leads(s, s') && Leads(s', s'') ==> Leads(s, s'')
  {
    forall s
      ensures Leads(s, s)
    {
      LeadsNowhere(s);
    }
    forall s, s', s'' | Leads(s, s') && Leads(s', s'')
      ensures Leads(s, s'')
    {
      LeadsTransitive(s, s', s'');
    }
  }

  // ---------- the limit ----------

  lemma LimitStays(states: seq<State>, moves: seq<Move>, n: nat)
    requires IsRun(states, moves) && n < |states|
    ensures states[n].max == states[0].max
  {
    forall m: nat | m < |moves| && StepAt(states, moves, m) && states[m].max == states[0].max
      ensures states[m + 1].max == states[0].max
    {
    }
    RunInduction(states, moves, (m: nat) => m < |states| && states[m].max == states[0].max, n);
  }

  // NewManager takes three attempts when it is given no positive number of them.
  lemma LimitOfHistory(maxRetryCnt: int, states: seq<State>, moves: seq<Move>)
    requires IsHistory(maxRetryCnt, states, moves)
    ensures states[|moves|].max == (if maxRetryCnt <= 0 then 3 else maxRetryCnt) && Reachable(states[|moves|])
  {
    LimitStays(states, moves, |moves|);
  }

  // ---------- records are never rewritten ----------

  lemma ExtendsTransitive(a: seq<Task>, b: seq<Task>, c: seq<Task>)
    requires Extends(a, b) && Extends(b, c)
    ensures Extends(a, c)
  {
  }

  lemma TakeExtends(s: State, move: Move, s': State)
    requires Inv(s) && Takes(s, move, s')
    ensures Extends(s.recs, s'.recs)
  {
    if move.Act? {
      var op := Operation(s, move.idx, move.choice).value;
      OperationFacts(s, move.idx, move.choice, op);
      PerformExtends(s, move.idx, op);
    }
  }

  // Along a run tasks keep their keys, and removed tasks stay as they are.
  lemma RunExtends(states: seq<State>, moves: seq<Move>, n: nat)
    requires IsRun(states, moves) && Reachable(states[0]) && n < |states|
    ensures Extends(states[0].recs, states[n].recs)
  {
    assert Extends(states[0].recs, states[0].recs);
    hide Extends;
    ReachableInv(states[0]);
    forall m: nat | m < |moves| && StepAt(states, moves, m) && InvAt(states, m) && ExtendsAt(states, m)
      ensures InvAt(states, m + 1) && ExtendsAt(states, m + 1)
    {
      StepInv(states[m], moves[m], states[m + 1]);
      TakeExtends(states[m], moves[m], states[m + 1]);
      ExtendsTransitive(states[0].recs, states[m].recs, states[m + 1].recs);
    }
    RunInduction(states, moves, m => InvAt(states, m) && ExtendsAt(states, m), n);
  }

  ghost predicate ExtendsAt(states: seq<State>, n: int)
  {
    0 <= n < |states| && Extends(states[0].recs, states[n].recs)
  }
}
