// No target of a Handle call is forgotten (internal/pkg/message/downstream/backend_msg.handler.go),
// also those its push loop never reached.

module RetransmissionTargets {
  import opened Common
  import opened Retransmission
  import opened RetransmissionInvariant
  import opened RetransmissionSlots
  import opened RetransmissionSafety
  import opened RetransmissionRuns
  import Keys

  // While call i is under way, the key of its target j is in the map.
  ghost predicate Tracked(s: State, i: nat, call: Call, j: nat)
  {
    && i < |s.agents| && j < |call.conns| && InHandle(s.agents[i]) && s.agents[i].call == call
    && Keys.TaskKey(call.conns[j], call.msgId) in s.tasks
  }

  // Start has dealt with target j of call i.
  ghost predicate DealtWith(s: State, i: nat, call: Call, j: nat)
  {
    i < |s.agents| && CallOf(s.agents[i]) == Some(call) && j < Started(s.agents[i])
  }

  lemma DealingIsHandling(s: State, i: nat, c: Choice, op: Op)
    requires OpIs(s, i, c, op) && Started(op.next) > Started(s.agents[i])
    ensures InHandle(s.agents[i]) && InHandle(op.next)
  {
    if !InHandle(s.agents[i]) {
      OthersDealWithNothing(s, i, c, op);
    } else {
      hide RunOperation, DeleteOperation, CallOperation;
    }
  }

  lemma OthersDealWithNothing(s: State, i: nat, c: Choice, op: Op)
    requires OpIs(s, i, c, op) && !InHandle(s.agents[i])
    ensures Started(op.next) <= Started(s.agents[i])
  {
    hide HandleOperation;
  }

  // The step that deals with a target finds its key in the map or puts it there.
  lemma DealingTracks(s: State, k: nat, c: Choice, op: Op, i: nat, call: Call, j: nat)
    requires Inv(s) && OpIs(s, k, c, op) && !s.closed
    requires DealtWith(Perform(s, k, op), i, call, j) && !DealtWith(s, i, call, j)
    ensures Tracked(s, i, call, j) || Tracked(Perform(s, k, op), i, call, j)
  {
    OperationFacts(s, k, c, op);
    CallChange(s, k, op, i);
    assert i == k && j == Started(s.agents[i]);
    DealingIsHandling(s, i, c, op);
    hide Operation, OpIs, Inv;
  }

  lemma SpawnDealsWithNothing(s: State, a: Agent, i: nat, call: Call, j: nat)
    requires EntryPoint(a) && DealtWith(Spawned(s, a), i, call, j)
    ensures DealtWith(s, i, call, j)
  {
  }

  lemma TakeTracks(s: State, move: Move, s': State, i: nat, call: Call, j: nat)
    requires Inv(s) && Takes(s, move, s') && !s'.closed
    ensures !s.closed
    ensures DealtWith(s', i, call, j) && !DealtWith(s, i, call, j) ==> Tracked(s, i, call, j) || Tracked(s', i, call, j)
  {
    hide Inv, DealtWith, Tracked, Operation;
    match move
    case Spawn(a) =>
      if DealtWith(s', i, call, j) {
        SpawnDealsWithNothing(s, a, i, call, j);
      }
    case Act(k, c) =>
      if DealtWith(s', i, call, j) && !DealtWith(s, i, call, j) {
        DealingTracks(s, k, c, Operation(s, k, c).value, i, call, j);
      }
  }

  ghost predicate TrackedBefore(states: seq<State>, n: nat, i: nat, call: Call, j: nat)
  {
    exists m: nat :: m <= n && m < |states| && Tracked(states[m], i, call, j)
  }

  ghost predicate NotForgotten(states: seq<State>, n: nat, i: nat, call: Call, j: nat)
  {
    n < |states| && (!states[n].closed && DealtWith(states[n], i, call, j) ==> TrackedBefore(states, n, i, call, j))
  }

  lemma StepForgetsNothing(states: seq<State>, moves: seq<Move>, n: nat, i: nat, call: Call, j: nat)
    requires n < |moves| < |states| && StepAt(states, moves, n) && InvAt(states, n)
    requires NotForgotten(states, n, i, call, j)
    ensures NotForgotten(states, n + 1, i, call, j)
  {
    hide Takes, Inv, DealtWith, Tracked;
    if !states[n + 1].closed {
      TakeTracks(states[n], moves[n], states[n + 1], i, call, j);
      if DealtWith(states[n], i, call, j) {
        var m: nat :| m <= n && m < |states| && Tracked(states[m], i, call, j);
      }
    }
  }

  // When a Handle call has returned, with or without an error, and the manager is open,
  // then for each target there was a moment between the beginning of the call and its
  // return at which the target's key was in the map.
  lemma NoTargetForgotten(maxRetryCnt: int, states: seq<State>, moves: seq<Move>, n: nat, i: nat, j: nat)
    requires IsHistory(maxRetryCnt, states, moves) && n < |states| && !states[n].closed
    requires i < |states[n].agents| && states[n].agents[i].Returned? && j < |states[n].agents[i].call.conns|
    ensures exists m: nat :: m < n && Tracked(states[m], i, states[n].agents[i].call, j)
  {
    var call := states[n].agents[i].call;
    InitialInv(maxRetryCnt);
    forall m: nat | m < |moves| && StepAt(states, moves, m) && InvAt(states, m) && NotForgotten(states, m, i, call, j)
      ensures InvAt(states, m + 1) && NotForgotten(states, m + 1, i, call, j)
    {
      StepInv(states[m], moves[m], states[m + 1]);
      StepForgetsNothing(states, moves, m, i, call, j);
    }
    RunInduction(states, moves, m => InvAt(states, m) && NotForgotten(states, m, i, call, j), n);
    var m: nat :| m <= n && m < |states| && Tracked(states[m], i, call, j);
  }
}
