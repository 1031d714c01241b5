// How a connection comes to an end. Once its context is done, by Close or by the parent,
// both loops and all callers of Close have a bounded number of steps left, and where
// none of them can move, everything has been shut down.

module ConnPipesRest {
  import opened ConnPipes
  import opened ConnPipesProofs

  // ---------- the steps of the loops and of the callers of Close ----------

  // Not the steps of Send, of the handler and of the parent context.
  predicate OwnStep(e: Event)
  {
    match e
    case Sends(o) => !o.SendBegins? && !o.SendEnters? && !o.SendRefused? && !o.SendReturns?
    case Receives(i) => !i.HandlerTakes?
    case Closes(c) => c.CloseMoves?
  }

  function OwnSteps(events: seq<Event>): nat
  {
    if events == [] then 0
    else OwnSteps(events[..|events| - 1]) + (if OwnStep(events[|events| - 1]) then 1 else 0)
  }

  // New calls of Close.
  function CloseCalls(events: seq<Event>): nat
  {
    if events == [] then 0
    else CloseCalls(events[..|events| - 1]) + (if events[|events| - 1] == Closes(CloseCalled) then 1 else 0)
  }

  // ---------- what is left to do once the context is done ----------

  function SendLeft(l: SendLoop): nat
  {
    match l
    case Writing(_, _) => 3
    case Selecting => 2
    case Backoff(_, _) => 2
    case Trying(_, _) => 1
    case SendEnded => 0
  }

  function ReceiveLeft(l: ReceiveLoop): nat
  {
    match l
    case Reading => 4
    case Handing(_) => 3
    case Checking => 2
    case Ending => 1
    case ReceiveEnded => 0
  }

  function CloserLeft(c: Closer): nat
  {
    match c
    case NotYet => 7
    case Calling => 7
    case Body(stage) => if stage < 4 then 6 - stage else 2
    case Leaving => 1
    case Back(_) => 0
  }

  function ClosersLeft(closers: seq<Closer>): nat
  {
    if closers == [] then 0 else ClosersLeft(closers[..|closers| - 1]) + CloserLeft(closers[|closers| - 1])
  }

  lemma ClosersAppend(closers: seq<Closer>, c: Closer)
    ensures ClosersLeft(closers + [c]) == ClosersLeft(closers) + CloserLeft(c)
  {
    assert (closers + [c])[..|closers|] == closers;
  }

  lemma {:induction false} ClosersUpdate(closers: seq<Closer>, i: nat, c: Closer)
    requires i < |closers|
    ensures ClosersLeft(closers[i := c]) == ClosersLeft(closers) - CloserLeft(closers[i]) + CloserLeft(c)
  {
    var n := |closers| - 1;
    if i == n {
      assert closers[i := c][..n] == closers[..n];
    } else {
      ClosersUpdate(closers[..n], i, c);
      assert closers[i := c][..n] == closers[..n][i := c];
    }
  }

  function Left(s: Conn): nat
  {
    SendLeft(s.output.loop) + ReceiveLeft(s.input.loop) + ClosersLeft(s.shut.closers)
  }

  lemma SendsLess(o: Out, e: OutEvent)
    requires NextOut(o, true, e).Some?
    ensures var l := NextOut(o, true, e).value.loop;
            if OwnStep(Sends(e)) then SendLeft(l) < SendLeft(o.loop) else l == o.loop
  {
  }

  lemma ReceivesLess(i: In, e: InEvent)
    requires NextIn(i, true, e).Some?
    ensures var l := NextIn(i, true, e).value.loop;
            if OwnStep(Receives(e)) then ReceiveLeft(l) < ReceiveLeft(i.loop) else l == i.loop
  {
  }

  lemma ClosesLess(c: Shut, e: ShutEvent)
    requires NextShut(c, e).Some?
    ensures var left := ClosersLeft(NextShut(c, e).value.closers);
            if OwnStep(Closes(e)) then left < ClosersLeft(c.closers)
            else left == ClosersLeft(c.closers) + (if e.CloseCalled? then 7 else 0)
    ensures c.done ==> NextShut(c, e).value.done
  {
    match e
    case CloseCalled => ClosersAppend(c.closers, Calling);
    case Cancelled =>
    case CloseMoves(i, _) => ClosersUpdate(c.closers, i, NextShut(c, e).value.closers[i]);
  }

  lemma LoopClosesLeft(c: Shut, loop: nat)
    requires loop < |c.closers| && c.closers[loop].NotYet?
    ensures ClosersLeft(LoopCloses(c, loop).closers) == ClosersLeft(c.closers)
  {
    ClosersUpdate(c.closers, loop, Calling);
  }

  // Every own step uses up some of what is left; only new calls of Close add to it.
  lemma StepLess(s: Conn, e: Event, s': Conn)
    requires Inv(s) && Step(s, e, s') && s.shut.done
    ensures s'.shut.done
    ensures Left(s') + (if OwnStep(e) then 1 else 0) <= Left(s) + (if e == Closes(CloseCalled) then 7 else 0)
  {
    match e
    case Sends(oe) =>
      SendsLess(s.output, oe);
      if !s.output.loop.SendEnded? {
        LoopClosesLeft(s.shut, SEND_LOOP);
      }
    case Receives(ie) =>
      ReceivesLess(s.input, ie);
      if !s.input.loop.ReceiveEnded? {
        LoopClosesLeft(s.shut, RECEIVE_LOOP);
      }
    case Closes(ce) => ClosesLess(s.shut, ce);
  }

  // On every run that goes on from a state whose context is done, the loops and the callers
  // of Close make a bounded number of steps: the loops seven at most, a caller seven.
  lemma {:induction false} ClosingIsBounded(states: seq<Conn>, events: seq<Event>, n: nat)
    requires |states| == |events| + 1 && n < |states|
    requires forall k :: 0 <= k < |events| ==> StepAt(states, events, k)
    requires Reachable(states[0]) && states[0].shut.done
    ensures Inv(states[n]) && states[n].shut.done
    ensures OwnSteps(events[..n]) + Left(states[n]) <= Left(states[0]) + 7 * CloseCalls(events[..n])
    ensures Left(states[0]) <= 7 + 7 * |states[0].shut.closers|
  {
    if n == 0 {
      ReachableInv(states[0]);
      SevenEach(states[0].shut.closers);
    } else {
      ClosingIsBounded(states, events, n - 1);
      assert StepAt(states, events, n - 1);
      hide Inv, Step, Left, OwnStep, Reachable;
      assert events[..n][..n - 1] == events[..n - 1];
      assert events[..n][n - 1] == events[n - 1];
      KeepInv(states[n - 1], events[n - 1], states[n]);
      StepLess(states[n - 1], events[n - 1], states[n]);
    }
  }

  lemma {:induction false} SevenEach(closers: seq<Closer>)
    ensures ClosersLeft(closers) <= 7 * |closers|
  {
    if closers != [] {
      SevenEach(closers[..|closers| - 1]);
    }
  }

  // ---------- where nothing can move ----------

  ghost predicate AtRest(s: Conn)
  {
    forall e, s' :: OwnStep(e) ==> !Step(s, e, s')
  }

  // With the context done a loop always has a step, until it has ended.
  function SendChoice(l: SendLoop): OutEvent
  {
    match l
    case Selecting => LoopStops
    case Trying(_, _) => TryStops
    case Writing(_, _) => WriteOk
    case Backoff(_, _) => BackoffStops
    case SendEnded => LoopStops
  }

  function ReceiveChoice(l: ReceiveLoop): InEvent
  {
    match l
    case Checking => ReceiveChecks
    case Reading => ReadTimeout
    case Handing(_) => HandingStops
    case Ending => ChannelCloses
    case ReceiveEnded => ReceiveChecks
  }

  lemma SendLoopMoves(s: Conn) returns (s': Conn)
    requires |s.shut.closers| >= 2 && s.shut.done && !s.output.loop.SendEnded?
    ensures OwnStep(Sends(SendChoice(s.output.loop))) && Step(s, Sends(SendChoice(s.output.loop)), s')
  {
    var o := NextOut(s.output, true, SendChoice(s.output.loop)).value;
    s' := Conn(o, s.input, if o.loop.SendEnded? then LoopCloses(s.shut, SEND_LOOP) else s.shut);
  }

  lemma ReceiveLoopMoves(s: Conn) returns (s': Conn)
    requires |s.shut.closers| >= 2 && s.shut.done && !s.input.loop.ReceiveEnded?
    ensures OwnStep(Receives(ReceiveChoice(s.input.loop))) && Step(s, Receives(ReceiveChoice(s.input.loop)), s')
  {
    var i := NextIn(s.input, true, ReceiveChoice(s.input.loop)).value;
    s' := Conn(s.output, i, if i.loop.ReceiveEnded? then LoopCloses(s.shut, RECEIVE_LOOP) else s.shut);
  }

  lemma RestStopsCallers(s: Conn)
    requires |s.shut.closers| >= 2 && AtRest(s)
    ensures CloseAtRest(s)
  {
    forall i, err
      ensures NextShut(s.shut, CloseMoves(i, err)).None?
    {
      var c := NextShut(s.shut, CloseMoves(i, err));
      if c.Some? {
        assert Step(s, Closes(CloseMoves(i, err)), Conn(s.output, s.input, c.value));
        assert false;
      }
    }
  }

  // Once the context is done and nothing can move any more, both loops have ended, the
  // receive channel is closed, the body of Close has run once, and both loops and every
  // caller are back from Close with the same error.
  lemma ClosedAtRest(s: Conn)
    requires Reachable(s) && s.shut.done && AtRest(s)
    ensures s.output.loop.SendEnded? && s.input.loop.ReceiveEnded? && s.input.closed && !s.input.panicked
    ensures s.shut.socketCloses == s.shut.destroys == 1
    ensures |s.shut.closers| >= 2 && s.shut.closers[SEND_LOOP] == s.shut.closers[RECEIVE_LOOP] == Back(s.shut.err)
    ensures forall i :: 0 <= i < |s.shut.closers| && !s.shut.closers[i].NotYet? ==>
              s.shut.closers[i] == Back(s.shut.err)
  {
    ReachableInv(s);
    if !s.output.loop.SendEnded? {
      var s' := SendLoopMoves(s);
      assert false;
    }
    if !s.input.loop.ReceiveEnded? {
      var s' := ReceiveLoopMoves(s);
      assert false;
    }
    RestStopsCallers(s);
    EndedLoopsHaveClosed(s);
  }
}
