// What one connection keeps on every run: first in first out, nothing twice, one
// close, and no operation on a closed channel.

module ConnPipesProofs {
  import opened ConnPipes

  // ---------- the outgoing side ----------

  ghost predicate Distinct(s: seq<nat>)
  {
    forall m, n :: 0 <= m < n < |s| ==> s[m] != s[n]
  }

  function Attempts(wire: seq<nat>, p: nat): nat
  {
    if wire == [] then 0
    else Attempts(wire[..|wire| - 1], p) + (if wire[|wire| - 1] == p then 1 else 0)
  }

  lemma AttemptsAppend(wire: seq<nat>, q: nat, p: nat)
    ensures Attempts(wire + [q], p) == Attempts(wire, p) + (if q == p then 1 else 0)
  {
    assert (wire + [q])[..|wire|] == wire;
  }

  // Nothing is lost, doubled or reordered between Send and the socket.
  ghost predicate Conserved(o: Out)
  {
    && o.accepted == o.written + InHand(o) + o.buffer
    && |o.buffer| <= o.size && |o.lost| <= 1
    && (!o.loop.SendEnded? ==> o.lost == [])
  }

  ghost predicate CallsOk(o: Out)
  {
    && Distinct(o.accepted)
    && (forall n :: 0 <= n < |o.accepted| ==> o.accepted[n] < |o.calls| && !o.calls[o.accepted[n]].Offering?)
    && (forall i :: 0 <= i < |o.calls| && (o.calls[i].Accepted? || o.calls[i].Entered?) ==> i in o.accepted)
  }

  ghost predicate AttemptsOk(o: Out)
  {
    && (forall p :: Attempts(o.wire, p) <= o.maxRetry + 1)
    && (forall p :: p !in o.accepted ==> Attempts(o.wire, p) == 0)
    && (forall n :: 0 <= n < |o.buffer| ==> Attempts(o.wire, o.buffer[n]) == 0)
    && (o.loop.Trying? || o.loop.Writing? || o.loop.Backoff? ==>
          Attempts(o.wire, o.loop.payload) + o.loop.retries == o.maxRetry)
  }

  lemma KeepConserved(o: Out, done: bool, e: OutEvent)
    requires Conserved(o) && NextOut(o, done, e).Some?
    ensures Conserved(NextOut(o, done, e).value)
  {
    if e.LoopTakes? {
      assert o.buffer == [o.buffer[0]] + o.buffer[1..];
    }
  }

  lemma KeepCalls(o: Out, done: bool, e: OutEvent)
    requires CallsOk(o) && NextOut(o, done, e).Some?
    ensures CallsOk(NextOut(o, done, e).value)
  {
  }

  lemma KeepAttempts(o: Out, done: bool, e: OutEvent)
    requires Conserved(o) && CallsOk(o) && AttemptsOk(o) && NextOut(o, done, e).Some?
    ensures AttemptsOk(NextOut(o, done, e).value)
  {
    var o' := NextOut(o, done, e).value;
    if o'.wire != o.wire {
      forall p
        ensures Attempts(o'.wire, p) == Attempts(o.wire, p) + (if p == o.loop.payload then 1 else 0)
      {
        AttemptsAppend(o.wire, o.loop.payload, p);
      }
      InHandIsNotBuffered(o);
    }
  }

  lemma InHandIsNotBuffered(o: Out)
    requires Conserved(o) && Distinct(o.accepted)
    requires o.loop.Trying? || o.loop.Writing? || o.loop.Backoff?
    ensures o.loop.payload in o.accepted && o.loop.payload !in o.buffer
  {
    var k := |o.written|;
    assert o.accepted[k] == o.loop.payload;
    forall n | 0 <= n < |o.buffer|
      ensures o.buffer[n] != o.loop.payload
    {
      assert o.accepted[k + 1 + n] == o.buffer[n];
    }
  }

  // Once the send loop has ended nothing is written any more.
  lemma EndedStaysEnded(o: Out, done: bool, e: OutEvent)
    requires o.loop.SendEnded? && NextOut(o, done, e).Some?
    ensures var o' := NextOut(o, done, e).value;
            o'.loop.SendEnded? && o'.written == o.written && o'.lost == o.lost && o'.wire == o.wire
  {
  }

  // ---------- the incoming side ----------

  ghost predicate InOk(i: In)
  {
    && i.read == i.consumed + i.buffer + Pending(i)
    && |i.buffer| <= i.size && |i.lost| <= 1
    && (i.closed <==> i.loop.ReceiveEnded?)
    && (!i.loop.Ending? && !i.loop.ReceiveEnded? ==> i.lost == [])
    && !i.panicked
  }

  lemma KeepIn(i: In, done: bool, e: InEvent)
    requires InOk(i) && NextIn(i, done, e).Some?
    ensures InOk(NextIn(i, done, e).value)
  {
    if e.HandlerTakes? {
      assert i.buffer == [i.buffer[0]] + i.buffer[1..];
    }
  }

  // ---------- closing ----------

  ghost predicate Outside(c: Closer)
  {
    c.NotYet? || c.Calling?
  }

  // The function passed to Do is run by the one owner, and the errors returned are
  // the one that is final.
  ghost predicate ShutOk(c: Shut)
  {
    && |c.closers| >= 2
    && match c.once
       case Idle =>
         && (forall i :: 0 <= i < |c.closers| ==> Outside(c.closers[i]))
         && c.socketCloses == c.destroys == 0 && c.err == []
       case Busy(o) =>
         && o < |c.closers| && c.closers[o].Body? && c.closers[o].stage <= 4
         && (forall i :: 0 <= i < |c.closers| && i != o ==> Outside(c.closers[i]))
         && c.socketCloses == (if c.closers[o].stage >= 3 then 1 else 0)
         && c.destroys == (if c.closers[o].stage >= 4 then 1 else 0)
         && (c.closers[o].stage >= 2 ==> c.done)
       case Over =>
         && (forall i :: 0 <= i < |c.closers| ==>
               !c.closers[i].Body? && (c.closers[i].Back? ==> c.closers[i].err == c.err))
         && c.socketCloses == c.destroys == 1 && c.done
  }

  lemma KeepShut(c: Shut, e: ShutEvent)
    requires ShutOk(c) && NextShut(c, e).Some?
    ensures ShutOk(NextShut(c, e).value)
    ensures forall l :: 0 <= l < |c.closers| ==> (NextShut(c, e).value.closers[l].NotYet? <==> c.closers[l].NotYet?)
  {
  }

  lemma KeepLoopCloses(c: Shut, loop: nat)
    requires ShutOk(c) && loop < |c.closers| && c.closers[loop].NotYet?
    ensures ShutOk(LoopCloses(c, loop))
  {
  }

  // ---------- the connection ----------

  ghost predicate Inv(s: Conn)
  {
    && Conserved(s.output) && CallsOk(s.output) && AttemptsOk(s.output)
    && InOk(s.input) && ShutOk(s.shut)
    && (s.shut.closers[SEND_LOOP].NotYet? <==> !s.output.loop.SendEnded?)
    && (s.shut.closers[RECEIVE_LOOP].NotYet? <==> !s.input.loop.ReceiveEnded?)
  }

  lemma InReceiveStaysEnded(i: In, done: bool, e: InEvent)
    requires i.loop.ReceiveEnded? && NextIn(i, done, e).Some?
    ensures NextIn(i, done, e).value.loop.ReceiveEnded?
  {
  }

  lemma KeepInv(s: Conn, e: Event, s': Conn)
    requires Inv(s) && Step(s, e, s')
    ensures Inv(s')
  {
    match e
    case Sends(oe) =>
      KeepConserved(s.output, s.shut.done, oe);
      KeepCalls(s.output, s.shut.done, oe);
      KeepAttempts(s.output, s.shut.done, oe);
      if s.output.loop.SendEnded? {
        EndedStaysEnded(s.output, s.shut.done, oe);
      } else {
        KeepLoopCloses(s.shut, SEND_LOOP);
      }
    case Receives(ie) =>
      KeepIn(s.input, s.shut.done, ie);
      if s.input.loop.ReceiveEnded? {
        InReceiveStaysEnded(s.input, s.shut.done, ie);
      } else {
        KeepLoopCloses(s.shut, RECEIVE_LOOP);
      }
    case Closes(ce) => KeepShut(s.shut, ce);
  }

  ghost predicate InvAt(states: seq<Conn>, n: nat)
  {
    n < |states| && Inv(states[n])
  }

  lemma KeepInvAt(states: seq<Conn>, events: seq<Event>, n: nat)
    requires n < |events| < |states| && StepAt(states, events, n) && InvAt(states, n)
    ensures InvAt(states, n + 1)
  {
    KeepInv(states[n], events[n], states[n + 1]);
  }

  lemma {:induction false} RunInv(sendSize: nat, receiveSize: nat, maxRetry: nat,
                                  states: seq<Conn>, events: seq<Event>, n: nat)
    requires IsRun(sendSize, receiveSize, maxRetry, states, events) && n < |states|
    ensures InvAt(states, n)
  {
    if n > 0 {
      var m := n - 1;
      RunInv(sendSize, receiveSize, maxRetry, states, events, m);
      assert StepAt(states, events, m);
      KeepInvAt(states, events, m);
    }
  }

  ghost predicate Reachable(s: Conn)
  {
    exists sendSize, receiveSize, maxRetry, states, events ::
      IsRun(sendSize, receiveSize, maxRetry, states, events) && s == states[|events|]
  }

  lemma ReachableInv(s: Conn)
    requires Reachable(s)
    ensures Inv(s)
  {
    var sendSize, receiveSize, maxRetry, states, events :|
      IsRun(sendSize, receiveSize, maxRetry, states, events) && s == states[|events|];
    RunInv(sendSize, receiveSize, maxRetry, states, events, |events|);
  }

  // ---------- what a connection promises ----------

  // The payloads written are a prefix of the payloads accepted, each at most once and
  // with at most maxRetry + 1 attempts; only the one in hand and those still buffered
  // are missing. Send returns nil only for an accepted payload.
  lemma SendIsFifo(s: Conn)
    requires Reachable(s)
    ensures s.output.written <= s.output.accepted && Distinct(s.output.written)
    ensures s.output.accepted == s.output.written + InHand(s.output) + s.output.buffer
    ensures forall p :: Attempts(s.output.wire, p) <= s.output.maxRetry + 1
    ensures forall i :: 0 <= i < |s.output.calls| && s.output.calls[i].Accepted? ==> i in s.output.accepted
  {
    ReachableInv(s);
    var o := s.output;
    forall m, n | 0 <= m < n < |o.written|
      ensures o.written[m] != o.written[n]
    {
      assert o.accepted[m] == o.written[m] && o.accepted[n] == o.written[n];
    }
  }

  // The handler sees an in-order prefix of what was read; the channel is closed exactly
  // when the receive loop has ended, and never sent on or closed again.
  lemma ReceiveIsFifo(s: Conn)
    requires Reachable(s)
    ensures s.input.consumed <= s.input.read
    ensures s.input.consumed + s.input.buffer <= s.input.read
    ensures s.input.closed <==> s.input.loop.ReceiveEnded?
    ensures !s.input.panicked
  {
    ReachableInv(s);
  }

  // The socket is closed and the session destroyed at most once, and exactly once as
  // soon as any Close has returned; all callers get the same error.
  lemma CloseIsOneShot(s: Conn)
    requires Reachable(s)
    ensures s.shut.socketCloses <= 1 && s.shut.destroys <= s.shut.socketCloses
    ensures forall i :: 0 <= i < |s.shut.closers| && s.shut.closers[i].Back? ==>
              && s.shut.socketCloses == s.shut.destroys == 1
              && s.shut.closers[i].err == s.shut.err
  {
    ReachableInv(s);
  }

  // No caller of Close can make a step on its own.
  ghost predicate CloseAtRest(s: Conn)
  {
    forall i, err :: NextShut(s.shut, CloseMoves(i, err)).None?
  }

  lemma OwnerMoves(c: Shut)
    requires ShutOk(c) && c.once.Busy?
    ensures NextShut(c, CloseMoves(c.once.owner, [])).Some?
  {
  }

  // A loop that has ended has called Close; Close never gets stuck, so when no caller
  // can move any more every Close has returned, and the body ran exactly once.
  lemma EndedLoopsHaveClosed(s: Conn)
    requires Reachable(s) && CloseAtRest(s)
    requires s.output.loop.SendEnded? || s.input.loop.ReceiveEnded?
    ensures s.shut.socketCloses == s.shut.destroys == 1 && s.shut.done
    ensures forall i :: 0 <= i < |s.shut.closers| ==> s.shut.closers[i].NotYet? || s.shut.closers[i] == Back(s.shut.err)
  {
    ReachableInv(s);
    var c := s.shut;
    if c.once.Busy? {
      OwnerMoves(c);
    }
    forall i | 0 <= i < |c.closers|
      ensures c.closers[i].NotYet? || c.closers[i].Back?
    {
      assert NextShut(c, CloseMoves(i, [])).None?;
    }
  }

  ghost predicate WrittenAt(states: seq<Conn>, n: nat, o: Out)
  {
    && n < |states|
    && states[n].output.loop.SendEnded? && states[n].output.lost == o.lost
    && states[n].output.written == o.written && states[n].output.wire == o.wire
  }

  lemma WrittenStep(states: seq<Conn>, events: seq<Event>, n: nat, o: Out)
    requires n < |events| < |states| && StepAt(states, events, n) && WrittenAt(states, n, o)
    ensures WrittenAt(states, n + 1, o)
  {
    if events[n].Sends? {
      EndedStaysEnded(states[n].output, states[n].shut.done, events[n].o);
    }
  }

  // The first failure that is not retried ends delivery for good: no payload is written, and
  // no write is attempted, any more.
  lemma {:induction false} FailureEndsDelivery(states: seq<Conn>, events: seq<Event>, m: nat, n: nat)
    requires |states| == |events| + 1 && m <= n < |states|
    requires forall k :: 0 <= k < |events| ==> StepAt(states, events, k)
    requires states[m].output.loop.SendEnded?
    ensures WrittenAt(states, n, states[m].output)
  {
    if m < n {
      var k := n - 1;
      FailureEndsDelivery(states, events, m, k);
      assert StepAt(states, events, k);
      WrittenStep(states, events, k, states[m].output);
    }
  }
}
