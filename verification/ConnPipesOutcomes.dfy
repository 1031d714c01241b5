// What each outcome of a read, a write, a Send or a Close leads to on a run of one
// connection: what ends a loop and what does not, and what an open connection still does.

module ConnPipesOutcomes {
  import opened ConnPipes
  import opened ConnPipesProofs

  // ---------- continuations ----------

  // Any steps of the connection, one after the other.
  ghost predicate Fragment(states: seq<Conn>, events: seq<Event>)
  {
    |states| == |events| + 1 && forall n :: 0 <= n < |events| ==> StepAt(states, events, n)
  }

  ghost predicate Leads(s: Conn, s': Conn)
  {
    exists states, events :: Fragment(states, events) && states[0] == s && states[|events|] == s'
  }

  lemma LeadsNowhere(s: Conn)
    ensures Leads(s, s)
  {
    var states, events: seq<Event> := [s], [];
    assert Fragment(states, events);
  }

  lemma ConsFragment(s: Conn, e: Event, states: seq<Conn>, events: seq<Event>)
    requires Fragment(states, events) && Step(s, e, states[0])
    ensures Fragment([s] + states, [e] + events)
  {
    hide Step;
    forall n | 0 <= n < |events| + 1
      ensures StepAt([s] + states, [e] + events, n)
    {
      if n > 0 {
        assert StepAt(states, events, n - 1);
      }
    }
  }

  lemma StepLeads(s: Conn, e: Event, s': Conn, s'': Conn)
    requires Step(s, e, s') && Leads(s', s'')
    ensures Leads(s, s'')
  {
    hide Step, StepAt;
    var states, events :| Fragment(states, events) && states[0] == s' && states[|events|] == s'';
    ConsFragment(s, e, states, events);
    assert ([s] + states)[|[e] + events|] == s'';
  }

  lemma LeadsOn(s: Conn, s': Conn, s'': Conn)
    requires Leads(s, s') && Leads(s', s'')
    ensures Leads(s, s'')
  {
    var states, events :| Fragment(states, events) && states[0] == s && states[|events|] == s';
    LeadsFrom(states, events, s'', 0);
  }

  lemma {:induction false} LeadsFrom(states: seq<Conn>, events: seq<Event>, s: Conn, n: nat)
    requires Fragment(states, events) && n < |states| && Leads(states[|events|], s)
    ensures Leads(states[n], s)
    decreases |events| - n
  {
    if n < |events| {
      LeadsFrom(states, events, s, n + 1);
      assert StepAt(states, events, n);
      StepLeads(states[n], events[n], states[n + 1], s);
    }
  }

  lemma {:induction false} SameMaxRetry(sendSize: nat, receiveSize: nat, maxRetry: nat,
                                        states: seq<Conn>, events: seq<Event>, n: nat)
    requires IsRun(sendSize, receiveSize, maxRetry, states, events) && n < |states|
    ensures states[n].output.maxRetry == maxRetry
  {
    if n > 0 {
      SameMaxRetry(sendSize, receiveSize, maxRetry, states, events, n - 1);
      assert StepAt(states, events, n - 1);
    }
  }

  lemma RunSizes(sendSize: nat, receiveSize: nat, maxRetry: nat,
                 states: seq<Conn>, events: seq<Event>, n: nat)
    requires IsRun(sendSize, receiveSize, maxRetry, states, events) && n < |states|
    ensures Inv(states[n]) && states[n].output.maxRetry == maxRetry
  {
    hide Inv;
    RunInv(sendSize, receiveSize, maxRetry, states, events, n);
    SameMaxRetry(sendSize, receiveSize, maxRetry, states, events, n);
  }

  // ---------- writing ----------

  // How often the payload written last has been attempted.
  function Tries(wire: seq<nat>): nat
  {
    if wire == [] then 0 else Attempts(wire, wire[|wire| - 1])
  }

  // A write attempts the payload in hand once more.
  lemma WriteAttempts(o: Out, done: bool, e: OutEvent)
    requires AttemptsOk(o) && NextOut(o, done, e).Some? && (e.WriteOk? || e.WriteTimeout? || e.WriteError?)
    ensures o.loop.Writing? && NextOut(o, done, e).value.wire == o.wire + [o.loop.payload]
    ensures Tries(NextOut(o, done, e).value.wire) == o.maxRetry + 1 - o.loop.retries
  {
    AttemptsAppend(o.wire, o.loop.payload, o.loop.payload);
  }

  // The send loop ends exactly when it finds the context done, after a write error that is
  // no timeout, or after a timeout of the last attempt that the retry strategy grants.
  lemma SendLoopEndsIff(sendSize: nat, receiveSize: nat, maxRetry: nat,
                        states: seq<Conn>, events: seq<Event>, n: nat)
    requires IsRun(sendSize, receiveSize, maxRetry, states, events) && n < |events|
    requires !states[n].output.loop.SendEnded?
    ensures states[n + 1].output.loop.SendEnded?
       <==> || (states[n].shut.done && events[n] in {Sends(LoopStops), Sends(TryStops), Sends(BackoffStops)})
            || events[n] == Sends(WriteError)
            || (events[n] == Sends(WriteTimeout) && Tries(states[n + 1].output.wire) == maxRetry + 1)
  {
    RunSizes(sendSize, receiveSize, maxRetry, states, events, n);
    assert StepAt(states, events, n);
    if events[n].Sends? {
      SendLoopStep(states[n].output, states[n].shut.done, events[n].o);
    }
    hide NextOut, NextIn, NextShut, Conserved, CallsOk, InOk, ShutOk;
  }

  lemma SendLoopStep(o: Out, done: bool, e: OutEvent)
    requires AttemptsOk(o) && !o.loop.SendEnded? && NextOut(o, done, e).Some?
    ensures NextOut(o, done, e).value.loop.SendEnded?
       <==> || (done && e in {LoopStops, TryStops, BackoffStops})
            || e == WriteError
            || (e == WriteTimeout && Tries(NextOut(o, done, e).value.wire) == o.maxRetry + 1)
  {
    if e.WriteOk? || e.WriteTimeout? || e.WriteError? {
      WriteAttempts(o, done, e);
    }
    hide AttemptsOk, Tries;
  }

  // A write that succeeds has written the payload; after one that fails with an error that
  // is no timeout nothing is attempted any more.
  lemma WriteOutcome(sendSize: nat, receiveSize: nat, maxRetry: nat,
                     states: seq<Conn>, events: seq<Event>, n: nat, m: nat)
    requires IsRun(sendSize, receiveSize, maxRetry, states, events) && n < |events| && n < m < |states|
    ensures events[n] == Sends(WriteOk) ==>
              && states[n].output.loop.Writing?
              && states[n + 1].output.written == states[n].output.written + [states[n].output.loop.payload]
              && states[n + 1].output.loop.Selecting?
    ensures events[n] == Sends(WriteError) ==>
              && states[m].output.wire == states[n + 1].output.wire
              && states[m].output.written == states[n].output.written
  {
    assert StepAt(states, events, n);
    if events[n] == Sends(WriteError) {
      FailureEndsDelivery(states, events, n + 1, m);
    }
  }

  // One more write of the payload, which succeeds.
  lemma WritesOnce(s: Conn) returns (s': Conn)
    requires |s.shut.closers| >= 2 && !s.shut.done
    requires s.output.loop.Trying? || s.output.loop.Writing? || s.output.loop.Backoff?
    ensures Leads(s, s') && s'.shut == s.shut && s'.input == s.input
    ensures s'.output == s.output.(loop := Selecting, wire := s.output.wire + [s.output.loop.payload],
                                   written := s.output.written + [s.output.loop.payload])
    decreases if s.output.loop.Backoff? then 2 else if s.output.loop.Trying? then 1 else 0
  {
    var o := s.output;
    if o.loop.Writing? {
      s' := s.(output := NextOut(o, false, WriteOk).value);
      LeadsNowhere(s');
      StepLeads(s, Sends(WriteOk), s', s');
    } else {
      var e := if o.loop.Backoff? then BackoffOver else TryWrites;
      var s1 := s.(output := NextOut(o, false, e).value);
      s' := WritesOnce(s1);
      StepLeads(s, Sends(e), s1, s');
    }
  }

  // A timeout before the last attempt is retried: as long as the context is not done, the
  // same payload can be attempted again and written.
  lemma TimeoutIsRetried(sendSize: nat, receiveSize: nat, maxRetry: nat,
                         states: seq<Conn>, events: seq<Event>, n: nat) returns (s': Conn)
    requires IsRun(sendSize, receiveSize, maxRetry, states, events) && n < |events|
    requires events[n] == Sends(WriteTimeout) && !states[n].shut.done
    requires Tries(states[n + 1].output.wire) <= maxRetry
    ensures states[n].output.loop.Writing? && Leads(states[n + 1], s')
    ensures s'.output.wire == states[n].output.wire + [states[n].output.loop.payload, states[n].output.loop.payload]
    ensures s'.output.written == states[n].output.written + [states[n].output.loop.payload]
  {
    RunSizes(sendSize, receiveSize, maxRetry, states, events, n);
    assert StepAt(states, events, n);
    WriteAttempts(states[n].output, states[n].shut.done, WriteTimeout);
    hide Inv;
    s' := WritesOnce(states[n + 1]);
  }

  lemma TakesNext(s: Conn) returns (s': Conn)
    requires |s.shut.closers| >= 2 && s.output.loop.Selecting? && s.output.buffer != []
    ensures Step(s, Sends(LoopTakes), s') && s'.shut == s.shut && s'.input == s.input
    ensures s'.output == s.output.(loop := Trying(s.output.buffer[0], s.output.maxRetry),
                                   buffer := s.output.buffer[1..])
  {
    s' := s.(output := NextOut(s.output, s.shut.done, LoopTakes).value);
  }

  lemma {:induction false} EmptiesBuffer(s: Conn) returns (s': Conn)
    requires |s.shut.closers| >= 2 && !s.shut.done && s.output.loop.Selecting?
    ensures Leads(s, s') && s'.shut == s.shut && s'.input == s.input && s'.output.calls == s.output.calls
    ensures s'.output.written == s.output.written + s.output.buffer && s'.output.buffer == []
    ensures s'.output.loop.Selecting? && s'.output.size == s.output.size
    decreases |s.output.buffer|
  {
    if s.output.buffer == [] {
      s' := s;
      LeadsNowhere(s);
    } else {
      var s1 := TakesNext(s);
      var s2 := WritesOnce(s1);
      s' := EmptiesBuffer(s2);
      LeadsOn(s1, s2, s');
      StepLeads(s, Sends(LoopTakes), s1, s');
      assert s.output.buffer == [s.output.buffer[0]] + s.output.buffer[1..];
    }
  }

  // As long as the context is not done and the loop has not ended, everything accepted so
  // far can still be written.
  lemma OpenConnectionDelivers(s: Conn) returns (s': Conn)
    requires Reachable(s) && !s.shut.done && !s.output.loop.SendEnded?
    ensures Leads(s, s') && s'.output.written == s.output.accepted
    ensures s'.shut == s.shut && s'.output.calls == s.output.calls && s'.output.loop.Selecting?
    ensures s'.output.buffer == [] && s'.output.size == s.output.size
  {
    ReachableInv(s);
    hide Reachable, CallsOk, AttemptsOk, InOk, Leads;
    if s.output.loop.Selecting? {
      s' := EmptiesBuffer(s);
    } else {
      var s1 := WritesOnce(s);
      s' := EmptiesBuffer(s1);
      LeadsOn(s, s1, s');
    }
  }

  // ---------- Send ----------

  // A Send is refused only when the context is done.
  lemma {:induction false} RefusedMeansDone(sendSize: nat, receiveSize: nat, maxRetry: nat,
                                            states: seq<Conn>, events: seq<Event>, n: nat, i: nat)
    requires IsRun(sendSize, receiveSize, maxRetry, states, events) && n < |states|
    requires i < |states[n].output.calls| && states[n].output.calls[i].Refused?
    ensures states[n].shut.done
  {
    if n > 0 {
      assert StepAt(states, events, n - 1);
      if i < |states[n - 1].output.calls| && states[n - 1].output.calls[i].Refused? {
        RefusedMeansDone(sendSize, receiveSize, maxRetry, states, events, n - 1, i);
      }
    }
  }

  // And once the context is done no Send returns nil any more.
  lemma {:induction false} DoneRefusesSends(states: seq<Conn>, events: seq<Event>, m: nat, n: nat, i: nat)
    requires Fragment(states, events) && m <= n < |states|
    requires states[m].shut.done && i < |states[n].output.calls| && states[n].output.calls[i].Accepted?
    ensures states[n].shut.done && i < |states[m].output.calls| && states[m].output.calls[i].Accepted?
  {
    if m < n {
      DoneStaysDone(states, events, m, n - 1);
      assert StepAt(states, events, n - 1);
      DoneRefusesSends(states, events, m, n - 1, i);
    }
  }

  lemma {:induction false} DoneStaysDone(states: seq<Conn>, events: seq<Event>, m: nat, n: nat)
    requires Fragment(states, events) && m <= n < |states|
    requires states[m].shut.done
    ensures states[n].shut.done
  {
    if m < n {
      DoneStaysDone(states, events, m, n - 1);
      assert StepAt(states, events, n - 1);
    }
  }

  lemma SendStep(s: Conn, e: OutEvent) returns (s': Conn)
    requires |s.shut.closers| >= 2 && NextOut(s.output, s.shut.done, e).Some? && (e.SendEnters? || e.SendReturns?)
    ensures Step(s, Sends(e), s') && s'.output == NextOut(s.output, s.shut.done, e).value && s'.shut == s.shut
  {
    s' := s.(output := NextOut(s.output, s.shut.done, e).value);
  }

  // As long as the context is not done and the send loop works, a Send that waits can
  // enter its payload and return nil.
  lemma OpenSendReturnsNil(s: Conn, i: nat) returns (s': Conn)
    requires Reachable(s) && !s.shut.done && !s.output.loop.SendEnded? && s.output.size > 0
    requires i < |s.output.calls| && s.output.calls[i].Offering?
    ensures Leads(s, s') && i < |s'.output.calls| && s'.output.calls[i] == Accepted
    ensures s'.output.buffer == [i]
  {
    ReachableInv(s);
    var s1 := OpenConnectionDelivers(s);
    hide Reachable, Inv;
    var s2 := SendStep(s1, SendEnters(i));
    s' := SendStep(s2, SendReturns(i));
    LeadsNowhere(s');
    StepLeads(s2, Sends(SendReturns(i)), s', s');
    StepLeads(s1, Sends(SendEnters(i)), s2, s');
    LeadsOn(s, s1, s');
  }

  // ---------- reading ----------

  // The receive loop has left for its deferred functions.
  predicate HasLeft(l: ReceiveLoop)
  {
    l.Ending? || l.ReceiveEnded?
  }

  // The receive loop leaves exactly when it finds the context done, or after a read error
  // that is no timeout.
  lemma ReceiveLoopLeavesIff(states: seq<Conn>, events: seq<Event>, n: nat)
    requires n < |events| < |states| && StepAt(states, events, n) && !HasLeft(states[n].input.loop)
    ensures HasLeft(states[n + 1].input.loop)
       <==> || (states[n].shut.done && events[n] in {Receives(ReceiveChecks), Receives(HandingStops)})
            || events[n] == Receives(ReadError)
  {
  }

  // Once it has left, as after a read error, nothing more is read or handed on.
  lemma {:induction false} LeavingEndsReading(states: seq<Conn>, events: seq<Event>, m: nat, n: nat)
    requires Fragment(states, events) && m <= n < |states|
    requires HasLeft(states[m].input.loop)
    ensures HasLeft(states[n].input.loop) && states[n].input.read == states[m].input.read
    ensures states[n].input.consumed + states[n].input.buffer == states[m].input.consumed + states[m].input.buffer
  {
    if m < n {
      LeavingEndsReading(states, events, m, n - 1);
      assert StepAt(states, events, n - 1);
      var i := states[n - 1].input;
      assert i.buffer != [] ==> i.buffer == [i.buffer[0]] + i.buffer[1..];
    }
  }

  lemma ReceiveStep(s: Conn, e: InEvent, s': Conn)
    requires |s.shut.closers| >= 2 && NextIn(s.input, s.shut.done, e).Some? && !e.ChannelCloses?
    requires s' == s.(input := NextIn(s.input, s.shut.done, e).value) && !s.input.loop.ReceiveEnded?
    ensures Step(s, Receives(e), s')
  {
  }

  // The handler drains the channel.
  lemma {:induction false} Drains(s: Conn) returns (s': Conn)
    requires |s.shut.closers| >= 2 && !s.input.loop.ReceiveEnded?
    ensures Leads(s, s') && s' == s.(input := s.input.(buffer := [], consumed := s.input.consumed + s.input.buffer))
    decreases |s.input.buffer|
  {
    if s.input.buffer == [] {
      s' := s;
      LeadsNowhere(s);
    } else {
      var s1 := s.(input := NextIn(s.input, s.shut.done, HandlerTakes).value);
      ReceiveStep(s, HandlerTakes, s1);
      s' := Drains(s1);
      StepLeads(s, Receives(HandlerTakes), s1, s');
      assert s.input.buffer == [s.input.buffer[0]] + s.input.buffer[1..];
    }
  }

  // The loop hands on what it has, and comes back to its check.
  lemma HandsOn(s: Conn) returns (s': Conn)
    requires |s.shut.closers| >= 2 && s.input.loop.Handing? && s.input.buffer == [] && s.input.size > 0
    ensures Leads(s, s') && s'.shut == s.shut && s'.output == s.output && s'.input.loop.Checking?
    ensures s'.input.read == s.input.read && s'.input.size == s.input.size && s'.input.buffer == []
    ensures s'.input.consumed == s.input.consumed + [s.input.loop.payload]
  {
    var s1 := s.(input := NextIn(s.input, s.shut.done, HandingSends).value);
    ReceiveStep(s, HandingSends, s1);
    s' := Drains(s1);
    StepLeads(s, Receives(HandingSends), s1, s');
  }

  // It reads the payload, and hands it on.
  lemma ReadsAndHandsOn(s: Conn, payload: string) returns (s': Conn)
    requires |s.shut.closers| >= 2 && !s.shut.done && s.input.buffer == [] && s.input.size > 0
    requires s.input.loop.Checking? || s.input.loop.Reading?
    ensures Leads(s, s') && s'.input.read == s.input.read + [payload]
    ensures s'.input.consumed == s.input.consumed + [payload]
    decreases if s.input.loop.Checking? then 1 else 0
  {
    var e := if s.input.loop.Checking? then ReceiveChecks else ReadPayload(payload);
    var s1 := s.(input := NextIn(s.input, false, e).value);
    ReceiveStep(s, e, s1);
    if s.input.loop.Checking? {
      s' := ReadsAndHandsOn(s1, payload);
    } else {
      s' := HandsOn(s1);
    }
    StepLeads(s, Receives(e), s1, s');
  }

  // As long as the context is not done and the loop has not left, everything read so far
  // and whatever comes next can still reach the handler.
  lemma OpenConnectionReceives(s: Conn, payload: string) returns (s': Conn)
    requires Reachable(s) && !s.shut.done && !HasLeft(s.input.loop) && s.input.size > 0
    ensures Leads(s, s') && s'.input.consumed == s'.input.read == s.input.read + [payload]
  {
    ReachableInv(s);
    hide Reachable, Conserved, CallsOk, AttemptsOk;
    var s1 := Drains(s);
    if s1.input.loop.Handing? {
      var s2 := HandsOn(s1);
      s' := ReadsAndHandsOn(s2, payload);
      LeadsOn(s1, s2, s');
    } else {
      s' := ReadsAndHandsOn(s1, payload);
    }
    LeadsOn(s, s1, s');
  }

  // In particular a read timeout loses nothing.
  lemma ReadTimeoutGoesOn(sendSize: nat, receiveSize: nat, maxRetry: nat,
                          states: seq<Conn>, events: seq<Event>, n: nat, payload: string) returns (s': Conn)
    requires IsRun(sendSize, receiveSize, maxRetry, states, events) && n < |events|
    requires events[n] == Receives(ReadTimeout) && !states[n].shut.done && states[n].input.size > 0
    ensures Leads(states[n + 1], s') && s'.input.consumed == s'.input.read == states[n].input.read + [payload]
  {
    assert StepAt(states, events, n);
    ReceiveLoopLeavesIff(states, events, n);
    PrefixIsReachable(sendSize, receiveSize, maxRetry, states, events, n + 1);
    s' := OpenConnectionReceives(states[n + 1], payload);
  }

  lemma PrefixIsReachable(sendSize: nat, receiveSize: nat, maxRetry: nat,
                          states: seq<Conn>, events: seq<Event>, n: nat)
    requires IsRun(sendSize, receiveSize, maxRetry, states, events) && n < |states|
    ensures Reachable(states[n])
  {
    var first, before := states[..n + 1], events[..n];
    forall k | 0 <= k < n
      ensures StepAt(first, before, k)
    {
      assert StepAt(states, events, k);
    }
    assert IsRun(sendSize, receiveSize, maxRetry, first, before) && first[n] == states[n];
  }

  // ---------- what is counted, and what ends the context ----------

  function CountOf(events: seq<Event>, e: Event): nat
  {
    if events == [] then 0 else CountOf(events[..|events| - 1], e) + (if events[|events| - 1] == e then 1 else 0)
  }

  // The channels have the sizes they were made with, and every Send and every Close that
  // anybody calls is there.
  lemma {:induction false} CallsAreCounted(sendSize: nat, receiveSize: nat, maxRetry: nat,
                                           states: seq<Conn>, events: seq<Event>, n: nat)
    requires IsRun(sendSize, receiveSize, maxRetry, states, events) && n < |states|
    ensures |states[n].output.buffer| <= states[n].output.size == sendSize
    ensures |states[n].input.buffer| <= states[n].input.size == receiveSize
    ensures |states[n].output.calls| == CountOf(events[..n], Sends(SendBegins))
    ensures |states[n].shut.closers| == 2 + CountOf(events[..n], Closes(CloseCalled))
  {
    RunInv(sendSize, receiveSize, maxRetry, states, events, n);
    if n > 0 {
      CallsAreCounted(sendSize, receiveSize, maxRetry, states, events, n - 1);
      assert StepAt(states, events, n - 1);
      assert events[..n][..n - 1] == events[..n - 1];
      SizesStay(states[n - 1], events[n - 1], states[n]);
      CountStep(states[n - 1], events[n - 1], states[n]);
      hide Step, CallsOk, AttemptsOk, ShutOk;
    }
  }

  lemma SizesStay(s: Conn, e: Event, s': Conn)
    requires Step(s, e, s')
    ensures s'.output.size == s.output.size && s'.input.size == s.input.size
  {
  }

  lemma CountStep(s: Conn, e: Event, s': Conn)
    requires Step(s, e, s')
    ensures |s'.output.calls| == |s.output.calls| + (if e == Sends(SendBegins) then 1 else 0)
    ensures |s'.shut.closers| == |s.shut.closers| + (if e == Closes(CloseCalled) then 1 else 0)
  {
  }

  // The body of Close has got past the cancellation of the context.
  ghost predicate CloseHasCancelled(c: Shut)
  {
    c.once.Over? || exists i :: 0 <= i < |c.closers| && c.closers[i].Body? && c.closers[i].stage >= 2
  }

  // The context is done exactly when the parent was cancelled or the body of Close has got
  // past its cancellation.
  lemma {:induction false} DoneIff(sendSize: nat, receiveSize: nat, maxRetry: nat,
                                   states: seq<Conn>, events: seq<Event>, n: nat)
    requires IsRun(sendSize, receiveSize, maxRetry, states, events) && n < |states|
    ensures states[n].shut.done <==> Closes(Cancelled) in events[..n] || CloseHasCancelled(states[n].shut)
  {
    if n > 0 {
      DoneIff(sendSize, receiveSize, maxRetry, states, events, n - 1);
      RunInv(sendSize, receiveSize, maxRetry, states, events, n - 1);
      assert StepAt(states, events, n - 1);
      assert events[..n] == events[..n - 1] + [events[n - 1]];
      DoneStep(states[n - 1], events[n - 1], states[n]);
      hide Inv, Step, CloseHasCancelled;
    }
  }

  lemma DoneMoves(c: Shut, e: ShutEvent)
    requires ShutOk(c) && NextShut(c, e).Some?
    ensures var c' := NextShut(c, e).value;
            && (c'.done <==> c.done || e.Cancelled? || CloseHasCancelled(c'))
            && (CloseHasCancelled(c) ==> CloseHasCancelled(c'))
  {
    var c' := NextShut(c, e).value;
    if c.once.Busy? && CloseHasCancelled(c) && c'.once.Busy? {
      assert c'.closers[c.once.owner].Body? && c'.closers[c.once.owner].stage >= 2;
    }
    if e.CloseMoves? && c.closers[e.closer] == Body(1) {
      assert c'.closers[e.closer] == Body(2);
    }
  }

  lemma LoopClosesMoves(c: Shut, loop: nat)
    requires ShutOk(c) && loop < |c.closers| && c.closers[loop].NotYet? && CloseHasCancelled(c)
    ensures CloseHasCancelled(LoopCloses(c, loop))
  {
    if !c.once.Over? {
      var i :| 0 <= i < |c.closers| && c.closers[i].Body? && c.closers[i].stage >= 2;
      assert LoopCloses(c, loop).closers[i] == c.closers[i];
    }
  }

  lemma CancelledIsDone(c: Shut)
    requires ShutOk(c) && CloseHasCancelled(c)
    ensures c.done
  {
  }

  lemma DoneStep(s: Conn, e: Event, s': Conn)
    requires Inv(s) && Step(s, e, s')
    ensures s'.shut.done <==> s.shut.done || e == Closes(Cancelled) || CloseHasCancelled(s'.shut)
    ensures CloseHasCancelled(s.shut) ==> CloseHasCancelled(s'.shut)
  {
    KeepInv(s, e, s');
    hide Conserved, CallsOk, AttemptsOk, InOk, ShutOk, CloseHasCancelled, NextOut, NextIn, NextShut;
    if CloseHasCancelled(s'.shut) {
      CancelledIsDone(s'.shut);
    }
    match e
    case Sends(_) =>
      if CloseHasCancelled(s.shut) && s'.shut != s.shut {
        LoopClosesMoves(s.shut, SEND_LOOP);
      }
    case Receives(_) =>
      if CloseHasCancelled(s.shut) && s'.shut != s.shut {
        LoopClosesMoves(s.shut, RECEIVE_LOOP);
      }
    case Closes(ce) => DoneMoves(s.shut, ce);
  }

  // ---------- Close ----------

  // The step closes the socket, or destroys the session, with this outcome.
  ghost predicate ClosesSocket(s: Conn, e: Event, s': Conn, err: seq<string>)
  {
    s'.shut.socketCloses > s.shut.socketCloses && e.Closes? && e.c.CloseMoves? && e.c.err == err
  }

  ghost predicate DestroysSession(s: Conn, e: Event, s': Conn, err: seq<string>)
  {
    s'.shut.destroys > s.shut.destroys && e.Closes? && e.c.CloseMoves? && e.c.err == err
  }

  // What closeErr collects: nothing, the error of the socket, or that and the session's.
  ghost predicate Collected(c: Shut, socketErr: seq<string>, sessionErr: seq<string>)
  {
    c.err == (if c.socketCloses == 0 then [] else socketErr) + (if c.destroys == 0 then [] else sessionErr)
  }

  lemma CollectStep(s: Conn, e: Event, s': Conn, socketErr: seq<string>, sessionErr: seq<string>)
    requires Inv(s) && Step(s, e, s') && Collected(s.shut, socketErr, sessionErr)
    requires s'.shut.socketCloses > s.shut.socketCloses ==> ClosesSocket(s, e, s', socketErr)
    requires s'.shut.destroys > s.shut.destroys ==> DestroysSession(s, e, s', sessionErr)
    ensures Collected(s'.shut, socketErr, sessionErr)
  {
    hide Conserved, CallsOk, AttemptsOk, InOk;
  }

  lemma {:induction false} CollectsErrors(sendSize: nat, receiveSize: nat, maxRetry: nat, states: seq<Conn>,
                                          events: seq<Event>, n: nat, socketErr: seq<string>, sessionErr: seq<string>)
    requires IsRun(sendSize, receiveSize, maxRetry, states, events) && n < |states|
    requires forall k :: 0 <= k < n && states[k + 1].shut.socketCloses > states[k].shut.socketCloses ==>
               ClosesSocket(states[k], events[k], states[k + 1], socketErr)
    requires forall k :: 0 <= k < n && states[k + 1].shut.destroys > states[k].shut.destroys ==>
               DestroysSession(states[k], events[k], states[k + 1], sessionErr)
    ensures Collected(states[n].shut, socketErr, sessionErr)
  {
    if n > 0 {
      CollectsErrors(sendSize, receiveSize, maxRetry, states, events, n - 1, socketErr, sessionErr);
      RunInv(sendSize, receiveSize, maxRetry, states, events, n - 1);
      assert StepAt(states, events, n - 1);
      CollectStep(states[n - 1], events[n - 1], states[n], socketErr, sessionErr);
    }
  }

  // Every Close returns the error of the socket followed by the error of the session, and
  // by then the context is done.
  lemma CloseReturnsBothErrors(sendSize: nat, receiveSize: nat, maxRetry: nat, states: seq<Conn>,
                               events: seq<Event>, i: nat, socketErr: seq<string>, sessionErr: seq<string>)
    requires IsRun(sendSize, receiveSize, maxRetry, states, events)
    requires forall k :: 0 <= k < |events| && states[k + 1].shut.socketCloses > states[k].shut.socketCloses ==>
               ClosesSocket(states[k], events[k], states[k + 1], socketErr)
    requires forall k :: 0 <= k < |events| && states[k + 1].shut.destroys > states[k].shut.destroys ==>
               DestroysSession(states[k], events[k], states[k + 1], sessionErr)
    requires i < |states[|events|].shut.closers| && states[|events|].shut.closers[i].Back?
    ensures states[|events|].shut.closers[i].err == socketErr + sessionErr
    ensures states[|events|].shut.done
  {
    CollectsErrors(sendSize, receiveSize, maxRetry, states, events, |events|, socketErr, sessionErr);
    RunInv(sendSize, receiveSize, maxRetry, states, events, |events|);
  }
}
