// One connection (internal/ws/conn/conn.go): the buffered send and receive channels,
// the loops that serve them, and the one-shot Close that both loops, the handler and
// the index call. The state is a product of an outgoing, an incoming and a closing
// part; every step is one channel, socket or context operation.

module ConnPipes {
  import opened Common

  // ---------- outgoing: Send, sendLoop, trySend ----------

  // A payload is named by the Send call that brought it.
  datatype SendCall = Offering | Entered | Accepted | Refused

  datatype SendLoop =
    | Selecting
    | Trying(payload: nat, retries: nat)    // at the top of the loop of trySend
    | Writing(payload: nat, retries: nat)
    | Backoff(payload: nat, retries: nat)   // between two attempts
    | SendEnded

  datatype Out = Out(size: nat, maxRetry: nat, calls: seq<SendCall>, loop: SendLoop,
                     buffer: seq<nat>, lost: seq<nat>,
                     accepted: seq<nat>, wire: seq<nat>, written: seq<nat>)

  datatype OutEvent =
    | SendBegins
    | SendEnters(call: nat)     // sendChan <- payload
    | SendRefused(call: nat)    // <-ctx.Done()
    | SendReturns(call: nat)    // the check of ctx.Err() after the send
    | LoopStops                 // <-ctx.Done() in sendLoop
    | LoopTakes                 // payload := <-sendChan
    | TryStops                  // <-ctx.Done() at the top of trySend
    | TryWrites
    | WriteOk
    | WriteTimeout
    | WriteError
    | BackoffStops              // <-ctx.Done() while waiting
    | BackoffOver

  function NextOut(o: Out, done: bool, e: OutEvent): Option<Out>
  {
    match e
    case SendBegins => Some(o.(calls := o.calls + [Offering]))
    case SendEnters(i) =>
      if i < |o.calls| && o.calls[i].Offering? && |o.buffer| < o.size then
        Some(o.(calls := o.calls[i := Entered], buffer := o.buffer + [i], accepted := o.accepted + [i]))
      else None
    case SendRefused(i) =>
      if i < |o.calls| && o.calls[i].Offering? && done then Some(o.(calls := o.calls[i := Refused])) else None
    case SendReturns(i) =>
      if i < |o.calls| && o.calls[i].Entered? then
        Some(o.(calls := o.calls[i := if done then Refused else Accepted]))
      else None
    case LoopStops => if o.loop.Selecting? && done then Some(o.(loop := SendEnded)) else None
    case LoopTakes =>
      if o.loop.Selecting? && o.buffer != [] then
        Some(o.(loop := Trying(o.buffer[0], o.maxRetry), buffer := o.buffer[1..]))
      else None
    case TryStops =>
      if o.loop.Trying? && done then Some(GiveUp(o, o.loop.payload)) else None
    case TryWrites =>
      if o.loop.Trying? && !done then Some(o.(loop := Writing(o.loop.payload, o.loop.retries))) else None
    case WriteOk =>
      if o.loop.Writing? then
        Some(o.(loop := Selecting, wire := o.wire + [o.loop.payload], written := o.written + [o.loop.payload]))
      else None
    case WriteTimeout =>
      if o.loop.Writing? then
        var o' := o.(wire := o.wire + [o.loop.payload]);
        if o.loop.retries > 0 then Some(o'.(loop := Backoff(o.loop.payload, o.loop.retries - 1)))
        else Some(GiveUp(o', o.loop.payload))
      else None
    case WriteError =>
      if o.loop.Writing? then Some(GiveUp(o.(wire := o.wire + [o.loop.payload]), o.loop.payload)) else None
    case BackoffStops =>
      if o.loop.Backoff? && done then Some(GiveUp(o, o.loop.payload)) else None
    case BackoffOver =>
      if o.loop.Backoff? then Some(o.(loop := Trying(o.loop.payload, o.loop.retries))) else None
  }

  function GiveUp(o: Out, payload: nat): Out
  {
    o.(loop := SendEnded, lost := [payload])
  }

  // The payload taken from the buffer and not yet written.
  function InHand(o: Out): seq<nat>
  {
    if o.loop.Selecting? then []
    else if o.loop.SendEnded? then o.lost
    else [o.loop.payload]
  }

  // ---------- incoming: receiveLoop and the handler that drains receiveChan ----------

  datatype ReceiveLoop =
    | Checking
    | Reading
    | Handing(payload: string)  // receiveChan <- payload
    | Ending                    // the deferred close(receiveChan)
    | ReceiveEnded

  datatype In = In(size: nat, loop: ReceiveLoop, buffer: seq<string>, closed: bool, panicked: bool,
                   lost: seq<string>, read: seq<string>, consumed: seq<string>)

  datatype InEvent =
    | ReceiveChecks
    | ReadPayload(payload: string)
    | ReadTimeout
    | ReadError
    | HandingStops
    | HandingSends
    | ChannelCloses
    | HandlerTakes

  function NextIn(i: In, done: bool, e: InEvent): Option<In>
  {
    match e
    case ReceiveChecks =>
      if i.loop.Checking? then Some(i.(loop := if done then Ending else Reading)) else None
    case ReadPayload(p) =>
      if i.loop.Reading? then Some(i.(loop := Handing(p), read := i.read + [p])) else None
    case ReadTimeout => if i.loop.Reading? then Some(i.(loop := Checking)) else None
    case ReadError => if i.loop.Reading? then Some(i.(loop := Ending)) else None
    case HandingStops =>
      if i.loop.Handing? && done then Some(i.(loop := Ending, lost := [i.loop.payload])) else None
    case HandingSends =>
      if i.loop.Handing? && |i.buffer| < i.size then
        // a send on a closed channel panics
        Some(i.(loop := Checking, buffer := i.buffer + [i.loop.payload], panicked := i.panicked || i.closed))
      else None
    case ChannelCloses =>
      if i.loop.Ending? then
        // so does closing it twice
        Some(i.(loop := ReceiveEnded, closed := true, panicked := i.panicked || i.closed))
      else None
    case HandlerTakes =>
      if i.buffer != [] then Some(i.(buffer := i.buffer[1..], consumed := i.consumed + [i.buffer[0]])) else None
  }

  // The payload read and not yet in the channel.
  function Pending(i: In): seq<string>
  {
    if i.loop.Handing? then [i.loop.payload] else i.lost
  }

  // ---------- closing ----------

  datatype Closer =
    | NotYet                    // a loop that has not ended
    | Calling                   // in front of closeOnce.Do
    | Body(stage: nat)          // running the function passed to Do
    | Leaving                   // Do has returned
    | Back(err: seq<string>)    // Close has returned err

  datatype Once = Idle | Busy(owner: nat) | Over

  const SEND_LOOP: nat := 0
  const RECEIVE_LOOP: nat := 1

  datatype Shut = Shut(once: Once, closers: seq<Closer>, done: bool, err: seq<string>,
                       socketCloses: nat, destroys: nat)

  datatype ShutEvent =
    | CloseCalled               // RemoveConn, handleConn, OnDisconnect or anybody else
    | CloseMoves(closer: nat, err: seq<string>)
    | Cancelled                 // the parent context is cancelled

  // err is the outcome of the socket close or of the session destruction, empty for success.
  function NextShut(c: Shut, e: ShutEvent): Option<Shut>
  {
    match e
    case CloseCalled => Some(c.(closers := c.closers + [Calling]))
    case Cancelled => Some(c.(done := true))
    case CloseMoves(i, err) =>
      if i >= |c.closers| then None
      else
        match c.closers[i]
        case NotYet => None
        case Calling =>
          if c.once.Idle? then Some(c.(once := Busy(i), closers := c.closers[i := Body(0)]))
          else if c.once.Over? then Some(c.(closers := c.closers[i := Leaving]))
          else None
        case Body(0) => Some(c.(closers := c.closers[i := Body(1)]))  // the close frame
        case Body(1) => Some(c.(closers := c.closers[i := Body(2)], done := true))
        case Body(2) =>
          Some(c.(closers := c.closers[i := Body(3)], err := err, socketCloses := c.socketCloses + 1))
        case Body(3) =>
          Some(c.(closers := c.closers[i := Body(4)], err := c.err + err, destroys := c.destroys + 1))
        case Body(_) => Some(c.(once := Over, closers := c.closers[i := Leaving]))
        case Leaving => Some(c.(closers := c.closers[i := Back(c.err)]))
        case Back(_) => None
  }

  function LoopCloses(c: Shut, loop: nat): Shut
    requires loop < |c.closers|
  {
    c.(closers := c.closers[loop := Calling])
  }

  // ---------- the connection ----------

  datatype Conn = Conn(output: Out, input: In, shut: Shut)

  // NewConn starts both loops.
  function NewConn(sendSize: nat, receiveSize: nat, maxRetry: nat): Conn
  {
    Conn(Out(sendSize, maxRetry, [], Selecting, [], [], [], [], []),
         In(receiveSize, Checking, [], false, false, [], [], []),
         Shut(Idle, [NotYet, NotYet], false, [], 0, 0))
  }

  datatype Event = Sends(o: OutEvent) | Receives(i: InEvent) | Closes(c: ShutEvent)

  // A loop that ends calls Close.
  ghost predicate Step(s: Conn, e: Event, s': Conn)
  {
    && |s.shut.closers| >= 2
    && match e
       case Sends(oe) =>
         var o := NextOut(s.output, s.shut.done, oe);
         && o.Some?
         && s' == Conn(o.value, s.input,
                       if !s.output.loop.SendEnded? && o.value.loop.SendEnded? then LoopCloses(s.shut, SEND_LOOP)
                       else s.shut)
       case Receives(ie) =>
         var i := NextIn(s.input, s.shut.done, ie);
         && i.Some?
         && s' == Conn(s.output, i.value,
                       if !s.input.loop.ReceiveEnded? && i.value.loop.ReceiveEnded? then
                         LoopCloses(s.shut, RECEIVE_LOOP)
                       else s.shut)
       case Closes(ce) =>
         var c := NextShut(s.shut, ce);
         c.Some? && s' == Conn(s.output, s.input, c.value)
  }

  ghost predicate StepAt(states: seq<Conn>, events: seq<Event>, n: nat)
    requires n < |events| < |states|
  {
    Step(states[n], events[n], states[n + 1])
  }

  // A run of one connection from NewConn on.
  ghost predicate IsRun(sendSize: nat, receiveSize: nat, maxRetry: nat, states: seq<Conn>, events: seq<Event>)
  {
    && |states| == |events| + 1 && states[0] == NewConn(sendSize, receiveSize, maxRetry)
    && forall n :: 0 <= n < |events| ==> StepAt(states, events, n)
  }
}
