// Admission of connections (internal/ws/server.go): the accept loop, which takes a token
// before it accepts, and one handler goroutine per accepted socket, which gives the token
// back. The server never starts the growth of the limiter. The functions a handler
// defers form a stack that runs last in, first out, on every way out.

module Admission {
  import opened Common
  import Limiter
  import LimiterRuns

  // acceptConn
  datatype Loop = Checking | Acquiring | Sleeping | Accepting | Exited

  // What handleConn defers. One deferred function removes the connection from the index
  // and then closes it.
  datatype Cleanup = ReleaseToken | CloseSocket | CloseConn | RemoveConn | OnDisconnect

  // handleConn; reached is the last stage it entered before it returned, and done lists
  // the clean-ups already run.
  datatype Handler = Handler(at: Stage, reached: Stage, deferred: seq<Cleanup>, done: seq<Cleanup>)
  datatype Stage = Upgrading | Creating | Connecting | Serving | Returning | Gone

  // The first two functions are deferred at once.
  const FRESH: Handler := Handler(Upgrading, Upgrading, [ReleaseToken, CloseSocket], [])

  // refused counts the releases that found the bucket full.
  datatype Server = Server(capacity: int, accepting: bool, loop: Loop, avail: int, refused: nat,
                           handlers: seq<Handler>)

  datatype Received = Handled | Failed | Closed

  datatype Event =
    | StopAccepting
    | LoopChecks
    | LoopAcquires
    | LoopWakes
    | LoopAccepts
    | AcceptFails(listenerClosed: bool)
    | Upgrades(handler: nat, ok: bool)
    | Creates(handler: nat, ok: bool)
    | Connects(handler: nat, ok: bool)
    | Receives(handler: nat, outcome: Received)
    | Ends(handler: nat)                        // receive channel, connection or server closed
    | CleansUp(handler: nat)

  function New(c: Limiter.Config): Server
  {
    Server(c.initCapacity, true, Checking, c.initCapacity, 0, [])
  }

  function Release(s: Server): Server
  {
    if s.avail < s.capacity then s.(avail := s.avail + 1) else s.(refused := s.refused + 1)
  }

  // One step of one handler. The flag says whether it releases its token.
  function NextHandler(h: Handler, e: Event): Option<(Handler, bool)>
  {
    match e
    case Upgrades(_, ok) =>
      if !h.at.Upgrading? then None
      else if !ok then Some((h.(at := Returning), false))
      else Some((h.(at := Creating, reached := Creating), false))
    case Creates(_, ok) =>
      if !h.at.Creating? then None
      else if !ok then Some((h.(at := Returning), false))
      else Some((h.(at := Connecting, reached := Connecting, deferred := h.deferred + [CloseConn, RemoveConn]), false))
    case Connects(_, ok) =>
      if !h.at.Connecting? then None
      else if !ok then Some((h.(at := Returning), false))
      else Some((h.(at := Serving, reached := Serving, deferred := h.deferred + [OnDisconnect]), false))
    case Receives(_, outcome) =>
      if h.at.Serving? then Some((if outcome.Closed? then h.(at := Returning) else h, false)) else None
    case Ends(_) =>
      if h.at.Serving? then Some((h.(at := Returning), false)) else None
    case CleansUp(_) =>
      if !h.at.Returning? || h.deferred == [] then None
      else
        var rest, top := h.deferred[..|h.deferred| - 1], h.deferred[|h.deferred| - 1];
        Some((Handler(if rest == [] then Gone else Returning, h.reached, rest, h.done + [top]), top.ReleaseToken?))
    case _ => None
  }

  function Next(s: Server, e: Event): Option<Server>
  {
    match e
    case StopAccepting => Some(s.(accepting := false))
    case LoopChecks =>
      if s.loop.Checking? then Some(s.(loop := if s.accepting then Acquiring else Exited)) else None
    case LoopAcquires =>
      if !s.loop.Acquiring? then None
      else if s.avail > 0 then Some(s.(avail := s.avail - 1, loop := Accepting))
      else Some(s.(loop := Sleeping))
    case LoopWakes => if s.loop.Sleeping? then Some(s.(loop := Checking)) else None
    case LoopAccepts =>
      if s.loop.Accepting? then
        Some(s.(loop := Checking, handlers := s.handlers + [FRESH]))
      else None
    case AcceptFails(listenerClosed) =>
      if s.loop.Accepting? then Some(Release(s).(loop := if listenerClosed then Exited else Checking)) else None
    case _ =>
      if e.handler >= |s.handlers| then None
      else
        match NextHandler(s.handlers[e.handler], e)
        case None => None
        case Some((h, released)) =>
          Some((if released then Release(s) else s).(handlers := s.handlers[e.handler := h]))
  }

  function Run(c: Limiter.Config, events: seq<Event>): Option<Server>
  {
    if events == [] then Some(New(c))
    else
      match Run(c, events[..|events| - 1])
      case None => None
      case Some(s) => Next(s, events[|events| - 1])
  }

  // ---------- what is counted ----------

  function Count(handlers: seq<Handler>, owed: Cleanup): nat
  {
    if handlers == [] then 0
    else Count(handlers[..|handlers| - 1], owed) + (if owed in handlers[|handlers| - 1].done then 0 else 1)
  }

  // Handlers whose token is still out, and sockets not closed yet.
  function Live(s: Server): nat { Count(s.handlers, ReleaseToken) }
  function OpenSockets(s: Server): nat { Count(s.handlers, CloseSocket) }
  function LoopHolds(s: Server): nat { if s.loop.Accepting? then 1 else 0 }

  lemma {:induction false} CountUpdate(handlers: seq<Handler>, owed: Cleanup, i: nat, h: Handler)
    requires i < |handlers|
    ensures Count(handlers[i := h], owed) + (if owed in handlers[i].done then 0 else 1)
         == Count(handlers, owed) + (if owed in h.done then 0 else 1)
  {
    var last := |handlers| - 1;
    if i == last {
      assert handlers[i := h][..last] == handlers[..last];
    } else {
      CountUpdate(handlers[..last], owed, i, h);
      assert handlers[i := h][..last] == handlers[..last][i := h];
    }
  }

  lemma CountAppend(handlers: seq<Handler>, owed: Cleanup, h: Handler)
    ensures Count(handlers + [h], owed) == Count(handlers, owed) + (if owed in h.done then 0 else 1)
  {
    assert (handlers + [h])[..|handlers|] == handlers;
  }

  lemma {:induction false} CountLess(handlers: seq<Handler>)
    requires forall i :: 0 <= i < |handlers| ==> Tidy(handlers[i])
    ensures Count(handlers, CloseSocket) <= Count(handlers, ReleaseToken)
  {
    if handlers != [] {
      CountLess(handlers[..|handlers| - 1]);
      SocketBeforeToken(handlers[|handlers| - 1]);
    }
  }

  // ---------- the clean-up order ----------

  // Everything a handler has to undo, in the order it must be undone.
  function Undo(reached: Stage): seq<Cleanup>
  {
    match reached
    case Connecting => [RemoveConn, CloseConn, CloseSocket, ReleaseToken]
    case Serving => [OnDisconnect, RemoveConn, CloseConn, CloseSocket, ReleaseToken]
    case _ => [CloseSocket, ReleaseToken]
  }

  // The deferred functions in the order they run.
  function Order(deferred: seq<Cleanup>): (r: seq<Cleanup>)
    ensures |r| == |deferred|
  {
    if deferred == [] then []
    else [deferred[|deferred| - 1]] + Order(deferred[..|deferred| - 1])
  }

  // h has undone or still owes exactly what the stage it reached asks for.
  ghost predicate Tidy(h: Handler)
  {
    && h.done + Order(h.deferred) == Undo(h.reached)
    && match h.at
       case Returning => h.deferred != []
       case Gone => h.deferred == []
       case _ => h.reached == h.at && h.done == [] && h.deferred == Deferred(h.at)
  }

  // What a handler has deferred before it returns.
  function Deferred(at: Stage): seq<Cleanup>
  {
    match at
    case Connecting => [ReleaseToken, CloseSocket, CloseConn, RemoveConn]
    case Serving => [ReleaseToken, CloseSocket, CloseConn, RemoveConn, OnDisconnect]
    case _ => [ReleaseToken, CloseSocket]
  }

  lemma OrderAppend(deferred: seq<Cleanup>, c: Cleanup)
    ensures Order(deferred + [c]) == [c] + Order(deferred)
  {
    assert (deferred + [c])[..|deferred|] == deferred;
  }

  lemma DeferredUndoes(at: Stage)
    ensures Order(Deferred(at)) == Undo(at)
  {
    var two := [ReleaseToken, CloseSocket];
    OrderAppend([], ReleaseToken);
    OrderAppend([ReleaseToken], CloseSocket);
    assert Deferred(Upgrading) == [] + [ReleaseToken] + [CloseSocket];
    OrderAppend(two, CloseConn);
    OrderAppend(two + [CloseConn], RemoveConn);
    assert Deferred(Connecting) == two + [CloseConn] + [RemoveConn];
    OrderAppend(Deferred(Connecting), OnDisconnect);
    assert Deferred(Serving) == Deferred(Connecting) + [OnDisconnect];
  }

  // The token comes last.
  lemma UndoEndsWithTheToken(reached: Stage)
    ensures Undo(reached)[|Undo(reached)| - 1] == ReleaseToken
    ensures forall k :: 0 <= k < |Undo(reached)| - 1 ==> Undo(reached)[k] != ReleaseToken
  {
  }

  lemma PrefixHasTheToken(all: seq<Cleanup>, done: seq<Cleanup>, rest: seq<Cleanup>)
    requires done + rest == all && all != [] && all[|all| - 1] == ReleaseToken
    requires forall k :: 0 <= k < |all| - 1 ==> all[k] != ReleaseToken
    ensures ReleaseToken in done <==> rest == []
  {
    assert done == all[..|done|];
    if rest == [] {
      assert done[|done| - 1] == ReleaseToken;
    }
  }

  lemma TokenIsLast(h: Handler)
    requires Tidy(h)
    ensures ReleaseToken in h.done <==> h.at.Gone?
  {
    UndoEndsWithTheToken(h.reached);
    PrefixHasTheToken(Undo(h.reached), h.done, Order(h.deferred));
  }

  lemma PopDeferred(done: seq<Cleanup>, deferred: seq<Cleanup>)
    requires deferred != []
    ensures var n := |deferred| - 1;
            done + Order(deferred) == done + [deferred[n]] + Order(deferred[..n])
  {
    var n := |deferred| - 1;
    Associative(done, [deferred[n]], Order(deferred[..n]));
  }

  lemma Associative<T>(a: seq<T>, b: seq<T>, c: seq<T>)
    ensures a + (b + c) == a + b + c
  {
  }

  lemma CleanUpKeepsTidy(h: Handler, e: Event)
    requires e.CleansUp? && Tidy(h) && NextHandler(h, e).Some?
    ensures var (h', released) := NextHandler(h, e).value;
            Tidy(h') && (released <==> h'.at.Gone?)
  {
    var h' := NextHandler(h, e).value.0;
    PopDeferred(h.done, h.deferred);
    OnlyTheLastIsTheToken(h.reached, h.done, h.deferred[|h.deferred| - 1], Order(h'.deferred));
  }

  lemma OnlyTheLastIsTheToken(reached: Stage, done: seq<Cleanup>, top: Cleanup, rest: seq<Cleanup>)
    requires done + [top] + rest == Undo(reached)
    ensures top.ReleaseToken? <==> rest == []
  {
    assert Undo(reached)[|done|] == top;
    assert |done| + 1 + |rest| == |Undo(reached)|;
  }

  lemma WorkKeepsTidy(h: Handler, e: Event)
    requires !e.CleansUp? && Tidy(h) && NextHandler(h, e).Some?
    ensures var (h', released) := NextHandler(h, e).value;
            Tidy(h') && !released && !h'.at.Gone? && !h.at.Gone?
  {
    hide Order, Undo;
    var h' := NextHandler(h, e).value.0;
    DeferredUndoes(h'.reached);
    if !h'.at.Returning? {
      assert h'.deferred == Deferred(h'.at);
    }
  }

  lemma SocketBeforeToken(h: Handler)
    requires Tidy(h)
    ensures ReleaseToken in h.done ==> CloseSocket in h.done
  {
    TokenIsLast(h);
    if h.at.Gone? {
      assert h.done == Undo(h.reached);
      assert h.done[|h.done| - 2] == CloseSocket;
    }
  }

  // ---------- the invariant ----------

  ghost predicate Balanced(s: Server)
  {
    && s.avail + LoopHolds(s) + Live(s) == s.capacity
    && 0 <= s.avail && s.refused == 0
  }

  ghost predicate AllTidy(s: Server)
  {
    forall i :: 0 <= i < |s.handlers| ==> Tidy(s.handlers[i])
  }

  ghost predicate Works(s: Server, e: Event)
  {
    && (e.Upgrades? || e.Creates? || e.Connects? || e.Receives? || e.Ends? || e.CleansUp?)
    && e.handler < |s.handlers| && NextHandler(s.handlers[e.handler], e).Some?
  }

  lemma HandlerMoves(h: Handler, e: Event)
    requires Tidy(h) && NextHandler(h, e).Some?
    ensures var (h', released) := NextHandler(h, e).value;
            && Tidy(h') && (released <==> h'.at.Gone?)
            && (ReleaseToken in h'.done <==> released) && ReleaseToken !in h.done
  {
    if e.CleansUp? {
      CleanUpKeepsTidy(h, e);
    } else {
      WorkKeepsTidy(h, e);
    }
    TokenIsLast(h);
    TokenIsLast(NextHandler(h, e).value.0);
  }

  lemma HandlerTidy(s: Server, e: Event)
    requires AllTidy(s) && Works(s, e)
    ensures Next(s, e).Some? && AllTidy(Next(s, e).value)
  {
    HandlerMoves(s.handlers[e.handler], e);
  }

  lemma WorkIsAStep(s: Server, e: Event)
    requires Works(s, e)
    ensures var (h', released) := NextHandler(s.handlers[e.handler], e).value;
            Next(s, e) == Some((if released then Release(s) else s).(handlers := s.handlers[e.handler := h']))
  {
  }

  // The last step of a handler gives its token back; no other step moves a token.
  lemma HandlerStep(s: Server, e: Event)
    requires Balanced(s) && Works(s, e) && Tidy(s.handlers[e.handler])
    ensures Next(s, e).Some? && Balanced(Next(s, e).value)
    ensures var s', i := Next(s, e).value, e.handler;
            && s'.loop == s.loop && s'.capacity == s.capacity
            && s'.handlers == s.handlers[i := NextHandler(s.handlers[i], e).value.0]
            && (if s'.handlers[i].at.Gone? then s'.avail == s.avail + 1 && Live(s') == Live(s) - 1
                else s'.avail == s.avail && Live(s') == Live(s))
  {
    var h := s.handlers[e.handler];
    var h' := NextHandler(h, e).value.0;
    HandlerMoves(h, e);
    WorkIsAStep(s, e);
    CountUpdate(s.handlers, ReleaseToken, e.handler, h');
  }

  lemma AcceptStep(s: Server)
    requires Balanced(s) && AllTidy(s) && s.loop.Accepting?
    ensures var s' := Next(s, LoopAccepts).value; Balanced(s') && AllTidy(s')
  {
    hide Tidy;
    FreshIsTidy();
    CountAppend(s.handlers, ReleaseToken, FRESH);
    var s' := Next(s, LoopAccepts).value;
    assert s' == s.(loop := Checking, handlers := s.handlers + [FRESH]);
    hide Next;
  }

  lemma FreshIsTidy()
    ensures Tidy(FRESH)
  {
    DeferredUndoes(Upgrading);
  }

  lemma KeepBalanced(s: Server, e: Event)
    requires Balanced(s) && AllTidy(s) && Next(s, e).Some?
    ensures Balanced(Next(s, e).value) && AllTidy(Next(s, e).value)
  {
    hide Tidy;
    if e.LoopAccepts? {
      AcceptStep(s);
    } else if e.Upgrades? || e.Creates? || e.Connects? || e.Receives? || e.Ends? || e.CleansUp? {
      HandlerStep(s, e);
      HandlerTidy(s, e);
    }
  }

  lemma {:induction false} RunInduction(c: Limiter.Config, events: seq<Event>, P: Server -> bool)
    requires Run(c, events).Some? && P(New(c))
    requires forall s, e :: P(s) && Next(s, e).Some? ==> P(Next(s, e).value)
    ensures P(Run(c, events).value)
  {
    if events != [] {
      RunInduction(c, events[..|events| - 1], P);
    }
  }

  lemma RunKeeps(c: Limiter.Config, events: seq<Event>)
    requires Limiter.ValidConfig(c) && Run(c, events).Some?
    ensures var s := Run(c, events).value; Balanced(s) && AllTidy(s) && s.capacity == c.initCapacity
  {
    forall s, e | Balanced(s) && AllTidy(s) && s.capacity == c.initCapacity && Next(s, e).Some?
      ensures var s' := Next(s, e).value; Balanced(s') && AllTidy(s') && s'.capacity == c.initCapacity
    {
      KeepBalanced(s, e);
      OneTokenAtATime(s, e);
    }
    RunInduction(c, events, s => Balanced(s) && AllTidy(s) && s.capacity == c.initCapacity);
  }

  // ---------- the main results ----------

  // Every token is in the bucket, with the loop or with one live handler, and no release
  // ever finds the bucket full.
  lemma TokensConserved(c: Limiter.Config, events: seq<Event>)
    requires Limiter.ValidConfig(c) && Run(c, events).Some?
    ensures var s := Run(c, events).value;
            s.avail + LoopHolds(s) + Live(s) == c.initCapacity && s.refused == 0
  {
    RunKeeps(c, events);
  }

  // Neither the handlers nor the open sockets ever exceed the capacity, and the loop
  // turns a connection away exactly when that many handlers are alive.
  lemma CapacityIsTheLimit(c: Limiter.Config, events: seq<Event>)
    requires Limiter.ValidConfig(c) && Run(c, events).Some?
    ensures var s := Run(c, events).value;
            && OpenSockets(s) <= Live(s) <= c.initCapacity
            && (s.loop.Acquiring? ==>
                  (Next(s, LoopAcquires).value.loop.Sleeping? <==> Live(s) == c.initCapacity))
  {
    RunKeeps(c, events);
    CountLess(Run(c, events).value.handlers);
  }

  // Whatever made a handler return, it undoes what it has set up, each thing once and
  // in this order: the disconnect event, the index entry, the connection, the socket
  // and, last, the token.
  lemma HandlersCleanUpInOrder(c: Limiter.Config, events: seq<Event>, i: nat)
    requires Limiter.ValidConfig(c) && Run(c, events).Some? && i < |Run(c, events).value.handlers|
    ensures var h := Run(c, events).value.handlers[i];
            && h.done <= Undo(h.reached)
            && (h.at.Gone? ==> h.done == Undo(h.reached) && h.deferred == [])
            && (ReleaseToken in h.done <==> h.at.Gone?)
  {
    RunKeeps(c, events);
    var h := Run(c, events).value.handlers[i];
    assert Tidy(h);
    TokenIsLast(h);
  }

  // Something that makes handler i return.
  predicate ReturnsOn(e: Event, i: nat)
  {
    e in {Upgrades(i, false), Creates(i, false), Connects(i, false), Receives(i, Closed), Ends(i)}
  }

  ghost predicate HasReturned(events: seq<Event>, i: nat)
  {
    exists e :: e in events && ReturnsOn(e, i)
  }

  // The stage a handler has reached says what it has set up: the upgrade succeeded, the
  // connection exists and is in the index from a successful NewConn on, and OnConnect was
  // answered without error. It returns exactly when one of these fails, when a message finds
  // the connection closed, or when the connection or the server ends; not when the
  // handling of a message fails otherwise.
  lemma {:induction false} EventsTellTheStage(c: Limiter.Config, events: seq<Event>, i: nat)
    requires Run(c, events).Some? && i < |Run(c, events).value.handlers|
    ensures StageFits(Run(c, events).value.handlers[i], Upgrades(i, true) in events, Creates(i, true) in events,
                      Connects(i, true) in events, HasReturned(events, i))
  {
    if events != [] {
      var before, e := events[..|events| - 1], events[|events| - 1];
      assert events == before + [e];
      var s := Run(c, before).value;
      assert HasReturned(events, i) <==> HasReturned(before, i) || ReturnsOn(e, i);
      if i < |s.handlers| {
        EventsTellTheStage(c, before, i);
        StageStep(s, e, i, Upgrades(i, true) in before, Creates(i, true) in before, Connects(i, true) in before,
                  HasReturned(before, i));
      } else {
        NoEventsBeforeAcceptance(c, before, i);
        AcceptedIsFresh(s, e, i);
      }
    }
  }

  ghost predicate StageFits(h: Handler, upgraded: bool, created: bool, connected: bool, returned: bool)
  {
    && (upgraded <==> !h.reached.Upgrading?)
    && (created <==> h.reached.Connecting? || h.reached.Serving?)
    && (connected <==> h.reached.Serving?)
    && (returned <==> h.at.Returning? || h.at.Gone?)
    && (h.at.Returning? || h.at.Gone? || h.at == h.reached)
    && !h.reached.Returning? && !h.reached.Gone?
  }

  lemma StageStep(s: Server, e: Event, i: nat, upgraded: bool, created: bool, connected: bool, returned: bool)
    requires Next(s, e).Some? && i < |s.handlers|
    requires StageFits(s.handlers[i], upgraded, created, connected, returned)
    ensures i < |Next(s, e).value.handlers|
    ensures StageFits(Next(s, e).value.handlers[i],
                      upgraded || e == Upgrades(i, true), created || e == Creates(i, true),
                      connected || e == Connects(i, true), returned || ReturnsOn(e, i))
  {
  }

  lemma AcceptedIsFresh(s: Server, e: Event, i: nat)
    requires Next(s, e).Some? && |s.handlers| <= i < |Next(s, e).value.handlers|
    ensures e.LoopAccepts? && Next(s, e).value.handlers[i] == FRESH
  {
  }

  predicate IsAbout(e: Event, i: nat)
  {
    (e.Upgrades? || e.Creates? || e.Connects? || e.Receives? || e.Ends? || e.CleansUp?) && e.handler == i
  }

  lemma {:induction false} NoEventsBeforeAcceptance(c: Limiter.Config, events: seq<Event>, i: nat)
    requires Run(c, events).Some? && i >= |Run(c, events).value.handlers|
    ensures forall e :: e in events ==> !IsAbout(e, i)
  {
    if events != [] {
      var before, e := events[..|events| - 1], events[|events| - 1];
      assert events == before + [e];
      HandlersGrow(Run(c, before).value, e, i);
      hide Next;
      NoEventsBeforeAcceptance(c, before, i);
    }
  }

  lemma HandlersGrow(s: Server, e: Event, i: nat)
    requires Next(s, e).Some?
    ensures |s.handlers| <= |Next(s, e).value.handlers|
    ensures IsAbout(e, i) ==> i < |s.handlers|
  {
  }

  // ---------- the accept loop ----------

  // The server takes connections until it is told to stop.
  lemma {:induction false} AcceptingIff(c: Limiter.Config, events: seq<Event>)
    requires Run(c, events).Some?
    ensures Run(c, events).value.accepting <==> StopAccepting !in events
  {
    if events != [] {
      var before, e := events[..|events| - 1], events[|events| - 1];
      assert events == before + [e];
      AcceptingIff(c, before);
    }
  }

  // The loop has learned that it is to end: accepting found the listener closed, or the
  // loop checked after the server was told to stop.
  ghost predicate EndsTheLoop(events: seq<Event>, n: int)
  {
    && 0 <= n < |events|
    && (events[n] == AcceptFails(true) || (events[n] == LoopChecks && StopAccepting in events[..n]))
  }

  lemma ExitStep(s: Server, e: Event)
    requires Next(s, e).Some?
    ensures Next(s, e).value.loop.Exited?
       <==> s.loop.Exited? || e == AcceptFails(true) || (e == LoopChecks && !s.accepting)
  {
  }

  // The accept loop ends exactly then. Any other failure to accept, and a full server, only
  // send it back to its check.
  lemma {:induction false} LoopExitsIff(c: Limiter.Config, events: seq<Event>)
    requires Run(c, events).Some?
    ensures Run(c, events).value.loop.Exited? <==> exists n :: EndsTheLoop(events, n)
  {
    if events != [] {
      var last := |events| - 1;
      LoopExitsIff(c, events[..last]);
      AcceptingIff(c, events[..last]);
      ExitStep(Run(c, events[..last]).value, events[last]);
      hide Next, EndsTheLoop;
      forall n
        ensures EndsTheLoop(events, n) <==> EndsTheLoop(events[..last], n) || (n == last && EndsTheLoop(events, last))
      {
        EndsEarlier(events, n);
      }
      LastEnds(events);
    }
  }

  lemma EndsEarlier(events: seq<Event>, n: int)
    requires events != []
    ensures n != |events| - 1 ==> (EndsTheLoop(events, n) <==> EndsTheLoop(events[..|events| - 1], n))
    ensures n == |events| - 1 ==> !EndsTheLoop(events[..|events| - 1], n)
  {
    if 0 <= n < |events| - 1 {
      assert events[..|events| - 1][..n] == events[..n];
    }
  }

  lemma LastEnds(events: seq<Event>)
    requires events != []
    ensures EndsTheLoop(events, |events| - 1)
       <==> || events[|events| - 1] == AcceptFails(true)
            || (events[|events| - 1] == LoopChecks && StopAccepting in events[..|events| - 1])
  {
  }

  lemma RunMore(c: Limiter.Config, events: seq<Event>, e: Event)
    requires Run(c, events).Some?
    ensures Run(c, events + [e]) == Next(Run(c, events).value, e)
  {
    assert (events + [e])[..|events|] == events;
  }

  // How far the loop is from accepting.
  function Away(loop: Loop): nat
  {
    match loop
    case Exited => 0
    case Accepting => 0
    case Acquiring => 1
    case Checking => 2
    case Sleeping => 3
  }

  function LoopChoice(loop: Loop): Event
  {
    match loop
    case Sleeping => LoopWakes
    case Checking => LoopChecks
    case Acquiring => LoopAcquires
    case _ => LoopAccepts
  }

  lemma LoopStep(s: Server)
    requires Balanced(s) && s.accepting && !s.loop.Exited? && Live(s) < s.capacity
    ensures && Next(s, LoopChoice(s.loop)).Some?
            && var s' := Next(s, LoopChoice(s.loop)).value;
               if s.loop.Accepting? then s'.handlers == s.handlers + [FRESH]
               else
                 && s'.accepting && !s'.loop.Exited? && s'.handlers == s.handlers && s'.capacity == s.capacity
                 && Away(s'.loop) < Away(s.loop)
  {
  }

  // As long as the server takes connections, the loop has not ended and fewer handlers are
  // alive than the capacity allows, the next steps of the loop lead to a connection.
  lemma {:induction false} LoopAcceptsNext(c: Limiter.Config, events: seq<Event>) returns (more: seq<Event>)
    requires Limiter.ValidConfig(c) && Run(c, events).Some?
    requires var s := Run(c, events).value; s.accepting && !s.loop.Exited? && Live(s) < c.initCapacity
    ensures Run(c, events + more).Some? && |more| <= 4
    ensures Run(c, events + more).value.handlers == Run(c, events).value.handlers + [FRESH]
    ensures forall n :: 0 <= n < |more| ==> more[n] in {LoopWakes, LoopChecks, LoopAcquires, LoopAccepts}
    ensures |more| <= Away(Run(c, events).value.loop) + 1
    decreases Away(Run(c, events).value.loop)
  {
    hide Run, Next, Balanced, AllTidy, Count;
    var s := Run(c, events).value;
    RunKeeps(c, events);
    LoopStep(s);
    var e := LoopChoice(s.loop);
    RunMore(c, events, e);
    if s.loop.Accepting? {
      more := [e];
    } else {
      var rest := LoopAcceptsNext(c, events + [e]);
      more := [e] + rest;
      assert events + more == events + [e] + rest;
    }
  }

  // Once it has been told to stop, the server takes at most one more connection.
  lemma {:induction false} AtMostOneMore(c: Limiter.Config, events: seq<Event>, more: seq<Event>)
    requires Run(c, events).Some? && Run(c, events + more).Some? && StopAccepting in events
    ensures var s, s' := Run(c, events).value, Run(c, events + more).value;
            |s'.handlers| + Coming(s') <= |s.handlers| + Coming(s)
  {
    if more == [] {
      assert events + more == events;
    } else {
      var most, e := more[..|more| - 1], more[|more| - 1];
      assert (events + more)[..|events + more| - 1] == events + most;
      AtMostOneMore(c, events, most);
      AcceptingIff(c, events + most);
      ComingStep(Run(c, events + most).value, e);
    }
  }

  // The connection the loop is about to take without another check.
  function Coming(s: Server): nat
  {
    if s.loop.Acquiring? || s.loop.Accepting? then 1 else 0
  }

  lemma ComingStep(s: Server, e: Event)
    requires Next(s, e).Some? && !s.accepting
    ensures |Next(s, e).value.handlers| + Coming(Next(s, e).value) <= |s.handlers| + Coming(s)
  {
  }

  // A handler that returns is gone after its deferred functions have run; then its token
  // is back.
  lemma {:induction false} ReturningHandlerFinishes(s: Server, i: nat)
    requires Balanced(s) && AllTidy(s) && i < |s.handlers| && s.handlers[i].at.Returning?
    ensures Finish(s, i, |s.handlers[i].deferred|).Some?
    ensures var s' := Finish(s, i, |s.handlers[i].deferred|).value;
            i < |s'.handlers| && s'.handlers[i].at.Gone? && s'.avail == s.avail + 1 && Live(s') == Live(s) - 1
    decreases |s.handlers[i].deferred|
  {
    assert Tidy(s.handlers[i]);
    HandlerStep(s, CleansUp(i));
    HandlerTidy(s, CleansUp(i));
    var s1 := Next(s, CleansUp(i)).value;
    if s1.handlers[i].at.Returning? {
      ReturningHandlerFinishes(s1, i);
    }
  }

  // n clean-up steps of one handler.
  function Finish(s: Server, i: nat, n: nat): Option<Server>
    decreases n
  {
    if n == 0 then Some(s)
    else
      match Next(s, CleansUp(i))
      case None => None
      case Some(s') => Finish(s', i, n - 1)
  }

  // The clean-up steps of handler i.
  function CleanUps(events: seq<Event>, i: nat): nat
  {
    if events == [] then 0
    else CleanUps(events[..|events| - 1], i) + (if events[|events| - 1] == CleansUp(i) then 1 else 0)
  }

  // A returning handler after n of its clean-up steps.
  ghost predicate CleanedUp(h: Handler, h': Handler, n: nat)
  {
    && n <= |h.deferred| && h'.reached == h.reached && h'.deferred == h.deferred[..|h.deferred| - n]
    && h'.at == if n < |h.deferred| then Returning else Gone
  }

  lemma CleanedUpStep(s: Server, e: Event, h: Handler, i: nat, n: nat)
    requires Next(s, e).Some? && i < |s.handlers| && CleanedUp(h, s.handlers[i], n)
    ensures i < |Next(s, e).value.handlers|
    ensures CleanedUp(h, Next(s, e).value.handlers[i], if e == CleansUp(i) then n + 1 else n)
  {
  }

  lemma {:induction false} CleanUpProceeds(c: Limiter.Config, events: seq<Event>, more: seq<Event>, h: Handler, i: nat)
    requires Run(c, events).Some? && Run(c, events + more).Some?
    requires i < |Run(c, events).value.handlers| && CleanedUp(h, Run(c, events).value.handlers[i], 0)
    ensures i < |Run(c, events + more).value.handlers|
    ensures CleanedUp(h, Run(c, events + more).value.handlers[i], CleanUps(more, i))
  {
    if more == [] {
      assert events + more == events;
    } else {
      var before, e := more[..|more| - 1], more[|more| - 1];
      assert (events + more)[..|events + more| - 1] == events + before;
      CleanUpProceeds(c, events, before, h, i);
      CleanedUpStep(Run(c, events + before).value, e, h, i, CleanUps(before, i));
    }
  }

  lemma TidyHandler(c: Limiter.Config, events: seq<Event>, i: nat)
    requires Limiter.ValidConfig(c) && Run(c, events).Some? && i < |Run(c, events).value.handlers|
    ensures var h := Run(c, events).value.handlers[i]; Tidy(h) && (h.at.Returning? ==> h.deferred != [])
  {
    hide Run;
    RunKeeps(c, events);
  }

  lemma CleanUpIsNext(s: Server, i: nat)
    requires i < |s.handlers|
    ensures Next(s, CleansUp(i)).Some? <==> s.handlers[i].at.Returning? && s.handlers[i].deferred != []
  {
  }

  // Whatever else happens, each clean-up step of a returning handler runs the next of its
  // deferred functions, the handler can always make the next one, and with the last
  // one, and not before, it is gone and its token is back.
  lemma NothingHoldsUpTheCleanUp(c: Limiter.Config, events: seq<Event>, more: seq<Event>, i: nat)
    requires Limiter.ValidConfig(c) && Run(c, events).Some? && Run(c, events + more).Some?
    requires i < |Run(c, events).value.handlers| && Run(c, events).value.handlers[i].at.Returning?
    ensures i < |Run(c, events + more).value.handlers|
    ensures var s', h := Run(c, events + more).value, Run(c, events).value.handlers[i];
            var h', n := s'.handlers[i], CleanUps(more, i);
            && n <= |h.deferred| && h'.deferred == h.deferred[..|h.deferred| - n]
            && (n < |h.deferred| <==> Next(s', CleansUp(i)).Some?)
            && (n == |h.deferred| <==> h'.at.Gone?) && (n == |h.deferred| <==> ReleaseToken in h'.done)
  {
    hide Tidy, Next, Run, Count;
    TidyHandler(c, events, i);
    CleanUpProceeds(c, events, more, Run(c, events).value.handlers[i], i);
    TidyHandler(c, events + more, i);
    TokenIsLast(Run(c, events + more).value.handlers[i]);
    CleanUpIsNext(Run(c, events + more).value, i);
  }

  // ---------- the limiter underneath ----------

  // The bucket as the limiter sees it.
  function AsBucket(s: Server): LimiterRuns.Bucket
    requires s.avail >= 0
  {
    LimiterRuns.Bucket(s.avail, LoopHolds(s) + Live(s), s.capacity, LimiterRuns.Waiting, 0)
  }

  // What a step of the server calls of the limiter: the loop acquires, also when it gets
  // nothing, and releases when accepting fails; a handler releases in its last clean-up.
  function LimiterCall(s: Server, e: Event): seq<LimiterRuns.Event>
  {
    match e
    case LoopAcquires => [LimiterRuns.Acquire]
    case AcceptFails(_) => [LimiterRuns.Release]
    case CleansUp(i) =>
      if i < |s.handlers| && s.handlers[i].deferred != []
         && s.handlers[i].deferred[|s.handlers[i].deferred| - 1] == ReleaseToken then [LimiterRuns.Release]
      else []
    case _ => []
  }

  // What a run of the server calls of the limiter, in order.
  function LimiterCalls(c: Limiter.Config, events: seq<Event>): seq<LimiterRuns.Event>
  {
    if events == [] then []
    else
      var before := events[..|events| - 1];
      LimiterCalls(c, before) +
      match Run(c, before)
      case None => []
      case Some(s) => LimiterCall(s, events[|events| - 1])
  }

  // The calls that a run of the server makes of the limiter are a run of the limiter, in
  // which every release is of a token held, and the bucket it leads to is the server's.
  lemma {:induction false} ServerRunsTheLimiter(c: Limiter.Config, events: seq<Event>)
    requires Limiter.ValidConfig(c) && Run(c, events).Some?
    ensures Run(c, events).value.avail >= 0
    ensures LimiterRuns.Run(c, LimiterCalls(c, events)) == Some(AsBucket(Run(c, events).value))
  {
    RunKeeps(c, events);
    if events != [] {
      var before, e := events[..|events| - 1], events[|events| - 1];
      ServerRunsTheLimiter(c, before);
      RunKeeps(c, before);
      var s := Run(c, before).value;
      StepRunsTheLimiter(c, s, e);
      var call := LimiterCall(s, e);
      hide Balanced, AllTidy, Next, LimiterRuns.Next, LimiterCall;
      if call == [] {
        assert LimiterCalls(c, events) == LimiterCalls(c, before);
      } else {
        LimiterRuns.RunAppend(c, LimiterCalls(c, before), call[0]);
        assert call == [call[0]];
      }
    }
  }

  // One step of the server is one step of the limiter, or none.
  lemma StepRunsTheLimiter(c: Limiter.Config, s: Server, e: Event)
    requires s.capacity == c.initCapacity && Balanced(s) && AllTidy(s) && Next(s, e).Some?
    ensures |LimiterCall(s, e)| <= 1 && Next(s, e).value.avail >= 0
    ensures var b, b' := AsBucket(s), AsBucket(Next(s, e).value);
            if LimiterCall(s, e) == [] then b' == b else LimiterRuns.Next(c, b, LimiterCall(s, e)[0]) == Some(b')
  {
    hide Tidy, Next, NextHandler, LimiterCall, LimiterRuns.Next, Count;
    if e.Upgrades? || e.Creates? || e.Connects? || e.Receives? || e.Ends? || e.CleansUp? {
      HandlersWork(s, e);
      HandlerRunsTheLimiter(c, s, e);
    } else {
      LoopRunsTheLimiter(c, s, e);
    }
  }

  lemma HandlersWork(s: Server, e: Event)
    requires e.Upgrades? || e.Creates? || e.Connects? || e.Receives? || e.Ends? || e.CleansUp?
    requires Next(s, e).Some?
    ensures Works(s, e)
  {
    hide NextHandler;
  }

  lemma LoopRunsTheLimiter(c: Limiter.Config, s: Server, e: Event)
    requires !(e.Upgrades? || e.Creates? || e.Connects? || e.Receives? || e.Ends? || e.CleansUp?)
    requires s.capacity == c.initCapacity && Balanced(s) && Next(s, e).Some?
    ensures |LimiterCall(s, e)| <= 1 && Next(s, e).value.avail >= 0
    ensures var b, b' := AsBucket(s), AsBucket(Next(s, e).value);
            if LimiterCall(s, e) == [] then b' == b else LimiterRuns.Next(c, b, LimiterCall(s, e)[0]) == Some(b')
  {
    CountAppend(s.handlers, ReleaseToken, FRESH);
    hide Count, NextHandler;
  }

  lemma HandlerRunsTheLimiter(c: Limiter.Config, s: Server, e: Event)
    requires s.capacity == c.initCapacity && Balanced(s) && AllTidy(s) && Works(s, e)
    ensures Next(s, e).Some? && Next(s, e).value.avail >= 0
    ensures |LimiterCall(s, e)| <= 1
    ensures var b, b' := AsBucket(s), AsBucket(Next(s, e).value);
            if LimiterCall(s, e) == [] then b' == b else LimiterRuns.Next(c, b, LimiterCall(s, e)[0]) == Some(b')
  {
    hide Tidy, Next, NextHandler, LimiterCall, LimiterRuns.Next, Count, Undo, Order, Deferred;
    HandlerStep(s, e);
    HandlerMoves(s.handlers[e.handler], e);
    LastCleanUpReleases(s, e);
    if NextHandler(s.handlers[e.handler], e).value.1 {
      TokenReturns(c, s, Next(s, e).value);
    }
  }

  lemma TokenReturns(c: Limiter.Config, s: Server, s': Server)
    requires Balanced(s) && Balanced(s') && s'.avail == s.avail + 1 && s.capacity == s'.capacity == c.initCapacity
    ensures LimiterRuns.Next(c, AsBucket(s), LimiterRuns.Release) == Some(AsBucket(s'))
  {
  }

  lemma LastCleanUpReleases(s: Server, e: Event)
    requires Works(s, e)
    ensures LimiterCall(s, e) == if NextHandler(s.handlers[e.handler], e).value.1 then [LimiterRuns.Release] else []
  {
  }

  lemma OneTokenAtATime(s: Server, e: Event)
    requires Next(s, e).Some?
    ensures var s' := Next(s, e).value; s'.capacity == s.capacity && s.avail - 1 <= s'.avail <= s.avail + 1
  {
  }
}
