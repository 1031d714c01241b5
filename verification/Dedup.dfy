// The deduplication of frontend messages (internal/ws/conn/lifecycle/handler.go): any
// number of deliveries share one store with an atomic set-if-absent and a delete. Every
// step is one store command, one call of a message handler or one local decision.

module Dedup {
  import opened Common
  import opened Keys

  datatype Command = Heartbeat | Upstream | DownstreamAck | Other(code: int)

  datatype Message = Message(cmd: Command, id: string)

  // The errors an error wraps, as errors.Is sees them.
  datatype Sentinel = UnknownMessageType | MaxRetryExceeded | AnyOther(text: string)

  // decode stands for the codec, a partial function on payloads; expiration 0 means that
  // entries never expire; handlers gives the message handler of a command.
  datatype Config = Config(decode: string -> Option<Message>, expiration: nat, handlers: map<Command, nat>)

  datatype Result =
    | Success
    | InvalidMessage
    | CacheFailed
    | Duplicated
    | UnknownType
    | HandlerFailed(err: seq<Sentinel>)

  // decodePayload
  function DecodePayload(c: Config, payload: string): Option<Message>
  {
    match c.decode(payload)
    case None => None
    case Some(m) => if !m.cmd.Heartbeat? && m.id == "" then None else Some(m)
  }

  function NeedUncache(err: seq<Sentinel>): bool
  {
    UnknownMessageType in err || MaxRetryExceeded in err
  }

  // ---------- the store ----------

  // What became of a command whose caller waits with a timeout.
  datatype Fate = Replied | LostBefore | LostAfter

  // The history of the store: which delivery wrote or deleted which key, and when.
  datatype Mark =
    | Wrote(key: string, at: nat, author: nat, acked: bool)
    | Deleted(key: string, author: nat)

  // An entry maps to the moment it expires, if it does.
  datatype Store = Store(now: nat, entries: map<string, Option<nat>>, log: seq<Mark>)

  predicate Present(entries: map<string, Option<nat>>, now: nat, key: string)
  {
    key in entries && (entries[key].None? || now < entries[key].value)
  }

  function Expiry(expiration: nat, at: nat): Option<nat>
  {
    if expiration == 0 then None else Some(at + expiration)
  }

  // SET NX, when the key is absent.
  function Write(t: Store, expiration: nat, key: string, author: nat, acked: bool): Store
  {
    t.(entries := t.entries[key := Expiry(expiration, t.now)], log := t.log + [Wrote(key, t.now, author, acked)])
  }

  function Remove(t: Store, key: string, author: nat): Store
  {
    t.(entries := t.entries - {key}, log := t.log + [Deleted(key, author)])
  }

  // ---------- deliveries ----------

  // One call of OnReceiveFromFrontend.
  datatype Stage =
    | Caching
    | Dispatching
    | Handling(handler: nat)
    | Uncaching(err: seq<Sentinel>)
    | Returned(result: Result)

  datatype Delivery =
    | Arrived(user: User, payload: string)
    | Rejected(user: User, payload: string)
    | Decoded(user: User, msg: Message, at: Stage)

  datatype State = State(store: Store, deliveries: seq<Delivery>)

  datatype Event =
    | Passes(time: nat)
    | Arrives(user: User, payload: string)
    | Decodes(i: nat)
    | Caches(i: nat, fate: Fate)
    | Dispatches(i: nat)
    | Handles(i: nat, err: Option<seq<Sentinel>>)
    | Uncaches(i: nat, fate: Fate)

  function New(): State
  {
    State(Store(0, map[], []), [])
  }

  function Key(d: Delivery): string
    requires d.Decoded?
  {
    CacheKey(d.user.bid, d.msg.id)
  }

  // cacheMessage and the decision on its outcome
  function CacheMessage(c: Config, t: Store, d: Delivery, i: nat, fate: Fate): (Store, Stage)
    requires d.Decoded?
  {
    if d.msg.cmd.Heartbeat? then (t, Dispatching)
    else if fate.LostBefore? then (t, Returned(CacheFailed))
    else if Present(t.entries, t.now, Key(d)) then (t, Returned(if fate.Replied? then Duplicated else CacheFailed))
    else
      (Write(t, c.expiration, Key(d), i, fate.Replied?), if fate.Replied? then Dispatching else Returned(CacheFailed))
  }

  // uncacheMessage; its own failure is only logged
  function UncacheMessage(t: Store, d: Delivery, i: nat, fate: Fate): Store
    requires d.Decoded?
  {
    if d.msg.cmd.Heartbeat? || fate.LostBefore? then t else Remove(t, Key(d), i)
  }

  function AfterHandler(err: Option<seq<Sentinel>>): Stage
  {
    match err
    case None => Returned(Success)
    case Some(e) => if NeedUncache(e) then Uncaching(e) else Returned(HandlerFailed(e))
  }

  function Move(s: State, i: nat, at: Stage): State
    requires i < |s.deliveries| && s.deliveries[i].Decoded?
  {
    s.(deliveries := s.deliveries[i := s.deliveries[i].(at := at)])
  }

  function Next(c: Config, s: State, e: Event): Option<State>
  {
    match e
    case Passes(time) => Some(s.(store := s.store.(now := s.store.now + time)))
    case Arrives(user, payload) => Some(s.(deliveries := s.deliveries + [Arrived(user, payload)]))
    case Decodes(i) =>
      if i < |s.deliveries| && s.deliveries[i].Arrived? then
        var d := s.deliveries[i];
        var m := DecodePayload(c, d.payload);
        Some(s.(deliveries := s.deliveries[i := if m.None? then Rejected(d.user, d.payload)
                                                else Decoded(d.user, m.value, Caching)]))
      else None
    case Caches(i, fate) =>
      if At(s, i) && s.deliveries[i].at.Caching? then
        var (t, at) := CacheMessage(c, s.store, s.deliveries[i], i, fate);
        Some(Move(s, i, at).(store := t))
      else None
    case Dispatches(i) =>
      if At(s, i) && s.deliveries[i].at.Dispatching? then
        var cmd := s.deliveries[i].msg.cmd;
        Some(Move(s, i, if cmd in c.handlers then Handling(c.handlers[cmd]) else Returned(UnknownType)))
      else None
    case Handles(i, err) =>
      if At(s, i) && s.deliveries[i].at.Handling? then Some(Move(s, i, AfterHandler(err))) else None
    case Uncaches(i, fate) =>
      if At(s, i) && s.deliveries[i].at.Uncaching? then
        var d := s.deliveries[i];
        Some(Move(s, i, Returned(HandlerFailed(d.at.err))).(store := UncacheMessage(s.store, d, i, fate)))
      else None
  }

  predicate At(s: State, i: nat)
  {
    i < |s.deliveries| && s.deliveries[i].Decoded?
  }

  function Run(c: Config, events: seq<Event>): Option<State>
  {
    if events == [] then Some(New())
    else
      match Run(c, events[..|events| - 1])
      case None => None
      case Some(s) => Next(c, s, events[|events| - 1])
  }

  ghost predicate Reached(c: Config, s: State)
  {
    exists events :: Run(c, events) == Some(s)
  }

  lemma ReachedStep(c: Config, s: State, e: Event)
    requires Reached(c, s) && Next(c, s, e).Some?
    ensures Reached(c, Next(c, s, e).value)
  {
    var events :| Run(c, events) == Some(s);
    assert (events + [e])[..|events|] == events;
    assert Run(c, events + [e]) == Next(c, s, e);
  }

  // ---------- the store and its history ----------

  // The n-th mark wrote the key and nobody has deleted it since.
  predicate Standing(log: seq<Mark>, n: int, key: string)
  {
    && 0 <= n < |log| && log[n].Wrote? && log[n].key == key
    && forall k :: n < k < |log| && log[k].Deleted? ==> log[k].key != key
  }

  predicate Current(expiration: nat, at: nat, now: nat)
  {
    expiration == 0 || now < at + expiration
  }

  // The store holds exactly what was written within the last expiration and not deleted.
  ghost predicate Faithful(t: Store, expiration: nat)
  {
    && (forall n, key :: Standing(t.log, n, key) && Current(expiration, t.log[n].at, t.now) ==>
          key in t.entries && t.entries[key] == Expiry(expiration, t.log[n].at))
    && (forall key :: Present(t.entries, t.now, key) ==>
          exists n :: Standing(t.log, n, key) && Current(expiration, t.log[n].at, t.now))
    && (forall n :: 0 <= n < |t.log| && t.log[n].Wrote? ==> t.log[n].at <= t.now)
  }

  // Two writes of one key with no delete in between are an expiration apart.
  ghost predicate Apart(t: Store, expiration: nat)
  {
    forall m, n :: 0 <= m < n < |t.log| && t.log[n].Wrote? && Standing(t.log[..n], m, t.log[n].key) ==>
      !Current(expiration, t.log[m].at, t.log[n].at)
  }

  lemma WriteKeeps(t: Store, expiration: nat, key: string, author: nat, acked: bool)
    requires Faithful(t, expiration) && Apart(t, expiration) && !Present(t.entries, t.now, key)
    ensures var t' := Write(t, expiration, key, author, acked); Faithful(t', expiration) && Apart(t', expiration)
  {
    var t' := Write(t, expiration, key, author, acked);
    var last := |t.log|;
    assert t'.log[..last] == t.log;
    forall n, k | Standing(t'.log, n, k) && Current(expiration, t'.log[n].at, t'.now)
      ensures k in t'.entries && t'.entries[k] == Expiry(expiration, t'.log[n].at)
    {
      if n < last {
        assert Standing(t.log, n, k);
      }
    }
    forall k | Present(t'.entries, t'.now, k)
      ensures exists n :: Standing(t'.log, n, k) && Current(expiration, t'.log[n].at, t'.now)
    {
      if k == key {
        assert Standing(t'.log, last, key);
      } else {
        assert Present(t.entries, t.now, k);
        var n :| Standing(t.log, n, k) && Current(expiration, t.log[n].at, t.now);
        assert Standing(t'.log, n, k);
      }
    }
    ApartPrefix(t, t', expiration);
  }

  lemma ApartPrefix(t: Store, t': Store, expiration: nat)
    requires Apart(t, expiration) && |t'.log| == |t.log| + 1 && t'.log[..|t.log|] == t.log
    requires t'.log[|t.log|].Wrote? ==>
               forall m :: Standing(t.log, m, t'.log[|t.log|].key) ==>
                 !Current(expiration, t.log[m].at, t'.log[|t.log|].at)
    ensures Apart(t', expiration)
  {
    forall m, n | 0 <= m < n < |t'.log| && t'.log[n].Wrote? && Standing(t'.log[..n], m, t'.log[n].key)
      ensures !Current(expiration, t'.log[m].at, t'.log[n].at)
    {
      if n < |t.log| {
        assert t'.log[..n] == t.log[..n];
        assert Standing(t.log[..n], m, t.log[n].key);
      }
    }
  }

  lemma RemoveKeeps(t: Store, expiration: nat, key: string, author: nat)
    requires Faithful(t, expiration) && Apart(t, expiration)
    ensures var t' := Remove(t, key, author); Faithful(t', expiration) && Apart(t', expiration)
  {
    var t' := Remove(t, key, author);
    assert t'.log[..|t.log|] == t.log;
    forall n, k | Standing(t'.log, n, k)
      ensures k != key && Standing(t.log, n, k)
    {
      assert t'.log[|t.log|].Deleted?;
    }
    forall k | Present(t'.entries, t'.now, k)
      ensures exists n :: Standing(t'.log, n, k) && Current(expiration, t'.log[n].at, t'.now)
    {
      assert Present(t.entries, t.now, k);
      var n :| Standing(t.log, n, k) && Current(expiration, t.log[n].at, t.now);
      assert Standing(t'.log, n, k);
    }
    ApartPrefix(t, t', expiration);
  }

  lemma TimeKeeps(t: Store, expiration: nat, time: nat)
    requires Faithful(t, expiration) && Apart(t, expiration)
    ensures var t' := t.(now := t.now + time); Faithful(t', expiration) && Apart(t', expiration)
  {
    var t' := t.(now := t.now + time);
    forall k | Present(t'.entries, t'.now, k)
      ensures exists n :: Standing(t'.log, n, k) && Current(expiration, t'.log[n].at, t'.now)
    {
      assert Present(t.entries, t.now, k);
      var n :| Standing(t.log, n, k) && Current(expiration, t.log[n].at, t.now);
      assert t.entries[k] == Expiry(expiration, t.log[n].at);
      assert Standing(t'.log, n, k);
    }
  }

  // ---------- deliveries and the history ----------

  // d has passed the gate.
  predicate Passed(d: Delivery)
  {
    && d.Decoded?
    && (d.at.Dispatching? || d.at.Handling? || d.at.Uncaching?
        || (d.at.Returned? && (d.at.result.Success? || d.at.result.UnknownType? || d.at.result.HandlerFailed?)))
  }

  // What a mark says about the delivery that made it.
  ghost predicate Made(s: State, m: Mark)
  {
    && At(s, m.author) && !s.deliveries[m.author].msg.cmd.Heartbeat? && Key(s.deliveries[m.author]) == m.key
    && (m.Wrote? && m.acked ==> Passed(s.deliveries[m.author]))
    && (m.Deleted? ==>
          var at := s.deliveries[m.author].at; at.Returned? && at.result.HandlerFailed? && NeedUncache(at.result.err))
  }

  ghost predicate AllMade(s: State)
  {
    forall k :: 0 <= k < |s.store.log| ==> Made(s, s.store.log[k])
  }

  ghost predicate WroteIt(s: State, i: nat, n: int)
  {
    0 <= n < |s.store.log| && s.store.log[n].Wrote? && s.store.log[n].author == i && s.store.log[n].acked
  }

  ghost predicate AllWrote(s: State)
  {
    forall i :: 0 <= i < |s.deliveries| && Passed(s.deliveries[i]) && !s.deliveries[i].msg.cmd.Heartbeat? ==>
      exists n :: WroteIt(s, i, n)
  }

  ghost predicate HeartbeatsPass(s: State)
  {
    forall i :: 0 <= i < |s.deliveries| && s.deliveries[i].Decoded? && s.deliveries[i].msg.cmd.Heartbeat? ==>
      s.deliveries[i].at.Caching? || Passed(s.deliveries[i])
  }

  ghost predicate UncachesForCause(s: State)
  {
    forall i :: 0 <= i < |s.deliveries| && s.deliveries[i].Decoded? && s.deliveries[i].at.Uncaching? ==>
      NeedUncache(s.deliveries[i].at.err)
  }

  ghost predicate Inv(c: Config, s: State)
  {
    && Faithful(s.store, c.expiration) && Apart(s.store, c.expiration)
    && AllMade(s) && AllWrote(s) && HeartbeatsPass(s) && UncachesForCause(s)
  }

  lemma StoreStep(c: Config, s: State, e: Event)
    requires Faithful(s.store, c.expiration) && Apart(s.store, c.expiration) && Next(c, s, e).Some?
    ensures var t := Next(c, s, e).value.store; Faithful(t, c.expiration) && Apart(t, c.expiration)
  {
    match e
    case Passes(time) => TimeKeeps(s.store, c.expiration, time);
    case Caches(i, fate) =>
      var key := Key(s.deliveries[i]);
      if !Present(s.store.entries, s.store.now, key) {
        WriteKeeps(s.store, c.expiration, key, i, fate.Replied?);
      }
    case Uncaches(i, fate) => RemoveKeeps(s.store, c.expiration, Key(s.deliveries[i]), i);
    case _ =>
  }

  // The log only grows, and by at most the mark of the delivery that moves.
  lemma LogStep(c: Config, s: State, e: Event)
    requires UncachesForCause(s) && Next(c, s, e).Some?
    ensures var s' := Next(c, s, e).value;
            && s.store.log <= s'.store.log && |s'.store.log| <= |s.store.log| + 1
            && (|s'.store.log| == |s.store.log| + 1 ==> Made(s', s'.store.log[|s.store.log|]))
  {
  }

  // Messages and users are fixed, and what has passed stays passed.
  lemma DeliveryStep(c: Config, s: State, e: Event, i: nat)
    requires Next(c, s, e).Some? && At(s, i)
    ensures var s' := Next(c, s, e).value;
            && At(s', i) && s'.deliveries[i].msg == s.deliveries[i].msg && s'.deliveries[i].user == s.deliveries[i].user
            && (Passed(s.deliveries[i]) ==> Passed(s'.deliveries[i]))
            && (s.deliveries[i].at.Returned? ==> s'.deliveries[i] == s.deliveries[i])
  {
  }

  lemma MadeStep(c: Config, s: State, e: Event)
    requires AllMade(s) && UncachesForCause(s) && Next(c, s, e).Some?
    ensures AllMade(Next(c, s, e).value)
  {
    var s' := Next(c, s, e).value;
    LogStep(c, s, e);
    forall k | 0 <= k < |s'.store.log|
      ensures Made(s', s'.store.log[k])
    {
      if k < |s.store.log| {
        var m := s.store.log[k];
        assert Made(s, m) && s'.store.log[k] == m;
        DeliveryStep(c, s, e, m.author);
      }
    }
  }

  lemma WroteStep(c: Config, s: State, e: Event)
    requires AllWrote(s) && UncachesForCause(s) && Next(c, s, e).Some?
    ensures AllWrote(Next(c, s, e).value)
  {
    var s' := Next(c, s, e).value;
    LogStep(c, s, e);
    forall i | 0 <= i < |s'.deliveries| && Passed(s'.deliveries[i]) && !s'.deliveries[i].msg.cmd.Heartbeat?
      ensures exists n :: WroteIt(s', i, n)
    {
      if i < |s.deliveries| && Passed(s.deliveries[i]) {
        DeliveryStep(c, s, e, i);
        var n :| WroteIt(s, i, n);
        assert WroteIt(s', i, n);
      } else {
        assert WroteIt(s', i, |s.store.log|);
      }
    }
  }

  lemma StageStep(c: Config, s: State, e: Event)
    requires HeartbeatsPass(s) && UncachesForCause(s) && Next(c, s, e).Some?
    ensures HeartbeatsPass(Next(c, s, e).value) && UncachesForCause(Next(c, s, e).value)
  {
  }

  lemma {:induction false} RunKeeps(c: Config, events: seq<Event>)
    requires Run(c, events).Some?
    ensures Inv(c, Run(c, events).value)
  {
    if events != [] {
      var before, e := events[..|events| - 1], events[|events| - 1];
      RunKeeps(c, before);
      var s := Run(c, before).value;
      StoreStep(c, s, e);
      MadeStep(c, s, e);
      WroteStep(c, s, e);
      StageStep(c, s, e);
    }
  }

  // ---------- the main results ----------

  // The message that mark n is about.
  predicate About(s: State, n: int, bid: Uint64, id: string)
  {
    && 0 <= n < |s.store.log| && At(s, s.store.log[n].author)
    && s.deliveries[s.store.log[n].author].user.bid == bid
    && s.deliveries[s.store.log[n].author].msg.id == id
  }

  // Some delivery's message (bid, id) was uncached between the marks m and n.
  predicate UncachedBetween(s: State, m: int, n: int, bid: Uint64, id: string)
  {
    exists k :: m < k < n && About(s, k, bid, id) && s.store.log[k].Deleted?
  }

  // The message was cached by mark m, within the last expiration, and not uncached since.
  ghost predicate CachedAt(c: Config, s: State, m: int, bid: Uint64, id: string)
  {
    && About(s, m, bid, id) && s.store.log[m].Wrote? && Current(c.expiration, s.store.log[m].at, s.store.now)
    && !UncachedBetween(s, m, |s.store.log|, bid, id)
  }

  // Marks about one message are the marks with its key.
  lemma AboutIsKey(c: Config, s: State, n: int, bid: Uint64, id: string)
    requires Inv(c, s) && 0 <= n < |s.store.log|
    ensures About(s, n, bid, id) <==> s.store.log[n].key == CacheKey(bid, id)
  {
    assert Made(s, s.store.log[n]);
    var d := s.deliveries[s.store.log[n].author];
    CacheKeyInjective(d.user.bid, d.msg.id, bid, id);
  }

  lemma StandingIsNotUncached(c: Config, s: State, m: int, end: int, bid: Uint64, id: string)
    requires Inv(c, s) && 0 <= m < end <= |s.store.log|
    ensures Standing(s.store.log[..end], m, CacheKey(bid, id))
       <==> About(s, m, bid, id) && s.store.log[m].Wrote? && !UncachedBetween(s, m, end, bid, id)
  {
    forall k | 0 <= k < |s.store.log|
      ensures About(s, k, bid, id) <==> s.store.log[k].key == CacheKey(bid, id)
    {
      AboutIsKey(c, s, k, bid, id);
    }
  }

  // A message that is not a heartbeat is dropped as a duplicate exactly when the same
  // (BID, message id), from whatever user and device, was cached within the expiration
  // and has not been uncached since.
  lemma DuplicateIff(c: Config, events: seq<Event>, i: nat)
    requires Run(c, events).Some?
    requires var s := Run(c, events).value;
             At(s, i) && s.deliveries[i].at.Caching? && !s.deliveries[i].msg.cmd.Heartbeat?
    ensures Next(c, Run(c, events).value, Caches(i, Replied)).Some?
    ensures var s, d := Run(c, events).value, Run(c, events).value.deliveries[i];
            (Next(c, s, Caches(i, Replied)).value.deliveries[i].at == Returned(Duplicated)
             <==> exists m :: CachedAt(c, s, m, d.user.bid, d.msg.id))
  {
    RunKeeps(c, events);
    var s := Run(c, events).value;
    PresentIff(c, s, s.deliveries[i].user.bid, s.deliveries[i].msg.id);
  }

  lemma PresentIff(c: Config, s: State, bid: Uint64, id: string)
    requires Inv(c, s)
    ensures Present(s.store.entries, s.store.now, CacheKey(bid, id)) <==> exists m :: CachedAt(c, s, m, bid, id)
  {
    var t, key := s.store, CacheKey(bid, id);
    assert t.log[..|t.log|] == t.log;
    if Present(t.entries, t.now, key) {
      var m :| Standing(t.log, m, key) && Current(c.expiration, t.log[m].at, t.now);
      StandingIsNotUncached(c, s, m, |t.log|, bid, id);
      assert CachedAt(c, s, m, bid, id);
    }
    if m :| CachedAt(c, s, m, bid, id) {
      StandingIsNotUncached(c, s, m, |t.log|, bid, id);
    }
  }

  // While a message of one device is cached, the same message id from any other device or
  // user of the business is dropped: its handler never sees it. For acknowledgements this
  // means that the second device's retransmission goes on.
  lemma SecondDeviceIsDropped(c: Config, events: seq<Event>, i: nat, n: int, j: nat)
    requires Run(c, events).Some?
    requires var s := Run(c, events).value;
             && At(s, i) && Passed(s.deliveries[i]) && WroteIt(s, i, n)
             && Current(c.expiration, s.store.log[n].at, s.store.now)
             && !UncachedBetween(s, n, |s.store.log|, s.deliveries[i].user.bid, s.deliveries[i].msg.id)
             && At(s, j) && s.deliveries[j].at.Caching? && !s.deliveries[j].msg.cmd.Heartbeat?
             && s.deliveries[i].user.bid == s.deliveries[j].user.bid && s.deliveries[i].msg.id == s.deliveries[j].msg.id
    ensures var s := Run(c, events).value;
            && Next(c, s, Caches(j, Replied)).Some?
            && Next(c, s, Caches(j, Replied)).value.deliveries[j].at == Returned(Duplicated)
            && Next(c, s, Caches(j, Replied)).value.store == s.store
  {
    DuplicateIff(c, events, j);
    var s := Run(c, events).value;
    assert CachedAt(c, s, n, s.deliveries[j].user.bid, s.deliveries[j].msg.id);
  }

  // A delivery that arrives, is decoded and comes to the store, which answers.
  function Delivered(user: User, payload: string, i: nat): seq<Event>
  {
    [Arrives(user, payload)] + [Decodes(i)] + [Caches(i, Replied)]
  }

  // Two devices acknowledge one message, and the second acknowledgement is dropped.
  lemma SecondAckIsDropped(c: Config, payload: string, id: string, first: User, second: User)
    requires c.decode(payload) == Some(Message(DownstreamAck, id)) && id != "" && first.bid == second.bid
    ensures Run(c, [] + Delivered(first, payload, 0) + Delivered(second, payload, 1)).Some?
    ensures var s := Run(c, [] + Delivered(first, payload, 0) + Delivered(second, payload, 1)).value;
            && s.deliveries == [Decoded(first, Message(DownstreamAck, id), Dispatching),
                                Decoded(second, Message(DownstreamAck, id), Returned(Duplicated))]
  {
    var msg := Message(DownstreamAck, id);
    var d := Decoded(first, msg, Dispatching);
    RunThree(c, [], Arrives(first, payload), Decodes(0), Caches(0, Replied));
    var s := Run(c, [] + Delivered(first, payload, 0)).value;
    assert s.deliveries == [d] && Present(s.store.entries, s.store.now, CacheKey(second.bid, id));
    RunThree(c, [] + Delivered(first, payload, 0), Arrives(second, payload), Decodes(1), Caches(1, Replied));
  }

  // Two different deliveries of one (BID, message id) both pass the gate only an
  // expiration apart, unless that message was uncached in between.
  lemma AtMostOnce(c: Config, events: seq<Event>, i: nat, j: nat) returns (m: int, n: int)
    requires Run(c, events).Some?
    requires var s := Run(c, events).value;
             && i != j && At(s, i) && At(s, j) && Passed(s.deliveries[i]) && Passed(s.deliveries[j])
             && !s.deliveries[i].msg.cmd.Heartbeat? && !s.deliveries[j].msg.cmd.Heartbeat?
             && s.deliveries[i].user.bid == s.deliveries[j].user.bid && s.deliveries[i].msg.id == s.deliveries[j].msg.id
    ensures var s, d := Run(c, events).value, Run(c, events).value.deliveries[i];
            && ((WroteIt(s, i, m) && WroteIt(s, j, n)) || (WroteIt(s, j, m) && WroteIt(s, i, n)))
            && m < n
            && (UncachedBetween(s, m, n, d.user.bid, d.msg.id)
                || (c.expiration > 0 && s.store.log[m].at + c.expiration <= s.store.log[n].at))
  {
    RunKeeps(c, events);
    var s := Run(c, events).value;
    var x :| WroteIt(s, i, x);
    var y :| WroteIt(s, j, y);
    m, n := if x < y then x else y, if x < y then y else x;
    TwoWrites(c, s, m, n, s.deliveries[i].user.bid, s.deliveries[i].msg.id);
  }

  lemma TwoWrites(c: Config, s: State, m: int, n: int, bid: Uint64, id: string)
    requires Inv(c, s) && m < n && About(s, m, bid, id) && About(s, n, bid, id)
    requires s.store.log[m].Wrote? && s.store.log[n].Wrote?
    ensures UncachedBetween(s, m, n, bid, id)
         || (c.expiration > 0 && s.store.log[m].at + c.expiration <= s.store.log[n].at)
  {
    AboutIsKey(c, s, n, bid, id);
    StandingIsNotUncached(c, s, m, n, bid, id);
  }

  // Only a handler that failed with one of two errors uncaches. In particular a message
  // of an unknown type stays cached, and its retries are dropped.
  lemma OnlyFailedHandlersUncache(c: Config, events: seq<Event>, k: nat)
    requires Run(c, events).Some? && k < |Run(c, events).value.store.log|
    requires Run(c, events).value.store.log[k].Deleted?
    ensures var s := Run(c, events).value; var d := s.deliveries; var i := s.store.log[k].author;
            && At(s, i) && d[i].at.Returned? && d[i].at.result.HandlerFailed?
            && (UnknownMessageType in d[i].at.result.err || MaxRetryExceeded in d[i].at.result.err)
            && d[i].msg.cmd in c.handlers
  {
    RunKeeps(c, events);
    var s := Run(c, events).value;
    assert Made(s, s.store.log[k]);
    HandledIsKnown(c, events, s.store.log[k].author);
  }

  // A message reaches a handler only through the table.
  lemma {:induction false} HandledIsKnown(c: Config, events: seq<Event>, i: nat)
    requires Run(c, events).Some? && At(Run(c, events).value, i)
    ensures var d := Run(c, events).value.deliveries[i];
            d.at.Handling? || d.at.Uncaching?
            || (d.at.Returned? && (d.at.result.Success? || d.at.result.HandlerFailed?))
            ==> d.msg.cmd in c.handlers
  {
    if events != [] {
      var before := events[..|events| - 1];
      if At(Run(c, before).value, i) {
        HandledIsKnown(c, before, i);
      }
    }
  }

  // A heartbeat passes even without a message id, leaves the store alone, and is never
  // a duplicate.
  lemma HeartbeatsSkipTheStore(c: Config, events: seq<Event>, i: nat, e: Event)
    requires Run(c, events).Some? && At(Run(c, events).value, i)
    requires Run(c, events).value.deliveries[i].msg.cmd.Heartbeat?
    ensures Run(c, events).value.deliveries[i].at.Caching? || Passed(Run(c, events).value.deliveries[i])
    ensures (e.Caches? || e.Uncaches?) && e.i == i && Next(c, Run(c, events).value, e).Some? ==>
              Next(c, Run(c, events).value, e).value.store == Run(c, events).value.store
    ensures forall k :: 0 <= k < |Run(c, events).value.store.log| ==> Run(c, events).value.store.log[k].author != i
  {
    RunKeeps(c, events);
    var s := Run(c, events).value;
    forall k | 0 <= k < |s.store.log|
      ensures s.store.log[k].author != i
    {
      assert Made(s, s.store.log[k]);
    }
  }

  // The state after a while in which nothing else happens.
  function Later(s: State, time: nat): State
  {
    s.(store := s.store.(now := s.store.now + time))
  }

  // Two deliveries of one message stand before the store.
  ghost predicate Retries(s: State, i: nat, j: nat)
  {
    && i != j && At(s, i) && At(s, j) && s.deliveries[i].at.Caching? && s.deliveries[j].at.Caching?
    && !s.deliveries[i].msg.cmd.Heartbeat? && !s.deliveries[j].msg.cmd.Heartbeat?
    && s.deliveries[i].user.bid == s.deliveries[j].user.bid && s.deliveries[i].msg.id == s.deliveries[j].msg.id
  }

  // The sender of i is told that caching failed, and retries after a while.
  function FailThenRetry(i: nat, fate: Fate, time: nat, j: nat): seq<Event>
  {
    [Caches(i, fate)] + [Passes(time)] + [Caches(j, Replied)]
  }

  // After a failure of the store, the retry is dropped as a duplicate exactly when the
  // message had been cached before and still is, or the lost command took effect and its
  // expiration is not over.
  lemma RetryAfterFailureIff(c: Config, events: seq<Event>, i: nat, j: nat, fate: Fate, time: nat)
    requires Run(c, events).Some? && Retries(Run(c, events).value, i, j) && !fate.Replied?
    ensures Run(c, events + FailThenRetry(i, fate, time, j)).Some?
    ensures var s, d := Run(c, events).value, Run(c, events).value.deliveries[i];
            var s' := Run(c, events + FailThenRetry(i, fate, time, j)).value;
            && i < |s'.deliveries| && s'.deliveries[i] == d.(at := Returned(CacheFailed))
            && j < |s'.deliveries| && s'.deliveries[j].Decoded?
            && (s'.deliveries[j].at == Returned(Duplicated)
                <==> || (exists m :: CachedAt(c, Later(s, time), m, d.user.bid, d.msg.id))
                     || (fate.LostAfter? && !(exists m :: CachedAt(c, s, m, d.user.bid, d.msg.id))
                         && Current(c.expiration, s.store.now, s.store.now + time)))
  {
    hide Inv, CachedAt, Next, Run, Present;
    RunKeeps(c, events);
    var s := Run(c, events).value;
    var d := s.deliveries[i];
    RetryInTheStore(c, s, i, j, fate, time);
    RunThree(c, events, Caches(i, fate), Passes(time), Caches(j, Replied));
    LaterKeeps(c, s, time);
    PresentIff(c, s, d.user.bid, d.msg.id);
    PresentIff(c, Later(s, time), d.user.bid, d.msg.id);
  }

  // The same in terms of the entries of the store.
  lemma RetryInTheStore(c: Config, s: State, i: nat, j: nat, fate: Fate, time: nat)
    requires Retries(s, i, j) && !fate.Replied?
    ensures var s1 := Next(c, s, Caches(i, fate));
            && s1.Some? && Next(c, s1.value, Passes(time)).Some?
            && var s3 := Next(c, Next(c, s1.value, Passes(time)).value, Caches(j, Replied));
            && s3.Some? && i < |s3.value.deliveries| && j < |s3.value.deliveries| && s3.value.deliveries[j].Decoded?
            && s3.value.deliveries[i] == s.deliveries[i].(at := Returned(CacheFailed))
            && var t, key := s.store, CacheKey(s.deliveries[i].user.bid, s.deliveries[i].msg.id);
            (s3.value.deliveries[j].at == Returned(Duplicated)
             <==> || Present(t.entries, t.now + time, key)
                  || (fate.LostAfter? && !Present(t.entries, t.now, key)
                      && Current(c.expiration, t.now, t.now + time)))
  {
    var key := Key(s.deliveries[i]);
    assert key == Key(s.deliveries[j]);
    var s1 := Next(c, s, Caches(i, fate)).value;
    assert s1.deliveries[j] == s.deliveries[j];
    var s2 := Next(c, s1, Passes(time)).value;
    assert s2.deliveries == s1.deliveries;
    var s3 := Next(c, s2, Caches(j, Replied)).value;
    assert s3.deliveries[j].at == Returned(Duplicated) <==> Present(s2.store.entries, s2.store.now, key);
    assert s3.deliveries[i] == s1.deliveries[i];
  }

  lemma RunMore(c: Config, events: seq<Event>, e: Event)
    requires Run(c, events).Some?
    ensures Run(c, events + [e]) == Next(c, Run(c, events).value, e)
  {
    assert (events + [e])[..|events|] == events;
  }

  lemma RunThree(c: Config, events: seq<Event>, x: Event, y: Event, z: Event)
    requires Run(c, events).Some? && Next(c, Run(c, events).value, x).Some?
    requires Next(c, Next(c, Run(c, events).value, x).value, y).Some?
    ensures Run(c, events + ([x] + [y] + [z])) == Next(c, Next(c, Next(c, Run(c, events).value, x).value, y).value, z)
  {
    hide Next;
    RunMore(c, events, x);
    RunMore(c, events + [x], y);
    RunMore(c, events + [x] + [y], z);
    assert events + ([x] + [y] + [z]) == events + [x] + [y] + [z];
  }

  lemma LaterKeeps(c: Config, s: State, time: nat)
    requires Inv(c, s)
    ensures Inv(c, Later(s, time))
  {
    StoreStep(c, s, Passes(time));
    MadeStep(c, s, Passes(time));
    WroteStep(c, s, Passes(time));
    StageStep(c, s, Passes(time));
  }

  // A lost reply loses the message: as long as the key it left behind stands, no delivery
  // of the message passes that had not passed before, whatever else happens. A message
  // nobody had handled is then handled by nobody.
  lemma LostReplyLosesTheMessage(c: Config, events: seq<Event>, i: nat, more: seq<Event>, k: nat)
    requires Run(c, events).Some? && At(Run(c, events).value, i)
    requires Run(c, events + [Caches(i, LostAfter)] + more).Some?
    requires var s, d := Run(c, events).value, Run(c, events).value.deliveries[i];
             && d.at.Caching? && !d.msg.cmd.Heartbeat?
             && (forall m :: !CachedAt(c, s, m, d.user.bid, d.msg.id))
    requires var s, d := Run(c, events).value, Run(c, events).value.deliveries[i];
             var s' := Run(c, events + [Caches(i, LostAfter)] + more).value;
             && Current(c.expiration, s.store.now, s'.store.now)
             && !UncachedBetween(s', |s.store.log|, |s'.store.log|, d.user.bid, d.msg.id)
             && At(s', k) && s'.deliveries[k].user.bid == d.user.bid && s'.deliveries[k].msg.id == d.msg.id
             && !s'.deliveries[k].msg.cmd.Heartbeat? && Passed(s'.deliveries[k])
    ensures At(Run(c, events).value, k) && Passed(Run(c, events).value.deliveries[k])
  {
    var s, first := Run(c, events).value, events + [Caches(i, LostAfter)];
    var d, n := s.deliveries[i], |s.store.log|;
    RunKeeps(c, events);
    PresentIff(c, s, d.user.bid, d.msg.id);
    assert first[..|events|] == events;
    var s1 := Run(c, first).value;
    RunKeeps(c, first);
    assert s1.store.log == s.store.log + [Wrote(Key(d), s.store.now, i, false)];
    LogOnlyGrows(c, first, more);
    var s' := Run(c, first + more).value;
    RunKeeps(c, first + more);
    var x :| WroteIt(s', k, x);
    AboutIsKey(c, s', n, d.user.bid, d.msg.id);
    AboutIsKey(c, s', x, d.user.bid, d.msg.id);
    assert Made(s', s'.store.log[n]) && Made(s', s'.store.log[x]);
    if x > n {
      TwoWrites(c, s', n, x, d.user.bid, d.msg.id);
      assert false;
    }
    assert s'.store.log[x] == s.store.log[x] && Made(s, s.store.log[x]);
  }

  // Marks are never taken back.
  lemma {:induction false} LogOnlyGrows(c: Config, events: seq<Event>, more: seq<Event>)
    requires Run(c, events + more).Some?
    ensures Run(c, events).Some? && Run(c, events).value.store.log <= Run(c, events + more).value.store.log
  {
    if more == [] {
      assert events + more == events;
    } else {
      var most := more[..|more| - 1];
      assert (events + more)[..|events + more| - 1] == events + most;
      LogOnlyGrows(c, events, most);
      RunKeeps(c, events + most);
      LogStep(c, Run(c, events + most).value, more[|more| - 1]);
    }
  }
}
