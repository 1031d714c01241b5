// The lifecycle handler as an object (internal/ws/conn/lifecycle/handler.go), one call at
// a time. Its ghost model is a state of the machine of Dedup that some run reaches, so
// everything proved there about runs holds of the object.

module DedupHandler {
  import opened Common
  import opened Keys
  import opened Dedup
  import opened DedupOutcomes

  // The Redis client: two commands with a timeout, and the clock of the server.
  class Redis {
    var now: nat
    var entries: map<string, Option<nat>>

    constructor ()
      ensures now == 0 && entries == map[]
    {
      now, entries := 0, map[];
    }

    // None stands for an error.
    method SetNX(key: string, expiration: nat, fate: Fate) returns (ok: Option<bool>)
      modifies this`entries
      ensures ok == if fate.Replied? then Some(!Present(old(entries), now, key)) else None
      ensures entries == if fate.LostBefore? || Present(old(entries), now, key) then old(entries)
                         else old(entries)[key := Expiry(expiration, now)]
    {
      ok := if fate.Replied? then Some(!Present(entries, now, key)) else None;
      if !fate.LostBefore? && !Present(entries, now, key) {
        entries := entries[key := Expiry(expiration, now)];
      }
    }

    method Del(key: string, fate: Fate) returns (ok: bool)
      modifies this`entries
      ensures ok == fate.Replied?
      ensures entries == if fate.LostBefore? then old(entries) else old(entries) - {key}
    {
      ok := fate.Replied?;
      if !fate.LostBefore? {
        entries := entries - {key};
      }
    }
  }

  class Handler {
    const cfg: Config
    const rdb: Redis
    ghost var model: State

    ghost predicate Valid()
      reads this, rdb
    {
      && Reached(cfg, model)
      && model.store.now == rdb.now && model.store.entries == rdb.entries
    }

    // NewHandler; of two message handlers for one command the later one wins.
    constructor (rdb: Redis, decode: string -> Option<Message>, expiration: nat, cmdTypes: seq<Command>)
      requires rdb.now == 0 && rdb.entries == map[]
      ensures Valid() && this.rdb == rdb && model == New()
      ensures cfg.decode == decode && cfg.expiration == expiration
      ensures LastWins(cmdTypes, cfg.handlers)
    {
      var table: map<Command, nat> := map[];
      for i := 0 to |cmdTypes|
        invariant LastWins(cmdTypes[..i], table)
      {
        table := table[cmdTypes[i] := i];
      }
      assert cmdTypes[..|cmdTypes|] == cmdTypes;
      this.rdb := rdb;
      this.cfg := Config(decode, expiration, table);
      this.model := New();
      new;
      assert Run(cfg, []) == Some(New());
    }

    // The environment: time goes by.
    method Wait(time: nat)
      requires Valid()
      modifies this`model, rdb`now
      ensures Valid() && rdb.now == old(rdb.now) + time
      ensures model == old(model).(store := old(model.store).(now := rdb.now))
    {
      rdb.now := rdb.now + time;
      Follow(Passes(time));
    }

    ghost method Follow(e: Event)
      requires Reached(cfg, model) && Next(cfg, model, e).Some?
      modifies this`model
      ensures Reached(cfg, model) && Next(cfg, old(model), e) == Some(model)
    {
      ReachedStep(cfg, model, e);
      model := Next(cfg, model, e).value;
    }

    method CacheMessage(user: User, msg: Message, fate: Fate) returns (ok: Option<bool>)
      requires Valid() && Last() == Decoded(user, msg, Caching)
      modifies this`model, rdb`entries
      ensures Valid() && Follows(Caches(|old(model.deliveries)| - 1, fate), old(model))
      ensures ok == if msg.cmd.Heartbeat? then Some(true)
                    else if !fate.Replied? then None
                    else Some(!Present(old(rdb.entries), rdb.now, CacheKey(user.bid, msg.id)))
      ensures OnlyLast(old(model), model)
      ensures Last() == Decoded(user, msg, if ok.None? then Returned(CacheFailed)
                                           else if ok.value then Dispatching else Returned(Duplicated))
      ensures var key := CacheKey(user.bid, msg.id);
              rdb.entries == if msg.cmd.Heartbeat? || fate.LostBefore? || Present(old(rdb.entries), rdb.now, key) then
                               old(rdb.entries)
                             else old(rdb.entries)[key := Expiry(cfg.expiration, rdb.now)]
    {
      ghost var e := Caches(|model.deliveries| - 1, fate);
      if msg.cmd.Heartbeat? {
        ok := Some(true);
      } else {
        ok := rdb.SetNX(CacheKey(user.bid, msg.id), cfg.expiration, fate);
      }
      Follow(e);
    }

    method UncacheMessage(user: User, msg: Message, fate: Fate, ghost err: seq<Sentinel>) returns (ok: bool)
      requires Valid() && Last() == Decoded(user, msg, Uncaching(err))
      modifies this`model, rdb`entries
      ensures Valid() && Follows(Uncaches(|old(model.deliveries)| - 1, fate), old(model))
      ensures ok == (msg.cmd.Heartbeat? || fate.Replied?)
      ensures rdb.entries == if msg.cmd.Heartbeat? || fate.LostBefore? then old(rdb.entries)
                             else old(rdb.entries) - {CacheKey(user.bid, msg.id)}
    {
      ghost var e := Uncaches(|model.deliveries| - 1, fate);
      if msg.cmd.Heartbeat? {
        ok := true;
      } else {
        ok := rdb.Del(CacheKey(user.bid, msg.id), fate);
      }
      Follow(e);
    }

    ghost function Last(): Delivery
      reads this
    {
      if model.deliveries == [] then Arrived(User(0, 0, ""), "") else model.deliveries[|model.deliveries| - 1]
    }

    ghost predicate Follows(e: Event, before: State)
      reads this
    {
      Next(cfg, before, e) == Some(model)
    }

    // fate and uncacheFate decide what happens to the two store commands, err is what the
    // message handler returns.
    method OnReceiveFromFrontend(user: User, payload: string, fate: Fate, err: Option<seq<Sentinel>>,
                                 uncacheFate: Fate)
      returns (result: Result)
      requires Valid()
      modifies this`model, rdb`entries
      ensures Valid()
      // it is one more delivery of the machine, and nothing else moves
      ensures |model.deliveries| == |old(model.deliveries)| + 1
      ensures old(model.deliveries) <= model.deliveries && old(model.store.log) <= model.store.log
      ensures Last() == Final(user, payload, result)
      // the gate
      ensures result.InvalidMessage? <==> Malformed(cfg, payload)
      ensures IsHeartbeat(payload) || result.InvalidMessage? || result.Duplicated? ==> rdb.entries == old(rdb.entries)
      ensures result.CacheFailed? <==> IsOther(payload) && !fate.Replied?
      ensures result.Duplicated? ==> IsOther(payload) && fate.Replied?
      ensures result.InvalidMessage? || result.CacheFailed? || result.Duplicated? || result == Outcome(payload, err)
      ensures IsOther(payload) && fate.Replied? ==>
                (result.Duplicated? <==>
                   exists m :: CachedAt(cfg, old(model), m, user.bid, DecodePayload(cfg, payload).value.id))
      // the store afterwards
      ensures Malformed(cfg, payload) || cfg.decode(payload).value.cmd.Heartbeat? ==> rdb.entries == old(rdb.entries)
      ensures !Malformed(cfg, payload) && !cfg.decode(payload).value.cmd.Heartbeat? ==>
                rdb.entries == EntriesAfter(old(rdb.entries), rdb.now, user.bid, cfg.decode(payload).value, fate, err,
                                            uncacheFate)
    {
      hide Reached, CacheKey, Present, Next, CachedAt, CallsForUncaching, Expiry;
      ghost var before := model;
      var decoded := Accept(user, payload);
      if decoded.None? {
        return InvalidMessage;
      }
      var msg := decoded.value;
      GateAgrees(cfg, before, model, user.bid, msg.id);
      var ok := CacheMessage(user, msg, fate);
      if ok.None? {
        return CacheFailed;
      }
      if !ok.value {
        return Duplicated;
      }
      result := Dispatch(user, msg, err, uncacheFate);
    }

    // The call arrives and its payload is decoded.
    method Accept(user: User, payload: string) returns (msg: Option<Message>)
      requires Valid()
      modifies this`model
      ensures Valid() && model.store == old(model.store) && msg == DecodePayload(cfg, payload)
      ensures msg == if Malformed(cfg, payload) then None else cfg.decode(payload)
      ensures model.deliveries == old(model.deliveries) + [if msg.None? then Rejected(user, payload)
                                                           else Decoded(user, msg.value, Caching)]
    {
      ghost var i := |model.deliveries|;
      Follow(Arrives(user, payload));
      msg := DecodePayload(cfg, payload);
      Follow(Decodes(i));
    }

    // The second half: the message handler, and what its failure calls for.
    method Dispatch(user: User, msg: Message, err: Option<seq<Sentinel>>, uncacheFate: Fate)
      returns (result: Result)
      requires Valid() && model.deliveries != [] && Last() == Decoded(user, msg, Dispatching)
      modifies this`model, rdb`entries
      ensures Valid() && OnlyLast(old(model), model) && Last() == Decoded(user, msg, Returned(result))
      ensures result == OutcomeOf(msg, err)
      ensures rdb.entries == if && !msg.cmd.Heartbeat? && msg.cmd in cfg.handlers && err.Some?
                                && CallsForUncaching(err.value) && !uncacheFate.LostBefore? then
                               old(rdb.entries) - {CacheKey(user.bid, msg.id)}
                             else old(rdb.entries)
    {
      hide Reached, CacheKey, Dedup.CacheMessage, DecodePayload;
      ghost var i := |model.deliveries| - 1;
      Follow(Dispatches(i));
      if msg.cmd !in cfg.handlers {
        return UnknownType;
      }
      Follow(Handles(i, err));
      if err.None? {
        return Success;
      }
      if NeedUncache(err.value) {
        var _ := UncacheMessage(user, msg, uncacheFate, err.value);
      }
      return HandlerFailed(err.value);
    }

    // The entries after one call with a message that is no heartbeat: its key is set if it
    // was absent, and deleted again only after one of the two errors of its handler.
    ghost function EntriesAfter(entries: map<string, Option<nat>>, now: nat, bid: Uint64, msg: Message, fate: Fate,
                                err: Option<seq<Sentinel>>, uncacheFate: Fate): map<string, Option<nat>>
    {
      var key := CacheKey(bid, msg.id);
      if fate.LostBefore? || Present(entries, now, key) then entries
      else if fate.Replied? && msg.cmd in cfg.handlers && err.Some? && CallsForUncaching(err.value)
              && !uncacheFate.LostBefore? then entries - {key}
      else entries[key := Expiry(cfg.expiration, now)]
    }

    // What the sender learns about a message that has passed the gate.
    ghost function OutcomeOf(msg: Message, err: Option<seq<Sentinel>>): Result
    {
      if msg.cmd !in cfg.handlers then UnknownType else if err.None? then Success else HandlerFailed(err.value)
    }

    ghost function Outcome(payload: string, err: Option<seq<Sentinel>>): Result
    {
      match DecodePayload(cfg, payload)
      case None => InvalidMessage
      case Some(m) => OutcomeOf(m, err)
    }

    ghost predicate IsHeartbeat(payload: string)
    {
      DecodePayload(cfg, payload).Some? && DecodePayload(cfg, payload).value.cmd.Heartbeat?
    }

    ghost predicate IsOther(payload: string)
    {
      DecodePayload(cfg, payload).Some? && !DecodePayload(cfg, payload).value.cmd.Heartbeat?
    }

    ghost function Final(user: User, payload: string, result: Result): Delivery
    {
      match DecodePayload(cfg, payload)
      case None => Rejected(user, payload)
      case Some(m) => Decoded(user, m, Returned(result))
    }
  }

  // The table maps a command to the last entry of the list that asks for it.
  ghost predicate LastWins(cmdTypes: seq<Command>, table: map<Command, nat>)
  {
    && (forall cmd :: cmd in table <==> cmd in cmdTypes)
    && (forall cmd :: cmd in table ==>
          && table[cmd] < |cmdTypes| && cmdTypes[table[cmd]] == cmd
          && forall k :: table[cmd] < k < |cmdTypes| ==> cmdTypes[k] != cmd)
  }

  // Only the last delivery has moved, and the history has only grown.
  ghost predicate OnlyLast(s: State, t: State)
  {
    && |s.deliveries| == |t.deliveries| > 0 && s.store.log <= t.store.log
    && s.deliveries[..|s.deliveries| - 1] == t.deliveries[..|s.deliveries| - 1]
  }

  // What the store holds is what the marks say, also after a delivery has arrived.
  lemma GateAgrees(c: Config, before: State, now: State, bid: Uint64, id: string)
    requires Reached(c, before) && before.store == now.store
    ensures Present(now.store.entries, now.store.now, CacheKey(bid, id))
       <==> exists m :: CachedAt(c, before, m, bid, id)
  {
    var events :| Run(c, events) == Some(before);
    RunKeeps(c, events);
    PresentIff(c, before, bid, id);
  }
}
