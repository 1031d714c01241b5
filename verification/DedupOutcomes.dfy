// What the events of one delivery of a frontend message make of it, and what becomes of
// the message's entry in the store.

module DedupOutcomes {
  import opened Common
  import opened Keys
  import opened Dedup

  // ---------- the story of one delivery ----------

  predicate Concerns(e: Event, i: nat)
  {
    (e.Decodes? || e.Caches? || e.Dispatches? || e.Handles? || e.Uncaches?) && e.i == i
  }

  ghost predicate Untouched(events: seq<Event>, i: nat)
  {
    forall e :: e in events ==> !Concerns(e, i)
  }

  // The frontend has sent a payload that the codec decodes to this message, and the
  // message has an id, or is a heartbeat.
  ghost predicate Came(c: Config, events: seq<Event>, user: User, msg: Message)
  {
    && (exists payload :: Arrives(user, payload) in events && c.decode(payload) == Some(msg))
    && (msg.cmd.Heartbeat? || msg.id != "")
  }

  predicate Malformed(c: Config, payload: string)
  {
    || c.decode(payload).None?
    || (!c.decode(payload).value.cmd.Heartbeat? && c.decode(payload).value.id == "")
  }

  // The two errors that call for uncaching.
  predicate CallsForUncaching(err: seq<Sentinel>)
  {
    UnknownMessageType in err || MaxRetryExceeded in err
  }

  // Which answers of the store have come.
  ghost predicate StoreFailed(events: seq<Event>, i: nat)
  {
    Caches(i, LostBefore) in events || Caches(i, LostAfter) in events
  }

  ghost predicate GateStory(events: seq<Event>, i: nat, msg: Message, at: Stage)
  {
    && (at.Caching? <==> Caches(i, Replied) !in events && !StoreFailed(events, i))
    && (at == Returned(CacheFailed) <==> !msg.cmd.Heartbeat? && StoreFailed(events, i))
    && (at == Returned(Duplicated) ==> !msg.cmd.Heartbeat? && Caches(i, Replied) in events)
    && at != Returned(InvalidMessage)
  }

  ghost predicate HandlerStory(c: Config, events: seq<Event>, i: nat, msg: Message, at: Stage)
  {
    && (Dispatches(i) in events
        <==> at.Handling? || at.Uncaching?
             || (at.Returned? && (at.result.Success? || at.result.UnknownType? || at.result.HandlerFailed?)))
    && (at == Returned(UnknownType) <==> Dispatches(i) in events && msg.cmd !in c.handlers)
    && (at.Handling? ==> msg.cmd in c.handlers && at.handler == c.handlers[msg.cmd])
    && (at == Returned(Success) <==> Handles(i, None) in events)
    && (forall err :: at == Uncaching(err) || at == Returned(HandlerFailed(err)) <==> Handles(i, Some(err)) in events)
  }

  ghost predicate UncacheStory(events: seq<Event>, i: nat, at: Stage)
  {
    && (at.Uncaching? ==> CallsForUncaching(at.err))
    && ((exists fate :: Uncaches(i, fate) in events)
        <==> at.Returned? && at.result.HandlerFailed? && CallsForUncaching(at.result.err))
  }

  ghost predicate Story(c: Config, d: Delivery, events: seq<Event>, i: nat)
  {
    match d
    case Arrived(user, payload) => Untouched(events, i) && Arrives(user, payload) in events
    case Rejected(user, payload) =>
      && Arrives(user, payload) in events && Malformed(c, payload)
      && forall e :: e in events && Concerns(e, i) ==> e == Decodes(i)
    case Decoded(user, msg, at) =>
      && Came(c, events, user, msg)
      && GateStory(events, i, msg, at) && HandlerStory(c, events, i, msg, at) && UncacheStory(events, i, at)
  }

  ghost predicate SameAbout(events: seq<Event>, events': seq<Event>, i: nat)
  {
    && (forall e :: Concerns(e, i) ==> (e in events <==> e in events'))
    && (forall e :: e in events ==> e in events')
  }

  lemma OtherEvents(c: Config, d: Delivery, events: seq<Event>, e: Event, i: nat)
    requires Story(c, d, events, i) && !Concerns(e, i)
    ensures Story(c, d, events + [e], i)
  {
    var events' := events + [e];
    assert SameAbout(events, events', i);
    if d.Decoded? {
      var payload :| Arrives(d.user, payload) in events && c.decode(payload) == Some(d.msg);
      assert Arrives(d.user, payload) in events';
      forall fate
        ensures Uncaches(i, fate) in events <==> Uncaches(i, fate) in events'
      {
        assert Concerns(Uncaches(i, fate), i);
      }
      forall err
        ensures Handles(i, err) in events <==> Handles(i, err) in events'
      {
        assert Concerns(Handles(i, err), i);
      }
    }
  }

  lemma DecodeStory(c: Config, s: State, events: seq<Event>, i: nat)
    requires i < |s.deliveries| && Story(c, s.deliveries[i], events, i) && Next(c, s, Decodes(i)).Some?
    ensures Story(c, Next(c, s, Decodes(i)).value.deliveries[i], events + [Decodes(i)], i)
  {
    var d, events' := s.deliveries[i], events + [Decodes(i)];
    forall e | e in events' && Concerns(e, i)
      ensures e == Decodes(i)
    {
    }
    assert Arrives(d.user, d.payload) in events';
  }

  lemma CacheStory(c: Config, s: State, events: seq<Event>, i: nat, fate: Fate)
    requires i < |s.deliveries| && Story(c, s.deliveries[i], events, i) && Next(c, s, Caches(i, fate)).Some?
    ensures Story(c, Next(c, s, Caches(i, fate)).value.deliveries[i], events + [Caches(i, fate)], i)
  {
    var d, events' := s.deliveries[i], events + [Caches(i, fate)];
    var payload :| Arrives(d.user, payload) in events && c.decode(payload) == Some(d.msg);
    assert Arrives(d.user, payload) in events';
  }

  lemma HandleStory(c: Config, s: State, events: seq<Event>, i: nat, e: Event)
    requires i < |s.deliveries| && Story(c, s.deliveries[i], events, i) && Next(c, s, e).Some?
    requires (e.Dispatches? || e.Handles?) && e.i == i
    ensures Story(c, Next(c, s, e).value.deliveries[i], events + [e], i)
  {
    var d, events' := s.deliveries[i], events + [e];
    var payload :| Arrives(d.user, payload) in events && c.decode(payload) == Some(d.msg);
    assert Arrives(d.user, payload) in events';
    assert forall fate :: Uncaches(i, fate) in events' ==> Uncaches(i, fate) in events;
    hide Malformed;
  }

  lemma DeleteStory(c: Config, s: State, events: seq<Event>, i: nat, fate: Fate)
    requires i < |s.deliveries| && Story(c, s.deliveries[i], events, i) && Next(c, s, Uncaches(i, fate)).Some?
    ensures Story(c, Next(c, s, Uncaches(i, fate)).value.deliveries[i], events + [Uncaches(i, fate)], i)
  {
    var d, events' := s.deliveries[i], events + [Uncaches(i, fate)];
    var payload :| Arrives(d.user, payload) in events && c.decode(payload) == Some(d.msg);
    assert Arrives(d.user, payload) in events';
    assert Uncaches(i, fate) in events';
    hide Malformed;
  }

  lemma StoryStep(c: Config, s: State, events: seq<Event>, e: Event, i: nat)
    requires i < |s.deliveries| && Story(c, s.deliveries[i], events, i) && Next(c, s, e).Some?
    ensures i < |Next(c, s, e).value.deliveries| && Story(c, Next(c, s, e).value.deliveries[i], events + [e], i)
  {
    if !Concerns(e, i) {
      OthersStay(c, s, e, i);
      OtherEvents(c, s.deliveries[i], events, e, i);
    } else {
      StillThere(c, s, e);
      hide Story, Next;
      match e
      case Decodes(_) => DecodeStory(c, s, events, i);
      case Caches(_, fate) => CacheStory(c, s, events, i, fate);
      case Dispatches(_) => HandleStory(c, s, events, i, e);
      case Handles(_, _) => HandleStory(c, s, events, i, e);
      case Uncaches(_, fate) => DeleteStory(c, s, events, i, fate);
    }
  }

  lemma StillThere(c: Config, s: State, e: Event)
    requires Next(c, s, e).Some?
    ensures |s.deliveries| <= |Next(c, s, e).value.deliveries|
  {
  }

  lemma OthersStay(c: Config, s: State, e: Event, i: nat)
    requires i < |s.deliveries| && Next(c, s, e).Some? && !Concerns(e, i)
    ensures i < |Next(c, s, e).value.deliveries| && Next(c, s, e).value.deliveries[i] == s.deliveries[i]
  {
  }

  lemma NewDelivery(c: Config, s: State, e: Event, i: nat)
    requires Next(c, s, e).Some? && |s.deliveries| <= i < |Next(c, s, e).value.deliveries|
    ensures e.Arrives? && Next(c, s, e).value.deliveries[i] == Arrived(e.user, e.payload)
  {
  }

  lemma NotYetTouched(c: Config, s: State, e: Event, i: nat)
    requires Next(c, s, e).Some? && i >= |Next(c, s, e).value.deliveries|
    ensures !Concerns(e, i) && i >= |s.deliveries|
  {
  }

  // What has become of every delivery is what its events say: which were rejected, what
  // the gate made of them, which handler was called, and whether a delete was sent.
  lemma {:induction false} EventsTellTheOutcome(c: Config, events: seq<Event>, i: nat)
    requires Run(c, events).Some?
    ensures if i < |Run(c, events).value.deliveries| then Story(c, Run(c, events).value.deliveries[i], events, i)
            else Untouched(events, i)
  {
    if events != [] {
      var before, e := events[..|events| - 1], events[|events| - 1];
      assert events == before + [e];
      EventsTellTheOutcome(c, before, i);
      var s := Run(c, before).value;
      if i < |s.deliveries| {
        StoryStep(c, s, before, e, i);
      } else if i < |Run(c, events).value.deliveries| {
        NewDelivery(c, s, e, i);
      } else {
        NotYetTouched(c, s, e, i);
      }
    }
  }

  // ---------- failed handlers and the retry of their messages ----------

  // After a handler has failed, a delete is sent exactly for the two errors; otherwise the
  // call returns at once.
  lemma FailureUncachesIff(c: Config, events: seq<Event>, i: nat, err: seq<Sentinel>, fate: Fate)
    requires Run(c, events).Some? && At(Run(c, events).value, i) && Run(c, events).value.deliveries[i].at.Handling?
    ensures Run(c, events + [Handles(i, Some(err))]).Some?
    ensures var s := Run(c, events + [Handles(i, Some(err))]).value;
            && (Next(c, s, Uncaches(i, fate)).Some? <==> CallsForUncaching(err))
            && At(s, i) && (s.deliveries[i].at == Returned(HandlerFailed(err)) <==> !CallsForUncaching(err))
  {
    RunMore(c, events, Handles(i, Some(err)));
    EventsTellTheOutcome(c, events + [Handles(i, Some(err))], i);
    hide Run;
  }

  // No mark about the message from number n on was a write.
  ghost predicate NotRewritten(s: State, n: nat, bid: Uint64, id: string)
  {
    forall k :: n <= k < |s.store.log| && About(s, k, bid, id) ==> !s.store.log[k].Wrote?
  }

  // Once the delete of a failed delivery has reached the store, and as long as nobody
  // writes the key again, the next delivery of the message passes the gate.
  lemma UncachedMessagePasses(c: Config, events: seq<Event>, i: nat, fate: Fate, more: seq<Event>, j: nat)
    requires Run(c, events).Some? && At(Run(c, events).value, i) && !fate.LostBefore?
    requires var d := Run(c, events).value.deliveries[i]; d.at.Uncaching? && !d.msg.cmd.Heartbeat?
    requires Run(c, events + [Uncaches(i, fate)] + more).Some?
    requires var d, s' := Run(c, events).value.deliveries[i], Run(c, events + [Uncaches(i, fate)] + more).value;
             && NotRewritten(s', |Run(c, events).value.store.log|, d.user.bid, d.msg.id)
             && At(s', j) && s'.deliveries[j].at.Caching? && !s'.deliveries[j].msg.cmd.Heartbeat?
             && s'.deliveries[j].user.bid == d.user.bid && s'.deliveries[j].msg.id == d.msg.id
    ensures var s' := Run(c, events + [Uncaches(i, fate)] + more).value;
            && Next(c, s', Caches(j, Replied)).Some?
            && Next(c, s', Caches(j, Replied)).value.deliveries[j].at == Dispatching
  {
    var s, first := Run(c, events).value, events + [Uncaches(i, fate)];
    var d, n := s.deliveries[i], |s.store.log|;
    DeleteIsMarked(c, events, i, fate);
    LogOnlyGrows(c, first, more);
    RunKeeps(c, first + more);
    var s' := Run(c, first + more).value;
    AboutIsKey(c, s', n, d.user.bid, d.msg.id);
    forall m
      ensures !CachedAt(c, s', m, d.user.bid, d.msg.id)
    {
    }
    PassesUnlessCached(c, s', j);
  }

  lemma DeleteIsMarked(c: Config, events: seq<Event>, i: nat, fate: Fate)
    requires Run(c, events).Some? && At(Run(c, events).value, i) && !fate.LostBefore?
    requires var d := Run(c, events).value.deliveries[i]; d.at.Uncaching? && !d.msg.cmd.Heartbeat?
    ensures Run(c, events + [Uncaches(i, fate)]).Some?
    ensures var s := Run(c, events).value;
            Run(c, events + [Uncaches(i, fate)]).value.store.log == s.store.log + [Deleted(Key(s.deliveries[i]), i)]
  {
    RunMore(c, events, Uncaches(i, fate));
  }

  lemma PassesUnlessCached(c: Config, s: State, j: nat)
    requires Inv(c, s) && At(s, j) && s.deliveries[j].at.Caching? && !s.deliveries[j].msg.cmd.Heartbeat?
    ensures Next(c, s, Caches(j, Replied)).Some?
    ensures Next(c, s, Caches(j, Replied)).value.deliveries[j].at
         == if exists m :: CachedAt(c, s, m, s.deliveries[j].user.bid, s.deliveries[j].msg.id) then Returned(Duplicated)
            else Dispatching
  {
    PresentIff(c, s, s.deliveries[j].user.bid, s.deliveries[j].msg.id);
    hide Inv, CachedAt;
  }

  // Nobody but delivery i has uncached the message since mark n.
  ghost predicate KeptByOthers(s: State, i: nat, n: nat, bid: Uint64, id: string)
  {
    forall k :: n < k < |s.store.log| && About(s, k, bid, id) && s.store.log[k].Deleted? ==> s.store.log[k].author == i
  }

  // A message whose handler is at work, has succeeded or has failed with neither of the two
  // errors stays cached: while its entry is current and no other delivery uncaches it,
  // a retry is a duplicate.
  lemma HandledMessageIsKept(c: Config, events: seq<Event>, i: nat, n: nat, j: nat)
    requires Run(c, events).Some?
    requires var s := Run(c, events).value;
             && At(s, i) && WroteIt(s, i, n) && Current(c.expiration, s.store.log[n].at, s.store.now)
             && (s.deliveries[i].at.Returned? && s.deliveries[i].at.result.HandlerFailed? ==>
                   !CallsForUncaching(s.deliveries[i].at.result.err))
             && KeptByOthers(s, i, n, s.deliveries[i].user.bid, s.deliveries[i].msg.id)
             && At(s, j) && s.deliveries[j].at.Caching? && !s.deliveries[j].msg.cmd.Heartbeat?
             && s.deliveries[i].user.bid == s.deliveries[j].user.bid && s.deliveries[i].msg.id == s.deliveries[j].msg.id
    ensures var s := Run(c, events).value;
            && Next(c, s, Caches(j, Replied)).Some?
            && Next(c, s, Caches(j, Replied)).value.deliveries[j].at == Returned(Duplicated)
            && Next(c, s, Caches(j, Replied)).value.store == s.store
  {
    var s := Run(c, events).value;
    RunKeeps(c, events);
    forall k | 0 <= k < |s.store.log| && s.store.log[k].Deleted?
      ensures s.store.log[k].author != i
    {
      OnlyFailedHandlersUncache(c, events, k);
    }
    assert Made(s, s.store.log[n]);
    SecondDeviceIsDropped(c, events, i, n, j);
  }
}
