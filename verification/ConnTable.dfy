// The connection index as a value: two levels found by a string key, two counters, and
// the connections that are open. It is proved to be a map from (BID, UID, Device) to
// connection.

module ConnTable {
  import opened Common
  import opened Keys

  // What the index uses of a connection: who it belongs to, and Close.
  class Conn {
    const id: string
    const user: User
    var open: bool

    constructor (id: string, user: User)
      ensures this.id == id && this.user == user && open
    {
      this.id := id;
      this.user := user;
      open := true;
    }

    // Close has no further effect on a closed connection.
    method Close()
      modifies this
      ensures !open
    {
      open := false;
    }
  }

  // ---------- the two-level index as a value ----------

  type Snapshot = map<string, map<string, Conn>>

  type PlainIndex = map<User, Conn>

  // The string key of a user's entry.
  type KeyFn = User -> string

  // The user without the device.
  function Owner(u: User): (Uint64, Uint64)
  {
    (u.bid, u.uid)
  }

  function Owners(index: PlainIndex): set<(Uint64, Uint64)>
  {
    set u | u in index :: Owner(u)
  }

  // Keys tell users apart, whatever their devices.
  ghost predicate Discriminates(key: KeyFn)
  {
    forall u, v :: key(u) == key(v) <==> Owner(u) == Owner(v)
  }

  lemma ConnKeyDiscriminates()
    ensures Discriminates(ConnKey)
  {
    forall u, v
      ensures ConnKey(u) == ConnKey(v) <==> Owner(u) == Owner(v)
    {
      ConnKeyDeterminesUser(u, v);
    }
  }

  predicate HasEntry(snap: Snapshot, k: string, device: string)
  {
    k in snap && device in snap[k]
  }

  predicate Holds(snap: Snapshot, k: string, device: string, c: Conn)
  {
    HasEntry(snap, k, device) && snap[k][device] == c
  }

  // The two-level index holds what the plain map holds, each connection under the
  // key and the device of its user.
  ghost predicate Refines(key: KeyFn, snap: Snapshot, index: PlainIndex)
  {
    && (forall u :: u in index ==> index[u].user == u && Holds(snap, key(u), u.device, index[u]))
    && (forall k, d :: HasEntry(snap, k, d) ==>
          var c := snap[k][d];
          key(c.user) == k && c.user.device == d && c.user in index && index[c.user] == c)
  }

  ghost predicate NoneEmpty(snap: Snapshot)
  {
    forall k :: k in snap ==> snap[k] != map[]
  }

  function Stored(snap: Snapshot, k: string, device: string, c: Conn): Snapshot
  {
    var devices: map<string, Conn> := if k in snap then snap[k] else map[];
    snap[k := devices[device := c]]
  }

  // An entry that loses its last device goes away.
  function Removed(snap: Snapshot, k: string, device: string): Snapshot
    requires k in snap
  {
    var rest := snap[k] - {device};
    if device in snap[k] && rest == map[] then snap - {k} else snap[k := rest]
  }

  // RemoveUserConn leaves the empty entry behind.
  function Cleared(snap: Snapshot, k: string): Snapshot
  {
    snap[k := map[]]
  }

  function WithoutOwner(index: PlainIndex, user: User): PlainIndex
  {
    map u | u in index && Owner(u) != Owner(user) :: index[u]
  }

  // Looking a user up in two levels is looking it up in the plain map.
  lemma LookupRefines(key: KeyFn, snap: Snapshot, index: PlainIndex, user: User)
    requires key == ConnKey && Refines(key, snap, index)
    ensures user in index <==> key(user) in snap && user.device in snap[key(user)]
    ensures user in index ==> snap[key(user)][user.device] == index[user]
  {
    if user in index {
      assert Holds(snap, key(user), user.device, index[user]);
    }
    if key(user) in snap && user.device in snap[key(user)] {
      var c := snap[key(user)][user.device];
      assert Holds(snap, key(user), user.device, c);
      ConnKeyDeterminesUser(c.user, user);
    }
  }

  lemma StoreRefines(key: KeyFn, snap: Snapshot, index: PlainIndex, user: User, c: Conn)
    requires key == ConnKey && Refines(key, snap, index) && c.user == user
    ensures Refines(key, Stored(snap, key(user), user.device, c), index[user := c])
    ensures NoneEmpty(snap) ==> NoneEmpty(Stored(snap, key(user), user.device, c))
  {
    ConnKeyDiscriminates();
    StoreKeeps(key, snap, index, user, c);
    StoreFills(key, snap, user, c);
  }

  lemma StoreFills(key: KeyFn, snap: Snapshot, user: User, c: Conn)
    ensures NoneEmpty(snap) ==> NoneEmpty(Stored(snap, key(user), user.device, c))
  {
    var snap' := Stored(snap, key(user), user.device, c);
    assert snap'[key(user)][user.device] == c;
  }

  lemma StoreKeeps(key: KeyFn, snap: Snapshot, index: PlainIndex, user: User, c: Conn)
    requires Discriminates(key) && Refines(key, snap, index) && c.user == user
    ensures Refines(key, Stored(snap, key(user), user.device, c), index[user := c])
  {
    var snap' := Stored(snap, key(user), user.device, c);
    forall u | u in index && u != user
      ensures Holds(snap', key(u), u.device, index[u])
    {
      assert Holds(snap, key(u), u.device, index[u]);
    }
    forall k, d | HasEntry(snap', k, d)
      ensures var e := snap'[k][d];
              key(e.user) == k && e.user.device == d && e.user in index[user := c] && index[user := c][e.user] == e
    {
      if k == key(user) && d == user.device {
        assert snap'[k][d] == c;
      } else {
        assert HasEntry(snap, k, d) && snap'[k][d] == snap[k][d];
      }
    }
  }

  lemma RemoveRefines(key: KeyFn, snap: Snapshot, index: PlainIndex, user: User)
    requires key == ConnKey && Refines(key, snap, index) && key(user) in snap
    ensures Refines(key, Removed(snap, key(user), user.device), index - {user})
    ensures NoneEmpty(snap) ==> NoneEmpty(Removed(snap, key(user), user.device))
  {
    ConnKeyDiscriminates();
    RemoveKeeps(key, snap, index, user);
  }

  lemma RemoveKeeps(key: KeyFn, snap: Snapshot, index: PlainIndex, user: User)
    requires Discriminates(key) && Refines(key, snap, index) && key(user) in snap
    ensures Refines(key, Removed(snap, key(user), user.device), index - {user})
    ensures NoneEmpty(snap) ==> NoneEmpty(Removed(snap, key(user), user.device))
  {
    var snap' := Removed(snap, key(user), user.device);
    forall u | u in index && u != user
      ensures Holds(snap', key(u), u.device, index[u])
    {
      assert Holds(snap, key(u), u.device, index[u]);
      if key(u) == key(user) {
        assert u.device in snap[key(user)] - {user.device};
      }
    }
    forall k, d | HasEntry(snap', k, d)
      ensures Holds(snap, k, d, snap'[k][d]) && snap'[k][d].user != user
    {
      assert HasEntry(snap, k, d);
    }
  }

  lemma ClearRefines(key: KeyFn, snap: Snapshot, index: PlainIndex, user: User)
    requires key == ConnKey && Refines(key, snap, index) && key(user) in snap
    ensures Refines(key, Cleared(snap, key(user)), WithoutOwner(index, user))
    ensures |WithoutOwner(index, user)| == |index| - |snap[key(user)]|
  {
    ConnKeyDiscriminates();
    ClearKeeps(key, snap, index, user);
    ClearCount(key, snap, index, user);
  }

  lemma ClearKeeps(key: KeyFn, snap: Snapshot, index: PlainIndex, user: User)
    requires Discriminates(key) && Refines(key, snap, index) && key(user) in snap
    ensures Refines(key, Cleared(snap, key(user)), WithoutOwner(index, user))
  {
    var snap', index' := Cleared(snap, key(user)), WithoutOwner(index, user);
    forall u | u in index'
      ensures Holds(snap', key(u), u.device, index[u])
    {
      assert Holds(snap, key(u), u.device, index[u]);
    }
    forall k, d | HasEntry(snap', k, d)
      ensures Holds(snap, k, d, snap'[k][d]) && Owner(snap'[k][d].user) != Owner(user)
    {
      assert HasEntry(snap, k, d);
    }
  }

  // The users a bulk removal takes out of the plain map.
  function OnDevices(user: User, devices: set<string>): set<User>
  {
    set d | d in devices :: User(user.bid, user.uid, d)
  }

  lemma BulkUsers(key: KeyFn, snap: Snapshot, index: PlainIndex, user: User, u: User)
    requires Discriminates(key) && Refines(key, snap, index) && key(user) in snap
    ensures u in OnDevices(user, snap[key(user)].Keys) <==> u in index && Owner(u) == Owner(user)
  {
    var gone := OnDevices(user, snap[key(user)].Keys);
    if u in index && Owner(u) == Owner(user) {
      assert Holds(snap, key(u), u.device, index[u]);
      assert u == User(user.bid, user.uid, u.device);
    }
    if u in gone {
      assert HasEntry(snap, key(user), u.device);
    }
  }

  lemma ClearCount(key: KeyFn, snap: Snapshot, index: PlainIndex, user: User)
    requires Discriminates(key) && Refines(key, snap, index) && key(user) in snap
    ensures |WithoutOwner(index, user)| == |index| - |snap[key(user)]|
  {
    var gone := OnDevices(user, snap[key(user)].Keys);
    forall u
      ensures u in gone <==> u in index && Owner(u) == Owner(user)
    {
      BulkUsers(key, snap, index, user, u);
    }
    OnePerDevice(snap[key(user)].Keys, user);
    SplitSize(index, user, gone);
  }

  lemma SplitSize(index: PlainIndex, user: User, gone: set<User>)
    requires forall u :: u in gone <==> u in index && Owner(u) == Owner(user)
    ensures |WithoutOwner(index, user)| == |index| - |gone|
  {
    assert WithoutOwner(index, user).Keys == index.Keys - gone;
    assert gone <= index.Keys;
  }

  lemma {:induction false} OnePerDevice(devices: set<string>, user: User)
    ensures |OnDevices(user, devices)| == |devices|
  {
    if devices != {} {
      var d :| d in devices;
      OnePerDevice(devices - {d}, user);
      assert OnDevices(user, devices) == OnDevices(user, devices - {d}) + {User(user.bid, user.uid, d)};
    }
  }

  function Empties(snap: Snapshot): set<string>
  {
    set k | k in snap && snap[k] == map[]
  }

  // There is one entry per user, and one more for each empty entry.
  lemma EntriesAreUsers(key: KeyFn, snap: Snapshot, index: PlainIndex)
    requires key == ConnKey && Refines(key, snap, index)
    ensures |snap| == |Owners(index)| + |Empties(snap)|
  {
    ConnKeyDiscriminates();
    EntryKeys(key, snap, index);
    KeysOfSize(key, Owners(index));
    assert snap.Keys == (snap.Keys - Empties(snap)) + Empties(snap);
  }

  function KeysOf(key: KeyFn, owners: set<(Uint64, Uint64)>): set<string>
  {
    set o | o in owners :: key(User(o.0, o.1, ""))
  }

  lemma EntryHasOwner(key: KeyFn, snap: Snapshot, index: PlainIndex, k: string)
    requires Discriminates(key) && Refines(key, snap, index) && k in snap && snap[k] != map[]
    ensures k in KeysOf(key, Owners(index))
  {
    var d :| d in snap[k];
    var c := snap[k][d];
    assert HasEntry(snap, k, d);
    var o := Owner(c.user);
    assert o in Owners(index) && key(User(o.0, o.1, "")) == k;
  }

  lemma SomeUser(index: PlainIndex, o: (Uint64, Uint64)) returns (u: User)
    requires o in Owners(index)
    ensures u in index && Owner(u) == o
  {
    u :| u in index && Owner(u) == o;
  }

  lemma OwnerHasEntry(key: KeyFn, snap: Snapshot, index: PlainIndex, k: string)
    requires Discriminates(key) && Refines(key, snap, index) && k in KeysOf(key, Owners(index))
    ensures k in snap && snap[k] != map[]
  {
    var o :| o in Owners(index) && key(User(o.0, o.1, "")) == k;
    var u := SomeUser(index, o);
    assert key(u) == k;
    assert Holds(snap, key(u), u.device, index[u]);
  }

  lemma EntryKeys(key: KeyFn, snap: Snapshot, index: PlainIndex)
    requires Discriminates(key) && Refines(key, snap, index)
    ensures snap.Keys - Empties(snap) == KeysOf(key, Owners(index))
  {
    forall k
      ensures k in snap && snap[k] != map[] <==> k in KeysOf(key, Owners(index))
    {
      if k in snap && snap[k] != map[] {
        EntryHasOwner(key, snap, index, k);
      }
      if k in KeysOf(key, Owners(index)) {
        OwnerHasEntry(key, snap, index, k);
      }
    }
  }

  lemma {:induction false} KeysOfSize(key: KeyFn, owners: set<(Uint64, Uint64)>)
    requires Discriminates(key)
    ensures |KeysOf(key, owners)| == |owners|
  {
    if owners != {} {
      var o :| o in owners;
      var k := key(User(o.0, o.1, ""));
      KeysOfSize(key, owners - {o});
      forall p | p in owners - {o}
        ensures key(User(p.0, p.1, "")) != k
      {
        assert Owner(User(p.0, p.1, "")) == p && Owner(User(o.0, o.1, "")) == o;
      }
      assert KeysOf(key, owners) == KeysOf(key, owners - {o}) + {k};
    }
  }

  // ---------- sizes ----------

  lemma SizeUpdated<K, V>(m: map<K, V>, k: K, v: V)
    requires k in m
    ensures |m[k := v]| == |m|
  {
    assert m[k := v].Keys == m.Keys;
  }

  lemma RemovedSize(snap: Snapshot, k: string, device: string)
    requires HasEntry(snap, k, device)
    ensures |Removed(snap, k, device)| == |snap| - (if snap[k] - {device} == map[] then 1 else 0)
  {
    SizeWithout(snap, k);
    SizeUpdated(snap, k, snap[k] - {device});
  }

  lemma StoredSize(snap: Snapshot, k: string, device: string, c: Conn)
    ensures |Stored(snap, k, device, c)| == |snap| + (if k in snap then 0 else 1)
  {
    if k in snap {
      SizeUpdated(snap, k, snap[k][device := c]);
    } else {
      SizeWith(snap, k, map[device := c]);
    }
  }

  lemma SizeWith<K, V>(m: map<K, V>, k: K, v: V)
    requires k !in m
    ensures |m[k := v]| == |m| + 1
  {
    assert m[k := v].Keys == m.Keys + {k};
  }

  // ---------- the state of the manager as a value ----------

  // The two-level index and the counters, with the plain index they stand for, the
  // number of calls of RemoveUserConn that have returned true, and the connections
  // that are open.
  datatype Table = Table(snap: Snapshot, index: PlainIndex, connCnt: int, userCnt: int, bulk: nat, open: set<Conn>)

  const EMPTY: Table := Table(map[], map[], 0, 0, 0, {})

  // RemoveConn.
  function AfterRemove(t: Table, user: User): Table
  {
    var k := ConnKey(user);
    if !HasEntry(t.snap, k, user.device) then t
    else
      Table(Removed(t.snap, k, user.device), t.index - {user}, t.connCnt - 1,
            if t.snap[k] - {user.device} == map[] then t.userCnt - 1 else t.userCnt, t.bulk,
            t.open - {t.snap[k][user.device]})
  }

  // storeConn of a connection just created.
  function AfterStore(t: Table, user: User, c: Conn): Table
  {
    var k := ConnKey(user);
    Table(Stored(t.snap, k, user.device, c), t.index[user := c], t.connCnt + 1,
          if k in t.snap then t.userCnt else t.userCnt + 1, t.bulk, t.open + {c})
  }

  // RemoveUserConn, which closes nothing.
  function AfterBulk(t: Table, user: User): Table
  {
    var k := ConnKey(user);
    if k !in t.snap then t
    else
      Table(Cleared(t.snap, k), WithoutOwner(t.index, user), t.connCnt - |t.snap[k]|, t.userCnt - 1, t.bulk + 1,
            t.open)
  }

  // Close, by a loop of the connection or by its handler.
  function AfterClose(t: Table, c: Conn): Table
  {
    t.(open := t.open - {c})
  }

  // The index is the plain map, connCnt counts its connections, userCnt its entries,
  // short of one for each bulk removal; without those no entry is empty.
  ghost predicate Good(t: Table)
  {
    && Refines(ConnKey, t.snap, t.index)
    && t.connCnt == |t.index|
    && t.userCnt + t.bulk == |t.snap|
    && (t.bulk == 0 ==> NoneEmpty(t.snap))
  }

  lemma LookupIsGood(t: Table, user: User)
    requires Good(t)
    ensures user in t.index <==> HasEntry(t.snap, ConnKey(user), user.device)
    ensures user in t.index ==> t.snap[ConnKey(user)][user.device] == t.index[user]
  {
    LookupRefines(ConnKey, t.snap, t.index, user);
  }

  lemma EmptyIsGood()
    ensures Good(EMPTY)
  {
  }

  lemma RemoveIsGood(t: Table, user: User)
    requires Good(t)
    ensures Good(AfterRemove(t, user))
    ensures AfterRemove(t, user).index == t.index - {user}
  {
    LookupRefines(ConnKey, t.snap, t.index, user);
    if HasEntry(t.snap, ConnKey(user), user.device) {
      RemovePresent(t, user);
    } else {
      RemoveAbsent(t, user);
    }
  }

  lemma RemoveAbsent(t: Table, user: User)
    requires user !in t.index && !HasEntry(t.snap, ConnKey(user), user.device)
    ensures AfterRemove(t, user) == t && t.index == t.index - {user}
  {
  }

  lemma RemovePresent(t: Table, user: User)
    requires Good(t) && user in t.index && HasEntry(t.snap, ConnKey(user), user.device)
    ensures Good(AfterRemove(t, user)) && AfterRemove(t, user).index == t.index - {user}
  {
    RemoveRefines(ConnKey, t.snap, t.index, user);
    SizeWithout(t.index, user);
    RemovedSize(t.snap, ConnKey(user), user.device);
  }

  lemma StoreIsGood(t: Table, user: User, c: Conn)
    requires Good(t) && user !in t.index && c.user == user
    ensures Good(AfterStore(t, user, c))
  {
    StoreRefines(ConnKey, t.snap, t.index, user, c);
    SizeWith(t.index, user, c);
    StoredSize(t.snap, ConnKey(user), user.device, c);
  }

  lemma CloseIsGood(t: Table, c: Conn)
    requires Good(t)
    ensures Good(AfterClose(t, c)) && AfterClose(t, c).index == t.index
  {
  }

  lemma BulkIsGood(t: Table, user: User)
    requires Good(t)
    ensures Good(AfterBulk(t, user))
    ensures AfterBulk(t, user).index == WithoutOwner(t.index, user)
  {
    if ConnKey(user) in t.snap {
      ClearRefines(ConnKey, t.snap, t.index, user);
      SizeUpdated(t.snap, ConnKey(user), map[]);
    } else {
      AbsentOwner(t, user);
      assert t.index == WithoutOwner(t.index, user);
    }
  }

  lemma AbsentOwner(t: Table, user: User)
    requires Good(t) && ConnKey(user) !in t.snap
    ensures forall u :: u in t.index ==> Owner(u) != Owner(user)
  {
    forall u | u in t.index
      ensures Owner(u) != Owner(user)
    {
      assert Holds(t.snap, ConnKey(u), u.device, t.index[u]);
      ConnKeyDeterminesUser(u, user);
    }
  }

  lemma OpenAfterRemove(t: Table, user: User)
    requires Good(t)
    ensures AfterRemove(t, user).open == if user in t.index then t.open - {t.index[user]} else t.open
    ensures AfterRemove(t, user).index == t.index - {user}
  {
    LookupRefines(ConnKey, t.snap, t.index, user);
    RemoveIsGood(t, user);
  }

  lemma OpenAfterBulk(t: Table, user: User)
    requires Good(t)
    ensures AfterBulk(t, user).open == t.open && AfterBulk(t, user).index == WithoutOwner(t.index, user)
  {
    BulkIsGood(t, user);
  }

  // The table speaks of connections that have been created, under the ids of their users.
  ghost predicate Within(t: Table, created: set<Conn>)
  {
    && (forall u :: u in t.index ==> t.index[u] in created && t.index[u].id == ConnID(u))
    && t.open <= created
  }

  lemma RemoveStaysWithin(t: Table, created: set<Conn>, user: User)
    requires Good(t) && Within(t, created)
    ensures Within(AfterRemove(t, user), created)
  {
    hide Good, AfterRemove;
    OpenAfterRemove(t, user);
  }

  lemma BulkStaysWithin(t: Table, created: set<Conn>, user: User)
    requires Good(t) && Within(t, created)
    ensures Within(AfterBulk(t, user), created) && AfterBulk(t, user).open == t.open
  {
    hide Good, AfterBulk;
    OpenAfterBulk(t, user);
  }

  lemma CloseStaysWithin(t: Table, created: set<Conn>, c: Conn)
    requires Within(t, created)
    ensures Within(AfterClose(t, c), created)
  {
  }

  lemma StoreStaysWithin(t: Table, created: set<Conn>, user: User, c: Conn)
    requires Within(t, created) && c.id == ConnID(user)
    ensures Within(AfterStore(t, user, c), created + {c}) && AfterStore(t, user, c).open == t.open + {c}
  {
  }

  // The connections under the key of a user are those of that user.
  lemma OwnersConns(t: Table, user: User)
    requires Good(t)
    ensures forall c: Conn ::
              c.user in t.index && Owner(c.user) == Owner(user) && t.index[c.user] == c <==>
              Holds(t.snap, ConnKey(user), c.user.device, c)
  {
    forall c: Conn
      ensures c.user in t.index && Owner(c.user) == Owner(user) && t.index[c.user] == c <==>
              Holds(t.snap, ConnKey(user), c.user.device, c)
    {
      ConnKeyDeterminesUser(c.user, user);
    }
  }
}
