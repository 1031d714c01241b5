// DeviceConns and ConnManager as objects (internal/ws/conn/conn_manager.go), each operation
// atomic. Every method is proved against the table of ConnTable, whose runs are the
// subject of ConnRuns.

module ConnIndex {
  import opened Common
  import opened Keys
  import opened ConnTable
  import opened ConnRuns

  class DeviceConns {
    ghost const key: string  // of the one entry this object serves
    var conns: map<string, Conn>

    constructor (ghost key: string)
      ensures conns == map[] && this.key == key
    {
      this.key := key;
      conns := map[];
    }

    method Add(device: string, conn: Conn)
      modifies this
      ensures conns == old(conns)[device := conn]
    {
      conns := conns[device := conn];
    }

    method Remove(device: string) returns (conn: Option<Conn>)
      modifies this
      ensures conn == if device in old(conns) then Some(old(conns)[device]) else None
      ensures conns == old(conns) - {device}
    {
      if device in conns {
        conn := Some(conns[device]);
        conns := conns - {device};
      } else {
        conn := None;
        assert conns == conns - {device};
      }
    }

    method Find(device: string) returns (conn: Option<Conn>)
      ensures conn == if device in conns then Some(conns[device]) else None
    {
      conn := if device in conns then Some(conns[device]) else None;
    }

    // Go iterates over a map in an arbitrary order; order is the one it happens to take.
    method FindAll() returns (all: seq<Conn>, ghost order: seq<string>)
      ensures Enumerates(order, conns.Keys)
      ensures |all| == |order| && forall n :: 0 <= n < |order| ==> order[n] in conns && all[n] == conns[order[n]]
      ensures forall c: Conn :: c in all <==> exists d :: d in conns && conns[d] == c
    {
      var left := conns.Keys;
      all, order := [], [];
      while left != {}
        invariant left <= conns.Keys
        invariant Enumerates(order, conns.Keys - left)
        invariant |all| == |order| && forall n :: 0 <= n < |order| ==> order[n] in conns && all[n] == conns[order[n]]
        decreases left
      {
        var device :| device in left;
        assert device !in order;
        left := left - {device};
        all := all + [conns[device]];
        order := order + [device];
      }
      forall d | d in conns
        ensures conns[d] in all
      {
        assert d in order;
      }
    }

    method Clear() returns (cnt: int)
      modifies this
      ensures cnt == |old(conns)| && conns == map[]
    {
      cnt := |conns|;
      conns := map[];
    }
  }

  class ConnManager {
    var conns: map<string, DeviceConns>
    var connCnt: int
    var userCnt: int

    // The state as a value, the DeviceConns in use, and all connections ever created.
    ghost var table: Table
    ghost var parts: set<DeviceConns>
    ghost var created: set<Conn>

    ghost predicate Tied()
      reads this`conns, this`connCnt, this`userCnt, this`table, this`parts, parts
    {
      && connCnt == table.connCnt && userCnt == table.userCnt
      && (forall k :: k in conns <==> k in table.snap)
      && (forall k :: k in conns ==> conns[k] in parts && conns[k].key == k && conns[k].conns == table.snap[k])
    }

    // The connections of the index have been created, and the table knows the open ones.
    ghost predicate Owns()
      reads this`table, this`created, created
    {
      Within(table, created) && table.open == OpenOf(created)
    }

    ghost predicate Valid()
      reads this, parts, created
    {
      Tied() && Owns() && Good(table)
    }

    constructor ()
      ensures Valid() && fresh(parts) && table == EMPTY && created == {}
    {
      conns, connCnt, userCnt := map[], 0, 0;
      parts, table, created := {}, EMPTY, {};
      new;
      hide Good;
      EmptyIsGood();
    }

    // ---------- looking up ----------

    method LoadExistingConn(connKey: string, device: string) returns (conn: Option<Conn>)
      requires Tied()
      ensures conn == if HasEntry(table.snap, connKey, device) then Some(table.snap[connKey][device]) else None
    {
      if connKey !in conns {
        return None;
      }
      conn := conns[connKey].Find(device);
    }

    method FindConn(user: User) returns (conn: Option<Conn>)
      requires Valid()
      ensures conn == if user in table.index then Some(table.index[user]) else None
    {
      LookupIsGood(table, user);
      conn := LoadExistingConn(ConnKey(user), user.device);
    }

    // All connections of the user, whatever the device in the argument, each once
    // and nobody else's; found is true iff there is one.
    method FindUserConn(user: User) returns (all: seq<Conn>, found: bool)
      requires Valid()
      ensures forall c: Conn ::
                c in all <==> c.user in table.index && Owner(c.user) == Owner(user) && table.index[c.user] == c
      ensures forall m, n :: 0 <= m < n < |all| ==> all[m] != all[n]
      ensures found <==> all != []
    {
      var connKey := ConnKey(user);
      OwnersConns(table, user);
      if connKey !in conns {
        return [], false;
      }
      ghost var order;
      all, order := conns[connKey].FindAll();
      found := |all| > 0;
      forall n | 0 <= n < |all|
        ensures all[n].user.device == order[n] && Holds(table.snap, connKey, order[n], all[n])
      {
        assert HasEntry(table.snap, connKey, order[n]);
      }
      forall c: Conn | Holds(table.snap, connKey, c.user.device, c)
        ensures c in all
      {
        assert c.user.device in order;
      }
    }

    // ---------- removing ----------

    // The part of RemoveConn before the deferred Close.
    method Detach(user: User) returns (removed: Option<Conn>)
      requires Tied()
      modifies this`conns, this`connCnt, this`userCnt, this`table, parts
      ensures Tied() && table == AfterRemove(old(table), user)
      ensures var snap := old(table.snap);
              removed == if HasEntry(snap, ConnKey(user), user.device) then Some(snap[ConnKey(user)][user.device])
                         else None
    {
      var connKey := ConnKey(user);
      if connKey !in conns {
        return None;
      }
      var dc := conns[connKey];
      removed := dc.Remove(user.device);
      if removed.Some? {
        connCnt := connCnt - 1;
        if dc.conns == map[] {
          conns := conns - {connKey};
          userCnt := userCnt - 1;
        }
      }
      table := AfterRemove(table, user);
    }

    // RemoveConn without the deferred Close.
    method TakeOut(user: User) returns (removed: Option<Conn>)
      requires Valid()
      modifies this`conns, this`connCnt, this`userCnt, this`table, parts
      ensures Tied() && Good(table) && Within(table, created)
      ensures table == AfterRemove(old(table), user) && user !in table.index
      ensures removed == if user in old(table).index then Some(old(table).index[user]) else None
      ensures removed.Some? ==> removed.value in created
      ensures table.open == OpenOf(created) - (if removed.Some? then {removed.value} else {})
      ensures OpenOf(created) == old(OpenOf(created))
    {
      hide Good, AfterRemove, ConnKey, Tied, OpenOf;
      LookupIsGood(table, user);
      RemoveIsGood(table, user);
      RemoveStaysWithin(table, created, user);
      OpenAfterRemove(table, user);
      removed := Detach(user);
    }

    method RemoveConn(user: User) returns (ok: bool)
      requires Valid()
      modifies this, parts, created
      ensures Valid() && parts == old(parts) && created == old(created)
      ensures table == AfterRemove(old(table), user) && user !in table.index
      ensures ok == (user in old(table).index)
      ensures ok ==> !old(table).index[user].open
      ensures forall d :: d in created && !(ok && d == old(table).index[user]) ==> d.open == old(d.open)
    {
      hide Good, AfterRemove, ConnKey, Tied;
      var removed := TakeOut(user);
      ok := removed.Some?;
      if ok {
        removed.value.Close();
      }
    }

    // RemoveUserConn, as far as the fields of the source go.
    method ClearEntry(user: User) returns (ok: bool)
      requires Tied()
      modifies this`connCnt, this`userCnt, this`table, parts
      ensures Tied() && table == AfterBulk(old(table), user)
      ensures ok == (ConnKey(user) in conns)
    {
      var connKey := ConnKey(user);
      if connKey !in conns {
        return false;
      }
      userCnt := userCnt - 1;
      var cnt := conns[connKey].Clear();
      connCnt := connCnt - cnt;
      table := AfterBulk(table, user);
      ok := true;
    }

    // Drops all connections of the user unclosed, and leaves an empty entry.
    method RemoveUserConn(user: User) returns (ok: bool)
      requires Valid()
      modifies this, parts
      ensures Valid() && parts == old(parts) && created == old(created)
      ensures table == AfterBulk(old(table), user)
      ensures ok == (ConnKey(user) in conns)
    {
      hide Good, AfterBulk, ConnKey, Tied, OpenOf;
      BulkIsGood(table, user);
      BulkStaysWithin(table, created, user);
      ok := ClearEntry(user);
    }

    // ---------- storing ----------

    // conns.LoadOrStore, with the user counter.
    method LoadOrStoreEntry(connKey: string) returns (dc: DeviceConns)
      requires Tied()
      modifies this`conns, this`userCnt, this`parts
      ensures fresh(parts - old(parts)) && dc in parts && dc.key == connKey
      ensures conns == old(conns)[connKey := dc]
      ensures if connKey in old(conns) then dc == old(conns)[connKey] && userCnt == old(userCnt)
              else fresh(dc) && dc.conns == map[] && userCnt == old(userCnt) + 1
      ensures old(parts) <= parts
    {
      if connKey in conns {
        dc := conns[connKey];
        assert conns == conns[connKey := dc];
      } else {
        dc := new DeviceConns(connKey);
        conns := conns[connKey := dc];
        parts := parts + {dc};
        userCnt := userCnt + 1;
      }
    }

    method StoreConn(user: User, conn: Conn)
      requires Tied()
      modifies this`conns, this`connCnt, this`userCnt, this`parts, this`table, parts
      ensures Tied() && fresh(parts - old(parts)) && table == AfterStore(old(table), user, conn)
    {
      var dc := LoadOrStoreEntry(ConnKey(user));
      dc.Add(user.device, conn);
      connCnt := connCnt + 1;
      table := AfterStore(table, user, conn);
    }

    // The second half of NewConn: store the connection just created.
    method Admit(user: User, conn: Conn)
      requires Valid() && user !in table.index
      requires conn !in created && conn.open && conn.user == user && conn.id == ConnID(user)
      modifies this, parts
      ensures Valid() && fresh(parts - old(parts)) && created == old(created) + {conn}
      ensures table == AfterStore(old(table), user, conn)
    {
      hide Good, ConnKey, AfterStore, Within, Tied;
      StoreIsGood(table, user, conn);
      StoreStaysWithin(table, created, user, conn);
      StoreConn(user, conn);
      created := created + {conn};
      assert OpenOf(created) == old(OpenOf(created)) + {conn};
    }

    // The first half of NewConn: remove and close the connection of the same user and device.
    method Displace(user: User)
      requires Valid()
      modifies this, parts, created
      ensures Valid() && parts == old(parts) && created == old(created)
      ensures table == AfterRemove(old(table), user) && user !in table.index
      ensures user in old(table).index ==> !old(table).index[user].open
      ensures forall d :: d in created && !(user in old(table).index && d == old(table).index[user]) ==>
                d.open == old(d.open)
    {
      hide Good, AfterRemove, ConnKey;
      LookupIsGood(table, user);
      var existing := LoadExistingConn(ConnKey(user), user.device);
      if existing.Some? {
        var _ := RemoveConn(user);
      } else {
        RemoveAbsent(table, user);
      }
    }

    // A new connection displaces the old one of the same user and device, which is
    // closed before the new one is created.
    method NewConn(user: User) returns (conn: Conn)
      requires Valid()
      modifies this, parts, created
      ensures Valid() && fresh(parts - old(parts))
      ensures fresh(conn) && conn.open && conn.user == user && conn.id == ConnID(user)
      ensures created == old(created) + {conn}
      ensures table == Apply(old(table), New(user, conn))
      ensures user in old(table).index ==> !old(table).index[user].open
      ensures forall d :: d in old(created) && !(user in old(table).index && d == old(table).index[user]) ==>
                d.open == old(d.open)
    {
      hide Good, AfterRemove, AfterStore, ConnKey;
      Displace(user);
      conn := new Conn(ConnID(user), user);
      Admit(user, conn);
    }

    // Close by a loop of the connection or by its handler.
    method CloseConn(conn: Conn)
      requires Valid() && conn in created
      modifies this`table, conn
      ensures Valid() && !conn.open && table == AfterClose(old(table), conn)
    {
      hide Good, Within;
      CloseIsGood(table, conn);
      CloseStaysWithin(table, created, conn);
      conn.Close();
      assert OpenOf(created) == old(OpenOf(created)) - {conn};
      table := AfterClose(table, conn);
    }

    // The deferred cleanup of the handler of own (internal/ws/server.go:192-201). The
    // connection in the index is closed and taken out, also when it is not own but a
    // successor that has displaced own; nothing else changes.
    method Cleanup(own: Conn)
      requires Valid() && own in created
      modifies this, parts, created
      ensures Valid() && created == old(created) && !own.open
      ensures table == AfterCleanup(old(table), own) && own.user !in table.index
      ensures own.user in old(table).index ==> !old(table).index[own.user].open
      ensures forall d :: d in created && d != own && !(own.user in old(table).index && d == old(table).index[own.user])
                ==> d.open == old(d.open)
      ensures (forall d :: d in created && d != own ==> d.open == old(d.open))
         <==> !(own.user in old(table).index && old(table).index[own.user] != own && old(table.index[own.user].open))
    {
      hide Good, AfterRemove, ConnKey;
      var _ := RemoveConn(own.user);
      CloseConn(own);
    }
  }

  // A user connects twice from one device, and the handler of the first connection
  // cleans up: the second connection is closed and can no longer be found.
  method DisplacedCleanup(user: User) returns (m: ConnManager, first: Conn, second: Conn)
    ensures m.Valid() && m.created == {first, second} && first != second
    ensures !first.open && !second.open && user !in m.table.index
  {
    hide Good, AfterRemove, ConnKey;
    m := new ConnManager();
    first := m.NewConn(user);
    second := m.NewConn(user);
    assert second.open && m.table.index[user] == second;
    m.Cleanup(first);
  }

  // The open connections among those created.
  ghost function OpenOf(created: set<Conn>): set<Conn>
    reads created
  {
    set c | c in created && c.open
  }

  // Every element of keys once.
  ghost predicate Enumerates(order: seq<string>, keys: set<string>)
  {
    && (forall d :: d in order <==> d in keys)
    && (forall m, n :: 0 <= m < n < |order| ==> order[m] != order[n])
  }
}
