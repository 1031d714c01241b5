// Runs of operations on the connection index: what they keep, what the counters say, and
// which connections are open.

module ConnRuns {
  import opened Keys
  import opened ConnTable

  // Close stands for every call of Close that does not go through the index.
  datatype IndexOp = New(user: User, conn: Conn) | Remove(user: User) | Bulk(user: User) | Close(conn: Conn)

  function Apply(t: Table, op: IndexOp): Table
  {
    match op
    case New(user, c) => AfterStore(AfterRemove(t, user), user, c)
    case Remove(user) => AfterRemove(t, user)
    case Bulk(user) => AfterBulk(t, user)
    case Close(c) => AfterClose(t, c)
  }

  function ApplyAll(t: Table, ops: seq<IndexOp>): Table
  {
    if ops == [] then t else Apply(ApplyAll(t, ops[..|ops| - 1]), ops[|ops| - 1])
  }

  // The same operations on the plain map.
  function PlainApply(index: PlainIndex, op: IndexOp): PlainIndex
  {
    match op
    case New(user, c) => index[user := c]
    case Remove(user) => index - {user}
    case Bulk(user) => WithoutOwner(index, user)
    case Close(_) => index
  }

  function PlainApplyAll(index: PlainIndex, ops: seq<IndexOp>): PlainIndex
  {
    if ops == [] then index else PlainApply(PlainApplyAll(index, ops[..|ops| - 1]), ops[|ops| - 1])
  }

  function OpUser(op: IndexOp): User
  {
    if op.Close? then op.conn.user else op.user
  }

  ghost predicate WellNamed(op: IndexOp)
  {
    op.New? ==> op.conn.user == op.user
  }

  lemma NewAfterRemoval(index: PlainIndex, t: Table, user: User, c: Conn)
    requires Good(t) && t.index == index - {user} && c.user == user
    ensures Good(AfterStore(t, user, c))
    ensures AfterStore(t, user, c).index == index[user := c]
  {
    hide Good;
    StoreIsGood(t, user, c);
    StoredIndex(index, user, c);
  }

  lemma StoredIndex(index: PlainIndex, user: User, c: Conn)
    ensures (index - {user})[user := c] == index[user := c]
  {
  }

  lemma ApplyRefines(t: Table, op: IndexOp)
    requires Good(t) && WellNamed(op)
    ensures Good(Apply(t, op)) && Apply(t, op).index == PlainApply(t.index, op)
  {
    hide Good;
    match op
    case New(user, c) =>
      RemoveIsGood(t, user);
      NewAfterRemoval(t.index, AfterRemove(t, user), user, c);
    case Remove(user) => RemoveIsGood(t, user);
    case Bulk(user) => BulkIsGood(t, user);
    case Close(c) => CloseIsGood(t, c);
  }

  // Over any sequence of operations the string-keyed two-level index is the plain map
  // from user and device to connection.
  lemma {:induction false} RunsRefine(ops: seq<IndexOp>)
    requires forall n :: 0 <= n < |ops| ==> WellNamed(ops[n])
    ensures Good(ApplyAll(EMPTY, ops))
    ensures ApplyAll(EMPTY, ops).index == PlainApplyAll(map[], ops)
  {
    if ops == [] {
      EmptyIsGood();
    } else {
      RunsRefine(ops[..|ops| - 1]);
      ApplyRefines(ApplyAll(EMPTY, ops[..|ops| - 1]), ops[|ops| - 1]);
    }
  }

  // An operation on one user changes nothing for any other: not the entry, and not which
  // connections are open.
  ghost predicate SameEntry(snap: Snapshot, snap': Snapshot, k: string)
  {
    (k in snap' <==> k in snap) && (k in snap ==> snap'[k] == snap[k])
  }

  lemma RemoveElsewhere(t: Table, user: User, k: string)
    requires k != ConnKey(user)
    ensures SameEntry(t.snap, AfterRemove(t, user).snap, k)
  {
  }

  lemma StoreElsewhere(t: Table, user: User, c: Conn, k: string)
    requires k != ConnKey(user)
    ensures SameEntry(t.snap, AfterStore(t, user, c).snap, k)
  {
  }

  lemma BulkElsewhere(t: Table, user: User, k: string)
    requires k != ConnKey(user)
    ensures SameEntry(t.snap, AfterBulk(t, user).snap, k)
  {
  }

  // It closes and opens connections of that user only.
  lemma OpenElsewhere(t: Table, op: IndexOp)
    requires Good(t) && WellNamed(op)
    ensures forall c: Conn :: Owner(c.user) != Owner(OpUser(op)) ==> (c in Apply(t, op).open <==> c in t.open)
  {
    match op
    case New(user, c) => OpenAfterRemove(t, user);
    case Remove(user) => OpenAfterRemove(t, user);
    case Bulk(user) => OpenAfterBulk(t, user);
    case Close(_) =>
  }

  lemma OthersUnchanged(t: Table, op: IndexOp, v: User)
    requires Owner(v) != Owner(OpUser(op))
    ensures SameEntry(t.snap, Apply(t, op).snap, ConnKey(v))
    ensures Good(t) && WellNamed(op) ==>
              forall c: Conn :: Owner(c.user) == Owner(v) ==> (c in Apply(t, op).open <==> c in t.open)
  {
    if Good(t) && WellNamed(op) {
      OpenElsewhere(t, op);
    }
    ConnKeyDeterminesUser(v, OpUser(op));
    match op
    case New(user, c) =>
      RemoveElsewhere(t, user, ConnKey(v));
      StoreElsewhere(AfterRemove(t, user), user, c, ConnKey(v));
    case Remove(user) => RemoveElsewhere(t, user, ConnKey(v));
    case Bulk(user) => BulkElsewhere(t, user, ConnKey(v));
    case Close(_) =>
  }

  // ---------- the user counter over runs ----------

  // The operation finds the entry of its user there, and empty.
  predicate MeetsEmpty(t: Table, op: IndexOp)
  {
    (op.New? || op.Bulk?) && ConnKey(op.user) in t.snap && t.snap[ConnKey(op.user)] == map[]
  }

  // How often that has happened.
  function MetEmpty(ops: seq<IndexOp>): nat
  {
    if ops == [] then 0
    else
      var before := ops[..|ops| - 1];
      MetEmpty(before) + (if MeetsEmpty(ApplyAll(EMPTY, before), ops[|ops| - 1]) then 1 else 0)
  }

  function Drift(t: Table): int
  {
    t.bulk - |Empties(t.snap)|
  }

  lemma EmptiesAfterRemove(t: Table, user: User)
    ensures Empties(AfterRemove(t, user).snap) == Empties(t.snap)
  {
  }

  lemma EmptiesAfterStore(t: Table, user: User, c: Conn)
    ensures Empties(AfterStore(t, user, c).snap) == Empties(t.snap) - {ConnKey(user)}
  {
    var k := ConnKey(user);
    assert AfterStore(t, user, c).snap[k] != map[] by {
      assert user.device in AfterStore(t, user, c).snap[k];
    }
  }

  lemma EmptiesAfterBulk(t: Table, user: User)
    requires ConnKey(user) in t.snap
    ensures Empties(AfterBulk(t, user).snap) == Empties(t.snap) + {ConnKey(user)}
  {
  }

  // The drift never falls, and rises by one exactly when an operation meets an empty entry.
  lemma DriftStep(t: Table, op: IndexOp)
    ensures Drift(Apply(t, op)) == Drift(t) + (if MeetsEmpty(t, op) then 1 else 0)
  {
    match op
    case New(user, c) =>
      EmptiesAfterRemove(t, user);
      EmptiesAfterStore(AfterRemove(t, user), user, c);
    case Remove(user) => EmptiesAfterRemove(t, user);
    case Bulk(user) =>
      if ConnKey(user) in t.snap {
        EmptiesAfterBulk(t, user);
        if MeetsEmpty(t, op) {
          assert Empties(t.snap) + {ConnKey(user)} == Empties(t.snap);
        }
      }
    case Close(_) =>
  }

  lemma {:induction false} DriftIsMetEmpty(ops: seq<IndexOp>)
    ensures Drift(ApplyAll(EMPTY, ops)) == MetEmpty(ops)
  {
    if ops == [] {
      assert Empties(EMPTY.snap) == {};
    } else {
      DriftIsMetEmpty(ops[..|ops| - 1]);
      DriftStep(ApplyAll(EMPTY, ops[..|ops| - 1]), ops[|ops| - 1]);
    }
  }

  predicate MeetsEmptyAt(ops: seq<IndexOp>, n: int)
  {
    0 <= n < |ops| && MeetsEmpty(ApplyAll(EMPTY, ops[..n]), ops[n])
  }

  lemma SameBefore(ops: seq<IndexOp>, n: int)
    requires ops != []
    ensures n < |ops| - 1 ==> MeetsEmptyAt(ops[..|ops| - 1], n) == MeetsEmptyAt(ops, n)
  {
    if 0 <= n < |ops| - 1 {
      assert ops[..|ops| - 1][..n] == ops[..n];
    }
  }

  lemma {:induction false} MetEmptyIffSome(ops: seq<IndexOp>)
    ensures MetEmpty(ops) > 0 <==> exists n :: MeetsEmptyAt(ops, n)
  {
    if ops != [] {
      var last := |ops| - 1;
      assert MetEmpty(ops) == MetEmpty(ops[..last]) + (if MeetsEmptyAt(ops, last) then 1 else 0);
      hide MeetsEmpty, MetEmpty;
      MetEmptyIffSome(ops[..last]);
      if n :| MeetsEmptyAt(ops[..last], n) {
        SameBefore(ops, n);
      }
      if n :| MeetsEmptyAt(ops, n) {
        SameBefore(ops, n);
      }
    }
  }

  // On every run connCnt is the number of connections in the index, and userCnt falls short of
  // the number of users by the times an operation met an empty entry: it is right
  // exactly when no NewConn and no RemoveUserConn did.
  lemma CountersAgree(ops: seq<IndexOp>)
    requires forall n :: 0 <= n < |ops| ==> WellNamed(ops[n])
    ensures var t := ApplyAll(EMPTY, ops);
            && t.connCnt == |t.index| && t.userCnt == |Owners(t.index)| - MetEmpty(ops)
            && (t.userCnt == |Owners(t.index)| <==> !exists n :: MeetsEmptyAt(ops, n))
  {
    RunsRefine(ops);
    var t := ApplyAll(EMPTY, ops);
    EntriesAreUsers(ConnKey, t.snap, t.index);
    DriftIsMetEmpty(ops);
    MetEmptyIffSome(ops);
  }

  // A user who comes back after a bulk removal is not counted any more.
  lemma ReturningUserIsNotCounted(user: User, c: Conn, d: Conn)
    requires c.user == user && d.user == user
    ensures var t := Apply(Apply(Apply(EMPTY, New(user, c)), Bulk(user)), New(user, d));
            t.index == map[user := d] && t.userCnt == 0
  {
    var k := ConnKey(user);
    var t1 := Apply(EMPTY, New(user, c));
    assert k in t1.snap && t1.index == map[user := c];
    var t2 := Apply(t1, Bulk(user));
    assert k in t2.snap && t2.userCnt == 0 && t2.index == map[];
  }

  // ---------- open connections over runs ----------

  // Every open connection is the one in the index for its user and device.
  ghost predicate OpenIndexed(t: Table)
  {
    forall c :: c in t.open ==> c.user in t.index && t.index[c.user] == c
  }

  // An operation keeps that, unless it is a bulk removal of a user with an open connection.
  lemma KeepsOpenIndexedIff(t: Table, op: IndexOp)
    requires Good(t) && OpenIndexed(t) && WellNamed(op)
    ensures OpenIndexed(Apply(t, op))
       <==> !(op.Bulk? && exists c :: c in t.open && Owner(c.user) == Owner(op.user))
  {
    hide Good, AfterRemove, AfterBulk, AfterStore;
    match op
    case New(user, c) => NewKeepsOpenIndexed(t, user, c);
    case Remove(user) => RemoveKeepsOpenIndexed(t, user);
    case Bulk(user) => BulkKeepsOpenIndexedIff(t, user);
    case Close(_) =>
  }

  lemma RemoveKeepsOpenIndexed(t: Table, user: User)
    requires Good(t) && OpenIndexed(t)
    ensures OpenIndexed(AfterRemove(t, user))
  {
    hide Good, AfterRemove;
    OpenAfterRemove(t, user);
  }

  // What NewConn does to the index and to the open connections.
  lemma NewSwaps(t: Table, user: User, c: Conn)
    requires Good(t) && c.user == user
    ensures var t' := Apply(t, New(user, c));
            && Good(t') && t'.index == t.index[user := c]
            && t'.open == (if user in t.index then t.open - {t.index[user]} else t.open) + {c}
  {
    ApplyRefines(t, New(user, c));
    OpenAfterRemove(t, user);
  }

  lemma NewKeepsOpenIndexed(t: Table, user: User, c: Conn)
    requires Good(t) && OpenIndexed(t) && c.user == user
    ensures OpenIndexed(Apply(t, New(user, c)))
  {
    hide Good, Apply;
    NewSwaps(t, user, c);
  }

  lemma BulkKeepsOpenIndexedIff(t: Table, user: User)
    requires Good(t) && OpenIndexed(t)
    ensures OpenIndexed(AfterBulk(t, user)) <==> !exists c :: c in t.open && Owner(c.user) == Owner(user)
  {
    hide Good, AfterBulk;
    OpenAfterBulk(t, user);
  }

  // On every run without a bulk removal, at most one connection per user and device is
  // open, and it is the one in the index; if nothing else closes connections, they are
  // exactly the ones in the index.
  lemma {:induction false} AtMostOneOpen(ops: seq<IndexOp>)
    requires forall n :: 0 <= n < |ops| ==> WellNamed(ops[n]) && !ops[n].Bulk?
    ensures var t := ApplyAll(EMPTY, ops);
            && OpenIndexed(t)
            && (forall c, d :: c in t.open && d in t.open && c.user == d.user ==> c == d)
            && ((forall n :: 0 <= n < |ops| ==> !ops[n].Close?) ==> forall u :: u in t.index ==> t.index[u] in t.open)
  {
    if ops != [] {
      var before, op := ops[..|ops| - 1], ops[|ops| - 1];
      var t := ApplyAll(EMPTY, before);
      AtMostOneOpen(before);
      RunsRefine(before);
      KeepsOpenIndexedIff(t, op);
      if !op.Close? {
        StaysOpen(t, op);
      }
    }
  }

  lemma StaysOpen(t: Table, op: IndexOp)
    requires Good(t) && WellNamed(op) && (op.New? || op.Remove?)
    ensures (forall u :: u in t.index ==> t.index[u] in t.open) ==>
              forall u :: u in Apply(t, op).index ==> Apply(t, op).index[u] in Apply(t, op).open
  {
    OpenAfterRemove(t, op.user);
    assert forall u :: u in t.index ==> t.index[u].user == u;
  }

  // NewConn closes the connection it displaces, before it stores the successor.
  lemma NewClosesTheDisplaced(t: Table, user: User, c: Conn)
    requires Good(t) && user in t.index && t.index[user] != c && c.user == user
    ensures t.index[user] !in AfterRemove(t, user).open && user !in AfterRemove(t, user).index
    ensures var t' := Apply(t, New(user, c));
            t'.index[user] == c && c in t'.open && t'.open == t.open - {t.index[user]} + {c}
  {
    OpenAfterRemove(t, user);
  }

  lemma BulkKeeps(t: Table, user: User)
    requires Good(t)
    ensures var t' := Apply(t, Bulk(user));
            Good(t') && t'.index == WithoutOwner(t.index, user) && t'.open == t.open
  {
    ApplyRefines(t, Bulk(user));
    OpenAfterBulk(t, user);
  }

  // After a bulk removal two connections of one user and device can be open.
  lemma BulkLeavesTwoOpen(user: User, a: Conn, b: Conn)
    requires a.user == b.user == user && a != b
    ensures {a, b} <= Apply(Apply(Apply(EMPTY, New(user, a)), Bulk(user)), New(user, b)).open
  {
    hide Good, Apply;
    EmptyIsGood();
    NewSwaps(EMPTY, user, a);
    var t1 := Apply(EMPTY, New(user, a));
    BulkKeeps(t1, user);
    NewSwaps(Apply(t1, Bulk(user)), user, b);
  }

  // ---------- the cleanup of a handler ----------

  // The deferred cleanup of the handler of own: remove by key, then close own.
  function AfterCleanup(t: Table, own: Conn): Table
  {
    Apply(Apply(t, Remove(own.user)), Close(own))
  }

  lemma CleanupTakesOut(t: Table, own: Conn)
    requires Good(t)
    ensures AfterCleanup(t, own).index == t.index - {own.user}
    ensures AfterCleanup(t, own).open == (if own.user in t.index then t.open - {t.index[own.user]} else t.open) - {own}
  {
    OpenAfterRemove(t, own.user);
  }

  // It closes a connection other than its own iff that one has displaced own and is
  // still open; that one then leaves the index too.
  lemma CleanupClosesIff(t: Table, own: Conn, d: Conn)
    requires Good(t) && d != own
    ensures d in t.open && d !in AfterCleanup(t, own).open
       <==> d in t.open && own.user in t.index && t.index[own.user] == d
    ensures own.user !in AfterCleanup(t, own).index && own !in AfterCleanup(t, own).open
  {
    CleanupTakesOut(t, own);
  }

  // A user connects twice from one device; then the first handler cleans up. The second
  // connection is closed and gone from the index, although its handler is at work.
  lemma CleanupClosesTheSuccessor(user: User, a: Conn, b: Conn)
    requires a.user == b.user == user && a != b
    ensures var t := Apply(Apply(EMPTY, New(user, a)), New(user, b));
            && t.open == {b} && t.index == map[user := b]
            && AfterCleanup(t, a).open == {} && AfterCleanup(t, a).index == map[]
  {
    hide Good, Apply, AfterRemove, AfterCleanup;
    EmptyIsGood();
    NewSwaps(EMPTY, user, a);
    var t1 := Apply(EMPTY, New(user, a));
    NewSwaps(t1, user, b);
    CleanupTakesOut(Apply(t1, New(user, b)), a);
  }
}
