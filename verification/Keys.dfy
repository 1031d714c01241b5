// The string keys of the gateway (internal/pkg/session/types.go, taskKey of the
// retransmission manager, cacheKey of the lifecycle handler) and the parsers
// that show what they determine.

module Keys {
  import opened Common

  // session.User without the AutoClose flag, which no key contains.
  datatype User = User(bid: Uint64, uid: Uint64, device: string)

  const DEVICES: set<string> := {"mobile", "tablet", "pc", "unknown"}

  predicate ColonFree(s: string)
  {
    ':' !in s
  }

  // ---------- decimal numbers, as fmt prints an unsigned integer with %d ----------

  function Digit(d: nat): (c: char)
    requires d < 10
    ensures '0' <= c <= '9' && c as int - '0' as int == d
  {
    ('0' as int + d) as char
  }

  function Decimal(n: nat): string
  {
    if n < 10 then [Digit(n)] else Decimal(n / 10) + [Digit(n % 10)]
  }

  function DecimalValue(s: string): int
  {
    if s == "" then 0
    else 10 * DecimalValue(s[..|s| - 1]) + (s[|s| - 1] as int - '0' as int)
  }

  lemma {:induction false} DecimalParsesBack(n: nat)
    ensures DecimalValue(Decimal(n)) == n
    ensures |Decimal(n)| > 0
    ensures forall c :: c in Decimal(n) ==> '0' <= c <= '9'
    ensures n >= 10 ==> Decimal(n)[0] != '0'
    ensures n < 10 ==> |Decimal(n)| == 1
  {
    var s := Decimal(n);
    if n < 10 {
      assert s[..|s| - 1] == "";
    } else {
      DecimalParsesBack(n / 10);
      assert s[..|s| - 1] == Decimal(n / 10);
      if n / 10 < 10 {
        assert s[0] == Digit(n / 10);
      }
    }
  }

  // ---------- the printers ----------

  function ConnKey(u: User): string
  {
    Decimal(u.bid) + ":" + Decimal(u.uid)
  }

  function ConnID(u: User): string
  {
    Decimal(u.bid) + ":" + (Decimal(u.uid) + ":" + u.device)
  }

  function SessionKey(u: User): string
  {
    "synp:session:" + ConnKey(u)
  }

  function TaskKey(connId: string, msgId: string): string
  {
    connId + ":" + msgId
  }

  function CacheKey(bid: Uint64, msgId: string): string
  {
    Decimal(bid) + ":" + msgId
  }

  // ---------- parsing back ----------

  // The text before and after the first colon.
  function Cut(s: string): Option<(string, string)>
  {
    if s == "" then None
    else if s[0] == ':' then Some(("", s[1..]))
    else
      match Cut(s[1..])
      case None => None
      case Some((a, b)) => Some(([s[0]] + a, b))
  }

  lemma {:induction false} CutJoin(a: string, b: string)
    requires ColonFree(a)
    ensures Cut(a + ":" + b) == Some((a, b))
  {
    var s := a + ":" + b;
    if a == "" {
      assert s[1..] == b;
    } else {
      CutJoin(a[1..], b);
      assert s[1..] == a[1..] + ":" + b;
      assert [a[0]] + a[1..] == a;
    }
  }

  // A number followed by a colon and more text.
  function CutNumber(s: string): Option<(int, string)>
  {
    match Cut(s)
    case None => None
    case Some((a, b)) => Some((DecimalValue(a), b))
  }

  lemma CutNumberJoin(n: nat, rest: string)
    ensures CutNumber(Decimal(n) + ":" + rest) == Some((n, rest))
  {
    DecimalParsesBack(n);
    CutJoin(Decimal(n), rest);
  }

  function ParseConnKey(s: string): Option<(int, int)>
  {
    match CutNumber(s)
    case None => None
    case Some((bid, rest)) => Some((bid, DecimalValue(rest)))
  }

  function ParseConnID(s: string): Option<(int, int, string)>
  {
    match CutNumber(s)
    case None => None
    case Some((bid, rest)) =>
      match CutNumber(rest)
      case None => None
      case Some((uid, device)) => Some((bid, uid, device))
  }

  function ParseTaskKey(s: string): Option<(int, int, string, string)>
  {
    match ParseConnID(s)
    case None => None
    case Some((bid, uid, rest)) =>
      match Cut(rest)
      case None => None
      case Some((device, msgId)) => Some((bid, uid, device, msgId))
  }

  lemma ConnKeyParsesBack(u: User)
    ensures ParseConnKey(ConnKey(u)) == Some((u.bid, u.uid))
  {
    CutNumberJoin(u.bid, Decimal(u.uid));
    DecimalParsesBack(u.uid);
  }

  // ConnKey forgets the device and nothing else.
  lemma ConnKeyDeterminesUser(u: User, v: User)
    ensures ConnKey(u) == ConnKey(v) <==> u.bid == v.bid && u.uid == v.uid
  {
    ConnKeyParsesBack(u);
    ConnKeyParsesBack(v);
  }

  lemma ConnIDParsesBack(u: User)
    ensures ParseConnID(ConnID(u)) == Some((u.bid, u.uid, u.device))
  {
    CutNumberJoin(u.bid, Decimal(u.uid) + ":" + u.device);
    CutNumberJoin(u.uid, u.device);
  }

  // The connection id identifies the user and device, whatever the device string is.
  lemma ConnIDInjective(u: User, v: User)
    ensures ConnID(u) == ConnID(v) <==> u == v
  {
    ConnIDParsesBack(u);
    ConnIDParsesBack(v);
  }

  lemma TaskKeyPrefix(u: User, msgId: string)
    ensures ParseConnID(TaskKey(ConnID(u), msgId)) == Some((u.bid, u.uid, u.device + ":" + msgId))
  {
    var tail := u.device + ":" + msgId;
    assert TaskKey(ConnID(u), msgId) == Decimal(u.bid) + ":" + (Decimal(u.uid) + ":" + tail);
    CutNumberJoin(u.bid, Decimal(u.uid) + ":" + tail);
    CutNumberJoin(u.uid, tail);
  }

  // A task key parses back to the four parts it was printed from, for every
  // message id, also one with colons in it.
  lemma TaskKeyParsesBack(u: User, msgId: string)
    requires ColonFree(u.device)
    ensures ParseTaskKey(TaskKey(ConnID(u), msgId)) == Some((u.bid, u.uid, u.device, msgId))
  {
    TaskKeyPrefix(u, msgId);
    CutJoin(u.device, msgId);
  }

  lemma TaskKeyInjective(u: User, m: string, v: User, n: string)
    requires ColonFree(u.device) && ColonFree(v.device)
    ensures TaskKey(ConnID(u), m) == TaskKey(ConnID(v), n) <==> u == v && m == n
  {
    TaskKeyParsesBack(u, m);
    TaskKeyParsesBack(v, n);
  }

  // For arbitrary device strings the key is exactly as ambiguous as its tail.
  lemma TaskKeyCollision(u: User, m: string, v: User, n: string)
    ensures TaskKey(ConnID(u), m) == TaskKey(ConnID(v), n)
       <==> u.bid == v.bid && u.uid == v.uid && u.device + ":" + m == v.device + ":" + n
  {
    TaskKeyPrefix(u, m);
    TaskKeyPrefix(v, n);
    if u.bid == v.bid && u.uid == v.uid && u.device + ":" + m == v.device + ":" + n {
      var head := Decimal(u.bid) + ":" + (Decimal(u.uid) + ":");
      assert TaskKey(ConnID(u), m) == head + (u.device + ":" + m);
      assert TaskKey(ConnID(v), n) == head + (v.device + ":" + n);
    }
  }

  // A colon in the device would let two connections share a task key.
  lemma ColonInDeviceIsAmbiguous(bid: Uint64, uid: Uint64, a: string, b: string, m: string)
    ensures TaskKey(ConnID(User(bid, uid, a + ":" + b)), m) == TaskKey(ConnID(User(bid, uid, a)), b + ":" + m)
    ensures User(bid, uid, a + ":" + b) != User(bid, uid, a)
  {
    TaskKeyCollision(User(bid, uid, a + ":" + b), m, User(bid, uid, a), b + ":" + m);
    assert a + ":" + b + ":" + m == a + ":" + (b + ":" + m);
    assert |a + ":" + b| > |a|;
  }

  // The upgrader only ever hands out the four device constants.
  lemma DevicesAreColonFree(u: User)
    requires u.device in DEVICES
    ensures ColonFree(u.device)
  {
  }

  lemma CacheKeyParsesBack(b: Uint64, m: string)
    ensures CutNumber(CacheKey(b, m)) == Some((b, m))
  {
    CutNumberJoin(b, m);
  }

  // A session key is the connection key behind a fixed prefix.
  lemma SessionKeyParsesBack(u: User)
    ensures |SessionKey(u)| >= 13 && SessionKey(u)[..13] == "synp:session:"
    ensures ParseConnKey(SessionKey(u)[13..]) == Some((u.bid, u.uid))
  {
    assert SessionKey(u)[13..] == ConnKey(u);
    ConnKeyParsesBack(u);
  }

  lemma CacheKeyInjective(b: Uint64, m: string, c: Uint64, n: string)
    ensures CacheKey(b, m) == CacheKey(c, n) <==> b == c && m == n
  {
    CutNumberJoin(b, m);
    CutNumberJoin(c, n);
  }

  // Deduplication entries and sessions live in the same Redis database.
  lemma CacheKeyIsNoSessionKey(b: Uint64, m: string, u: User)
    ensures CacheKey(b, m) != SessionKey(u)
  {
    DecimalParsesBack(b);
    assert CacheKey(b, m)[0] in Decimal(b);
    assert SessionKey(u)[0] == 's';
  }
}
