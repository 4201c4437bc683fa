/** Who owns each client socket: an idle bucket, one borrower, or nobody because it is closed. */
module ConnectionPool {
  import opened Bytes
  import opened Codec
  import opened Framing
  import opened ClientIo

  type Key = string
  type SocketId = nat
  type Pool = map<Key, seq<SocketId>>

  const SEND_FAILED: RpcError := RpcError(NETWORK_ERROR, Ascii("send failed"))
  const MAX_IDLE: nat := 8

  predicate Holds(pool: Pool, key: Key, s: SocketId)
  {
    key in pool && s in pool[key]
  }

  ghost predicate NoRepeats(b: seq<SocketId>)
  {
    forall i, j :: 0 <= i < j < |b| ==> b[i] != b[j]
  }

  /** Buckets hold one to eight sockets, and no socket stands in two places. */
  ghost predicate PoolOk(pool: Pool)
  {
    && (forall k :: k in pool ==> 1 <= |pool[k]| <= MAX_IDLE && NoRepeats(pool[k]))
    && (forall k, k', s :: Holds(pool, k, s) && Holds(pool, k', s) ==> k == k')
  }

  /** The reuse half of `BorrowConnection`: the newest idle socket, and the bucket goes when it is empty. */
  function PopIdle(pool: Pool, key: Key): (r: Option<(SocketId, Pool)>)
  {
    if key in pool && pool[key] != [] then
      var b := pool[key];
      var rest := b[..|b| - 1];
      Some((b[|b| - 1], if rest == [] then pool - {key} else pool[key := rest]))
    else None
  }

  /** `ReturnConnection`: None when the bucket is full and the socket must be closed instead. */
  function PushIdle(pool: Pool, key: Key, s: SocketId): (r: Option<Pool>)
  {
    var b := if key in pool then pool[key] else [];
    if |b| >= MAX_IDLE then None else Some(pool[key := b + [s]])
  }

  /** The idle sockets of an endpoint, oldest first. */
  function IdleAt(pool: Pool, key: Key): (b: seq<SocketId>)
  {
    if key in pool then pool[key] else []
  }

  /** The pool with other idle sockets at an endpoint; an endpoint without any has no bucket. */
  function WithIdle(pool: Pool, key: Key, b: seq<SocketId>): (pool': Pool)
  {
    if b == [] then pool - {key} else pool[key := b]
  }

  lemma PopIdleNewest(pool: Pool, key: Key)
    requires PopIdle(pool, key).Some?
    ensures var (s, pool') := PopIdle(pool, key).value;
            && key in pool && pool[key] == (if key in pool' then pool'[key] else []) + [s]
            && pool' - {key} == pool - {key} && (key in pool' ==> pool'[key] != [])
  {
    var b := pool[key];
    assert b == b[..|b| - 1] + [b[|b| - 1]];
  }

  /** Popping takes the newest idle socket of the key and nothing else, and never leaves an empty bucket. */
  lemma PopIdleOk(pool: Pool, key: Key)
    requires PoolOk(pool) && PopIdle(pool, key).Some?
    ensures var (s, pool') := PopIdle(pool, key).value;
            && PoolOk(pool') && Holds(pool, key, s)
            && pool[key] == (if key in pool' then pool'[key] else []) + [s]
            && forall k, t :: Holds(pool', k, t) <==> Holds(pool, k, t) && t != s
  {
    PopIdleNewest(pool, key);
    var (s, pool') := PopIdle(pool, key).value;
    hide PopIdle;
    var b, rest := pool[key], if key in pool' then pool'[key] else [];
    assert b[|rest|] == s && Holds(pool, key, s);
    assert forall i :: 0 <= i < |rest| ==> rest[i] == b[i];
    assert forall k :: k != key ==>
                         (k in pool' <==> k in pool - {key}) && (k in pool' ==> pool'[k] == (pool - {key})[k]);
    forall k, t
      ensures Holds(pool', k, t) <==> Holds(pool, k, t) && t != s
    {
      assert k != key ==> !Holds(pool, k, s);
      if k == key { assert t in b <==> t in rest || t == s; }
    }
  }

  lemma PushIdleOk(pool: Pool, key: Key, s: SocketId)
    requires PoolOk(pool) && PushIdle(pool, key, s).Some?
    requires forall k :: !Holds(pool, k, s)
    ensures var pool' := PushIdle(pool, key, s).value;
            && PoolOk(pool')
            && forall k, t :: Holds(pool', k, t) <==> Holds(pool, k, t) || (k == key && t == s)
  {
    var b := if key in pool then pool[key] else [];
    var pool' := PushIdle(pool, key, s).value;
    assert s !in b by { assert !Holds(pool, key, s); }
    assert NoRepeats(b + [s]);
    forall k, t
      ensures Holds(pool', k, t) <==> Holds(pool, k, t) || (k == key && t == s)
    {
    }
  }

  // ---------------------------------------------------------------- ownership

  /** A socket: the endpoint it was connected to and how often it was closed. */
  datatype SocketInfo = SocketInfo(home: Key, closes: nat)

  datatype Ownership = Ownership(
    pool: Pool, sockets: map<SocketId, SocketInfo>, borrowed: set<SocketId>, next: SocketId)

  const NO_SOCKETS: Ownership := Ownership(map[], map[], {}, 0)

  /** Every open socket is idle under its own endpoint's key or held by one borrower, never both; a closed one was
      closed once. */
  ghost predicate Owned(o: Ownership)
  {
    && PoolOk(o.pool)
    && (forall k, s :: Holds(o.pool, k, s) ==>
                         s in o.sockets && o.sockets[s] == SocketInfo(k, 0) && s !in o.borrowed)
    && (forall s :: s in o.borrowed ==> s in o.sockets && o.sockets[s].closes == 0)
    && (forall s :: s in o.sockets ==>
                      && s < o.next && o.sockets[s].closes <= 1
                      && (o.sockets[s].closes == 0 ==> s in o.borrowed || Holds(o.pool, o.sockets[s].home, s)))
  }

  function Connect(o: Ownership, key: Key): (r: (Ownership, SocketId))
  {
    (o.(sockets := o.sockets[o.next := SocketInfo(key, 0)], borrowed := o.borrowed + {o.next}, next := o.next + 1),
     o.next)
  }

  function Take(o: Ownership, key: Key): (r: Option<(Ownership, SocketId)>)
  {
    match PopIdle(o.pool, key)
    case None => None
    case Some((s, pool)) => Some((o.(pool := pool, borrowed := o.borrowed + {s}), s))
  }

  function Close(o: Ownership, s: SocketId): (o': Ownership)
  {
    if s !in o.sockets then o
    else o.(sockets := o.sockets[s := o.sockets[s].(closes := o.sockets[s].closes + 1)], borrowed := o.borrowed - {s})
  }

  function GiveBack(o: Ownership, key: Key, s: SocketId): (o': Ownership)
  {
    match PushIdle(o.pool, key, s)
    case None => Close(o, s)
    case Some(pool) => o.(pool := pool, borrowed := o.borrowed - {s})
  }

  /** `BorrowConnection`: an idle socket if there is one and it can be configured, else that one is closed and a new
      one connected. */
  function Borrowing(o: Ownership, key: Key, usable: bool, connects: bool): (r: (Ownership, Option<SocketId>))
  {
    var taken := Take(o, key);
    if taken.Some? && usable then (taken.value.0, Some(taken.value.1))
    else
      var o' := if taken.Some? then Close(taken.value.0, taken.value.1) else o;
      if connects then (Connect(o', key).0, Some(Connect(o', key).1)) else (o', None)
  }

  /** What the client gets for a frame on a socket that offers `stream` and `io`. */
  function Exchanged(frame: Frame, stream: seq<Byte>, io: seq<Io>): (r: Result<Frame>)
  {
    if Send(false, io, |frame|).ok then ReceiveFrame(false, Send(false, io, |frame|).rest, stream).result
    else Err(SEND_FAILED)
  }

  /** From `before` to `after`, exactly these sockets were closed, each once, and exactly these newly connected to
      `key`. */
  predicate SocketsAre(before: map<SocketId, SocketInfo>, after: map<SocketId, SocketInfo>, closed: set<SocketId>,
                       added: set<SocketId>, key: Key)
  {
    && (forall x :: x in added ==> x !in before)
    && after.Keys == before.Keys + added
    && (forall x :: x in before ==> after[x] == if x in closed then Bumped(before[x]) else before[x])
    && (forall x :: x in added ==> after[x] == SocketInfo(key, if x in closed then 1 else 0))
  }

  /** The newest idle socket is borrowed exactly when it is usable, and closed otherwise; then, or when there is none, a
      new one is connected. */
  predicate RightBorrow(o: Ownership, key: Key, usable: bool, connects: bool, o': Ownership, r: Option<SocketId>)
  {
    var b := IdleAt(o.pool, key);
    if b != [] && usable then
      && r == Some(b[|b| - 1]) && o'.sockets == o.sockets && o'.pool == WithIdle(o.pool, key, b[..|b| - 1])
    else
      && r == (if connects then Some(o.next) else None)
      && o'.pool == (if b == [] then o.pool else WithIdle(o.pool, key, b[..|b| - 1]))
      && SocketsAre(o.sockets, o'.sockets, if b == [] then {} else {b[|b| - 1]}, if connects then {o.next} else {}, key)
  }

  lemma BorrowingIs(o: Ownership, key: Key, usable: bool, connects: bool)
    requires Owned(o)
    ensures var (o', r) := Borrowing(o, key, usable, connects); RightBorrow(o, key, usable, connects, o', r)
  {
    assert o.next !in o.sockets;
    var b := IdleAt(o.pool, key);
    if b != [] { assert Holds(o.pool, key, b[|b| - 1]); }
  }

  lemma BorrowingFails(o: Ownership, key: Key, usable: bool, connects: bool)
    ensures Borrowing(o, key, usable, connects).1 == None <==> !(IdleAt(o.pool, key) != [] && usable) && !connects
    ensures (IdleAt(o.pool, key) != [] && usable) || connects ==>
              Borrowing(o, key, usable, connects) == Borrowing(o, key, usable, true)
  {
  }

  /** After a round trip: a reused socket is back where it was after a success, and closed after a failure; a new one is
      pooled while there is room, and closed otherwise. */
  predicate RightReturn(o: Ownership, key: Key, usable: bool, ok: bool, o': Ownership)
  {
    var b := IdleAt(o.pool, key);
    var rest := if b == [] then [] else b[..|b| - 1];
    if b != [] && usable then
      if ok then o'.pool == o.pool && o'.sockets == o.sockets
      else
        && o'.pool == WithIdle(o.pool, key, rest)
        && SocketsAre(o.sockets, o'.sockets, {b[|b| - 1]}, {}, key)
    else
      var closed: set<SocketId> := if b == [] then {} else {b[|b| - 1]};
      if ok && |rest| < MAX_IDLE then
        && o'.pool == WithIdle(o.pool, key, rest + [o.next])
        && SocketsAre(o.sockets, o'.sockets, closed, {o.next}, key)
      else
        && o'.pool == WithIdle(o.pool, key, rest)
        && SocketsAre(o.sockets, o'.sockets, closed + {o.next}, {o.next}, key)
  }

  lemma ReturnIs(o: Ownership, key: Key, usable: bool, ok: bool)
    requires Owned(o)
    ensures var (o1, r) := Borrowing(o, key, usable, true);
            r.Some? && RightReturn(o, key, usable, ok, if ok then GiveBack(o1, key, r.value) else Close(o1, r.value))
  {
    BorrowingIs(o, key, usable, true);
    BorrowedFew(o, key);
    var (o1, r) := Borrowing(o, key, usable, true);
    hide Owned, Borrowing, GiveBack, Close;
    var s := r.value;
    var b := IdleAt(o.pool, key);
    var rest := if b == [] then [] else b[..|b| - 1];
    IdleAgain(o.pool, key, rest, s);
    GiveBackIs(o1, key, s);
    CloseIs(o1, key, s);
    var reused := b != [] && usable;
    var closed: set<SocketId> := if b == [] || reused then {} else {b[|b| - 1]};
    var added: set<SocketId> := if reused then {} else {s};
    assert SocketsAre(o.sockets, o1.sockets, closed, added, key);
    ClosedAfter(o.sockets, o1.sockets, Close(o1, s).sockets, closed, added, key, s);
    if reused { assert rest + [s] == b; }
  }

  lemma BorrowedFew(o: Ownership, key: Key)
    requires Owned(o)
    ensures |IdleAt(o.pool, key)| <= MAX_IDLE && o.next !in o.sockets && (key in o.pool ==> o.pool[key] != [])
    ensures forall s :: s in IdleAt(o.pool, key) ==> s in o.sockets && s != o.next
  {
    forall s | s in IdleAt(o.pool, key)
      ensures s in o.sockets
    {
      assert Holds(o.pool, key, s);
    }
  }

  lemma IdleAgain(pool: Pool, key: Key, b: seq<SocketId>, s: SocketId)
    requires key in pool ==> pool[key] != []
    ensures IdleAt(WithIdle(pool, key, b), key) == b
    ensures WithIdle(WithIdle(pool, key, b), key, b + [s]) == WithIdle(pool, key, b + [s])
    ensures WithIdle(pool, key, IdleAt(pool, key)) == pool
  {
    var p := WithIdle(pool, key, b);
    if b == [] { assert (pool - {key})[key := [s]] == pool[key := [s]]; }
  }

  lemma ClosedAfter(a: map<SocketId, SocketInfo>, b: map<SocketId, SocketInfo>, c: map<SocketId, SocketInfo>,
                    closed: set<SocketId>, added: set<SocketId>, key: Key, s: SocketId)
    requires SocketsAre(a, b, closed, added, key) && SocketsAre(b, c, {s}, {}, key) && s !in closed && closed !! added
    ensures SocketsAre(a, c, closed + {s}, added, key)
  {
  }

  lemma CloseIs(o: Ownership, key: Key, s: SocketId)
    requires s in o.sockets
    ensures Close(o, s).pool == o.pool && SocketsAre(o.sockets, Close(o, s).sockets, {s}, {}, key)
  {
  }

  /** A socket given back is pooled exactly when fewer than eight are idle at its endpoint. */
  lemma GiveBackIs(o: Ownership, key: Key, s: SocketId)
    requires s in o.sockets
    ensures var o' := GiveBack(o, key, s);
            var b := IdleAt(o.pool, key);
            if |b| < MAX_IDLE then o'.pool == WithIdle(o.pool, key, b + [s]) && o'.sockets == o.sockets
            else o'.pool == o.pool && SocketsAre(o.sockets, o'.sockets, {s}, {}, key)
  {
  }

  predicate IsIdle(pool: Pool, s: SocketId)
  {
    exists k :: k in pool && s in pool[k]
  }

  /** Destruction: the pool is emptied and everything in it closed. */
  function Destroy(o: Ownership): (o': Ownership)
  {
    o.(pool := map[],
       sockets := map s | s in o.sockets :: if IsIdle(o.pool, s) then o.sockets[s].(closes := o.sockets[s].closes + 1)
                                            else o.sockets[s])
  }

  lemma ConnectOwned(o: Ownership, key: Key)
    requires Owned(o)
    ensures var (o', s) := Connect(o, key);
            && Owned(o') && s !in o.sockets && s in o'.borrowed && o'.sockets[s] == SocketInfo(key, 0)
  {
    var (o', s) := Connect(o, key);
    assert forall k, t :: Holds(o'.pool, k, t) ==> t != s;
  }

  lemma TakeOwned(o: Ownership, key: Key)
    requires Owned(o) && Take(o, key).Some?
    ensures var (o', s) := Take(o, key).value;
            && Owned(o') && Holds(o.pool, key, s) && s !in o.borrowed && s in o'.borrowed
            && s in o.sockets && o.sockets[s] == SocketInfo(key, 0) && o'.sockets == o.sockets
            && forall k, t :: Holds(o'.pool, k, t) <==> Holds(o.pool, k, t) && t != s
  {
    PopIdleOk(o.pool, key);
  }

  lemma CloseOwned(o: Ownership, s: SocketId)
    requires Owned(o) && s in o.borrowed
    ensures var o' := Close(o, s);
            Owned(o') && o'.sockets[s].closes == 1 && o'.pool == o.pool && s !in o'.borrowed
  {
    assert forall k :: !Holds(o.pool, k, s);
  }

  lemma GiveBackOwned(o: Ownership, key: Key, s: SocketId)
    requires Owned(o) && s in o.borrowed && o.sockets[s].home == key
    ensures var o' := GiveBack(o, key, s);
            && Owned(o') && s !in o'.borrowed && o'.sockets.Keys == o.sockets.Keys
            && (forall k, t :: Holds(o'.pool, k, t) ==> Holds(o.pool, k, t) || (k == key && t == s))
            && (forall t :: t in o.sockets && t != s ==> o'.sockets[t] == o.sockets[t])
            && o'.sockets[s].home == key
  {
    assert forall k :: !Holds(o.pool, k, s);
    if PushIdle(o.pool, key, s).Some? {
      PushIdleOk(o.pool, key, s);
      var o' := GiveBack(o, key, s);
      assert Holds(o'.pool, key, s);
      assert o.sockets[s] == SocketInfo(key, 0);
    } else {
      CloseOwned(o, s);
    }
  }

  lemma DestroyOwned(o: Ownership)
    requires Owned(o)
    ensures var o' := Destroy(o);
            && Owned(o') && o'.pool == map[] && o'.borrowed == o.borrowed && o'.sockets.Keys == o.sockets.Keys
            && forall s :: s in o.sockets ==> o'.sockets[s].home == o.sockets[s].home
                                              && (o'.sockets[s].closes == 0 <==> s in o.borrowed)
  {
    var o' := Destroy(o);
    forall s | s in o.sockets
      ensures o'.sockets[s].home == o.sockets[s].home
      ensures o'.sockets[s].closes <= 1 && (o'.sockets[s].closes == 0 <==> s in o.borrowed)
    {
      if IsIdle(o.pool, s) {
        var k :| k in o.pool && s in o.pool[k];
        assert Holds(o.pool, k, s);
      }
    }
    assert forall k, s :: !Holds(o'.pool, k, s);
  }

  // ---------------------------------------------------------------- the transport object

  class TcpClientTransport {
    var idlePool: Pool
    // Abstract socket identities, handed out by `socket`.
    var nextSocket: SocketId
    ghost var sockets: map<SocketId, SocketInfo>
    ghost var borrowed: set<SocketId>

    ghost function State(): (o: Ownership)
      reads this
    {
      Ownership(idlePool, sockets, borrowed, nextSocket)
    }

    constructor ()
      ensures State() == NO_SOCKETS && Owned(State())
    {
      idlePool, nextSocket := map[], 0;
      sockets, borrowed := map[], {};
    }

    method CloseSocket(s: SocketId)
      requires Owned(State()) && s in borrowed
      modifies this`sockets, this`borrowed
      ensures Owned(State()) && State() == Close(old(State()), s)
    {
      CloseOwned(State(), s);
      sockets := sockets[s := sockets[s].(closes := sockets[s].closes + 1)];
      borrowed := borrowed - {s};
    }

    method ConnectTo(key: Key, connects: bool) returns (r: Option<SocketId>)
      requires Owned(State())
      modifies this
      ensures Owned(State())
      ensures connects ==> r.Some? && (State(), r.value) == Connect(old(State()), key)
      ensures !connects ==> r == None && State() == old(State())
    {
      if !connects { return None; }
      ConnectOwned(State(), key);
      var s := nextSocket;
      nextSocket := nextSocket + 1;
      sockets := sockets[s := SocketInfo(key, 0)];
      borrowed := borrowed + {s};
      return Some(s);
    }

    /** The newest idle socket is reused exactly when it can be made blocking and configured, and otherwise closed;
        then, or when there is none, a new one is connected. The flags say what the system calls do. */
    method BorrowConnection(key: Key, blocking: bool, configured: bool, connects: bool) returns (r: Option<SocketId>)
      requires Owned(State())
      modifies this
      ensures Owned(State()) && (State(), r) == Borrowing(old(State()), key, blocking && configured, connects)
      ensures r.Some? ==> r.value !in old(borrowed) && r.value in sockets && sockets[r.value].home == key
                          && borrowed == old(borrowed) + {r.value}
      ensures r == None ==> borrowed == old(borrowed)
      ensures RightBorrow(old(State()), key, blocking && configured, connects, State(), r)
    {
      BorrowingIs(State(), key, blocking && configured, connects);
      hide Owned, RightBorrow;
      if key in idlePool && idlePool[key] != [] {
        TakeOwned(State(), key);
        ghost var taken := Take(State(), key).value;
        var bucket := idlePool[key];
        var s := bucket[|bucket| - 1];
        bucket := bucket[..|bucket| - 1];
        idlePool := if bucket == [] then idlePool - {key} else idlePool[key := bucket];
        borrowed := borrowed + {s};
        assert State() == taken.0;
        if blocking && configured { return Some(s); }
        ClosedHome(State(), s);
        CloseSocket(s);
        assert borrowed == old(borrowed);
      }
      ConnectFresh(State(), key);
      r := ConnectTo(key, connects);
    }

    method ReturnConnection(key: Key, s: SocketId)
      requires Owned(State()) && s in borrowed && sockets[s].home == key
      modifies this
      ensures Owned(State()) && State() == GiveBack(old(State()), key, s)
      ensures borrowed == old(borrowed) - {s}
      ensures |IdleAt(old(idlePool), key)| < MAX_IDLE ==>
                sockets == old(sockets) && idlePool == WithIdle(old(idlePool), key, IdleAt(old(idlePool), key) + [s])
      ensures |IdleAt(old(idlePool), key)| >= MAX_IDLE ==>
                idlePool == old(idlePool) && SocketsAre(old(sockets), sockets, {s}, {}, key)
    {
      GiveBackOwned(State(), key, s);
      hide Owned;
      var bucket := if key in idlePool then idlePool[key] else [];
      if |bucket| >= MAX_IDLE {
        assert GiveBack(State(), key, s) == Close(State(), s);
        CloseSocket(s);
        return;
      }
      idlePool := idlePool[key := bucket + [s]];
      borrowed := borrowed - {s};
    }

    /** Borrow, send, receive, return. A socket goes back to the pool only after a whole round trip; whatever fails,
        it is closed. `stream` and `io` are what the socket that gets used has to offer. */
    method RoundTrip(key: Key, frame: Frame, blocking: bool, configured: bool, connects: bool,
                     stream: seq<Byte>, io: seq<Io>) returns (result: Result<Frame>)
      requires Owned(State())
      modifies this
      ensures Owned(State()) && borrowed == old(borrowed)
      ensures (IdleAt(old(idlePool), key) != [] && blocking && configured) || connects ==>
                && result == Exchanged(frame, stream, io)
                && RightReturn(old(State()), key, blocking && configured, result.Ok?, State())
      ensures !(IdleAt(old(idlePool), key) != [] && blocking && configured) && !connects ==>
                && result == Err(NETWORK)
                && RightBorrow(old(State()), key, blocking && configured, false, State(), None)
    {
      ghost var usable := blocking && configured;
      BorrowingIs(State(), key, usable, connects);
      ReturnIs(State(), key, usable, true);
      ReturnIs(State(), key, usable, false);
      BorrowingFails(State(), key, usable, connects);
      hide Owned, Exchanged, Borrowing, GiveBack, Close, RightBorrow, RightReturn, IdleAt;
      var connection := BorrowConnection(key, blocking, configured, connects);
      if connection == None { return Err(NETWORK); }
      ClosedBorrowed(old(borrowed), connection.value);
      result := UseConnection(key, connection.value, frame, stream, io);
    }

    /** The rest of `RoundTrip`, once it has a socket. */
    method UseConnection(key: Key, s: SocketId, frame: Frame, stream: seq<Byte>, io: seq<Io>)
      returns (result: Result<Frame>)
      requires Owned(State()) && s in borrowed && s in sockets && sockets[s].home == key
      modifies this
      ensures Owned(State()) && borrowed == old(borrowed) - {s}
      ensures result == Exchanged(frame, stream, io)
      ensures State() == (if result.Ok? then GiveBack(old(State()), key, s) else Close(old(State()), s))
    {
      hide Owned, ReceiveFrame, Send, GiveBack, Close;
      var socket := new Socket(stream, io);
      var sent := socket.SendAll(false, frame);
      CloseBorrowed(State(), s);
      if !sent {
        CloseSocket(s);
        return Err(SEND_FAILED);
      }
      result := socket.ReceiveOne(false);
      if result.Err? {
        CloseSocket(s);
        return;
      }
      ReturnConnection(key, s);
    }

    /** Closes the sockets of one bucket, each once. */
    method CloseBucket(bucket: seq<SocketId>)
      requires Owned(State()) && NoRepeats(bucket) && forall s :: s in bucket ==> s in borrowed
      modifies this`sockets, this`borrowed
      ensures Owned(State()) && borrowed == old(borrowed) - (set s | s in bucket)
      ensures sockets.Keys == old(sockets).Keys
      ensures forall s :: s in sockets ==>
                            sockets[s] == (if s in bucket then Bumped(old(sockets)[s]) else old(sockets)[s])
    {
      hide Owned;
      for i := 0 to |bucket|
        invariant Owned(State()) && sockets.Keys == old(sockets).Keys
        invariant forall s :: s in borrowed <==> s in old(borrowed) && s !in bucket[..i]
        invariant forall s :: s in sockets ==>
                                sockets[s] == (if s in bucket[..i] then Bumped(old(sockets)[s]) else old(sockets)[s])
      {
        assert bucket[..i + 1] == bucket[..i] + [bucket[i]];
        assert bucket[i] !in bucket[..i];
        BorrowedKnown(State());
        CloseSocket(bucket[i]);
      }
      assert bucket[..|bucket|] == bucket;
    }

    /** The destructor: swaps the pool out, then closes every socket of every bucket. The sockets swapped out are the
        destructor's own until they are closed. */
    method CloseAll()
      requires Owned(State())
      modifies this
      ensures Owned(State()) && State() == Destroy(old(State()))
    {
      SwapOwned(State());
      ghost var start := State();
      var pending := idlePool;
      idlePool := map[];
      borrowed := borrowed + Idle(start);
      hide Owned;
      var keys := pending.Keys;
      while keys != {}
        invariant keys <= pending.Keys && idlePool == map[] && nextSocket == start.next
        invariant Owned(State()) && sockets.Keys == start.sockets.Keys
        invariant forall s :: s in borrowed <==> s in start.borrowed || HeldUnder(pending, keys, s)
        invariant forall s :: s in sockets ==>
                    sockets[s] == (if IsIdle(pending, s) && !HeldUnder(pending, keys, s) then Bumped(start.sockets[s])
                                   else start.sockets[s])
        decreases keys
      {
        var k :| k in keys;
        BucketOf(start, keys, k);
        CloseBucket(pending[k]);
        keys := keys - {k};
      }
      DestroyedIs(start, State());
    }
  }

  function Bumped(i: SocketInfo): (r: SocketInfo)
  {
    i.(closes := i.closes + 1)
  }

  ghost function Idle(o: Ownership): (r: set<SocketId>)
  {
    set s | s in o.sockets && IsIdle(o.pool, s)
  }

  /** `s` stands in a bucket of one of the keys. */
  predicate HeldUnder(pool: Pool, keys: set<Key>, s: SocketId)
  {
    exists k :: k in keys && Holds(pool, k, s)
  }

  /** Idle sockets may change hands to a single owner. */
  lemma SwapOwned(o: Ownership)
    requires Owned(o)
    ensures Owned(o.(pool := map[], borrowed := o.borrowed + Idle(o)))
    ensures forall s :: s in Idle(o) <==> HeldUnder(o.pool, o.pool.Keys, s)
  {
    var o' := o.(pool := map[], borrowed := o.borrowed + Idle(o));
    assert forall k, s :: !Holds(o'.pool, k, s);
    forall s
      ensures s in Idle(o) <==> HeldUnder(o.pool, o.pool.Keys, s)
    {
      if IsIdle(o.pool, s) {
        var k :| k in o.pool && s in o.pool[k];
        assert Holds(o.pool, k, s);
      }
    }
    forall s | s in o.sockets && o.sockets[s].closes == 0
      ensures s in o'.borrowed
    {
      if Holds(o.pool, o.sockets[s].home, s) { assert IsIdle(o.pool, s); }
    }
    forall s | s in Idle(o)
      ensures o.sockets[s].closes == 0
    {
      var k :| k in o.pool && s in o.pool[k];
      assert Holds(o.pool, k, s);
    }
  }

  lemma BucketOf(o: Ownership, keys: set<Key>, k: Key)
    requires Owned(o) && keys <= o.pool.Keys && k in keys
    ensures NoRepeats(o.pool[k]) && forall s :: s in o.pool[k] ==> HeldUnder(o.pool, keys, s) && s !in o.borrowed
    ensures forall s :: HeldUnder(o.pool, keys - {k}, s) <==> HeldUnder(o.pool, keys, s) && s !in o.pool[k]
    ensures forall s :: s in o.pool[k] ==> IsIdle(o.pool, s)
  {
    forall s | s in o.pool[k]
      ensures HeldUnder(o.pool, keys, s) && s !in o.borrowed
    {
      assert Holds(o.pool, k, s);
    }
    forall s
      ensures HeldUnder(o.pool, keys - {k}, s) <==> HeldUnder(o.pool, keys, s) && s !in o.pool[k]
    {
      if s in o.pool[k] { assert Holds(o.pool, k, s); }
      if HeldUnder(o.pool, keys, s) && s !in o.pool[k] {
        var j :| j in keys && Holds(o.pool, j, s);
        assert j in keys - {k};
      }
    }
  }

  lemma DestroyedIs(o: Ownership, o': Ownership)
    requires o'.pool == map[] && o'.next == o.next && o'.sockets.Keys == o.sockets.Keys
    requires forall s :: s in o'.borrowed <==> s in o.borrowed || HeldUnder(o.pool, {}, s)
    requires forall s :: s in o'.sockets ==>
               o'.sockets[s] == (if IsIdle(o.pool, s) && !HeldUnder(o.pool, {}, s) then Bumped(o.sockets[s])
                                 else o.sockets[s])
    ensures o' == Destroy(o)
  {
    assert o'.borrowed == o.borrowed;
    assert o'.sockets == Destroy(o).sockets;
  }

  lemma CloseBorrowed(o: Ownership, s: SocketId)
    requires s in o.sockets
    ensures Close(o, s).borrowed == o.borrowed - {s}
  {
  }

  lemma ClosedHome(o: Ownership, s: SocketId)
    requires Owned(o) && s in o.borrowed
    ensures s in o.sockets
  {
  }

  lemma BorrowedKnown(o: Ownership)
    requires Owned(o)
    ensures forall s :: s in o.borrowed ==> s in o.sockets
  {
  }

  lemma ClosedBorrowed(b: set<SocketId>, s: SocketId)
    requires s !in b
    ensures b + {s} - {s} == b
  {
  }

  lemma ConnectFresh(o: Ownership, key: Key)
    requires Owned(o)
    ensures o.next !in o.borrowed
  {
  }
}
