/** The message pool: message objects move between handles and per-type buckets. Objects and handles are named by
    numbers; an object that nothing owns any more is deleted. */
module MessagePool {
  import opened Bytes

  type MessageId = nat
  type HandleId = nat

  /** A message of a full type name; empty contents mean a cleared message. */
  datatype Message = Message(kind: string, contents: seq<Byte>)

  /** A `PooledMessage`; a default-constructed or moved-from one is `EMPTY`. */
  datatype Handle = Handle(pooled: bool, key: string, message: Option<MessageId>)

  const EMPTY: Handle := Handle(false, "", None)

  datatype State = State(
    limit: nat, next: MessageId, objects: map<MessageId, Message>, buckets: map<string, seq<MessageId>>,
    handles: map<HandleId, Handle>)

  function Initial(limit: nat): (s: State)
  {
    State(limit, 0, map[], map[], map[])
  }

  function Bucket(s: State, key: string): (b: seq<MessageId>)
  {
    if key in s.buckets then s.buckets[key] else []
  }

  // ---------------------------------------------------------------- moves of one message

  /** The cached message that `Acquire` will hand out, or the one it is about to create. */
  function TakenId(s: State, key: string): (id: MessageId)
  {
    var b := Bucket(s, key);
    if b == [] then s.next else b[|b| - 1]
  }

  /** A cleared or new message leaves the pool. */
  function Take(s: State, key: string): (s': State)
  {
    var b := Bucket(s, key);
    if b == [] then
      s.(next := s.next + 1, objects := s.objects[s.next := Message(key, [])], buckets := s.buckets[key := []])
    else if b[|b| - 1] in s.objects then
      s.(objects := s.objects[b[|b| - 1] := s.objects[b[|b| - 1]].(contents := [])],
         buckets := s.buckets[key := b[..|b| - 1]])
    else s
  }

  /** A message enters a handle. */
  function Attach(s: State, h: HandleId, key: string, id: MessageId): (s': State)
  {
    s.(handles := s.handles[h := Handle(true, key, Some(id))])
  }

  function Blank(s: State, h: HandleId): (s': State)
  {
    s.(handles := s.handles[h := EMPTY])
  }

  /** A message goes back to its bucket, cleared, or is deleted when the bucket is full. */
  function Recycle(s: State, key: string, id: MessageId): (s': State)
    requires id in s.objects
  {
    var b := Bucket(s, key);
    if |b| >= s.limit then s.(objects := s.objects - {id}, buckets := s.buckets[key := b])
    else s.(objects := s.objects[id := s.objects[id].(contents := [])], buckets := s.buckets[key := b + [id]])
  }

  /** `PooledMessage::Release`. */
  function Release(s: State, h: HandleId): (s': State)
    requires h in s.handles
  {
    var handle := s.handles[h];
    if handle.pooled && handle.message.Some? && handle.message.value in s.objects then
      Recycle(Blank(s, h), handle.key, handle.message.value)
    else s
  }

  /** Move construction, and the second half of move assignment. */
  function Transfer(s: State, to: HandleId, from: HandleId): (s': State)
    requires from in s.handles
  {
    s.(handles := s.handles[from := EMPTY][to := s.handles[from]])
  }

  // ---------------------------------------------------------------- steps

  datatype Step =
    | Default(h: HandleId)
    | Acquire(h: HandleId, kind: string)
    | Write(h: HandleId, contents: seq<Byte>)
    | MoveConstruct(h: HandleId, from: HandleId)
    | MoveAssign(h: HandleId, from: HandleId)
    | Destroy(h: HandleId)

  function Apply(s: State, step: Step): (r: Option<State>)
  {
    match step
    case Default(h) => if h in s.handles then None else Some(Blank(s, h))
    case Acquire(h, kind) =>
      if h in s.handles then None else Some(Attach(Take(s, kind), h, kind, TakenId(s, kind)))
    case Write(h, contents) =>
      if h in s.handles && s.handles[h].message.Some? && s.handles[h].message.value in s.objects then
        var id := s.handles[h].message.value;
        Some(s.(objects := s.objects[id := s.objects[id].(contents := contents)]))
      else None
    case MoveConstruct(h, from) => if h in s.handles || from !in s.handles then None else Some(Transfer(s, h, from))
    case MoveAssign(h, from) =>
      if h !in s.handles || from !in s.handles then None
      else if h == from then Some(s)
      else Some(Transfer(Release(s, h), h, from))
    case Destroy(h) =>
      if h in s.handles then var released := Release(s, h); Some(released.(handles := released.handles - {h})) else None
  }

  function Run(s: State, steps: seq<Step>): (r: Option<State>)
  {
    if steps == [] then Some(s)
    else
      match Run(s, steps[..|steps| - 1])
      case None => None
      case Some(before) => Apply(before, steps[|steps| - 1])
  }

  // ---------------------------------------------------------------- invariant

  predicate Distinct(b: seq<MessageId>)
  {
    forall i, j :: 0 <= i < j < |b| ==> b[i] != b[j]
  }

  predicate BucketOk(s: State, key: string)
  {
    && Distinct(Bucket(s, key))
    && |Bucket(s, key)| <= s.limit
    && forall id :: id in Bucket(s, key) ==> id in s.objects && s.objects[id] == Message(key, [])
  }

  predicate HandleOk(s: State, h: HandleId)
    requires h in s.handles
  {
    var handle := s.handles[h];
    && (if handle.pooled then handle.message.Some? else handle == EMPTY)
    && (handle.pooled ==>
          && handle.message.value in s.objects
          && s.objects[handle.message.value].kind == handle.key
          && handle.message.value !in Bucket(s, handle.key))
  }

  ghost predicate HeldBy(s: State, h: HandleId, id: MessageId)
  {
    h in s.handles && s.handles[h].message == Some(id)
  }

  ghost predicate InHandle(s: State, id: MessageId)
  {
    exists h :: HeldBy(s, h, id)
  }

  /** Every object is held by exactly one handle or bucket slot, except the loose one, which is in transit. */
  ghost predicate Inv(s: State, loose: Option<MessageId>)
  {
    && (forall id :: id in s.objects ==> id < s.next)
    && (forall k :: k in s.buckets ==> BucketOk(s, k))
    && (forall h :: h in s.handles ==> HandleOk(s, h))
    && (forall g, h, id :: HeldBy(s, g, id) && HeldBy(s, h, id) ==> g == h)
    && (forall id :: id in s.objects ==>
                       loose == Some(id) || InHandle(s, id) || id in Bucket(s, s.objects[id].kind))
    && (loose.Some? ==>
          && loose.value in s.objects && !InHandle(s, loose.value)
          && loose.value !in Bucket(s, s.objects[loose.value].kind))
  }

  lemma BlankInv(s: State, h: HandleId)
    requires Inv(s, None) && h in s.handles
    ensures Inv(Blank(s, h), s.handles[h].message)
  {
    var s' := Blank(s, h);
    forall g | g in s'.handles ensures HandleOk(s', g) { assert g in s.handles; }
    forall g, id ensures HeldBy(s', g, id) <==> g != h && HeldBy(s, g, id) {}
    forall id | id in s.objects && s.handles[h].message != Some(id)
      ensures InHandle(s', id) || id in Bucket(s', s'.objects[id].kind)
    {
      if g :| HeldBy(s, g, id) { assert HeldBy(s', g, id); }
    }
    forall k | k in s'.buckets ensures BucketOk(s', k) { assert BucketOk(s, k); }
    if s.handles[h].message.Some? {
      assert HeldBy(s, h, s.handles[h].message.value);
      assert HandleOk(s, h);
    }
  }

  lemma AttachInv(s: State, h: HandleId, id: MessageId)
    requires Inv(s, Some(id)) && (h in s.handles ==> s.handles[h] == EMPTY)
    ensures Inv(Attach(s, h, s.objects[id].kind, id), None)
  {
    var s' := Attach(s, h, s.objects[id].kind, id);
    forall g | g in s'.handles ensures HandleOk(s', g) { if g != h { assert HandleOk(s, g); } }
    assert HeldBy(s', h, id);
    forall g, o ensures HeldBy(s', g, o) <==> HeldBy(s, g, o) || (g == h && o == id)
    {
      if HeldBy(s, g, id) { assert InHandle(s, id); }
    }
    forall o | o in s.objects
      ensures InHandle(s', o) || o in Bucket(s', s'.objects[o].kind)
    {
      if g :| HeldBy(s, g, o) { assert HeldBy(s', g, o); }
    }
    forall k | k in s'.buckets ensures BucketOk(s', k) { assert BucketOk(s, k); }
  }

  lemma RecycleBuckets(s: State, id: MessageId)
    requires Inv(s, Some(id))
    ensures var s' := Recycle(s, s.objects[id].kind, id);
            && (forall k :: k in s'.buckets ==> BucketOk(s', k))
            && (forall k, o :: o in Bucket(s, k) ==> o in Bucket(s', k))
            && (forall k, o :: o in Bucket(s', k) ==> o in Bucket(s, k) || o == id)
            && (id in s'.objects ==> id in Bucket(s', s.objects[id].kind))
  {
    var key := s.objects[id].kind;
    var s' := Recycle(s, key, id);
    assert key in s.buckets ==> BucketOk(s, key);
    forall k | k in s'.buckets
      ensures BucketOk(s', k)
    {
      if k in s.buckets { assert BucketOk(s, k); }
    }
  }

  lemma RecycleHandles(s: State, id: MessageId, h: HandleId)
    requires Inv(s, Some(id)) && h in s.handles
    ensures HandleOk(Recycle(s, s.objects[id].kind, id), h)
  {
    RecycleBuckets(s, id);
    assert HandleOk(s, h);
    assert !HeldBy(s, h, id);
  }

  lemma RecycleInv(s: State, id: MessageId)
    requires Inv(s, Some(id))
    ensures Inv(Recycle(s, s.objects[id].kind, id), None)
  {
    var s' := Recycle(s, s.objects[id].kind, id);
    RecycleBuckets(s, id);
    forall h | h in s'.handles ensures HandleOk(s', h) { RecycleHandles(s, id, h); }
    hide BucketOk, Bucket, HandleOk;
    forall g, o ensures HeldBy(s', g, o) <==> HeldBy(s, g, o) {}
    forall o | o in s'.objects
      ensures InHandle(s', o) || o in Bucket(s', s'.objects[o].kind)
    {
      assert s'.objects[o].kind == s.objects[o].kind;
      if g :| HeldBy(s, g, o) { assert HeldBy(s', g, o); }
    }
  }

  lemma TakeNewInv(s: State, key: string)
    requires Inv(s, None) && Bucket(s, key) == []
    ensures Inv(Take(s, key), Some(s.next))
  {
    var s' := Take(s, key);
    forall k | k in s'.buckets
      ensures BucketOk(s', k)
    {
      if k in s.buckets { assert BucketOk(s, k); }
    }
    forall g, o ensures HeldBy(s', g, o) <==> HeldBy(s, g, o) {}
    forall g | g in s'.handles ensures HandleOk(s', g) { assert HandleOk(s, g); }
    assert !InHandle(s', s.next) by {
      if g :| HeldBy(s', g, s.next) { assert HandleOk(s, g); }
    }
    forall o | o in s'.objects && o != s.next
      ensures InHandle(s', o) || o in Bucket(s', s'.objects[o].kind)
    {
      if g :| HeldBy(s, g, o) { assert HeldBy(s', g, o); }
    }
  }

  lemma TakeCachedBuckets(s: State, key: string)
    requires Inv(s, None) && Bucket(s, key) != []
    ensures var s' := Take(s, key);
            var id := TakenId(s, key);
            && s'.objects == s.objects && s'.handles == s.handles && s'.next == s.next
            && id in s.objects && s.objects[id] == Message(key, [])
            && (forall k :: k in s'.buckets ==> BucketOk(s', k))
            && (forall k, o :: o in Bucket(s', k) <==> o in Bucket(s, k) && !(k == key && o == id))
  {
    var s' := Take(s, key);
    var b, id := Bucket(s, key), TakenId(s, key);
    assert BucketOk(s, key) && id in b;
    assert s'.objects == s.objects;
    assert b == b[..|b| - 1] + [id];
    forall k | k in s'.buckets
      ensures BucketOk(s', k)
    {
      assert BucketOk(s, k);
    }
  }

  /** Clearing on reuse changes nothing: what is in a bucket is already cleared. */
  lemma TakeCachedInv(s: State, key: string)
    requires Inv(s, None) && Bucket(s, key) != []
    ensures Inv(Take(s, key), Some(TakenId(s, key)))
    ensures Take(s, key).objects == s.objects
    ensures TakenId(s, key) in s.objects && s.objects[TakenId(s, key)] == Message(key, [])
  {
    var s' := Take(s, key);
    var id := TakenId(s, key);
    TakeCachedBuckets(s, key);
    assert id in Bucket(s, key);
    hide BucketOk, Take, TakenId, Bucket;
    forall g, o ensures HeldBy(s', g, o) <==> HeldBy(s, g, o) {}
    forall g | g in s'.handles ensures HandleOk(s', g) { assert HandleOk(s, g); }
    assert !InHandle(s', id) by {
      if g :| HeldBy(s', g, id) { assert HandleOk(s, g); }
    }
    forall o | o in s'.objects && o != id
      ensures InHandle(s', o) || o in Bucket(s', s'.objects[o].kind)
    {
      if g :| HeldBy(s, g, o) { assert HeldBy(s', g, o); }
    }
  }

  lemma TakeInv(s: State, key: string)
    requires Inv(s, None)
    ensures var s' := Take(s, key);
            && Inv(s', Some(TakenId(s, key)))
            && TakenId(s, key) in s'.objects && s'.objects[TakenId(s, key)] == Message(key, [])
            && s'.handles == s.handles
  {
    hide Inv;
    if Bucket(s, key) == [] { TakeNewInv(s, key); } else { TakeCachedInv(s, key); }
  }

  lemma DefaultInv(s: State, h: HandleId)
    requires Inv(s, None) && (h in s.handles ==> s.handles[h] == EMPTY)
    ensures Inv(Blank(s, h), None)
  {
    var s' := Blank(s, h);
    forall g, o ensures HeldBy(s', g, o) <==> HeldBy(s, g, o) {}
    forall g | g in s'.handles ensures HandleOk(s', g) { if g in s.handles { assert HandleOk(s, g); } }
    forall o | o in s.objects
      ensures InHandle(s', o) || o in Bucket(s', s'.objects[o].kind)
    {
      if g :| HeldBy(s, g, o) { assert HeldBy(s', g, o); }
    }
    forall k | k in s'.buckets ensures BucketOk(s', k) { assert BucketOk(s, k); }
  }

  lemma HandleKnown(s: State, h: HandleId)
    requires Inv(s, None) && h in s.handles
    ensures HandleOk(s, h)
  {
  }

  lemma ReleaseInv(s: State, h: HandleId)
    requires Inv(s, None) && h in s.handles
    ensures Inv(Release(s, h), None)
    ensures Release(s, h).handles == s.handles[h := EMPTY]
  {
    hide Inv;
    HandleKnown(s, h);
    if s.handles[h].pooled {
      BlankInv(s, h);
      RecycleInv(Blank(s, h), s.handles[h].message.value);
    }
  }

  lemma TransferInv(s: State, to: HandleId, from: HandleId)
    requires Inv(s, None) && from in s.handles && to != from && (to in s.handles ==> s.handles[to] == EMPTY)
    ensures Inv(Transfer(s, to, from), None)
  {
    hide Inv;
    HandleKnown(s, from);
    BlankInv(s, from);
    var freed := Blank(s, from);
    if s.handles[from].pooled {
      AttachInv(freed, to, s.handles[from].message.value);
    } else {
      DefaultInv(freed, to);
      assert Transfer(s, to, from) == Blank(freed, to);
    }
  }

  lemma WriteInv(s: State, h: HandleId, contents: seq<Byte>)
    requires Inv(s, None) && Apply(s, Write(h, contents)).Some?
    ensures Inv(Apply(s, Write(h, contents)).value, None)
  {
    var s' := Apply(s, Write(h, contents)).value;
    var id := s.handles[h].message.value;
    assert HandleOk(s, h);
    forall g, o ensures HeldBy(s', g, o) <==> HeldBy(s, g, o) {}
    forall g | g in s'.handles ensures HandleOk(s', g) { assert HandleOk(s, g); }
    forall o | o in s'.objects
      ensures InHandle(s', o) || o in Bucket(s', s'.objects[o].kind)
    {
      if g :| HeldBy(s, g, o) { assert HeldBy(s', g, o); }
    }
    forall k | k in s'.buckets
      ensures BucketOk(s', k)
    {
      assert BucketOk(s, k);
      assert id !in Bucket(s, k);
    }
  }

  lemma ForgetInv(s: State, h: HandleId)
    requires Inv(s, None) && h in s.handles && s.handles[h] == EMPTY
    ensures Inv(s.(handles := s.handles - {h}), None)
  {
    var s' := s.(handles := s.handles - {h});
    forall g, o ensures HeldBy(s', g, o) <==> HeldBy(s, g, o) {}
    forall g | g in s'.handles ensures HandleOk(s', g) { assert HandleOk(s, g); }
    forall o | o in s'.objects
      ensures InHandle(s', o) || o in Bucket(s', s'.objects[o].kind)
    {
      if g :| HeldBy(s, g, o) { assert HeldBy(s', g, o); }
    }
    forall k | k in s'.buckets ensures BucketOk(s', k) { assert BucketOk(s, k); }
  }

  lemma StepInv(s: State, step: Step)
    requires Inv(s, None) && Apply(s, step).Some?
    ensures Inv(Apply(s, step).value, None)
  {
    hide Inv, Take, TakenId, Release, Transfer;
    match step
    case Default(h) => DefaultInv(s, h);
    case Acquire(h, kind) =>
      TakeInv(s, kind);
      AttachInv(Take(s, kind), h, TakenId(s, kind));
    case Write(h, contents) => WriteInv(s, h, contents);
    case MoveConstruct(h, from) => TransferInv(s, h, from);
    case MoveAssign(h, from) =>
      if h != from {
        ReleaseInv(s, h);
        TransferInv(Release(s, h), h, from);
      }
    case Destroy(h) =>
      ReleaseInv(s, h);
      ForgetInv(Release(s, h), h);
  }

  lemma {:induction false} RunInv(limit: nat, steps: seq<Step>)
    requires Run(Initial(limit), steps).Some?
    ensures Inv(Run(Initial(limit), steps).value, None)
    ensures Run(Initial(limit), steps).value.limit == limit
  {
    if steps != [] {
      var s := Run(Initial(limit), steps[..|steps| - 1]).value;
      RunInv(limit, steps[..|steps| - 1]);
      StepInv(s, steps[|steps| - 1]);
      hide Inv;
      LimitKept(s, steps[|steps| - 1]);
    }
  }

  lemma LimitKept(s: State, step: Step)
    requires Apply(s, step).Some?
    ensures Apply(s, step).value.limit == s.limit
  {
  }

  // ---------------------------------------------------------------- results

  ghost predicate InSlot(s: State, key: string, i: int, id: MessageId)
  {
    0 <= i < |Bucket(s, key)| && Bucket(s, key)[i] == id
  }

  /** In every run each message object that exists is in one handle or in one bucket slot, and never in two places:
      nothing is handed out twice, returned twice or lost. */
  lemma OneOwner(limit: nat, steps: seq<Step>, id: MessageId)
    requires Run(Initial(limit), steps).Some?
    ensures var s := Run(Initial(limit), steps).value;
            && (id in s.objects <==> InHandle(s, id) || exists k, i :: InSlot(s, k, i, id))
            && (forall g, h :: HeldBy(s, g, id) && HeldBy(s, h, id) ==> g == h)
            && (forall k, i, l, j :: InSlot(s, k, i, id) && InSlot(s, l, j, id) ==> k == l && i == j)
            && (forall h, k, i :: !(HeldBy(s, h, id) && InSlot(s, k, i, id)))
  {
    hide Run;
    RunInv(limit, steps);
    var s := Run(Initial(limit), steps).value;
    forall k, i | InSlot(s, k, i, id)
      ensures id in s.objects && s.objects[id].kind == k && Distinct(Bucket(s, k))
    {
      assert BucketOk(s, k) && id in Bucket(s, k);
    }
    forall h, k, i
      ensures !(HeldBy(s, h, id) && InSlot(s, k, i, id))
    {
      if HeldBy(s, h, id) { assert HandleOk(s, h); }
    }
    if h :| HeldBy(s, h, id) { assert HandleOk(s, h); }
    if id in s.objects && id in Bucket(s, s.objects[id].kind) {
      var i :| 0 <= i < |Bucket(s, s.objects[id].kind)| && Bucket(s, s.objects[id].kind)[i] == id;
      assert InSlot(s, s.objects[id].kind, i, id);
    }
  }

  /** In every run every bucket holds at most `limit` messages, all cleared and of the bucket's own type. */
  lemma BucketsAreClean(limit: nat, steps: seq<Step>, key: string)
    requires Run(Initial(limit), steps).Some? && key in Run(Initial(limit), steps).value.buckets
    ensures var s := Run(Initial(limit), steps).value;
            && |s.buckets[key]| <= limit
            && forall id :: id in s.buckets[key] ==> id in s.objects && s.objects[id] == Message(key, [])
  {
    hide Run;
    RunInv(limit, steps);
    assert BucketOk(Run(Initial(limit), steps).value, key);
  }

  /** In every run an acquired message is empty, of the prototype's type, and not reachable from any other handle. */
  lemma AcquiredIsClean(limit: nat, steps: seq<Step>, h: HandleId, kind: string)
    requires Run(Initial(limit), steps).Some? && h !in Run(Initial(limit), steps).value.handles
    ensures var r := Apply(Run(Initial(limit), steps).value, Acquire(h, kind));
            && r.Some? && h in r.value.handles && r.value.handles[h].message.Some?
            && var id := r.value.handles[h].message.value;
            && id in r.value.objects && r.value.objects[id] == Message(kind, [])
            && (forall g :: HeldBy(r.value, g, id) ==> g == h)
  {
    hide Run, Inv, Take, TakenId;
    RunInv(limit, steps);
    var s := Run(Initial(limit), steps).value;
    TakeInv(s, kind);
    LooseNotHeld(Take(s, kind), TakenId(s, kind));
    var s' := Apply(s, Acquire(h, kind)).value;
    forall g | g != h ensures HeldBy(s', g, TakenId(s, kind)) <==> HeldBy(Take(s, kind), g, TakenId(s, kind)) {}
  }

  lemma LooseNotHeld(s: State, id: MessageId)
    requires Inv(s, Some(id))
    ensures forall h :: !HeldBy(s, h, id)
  {
  }

  // ---------------------------------------------------------------- the pool in place

  class Pool {
    const limit: nat
    var next: MessageId
    var objects: map<MessageId, Message>
    var buckets: map<string, seq<MessageId>>
    var handles: map<HandleId, Handle>

    function Value(): (s: State)
      reads this
    {
      State(limit, next, objects, buckets, handles)
    }

    constructor (limit: nat)
      ensures Value() == Initial(limit)
    {
      this.limit := limit;
      next, objects, buckets, handles := 0, map[], map[], map[];
    }

    method Clear(id: MessageId)
      requires id in objects
      modifies this`objects
      ensures objects == old(objects)[id := old(objects)[id].(contents := [])]
    {
      objects := objects[id := objects[id].(contents := [])];
    }

    method AcquireMessage(h: HandleId, kind: string)
      requires Inv(Value(), None) && h !in handles
      modifies this
      ensures Inv(Value(), None) && Some(Value()) == Apply(old(Value()), Acquire(h, kind))
      ensures handles[h].message.Some? && handles[h].message.value in objects
      ensures objects[handles[h].message.value] == Message(kind, [])
      // The newest cached message of the type is reused, and only without one is a message created.
      ensures old(Bucket(Value(), kind)) != [] ==>
                var b := old(Bucket(Value(), kind));
                && handles == old(handles)[h := Handle(true, kind, Some(b[|b| - 1]))]
                && buckets == old(buckets)[kind := b[..|b| - 1]] && objects == old(objects) && next == old(next)
      ensures old(Bucket(Value(), kind)) == [] ==>
                && handles == old(handles)[h := Handle(true, kind, Some(old(next)))] && next == old(next) + 1
                && buckets == old(buckets)[kind := []] && objects == old(objects)[old(next) := Message(kind, [])]
    {
      hide Inv;
      ghost var before := Value();
      if Bucket(before, kind) != [] { TakeCachedInv(before, kind); }
      TakeInv(before, kind);
      StepInv(before, Acquire(h, kind));
      var bucket := if kind in buckets then buckets[kind] else [];
      var id := next;
      if bucket != [] {
        id := bucket[|bucket| - 1];
        BucketTop(before, kind);
        buckets := buckets[kind := bucket[..|bucket| - 1]];
        Clear(id);
      } else {
        buckets := buckets[kind := []];
        objects := objects[id := Message(kind, [])];
        next := next + 1;
      }
      handles := handles[h := Handle(true, kind, Some(id))];
    }

    method ReturnMessage(key: string, id: MessageId)
      requires id in objects && objects[id].contents == []
      modifies this
      ensures Value() == Recycle(old(Value()), key, id)
      // Kept while there is room in the bucket, deleted otherwise.
      ensures var b := old(Bucket(Value(), key));
              && handles == old(handles) && next == old(next)
              && (if |b| < limit then buckets == old(buckets)[key := b + [id]] && objects == old(objects)
                  else buckets == old(buckets)[key := b] && objects == old(objects) - {id})
    {
      var bucket := if key in buckets then buckets[key] else [];
      if |bucket| >= limit {
        buckets := buckets[key := bucket];
        objects := objects - {id};
        return;
      }
      assert objects[id := objects[id].(contents := [])] == objects;
      buckets := buckets[key := bucket + [id]];
    }

    method ReleaseHandle(h: HandleId)
      requires Inv(Value(), None) && h in handles
      modifies this
      ensures Inv(Value(), None) && Value() == Release(old(Value()), h)
      ensures handles == old(handles)[h := EMPTY]
      ensures old(handles)[h].message == None ==> Value() == old(Value())
      ensures old(handles)[h].message.Some? ==>
                var key, id := old(handles)[h].key, old(handles)[h].message.value;
                var b := old(Bucket(Value(), key));
                if |b| < limit then
                  && buckets == old(buckets)[key := b + [id]]
                  && objects == old(objects)[id := Message(key, [])]
                else buckets == old(buckets)[key := b] && objects == old(objects) - {id}
    {
      hide Inv;
      HandleKnown(Value(), h);
      ReleaseInv(Value(), h);
      var handle := handles[h];
      if !handle.pooled || handle.message.None? { return; }
      var id := handle.message.value;
      Clear(id);
      assert objects[id := objects[id].(contents := [])] == objects && objects - {id} == old(objects) - {id};
      handles := handles[h := EMPTY];
      ReturnMessage(handle.key, id);
    }

    method MoveConstructFrom(h: HandleId, from: HandleId)
      requires Inv(Value(), None) && h !in handles && from in handles
      modifies this
      ensures Inv(Value(), None) && Some(Value()) == Apply(old(Value()), MoveConstruct(h, from))
      ensures handles == old(handles)[from := EMPTY][h := old(handles)[from]]
      ensures objects == old(objects) && buckets == old(buckets) && next == old(next)
    {
      TransferInv(Value(), h, from);
      hide Inv;
      var moved := handles[from];
      handles := handles[from := EMPTY];
      handles := handles[h := moved];
    }

    method MoveAssignTo(h: HandleId, from: HandleId)
      requires Inv(Value(), None) && h in handles && from in handles
      modifies this
      ensures Inv(Value(), None) && Some(Value()) == Apply(old(Value()), MoveAssign(h, from))
      ensures handles[h] == old(handles)[from] && (h != from ==> handles[from] == EMPTY)
    {
      hide Inv, Release;
      if h == from { return; }
      ReleaseHandle(h);
      TransferInv(Value(), h, from);
      var moved := handles[from];
      handles := handles[from := EMPTY];
      handles := handles[h := moved];
    }

    method DestroyHandle(h: HandleId)
      requires Inv(Value(), None) && h in handles
      modifies this
      ensures Inv(Value(), None) && Some(Value()) == Apply(old(Value()), Destroy(h))
    {
      hide Inv, Release;
      ReleaseHandle(h);
      ForgetInv(Value(), h);
      handles := handles - {h};
    }
  }

  lemma BucketTop(s: State, key: string)
    requires Inv(s, None) && Bucket(s, key) != []
    ensures TakenId(s, key) in s.objects
  {
    assert BucketOk(s, key);
    assert TakenId(s, key) in Bucket(s, key);
  }
}
