/** Service discovery: registered instances as nodes of a tree, one-shot child watches, and the resolver's cache that
    the watches keep fresh. Registrations, refreshes and notifications interleave freely; a watched read of children
    together with arming the watch is one step. */
module Discovery {
  import opened Bytes
  import opened Endpoints

  datatype Instance = Instance(id: string, endpoint: Endpoint)

  // ---------------------------------------------------------------- paths

  function BuildServicePath(service: string): (p: string)
  {
    "/" + service
  }

  function BuildMethodPath(service: string, method_: string): (p: string)
  {
    BuildServicePath(service) + "/" + method_
  }

  function Child(path: string, name: string): (p: string)
  {
    path + "/" + name
  }

  /** `find_last_of('/')`. */
  function LastSlash(p: string): (r: Option<nat>)
    ensures r.Some? ==> r.value < |p| && p[r.value] == '/' && forall i :: r.value < i < |p| ==> p[i] != '/'
    ensures r.None? ==> '/' !in p
  {
    if p == "" then None
    else if p[|p| - 1] == '/' then Some(|p| - 1)
    else LastSlash(p[..|p| - 1])
  }

  /** The path that the watch callback refreshes when it is told that `path` changed. */
  function Rebuilt(path: string): (r: Option<string>)
  {
    match LastSlash(path)
    case None => None
    case Some(i) => if i == 0 then None else Some(BuildMethodPath(path[1..i], path[i + 1..]))
  }

  ghost predicate IsMethodPath(p: string)
  {
    exists service, method_ :: p == BuildMethodPath(service, method_)
  }

  /** The callback refreshes the path it was called for exactly for the paths that `Resolve` builds, whatever
      characters the names contain: so it always overwrites the cache entry that `Resolve` filled. */
  lemma CallbackKeepsKey(p: string)
    ensures Rebuilt(p) == Some(p) <==> IsMethodPath(p)
  {
    hide LastSlash;
    if service, method_ :| p == BuildMethodPath(service, method_) {
      assert p[0] == '/' && p[|service| + 1] == '/';
      var i := LastSlash(p).value;
      assert i >= |service| + 1;
      assert p == "/" + p[1..i] + "/" + p[i + 1..];
    }
  }

  lemma ChildInjective(p: string, n: string, q: string, m: string)
    requires '/' !in n && '/' !in m && Child(p, n) == Child(q, m)
    ensures p == q && n == m
  {
    var c := Child(p, n);
    assert c[|p|] == '/' && c[|q|] == '/';
    assert forall i :: |p| < i < |c| ==> c[i] == n[i - |p| - 1];
    assert forall i :: |q| < i < |c| ==> c[i] == m[i - |q| - 1];
    assert |p| == |q|;
    assert c[..|p|] == p && c[..|q|] == q && c[|p| + 1..] == n && c[|q| + 1..] == m;
  }

  // ---------------------------------------------------------------- the node tree

  /** Node data by full path; the root is the empty path. */
  type Store = map<string, string>

  const DATA_BUFFER: nat := 512

  /** `GetData`: None is a failed read; a longer value is cut at the buffer. */
  function Lookup(store: Store, path: string): (r: Option<string>)
    ensures r.Some? <==> path in store
    ensures r.Some? ==> r.value <= store[path] && (|r.value| == 512 <= |store[path]| || r.value == store[path])
  {
    if path !in store then None
    else Some(if |store[path]| <= DATA_BUFFER then store[path] else store[path][..DATA_BUFFER])
  }

  predicate IsChild(store: Store, path: string, name: string)
  {
    '/' !in name && Child(path, name) in store
  }

  /** `id` is registered under `path` with a value that parses to `e`. */
  predicate Live(store: Store, path: string, id: string, e: Endpoint)
  {
    IsChild(store, path, id) && ParseInstance(Lookup(store, Child(path, id)).value) == Good(e)
  }

  predicate DistinctIds(instances: seq<Instance>)
  {
    forall i, j :: 0 <= i < j < |instances| ==> instances[i].id != instances[j].id
  }

  /** The instances are exactly the registered ones that parse, each once. */
  ghost predicate Reflects(instances: seq<Instance>, store: Store, path: string)
  {
    && DistinctIds(instances)
    && (forall id, e :: Instance(id, e) in instances <==> Live(store, path, id, e))
  }

  /** The children of a node, each once, in any order. */
  ghost predicate Lists(names: seq<string>, store: Store, path: string)
  {
    && (forall i, j :: 0 <= i < j < |names| ==> names[i] != names[j])
    && (forall n :: n in names <==> IsChild(store, path, n))
  }

  // ---------------------------------------------------------------- reading instances

  /** One turn of the refresh loop: an unreadable or malformed instance is skipped. */
  function Keep(name: string, read: Option<string>): (r: seq<Instance>)
  {
    match read
    case None => []
    case Some(data) =>
      match ParseInstance(data)
      case Bad(_) => []
      case Good(e) => [Instance(name, e)]
  }

  function Collect(names: seq<string>, data: seq<Option<string>>): (r: seq<Instance>)
    requires |names| == |data|
  {
    if names == [] then []
    else Collect(names[..|names| - 1], data[..|names| - 1]) + Keep(names[|names| - 1], data[|names| - 1])
  }

  function Found(store: Store, path: string, names: seq<string>): (r: seq<Instance>)
  {
    if names == [] then []
    else
      Found(store, path, names[..|names| - 1])
      + Keep(names[|names| - 1], Lookup(store, Child(path, names[|names| - 1])))
  }

  predicate Yields(store: Store, path: string, id: string, e: Endpoint)
  {
    var read := Lookup(store, Child(path, id));
    read.Some? && ParseInstance(read.value) == Good(e)
  }

  lemma {:induction false} FoundIs(store: Store, path: string, names: seq<string>)
    requires forall i, j :: 0 <= i < j < |names| ==> names[i] != names[j]
    ensures forall id, e :: Instance(id, e) in Found(store, path, names) <==> id in names && Yields(store, path, id, e)
    ensures DistinctIds(Found(store, path, names))
  {
    hide ParseInstance, Lookup, Child;
    if names != [] {
      var front, last := names[..|names| - 1], names[|names| - 1];
      assert names == front + [last];
      FoundIs(store, path, front);
      var r := Found(store, path, front);
      forall i | 0 <= i < |r|
        ensures r[i].id in front && r[i].id != last
      {
        assert Instance(r[i].id, r[i].endpoint) in r;
      }
      var kept := Keep(last, Lookup(store, Child(path, last)));
      assert |kept| <= 1 && forall k :: k in kept ==> k.id == last;
      var whole := Found(store, path, names);
      assert whole == r + kept;
      forall i, j | 0 <= i < j < |whole|
        ensures whole[i].id != whole[j].id
      {
        assert whole[i] == r[i];
        if j < |r| {
          assert whole[j] == r[j];
        } else {
          assert whole[j] in kept;
        }
      }
    }
  }

  lemma FoundReflects(store: Store, path: string, names: seq<string>)
    requires Lists(names, store, path)
    ensures Reflects(Found(store, path, names), store, path)
  {
    hide ParseInstance, Found;
    FoundIs(store, path, names);
    var found := Found(store, path, names);
    forall id, e
      ensures Instance(id, e) in found <==> Live(store, path, id, e)
    {
      assert id in names <==> IsChild(store, path, id);
    }
  }

  /** Nothing registered directly under `path` differs between the two stores. */
  ghost predicate SameChildren(store: Store, store': Store, path: string)
  {
    forall n :: '/' !in n ==> Lookup(store, Child(path, n)) == Lookup(store', Child(path, n))
  }

  lemma {:induction false} FoundFrame(store: Store, store': Store, path: string, names: seq<string>)
    requires SameChildren(store, store', path) && forall n :: n in names ==> '/' !in n
    ensures Found(store, path, names) == Found(store', path, names)
  {
    hide ParseInstance, Lookup, Child;
    if names != [] {
      FoundFrame(store, store', path, names[..|names| - 1]);
      assert names[|names| - 1] in names;
    }
  }

  lemma ChildFrame(store: Store, store': Store, path: string, n: string)
    requires SameChildren(store, store', path)
    ensures IsChild(store, path, n) == IsChild(store', path, n)
    ensures forall e :: Live(store, path, n, e) == Live(store', path, n, e)
  {
    hide ParseInstance;
    if '/' !in n {
      assert Lookup(store, Child(path, n)) == Lookup(store', Child(path, n));
    }
  }

  // ---------------------------------------------------------------- steps

  datatype Phase = Calling | Reading(names: seq<string>, next: nat, found: seq<Instance>)

  /** One call of `RefreshMethod`. */
  datatype Refresh = Refresh(path: string, phase: Phase)

  /** `watches` counts the armed one-shot watches of a path, `notices` its undelivered notifications. */
  datatype State = State(
    store: Store, watches: multiset<string>, notices: multiset<string>, refreshes: map<nat, Refresh>,
    cache: map<string, seq<Instance>>)

  const INITIAL: State := State(map["" := ""], multiset{}, multiset{}, map[], map[])

  datatype Step =
    | Create(path: string, name: string, data: string)
    | Delete(path: string, name: string)
    | Miss(service: string, method_: string, id: nat)
    | Deliver(path: string, id: nat)
    | ReadChildren(id: nat, names: seq<string>)
    | ReadChildrenFails(id: nat)
    | ReadData(id: nat, fails: bool)
    | StoreInCache(id: nat)

  function Fire(s: State, path: string): (s': State)
  {
    s.(watches := s.watches[path := 0], notices := s.notices[path := s.notices[path] + s.watches[path]])
  }

  ghost function Apply(s: State, step: Step): (r: Option<State>)
  {
    match step
    case Create(path, name, data) =>
      if path in s.store && '/' !in name && Child(path, name) !in s.store then
        Some(Fire(s.(store := s.store[Child(path, name) := data]), path))
      else None
    case Delete(path, name) =>
      if IsChild(s.store, path, name) && (forall n :: !IsChild(s.store, Child(path, name), n)) then
        Some(Fire(Fire(s.(store := s.store - {Child(path, name)}), path), Child(path, name)))
      else None
    // `Resolve` found no cache entry and calls `RefreshMethod`.
    case Miss(service, method_, id) =>
      if BuildMethodPath(service, method_) !in s.cache && id !in s.refreshes then
        Some(s.(refreshes := s.refreshes[id := Refresh(BuildMethodPath(service, method_), Calling)]))
      else None
    // `OnMethodChanged`.
    case Deliver(path, id) =>
      if path in s.notices && id !in s.refreshes then
        var taken := s.(notices := s.notices[path := s.notices[path] - 1]);
        match Rebuilt(path)
        case None => Some(taken)
        case Some(p) => Some(taken.(refreshes := s.refreshes[id := Refresh(p, Calling)]))
      else None
    case ReadChildren(id, names) =>
      if id in s.refreshes && s.refreshes[id].phase.Calling? then
        var path := s.refreshes[id].path;
        if path in s.store && Lists(names, s.store, path) then
          Some(s.(watches := s.watches[path := s.watches[path] + 1],
                  refreshes := s.refreshes[id := Refresh(path, Reading(names, 0, []))]))
        else None
      else None
    case ReadChildrenFails(id) =>
      if id in s.refreshes && s.refreshes[id].phase.Calling? then Some(s.(refreshes := s.refreshes - {id})) else None
    case ReadData(id, fails) =>
      if id in s.refreshes && s.refreshes[id].phase.Reading?
         && s.refreshes[id].phase.next < |s.refreshes[id].phase.names| then
        var Refresh(path, Reading(names, next, found)) := s.refreshes[id];
        var read := if fails then None else Lookup(s.store, Child(path, names[next]));
        var phase := Reading(names, next + 1, found + Keep(names[next], read));
        Some(s.(refreshes := s.refreshes[id := Refresh(path, phase)]))
      else None
    case StoreInCache(id) =>
      if id in s.refreshes && s.refreshes[id].phase.Reading?
         && s.refreshes[id].phase.next == |s.refreshes[id].phase.names| then
        Some(s.(cache := s.cache[s.refreshes[id].path := s.refreshes[id].phase.found], refreshes := s.refreshes - {id}))
      else None
  }

  ghost function Run(s: State, steps: seq<Step>): (r: Option<State>)
  {
    if steps == [] then Some(s)
    else
      match Run(s, steps[..|steps| - 1])
      case None => None
      case Some(before) => Apply(before, steps[|steps| - 1])
  }

  ghost predicate Quiet(s: State, path: string)
  {
    forall id :: id in s.refreshes ==> s.refreshes[id].path != path
  }

  /** What the freshness of the cache rests on: refreshes of one path do not overlap, a watched read fails only where
      nothing is cached yet or another notification is on its way, and a data read fails only for a vanished node. */
  ghost predicate Careful(s: State, step: Step)
  {
    match step
    case Create(_, _, _) => true
    case Delete(_, _) => true
    case Miss(service, method_, _) => Quiet(s, BuildMethodPath(service, method_))
    case Deliver(path, _) => Quiet(s, path)
    case ReadChildren(_, _) => true
    case ReadChildrenFails(id) =>
      id in s.refreshes ==> s.refreshes[id].path !in s.cache || s.refreshes[id].path in s.notices
    case ReadData(_, fails) => !fails
    case StoreInCache(_) => true
  }

  ghost predicate CarefulRun(steps: seq<Step>)
  {
    steps != [] ==>
      && CarefulRun(steps[..|steps| - 1])
      && Run(INITIAL, steps[..|steps| - 1]).Some?
      && Careful(Run(INITIAL, steps[..|steps| - 1]).value, steps[|steps| - 1])
  }

  // ---------------------------------------------------------------- invariant

  ghost predicate Progress(phase: Phase, store: Store, path: string)
    requires phase.Reading?
  {
    && phase.next <= |phase.names|
    && Lists(phase.names, store, path)
    && phase.found == Found(store, path, phase.names[..phase.next])
  }

  ghost predicate RefreshOk(s: State, id: nat)
    requires id in s.refreshes
  {
    var r := s.refreshes[id];
    && IsMethodPath(r.path)
    && (r.phase.Reading? ==> r.path in s.notices || (r.path in s.watches && Progress(r.phase, s.store, r.path)))
  }

  ghost predicate Fresh(s: State, path: string)
    requires path in s.cache
  {
    path in s.notices || (path in s.watches && Reflects(s.cache[path], s.store, path))
  }

  ghost predicate Inv(s: State)
  {
    && (forall i, j :: i in s.refreshes && j in s.refreshes && s.refreshes[i].path == s.refreshes[j].path ==> i == j)
    && (forall i :: i in s.refreshes ==> RefreshOk(s, i))
    && (forall p :: p in s.cache && Quiet(s, p) ==> Fresh(s, p))
    && (forall p :: p in s.watches || p in s.notices ==> IsMethodPath(p))
  }

  /** A change of the tree below `path` that fires its watches keeps everything known about every other path. */
  lemma ChangeInv(s: State, s': State, path: string)
    requires Inv(s)
    requires s'.refreshes == s.refreshes && s'.cache == s.cache
    requires forall p :: p in s'.notices <==> p in s.notices || (p in s.watches && p !in s'.watches)
    requires forall p :: p in s'.watches ==> p in s.watches
    requires path !in s'.watches
    requires forall p :: p != path ==> SameChildren(s.store, s'.store, p)
    ensures Inv(s')
  {
    hide SameChildren, IsMethodPath, Reflects, Progress;
    forall i | i in s.refreshes
      ensures RefreshOk(s', i)
    {
      var r := s.refreshes[i];
      assert RefreshOk(s, i);
      if r.phase.Reading? && r.path !in s'.notices {
        assert r.path != path;
        ProgressFrame(r.phase, s.store, s'.store, r.path);
      }
    }
    forall p | p in s'.cache && Quiet(s', p)
      ensures Fresh(s', p)
    {
      assert Quiet(s, p) && Fresh(s, p);
      if p !in s'.notices {
        assert p != path;
        ReflectsFrame(s.cache[p], s.store, s'.store, p);
      }
    }
  }

  lemma ProgressFrame(phase: Phase, store: Store, store': Store, path: string)
    requires phase.Reading? && Progress(phase, store, path) && SameChildren(store, store', path)
    ensures Progress(phase, store', path)
  {
    hide SameChildren, IsChild, Child, Found;
    forall n
      ensures IsChild(store, path, n) == IsChild(store', path, n)
    {
      ChildFrame(store, store', path, n);
    }
    forall n | n in phase.names[..phase.next]
      ensures '/' !in n
    {
      assert n in phase.names;
      assert IsChild(store, path, n);
      NoSlash(store, path, n);
    }
    FoundFrame(store, store', path, phase.names[..phase.next]);
  }

  lemma NoSlash(store: Store, path: string, n: string)
    requires IsChild(store, path, n)
    ensures '/' !in n
  {
  }

  lemma ReflectsFrame(instances: seq<Instance>, store: Store, store': Store, path: string)
    requires Reflects(instances, store, path) && SameChildren(store, store', path)
    ensures Reflects(instances, store', path)
  {
    hide SameChildren, Live;
    forall id, e
      ensures Live(store, path, id, e) == Live(store', path, id, e)
    {
      ChildFrame(store, store', path, id);
    }
  }

  lemma ElsewhereSame(store: Store, store': Store, path: string, name: string)
    requires '/' !in name
    requires forall q :: q != Child(path, name) ==> Lookup(store, q) == Lookup(store', q)
    ensures forall p :: p != path ==> SameChildren(store, store', p)
  {
    forall p, n | p != path && '/' !in n
      ensures Lookup(store, Child(p, n)) == Lookup(store', Child(p, n))
    {
      if Child(p, n) == Child(path, name) { ChildInjective(p, n, path, name); }
    }
  }

  lemma CreateInv(s: State, path: string, name: string, data: string)
    requires Inv(s) && Apply(s, Create(path, name, data)).Some?
    ensures Inv(Apply(s, Create(path, name, data)).value)
  {
    hide Inv, SameChildren;
    var s' := Apply(s, Create(path, name, data)).value;
    ElsewhereSame(s.store, s'.store, path, name);
    ChangeInv(s, s', path);
  }

  lemma DeleteInv(s: State, path: string, name: string)
    requires Inv(s) && Apply(s, Delete(path, name)).Some?
    ensures Inv(Apply(s, Delete(path, name)).value)
  {
    hide Inv, SameChildren;
    var s' := Apply(s, Delete(path, name)).value;
    ElsewhereSame(s.store, s'.store, path, name);
    ChangeInv(s, s', path);
  }

  /** Starting a refresh, whether on a cache miss or on a notification. */
  lemma StartInv(s: State, s': State, path: string, id: nat)
    requires Inv(s) && Quiet(s, path) && id !in s.refreshes && IsMethodPath(path)
    requires s' == s.(refreshes := s.refreshes[id := Refresh(path, Calling)], notices := s'.notices)
    requires forall p :: (p in s'.notices ==> p in s.notices) && (p in s.notices && p != path ==> p in s'.notices)
    ensures Inv(s')
  {
    hide IsMethodPath, Reflects, Progress;
    forall i | i in s'.refreshes
      ensures RefreshOk(s', i)
    {
      if i != id { assert RefreshOk(s, i); }
    }
    forall p | p in s'.cache && Quiet(s', p)
      ensures Fresh(s', p)
    {
      assert s'.refreshes[id].path != p;
      assert Quiet(s, p) by {
        forall i | i in s.refreshes ensures s.refreshes[i].path != p { assert i in s'.refreshes; }
      }
      assert Fresh(s, p);
    }
  }

  /** A step of a refresh that goes on. */
  lemma AdvanceInv(s: State, s': State, id: nat)
    requires Inv(s) && id in s.refreshes && id in s'.refreshes
    requires s'.refreshes == s.refreshes[id := s'.refreshes[id]] && s'.refreshes[id].path == s.refreshes[id].path
    requires s'.store == s.store && s'.cache == s.cache && s'.notices == s.notices
    requires forall p :: p in s'.watches <==> p in s.watches || (p == s.refreshes[id].path && p in s'.watches)
    requires RefreshOk(s', id)
    ensures Inv(s')
  {
    hide IsMethodPath, Reflects, Progress;
    forall i | i in s'.refreshes
      ensures RefreshOk(s', i)
    {
      if i != id { assert RefreshOk(s, i); }
    }
    forall p | p in s'.cache && Quiet(s', p)
      ensures Fresh(s', p)
    {
      forall i | i in s.refreshes ensures s.refreshes[i].path != p { assert i in s'.refreshes; }
      assert Quiet(s, p) && Fresh(s, p);
    }
    assert RefreshOk(s, id);
  }

  /** The end of a refresh. */
  lemma EndInv(s: State, s': State, id: nat)
    requires Inv(s) && id in s.refreshes
    requires s' == s.(refreshes := s.refreshes - {id}, cache := s'.cache)
    requires forall p :: p != s.refreshes[id].path ==>
                           (p in s'.cache <==> p in s.cache) && (p in s.cache ==> s'.cache[p] == s.cache[p])
    requires s.refreshes[id].path in s'.cache ==> Fresh(s', s.refreshes[id].path)
    ensures Inv(s')
  {
    hide IsMethodPath, Reflects, Progress;
    forall i | i in s'.refreshes
      ensures RefreshOk(s', i)
    {
      assert RefreshOk(s, i);
    }
    forall p | p in s'.cache && Quiet(s', p)
      ensures Fresh(s', p)
    {
      if p != s.refreshes[id].path {
        forall i | i in s.refreshes ensures s.refreshes[i].path != p { assert i == id || i in s'.refreshes; }
        assert Quiet(s, p) && Fresh(s, p);
      }
    }
  }

  lemma ReadChildrenInv(s: State, id: nat, names: seq<string>)
    requires Inv(s) && Apply(s, ReadChildren(id, names)).Some?
    ensures Inv(Apply(s, ReadChildren(id, names)).value)
  {
    hide Inv, IsMethodPath, Lists;
    var s' := Apply(s, ReadChildren(id, names)).value;
    assert RefreshOk(s', id) by { RefreshKnown(s, id); }
    AdvanceInv(s, s', id);
  }

  lemma RefreshKnown(s: State, id: nat)
    requires Inv(s) && id in s.refreshes
    ensures RefreshOk(s, id)
  {
  }

  lemma ReadDataInv(s: State, id: nat)
    requires Inv(s) && Apply(s, ReadData(id, false)).Some?
    ensures Inv(Apply(s, ReadData(id, false)).value)
  {
    hide Inv, IsMethodPath, Lists, Keep, Lookup, Child;
    var s' := Apply(s, ReadData(id, false)).value;
    RefreshKnown(s, id);
    var Refresh(path, Reading(names, next, found)) := s.refreshes[id];
    assert names[..next + 1][..next] == names[..next];
    assert Found(s.store, path, names[..next + 1])
        == Found(s.store, path, names[..next]) + Keep(names[next], Lookup(s.store, Child(path, names[next])));
    AdvanceInv(s, s', id);
  }

  lemma StoreInv(s: State, id: nat)
    requires Inv(s) && Apply(s, StoreInCache(id)).Some?
    ensures Inv(Apply(s, StoreInCache(id)).value)
  {
    hide Inv, IsMethodPath, Lists, Found, Reflects;
    var s' := Apply(s, StoreInCache(id)).value;
    RefreshKnown(s, id);
    var r := s.refreshes[id];
    if r.path !in s.notices {
      assert r.phase.names[..r.phase.next] == r.phase.names;
      FoundReflects(s.store, r.path, r.phase.names);
    }
    EndInv(s, s', id);
  }

  lemma DeliverInv(s: State, path: string, id: nat)
    requires Inv(s) && Apply(s, Deliver(path, id)).Some? && Quiet(s, path)
    ensures Inv(Apply(s, Deliver(path, id)).value)
  {
    hide IsMethodPath, Rebuilt, RefreshOk, Fresh, Quiet;
    CallbackKeepsKey(path);
    StartInv(s, Apply(s, Deliver(path, id)).value, path, id);
  }

  lemma MissInv(s: State, service: string, method_: string, id: nat)
    requires Inv(s) && Apply(s, Miss(service, method_, id)).Some? && Quiet(s, BuildMethodPath(service, method_))
    ensures Inv(Apply(s, Miss(service, method_, id)).value)
  {
    hide Inv, Quiet;
    StartInv(s, Apply(s, Miss(service, method_, id)).value, BuildMethodPath(service, method_), id);
  }

  lemma StepInv(s: State, step: Step)
    requires Inv(s) && Apply(s, step).Some? && Careful(s, step)
    ensures Inv(Apply(s, step).value)
  {
    hide Inv, Quiet;
    match step
    case Create(path, name, data) => CreateInv(s, path, name, data);
    case Delete(path, name) => DeleteInv(s, path, name);
    case Miss(service, method_, id) => MissInv(s, service, method_, id);
    case Deliver(path, id) => DeliverInv(s, path, id);
    case ReadChildren(id, names) => ReadChildrenInv(s, id, names);
    case ReadChildrenFails(id) => EndInv(s, Apply(s, step).value, id);
    case ReadData(id, fails) => ReadDataInv(s, id);
    case StoreInCache(id) => StoreInv(s, id);
  }

  lemma {:induction false} RunInv(steps: seq<Step>)
    requires Run(INITIAL, steps).Some? && CarefulRun(steps)
    ensures Inv(Run(INITIAL, steps).value)
  {
    hide Apply, Careful;
    if steps != [] {
      RunInv(steps[..|steps| - 1]);
      StepInv(Run(INITIAL, steps[..|steps| - 1]).value, steps[|steps| - 1]);
    }
  }

  // ---------------------------------------------------------------- results

  /** In every careful run, a cached path with no refresh in progress holds exactly the registered instances that
      parse, with a watch armed for the next change, or a change notification for it is undelivered. */
  lemma CacheIsFresh(steps: seq<Step>, path: string)
    requires Run(INITIAL, steps).Some? && CarefulRun(steps)
    requires path in Run(INITIAL, steps).value.cache && Quiet(Run(INITIAL, steps).value, path)
    ensures var s := Run(INITIAL, steps).value;
            path in s.notices || (path in s.watches && Reflects(s.cache[path], s.store, path))
  {
    hide Run, Quiet, CarefulRun;
    RunInv(steps);
  }

  /** `ChooseInstance`; the random draw is a parameter. */
  function Choose(instances: seq<Instance>, draw: nat): (r: Option<Instance>)
    ensures r.Some? <==> instances != []
    ensures r.Some? ==> r.value in instances
  {
    if instances == [] then None else Some(instances[draw % |instances|])
  }

  /** In every careful run, resolving a cached path with nothing undelivered returns an instance that is registered
      now, and fails only if none is. */
  lemma ResolveIsCurrent(steps: seq<Step>, path: string, draw: nat)
    requires Run(INITIAL, steps).Some? && CarefulRun(steps)
    requires path in Run(INITIAL, steps).value.cache && Quiet(Run(INITIAL, steps).value, path)
    requires path !in Run(INITIAL, steps).value.notices
    ensures var s := Run(INITIAL, steps).value;
            var r := Choose(s.cache[path], draw);
            && (r.Some? ==> Live(s.store, path, r.value.id, r.value.endpoint))
            && (r.None? <==> forall id, e :: !Live(s.store, path, id, e))
  {
    hide Run, Quiet, CarefulRun, Live;
    CacheIsFresh(steps, path);
    var s := Run(INITIAL, steps).value;
    var r := Choose(s.cache[path], draw);
    if r.Some? {
      assert Instance(r.value.id, r.value.endpoint) in s.cache[path];
    }
  }

  /** What the registrar writes is what the resolver reads: registering an endpoint makes it live. */
  lemma RegisteredIsLive(s: State, path: string, e: Endpoint)
    requires path in s.store && IsValid(e) && ':' !in e.host && '/' !in e.host
    requires |ToString(e)| <= DATA_BUFFER && Child(path, ToString(e)) !in s.store
    ensures var r := Apply(s, Create(path, ToString(e), ToString(e)));
            r.Some? && Live(r.value.store, path, ToString(e), e)
  {
    hide ParseInstance, Decimal, IsValid;
    InstanceRoundTrip(e);
    assert '/' !in ToString(e) by {
      var d := Decimal(e.port);
      assert forall i :: 0 <= i < |d| ==> IsDigit(d[i]);
    }
  }

  // ---------------------------------------------------------------- each condition is needed

  /** The conditions of `Careful`, one of them given up. */
  datatype Lapse = Overlaps | WatchedReadsFail | DataReadsFail

  ghost predicate Allowed(s: State, step: Step, lapse: Lapse)
  {
    || Careful(s, step)
    || (lapse.Overlaps? && (step.Miss? || step.Deliver?))
    || (lapse.WatchedReadsFail? && step.ReadChildrenFails?)
    || (lapse.DataReadsFail? && step.ReadData?)
  }

  ghost function RunBut(s: State, steps: seq<Step>, lapse: Lapse): (r: Option<State>)
  {
    if steps == [] then Some(s)
    else
      match RunBut(s, steps[..|steps| - 1], lapse)
      case None => None
      case Some(before) =>
        if Allowed(before, steps[|steps| - 1], lapse) then Apply(before, steps[|steps| - 1]) else None
  }

  ghost predicate Reaches(s: State, s': State, lapse: Lapse)
  {
    exists steps :: RunBut(s, steps, lapse) == Some(s')
  }

  /** The cache of a path that nothing is about to refresh is wrong. */
  ghost predicate Stale(s: State, path: string)
  {
    path in s.cache && Quiet(s, path) && path !in s.notices && !Reflects(s.cache[path], s.store, path)
  }

  lemma ReachSelf(s: State, lapse: Lapse)
    ensures Reaches(s, s, lapse)
  {
    assert RunBut(s, [], lapse) == Some(s);
  }

  lemma ReachStep(s: State, before: State, step: Step, after: State, lapse: Lapse)
    requires Reaches(s, before, lapse) && Allowed(before, step, lapse) && Apply(before, step) == Some(after)
    ensures Reaches(s, after, lapse)
  {
    hide Apply, Allowed;
    var steps :| RunBut(s, steps, lapse) == Some(before);
    assert (steps + [step])[..|steps|] == steps;
    assert RunBut(s, steps + [step], lapse) == Some(after);
  }

  lemma {:induction false} RunButJoin(s: State, first: seq<Step>, second: seq<Step>, lapse: Lapse)
    requires RunBut(s, first, lapse).Some?
    ensures RunBut(s, first + second, lapse) == RunBut(RunBut(s, first, lapse).value, second, lapse)
  {
    hide Apply, Allowed;
    if second == [] {
      assert first + second == first;
    } else {
      RunButJoin(s, first, second[..|second| - 1], lapse);
      assert (first + second)[..|first + second| - 1] == first + second[..|second| - 1];
    }
  }

  lemma ReachOn(s: State, middle: State, after: State, lapse: Lapse)
    requires Reaches(s, middle, lapse) && Reaches(middle, after, lapse)
    ensures Reaches(s, after, lapse)
  {
    hide RunBut;
    var first :| RunBut(s, first, lapse) == Some(middle);
    var second :| RunBut(middle, second, lapse) == Some(after);
    RunButJoin(s, first, second, lapse);
  }

  /** Notifications may be spent on refreshes whose watched read fails, all but `left` of them. */
  lemma {:induction false} Drain(s: State, path: string, id: nat, left: nat, lapse: Lapse)
    requires IsMethodPath(path) && id !in s.refreshes && left <= s.notices[path]
    requires Quiet(s, path) || lapse.Overlaps?
    requires path !in s.cache || lapse.WatchedReadsFail?
    ensures Reaches(s, s.(notices := s.notices[path := left]), lapse)
    decreases s.notices[path]
  {
    if s.notices[path] == left {
      assert s.notices[path := left] == s.notices;
      ReachSelf(s, lapse);
    } else {
      DrainOne(s, path, id, lapse);
      var s' := s.(notices := s.notices[path := s.notices[path] - 1]);
      Drain(s', path, id, left, lapse);
      assert s'.notices[path := left] == s.notices[path := left];
      ReachOn(s, s', s.(notices := s.notices[path := left]), lapse);
    }
  }

  lemma DrainOne(s: State, path: string, id: nat, lapse: Lapse)
    requires IsMethodPath(path) && id !in s.refreshes && path in s.notices
    requires Quiet(s, path) || lapse.Overlaps?
    requires path !in s.cache || lapse.WatchedReadsFail?
    ensures Reaches(s, s.(notices := s.notices[path := s.notices[path] - 1]), lapse)
  {
    hide IsMethodPath, Rebuilt, Reaches;
    CallbackKeepsKey(path);
    ReachSelf(s, lapse);
    var s1 := Apply(s, Deliver(path, id)).value;
    ReachStep(s, s, Deliver(path, id), s1, lapse);
    var s2 := s.(notices := s.notices[path := s.notices[path] - 1]);
    assert s1.refreshes - {id} == s.refreshes;
    ReachStep(s, s1, ReadChildrenFails(id), s2, lapse);
  }

  /** A refresh that has listed its children may read on to the end. */
  lemma {:induction false} ReadOn(s: State, id: nat, path: string, names: seq<string>, next: nat, lapse: Lapse)
    requires next <= |names| && id in s.refreshes
    requires s.refreshes[id] == Refresh(path, Reading(names, next, Found(s.store, path, names[..next])))
    ensures Reaches(s, WithRead(s, id, path, names, Found(s.store, path, names)), lapse)
    decreases |names| - next
  {
    hide Reaches, Keep, Lookup, Child;
    var done := WithRead(s, id, path, names, Found(s.store, path, names));
    if next == |names| {
      assert names[..next] == names;
      assert s.refreshes[id := s.refreshes[id]] == s.refreshes;
      ReachSelf(s, lapse);
    } else {
      assert names[..next + 1][..next] == names[..next];
      var s' := Apply(s, ReadData(id, false)).value;
      ReachSelf(s, lapse);
      ReachStep(s, s, ReadData(id, false), s', lapse);
      ReadOn(s', id, path, names, next + 1, lapse);
      assert WithRead(s', id, path, names, Found(s.store, path, names)) == done;
      ReachOn(s, s', done, lapse);
    }
  }

  /** Every data read may fail when that condition is given up. */
  lemma {:induction false} FailOn(s: State, id: nat, path: string, names: seq<string>, next: nat)
    requires next <= |names| && id in s.refreshes && s.refreshes[id] == Refresh(path, Reading(names, next, []))
    ensures Reaches(s, WithRead(s, id, path, names, []), DataReadsFail)
    decreases |names| - next
  {
    hide Reaches;
    var done := WithRead(s, id, path, names, []);
    if next == |names| {
      assert s.refreshes[id := s.refreshes[id]] == s.refreshes;
      ReachSelf(s, DataReadsFail);
    } else {
      var s' := Apply(s, ReadData(id, true)).value;
      var none: seq<Instance> := [];
      assert none + Keep(names[next], None) == [];
      assert s'.refreshes[id] == Refresh(path, Reading(names, next + 1, []));
      ReachSelf(s, DataReadsFail);
      ReachStep(s, s, ReadData(id, true), s', DataReadsFail);
      FailOn(s', id, path, names, next + 1);
      assert WithRead(s', id, path, names, []) == done;
      ReachOn(s, s', done, DataReadsFail);
    }
  }

  /** The refresh has read all its children. */
  function WithRead(s: State, id: nat, path: string, names: seq<string>, found: seq<Instance>): (s': State)
  {
    s.(refreshes := s.refreshes[id := Refresh(path, Reading(names, |names|, found))])
  }

  /** A cache miss lists the children. */
  function WithListed(s: State, id: nat, path: string, names: seq<string>): (s': State)
  {
    s.(watches := s.watches[path := s.watches[path] + 1],
       refreshes := s.refreshes[id := Refresh(path, Reading(names, 0, []))])
  }

  lemma ReachMissed(s: State, service: string, method_: string, id: nat, names: seq<string>, lapse: Lapse)
    requires var path := BuildMethodPath(service, method_);
             path !in s.cache && path in s.store && Quiet(s, path) && Lists(names, s.store, path)
    requires id !in s.refreshes
    ensures Reaches(s, WithListed(s, id, BuildMethodPath(service, method_), names), lapse)
  {
    hide Reaches, BuildMethodPath, Lists, Quiet;
    var path := BuildMethodPath(service, method_);
    ReachSelf(s, lapse);
    var s1 := Apply(s, Miss(service, method_, id)).value;
    ReachStep(s, s, Miss(service, method_, id), s1, lapse);
    assert s1.refreshes[id := Refresh(path, Reading(names, 0, []))]
        == s.refreshes[id := Refresh(path, Reading(names, 0, []))];
    ReachStep(s, s1, ReadChildren(id, names), WithListed(s, id, path, names), lapse);
  }

  /** A notification starts a refresh that lists the children. */
  lemma ReachDelivered(s: State, path: string, id: nat, names: seq<string>)
    requires IsMethodPath(path) && path in s.notices && path in s.store && Lists(names, s.store, path)
    requires id !in s.refreshes
    ensures Reaches(s, WithListed(s.(notices := s.notices[path := s.notices[path] - 1]), id, path, names), Overlaps)
  {
    hide Reaches, Lists, IsMethodPath, Rebuilt;
    CallbackKeepsKey(path);
    ReachSelf(s, Overlaps);
    var s1 := Apply(s, Deliver(path, id)).value;
    ReachStep(s, s, Deliver(path, id), s1, Overlaps);
    assert s1.refreshes[id := Refresh(path, Reading(names, 0, []))]
        == s.refreshes[id := Refresh(path, Reading(names, 0, []))];
    var s2 := WithListed(s.(notices := s.notices[path := s.notices[path] - 1]), id, path, names);
    ReachStep(s, s1, ReadChildren(id, names), s2, Overlaps);
  }

  lemma ReachStored(s: State, id: nat, path: string, names: seq<string>, found: seq<Instance>, lapse: Lapse)
    requires id !in s.refreshes
    ensures Reaches(WithRead(s, id, path, names, found), s.(cache := s.cache[path := found]), lapse)
  {
    hide Reaches;
    var s1 := WithRead(s, id, path, names, found);
    assert s1.refreshes - {id} == s.refreshes;
    ReachSelf(s1, lapse);
    ReachStep(s1, s1, StoreInCache(id), s.(cache := s.cache[path := found]), lapse);
  }

  /** Without the condition on watched reads, every cached path can be lost: a new instance appears, every notification
      of it meets a failed read, and the cache stays wrong with no watch and no notification left. */
  lemma FailedReadGoesStale(s: State, path: string, name: string, data: string, e: Endpoint, id: nat)
      returns (s': State)
    requires path in s.store && path in s.cache && Quiet(s, path) && Reflects(s.cache[path], s.store, path)
    requires IsMethodPath(path) && id !in s.refreshes
    requires '/' !in name && Child(path, name) !in s.store && |data| <= DATA_BUFFER && ParseInstance(data) == Good(e)
    ensures Reaches(s, s', WatchedReadsFail) && Stale(s', path) && path !in s'.watches
  {
    hide ParseInstance, IsMethodPath, Reaches;
    ReachSelf(s, WatchedReadsFail);
    var s1 := Apply(s, Create(path, name, data)).value;
    ReachStep(s, s, Create(path, name, data), s1, WatchedReadsFail);
    Drain(s1, path, id, 0, WatchedReadsFail);
    s' := s1.(notices := s1.notices[path := 0]);
    ReachOn(s, s1, s', WatchedReadsFail);
    assert Live(s1.store, path, name, e) && !Live(s.store, path, name, e);
    assert Instance(name, e) !in s.cache[path];
  }

  /** Without the condition on data reads, every uncached path with a live instance can be cached without it. */
  lemma FailedDataGoesStale(
      s: State, service: string, method_: string, names: seq<string>, name: string, e: Endpoint, id: nat)
      returns (s': State)
    requires var path := BuildMethodPath(service, method_);
             && path in s.store && path !in s.cache && Quiet(s, path)
             && Lists(names, s.store, path) && Live(s.store, path, name, e)
    requires id !in s.refreshes
    ensures Reaches(s, s', DataReadsFail) && Stale(s', BuildMethodPath(service, method_))
  {
    var path := BuildMethodPath(service, method_);
    assert IsMethodPath(path);
    hide Reaches, BuildMethodPath, Live, Lists, IsMethodPath;
    Drain(s, path, id, 0, DataReadsFail);
    var s1 := s.(notices := s.notices[path := 0]);
    ReachMissed(s1, service, method_, id, names, DataReadsFail);
    var s2 := WithListed(s1, id, path, names);
    ReachOn(s, s1, s2, DataReadsFail);
    FailOn(s2, id, path, names, 0);
    var s3 := s1.(watches := s2.watches);
    assert WithRead(s2, id, path, names, []) == WithRead(s3, id, path, names, []);
    ReachOn(s, s2, WithRead(s3, id, path, names, []), DataReadsFail);
    ReachStored(s3, id, path, names, [], DataReadsFail);
    s' := s3.(cache := s3.cache[path := []]);
    ReachOn(s, WithRead(s3, id, path, names, []), s', DataReadsFail);
    assert Instance(name, e) !in s'.cache[path];
  }

  lemma ListsAdded(store: Store, path: string, names: seq<string>, name: string, data: string)
    requires Lists(names, store, path) && '/' !in name && Child(path, name) !in store
    ensures name !in names && Lists(names + [name], store[Child(path, name) := data], path)
  {
    var store' := store[Child(path, name) := data];
    assert !IsChild(store, path, name);
    forall n
      ensures n in names + [name] <==> IsChild(store', path, n)
    {
      assert n in names <==> IsChild(store, path, n);
      if '/' !in n && Child(path, n) == Child(path, name) { ChildInjective(path, n, path, name); }
    }
  }

  lemma FoundNone(store: Store, path: string)
    ensures Found(store, path, []) == []
  {
  }

  /** First half of an overlap: a cache miss reads every child, then an instance appears, and one notification is left
      to deliver. */
  lemma MissThenCreate(
      s: State, service: string, method_: string, names: seq<string>, name: string, data: string, i: nat, j: nat)
      returns (s': State)
    requires var path := BuildMethodPath(service, method_);
             path in s.store && path !in s.cache && Quiet(s, path) && Lists(names, s.store, path)
    requires i !in s.refreshes && j !in s.refreshes && i != j
    requires '/' !in name && Child(BuildMethodPath(service, method_), name) !in s.store
    ensures var path := BuildMethodPath(service, method_);
            && Reaches(s, s', Overlaps) && s'.notices[path] == 1 && s'.cache == s.cache
            && s'.store == s.store[Child(path, name) := data]
            && s'.refreshes == s.refreshes[i := Refresh(path, Reading(names, |names|, Found(s.store, path, names)))]
  {
    var path := BuildMethodPath(service, method_);
    assert IsMethodPath(path);
    hide Reaches, BuildMethodPath, Lists, IsMethodPath, Child, Quiet, Found;
    FoundNone(s.store, path);
    ReachMissed(s, service, method_, i, names, Overlaps);
    var s1 := WithListed(s, i, path, names);
    assert names[..0] == [];
    ReadOn(s1, i, path, names, 0, Overlaps);
    var s2 := WithRead(s1, i, path, names, Found(s.store, path, names));
    ReachOn(s, s1, s2, Overlaps);
    var s3 := Apply(s2, Create(path, name, data)).value;
    ReachStep(s, s2, Create(path, name, data), s3, Overlaps);
    Drain(s3, path, j, 1, Overlaps);
    s' := s3.(notices := s3.notices[path := 1]);
    ReachOn(s, s3, s', Overlaps);
  }

  /** Second half: the notification refreshes to the end, and the older refresh then stores what it read. */
  lemma OlderStoresLast(s: State, path: string, i: nat, j: nat, older: seq<string>, names: seq<string>,
                        found: seq<Instance>) returns (s': State)
    requires IsMethodPath(path) && path in s.store && s.notices[path] == 1 && i != j
    requires j !in s.refreshes && i in s.refreshes && s.refreshes[i] == Refresh(path, Reading(older, |older|, found))
    requires Lists(names, s.store, path)
    ensures Reaches(s, s', Overlaps)
    ensures s'.store == s.store && path !in s'.notices && s'.refreshes == s.refreshes - {i}
    ensures path in s'.cache && s'.cache[path] == found
  {
    hide Reaches, Lists, IsMethodPath;
    ReachDelivered(s, path, j, names);
    var s1 := WithListed(s.(notices := s.notices[path := 0]), j, path, names);
    assert names[..0] == [];
    ReadOn(s1, j, path, names, 0, Overlaps);
    var newer := Found(s.store, path, names);
    var s2 := s.(notices := s.notices[path := 0], watches := s1.watches);
    assert WithRead(s1, j, path, names, newer) == WithRead(s2, j, path, names, newer);
    ReachOn(s, s1, WithRead(s2, j, path, names, newer), Overlaps);
    ReachStored(s2, j, path, names, newer, Overlaps);
    var s3 := s2.(cache := s2.cache[path := newer]);
    ReachOn(s, WithRead(s2, j, path, names, newer), s3, Overlaps);
    var s4 := s3.(refreshes := s.refreshes - {i});
    assert s4.refreshes[i := s.refreshes[i]] == s.refreshes;
    assert WithRead(s4, i, path, older, found) == s3;
    ReachStored(s4, i, path, older, found, Overlaps);
    s' := s4.(cache := s4.cache[path := found]);
    ReachOn(s, s3, s', Overlaps);
  }

  /** Without the condition on overlaps, every path that is not cached can end with an older answer: a cache miss that
      is overtaken by the refresh of a notification stores what was registered before. */
  lemma OverlapGoesStale(s: State, service: string, method_: string, names: seq<string>, name: string, data: string,
                         e: Endpoint, i: nat, j: nat) returns (s': State)
    requires var path := BuildMethodPath(service, method_);
             && path in s.store && path !in s.cache && Quiet(s, path) && Lists(names, s.store, path)
             && Child(path, name) !in s.store
    requires i !in s.refreshes && j !in s.refreshes && i != j
    requires '/' !in name && |data| <= DATA_BUFFER && ParseInstance(data) == Good(e)
    ensures var path := BuildMethodPath(service, method_);
            && Reaches(s, s', Overlaps) && Stale(s', path)
            && s'.cache[path] == Found(s.store, path, names) && Reflects(s'.cache[path], s.store, path)
  {
    var path := BuildMethodPath(service, method_);
    assert IsMethodPath(path);
    hide ParseInstance, BuildMethodPath, Reaches, Lists, IsMethodPath, Found;
    var found := Found(s.store, path, names);
    var s1 := MissThenCreate(s, service, method_, names, name, data, i, j);
    ListsAdded(s.store, path, names, name, data);
    s' := OlderStoresLast(s1, path, i, j, names, names + [name], found);
    ReachOn(s, s1, s', Overlaps);
    FoundReflects(s.store, path, names);
    assert Live(s'.store, path, name, e) && !Live(s.store, path, name, e);
    assert Instance(name, e) !in found;
  }

  // ---------------------------------------------------------------- the resolver

  /** What the calls into the tree return during one refresh: the watched read, then one result per child. */
  datatype Replies = Replies(children: Option<seq<string>>, data: seq<Option<string>>)

  predicate Complete(replies: Replies)
  {
    replies.children.Some? ==> |replies.data| == |replies.children.value|
  }

  /** Reading every child from one unchanged tree collects what the step system finds. */
  lemma {:induction false} CollectIsFound(store: Store, path: string, names: seq<string>, data: seq<Option<string>>)
    requires |names| == |data| && forall i :: 0 <= i < |names| ==> data[i] == Lookup(store, Child(path, names[i]))
    ensures Collect(names, data) == Found(store, path, names)
  {
    hide Keep, Lookup, Child;
    if names != [] {
      CollectIsFound(store, path, names[..|names| - 1], data[..|names| - 1]);
    }
  }

  /** The steps of one successful refresh; `fails` says which data reads fail. */
  function RefreshSteps(id: nat, names: seq<string>, fails: seq<bool>): (steps: seq<Step>)
  {
    [ReadChildren(id, names)] + DataSteps(id, fails) + [StoreInCache(id)]
  }

  function DataSteps(id: nat, fails: seq<bool>): (steps: seq<Step>)
    ensures |steps| == |fails|
  {
    seq(|fails|, i requires 0 <= i < |fails| => ReadData(id, fails[i]))
  }

  /** The replies are what a refresh that has just been called gets from the state's tree. */
  ghost predicate Serves(s: State, id: nat, path: string, replies: Replies, fails: seq<bool>)
  {
    && id in s.refreshes && s.refreshes[id] == Refresh(path, Calling) && path in s.store
    && replies.children.Some? && Lists(replies.children.value, s.store, path)
    && |replies.children.value| == |replies.data| == |fails|
    && (forall i :: 0 <= i < |fails| ==>
          replies.data[i] == if fails[i] then None else Lookup(s.store, Child(path, replies.children.value[i])))
  }

  /** The state after a refresh that stored `found`. */
  function Refreshed(s: State, id: nat, path: string, found: seq<Instance>): (s': State)
  {
    s.(watches := s.watches[path := s.watches[path] + 1], refreshes := s.refreshes - {id},
       cache := s.cache[path := found])
  }

  /** The state when a refresh has made its watched read and `k` data reads. */
  function AtRead(s: State, id: nat, path: string, names: seq<string>, k: nat, found: seq<Instance>): (s': State)
  {
    s.(watches := s.watches[path := s.watches[path] + 1],
       refreshes := s.refreshes[id := Refresh(path, Reading(names, k, found))])
  }

  lemma RunStep(s: State, steps: seq<Step>, step: Step)
    requires Run(s, steps).Some?
    ensures Run(s, steps + [step]) == Apply(Run(s, steps).value, step)
  {
    hide Apply;
    assert (steps + [step])[..|steps|] == steps;
  }

  lemma ChildrenStep(s: State, id: nat, path: string, names: seq<string>)
    requires id in s.refreshes && s.refreshes[id] == Refresh(path, Calling) && path in s.store
    requires Lists(names, s.store, path)
    ensures Run(s, [ReadChildren(id, names)]) == Some(AtRead(s, id, path, names, 0, []))
  {
    hide Lists;
    assert [ReadChildren(id, names)][..0] == [];
    assert Run(s, []) == Some(s);
  }

  lemma DataStep(s: State, id: nat, path: string, names: seq<string>, k: nat, found: seq<Instance>, fails: bool)
    requires k < |names|
    ensures var read := if fails then None else Lookup(s.store, Child(path, names[k]));
            Apply(AtRead(s, id, path, names, k, found), ReadData(id, fails))
              == Some(AtRead(s, id, path, names, k + 1, found + Keep(names[k], read)))
  {
    hide Keep, Lookup, Child;
    var read := if fails then None else Lookup(s.store, Child(path, names[k]));
    var next := Refresh(path, Reading(names, k + 1, found + Keep(names[k], read)));
    var at := AtRead(s, id, path, names, k, found);
    assert at.refreshes[id := next] == s.refreshes[id := next];
  }

  lemma CollectMore(names: seq<string>, data: seq<Option<string>>, k: nat)
    requires |names| == |data| && k < |names|
    ensures Collect(names[..k + 1], data[..k + 1]) == Collect(names[..k], data[..k]) + Keep(names[k], data[k])
  {
    hide Keep;
    assert names[..k + 1][..k] == names[..k] && data[..k + 1][..k] == data[..k];
  }

  lemma {:induction false} ReadsAreRun(s: State, id: nat, path: string, replies: Replies, fails: seq<bool>, k: nat)
    requires Serves(s, id, path, replies, fails) && k <= |fails|
    ensures var names := replies.children.value;
            Run(s, [ReadChildren(id, names)] + DataSteps(id, fails[..k]))
              == Some(AtRead(s, id, path, names, k, Collect(names[..k], replies.data[..k])))
  {
    hide Keep, Lookup, Child, Lists, Apply, Run, AtRead;
    var names := replies.children.value;
    var first := [ReadChildren(id, names)];
    if k == 0 {
      assert first + DataSteps(id, fails[..0]) == first;
      ChildrenStep(s, id, path, names);
    } else {
      ReadsAreRun(s, id, path, replies, fails, k - 1);
      assert DataSteps(id, fails[..k]) == DataSteps(id, fails[..k - 1]) + [ReadData(id, fails[k - 1])];
      assert first + DataSteps(id, fails[..k])
          == (first + DataSteps(id, fails[..k - 1])) + [ReadData(id, fails[k - 1])];
      hide DataSteps, Collect;
      RunStep(s, first + DataSteps(id, fails[..k - 1]), ReadData(id, fails[k - 1]));
      DataStep(s, id, path, names, k - 1, Collect(names[..k - 1], replies.data[..k - 1]), fails[k - 1]);
      CollectMore(names, replies.data, k - 1);
    }
  }

  /** A refresh against an unchanged tree is a run of the step system, and stores what the loop collects. */
  lemma RefreshIsRun(s: State, id: nat, path: string, replies: Replies, fails: seq<bool>)
    requires Serves(s, id, path, replies, fails)
    ensures var names := replies.children.value;
            Run(s, RefreshSteps(id, names, fails)) == Some(Refreshed(s, id, path, Collect(names, replies.data)))
  {
    hide Collect, Lists, Run, Lookup, Child, DataSteps;
    var names := replies.children.value;
    ReadsAreRun(s, id, path, replies, fails, |fails|);
    assert fails[..|fails|] == fails && names[..|fails|] == names && replies.data[..|fails|] == replies.data;
    RunStep(s, [ReadChildren(id, names)] + DataSteps(id, fails), StoreInCache(id));
    var before := AtRead(s, id, path, names, |names|, Collect(names, replies.data));
    assert before.refreshes - {id} == s.refreshes - {id};
  }

  class ZkResolver {
    var cache: map<string, seq<Instance>>

    constructor ()
      ensures cache == map[]
    {
      cache := map[];
    }

    method RefreshMethod(service: string, method_: string, replies: Replies) returns (r: Option<seq<Instance>>)
      requires Complete(replies)
      modifies this
      ensures r.None? <==> replies.children.None?
      ensures r.None? ==> cache == old(cache)
      ensures r.Some? ==> r.value == Collect(replies.children.value, replies.data)
      ensures r.Some? ==> cache == old(cache)[BuildMethodPath(service, method_) := r.value]
      // Whatever tree the replies came from, the call is a run of the step system from its watched read to its store.
      ensures forall s: State, id, fails ::
                s.cache == old(cache) && Serves(s, id, BuildMethodPath(service, method_), replies, fails) ==>
                  var after := Run(s, RefreshSteps(id, replies.children.value, fails));
                  && r.Some? && after.Some? && after.value.cache == cache && id !in after.value.refreshes
                  && after == Some(Refreshed(s, id, BuildMethodPath(service, method_), r.value))
    {
      hide ParseInstance;
      if replies.children.None? { return None; }
      var names := replies.children.value;
      var instances: seq<Instance> := [];
      for i := 0 to |names|
        invariant instances == Collect(names[..i], replies.data[..i])
      {
        assert names[..i + 1][..i] == names[..i] && replies.data[..i + 1][..i] == replies.data[..i];
        if replies.data[i].Some? {
          var parsed := ParseInstance(replies.data[i].value);
          if parsed.Good? { instances := instances + [Instance(names[i], parsed.value)]; }
        }
      }
      assert names[..|names|] == names && replies.data[..|names|] == replies.data;
      cache := cache[BuildMethodPath(service, method_) := instances];
      hide Collect, Run, RefreshSteps;
      forall s: State, id, fails |
        s.cache == old(cache) && Serves(s, id, BuildMethodPath(service, method_), replies, fails)
        ensures Run(s, RefreshSteps(id, names, fails))
             == Some(Refreshed(s, id, BuildMethodPath(service, method_), instances))
      {
        RefreshIsRun(s, id, BuildMethodPath(service, method_), replies, fails);
      }
      return Some(instances);
    }

    method Resolve(service: string, method_: string, replies: Replies, draw: nat) returns (r: Option<Instance>)
      requires Complete(replies)
      modifies this
      ensures var path := BuildMethodPath(service, method_);
              if path in old(cache) then cache == old(cache) && r == Choose(cache[path], draw)
              else if replies.children.None? then cache == old(cache) && r == None
              else && cache == old(cache)[path := Collect(replies.children.value, replies.data)]
                   && r == Choose(cache[path], draw)
    {
      hide Choose, Collect;
      var path := BuildMethodPath(service, method_);
      if path in cache { return Choose(cache[path], draw); }
      var refreshed := RefreshMethod(service, method_, replies);
      if refreshed.None? { return None; }
      return Choose(refreshed.value, draw);
    }

    method OnMethodChanged(path: string, replies: Replies)
      requires Complete(replies)
      modifies this
      ensures IsMethodPath(path) && replies.children.Some? ==>
                cache == old(cache)[path := Collect(replies.children.value, replies.data)]
      ensures Rebuilt(path).None? || replies.children.None? ==> cache == old(cache)
      ensures Rebuilt(path).Some? && replies.children.Some? ==>
                cache == old(cache)[Rebuilt(path).value := Collect(replies.children.value, replies.data)]
    {
      hide LastSlash, Collect;
      CallbackKeepsKey(path);
      var last := LastSlash(path);
      if last.None? || last.value == 0 { return; }
      var _ := RefreshMethod(path[1..last.value], path[last.value + 1..], replies);
    }
  }
}
