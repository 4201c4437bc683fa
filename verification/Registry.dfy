/** The server's index of registered methods. */
module Registry {
  import opened Bytes
  import opened Codec

  type Name = seq<Byte>

  const DOT: Byte := 46

  datatype Registered = Registered(service: Name, method_: Name, instance: nat)

  /** A service object: its descriptor's names and its identity. */
  datatype Service = Service(name: Name, methods: seq<Name>, instance: nat)

  function Key(service: Name, method_: Name): (k: Name)
  {
    service + [DOT] + method_
  }

  /** protobuf identifiers contain no dot. */
  predicate DotFree(n: Name)
  {
    DOT !in n
  }

  predicate WellNamed(log: seq<Registered>)
  {
    forall i :: 0 <= i < |log| ==> DotFree(log[i].service) && DotFree(log[i].method_)
  }

  /** The map after a sequence of registrations. */
  function Index(log: seq<Registered>): (m: map<Name, Registered>)
  {
    if log == [] then map[]
    else
      var last := log[|log| - 1];
      Index(log[..|log| - 1])[Key(last.service, last.method_) := last]
  }

  /** The last registration of exactly this service and method. */
  function LastMatch(log: seq<Registered>, service: Name, method_: Name): (r: Option<Registered>)
  {
    if log == [] then None
    else
      var last := log[|log| - 1];
      if last.service == service && last.method_ == method_ then Some(last)
      else LastMatch(log[..|log| - 1], service, method_)
  }

  predicate ServiceExists(methods: map<Name, Registered>, service: Name)
  {
    exists k :: k in methods && methods[k].service == service
  }

  function Lookup(methods: map<Name, Registered>, service: Name, method_: Name): (r: Result<Registered>)
  {
    var k := Key(service, method_);
    if k in methods then Ok(methods[k])
    else if ServiceExists(methods, service) then Err(RpcError(UNKNOWN_METHOD, Ascii("unknown method")))
    else Err(RpcError(UNKNOWN_SERVICE, Ascii("unknown service")))
  }

  /** One dot splits a joined key in only one way, whatever the request names contain. */
  lemma KeyInjective(s: Name, m: Name, s': Name, m': Name)
    requires DotFree(s') && DotFree(m') && Key(s, m) == Key(s', m')
    ensures s == s' && m == m'
  {
    var k := Key(s, m);
    assert k[|s|] == DOT && k[|s'|] == DOT;
    assert |s| == |s'|;
    assert k[..|s|] == s && k[|s| + 1..] == m;
    assert k[..|s'|] == s' && k[|s'| + 1..] == m';
  }

  lemma {:induction false} IndexAgrees(log: seq<Registered>, service: Name, method_: Name)
    requires WellNamed(log)
    ensures Key(service, method_) in Index(log) <==> LastMatch(log, service, method_).Some?
    ensures Key(service, method_) in Index(log) ==>
              LastMatch(log, service, method_) == Some(Index(log)[Key(service, method_)])
  {
    if log != [] {
      var last, front := log[|log| - 1], log[..|log| - 1];
      assert WellNamed(front);
      IndexAgrees(front, service, method_);
      if Key(service, method_) == Key(last.service, last.method_) {
        KeyInjective(service, method_, last.service, last.method_);
      }
    }
  }

  lemma {:induction false} ServiceAgrees(log: seq<Registered>, service: Name)
    requires WellNamed(log)
    ensures ServiceExists(Index(log), service) <==> exists i :: 0 <= i < |log| && log[i].service == service
  {
    if log != [] {
      var last, front := log[|log| - 1], log[..|log| - 1];
      assert WellNamed(front);
      ServiceAgrees(front, service);
      var m, m' := Index(front), Index(log);
      var k := Key(last.service, last.method_);
      if ServiceExists(m, service) {
        var k0 :| k0 in m && m[k0].service == service;
        IndexKeys(front, k0);
        if k0 == k {
          KeyInjective(m[k0].service, m[k0].method_, last.service, last.method_);
        }
        assert k0 in m' && m'[k0].service == service;
        var i :| 0 <= i < |front| && front[i].service == service;
        assert log[i].service == service;
      }
      if last.service == service { assert k in m' && m'[k].service == service; }
      if ServiceExists(m', service) {
        var k1 :| k1 in m' && m'[k1].service == service;
        if k1 != k { assert k1 in m; } else { assert log[|log| - 1].service == service; }
      }
      if i :| 0 <= i < |log| && log[i].service == service {
        if i < |front| { assert front[i].service == service; }
      }
    }
  }

  lemma {:induction false} IndexKeys(log: seq<Registered>, k: Name)
    requires WellNamed(log) && k in Index(log)
    ensures k == Key(Index(log)[k].service, Index(log)[k].method_)
  {
    var last, front := log[|log| - 1], log[..|log| - 1];
    assert WellNamed(front);
    if k != Key(last.service, last.method_) { IndexKeys(front, k); }
  }

  /** For arbitrary request strings, the index answers as a scan of all registrations would: the last
      registration of exactly these names, else whether the service is known at all. */
  lemma LookupIsScan(log: seq<Registered>, service: Name, method_: Name)
    requires WellNamed(log)
    ensures var r := Lookup(Index(log), service, method_);
            match LastMatch(log, service, method_)
            case Some(entry) => r == Ok(entry)
            case None =>
              r == Err(if exists i :: 0 <= i < |log| && log[i].service == service
                       then RpcError(UNKNOWN_METHOD, Ascii("unknown method"))
                       else RpcError(UNKNOWN_SERVICE, Ascii("unknown service")))
  {
    IndexAgrees(log, service, method_);
    ServiceAgrees(log, service);
  }

  function Entries(s: Service): (es: seq<Registered>)
  {
    seq(|s.methods|, i requires 0 <= i < |s.methods| => Registered(s.name, s.methods[i], s.instance))
  }

  class ServiceRegistry {
    var methods: map<Name, Registered>
    ghost var log: seq<Registered>

    ghost predicate Valid()
      reads this
    {
      WellNamed(log) && methods == Index(log)
    }

    constructor ()
      ensures Valid() && log == []
    {
      methods, log := map[], [];
    }

    method RegisterService(service: Service)
      requires Valid()
      requires DotFree(service.name) && forall i :: 0 <= i < |service.methods| ==> DotFree(service.methods[i])
      modifies this
      ensures Valid() && log == old(log) + Entries(service)
    {
      var index := 0;
      assert old(log) + Entries(service)[..0] == old(log);
      while index < |service.methods|
        invariant 0 <= index <= |service.methods|
        invariant Valid() && log == old(log) + Entries(service)[..index]
      {
        var entry := Registered(service.name, service.methods[index], service.instance);
        methods := methods[Key(service.name, service.methods[index]) := entry];
        ghost var before := log;
        log := log + [entry];
        assert log[..|log| - 1] == before;
        assert Entries(service)[..index + 1] == Entries(service)[..index] + [entry];
        index := index + 1;
      }
      assert Entries(service)[..index] == Entries(service);
    }

    method Find(service: Name, method_: Name) returns (r: Result<Registered>)
      requires Valid()
      ensures match LastMatch(log, service, method_)
              case Some(entry) => r == Ok(entry)
              case None =>
                r == Err(if exists i :: 0 <= i < |log| && log[i].service == service
                         then RpcError(UNKNOWN_METHOD, Ascii("unknown method"))
                         else RpcError(UNKNOWN_SERVICE, Ascii("unknown service")))
    {
      hide Lookup, LastMatch;
      LookupIsScan(log, service, method_);
      r := Lookup(methods, service, method_);
    }
  }
}
