/** The coroutine runtime: waits move from the pending list through the loop thread into the registration table and
    out again, while other threads enqueue and destroy awaiters. Every lock region is one step; the cancelled check
    and the resume in `ResumeReady` are one step. */
module AsyncRuntime {
  import opened Bytes

  type Wait = nat
  type Token = nat

  /** A `WaitRegistration`. */
  datatype Reg = Reg(wait: Wait, token: Token, deadline: int)

  /** The shared `WaitState` of an awaiter, with what happened to it: whether it was handed to the runtime, and how
      often its coroutine was resumed. */
  datatype WaitState = WaitState(
    timedOut: bool, completed: bool, cancelled: bool, token: Token, enqueued: bool, resumes: nat)

  /** The local variables of the loop thread. */
  datatype Mode =
    | Idle
    | Registering(batch: seq<Reg>)
    | Resuming(reg: Reg)
    | Expiring(now: int, batch: seq<Reg>)

  /** Where a thread stands in `~FdAwaiter` and the `Cancel` it may call. */
  datatype Cancel = Marked | TokenRead(token: Token) | Sweeping(token: Token) | Unhooking(token: Token) | Gone

  datatype State = State(
    next: Token, pending: seq<Reg>, registrations: map<Token, Reg>, mode: Mode, waits: map<Wait, WaitState>,
    cancels: map<Wait, Cancel>)

  const FRESH: WaitState := WaitState(false, false, false, 0, false, 0)
  const INITIAL: State := State(1, [], map[], Idle, map[], map[])

  // ---------------------------------------------------------------- regions

  /** completed := true; token := 0. */
  function Settle(waits: map<Wait, WaitState>, w: Wait): (r: map<Wait, WaitState>)
    ensures r.Keys == waits.Keys
  {
    if w in waits then waits[w := waits[w].(completed := true, token := 0)] else waits
  }

  /** `ResumeReady`: a cancelled wait is only settled. */
  function ResumeReady(waits: map<Wait, WaitState>, w: Wait, timedOut: bool): (r: map<Wait, WaitState>)
    ensures r.Keys == waits.Keys
  {
    if w !in waits then waits
    else if waits[w].cancelled then Settle(waits, w)
    else waits[w := waits[w].(timedOut := timedOut, completed := true, token := 0, resumes := waits[w].resumes + 1)]
  }

  function Without(rs: seq<Reg>, token: Token): (r: seq<Reg>)
  {
    if rs == [] then []
    else (if rs[0].token == token then [] else [rs[0]]) + Without(rs[1..], token)
  }

  function SettleAll(rs: seq<Reg>, token: Token, waits: map<Wait, WaitState>): (r: map<Wait, WaitState>)
    ensures r.Keys == waits.Keys
  {
    if rs == [] then waits
    else SettleAll(rs[1..], token, if rs[0].token == token then Settle(waits, rs[0].wait) else waits)
  }

  /** The first region of `Cancel`. */
  function SweepPending(s: State, token: Token): (s': State)
  {
    s.(pending := Without(s.pending, token), waits := SettleAll(s.pending, token, s.waits))
  }

  /** The second region of `Cancel`. */
  function Unhook(s: State, token: Token): (s': State)
  {
    if token !in s.registrations then s
    else s.(registrations := s.registrations - {token}, waits := Settle(s.waits, s.registrations[token].wait))
  }

  function EnqueueRegion(s: State, w: Wait, deadline: int): (s': State)
    requires w in s.waits
  {
    s.(next := s.next + 1, pending := s.pending + [Reg(w, s.next, deadline)],
       waits := s.waits[w := s.waits[w].(token := s.next, enqueued := true)])
  }

  function Due(registrations: map<Token, Reg>, now: int): (r: set<Token>)
  {
    set t | t in registrations && registrations[t].deadline <= now
  }

  /** The due registrations in the order in which the table is walked. */
  ghost predicate Lists(batch: seq<Reg>, registrations: map<Token, Reg>, due: set<Token>)
  {
    && (forall i :: 0 <= i < |batch| ==> batch[i].token in due && batch[i].token in registrations
                                         && batch[i] == registrations[batch[i].token])
    && (forall t :: t in due ==> t in registrations && registrations[t] in batch)
    && Distinct(batch)
  }

  ghost predicate Distinct(rs: seq<Reg>)
  {
    forall i, j :: 0 <= i < j < |rs| ==> rs[i].token != rs[j].token
  }

  // ---------------------------------------------------------------- steps

  datatype Step =
    | Create(w: Wait)
    | Enqueue(w: Wait, deadline: int)
    | DestroyMark(w: Wait)
    | DestroyReadToken(w: Wait)
    | DestroyCheck(w: Wait)
    | CancelSweep(w: Wait)
    | CancelUnhook(w: Wait)
    | PublicSweep(token: Token)
    | PublicUnhook(token: Token)
    | TakePending
    | RegisterOne(ok: bool)
    | RegisterDone
    | Fire(token: Token)
    | ResumeFired
    | Expire(now: int, batch: seq<Reg>)
    | ResumeExpired
    | ExpireDone

  ghost function Apply(s: State, step: Step): (r: Option<State>)
  {
    match step
    case Create(w) => if w in s.waits then None else Some(s.(waits := s.waits[w := FRESH]))
    // An awaiter is awaited once, before it is destroyed, and tokens are 64 bits wide.
    case Enqueue(w, deadline) =>
      if w in s.waits && !s.waits[w].enqueued && w !in s.cancels && s.next < U64 then
        Some(EnqueueRegion(s, w, deadline))
      else None
    case DestroyMark(w) =>
      if w in s.waits && w !in s.cancels then
        Some(s.(waits := s.waits[w := s.waits[w].(cancelled := true)], cancels := s.cancels[w := Marked]))
      else None
    case DestroyReadToken(w) =>
      if w in s.waits && w in s.cancels && s.cancels[w].Marked? then
        Some(s.(cancels := s.cancels[w := if s.waits[w].token == 0 then Gone else TokenRead(s.waits[w].token)]))
      else None
    case DestroyCheck(w) =>
      if w in s.waits && w in s.cancels && s.cancels[w].TokenRead? then
        Some(s.(cancels := s.cancels[w := if s.waits[w].completed then Gone else Sweeping(s.cancels[w].token)]))
      else None
    case CancelSweep(w) =>
      if w in s.cancels && s.cancels[w].Sweeping? then
        Some(SweepPending(s, s.cancels[w].token).(cancels := s.cancels[w := Unhooking(s.cancels[w].token)]))
      else None
    case CancelUnhook(w) =>
      if w in s.cancels && s.cancels[w].Unhooking? then
        Some(Unhook(s, s.cancels[w].token).(cancels := s.cancels[w := Gone]))
      else None
    // `Cancel` is public and takes any token; its two regions, for a caller that is no destructor.
    case PublicSweep(token) => if token != 0 then Some(SweepPending(s, token)) else None
    case PublicUnhook(token) => if token != 0 then Some(Unhook(s, token)) else None
    case TakePending => if s.mode.Idle? then Some(s.(mode := Registering(s.pending), pending := [])) else None
    // A failed epoll registration is reported to the coroutine as a timeout.
    case RegisterOne(ok) =>
      if s.mode.Registering? && s.mode.batch != [] then
        var r := s.mode.batch[0];
        var s' := s.(mode := Registering(s.mode.batch[1..]));
        Some(if ok then s'.(registrations := s.registrations[r.token := r])
             else s'.(waits := ResumeReady(s.waits, r.wait, true)))
      else None
    case RegisterDone => if s.mode.Registering? && s.mode.batch == [] then Some(s.(mode := Idle)) else None
    case Fire(token) =>
      if s.mode.Idle? && token in s.registrations then
        Some(s.(mode := Resuming(s.registrations[token]), registrations := s.registrations - {token}))
      else None
    case ResumeFired =>
      if s.mode.Resuming? then Some(s.(mode := Idle, waits := ResumeReady(s.waits, s.mode.reg.wait, false))) else None
    case Expire(now, batch) =>
      var due := Due(s.registrations, now);
      if s.mode.Idle? && Lists(batch, s.registrations, due) then
        Some(s.(mode := Expiring(now, batch), registrations := s.registrations - due))
      else None
    case ResumeExpired =>
      if s.mode.Expiring? && s.mode.batch != [] then
        Some(s.(mode := Expiring(s.mode.now, s.mode.batch[1..]),
                waits := ResumeReady(s.waits, s.mode.batch[0].wait, true)))
      else None
    case ExpireDone => if s.mode.Expiring? && s.mode.batch == [] then Some(s.(mode := Idle)) else None
  }

  ghost function Run(s: State, steps: seq<Step>): (r: Option<State>)
  {
    if steps == [] then Some(s)
    else
      match Run(s, steps[..|steps| - 1])
      case None => None
      case Some(before) => Apply(before, steps[|steps| - 1])
  }

  // ---------------------------------------------------------------- invariant

  /** The registrations that the loop thread holds in local variables. */
  function Loop(mode: Mode): (rs: seq<Reg>)
  {
    match mode
    case Idle => []
    case Registering(batch) => batch
    case Resuming(reg) => [reg]
    case Expiring(_, batch) => batch
  }

  ghost predicate RegOk(s: State, r: Reg)
  {
    && r.wait in s.waits && s.waits[r.wait].enqueued && !s.waits[r.wait].completed
    && s.waits[r.wait].token == r.token && 0 < r.token < s.next
  }

  ghost predicate WaitOk(w: WaitState)
  {
    && w.resumes <= 1
    && (!w.completed ==> w.resumes == 0)
    && (w.completed ==> w.token == 0 && w.enqueued)
    && (!w.enqueued ==> w.token == 0)
  }

  ghost predicate InPending(s: State, w: Wait)
  {
    exists i :: 0 <= i < |s.pending| && s.pending[i].wait == w
  }

  ghost predicate InLoop(s: State, w: Wait)
  {
    exists i :: 0 <= i < |Loop(s.mode)| && Loop(s.mode)[i].wait == w
  }

  ghost predicate Registered(s: State, w: Wait)
  {
    exists t :: t in s.registrations && s.registrations[t].wait == w
  }

  /** An enqueued wait that is not finished is held somewhere. */
  ghost predicate Located(s: State, w: Wait)
  {
    w in s.waits && s.waits[w].enqueued && !s.waits[w].completed ==>
      InPending(s, w) || InLoop(s, w) || Registered(s, w)
  }

  ghost predicate Apart(s: State)
  {
    && Distinct(s.pending) && Distinct(Loop(s.mode))
    && (forall i, j :: 0 <= i < |s.pending| && 0 <= j < |Loop(s.mode)| ==>
                         s.pending[i].token != Loop(s.mode)[j].token)
    && (forall i :: 0 <= i < |s.pending| ==> s.pending[i].token !in s.registrations)
    && (forall j :: 0 <= j < |Loop(s.mode)| ==> Loop(s.mode)[j].token !in s.registrations)
    && (forall t :: t in s.registrations ==> s.registrations[t].token == t)
  }

  ghost predicate AllRegsOk(s: State)
  {
    && (forall i :: 0 <= i < |s.pending| ==> RegOk(s, s.pending[i]))
    && (forall i :: 0 <= i < |Loop(s.mode)| ==> RegOk(s, Loop(s.mode)[i]))
    && (forall t :: t in s.registrations ==> RegOk(s, s.registrations[t]))
  }

  ghost predicate Inv(s: State)
  {
    && s.next >= 1 && Apart(s) && AllRegsOk(s)
    && (forall w :: w in s.waits ==> WaitOk(s.waits[w]))
    && (forall w :: Located(s, w))
    && (forall w :: w in s.cancels ==> w in s.waits && s.waits[w].cancelled)
    && (s.mode.Expiring? ==> forall t :: t in s.registrations ==> s.registrations[t].deadline > s.mode.now)
  }

  // ---------------------------------------------------------------- steps that finish nothing

  lemma CreateInv(s: State, w: Wait)
    requires Inv(s) && w !in s.waits
    ensures Inv(s.(waits := s.waits[w := FRESH]))
  {
    var s' := s.(waits := s.waits[w := FRESH]);
    forall v
      ensures Located(s', v)
    {
      assert Located(s, v);
    }
  }

  /** Only the cancelled flag of one wait and the progress of a destructor change. */
  lemma CancelProgressInv(s: State, waits: map<Wait, WaitState>, cancels: map<Wait, Cancel>)
    requires Inv(s) && waits.Keys == s.waits.Keys
    requires forall w :: w in waits ==> waits[w] == s.waits[w].(cancelled := waits[w].cancelled)
    requires forall w :: w in cancels ==> w in waits && waits[w].cancelled
    ensures Inv(s.(waits := waits, cancels := cancels))
  {
    var s' := s.(waits := waits, cancels := cancels);
    forall v
      ensures Located(s', v)
    {
      assert Located(s, v);
    }
  }

  lemma EnqueueInv(s: State, w: Wait, deadline: int)
    requires Inv(s) && w in s.waits && !s.waits[w].enqueued
    ensures Inv(EnqueueRegion(s, w, deadline))
  {
    var s' := EnqueueRegion(s, w, deadline);
    var r := Reg(w, s.next, deadline);
    assert s'.pending[|s.pending|] == r;
    forall t | t in s.registrations
      ensures t != s.next
    {
      assert RegOk(s, s.registrations[t]);
    }
    forall i | 0 <= i < |s'.pending|
      ensures RegOk(s', s'.pending[i])
      ensures s'.pending[i].token !in s.registrations
    {
      if i < |s.pending| { assert RegOk(s, s.pending[i]); }
    }
    forall v
      ensures Located(s', v)
    {
      assert Located(s, v);
      if InPending(s, v) {
        var i :| 0 <= i < |s.pending| && s.pending[i].wait == v;
        assert s'.pending[i].wait == v;
      }
      if v == w { assert s'.pending[|s.pending|].wait == v; }
    }
  }

  lemma TakePendingInv(s: State)
    requires Inv(s) && s.mode.Idle?
    ensures Inv(s.(mode := Registering(s.pending), pending := []))
  {
    var s' := s.(mode := Registering(s.pending), pending := []);
    forall v
      ensures Located(s', v)
    {
      assert Located(s, v);
      if InPending(s, v) {
        var i :| 0 <= i < |s.pending| && s.pending[i].wait == v;
        assert Loop(s'.mode)[i].wait == v;
      }
    }
  }

  lemma RegisterOkInv(s: State)
    requires Inv(s) && s.mode.Registering? && s.mode.batch != []
    ensures var r := s.mode.batch[0];
            Inv(s.(mode := Registering(s.mode.batch[1..]), registrations := s.registrations[r.token := r]))
  {
    var batch := s.mode.batch;
    var r := batch[0];
    var s' := s.(mode := Registering(batch[1..]), registrations := s.registrations[r.token := r]);
    assert forall j :: 0 <= j < |batch[1..]| ==> batch[1..][j] == batch[j + 1];
    forall v
      ensures Located(s', v)
    {
      assert Located(s, v);
      if InLoop(s, v) {
        var i :| 0 <= i < |batch| && batch[i].wait == v;
        if i == 0 { assert s'.registrations[r.token].wait == v; } else { assert Loop(s'.mode)[i - 1].wait == v; }
      }
      if Registered(s, v) {
        var t :| t in s.registrations && s.registrations[t].wait == v;
        assert s'.registrations[t].wait == v;
      }
    }
  }

  lemma FireInv(s: State, token: Token)
    requires Inv(s) && s.mode.Idle? && token in s.registrations
    ensures Inv(s.(mode := Resuming(s.registrations[token]), registrations := s.registrations - {token}))
  {
    var s' := s.(mode := Resuming(s.registrations[token]), registrations := s.registrations - {token});
    forall v
      ensures Located(s', v)
    {
      assert Located(s, v);
      if Registered(s, v) {
        var t :| t in s.registrations && s.registrations[t].wait == v;
        if t == token { assert Loop(s'.mode)[0].wait == v; } else { assert s'.registrations[t].wait == v; }
      }
    }
  }

  lemma ExpireInv(s: State, now: int, batch: seq<Reg>)
    requires Inv(s) && s.mode.Idle? && Lists(batch, s.registrations, Due(s.registrations, now))
    ensures Inv(s.(mode := Expiring(now, batch), registrations := s.registrations - Due(s.registrations, now)))
  {
    var due := Due(s.registrations, now);
    var s' := s.(mode := Expiring(now, batch), registrations := s.registrations - due);
    forall v
      ensures Located(s', v)
    {
      assert Located(s, v);
      if Registered(s, v) {
        var t :| t in s.registrations && s.registrations[t].wait == v;
        if t in due {
          var i :| 0 <= i < |batch| && batch[i] == s.registrations[t];
          assert Loop(s'.mode)[i].wait == v;
        } else {
          assert s'.registrations[t].wait == v;
        }
      }
    }
  }

  lemma LoopDoneInv(s: State)
    requires Inv(s) && Loop(s.mode) == []
    ensures Inv(s.(mode := Idle))
  {
    var s' := s.(mode := Idle);
    forall v
      ensures Located(s', v)
    {
      assert Located(s, v);
    }
  }

  // ---------------------------------------------------------------- steps that finish a wait

  /** `waits` differs from the state's only in that `w` is finished. */
  ghost predicate Finishes(s: State, w: Wait, waits: map<Wait, WaitState>)
  {
    && w in s.waits && waits.Keys == s.waits.Keys
    && (forall v :: v in waits && v != w ==> waits[v] == s.waits[v])
    && waits[w].completed && waits[w].token == 0 && waits[w].enqueued && waits[w].resumes <= 1
    && waits[w].cancelled == s.waits[w].cancelled
  }

  lemma SettleFinishes(s: State, r: Reg)
    requires Inv(s) && RegOk(s, r)
    ensures Finishes(s, r.wait, Settle(s.waits, r.wait))
    ensures forall timedOut :: Finishes(s, r.wait, ResumeReady(s.waits, r.wait, timedOut))
  {
    assert WaitOk(s.waits[r.wait]);
  }

  /** The loop thread finishes the front of its batch. */
  lemma FinishFrontInv(s: State, mode: Mode, waits: map<Wait, WaitState>)
    requires Inv(s) && Loop(s.mode) != [] && Loop(mode) == Loop(s.mode)[1..]
    requires mode.Expiring? ==> s.mode.Expiring? && mode.now == s.mode.now
    requires Finishes(s, Loop(s.mode)[0].wait, waits)
    ensures Inv(s.(mode := mode, waits := waits))
  {
    var batch := Loop(s.mode);
    var r := batch[0];
    var s' := s.(mode := mode, waits := waits);
    assert RegOk(s, r);
    assert forall j :: 0 <= j < |Loop(mode)| ==> Loop(mode)[j] == batch[j + 1];
    assert AllRegsOk(s');
    forall v ensures Located(s', v) { FrontLocated(s, s', v); }
  }

  lemma FrontLocated(s: State, s': State, v: Wait)
    requires Located(s, v) && Loop(s.mode) != [] && Loop(s'.mode) == Loop(s.mode)[1..]
    requires s' == s.(mode := s'.mode, waits := s'.waits) && Finishes(s, Loop(s.mode)[0].wait, s'.waits)
    ensures Located(s', v)
  {
    var batch := Loop(s.mode);
    if v != batch[0].wait && InLoop(s, v) {
      var i :| 0 <= i < |batch| && batch[i].wait == v;
      assert Loop(s'.mode)[i - 1].wait == v;
    }
  }

  lemma UnhookInv(s: State, token: Token)
    requires Inv(s)
    ensures Inv(Unhook(s, token))
  {
    if token in s.registrations {
      var r := s.registrations[token];
      var s' := Unhook(s, token);
      assert RegOk(s, r);
      SettleFinishes(s, r);
      assert AllRegsOk(s');
      forall v
        ensures Located(s', v)
      {
        assert Located(s, v);
        if v != r.wait && Registered(s, v) {
          var t :| t in s.registrations && s.registrations[t].wait == v;
          assert s'.registrations[t].wait == v;
        }
      }
    }
  }

  lemma {:induction false} WithoutIs(rs: seq<Reg>, token: Token)
    ensures forall r :: r in Without(rs, token) <==> r in rs && r.token != token
    ensures Distinct(rs) ==> Distinct(Without(rs, token))
  {
    if rs != [] {
      var rest := Without(rs[1..], token);
      WithoutIs(rs[1..], token);
      assert forall r :: r in rs <==> r == rs[0] || r in rs[1..];
      if Distinct(rs) {
        assert Distinct(rs[1..]);
        forall i | 0 <= i < |rest|
          ensures rest[i].token != rs[0].token
        {
          assert rest[i] in rest;
          var j :| 0 <= j < |rs[1..]| && rs[1..][j] == rest[i];
          assert rs[j + 1] == rest[i];
        }
      }
    }
  }

  lemma {:induction false} SettleNone(rs: seq<Reg>, token: Token, waits: map<Wait, WaitState>)
    requires forall r :: r in rs ==> r.token != token
    ensures SettleAll(rs, token, waits) == waits
  {
    if rs != [] {
      assert rs[0] in rs;
      SettleNone(rs[1..], token, waits);
    }
  }

  lemma {:induction false} SettleOne(rs: seq<Reg>, token: Token, waits: map<Wait, WaitState>, r: Reg)
    requires Distinct(rs) && r in rs && r.token == token
    ensures SettleAll(rs, token, waits) == Settle(waits, r.wait)
  {
    if rs[0].token == token {
      var i :| 0 <= i < |rs| && rs[i] == r;
      assert i == 0;
      SettleNone(rs[1..], token, Settle(waits, r.wait));
    } else {
      assert Distinct(rs[1..]) && r in rs[1..];
      SettleOne(rs[1..], token, waits, r);
    }
  }

  /** Sweeping takes out the one registration with the token, if there is one, and settles exactly its wait. */
  lemma SweepInv(s: State, token: Token)
    requires Inv(s)
    ensures var s' := SweepPending(s, token);
            && Inv(s')
            && (forall r :: r in s'.pending <==> r in s.pending && r.token != token)
            && (forall r :: r in s.pending && r.token == token ==> s'.waits == Settle(s.waits, r.wait))
            && ((forall r :: r in s.pending ==> r.token != token) ==> s' == s)
  {
    var s' := SweepPending(s, token);
    WithoutIs(s.pending, token);
    if i :| 0 <= i < |s.pending| && s.pending[i].token == token {
      var r := s.pending[i];
      assert RegOk(s, r);
      SettleOne(s.pending, token, s.waits, r);
      SettleFinishes(s, r);
      SweptInv(s, s', r);
      forall x | x in s.pending && x.token == token
        ensures x == r
      {
        var j :| 0 <= j < |s.pending| && s.pending[j] == x;
      }
    } else {
      forall r | r in s.pending ensures r.token != token { var i :| 0 <= i < |s.pending| && s.pending[i] == r; }
      SettleNone(s.pending, token, s.waits);
      WithoutNone(s.pending, token);
      assert s' == s;
    }
  }

  lemma {:induction false} WithoutNone(rs: seq<Reg>, token: Token)
    requires forall r :: r in rs ==> r.token != token
    ensures Without(rs, token) == rs
  {
    if rs != [] {
      assert rs[0] in rs;
      WithoutNone(rs[1..], token);
    }
  }

  lemma SweptInv(s: State, s': State, r: Reg)
    requires Inv(s) && r in s.pending && Finishes(s, r.wait, s'.waits)
    requires s' == s.(pending := s'.pending, waits := s'.waits)
    requires Distinct(s'.pending) && forall x :: x in s'.pending <==> x in s.pending && x.token != r.token
    ensures Inv(s')
  {
    forall i | 0 <= i < |s'.pending|
      ensures RegOk(s', s'.pending[i]) && s'.pending[i].token !in s.registrations
      ensures forall j :: 0 <= j < |Loop(s.mode)| ==> s'.pending[i].token != Loop(s.mode)[j].token
    {
      assert s'.pending[i] in s'.pending;
      SweptReg(s, s', r, s'.pending[i]);
    }
    SweptOthers(s, s', r);
    forall v ensures Located(s', v) { SweptLocated(s, s', r, v); }
  }

  lemma SweptReg(s: State, s': State, r: Reg, x: Reg)
    requires Inv(s) && r in s.pending && Finishes(s, r.wait, s'.waits)
    requires s'.next == s.next && x in s.pending && x.token != r.token
    ensures RegOk(s', x) && x.token !in s.registrations
    ensures forall j :: 0 <= j < |Loop(s.mode)| ==> x.token != Loop(s.mode)[j].token
  {
    var k :| 0 <= k < |s.pending| && s.pending[k] == x;
    var i :| 0 <= i < |s.pending| && s.pending[i] == r;
    assert RegOk(s, s.pending[k]) && RegOk(s, s.pending[i]);
  }

  /** What the loop thread and the table hold belongs to other waits. */
  lemma SweptOthers(s: State, s': State, r: Reg)
    requires Inv(s) && r in s.pending && Finishes(s, r.wait, s'.waits)
    requires s' == s.(pending := s'.pending, waits := s'.waits)
    ensures forall j :: 0 <= j < |Loop(s.mode)| ==> RegOk(s', Loop(s.mode)[j])
    ensures forall t :: t in s.registrations ==> RegOk(s', s.registrations[t])
  {
    var i :| 0 <= i < |s.pending| && s.pending[i] == r;
    assert RegOk(s, s.pending[i]);
  }

  lemma SweptLocated(s: State, s': State, r: Reg, v: Wait)
    requires AllRegsOk(s) && Distinct(s.pending) && r in s.pending && Located(s, v) && Finishes(s, r.wait, s'.waits)
    requires s' == s.(pending := s'.pending, waits := s'.waits)
    requires forall x :: x in s.pending && x.token != r.token ==> x in s'.pending
    ensures Located(s', v)
  {
    if v != r.wait && InPending(s, v) {
      var i :| 0 <= i < |s.pending| && s.pending[i].wait == v;
      var k :| 0 <= k < |s.pending| && s.pending[k] == r;
      assert s.pending[i].token != s.pending[k].token;
      assert s.pending[i] in s'.pending;
      var j :| 0 <= j < |s'.pending| && s'.pending[j] == s.pending[i];
      assert s'.pending[j].wait == v;
    }
  }

  // ---------------------------------------------------------------- runs

  lemma CancelsInv(s: State, cancels: map<Wait, Cancel>)
    requires Inv(s) && forall w :: w in cancels ==> w in s.waits && s.waits[w].cancelled
    ensures Inv(s.(cancels := cancels))
  {
    CancelProgressInv(s, s.waits, cancels);
    assert s.(waits := s.waits, cancels := cancels) == s.(cancels := cancels);
  }

  /** Steps of the loop thread. */
  predicate ByLoop(step: Step)
  {
    match step
    case TakePending => true
    case RegisterOne(_) => true
    case RegisterDone => true
    case Fire(_) => true
    case ResumeFired => true
    case Expire(_, _) => true
    case ResumeExpired => true
    case ExpireDone => true
    case _ => false
  }

  lemma StepInv(s: State, step: Step)
    requires Inv(s) && Apply(s, step).Some?
    ensures Inv(Apply(s, step).value)
  {
    hide Inv, Apply;
    if ByLoop(step) { LoopStepInv(s, step); } else { OtherStepInv(s, step); }
  }

  lemma OtherStepInv(s: State, step: Step)
    requires Inv(s) && Apply(s, step).Some? && !ByLoop(step)
    ensures Inv(Apply(s, step).value)
  {
    hide Inv;
    CancelKnown(s);
    match step {
      case Create(w) => CreateInv(s, w);
      case Enqueue(w, deadline) => EnqueueInv(s, w, deadline);
      case DestroyMark(w) =>
        CancelProgressInv(s, s.waits[w := s.waits[w].(cancelled := true)], s.cancels[w := Marked]);
      case DestroyReadToken(w) => CancelsInv(s, Apply(s, step).value.cancels);
      case DestroyCheck(w) => CancelsInv(s, Apply(s, step).value.cancels);
      case _ =>
        hide Apply;
        CancelStepInv(s, step);
    }
  }

  lemma CancelStepInv(s: State, step: Step)
    requires Inv(s) && Apply(s, step).Some? && Cancels(step)
    ensures Inv(Apply(s, step).value)
  {
    hide Inv;
    CancelKnown(s);
    match step {
      case CancelSweep(w) =>
        SweepInv(s, s.cancels[w].token);
        CancelKnown(SweepPending(s, s.cancels[w].token));
        CancelsInv(SweepPending(s, s.cancels[w].token), s.cancels[w := Unhooking(s.cancels[w].token)]);
      case CancelUnhook(w) =>
        UnhookInv(s, s.cancels[w].token);
        CancelKnown(Unhook(s, s.cancels[w].token));
        CancelsInv(Unhook(s, s.cancels[w].token), s.cancels[w := Gone]);
      case PublicSweep(token) => SweepInv(s, token);
      case PublicUnhook(token) => UnhookInv(s, token);
    }
  }

  lemma LoopStepInv(s: State, step: Step)
    requires Inv(s) && Apply(s, step).Some? && ByLoop(step)
    ensures Inv(Apply(s, step).value)
  {
    hide Inv, Finishes, Lists, ResumeReady;
    match step {
      case TakePending => TakePendingInv(s);
      case RegisterOne(ok) =>
        if ok {
          RegisterOkInv(s);
        } else {
          FrontFinishes(s);
          FinishFrontInv(s, Registering(s.mode.batch[1..]), ResumeReady(s.waits, s.mode.batch[0].wait, true));
        }
      case RegisterDone => LoopDoneInv(s);
      case Fire(token) => FireInv(s, token);
      case ResumeFired =>
        FrontFinishes(s);
        FinishFrontInv(s, Idle, ResumeReady(s.waits, s.mode.reg.wait, false));
      case Expire(now, batch) => ExpireInv(s, now, batch);
      case ResumeExpired =>
        FrontFinishes(s);
        FinishFrontInv(s, Expiring(s.mode.now, s.mode.batch[1..]), ResumeReady(s.waits, s.mode.batch[0].wait, true));
      case ExpireDone => LoopDoneInv(s);
    }
  }

  lemma KnownWait(s: State, w: Wait)
    requires Inv(s) && w in s.waits
    ensures WaitOk(s.waits[w])
  {
  }

  lemma KnownFront(s: State)
    requires Inv(s) && Loop(s.mode) != []
    ensures RegOk(s, Loop(s.mode)[0])
  {
  }

  lemma KnownRegistered(s: State, token: Token)
    requires Inv(s) && token in s.registrations
    ensures RegOk(s, s.registrations[token])
  {
  }

  lemma CancelKnown(s: State)
    requires Inv(s)
    ensures forall w :: w in s.cancels ==> w in s.waits && s.waits[w].cancelled
  {
  }

  lemma FrontFinishes(s: State)
    requires Inv(s) && Loop(s.mode) != []
    ensures forall timedOut :: Finishes(s, Loop(s.mode)[0].wait, ResumeReady(s.waits, Loop(s.mode)[0].wait, timedOut))
  {
    assert RegOk(s, Loop(s.mode)[0]);
    SettleFinishes(s, Loop(s.mode)[0]);
  }

  lemma {:induction false} RunInv(steps: seq<Step>)
    requires Run(INITIAL, steps).Some?
    ensures Inv(Run(INITIAL, steps).value)
  {
    if steps != [] {
      RunInv(steps[..|steps| - 1]);
      StepInv(Run(INITIAL, steps[..|steps| - 1]).value, steps[|steps| - 1]);
    }
  }

  /** In every reachable state, live waits have distinct nonzero tokens. */
  lemma TokensDistinct(steps: seq<Step>, v: Wait, w: Wait)
    requires Run(INITIAL, steps).Some?
    requires var waits := Run(INITIAL, steps).value.waits;
             && v in waits && waits[v].enqueued && !waits[v].completed
             && w in waits && waits[w].enqueued && !waits[w].completed && v != w
    ensures var waits := Run(INITIAL, steps).value.waits;
            waits[v].token != 0 && waits[v].token != waits[w].token
  {
    RunInv(steps);
    var s := Run(INITIAL, steps).value;
    var a := RegOf(s, v);
    var b := RegOf(s, w);
  }

  ghost predicate Held(s: State, r: Reg)
  {
    r in s.pending || r in Loop(s.mode) || (r.token in s.registrations && s.registrations[r.token] == r)
  }

  /** The registration of an unfinished wait. Equal tokens mean equal places, so two waits cannot share one. */
  lemma RegOf(s: State, w: Wait) returns (r: Reg)
    requires Inv(s) && w in s.waits && s.waits[w].enqueued && !s.waits[w].completed
    ensures r.wait == w && RegOk(s, r)
    ensures Held(s, r) && forall x :: Held(s, x) && x.token == r.token ==> x == r
  {
    assert Located(s, w);
    if InPending(s, w) {
      var i :| 0 <= i < |s.pending| && s.pending[i].wait == w;
      r := s.pending[i];
    } else if InLoop(s, w) {
      var i :| 0 <= i < |Loop(s.mode)| && Loop(s.mode)[i].wait == w;
      r := Loop(s.mode)[i];
    } else {
      var t :| t in s.registrations && s.registrations[t].wait == w;
      r := s.registrations[t];
    }
  }

  /** No wait is lost or held twice: in every reachable state an enqueued unfinished wait is in exactly one of the
      pending list, the loop thread's hands and the registration table, and there only once. */
  lemma ExactlyOnePlace(steps: seq<Step>, w: Wait)
    requires Run(INITIAL, steps).Some?
    requires var waits := Run(INITIAL, steps).value.waits;
             w in waits && waits[w].enqueued && !waits[w].completed
    ensures var s := Run(INITIAL, steps).value;
            && (InPending(s, w) || InLoop(s, w) || Registered(s, w))
            && !(InPending(s, w) && InLoop(s, w)) && !(InPending(s, w) && Registered(s, w))
            && !(InLoop(s, w) && Registered(s, w))
            && (forall i, j :: 0 <= i < j < |s.pending| ==> !(s.pending[i].wait == w && s.pending[j].wait == w))
            && (forall i, j :: 0 <= i < j < |Loop(s.mode)| ==>
                                 !(Loop(s.mode)[i].wait == w && Loop(s.mode)[j].wait == w))
            && (forall t, u :: (&& t in s.registrations && s.registrations[t].wait == w
                                && u in s.registrations && s.registrations[u].wait == w) ==> t == u)
  {
    RunInv(steps);
    var s := Run(INITIAL, steps).value;
    assert Located(s, w);
    HeldHaveToken(s, w);
  }

  lemma HeldHaveToken(s: State, w: Wait)
    requires Inv(s)
    ensures forall i :: 0 <= i < |s.pending| && s.pending[i].wait == w ==> s.pending[i].token == s.waits[w].token
    ensures forall i :: 0 <= i < |Loop(s.mode)| && Loop(s.mode)[i].wait == w ==>
                          Loop(s.mode)[i].token == s.waits[w].token
    ensures forall t :: t in s.registrations && s.registrations[t].wait == w ==> t == s.waits[w].token
  {
    assert forall i :: 0 <= i < |s.pending| ==> RegOk(s, s.pending[i]);
    assert forall i :: 0 <= i < |Loop(s.mode)| ==> RegOk(s, Loop(s.mode)[i]);
  }

  /** In every run, the runtime resumes each coroutine at most once. */
  lemma ResumedAtMostOnce(steps: seq<Step>, w: Wait)
    requires Run(INITIAL, steps).Some? && w in Run(INITIAL, steps).value.waits
    ensures Run(INITIAL, steps).value.waits[w].resumes <= 1
  {
    RunInv(steps);
  }

  lemma {:induction false} SettleAllKeeps(rs: seq<Reg>, token: Token, waits: map<Wait, WaitState>, w: Wait)
    requires w in waits
    ensures var after := SettleAll(rs, token, waits);
            w in after && after[w].resumes == waits[w].resumes && after[w].cancelled == waits[w].cancelled
            && after[w].timedOut == waits[w].timedOut && (waits[w].completed ==> after[w].completed)
  {
    if rs != [] {
      SettleAllKeeps(rs[1..], token, if rs[0].token == token then Settle(waits, rs[0].wait) else waits, w);
    }
  }

  /** From any state whatever, a wait whose awaiter was destroyed is not resumed by any later step, wherever its
      registration happens to be, in transit between the two tables included. */
  lemma {:induction false} DestroyedNeverResumed(s: State, steps: seq<Step>, w: Wait)
    requires w in s.waits && s.waits[w].cancelled && Run(s, steps).Some?
    ensures var after := Run(s, steps).value;
            w in after.waits && after.waits[w].cancelled && after.waits[w].resumes == s.waits[w].resumes
  {
    if steps != [] {
      DestroyedNeverResumed(s, steps[..|steps| - 1], w);
      var before := Run(s, steps[..|steps| - 1]).value;
      var step := steps[|steps| - 1];
      if step.CancelSweep? {
        SettleAllKeeps(before.pending, before.cancels[step.w].token, before.waits, w);
      } else if step.PublicSweep? {
        SettleAllKeeps(before.pending, step.token, before.waits, w);
      }
    }
  }

  // ---------------------------------------------------------------- expiry

  /** How a wait that an expiry pass removed must end. */
  predicate TimedOutOrCancelled(w: WaitState)
  {
    w.completed && (w.cancelled || (w.timedOut && w.resumes == 1))
  }

  /** Once a wait is finished, no step changes what became of it. */
  lemma FinishedStays(s: State, step: Step, w: Wait)
    requires Inv(s) && w in s.waits && s.waits[w].completed && Apply(s, step).Some?
    ensures var waits := Apply(s, step).value.waits;
            && w in waits && waits[w].completed
            && waits[w].timedOut == s.waits[w].timedOut && waits[w].resumes == s.waits[w].resumes
            && (s.waits[w].cancelled ==> waits[w].cancelled)
  {
    KnownWait(s, w);
    if Loop(s.mode) != [] { KnownFront(s); }
    hide Inv, SettleAll, Without, Lists;
    if step.CancelSweep? { SettleAllKeeps(s.pending, s.cancels[step.w].token, s.waits, w); }
    if step.PublicSweep? { SettleAllKeeps(s.pending, step.token, s.waits, w); }
  }

  lemma TimedOutStays(w: WaitState, w': WaitState)
    requires TimedOutOrCancelled(w) && w'.completed && (w.cancelled ==> w'.cancelled)
    requires w'.timedOut == w.timedOut && w'.resumes == w.resumes
    ensures TimedOutOrCancelled(w')
  {
  }

  lemma TimedOutCompleted(w: WaitState)
    requires TimedOutOrCancelled(w)
    ensures w.completed
  {
  }

  /** While a pass runs, the loop thread does nothing else. */
  lemma PassStep(s: State, step: Step)
    requires Inv(s) && s.mode.Expiring? && Apply(s, step).Some? && step != ExpireDone
    ensures var s' := Apply(s, step).value;
            && s'.mode.Expiring? && s'.mode.now == s.mode.now
            && (step == ResumeExpired ==>
                  && |s.mode.batch| > 0 && s'.mode.batch == s.mode.batch[1..]
                  && s.mode.batch[0].wait in s'.waits && TimedOutOrCancelled(s'.waits[s.mode.batch[0].wait]))
            && (step != ResumeExpired ==> s'.mode == s.mode)
  {
    if step == ResumeExpired {
      assert RegOk(s, Loop(s.mode)[0]);
      assert WaitOk(s.waits[s.mode.batch[0].wait]);
    }
  }

  /** An expiry pass at time `now`: however other threads interleave, every registration that it has taken off its list
      was resumed with the timed-out flag set unless its awaiter was destroyed, and no registered wait is due. When
      the list is empty this holds for all that it removed from the table, whether or not epoll ever reported them. */
  lemma {:induction false} ExpiryPass(s: State, steps: seq<Step>) returns (k: nat)
    requires Inv(s) && s.mode.Expiring? && Run(s, steps).Some? && ExpireDone !in steps
    ensures var after := Run(s, steps).value;
            && Inv(after) && after.mode.Expiring? && after.mode.now == s.mode.now
            && k <= |s.mode.batch| && after.mode.batch == s.mode.batch[k..]
            && (forall i :: 0 <= i < k ==>
                  s.mode.batch[i].wait in after.waits && TimedOutOrCancelled(after.waits[s.mode.batch[i].wait]))
            && (forall t :: t in after.registrations ==> after.registrations[t].deadline > s.mode.now)
  {
    hide TimedOutOrCancelled;
    if steps == [] {
      k := 0;
    } else {
      var front, step := steps[..|steps| - 1], steps[|steps| - 1];
      k := ExpiryPass(s, front);
      var before := Run(s, front).value;
      StepInv(before, step);
      PassStep(before, step);
      forall i | 0 <= i < k
        ensures s.mode.batch[i].wait in Apply(before, step).value.waits
        ensures TimedOutOrCancelled(Apply(before, step).value.waits[s.mode.batch[i].wait])
      {
        TimedOutCompleted(before.waits[s.mode.batch[i].wait]);
        FinishedStays(before, step, s.mode.batch[i].wait);
        TimedOutStays(before.waits[s.mode.batch[i].wait], Apply(before, step).value.waits[s.mode.batch[i].wait]);
      }
      if step == ResumeExpired { k := k + 1; }
    }
  }

  // ---------------------------------------------------------------- no wait is lost

  ghost predicate Finished(s: State, w: Wait)
  {
    w in s.waits && s.waits[w].completed
  }

  /** With the loop thread or in the table. */
  ghost predicate Advanced(s: State, r: Reg)
  {
    r in Loop(s.mode) || (r.token in s.registrations && s.registrations[r.token] == r)
  }

  lemma HeldOk(s: State, r: Reg)
    requires Inv(s) && Held(s, r)
    ensures RegOk(s, r)
  {
    if r in s.pending {
      var i :| 0 <= i < |s.pending| && s.pending[i] == r;
    } else if r in Loop(s.mode) {
      var i :| 0 <= i < |Loop(s.mode)| && Loop(s.mode)[i] == r;
    }
  }

  /** Steps of the loop thread that handle the front of its batch. */
  predicate HandlesFront(step: Step)
  {
    step.RegisterOne? || step == ResumeFired || step == ResumeExpired
  }

  /** A registration moves on or its wait is finished; it never goes back to the pending list. */
  lemma AdvancedStep(s: State, step: Step, r: Reg)
    requires Inv(s) && Advanced(s, r) && Apply(s, step).Some?
    ensures var s' := Apply(s, step).value;
            Advanced(s', r) || Finished(s', r.wait)
  {
    if HandlesFront(step) {
      FrontStep(s, step, r);
    } else {
      HeldOk(s, r);
      hide Inv, SettleAll, Without, ResumeReady;
    }
  }

  lemma FrontStep(s: State, step: Step, r: Reg)
    requires Inv(s) && Advanced(s, r) && Apply(s, step).Some? && HandlesFront(step)
    ensures Advanced(Apply(s, step).value, r) || Finished(Apply(s, step).value, r.wait)
  {
    hide Apply, Inv, Advanced, Finished;
    if step.RegisterOne? { RegisterOneStep(s, step.ok, r); } else { ResumeStep(s, step, r); }
  }

  lemma RegisterOneStep(s: State, ok: bool, r: Reg)
    requires Inv(s) && Advanced(s, r) && Apply(s, RegisterOne(ok)).Some?
    ensures Advanced(Apply(s, RegisterOne(ok)).value, r) || Finished(Apply(s, RegisterOne(ok)).value, r.wait)
  {
    HeldOk(s, r);
    var batch := Loop(s.mode);
    assert batch == [batch[0]] + batch[1..];
    if r !in batch { OtherToken(s, r); }
    hide Inv;
  }

  lemma ResumeStep(s: State, step: Step, r: Reg)
    requires Inv(s) && Advanced(s, r) && Apply(s, step).Some? && (step == ResumeFired || step == ResumeExpired)
    ensures Advanced(Apply(s, step).value, r) || Finished(Apply(s, step).value, r.wait)
  {
    HeldOk(s, r);
    hide Inv;
    var batch := Loop(s.mode);
    assert batch == [batch[0]] + batch[1..];
  }

  /** What waits to be registered is not in the table. */
  lemma OtherToken(s: State, r: Reg)
    requires Inv(s) && r.token in s.registrations && Loop(s.mode) != []
    ensures Loop(s.mode)[0].token != r.token
  {
  }

  /** Taking the pending list moves every registration on it to the loop thread. */
  lemma TakeAdvances(s: State, r: Reg)
    requires Inv(s) && Held(s, r) && Apply(s, TakePending).Some?
    ensures Advanced(Apply(s, TakePending).value, r)
  {
  }

  lemma {:induction false} AdvancedRun(s: State, steps: seq<Step>, r: Reg)
    requires Inv(s) && (Advanced(s, r) || Finished(s, r.wait)) && Run(s, steps).Some?
    ensures var s' := Run(s, steps).value;
            Inv(s') && (Advanced(s', r) || Finished(s', r.wait))
  {
    hide Apply, Inv, Advanced, Finished;
    if steps != [] {
      var front := steps[..|steps| - 1];
      AdvancedRun(s, front, r);
      var before := Run(s, front).value;
      StepInv(before, steps[|steps| - 1]);
      if Finished(before, r.wait) {
        FinishedStep(before, steps[|steps| - 1], r.wait);
      } else {
        AdvancedStep(before, steps[|steps| - 1], r);
      }
    }
  }

  lemma FinishedStep(s: State, step: Step, w: Wait)
    requires Inv(s) && Finished(s, w) && Apply(s, step).Some?
    ensures Finished(Apply(s, step).value, w)
  {
    FinishedStays(s, step, w);
  }

  /** In the batch of a running expiry pass. */
  ghost predicate Expired(s: State, r: Reg)
  {
    s.mode.Expiring? && r in s.mode.batch
  }

  lemma ExpireTakes(s: State, now: int, batch: seq<Reg>, r: Reg)
    requires Inv(s) && Advanced(s, r) && r.deadline <= now && Apply(s, Expire(now, batch)).Some?
    ensures Expired(Apply(s, Expire(now, batch)).value, r)
  {
    assert r.token in Due(s.registrations, now);
  }

  lemma ExpiredStep(s: State, step: Step, r: Reg)
    requires Inv(s) && Expired(s, r) && Apply(s, step).Some?
    ensures Expired(Apply(s, step).value, r) || Finished(Apply(s, step).value, r.wait)
    ensures step != ExpireDone
  {
    HeldOk(s, r);
    hide Inv, Lists, SettleAll, Without;
    assert s.mode.batch == [s.mode.batch[0]] + s.mode.batch[1..];
  }

  lemma {:induction false} ExpiredRun(s: State, steps: seq<Step>, r: Reg)
    requires Inv(s) && (Expired(s, r) || Finished(s, r.wait)) && Run(s, steps).Some?
    ensures var s' := Run(s, steps).value;
            Inv(s') && (Expired(s', r) || Finished(s', r.wait))
    ensures ExpireDone in steps ==> Finished(Run(s, steps).value, r.wait)
  {
    hide Apply, Inv, Expired, Finished;
    if steps != [] {
      var front, step := steps[..|steps| - 1], steps[|steps| - 1];
      assert steps == front + [step];
      ExpiredRun(s, front, r);
      var before := Run(s, front).value;
      StepInv(before, step);
      if Finished(before, r.wait) {
        FinishedStep(before, step, r.wait);
      } else {
        ExpiredStep(before, step, r);
      }
    }
  }

  lemma {:induction false} RunJoin(s: State, first: seq<Step>, second: seq<Step>)
    requires Run(s, first + second).Some?
    ensures Run(s, first).Some? && Run(s, first + second) == Run(Run(s, first).value, second)
  {
    hide Apply;
    if second == [] {
      assert first + second == first;
    } else {
      assert (first + second)[..|first + second| - 1] == first + second[..|second| - 1];
      RunJoin(s, first, second[..|second| - 1]);
    }
  }

  lemma RunOne(s: State, step: Step)
    ensures Run(s, [step]) == Apply(s, step)
  {
    assert [step][..0] == [];
  }

  /** Progress: whatever other threads and later loop iterations do in between, once the loop thread has taken the
      pending list and has then run an expiry pass at time `now`, every registration that the runtime held before with
      a deadline of at most `now` is finished, even if epoll never reported it. */
  lemma LoopIteration(s: State, r: Reg, middle: seq<Step>, now: int, batch: seq<Reg>, rest: seq<Step>)
    requires Inv(s) && Held(s, r) && r.deadline <= now && ExpireDone in rest
    requires Run(s, [TakePending] + (middle + ([Expire(now, batch)] + rest))).Some?
    ensures Finished(Run(s, [TakePending] + (middle + ([Expire(now, batch)] + rest))).value, r.wait)
  {
    hide Apply, Run, Inv, Held, Advanced, Expired, Finished;
    RunJoin(s, [TakePending], middle + ([Expire(now, batch)] + rest));
    RunOne(s, TakePending);
    TakeAdvances(s, r);
    StepInv(s, TakePending);
    var s1 := Apply(s, TakePending).value;
    RunJoin(s1, middle, [Expire(now, batch)] + rest);
    AdvancedRun(s1, middle, r);
    var s2 := Run(s1, middle).value;
    RunJoin(s2, [Expire(now, batch)], rest);
    RunOne(s2, Expire(now, batch));
    StepInv(s2, Expire(now, batch));
    if Finished(s2, r.wait) {
      FinishedStep(s2, Expire(now, batch), r.wait);
    } else {
      ExpireTakes(s2, now, batch, r);
    }
    ExpiredRun(Apply(s2, Expire(now, batch)).value, rest, r);
  }

  // ---------------------------------------------------------------- cancels hit their own wait

  /** The token that a destructor cancels with. */
  function CancelToken(c: Cancel): (t: Option<Token>)
  {
    match c
    case Marked => None
    case TokenRead(t) => Some(t)
    case Sweeping(t) => Some(t)
    case Unhooking(t) => Some(t)
    case Gone => None
  }

  /** Whatever is held under the token belongs to the destructor's own wait. */
  ghost predicate CancelOk(s: State, w: Wait)
    requires w in s.cancels
  {
    var c := CancelToken(s.cancels[w]);
    c.Some? ==> 0 < c.value < s.next && forall r :: Held(s, r) && r.token == c.value ==> r.wait == w
  }

  /** A public cancel finds this wait under its token. */
  ghost predicate Hits(s: State, step: Step, w: Wait)
  {
    match step
    case PublicSweep(token) => exists r :: r in s.pending && r.token == token && r.wait == w
    case PublicUnhook(token) => token in s.registrations && s.registrations[token].wait == w
    case _ => false
  }

  /** Some public cancel of the run hit this wait. */
  ghost predicate WasHit(steps: seq<Step>, w: Wait)
  {
    steps != [] &&
    var before := Run(INITIAL, steps[..|steps| - 1]);
    WasHit(steps[..|steps| - 1], w) || (before.Some? && Hits(before.value, steps[|steps| - 1], w))
  }

  /** How a wait may be finished: by a resume, by its own destructor, or by a public cancel that hit it; the last never
      resumes it. */
  predicate Accounted(w: WaitState, hit: bool)
  {
    && (w.completed ==> w.cancelled || w.resumes == 1 || hit)
    && (hit ==> w.completed && w.resumes == 0)
  }

  ghost predicate CancelsOk(s: State)
  {
    forall w :: w in s.cancels ==> CancelOk(s, w)
  }

  /** Only an enqueue adds a registration, and its token is new. */
  lemma HeldBefore(s: State, step: Step, r: Reg)
    requires Inv(s) && Apply(s, step).Some? && Held(Apply(s, step).value, r)
    ensures Held(s, r) || (step == Enqueue(r.wait, r.deadline) && r.token == s.next)
  {
    if step.CancelSweep? { WithoutIs(s.pending, s.cancels[step.w].token); }
    if step.PublicSweep? { WithoutIs(s.pending, step.token); }
    hide Inv;
  }

  /** Nonzero tokens are not shared. */
  lemma TokenOwner(s: State, w: Wait, r: Reg)
    requires Inv(s) && w in s.waits && s.waits[w].token != 0 && Held(s, r) && r.token == s.waits[w].token
    ensures r.wait == w
  {
    assert WaitOk(s.waits[w]);
    var own := RegOf(s, w);
    assert own.token == s.waits[w].token;
  }

  lemma TokenBelow(s: State, w: Wait)
    requires Inv(s) && w in s.waits && s.waits[w].token != 0
    ensures 0 < s.waits[w].token < s.next
  {
    assert WaitOk(s.waits[w]);
    var own := RegOf(s, w);
  }

  lemma CancelStep(s: State, step: Step, w: Wait)
    requires Inv(s) && CancelsOk(s) && Apply(s, step).Some? && w in Apply(s, step).value.cancels
    ensures CancelOk(Apply(s, step).value, w)
  {
    var s' := Apply(s, step).value;
    var c := CancelToken(s'.cancels[w]);
    NextGrows(s, step);
    if c.Some? {
      CancelBefore(s, step, w);
      hide Inv, Apply, Held;
      if w in s.cancels && CancelToken(s.cancels[w]) == c {
        assert CancelOk(s, w);
      } else {
        TokenBelow(s, w);
      }
      forall r | Held(s', r) && r.token == c.value
        ensures r.wait == w
      {
        HeldBefore(s, step, r);
        if !(w in s.cancels && CancelToken(s.cancels[w]) == c) { TokenOwner(s, w, r); }
      }
    }
  }

  lemma NextGrows(s: State, step: Step)
    requires Apply(s, step).Some?
    ensures Apply(s, step).value.next >= s.next
  {
  }

  /** A destructor's token is the one that it read from its own wait. */
  lemma CancelBefore(s: State, step: Step, w: Wait)
    requires Apply(s, step).Some? && w in Apply(s, step).value.cancels
    requires CancelToken(Apply(s, step).value.cancels[w]).Some?
    ensures var c := CancelToken(Apply(s, step).value.cancels[w]);
            || (w in s.cancels && CancelToken(s.cancels[w]) == c)
            || (w in s.waits && s.waits[w].token != 0 && s.waits[w].token == c.value)
  {
  }

  /** What one step does to a wait that exists: nothing, or it finishes it in one of the three ways. */
  lemma AccountedStep(s: State, step: Step, w: Wait, hit: bool)
    requires Inv(s) && CancelsOk(s) && Apply(s, step).Some? && w in s.waits && Accounted(s.waits[w], hit)
    ensures w in Apply(s, step).value.waits
    ensures Accounted(Apply(s, step).value.waits[w], hit || Hits(s, step, w))
  {
    hide Apply, Inv, CancelsOk, Accounted, Hits;
    if Cancels(step) {
      CancelAccounted(s, step, w, hit);
    } else if HandlesFront(step) {
      FrontAccounted(s, step, w, hit);
    } else {
      OthersAccounted(s, step, w, hit);
    }
  }

  /** Regions of a `Cancel`, whoever calls it. */
  predicate Cancels(step: Step)
  {
    step.CancelSweep? || step.CancelUnhook? || step.PublicSweep? || step.PublicUnhook?
  }

  lemma FrontAccounted(s: State, step: Step, w: Wait, hit: bool)
    requires Inv(s) && Apply(s, step).Some? && HandlesFront(step) && w in s.waits && Accounted(s.waits[w], hit)
    ensures w in Apply(s, step).value.waits
    ensures Accounted(Apply(s, step).value.waits[w], hit || Hits(s, step, w))
  {
    KnownWait(s, w);
    KnownFront(s);
    hide Inv;
  }

  lemma OthersAccounted(s: State, step: Step, w: Wait, hit: bool)
    requires Apply(s, step).Some? && w in s.waits && Accounted(s.waits[w], hit)
    requires !HandlesFront(step) && !Cancels(step)
    ensures w in Apply(s, step).value.waits
    ensures Accounted(Apply(s, step).value.waits[w], hit || Hits(s, step, w))
  {
    hide Lists, ResumeReady, SweepPending, Unhook;
  }

  lemma CancelAccounted(s: State, step: Step, w: Wait, hit: bool)
    requires Inv(s) && CancelsOk(s) && Apply(s, step).Some? && Cancels(step)
    requires w in s.waits && Accounted(s.waits[w], hit)
    ensures w in Apply(s, step).value.waits
    ensures Accounted(Apply(s, step).value.waits[w], hit || Hits(s, step, w))
  {
    KnownWait(s, w);
    if step.PublicUnhook? && step.token in s.registrations { KnownRegistered(s, step.token); }
    hide Inv, CancelsOk, SettleAll, Without;
    if step.CancelSweep? {
      SweepAccounted(s, step.w, w, hit);
    } else if step.CancelUnhook? {
      UnhookAccounted(s, step.w, w, hit);
    } else if step.PublicSweep? {
      PublicSweepAccounted(s, step.token, w, hit);
    }
  }

  lemma SweepAccounted(s: State, d: Wait, w: Wait, hit: bool)
    requires Inv(s) && CancelsOk(s) && d in s.cancels && s.cancels[d].Sweeping?
    requires w in s.waits && Accounted(s.waits[w], hit)
    ensures var waits := SweepPending(s, s.cancels[d].token).waits;
            w in waits && Accounted(waits[w], hit)
  {
    var token := s.cancels[d].token;
    SweepInv(s, token);
    assert CancelOk(s, d);
    if r :| r in s.pending && r.token == token {
      assert Held(s, r);
      assert r.wait == d && s.waits[d].cancelled;
    }
  }

  lemma UnhookAccounted(s: State, d: Wait, w: Wait, hit: bool)
    requires Inv(s) && CancelsOk(s) && d in s.cancels && s.cancels[d].Unhooking?
    requires w in s.waits && Accounted(s.waits[w], hit)
    ensures var waits := Unhook(s, s.cancels[d].token).waits;
            w in waits && Accounted(waits[w], hit)
  {
    var token := s.cancels[d].token;
    assert CancelOk(s, d);
    if token in s.registrations {
      assert Held(s, s.registrations[token]);
    }
  }

  lemma PublicSweepAccounted(s: State, token: Token, w: Wait, hit: bool)
    requires Inv(s) && w in s.waits && Accounted(s.waits[w], hit)
    ensures var waits := SweepPending(s, token).waits;
            w in waits && Accounted(waits[w], hit || Hits(s, PublicSweep(token), w))
  {
    SweepInv(s, token);
    assert WaitOk(s.waits[w]);
    if r :| r in s.pending && r.token == token {
      assert Held(s, r);
      HeldOk(s, r);
      if Hits(s, PublicSweep(token), w) {
        var x :| x in s.pending && x.token == token && x.wait == w;
      }
    }
  }

  /** A wait that a step creates is not finished, and nothing can have hit it. */
  lemma NewWait(s: State, step: Step, w: Wait)
    requires Inv(s) && Apply(s, step).Some? && w !in s.waits
    ensures w in Apply(s, step).value.waits ==> !Apply(s, step).value.waits[w].completed
    ensures !Hits(s, step, w)
  {
    forall r | Held(s, r) ensures r.wait != w { HeldOk(s, r); }
    hide Inv;
  }

  lemma {:induction false} RunSound(steps: seq<Step>)
    requires Run(INITIAL, steps).Some?
    ensures CancelsOk(Run(INITIAL, steps).value)
    ensures forall w :: WasHit(steps, w) ==> w in Run(INITIAL, steps).value.waits
    ensures forall w :: w in Run(INITIAL, steps).value.waits ==>
                          Accounted(Run(INITIAL, steps).value.waits[w], WasHit(steps, w))
  {
    hide Apply, Inv, CancelOk, Accounted, Hits;
    if steps == [] {
      InitialSound();
    } else {
      var front, step := steps[..|steps| - 1], steps[|steps| - 1];
      var before := Run(INITIAL, front).value;
      RunInv(front);
      RunSound(front);
      var after := Apply(before, step).value;
      forall w | w in after.cancels ensures CancelOk(after, w) { CancelStep(before, step, w); }
      forall w
        ensures WasHit(steps, w) ==> w in after.waits
        ensures w in after.waits ==> Accounted(after.waits[w], WasHit(steps, w))
      {
        if w in before.waits {
          AccountedStep(before, step, w, WasHit(front, w));
        } else {
          NewWait(before, step, w);
          if w in after.waits { UnfinishedAccounted(after.waits[w]); }
        }
      }
    }
  }

  lemma InitialSound()
    ensures CancelsOk(INITIAL) && INITIAL.waits == map[] && forall w :: !WasHit([], w)
  {
  }

  lemma UnfinishedAccounted(w: WaitState)
    requires !w.completed
    ensures Accounted(w, false)
  {
  }

  /** In every run, a finished wait whose awaiter lives was resumed, exactly once, if and only if no public cancel hit
      its token: no destructor's cancel ever settles another awaiter's wait, and a public one that does loses it. */
  lemma FinishedMeansResumed(steps: seq<Step>, w: Wait)
    requires Run(INITIAL, steps).Some? && w in Run(INITIAL, steps).value.waits
    ensures var wait := Run(INITIAL, steps).value.waits[w];
            wait.completed && !wait.cancelled ==> (wait.resumes == 1 <==> !WasHit(steps, w))
  {
    hide Run, WasHit;
    RunSound(steps);
  }

  /** A public cancel of the token of a wait that is pending or registered finishes the wait for good: no continuation
      resumes it, although its awaiter is alive. */
  lemma {:induction false} PublicCancelLoses(s: State, step: Step, w: Wait, later: seq<Step>)
    requires Inv(s) && w in s.waits && Hits(s, step, w) && Apply(s, step).Some?
    requires Run(Apply(s, step).value, later).Some?
    ensures var after := Run(Apply(s, step).value, later).value;
            Inv(after) && w in after.waits && after.waits[w].completed && after.waits[w].resumes == 0
  {
    if later == [] {
      StepInv(s, step);
      HitFinishes(s, step, w);
    } else {
      hide Inv, Apply, Hits;
      PublicCancelLoses(s, step, w, later[..|later| - 1]);
      var before := Run(Apply(s, step).value, later[..|later| - 1]).value;
      StepInv(before, later[|later| - 1]);
      FinishedStays(before, later[|later| - 1], w);
    }
  }

  lemma HitFinishes(s: State, step: Step, w: Wait)
    requires Inv(s) && w in s.waits && Hits(s, step, w) && Apply(s, step).Some?
    ensures var waits := Apply(s, step).value.waits;
            w in waits && waits[w].completed && waits[w].resumes == 0
  {
    assert WaitOk(s.waits[w]);
    if step.PublicSweep? {
      SweepInv(s, step.token);
      var r :| r in s.pending && r.token == step.token && r.wait == w;
      assert Held(s, r);
      HeldOk(s, r);
    } else {
      assert RegOk(s, s.registrations[step.token]);
    }
  }

  /** The shortest such run: tokens count up from 1, so a stranger can guess one. */
  lemma GuessedToken(deadline: int)
    ensures var r := Run(INITIAL, [Create(0), Enqueue(0, deadline), PublicSweep(1)]);
            && r.Some? && 0 in r.value.waits
            && r.value.waits[0].completed && !r.value.waits[0].cancelled && r.value.waits[0].resumes == 0
  {
    var s1 := INITIAL.(waits := map[0 := FRESH]);
    var s2 := EnqueueRegion(s1, 0, deadline);
    assert Apply(INITIAL, Create(0)) == Some(s1);
    RunOne(INITIAL, Create(0));
    assert Apply(s1, Enqueue(0, deadline)) == Some(s2);
    RunTwo(INITIAL, Create(0), Enqueue(0, deadline), PublicSweep(1));
    assert s2.pending == [Reg(0, 1, deadline)];
    assert SettleAll(s2.pending, 1, s2.waits) == Settle(s2.waits, 0);
  }

  lemma RunTwo(s: State, a: Step, b: Step, c: Step)
    requires Apply(s, a).Some? && Apply(Apply(s, a).value, b).Some?
    ensures Run(s, [a, b, c]) == Apply(Apply(Apply(s, a).value, b).value, c)
  {
    hide Apply;
    assert [a, b, c][..2] == [a, b] && [a, b][..1] == [a];
    RunOne(s, a);
  }

  // ---------------------------------------------------------------- why a wait times out

  /** This step, after the run `front` to `s`, makes `w` time out: epoll refused its descriptor, or an expiry pass took
      it at a time that is not before the deadline it was enqueued with. */
  ghost predicate Expires(front: seq<Step>, s: State, step: Step, w: Wait)
  {
    match step
    case RegisterOne(ok) => !ok && s.mode.Registering? && s.mode.batch != [] && s.mode.batch[0].wait == w
    case Expire(now, batch) =>
      && (exists d :: d <= now && Enqueue(w, d) in front)
      && (exists r :: r in batch && r.wait == w)
    case _ => false
  }

  ghost predicate HadReason(steps: seq<Step>, w: Wait)
  {
    steps != [] &&
    var front := steps[..|steps| - 1];
    HadReason(front, w) || (Run(INITIAL, front).Some? && Expires(front, Run(INITIAL, front).value, steps[|front|], w))
  }

  ghost predicate ReasonsOk(steps: seq<Step>, s: State)
  {
    && (forall r :: Held(s, r) ==> Enqueue(r.wait, r.deadline) in steps)
    && (s.mode.Expiring? ==> forall r :: r in s.mode.batch ==> HadReason(steps, r.wait))
    && (forall w :: w in s.waits && s.waits[w].timedOut ==> HadReason(steps, w))
  }

  /** The flag is raised only on the front of the loop thread's batch. */
  lemma TimedOutStep(s: State, step: Step, w: Wait)
    requires Inv(s) && Apply(s, step).Some? && w in Apply(s, step).value.waits
    requires Apply(s, step).value.waits[w].timedOut
    ensures || (w in s.waits && s.waits[w].timedOut)
            || (&& (step == RegisterOne(false) || step == ResumeExpired)
                && Loop(s.mode) != [] && Loop(s.mode)[0].wait == w)
  {
    if step.CancelSweep? && w in s.waits { SettleAllKeeps(s.pending, s.cancels[step.w].token, s.waits, w); }
    if step.PublicSweep? && w in s.waits { SettleAllKeeps(s.pending, step.token, s.waits, w); }
    hide Inv, SettleAll, Without, Lists;
  }

  lemma ExpiringStep(s: State, step: Step, r: Reg)
    requires Apply(s, step).Some? && Apply(s, step).value.mode.Expiring? && r in Apply(s, step).value.mode.batch
    ensures (s.mode.Expiring? && r in s.mode.batch) || (step.Expire? && r in step.batch && r.deadline <= step.now
                                                        && r.token in s.registrations && s.registrations[r.token] == r)
  {
    hide SettleAll, Without, ResumeReady;
    if step.Expire? { var i :| 0 <= i < |step.batch| && step.batch[i] == r; }
    if step == ResumeExpired { assert s.mode.batch == [s.mode.batch[0]] + s.mode.batch[1..]; }
  }

  lemma {:induction false} RunReasons(steps: seq<Step>)
    requires Run(INITIAL, steps).Some?
    ensures ReasonsOk(steps, Run(INITIAL, steps).value)
  {
    hide Apply, Inv, Held, Expires;
    if steps == [] {
      InitialReasons();
    } else {
      var front, step := steps[..|steps| - 1], steps[|steps| - 1];
      assert steps == front + [step];
      RunInv(front);
      RunReasons(front);
      var before, after := Run(INITIAL, front).value, Run(INITIAL, steps).value;
      forall r | Held(after, r) ensures Enqueue(r.wait, r.deadline) in steps { HeldBefore(before, step, r); }
      forall r | after.mode.Expiring? && r in after.mode.batch
        ensures HadReason(steps, r.wait)
      {
        ExpiringStep(before, step, r);
        if !(before.mode.Expiring? && r in before.mode.batch) { ExpiresNow(front, before, step, r); }
      }
      forall w | w in after.waits && after.waits[w].timedOut
        ensures HadReason(steps, w)
      {
        TimedOutStep(before, step, w);
        if step == RegisterOne(false) && Loop(before.mode) != [] && Loop(before.mode)[0].wait == w {
          RefusedNow(front, before, w);
        } else if step == ResumeExpired {
          ResumesExpired(before);
        }
      }
    }
  }

  lemma InitialReasons()
    ensures ReasonsOk([], INITIAL)
  {
  }

  lemma ExpiresNow(front: seq<Step>, s: State, step: Step, r: Reg)
    requires ReasonsOk(front, s) && step.Expire? && r in step.batch && r.deadline <= step.now
    requires r.token in s.registrations && s.registrations[r.token] == r
    ensures Expires(front, s, step, r.wait)
  {
    assert Held(s, r);
    assert Enqueue(r.wait, r.deadline) in front;
  }

  lemma RefusedNow(front: seq<Step>, s: State, w: Wait)
    requires Apply(s, RegisterOne(false)).Some? && Loop(s.mode) != [] && Loop(s.mode)[0].wait == w
    ensures Expires(front, s, RegisterOne(false), w)
  {
  }

  lemma ResumesExpired(s: State)
    requires Apply(s, ResumeExpired).Some?
    ensures s.mode.Expiring? && s.mode.batch != [] && s.mode.batch[0] in s.mode.batch
  {
  }

  /** In every run, a wait reports a timeout only if epoll refused its descriptor or an expiry pass took it at or after
      the deadline that it was enqueued with. */
  lemma TimedOutHadReason(steps: seq<Step>, w: Wait)
    requires Run(INITIAL, steps).Some? && w in Run(INITIAL, steps).value.waits
    requires Run(INITIAL, steps).value.waits[w].timedOut
    ensures HadReason(steps, w)
  {
    hide Run, HadReason;
    RunReasons(steps);
  }

  /** How a wait ends that the loop thread resumed: the coroutine ran once, with this flag, for good. */
  ghost predicate Resumed(s: State, w: Wait, timedOut: bool)
  {
    w in s.waits && s.waits[w].completed && s.waits[w].resumes == 1 && s.waits[w].timedOut == timedOut
  }

  lemma {:induction false} ResumedStays(s: State, steps: seq<Step>, w: Wait, timedOut: bool)
    requires Inv(s) && Resumed(s, w, timedOut) && Run(s, steps).Some?
    ensures Inv(Run(s, steps).value) && Resumed(Run(s, steps).value, w, timedOut)
  {
    hide Inv, Apply;
    if steps != [] {
      ResumedStays(s, steps[..|steps| - 1], w, timedOut);
      var before := Run(s, steps[..|steps| - 1]).value;
      StepInv(before, steps[|steps| - 1]);
      FinishedStays(before, steps[|steps| - 1], w);
    }
  }

  /** While the loop thread is about to resume a ready wait, nothing but that resume changes what it does next. */
  lemma {:induction false} ResumingStays(s: State, steps: seq<Step>)
    requires Inv(s) && s.mode.Resuming? && Run(s, steps).Some? && ResumeFired !in steps
    ensures Inv(Run(s, steps).value) && Run(s, steps).value.mode == s.mode
  {
    hide Inv, Apply;
    if steps != [] {
      assert steps == steps[..|steps| - 1] + [steps[|steps| - 1]];
      ResumingStays(s, steps[..|steps| - 1]);
      StepInv(Run(s, steps[..|steps| - 1]).value, steps[|steps| - 1]);
      ResumingStep(Run(s, steps[..|steps| - 1]).value, steps[|steps| - 1]);
    }
  }

  lemma ResumingStep(s: State, step: Step)
    requires s.mode.Resuming? && Apply(s, step).Some? && step != ResumeFired
    ensures Apply(s, step).value.mode == s.mode
  {
    hide SettleAll, Without, ResumeReady, Lists;
  }

  /** A registered wait whose descriptor became ready is resumed exactly once and never reports a timeout, whatever
      others do before and after, unless its awaiter is destroyed before the resume. */
  lemma ReadyIsNoTimeout(s: State, token: Token, middle: seq<Step>, later: seq<Step>)
    requires Inv(s) && s.mode.Idle? && token in s.registrations && ResumeFired !in middle
    requires Run(s, [Fire(token)] + (middle + ([ResumeFired] + later))).Some?
    ensures var w := s.registrations[token].wait;
            var before := Run(s, [Fire(token)] + middle);
            && before.Some? && w in before.value.waits
            && (!before.value.waits[w].cancelled ==>
                  Resumed(Run(s, [Fire(token)] + (middle + ([ResumeFired] + later))).value, w, false))
  {
    hide Run, Apply, Inv, Resumed;
    var w := s.registrations[token].wait;
    RunJoin(s, [Fire(token)], middle + ([ResumeFired] + later));
    RunOne(s, Fire(token));
    StepInv(s, Fire(token));
    var s1 := Apply(s, Fire(token)).value;
    FiredMode(s, token);
    RunJoin(s1, middle, [ResumeFired] + later);
    ResumingStays(s1, middle);
    var s2 := Run(s1, middle).value;
    RunTwice(s, [Fire(token)], middle);
    RunJoin(s2, [ResumeFired], later);
    RunOne(s2, ResumeFired);
    StepInv(s2, ResumeFired);
    ResumeReports(s2, ResumeFired);
    if !s2.waits[w].cancelled { ResumedStays(Apply(s2, ResumeFired).value, later, w, false); }
  }

  lemma RunTwice(s: State, first: seq<Step>, second: seq<Step>)
    requires Run(s, first).Some? && Run(Run(s, first).value, second).Some?
    ensures Run(s, first + second) == Run(Run(s, first).value, second)
  {
    hide Apply;
    if second == [] {
      assert first + second == first;
    } else {
      assert (first + second)[..|first + second| - 1] == first + second[..|second| - 1];
      RunTwice(s, first, second[..|second| - 1]);
    }
  }

  lemma FiredMode(s: State, token: Token)
    requires Apply(s, Fire(token)).Some?
    ensures Apply(s, Fire(token)).value.mode == Resuming(s.registrations[token])
  {
  }

  /** What the three resuming steps report: a ready descriptor no timeout, a refused or expired one a timeout. */
  lemma ResumeReports(s: State, step: Step)
    requires Inv(s) && Apply(s, step).Some?
    requires step == ResumeFired || step == RegisterOne(false) || step == ResumeExpired
    ensures Loop(s.mode) != [] && Loop(s.mode)[0].wait in s.waits
    ensures !s.waits[Loop(s.mode)[0].wait].cancelled ==>
              Resumed(Apply(s, step).value, Loop(s.mode)[0].wait, step != ResumeFired)
  {
    KnownFront(s);
    KnownWait(s, Loop(s.mode)[0].wait);
    hide Inv;
  }

  // ---------------------------------------------------------------- enqueueing and destroying

  /** Enqueueing adds exactly this registration, with the deadline that was asked for and a new token. */
  lemma EnqueueHolds(s: State, w: Wait, deadline: int)
    requires Inv(s) && Apply(s, Enqueue(w, deadline)).Some?
    ensures var s' := Apply(s, Enqueue(w, deadline)).value;
            && s'.pending == s.pending + [Reg(w, s.next, deadline)] && s'.next == s.next + 1
            && s'.registrations == s.registrations && s'.mode == s.mode
            && s'.waits.Keys == s.waits.Keys && s'.waits[w] == s.waits[w].(token := s.next, enqueued := true)
            && (forall v :: v in s.waits && v != w ==> s'.waits[v] == s.waits[v])
            && (forall r :: Held(s, r) ==> r.token != s.next)
  {
    forall r | Held(s, r) ensures r.token != s.next { HeldOk(s, r); }
  }

  /** A registration stays with the runtime until its wait is finished. */
  lemma HeldStep(s: State, step: Step, r: Reg)
    requires Inv(s) && Held(s, r) && Apply(s, step).Some?
    ensures Held(Apply(s, step).value, r) || Finished(Apply(s, step).value, r.wait)
  {
    HeldOk(s, r);
    if Advanced(s, r) {
      AdvancedStep(s, step, r);
    } else if step.CancelSweep? {
      SweepInv(s, s.cancels[step.w].token);
    } else if step.PublicSweep? {
      SweepInv(s, step.token);
    } else {
      hide Inv, SweepPending, Unhook, ResumeReady, Lists;
    }
  }

  lemma {:induction false} HeldRun(s: State, steps: seq<Step>, r: Reg)
    requires Inv(s) && (Held(s, r) || Finished(s, r.wait)) && Run(s, steps).Some?
    ensures Inv(Run(s, steps).value) && (Held(Run(s, steps).value, r) || Finished(Run(s, steps).value, r.wait))
  {
    hide Apply, Inv, Held, Finished;
    if steps != [] {
      var front := steps[..|steps| - 1];
      HeldRun(s, front, r);
      var before := Run(s, front).value;
      StepInv(before, steps[|steps| - 1]);
      if Finished(before, r.wait) {
        FinishedStep(before, steps[|steps| - 1], r.wait);
      } else {
        HeldStep(before, steps[|steps| - 1], r);
      }
    }
  }

  lemma {:induction false} FinishedRun(s: State, steps: seq<Step>, w: Wait)
    requires Inv(s) && Finished(s, w) && Run(s, steps).Some?
    ensures Finished(Run(s, steps).value, w) && Inv(Run(s, steps).value)
  {
    hide Apply, Inv, Finished;
    if steps != [] {
      FinishedRun(s, steps[..|steps| - 1], w);
      StepInv(Run(s, steps[..|steps| - 1]).value, steps[|steps| - 1]);
      FinishedStep(Run(s, steps[..|steps| - 1]).value, steps[|steps| - 1], w);
    }
  }

  /** The loop thread takes the pending list and later, at `now`, starts an expiry pass. */
  function Turn(middle: seq<Step>, now: int, batch: seq<Reg>, rest: seq<Step>): (steps: seq<Step>)
  {
    [TakePending] + (middle + ([Expire(now, batch)] + rest))
  }

  /** No wait outlives its deadline: a wait enqueued with a deadline is finished once, at any time after, the loop
      thread has taken the pending list and then completed an expiry pass at or after that deadline. */
  lemma EnqueuedIsFinished(s: State, w: Wait, deadline: int, earlier: seq<Step>, middle: seq<Step>, now: int,
                           batch: seq<Reg>, rest: seq<Step>)
    requires Inv(s) && deadline <= now && ExpireDone in rest
    requires Run(s, [Enqueue(w, deadline)] + (earlier + Turn(middle, now, batch, rest))).Some?
    ensures Finished(Run(s, [Enqueue(w, deadline)] + (earlier + Turn(middle, now, batch, rest))).value, w)
  {
    hide Apply, Run, Inv, Held, Finished;
    var turn := Turn(middle, now, batch, rest);
    RunJoin(s, [Enqueue(w, deadline)], earlier + turn);
    RunOne(s, Enqueue(w, deadline));
    StepInv(s, Enqueue(w, deadline));
    var r, s1 := Reg(w, s.next, deadline), Apply(s, Enqueue(w, deadline)).value;
    EnqueuedIsHeld(s, w, deadline);
    RunJoin(s1, earlier, turn);
    HeldRun(s1, earlier, r);
    var s2 := Run(s1, earlier).value;
    if Finished(s2, w) { FinishedRun(s2, turn, w); } else { LoopIteration(s2, r, middle, now, batch, rest); }
  }

  lemma EnqueuedIsHeld(s: State, w: Wait, deadline: int)
    requires Inv(s) && Apply(s, Enqueue(w, deadline)).Some?
    ensures Held(Apply(s, Enqueue(w, deadline)).value, Reg(w, s.next, deadline))
  {
    EnqueueHolds(s, w, deadline);
  }

  /** The steps of one destructor. */
  function Destructor(w: Wait): (steps: seq<Step>)
  {
    [DestroyMark(w), DestroyReadToken(w), DestroyCheck(w), CancelSweep(w), CancelUnhook(w)]
  }

  /** Destroying an awaiter takes its registration out of the list and the table: a destructor that runs undisturbed
      leaves a wait that the loop thread does not hold finished, nowhere registered, and not resumed. */
  lemma DestructorCleansUp(s: State, r: Reg)
    requires Inv(s) && Held(s, r) && r !in Loop(s.mode) && r.wait !in s.cancels
    ensures Run(s, Destructor(r.wait)).Some?
    ensures var s' := Run(s, Destructor(r.wait)).value;
            && Finished(s', r.wait) && s'.waits[r.wait].resumes == 0
            && !InPending(s', r.wait) && !Registered(s', r.wait) && !InLoop(s', r.wait)
  {
    var w := r.wait;
    HeldOk(s, r);
    KnownWait(s, w);
    var s3 := s.(waits := s.waits[w := s.waits[w].(cancelled := true)], cancels := s.cancels[w := Sweeping(r.token)]);
    ThreeSteps(s, w, r.token);
    hide Inv, Held;
    var steps := Destructor(w);
    assert steps[..4][..3] == [DestroyMark(w), DestroyReadToken(w), DestroyCheck(w)];
    assert steps[..4] == steps[..4][..3] + [CancelSweep(w)];
    assert steps == steps[..4] + [CancelUnhook(w)];
    ThreeInv(s, w, r.token);
    CancelsBoth(s3, r);
    RunStep(s, steps[..4][..3], CancelSweep(w));
    RunStep(s, steps[..4], CancelUnhook(w));
  }

  lemma RunStep(s: State, steps: seq<Step>, step: Step)
    requires Run(s, steps).Some?
    ensures Run(s, steps + [step]) == Apply(Run(s, steps).value, step)
  {
    hide Apply;
    assert (steps + [step])[..|steps|] == steps;
  }

  lemma ThreeSteps(s: State, w: Wait, token: Token)
    requires w in s.waits && w !in s.cancels && s.waits[w].token == token != 0 && !s.waits[w].completed
    ensures Run(s, [DestroyMark(w), DestroyReadToken(w), DestroyCheck(w)])
         == Some(s.(waits := s.waits[w := s.waits[w].(cancelled := true)], cancels := s.cancels[w := Sweeping(token)]))
  {
    var s1 := s.(waits := s.waits[w := s.waits[w].(cancelled := true)], cancels := s.cancels[w := Marked]);
    var s2 := s1.(cancels := s1.cancels[w := TokenRead(token)]);
    assert Apply(s, DestroyMark(w)) == Some(s1) && Apply(s1, DestroyReadToken(w)) == Some(s2);
    RunTwo(s, DestroyMark(w), DestroyReadToken(w), DestroyCheck(w));
    assert s.cancels[w := Marked][w := TokenRead(token)][w := Sweeping(token)] == s.cancels[w := Sweeping(token)];
  }

  lemma ThreeInv(s: State, w: Wait, token: Token)
    requires Inv(s) && w in s.waits && w !in s.cancels && s.waits[w].token == token != 0 && !s.waits[w].completed
    ensures Inv(s.(waits := s.waits[w := s.waits[w].(cancelled := true)], cancels := s.cancels[w := Sweeping(token)]))
  {
    CancelProgressInv(s, s.waits[w := s.waits[w].(cancelled := true)], s.cancels[w := Sweeping(token)]);
  }

  lemma CancelsBoth(s: State, r: Reg)
    requires Inv(s) && Held(s, r) && r !in Loop(s.mode)
    requires r.wait in s.cancels && s.cancels[r.wait] == Sweeping(r.token)
    ensures Apply(s, CancelSweep(r.wait)).Some?
    ensures Apply(Apply(s, CancelSweep(r.wait)).value, CancelUnhook(r.wait)).Some?
    ensures var s' := Apply(Apply(s, CancelSweep(r.wait)).value, CancelUnhook(r.wait)).value;
            && Finished(s', r.wait) && s'.waits[r.wait].resumes == 0
            && !InPending(s', r.wait) && !Registered(s', r.wait) && !InLoop(s', r.wait)
  {
    hide Inv, SettleAll, Without;
    var w, token := r.wait, r.token;
    HeldOk(s, r);
    KnownWait(s, w);
    SweepInv(s, token);
    TokenHolder(s, r);
    StepInv(s, CancelSweep(w));
    var s1 := Apply(s, CancelSweep(w)).value;
    StepInv(s1, CancelUnhook(w));
    FinishedNowhere(Apply(s1, CancelUnhook(w)).value, w);
  }

  /** Nothing else is held under a registration's token. */
  lemma TokenHolder(s: State, r: Reg)
    requires Inv(s) && Held(s, r)
    ensures forall x :: Held(s, x) && x.token == r.token ==> x.wait == r.wait
    ensures r !in Loop(s.mode) && r !in s.pending ==> forall x :: x in s.pending ==> x.token != r.token
  {
    HeldOk(s, r);
    forall x | Held(s, x) && x.token == r.token ensures x.wait == r.wait { TokenOwner(s, r.wait, x); }
    forall x | r !in Loop(s.mode) && r !in s.pending && x in s.pending
      ensures x.token != r.token
    {
      var k :| 0 <= k < |s.pending| && s.pending[k] == x;
    }
  }

  /** The runtime holds no finished wait. */
  lemma FinishedNowhere(s: State, w: Wait)
    requires Inv(s) && Finished(s, w)
    ensures !InPending(s, w) && !Registered(s, w) && !InLoop(s, w)
  {
    forall r | Held(s, r) ensures r.wait != w { HeldOk(s, r); }
    forall i | 0 <= i < |s.pending| ensures s.pending[i].wait != w { assert Held(s, s.pending[i]); }
    forall i | 0 <= i < |Loop(s.mode)| ensures Loop(s.mode)[i].wait != w { assert Held(s, Loop(s.mode)[i]); }
    forall t | t in s.registrations ensures s.registrations[t].wait != w { assert Held(s, s.registrations[t]); }
  }

  // ---------------------------------------------------------------- the runtime object

  /** The runtime's fields, with the loop thread's locals in `mode` and the progress of destructors in `cancels`. Each
      method is one lock region, or one resume, of the step system. */
  class Runtime {
    var pending: seq<Reg>
    var registrations: map<Token, Reg>
    var nextToken: Token
    // The WaitState objects that awaiters and registrations share.
    var waits: map<Wait, WaitState>
    var mode: Mode
    var cancels: map<Wait, Cancel>

    function Value(): (s: State)
      reads this
    {
      State(nextToken, pending, registrations, mode, waits, cancels)
    }

    constructor ()
      ensures Value() == INITIAL && Inv(Value())
    {
      pending, registrations, nextToken := [], map[], 1;
      waits, mode, cancels := map[], Idle, map[];
    }

    method EnqueueLocked(w: Wait, deadline: int)
      requires Inv(Value()) && Apply(Value(), Enqueue(w, deadline)).Some?
      modifies this`pending, this`nextToken, this`waits
      ensures Inv(Value()) && Some(Value()) == Apply(old(Value()), Enqueue(w, deadline))
    {
      StepInv(Value(), Enqueue(w, deadline));
      hide Inv;
      var registration := Reg(w, nextToken, deadline);
      nextToken := nextToken + 1;
      waits := waits[w := waits[w].(token := registration.token, enqueued := true)];
      pending := pending + [registration];
    }

    /** The first region of `Cancel`; `w` is the wait that is being destroyed. */
    method CancelPending(w: Wait)
      requires Inv(Value()) && w in cancels && cancels[w].Sweeping?
      modifies this`pending, this`waits, this`cancels
      ensures Inv(Value()) && Some(Value()) == Apply(old(Value()), CancelSweep(w))
    {
      StepInv(Value(), CancelSweep(w));
      hide Inv, Without, SettleAll;
      ErasePending(cancels[w].token);
      cancels := cancels[w := Unhooking(cancels[w].token)];
    }

    /** The loop over the pending list, erasing as it goes. */
    method ErasePending(token: Token)
      modifies this`pending, this`waits
      ensures pending == Without(old(pending), token)
      ensures waits == SettleAll(old(pending), token, old(waits))
    {
      var kept: seq<Reg> := [];
      var rest := pending;
      assert kept + Without(rest, token) == Without(rest, token);
      while rest != []
        invariant kept + Without(rest, token) == Without(old(pending), token)
        invariant SettleAll(rest, token, waits) == SettleAll(old(pending), token, old(waits))
        invariant pending == old(pending)
        decreases |rest|
      {
        var it := rest[0];
        if it.token == token {
          waits := Settle(waits, it.wait);
          assert [] + Without(rest[1..], token) == Without(rest[1..], token);
        } else {
          assert kept + ([it] + Without(rest[1..], token)) == (kept + [it]) + Without(rest[1..], token);
          kept := kept + [it];
        }
        rest := rest[1..];
      }
      assert kept + [] == kept;
      pending := kept;
    }

    method CancelRegistered(w: Wait)
      requires Inv(Value()) && w in cancels && cancels[w].Unhooking?
      modifies this`registrations, this`waits, this`cancels
      ensures Inv(Value()) && Some(Value()) == Apply(old(Value()), CancelUnhook(w))
    {
      StepInv(Value(), CancelUnhook(w));
      hide Inv;
      var token := cancels[w].token;
      cancels := cancels[w := Gone];
      if token !in registrations { return; }
      waits := Settle(waits, registrations[token].wait);
      registrations := registrations - {token};
    }

    /** The two regions of a `Cancel` that no destructor makes. */
    method CancelPendingPublic(token: Token)
      requires Inv(Value()) && token != 0
      modifies this`pending, this`waits
      ensures Inv(Value()) && Some(Value()) == Apply(old(Value()), PublicSweep(token))
    {
      StepInv(Value(), PublicSweep(token));
      hide Inv, Without, SettleAll;
      ErasePending(token);
    }

    method CancelRegisteredPublic(token: Token)
      requires Inv(Value()) && token != 0
      modifies this`registrations, this`waits
      ensures Inv(Value()) && Some(Value()) == Apply(old(Value()), PublicUnhook(token))
    {
      StepInv(Value(), PublicUnhook(token));
      hide Inv;
      if token !in registrations { return; }
      waits := Settle(waits, registrations[token].wait);
      registrations := registrations - {token};
    }

    /** `RegisterPending` swaps the pending list out. */
    method TakeBatch()
      requires Inv(Value()) && mode.Idle?
      modifies this`pending, this`mode
      ensures Inv(Value()) && Some(Value()) == Apply(old(Value()), TakePending)
    {
      StepInv(Value(), TakePending);
      hide Inv;
      mode := Registering(pending);
      pending := [];
    }

    /** One turn of its loop; `ok` says whether epoll took the descriptor. */
    method RegisterFront(ok: bool)
      requires Inv(Value()) && mode.Registering? && mode.batch != []
      modifies this`registrations, this`mode, this`waits
      ensures Inv(Value()) && Some(Value()) == Apply(old(Value()), RegisterOne(ok))
    {
      StepInv(Value(), RegisterOne(ok));
      hide Inv;
      var registration := mode.batch[0];
      mode := Registering(mode.batch[1..]);
      if !ok {
        var _ := Resume(registration, true);
        return;
      }
      registrations := registrations[registration.token := registration];
    }

    /** A ready event takes its registration out of the table; an unknown token is ignored. */
    method TakeReady(token: Token) returns (found: bool)
      requires Inv(Value()) && mode.Idle?
      modifies this`registrations, this`mode
      ensures Inv(Value()) && (found <==> token in old(registrations))
      ensures if found then Some(Value()) == Apply(old(Value()), Fire(token)) else Value() == old(Value())
    {
      if token !in registrations { return false; }
      StepInv(Value(), Fire(token));
      hide Inv;
      mode := Resuming(registrations[token]);
      registrations := registrations - {token};
      return true;
    }

    method ResumeTaken()
      requires Inv(Value()) && mode.Resuming?
      modifies this`mode, this`waits
      ensures Inv(Value()) && Some(Value()) == Apply(old(Value()), ResumeFired)
    {
      StepInv(Value(), ResumeFired);
      hide Inv;
      var registration := mode.reg;
      mode := Idle;
      var _ := Resume(registration, false);
    }

    /** The locked half of `ExpireTimedOut`: walks the table in any order and takes out what is due. */
    method TakeExpired(now: int)
      requires Inv(Value()) && mode.Idle?
      modifies this`registrations, this`mode
      ensures mode.Expiring? && mode.now == now
      ensures Inv(Value()) && Some(Value()) == Apply(old(Value()), Expire(now, mode.batch))
    {
      TokensAreKeys(Value());
      ghost var before := Value();
      var expired := CollectExpired(now);
      StepInv(before, Expire(now, expired));
      hide Inv, Lists;
      mode := Expiring(now, expired);
    }

    method CollectExpired(now: int) returns (expired: seq<Reg>)
      requires forall t :: t in registrations ==> registrations[t].token == t
      modifies this`registrations
      ensures Lists(expired, old(registrations), Due(old(registrations), now))
      ensures registrations == old(registrations) - Due(old(registrations), now)
    {
      expired := [];
      var unseen := registrations.Keys;
      ghost var table := registrations;
      while unseen != {}
        invariant unseen <= registrations.Keys
        invariant forall t :: t in registrations <==> t in table && (t in unseen || table[t].deadline > now)
        invariant forall t :: t in registrations ==> registrations[t] == table[t]
        invariant forall i :: 0 <= i < |expired| ==> expired[i].token in Due(table, now) - unseen
                                                     && expired[i] == table[expired[i].token]
        invariant forall t :: t in Due(table, now) - unseen ==> table[t] in expired
        invariant Distinct(expired)
        decreases unseen
      {
        var t :| t in unseen;
        var r := registrations[t];
        unseen := unseen - {t};
        if r.deadline <= now {
          expired := expired + [r];
          registrations := registrations - {t};
        }
      }
    }

    /** One turn of the resuming half. */
    method ResumeExpiredFront()
      requires Inv(Value()) && mode.Expiring? && mode.batch != []
      modifies this`mode, this`waits
      ensures Inv(Value()) && Some(Value()) == Apply(old(Value()), ResumeExpired)
    {
      StepInv(Value(), ResumeExpired);
      hide Inv;
      var registration := mode.batch[0];
      mode := Expiring(mode.now, mode.batch[1..]);
      var _ := Resume(registration, true);
    }

    /** Settles a registration; the coroutine runs unless its awaiter is gone. */
    method Resume(r: Reg, timedOut: bool) returns (resumed: bool)
      modifies this`waits
      ensures waits == ResumeReady(old(waits), r.wait, timedOut)
      ensures resumed <==> r.wait in old(waits) && !old(waits)[r.wait].cancelled
    {
      if r.wait !in waits { return false; }
      if waits[r.wait].cancelled {
        waits := Settle(waits, r.wait);
        return false;
      }
      var state := waits[r.wait];
      state := state.(timedOut := timedOut, completed := true, token := 0, resumes := state.resumes + 1);
      waits := waits[r.wait := state];
      return true;
    }
  }

  lemma TokensAreKeys(s: State)
    requires Inv(s)
    ensures forall t :: t in s.registrations ==> s.registrations[t].token == t
  {
  }
}
