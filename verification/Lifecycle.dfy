/**
  The life of a connection across loops: accepted on the base loop, established, handled and closed on
  its I/O loop, erased from the map on the base loop, destroyed on its I/O loop.

  Loop 0 is the base loop.  Every loop takes turns between dispatching the channels that `poll`
  reported and running its queue of functors; a run is any interleaving of the loops and of what other
  threads do.  A thread that holds a `TcpConnectionPtr` calls `send` or `shutdown` in two steps: the test
  of the state, and the post of a functor that binds a raw `this`.  `Next` answers `Broken` where an
  assert of the C++ would fail or where a connection that nothing refers to any more would be used.
 */
module Lifecycle {

  import opened Options

  type ConnId = nat

  datatype Phase = Connecting | Connected | Disconnecting | Disconnected

  datatype Revents = Revents(inp: bool, pri: bool, out: bool, hup: bool, rdhup: bool, err: bool, nval: bool)

  datatype Handler = Close | Error | Read | Write

  /** The functors.  The last two bind a raw `this`, the others a `TcpConnectionPtr`. */
  datatype Task =
    | Established(conn: ConnId)
    | RemoveInLoop(conn: ConnId)
    | Destroyed(conn: ConnId)
    | SendInLoop(conn: ConnId)
    | ShutdownInLoop(conn: ConnId)
  {
    predicate Raw() { SendInLoop? || ShutdownInLoop? }
  }

  /** `ups` and `downs` count calls of the user's connection callback, the rest what happened to the connection. */
  datatype Conn = Conn(
    loop: nat,
    phase: Phase,
    reading: bool,
    writing: bool,
    registered: bool,
    ups: nat,
    downs: nat,
    closes: nat,
    erases: nat,
    destroys: nat)

  datatype Ready = Ready(conn: ConnId, revents: Revents)

  datatype Place = Waiting | Dispatching | Functors

  /**
    `handlers` is what is left of the `handleEvent` of channel `on`, which holds a guard meanwhile; `ran` the
    functors of the running batch that have run, which live until the batch ends.
   */
  datatype Loop = Loop(
    place: Place,
    active: seq<Ready>,
    on: ConnId,
    handlers: seq<Handler>,
    batch: seq<Task>,
    ran: seq<Task>,
    pending: seq<Task>)

  /** A `TcpConnectionPtr` held by user code, and the functor that a call through it has yet to post. */
  datatype Pointer = Pointer(conn: ConnId, posting: Option<Task>)

  datatype State = State(loops: seq<Loop>, conns: map<ConnId, Conn>, registry: set<ConnId>, pointers: map<nat, Pointer>)

  datatype Outcome = Ok(state: State) | Broken

  datatype Event =
    | Accept(conn: ConnId, loop: nat)
    | PollReturn(loop: nat, ready: seq<Ready>)
    | Dispatch(loop: nat)
    | Handle(loop: nat, result: int)
    | StartFunctors(loop: nat)
    | Execute(loop: nat, left: bool)
    | EndFunctors(loop: nat)
    | Send(conn: ConnId, left: bool)
    | Shutdown(conn: ConnId)
    | Hold(pointer: nat, conn: ConnId)
    | TestSend(pointer: nat)
    | TestShutdown(pointer: nat)
    | PostCall(pointer: nat)
    | Release(pointer: nat)

  const IDLE := Loop(Waiting, [], 0, [], [], [], [])

  function Init(loops: nat): State {
    State(seq(loops, i => IDLE), map[], {}, map[])
  }

  // ---------------------------------------------------------------- Channel::handleEventWithGuard

  function Handlers(r: Revents): seq<Handler> {
    (if r.hup && !r.inp then [Close] else []) +
    (if r.nval || r.err then [Error] else []) +
    (if r.inp || r.pri || r.rdhup then [Read] else []) +
    (if r.out then [Write] else [])
  }

  /** What `poll` must not report: a hangup without readable data but with priority data or a peer shutdown. */
  predicate Clean(r: Revents) {
    !(r.hup && !r.inp && (r.pri || r.rdhup))
  }

  /** How often one `handleEvent` calls `handleClose` when `read` answers `result`. */
  function Closings(hs: seq<Handler>, result: int): nat {
    if hs == [] then 0
    else (if hs[0].Close? || (hs[0].Read? && result == 0) then 1 else 0) + Closings(hs[1..], result)
  }

  lemma CountClosings(r: Revents, result: int)
    ensures Closings(Handlers(r), result) <= 1 <==> Clean(r) || result != 0
    ensures Closings(Handlers(r), result) > 0 <==> (r.hup && !r.inp) || ((r.inp || r.pri || r.rdhup) && result == 0)
  {
    var a := if r.hup && !r.inp then [Close] else [];
    var b := if r.nval || r.err then [Error] else [];
    var c := if r.inp || r.pri || r.rdhup then [Read] else [];
    var d := if r.out then [Write] else [];
    ClosingsConcat(a + b + c, d, result);
    ClosingsConcat(a + b, c, result);
    ClosingsConcat(a, b, result);
  }

  lemma {:induction false} ClosingsConcat(a: seq<Handler>, b: seq<Handler>, result: int)
    ensures Closings(a + b, result) == Closings(a, result) + Closings(b, result)
  {
    if a == [] {
      assert a + b == b;
    } else {
      ClosingsConcat(a[1..], b, result);
      assert (a + b)[1..] == a[1..] + b;
    }
  }

  // ---------------------------------------------------------------- steps

  function Queue(s: State, l: nat): seq<Task>
    requires l < |s.loops|
  {
    s.loops[l].batch + s.loops[l].pending
  }

  /** The map owns the connection, or a queued functor that binds a shared pointer. */
  predicate Owned(s: State, c: ConnId) {
    c in s.registry || exists l, i :: 0 <= l < |s.loops| && 0 <= i < |Queue(s, l)|
                                      && Queue(s, l)[i].conn == c && !Queue(s, l)[i].Raw()
  }

  /** A functor of a running batch that has run still binds a shared pointer to the connection. */
  predicate Lingers(s: State, c: ConnId) {
    exists l, i :: 0 <= l < |s.loops| && 0 <= i < |s.loops[l].ran|
                   && s.loops[l].ran[i].conn == c && !s.loops[l].ran[i].Raw()
  }

  /** The library itself keeps the connection. */
  predicate Referenced(s: State, c: ConnId) {
    Owned(s, c) || Lingers(s, c)
  }

  /** User code holds a pointer to the connection. */
  predicate Held(s: State, c: ConnId) {
    exists h :: h in s.pointers && s.pointers[h].conn == c
  }

  /** The connection has not been freed. */
  predicate Alive(s: State, c: ConnId) {
    Referenced(s, c) || Held(s, c)
  }

  function Post(s: State, l: nat, t: Task): State
    requires l < |s.loops|
  {
    s.(loops := s.loops[l := s.loops[l].(pending := s.loops[l].pending + [t])])
  }

  function SetConn(s: State, c: ConnId, k: Conn): State {
    s.(conns := s.conns[c := k])
  }

  /** `TcpServer::removeConnectionInLoop`, on the base loop. */
  function AfterRemove(s: State, c: ConnId): Outcome {
    if c !in s.conns || c !in s.registry || s.conns[c].loop >= |s.loops| then Broken else
    Ok(Post(SetConn(s, c, s.conns[c].(erases := s.conns[c].erases + 1)).(registry := s.registry - {c}),
            s.conns[c].loop, Destroyed(c)))
  }

  /** `TcpConnection::handleClose` on loop `l`, with `TcpServer::removeConnection` as the close callback. */
  function AfterClose(s: State, l: nat, c: ConnId): Outcome
    requires |s.loops| > 0
  {
    if c !in s.conns || !(s.conns[c].phase.Connected? || s.conns[c].phase.Disconnecting?) then Broken else
    var k := s.conns[c];
    var t := SetConn(s, c, k.(phase := Disconnected, reading := false, writing := false,
                              downs := k.downs + 1, closes := k.closes + 1));
    if l == 0 then AfterRemove(t, c) else Ok(Post(t, 0, RemoveInLoop(c)))
  }

  /** One callback of the channel of `c`: `result` is what `read` returned, or 0 if `handleWrite` emptied the buffer. */
  function AfterHandler(s: State, l: nat, c: ConnId, h: Handler, result: int): Outcome {
    if c !in s.conns || |s.loops| == 0 then Broken
    else if h.Close? || (h.Read? && result == 0) then AfterClose(s, l, c)
    else if h.Write? then Ok(SetConn(s, c, s.conns[c].(writing := s.conns[c].writing && result != 0)))
    else Ok(s)
  }

  function AfterEstablish(s: State, c: ConnId): Outcome {
    if c !in s.conns || !s.conns[c].phase.Connecting? then Broken else
    Ok(SetConn(s, c, s.conns[c].(phase := Connected, reading := true, registered := true, ups := s.conns[c].ups + 1)))
  }

  function AfterDestroy(s: State, c: ConnId): Outcome {
    if c !in s.conns then Broken else
    var k := s.conns[c];
    var j := if k.phase.Connected?
             then k.(phase := Disconnected, reading := false, writing := false, downs := k.downs + 1)
             else k;
    if j.reading || j.writing || !j.registered then Broken else
    Ok(SetConn(s, c, j.(registered := false, destroys := j.destroys + 1)))
  }

  /** `sendInLoop`; `left` says that bytes remain for the buffer. */
  function DoSend(s: State, c: ConnId, left: bool): State
    requires c in s.conns
  {
    if s.conns[c].phase.Disconnected? then s
    else SetConn(s, c, s.conns[c].(writing := s.conns[c].writing || left))
  }

  function RunTask(s: State, t: Task, left: bool): Outcome {
    match t
    case Established(c) => AfterEstablish(s, c)
    case RemoveInLoop(c) => AfterRemove(s, c)
    case Destroyed(c) => AfterDestroy(s, c)
    case SendInLoop(c) => if c in s.conns && Alive(s, c) then Ok(DoSend(s, c, left)) else Broken
    case ShutdownInLoop(c) => if c in s.conns && Alive(s, c) then Ok(s) else Broken
  }

  /** The next functor of the batch runs; the batch keeps it. */
  function Popped(s: State, l: nat): State
    requires l < |s.loops| && s.loops[l].batch != []
  {
    var p := s.loops[l];
    s.(loops := s.loops[l := p.(batch := p.batch[1..], ran := p.ran + [p.batch[0]])])
  }

  predicate Enabled(s: State, e: Event) {
    |s.loops| > 0 &&
    match e
    case Accept(c, l) => c !in s.conns && l < |s.loops| && s.loops[0].place.Dispatching? && s.loops[0].handlers == []
    case PollReturn(l, ready) =>
      && l < |s.loops| && s.loops[l].place.Waiting?
      && (forall i :: 0 <= i < |ready| ==>
            var c := ready[i].conn;
            && Clean(ready[i].revents)
            && c in s.conns && s.conns[c].loop == l && s.conns[c].registered && (s.conns[c].reading || s.conns[c].writing))
      && (forall i, j :: 0 <= i < j < |ready| ==> ready[i].conn != ready[j].conn)
    case Dispatch(l) =>
      l < |s.loops| && s.loops[l].place.Dispatching? && s.loops[l].handlers == [] && s.loops[l].active != []
    case Handle(l, _) => l < |s.loops| && s.loops[l].place.Dispatching? && s.loops[l].handlers != []
    case StartFunctors(l) =>
      l < |s.loops| && s.loops[l].place.Dispatching? && s.loops[l].handlers == [] && s.loops[l].active == []
    case Execute(l, _) => l < |s.loops| && s.loops[l].place.Functors? && s.loops[l].batch != []
    case EndFunctors(l) => l < |s.loops| && s.loops[l].place.Functors? && s.loops[l].batch == []
    case Send(c, _) => c in s.conns && Alive(s, c)
    case Shutdown(c) => c in s.conns && Alive(s, c)
    case Hold(h, c) => h !in s.pointers && c in s.conns && Alive(s, c)
    case TestSend(h) => h in s.pointers && s.pointers[h].posting.None? && s.pointers[h].conn in s.conns
    case TestShutdown(h) => h in s.pointers && s.pointers[h].posting.None? && s.pointers[h].conn in s.conns
    case PostCall(h) => h in s.pointers && s.pointers[h].posting.Some? && s.pointers[h].conn in s.conns
    case Release(h) => h in s.pointers && s.pointers[h].posting.None?
  }

  function Next(s: State, e: Event): Outcome
    requires Enabled(s, e)
  {
    match e
    case Accept(c, l) =>
      var t := SetConn(s, c, Conn(l, Connecting, false, false, false, 0, 0, 0, 0, 0)).(registry := s.registry + {c});
      if l == 0 then AfterEstablish(t, c) else Ok(Post(t, l, Established(c)))
    case PollReturn(l, ready) =>
      Ok(s.(loops := s.loops[l := s.loops[l].(place := Dispatching, active := ready)]))
    case Dispatch(l) =>
      var r := s.loops[l].active[0];
      if !Alive(s, r.conn) then Broken else
      Ok(s.(loops := s.loops[l := s.loops[l].(active := s.loops[l].active[1..], on := r.conn, handlers := Handlers(r.revents))]))
    case Handle(l, result) =>
      var c := s.loops[l].on;
      var h := s.loops[l].handlers[0];
      var t := s.(loops := s.loops[l := s.loops[l].(handlers := s.loops[l].handlers[1..])]);
      AfterHandler(t, l, c, h, result)
    case StartFunctors(l) =>
      Ok(s.(loops := s.loops[l := s.loops[l].(place := Functors, batch := s.loops[l].pending, pending := [])]))
    case Execute(l, left) =>
      RunTask(Popped(s, l), s.loops[l].batch[0], left)
    case EndFunctors(l) =>
      Ok(s.(loops := s.loops[l := s.loops[l].(place := Waiting, ran := [])]))
    case Send(c, left) => Ok(if s.conns[c].phase.Connected? then DoSend(s, c, left) else s)
    case Shutdown(c) =>
      Ok(if s.conns[c].phase.Connected? then SetConn(s, c, s.conns[c].(phase := Disconnecting)) else s)
    case Hold(h, c) => Ok(s.(pointers := s.pointers[h := Pointer(c, None)]))
    case TestSend(h) =>
      var c := s.pointers[h].conn;
      Ok(if s.conns[c].phase.Connected? then s.(pointers := s.pointers[h := Pointer(c, Some(SendInLoop(c)))]) else s)
    case TestShutdown(h) =>
      var c := s.pointers[h].conn;
      Ok(if s.conns[c].phase.Connected?
         then SetConn(s, c, s.conns[c].(phase := Disconnecting)).(pointers := s.pointers[h := Pointer(c, Some(ShutdownInLoop(c)))])
         else s)
    case PostCall(h) =>
      var c := s.pointers[h].conn;
      if s.conns[c].loop >= |s.loops| then Broken else
      Ok(Post(s, s.conns[c].loop, s.pointers[h].posting.value).(pointers := s.pointers[h := Pointer(c, None)]))
    case Release(h) => Ok(s.(pointers := s.pointers - {h}))
  }

  ghost predicate Legal(s: State, es: seq<Event>)
    decreases |es|
  {
    es == [] || (Enabled(s, es[0]) && (Next(s, es[0]).Ok? ==> Legal(Next(s, es[0]).state, es[1..])))
  }

  ghost function Play(s: State, es: seq<Event>): Outcome
    requires Legal(s, es)
    decreases |es|
  {
    if es == [] then Ok(s)
    else
      match Next(s, es[0])
      case Broken => Broken
      case Ok(t) => Play(t, es[1..])
  }

  // ---------------------------------------------------------------- the functors of one connection

  /** The functors of connection `c` in a queue, in order. */
  ghost function Mine(c: ConnId, q: seq<Task>): seq<Task> {
    if q == [] then [] else (if q[0].conn == c then [q[0]] else []) + Mine(c, q[1..])
  }

  lemma {:induction false} MineConcat(c: ConnId, a: seq<Task>, b: seq<Task>)
    ensures Mine(c, a + b) == Mine(c, a) + Mine(c, b)
  {
    if a == [] {
      assert a + b == b;
    } else {
      MineConcat(c, a[1..], b);
      assert (a + b)[1..] == a[1..] + b;
    }
  }

  lemma {:induction false} MineHas(c: ConnId, q: seq<Task>, t: Task)
    requires t in Mine(c, q)
    ensures t.conn == c && t in q
  {
    if q[0].conn != c || t != q[0] {
      MineHas(c, q[1..], t);
    }
  }

  lemma {:induction false} MineAll(c: ConnId, q: seq<Task>, t: Task)
    requires t in q && t.conn == c
    ensures t in Mine(c, q)
  {
    if t != q[0] {
      MineAll(c, q[1..], t);
    }
  }

  ghost predicate AllRaw(m: seq<Task>) {
    forall i :: 0 <= i < |m| ==> m[i].Raw()
  }

  ghost predicate OneDestroyed(m: seq<Task>, c: ConnId) {
    exists i :: 0 <= i < |m| && m[i] == Destroyed(c) && AllRaw(m[..i]) && AllRaw(m[i + 1..])
  }

  /** Which functors of a connection queue `l` holds, by how far the connection has come. */
  ghost predicate QueueOk(c: ConnId, k: Conn, l: nat, q: seq<Task>) {
    var m := Mine(c, q);
    if l == k.loop then
      if k.ups == 0 then m == [Established(c)]
      else if k.erases == 1 && k.destroys == 0 then OneDestroyed(m, c)
      else AllRaw(m)
    else
      m == if l == 0 && k.closes == 1 && k.erases == 0 then [RemoveInLoop(c)] else []
  }

  /** Each stage of a connection happens at most once and after the one before it. */
  ghost predicate Staged(k: Conn) {
    && 1 >= k.ups >= k.closes >= k.erases >= k.destroys
    && k.downs == k.closes
    && (k.ups == 0 <==> k.phase.Connecting?)
    && (k.closes == 1 <==> k.phase.Disconnected?)
    && (k.reading <==> k.ups == 1 && k.closes == 0)
    && (k.writing ==> k.reading)
    && (k.registered <==> k.ups == 1 && k.destroys == 0)
    && (k.loop == 0 ==> k.ups == 1 && k.erases == k.closes)
  }

  ghost predicate ConnOk(s: State, c: ConnId)
    requires c in s.conns
  {
    var k := s.conns[c];
    && Staged(k) && k.loop < |s.loops|
    && (c in s.registry <==> k.erases == 0)
    && forall l :: 0 <= l < |s.loops| ==> QueueOk(c, k, l, Queue(s, l))
  }

  /** A dispatched channel is registered, and has not been closed while a handler that may close it is left. */
  ghost predicate LoopOk(s: State, l: nat)
    requires l < |s.loops|
  {
    var p := s.loops[l];
    && (!p.place.Dispatching? ==> p.active == [] && p.handlers == [])
    && (!p.place.Functors? ==> p.batch == [] && p.ran == [])
    && (forall i :: 0 <= i < |p.active| ==>
          p.active[i].conn in s.conns && Clean(p.active[i].revents) && s.conns[p.active[i].conn].loop == l
          && s.conns[p.active[i].conn].ups == 1 && s.conns[p.active[i].conn].closes == 0)
    && (forall i, j :: 0 <= i < j < |p.active| ==> p.active[i].conn != p.active[j].conn)
    && (p.handlers != [] ==>
          && p.on in s.conns && s.conns[p.on].loop == l && s.conns[p.on].ups == 1 && s.conns[p.on].destroys == 0
          && (forall i :: 0 <= i < |p.active| ==> p.active[i].conn != p.on)
          && Closings(p.handlers, 0) <= 1 - s.conns[p.on].closes)
  }

  ghost predicate Inv(s: State) {
    && |s.loops| > 0
    && (forall c :: c in s.conns ==> ConnOk(s, c))
    && s.registry <= s.conns.Keys
    && (forall l :: 0 <= l < |s.loops| ==> LoopOk(s, l))
    && (forall l, i :: 0 <= l < |s.loops| && 0 <= i < |Queue(s, l)| ==> Queue(s, l)[i].conn in s.conns)
  }

  // ---------------------------------------------------------------- building blocks of the proof

  /** The invariant with connection `c` in the middle of a change. */
  ghost predicate InvExcept(s: State, c: ConnId) {
    && |s.loops| > 0
    && (forall d :: d in s.conns && d != c ==> ConnOk(s, d))
    && s.registry <= s.conns.Keys
    && (forall l :: 0 <= l < |s.loops| ==> LoopOk(s, l))
    && (forall l, i :: 0 <= l < |s.loops| && 0 <= i < |Queue(s, l)| ==> Queue(s, l)[i].conn in s.conns)
  }

  lemma Whole(s: State, c: ConnId)
    requires InvExcept(s, c) && c in s.conns && ConnOk(s, c)
    ensures Inv(s)
  {
    hide ConnOk, LoopOk, Queue;
  }

  lemma QueuesAfterPost(s: State, l: nat, t: Task)
    requires l < |s.loops|
    ensures forall m :: 0 <= m < |s.loops| ==>
              Queue(Post(s, l, t), m) == if m == l then Queue(s, l) + [t] else Queue(s, m)
    ensures forall d, m :: 0 <= m < |s.loops| ==>
              Mine(d, Queue(Post(s, l, t), m))
              == if m == l && d == t.conn then Mine(d, Queue(s, m)) + [t] else Mine(d, Queue(s, m))
  {
    assert s.loops[l].batch + (s.loops[l].pending + [t]) == Queue(s, l) + [t];
    forall d
      ensures Mine(d, Queue(s, l) + [t]) == if d == t.conn then Mine(d, Queue(s, l)) + [t] else Mine(d, Queue(s, l))
    {
      MineConcat(d, Queue(s, l), [t]);
      assert Mine(d, Queue(s, l)) + [] == Mine(d, Queue(s, l));
    }
  }

  lemma PostKeeps(s: State, l: nat, t: Task)
    requires InvExcept(s, t.conn) && l < |s.loops| && t.conn in s.conns
    ensures InvExcept(Post(s, l, t), t.conn)
    ensures forall m :: 0 <= m < |s.loops| ==>
              Mine(t.conn, Queue(Post(s, l, t), m))
              == if m == l then Mine(t.conn, Queue(s, m)) + [t] else Mine(t.conn, Queue(s, m))
  {
    hide Staged, Closings, Mine, Queue;
    var u := Post(s, l, t);
    QueuesAfterPost(s, l, t);
    forall d | d in u.conns && d != t.conn
      ensures ConnOk(u, d)
    {
      assert ConnOk(s, d);
    }
    forall m | 0 <= m < |s.loops|
      ensures LoopOk(u, m)
    {
      assert LoopOk(s, m);
    }
  }

  lemma SetKeeps(s: State, c: ConnId, k: Conn)
    requires InvExcept(s, c)
    requires forall l :: 0 <= l < |s.loops| ==> LoopOk(SetConn(s, c, k), l)
    ensures InvExcept(SetConn(s, c, k), c)
  {
    hide QueueOk, Staged, LoopOk;
    var t := SetConn(s, c, k);
    assert forall l :: 0 <= l < |s.loops| ==> Queue(t, l) == Queue(s, l);
    forall d | d in t.conns && d != c
      ensures ConnOk(t, d)
    {
      assert ConnOk(s, d);
    }
  }

  /** A change of one loop that leaves its queue as it was. */
  lemma LoopKeeps(s: State, l: nat, p: Loop)
    requires Inv(s) && l < |s.loops|
    requires p.batch + p.pending == Queue(s, l)
    requires LoopOk(s.(loops := s.loops[l := p]), l)
    ensures Inv(s.(loops := s.loops[l := p]))
  {
    hide QueueOk, Staged, Closings;
    var t := s.(loops := s.loops[l := p]);
    assert forall m :: 0 <= m < |s.loops| ==> Queue(t, m) == Queue(s, m);
    forall d | d in t.conns
      ensures ConnOk(t, d)
    {
      assert ConnOk(s, d);
    }
    forall m | 0 <= m < |s.loops|
      ensures LoopOk(t, m)
    {
      assert LoopOk(s, m);
    }
  }

  lemma QueuesAfterPop(s: State, l: nat)
    requires l < |s.loops| && s.loops[l].batch != []
    ensures Queue(s, l) == [s.loops[l].batch[0]] + Queue(Popped(s, l), l)
    ensures forall m :: 0 <= m < |s.loops| && m != l ==> Queue(Popped(s, l), m) == Queue(s, m)
    ensures forall d :: Mine(d, Queue(s, l)) ==
              if d == s.loops[l].batch[0].conn then [s.loops[l].batch[0]] + Mine(d, Queue(Popped(s, l), l))
              else Mine(d, Queue(Popped(s, l), l))
  {
    var t := s.loops[l].batch[0];
    assert Queue(s, l) == [t] + Queue(Popped(s, l), l);
    assert Queue(s, l)[1..] == Queue(Popped(s, l), l);
    assert forall d :: d != t.conn ==> [] + Mine(d, Queue(Popped(s, l), l)) == Mine(d, Queue(Popped(s, l), l));
  }

  lemma PopKeeps(s: State, l: nat)
    requires Inv(s) && l < |s.loops| && s.loops[l].place.Functors? && s.loops[l].batch != []
    ensures s.loops[l].batch[0].conn in s.conns && InvExcept(Popped(s, l), s.loops[l].batch[0].conn)
  {
    hide Staged, Closings, Queue, Mine;
    var t := s.loops[l].batch[0];
    var u := Popped(s, l);
    QueuesAfterPop(s, l);
    assert Queue(s, l)[0] == t;
    forall d | d in u.conns && d != t.conn
      ensures ConnOk(u, d)
    {
      assert ConnOk(s, d);
    }
    forall m | 0 <= m < |s.loops|
      ensures LoopOk(u, m)
    {
      assert LoopOk(s, m);
    }
    forall m, i | 0 <= m < |u.loops| && 0 <= i < |Queue(u, m)|
      ensures Queue(u, m)[i].conn in u.conns
    {
      if m == l { assert Queue(u, l)[i] == Queue(s, l)[i + 1]; }
    }
  }

  lemma OwnedStages(s: State, c: ConnId)
    requires Inv(s) && c in s.conns
    ensures ConnOk(s, c)
    ensures var k := s.conns[c]; k.erases <= 1 && k.destroys <= k.erases && (k.destroys == 1 ==> k.ups == 1 && k.closes == 1)
    ensures s.conns[c].erases == 1 ==> s.conns[c].ups == 1
  {
    assert ConnOk(s, c);
  }

  /** The map or a queued functor owns a connection exactly until it is destroyed. */
  lemma OwnedUntilDestroyed(s: State, c: ConnId)
    requires Inv(s) && c in s.conns
    ensures Owned(s, c) <==> s.conns[c].destroys == 0
  {
    hide Staged, LoopOk, Queue;
    OwnedStages(s, c);
    assert ConnOk(s, c);
    var k := s.conns[c];
    if k.destroys == 1 {
      forall l, i | 0 <= l < |s.loops| && 0 <= i < |Queue(s, l)| && Queue(s, l)[i].conn == c
        ensures Queue(s, l)[i].Raw()
      {
        assert QueueOk(c, k, l, Queue(s, l));
        MineAll(c, Queue(s, l), Queue(s, l)[i]);
      }
    } else if k.erases == 1 {
      assert QueueOk(c, k, k.loop, Queue(s, k.loop));
      assert Destroyed(c) in Mine(c, Queue(s, k.loop));
      MineHas(c, Queue(s, k.loop), Destroyed(c));
      var i :| 0 <= i < |Queue(s, k.loop)| && Queue(s, k.loop)[i] == Destroyed(c);
    }
  }

  /** The functor at the head of a queue says how far its connection has come. */
  lemma HeadTellsStage(s: State, l: nat)
    requires Inv(s) && l < |s.loops| && s.loops[l].place.Functors? && s.loops[l].batch != []
    ensures s.loops[l].batch[0].conn in s.conns && ConnOk(s, s.loops[l].batch[0].conn)
    ensures var t := s.loops[l].batch[0]; var c := t.conn; var k := s.conns[c]; var u := Popped(s, l);
            && (forall m :: 0 <= m < |s.loops| && m != l ==> QueueOk(c, k, m, Queue(u, m)))
            && (t.Established? ==> l == k.loop && k.ups == 0 && Mine(c, Queue(u, l)) == [])
            && (t.RemoveInLoop? ==> l == 0 && k.loop != 0 && k.closes == 1 && k.erases == 0 && Mine(c, Queue(u, l)) == [])
            && (t.Destroyed? ==> l == k.loop && k.erases == 1 && k.destroys == 0 && AllRaw(Mine(c, Queue(u, l))))
            && (t.Raw() ==> l == k.loop && k.ups == 1 && QueueOk(c, k, l, Queue(u, l)))
  {
    hide LoopOk, Closings, Mine, Queue;
    QueuesAfterPop(s, l);
    var t := s.loops[l].batch[0];
    assert Queue(s, l)[0] == t;
    assert ConnOk(s, t.conn);
    var k := s.conns[t.conn];
    var rest := Mine(t.conn, Queue(Popped(s, l), l));
    var m := [t] + rest;
    assert QueueOk(t.conn, k, l, Queue(s, l)) && Mine(t.conn, Queue(s, l)) == m;
    assert m[0] == t && m[1..] == rest;
    if l == k.loop && k.ups == 1 {
      if k.erases == 1 && k.destroys == 0 { DestroyedInRest(m, t.conn); } else { RestIsRaw(m); }
    }
  }

  lemma RestIsRaw(m: seq<Task>)
    requires m != [] && AllRaw(m)
    ensures m[0].Raw() && AllRaw(m[1..])
  {
  }

  lemma DestroyedInRest(m: seq<Task>, c: ConnId)
    requires m != [] && OneDestroyed(m, c)
    ensures m[0] == Destroyed(c) || m[0].Raw()
    ensures m[0] == Destroyed(c) ==> AllRaw(m[1..])
    ensures m[0].Raw() ==> OneDestroyed(m[1..], c)
  {
    var i :| 0 <= i < |m| && m[i] == Destroyed(c) && AllRaw(m[..i]) && AllRaw(m[i + 1..]);
    if i > 0 {
      assert m[..i][0] == m[0];
      assert m[1..][i - 1] == m[i] && m[1..][..i - 1] == m[..i][1..] && m[1..][i..] == m[i + 1..];
    }
  }

  lemma SameQueues(s: State, t: State)
    requires s.loops == t.loops
    ensures forall l :: 0 <= l < |s.loops| ==> Queue(t, l) == Queue(s, l)
  {
  }

  /** `removeConnectionInLoop` of a closed connection: the map had it, and its loop will destroy it. */
  lemma RemoveKeeps(s: State, c: ConnId)
    requires InvExcept(s, c) && c in s.conns && c in s.registry && s.conns[c].loop < |s.loops|
    requires s.conns[c].ups == 1 && s.conns[c].closes == 1 && s.conns[c].erases == s.conns[c].destroys == 0
    requires Staged(s.conns[c].(erases := 1))
    requires forall l :: 0 <= l < |s.loops| ==>
               if l == s.conns[c].loop then AllRaw(Mine(c, Queue(s, l))) else Mine(c, Queue(s, l)) == []
    ensures AfterRemove(s, c).Ok? && Inv(AfterRemove(s, c).state)
  {
    hide Mine, Queue, Staged, LoopOk, QueueOk, ConnOk, Inv, InvExcept;
    var k := s.conns[c].(erases := 1);
    var t := SetConn(s, c, k).(registry := s.registry - {c});
    EraseKeeps(s, c);
    SameQueues(s, t);
    PostKeeps(t, k.loop, Destroyed(c));
    ErasedOk(s, Post(t, k.loop, Destroyed(c)), c, k);
    Whole(Post(t, k.loop, Destroyed(c)), c);
    assert AfterRemove(s, c).state == Post(t, k.loop, Destroyed(c));
  }

  lemma EraseKeeps(s: State, c: ConnId)
    requires InvExcept(s, c) && c in s.conns && s.conns[c].erases == 0
    ensures InvExcept(SetConn(s, c, s.conns[c].(erases := 1)).(registry := s.registry - {c}), c)
  {
    hide Mine, Queue, Staged, Closings, QueueOk;
    var t := SetConn(s, c, s.conns[c].(erases := 1)).(registry := s.registry - {c});
    SameQueues(s, t);
    forall l | 0 <= l < |s.loops|
      ensures LoopOk(t, l)
    {
      assert LoopOk(s, l);
    }
    forall d | d in t.conns && d != c
      ensures ConnOk(t, d)
    {
      assert ConnOk(s, d);
    }
  }

  lemma ErasedOk(s: State, t: State, c: ConnId, k: Conn)
    requires c in t.conns && t.conns[c] == k && c !in t.registry && |t.loops| == |s.loops| && k.loop < |s.loops|
    requires Staged(k) && k.ups == k.closes == k.erases == 1 && k.destroys == 0
    requires forall l :: 0 <= l < |s.loops| ==>
               if l == k.loop then AllRaw(Mine(c, Queue(s, l))) else Mine(c, Queue(s, l)) == []
    requires forall l :: 0 <= l < |s.loops| ==>
               Mine(c, Queue(t, l)) == if l == k.loop then Mine(c, Queue(s, l)) + [Destroyed(c)] else Mine(c, Queue(s, l))
    ensures ConnOk(t, c)
  {
    hide Mine, Queue;
    var m := Mine(c, Queue(t, k.loop));
    var i := |m| - 1;
    assert m[i] == Destroyed(c) && m[..i] == Mine(c, Queue(s, k.loop)) && m[i + 1..] == [];
  }

  // ---------------------------------------------------------------- each step keeps the invariant

  lemma ExecuteKeeps(s: State, e: Event)
    requires Inv(s) && RanOk(s) && Enabled(s, e) && e.Execute?
    ensures Next(s, e).Ok? ==> Inv(Next(s, e).state)
    ensures var t := s.loops[e.loop].batch[0];
            t.conn in s.conns && s.conns[t.conn].loop < |s.loops|
            && (Next(s, e).Ok? <==> !t.Raw() || s.conns[t.conn].destroys == 0 || BatchRuns(s, t.conn) || Held(s, t.conn))
  {
    var l := e.loop;
    HeadTellsStage(s, l);
    PopKeeps(s, l);
    var t := s.loops[l].batch[0];
    match t
    case Established(c) => EstablishKeeps(Popped(s, l), l, c);
    case RemoveInLoop(c) => RemoveTaskKeeps(s, l, c);
    case Destroyed(c) => DestroyKeeps(Popped(s, l), l, c);
    case SendInLoop(c) => RawFindsConnectionExactly(s, l, e.left);
    case ShutdownInLoop(c) => RawFindsConnectionExactly(s, l, e.left);
  }

  /** No loop is dispatching the channel of `c`, so its record may change. */
  lemma LoopsIndifferent(s: State, c: ConnId, k: Conn)
    requires InvExcept(s, c) && c in s.conns && k.loop == s.conns[c].loop
    requires s.conns[c].ups == 0 || (k.loop < |s.loops| && s.loops[k.loop].place.Functors?)
    ensures forall m :: 0 <= m < |s.loops| ==> LoopOk(SetConn(s, c, k), m)
  {
    hide Closings, Clean, ConnOk, Queue;
    forall m | 0 <= m < |s.loops|
      ensures LoopOk(SetConn(s, c, k), m)
    {
      assert LoopOk(s, m);
    }
  }

  lemma SettledOk(s: State, c: ConnId)
    requires c in s.conns && s.conns[c].loop < |s.loops|
    requires Staged(s.conns[c]) && s.conns[c].ups == 1 && (s.conns[c].closes == 0 || s.conns[c].destroys == 1)
    requires c in s.registry <==> s.conns[c].erases == 0
    requires forall m :: 0 <= m < |s.loops| ==>
               if m == s.conns[c].loop then AllRaw(Mine(c, Queue(s, m))) else Mine(c, Queue(s, m)) == []
    ensures ConnOk(s, c)
  {
    hide Mine, Queue;
  }

  lemma EstablishKeeps(s: State, l: nat, c: ConnId)
    requires InvExcept(s, c) && c in s.conns && l < |s.loops|
    requires s.conns[c].loop == l && s.conns[c].ups == 0 && c in s.registry
    requires s.conns[c].closes == s.conns[c].erases == s.conns[c].destroys == s.conns[c].downs == 0
    requires s.conns[c].phase.Connecting? && !s.conns[c].writing
    requires forall m :: 0 <= m < |s.loops| ==> Mine(c, Queue(s, m)) == []
    ensures AfterEstablish(s, c).Ok? && Inv(AfterEstablish(s, c).state)
  {
    hide Mine, Queue, LoopOk, QueueOk, ConnOk, Inv, InvExcept;
    var k := s.conns[c].(phase := Connected, reading := true, registered := true, ups := 1);
    LoopsIndifferent(s, c, k);
    SetKeeps(s, c, k);
    SameQueues(s, SetConn(s, c, k));
    SettledOk(SetConn(s, c, k), c);
    Whole(SetConn(s, c, k), c);
  }

  lemma RemoveTaskKeeps(s: State, l: nat, c: ConnId)
    requires Inv(s) && l < |s.loops| && s.loops[l].place.Functors?
    requires s.loops[l].batch != [] && s.loops[l].batch[0] == RemoveInLoop(c)
    ensures AfterRemove(Popped(s, l), c).Ok? && Inv(AfterRemove(Popped(s, l), c).state)
  {
    hide Mine, Queue, LoopOk, Closings;
    HeadTellsStage(s, l);
    PopKeeps(s, l);
    RemoveKeeps(Popped(s, l), c);
  }

  lemma DestroyKeeps(s: State, l: nat, c: ConnId)
    requires InvExcept(s, c) && c in s.conns && l < |s.loops| && s.loops[l].place.Functors?
    requires Staged(s.conns[c]) && s.conns[c].loop == l && s.conns[c].erases == 1 && s.conns[c].destroys == 0 && c !in s.registry
    requires forall m :: 0 <= m < |s.loops| ==>
               if m == l then AllRaw(Mine(c, Queue(s, m))) else Mine(c, Queue(s, m)) == []
    ensures AfterDestroy(s, c).Ok? && Inv(AfterDestroy(s, c).state)
  {
    hide Mine, Queue, LoopOk, QueueOk, ConnOk, Inv, InvExcept;
    var k := s.conns[c].(registered := false, destroys := 1);
    LoopsIndifferent(s, c, k);
    SetKeeps(s, c, k);
    SameQueues(s, SetConn(s, c, k));
    SettledOk(SetConn(s, c, k), c);
    Whole(SetConn(s, c, k), c);
  }

  /**
    What the executed functors of the running batches say of their connections.  Only `Established` can be
    older than the stage it stands for, and the batch that it shares with a destruction has that, too.
   */
  ghost predicate RanTaskOk(s: State, l: nat, t: Task)
    requires l < |s.loops|
  {
    t.Raw() ||
    (t.conn in s.conns &&
     var k := s.conns[t.conn];
     match t
     case Established(c) => l == k.loop && (k.destroys == 1 ==> Destroyed(c) in s.loops[l].ran)
     case RemoveInLoop(c) => l == 0 && k.loop != 0 && k.erases == 1
     case Destroyed(c) => l == k.loop && k.destroys == 1
     case _ => true)
  }

  ghost predicate RanOk(s: State) {
    forall l, t :: 0 <= l < |s.loops| && t in s.loops[l].ran ==> RanTaskOk(s, l, t)
  }

  /** The batch that destroyed the connection is still running, or a batch of the base loop that erased it. */
  predicate BatchRuns(s: State, c: ConnId)
    requires |s.loops| > 0 && c in s.conns && s.conns[c].loop < |s.loops|
  {
    Destroyed(c) in s.loops[s.conns[c].loop].ran || RemoveInLoop(c) in s.loops[0].ran
  }

  /** The library keeps a connection exactly until the batches that erased and destroyed it have ended. */
  lemma KeptUntilBatchesEnd(s: State, c: ConnId)
    requires Inv(s) && RanOk(s) && c in s.conns
    ensures s.conns[c].loop < |s.loops|
    ensures Referenced(s, c) <==> s.conns[c].destroys == 0 || BatchRuns(s, c)
  {
    hide QueueOk, LoopOk, Queue, Owned;
    OwnedUntilDestroyed(s, c);
    assert ConnOk(s, c);
    var d := s.conns[c].loop;
    if Lingers(s, c) {
      var l, i :| 0 <= l < |s.loops| && 0 <= i < |s.loops[l].ran| && s.loops[l].ran[i].conn == c && !s.loops[l].ran[i].Raw();
      assert RanTaskOk(s, l, s.loops[l].ran[i]);
    }
    if Destroyed(c) in s.loops[d].ran {
      var i :| 0 <= i < |s.loops[d].ran| && s.loops[d].ran[i] == Destroyed(c);
    } else if RemoveInLoop(c) in s.loops[0].ran {
      var i :| 0 <= i < |s.loops[0].ran| && s.loops[0].ran[i] == RemoveInLoop(c);
    }
  }

  /** A raw functor that moves to the executed ones of its batch keeps nothing alive. */
  lemma RawChangesNothing(s: State, l: nat)
    requires l < |s.loops| && s.loops[l].batch != [] && s.loops[l].batch[0].Raw()
    requires RanOk(s)
    ensures RanOk(Popped(s, l))
    ensures forall m, t: Task :: 0 <= m < |s.loops| && !t.Raw() ==> (t in Popped(s, l).loops[m].ran <==> t in s.loops[m].ran)
  {
    var u := Popped(s, l);
    forall m, t | 0 <= m < |s.loops| && t in u.loops[m].ran
      ensures RanTaskOk(u, m, t)
    {
      if !t.Raw() { assert RanTaskOk(s, m, t); }
    }
  }

  /**
    A functor that binds a raw `this` finds its connection alive exactly if the connection has not been
    destroyed yet, or the batch that destroyed it or one that erased it has not ended, or user code still
    holds a pointer to it.
   */
  lemma RawFindsConnectionExactly(s: State, l: nat, left: bool)
    requires Inv(s) && RanOk(s) && l < |s.loops| && s.loops[l].place.Functors?
    requires s.loops[l].batch != [] && s.loops[l].batch[0].Raw()
    ensures var o := Next(s, Execute(l, left)); var c := s.loops[l].batch[0].conn;
            && c in s.conns && s.conns[c].loop < |s.loops|
            && (o.Ok? <==> s.conns[c].destroys == 0 || BatchRuns(s, c) || Held(s, c))
            && (o.Ok? ==> Inv(o.state))
  {
    hide Mine, Queue, LoopOk, Closings, QueueOk, Referenced, Held, RanOk;
    HeadTellsStage(s, l);
    PopKeeps(s, l);
    var c := s.loops[l].batch[0].conn;
    var u := Popped(s, l);
    assert ConnOk(u, c);
    assert Inv(u);
    RawChangesNothing(s, l);
    KeptUntilBatchesEnd(u, c);
    SamePointers(s, u);
    if s.loops[l].batch[0].SendInLoop? { SendKeeps(u, c, left); }
  }

  lemma SamePointers(s: State, t: State)
    requires t.pointers == s.pointers
    ensures forall c :: Held(t, c) <==> Held(s, c)
  {
  }

  lemma SendKeeps(s: State, c: ConnId, left: bool)
    requires Inv(s) && c in s.conns && (s.conns[c].phase.Connected? || s.conns[c].phase.Disconnecting? || s.conns[c].phase.Disconnected?)
    ensures Inv(DoSend(s, c, left))
  {
    assert ConnOk(s, c);
    if !s.conns[c].phase.Disconnected? {
      TouchKeeps(s, c, s.conns[c].(writing := s.conns[c].writing || left));
    }
  }

  /** A change of phase or interest that is not a stage. */
  lemma TouchKeeps(s: State, c: ConnId, k: Conn)
    requires Inv(s) && c in s.conns && Staged(k)
    requires k.(phase := s.conns[c].phase, writing := s.conns[c].writing) == s.conns[c]
    ensures Inv(SetConn(s, c, k))
  {
    hide Mine, Queue, Closings, Staged;
    forall m | 0 <= m < |s.loops|
      ensures LoopOk(SetConn(s, c, k), m)
    {
      assert LoopOk(s, m);
    }
    SetKeeps(s, c, k);
    var t := SetConn(s, c, k);
    SameQueues(s, t);
    assert ConnOk(s, c);
    assert ConnOk(t, c);
  }

  lemma AcceptKeeps(s: State, e: Event)
    requires Inv(s) && Enabled(s, e) && e.Accept?
    ensures Next(s, e).Ok? && Inv(Next(s, e).state)
  {
    hide Closings, Staged, Mine, Queue;
    var c, l := e.conn, e.loop;
    var k := Conn(l, Connecting, false, false, false, 0, 0, 0, 0, 0);
    var t := SetConn(s, c, k).(registry := s.registry + {c});
    SameQueues(s, t);
    NothingQueued(s, c);
    forall m | 0 <= m < |s.loops|
      ensures LoopOk(t, m)
    {
      assert LoopOk(s, m);
    }
    forall d | d in t.conns && d != c
      ensures ConnOk(t, d)
    {
      assert ConnOk(s, d);
    }
    if l == 0 {
      EstablishKeeps(t, 0, c);
    } else {
      PostKeeps(t, l, Established(c));
      AcceptedOk(Post(t, l, Established(c)), c, k);
    }
  }

  lemma AcceptedOk(s: State, c: ConnId, k: Conn)
    requires k == Conn(k.loop, Connecting, false, false, false, 0, 0, 0, 0, 0) && 0 < k.loop < |s.loops|
    requires c in s.conns && s.conns[c] == k && c in s.registry
    requires forall m :: 0 <= m < |s.loops| ==> Mine(c, Queue(s, m)) == if m == k.loop then [Established(c)] else []
    ensures ConnOk(s, c)
  {
    hide Mine, Queue;
  }

  lemma NothingQueued(s: State, c: ConnId)
    requires Inv(s) && c !in s.conns
    ensures forall m :: 0 <= m < |s.loops| ==> Mine(c, Queue(s, m)) == []
  {
    hide ConnOk, LoopOk, Queue;
    forall m | 0 <= m < |s.loops|
      ensures Mine(c, Queue(s, m)) == []
    {
      var mine := Mine(c, Queue(s, m));
      if mine != [] { MineHas(c, Queue(s, m), mine[0]); }
    }
  }

  lemma StartFunctorsKeeps(s: State, l: nat)
    requires Inv(s) && Enabled(s, StartFunctors(l))
    ensures Next(s, StartFunctors(l)).Ok? && Inv(Next(s, StartFunctors(l)).state)
  {
    hide QueueOk, Closings, Staged, ConnOk;
    assert LoopOk(s, l);
    var p := s.loops[l].(place := Functors, batch := s.loops[l].pending, pending := []);
    assert p.batch + p.pending == Queue(s, l);
    LoopKeeps(s, l, p);
  }

  lemma EndFunctorsKeeps(s: State, l: nat)
    requires Inv(s) && Enabled(s, EndFunctors(l))
    ensures Next(s, EndFunctors(l)).Ok? && Inv(Next(s, EndFunctors(l)).state)
  {
    hide QueueOk, Closings, Staged, ConnOk;
    assert LoopOk(s, l);
    LoopKeeps(s, l, s.loops[l].(place := Waiting, ran := []));
  }

  lemma PollKeeps(s: State, l: nat, ready: seq<Ready>)
    requires Inv(s) && Enabled(s, PollReturn(l, ready))
    ensures Next(s, PollReturn(l, ready)).Ok? && Inv(Next(s, PollReturn(l, ready)).state)
  {
    hide Closings, QueueOk, Queue, Clean;
    assert LoopOk(s, l);
    forall i | 0 <= i < |ready|
      ensures s.conns[ready[i].conn].ups == 1 && s.conns[ready[i].conn].closes == 0
    {
      assert ConnOk(s, ready[i].conn);
    }
    var p := s.loops[l].(place := Dispatching, active := ready);
    assert p.batch + p.pending == Queue(s, l) by { SameLists(s, l, p); }
    assert LoopOk(s.(loops := s.loops[l := p]), l);
    LoopKeeps(s, l, p);
  }

  lemma SameLists(s: State, l: nat, p: Loop)
    requires l < |s.loops| && p.batch == s.loops[l].batch && p.pending == s.loops[l].pending
    ensures p.batch + p.pending == Queue(s, l)
  {
  }

  lemma DispatchKeeps(s: State, l: nat)
    requires Inv(s) && Enabled(s, Dispatch(l))
    ensures Next(s, Dispatch(l)).Ok? && Inv(Next(s, Dispatch(l)).state)
  {
    hide QueueOk, Queue, Closings, Handlers, Owned, Lingers;
    var r := s.loops[l].active[0];
    assert LoopOk(s, l);
    assert ConnOk(s, r.conn);
    OwnedUntilDestroyed(s, r.conn);
    CountClosings(r.revents, 0);
    var p := s.loops[l].(active := s.loops[l].active[1..], on := r.conn, handlers := Handlers(r.revents));
    SameLists(s, l, p);
    assert LoopOk(s.(loops := s.loops[l := p]), l);
    LoopKeeps(s, l, p);
  }

  lemma HandleKeeps(s: State, e: Event)
    requires Inv(s) && Enabled(s, e) && e.Handle?
    ensures Next(s, e).Ok? && Inv(Next(s, e).state)
  {
    hide QueueOk, Queue, Staged;
    var l := e.loop;
    var c := s.loops[l].on;
    assert LoopOk(s, l);
    var p := s.loops[l].(handlers := s.loops[l].handlers[1..]);
    SameLists(s, l, p);
    var t := s.(loops := s.loops[l := p]);
    assert LoopOk(t, l);
    LoopKeeps(s, l, p);
    var h := s.loops[l].handlers[0];
    if h.Close? || (h.Read? && e.result == 0) {
      CloseKeeps(t, l, c);
    } else if h.Write? {
      WriteKeeps(t, c, e.result);
    }
  }

  lemma WriteKeeps(s: State, c: ConnId, result: int)
    requires Inv(s) && c in s.conns
    ensures Inv(SetConn(s, c, s.conns[c].(writing := s.conns[c].writing && result != 0)))
  {
    assert ConnOk(s, c);
    TouchKeeps(s, c, s.conns[c].(writing := s.conns[c].writing && result != 0));
  }

  lemma CloseLeavesLoops(s: State, l: nat, c: ConnId, k: Conn)
    requires Inv(s) && l < |s.loops| && c in s.conns && s.conns[c].loop == l
    requires k.loop == l && k.ups == 1 && k.closes == 1 && k.destroys == 0
    requires forall i :: 0 <= i < |s.loops[l].active| ==> s.loops[l].active[i].conn != c
    requires s.loops[l].on == c ==> Closings(s.loops[l].handlers, 0) == 0
    ensures forall m :: 0 <= m < |s.loops| ==> LoopOk(SetConn(s, c, k), m)
  {
    hide Closings, ConnOk, Clean;
    forall m | 0 <= m < |s.loops|
      ensures LoopOk(SetConn(s, c, k), m)
    {
      assert LoopOk(s, m);
    }
  }

  lemma OpenQueues(s: State, c: ConnId)
    requires Inv(s) && c in s.conns && s.conns[c].ups == 1 && s.conns[c].closes == 0
    ensures forall m :: 0 <= m < |s.loops| ==>
              if m == s.conns[c].loop then AllRaw(Mine(c, Queue(s, m))) else Mine(c, Queue(s, m)) == []
  {
    hide Queue, Mine, LoopOk, AllRaw;
    assert ConnOk(s, c);
    assert forall m :: 0 <= m < |s.loops| ==> QueueOk(c, s.conns[c], m, Queue(s, m));
  }

  lemma CloseKeeps(s: State, l: nat, c: ConnId)
    requires Inv(s) && l < |s.loops| && c in s.conns && s.conns[c].loop == l
    requires s.conns[c].ups == 1 && s.conns[c].closes == 0
    requires forall i :: 0 <= i < |s.loops[l].active| ==> s.loops[l].active[i].conn != c
    requires s.loops[l].on == c ==> Closings(s.loops[l].handlers, 0) == 0
    ensures AfterClose(s, l, c).Ok? && Inv(AfterClose(s, l, c).state)
  {
    hide Queue, Mine, Closings, LoopOk, AllRaw, QueueOk;
    var k := s.conns[c].(phase := Disconnected, reading := false, writing := false,
                         downs := s.conns[c].downs + 1, closes := s.conns[c].closes + 1);
    var t := SetConn(s, c, k);
    assert ConnOk(s, c);
    CloseLeavesLoops(s, l, c, k);
    OpenQueues(s, c);
    SetKeeps(s, c, k);
    SameQueues(s, t);
    if l == 0 {
      RemoveKeeps(t, c);
    } else {
      PostKeeps(t, 0, RemoveInLoop(c));
      ClosedOk(s, Post(t, 0, RemoveInLoop(c)), c, k);
      Whole(Post(t, 0, RemoveInLoop(c)), c);
    }
  }

  lemma ClosedOk(s: State, t: State, c: ConnId, k: Conn)
    requires c in s.conns && ConnOk(s, c) && |t.loops| == |s.loops| && c in t.conns && t.conns[c] == k
    requires k.(phase := s.conns[c].phase, reading := s.conns[c].reading, writing := s.conns[c].writing,
                downs := s.conns[c].downs, closes := s.conns[c].closes) == s.conns[c]
    requires s.conns[c].closes == 0 && k.closes == 1 && k.ups == 1 && k.loop != 0 && Staged(k)
    requires c in s.registry <==> c in t.registry
    requires forall m :: 0 <= m < |s.loops| ==>
               Mine(c, Queue(t, m)) == if m == 0 then Mine(c, Queue(s, m)) + [RemoveInLoop(c)] else Mine(c, Queue(s, m))
    ensures ConnOk(t, c)
  {
    hide Mine, Queue;
    assert forall m :: 0 <= m < |s.loops| ==> QueueOk(c, s.conns[c], m, Queue(s, m));
  }

  /** A call of `send` or `shutdown`: on the loop thread, its test on another thread, or its post. */
  lemma CallKeeps(s: State, e: Event)
    requires Inv(s) && PointersOk(s) && Enabled(s, e)
    requires e.Send? || e.Shutdown? || e.Hold? || e.TestSend? || e.TestShutdown? || e.PostCall? || e.Release?
    ensures Next(s, e).Ok? && Inv(Next(s, e).state)
  {
    hide Mine, Queue, QueueOk, LoopOk, Staged, Alive, Closings;
    match e
    case Send(c, left) => if s.conns[c].phase.Connected? { SendKeeps(s, c, left); }
    case Shutdown(c) => if s.conns[c].phase.Connected? { DisconnectKeeps(s, c); }
    case TestShutdown(h) =>
      var c := s.pointers[h].conn;
      if s.conns[c].phase.Connected? {
        DisconnectKeeps(s, c);
        PointersIndifferent(SetConn(s, c, s.conns[c].(phase := Disconnecting)), Next(s, e).state);
      }
    case PostCall(h) =>
      var c := s.pointers[h].conn;
      assert ConnOk(s, c);
      PostRawKeeps(s, c, s.pointers[h].posting.value);
      PointersIndifferent(Post(s, s.conns[c].loop, s.pointers[h].posting.value), Next(s, e).state);
    case TestSend(_) => PointersIndifferent(s, Next(s, e).state);
    case Hold(_, _) => PointersIndifferent(s, Next(s, e).state);
    case Release(_) => PointersIndifferent(s, Next(s, e).state);
  }

  lemma PointersIndifferent(s: State, t: State)
    requires Inv(s) && t.loops == s.loops && t.conns == s.conns && t.registry == s.registry
    ensures Inv(t)
  {
    hide QueueOk, Staged, Closings, Queue;
    SameQueues(s, t);
    forall c | c in t.conns ensures ConnOk(t, c) { assert ConnOk(s, c); }
    forall l | 0 <= l < |t.loops| ensures LoopOk(t, l) { assert LoopOk(s, l); }
  }

  lemma DisconnectKeeps(s: State, c: ConnId)
    requires Inv(s) && c in s.conns && s.conns[c].phase.Connected?
    ensures Inv(SetConn(s, c, s.conns[c].(phase := Disconnecting)))
  {
    hide Mine, Queue, QueueOk, LoopOk, Staged;
    assert ConnOk(s, c);
    StillStaged(s.conns[c]);
    TouchKeeps(s, c, s.conns[c].(phase := Disconnecting));
  }

  lemma StillStaged(k: Conn)
    requires Staged(k) && k.phase.Connected?
    ensures Staged(k.(phase := Disconnecting))
  {
  }

  lemma PostRawKeeps(s: State, c: ConnId, t: Task)
    requires Inv(s) && c in s.conns && t.conn == c && t.Raw() && s.conns[c].loop < |s.loops| && s.conns[c].ups == 1
    ensures Inv(Post(s, s.conns[c].loop, t))
  {
    hide Mine, Queue, LoopOk, OneDestroyed;
    assert ConnOk(s, c);
    PostKeeps(s, s.conns[c].loop, t);
    var u := Post(s, s.conns[c].loop, t);
    OneMoreRaw(Mine(c, Queue(s, s.conns[c].loop)), t, c);
    forall l | 0 <= l < |s.loops|
      ensures QueueOk(c, s.conns[c], l, Queue(u, l))
    {
      assert QueueOk(c, s.conns[c], l, Queue(s, l));
    }
    assert ConnOk(u, c);
  }

  lemma OneMoreRaw(m: seq<Task>, t: Task, c: ConnId)
    requires t.Raw()
    ensures AllRaw(m) ==> AllRaw(m + [t])
    ensures OneDestroyed(m, c) ==> OneDestroyed(m + [t], c)
  {
    if OneDestroyed(m, c) {
      var i :| 0 <= i < |m| && m[i] == Destroyed(c) && AllRaw(m[..i]) && AllRaw(m[i + 1..]);
      var n := m + [t];
      assert n[i] == m[i] && n[..i] == m[..i] && n[i + 1..] == m[i + 1..] + [t];
    }
  }

  // ---------------------------------------------------------------- pointers

  /** Pointers are to connections that exist, and only calls on connections that came up are under way. */
  ghost predicate PointersOk(s: State) {
    forall h :: h in s.pointers ==>
      var p := s.pointers[h];
      && p.conn in s.conns
      && (p.posting.Some? ==> p.posting.value.conn == p.conn && p.posting.value.Raw() && s.conns[p.conn].ups == 1)
  }

  ghost predicate Valid(s: State) {
    Inv(s) && PointersOk(s) && RanOk(s)
  }

  /** Connections are never forgotten and their stages are never undone. */
  predicate Older(s: State, t: State) {
    forall c :: c in s.conns ==>
      && c in t.conns && t.conns[c].loop == s.conns[c].loop
      && t.conns[c].ups >= s.conns[c].ups && t.conns[c].erases >= s.conns[c].erases && t.conns[c].destroys >= s.conns[c].destroys
  }

  lemma PointersStay(s: State, t: State)
    requires PointersOk(s) && Inv(t) && t.pointers == s.pointers && Older(s, t)
    ensures PointersOk(t)
  {
    forall c | c in t.conns ensures t.conns[c].ups <= 1 { assert ConnOk(t, c); }
  }

  lemma TaskIsOlder(s: State, t: Task, left: bool)
    requires RunTask(s, t, left).Ok?
    ensures Older(s, RunTask(s, t, left).state)
  {
    hide Alive;
  }

  lemma CloseIsOlder(s: State, l: nat, c: ConnId)
    requires |s.loops| > 0 && AfterClose(s, l, c).Ok?
    ensures Older(s, AfterClose(s, l, c).state)
  {
  }

  lemma NextIsOlder(s: State, e: Event)
    requires Enabled(s, e) && Next(s, e).Ok?
    ensures Older(s, Next(s, e).state)
  {
    hide AfterClose, RunTask, Handlers, Alive, Queue;
    match e
    case Execute(l, left) =>
      TaskIsOlder(Popped(s, l), s.loops[l].batch[0], left);
    case Handle(l, result) =>
      var t := s.(loops := s.loops[l := s.loops[l].(handlers := s.loops[l].handlers[1..])]);
      if s.loops[l].handlers[0].Close? || (s.loops[l].handlers[0].Read? && result == 0) { CloseIsOlder(t, l, s.loops[l].on); }
    case _ =>
  }

  lemma PointersStep(s: State, e: Event)
    requires Valid(s) && Enabled(s, e) && Next(s, e).Ok? && Inv(Next(s, e).state)
    ensures PointersOk(Next(s, e).state)
  {
    hide Inv, Handlers, Alive;
    var t := Next(s, e).state;
    NextIsOlder(s, e);
    match e
    case TestSend(h) => ConnectedIsUp(s, s.pointers[h].conn);
    case TestShutdown(h) => ConnectedIsUp(s, s.pointers[h].conn);
    case Hold(_, _) =>
    case PostCall(_) =>
    case Release(_) =>
    case _ => SamePointerMap(s, e); PointersStay(s, t);
  }

  lemma ConnectedIsUp(s: State, c: ConnId)
    requires Inv(s) && c in s.conns
    ensures s.conns[c].phase.Connected? ==> s.conns[c].ups == 1
  {
    assert ConnOk(s, c);
  }

  lemma SamePointerMap(s: State, e: Event)
    requires Enabled(s, e) && Next(s, e).Ok?
    requires !e.TestSend? && !e.TestShutdown? && !e.Hold? && !e.PostCall? && !e.Release?
    ensures Next(s, e).state.pointers == s.pointers
  {
    hide Handlers, Alive;
  }

  // ---------------------------------------------------------------- what a step does to the queues

  /** Nothing that binds a raw `this` was added. */
  predicate Extends(a: seq<Task>, b: seq<Task>) {
    a <= b && forall i :: |a| <= i < |b| ==> !b[i].Raw()
  }

  /** What a step other than a post of a raw functor does to the functors of loop `l`. */
  predicate LoopFollows(e: Event, l: nat, p: Loop, q: Loop) {
    if e.Execute? && e.loop == l then
      p.batch != [] && q.batch == p.batch[1..] && q.ran == p.ran + [p.batch[0]] && Extends(p.pending, q.pending)
    else if e == StartFunctors(l) then
      p.batch == p.ran == q.ran == [] && q.batch == p.pending && q.pending == []
    else if e == EndFunctors(l) then
      p.batch == q.batch == q.ran == [] && q.pending == p.pending
    else
      q.batch == p.batch && q.ran == p.ran && Extends(p.pending, q.pending)
  }

  /** The functor that a step runs. */
  predicate Runs(s: State, e: Event, t: Task) {
    e.Execute? && e.loop < |s.loops| && s.loops[e.loop].batch != [] && s.loops[e.loop].batch[0] == t
  }

  predicate QueuesFollow(s: State, e: Event, t: State) {
    && |t.loops| == |s.loops|
    && (forall l :: 0 <= l < |s.loops| ==> LoopFollows(e, l, s.loops[l], t.loops[l]))
    && (forall c :: c in s.conns ==>
          c in t.conns && t.conns[c].loop == s.conns[c].loop
          && t.conns[c].destroys == s.conns[c].destroys + if Runs(s, e, Destroyed(c)) then 1 else 0)
  }

  /** Something other than raw functors was queued. */
  predicate OnlyQueued(s: State, t: State) {
    && |t.loops| == |s.loops| && t.pointers == s.pointers
    && forall l :: 0 <= l < |s.loops| ==>
         && t.loops[l].batch == s.loops[l].batch && t.loops[l].ran == s.loops[l].ran
         && Extends(s.loops[l].pending, t.loops[l].pending)
  }

  lemma RemoveFollows(s: State, c: ConnId)
    requires AfterRemove(s, c).Ok?
    ensures var t := AfterRemove(s, c).state;
            && OnlyQueued(s, t)
            && (forall d :: d in s.conns ==>
                  d in t.conns && t.conns[d].loop == s.conns[d].loop && t.conns[d].destroys == s.conns[d].destroys)
  {
  }

  lemma CloseFollows(s: State, l: nat, c: ConnId)
    requires |s.loops| > 0 && AfterClose(s, l, c).Ok?
    ensures var t := AfterClose(s, l, c).state;
            && OnlyQueued(s, t)
            && (forall d :: d in s.conns ==>
                  d in t.conns && t.conns[d].loop == s.conns[d].loop && t.conns[d].destroys == s.conns[d].destroys)
  {
    hide AfterRemove;
    var k := s.conns[c];
    var u := SetConn(s, c, k.(phase := Disconnected, reading := false, writing := false,
                              downs := k.downs + 1, closes := k.closes + 1));
    if l == 0 { RemoveFollows(u, c); }
  }

  lemma TaskFollows(s: State, task: Task, left: bool)
    requires RunTask(s, task, left).Ok?
    ensures var t := RunTask(s, task, left).state;
            && OnlyQueued(s, t)
            && (forall d :: d in s.conns ==>
                  d in t.conns && t.conns[d].loop == s.conns[d].loop
                  && t.conns[d].destroys == s.conns[d].destroys + if task == Destroyed(d) then 1 else 0)
  {
    hide AfterRemove, Alive;
    if task.RemoveInLoop? { RemoveFollows(s, task.conn); }
  }

  lemma ExecuteFollows(s: State, e: Event)
    requires Enabled(s, e) && e.Execute? && Next(s, e).Ok?
    ensures QueuesFollow(s, e, Next(s, e).state) && Next(s, e).state.pointers == s.pointers
  {
    hide Extends, RunTask;
    TaskFollows(Popped(s, e.loop), s.loops[e.loop].batch[0], e.left);
  }

  lemma HandleFollows(s: State, e: Event)
    requires Enabled(s, e) && e.Handle? && Next(s, e).Ok?
    ensures QueuesFollow(s, e, Next(s, e).state) && Next(s, e).state.pointers == s.pointers
  {
    hide AfterClose;
    var l := e.loop;
    var u := s.(loops := s.loops[l := s.loops[l].(handlers := s.loops[l].handlers[1..])]);
    var h := s.loops[l].handlers[0];
    if h.Close? || (h.Read? && e.result == 0) { CloseFollows(u, l, s.loops[l].on); }
  }

  /** A step of a loop, an accept, or a call on a loop thread. */
  predicate OfLoop(e: Event) {
    !e.Hold? && !e.TestSend? && !e.TestShutdown? && !e.PostCall? && !e.Release?
  }

  lemma StepFollows(s: State, e: Event)
    requires Inv(s) && Enabled(s, e) && OfLoop(e) && Next(s, e).Ok?
    ensures QueuesFollow(s, e, Next(s, e).state) && Next(s, e).state.pointers == s.pointers
  {
    hide Alive, Handlers, Next, Inv;
    match e
    case Execute(_, _) => ExecuteFollows(s, e);
    case Handle(_, _) => HandleFollows(s, e);
    case StartFunctors(l) => SwapFollows(s, l);
    case _ => QuietFollows(s, e);
  }

  lemma SwapFollows(s: State, l: nat)
    requires Inv(s) && Enabled(s, StartFunctors(l))
    ensures var t := Next(s, StartFunctors(l)).state; QueuesFollow(s, StartFunctors(l), t) && t.pointers == s.pointers
  {
    hide ConnOk;
    assert LoopOk(s, l);
  }

  lemma QuietFollows(s: State, e: Event)
    requires Enabled(s, e) && OfLoop(e) && !e.Execute? && !e.Handle? && !e.StartFunctors? && Next(s, e).Ok?
    ensures QueuesFollow(s, e, Next(s, e).state) && Next(s, e).state.pointers == s.pointers
  {
    hide Alive, Handlers, RunTask, AfterHandler;
  }

  /** The other steps post at most one raw functor. */
  lemma CallFollows(s: State, e: Event)
    requires Enabled(s, e) && !OfLoop(e) && Next(s, e).Ok?
    ensures var t := Next(s, e).state;
            && |t.loops| == |s.loops|
            && (forall l :: 0 <= l < |s.loops| ==> t.loops[l].batch == s.loops[l].batch && t.loops[l].ran == s.loops[l].ran)
            && (forall c :: c in s.conns ==> c in t.conns && t.conns[c].destroys == s.conns[c].destroys)
  {
    hide Alive;
  }

  lemma StillRan(s: State, t: State, l: nat, task: Task)
    requires l < |s.loops| == |t.loops| && RanTaskOk(s, l, task) && Older(s, t) && Inv(t)
    requires forall x <- s.loops[l].ran :: x in t.loops[l].ran
    requires task.Established? && task.conn in s.conns && t.conns[task.conn].destroys != s.conns[task.conn].destroys ==>
               Destroyed(task.conn) in t.loops[s.conns[task.conn].loop].ran
    ensures RanTaskOk(t, l, task)
  {
    hide LoopOk, QueueOk, Queue;
    if !task.Raw() { assert ConnOk(t, task.conn); }
  }

  lemma HeadHasRun(s: State, e: Event, l: nat)
    requires Inv(s) && Enabled(s, e) && e.Execute? && e.loop == l && Next(s, e).Ok?
    requires QueuesFollow(s, e, Next(s, e).state)
    ensures RanTaskOk(Next(s, e).state, l, s.loops[l].batch[0])
  {
    hide LoopOk, QueueOk, Queue, Mine, Alive, AfterEstablish, AfterDestroy;
    HeadTellsStage(s, l);
  }

  lemma DestroyedByItsLoop(s: State, e: Event, c: ConnId)
    requires Inv(s) && Enabled(s, e) && Runs(s, e, Destroyed(c))
    ensures c in s.conns && s.conns[c].loop == e.loop
  {
    HeadTellsStage(s, e.loop);
  }

  lemma RanStep(s: State, e: Event)
    requires Inv(s) && RanOk(s) && Enabled(s, e) && Next(s, e).Ok? && Inv(Next(s, e).state)
    ensures RanOk(Next(s, e).state)
  {
    hide Inv, Next, Enabled, RanTaskOk, Extends;
    var t := Next(s, e).state;
    NextIsOlder(s, e);
    if OfLoop(e) { StepFollows(s, e); } else { CallFollows(s, e); }
    forall l, task | 0 <= l < |t.loops| && task in t.loops[l].ran
      ensures RanTaskOk(t, l, task)
    {
      if e.Execute? && e.loop == l && task !in s.loops[l].ran {
        HeadHasRun(s, e, l);
      } else {
        assert RanTaskOk(s, l, task);
        var c := task.conn;
        if c in s.conns && t.conns[c].destroys != s.conns[c].destroys { DestroyedByItsLoop(s, e, c); }
        StillRan(s, t, l, task);
      }
    }
  }

  // ---------------------------------------------------------------- every run

  /**
    A functor that binds a raw `this` is about to run, and its connection has been freed: the batches that
    erased and destroyed it have ended, and nobody holds a pointer.
   */
  predicate UsesFreed(s: State, e: Event) {
    && e.Execute? && e.loop < |s.loops| && s.loops[e.loop].batch != []
    && var t := s.loops[e.loop].batch[0];
    && t.Raw() && t.conn in s.conns && s.conns[t.conn].loop < |s.loops| && s.conns[t.conn].destroys == 1
    && !BatchRuns(s, t.conn) && !Held(s, t.conn)
  }

  lemma InvStep(s: State, e: Event)
    requires Valid(s) && Enabled(s, e)
    ensures Next(s, e).Ok? <==> !UsesFreed(s, e)
    ensures Next(s, e).Ok? ==> Inv(Next(s, e).state)
  {
    hide Inv, Next, PointersOk, RanOk, Held, BatchRuns;
    match e
    case Accept(_, _) => AcceptKeeps(s, e);
    case PollReturn(l, ready) => PollKeeps(s, l, ready);
    case Dispatch(l) => DispatchKeeps(s, l);
    case Handle(_, _) => HandleKeeps(s, e);
    case StartFunctors(l) => StartFunctorsKeeps(s, l);
    case Execute(l, _) => ExecuteKeeps(s, e); DestroyedOnce(s, s.loops[l].batch[0].conn);
    case EndFunctors(l) => EndFunctorsKeeps(s, l);
    case _ => CallKeeps(s, e);
  }

  /** Every step keeps the invariant; the only thing that can go wrong is a raw functor of a freed connection. */
  lemma StepKeeps(s: State, e: Event)
    requires Valid(s) && Enabled(s, e)
    ensures Next(s, e).Ok? <==> !UsesFreed(s, e)
    ensures Next(s, e).Ok? ==> Valid(Next(s, e).state)
  {
    hide Next, Enabled, UsesFreed, Inv, PointersOk, RanOk;
    InvStep(s, e);
    if Next(s, e).Ok? {
      PointersStep(s, e);
      RanStep(s, e);
    }
  }

  lemma DestroyedOnce(s: State, c: ConnId)
    requires Inv(s) && c in s.conns
    ensures s.conns[c].destroys == 0 || s.conns[c].destroys == 1
  {
    assert ConnOk(s, c);
  }

  lemma {:induction false} RunKeeps(s: State, es: seq<Event>)
    requires Valid(s) && Legal(s, es) && Play(s, es).Ok?
    ensures Valid(Play(s, es).state)
    decreases |es|
  {
    hide Valid, Enabled, Next, UsesFreed;
    if es != [] {
      StepKeeps(s, es[0]);
      RunKeeps(Next(s, es[0]).state, es[1..]);
    }
  }

  // ---------------------------------------------------------------- raw functors behind a destruction

  /**
    The functor at `i` of a loop binds a raw `this` and is in a later batch than the destruction: that was in
    a batch that has ended, or it is in the one that runs and the functor waits for the next.
   */
  predicate LateIn(p: Loop, destroys: nat, c: ConnId, i: nat) {
    var q := p.batch + p.pending;
    && i < |q| && q[i].conn == c && q[i].Raw()
    && ((destroys == 1 && Destroyed(c) !in p.ran)
        || (i >= |p.batch| && (Destroyed(c) in p.ran || Destroyed(c) in p.batch)))
  }

  predicate LateAt(s: State, c: ConnId, i: nat) {
    c in s.conns && s.conns[c].loop < |s.loops| && LateIn(s.loops[s.conns[c].loop], s.conns[c].destroys, c, i)
  }

  /** Whoever has such a functor queued is still holding a pointer, or someone else is. */
  ghost predicate Safe(s: State) {
    forall c, p :: LateAt(s, c, p) ==> Held(s, c)
  }

  /** The last pointer to a connection is not let go while a raw functor waits in a later batch than its destruction. */
  ghost predicate MayRelease(s: State, h: nat)
    requires h in s.pointers
  {
    var c := s.pointers[h].conn;
    (exists p :: LateAt(s, c, p)) ==> exists g :: g in s.pointers && g != h && s.pointers[g].conn == c
  }

  /** A connection is destroyed by its functor on its loop only. */
  predicate Counts(e: Event, l: nat, p: Loop, before: nat, after: nat, c: ConnId) {
    after == before + if e.Execute? && e.loop == l && p.batch != [] && p.batch[0] == Destroyed(c) then 1 else 0
  }

  lemma CountsOnItsLoop(s: State, e: Event, t: State, c: ConnId)
    requires Inv(s) && Enabled(s, e) && QueuesFollow(s, e, t) && c in s.conns
    ensures var l := s.conns[c].loop;
            l < |s.loops| && Counts(e, l, s.loops[l], s.conns[c].destroys, t.conns[c].destroys, c)
  {
    hide LoopOk, QueueOk;
    assert ConnOk(s, c);
    if Runs(s, e, Destroyed(c)) { DestroyedByItsLoop(s, e, c); }
  }

  /** A functor that is late after such a step was late before it. */
  lemma LateWasLate(e: Event, l: nat, p: Loop, q: Loop, before: nat, after: nat, c: ConnId, i: nat)
    requires LoopFollows(e, l, p, q) && Counts(e, l, p, before, after, c)
    requires LateIn(q, after, c, i)
    ensures LateIn(p, before, c, if e.Execute? && e.loop == l then i + 1 else i)
  {
    var was := if e.Execute? && e.loop == l then i + 1 else i;
    assert was < |p.batch + p.pending| && (p.batch + p.pending)[was] == (q.batch + q.pending)[i];
    if e.Execute? && e.loop == l {
      assert p.batch == [p.batch[0]] + q.batch;
    }
  }

  lemma LateIsKnown(s: State, e: Event, t: State, c: ConnId, i: nat)
    requires Inv(s) && QueuesFollow(s, e, t) && LateAt(t, c, i)
    ensures c in s.conns
  {
    hide ConnOk, LoopOk;
    var l := t.conns[c].loop;
    var was := if e.Execute? && e.loop == l then i + 1 else i;
    assert LoopFollows(e, l, s.loops[l], t.loops[l]);
    assert was < |Queue(s, l)| && Queue(s, l)[was] == Queue(t, l)[i];
  }

  /** And it stays late until its loop has run it. */
  lemma LateStaysLate(e: Event, l: nat, p: Loop, q: Loop, before: nat, after: nat, c: ConnId, i: nat)
    requires LoopFollows(e, l, p, q) && Counts(e, l, p, before, after, c) && after <= 1
    requires Destroyed(c) in p.ran ==> before == 1
    requires LateIn(p, before, c, i)
    requires e.Execute? && e.loop == l ==> i > 0
    ensures LateIn(q, after, c, if e.Execute? && e.loop == l then i - 1 else i)
  {
    var now := if e.Execute? && e.loop == l then i - 1 else i;
    assert now < |q.batch + q.pending| && (p.batch + p.pending)[i] == (q.batch + q.pending)[now];
    if e.Execute? && e.loop == l {
      assert p.batch == [p.batch[0]] + q.batch;
    }
  }

  /** Only a release can put a connection in danger, and it does so exactly if it lets go of the last pointer too early. */
  lemma SafeStep(s: State, e: Event)
    requires Valid(s) && Safe(s) && Enabled(s, e)
    ensures Next(s, e).Ok? && Valid(Next(s, e).state)
    ensures !e.Release? ==> Safe(Next(s, e).state)
    ensures e.Release? ==> (MayRelease(s, e.pointer) <==> Safe(Next(s, e).state))
  {
    hide Inv, Next, Enabled, Safe, MayRelease, PointersOk, LateAt;
    SafeIsOk(s, e);
    StepKeeps(s, e);
    if OfLoop(e) {
      LoopKeepsSafe(s, e);
    } else if e.Release? {
      ReleaseKeepsSafeExactly(s, e.pointer);
    } else {
      CallKeepsSafe(s, e);
    }
  }

  lemma SafeIsOk(s: State, e: Event)
    requires Valid(s) && Safe(s) && Enabled(s, e)
    ensures !UsesFreed(s, e)
  {
    hide Inv, Held, LateAt;
    if UsesFreed(s, e) { FreedIsLate(s, e); }
  }

  lemma FreedIsLate(s: State, e: Event)
    requires Inv(s) && Enabled(s, e) && UsesFreed(s, e)
    ensures LateAt(s, s.loops[e.loop].batch[0].conn, 0) && !Held(s, s.loops[e.loop].batch[0].conn)
  {
    hide LoopOk, Held;
    HeadTellsStage(s, e.loop);
  }

  lemma LoopKeepsSafe(s: State, e: Event)
    requires Valid(s) && Safe(s) && Enabled(s, e) && OfLoop(e) && Next(s, e).Ok?
    ensures Safe(Next(s, e).state)
  {
    hide Inv, Next, Enabled, LateIn, LoopFollows, Held;
    var t := Next(s, e).state;
    StepFollows(s, e);
    SamePointers(s, t);
    forall c: ConnId, p: nat | LateAt(t, c, p)
      ensures Held(t, c)
    {
      LateIsKnown(s, e, t, c, p);
      var l := s.conns[c].loop;
      CountsOnItsLoop(s, e, t, c);
      LateWasLate(e, l, s.loops[l], t.loops[l], s.conns[c].destroys, t.conns[c].destroys, c, p);
      assert LateAt(s, c, if e.Execute? && e.loop == l then p + 1 else p);
    }
  }

  lemma CallKeepsSafe(s: State, e: Event)
    requires Valid(s) && Safe(s) && Enabled(s, e) && !OfLoop(e) && !e.Release? && Next(s, e).Ok?
    ensures Safe(Next(s, e).state)
  {
    hide Inv, Alive, Next, LateIn;
    var t := Next(s, e).state;
    StillHeld(s, e);
    forall c: ConnId, p: nat | LateAt(t, c, p)
      ensures Held(t, c)
    {
      if !e.PostCall? || c != s.pointers[e.pointer].conn { CallMakesNoneLate(s, e, c, p); }
    }
  }

  lemma CallMakesNoneLate(s: State, e: Event, c: ConnId, i: nat)
    requires PointersOk(s) && Enabled(s, e) && !OfLoop(e) && Next(s, e).Ok? && LateAt(Next(s, e).state, c, i)
    requires e.PostCall? ==> c != s.pointers[e.pointer].conn
    ensures LateAt(s, c, i)
  {
    hide Alive;
    var t := Next(s, e).state;
    var p, q := s.loops[s.conns[c].loop], t.loops[s.conns[c].loop];
    assert q.pending != p.pending ==> e.PostCall? && q.pending == p.pending + [s.pointers[e.pointer].posting.value];
    assert q.batch == p.batch && q.ran == p.ran;
    assert i < |p.batch + p.pending| && (q.batch + q.pending)[i] == (p.batch + p.pending)[i];
  }

  lemma StillHeld(s: State, e: Event)
    requires Enabled(s, e) && !OfLoop(e) && !e.Release? && Next(s, e).Ok?
    ensures forall c :: Held(s, c) ==> Held(Next(s, e).state, c)
    ensures e.PostCall? ==> Held(Next(s, e).state, s.pointers[e.pointer].conn)
  {
    hide Alive;
    var t := Next(s, e).state;
    forall c | Held(s, c)
      ensures Held(t, c)
    {
      var h :| h in s.pointers && s.pointers[h].conn == c;
      assert h in t.pointers && t.pointers[h].conn == c;
    }
    if e.PostCall? { assert e.pointer in t.pointers; }
  }

  lemma HeldAfterRelease(s: State, h: nat, c: ConnId)
    requires h in s.pointers
    ensures Held(s.(pointers := s.pointers - {h}), c) <==> exists g :: g in s.pointers && g != h && s.pointers[g].conn == c
  {
    var t := s.(pointers := s.pointers - {h});
    if g :| g in s.pointers && g != h && s.pointers[g].conn == c {
      assert g in t.pointers;
    }
    if Held(t, c) {
      var g :| g in t.pointers && t.pointers[g].conn == c;
      assert g in s.pointers && g != h && s.pointers[g].conn == c;
    }
  }

  lemma ReleaseKeepsSafeExactly(s: State, h: nat)
    requires Safe(s) && Enabled(s, Release(h))
    ensures MayRelease(s, h) <==> Safe(Next(s, Release(h)).state)
  {
    hide LateIn;
    var t := Next(s, Release(h)).state;
    assert forall c, p :: LateAt(t, c, p) <==> LateAt(s, c, p);
    var c := s.pointers[h].conn;
    HeldAfterRelease(s, h, c);
    forall d | d != c && Held(s, d)
      ensures Held(t, d)
    {
      HeldAfterRelease(s, h, d);
      var g :| g in s.pointers && s.pointers[g].conn == d;
      assert g != h;
    }
  }

  // ---------------------------------------------------------------- the danger is real

  ghost predicate NoRelease(es: seq<Event>) {
    forall e <- es :: !e.Release?
  }

  /** What the loops, and threads that let go of nothing, can still do leads to a use of a freed connection. */
  ghost predicate CanBreak(o: Outcome) {
    o.Broken? || exists es: seq<Event> :: NoRelease(es) && Legal(o.state, es) && Play(o.state, es).Broken?
  }

  lemma BreakBefore(s: State, e: Event)
    requires Enabled(s, e) && !e.Release? && CanBreak(Next(s, e))
    ensures CanBreak(Ok(s))
  {
    hide Next, Enabled;
    if Next(s, e).Broken? {
      assert [e][1..] == [];
      assert NoRelease([e]) && Legal(s, [e]) && Play(s, [e]).Broken?;
    } else {
      var t := Next(s, e).state;
      var es: seq<Event> :| NoRelease(es) && Legal(t, es) && Play(t, es).Broken?;
      var more := [e] + es;
      assert more[1..] == es && more[0] == e;
      assert NoRelease(more) && Legal(s, more) && Play(s, more).Broken?;
    }
  }

  /** How far loop `l` is from running its next functor. */
  function Rank(s: State, l: nat): nat
    requires l < |s.loops|
  {
    var p := s.loops[l];
    match p.place
    case Functors => if p.batch != [] then 0 else 3
    case Waiting => 2
    case Dispatching => 1 + 5 * |p.active| + |p.handlers|
  }

  /** The next step of loop `l`: poll finds nothing, reads find bytes. */
  function Onward(s: State, l: nat): Event
    requires l < |s.loops|
  {
    var p := s.loops[l];
    match p.place
    case Functors => if p.batch != [] then Execute(l, false) else EndFunctors(l)
    case Waiting => PollReturn(l, [])
    case Dispatching =>
      if p.handlers != [] then Event.Handle(l, 1) else if p.active != [] then Dispatch(l) else StartFunctors(l)
  }

  lemma FewHandlers(r: Revents)
    ensures |Handlers(r)| <= 4
  {
  }

  lemma OnwardGoesOn(s: State, l: nat)
    requires Inv(s) && l < |s.loops| && Queue(s, l) != []
    ensures Enabled(s, Onward(s, l)) && OfLoop(Onward(s, l))
    ensures var o := Next(s, Onward(s, l));
            o.Ok? && !Onward(s, l).Execute? ==> l < |o.state.loops| && Rank(o.state, l) < Rank(s, l)
  {
    hide ConnOk, Handlers, Alive, AfterClose, Closings, RunTask;
    assert LoopOk(s, l);
    var e := Onward(s, l);
    if e.Dispatch? { FewHandlers(s.loops[l].active[0].revents); }
    if e.Handle? && Next(s, e).Ok? {
      var t := s.(loops := s.loops[l := s.loops[l].(handlers := s.loops[l].handlers[1..])]);
      if s.loops[l].handlers[0].Close? { CloseKeepsPlace(t, l, s.loops[l].on, l); }
    }
  }

  lemma CloseKeepsPlace(s: State, l: nat, c: ConnId, m: nat)
    requires |s.loops| > 0 && AfterClose(s, l, c).Ok? && m < |s.loops|
    ensures var t := AfterClose(s, l, c).state;
            |t.loops| == |s.loops| && t.loops[m].(pending := s.loops[m].pending) == s.loops[m]
  {
  }

  /** A raw functor in a later batch than the destruction of a connection that nobody holds: its loop alone runs into it. */
  lemma {:induction false} LateBreaks(s: State, c: ConnId, i: nat)
    requires Valid(s) && LateAt(s, c, i) && !Held(s, c) && RemoveInLoop(c) !in s.loops[0].ran
    ensures CanBreak(Ok(s))
    decreases i, Rank(s, s.conns[c].loop)
  {
    hide Inv, Next, Enabled, CanBreak, QueuesFollow, LateIn, PointersOk, RanOk, Held, BatchRuns;
    var l := s.conns[c].loop;
    var e := Onward(s, l);
    LateIsQueued(s, c, i);
    OnwardGoesOn(s, l);
    StepKeeps(s, e);
    if Next(s, e).Broken? {
      BrokenBreaks();
    } else {
      var t := Next(s, e).state;
      StepFollows(s, e);
      SamePointers(s, t);
      if e.Execute? { HeadIsNotLate(s, l, c, i); }
      StaysLate(s, e, c, i);
      LoopStays(s, e, t, c);
      EraseStaysOver(s, e, t, c, i);
      LateBreaks(t, c, if e.Execute? then i - 1 else i);
    }
    BreakBefore(s, e);
  }

  /** So it does when a batch of the base loop still has the functor that erased the connection: that batch ends first. */
  lemma {:induction false} LateBreaksAnyway(s: State, c: ConnId, i: nat)
    requires Valid(s) && LateAt(s, c, i) && !Held(s, c)
    ensures CanBreak(Ok(s))
    decreases |s.loops[0].batch|, |s.loops[0].ran|
  {
    hide Next, CanBreak, LateIn, PointersOk, RanOk, Held, BatchRuns, LoopOk, ConnOk, Queue;
    if RemoveInLoop(c) !in s.loops[0].ran {
      LateBreaks(s, c, i);
    } else {
      ErasedByBaseLoop(s, c);
      assert LoopOk(s, 0);
      var e := if s.loops[0].batch != [] then Execute(0, false) else EndFunctors(0);
      StepKeeps(s, e);
      if Next(s, e).Broken? {
        BrokenBreaks();
      } else {
        var t := Next(s, e).state;
        StepFollows(s, e);
        SamePointers(s, t);
        StaysLate(s, e, c, i);
        assert LoopFollows(e, 0, s.loops[0], t.loops[0]);
        LateBreaksAnyway(t, c, i);
      }
      BreakBefore(s, e);
    }
  }

  lemma ErasedByBaseLoop(s: State, c: ConnId)
    requires |s.loops| > 0 && RanOk(s) && RemoveInLoop(c) in s.loops[0].ran
    ensures LoopOk(s, 0) ==> s.loops[0].place.Functors?
    ensures c in s.conns && s.conns[c].loop != 0
  {
    assert RanTaskOk(s, 0, RemoveInLoop(c));
  }

  lemma LateIsQueued(s: State, c: ConnId, i: nat)
    requires LateAt(s, c, i)
    ensures var q := Queue(s, s.conns[c].loop); i < |q| && q[i].conn == c && q[i].Raw()
  {
  }

  lemma StaysLate(s: State, e: Event, c: ConnId, i: nat)
    requires Valid(s) && Enabled(s, e) && OfLoop(e) && Next(s, e).Ok? && Inv(Next(s, e).state) && LateAt(s, c, i)
    requires e.Execute? && e.loop == s.conns[c].loop ==> i > 0
    ensures LateAt(Next(s, e).state, c, if e.Execute? && e.loop == s.conns[c].loop then i - 1 else i)
  {
    hide Inv, Next, Enabled, LateIn, LoopFollows, Runs;
    var t := Next(s, e).state;
    var l := s.conns[c].loop;
    StepFollows(s, e);
    CountsOnItsLoop(s, e, t, c);
    DestroyedOnce(t, c);
    assert Destroyed(c) in s.loops[l].ran ==> RanTaskOk(s, l, Destroyed(c));
    LateStaysLate(e, l, s.loops[l], t.loops[l], s.conns[c].destroys, t.conns[c].destroys, c, i);
  }

  /** Steps of the connection's own loop do not erase it again. */
  lemma EraseStaysOver(s: State, e: Event, t: State, c: ConnId, i: nat)
    requires Valid(s) && LateAt(s, c, i) && e == Onward(s, s.conns[c].loop) && QueuesFollow(s, e, t) && RanOk(t)
    requires RemoveInLoop(c) !in s.loops[0].ran
    ensures RemoveInLoop(c) !in t.loops[0].ran
  {
    hide Inv, LateIn, Extends, RanOk;
    assert LoopFollows(e, 0, s.loops[0], t.loops[0]);
    if RemoveInLoop(c) in t.loops[0].ran { ErasedByBaseLoop(t, c); }
  }

  lemma BrokenBreaks()
    ensures CanBreak(Broken)
  {
  }

  lemma LoopStays(s: State, e: Event, t: State, c: ConnId)
    requires QueuesFollow(s, e, t) && c in s.conns
    ensures c in t.conns && t.conns[c].loop == s.conns[c].loop
  {
  }

  lemma HeadIsNotLate(s: State, l: nat, c: ConnId, p: nat)
    requires LateAt(s, c, p) && l == s.conns[c].loop && !Held(s, c) && s.loops[l].batch != []
    requires !UsesFreed(s, Execute(l, false)) && RemoveInLoop(c) !in s.loops[0].ran
    ensures p > 0
  {
  }

  /** `Safe` is exact: it holds if and only if no continuation without a release uses a freed connection. */
  lemma SafeExactly(s: State)
    requires Valid(s)
    ensures Safe(s) <==> !CanBreak(Ok(s))
  {
    if Safe(s) {
      hide Valid, Safe;
      forall es: seq<Event> | NoRelease(es) && Legal(s, es)
        ensures Play(s, es).Ok?
      {
        SafeRun(s, es);
      }
    } else {
      var c, p :| LateAt(s, c, p) && !Held(s, c);
      LateBreaksAnyway(s, c, p);
    }
  }

  ghost predicate InTime(s: State, es: seq<Event>)
    requires Legal(s, es)
    decreases |es|
  {
    es == [] ||
    ((es[0].Release? ==> MayRelease(s, es[0].pointer)) && (Next(s, es[0]).Ok? ==> InTime(Next(s, es[0]).state, es[1..])))
  }

  lemma {:induction false} InTimeRun(s: State, es: seq<Event>)
    requires Valid(s) && Safe(s) && Legal(s, es) && InTime(s, es)
    ensures Play(s, es).Ok? && Valid(Play(s, es).state) && Safe(Play(s, es).state)
    decreases |es|
  {
    hide Valid, Safe, MayRelease, Next, Enabled;
    if es != [] {
      SafeStep(s, es[0]);
      InTimeRun(Next(s, es[0]).state, es[1..]);
    }
  }

  lemma {:induction false} SafeRun(s: State, es: seq<Event>)
    requires Valid(s) && Safe(s) && Legal(s, es) && NoRelease(es)
    ensures Play(s, es).Ok?
    decreases |es|
  {
    hide Valid, Safe, Next, Enabled;
    if es != [] {
      SafeStep(s, es[0]);
      SafeRun(Next(s, es[0]).state, es[1..]);
    }
  }

  lemma StartIsValid(loops: nat)
    requires loops > 0
    ensures Valid(Init(loops))
  {
    var s := Init(loops);
    assert forall l :: 0 <= l < loops ==> Queue(s, l) == [] && LoopOk(s, l);
  }

  // ---------------------------------------------------------------- what the protocol promises

  /**
    In every interleaving a connection comes up, closes, leaves the map and is destroyed, each at most
    once and in that order; the user hears UP before DOWN and each at most once; the map or a queued functor
    owns it exactly until it is destroyed, with no events enabled; and the library keeps it exactly until the
    batches that erased and destroyed it have ended.
   */
  lemma ConnectionLifecycle(loops: nat, es: seq<Event>, c: ConnId)
    requires loops > 0 && Legal(Init(loops), es)
    ensures Play(Init(loops), es).Ok? ==>
              var s := Play(Init(loops), es).state;
              c in s.conns ==>
                var k := s.conns[c];
                && 1 >= k.ups >= k.closes >= k.erases >= k.destroys
                && k.downs == k.closes
                && (c in s.registry <==> k.erases == 0)
                && k.loop < |s.loops|
                && (Owned(s, c) <==> k.destroys == 0)
                && (Referenced(s, c) <==> k.destroys == 0 || BatchRuns(s, c))
                && (k.registered ==> Owned(s, c))
                && (k.destroys == 1 ==> k.ups == k.downs == 1 && !k.reading && !k.writing && !k.registered)
  {
    StartIsValid(loops);
    if Play(Init(loops), es).Ok? {
      RunKeeps(Init(loops), es);
      var s := Play(Init(loops), es).state;
      if c in s.conns {
        OwnedUntilDestroyed(s, c);
        KeptUntilBatchesEnd(s, c);
        assert ConnOk(s, c);
      }
    }
  }

  /**
    In every interleaving no assert ever fails, and nothing uses a freed connection but a functor that
    binds a raw `this` and runs when the batches of the erase and the destruction have ended and user code
    holds no pointer any more.
   */
  lemma NothingElseGoesWrong(loops: nat, es: seq<Event>, e: Event)
    requires loops > 0 && Legal(Init(loops), es) && Play(Init(loops), es).Ok?
    requires Enabled(Play(Init(loops), es).state, e)
    ensures var s := Play(Init(loops), es).state; Next(s, e).Broken? <==> UsesFreed(s, e)
  {
    StartIsValid(loops);
    RunKeeps(Init(loops), es);
    StepKeeps(Play(Init(loops), es).state, e);
  }

  /** Where pointers are let go in time, no interleaving goes wrong, and every state is safe. */
  lemma PointersKeptInTime(loops: nat, es: seq<Event>)
    requires loops > 0 && Legal(Init(loops), es) && InTime(Init(loops), es)
    ensures var o := Play(Init(loops), es); o.Ok? && Valid(o.state) && Safe(o.state)
  {
    StartIsValid(loops);
    InTimeRun(Init(loops), es);
  }

  /**
    And in time is exact.  In a safe state user code may let go of a pointer if and only if it is not the
    last one to a connection with a raw functor in a later batch than its destruction; otherwise the loop
    runs the functor on a freed connection without anybody's doing.
   */
  lemma ReleaseIsSafeExactly(s: State, h: nat)
    requires Valid(s) && Safe(s) && Enabled(s, Release(h))
    ensures MayRelease(s, h) <==> !CanBreak(Next(s, Release(h)))
  {
    hide Valid, Safe, MayRelease, CanBreak, Next;
    SafeStep(s, Release(h));
    SafeExactly(Next(s, Release(h)).state);
  }

  /** A thread that keeps its pointer until its own functors have run keeps to that. */
  lemma HoldingOnSuffices(s: State, h: nat)
    requires Inv(s) && h in s.pointers
    requires forall l, i :: 0 <= l < |s.loops| && 0 <= i < |Queue(s, l)| && Queue(s, l)[i].conn == s.pointers[h].conn ==>
               !Queue(s, l)[i].Raw()
    ensures MayRelease(s, h)
  {
    hide ConnOk, LoopOk;
    var c := s.pointers[h].conn;
    forall i: nat | LateAt(s, c, i)
      ensures false
    {
      LateIsQueued(s, c, i);
    }
  }

  // ---------------------------------------------------------------- a run that uses a freed connection

  ghost function Only(p: Loop, k: Conn, registry: set<ConnId>, pointers: map<nat, Pointer>): State {
    State([p], map[7 := k], registry, pointers)
  }

  const READABLE := Revents(true, false, false, false, false, false, false)
  const UP := Conn(0, Connected, true, false, true, 1, 0, 0, 0, 0)
  const CLOSED := Conn(0, Disconnected, false, false, true, 1, 1, 1, 1, 0)
  const GONE := Conn(0, Disconnected, false, false, false, 1, 1, 1, 1, 1)
  const HELD := map[1 := Pointer(7, None)]
  const TESTED := map[1 := Pointer(7, Some(SendInLoop(7)))]

  lemma StepThen(s: State, e: Event, t: State, es: seq<Event>)
    requires Enabled(s, e) && Next(s, e) == Ok(t) && Legal(t, es)
    ensures Legal(s, [e] + es) && Play(s, [e] + es) == Play(t, es)
  {
    assert ([e] + es)[1..] == es;
  }

  lemma LastBreaks(s: State, e: Event)
    requires Enabled(s, e) && Next(s, e).Broken?
    ensures Legal(s, [e]) && Play(s, [e]).Broken?
  {
  }

  lemma OnlyLoop(p: Loop, q: Loop, k: Conn, registry: set<ConnId>, pointers: map<nat, Pointer>)
    ensures var s := Only(p, k, registry, pointers); s.(loops := s.loops[0 := q]) == Only(q, k, registry, pointers)
  {
  }

  lemma OnlyConn(p: Loop, k: Conn, j: Conn, registry: set<ConnId>, pointers: map<nat, Pointer>)
    ensures SetConn(Only(p, k, registry, pointers), 7, j) == Only(p, j, registry, pointers)
  {
  }

  lemma OnlyPost(p: Loop, k: Conn, registry: set<ConnId>, pointers: map<nat, Pointer>, t: Task)
    ensures Post(Only(p, k, registry, pointers), 0, t) == Only(p.(pending := p.pending + [t]), k, registry, pointers)
  {
    OnlyLoop(p, p.(pending := p.pending + [t]), k, registry, pointers);
  }

  lemma PostStep(p: Loop, k: Conn)
    requires k.loop == 0
    ensures Next(Only(p, k, {}, TESTED), PostCall(1)) == Ok(Only(p.(pending := p.pending + [SendInLoop(7)]), k, {}, HELD))
  {
    OnlyPost(p, k, {}, TESTED, SendInLoop(7));
    assert TESTED[1 := Pointer(7, None)] == HELD;
  }

  /** A raw functor in the batch of the destruction. */
  lemma SendStep(p: Loop)
    requires p.place.Functors? && p.batch == [SendInLoop(7)] && p.ran == [Destroyed(7)]
    ensures Next(Only(p, GONE, {}, map[]), Execute(0, false))
            == Ok(Only(p.(batch := [], ran := [Destroyed(7), SendInLoop(7)]), GONE, {}, map[]))
  {
    var q := p.(batch := [], ran := [Destroyed(7), SendInLoop(7)]);
    OnlyLoop(p, q, GONE, {}, map[]);
    assert [SendInLoop(7)][1..] == [] && [Destroyed(7)] + [SendInLoop(7)] == [Destroyed(7), SendInLoop(7)];
    var t := Only(q, GONE, {}, map[]);
    assert t.loops[0].ran[0] == Destroyed(7);
    assert Lingers(t, 7);
  }

  lemma DestroyStep(p: Loop, pointers: map<nat, Pointer>)
    requires p.place.Functors? && p.batch != [] && p.batch[0] == Destroyed(7) && p.ran == []
    ensures Next(Only(p, CLOSED, {}, pointers), Execute(0, false))
            == Ok(Only(p.(batch := p.batch[1..], ran := [Destroyed(7)]), GONE, {}, pointers))
  {
    var q := p.(batch := p.batch[1..], ran := [Destroyed(7)]);
    OnlyLoop(p, q, CLOSED, {}, pointers);
    OnlyConn(q, CLOSED, GONE, {}, pointers);
    assert [] + [Destroyed(7)] == [Destroyed(7)];
  }

  lemma CloseStep(p: Loop)
    requires p.place.Dispatching? && p.on == 7 && p.handlers == [Read] && p.pending == []
    ensures Next(Only(p, UP, {7}, TESTED), Event.Handle(0, 0))
            == Ok(Only(p.(handlers := [], pending := [Destroyed(7)]), CLOSED, {}, TESTED))
  {
    var q := p.(handlers := []);
    var k := CLOSED.(erases := 0);
    OnlyLoop(p, q, UP, {7}, TESTED);
    OnlyConn(q, UP, k, {7}, TESTED);
    OnlyConn(q, k, CLOSED, {7}, TESTED);
    OnlyPost(q, CLOSED, {}, TESTED, Destroyed(7));
    assert [Read][1..] == [] && [] + [Destroyed(7)] == [Destroyed(7)] && {7} - {7} == {};
  }

  lemma DispatchStep(p: Loop)
    requires p.place.Dispatching? && p.handlers == [] && p.active == [Ready(7, READABLE)]
    ensures Next(Only(p, UP, {7}, HELD), Dispatch(0)) == Ok(Only(p.(active := [], on := 7, handlers := [Read]), UP, {7}, HELD))
  {
    var q := p.(active := [], on := 7, handlers := [Read]);
    OnlyLoop(p, q, UP, {7}, HELD);
    assert [Ready(7, READABLE)][1..] == [];
    assert Handlers(READABLE) == [Read];
  }

  /** The connection is accepted, and another thread gets a pointer to it. */
  function FirstAct(es: seq<Event>): seq<Event> {
    [PollReturn(0, [])] + ([Accept(7, 0)] + ([Hold(1, 7)] + es))
  }

  /** The next poll reports the connection. */
  function SecondAct(es: seq<Event>): seq<Event> {
    [StartFunctors(0)] + ([EndFunctors(0)] + ([PollReturn(0, [Ready(7, READABLE)])] + ([Dispatch(0)] + es)))
  }

  /** The thread finds the connection up; the loop closes and erases it. */
  function ThirdAct(es: seq<Event>): seq<Event> {
    [TestSend(1)] + ([Event.Handle(0, 0)] + es)
  }

  /** The loop destroys it; then the thread posts its functor and goes, and the loop runs it. */
  function TooLate(): seq<Event> {
    [StartFunctors(0)] + ([Execute(0, false)] + ([EndFunctors(0)] + ([PostCall(1)] + ([Release(1)] +
    ([PollReturn(0, [])] + ([StartFunctors(0)] + [Execute(0, false)]))))))
  }

  /** The thread posts its functor and goes before the loop swaps its queue, so that one batch destroys and sends. */
  function JustInTime(): seq<Event> {
    [PostCall(1)] + ([Release(1)] + ([StartFunctors(0)] + ([Execute(0, false)] + [Execute(0, false)])))
  }

  /** Before the thread tests. */
  function Story(es: seq<Event>): seq<Event> {
    FirstAct(SecondAct(ThirdAct(es)))
  }

  ghost function Closed(): State {
    Only(IDLE.(place := Dispatching, on := 7, pending := [Destroyed(7)]), CLOSED, {}, TESTED)
  }

  lemma ThirdActRuns(es: seq<Event>)
    requires Legal(Closed(), es)
    ensures var s := Only(IDLE.(place := Dispatching, on := 7, handlers := [Read]), UP, {7}, HELD);
            Legal(s, ThirdAct(es)) && Play(s, ThirdAct(es)) == Play(Closed(), es)
  {
    hide Legal, Play, Alive, AfterClose;
    var p := IDLE.(place := Dispatching, on := 7, handlers := [Read]);
    var s1 := Only(p, UP, {7}, TESTED);
    CloseStep(p);
    StepThen(s1, Event.Handle(0, 0), Closed(), es);
    StepThen(Only(p, UP, {7}, HELD), TestSend(1), s1, [Event.Handle(0, 0)] + es);
  }

  lemma SecondActRuns(es: seq<Event>)
    requires Legal(Only(IDLE.(place := Dispatching, on := 7, handlers := [Read]), UP, {7}, HELD), es)
    ensures var s := Only(IDLE.(place := Dispatching), UP, {7}, HELD);
            var t := Only(IDLE.(place := Dispatching, on := 7, handlers := [Read]), UP, {7}, HELD);
            Legal(s, SecondAct(es)) && Play(s, SecondAct(es)) == Play(t, es)
  {
    hide Legal, Play, Handlers;
    var d := IDLE.(place := Dispatching);
    var s4 := Only(IDLE.(place := Functors), UP, {7}, HELD);
    var s5 := Only(IDLE, UP, {7}, HELD);
    var s6 := Only(d.(active := [Ready(7, READABLE)]), UP, {7}, HELD);
    DispatchStep(s6.loops[0]);
    StepThen(s6, Dispatch(0), Only(d.(on := 7, handlers := [Read]), UP, {7}, HELD), es);
    StepThen(s5, PollReturn(0, [Ready(7, READABLE)]), s6, [Dispatch(0)] + es);
    StepThen(s4, EndFunctors(0), s5, [PollReturn(0, [Ready(7, READABLE)])] + ([Dispatch(0)] + es));
    StepThen(Only(d, UP, {7}, HELD), StartFunctors(0), s4,
             [EndFunctors(0)] + ([PollReturn(0, [Ready(7, READABLE)])] + ([Dispatch(0)] + es)));
  }

  lemma FirstActRuns(es: seq<Event>)
    requires Legal(Only(IDLE.(place := Dispatching), UP, {7}, HELD), es)
    ensures var t := Only(IDLE.(place := Dispatching), UP, {7}, HELD);
            Legal(Init(1), FirstAct(es)) && Play(Init(1), FirstAct(es)) == Play(t, es)
  {
    hide Legal, Play;
    var d := IDLE.(place := Dispatching);
    var s1 := State([d], map[], {}, map[]);
    var s2 := Only(d, UP, {7}, map[]);
    StepThen(s2, Hold(1, 7), Only(d, UP, {7}, HELD), es);
    StepThen(s1, Accept(7, 0), s2, [Hold(1, 7)] + es);
    assert Init(1) == State([IDLE], map[], {}, map[]);
    StepThen(Init(1), PollReturn(0, []), s1, [Accept(7, 0)] + ([Hold(1, 7)] + es));
  }

  lemma StoryRuns(es: seq<Event>)
    requires Legal(Closed(), es)
    ensures Legal(Init(1), Story(es)) && Play(Init(1), Story(es)) == Play(Closed(), es)
  {
    hide Legal, Play, FirstAct, SecondAct, ThirdAct, Closed;
    ThirdActRuns(es);
    SecondActRuns(ThirdAct(es));
    FirstActRuns(SecondAct(ThirdAct(es)));
  }

  lemma FreedSendBreaks()
    ensures var s := Only(IDLE.(on := 7, pending := [SendInLoop(7)]), GONE, {}, map[]);
            var es := [PollReturn(0, [])] + ([StartFunctors(0)] + [Execute(0, false)]);
            Legal(s, es) && Play(s, es).Broken?
  {
    hide Legal, Play;
    var p := IDLE.(on := 7, pending := [SendInLoop(7)]);
    var s3 := Only(p.(place := Dispatching), GONE, {}, map[]);
    var s4 := Only(IDLE.(on := 7, place := Functors, batch := [SendInLoop(7)]), GONE, {}, map[]);
    LastBreaks(s4, Execute(0, false));
    StepThen(s3, StartFunctors(0), s4, [Execute(0, false)]);
    StepThen(Only(p, GONE, {}, map[]), PollReturn(0, []), s3, [StartFunctors(0)] + [Execute(0, false)]);
  }

  lemma PostedTooLateBreaks()
    ensures var s := Only(IDLE.(on := 7), GONE, {}, TESTED);
            var es := [PostCall(1)] + ([Release(1)] + ([PollReturn(0, [])] + ([StartFunctors(0)] + [Execute(0, false)])));
            Legal(s, es) && Play(s, es).Broken?
  {
    hide Legal, Play;
    var p := IDLE.(on := 7, pending := [SendInLoop(7)]);
    var es := [PollReturn(0, [])] + ([StartFunctors(0)] + [Execute(0, false)]);
    FreedSendBreaks();
    PostStep(IDLE.(on := 7), GONE);
    assert [] + [SendInLoop(7)] == [SendInLoop(7)];
    StepThen(Only(p, GONE, {}, HELD), Release(1), Only(p, GONE, {}, map[]), es);
    StepThen(Only(IDLE.(on := 7), GONE, {}, TESTED), PostCall(1), Only(p, GONE, {}, HELD), [Release(1)] + es);
  }

  /**
    A worker passes the test of `send`; the loop then closes and destroys the connection; the worker posts
    its functor and drops its pointer; and the loop runs the functor on a freed connection.
   */
  lemma FreedConnectionExample()
    ensures Legal(Init(1), Story(TooLate())) && Play(Init(1), Story(TooLate())).Broken?
  {
    hide Legal, Play, Story, Alive, RunTask;
    var d := IDLE.(place := Functors, on := 7);
    var s3 := Only(d.(batch := [Destroyed(7)]), CLOSED, {}, TESTED);
    var s4 := Only(d.(ran := [Destroyed(7)]), GONE, {}, TESTED);
    var es := [PostCall(1)] + ([Release(1)] + ([PollReturn(0, [])] + ([StartFunctors(0)] + [Execute(0, false)])));
    PostedTooLateBreaks();
    DestroyStep(s3.loops[0], TESTED);
    assert [Destroyed(7)][1..] == [];
    StepThen(s4, EndFunctors(0), Only(IDLE.(on := 7), GONE, {}, TESTED), es);
    StepThen(s3, Execute(0, false), s4, [EndFunctors(0)] + es);
    StepThen(Closed(), StartFunctors(0), s3, [Execute(0, false)] + ([EndFunctors(0)] + es));
    StoryRuns(TooLate());
  }

  lemma SameBatchRuns()
    ensures var f := IDLE.(place := Functors, on := 7);
            var s := Only(f.(batch := [Destroyed(7), SendInLoop(7)]), CLOSED, {}, map[]);
            var t := Only(f.(ran := [Destroyed(7), SendInLoop(7)]), GONE, {}, map[]);
            var es := [Execute(0, false)] + [Execute(0, false)];
            Legal(s, es) && Play(s, es) == Ok(t)
  {
    hide Legal, Play, Alive, RunTask;
    var f := IDLE.(place := Functors, on := 7);
    var s3 := Only(f.(batch := [Destroyed(7), SendInLoop(7)]), CLOSED, {}, map[]);
    var s4 := Only(f.(batch := [SendInLoop(7)], ran := [Destroyed(7)]), GONE, {}, map[]);
    var s5 := Only(f.(ran := [Destroyed(7), SendInLoop(7)]), GONE, {}, map[]);
    DestroyStep(s3.loops[0], map[]);
    assert [Destroyed(7), SendInLoop(7)][1..] == [SendInLoop(7)];
    SendStep(s4.loops[0]);
    EmptyIsLegal(s5);
    assert [Execute(0, false)] + [] == [Execute(0, false)];
    StepThen(s4, Execute(0, false), s5, []);
    StepThen(s3, Execute(0, false), s4, [Execute(0, false)]);
  }

  /**
    If the worker posts its functor and drops its pointer before the loop swaps its queue, the functor runs in
    the batch of the destruction, which still keeps the connection.
   */
  lemma SameBatchExample()
    ensures Legal(Init(1), Story(JustInTime())) && Play(Init(1), Story(JustInTime())).Ok?
    ensures var s := Play(Init(1), Story(JustInTime())).state;
            s.loops == [IDLE.(place := Functors, on := 7, ran := [Destroyed(7), SendInLoop(7)])] && s.pointers == map[]
            && s.conns == map[7 := GONE] && s.registry == {}
  {
    hide Legal, Play, Story, Alive, RunTask;
    var d := IDLE.(place := Dispatching, on := 7, pending := [Destroyed(7), SendInLoop(7)]);
    var f := IDLE.(place := Functors, on := 7);
    var s1 := Only(d, CLOSED, {}, HELD);
    var s2 := Only(d, CLOSED, {}, map[]);
    var s3 := Only(f.(batch := [Destroyed(7), SendInLoop(7)]), CLOSED, {}, map[]);
    PostStep(Closed().loops[0], CLOSED);
    assert [Destroyed(7)] + [SendInLoop(7)] == [Destroyed(7), SendInLoop(7)];
    SameBatchRuns();
    StepThen(s2, StartFunctors(0), s3, [Execute(0, false)] + [Execute(0, false)]);
    StepThen(s1, Release(1), s2, [StartFunctors(0)] + ([Execute(0, false)] + [Execute(0, false)]));
    StepThen(Closed(), PostCall(1), s1, [Release(1)] + ([StartFunctors(0)] + ([Execute(0, false)] + [Execute(0, false)])));
    StoryRuns(JustInTime());
  }

  lemma EmptyIsLegal(s: State)
    ensures Legal(s, []) && Play(s, []) == Ok(s)
  {
  }

  // ---------------------------------------------------------------- stages, queues and handlers

  /** The functors of a connection: exactly one for each stage that is due on another loop, and raw ones. */
  lemma OneFunctorPerStage(loops: nat, es: seq<Event>, c: ConnId, l: nat)
    requires loops > 0 && Legal(Init(loops), es) && l < loops
    ensures Play(Init(loops), es).Ok? ==>
              var s := Play(Init(loops), es).state;
              |s.loops| == loops && (c in s.conns ==> QueueOk(c, s.conns[c], l, Queue(s, l)))
  {
    StartIsValid(loops);
    if Play(Init(loops), es).Ok? {
      RunKeeps(Init(loops), es);
      SameNumberOfLoops(Init(loops), es);
      var s := Play(Init(loops), es).state;
      if c in s.conns { assert ConnOk(s, c); }
    }
  }

  lemma {:induction false} SameNumberOfLoops(s: State, es: seq<Event>)
    requires Legal(s, es) && Play(s, es).Ok?
    ensures |Play(s, es).state.loops| == |s.loops|
    decreases |es|
  {
    if es != [] {
      SameNumberOfLoops(Next(s, es[0]).state, es[1..]);
    }
  }

  /** Handlers run only between UP and destruction, and those that may close only before DOWN. */
  lemma HandlersRunWhileUp(loops: nat, es: seq<Event>, l: nat, result: int)
    requires loops > 0 && Legal(Init(loops), es)
    ensures Play(Init(loops), es).Ok? ==>
              var s := Play(Init(loops), es).state;
              Enabled(s, Event.Handle(l, result)) ==>
                var c := s.loops[l].on;
                && c in s.conns && s.conns[c].ups == 1 && s.conns[c].destroys == 0 && Owned(s, c)
                && (s.loops[l].handlers[0].Close? || s.loops[l].handlers[0].Read? ==> s.conns[c].downs == 0)
  {
    StartIsValid(loops);
    if Play(Init(loops), es).Ok? && Enabled(Play(Init(loops), es).state, Event.Handle(l, result)) {
      hide QueueOk, Queue, Owned;
      RunKeeps(Init(loops), es);
      var s := Play(Init(loops), es).state;
      assert LoopOk(s, l);
      OwnedUntilDestroyed(s, s.loops[l].on);
      assert ConnOk(s, s.loops[l].on);
    }
  }

  /** Why the map is erased only after a close: destroying a half-closed connection would fail an assert. */
  lemma DestroyNeedsCloseExactly(s: State, c: ConnId)
    requires Inv(s) && c in s.conns && s.conns[c].registered
    ensures AfterDestroy(s, c).Ok? <==> !s.conns[c].phase.Disconnecting?
  {
    assert ConnOk(s, c);
  }

  // ---------------------------------------------------------------- one handleEvent

  /** The handlers `hs` of channel `c`, one after the other, on loop `l`. */
  function RunHandlers(s: State, l: nat, c: ConnId, hs: seq<Handler>, read: int, wrote: int): Outcome
    decreases |hs|
  {
    if hs == [] then Ok(s)
    else
      match AfterHandler(s, l, c, hs[0], if hs[0].Read? then read else wrote)
      case Broken => Broken
      case Ok(t) => RunHandlers(t, l, c, hs[1..], read, wrote)
  }

  /** The steps of the machine for them. */
  function HandleSteps(l: nat, hs: seq<Handler>, read: int, wrote: int): seq<Event> {
    if hs == [] then [] else [Event.Handle(l, if hs[0].Read? then read else wrote)] + HandleSteps(l, hs[1..], read, wrote)
  }

  function WithHandlers(s: State, l: nat, hs: seq<Handler>): State
    requires l < |s.loops|
  {
    s.(loops := s.loops[l := s.loops[l].(handlers := hs)])
  }

  lemma PostCommutes(s: State, l: nat, hs: seq<Handler>, m: nat, t: Task)
    requires l < |s.loops| && m < |s.loops|
    ensures Post(WithHandlers(s, l, hs), m, t) == WithHandlers(Post(s, m, t), l, hs)
  {
    assert Post(WithHandlers(s, l, hs), m, t).loops == WithHandlers(Post(s, m, t), l, hs).loops;
  }

  lemma RemoveCommutes(s: State, l: nat, hs: seq<Handler>, c: ConnId)
    requires l < |s.loops|
    ensures var o, p := AfterRemove(WithHandlers(s, l, hs), c), AfterRemove(s, c);
            o.Ok? == p.Ok? && (p.Ok? ==> l < |p.state.loops| && o.state == WithHandlers(p.state, l, hs))
  {
    if AfterRemove(s, c).Ok? {
      var u := SetConn(s, c, s.conns[c].(erases := s.conns[c].erases + 1)).(registry := s.registry - {c});
      PostCommutes(u, l, hs, s.conns[c].loop, Destroyed(c));
    }
  }

  lemma HandlerCommutes(s: State, l: nat, hs: seq<Handler>, c: ConnId, h: Handler, result: int)
    requires l < |s.loops|
    ensures var o, p := AfterHandler(WithHandlers(s, l, hs), l, c, h, result), AfterHandler(s, l, c, h, result);
            o.Ok? == p.Ok? && (p.Ok? ==> l < |p.state.loops| && o.state == WithHandlers(p.state, l, hs))
  {
    hide AfterRemove;
    if c in s.conns && (h.Close? || (h.Read? && result == 0)) {
      var k := s.conns[c];
      var u := SetConn(s, c, k.(phase := Disconnected, reading := false, writing := false,
                                downs := k.downs + 1, closes := k.closes + 1));
      RemoveCommutes(u, l, hs, c);
      PostCommutes(u, l, hs, 0, RemoveInLoop(c));
    }
  }

  /** The steps that handle the callbacks left on a loop do what the callbacks do, one after the other. */
  lemma {:induction false} StepsRunHandlers(s: State, l: nat, read: int, wrote: int)
    requires l < |s.loops| && s.loops[l].place.Dispatching?
    ensures var hs, c := s.loops[l].handlers, s.loops[l].on;
            Legal(s, HandleSteps(l, hs, read, wrote))
            && Play(s, HandleSteps(l, hs, read, wrote)) == RunHandlers(WithHandlers(s, l, []), l, c, hs, read, wrote)
    decreases |s.loops[l].handlers|
  {
    hide AfterHandler;
    var hs, c := s.loops[l].handlers, s.loops[l].on;
    var s0 := WithHandlers(s, l, []);
    if hs == [] {
      assert s.loops[l := s.loops[l].(handlers := [])] == s.loops;
    } else {
      var result := if hs[0].Read? then read else wrote;
      var e := Event.Handle(l, result);
      HandlerCommutes(s0, l, hs[1..], c, hs[0], result);
      assert WithHandlers(s0, l, hs[1..]).loops == s.loops[l := s.loops[l].(handlers := hs[1..])];
      assert HandleSteps(l, hs, read, wrote)[1..] == HandleSteps(l, hs[1..], read, wrote);
      var o := AfterHandler(s0, l, c, hs[0], result);
      if o.Ok? {
        var t := Next(s, e).state;
        HandlerKeepsPlace(s0, l, c, hs[0], result);
        StepsRunHandlers(t, l, read, wrote);
        assert WithHandlers(t, l, []).loops == o.state.loops;
      }
    }
  }

  /** The dispatch of a channel and the steps for its handlers are one `handleEvent`. */
  lemma DispatchRunsHandlers(s: State, l: nat, read: int, wrote: int)
    requires Inv(s) && Enabled(s, Dispatch(l))
    ensures var r := s.loops[l].active[0];
            var hs := Handlers(r.revents);
            var t := s.(loops := s.loops[l := s.loops[l].(active := s.loops[l].active[1..], on := r.conn)]);
            && Open(t, l, r.conn) && Clean(r.revents)
            && Legal(s, [Dispatch(l)] + HandleSteps(l, hs, read, wrote))
            && Play(s, [Dispatch(l)] + HandleSteps(l, hs, read, wrote)) == RunHandlers(t, l, r.conn, hs, read, wrote)
            && RunHandlers(t, l, r.conn, hs, read, wrote).Ok?
            && EventDone(t, RunHandlers(t, l, r.conn, hs, read, wrote).state, l, r.conn, r.revents, read, wrote)
  {
    hide Handlers, RunHandlers, ConnOk, Closings, Queue, Alive, HandleSteps, EventDone;
    var r := s.loops[l].active[0];
    var hs := Handlers(r.revents);
    var p := s.loops[l].(active := s.loops[l].active[1..], on := r.conn);
    var t := s.(loops := s.loops[l := p]);
    assert LoopOk(s, l);
    DispatchKeeps(s, l);
    var u := Next(s, Dispatch(l)).state;
    SameLists(s, l, p);
    LoopKeeps(s, l, p);
    StepsRunHandlers(u, l, read, wrote);
    EventExactly(t, l, r.conn, r.revents, read, wrote);
    assert WithHandlers(u, l, []).loops == t.loops;
    assert ([Dispatch(l)] + HandleSteps(l, hs, read, wrote))[1..] == HandleSteps(l, hs, read, wrote);
  }

  lemma HandlerKeepsPlace(s: State, l: nat, c: ConnId, h: Handler, result: int)
    requires l < |s.loops| && AfterHandler(s, l, c, h, result).Ok?
    ensures var t := AfterHandler(s, l, c, h, result).state;
            |t.loops| == |s.loops| && t.loops[l].(pending := s.loops[l].pending) == s.loops[l]
  {
    if h.Close? || (h.Read? && result == 0) { CloseKeepsPlace(s, l, c, l); }
  }

  lemma {:induction false} RunConcat(s: State, l: nat, c: ConnId, a: seq<Handler>, b: seq<Handler>, read: int, wrote: int)
    ensures var o := RunHandlers(s, l, c, a, read, wrote);
            RunHandlers(s, l, c, a + b, read, wrote) == if o.Broken? then Broken else RunHandlers(o.state, l, c, b, read, wrote)
    decreases |a|
  {
    hide AfterHandler;
    if a == [] {
      assert a + b == b;
    } else {
      assert (a + b)[1..] == a[1..] + b;
      var o := AfterHandler(s, l, c, a[0], if a[0].Read? then read else wrote);
      if o.Ok? { RunConcat(o.state, l, c, a[1..], b, read, wrote); }
    }
  }

  lemma RunOne(s: State, l: nat, c: ConnId, h: Handler, read: int, wrote: int)
    ensures RunHandlers(s, l, c, [h], read, wrote) == AfterHandler(s, l, c, h, if h.Read? then read else wrote)
  {
    hide AfterHandler;
    assert [h][1..] == [];
  }

  function Optional(b: bool, h: Handler): seq<Handler> {
    if b then [h] else []
  }

  lemma ErrorRuns(s: State, l: nat, c: ConnId, b: bool, read: int, wrote: int)
    requires c in s.conns && |s.loops| > 0
    ensures RunHandlers(s, l, c, Optional(b, Error), read, wrote) == Ok(s)
  {
    if b { RunOne(s, l, c, Error, read, wrote); }
  }

  /** The four tests of `handleEventWithGuard`, in order. */
  lemma RunsInTurn(s: State, l: nat, c: ConnId, r: Revents, read: int, wrote: int)
    requires c in s.conns && |s.loops| > 0
    ensures var one := RunHandlers(s, l, c, Optional(r.hup && !r.inp, Close), read, wrote);
            one.Ok? && c in one.state.conns && |one.state.loops| > 0 ==>
              var two := RunHandlers(one.state, l, c, Optional(r.inp || r.pri || r.rdhup, Read), read, wrote);
              RunHandlers(s, l, c, Handlers(r), read, wrote)
              == if two.Broken? then Broken else RunHandlers(two.state, l, c, Optional(r.out, Write), read, wrote)
  {
    hide RunHandlers;
    var a, b := Optional(r.hup && !r.inp, Close), Optional(r.nval || r.err, Error);
    var d, e := Optional(r.inp || r.pri || r.rdhup, Read), Optional(r.out, Write);
    assert Handlers(r) == a + (b + (d + e));
    RunConcat(s, l, c, a, b + (d + e), read, wrote);
    var one := RunHandlers(s, l, c, a, read, wrote);
    if one.Ok? && c in one.state.conns && |one.state.loops| > 0 {
      RunConcat(one.state, l, c, b, d + e, read, wrote);
      ErrorRuns(one.state, l, c, r.nval || r.err, read, wrote);
      RunConcat(one.state, l, c, d, e, read, wrote);
    }
  }

  /** `handleEvent` of `c` may be called on loop `l`. */
  ghost predicate Open(s: State, l: nat, c: ConnId) {
    && Inv(s) && l < |s.loops| && c in s.conns && s.conns[c].loop == l
    && s.conns[c].ups == 1 && s.conns[c].closes == 0 && s.loops[l].handlers == []
    && forall i :: 0 <= i < |s.loops[l].active| ==> s.loops[l].active[i].conn != c
  }

  lemma ClosesOnce(s: State, l: nat, c: ConnId)
    requires Open(s, l, c)
    ensures var o := AfterClose(s, l, c);
            && o.Ok? && Inv(o.state) && |o.state.loops| == |s.loops|
            && c in o.state.conns && o.state.conns[c].phase.Disconnected? && !o.state.conns[c].writing
            && AfterClose(o.state, l, c).Broken?
  {
    hide Inv, InvExcept;
    CloseKeeps(s, l, c);
    CloseKeepsPlace(s, l, c, l);
  }

  lemma RunOptional(s: State, l: nat, c: ConnId, b: bool, h: Handler, read: int, wrote: int)
    requires c in s.conns && |s.loops| > 0
    ensures RunHandlers(s, l, c, Optional(b, h), read, wrote)
            == if b then AfterHandler(s, l, c, h, if h.Read? then read else wrote) else Ok(s)
  {
    if b { RunOne(s, l, c, h, read, wrote); }
  }

  /**
    The assert in `handleClose` survives one `handleEvent` of an open connection exactly for these poll
    results.
   */
  lemma ClosesOnceExactly(s: State, l: nat, c: ConnId, r: Revents, read: int, wrote: int)
    requires Open(s, l, c)
    ensures RunHandlers(s, l, c, Handlers(r), read, wrote).Ok? <==> Clean(r) || read != 0
  {
    hide Open, Handlers, RunHandlers, AfterClose, Inv;
    OpenMeans(s, l, c);
    ClosesOnce(s, l, c);
    RunsInTurn(s, l, c, r, read, wrote);
    RunOptional(s, l, c, r.hup && !r.inp, Close, read, wrote);
    var one := if r.hup && !r.inp then AfterClose(s, l, c).state else s;
    RunOptional(one, l, c, r.inp || r.pri || r.rdhup, Read, read, wrote);
    if (r.inp || r.pri || r.rdhup) && read == 0 {
      if AfterClose(one, l, c).Ok? { RunOptional(AfterClose(one, l, c).state, l, c, r.out, Write, read, wrote); }
    } else {
      RunOptional(one, l, c, r.out, Write, read, wrote);
    }
  }

  lemma OpenMeans(s: State, l: nat, c: ConnId)
    requires Open(s, l, c)
    ensures c in s.conns && |s.loops| > l
    ensures s.conns[c].phase.Connected? || s.conns[c].phase.Disconnecting?
    ensures c in s.registry && s.conns[c].loop == l
  {
    assert ConnOk(s, c);
  }

  // ---------------------------------------------------------------- what accepts, calls and raw functors do

  /** The connection with the phase and the write interest given. */
  function Touched(s: State, c: ConnId, phase: Phase, writing: bool): State
    requires c in s.conns
  {
    s.(conns := s.conns[c := s.conns[c].(phase := phase, writing := writing)])
  }

  function Pended(s: State, l: nat, t: Task): seq<Loop>
    requires l < |s.loops|
  {
    s.loops[l := s.loops[l].(pending := s.loops[l].pending + [t])]
  }

  /**
    `shutdown` half-closes a connection that is up and no other, on whichever thread it is called; `send`
    sends on one that is up, and when its functor runs on one that is not closed; a call that fails its
    test does nothing; and a functor is posted to the loop of its connection.
   */
  ghost predicate CallDone(s: State, e: Event, t: State)
    requires Enabled(s, e)
  {
    match e
    case Accept(c, l) =>
      && c in t.conns && t.conns[c].loop == l && t.conns == s.conns[c := t.conns[c]] && t.registry == s.registry + {c}
      && t.conns[c].phase == (if l == 0 then Connected else Connecting) && t.conns[c].ups == (if l == 0 then 1 else 0)
      && t.loops == (if l == 0 then s.loops else Pended(s, l, Established(c)))
    case PollReturn(l, ready) => t == s.(loops := s.loops[l := s.loops[l].(place := Dispatching, active := ready)])
    case Send(c, left) =>
      t == Touched(s, c, s.conns[c].phase, s.conns[c].writing || (left && s.conns[c].phase == Connected))
    case Shutdown(c) =>
      t == if s.conns[c].phase == Connected then Touched(s, c, Disconnecting, s.conns[c].writing) else s
    case TestSend(h) =>
      var c := s.pointers[h].conn;
      t == if s.conns[c].phase == Connected then s.(pointers := s.pointers[h := Pointer(c, Some(SendInLoop(c)))]) else s
    case TestShutdown(h) =>
      var c := s.pointers[h].conn;
      t == if s.conns[c].phase == Connected
           then Touched(s, c, Disconnecting, s.conns[c].writing).(pointers := s.pointers[h := Pointer(c, Some(ShutdownInLoop(c)))])
           else s
    case PostCall(h) =>
      var c := s.pointers[h].conn;
      && s.conns[c].loop < |s.loops|
      && t == s.(loops := Pended(s, s.conns[c].loop, s.pointers[h].posting.value), pointers := s.pointers[h := Pointer(c, None)])
    case Hold(h, c) => t == s.(pointers := s.pointers[h := Pointer(c, None)])
    case Release(h) => t == s.(pointers := s.pointers - {h})
    case Execute(l, left) =>
      var task := s.loops[l].batch[0];
      task.Raw() ==>
        && task.conn in s.conns
        && var k := s.conns[task.conn];
           t.(loops := s.loops) == Touched(s, task.conn, k.phase, k.writing || (left && task.SendInLoop? && k.phase != Disconnected))
    case _ => true
  }

  lemma SameTouched(s: State, c: ConnId)
    requires c in s.conns
    ensures Touched(s, c, s.conns[c].phase, s.conns[c].writing) == s
  {
    assert s.conns[c := s.conns[c]] == s.conns;
  }

  lemma CallsExactly(s: State, e: Event)
    requires Enabled(s, e) && Next(s, e).Ok?
    ensures CallDone(s, e, Next(s, e).state)
  {
    hide Alive, Handlers, AfterHandler, AfterRemove, AfterDestroy;
    match e
    case Send(c, left) => SameTouched(s, c);
    case Shutdown(c) =>
    case Execute(l, left) => RawExactly(s, l, left);
    case _ =>
  }

  lemma RawExactly(s: State, l: nat, left: bool)
    requires Enabled(s, Execute(l, left)) && Next(s, Execute(l, left)).Ok?
    ensures CallDone(s, Execute(l, left), Next(s, Execute(l, left)).state)
  {
    hide Alive, AfterRemove, AfterDestroy, AfterEstablish;
    var task := s.loops[l].batch[0];
    if task.Raw() { SameTouched(s, task.conn); }
  }

  // ---------------------------------------------------------------- what one handleEvent does

  /** The peer hung up, or the read that the result calls for finds the end of the stream. */
  predicate Ends(r: Revents, read: int) {
    (r.hup && !r.inp) || ((r.inp || r.pri || r.rdhup) && read == 0)
  }

  /**
    What one `handleEvent` of an open connection does, read off the poll result.  If the stream ends, a
    connection that is up or half-closed closes: DOWN is reported, all events are disabled, and it leaves
    the map at once on the base loop, or the base loop is asked to erase it.  Otherwise nothing changes
    but that writing ends with an emptied buffer.
   */
  ghost predicate EventDone(s: State, t: State, l: nat, c: ConnId, r: Revents, read: int, wrote: int)
    requires |s.loops| > 0 && c in s.conns
  {
    var k := s.conns[c];
    var closed := k.(phase := Disconnected, reading := false, writing := false, downs := 1, closes := 1);
    var task := if l == 0 then Destroyed(c) else RemoveInLoop(c);
    if Ends(r, read) then
      t == State(s.loops[0 := s.loops[0].(pending := s.loops[0].pending + [task])],
                 s.conns[c := if l == 0 then closed.(erases := 1) else closed],
                 if l == 0 then s.registry - {c} else s.registry,
                 s.pointers)
    else
      t == State(s.loops, s.conns[c := k.(writing := k.writing && !(r.out && wrote == 0))], s.registry, s.pointers)
  }

  lemma CloseDone(s: State, l: nat, c: ConnId, r: Revents, read: int, wrote: int)
    requires Open(s, l, c) && Ends(r, read)
    ensures AfterClose(s, l, c).Ok? && EventDone(s, AfterClose(s, l, c).state, l, c, r, read, wrote)
  {
    hide LoopOk, Queue, QueueOk;
    assert ConnOk(s, c);
    var k := s.conns[c];
    var closed := k.(phase := Disconnected, reading := false, writing := false, downs := 1, closes := 1);
    assert s.conns[c := closed][c := closed.(erases := 1)] == s.conns[c := closed.(erases := 1)];
  }

  lemma NothingDone(s: State, c: ConnId)
    requires c in s.conns
    ensures SetConn(s, c, s.conns[c]) == s && SetConn(s, c, s.conns[c].(writing := s.conns[c].writing)) == s
  {
    assert s.conns[c := s.conns[c]] == s.conns;
  }

  lemma StaysClosed(s: State, l: nat, c: ConnId, wrote: int)
    requires c in s.conns && |s.loops| > 0 && !s.conns[c].writing
    ensures AfterHandler(s, l, c, Write, wrote) == Ok(s)
  {
    NothingDone(s, c);
    assert s.conns[c].(writing := false) == s.conns[c];
  }

  /** The handlers that a poll result calls for do that, unless they would close the connection twice. */
  lemma EventExactly(s: State, l: nat, c: ConnId, r: Revents, read: int, wrote: int)
    requires Open(s, l, c) && (Clean(r) || read != 0)
    ensures var o := RunHandlers(s, l, c, Handlers(r), read, wrote);
            && o.Ok? && EventDone(s, o.state, l, c, r, read, wrote)
  {
    hide Open, Handlers, RunHandlers, AfterClose, Inv, EventDone;
    OpenMeans(s, l, c);
    ClosesOnce(s, l, c);
    RunsInTurn(s, l, c, r, read, wrote);
    RunOptional(s, l, c, r.hup && !r.inp, Close, read, wrote);
    var shut := AfterClose(s, l, c).state;
    if Ends(r, read) {
      CloseDone(s, l, c, r, read, wrote);
      RunOptional(if r.hup && !r.inp then shut else s, l, c, r.inp || r.pri || r.rdhup, Read, read, wrote);
      RunOptional(shut, l, c, r.out, Write, read, wrote);
      StaysClosed(shut, l, c, wrote);
    } else {
      RunOptional(s, l, c, r.inp || r.pri || r.rdhup, Read, read, wrote);
      RunOptional(s, l, c, r.out, Write, read, wrote);
      OpenEventDone(s, l, c, r, read, wrote);
    }
  }

  lemma OpenEventDone(s: State, l: nat, c: ConnId, r: Revents, read: int, wrote: int)
    requires c in s.conns && |s.loops| > 0 && !Ends(r, read)
    ensures !r.out ==> EventDone(s, s, l, c, r, read, wrote)
    ensures var o := AfterHandler(s, l, c, Write, wrote);
            r.out ==> o.Ok? && EventDone(s, o.state, l, c, r, read, wrote)
  {
    NothingDone(s, c);
  }

  // ---------------------------------------------------------------- the code

  /** What the map, the connections and the loops' queues hold, with the methods that change them. */
  class TcpServer {
    var loops: seq<Loop>
    var connections: set<ConnId>
    var conns: map<ConnId, Conn>
    var pointers: map<nat, Pointer>    // TcpConnectionPtr held by user code

    function Value(): State
      reads this
    {
      State(loops, conns, connections, pointers)
    }

    constructor (threads: nat)
      requires threads > 0
      ensures Value() == Init(threads)
    {
      loops := seq(threads, i => IDLE);
      connections, conns, pointers := {}, map[], map[];
    }

    method QueueInLoop(l: nat, t: Task)
      requires l < |loops|
      modifies this`loops
      ensures Value() == Post(old(Value()), l, t)
    {
      loops := loops[l := loops[l].(pending := loops[l].pending + [t])];
    }

    /** `newConnection` on the base loop; `runInLoop` runs the functor at once when the loops are the same. */
    method NewConnection(c: ConnId, ioLoop: nat)
      requires Enabled(Value(), Accept(c, ioLoop))
      modifies this
      ensures Next(old(Value()), Accept(c, ioLoop)) == Ok(Value())
    {
      conns := conns[c := Conn(ioLoop, Connecting, false, false, false, 0, 0, 0, 0, 0)];
      connections := connections + {c};
      if ioLoop == 0 {
        ConnectEstablished(c);
      } else {
        QueueInLoop(ioLoop, Established(c));
      }
    }

    method ConnectEstablished(c: ConnId)
      requires c in conns && conns[c].phase.Connecting?
      modifies this`conns
      ensures AfterEstablish(old(Value()), c) == Ok(Value())
    {
      var k := conns[c];
      conns := conns[c := k.(phase := Connected, reading := true, registered := true, ups := k.ups + 1)];
    }

    method HandleClose(l: nat, c: ConnId)
      requires |loops| > 0 && c in conns && (conns[c].phase.Connected? || conns[c].phase.Disconnecting?)
      requires l == 0 ==> c in connections && conns[c].loop < |loops|
      modifies this
      ensures AfterClose(old(Value()), l, c) == Ok(Value())
    {
      var k := conns[c];
      conns := conns[c := k.(phase := Disconnected, reading := false, writing := false,
                             downs := k.downs + 1, closes := k.closes + 1)];
      RemoveConnection(l, c);
    }

    method RemoveConnection(l: nat, c: ConnId)
      requires |loops| > 0 && c in conns
      requires l == 0 ==> c in connections && conns[c].loop < |loops|
      modifies this
      ensures l == 0 ==> AfterRemove(old(Value()), c) == Ok(Value())
      ensures l != 0 ==> Value() == Post(old(Value()), 0, RemoveInLoop(c))
    {
      if l == 0 {
        RemoveConnectionInLoop(c);
      } else {
        QueueInLoop(0, RemoveInLoop(c));
      }
    }

    method RemoveConnectionInLoop(c: ConnId)
      requires c in conns && c in connections && conns[c].loop < |loops|
      modifies this
      ensures AfterRemove(old(Value()), c) == Ok(Value())
    {
      connections := connections - {c};
      conns := conns[c := conns[c].(erases := conns[c].erases + 1)];
      QueueInLoop(conns[c].loop, Destroyed(c));
    }

    method ConnectDestroyed(c: ConnId)
      requires AfterDestroy(Value(), c).Ok?
      modifies this`conns
      ensures AfterDestroy(old(Value()), c) == Ok(Value())
    {
      var k := conns[c];
      if k.phase.Connected? {
        k := k.(phase := Disconnected, reading := false, writing := false, downs := k.downs + 1);
      }
      conns := conns[c := k.(registered := false, destroys := k.destroys + 1)];
    }

    /** `handleWrite`; `wrote` is 0 if the buffer was emptied. */
    method HandleWrite(c: ConnId, wrote: int)
      requires c in conns
      modifies this`conns
      ensures Value() == SetConn(old(Value()), c, old(conns)[c].(writing := old(conns)[c].writing && wrote != 0))
    {
      conns := conns[c := conns[c].(writing := conns[c].writing && wrote != 0)];
    }

    /** `handleEventWithGuard`: the tests on `revents_`, in the order of the code. */
    method HandleEvent(l: nat, c: ConnId, r: Revents, read: int, wrote: int)
      requires Open(Value(), l, c) && (Clean(r) || read != 0)
      modifies this
      ensures RunHandlers(old(Value()), l, c, Handlers(r), read, wrote) == Ok(Value())
      ensures EventDone(old(Value()), Value(), l, c, r, read, wrote)
    {
      hide Open, Handlers, RunHandlers, AfterClose, Inv, EventDone;
      ghost var start := Value();
      EventExactly(start, l, c, r, read, wrote);
      OpenMeans(start, l, c);
      ClosesOnce(start, l, c);
      RunsInTurn(start, l, c, r, read, wrote);
      RunOptional(start, l, c, r.hup && !r.inp, Close, read, wrote);
      if r.hup && !r.inp {
        HandleClose(l, c);
      }
      RunOptional(Value(), l, c, r.inp || r.pri || r.rdhup, Read, read, wrote);
      // handleError, here, leaves the life cycle alone
      if r.inp || r.pri || r.rdhup {
        if read == 0 {
          HandleClose(l, c);
        }
      }
      RunOptional(Value(), l, c, r.out, Write, read, wrote);
      if r.out {
        HandleWrite(c, wrote);
      }
    }

    /** User code copies a `TcpConnectionPtr`. */
    method Hold(h: nat, c: ConnId)
      requires Enabled(Value(), Event.Hold(h, c))
      modifies this`pointers
      ensures Next(old(Value()), Event.Hold(h, c)) == Ok(Value())
    {
      pointers := pointers[h := Pointer(c, None)];
    }

    /** `send` on another thread, up to the copy of the message. */
    method TestSend(h: nat)
      requires Enabled(Value(), Event.TestSend(h))
      modifies this`pointers
      ensures Next(old(Value()), Event.TestSend(h)) == Ok(Value())
    {
      var c := pointers[h].conn;
      if conns[c].phase.Connected? {
        pointers := pointers[h := Pointer(c, Some(SendInLoop(c)))];
      }
    }

    /** `shutdown` on another thread, up to the change of state. */
    method TestShutdown(h: nat)
      requires Enabled(Value(), Event.TestShutdown(h))
      modifies this`pointers, this`conns
      ensures Next(old(Value()), Event.TestShutdown(h)) == Ok(Value())
    {
      var c := pointers[h].conn;
      if conns[c].phase.Connected? {
        conns := conns[c := conns[c].(phase := Disconnecting)];
        pointers := pointers[h := Pointer(c, Some(ShutdownInLoop(c)))];
      }
    }

    /** `queueInLoop`, at the end of `send` or `shutdown` on another thread. */
    method PostCall(h: nat)
      requires Enabled(Value(), Event.PostCall(h)) && conns[pointers[h].conn].loop < |loops|
      modifies this`pointers, this`loops
      ensures Next(old(Value()), Event.PostCall(h)) == Ok(Value())
    {
      var c := pointers[h].conn;
      QueueInLoop(conns[c].loop, pointers[h].posting.value);
      pointers := pointers[h := Pointer(c, None)];
    }

    /** User code lets a pointer go, in time. */
    method Release(h: nat)
      requires Enabled(Value(), Event.Release(h)) && Safe(Value()) && MayRelease(Value(), h)
      modifies this`pointers
      ensures Next(old(Value()), Event.Release(h)) == Ok(Value()) && Safe(Value())
    {
      ReleaseKeepsSafeExactly(Value(), h);
      pointers := pointers - {h};
    }
  }
}
