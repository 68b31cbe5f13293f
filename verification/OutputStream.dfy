/**
  The sending half of a connection: direct write, output buffer, drain and half-close.

  `Event` lists what the I/O loop does to a connection and what other threads do: a call of `send` or
  `shutdown` on another thread tests the state, and later posts a functor.  A run is any sequence of
  events.  The result of every `write` is a parameter.  The class `TcpConnection` at the end
  is the code, over the gap buffer of module `Buffers`.
 */
module OutputStreams {
  import opened Buffers

  datatype Phase = Connecting | Connected | Disconnecting | Disconnected

  datatype Errno = WouldBlock | BrokenPipe | OtherError

  /** What `write` returns. */
  datatype Result = Wrote(n: nat) | Failed(errno: Errno)

  /** Functors posted by other threads. */
  datatype Task = SendInLoop(data: seq<Byte>) | ShutdownInLoop

  /** A call on the socket, with the bytes the kernel took or with the number of bytes still buffered. */
  datatype Call = Write(bytes: seq<Byte>) | FailedWrite | ShutdownWrite(unsent: nat)

  datatype Callback = WriteComplete | HighWaterMark(size: nat)

  /** Which callbacks are set, and the high-water mark. */
  datatype Settings = Settings(onComplete: bool, onHighWater: bool, mark: nat)

  /**
    `accepted` is all that `sendInLoop` did not refuse, `calls` the calls on the socket, `queued` the
    callbacks queued to the loop; `epipe` says that a `write` has failed with EPIPE.  `calling` holds the
    other threads that have passed the test of `send` or `shutdown` and not yet posted their functor.
   */
  datatype State = State(
    phase: Phase,
    writing: bool,
    output: seq<Byte>,
    posted: seq<Task>,
    calling: map<nat, Task>,
    settings: Settings,
    accepted: seq<Byte>,
    calls: seq<Call>,
    queued: seq<Callback>,
    epipe: bool)

  datatype Event =
    | Establish
    | Send(data: seq<Byte>, result: Result)
    | SendFromOther(thread: nat, data: seq<Byte>)
    | Shutdown
    | ShutdownFromOther(thread: nat)
    | Post(thread: nat)
    | RunPosted(result: Result)
    | HandleWrite(result: Result)
    | HandleClose
    | Destroy
    | Configure(settings: Settings)

  const INIT := State(Connecting, false, [], [], map[], Settings(false, false, 64 * 1024 * 1024), [], [], [], false)

  /** The bytes on the wire. */
  function Wire(calls: seq<Call>): seq<Byte> {
    if calls == [] then []
    else Wire(calls[..|calls| - 1]) + (match calls[|calls| - 1] case Write(bytes) => bytes case _ => [])
  }

  predicate HasShut(calls: seq<Call>) {
    exists i :: 0 <= i < |calls| && calls[i].ShutdownWrite?
  }

  /** No `write` takes more than it is given, and after a half-close or an EPIPE bytes are refused with EPIPE. */
  predicate Kernel(s: State, len: nat, w: Result) {
    && (w.Wrote? ==> w.n <= len)
    && (len > 0 && (s.epipe || HasShut(s.calls)) ==> w == Failed(BrokenPipe))
  }

  predicate Open(s: State) {
    s.phase == Connected || s.phase == Disconnecting
  }

  /** `handleClose` and `connectDestroyed` are entered only where their asserts hold (module `Lifecycle`). */
  predicate Enabled(s: State, e: Event) {
    match e
    case Establish => s.phase == Connecting
    case Send(data, w) => Kernel(s, |data|, w)
    case SendFromOther(thread, _) => thread !in s.calling
    case ShutdownFromOther(thread) => thread !in s.calling
    case Post(thread) => thread in s.calling
    case RunPosted(w) => s.posted != [] && (s.posted[0].SendInLoop? ==> Kernel(s, |s.posted[0].data|, w))
    case HandleWrite(w) => Kernel(s, |s.output|, w)
    case HandleClose => Open(s)
    case Destroy => s.phase != Disconnecting
    case _ => true
  }

  function AfterBuffering(s: State, rest: seq<Byte>): State {
    var size := |s.output| + |rest|;
    s.(output := s.output + rest,
       writing := true,
       queued := if s.settings.onHighWater && |s.output| < s.settings.mark <= size then s.queued + [HighWaterMark(size)] else s.queued)
  }

  function AfterCompletion(s: State): (t: State)
    ensures t == s.(queued := t.queued)
  {
    if s.settings.onComplete then s.(queued := s.queued + [WriteComplete]) else s
  }

  /** `sendInLoop`. */
  function AfterSend(s: State, data: seq<Byte>, w: Result): State
    requires Kernel(s, |data|, w)
  {
    if s.phase == Disconnected then s
    else
      var taken := s.(accepted := s.accepted + data);
      if s.writing || s.output != [] then
        if data == [] then taken else AfterBuffering(taken, data)
      else if w.Wrote? then
        var u := taken.(calls := s.calls + [Write(data[..w.n])]);
        if w.n == |data| then AfterCompletion(u) else AfterBuffering(u, data[w.n..])
      else
        var u := taken.(calls := s.calls + [FailedWrite]);
        if w.errno == BrokenPipe then u.(epipe := true)
        else if data == [] then u
        else AfterBuffering(u, data)
  }

  function AfterShutdown(s: State): State {
    if s.writing then s else s.(calls := s.calls + [ShutdownWrite(|s.output|)])
  }

  function AfterWrite(s: State, w: Result): State
    requires Kernel(s, |s.output|, w)
  {
    if !s.writing then s
    else if w.Wrote? && w.n > 0 then
      var u := s.(output := s.output[w.n..], calls := s.calls + [Write(s.output[..w.n])]);
      if u.output != [] then u
      else
        var v := AfterCompletion(u.(writing := false));
        if v.phase == Disconnecting then AfterShutdown(v) else v
    else
      s.(calls := s.calls + [if w.Wrote? then Write([]) else FailedWrite],
         epipe := s.epipe || w == Failed(BrokenPipe))
  }

  function Next(s: State, e: Event): State
    requires Enabled(s, e)
  {
    match e
    case Establish => s.(phase := Connected)
    case Send(data, w) => if s.phase == Connected then AfterSend(s, data, w) else s
    case SendFromOther(thread, data) =>
      if s.phase == Connected then s.(calling := s.calling[thread := SendInLoop(data)]) else s
    case Shutdown => if s.phase == Connected then AfterShutdown(s.(phase := Disconnecting)) else s
    case ShutdownFromOther(thread) =>
      if s.phase == Connected then s.(phase := Disconnecting, calling := s.calling[thread := ShutdownInLoop]) else s
    case Post(thread) => s.(posted := s.posted + [s.calling[thread]], calling := s.calling - {thread})
    case RunPosted(w) =>
      var u := s.(posted := s.posted[1..]);
      (match s.posted[0]
       case SendInLoop(data) => AfterSend(u, data, w)
       case ShutdownInLoop => AfterShutdown(u))
    case HandleWrite(w) => AfterWrite(s, w)
    case HandleClose => s.(phase := Disconnected, writing := false)
    case Destroy => if s.phase == Connected then s.(phase := Disconnected, writing := false) else s
    case Configure(settings) => s.(settings := settings)
  }

  ghost predicate Legal(s: State, es: seq<Event>)
    decreases |es|
  {
    es == [] || (Enabled(s, es[0]) && Legal(Next(s, es[0]), es[1..]))
  }

  ghost function Play(s: State, es: seq<Event>): State
    requires Legal(s, es)
    decreases |es|
  {
    if es == [] then s else Play(Next(s, es[0]), es[1..])
  }

  // ---------------------------------------------------------------- the byte stream

  ghost predicate Stream(s: State) {
    && (s.writing ==> Open(s))
    && (Open(s) ==> (s.writing <==> s.output != []))
    && (s.phase == Connecting ==> s.output == [])
    && Wire(s.calls) <= s.accepted
    && (!s.epipe ==> Wire(s.calls) + s.output == s.accepted)
  }

  lemma OneMoreCall(calls: seq<Call>, c: Call)
    ensures Wire(calls + [c]) == Wire(calls) + (match c case Write(bytes) => bytes case _ => [])
  {
    assert (calls + [c])[..|calls|] == calls;
  }

  lemma NothingSent(calls: seq<Call>, c: Call)
    requires c.ShutdownWrite? || c.FailedWrite? || c == Write([])
    ensures Wire(calls + [c]) == Wire(calls)
  {
    OneMoreCall(calls, c);
    assert Wire(calls) + [] == Wire(calls);
  }

  lemma BufferingKeepsStream(s: State, rest: seq<Byte>)
    requires s.phase != Connecting && s.phase != Disconnected && rest != []
    requires Wire(s.calls) <= s.accepted
    requires !s.epipe ==> Wire(s.calls) + (s.output + rest) == s.accepted
    ensures Stream(AfterBuffering(s, rest))
  {
    hide Wire;
  }

  lemma SendKeepsStream(s: State, data: seq<Byte>, w: Result)
    requires Stream(s) && Kernel(s, |data|, w) && s.phase != Connecting
    ensures Stream(AfterSend(s, data, w))
  {
    hide Wire, AfterBuffering;
    var taken := s.(accepted := s.accepted + data);
    if s.phase == Disconnected {
    } else if s.writing || s.output != [] {
      assert Wire(s.calls) + (s.output + data) == (Wire(s.calls) + s.output) + data;
      if data == [] {
        assert taken == s by { assert s.accepted + [] == s.accepted; }
      } else {
        BufferingKeepsStream(taken, data);
      }
    } else {
      DirectSendKeepsStream(s, data, w);
    }
  }

  lemma DirectSendKeepsStream(s: State, data: seq<Byte>, w: Result)
    requires Stream(s) && Kernel(s, |data|, w) && s.phase != Connecting && s.phase != Disconnected
    requires !s.writing && s.output == []
    ensures Stream(AfterSend(s, data, w))
  {
    hide Wire, AfterBuffering;
    var wire := Wire(s.calls);
    assert !s.epipe ==> wire == s.accepted by { assert wire + [] == wire; }
    var u := s.(accepted := s.accepted + data);
    if w.Wrote? {
      var v := u.(calls := s.calls + [Write(data[..w.n])]);
      OneMoreCall(s.calls, Write(data[..w.n]));
      assert data == data[..w.n] + data[w.n..];
      assert !s.epipe ==> (wire + data[..w.n]) + data[w.n..] == u.accepted;
      assert s.epipe ==> data[..w.n] == [] && wire + [] == wire;
      if w.n < |data| {
        assert [] + data[w.n..] == data[w.n..];
        BufferingKeepsStream(v, data[w.n..]);
      }
    } else {
      NothingSent(s.calls, FailedWrite);
      if w.errno != BrokenPipe && data != [] {
        assert [] + data == data;
        BufferingKeepsStream(u.(calls := s.calls + [FailedWrite]), data);
      }
    }
  }

  lemma WriteKeepsStream(s: State, w: Result)
    requires Stream(s) && Kernel(s, |s.output|, w)
    ensures Stream(AfterWrite(s, w))
  {
    hide Wire;
    if s.writing {
      if w.Wrote? && w.n > 0 {
        var calls := s.calls + [Write(s.output[..w.n])];
        OneMoreCall(s.calls, Write(s.output[..w.n]));
        NothingSent(calls, ShutdownWrite(0));
        assert s.output == s.output[..w.n] + s.output[w.n..];
        assert Wire(calls) + s.output[w.n..] == s.accepted;
      } else {
        NothingSent(s.calls, Write([]));
        NothingSent(s.calls, FailedWrite);
      }
    }
  }

  lemma StreamStep(s: State, e: Event)
    requires Stream(s) && Enabled(s, e)
    requires s.phase == Connecting ==> s.posted == [] && s.calling == map[]
    ensures Stream(Next(s, e))
    ensures Next(s, e).phase == Connecting ==> Next(s, e).posted == [] && Next(s, e).calling == map[]
  {
    hide Wire, AfterSend, AfterWrite;
    NothingSent(s.calls, ShutdownWrite(|s.output|));
    match e
    case Send(data, w) => if s.phase == Connected { SendKeepsStream(s, data, w); SendOnly(s, data, w); }
    case RunPosted(w) =>
      var u := s.(posted := s.posted[1..]);
      if s.posted[0].SendInLoop? { SendKeepsStream(u, s.posted[0].data, w); SendOnly(u, s.posted[0].data, w); }
    case HandleWrite(w) => WriteKeepsStream(s, w); WriteOnly(s, w);
    case _ =>
  }

  lemma SendOnly(s: State, data: seq<Byte>, w: Result)
    requires Kernel(s, |data|, w)
    ensures var t := AfterSend(s, data, w); t.phase == s.phase && t.posted == s.posted && t.calling == s.calling
    ensures var t := AfterSend(s, data, w); s.epipe ==> t.epipe
    ensures var t := AfterSend(s, data, w); w != Failed(BrokenPipe) ==> t.epipe == s.epipe
  {
  }

  lemma WriteOnly(s: State, w: Result)
    requires Kernel(s, |s.output|, w)
    ensures var t := AfterWrite(s, w); t.phase == s.phase && t.posted == s.posted && t.calling == s.calling
    ensures var t := AfterWrite(s, w); s.epipe ==> t.epipe
  {
  }

  lemma {:induction false} StreamRun(s: State, es: seq<Event>)
    requires Stream(s) && Legal(s, es)
    requires s.phase == Connecting ==> s.posted == [] && s.calling == map[]
    ensures Stream(Play(s, es))
    decreases |es|
  {
    if es != [] {
      StreamStep(s, es[0]);
      StreamRun(Next(s, es[0]), es[1..]);
    }
  }

  // ---------------------------------------------------------------- what was sent, read off the calls

  /**
    What the calls of a run amount to, whatever `write` answered: the state of the connection, the calls
    of other threads that passed their test and where they are, and in `sent` the data of all sends that
    found the connection up, those of other threads also when they ran.
   */
  datatype Ledger = Ledger(phase: Phase, calling: map<nat, Task>, posted: seq<Task>, settings: Settings, sent: seq<Byte>)

  const OPENING := Ledger(Connecting, map[], [], Settings(false, false, 64 * 1024 * 1024), [])

  function Entered(g: Ledger, e: Event): Ledger {
    var up := g.phase == Connected;
    match e
    case Establish => g.(phase := Connected)
    case Send(data, _) => if up then g.(sent := g.sent + data) else g
    case SendFromOther(thread, data) => if up then g.(calling := g.calling[thread := SendInLoop(data)]) else g
    case Shutdown => if up then g.(phase := Disconnecting) else g
    case ShutdownFromOther(thread) =>
      if up then g.(phase := Disconnecting, calling := g.calling[thread := ShutdownInLoop]) else g
    case Post(thread) =>
      if thread in g.calling then g.(posted := g.posted + [g.calling[thread]], calling := g.calling - {thread}) else g
    case RunPosted(_) =>
      if g.posted == [] then g
      else if g.posted[0].SendInLoop? && g.phase != Disconnected
      then g.(posted := g.posted[1..], sent := g.sent + g.posted[0].data)
      else g.(posted := g.posted[1..])
    case HandleWrite(_) => g
    case HandleClose => g.(phase := Disconnected)
    case Destroy => if up then g.(phase := Disconnected) else g
    case Configure(settings) => g.(settings := settings)
  }

  function Entries(g: Ledger, es: seq<Event>): Ledger
    decreases |es|
  {
    if es == [] then g else Entries(Entered(g, es[0]), es[1..])
  }

  predicate AsEntered(s: State, g: Ledger) {
    s.phase == g.phase && s.calling == g.calling && s.posted == g.posted && s.settings == g.settings && s.accepted == g.sent
  }

  lemma EnteredStep(s: State, e: Event, g: Ledger)
    requires AsEntered(s, g) && Enabled(s, e)
    ensures AsEntered(Next(s, e), Entered(g, e))
  {
    hide AfterSend, AfterWrite, HasShut;
    match e
    case Send(data, w) => if s.phase == Connected { SendAccepts(s, data, w); }
    case RunPosted(w) =>
      var u := s.(posted := s.posted[1..]);
      if s.posted[0].SendInLoop? { SendAccepts(u, s.posted[0].data, w); }
    case HandleWrite(w) => WriteAccepts(s, w);
    case _ =>
  }

  lemma SendAccepts(s: State, data: seq<Byte>, w: Result)
    requires Kernel(s, |data|, w)
    ensures var t := AfterSend(s, data, w);
            && t.phase == s.phase && t.calling == s.calling && t.posted == s.posted && t.settings == s.settings
            && t.accepted == if s.phase == Disconnected then s.accepted else s.accepted + data
  {
  }

  lemma WriteAccepts(s: State, w: Result)
    requires Kernel(s, |s.output|, w)
    ensures var t := AfterWrite(s, w);
            && t.phase == s.phase && t.calling == s.calling && t.posted == s.posted && t.settings == s.settings
            && t.accepted == s.accepted
  {
  }

  lemma {:induction false} EnteredRun(s: State, es: seq<Event>, g: Ledger)
    requires AsEntered(s, g) && Legal(s, es)
    ensures AsEntered(Play(s, es), Entries(g, es))
    decreases |es|
  {
    hide Next, Enabled, Entered, AsEntered;
    if es != [] {
      EnteredStep(s, es[0], g);
      EnteredRun(Next(s, es[0]), es[1..], Entered(g, es[0]));
    }
  }

  /**
    In every run the wire holds a prefix of what was sent; wire and buffer together hold all of it, in
    order, until a `write` fails with EPIPE, even after a close; and while the connection is up, writing
    is enabled exactly while the buffer is non-empty.
   */
  lemma ByteStream(es: seq<Event>)
    requires Legal(INIT, es)
    ensures var s := Play(INIT, es); var g := Entries(OPENING, es);
            && AsEntered(s, g)
            && Wire(s.calls) <= g.sent
            && (!s.epipe ==> Wire(s.calls) + s.output == g.sent)
            && (Open(s) ==> (s.writing <==> s.output != []))
            && (!Open(s) ==> !s.writing)
  {
    StreamRun(INIT, es);
    EnteredRun(INIT, es, OPENING);
  }

  /** The bytes that the kernel takes in a step. */
  function Taken(s: State, e: Event): seq<Byte>
    requires Enabled(s, e)
  {
    match e
    case Send(data, w) => if s.phase == Connected && s.output == [] && w.Wrote? then data[..w.n] else []
    case RunPosted(w) =>
      if s.posted[0].SendInLoop? && Open(s) && s.output == [] && w.Wrote? then s.posted[0].data[..w.n] else []
    case HandleWrite(w) => if s.writing && w.Wrote? then s.output[..w.n] else []
    case _ => []
  }

  /** The bytes that a step sends: those of a call on the loop thread, or of a functor that finds the connection open. */
  function Sending(s: State, e: Event): seq<Byte>
    requires Enabled(s, e)
  {
    match e
    case Send(data, _) => if s.phase == Connected then data else []
    case RunPosted(_) => if s.posted[0].SendInLoop? && Open(s) then s.posted[0].data else []
    case _ => []
  }

  lemma SendMovesBytes(s: State, data: seq<Byte>, w: Result)
    requires Stream(s) && Open(s) && Kernel(s, |data|, w)
    ensures var t := AfterSend(s, data, w);
            && Wire(t.calls) == Wire(s.calls) + (if s.output == [] && w.Wrote? then data[..w.n] else [])
            && (!t.epipe ==> Wire(t.calls) + t.output == Wire(s.calls) + s.output + data)
            && (s.output == [] && w == Failed(BrokenPipe) ==> t.output == [] && t.epipe)
            && (s.output != [] ==> t.output == s.output + data)
  {
    hide Wire, HasShut, AfterSend;
    if s.output == [] {
      DirectMovesBytes(s, data, w);
      if w.Wrote? {
        assert data == data[..w.n] + data[w.n..];
        assert (Wire(s.calls) + data[..w.n]) + data[w.n..] == Wire(s.calls) + data;
      }
      assert Wire(s.calls) + s.output == Wire(s.calls);
    } else {
      assert Wire(s.calls) + (s.output + data) == (Wire(s.calls) + s.output) + data;
      assert Wire(s.calls) + [] == Wire(s.calls);
      BufferedMovesBytes(s, data, w);
    }
  }

  lemma BufferedMovesBytes(s: State, data: seq<Byte>, w: Result)
    requires Open(s) && Kernel(s, |data|, w) && s.output != []
    ensures var t := AfterSend(s, data, w); t.calls == s.calls && t.output == s.output + data
  {
    hide HasShut;
    assert s.output + [] == s.output;
  }

  lemma DirectMovesBytes(s: State, data: seq<Byte>, w: Result)
    requires Stream(s) && Open(s) && Kernel(s, |data|, w) && s.output == []
    ensures var t := AfterSend(s, data, w);
            && Wire(t.calls) == Wire(s.calls) + (if w.Wrote? then data[..w.n] else [])
            && t.output == (if w.Wrote? then data[w.n..] else if w == Failed(BrokenPipe) then [] else data)
            && (w == Failed(BrokenPipe) ==> t.epipe)
  {
    hide Wire, HasShut;
    assert [] + data == data && Wire(s.calls) + [] == Wire(s.calls);
    NothingSent(s.calls, FailedWrite);
    if w.Wrote? {
      OneMoreCall(s.calls, Write(data[..w.n]));
      assert [] + data[w.n..] == data[w.n..];
    }
  }

  lemma WriteMovesBytes(s: State, w: Result)
    requires Stream(s) && Kernel(s, |s.output|, w) && s.writing
    ensures var t := AfterWrite(s, w);
            && Wire(t.calls) == Wire(s.calls) + (if w.Wrote? then s.output[..w.n] else [])
            && t.output == (if w.Wrote? then s.output[w.n..] else s.output)
  {
    hide Wire, HasShut;
    assert Wire(s.calls) + [] == Wire(s.calls);
    NothingSent(s.calls, FailedWrite);
    NothingSent(s.calls, Write([]));
    if w.Wrote? {
      assert s.output[..0] == [] && s.output[0..] == s.output;
      OneMoreCall(s.calls, Write(s.output[..w.n]));
      NothingSent(s.calls + [Write(s.output[..w.n])], ShutdownWrite(0));
    }
  }

  /**
    Every step puts on the wire exactly what the kernel takes of what it is offered, the data of a send
    only if nothing is buffered before it; and while no `write` has failed with EPIPE, wire and buffer
    together grow by exactly the data sent.
   */
  lemma StepMovesBytes(s: State, e: Event)
    requires Stream(s) && Enabled(s, e)
    requires s.phase == Connecting ==> s.posted == [] && s.calling == map[]
    ensures var t := Next(s, e);
            && Wire(t.calls) == Wire(s.calls) + Taken(s, e)
            && (!t.epipe ==> Wire(t.calls) + t.output == Wire(s.calls) + s.output + Sending(s, e))
            && (!e.HandleWrite? ==> s.output <= t.output)
            && (e.HandleWrite? ==> t.output == s.output[|Taken(s, e)|..])
  {
    hide Wire, HasShut, AfterSend, AfterWrite, Stream;
    assert Wire(s.calls) + [] == Wire(s.calls) && Wire(s.calls) + s.output + [] == Wire(s.calls) + s.output;
    NothingSent(s.calls, ShutdownWrite(|s.output|));
    match e
    case Send(data, w) => if s.phase == Connected { SendMovesBytes(s, data, w); }
    case RunPosted(w) => RunMovesBytes(s, w);
    case HandleWrite(w) =>
      if s.writing {
        WriteMovesBytes(s, w);
        if w.Wrote? { assert s.output == s.output[..w.n] + s.output[w.n..]; }
      } else {
        IdleWrite(s, w);
      }
    case _ =>
  }

  lemma IdleWrite(s: State, w: Result)
    requires Kernel(s, |s.output|, w) && !s.writing
    ensures AfterWrite(s, w) == s
  {
  }

  lemma RunMovesBytes(s: State, w: Result)
    requires Stream(s) && Enabled(s, RunPosted(w)) && s.phase != Connecting
    ensures var e := RunPosted(w); var t := Next(s, e);
            && Wire(t.calls) == Wire(s.calls) + Taken(s, e)
            && (!t.epipe ==> Wire(t.calls) + t.output == Wire(s.calls) + s.output + Sending(s, e))
            && s.output <= t.output
  {
    hide Wire, HasShut;
    var u := s.(posted := s.posted[1..]);
    assert Wire(s.calls) + [] == Wire(s.calls) && Wire(s.calls) + s.output + [] == Wire(s.calls) + s.output;
    NothingSent(s.calls, ShutdownWrite(|s.output|));
    if s.posted[0].SendInLoop? && Open(s) { SendMovesBytes(u, s.posted[0].data, w); }
  }

  // ---------------------------------------------------------------- callbacks

  /** The step wrote successfully, and nothing is left to write. */
  predicate Completes(s: State, t: State) {
    |s.calls| < |t.calls| && t.calls[|s.calls|].Write? && t.output == []
  }

  /**
    What a step queues: WriteComplete exactly when a successful write left nothing to write, the
    high-water callback exactly when the buffer crosses the mark upwards, with its new size.
   */
  lemma CallbacksExactly(s: State, e: Event)
    requires Stream(s) && Enabled(s, e)
    ensures var t := Next(s, e);
            var complete := t.settings.onComplete && Completes(s, t);
            var crossed := t.settings.onHighWater && |s.output| < t.settings.mark <= |t.output|;
            && (complete ==> t.queued == s.queued + [WriteComplete])
            && (crossed ==> t.queued == s.queued + [HighWaterMark(|t.output|)])
            && (!complete && !crossed ==> t.queued == s.queued)
  {
    match e
    case Send(data, w) => if s.phase == Connected { SendCallbacks(s, data, w); }
    case RunPosted(w) =>
      if s.posted[0].SendInLoop? { SendCallbacks(s.(posted := s.posted[1..]), s.posted[0].data, w); }
    case HandleWrite(w) => WriteCallbacks(s, w);
    case _ =>
  }

  lemma SendCallbacks(s: State, data: seq<Byte>, w: Result)
    requires Stream(s) && Kernel(s, |data|, w)
    ensures var t := AfterSend(s, data, w);
            var complete := t.settings.onComplete && Completes(s, t);
            var crossed := t.settings.onHighWater && |s.output| < t.settings.mark <= |t.output|;
            && t.settings == s.settings
            && (complete ==> t.queued == s.queued + [WriteComplete])
            && (crossed ==> t.queued == s.queued + [HighWaterMark(|t.output|)])
            && (!complete && !crossed ==> t.queued == s.queued)
  {
    hide Wire;
  }

  lemma WriteCallbacks(s: State, w: Result)
    requires Stream(s) && Kernel(s, |s.output|, w)
    ensures var t := AfterWrite(s, w);
            && t.settings == s.settings && |t.output| <= |s.output|
            && t.queued == if t.settings.onComplete && Completes(s, t) then s.queued + [WriteComplete] else s.queued
  {
    hide Wire;
  }

  // ---------------------------------------------------------------- half-close

  /** At most one `shutdownWrite`, none with bytes left in the buffer, and nothing written after it. */
  predicate Graceful(calls: seq<Call>) {
    forall i :: 0 <= i < |calls| && calls[i].ShutdownWrite? ==> i == |calls| - 1 && calls[i].unsent == 0
  }

  lemma AddCall(calls: seq<Call>, c: Call)
    ensures HasShut(calls + [c]) <==> HasShut(calls) || c.ShutdownWrite?
    ensures Graceful(calls + [c]) <==> !HasShut(calls) && (c.ShutdownWrite? ==> c.unsent == 0)
  {
    var more := calls + [c];
    assert more[|calls|] == c;
    if HasShut(calls) {
      var i :| 0 <= i < |calls| && calls[i].ShutdownWrite?;
      assert more[i] == calls[i];
    }
  }

  /** Some functor of this kind is posted, or its thread has passed the test and is about to post it. */
  predicate Underway(s: State, shutdown: bool) {
    (exists i :: 0 <= i < |s.posted| && s.posted[i].ShutdownInLoop? == shutdown) ||
    (exists t :: t in s.calling && s.calling[t].ShutdownInLoop? == shutdown)
  }

  predicate NothingUnderway(s: State) {
    s.posted == [] && s.calling == map[]
  }

  /** `shutdown` passes its test once, so there is at most one half-close to come from another thread. */
  ghost predicate OneShutdown(s: State) {
    && (forall i, j :: 0 <= i < j < |s.posted| ==> s.posted[i].SendInLoop? || s.posted[j].SendInLoop?)
    && (forall t, u :: t in s.calling && u in s.calling && t != u ==> s.calling[t].SendInLoop? || s.calling[u].SendInLoop?)
    && (forall i, t :: 0 <= i < |s.posted| && t in s.calling ==> s.posted[i].SendInLoop? || s.calling[t].SendInLoop?)
  }

  /** No half-close is forgotten: while disconnecting it has been made, waits for the drain, or is under way. */
  ghost predicate Remembered(s: State) {
    s.phase == Disconnecting ==> s.writing || HasShut(s.calls) || Underway(s, true)
  }

  predicate PastShutdown(s: State) {
    s.phase == Disconnecting || s.phase == Disconnected
  }

  /** Which functors are under way, whether or not they do harm; and a half-closed socket buffers nothing. */
  ghost predicate Orderly(s: State) {
    && OneShutdown(s) && Remembered(s)
    && (HasShut(s.calls) ==> !s.writing)
    && (s.phase == Connecting ==> NothingUnderway(s))
    && (Underway(s, true) ==> PastShutdown(s))
  }

  /** Nothing has gone wrong so far. */
  ghost predicate Closing(s: State) {
    && Stream(s) && Orderly(s) && Graceful(s.calls)
    && (HasShut(s.calls) ==> PastShutdown(s) && !s.writing && s.output == [])
  }

  /** The sends queued carry no bytes. */
  predicate NoBytes(posted: seq<Task>) {
    forall i :: 0 <= i < |posted| && posted[i].SendInLoop? ==> posted[i].data == []
  }

  /** No send is behind a half-close, and none will buffer bytes: it has none, or the peer is gone. */
  predicate Quiet(posted: seq<Task>, epipe: bool) {
    && (epipe || NoBytes(posted))
    && forall i, j :: 0 <= j < i < |posted| && posted[i].SendInLoop? ==> posted[j].SendInLoop?
  }

  /**
    Whether the functors under way can still do harm, read off the state.  A half-closed socket must
    meet no further functor.  A drain that will half-close must meet no send, unless the peer is gone
    and the drain will never end.  A half-close under way must meet no bytes, unless the peer is gone and
    they are dropped.
   */
  ghost predicate Safe(s: State) {
    match s.phase
    case Connecting => true
    case Connected => true
    case Disconnecting =>
      if HasShut(s.calls) then NothingUnderway(s)
      else if s.writing then !Underway(s, true) && (s.epipe || NothingUnderway(s))
      else Quiet(s.posted, s.epipe) && forall t :: t in s.calling ==> s.calling[t].ShutdownInLoop?
    case Disconnected => !Underway(s, true) || (!HasShut(s.calls) && s.output == [])
  }

  predicate IsCall(e: Event) {
    e.Send? || e.SendFromOther? || e.Shutdown? || e.ShutdownFromOther?
  }

  /**
    What the caller has to see to: a half-close on the loop thread with no functor of another thread
    under way, unless the buffer will never drain; one on another thread with nothing buffered, no other
    call under way, and no bytes posted unless the peer is gone.  Sends are free.
   */
  ghost predicate MayCall(s: State, e: Event) {
    match e
    case Shutdown => s.phase == Connected ==> NothingUnderway(s) || (s.writing && s.epipe)
    case ShutdownFromOther(_) => s.phase == Connected ==> !s.writing && s.calling == map[] && (s.epipe || NoBytes(s.posted))
    case _ => true
  }

  // ---------------------------------------------------------------- what is under way

  lemma UnderwayHas(s: State)
    ensures forall i :: 0 <= i < |s.posted| ==> Underway(s, s.posted[i].ShutdownInLoop?)
    ensures forall t :: t in s.calling ==> Underway(s, s.calling[t].ShutdownInLoop?)
    ensures !NothingUnderway(s) <==> Underway(s, true) || Underway(s, false)
  {
    if s.posted != [] {
      assert Underway(s, s.posted[0].ShutdownInLoop?);
    } else if s.calling != map[] {
      var t :| t in s.calling;
      assert Underway(s, s.calling[t].ShutdownInLoop?);
    }
  }

  lemma SameUnderway(s: State, u: State)
    requires u.posted == s.posted && u.calling == s.calling
    ensures Underway(u, true) == Underway(s, true) && Underway(u, false) == Underway(s, false)
    ensures OneShutdown(u) == OneShutdown(s)
  {
  }

  /** A functor taken from the head of the queue. */
  function Popped(s: State): State
    requires s.posted != []
  {
    s.(posted := s.posted[1..])
  }

  lemma PopUnderway(s: State)
    requires s.posted != []
    ensures Underway(s, true) <==> Underway(Popped(s), true) || s.posted[0].ShutdownInLoop?
    ensures OneShutdown(s) ==> OneShutdown(Popped(s))
    ensures OneShutdown(s) && s.posted[0].ShutdownInLoop? ==> !Underway(Popped(s), true)
  {
    var u := Popped(s);
    assert s.posted == [s.posted[0]] + u.posted;
    if Underway(s, true) && !s.posted[0].ShutdownInLoop? {
      if i :| 0 <= i < |s.posted| && s.posted[i].ShutdownInLoop? {
        assert u.posted[i - 1].ShutdownInLoop?;
      }
    }
    if Underway(u, true) {
      if i :| 0 <= i < |u.posted| && u.posted[i].ShutdownInLoop? {
        assert s.posted[i + 1].ShutdownInLoop?;
      }
    }
  }

  lemma PostUnderway(s: State, thread: nat)
    requires thread in s.calling
    ensures var u := Next(s, Post(thread));
            && Underway(u, true) == Underway(s, true) && Underway(u, false) == Underway(s, false)
            && (OneShutdown(s) ==> OneShutdown(u))
  {
    var u := Next(s, Post(thread));
    var n := |s.posted|;
    assert u.posted[n] == s.calling[thread];
    forall shutdown: bool
      ensures Underway(u, shutdown) == Underway(s, shutdown)
    {
      if Underway(s, shutdown) {
        if i :| 0 <= i < n && s.posted[i].ShutdownInLoop? == shutdown {
          assert u.posted[i].ShutdownInLoop? == shutdown;
        } else {
          var t :| t in s.calling && s.calling[t].ShutdownInLoop? == shutdown;
          assert t == thread || t in u.calling;
        }
      }
    }
  }

  lemma AddUnderway(s: State, thread: nat, task: Task)
    requires thread !in s.calling
    ensures var u := s.(calling := s.calling[thread := task]);
            && (Underway(u, true) <==> Underway(s, true) || task.ShutdownInLoop?)
            && (Underway(u, false) <==> Underway(s, false) || task.SendInLoop?)
            && (OneShutdown(s) && (task.ShutdownInLoop? ==> !Underway(s, true)) ==> OneShutdown(u))
  {
    var u := s.(calling := s.calling[thread := task]);
    assert u.calling[thread] == task;
    forall shutdown: bool
      ensures Underway(u, shutdown) <==> Underway(s, shutdown) || task.ShutdownInLoop? == shutdown
    {
      if t :| t in s.calling && s.calling[t].ShutdownInLoop? == shutdown {
        assert u.calling[t].ShutdownInLoop? == shutdown;
      }
    }
  }

  // ---------------------------------------------------------------- every step keeps order

  lemma SendGoesOn(s: State, data: seq<Byte>, w: Result)
    requires Kernel(s, |data|, w)
    ensures var t := AfterSend(s, data, w);
            && (HasShut(t.calls) <==> HasShut(s.calls))
            && (s.phase == Disconnected ==> t == s)
            && (s.phase != Disconnected && !s.writing && s.output == [] ==> (Graceful(t.calls) <==> !HasShut(s.calls)))
            && (s.writing ==> t.writing && t.calls == s.calls)
            && (data == [] ==> t.writing == s.writing && t.output == s.output)
            && (!s.writing && s.output == [] && (HasShut(s.calls) || s.epipe || w == Failed(BrokenPipe)) ==>
                  !t.writing && t.output == [])
  {
    hide HasShut, Graceful;
    if w.Wrote? { AddCall(s.calls, Write(data[..w.n])); }
    AddCall(s.calls, FailedWrite);
  }

  lemma WriteGoesOn(s: State, w: Result)
    requires Kernel(s, |s.output|, w) && (s.writing ==> s.output != [])
    ensures var t := AfterWrite(s, w);
            && (!s.writing ==> t == s)
            && (t.writing ==> (HasShut(t.calls) <==> HasShut(s.calls)) && t.output != [])
            && (s.writing && !t.writing ==>
                  t.output == [] && !s.epipe && (HasShut(t.calls) <==> HasShut(s.calls) || s.phase == Disconnecting))
            && (!HasShut(s.calls) && Graceful(s.calls) ==> Graceful(t.calls))
  {
    hide HasShut, Graceful;
    if s.writing {
      AddCall(s.calls, Write([]));
      AddCall(s.calls, FailedWrite);
      if w.Wrote? {
        AddCall(s.calls, Write(s.output[..w.n]));
        AddCall(s.calls + [Write(s.output[..w.n])], ShutdownWrite(0));
      }
    }
  }

  lemma OrderlyStep(s: State, e: Event)
    requires Stream(s) && Orderly(s) && Enabled(s, e)
    ensures Orderly(Next(s, e))
  {
    hide HasShut, Underway, OneShutdown, Wire, AfterSend, AfterWrite;
    var t := Next(s, e);
    AddCall(s.calls, ShutdownWrite(|s.output|));
    UnderwayHas(s);
    UnderwayHas(t);
    match e
    case Send(data, w) =>
      if s.phase == Connected { SendGoesOn(s, data, w); SendOnly(s, data, w); }
      SameUnderway(s, t);
    case SendFromOther(thread, data) => AddUnderway(s, thread, SendInLoop(data));
    case ShutdownFromOther(thread) =>
      AddUnderway(s, thread, ShutdownInLoop);
      if s.phase == Connected { SameUnderway(t, s.(calling := s.calling[thread := ShutdownInLoop])); }
    case Post(thread) => PostUnderway(s, thread);
    case RunPosted(w) => RunKeepsOrder(s, w);
    case HandleWrite(w) => WriteGoesOn(s, w); WriteOnly(s, w); SameUnderway(s, t);
    case _ => SameUnderway(s, t);
  }

  lemma RunKeepsOrder(s: State, w: Result)
    requires Stream(s) && Orderly(s) && Enabled(s, RunPosted(w))
    ensures Orderly(Next(s, RunPosted(w)))
  {
    hide HasShut, Underway, OneShutdown, Wire, AfterSend;
    var u := Popped(s);
    var t := Next(s, RunPosted(w));
    PopUnderway(s);
    UnderwayHas(s);
    AddCall(s.calls, ShutdownWrite(|s.output|));
    if s.posted[0].SendInLoop? {
      SendGoesOn(u, s.posted[0].data, w);
      SendOnly(u, s.posted[0].data, w);
    }
    SameUnderway(u, t);
  }

  // ---------------------------------------------------------------- safety of the functors under way

  lemma UnderwayMeans(s: State)
    ensures !Underway(s, true) ==> forall i :: 0 <= i < |s.posted| ==> s.posted[i].SendInLoop?
    ensures !Underway(s, true) ==> forall t :: t in s.calling ==> s.calling[t].SendInLoop?
    ensures NothingUnderway(s) ==> !Underway(s, true) && !Underway(s, false)
  {
  }

  /** A half-close at the head of a quiet queue is all there is. */
  lemma LastInQueue(s: State)
    requires OneShutdown(s) && Quiet(s.posted, s.epipe) && s.posted != [] && s.posted[0].ShutdownInLoop?
    requires forall t :: t in s.calling ==> s.calling[t].ShutdownInLoop?
    ensures NothingUnderway(Popped(s))
  {
    if |s.posted| > 1 {
      SecondIsSend(s);
      SecondIsShutdown(s.posted, s.epipe);
    }
  }

  lemma SecondIsSend(s: State)
    requires OneShutdown(s) && |s.posted| > 1 && s.posted[0].ShutdownInLoop?
    ensures s.posted[1].SendInLoop?
  {
  }

  lemma SecondIsShutdown(posted: seq<Task>, epipe: bool)
    requires Quiet(posted, epipe) && |posted| > 1 && posted[0].ShutdownInLoop?
    ensures posted[1].ShutdownInLoop?
  {
  }

  lemma QuietRest(posted: seq<Task>, epipe: bool)
    requires Quiet(posted, epipe) && posted != []
    ensures Quiet(posted[1..], epipe) && Quiet(posted[1..], true)
    ensures posted[0].SendInLoop? ==> epipe || posted[0].data == []
  {
  }

  lemma QuietLonger(posted: seq<Task>, epipe: bool)
    requires Quiet(posted, epipe)
    ensures Quiet(posted + [ShutdownInLoop], epipe)
  {
  }

  lemma RunKeepsSafe(s: State, w: Result)
    requires Closing(s) && Safe(s) && Enabled(s, RunPosted(w))
    ensures Closing(Next(s, RunPosted(w))) && Safe(Next(s, RunPosted(w)))
  {
    hide HasShut, Graceful, Underway, OneShutdown, Quiet, Wire, AfterSend;
    var u := Popped(s);
    var t := Next(s, RunPosted(w));
    StreamStep(s, RunPosted(w));
    OrderlyStep(s, RunPosted(w));
    PopUnderway(s);
    UnderwayHas(s);
    UnderwayHas(u);
    AddCall(s.calls, ShutdownWrite(|s.output|));
    if s.posted[0].SendInLoop? {
      SendGoesOn(u, s.posted[0].data, w);
      SendOnly(u, s.posted[0].data, w);
    } else if s.phase == Disconnecting && !s.writing && !HasShut(s.calls) {
      LastInQueue(s);
    }
    if Quiet(s.posted, s.epipe) { QuietRest(s.posted, s.epipe); }
    SameUnderway(u, t);
  }

  lemma PostKeepsSafe(s: State, thread: nat)
    requires Closing(s) && Safe(s) && thread in s.calling
    ensures Closing(Next(s, Post(thread))) && Safe(Next(s, Post(thread)))
  {
    hide HasShut, Graceful, Underway, OneShutdown, Quiet, Wire;
    StreamStep(s, Post(thread));
    OrderlyStep(s, Post(thread));
    PostUnderway(s, thread);
    UnderwayHas(s);
    if Quiet(s.posted, s.epipe) { QuietLonger(s.posted, s.epipe); }
  }

  /** What the loop and threads in the middle of a call do keeps a safe connection safe. */
  lemma StepKeepsSafe(s: State, e: Event)
    requires Closing(s) && Safe(s) && Enabled(s, e) && !IsCall(e)
    ensures Closing(Next(s, e)) && Safe(Next(s, e))
  {
    hide HasShut, Graceful, Underway, OneShutdown, Quiet, Wire, AfterSend, AfterWrite;
    var t := Next(s, e);
    match e
    case RunPosted(w) => RunKeepsSafe(s, w);
    case Post(thread) => PostKeepsSafe(s, thread);
    case HandleWrite(w) =>
      StreamStep(s, e);
      OrderlyStep(s, e);
      WriteGoesOn(s, w);
      WriteOnly(s, w);
      SameUnderway(s, t);
      UnderwayHas(s);
    case _ =>
      StreamStep(s, e);
      OrderlyStep(s, e);
      SameUnderway(s, t);
      UnderwayHas(s);
  }

  /** A call keeps a safe connection safe exactly if it is made in time. */
  lemma CallKeepsSafeExactly(s: State, e: Event)
    requires Closing(s) && Safe(s) && Enabled(s, e) && IsCall(e)
    ensures Closing(Next(s, e))
    ensures MayCall(s, e) <==> Safe(Next(s, e))
  {
    hide HasShut, Graceful, Underway, OneShutdown, Quiet, Wire, AfterSend;
    var t := Next(s, e);
    StreamStep(s, e);
    OrderlyStep(s, e);
    UnderwayHas(s);
    UnderwayMeans(s);
    AddCall(s.calls, ShutdownWrite(|s.output|));
    match e
    case Send(data, w) =>
      if s.phase == Connected { SendGoesOn(s, data, w); SendOnly(s, data, w); }
      SameUnderway(s, t);
    case SendFromOther(thread, data) => AddUnderway(s, thread, SendInLoop(data));
    case Shutdown => SameUnderway(s, t);
    case ShutdownFromOther(thread) =>
      AddUnderway(s, thread, ShutdownInLoop);
      if s.phase == Connected {
        OneMoreCaller(s, thread);
        SendsAreQuiet(s);
        SameUnderway(t, s.(calling := s.calling[thread := ShutdownInLoop]));
      }
  }

  lemma SendsAreQuiet(s: State)
    requires forall i :: 0 <= i < |s.posted| ==> s.posted[i].SendInLoop?
    ensures Quiet(s.posted, s.epipe) <==> s.epipe || NoBytes(s.posted)
  {
  }

  lemma OneMoreCaller(s: State, thread: nat)
    requires thread !in s.calling && forall t :: t in s.calling ==> s.calling[t].SendInLoop?
    ensures var calling := s.calling[thread := ShutdownInLoop];
            (forall t :: t in calling ==> calling[t].ShutdownInLoop?) <==> s.calling == map[]
  {
    var calling := s.calling[thread := ShutdownInLoop];
    if s.calling != map[] {
      var t :| t in s.calling;
      assert calling[t].SendInLoop?;
    }
  }

  // ---------------------------------------------------------------- safety is exact

  ghost predicate OwnSteps(es: seq<Event>) {
    forall e <- es :: !IsCall(e)
  }

  /** With no further call, what the loop, the kernel and threads in the middle of a call do can spoil the close. */
  ghost predicate CanSpoil(s: State) {
    exists es :: OwnSteps(es) && Legal(s, es) && !Graceful(Play(s, es).calls)
  }

  lemma Spoiled(s: State)
    requires !Graceful(s.calls)
    ensures CanSpoil(s)
  {
    assert OwnSteps([]) && Legal(s, []) && Play(s, []) == s;
  }

  lemma SpoilBefore(s: State, e: Event)
    requires Enabled(s, e) && !IsCall(e) && CanSpoil(Next(s, e))
    ensures CanSpoil(s)
  {
    hide Next, Enabled, Graceful, IsCall;
    var es :| OwnSteps(es) && Legal(Next(s, e), es) && !Graceful(Play(Next(s, e), es).calls);
    var more := [e] + es;
    assert more[1..] == es;
    assert OwnSteps(more) && Legal(s, more) && Play(s, more) == Play(Next(s, e), es);
  }

  /** A half-closed socket meets another functor. */
  lemma FunctorAfterShutdownSpoils(s: State)
    requires s.phase == Disconnecting && HasShut(s.calls) && !s.writing && s.output == [] && !NothingUnderway(s)
    ensures CanSpoil(s)
    decreases s.posted == []
  {
    hide HasShut, Graceful, CanSpoil, AfterSend;
    if s.posted == [] {
      var thread :| thread in s.calling;
      FunctorAfterShutdownSpoils(Next(s, Post(thread)));
      SpoilBefore(s, Post(thread));
    } else {
      var e := RunPosted(Failed(BrokenPipe));
      AddCall(s.calls, ShutdownWrite(0));
      if s.posted[0].SendInLoop? { SendGoesOn(Popped(s), s.posted[0].data, Failed(BrokenPipe)); }
      Spoiled(Next(s, e));
      SpoilBefore(s, e);
    }
  }

  /** A half-close runs after the connection closed half-closed already, or with bytes in the buffer. */
  lemma {:induction false} ShutdownAfterCloseSpoils(s: State, k: nat)
    requires s.phase == Disconnected && !s.writing && (HasShut(s.calls) || s.output != [])
    requires k < |s.posted| && s.posted[k].ShutdownInLoop?
    ensures CanSpoil(s)
    decreases k
  {
    hide HasShut, Graceful, CanSpoil, AfterSend;
    var e := RunPosted(Failed(BrokenPipe));
    AddCall(s.calls, ShutdownWrite(|s.output|));
    if s.posted[0].ShutdownInLoop? {
      Spoiled(Next(s, e));
    } else {
      SendGoesOn(Popped(s), s.posted[0].data, Failed(BrokenPipe));
      ShutdownAfterCloseSpoils(Next(s, e), k - 1);
    }
    SpoilBefore(s, e);
  }

  lemma ClosedTooEarlySpoils(s: State)
    requires s.phase == Disconnected && !s.writing && (HasShut(s.calls) || s.output != []) && Underway(s, true)
    ensures CanSpoil(s)
  {
    hide HasShut, CanSpoil;
    if k :| 0 <= k < |s.posted| && s.posted[k].ShutdownInLoop? {
      ShutdownAfterCloseSpoils(s, k);
    } else {
      var thread :| thread in s.calling && s.calling[thread].ShutdownInLoop?;
      ShutdownAfterCloseSpoils(Next(s, Post(thread)), |s.posted|);
      SpoilBefore(s, Post(thread));
    }
  }

  /** The peer closes while bytes are buffered and a half-close is under way. */
  lemma CloseSpoils(s: State)
    requires s.phase == Disconnecting && s.output != [] && Underway(s, true)
    ensures CanSpoil(s)
  {
    hide HasShut, CanSpoil, Underway;
    SameUnderway(s, Next(s, HandleClose));
    ClosedTooEarlySpoils(Next(s, HandleClose));
    SpoilBefore(s, HandleClose);
  }

  /** The buffer drains, and a functor is still under way. */
  lemma DrainSpoils(s: State)
    requires s.phase == Disconnecting && s.writing && s.output != [] && !s.epipe && !HasShut(s.calls) && !NothingUnderway(s)
    ensures CanSpoil(s)
  {
    hide HasShut, CanSpoil, Graceful;
    var e := HandleWrite(Wrote(|s.output|));
    var t := Next(s, e);
    assert s.output[|s.output|..] == [];
    AddCall(s.calls + [Write(s.output[..|s.output|])], ShutdownWrite(0));
    WriteOnly(s, Wrote(|s.output|));
    FunctorAfterShutdownSpoils(t);
    SpoilBefore(s, e);
  }

  /** Bytes, or a send that can be late, are under way together with a half-close. */
  lemma {:induction false} SendBesideShutdownSpoils(s: State)
    requires s.phase == Disconnecting && !s.writing && s.output == [] && !HasShut(s.calls)
    requires Underway(s, true) && OneShutdown(s)
    requires !(Quiet(s.posted, s.epipe) && forall t :: t in s.calling ==> s.calling[t].ShutdownInLoop?)
    ensures CanSpoil(s)
    decreases |s.posted|
  {
    hide HasShut, CanSpoil, Graceful, OneShutdown, AfterSend, Underway;
    if s.posted == [] {
      ShutdownFirst(s);
    } else {
      PopUnderway(s);
      UnderwayHas(s);
      var u := Popped(s);
      if s.posted[0].ShutdownInLoop? {
        var e := RunPosted(Wrote(0));
        AddCall(s.calls, ShutdownWrite(0));
        SendIsLeft(s);
        FunctorAfterShutdownSpoils(Next(s, e));
        SpoilBefore(s, e);
      } else if s.posted[0].data == [] || s.epipe {
        var w := Failed(if s.epipe then BrokenPipe else WouldBlock);
        var e := RunPosted(w);
        var t := Next(s, e);
        SendGoesOn(u, s.posted[0].data, w);
        SendOnly(u, s.posted[0].data, w);
        SameUnderway(u, t);
        if Quiet(u.posted, s.epipe) { QuietBefore(s.posted, s.epipe); }
        SendBesideShutdownSpoils(t);
        SpoilBefore(s, e);
      } else {
        BufferedBesideShutdown(s);
      }
    }
  }

  /** The half-close is posted first, and runs before the send that is not posted yet. */
  lemma ShutdownFirst(s: State)
    requires s.phase == Disconnecting && !s.writing && s.output == [] && !HasShut(s.calls) && s.posted == []
    requires Underway(s, true) && exists t :: t in s.calling && s.calling[t].SendInLoop?
    ensures CanSpoil(s)
  {
    hide HasShut, CanSpoil, Graceful;
    var thread :| thread in s.calling && s.calling[thread].ShutdownInLoop?;
    var sender :| sender in s.calling && s.calling[sender].SendInLoop?;
    var t := Next(s, Post(thread));
    assert t.posted == [ShutdownInLoop] && sender in t.calling;
    var e := RunPosted(Wrote(0));
    AddCall(s.calls, ShutdownWrite(0));
    FunctorAfterShutdownSpoils(Next(t, e));
    SpoilBefore(t, e);
    SpoilBefore(s, Post(thread));
  }

  lemma SendIsLeft(s: State)
    requires s.posted != [] && s.posted[0].ShutdownInLoop?
    requires !(Quiet(s.posted, s.epipe) && forall t :: t in s.calling ==> s.calling[t].ShutdownInLoop?)
    ensures !NothingUnderway(Popped(s))
  {
    if |s.posted| == 1 {
      assert Quiet(s.posted, s.epipe);
    }
  }

  lemma QuietBefore(posted: seq<Task>, epipe: bool)
    requires posted != [] && posted[0].SendInLoop? && (epipe || posted[0].data == []) && Quiet(posted[1..], epipe)
    ensures Quiet(posted, epipe)
  {
    assert posted == [posted[0]] + posted[1..];
  }

  /** The bytes do not go out at once, and the peer closes before they do. */
  lemma BufferedBesideShutdown(s: State)
    requires s.phase == Disconnecting && !s.writing && s.output == [] && !s.epipe && !HasShut(s.calls) && Underway(s, true)
    requires s.posted != [] && s.posted[0].SendInLoop? && s.posted[0].data != []
    ensures CanSpoil(s)
  {
    hide HasShut, CanSpoil, Graceful, Underway;
    var e := RunPosted(Failed(WouldBlock));
    var t := Next(s, e);
    PopUnderway(s);
    SameUnderway(Popped(s), t);
    CloseSpoils(t);
    SpoilBefore(s, e);
  }

  lemma UnsafeSpoils(s: State)
    requires Closing(s) && !Safe(s)
    ensures CanSpoil(s)
  {
    hide CanSpoil, Graceful, HasShut, Underway, Quiet, OneShutdown, Wire;
    UnderwayHas(s);
    if s.phase == Disconnected {
      ClosedTooEarlySpoils(s);
    } else if HasShut(s.calls) {
      FunctorAfterShutdownSpoils(s);
    } else if s.writing {
      if Underway(s, true) { CloseSpoils(s); } else { DrainSpoils(s); }
    } else {
      SendBesideShutdownSpoils(s);
    }
  }

  lemma {:induction false} SafeRun(s: State, es: seq<Event>)
    requires Closing(s) && Safe(s) && Legal(s, es) && OwnSteps(es)
    ensures Closing(Play(s, es)) && Safe(Play(s, es))
    decreases |es|
  {
    hide Closing, Safe, Next, Enabled, IsCall;
    if es != [] {
      StepKeepsSafe(s, es[0]);
      SafeRun(Next(s, es[0]), es[1..]);
    }
  }

  lemma ClosingMeans(s: State)
    requires Closing(s)
    ensures Graceful(s.calls) && Stream(s)
    ensures HasShut(s.calls) ==> s.output == []
  {
  }

  /** The predicate `Safe` is exact: it holds if and only if no continuation without a call spoils the close. */
  lemma SafeExactly(s: State)
    requires Closing(s)
    ensures Safe(s) <==> !CanSpoil(s)
  {
    if Safe(s) {
      hide Closing, Safe, Graceful;
      forall es | OwnSteps(es) && Legal(s, es)
        ensures Graceful(Play(s, es).calls)
      {
        SafeRun(s, es);
        ClosingMeans(Play(s, es));
      }
    } else {
      UnsafeSpoils(s);
    }
  }

  /**
    Which calls are safe.  Where nothing under way can do harm, a call keeps it so if and only if its
    guard holds; otherwise the loop, the kernel and the other threads can go on to half-close twice, to
    half-close with bytes in the buffer, or to write after a half-close.
   */
  lemma CallIsSafeExactly(s: State, e: Event)
    requires Closing(s) && Safe(s) && Enabled(s, e) && IsCall(e)
    ensures MayCall(s, e) <==>
            forall es :: OwnSteps(es) && Legal(Next(s, e), es) ==> Graceful(Play(Next(s, e), es).calls)
  {
    hide Closing, Safe, MayCall, Graceful, Next, Enabled;
    CallKeepsSafeExactly(s, e);
    SafeExactly(Next(s, e));
  }

  ghost predicate InTime(s: State, es: seq<Event>)
    requires Legal(s, es)
    decreases |es|
  {
    es == [] || (MayCall(s, es[0]) && InTime(Next(s, es[0]), es[1..]))
  }

  lemma {:induction false} InTimeRun(s: State, es: seq<Event>)
    requires Closing(s) && Safe(s) && Legal(s, es) && InTime(s, es)
    ensures Closing(Play(s, es)) && Safe(Play(s, es))
    decreases |es|
  {
    hide Closing, Safe, Next, Enabled, MayCall, IsCall;
    if es != [] {
      if IsCall(es[0]) { CallKeepsSafeExactly(s, es[0]); } else { StepKeepsSafe(s, es[0]); }
      InTimeRun(Next(s, es[0]), es[1..]);
    }
  }

  lemma StartIsSafe()
    ensures Closing(INIT) && Safe(INIT)
  {
  }

  /**
    In every run whose calls keep to their guards, from whatever threads, the half-close is made at most
    once, with nothing buffered and nothing written after it: the peer sees the end of the stream only
    after every accepted byte.  Every state of such a run is safe, so `CallIsSafeExactly` speaks of them all.
   */
  lemma GracefulHalfClose(es: seq<Event>)
    requires Legal(INIT, es) && InTime(INIT, es)
    ensures var s := Play(INIT, es);
            && Closing(s) && Safe(s) && Graceful(s.calls)
            && (HasShut(s.calls) && !s.epipe ==> Wire(s.calls) == Entries(OPENING, es).sent)
  {
    hide Closing, Safe, Graceful, HasShut;
    StartIsSafe();
    InTimeRun(INIT, es);
    ByteStream(es);
    var s := Play(INIT, es);
    ClosingMeans(s);
    assert Wire(s.calls) + [] == Wire(s.calls);
  }

  lemma {:induction false} LoopThreadIsInTime(s: State, es: seq<Event>)
    requires Legal(s, es) && NothingUnderway(s)
    requires forall e <- es :: !e.SendFromOther? && !e.ShutdownFromOther?
    ensures InTime(s, es)
    decreases |es|
  {
    if es != [] {
      StillNothingUnderway(s, es[0]);
      LoopThreadIsInTime(Next(s, es[0]), es[1..]);
    }
  }

  lemma StillNothingUnderway(s: State, e: Event)
    requires Enabled(s, e) && NothingUnderway(s) && !e.SendFromOther? && !e.ShutdownFromOther?
    ensures NothingUnderway(Next(s, e)) && MayCall(s, e)
  {
  }

  /** With `send` and `shutdown` on the loop thread every half-close is graceful and follows the whole stream. */
  lemma LoopThreadIsGraceful(es: seq<Event>)
    requires Legal(INIT, es)
    requires forall e <- es :: !e.SendFromOther? && !e.ShutdownFromOther?
    ensures var s := Play(INIT, es);
            Graceful(s.calls) && (HasShut(s.calls) && !s.epipe ==> Wire(s.calls) == Entries(OPENING, es).sent)
  {
    LoopThreadIsInTime(INIT, es);
    GracefulHalfClose(es);
  }

  /** A send that passed its test on another thread before a half-close on the loop thread is tried after it, and fails. */
  lemma LateSendExample(b: Byte)
    ensures var es := [Establish, SendFromOther(1, [b]), Shutdown, Post(1), RunPosted(Failed(BrokenPipe))];
            Legal(INIT, es) && Play(INIT, es).calls == [ShutdownWrite(0), FailedWrite]
  {
    hide Legal, Play;
    var last := RunPosted(Failed(BrokenPipe));
    var s1 := INIT.(phase := Connected);
    var s2 := s1.(calling := map[1 := SendInLoop([b])]);
    var s3 := s2.(phase := Disconnecting, calls := [ShutdownWrite(0)]);
    assert Next(INIT, Establish) == s1 && Next(s1, SendFromOther(1, [b])) == s2 && Next(s2, Shutdown) == s3;
    LateSend(s3, b);
    StepThen(s2, Shutdown, [Post(1), last]);
    StepThen(s1, SendFromOther(1, [b]), [Shutdown] + [Post(1), last]);
    StepThen(INIT, Establish, [SendFromOther(1, [b])] + ([Shutdown] + [Post(1), last]));
    assert [Establish] + ([SendFromOther(1, [b])] + ([Shutdown] + [Post(1), last]))
           == [Establish, SendFromOther(1, [b]), Shutdown, Post(1), last];
  }

  lemma LateSend(s: State, b: Byte)
    requires s.phase == Disconnecting && !s.writing && s.output == [] && s.posted == []
    requires s.calling == map[1 := SendInLoop([b])] && s.calls == [ShutdownWrite(0)]
    ensures var es := [Post(1), RunPosted(Failed(BrokenPipe))];
            Legal(s, es) && Play(s, es).calls == [ShutdownWrite(0), FailedWrite]
  {
    hide Legal, Play, HasShut;
    var last := RunPosted(Failed(BrokenPipe));
    var t := s.(posted := [SendInLoop([b])], calling := map[]);
    assert Next(s, Post(1)) == t;
    assert Next(t, last).calls == [ShutdownWrite(0), FailedWrite];
    LastStep(t, last);
    StepThen(s, Post(1), [last]);
    assert [Post(1)] + [last] == [Post(1), last];
  }

  lemma LastStep(s: State, e: Event)
    requires Enabled(s, e)
    ensures Legal(s, [e]) && Play(s, [e]) == Next(s, e)
  {
    assert [e][1..] == [];
  }

  lemma StepThen(s: State, e: Event, es: seq<Event>)
    requires Enabled(s, e) && Legal(Next(s, e), es)
    ensures Legal(s, [e] + es) && Play(s, [e] + es) == Play(Next(s, e), es)
  {
    assert ([e] + es)[1..] == es;
  }

  // ---------------------------------------------------------------- no half-close is forgotten

  lemma {:induction false} OrderlyRun(s: State, es: seq<Event>)
    requires Stream(s) && Orderly(s) && Legal(s, es)
    ensures Stream(Play(s, es)) && Orderly(Play(s, es))
    decreases |es|
  {
    hide Stream, OneShutdown, Remembered, Underway, Next, Enabled;
    if es != [] {
      StreamStep(s, es[0]);
      OrderlyStep(s, es[0]);
      OrderlyRun(Next(s, es[0]), es[1..]);
    }
  }

  /**
    In every run, whoever asks for it, a half-close is never forgotten, and a half-closed socket buffers
    nothing; one more successful `write` of the whole buffer puts everything accepted on the wire and the
    half-close after it.
   */
  lemma HalfCloseIsNotForgotten(es: seq<Event>)
    requires Legal(INIT, es)
    ensures Remembered(Play(INIT, es)) && (HasShut(Play(INIT, es).calls) ==> !Play(INIT, es).writing)
    ensures var s := Play(INIT, es);
            s.phase == Disconnecting && s.writing && !s.epipe ==>
              var t := Next(s, HandleWrite(Wrote(|s.output|)));
              Wire(t.calls) == Entries(OPENING, es).sent && !t.writing && t.calls[|t.calls| - 1] == ShutdownWrite(0)
  {
    hide HasShut, Underway;
    StartIsSafe();
    OrderlyRun(INIT, es);
    ByteStream(es);
    var s := Play(INIT, es);
    if s.phase == Disconnecting && s.writing && !s.epipe {
      var t := Next(s, HandleWrite(Wrote(|s.output|)));
      WriteKeepsStream(s, Wrote(|s.output|));
      assert s.output[|s.output|..] == [];
      assert Wire(t.calls) + [] == Wire(t.calls);
    }
  }

  // ---------------------------------------------------------------- the code

  class TcpConnection {
    var phase: Phase
    var writing: bool            // the channel's write event
    const outputBuffer: Buffer
    var posted: seq<Task>        // this connection's functors in the queue of its loop
    var calling: map<nat, Task>  // threads between the test of send or shutdown and the post
    var settings: Settings
    var queued: seq<Callback>
    ghost var accepted: seq<Byte>
    ghost var calls: seq<Call>
    ghost var epipe: bool

    ghost function Value(): State
      requires outputBuffer.Valid()
      reads this, outputBuffer, outputBuffer.data
    {
      State(phase, writing, outputBuffer.Contents(), posted, calling, settings, accepted, calls, queued, epipe)
    }

    ghost predicate Valid()
      reads this, outputBuffer, outputBuffer.data
    {
      outputBuffer.Valid()
    }

    constructor ()
      ensures Valid() && Value() == INIT && fresh(outputBuffer) && fresh(outputBuffer.data)
    {
      phase, writing, posted, calling := Connecting, false, [], map[];
      settings, queued := INIT.settings, [];
      accepted, calls, epipe := [], [], false;
      outputBuffer := new Buffer();
    }

    /** `sockets::write`: -1 is an error, with `errno` in the result. */
    method SocketWrite(bytes: seq<Byte>, w: Result) returns (n: int)
      requires Valid() && (w.Wrote? ==> w.n <= |bytes|)
      modifies this`calls, this`epipe
      ensures n == if w.Wrote? then w.n else -1
      ensures calls == old(calls) + [if w.Wrote? then Write(bytes[..w.n]) else FailedWrite]
      ensures epipe == (old(epipe) || w == Failed(BrokenPipe))
    {
      n := if w.Wrote? then w.n else -1;
      calls := calls + [if w.Wrote? then Write(bytes[..w.n]) else FailedWrite];
      epipe := epipe || w == Failed(BrokenPipe);
    }

    method SendInLoop(data: seq<Byte>, w: Result)
      requires Valid() && Kernel(Value(), |data|, w)
      modifies this, outputBuffer, outputBuffer.data
      ensures Valid() && (outputBuffer.data == old(outputBuffer.data) || fresh(outputBuffer.data))
      ensures Value() == AfterSend(old(Value()), data, w)
    {
      hide Buffer.Contents, AfterBuffering;
      var nwrote := 0;
      var remaining := |data|;
      var error := false;
      if phase == Disconnected {
        return;
      }
      accepted := accepted + data;
      if !writing && outputBuffer.ReadableBytes() == 0 {
        nwrote := SocketWrite(data, w);
        if nwrote >= 0 {
          remaining := |data| - nwrote;
          if remaining == 0 && settings.onComplete {
            queued := queued + [WriteComplete];
          }
        } else {
          nwrote := 0;
          if w.errno != WouldBlock {
            if w.errno == BrokenPipe {
              error := true;
            }
          }
        }
      }
      assert remaining <= |data|;
      if !error && remaining > 0 {
        assert data[0..] == data;
        BufferRest(data[nwrote..]);
      }
    }

    /** The end of `sendInLoop`: what `write` did not take goes to the buffer. */
    method BufferRest(rest: seq<Byte>)
      requires Valid()
      modifies this`queued, this`writing, outputBuffer, outputBuffer.data
      ensures Valid() && (outputBuffer.data == old(outputBuffer.data) || fresh(outputBuffer.data))
      ensures Value() == AfterBuffering(old(Value()), rest)
    {
      var oldLen := outputBuffer.ReadableBytes();
      if oldLen + |rest| >= settings.mark && oldLen < settings.mark && settings.onHighWater {
        queued := queued + [HighWaterMark(oldLen + |rest|)];
      }
      outputBuffer.Append(rest);
      if !writing {
        writing := true;
      }
    }

    method Send(data: seq<Byte>, w: Result)
      requires Valid() && Enabled(Value(), Event.Send(data, w))
      modifies this, outputBuffer, outputBuffer.data
      ensures Valid() && (outputBuffer.data == old(outputBuffer.data) || fresh(outputBuffer.data))
      ensures Value() == Next(old(Value()), Event.Send(data, w))
    {
      if phase == Connected {
        SendInLoop(data, w);
      }
    }

    /** `send` on another thread, up to the copy of the message. */
    method SendFromOther(thread: nat, data: seq<Byte>)
      requires Valid() && thread !in calling
      modifies this`calling
      ensures Valid() && Value() == Next(old(Value()), Event.SendFromOther(thread, data))
    {
      if phase == Connected {
        calling := calling[thread := Task.SendInLoop(data)];
      }
    }

    /** `queueInLoop`, at the end of `send` or `shutdown` on another thread. */
    method Post(thread: nat)
      requires Valid() && thread in calling
      modifies this`calling, this`posted
      ensures Valid() && Value() == Next(old(Value()), Event.Post(thread))
    {
      posted := posted + [calling[thread]];
      calling := calling - {thread};
    }

    method ShutdownInLoop()
      requires Valid()
      modifies this`calls
      ensures Valid() && Value() == AfterShutdown(old(Value()))
    {
      if !writing {
        calls := calls + [ShutdownWrite(outputBuffer.ReadableBytes())];
      }
    }

    method Shutdown()
      requires Valid()
      modifies this
      ensures Valid() && Value() == Next(old(Value()), Event.Shutdown)
    {
      if phase == Connected {
        phase := Disconnecting;
        ShutdownInLoop();
      }
    }

    /** `shutdown` on another thread, up to the change of state. */
    method ShutdownFromOther(thread: nat)
      requires Valid() && thread !in calling
      modifies this`phase, this`calling
      ensures Valid() && Value() == Next(old(Value()), Event.ShutdownFromOther(thread))
    {
      if phase == Connected {
        phase := Disconnecting;
        calling := calling[thread := Task.ShutdownInLoop];
      }
    }

    /** The loop runs the oldest functor. */
    method RunPosted(w: Result)
      requires Valid() && Enabled(Value(), Event.RunPosted(w))
      modifies this, outputBuffer, outputBuffer.data
      ensures Valid() && (outputBuffer.data == old(outputBuffer.data) || fresh(outputBuffer.data))
      ensures Value() == Next(old(Value()), Event.RunPosted(w))
    {
      var task := posted[0];
      posted := posted[1..];
      match task
      case SendInLoop(data) => SendInLoop(data, w);
      case ShutdownInLoop => ShutdownInLoop();
    }

    /** The branch of `handleWrite` for an empty buffer. */
    method Drained()
      requires Valid() && outputBuffer.ReadableBytes() == 0
      modifies this`writing, this`queued, this`calls
      ensures Valid()
      ensures var v := AfterCompletion(old(Value()).(writing := false));
              Value() == if phase == Disconnecting then AfterShutdown(v) else v
    {
      writing := false;
      if settings.onComplete {
        queued := queued + [WriteComplete];
      }
      if phase == Disconnecting {
        ShutdownInLoop();
      }
    }

    method HandleWrite(w: Result)
      requires Valid() && Enabled(Value(), Event.HandleWrite(w))
      modifies this, outputBuffer, outputBuffer.data
      ensures Valid() && (outputBuffer.data == old(outputBuffer.data) || fresh(outputBuffer.data))
      ensures Value() == Next(old(Value()), Event.HandleWrite(w))
    {
      hide HasShut, Wire, AfterShutdown, AfterCompletion;
      if writing {
        var bytes := outputBuffer.Peek(outputBuffer.ReadableBytes());
        assert bytes == outputBuffer.Contents();
        var n := SocketWrite(bytes, w);
        if n > 0 {
          outputBuffer.Retrieve(n);
          if outputBuffer.ReadableBytes() == 0 {
            Drained();
          }
        }
      }
    }

    method ConnectEstablished()
      requires Valid() && phase == Connecting
      modifies this
      ensures Valid() && Value() == Next(old(Value()), Establish)
    {
      phase := Connected;
    }

    method HandleClose()
      requires Valid() && Enabled(Value(), Event.HandleClose)
      modifies this
      ensures Valid() && Value() == Next(old(Value()), Event.HandleClose)
    {
      phase := Disconnected;
      writing := false;
    }

    method ConnectDestroyed()
      requires Valid() && Enabled(Value(), Destroy)
      modifies this
      ensures Valid() && Value() == Next(old(Value()), Destroy)
    {
      if phase == Connected {
        phase := Disconnected;
        writing := false;
      }
    }
  }
}
