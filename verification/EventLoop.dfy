/**
  The event loop and its cross-thread functor queue.

  `queueInLoop` is two steps, the push under the lock and the later write to the eventfd, and any
  number of other threads may be between the two.  `Event` lists the steps of all threads; a run is
  any interleaving of them.  The class `EventLoop` at the end is the code of one thread at a time.
 */
module EventLoops {

  /** The thread that owns the loop; every other number is another thread. */
  const LOOP: nat := 0

  /** The largest value an eventfd holds. */
  const EVENTFD_MAX: nat := 0xffff_ffff_ffff_fffe

  datatype Functor = Functor(thread: nat, id: nat)

  /** Where the loop thread is in `loop()`; `wake` says that the wakeup channel is still to be handled. */
  datatype Place = BeforeLoop | AtCheck | Polling | Dispatching(wake: bool) | Running | Exited

  /** `waking` holds the threads between a push (or setting `quit_`) and the write to the eventfd. */
  datatype State = State(
    place: Place,
    quit: bool,
    calling: bool,
    pending: seq<Functor>,
    batch: seq<Functor>,
    next: nat,
    counter: nat,
    waking: set<nat>,
    queued: seq<Functor>,
    executed: seq<Functor>)

  datatype Event =
    | Queue(functor: Functor)
    | SetQuit(thread: nat)
    | WriteWake(thread: nat)
    | EnterLoop
    | CheckQuit
    | PollReturn
    | ReadWake
    | Swap
    | RunFunctor
    | EndBatch

  const INIT := State(BeforeLoop, false, false, [], [], 0, 0, {}, [], [])

  /** The loop thread runs user code before `loop()`, in channel callbacks and in functors. */
  predicate UserCode(s: State) {
    LOOP !in s.waking && (s.place.BeforeLoop? || s.place.Dispatching? || s.place.Running?)
  }

  predicate MayCall(s: State, thread: nat) {
    if thread == LOOP then UserCode(s) else thread !in s.waking
  }

  predicate Enabled(s: State, e: Event) {
    match e
    case Queue(f) => MayCall(s, f.thread)
    case SetQuit(thread) => MayCall(s, thread)
    case WriteWake(thread) => thread in s.waking
    case EnterLoop => s.place.BeforeLoop? && LOOP !in s.waking
    case CheckQuit => s.place.AtCheck?
    case PollReturn => s.place.Polling?
    case ReadWake => s.place == Dispatching(true) && LOOP !in s.waking
    case Swap => s.place == Dispatching(false) && LOOP !in s.waking
    case RunFunctor => s.place.Running? && s.next < |s.batch| && LOOP !in s.waking
    case EndBatch => s.place.Running? && s.next == |s.batch| && LOOP !in s.waking
  }

  function Next(s: State, e: Event): State
    requires Enabled(s, e)
  {
    match e
    case Queue(f) =>
      s.(pending := s.pending + [f],
         queued := s.queued + [f],
         waking := if f.thread != LOOP || s.calling then s.waking + {f.thread} else s.waking)
    case SetQuit(thread) =>
      s.(quit := true,
         waking := if thread != LOOP then s.waking + {thread} else s.waking)
    case WriteWake(thread) =>
      s.(counter := if s.counter < EVENTFD_MAX then s.counter + 1 else s.counter,
         waking := s.waking - {thread})
    case EnterLoop => s.(place := AtCheck)
    case CheckQuit => s.(place := if s.quit then Exited else Polling)
    case PollReturn => s.(place := Dispatching(s.counter > 0))
    case ReadWake => s.(place := Dispatching(false), counter := 0)
    case Swap => s.(place := Running, calling := true, batch := s.pending, next := 0, pending := [])
    case RunFunctor => s.(executed := s.executed + [s.batch[s.next]], next := s.next + 1)
    case EndBatch => s.(place := AtCheck, calling := false, batch := [], next := 0)
  }

  ghost predicate Legal(s: State, es: seq<Event>)
    decreases |es|
  {
    es == [] || (Enabled(s, es[0]) && Legal(Next(s, es[0]), es[1..]))
  }

  ghost function Play(s: State, es: seq<Event>): State
    requires Legal(s, es)
    decreases |es|
  {
    if es == [] then s else Play(Next(s, es[0]), es[1..])
  }

  lemma {:induction false} PlayAppend(s: State, es: seq<Event>, fs: seq<Event>)
    requires Legal(s, es) && Legal(Play(s, es), fs)
    ensures Legal(s, es + fs) && Play(s, es + fs) == Play(Play(s, es), fs)
    decreases |es|
  {
    if es == [] {
      assert es + fs == fs;
    } else {
      PlayAppend(Next(s, es[0]), es[1..], fs);
      assert (es + fs)[1..] == es[1..] + fs;
    }
  }

  // ---------------------------------------------------------------- FIFO

  /** Everything queued is executed, in the rest of the batch, or pending, in that order. */
  ghost predicate InOrder(s: State) {
    && s.next <= |s.batch| && (!s.place.Running? ==> s.batch == [])
    && s.queued == s.executed + s.batch[s.next..] + s.pending
  }

  lemma InOrderStep(s: State, e: Event)
    requires InOrder(s) && Enabled(s, e)
    ensures InOrder(Next(s, e))
  {
    var t := Next(s, e);
    match e
    case Queue(f) => assert t.executed + t.batch[t.next..] + t.pending == s.queued + [f];
    case Swap => assert t.batch[t.next..] == s.pending;
    case RunFunctor => assert s.batch[s.next..] == [s.batch[s.next]] + s.batch[s.next + 1..];
    case EndBatch => assert s.batch[s.next..] == [];
    case _ =>
  }

  lemma {:induction false} InOrderRun(s: State, es: seq<Event>)
    requires InOrder(s) && Legal(s, es)
    ensures InOrder(Play(s, es))
    decreases |es|
  {
    if es != [] {
      InOrderStep(s, es[0]);
      InOrderRun(Next(s, es[0]), es[1..]);
    }
  }

  /** The functors of the calls of `queueInLoop` in a run. */
  function Calls(es: seq<Event>): seq<Functor> {
    if es == [] then [] else (if es[0].Queue? then [es[0].functor] else []) + Calls(es[1..])
  }

  lemma {:induction false} CallsAreQueued(s: State, es: seq<Event>)
    requires Legal(s, es)
    ensures Play(s, es).queued == s.queued + Calls(es)
    decreases |es|
  {
    hide Next, Enabled;
    if es == [] {
      assert s.queued + [] == s.queued;
    } else {
      var t := Next(s, es[0]);
      var one := if es[0].Queue? then [es[0].functor] else [];
      CallIsQueued(s, es[0]);
      CallsAreQueued(t, es[1..]);
      assert (s.queued + one) + Calls(es[1..]) == s.queued + (one + Calls(es[1..]));
    }
  }

  /** None of the functors passed to `queueInLoop` is left out. */
  lemma EveryCallIsQueued(es: seq<Event>)
    requires Legal(INIT, es)
    ensures Play(INIT, es).queued == Calls(es)
  {
    CallsAreQueued(INIT, es);
    assert [] + Calls(es) == Calls(es);
  }

  lemma CallIsQueued(s: State, e: Event)
    requires Enabled(s, e)
    ensures Next(s, e).queued == s.queued + if e.Queue? then [e.functor] else []
  {
    assert s.queued + [] == s.queued;
  }

  function By(thread: nat, fs: seq<Functor>): seq<Functor> {
    if fs == [] then []
    else (if fs[0].thread == thread then [fs[0]] else []) + By(thread, fs[1..])
  }

  lemma {:induction false} ByConcat(thread: nat, a: seq<Functor>, b: seq<Functor>)
    ensures By(thread, a + b) == By(thread, a) + By(thread, b)
  {
    if a == [] {
      assert a + b == b;
    } else {
      ByConcat(thread, a[1..], b);
      assert (a + b)[1..] == a[1..] + b && (a + b)[0] == a[0];
      var one := if a[0].thread == thread then [a[0]] else [];
      assert one + (By(thread, a[1..]) + By(thread, b)) == (one + By(thread, a[1..])) + By(thread, b);
    }
  }

  /**
    In every interleaving the functors run in the order queued, each at most once, and so do those of
    any one thread: the `send` calls of a thread reach `sendInLoop` in call order.
   */
  lemma FunctorsRunInOrder(es: seq<Event>, thread: nat)
    requires Legal(INIT, es)
    ensures var s := Play(INIT, es);
            && s.executed <= s.queued && s.next <= |s.batch|
            && s.queued == s.executed + s.batch[s.next..] + s.pending
            && By(thread, s.executed) <= By(thread, s.queued)
  {
    InOrderRun(INIT, es);
    var s := Play(INIT, es);
    ByConcat(thread, s.executed, s.batch[s.next..] + s.pending);
    assert s.executed + (s.batch[s.next..] + s.pending) == s.queued;
  }

  /**
    `doPendingFunctors` owes the functors present at the swap and no others, however many are queued
    meanwhile, by the functors themselves or by other threads.
   */
  lemma {:induction false} BatchIsWhatWasSwapped(s: State, es: seq<Event>)
    requires s.place.Running? && s.next <= |s.batch| && Legal(s, es) && EndBatch !in es
    ensures var t := Play(s, es);
            && t.place.Running? && t.next <= |t.batch| && t.batch == s.batch
            && t.executed + t.batch[t.next..] == s.executed + s.batch[s.next..]
    decreases |es|
  {
    hide Next, Enabled;
    if es != [] {
      BatchStays(s, es[0]);
      BatchIsWhatWasSwapped(Next(s, es[0]), es[1..]);
    }
  }

  lemma BatchStays(s: State, e: Event)
    requires s.place.Running? && s.next <= |s.batch| && Enabled(s, e) && e != EndBatch
    ensures var t := Next(s, e);
            && t.place.Running? && t.next <= |t.batch| && t.batch == s.batch
            && t.executed + t.batch[t.next..] == s.executed + s.batch[s.next..]
  {
    if e.RunFunctor? {
      assert s.batch[s.next..] == [s.batch[s.next]] + s.batch[s.next + 1..];
    }
  }

  // ---------------------------------------------------------------- no lost wakeup

  /** A write to the eventfd has happened and is unread, or is about to happen. */
  predicate Signalled(s: State) {
    s.counter > 0 || s.waking != {}
  }

  /** The loop is not blocked in `poll` beside work with nothing to wake it. */
  predicate NotStuck(s: State) {
    s.place.Polling? && (s.pending != [] || s.quit) ==> Signalled(s)
  }

  ghost predicate Flags(s: State) {
    && (s.calling <==> s.place.Running?)
    && (LOOP in s.waking ==> s.place.Running?)
  }

  ghost predicate Wakeful(s: State) {
    && Flags(s)
    && NotStuck(s)
    && ((s.place.AtCheck? || s.place.Running?) && !s.quit && s.pending != [] ==> Signalled(s))
  }

  lemma {:induction false} FlagsRun(s: State, es: seq<Event>)
    requires Flags(s) && Legal(s, es)
    ensures Flags(Play(s, es))
    decreases |es|
  {
    if es != [] {
      FlagsRun(Next(s, es[0]), es[1..]);
    }
  }

  lemma WakefulStep(s: State, e: Event)
    requires Wakeful(s) && Enabled(s, e) && e != EnterLoop
    ensures Wakeful(Next(s, e))
  {
    var t := Next(s, e);
    if e.WriteWake? {
      assert t.counter > 0;
    } else if e.Queue? && e.functor.thread in t.waking {
      assert t.waking != {};
    } else if e.SetQuit? && e.thread in t.waking {
      assert t.waking != {};
    }
  }

  lemma {:induction false} WakefulRun(s: State, es: seq<Event>)
    requires Wakeful(s) && !s.place.BeforeLoop? && Legal(s, es)
    ensures Wakeful(Play(s, es))
    decreases |es|
  {
    if es != [] {
      WakefulStep(s, es[0]);
      WakefulRun(Next(s, es[0]), es[1..]);
    }
  }

  /** What `loop()` needs on entry: no functor was queued by the loop's own thread without a wakeup. */
  predicate NothingUnannounced(s: State) {
    s.pending == [] || s.quit || Signalled(s)
  }

  /** No lost wakeup, in every interleaving, from a `loop()` entered with nothing unannounced. */
  lemma NoLostWakeup(before: seq<Event>, es: seq<Event>)
    requires Legal(INIT, before) && Play(INIT, before).place.BeforeLoop?
    requires NothingUnannounced(Play(INIT, before))
    requires Legal(Play(INIT, before), [EnterLoop] + es)
    ensures NotStuck(Play(Play(INIT, before), [EnterLoop] + es))
  {
    FlagsRun(INIT, before);
    var s := Play(INIT, before);
    assert ([EnterLoop] + es)[1..] == es;
    WakefulRun(Next(s, EnterLoop), es);
  }

  /** Otherwise the wakeup is lost: the loop blocks in its first `poll` beside a pending functor. */
  lemma EarlyFunctorIsLost(before: seq<Event>)
    requires Legal(INIT, before) && Play(INIT, before).place.BeforeLoop?
    requires !NothingUnannounced(Play(INIT, before))
    ensures Legal(Play(INIT, before), [EnterLoop, CheckQuit])
    ensures !NotStuck(Play(Play(INIT, before), [EnterLoop, CheckQuit]))
  {
    FlagsRun(INIT, before);
    var s := Play(INIT, before);
    assert [EnterLoop, CheckQuit][1..] == [CheckQuit];
    assert [CheckQuit][1..] == [];
    assert Legal(Next(s, EnterLoop), [CheckQuit]);
  }

  /** Exactly when the loop never blocks beside work, for every `loop()` entry. */
  lemma NoLostWakeupExactly(before: seq<Event>)
    requires Legal(INIT, before) && Play(INIT, before).place.BeforeLoop?
    ensures NothingUnannounced(Play(INIT, before)) <==>
            forall es :: Legal(Play(INIT, before), [EnterLoop] + es) ==> NotStuck(Play(Play(INIT, before), [EnterLoop] + es))
  {
    var s := Play(INIT, before);
    if NothingUnannounced(s) {
      forall es | Legal(s, [EnterLoop] + es)
        ensures NotStuck(Play(s, [EnterLoop] + es))
      {
        NoLostWakeup(before, es);
      }
    } else {
      EarlyFunctorIsLost(before);
      assert [EnterLoop] + [CheckQuit] == [EnterLoop, CheckQuit];
    }
  }

  /** The writes to the eventfd that no read has come after, if there were `before` of them already. */
  function Unread(before: nat, es: seq<Event>): nat
    decreases |es|
  {
    if es == [] then before
    else Unread(if es[0].ReadWake? then 0 else if es[0].WriteWake? then before + 1 else before, es[1..])
  }

  function Capped(n: nat): nat {
    if n < EVENTFD_MAX then n else EVENTFD_MAX
  }

  lemma {:induction false} CounterRun(s: State, es: seq<Event>, before: nat)
    requires Legal(s, es) && s.counter == Capped(before)
    ensures Play(s, es).counter == Capped(Unread(before, es))
    decreases |es|
  {
    if es != [] {
      CounterRun(Next(s, es[0]), es[1..],
                 if es[0].ReadWake? then 0 else if es[0].WriteWake? then before + 1 else before);
    }
  }

  /** The eventfd counts the writes since the last read, and `poll` reports the wakeup channel exactly if there were any. */
  lemma WakeupsAreCounted(es: seq<Event>)
    requires Legal(INIT, es)
    ensures var s := Play(INIT, es);
            && s.counter == Capped(Unread(0, es))
            && (s.place.Polling? ==> Next(s, PollReturn).place == Dispatching(Unread(0, es) > 0))
  {
    CounterRun(INIT, es, 0);
  }

  /** A functor queued by the loop's own thread before `loop()` gets no wakeup. */
  lemma EarlyFunctorExample()
    ensures var f := Functor(LOOP, 7);
            && Legal(INIT, [Queue(f), EnterLoop, CheckQuit])
            && !NotStuck(Play(INIT, [Queue(f), EnterLoop, CheckQuit]))
  {
    var f := Functor(LOOP, 7);
    var es := [Queue(f), EnterLoop, CheckQuit];
    assert es[1..] == [EnterLoop, CheckQuit];
    assert es[1..][1..] == [CheckQuit];
    assert es[1..][1..][1..] == [];
    assert Legal(Next(Next(INIT, Queue(f)), EnterLoop), [CheckQuit]);
    assert Legal(Next(INIT, Queue(f)), [EnterLoop, CheckQuit]);
  }

  // ---------------------------------------------------------------- the code

  lemma OneMore(s: State, es: seq<Event>, e: Event)
    requires Legal(s, es) && Enabled(Play(s, es), e)
    ensures Legal(s, es + [e]) && Play(s, es + [e]) == Next(Play(s, es), e)
  {
    assert [e][1..] == [];
    assert Legal(Play(s, es), [e]);
    PlayAppend(s, es, [e]);
  }

  /** One pass of `while(!quit_)`: what the channel callbacks do, then what happens during each functor. */
  datatype Round = Round(dispatched: seq<Event>, during: seq<seq<Event>>)

  class EventLoop {
    var place: Place
    var quit: bool
    var calling: bool
    var pending: seq<Functor>
    var functors: seq<Functor>   // the local vector of doPendingFunctors
    var next: nat
    var counter: nat             // the eventfd
    var waking: set<nat>
    var queued: seq<Functor>
    var executed: seq<Functor>
    ghost var start: State
    ghost var trace: seq<Event>  // the steps taken since start

    function Value(): State
      reads this
    {
      State(place, quit, calling, pending, functors, next, counter, waking, queued, executed)
    }

    /** The fields are those of a run from `start`. */
    ghost predicate Valid()
      reads this
    {
      && Flags(start) && InOrder(start) && Legal(start, trace) && Play(start, trace) == Value()
      && Flags(Value()) && InOrder(Value())
    }

    constructor ()
      ensures Valid() && Value() == INIT
    {
      place, quit, calling, pending, functors, next := BeforeLoop, false, false, [], [], 0;
      counter, waking, queued, executed := 0, {}, [], [];
      start, trace := INIT, [];
    }

    ghost method Record(e: Event)
      requires Legal(start, trace) && Flags(start) && InOrder(start)
      requires Enabled(Play(start, trace), e) && Next(Play(start, trace), e) == Value()
      modifies this`trace
      ensures Valid() && trace == old(trace) + [e]
      ensures Wakeful(Play(start, old(trace))) && e != EnterLoop ==> Wakeful(Value())
    {
      hide Next, Enabled, NotStuck, Signalled, InOrder;
      if Wakeful(Play(start, trace)) && e != EnterLoop { WakefulStep(Play(start, trace), e); }
      OneMore(start, trace, e);
      trace := trace + [e];
      FlagsRun(start, trace);
      InOrderRun(start, trace);
    }

    method Wakeup(thread: nat)
      requires Valid() && thread in waking
      modifies this
      ensures Valid() && start == old(start) && (old(Wakeful(Value())) ==> Wakeful(Value()))
      ensures Value() == Next(old(Value()), WriteWake(thread)) && trace == old(trace) + [WriteWake(thread)]
    {
      if counter < EVENTFD_MAX {
        counter := counter + 1;
      }
      waking := waking - {thread};
      Record(WriteWake(thread));
    }

    method QueueInLoop(f: Functor)
      requires Valid() && MayCall(Value(), f.thread)
      modifies this
      ensures Valid() && start == old(start) && old(trace) <= trace && (old(Wakeful(Value())) ==> Wakeful(Value()))
      ensures place == old(place) && quit == old(quit) && functors == old(functors) && next == old(next)
      ensures executed == old(executed) && waking == old(waking)
      ensures pending == old(pending) + [f] && queued == old(queued) + [f]
      ensures if f.thread != LOOP || calling then counter > 0 else counter == old(counter)
    {
      pending := pending + [f];
      queued := queued + [f];
      if f.thread != LOOP || calling {
        waking := waking + {f.thread};
        Record(Queue(f));
        Wakeup(f.thread);
      } else {
        Record(Queue(f));
      }
    }

    method Quit(thread: nat)
      requires Valid() && MayCall(Value(), thread)
      modifies this
      ensures Valid() && start == old(start) && old(trace) <= trace && (old(Wakeful(Value())) ==> Wakeful(Value()))
      ensures quit && if thread != LOOP then counter > 0 else counter == old(counter)
      ensures place == old(place) && functors == old(functors) && next == old(next)
      ensures executed == old(executed) && waking == old(waking)
      ensures pending == old(pending) && queued == old(queued)
    {
      quit := true;
      if thread != LOOP {
        waking := waking + {thread};
        Record(SetQuit(thread));
        Wakeup(thread);
      } else {
        Record(SetQuit(thread));
      }
    }

    /** Calls made by user code of the loop thread and, meanwhile, by other threads. */
    method UserCalls(calls: seq<Event>)
      requires Valid() && UserCode(Value())
      modifies this
      ensures Valid() && start == old(start) && old(trace) <= trace && (old(Wakeful(Value())) ==> Wakeful(Value()))
      ensures UserCode(Value()) && place == old(place) && functors == old(functors) && next == old(next)
      ensures executed == old(executed) && waking == old(waking)
      ensures old(pending) <= pending && queued == old(queued) + pending[|old(pending)|..]
      ensures old(quit) ==> quit
    {
      hide Valid, Wakeful;
      for i := 0 to |calls|
        invariant Valid() && start == old(start) && old(trace) <= trace && (old(Wakeful(Value())) ==> Wakeful(Value()))
        invariant UserCode(Value()) && place == old(place) && functors == old(functors) && next == old(next)
        invariant executed == old(executed) && waking == old(waking)
        invariant old(pending) <= pending && queued == old(queued) + pending[|old(pending)|..]
        invariant old(quit) ==> quit
      {
        match calls[i]
        case Queue(f) => if MayCall(Value(), f.thread) { QueueInLoop(f); }
        case SetQuit(thread) => if MayCall(Value(), thread) { Quit(thread); }
        case _ =>
      }
    }

    method HandleRead()
      requires Valid() && place == Dispatching(true) && UserCode(Value())
      modifies this
      ensures Valid() && start == old(start) && old(trace) <= trace && (old(Wakeful(Value())) ==> Wakeful(Value()))
      ensures Value() == Next(old(Value()), ReadWake)
      ensures counter == 0 && place == Dispatching(false)
    {
      place := Dispatching(false);
      counter := 0;
      Record(ReadWake);
    }

    method SwapPending()
      requires Valid() && place == Dispatching(false) && UserCode(Value())
      modifies this
      ensures Valid() && start == old(start) && old(trace) <= trace && (old(Wakeful(Value())) ==> Wakeful(Value()))
      ensures Value() == Next(old(Value()), Swap)
    {
      place, calling := Running, true;
      functors, pending, next := pending, [], 0;
      Record(Swap);
    }

    method RunNext()
      requires Valid() && place.Running? && next < |functors| && LOOP !in waking
      modifies this
      ensures Valid() && start == old(start) && old(trace) <= trace && (old(Wakeful(Value())) ==> Wakeful(Value()))
      ensures Value() == Next(old(Value()), RunFunctor)
    {
      executed := executed + [functors[next]];
      next := next + 1;
      Record(RunFunctor);
    }

    method FinishBatch()
      requires Valid() && place.Running? && next == |functors| && LOOP !in waking
      modifies this
      ensures Valid() && start == old(start) && old(trace) <= trace && (old(Wakeful(Value())) ==> Wakeful(Value()))
      ensures Value() == Next(old(Value()), EndBatch)
    {
      place, calling, functors, next := AtCheck, false, [], 0;
      Record(EndBatch);
    }

    /**
      Swaps the queue out under the lock and runs it.  Exactly the functors present at the swap run,
      in order; whatever is queued meanwhile stays pending.
     */
    method DoPendingFunctors(during: seq<seq<Event>>)
      requires Valid() && place == Dispatching(false) && UserCode(Value())
      modifies this
      ensures Valid() && start == old(start) && old(trace) <= trace && (old(Wakeful(Value())) ==> Wakeful(Value()))
      ensures place == AtCheck && !calling && functors == [] && waking == old(waking)
      ensures executed == old(executed) + old(pending)
      ensures queued == old(queued) + pending
      ensures old(quit) ==> quit
    {
      hide Valid, Wakeful;
      SwapPending();
      while next < |functors|
        invariant Valid() && start == old(start) && old(trace) <= trace && (old(Wakeful(Value())) ==> Wakeful(Value()))
        invariant place.Running? && LOOP !in waking && functors == old(pending) && next <= |functors|
        invariant executed == old(executed) + functors[..next]
        invariant queued == old(queued) + pending && waking == old(waking)
        invariant old(quit) ==> quit
      {
        RunNext();
        UserCalls(if next <= |during| then during[next - 1] else []);
      }
      FinishBatch();
    }

    /** One pass of `while(!quit_)`, from the call of `poll` on. */
    method Iterate(round: Round)
      requires Valid() && place == Polling && LOOP !in waking
      modifies this
      ensures Valid() && start == old(start) && old(trace) <= trace && (old(Wakeful(Value())) ==> Wakeful(Value()))
      ensures place == AtCheck && LOOP !in waking
    {
      place := Dispatching(counter > 0);
      Record(PollReturn);
      hide Valid, Wakeful;
      UserCalls(round.dispatched);
      if place == Dispatching(true) {
        HandleRead();
      }
      DoPendingFunctors(round.during);
    }

    method Check()
      requires Valid() && place == AtCheck
      modifies this
      ensures Valid() && start == old(start) && old(trace) <= trace && (old(Wakeful(Value())) ==> Wakeful(Value()))
      ensures Value() == Next(old(Value()), CheckQuit)
      ensures place == if quit then Exited else Polling
    {
      place := if quit then Exited else Polling;
      Record(CheckQuit);
    }

    method Enter()
      requires Valid() && place == BeforeLoop && UserCode(Value()) && NothingUnannounced(Value())
      modifies this
      ensures Valid() && start == old(start) && old(trace) <= trace && Wakeful(Value())
      ensures Value() == Next(old(Value()), EnterLoop)
    {
      place := AtCheck;
      Record(EnterLoop);
    }

    /** `loop()` until `quit_` is seen, or for as many passes as `rounds` describes. */
    method Loop(rounds: seq<Round>)
      requires Valid() && place == BeforeLoop && UserCode(Value()) && NothingUnannounced(Value())
      modifies this
      ensures Valid() && start == old(start) && old(trace) <= trace
      ensures place == Exited || place == Polling
      ensures place == Exited ==> quit
      ensures NotStuck(Value()) && queued == executed + pending
    {
      Enter();
      Check();
      var i := 0;
      while place == Polling && i < |rounds|
        invariant Valid() && start == old(start) && old(trace) <= trace && Wakeful(Value())
        invariant place == Polling || (place == Exited && quit)
        invariant place == Polling ==> LOOP !in waking
      {
        Iterate(rounds[i]);
        Check();
        i := i + 1;
      }
    }
  }
}
