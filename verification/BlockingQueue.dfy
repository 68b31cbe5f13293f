/**
  `BoundedBlockingQueue` and `CountDownLatch` as monitors.

  Each event is what one thread does between taking the mutex and giving it up.  A thread in a wait
  loop is asleep until a signal or a spurious wakeup, and then competes for the mutex with the others
  woken and with threads that have just arrived.
 */
module Monitors {

  type Thread = nat

  /**
    A condition variable: the threads waiting on it, those that a signal has woken and those woken
    spuriously.  The last two do not have the mutex yet.
   */
  datatype Condition = Condition(asleep: set<Thread>, signalled: set<Thread>, spurious: set<Thread>) {
    predicate Ok() { asleep !! signalled && asleep !! spurious && signalled !! spurious }

    function Awake(): set<Thread> { signalled + spurious }

    function All(): set<Thread> { asleep + Awake() }

    function Sleep(t: Thread): Condition { Condition(asleep + {t}, signalled, spurious) }

    function Signal(t: Thread): Condition {
      if t in asleep then Condition(asleep - {t}, signalled + {t}, spurious) else this
    }

    function SignalAll(): Condition { Condition({}, signalled + asleep, spurious) }

    function WakeSpuriously(t: Thread): Condition {
      if t in asleep then Condition(asleep - {t}, signalled, spurious + {t}) else this
    }

    function Leave(t: Thread): Condition { Condition(asleep, signalled - {t}, spurious - {t}) }

    /** A signal wakes one of the sleepers, if there are any. */
    predicate Signals(t: Thread) { asleep != {} ==> t in asleep }
  }

  const NOBODY := Condition({}, {}, {})

  lemma SleepIs(c: Condition, t: Thread)
    requires c.Ok() && t !in c.All()
    ensures c.Sleep(t).Ok() && c.Sleep(t).All() == c.All() + {t} && c.Sleep(t).asleep != {}
    ensures c.Sleep(t).signalled == c.signalled
  {
    assert t in c.Sleep(t).asleep;
  }

  lemma SignalIs(c: Condition, t: Thread)
    requires c.Ok()
    ensures c.Signal(t).Ok() && c.Signal(t).All() == c.All()
    ensures t in c.asleep ==> |c.Signal(t).signalled| == |c.signalled| + 1
    ensures t !in c.asleep ==> c.Signal(t) == c
    ensures c.asleep == {} ==> c.Signal(t) == c
  {
  }

  lemma SpuriousIs(c: Condition, t: Thread)
    requires c.Ok()
    ensures c.WakeSpuriously(t).Ok() && c.WakeSpuriously(t).All() == c.All()
    ensures c.WakeSpuriously(t).signalled == c.signalled && c.WakeSpuriously(t).asleep <= c.asleep
  {
  }

  lemma LeaveIs(c: Condition, t: Thread)
    requires c.Ok() && t in c.Awake()
    ensures c.Leave(t).Ok() && c.Leave(t).All() == c.All() - {t} && c.Leave(t).asleep == c.asleep
    ensures |c.Leave(t).signalled| == if t in c.signalled then |c.signalled| - 1 else |c.signalled|
  {
  }

  // ---------------------------------------------------------------- the bounded queue

  /**
    `items` holds the argument of each `put` in progress; `inputs` are the elements pushed and `outputs`
    those popped, in order.
   */
  datatype State<T> = State(
    capacity: nat,
    queue: seq<T>,
    notFull: Condition,
    notEmpty: Condition,
    items: map<Thread, T>,
    inputs: seq<T>,
    outputs: seq<T>)

  /** `signalled` is the thread that the signal of this step wakes, if any sleeps. */
  datatype Event<T> =
    | Put(thread: Thread, x: T, signalled: Thread)
    | PutAgain(thread: Thread, signalled: Thread)
    | Take(thread: Thread, signalled: Thread)
    | TakeAgain(thread: Thread, signalled: Thread)
    | SpuriousPut(thread: Thread)
    | SpuriousTake(thread: Thread)

  function Init<T>(capacity: nat): State<T> {
    State(capacity, [], NOBODY, NOBODY, map[], [], [])
  }

  predicate Idle<T>(s: State<T>, thread: Thread) {
    thread !in s.notFull.All() && thread !in s.notEmpty.All()
  }

  predicate Enabled<T>(s: State<T>, e: Event<T>) {
    match e
    case Put(thread, _, t) => Idle(s, thread) && s.notEmpty.Signals(t)
    case PutAgain(thread, t) => thread in s.notFull.Awake() && thread in s.items && s.notEmpty.Signals(t)
    case Take(thread, t) => Idle(s, thread) && s.notFull.Signals(t)
    case TakeAgain(thread, t) => thread in s.notEmpty.Awake() && s.notFull.Signals(t)
    case SpuriousPut(thread) => thread in s.notFull.asleep
    case SpuriousTake(thread) => thread in s.notEmpty.asleep
  }

  /** `circular_buffer::push_back`: on a full buffer the oldest element is overwritten. */
  function PushBack<T>(queue: seq<T>, capacity: nat, x: T): seq<T> {
    if capacity == 0 then queue
    else if |queue| >= capacity then queue[1..] + [x]
    else queue + [x]
  }

  /** `put` with the mutex held, from a test of its loop to the next wait or to the end. */
  function AfterPut<T>(s: State<T>, thread: Thread, x: T, t: Thread): State<T> {
    if |s.queue| == s.capacity
    then s.(notFull := s.notFull.Sleep(thread), items := s.items[thread := x])
    else s.(queue := PushBack(s.queue, s.capacity, x),
            inputs := s.inputs + [x],
            items := s.items - {thread},
            notEmpty := s.notEmpty.Signal(t))
  }

  function AfterTake<T>(s: State<T>, thread: Thread, t: Thread): State<T> {
    if s.queue == [] then s.(notEmpty := s.notEmpty.Sleep(thread))
    else s.(queue := s.queue[1..],
            outputs := s.outputs + [s.queue[0]],
            notFull := s.notFull.Signal(t))
  }

  function Next<T>(s: State<T>, e: Event<T>): State<T>
    requires Enabled(s, e)
  {
    match e
    case Put(thread, x, t) => AfterPut(s, thread, x, t)
    case PutAgain(thread, t) => AfterPut(s.(notFull := s.notFull.Leave(thread)), thread, s.items[thread], t)
    case Take(thread, t) => AfterTake(s, thread, t)
    case TakeAgain(thread, t) => AfterTake(s.(notEmpty := s.notEmpty.Leave(thread)), thread, t)
    case SpuriousPut(thread) => s.(notFull := s.notFull.WakeSpuriously(thread))
    case SpuriousTake(thread) => s.(notEmpty := s.notEmpty.WakeSpuriously(thread))
  }

  ghost predicate Legal<T>(s: State<T>, es: seq<Event<T>>)
    decreases |es|
  {
    es == [] || (Enabled(s, es[0]) && Legal(Next(s, es[0]), es[1..]))
  }

  ghost function Play<T>(s: State<T>, es: seq<Event<T>>): State<T>
    requires Legal(s, es)
    decreases |es|
  {
    if es == [] then s else Play(Next(s, es[0]), es[1..])
  }

  /** Nothing is lost, reordered or overwritten. */
  ghost predicate Fifo<T>(s: State<T>) {
    |s.queue| <= s.capacity && s.inputs == s.outputs + s.queue
  }

  /** A thread is at one place of one call. */
  ghost predicate OnePlace<T>(s: State<T>) {
    s.notFull.Ok() && s.notEmpty.Ok() && s.notFull.All() !! s.notEmpty.All()
  }

  /**
    Beside a sleeping thread there are no more elements, or free slots, than signalled threads to use
    them; `puts` and `takes` count a thread that was signalled and has just got the mutex.
   */
  ghost predicate Attended<T>(s: State<T>, puts: nat, takes: nat) {
    && (s.notEmpty.asleep != {} ==> |s.queue| <= |s.notEmpty.signalled| + takes)
    && (s.notFull.asleep != {} ==> s.capacity - |s.queue| <= |s.notFull.signalled| + puts)
  }

  ghost predicate Inv<T>(s: State<T>) {
    Fifo(s) && OnePlace(s) && Attended(s, 0, 0) && s.items.Keys == s.notFull.All()
  }

  /** As `Inv`, with `thread` holding the mutex. */
  ghost predicate Inside<T>(s: State<T>, thread: Thread, puts: nat, takes: nat) {
    Fifo(s) && OnePlace(s) && Attended(s, puts, takes) && Idle(s, thread)
  }

  lemma PutKeeps<T>(s: State<T>, thread: Thread, x: T, t: Thread)
    requires Inside(s, thread, 1, 0) && s.notEmpty.Signals(t)
    requires s.items.Keys - {thread} == s.notFull.All()
    ensures Inv(AfterPut(s, thread, x, t))
  {
    hide Condition.Sleep, Condition.Signal, Condition.All, Condition.Ok;
    var u := AfterPut(s, thread, x, t);
    SleepIs(s.notFull, thread);
    SignalIs(s.notEmpty, t);
    assert s.items[thread := x].Keys == s.notFull.All() + {thread};
    if |s.queue| < s.capacity {
      assert u.inputs == u.outputs + u.queue;
      assert (s.items - {thread}).Keys == s.notFull.All();
    }
  }

  lemma TakeKeeps<T>(s: State<T>, thread: Thread, t: Thread)
    requires Inside(s, thread, 0, 1) && s.notFull.Signals(t)
    requires s.items.Keys == s.notFull.All()
    ensures Inv(AfterTake(s, thread, t))
  {
    hide Condition.Sleep, Condition.Signal, Condition.All, Condition.Ok;
    SleepIs(s.notEmpty, thread);
    SignalIs(s.notFull, t);
    if s.queue != [] {
      assert s.queue == [s.queue[0]] + s.queue[1..];
    }
  }

  lemma StepKeeps<T>(s: State<T>, e: Event<T>)
    requires Inv(s) && Enabled(s, e)
    ensures Inv(Next(s, e))
  {
    hide AfterPut, AfterTake, Inside, Inv;
    match e
    case Put(thread, x, t) => ArriveKeeps(s, thread); PutKeeps(s, thread, x, t);
    case PutAgain(thread, t) =>
      LeavePutKeeps(s, thread);
      PutKeeps(s.(notFull := s.notFull.Leave(thread)), thread, s.items[thread], t);
    case Take(thread, t) => ArriveKeeps(s, thread); TakeKeeps(s, thread, t);
    case TakeAgain(thread, t) =>
      LeaveTakeKeeps(s, thread);
      TakeKeeps(s.(notEmpty := s.notEmpty.Leave(thread)), thread, t);
    case SpuriousPut(thread) => SpuriousKeeps(s, thread);
    case SpuriousTake(thread) => SpuriousKeeps(s, thread);
  }

  lemma ArriveKeeps<T>(s: State<T>, thread: Thread)
    requires Inv(s) && Idle(s, thread)
    ensures Inside(s, thread, 1, 0) && Inside(s, thread, 0, 1)
    ensures s.items.Keys == s.notFull.All() && s.items.Keys - {thread} == s.notFull.All()
  {
    assert thread !in s.items.Keys;
  }

  lemma LeavePutKeeps<T>(s: State<T>, thread: Thread)
    requires Inv(s) && thread in s.notFull.Awake()
    ensures var u := s.(notFull := s.notFull.Leave(thread));
            Inside(u, thread, 1, 0) && u.items.Keys - {thread} == u.notFull.All()
  {
    hide Fifo, Condition.Leave, Condition.Ok;
    FifoOnly(s, s.(notFull := s.notFull.Leave(thread)));
    LeaveIs(s.notFull, thread);
    assert thread in s.notFull.All();
  }

  lemma LeaveTakeKeeps<T>(s: State<T>, thread: Thread)
    requires Inv(s) && thread in s.notEmpty.Awake()
    ensures var u := s.(notEmpty := s.notEmpty.Leave(thread));
            Inside(u, thread, 0, 1) && u.items.Keys == u.notFull.All()
  {
    hide Fifo, Condition.Leave, Condition.Ok;
    FifoOnly(s, s.(notEmpty := s.notEmpty.Leave(thread)));
    LeaveIs(s.notEmpty, thread);
    assert thread in s.notEmpty.All();
  }

  lemma SpuriousKeeps<T>(s: State<T>, t: Thread)
    requires Inv(s)
    ensures Inv(s.(notFull := s.notFull.WakeSpuriously(t)))
    ensures Inv(s.(notEmpty := s.notEmpty.WakeSpuriously(t)))
  {
    hide Fifo, Condition.WakeSpuriously, Condition.Ok, Condition.All;
    FifoOnly(s, s.(notFull := s.notFull.WakeSpuriously(t)));
    FifoOnly(s, s.(notEmpty := s.notEmpty.WakeSpuriously(t)));
    SpuriousIs(s.notFull, t);
    SpuriousIs(s.notEmpty, t);
  }

  lemma FifoOnly<T>(s: State<T>, u: State<T>)
    requires Fifo(s)
    requires u.capacity == s.capacity && u.queue == s.queue && u.inputs == s.inputs && u.outputs == s.outputs
    ensures Fifo(u)
  {
  }

  lemma SameCapacity<T>(s: State<T>, e: Event<T>)
    requires Enabled(s, e)
    ensures Next(s, e).capacity == s.capacity
  {
  }

  lemma {:induction false} RunKeeps<T>(s: State<T>, es: seq<Event<T>>)
    requires Inv(s) && Legal(s, es)
    ensures Inv(Play(s, es)) && Play(s, es).capacity == s.capacity
    decreases |es|
  {
    hide Inv, Enabled, Next;
    if es != [] {
      StepKeeps(s, es[0]);
      SameCapacity(s, es[0]);
      RunKeeps(Next(s, es[0]), es[1..]);
    }
  }

  /**
    Over all interleavings, with spurious wakeups and barging: the buffer never overwrites, elements
    come out in the order they went in, and no thread sleeps beside work for which no thread was signalled.
   */
  lemma BoundedFifo<T>(capacity: nat, es: seq<Event<T>>)
    requires Legal(Init(capacity), es)
    ensures var s := Play(Init(capacity), es);
            && |s.queue| <= capacity
            && s.inputs == s.outputs + s.queue
            && (s.notEmpty.asleep != {} ==> |s.queue| <= |s.notEmpty.signalled|)
            && (s.notFull.asleep != {} ==> capacity - |s.queue| <= |s.notFull.signalled|)
  {
    RunKeeps(Init(capacity), es);
  }

  /** What the step of a call comes to: its element pushed last or still in its hands, the oldest popped or none there. */
  ghost predicate Answered<T>(s: State<T>, e: Event<T>, t: State<T>) {
    match e
    case Put(thread, x, _) => PutAnswered(s, thread, x, t)
    case PutAgain(thread, _) => thread in s.items && PutAnswered(s, thread, s.items[thread], t)
    case Take(thread, _) => TakeAnswered(s, thread, t)
    case TakeAgain(thread, _) => TakeAnswered(s, thread, t)
    case _ => t.queue == s.queue && t.inputs == s.inputs && t.outputs == s.outputs && t.items == s.items
  }

  ghost predicate PutAnswered<T>(s: State<T>, thread: Thread, x: T, t: State<T>) {
    && t.outputs == s.outputs
    && if |s.queue| < s.capacity
       then t.inputs == s.inputs + [x] && t.queue == s.queue + [x] && Idle(t, thread) && t.items == s.items - {thread}
       else t.inputs == s.inputs && t.queue == s.queue && thread in t.notFull.asleep && t.items == s.items[thread := x]
  }

  ghost predicate TakeAnswered<T>(s: State<T>, thread: Thread, t: State<T>) {
    && t.inputs == s.inputs && t.items == s.items
    && if s.queue != []
       then t.outputs == s.outputs + [s.queue[0]] && t.queue == s.queue[1..] && Idle(t, thread)
       else t.outputs == s.outputs && t.queue == s.queue && thread in t.notEmpty.asleep
  }

  /** The elements of all calls of `put`. */
  function Puts<T>(es: seq<Event<T>>): seq<T> {
    if es == [] then [] else (if es[0].Put? then [es[0].x] else []) + Puts(es[1..])
  }

  lemma StepAnswers<T>(s: State<T>, e: Event<T>)
    requires Inv(s) && Enabled(s, e)
    ensures Answered(s, e, Next(s, e))
    ensures var t := Next(s, e); |t.inputs| + |t.items| == |s.inputs| + |s.items| + |Puts([e])|
  {
    hide Inv, AfterPut, AfterTake, PutAnswered, TakeAnswered, Inside, Idle, Condition.Leave, Condition.WakeSpuriously;
    OneCall(s);
    assert [e][1..] == [];
    ItemsCount(s.items, e.thread);
    match e
    case Put(thread, x, t) =>
      ArriveKeeps(s, thread);
      PutAnswers(s, thread, x, t);
      ItemAdded(s.items, thread, x);
      PutCounts(s, thread, x, AfterPut(s, thread, x, t));
    case PutAgain(thread, t) =>
      var u := s.(notFull := s.notFull.Leave(thread));
      LeavePutKeeps(s, thread);
      PutAnswers(u, thread, s.items[thread], t);
      ItemAdded(s.items, thread, s.items[thread]);
      PutCounts(u, thread, s.items[thread], AfterPut(u, thread, s.items[thread], t));
      SamePut(s, u, thread, s.items[thread], AfterPut(u, thread, s.items[thread], t));
    case Take(thread, t) =>
      ArriveKeeps(s, thread);
      TakeAnswers(s, thread, t);
      SameTake(s, s, thread, AfterTake(s, thread, t));
    case TakeAgain(thread, t) =>
      var u := s.(notEmpty := s.notEmpty.Leave(thread));
      LeaveTakeKeeps(s, thread);
      TakeAnswers(u, thread, t);
      SameTake(s, u, thread, AfterTake(u, thread, t));
    case _ =>
  }

  lemma PutAnswers<T>(s: State<T>, thread: Thread, x: T, t: Thread)
    requires Inside(s, thread, 1, 0)
    ensures PutAnswered(s, thread, x, AfterPut(s, thread, x, t))
  {
    hide Attended, Condition.Signal, Condition.Ok;
    SignalIs(s.notEmpty, t);
  }

  lemma TakeAnswers<T>(s: State<T>, thread: Thread, t: Thread)
    requires Inside(s, thread, 0, 1)
    ensures TakeAnswered(s, thread, AfterTake(s, thread, t))
  {
    hide Attended, Condition.Signal, Condition.Ok;
    SignalIs(s.notFull, t);
  }

  /** The count of elements pushed or held, before and after. */
  lemma PutCounts<T>(s: State<T>, thread: Thread, x: T, t: State<T>)
    requires PutAnswered(s, thread, x, t)
    ensures |t.inputs| + |t.items| == |s.inputs| + |s.items| + (if thread in s.items then 0 else 1)
  {
    ItemsCount(s.items, thread);
    ItemAdded(s.items, thread, x);
  }

  lemma SamePut<T>(s: State<T>, u: State<T>, thread: Thread, x: T, t: State<T>)
    requires PutAnswered(u, thread, x, t) && u == s.(notFull := u.notFull)
    ensures PutAnswered(s, thread, x, t)
  {
  }

  lemma SameTake<T>(s: State<T>, u: State<T>, thread: Thread, t: State<T>)
    requires TakeAnswered(u, thread, t) && u == s.(notEmpty := u.notEmpty)
    ensures TakeAnswered(s, thread, t) && t.inputs == s.inputs && t.items == s.items
  {
  }

  lemma ItemsCount<T>(items: map<Thread, T>, thread: Thread)
    ensures |items - {thread}| == |items| - if thread in items then 1 else 0
  {
    assert (items - {thread}).Keys == items.Keys - {thread};
    assert |items.Keys - {thread}| == |items.Keys| - if thread in items.Keys then 1 else 0;
  }

  lemma ItemAdded<T>(items: map<Thread, T>, thread: Thread, x: T)
    ensures |items[thread := x]| == |items| + if thread in items then 0 else 1
  {
    assert items[thread := x].Keys == items.Keys + {thread};
  }

  lemma {:induction false} CallsCount<T>(s: State<T>, es: seq<Event<T>>)
    requires Inv(s) && Legal(s, es)
    ensures var t := Play(s, es); |t.inputs| + |t.items| == |s.inputs| + |s.items| + |Puts(es)|
    decreases |es|
  {
    hide Inv, Next, Enabled, Answered;
    if es != [] {
      StepKeeps(s, es[0]);
      StepAnswers(s, es[0]);
      CallsCount(Next(s, es[0]), es[1..]);
      assert [es[0]][1..] == [];
    }
  }

  /**
    In every interleaving each step of a call does what the buffer calls for, and no call of `put` is
    forgotten: there are as many as elements pushed and elements in the hands of waiting threads.
   */
  lemma EveryCallIsAnswered<T>(capacity: nat, es: seq<Event<T>>, e: Event<T>)
    requires Legal(Init(capacity), es) && Enabled(Play(Init(capacity), es), e)
    ensures var s := Play(Init(capacity), es);
            && Answered(s, e, Next(s, e))
            && |Puts(es)| == |s.inputs| + |s.items| && s.items.Keys == s.notFull.All()
  {
    RunKeeps(Init(capacity), es);
    CallsCount(Init(capacity), es);
    StepAnswers(Play(Init(capacity), es), e);
  }

  ghost function OneOf(threads: set<Thread>): (t: Thread)
    ensures threads != {} ==> t in threads
  {
    if threads == {} then 0 else var t :| t in threads; t
  }

  /** A thread woken, signalled or not, finds its call where it left it and can go on. */
  lemma WokenCanGoOn<T>(capacity: nat, es: seq<Event<T>>, thread: Thread)
    requires Legal(Init(capacity), es)
    ensures var s := Play(Init(capacity), es);
            && (thread in s.notFull.Awake() ==> exists t :: Enabled(s, PutAgain(thread, t)))
            && (thread in s.notEmpty.Awake() ==> exists t :: Enabled(s, TakeAgain(thread, t)))
  {
    RunKeeps(Init(capacity), es);
    var s := Play(Init(capacity), es);
    assert thread in s.notFull.Awake() ==> Enabled(s, PutAgain(thread, OneOf(s.notEmpty.asleep)));
    assert thread in s.notEmpty.Awake() ==> Enabled(s, TakeAgain(thread, OneOf(s.notFull.asleep)));
  }

  /** Every thread in a call is asleep, and there is one on each side. */
  predicate Deadlocked<T>(s: State<T>) {
    && s.notFull.Awake() == {} && s.notEmpty.Awake() == {}
    && s.notFull.asleep != {} && s.notEmpty.asleep != {}
  }

  lemma DeadlockWithoutRoom<T>(x: T)
    ensures var es := [Put(1, x, 0), Take(2, 1)];
            Legal(Init<T>(0), es) && Deadlocked(Play(Init<T>(0), es))
  {
    var init := Init<T>(0);
    var es := [Put(1, x, 0), Take(2, 1)];
    var one := init.(notFull := Condition({1}, {}, {}), items := map[1 := x]);
    var two := one.(notEmpty := Condition({2}, {}, {}));
    assert {} + {1} == {1} && {} + {2} == {2};
    assert Next(init, es[0]) == one;
    assert Enabled(one, es[1]) && Next(one, es[1]) == two;
    assert es[1..] == [es[1]] && es[1..][1..] == [];
    assert Legal(two, es[1..][1..]) && Play(two, es[1..][1..]) == two;
    assert Legal(one, es[1..]) && Play(one, es[1..]) == two;
    assert 1 in two.notFull.asleep && 2 in two.notEmpty.asleep;
  }

  lemma IsReached<T(!new)>(s: State<T>, es: seq<Event<T>>)
    requires Legal(s, es) && Deadlocked(Play(s, es))
    ensures exists fs :: Legal(s, fs) && Deadlocked(Play(s, fs))
  {
  }

  /** Producers and consumers never all wait for each other, exactly when there is room for an element. */
  lemma NoDeadlockExactly<T(!new)>(capacity: nat, x: T)
    ensures capacity > 0 <==>
            forall es: seq<Event<T>> :: Legal(Init<T>(capacity), es) ==> !Deadlocked(Play(Init<T>(capacity), es))
  {
    if capacity > 0 {
      forall es: seq<Event<T>> | Legal(Init<T>(capacity), es)
        ensures !Deadlocked(Play(Init<T>(capacity), es))
      {
        RunKeeps(Init<T>(capacity), es);
      }
    } else {
      DeadlockWithoutRoom(x);
      IsReached(Init<T>(capacity), [Put(1, x, 0), Take(2, 1)]);
    }
  }

  /** `thread` is in a `put` of `x`. */
  ghost predicate Putting<T>(s: State<T>, thread: Thread, x: T) {
    thread in s.notFull.All() && thread in s.items && s.items[thread] == x
  }

  predicate IsBy<T>(e: Event<T>, thread: Thread) {
    !e.SpuriousPut? && !e.SpuriousTake? && e.thread == thread
  }

  lemma OthersLeaveIt<T(!new)>(s: State<T>, e: Event<T>, thread: Thread)
    requires Inv(s) && Enabled(s, e) && !IsBy(e, thread)
    ensures forall x :: Putting(s, thread, x) ==> Putting(Next(s, e), thread, x)
    ensures thread in s.notEmpty.All() ==> thread in Next(s, e).notEmpty.All()
    ensures s.inputs <= Next(s, e).inputs && s.outputs <= Next(s, e).outputs
  {
    hide Inv, Condition.All, Condition.Sleep, Condition.Signal, Condition.WakeSpuriously, Condition.Leave;
    OneCall(s);
    StaysIn(s.notFull, thread, e.thread);
    StaysIn(s.notEmpty, thread, e.thread);
    StaysIn(s.notFull.Leave(e.thread), thread, e.thread);
    StaysIn(s.notEmpty.Leave(e.thread), thread, e.thread);
    if !e.SpuriousPut? && !e.SpuriousTake? {
      StaysIn(s.notFull, thread, e.signalled);
      StaysIn(s.notEmpty, thread, e.signalled);
    }
  }

  lemma OneCall<T>(s: State<T>)
    requires Inv(s)
    ensures forall t :: t in s.notFull.Awake() ==> t in s.notFull.All()
    ensures forall t :: t in s.notEmpty.Awake() ==> t in s.notEmpty.All()
    ensures s.notFull.All() !! s.notEmpty.All() && s.items.Keys == s.notFull.All()
  {
  }

  lemma StaysIn(c: Condition, t: Thread, u: Thread)
    ensures t in c.All() ==> t in c.Sleep(u).All() && t in c.Signal(u).All() && t in c.WakeSpuriously(u).All()
    ensures t in c.All() && t != u ==> t in c.Leave(u).All()
  {
  }

  datatype Taken<T> = Taken(front: T) | Waiting

  class BoundedBlockingQueue<T(!new)> {
    const capacity: nat
    var queue: seq<T>            // the circular buffer
    var notFull: Condition
    var notEmpty: Condition
    var items: map<Thread, T>
    var inputs: seq<T>
    var outputs: seq<T>

    function Value(): State<T>
      reads this
    {
      State(capacity, queue, notFull, notEmpty, items, inputs, outputs)
    }

    ghost predicate Valid()
      reads this
    {
      Inv(Value())
    }

    constructor (maxSize: nat)
      ensures Valid() && Value() == Init(maxSize)
    {
      capacity := maxSize;
      queue, notFull, notEmpty, items := [], NOBODY, NOBODY, map[];
      inputs, outputs := [], [];
    }

    /** The end of `put`, after its loop; `t` is the thread that the signal wakes. */
    method Push(thread: Thread, x: T, t: Thread)
      requires |queue| < capacity
      modifies this
      ensures Value() == AfterPut(old(Value()), thread, x, t)
      ensures queue == old(queue) + [x] && inputs == old(inputs) + [x]
    {
      queue := queue + [x];
      inputs := inputs + [x];
      items := items - {thread};
      notEmpty := notEmpty.Signal(t);
    }

    method Pop(thread: Thread, t: Thread) returns (front: T)
      requires queue != []
      modifies this
      ensures Value() == AfterTake(old(Value()), thread, t)
      ensures old(queue) == [front] + queue && outputs == old(outputs) + [front]
    {
      front := queue[0];
      queue := queue[1..];
      outputs := outputs + [front];
      notFull := notFull.Signal(t);
    }

    /** One step of some thread. */
    method Perform(e: Event<T>)
      requires Valid() && Enabled(Value(), e)
      modifies this
      ensures Valid() && Value() == Next(old(Value()), e)
    {
      hide Inv;
      StepKeeps(Value(), e);
      QueueFits(Value());
      match e
      case Put(thread, x, t) => PutOnce(thread, x, t);
      case PutAgain(thread, t) =>
        notFull := notFull.Leave(thread);
        PutOnce(thread, items[thread], t);
      case Take(thread, t) => TakeOnce(thread, t);
      case TakeAgain(thread, t) =>
        notEmpty := notEmpty.Leave(thread);
        TakeOnce(thread, t);
      case SpuriousPut(thread) => notFull := notFull.WakeSpuriously(thread);
      case SpuriousTake(thread) => notEmpty := notEmpty.WakeSpuriously(thread);
    }

    method PutOnce(thread: Thread, x: T, t: Thread)
      requires |queue| <= capacity
      modifies this
      ensures Value() == AfterPut(old(Value()), thread, x, t)
    {
      if |queue| == capacity {
        notFull := notFull.Sleep(thread);
        items := items[thread := x];
      } else {
        Push(thread, x, t);
      }
    }

    method TakeOnce(thread: Thread, t: Thread)
      modifies this
      ensures Value() == AfterTake(old(Value()), thread, t)
    {
      if queue == [] {
        notEmpty := notEmpty.Sleep(thread);
      } else {
        var _ := Pop(thread, t);
      }
    }

    /** What other threads do while `thread` waits, with the wakeups. */
    method Others(thread: Thread, es: seq<Event<T>>)
      requires Valid()
      modifies this
      ensures Valid() && old(inputs) <= inputs && old(outputs) <= outputs
      ensures forall x :: old(Putting(Value(), thread, x)) ==> Putting(Value(), thread, x)
      ensures thread in old(notEmpty).All() ==> thread in notEmpty.All()
    {
      hide Inv, Putting, Enabled, Next;
      for i := 0 to |es|
        invariant Valid() && old(inputs) <= inputs && old(outputs) <= outputs
        invariant forall x :: old(Putting(Value(), thread, x)) ==> Putting(Value(), thread, x)
        invariant thread in old(notEmpty).All() ==> thread in notEmpty.All()
      {
        if Enabled(Value(), es[i]) && !IsBy(es[i], thread) {
          OthersLeaveIt(Value(), es[i], thread);
          Perform(es[i]);
        }
      }
    }

    /**
      `waits` says what the others do in each wait.  The call either returns with its element pushed
      last, or is still waiting with it.
     */
    method Put(thread: Thread, x: T, waits: seq<seq<Event<T>>>) returns (done: bool)
      requires Valid() && Idle(Value(), thread)
      modifies this
      ensures Valid() && old(inputs) <= inputs && old(outputs) <= outputs
      ensures done ==> Idle(Value(), thread) && |old(inputs)| < |inputs| && inputs[|inputs| - 1] == x
      ensures !done ==> Putting(Value(), thread, x)
    {
      hide Inv, Inside, Putting, Fifo;
      ArriveKeeps(Value(), thread);
      var i := 0;
      while |queue| == capacity
        invariant Inside(Value(), thread, 1, 0) && items.Keys - {thread} == notFull.All()
        invariant old(inputs) <= inputs && old(outputs) <= outputs && i <= |waits|
        decreases |waits| - i
      {
        PutKeeps(Value(), thread, x, OneOf(notEmpty.asleep));
        notFull := notFull.Sleep(thread);
        items := items[thread := x];
        IsPutting(Value(), thread, x);
        if i == |waits| {
          return false;
        }
        Others(thread, waits[i]);
        i := i + 1;
        IsPutting(Value(), thread, x);
        if thread in notFull.asleep {
          return false;
        }
        LeavePutKeeps(Value(), thread);
        notFull := notFull.Leave(thread);
      }
      var t := 0;
      if notEmpty.asleep != {} {
        t :| t in notEmpty.asleep;
      }
      PutKeeps(Value(), thread, x, t);
      InsideFits(Value(), thread);
      Push(thread, x, t);
      done := true;
    }

    method Take(thread: Thread, waits: seq<seq<Event<T>>>) returns (taken: Taken<T>)
      requires Valid() && Idle(Value(), thread)
      modifies this
      ensures Valid() && old(inputs) <= inputs && old(outputs) <= outputs
      ensures taken.Taken? ==>
                Idle(Value(), thread) && |old(outputs)| < |outputs| && outputs[|outputs| - 1] == taken.front
      ensures taken.Waiting? ==> thread in notEmpty.All()
    {
      hide Inv, Inside, Putting, Fifo;
      ArriveKeeps(Value(), thread);
      var i := 0;
      while queue == []
        invariant Inside(Value(), thread, 0, 1) && items.Keys == notFull.All()
        invariant old(inputs) <= inputs && old(outputs) <= outputs && i <= |waits|
        decreases |waits| - i
      {
        TakeKeeps(Value(), thread, OneOf(notFull.asleep));
        notEmpty := notEmpty.Sleep(thread);
        if i == |waits| {
          return Waiting;
        }
        Others(thread, waits[i]);
        i := i + 1;
        if thread in notEmpty.asleep {
          return Waiting;
        }
        LeaveTakeKeeps(Value(), thread);
        notEmpty := notEmpty.Leave(thread);
      }
      var t := 0;
      if notFull.asleep != {} {
        t :| t in notFull.asleep;
      }
      TakeKeeps(Value(), thread, t);
      InsideFits(Value(), thread);
      var front := Pop(thread, t);
      taken := Taken(front);
    }
  }

  lemma IsPutting<T>(s: State<T>, thread: Thread, x: T)
    ensures Putting(s, thread, x) <==> thread in s.notFull.All() && thread in s.items && s.items[thread] == x
  {
  }

  lemma InsideFits<T>(s: State<T>, thread: Thread)
    requires Inside(s, thread, 1, 0) || Inside(s, thread, 0, 1)
    ensures |s.queue| <= s.capacity && Idle(s, thread)
  {
  }

  lemma QueueFits<T>(s: State<T>)
    requires Inv(s)
    ensures |s.queue| <= s.capacity
  {
  }

  // ---------------------------------------------------------------- the latch

  /** `downs` counts the calls of `countDown`, `released` holds the threads whose `wait` has returned. */
  datatype Latch = Latch(count: int, waiters: Condition, downs: nat, released: set<Thread>)

  datatype LatchEvent =
    | Wait(thread: Thread)
    | WaitAgain(thread: Thread)
    | CountDown
    | SpuriousWait(thread: Thread)

  predicate LatchEnabled(l: Latch, e: LatchEvent) {
    match e
    case Wait(thread) => thread !in l.waiters.All()
    case WaitAgain(thread) => thread in l.waiters.Awake()
    case CountDown => true
    case SpuriousWait(thread) => thread in l.waiters.asleep
  }

  /** `wait` with the mutex held, from a test of its loop on. */
  function AfterWait(l: Latch, thread: Thread): Latch {
    if l.count > 0 then l.(waiters := l.waiters.Sleep(thread)) else l.(released := l.released + {thread})
  }

  function LatchNext(l: Latch, e: LatchEvent): Latch
    requires LatchEnabled(l, e)
  {
    match e
    case Wait(thread) => AfterWait(l, thread)
    case WaitAgain(thread) => AfterWait(l.(waiters := l.waiters.Leave(thread)), thread)
    case CountDown =>
      l.(count := l.count - 1, downs := l.downs + 1,
         waiters := if l.count - 1 == 0 then l.waiters.SignalAll() else l.waiters)
    case SpuriousWait(thread) => l.(waiters := l.waiters.WakeSpuriously(thread))
  }

  ghost predicate LatchLegal(l: Latch, es: seq<LatchEvent>)
    decreases |es|
  {
    es == [] || (LatchEnabled(l, es[0]) && LatchLegal(LatchNext(l, es[0]), es[1..]))
  }

  ghost function LatchPlay(l: Latch, es: seq<LatchEvent>): Latch
    requires LatchLegal(l, es)
    decreases |es|
  {
    if es == [] then l else LatchPlay(LatchNext(l, es[0]), es[1..])
  }

  ghost predicate LatchInv(l: Latch, initial: int) {
    && l.count == initial - l.downs
    && l.waiters.Ok()
    && (l.waiters.asleep != {} ==> l.count > 0)
    && (l.released != {} ==> l.count <= 0)
  }

  lemma LatchStep(l: Latch, e: LatchEvent, initial: int)
    requires LatchInv(l, initial) && LatchEnabled(l, e)
    ensures LatchInv(LatchNext(l, e), initial)
  {
  }

  /** The calls of `countDown` and the threads that have called `wait`. */
  function Downs(es: seq<LatchEvent>): nat {
    if es == [] then 0 else (if es[0].CountDown? then 1 else 0) + Downs(es[1..])
  }

  function Callers(es: seq<LatchEvent>): set<Thread> {
    if es == [] then {} else (if es[0].Wait? then {es[0].thread} else {}) + Callers(es[1..])
  }

  lemma LatchCounts(l: Latch, e: LatchEvent)
    requires LatchEnabled(l, e)
    ensures var m := LatchNext(l, e);
            && m.downs == l.downs + (if e.CountDown? then 1 else 0)
            && m.released + m.waiters.All() == l.released + l.waiters.All() + (if e.Wait? then {e.thread} else {})
  {
  }

  lemma {:induction false} LatchCalls(l: Latch, es: seq<LatchEvent>)
    requires LatchLegal(l, es)
    ensures var m := LatchPlay(l, es);
            && m.downs == l.downs + Downs(es)
            && m.released + m.waiters.All() == l.released + l.waiters.All() + Callers(es)
    decreases |es|
  {
    hide LatchNext, LatchEnabled, Condition.All;
    if es != [] {
      LatchCounts(l, es[0]);
      LatchCalls(LatchNext(l, es[0]), es[1..]);
    }
  }

  lemma {:induction false} LatchRun(l: Latch, es: seq<LatchEvent>, initial: int)
    requires LatchInv(l, initial) && LatchLegal(l, es)
    ensures LatchInv(LatchPlay(l, es), initial)
    decreases |es|
  {
    if es != [] {
      LatchStep(l, es[0], initial);
      LatchRun(LatchNext(l, es[0]), es[1..], initial);
    }
  }

  /**
    In every run, with spurious wakeups: no `wait` returns before `countDown` was called as often as
    the latch counts, from then on no thread sleeps in it, and each thread that has called `wait` has
    returned or is still in it.
   */
  lemma LatchOpensInTime(count: int, es: seq<LatchEvent>)
    requires LatchLegal(Latch(count, NOBODY, 0, {}), es)
    ensures var l := LatchPlay(Latch(count, NOBODY, 0, {}), es);
            && l.count == count - Downs(es)
            && (l.released != {} ==> Downs(es) >= count)
            && (l.waiters.asleep != {} ==> Downs(es) < count)
            && l.released + l.waiters.All() == Callers(es)
  {
    LatchRun(Latch(count, NOBODY, 0, {}), es, count);
    LatchCalls(Latch(count, NOBODY, 0, {}), es);
    assert NOBODY.All() == {};
  }

  class CountDownLatch {
    const initial: int
    var count: int
    var waiters: Condition
    var downs: nat
    var released: set<Thread>

    function Value(): Latch
      reads this
    {
      Latch(count, waiters, downs, released)
    }

    ghost predicate Valid()
      reads this
    {
      LatchInv(Value(), initial)
    }

    constructor (n: int)
      ensures Valid() && initial == n && Value() == Latch(n, NOBODY, 0, {})
    {
      initial, count, waiters, downs, released := n, n, NOBODY, 0, {};
    }

    method CountDown()
      requires Valid()
      modifies this
      ensures Valid() && Value() == LatchNext(old(Value()), LatchEvent.CountDown)
    {
      count := count - 1;
      downs := downs + 1;
      if count == 0 {
        waiters := waiters.SignalAll();
      }
    }

    /** One step of some thread. */
    method Perform(e: LatchEvent)
      requires Valid() && LatchEnabled(Value(), e)
      modifies this
      ensures Valid() && Value() == LatchNext(old(Value()), e)
    {
      match e
      case CountDown => CountDown();
      case SpuriousWait(thread) => waiters := waiters.WakeSpuriously(thread);
      case Wait(thread) => WaitOnce(thread);
      case WaitAgain(thread) =>
        waiters := waiters.Leave(thread);
        WaitOnce(thread);
    }

    method WaitOnce(thread: Thread)
      modifies this
      ensures Value() == AfterWait(old(Value()), thread)
    {
      if count > 0 {
        waiters := waiters.Sleep(thread);
      } else {
        released := released + {thread};
      }
    }

    /** `others` says what happens in each wait; the call returns exactly if the latch has opened for it. */
    method Wait(thread: Thread, others: seq<seq<LatchEvent>>) returns (done: bool)
      requires Valid() && thread !in waiters.All()
      modifies this
      ensures Valid() && old(downs) <= downs
      ensures done ==> downs >= initial && thread in released
      ensures !done ==> thread in waiters.All()
      ensures thread in waiters.asleep ==> downs < initial
    {
      var i := 0;
      while count > 0
        invariant Valid() && thread !in waiters.All() && old(downs) <= downs && i <= |others|
        decreases |others| - i
      {
        waiters := waiters.Sleep(thread);
        if i == |others| {
          return false;
        }
        ghost var before := downs;
        for j := 0 to |others[i]|
          invariant Valid() && before <= downs && thread in waiters.All()
        {
          var e := others[i][j];
          if LatchEnabled(Value(), e) && (e.CountDown? || e.SpuriousWait? || e.thread != thread) {
            Perform(e);
          }
        }
        i := i + 1;
        if thread in waiters.asleep {
          return false;
        }
        waiters := waiters.Leave(thread);
      }
      released := released + {thread};
      done := true;
    }
  }
}
