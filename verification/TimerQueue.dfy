/**
  The timer queue: two indexes over the same hand-freed timers and one one-shot timerfd.

  `State`, `Event` and `Next` give the protocol as steps of the loop thread (and of the allocating
  threads); `Next` answers `Broken` where the C++ would fail an assert or touch a freed timer.  Timer
  callbacks are not a special case: whatever a callback adds or cancels appears as steps between
  `Expire` and `Finish`.  The class `TimerQueue` at the end is the code, proved against `Next`.
 */
module Timers {

  /** A `Timer*`.  Addresses are reused after a delete. */
  type Addr = nat

  /** `interval` is the whole number of microseconds that `addTime` adds; it may truncate to 0. */
  datatype Timer = Timer(expiration: int, repeat: bool, interval: nat, sequence: nat)

  datatype TimerId = TimerId(timer: Addr, sequence: nat)

  datatype Entry = Entry(when: int, timer: Addr)

  datatype TimerFd = Disarmed | Armed(at: int, deadline: int)

  /** One execution of a timer callback: the deadline it had and the `now` of its batch. */
  datatype Run = Run(sequence: nat, repeat: bool, interval: nat, when: int, now: int)

  datatype Timespec = Timespec(sec: int, nsec: int)

  const MICROS_PER_SECOND := 1000 * 1000

  // ---------------------------------------------------------------- ordered sets

  /** The order of `std::pair<Timestamp,Timer*>`. */
  predicate Before(a: Entry, b: Entry) {
    a.when < b.when || (a.when == b.when && a.timer < b.timer)
  }

  predicate IsFirst(s: set<Entry>, e: Entry) {
    e in s && forall f :: f in s ==> f == e || Before(e, f)
  }

  lemma FirstExists(s: set<Entry>)
    requires s != {}
    ensures exists e :: IsFirst(s, e)
  {
    var x :| x in s;
    if s == {x} {
      assert IsFirst(s, x);
    } else {
      var rest := s - {x};
      FirstExists(rest);
      var y :| IsFirst(rest, y);
      assert s == rest + {x};
      if Before(x, y) {
        assert IsFirst(s, x);
      } else {
        assert IsFirst(s, y);
      }
    }
  }

  /** `*timers_.begin()`. */
  function First(s: set<Entry>): (e: Entry)
    requires s != {}
    ensures IsFirst(s, e)
  {
    FirstExists(s);
    var e :| IsFirst(s, e);
    e
  }

  ghost predicate Ascending(es: seq<Entry>) {
    forall i, j :: 0 <= i < j < |es| ==> Before(es[i], es[j])
  }

  /** The elements in iteration order. */
  function InOrder(s: set<Entry>): (es: seq<Entry>)
    ensures forall e :: e in es <==> e in s
    ensures Ascending(es)
    ensures |es| == |s|
  {
    if s == {} then []
    else
      var e := First(s);
      var rest := InOrder(s - {e});
      assert forall f :: f in rest ==> Before(e, f);
      [e] + rest
  }

  // ---------------------------------------------------------------- arming

  /** `howMuchTimeFromNow`: at least 100 microseconds, never a zero timespec (which would disarm). */
  function HowMuchTimeFromNow(when: int, clock: int): (ts: Timespec)
    ensures 0 <= ts.sec && 0 <= ts.nsec < 1_000_000_000 && ts != Timespec(0, 0)
    ensures ts.sec * 1_000_000_000 + ts.nsec == 1000 * (if when - clock < 100 then 100 else when - clock)
  {
    var microseconds := if when - clock < 100 then 100 else when - clock;
    Timespec(microseconds / MICROS_PER_SECOND, (microseconds % MICROS_PER_SECOND) * 1000)
  }

  /** `resetTimerFd`: the kernel counts the timespec from the moment of the call. */
  function Arm(when: int, clock: int): (fd: TimerFd)
    ensures fd == Armed(clock, if when - clock < 100 then clock + 100 else when)
  {
    var ts := HowMuchTimeFromNow(when, clock);
    Armed(clock, clock + ts.sec * MICROS_PER_SECOND + ts.nsec / 1000)
  }

  /** The descriptor becomes readable by `when`, or 100 microseconds after it was armed. */
  predicate Covers(fd: TimerFd, when: int) {
    fd.Armed? && (fd.deadline <= when || fd.deadline <= fd.at + 100)
  }

  // ---------------------------------------------------------------- the protocol

  /**
    `heap` holds the live `Timer` objects, `inflight` the timers bound into queued `addTimerInLoop`
    functors, `batch` the local vector of `handleRead` with `next` the position of its loop.
   */
  datatype State = State(
    heap: map<Addr, Timer>,
    created: nat,
    inflight: set<Addr>,
    timers: set<Entry>,
    active: set<TimerId>,
    batch: seq<Entry>,
    next: nat,
    now: int,
    calling: bool,
    canceling: set<TimerId>,
    fd: TimerFd,
    log: seq<Run>)

  datatype Event =
    | Create(addr: Addr, when: int, repeat: bool, interval: nat)
    | Insert(addr: Addr, clock: int)
    | Cancel(id: TimerId)
    | Expire(now: int, readable: bool)
    | RunNext
    | Finish(clock: int)

  datatype Outcome = Ok(state: State) | Broken

  const INIT := State(map[], 0, {}, {}, {}, [], 0, 0, false, {}, Disarmed, [])

  /**
    What the environment guarantees: the allocator returns unused memory, a functor runs once,
    only an armed descriptor can be read, and the wall clock is positive.  `handleRead` may run whatever
    the clock says and even if the descriptor is not readable, as when a handler dispatched just before
    re-armed it: the failing read is only logged.
   */
  predicate Enabled(s: State, e: Event) {
    match e
    case Create(addr, _, _, _) => 0 < addr && addr !in s.heap
    case Insert(addr, _) => addr in s.inflight
    case Cancel(_) => true
    case Expire(now, readable) => !s.calling && 0 < now && (readable ==> s.fd.Armed?)
    case RunNext => s.calling && s.next < |s.batch|
    case Finish(_) => s.calling && s.next == |s.batch|
  }

  function IdOf(heap: map<Addr, Timer>, a: Addr): TimerId
    requires a in heap
  {
    TimerId(a, heap[a].sequence)
  }

  /** `getExpired` up to the sentry `(now, UINTPTR_MAX)`. */
  function Expired(timers: set<Entry>, now: int): set<Entry> {
    set e | e in timers && e.when <= now
  }

  function IdsOf(heap: map<Addr, Timer>, entries: set<Entry>): set<TimerId>
    requires forall e :: e in entries ==> e.timer in heap
  {
    set e | e in entries :: IdOf(heap, e.timer)
  }

  /** The timers of the batch that `reset` restarts. */
  function Survivors(s: State): set<Addr>
    requires forall e :: e in s.batch ==> e.timer in s.heap
  {
    set e | e in s.batch && s.heap[e.timer].repeat && IdOf(s.heap, e.timer) !in s.canceling :: e.timer
  }

  predicate InBatch(s: State, a: Addr) {
    exists k :: 0 <= k < |s.batch| && s.batch[k].timer == a
  }

  function Restarted(t: Timer, now: int): Timer {
    t.(expiration := now + t.interval)
  }

  /** `reset` would touch a freed timer, or `insert` fail an assert: the two sizes, or that both elements are new. */
  predicate ResetFails(s: State): (fails: bool)
    ensures !fails ==> forall x :: x in s.batch ==> x.timer in s.heap
  {
    || (exists x :: x in s.batch && x.timer !in s.heap)
    || (exists i, j :: 0 <= i < j < |s.batch| && s.batch[i].timer == s.batch[j].timer)
    || (Survivors(s) != {} && |s.timers| != |s.active|)
    || (exists a :: a in Survivors(s)
                    && (Entry(s.now + s.heap[a].interval, a) in s.timers || IdOf(s.heap, a) in s.active))
  }

  function Next(s: State, e: Event): Outcome {
    match e
    case Create(addr, when, repeat, interval) =>
      Ok(s.(heap := s.heap[addr := Timer(when, repeat, interval, s.created + 1)],
            created := s.created + 1,
            inflight := s.inflight + {addr}))
    case Insert(addr, clock) =>
      if addr !in s.heap || |s.timers| != |s.active| then Broken else
      var entry := Entry(s.heap[addr].expiration, addr);
      if entry in s.timers || IdOf(s.heap, addr) in s.active then Broken else
      var earliest := s.timers == {} || entry.when < First(s.timers).when;
      Ok(s.(inflight := s.inflight - {addr},
            timers := s.timers + {entry},
            active := s.active + {IdOf(s.heap, addr)},
            fd := if earliest then Arm(entry.when, clock) else s.fd))
    case Cancel(id) =>
      if |s.timers| != |s.active| then Broken
      else if id in s.active then
        if id.timer !in s.heap || Entry(s.heap[id.timer].expiration, id.timer) !in s.timers then Broken else
        Ok(s.(heap := s.heap - {id.timer},
              timers := s.timers - {Entry(s.heap[id.timer].expiration, id.timer)},
              active := s.active - {id}))
      else
        Ok(if s.calling then s.(canceling := s.canceling + {id}) else s)
    case Expire(now, readable) =>
      var expired := Expired(s.timers, now);
      if |s.timers| != |s.active|
        || exists x :: x in expired && (x.timer !in s.heap || IdOf(s.heap, x.timer) !in s.active) then Broken else
      Ok(s.(timers := s.timers - expired,
            active := s.active - IdsOf(s.heap, expired),
            batch := InOrder(expired),
            next := 0,
            now := now,
            calling := true,
            canceling := {},
            fd := if readable then Disarmed else s.fd))
    case RunNext =>
      if s.next >= |s.batch| || s.batch[s.next].timer !in s.heap then Broken else
      var t := s.heap[s.batch[s.next].timer];
      Ok(s.(log := s.log + [Run(t.sequence, t.repeat, t.interval, s.batch[s.next].when, s.now)],
            next := s.next + 1))
    case Finish(clock) =>
      if ResetFails(s) then Broken else
      var kept := Survivors(s);
      var timers := s.timers + set a | a in kept :: Entry(s.now + s.heap[a].interval, a);
      Ok(s.(heap := map a | a in s.heap && (InBatch(s, a) ==> a in kept) ::
                      if a in kept then Restarted(s.heap[a], s.now) else s.heap[a],
            timers := timers,
            active := s.active + set a | a in kept :: IdOf(s.heap, a),
            batch := [],
            next := 0,
            calling := false,
            fd := if timers != {} && First(timers).when > 0 then Arm(First(timers).when, clock) else s.fd))
  }

  /** Every event of the run is one the environment may produce. */
  ghost predicate Legal(s: State, es: seq<Event>)
    decreases |es|
  {
    es == [] ||
    (Enabled(s, es[0]) && (Next(s, es[0]).Ok? ==> Legal(Next(s, es[0]).state, es[1..])))
  }

  function Play(s: State, es: seq<Event>): Outcome
    decreases |es|
  {
    if es == [] then Ok(s)
    else
      match Next(s, es[0])
      case Broken => Broken
      case Ok(t) => Play(t, es[1..])
  }

  // ---------------------------------------------------------------- invariants

  ghost predicate InTimers(s: State, a: Addr) {
    a in s.heap && Entry(s.heap[a].expiration, a) in s.timers
  }

  /** Every live timer is in exactly one place, and everything that points to a timer points to a live one. */
  ghost predicate Ownership(s: State) {
    && (forall a :: a in s.inflight ==> a in s.heap && !InTimers(s, a) && !InBatch(s, a))
    && (forall e :: e in s.timers ==> e.timer in s.heap && s.heap[e.timer].expiration == e.when && !InBatch(s, e.timer))
    && (forall k :: 0 <= k < |s.batch| ==>
          s.batch[k].timer in s.heap && s.heap[s.batch[k].timer].expiration == s.batch[k].when)
    && (forall a :: a in s.heap ==> a in s.inflight || InTimers(s, a) || InBatch(s, a))
  }

  /** `activeTimers_` holds exactly the ids of the timers in `timers_`. */
  ghost predicate IndexesAgree(s: State) {
    && (forall e :: e in s.timers ==> e.timer in s.heap && IdOf(s.heap, e.timer) in s.active)
    && (forall id :: id in s.active ==> InTimers(s, id.timer) && IdOf(s.heap, id.timer) == id)
  }

  ghost predicate SequencesUnique(s: State) {
    && (forall a :: a in s.heap ==> 1 <= s.heap[a].sequence <= s.created)
    && (forall a, b :: a in s.heap && b in s.heap && a != b ==> s.heap[a].sequence != s.heap[b].sequence)
  }

  ghost predicate BatchInOrder(s: State) {
    && (s.calling ==> 0 < s.now && s.next <= |s.batch|)
    && (!s.calling ==> s.batch == [])
    && Ascending(s.batch)
    && (forall k :: 0 <= k < |s.batch| ==> s.batch[k].when <= s.now)
  }

  /** The descriptor is armed early enough; while a batch runs, for whatever was added since. */
  ghost predicate EarlyEnough(s: State) {
    s.timers != {} ==>
      Covers(s.fd, First(s.timers).when) || (s.calling && s.now <= First(s.timers).when)
  }

  /** When a timer that has run in `r` may run again, given where the timer is now. */
  ghost predicate Waits(s: State, a: Addr, r: Run)
    requires a in s.heap
  {
    && r.repeat == s.heap[a].repeat && r.interval == s.heap[a].interval
    && a !in s.inflight
    && (InTimers(s, a) ==> r.repeat && r.now + r.interval <= s.heap[a].expiration)
    && (forall k :: 0 <= k < |s.batch| && s.batch[k].timer == a ==>
          r.now <= s.now && (s.next <= k ==> r.repeat && r.now + r.interval <= s.batch[k].when))
  }

  ghost predicate Spaced(log: seq<Run>) {
    forall i, j :: 0 <= i < j < |log| && log[i].sequence == log[j].sequence ==>
      log[i].repeat && log[i].now + log[i].interval <= log[j].now
  }

  ghost predicate LogInv(s: State) {
    && (forall r :: r in s.log ==> r.when <= r.now && 1 <= r.sequence <= s.created)
    && (forall a, r :: a in s.heap && r in s.log && s.heap[a].sequence == r.sequence ==> Waits(s, a, r))
    && Spaced(s.log)
  }

  /** Where the timers are: ownership, the two indexes, unique sequences and the batch. */
  ghost predicate Placed(s: State) {
    && Ownership(s)
    && IndexesAgree(s)
    && SequencesUnique(s)
    && BatchInOrder(s)
  }

  ghost predicate Inv(s: State) {
    && Placed(s)
    && EarlyEnough(s)
    && LogInv(s)
  }

  /** The two `size()` calls agree: `e -> id` is a bijection between the two sets. */
  lemma {:induction false} SameSize(heap: map<Addr, Timer>, timers: set<Entry>, active: set<TimerId>)
    requires forall e :: e in timers ==>
               e.timer in heap && heap[e.timer].expiration == e.when && IdOf(heap, e.timer) in active
    requires forall id :: id in active ==>
               id.timer in heap && Entry(heap[id.timer].expiration, id.timer) in timers && IdOf(heap, id.timer) == id
    ensures |timers| == |active|
  {
    if timers == {} {
      assert active == {};
    } else {
      var e :| e in timers;
      SameSize(heap, timers - {e}, active - {IdOf(heap, e.timer)});
    }
  }

  lemma SizesAgree(s: State)
    requires Placed(s)
    ensures |s.timers| == |s.active|
  {
    SameSize(s.heap, s.timers, s.active);
  }

  // ---------------------------------------------------------------- each step keeps the invariant

  lemma CreatePlaces(s: State, e: Event)
    requires Placed(s) && Enabled(s, e) && e.Create?
    ensures Next(s, e).Ok? && Placed(Next(s, e).state)
  {
    var t := Next(s, e).state;
    assert forall a :: InBatch(t, a) == InBatch(s, a);
    assert !InBatch(s, e.addr);
    assert forall a :: InTimers(t, a) == InTimers(s, a);
  }

  lemma CreateLogs(s: State, e: Event)
    requires Inv(s) && Enabled(s, e) && e.Create?
    ensures Next(s, e).Ok? && LogInv(Next(s, e).state)
  {
    var t := Next(s, e).state;
    forall a, r | a in t.heap && r in t.log && t.heap[a].sequence == r.sequence
      ensures Waits(t, a, r)
    {
      assert a in s.heap && Waits(s, a, r);
    }
  }

  lemma InsertPlaces(s: State, e: Event)
    requires Placed(s) && Enabled(s, e) && e.Insert?
    ensures Next(s, e).Ok? && Placed(Next(s, e).state)
  {
    SizesAgree(s);
    var t := Next(s, e).state;
    assert forall a :: InBatch(t, a) == InBatch(s, a);
    assert forall a :: InTimers(t, a) <==> InTimers(s, a) || a == e.addr;
  }

  lemma InsertArms(s: State, e: Event)
    requires EarlyEnough(s) && Enabled(s, e) && e.Insert? && Next(s, e).Ok?
    ensures EarlyEnough(Next(s, e).state)
  {
    hide HowMuchTimeFromNow;
    var t := Next(s, e).state;
    var entry := Entry(s.heap[e.addr].expiration, e.addr);
    if s.timers != {} && First(s.timers).when <= entry.when {
      assert First(t.timers).when == First(s.timers).when by {
        assert First(t.timers) in s.timers + {entry};
        assert First(s.timers) in t.timers;
      }
    } else {
      assert First(t.timers) == entry by {
        assert First(t.timers) in s.timers + {entry};
      }
    }
  }

  lemma InsertLogs(s: State, e: Event)
    requires Inv(s) && Enabled(s, e) && e.Insert? && Next(s, e).Ok?
    ensures LogInv(Next(s, e).state)
  {
    var t := Next(s, e).state;
    forall a, r | a in t.heap && r in t.log && t.heap[a].sequence == r.sequence
      ensures Waits(t, a, r)
    {
      assert Waits(s, a, r);
    }
  }

  lemma CancelPlaces(s: State, e: Event)
    requires Placed(s) && Enabled(s, e) && e.Cancel?
    ensures Next(s, e).Ok? && Ownership(Next(s, e).state)
    ensures SequencesUnique(Next(s, e).state) && BatchInOrder(Next(s, e).state)
  {
    SizesAgree(s);
    var t := Next(s, e).state;
    assert forall a :: InBatch(t, a) == InBatch(s, a);
    assert forall a :: a in t.heap ==> InTimers(t, a) == InTimers(s, a);
  }

  lemma CancelIndexes(s: State, e: Event)
    requires Placed(s) && Enabled(s, e) && e.Cancel?
    ensures Next(s, e).Ok? && IndexesAgree(Next(s, e).state)
  {
    SizesAgree(s);
    hide SequencesUnique, BatchInOrder, InBatch;
    var t := Next(s, e).state;
    assert forall a :: a in t.heap ==> InTimers(t, a) == InTimers(s, a);
  }

  lemma CancelRest(s: State, e: Event)
    requires Inv(s) && Enabled(s, e) && e.Cancel? && Next(s, e).Ok?
    ensures EarlyEnough(Next(s, e).state) && LogInv(Next(s, e).state)
  {
    var t := Next(s, e).state;
    assert t.timers <= s.timers;
    forall a, r | a in t.heap && r in t.log && t.heap[a].sequence == r.sequence
      ensures Waits(t, a, r)
    {
      assert Waits(s, a, r);
    }
  }

  /** After `getExpired`, the batch has the timers due and the index the others. */
  lemma ExpireMoves(s: State, e: Event)
    requires Placed(s) && Enabled(s, e) && e.Expire?
    ensures Next(s, e).Ok?
    ensures var t := Next(s, e).state;
            && (forall a :: InBatch(t, a) <==> InTimers(s, a) && s.heap[a].expiration <= e.now)
            && (forall a :: InTimers(t, a) <==> InTimers(s, a) && e.now < s.heap[a].expiration)
  {
    SizesAgree(s);
    var t := Next(s, e).state;
    forall a | InTimers(s, a) && s.heap[a].expiration <= e.now
      ensures InBatch(t, a)
    {
      assert Entry(s.heap[a].expiration, a) in t.batch;
    }
    forall a | InBatch(t, a)
      ensures InTimers(s, a) && s.heap[a].expiration <= e.now
    {
      var k :| 0 <= k < |t.batch| && t.batch[k].timer == a;
      assert t.batch[k] in Expired(s.timers, e.now);
    }
  }

  lemma BatchIsExpired(s: State, e: Event)
    requires Placed(s) && Enabled(s, e) && e.Expire? && Next(s, e).Ok?
    ensures var t := Next(s, e).state; forall k :: 0 <= k < |t.batch| ==> t.batch[k] in Expired(s.timers, e.now)
  {
    var t := Next(s, e).state;
    forall k | 0 <= k < |t.batch|
      ensures t.batch[k] in Expired(s.timers, e.now)
    {
      assert t.batch[k] in t.batch;
    }
  }

  lemma ExpireOwns(s: State, e: Event)
    requires Placed(s) && Enabled(s, e) && e.Expire?
    ensures Next(s, e).Ok? && Ownership(Next(s, e).state)
  {
    hide First, IndexesAgree, IsFirst, SequencesUnique, InOrder, Ascending;
    ExpireMoves(s, e);
    BatchIsExpired(s, e);
  }

  lemma ExpirePlaces(s: State, e: Event)
    requires Placed(s) && Enabled(s, e) && e.Expire?
    ensures Next(s, e).Ok? && Ownership(Next(s, e).state) && BatchInOrder(Next(s, e).state)
    ensures SequencesUnique(Next(s, e).state)
  {
    hide First, IndexesAgree, IsFirst, Ownership;
    ExpireOwns(s, e);
    BatchIsExpired(s, e);
  }

  lemma ExpireIndexes(s: State, e: Event)
    requires Placed(s) && Enabled(s, e) && e.Expire?
    ensures Next(s, e).Ok? && IndexesAgree(Next(s, e).state)
  {
    ExpireMoves(s, e);
    var t := Next(s, e).state;
    var expired := Expired(s.timers, e.now);
    forall x | x in t.timers
      ensures x.timer in t.heap && IdOf(t.heap, x.timer) in t.active
    {
      forall y | y in expired
        ensures IdOf(s.heap, y.timer) != IdOf(s.heap, x.timer)
      {
      }
    }
    forall id | id in t.active
      ensures InTimers(t, id.timer) && IdOf(t.heap, id.timer) == id
    {
      var x := Entry(s.heap[id.timer].expiration, id.timer);
      assert x in s.timers;
      assert x !in expired;
    }
  }

  lemma ExpireRest(s: State, e: Event)
    requires Inv(s) && Enabled(s, e) && e.Expire? && Next(s, e).Ok?
    ensures EarlyEnough(Next(s, e).state) && LogInv(Next(s, e).state)
  {
    ExpireMoves(s, e);
    var t := Next(s, e).state;
    forall a, r | a in t.heap && r in t.log && t.heap[a].sequence == r.sequence
      ensures Waits(t, a, r)
    {
      assert Waits(s, a, r);
      forall k | 0 <= k < |t.batch| && t.batch[k].timer == a
        ensures r.now <= t.now && r.repeat && r.now + r.interval <= t.batch[k].when
      {
        assert t.batch[k] in t.batch;
        assert t.batch[k] in Expired(s.timers, e.now);
      }
    }
  }

  lemma BatchDistinct(s: State, i: int, j: int)
    requires Placed(s) && 0 <= i < |s.batch| && 0 <= j < |s.batch| && s.batch[i].timer == s.batch[j].timer
    ensures i == j
  {
  }

  lemma RunNextPlaces(s: State, e: Event)
    requires Placed(s) && Enabled(s, e) && e.RunNext?
    ensures Next(s, e).Ok? && Placed(Next(s, e).state)
  {
    var t := Next(s, e).state;
    assert forall a :: InBatch(t, a) == InBatch(s, a);
    assert forall a :: InTimers(t, a) == InTimers(s, a);
  }

  lemma RunNextLogs(s: State, e: Event)
    requires Inv(s) && Enabled(s, e) && e.RunNext? && Next(s, e).Ok?
    ensures EarlyEnough(Next(s, e).state) && LogInv(Next(s, e).state)
  {
    hide IndexesAgree, IsFirst;
    var t := Next(s, e).state;
    var b := s.batch[s.next].timer;
    forall a, r | a in t.heap && r in t.log && t.heap[a].sequence == r.sequence
      ensures Waits(t, a, r)
    {
      if r in s.log {
        assert Waits(s, a, r);
      } else {
        assert a == b;
        forall k | 0 <= k < |t.batch| && t.batch[k].timer == a
          ensures k == s.next
        {
          BatchDistinct(s, k, s.next);
        }
      }
    }
    forall i, j | 0 <= i < j < |t.log| && t.log[i].sequence == t.log[j].sequence
      ensures t.log[i].repeat && t.log[i].now + t.log[i].interval <= t.log[j].now
    {
      if j == |s.log| {
        assert t.log[i] == s.log[i] && s.log[i] in s.log;
        assert Waits(s, b, s.log[i]);
      }
    }
  }

  lemma BatchIsLive(s: State)
    requires Placed(s)
    ensures forall x :: x in s.batch ==> x.timer in s.heap && s.heap[x.timer].expiration == x.when
    ensures forall x :: x in s.batch ==> InBatch(s, x.timer) && !InTimers(s, x.timer) && x.timer !in s.inflight
  {
    forall x | x in s.batch
      ensures x.timer in s.heap && s.heap[x.timer].expiration == x.when
      ensures InBatch(s, x.timer) && !InTimers(s, x.timer) && x.timer !in s.inflight
    {
      var k :| 0 <= k < |s.batch| && s.batch[k] == x;
    }
  }

  /** The timers of the batch are in neither set, so `reset` can put them back. */
  lemma ResetSucceeds(s: State)
    requires Placed(s)
    ensures !ResetFails(s)
  {
    hide SequencesUnique, BatchInOrder;
    BatchIsLive(s);
    SizesAgree(s);
    forall a | a in Survivors(s)
      ensures Entry(s.now + s.heap[a].interval, a) !in s.timers && IdOf(s.heap, a) !in s.active
    {
      assert InBatch(s, a) && !InTimers(s, a);
    }
    forall i, j | 0 <= i < j < |s.batch|
      ensures s.batch[i].timer != s.batch[j].timer
    {
      if s.batch[i].timer == s.batch[j].timer { BatchDistinct(s, i, j); }
    }
  }

  /** What `reset` does to each timer: restart and reinsert, delete, or leave alone. */
  lemma FinishMoves(s: State, e: Event)
    requires Placed(s) && Enabled(s, e) && e.Finish?
    ensures Next(s, e).Ok?
    ensures forall x :: x in s.batch ==> x.timer in s.heap
    ensures var t := Next(s, e).state; var kept := Survivors(s);
            && (forall a :: !InBatch(t, a))
            && (forall a :: a in kept ==> a in t.heap && a in s.heap && InBatch(s, a) && a !in s.inflight
                                          && !InTimers(s, a) && InTimers(t, a) && t.heap[a] == Restarted(s.heap[a], s.now))
            && (forall a :: a in t.heap && a !in kept ==>
                  a in s.heap && !InBatch(s, a) && t.heap[a] == s.heap[a] && InTimers(t, a) == InTimers(s, a))
            && (forall a :: a in s.heap && !InBatch(s, a) ==> a in t.heap && a !in kept)
  {
    hide First, IsFirst, IndexesAgree, SequencesUnique, ResetFails;
    ResetSucceeds(s);
    BatchIsLive(s);
  }

  lemma FinishPlaces(s: State, e: Event)
    requires Placed(s) && Enabled(s, e) && e.Finish?
    ensures Next(s, e).Ok? && Ownership(Next(s, e).state)
    ensures SequencesUnique(Next(s, e).state) && BatchInOrder(Next(s, e).state)
  {
    hide ResetFails, IndexesAgree, First, HowMuchTimeFromNow;
    FinishMoves(s, e);
    var t := Next(s, e).state;
    var kept := Survivors(s);
    forall a | a in t.heap
      ensures a in s.heap && t.heap[a].sequence == s.heap[a].sequence
    {
      assert a in kept || a !in kept;
    }
  }

  lemma FinishIndexes(s: State, e: Event)
    requires Placed(s) && Enabled(s, e) && e.Finish?
    ensures Next(s, e).Ok? && IndexesAgree(Next(s, e).state)
  {
    hide ResetFails, SequencesUnique, First, HowMuchTimeFromNow;
    FinishMoves(s, e);
    var t := Next(s, e).state;
    var kept := Survivors(s);
    forall x | x in t.timers
      ensures x.timer in t.heap && IdOf(t.heap, x.timer) in t.active
    {
      if x.timer in kept {
        assert IdOf(t.heap, x.timer) == IdOf(s.heap, x.timer);
      } else {
        assert x in s.timers;
      }
    }
    forall id | id in t.active
      ensures InTimers(t, id.timer) && IdOf(t.heap, id.timer) == id
    {
      if id !in s.active {
        assert id.timer in kept;
      } else {
        assert InTimers(s, id.timer) && id.timer !in kept;
      }
    }
  }

  lemma FinishLogs(s: State, e: Event)
    requires Inv(s) && Enabled(s, e) && e.Finish?
    ensures Next(s, e).Ok? && LogInv(Next(s, e).state)
  {
    hide ResetFails, IndexesAgree, SequencesUnique, First, HowMuchTimeFromNow;
    FinishMoves(s, e);
    var t := Next(s, e).state;
    forall a, r | a in t.heap && r in t.log && t.heap[a].sequence == r.sequence
      ensures Waits(t, a, r)
    {
      assert a in Survivors(s) || a !in Survivors(s);
      assert Waits(s, a, r);
      if a in Survivors(s) {
        var k :| 0 <= k < |s.batch| && s.batch[k].timer == a;
      }
    }
  }

  lemma FinishArms(s: State, e: Event)
    requires Inv(s) && Enabled(s, e) && e.Finish? && Next(s, e).Ok?
    ensures EarlyEnough(Next(s, e).state)
  {
    hide ResetFails;
    BatchIsLive(s);
    var t := Next(s, e).state;
    if t.timers != {} && First(t.timers).when <= 0 {
      assert First(t.timers) in s.timers;
      assert First(s.timers) in t.timers;
      assert First(s.timers) == First(t.timers);
    }
  }

  lemma StepKeeps(s: State, e: Event)
    requires Inv(s) && Enabled(s, e)
    ensures Next(s, e).Ok? && Inv(Next(s, e).state)
  {
    match e
    case Create(_, _, _, _) => CreatePlaces(s, e); CreateLogs(s, e);
    case Insert(_, _) => InsertPlaces(s, e); InsertArms(s, e); InsertLogs(s, e);
    case Cancel(_) => CancelPlaces(s, e); CancelIndexes(s, e); CancelRest(s, e);
    case Expire(_, _) => ExpirePlaces(s, e); ExpireIndexes(s, e); ExpireRest(s, e);
    case RunNext => RunNextPlaces(s, e); RunNextLogs(s, e);
    case Finish(_) => FinishPlaces(s, e); FinishIndexes(s, e); FinishArms(s, e); FinishLogs(s, e);
  }

  /** No run fails an assert or touches a freed timer, and every run keeps the invariant. */
  lemma {:induction false} RunKeeps(s: State, es: seq<Event>)
    requires Inv(s) && Legal(s, es)
    ensures Play(s, es).Ok? && Inv(Play(s, es).state)
    decreases |es|
  {
    if es != [] {
      StepKeeps(s, es[0]);
      RunKeeps(Next(s, es[0]).state, es[1..]);
    }
  }

  // ---------------------------------------------------------------- what the protocol promises

  lemma StartIsValid()
    ensures Inv(INIT)
  {
    assert forall a :: !InBatch(INIT, a);
  }

  /** The descriptor is readable at a reading of the clock that it counts by. */
  predicate Readable(fd: TimerFd, clock: int) {
    fd.Armed? && fd.deadline <= clock
  }

  /**
    No lost timer: outside `handleRead`, at any clock reading at or after both the earliest
    expiration and 100 microseconds past the last arming, the descriptor is readable.
   */
  lemma NoLostTimer(es: seq<Event>, clock: int)
    requires Legal(INIT, es)
    ensures Play(INIT, es).Ok?
    ensures var s := Play(INIT, es).state;
            !s.calling && s.timers != {} ==>
              s.fd.Armed? && (First(s.timers).when <= clock && s.fd.at + 100 <= clock ==> Readable(s.fd, clock))
  {
    StartIsValid();
    RunKeeps(INIT, es);
  }

  function One(b: bool): nat {
    if b then 1 else 0
  }

  /**
    Ownership: in every run a live timer is in exactly one place (bound into a queued functor, in the
    queue, or in the expired batch) and a freed one in none; both indexes hold the same timers.
   */
  lemma EveryTimerInOnePlace(es: seq<Event>, a: Addr)
    requires Legal(INIT, es)
    ensures Play(INIT, es).Ok?
    ensures var s := Play(INIT, es).state;
            && One(a in s.inflight) + One(exists e :: e in s.timers && e.timer == a) + One(InBatch(s, a)) == One(a in s.heap)
            && (forall e :: e in s.timers ==> e.timer in s.heap && e.when == s.heap[e.timer].expiration)
            && (forall e :: e in s.timers ==> IdOf(s.heap, e.timer) in s.active)
            && (forall id :: id in s.active ==> InTimers(s, id.timer) && IdOf(s.heap, id.timer) == id)
            && |s.timers| == |s.active|
  {
    StartIsValid();
    RunKeeps(INIT, es);
    var s := Play(INIT, es).state;
    SizesAgree(s);
    assert (exists e :: e in s.timers && e.timer == a) <==> InTimers(s, a);
  }

  /** `handleRead` takes exactly the timers due, in order of expiration, and a descriptor that was read is disarmed. */
  lemma ExpireTakesTheDue(s: State, now: int, readable: bool)
    requires Inv(s) && Enabled(s, Expire(now, readable))
    ensures Next(s, Expire(now, readable)).Ok?
    ensures var t := Next(s, Expire(now, readable)).state;
            && Ascending(t.batch)
            && (forall e :: e in t.batch <==> e in s.timers && e.when <= now)
            && (forall e :: e in t.timers <==> e in s.timers && now < e.when)
            && |t.batch| + |t.timers| == |s.timers|
            && t.calling && t.now == now && t.next == 0 && t.canceling == {} && t.heap == s.heap && t.log == s.log
            && t.fd == (if readable then Disarmed else s.fd)
  {
    hide Ownership, IndexesAgree, SequencesUnique, BatchInOrder, EarlyEnough, LogInv;
    ExpirePlaces(s, Expire(now, readable));
    var expired := Expired(s.timers, now);
    assert s.timers == expired + (s.timers - expired);
  }

  /** No callback runs early, and the runs of one timer are its interval apart; a one-shot timer runs once. */
  lemma RunsAreTimely(es: seq<Event>)
    requires Legal(INIT, es)
    ensures Play(INIT, es).Ok?
    ensures var log := Play(INIT, es).state.log;
            && (forall r :: r in log ==> r.when <= r.now)
            && (forall i, j :: 0 <= i < j < |log| && log[i].sequence == log[j].sequence ==>
                  log[i].repeat && log[i].now + log[i].interval <= log[j].now)
  {
    StartIsValid();
    RunKeeps(INIT, es);
  }

  /**
    `reset` decides each timer of the batch by its own flag and its own cancellation: back in the
    queue one interval after the batch, or freed.  No other timer is touched.
   */
  lemma FinishDecides(s: State, clock: int, a: Addr)
    requires Inv(s) && Enabled(s, Finish(clock)) && a in s.heap
    ensures Next(s, Finish(clock)).Ok?
    ensures var t := Next(s, Finish(clock)).state;
            if !InBatch(s, a) then
              a in t.heap && t.heap[a] == s.heap[a] && InTimers(t, a) == InTimers(s, a)
            else if s.heap[a].repeat && IdOf(s.heap, a) !in s.canceling then
              InTimers(t, a) && t.heap[a] == s.heap[a].(expiration := s.now + s.heap[a].interval)
            else
              a !in t.heap
  {
    hide IndexesAgree, SequencesUnique, EarlyEnough, LogInv;
    FinishMoves(s, Finish(clock));
    BatchIsLive(s);
    if InBatch(s, a) {
      var k :| 0 <= k < |s.batch| && s.batch[k].timer == a;
      assert s.batch[k] in s.batch;
    }
  }

  function ArmedFor(when: int, clock: int): TimerFd {
    Armed(clock, if when - clock < 100 then clock + 100 else when)
  }

  /** `timerfd_settime` is called exactly for a timer earlier than all in the queue, never for less than 100 microseconds. */
  lemma InsertArmsExactly(s: State, addr: Addr, clock: int)
    requires Inv(s) && Enabled(s, Insert(addr, clock))
    ensures addr in s.heap && Next(s, Insert(addr, clock)).Ok?
    ensures Next(s, Insert(addr, clock)).state.fd
            == if forall x :: x in s.timers ==> s.heap[addr].expiration < x.when then ArmedFor(s.heap[addr].expiration, clock) else s.fd
  {
    hide HowMuchTimeFromNow, LogInv, EarlyEnough, SequencesUnique, BatchInOrder;
    InsertIsFresh(s, addr);
    if s.timers != {} { assert IsFirst(s.timers, First(s.timers)); }
  }

  /** The timerfd was armed at `clock` for the earliest timer, unless there is none with a valid expiration. */
  predicate ArmedAt(s: State, clock: int) {
    s.timers != {} && First(s.timers).when > 0 ==> s.fd == ArmedFor(First(s.timers).when, clock)
  }

  /** And after a batch, for the earliest timer left. */
  lemma FinishArmsExactly(s: State, clock: int)
    requires Inv(s) && Enabled(s, Finish(clock))
    ensures Next(s, Finish(clock)).Ok? && ArmedAt(Next(s, Finish(clock)).state, clock)
  {
    hide HowMuchTimeFromNow, Ownership, IndexesAgree, SequencesUnique, BatchInOrder, LogInv, EarlyEnough, ResetFails, First;
    StepKeeps(s, Finish(clock));
  }

  // ---------------------------------------------------------------- cancellation

  /** The timer was created and has been freed. */
  ghost predicate Gone(s: State, sequence: nat) {
    1 <= sequence <= s.created && forall a :: a in s.heap ==> s.heap[a].sequence != sequence
  }

  /** The timer is in the batch being executed and `cancel` was called for it since the batch began. */
  ghost predicate Doomed(s: State, id: TimerId, k: nat) {
    && s.calling && id in s.canceling
    && k < |s.batch| && s.batch[k].timer == id.timer
    && id.timer in s.heap && IdOf(s.heap, id.timer) == id
  }

  function RunsOf(log: seq<Run>, sequence: nat): nat {
    if log == [] then 0
    else RunsOf(log[..|log| - 1], sequence) + if log[|log| - 1].sequence == sequence then 1 else 0
  }

  lemma GoneStep(s: State, e: Event, sequence: nat)
    requires Inv(s) && Enabled(s, e) && Gone(s, sequence)
    ensures Next(s, e).Ok? && Gone(Next(s, e).state, sequence)
    ensures RunsOf(Next(s, e).state.log, sequence) == RunsOf(s.log, sequence)
  {
    StepKeeps(s, e);
    var t := Next(s, e).state;
    if e.RunNext? {
      assert t.log[..|t.log| - 1] == s.log;
    } else if e.Finish? {
      FinishMoves(s, e);
      forall a | a in t.heap
        ensures t.heap[a].sequence != sequence
      {
        assert a in Survivors(s) || a !in Survivors(s);
      }
    }
  }

  /** A freed timer never comes back and never runs, whoever reuses its address. */
  lemma {:induction false} GoneForever(s: State, es: seq<Event>, sequence: nat)
    requires Inv(s) && Legal(s, es) && Gone(s, sequence)
    ensures Play(s, es).Ok? && Gone(Play(s, es).state, sequence)
    ensures RunsOf(Play(s, es).state.log, sequence) == RunsOf(s.log, sequence)
    decreases |es|
  {
    if es != [] {
      StepKeeps(s, es[0]);
      GoneStep(s, es[0], sequence);
      GoneForever(Next(s, es[0]).state, es[1..], sequence);
    }
  }

  /** After `cancelInLoop` of a timer in the queue, the timer never runs again. */
  lemma CancelledNeverRuns(s: State, id: TimerId, es: seq<Event>)
    requires Inv(s) && id in s.active && Legal(s, [Cancel(id)] + es)
    ensures Play(s, [Cancel(id)] + es).Ok?
    ensures Gone(Play(s, [Cancel(id)] + es).state, id.sequence)
    ensures RunsOf(Play(s, [Cancel(id)] + es).state.log, id.sequence) == RunsOf(s.log, id.sequence)
  {
    StepKeeps(s, Cancel(id));
    assert ([Cancel(id)] + es)[1..] == es;
    GoneForever(Next(s, Cancel(id)).state, es, id.sequence);
  }

  lemma DoomedStep(s: State, e: Event, id: TimerId, k: nat)
    requires Inv(s) && Enabled(s, e) && Doomed(s, id, k)
    ensures Next(s, e).Ok?
    ensures Doomed(Next(s, e).state, id, k) || (e.Finish? && Gone(Next(s, e).state, id.sequence))
    ensures !e.Finish? ==> Doomed(Next(s, e).state, id, k) && s.next <= Next(s, e).state.next
    ensures RunsOf(Next(s, e).state.log, id.sequence)
            == RunsOf(s.log, id.sequence) + if e.RunNext? && s.next == k then 1 else 0
    ensures e.RunNext? ==> Next(s, e).state.next == s.next + 1
  {
    StepKeeps(s, e);
    if e.RunNext? {
      assert Next(s, e).state.log[..|s.log|] == s.log;
      if s.batch[s.next].timer == id.timer { BatchDistinct(s, s.next, k); }
    } else if e.Finish? {
      FinishFreesDoomed(s, e, id, k);
    } else {
      assert InBatch(s, id.timer);
    }
  }

  lemma FinishFreesDoomed(s: State, e: Event, id: TimerId, k: nat)
    requires Inv(s) && Enabled(s, e) && e.Finish? && Doomed(s, id, k)
    ensures Next(s, e).Ok? && Gone(Next(s, e).state, id.sequence) && Next(s, e).state.log == s.log
  {
    hide LogInv, EarlyEnough, First, HowMuchTimeFromNow, ResetFails;
    FinishMoves(s, e);
    var t := Next(s, e).state;
    forall a | a in t.heap
      ensures t.heap[a].sequence != id.sequence
    {
      assert a in Survivors(s) || a !in Survivors(s);
      assert InBatch(s, id.timer) && id.timer !in Survivors(s);
    }
  }

  lemma {:induction false} DoomedRunsOnce(s: State, es: seq<Event>, id: TimerId, k: nat)
    requires Inv(s) && Legal(s, es) && Doomed(s, id, k)
    ensures Play(s, es).Ok?
    ensures Doomed(Play(s, es).state, id, k) || Gone(Play(s, es).state, id.sequence)
    ensures RunsOf(Play(s, es).state.log, id.sequence)
            <= RunsOf(s.log, id.sequence) + if s.next <= k then 1 else 0
    ensures BatchEnds(es) ==>
              Gone(Play(s, es).state, id.sequence) &&
              RunsOf(Play(s, es).state.log, id.sequence) == RunsOf(s.log, id.sequence) + if s.next <= k then 1 else 0
    decreases |es|
  {
    if es != [] {
      StepKeeps(s, es[0]);
      DoomedStep(s, es[0], id, k);
      if es[0].Finish? {
        GoneForever(Next(s, es[0]).state, es[1..], id.sequence);
      } else {
        DoomedRunsOnce(Next(s, es[0]).state, es[1..], id, k);
        assert BatchEnds(es) ==> BatchEnds(es[1..]) by { LaterEnd(es); }
      }
    }
  }

  ghost predicate BatchEnds(es: seq<Event>) {
    exists i :: 0 <= i < |es| && es[i].Finish?
  }

  lemma LaterEnd(es: seq<Event>)
    requires BatchEnds(es) ==> es != [] && !es[0].Finish?
    ensures BatchEnds(es) ==> BatchEnds(es[1..])
  {
    if BatchEnds(es) {
      var i :| 0 <= i < |es| && es[i].Finish?;
      assert es[1..][i - 1] == es[i];
    }
  }

  /**
    Cancelled by a callback of its own batch (itself included), a timer still runs once in that batch
    if its turn has not come, and is freed when the batch ends: it never runs again.
   */
  lemma CancelledInItsBatch(s: State, id: TimerId, k: nat, es: seq<Event>)
    requires Inv(s) && s.calling && k < |s.batch|
    requires s.batch[k].timer == id.timer && id.timer in s.heap && IdOf(s.heap, id.timer) == id
    requires Legal(s, [Cancel(id)] + es)
    ensures Play(s, [Cancel(id)] + es).Ok?
    ensures var t := Play(s, [Cancel(id)] + es).state;
            && RunsOf(t.log, id.sequence) <= RunsOf(s.log, id.sequence) + (if s.next <= k then 1 else 0)
            && (BatchEnds(es) ==>
                  Gone(t, id.sequence) &&
                  RunsOf(t.log, id.sequence) == RunsOf(s.log, id.sequence) + if s.next <= k then 1 else 0)
  {
    StepKeeps(s, Cancel(id));
    assert ([Cancel(id)] + es)[1..] == es;
    assert InBatch(s, id.timer);
    assert id !in s.active;
    DoomedRunsOnce(Next(s, Cancel(id)).state, es, id, k);
  }

  /** A `TimerId` frees no timer but its own, whatever now lives at its address. */
  lemma StaleIdIsHarmless(s: State, id: TimerId, a: Addr)
    requires Inv(s) && a in s.heap && IdOf(s.heap, a) != id
    ensures Next(s, Cancel(id)).Ok?
    ensures var t := Next(s, Cancel(id)).state;
            && a in t.heap && t.heap[a] == s.heap[a]
            && InTimers(t, a) == InTimers(s, a) && InBatch(t, a) == InBatch(s, a)
            && (IdOf(s.heap, a) in t.canceling <==> IdOf(s.heap, a) in s.canceling)
  {
    StepKeeps(s, Cancel(id));
  }

  // ---------------------------------------------------------------- timers run as asked

  /**
    What the calls of a run ask for: the timers created, in order, the addresses whose functor has not run
    yet, and the sequences passed to `cancel`.
   */
  datatype Book = Book(made: seq<Event>, flying: set<Addr>, cancelled: set<nat>)

  const BLANK := Book([], {}, {})

  function Noted(b: Book, e: Event): Book {
    match e
    case Create(addr, _, _, _) => b.(made := b.made + [e], flying := b.flying + {addr})
    case Insert(addr, _) => b.(flying := b.flying - {addr})
    case Cancel(id) => b.(cancelled := b.cancelled + {id.sequence})
    case _ => b
  }

  function Notes(b: Book, es: seq<Event>): Book
    decreases |es|
  {
    if es == [] then b else Notes(Noted(b, es[0]), es[1..])
  }

  /** When a timer created for `when` is to run next: then, or an interval after the batch of its last run. */
  function Deadline(log: seq<Run>, sequence: nat, when: int): int
    decreases |log|
  {
    if log == [] then when
    else
      var r := log[|log| - 1];
      if r.sequence == sequence then r.now + r.interval else Deadline(log[..|log| - 1], sequence, when)
  }

  lemma OneMoreRun(log: seq<Run>, r: Run, sequence: nat, when: int)
    ensures Deadline(log + [r], sequence, when)
            == if r.sequence == sequence then r.now + r.interval else Deadline(log, sequence, when)
  {
    assert (log + [r])[..|log|] == log;
  }

  predicate HasRun(log: seq<Run>, sequence: nat) {
    exists i :: 0 <= i < |log| && log[i].sequence == sequence
  }

  lemma {:induction false} FirstDeadline(log: seq<Run>, sequence: nat, when: int)
    requires !HasRun(log, sequence)
    ensures Deadline(log, sequence, when) == when
    decreases |log|
  {
    if log != [] {
      var front := log[..|log| - 1];
      assert forall i :: 0 <= i < |front| ==> front[i] == log[i];
      FirstDeadline(front, sequence, when);
    }
  }

  /** The `Create` event of a sequence. */
  predicate Made(made: seq<Event>, sequence: nat): (known: bool)
    ensures known ==> 1 <= sequence <= |made| && made[sequence - 1].Create?
  {
    1 <= sequence <= |made| && made[sequence - 1].Create?
  }

  /** Every run was asked for: it has the flag and the interval of its timer, and the deadline due. */
  ghost predicate LogAsAsked(log: seq<Run>, made: seq<Event>) {
    forall i :: 0 <= i < |log| ==>
      var r := log[i];
      && Made(made, r.sequence) && r.repeat == made[r.sequence - 1].repeat && r.interval == made[r.sequence - 1].interval
      && r.when == Deadline(log[..i], r.sequence, made[r.sequence - 1].when)
  }

  /** When the timer is to run next. */
  ghost function Turn(s: State, made: seq<Event>, a: Addr): int
    requires a in s.heap && Made(made, s.heap[a].sequence)
  {
    Deadline(s.log, s.heap[a].sequence, made[s.heap[a].sequence - 1].when)
  }

  /** The timer has the flag and the interval asked for, and unless it is in the batch waits for its deadline. */
  ghost predicate TimerAsAsked(s: State, made: seq<Event>, a: Addr) {
    && a in s.heap && Made(made, s.heap[a].sequence)
    && s.heap[a].repeat == made[s.heap[a].sequence - 1].repeat && s.heap[a].interval == made[s.heap[a].sequence - 1].interval
    && (!InBatch(s, a) ==> s.heap[a].expiration == Turn(s, made, a))
  }

  /** In the batch it is there for its deadline, and once it has run the next one is an interval later. */
  ghost predicate EntryAsAsked(s: State, made: seq<Event>, k: nat)
    requires k < |s.batch|
  {
    var x := s.batch[k];
    TimerAsAsked(s, made, x.timer) && Turn(s, made, x.timer) == if k < s.next then s.now + s.heap[x.timer].interval else x.when
  }

  ghost predicate AsAsked(s: State, b: Book) {
    && |b.made| == s.created && (forall i :: 0 <= i < |b.made| ==> b.made[i].Create?)
    && b.flying == s.inflight && LogAsAsked(s.log, b.made)
    && (forall a :: a in s.heap ==> TimerAsAsked(s, b.made, a))
    && (forall k :: 0 <= k < |s.batch| ==> EntryAsAsked(s, b.made, k))
  }

  /** A timer to which nothing happens. */
  lemma StillAsAsked(s: State, t: State, made: seq<Event>, more: seq<Event>, a: Addr)
    requires TimerAsAsked(s, made, a) && a in t.heap && t.heap[a] == s.heap[a] && t.log == s.log && made <= more
    requires InBatch(s, a) ==> InBatch(t, a)
    ensures TimerAsAsked(t, more, a) && Turn(t, more, a) == Turn(s, made, a)
  {
    hide InBatch;
    assert more[s.heap[a].sequence - 1] == made[s.heap[a].sequence - 1];
  }

  lemma LogStillAsAsked(log: seq<Run>, made: seq<Event>, more: seq<Event>)
    requires LogAsAsked(log, made) && made <= more
    ensures LogAsAsked(log, more)
  {
    forall i | 0 <= i < |log|
      ensures Made(more, log[i].sequence) && more[log[i].sequence - 1] == made[log[i].sequence - 1]
    {
      assert Made(made, log[i].sequence);
    }
  }

  lemma NotUsedYet(s: State)
    requires LogInv(s)
    ensures !HasRun(s.log, s.created + 1)
  {
    assert forall i :: 0 <= i < |s.log| ==> s.log[i] in s.log;
  }

  /** The batch and its timers are as before. */
  lemma BatchStillAsAsked(s: State, t: State, made: seq<Event>, more: seq<Event>)
    requires forall k :: 0 <= k < |s.batch| ==> EntryAsAsked(s, made, k)
    requires t.batch == s.batch && t.next == s.next && t.now == s.now && t.log == s.log && made <= more
    requires forall x <- s.batch :: x.timer in s.heap && x.timer in t.heap && t.heap[x.timer] == s.heap[x.timer]
    ensures forall k :: 0 <= k < |t.batch| ==> EntryAsAsked(t, more, k)
  {
    hide TimerAsAsked, Turn;
    SameInBatch(s, t);
    forall k | 0 <= k < |t.batch|
      ensures EntryAsAsked(t, more, k)
    {
      assert s.batch[k] in s.batch && EntryAsAsked(s, made, k);
      StillAsAsked(s, t, made, more, s.batch[k].timer);
    }
  }

  lemma SameInBatch(s: State, t: State)
    requires t.batch == s.batch
    ensures forall a :: InBatch(t, a) <==> InBatch(s, a)
  {
  }

  lemma CreateAsAsked(s: State, e: Event, b: Book)
    requires Inv(s) && AsAsked(s, b) && Enabled(s, e) && e.Create?
    ensures AsAsked(Next(s, e).state, Noted(b, e))
  {
    hide Placed, EarlyEnough, LogInv, LogAsAsked, TimerAsAsked, InBatch, EntryAsAsked;
    var t, c := Next(s, e).state, Noted(b, e);
    BatchIsLive(s);
    SameInBatch(s, t);
    LogStillAsAsked(s.log, b.made, c.made);
    BatchStillAsAsked(s, t, b.made, c.made);
    NewAsAsked(s, e, b);
    forall a | a in t.heap
      ensures TimerAsAsked(t, c.made, a)
    {
      if a != e.addr { StillAsAsked(s, t, b.made, c.made, a); }
    }
  }

  lemma NewAsAsked(s: State, e: Event, b: Book)
    requires Inv(s) && |b.made| == s.created && Enabled(s, e) && e.Create?
    ensures TimerAsAsked(Next(s, e).state, Noted(b, e).made, e.addr)
  {
    hide Placed, EarlyEnough, LogInv;
    var c := Noted(b, e);
    assert c.made[s.created] == e;
    NotUsedYet(s);
    FirstDeadline(s.log, s.created + 1, e.when);
  }

  lemma CallAsAsked(s: State, e: Event, b: Book)
    requires Inv(s) && AsAsked(s, b) && Enabled(s, e) && (e.Insert? || e.Cancel?)
    ensures Next(s, e).Ok? && AsAsked(Next(s, e).state, Noted(b, e))
  {
    hide Inv, LogAsAsked, TimerAsAsked, InBatch, EntryAsAsked, Next;
    StepKeeps(s, e);
    var t := Next(s, e).state;
    CallChangesLittle(s, e);
    SameInBatch(s, t);
    BatchStillAsAsked(s, t, b.made, b.made);
    forall a | a in t.heap
      ensures TimerAsAsked(t, b.made, a)
    {
      StillAsAsked(s, t, b.made, b.made, a);
    }
  }

  /** A timer added to the queue or cancelled leaves the batch, the log and the other timers alone. */
  lemma CallChangesLittle(s: State, e: Event)
    requires Inv(s) && Enabled(s, e) && (e.Insert? || e.Cancel?) && Next(s, e).Ok?
    ensures var t := Next(s, e).state;
            && t.batch == s.batch && t.next == s.next && t.now == s.now && t.log == s.log && t.created == s.created
            && t.inflight == (if e.Insert? then s.inflight - {e.addr} else s.inflight)
            && (forall a :: a in t.heap ==> a in s.heap && t.heap[a] == s.heap[a])
            && (forall x <- s.batch :: x.timer in s.heap && x.timer in t.heap)
  {
    hide EarlyEnough, LogInv, SequencesUnique, BatchInOrder, First, Arm;
    BatchIsLive(s);
  }

  lemma ExpireAsAsked(s: State, e: Event, b: Book)
    requires Inv(s) && AsAsked(s, b) && Enabled(s, e) && e.Expire?
    ensures Next(s, e).Ok? && AsAsked(Next(s, e).state, b)
  {
    hide EarlyEnough, LogInv, LogAsAsked, InOrder, First;
    ExpireMoves(s, e);
    BatchIsExpired(s, e);
    var t := Next(s, e).state;
    assert forall a :: a in t.heap ==> TimerAsAsked(s, b.made, a);
    assert forall a :: !InBatch(s, a);
  }

  /** What a run changes: the next turn of its timer. */
  lemma TurnAfterRun(s: State, b: Book, a: Addr)
    requires Inv(s) && AsAsked(s, b) && Enabled(s, RunNext) && Next(s, RunNext).Ok? && a in s.heap
    ensures var t := Next(s, RunNext).state; var x := s.batch[s.next].timer;
            && TimerAsAsked(s, b.made, a) && TimerAsAsked(t, b.made, a)
            && Turn(t, b.made, a) == if a == x then s.now + s.heap[x].interval else Turn(s, b.made, a)
  {
    hide Ownership, IndexesAgree, BatchInOrder, EarlyEnough, LogInv, LogAsAsked, EntryAsAsked;
    var t := Next(s, RunNext).state;
    SameInBatch(s, t);
    assert InBatch(s, s.batch[s.next].timer);
    OneMoreRun(s.log, t.log[|s.log|], s.heap[a].sequence, b.made[s.heap[a].sequence - 1].when);
  }

  lemma RunIsLogged(s: State, b: Book)
    requires Inv(s) && AsAsked(s, b) && Enabled(s, RunNext) && Next(s, RunNext).Ok?
    ensures LogAsAsked(Next(s, RunNext).state.log, b.made)
  {
    hide Inv, LogAsAsked;
    assert EntryAsAsked(s, b.made, s.next);
    LogGrowsAsAsked(s.log, Next(s, RunNext).state.log[|s.log|], b.made);
  }

  lemma LogGrowsAsAsked(log: seq<Run>, r: Run, made: seq<Event>)
    requires LogAsAsked(log, made) && Made(made, r.sequence) && r.when == Deadline(log, r.sequence, made[r.sequence - 1].when)
    requires r.repeat == made[r.sequence - 1].repeat && r.interval == made[r.sequence - 1].interval
    ensures LogAsAsked(log + [r], made)
  {
    hide Made, Deadline;
    var more := log + [r];
    assert more[..|log|] == log;
    forall i | 0 <= i < |more|
      ensures var x := more[i];
              && Made(made, x.sequence) && made[x.sequence - 1].Create?
              && x.repeat == made[x.sequence - 1].repeat && x.interval == made[x.sequence - 1].interval
              && x.when == Deadline(more[..i], x.sequence, made[x.sequence - 1].when)
    {
      if i < |log| {
        assert more[i] == log[i] && more[..i] == log[..i];
      }
    }
  }

  lemma RunAsAsked(s: State, b: Book)
    requires Inv(s) && AsAsked(s, b) && Enabled(s, RunNext)
    ensures Next(s, RunNext).Ok? && AsAsked(Next(s, RunNext).state, b)
  {
    hide Inv, LogAsAsked, TimerAsAsked, InBatch, Turn;
    StepKeeps(s, RunNext);
    PlacedOf(s);
    RunIsLogged(s, b);
    var t := Next(s, RunNext).state;
    forall a | a in t.heap
      ensures TimerAsAsked(t, b.made, a)
    {
      TurnAfterRun(s, b, a);
    }
    forall k | 0 <= k < |t.batch|
      ensures EntryAsAsked(t, b.made, k)
    {
      assert EntryAsAsked(s, b.made, k);
      TurnAfterRun(s, b, s.batch[k].timer);
      if s.batch[k].timer == s.batch[s.next].timer { BatchDistinct(s, k, s.next); }
    }
  }

  lemma PlacedOf(s: State)
    requires Inv(s)
    ensures Placed(s) && forall k :: 0 <= k < |s.batch| ==> s.batch[k].timer in s.heap
  {
  }

  lemma FinishAsAsked(s: State, e: Event, b: Book)
    requires Inv(s) && AsAsked(s, b) && Enabled(s, e) && e.Finish?
    ensures Next(s, e).Ok? && AsAsked(Next(s, e).state, b)
  {
    hide Ownership, IndexesAgree, BatchInOrder, SequencesUnique, EarlyEnough, LogInv, LogAsAsked, ResetFails, First, Arm, Survivors;
    FinishMoves(s, e);
    var t := Next(s, e).state;
    forall a | a in t.heap
      ensures TimerAsAsked(t, b.made, a)
    {
      assert a in Survivors(s) || a !in Survivors(s);
      assert TimerAsAsked(s, b.made, a);
      if a in Survivors(s) {
        var k :| 0 <= k < |s.batch| && s.batch[k].timer == a;
        assert EntryAsAsked(s, b.made, k);
      }
    }
  }

  lemma StepAsAsked(s: State, e: Event, b: Book)
    requires Inv(s) && AsAsked(s, b) && Enabled(s, e)
    ensures Next(s, e).Ok? && AsAsked(Next(s, e).state, Noted(b, e))
  {
    hide Inv, AsAsked, Next;
    StepKeeps(s, e);
    match e
    case Create(_, _, _, _) => CreateAsAsked(s, e, b);
    case Insert(_, _) => CallAsAsked(s, e, b);
    case Cancel(_) => CallAsAsked(s, e, b);
    case Expire(_, _) => ExpireAsAsked(s, e, b);
    case RunNext => RunAsAsked(s, b);
    case Finish(_) => FinishAsAsked(s, e, b);
  }

  lemma {:induction false} RunsAsAsked(s: State, es: seq<Event>, b: Book)
    requires Inv(s) && AsAsked(s, b) && Legal(s, es)
    ensures Play(s, es).Ok? && Inv(Play(s, es).state) && AsAsked(Play(s, es).state, Notes(b, es))
    decreases |es|
  {
    hide Inv, AsAsked, Next, Enabled, Noted;
    if es != [] {
      StepKeeps(s, es[0]);
      StepAsAsked(s, es[0], b);
      RunsAsAsked(Next(s, es[0]).state, es[1..], Noted(b, es[0]));
    }
  }

  /**
    In every run a timer runs when its creator asked, read off the calls: its first run has the deadline
    `when`, each further one an interval after the batch of the run before; never early, and with the flag
    and the interval asked for.  And whatever its place, a timer that is not in the middle of its batch
    has that deadline.
   */
  lemma TimersRunAsAsked(es: seq<Event>)
    requires Legal(INIT, es)
    ensures Play(INIT, es).Ok?
    ensures var s := Play(INIT, es).state; var b := Notes(BLANK, es);
            && AsAsked(s, b) && LogAsAsked(s.log, b.made) && FirstRuns(s.log, b.made)
            && (forall r :: r in s.log ==> r.when <= r.now)
  {
    hide Inv, AsAsked, LogAsAsked, Legal, Play, Notes, FirstRuns;
    StartIsValid();
    StartAsAsked();
    RunsAsAsked(INIT, es, BLANK);
    RunsAreTimely(es);
    BookIsUpToDate(Play(INIT, es).state, Notes(BLANK, es));
    FirstRunsAsAsked(Play(INIT, es).state.log, Notes(BLANK, es).made);
  }

  /** The first run of a timer has the deadline that its creator gave. */
  ghost predicate FirstRuns(log: seq<Run>, made: seq<Event>) {
    forall i :: 0 <= i < |log| && !HasRun(log[..i], log[i].sequence) ==>
      Made(made, log[i].sequence) && log[i].when == made[log[i].sequence - 1].when
  }

  lemma FirstRunsAsAsked(log: seq<Run>, made: seq<Event>)
    requires LogAsAsked(log, made)
    ensures FirstRuns(log, made)
  {
    forall i | 0 <= i < |log| && !HasRun(log[..i], log[i].sequence)
      ensures Made(made, log[i].sequence) && log[i].when == made[log[i].sequence - 1].when
    {
      FirstDeadline(log[..i], log[i].sequence, made[log[i].sequence - 1].when);
    }
  }

  predicate Lives(s: State, sequence: nat) {
    exists a :: a in s.heap && s.heap[a].sequence == sequence
  }

  /** Why a timer has been freed: somebody cancelled it, or it was to run once and has run. */
  ghost predicate NoneDropped(s: State, b: Book) {
    && (forall q: nat :: 1 <= q <= s.created ==>
          Lives(s, q) || q in b.cancelled || (HasRun(s.log, q) && q <= |b.made| && b.made[q - 1].Create? && !b.made[q - 1].repeat))
    && (forall id <- s.canceling :: id.sequence in b.cancelled)
    && (forall k :: 0 <= k < |s.batch| && k < s.next ==>
          s.batch[k].timer in s.heap && HasRun(s.log, s.heap[s.batch[k].timer].sequence))
  }

  lemma CreateDropsNone(s: State, e: Event, b: Book)
    requires Placed(s) && AsAsked(s, b) && NoneDropped(s, b) && Enabled(s, e) && e.Create?
    ensures NoneDropped(Next(s, e).state, Noted(b, e))
  {
    hide Placed, AsAsked, HasRun;
    var t, c := Next(s, e).state, Noted(b, e);
    assert |b.made| == s.created by { BookIsUpToDate(s, b); }
    assert t.heap[e.addr].sequence == s.created + 1;
    forall q: nat | 1 <= q <= t.created
      ensures Lives(t, q) || q in c.cancelled || (HasRun(t.log, q) && q <= |c.made| && c.made[q - 1].Create? && !c.made[q - 1].repeat)
    {
      if q <= s.created && Lives(s, q) {
        var a :| a in s.heap && s.heap[a].sequence == q;
        assert t.heap[a].sequence == q;
      }
    }
  }

  lemma BookIsUpToDate(s: State, b: Book)
    requires AsAsked(s, b)
    ensures |b.made| == s.created && LogAsAsked(s.log, b.made) && forall i :: 0 <= i < |b.made| ==> b.made[i].Create?
  {
  }

  lemma CancelDropsNone(s: State, e: Event, b: Book)
    requires Placed(s) && NoneDropped(s, b) && Enabled(s, e) && e.Cancel? && Next(s, e).Ok?
    ensures NoneDropped(Next(s, e).state, Noted(b, e))
  {
    hide SequencesUnique, BatchInOrder, HasRun;
    BatchIsLive(s);
    var t := Next(s, e).state;
    assert forall k :: 0 <= k < |s.batch| ==> s.batch[k] in s.batch;
    forall q: nat | Lives(s, q) && q != e.id.sequence
      ensures Lives(t, q)
    {
      var a :| a in s.heap && s.heap[a].sequence == q;
      assert a in t.heap;
    }
  }

  lemma RunDropsNone(s: State, b: Book)
    requires Placed(s) && NoneDropped(s, b) && Enabled(s, RunNext) && Next(s, RunNext).Ok?
    ensures NoneDropped(Next(s, RunNext).state, b)
  {
    hide Placed;
    var t := Next(s, RunNext).state;
    assert t.log[|s.log|].sequence == s.heap[s.batch[s.next].timer].sequence;
    forall q: nat | HasRun(s.log, q)
      ensures HasRun(t.log, q)
    {
      var i :| 0 <= i < |s.log| && s.log[i].sequence == q;
      assert t.log[i] == s.log[i];
    }
    assert forall q: nat :: Lives(t, q) == Lives(s, q);
  }

  lemma FinishDropsNone(s: State, e: Event, b: Book)
    requires Inv(s) && AsAsked(s, b) && NoneDropped(s, b) && Enabled(s, e) && e.Finish?
    ensures Next(s, e).Ok? && NoneDropped(Next(s, e).state, b)
  {
    hide ResetFails, HasRun, Inv, AsAsked, Next, Lives;
    StepKeeps(s, e);
    FinishLeavesFlags(s, e);
    BookIsUpToDate(s, b);
    var t := Next(s, e).state;
    forall q: nat | 1 <= q <= t.created && Lives(s, q)
      ensures Lives(t, q) || q in b.cancelled || (HasRun(t.log, q) && q <= |b.made| && !b.made[q - 1].repeat)
    {
      FreedForAReason(s, e, b, q);
    }
  }

  lemma FinishLeavesFlags(s: State, e: Event)
    requires Enabled(s, e) && e.Finish? && Next(s, e).Ok?
    ensures var t := Next(s, e).state;
            t.created == s.created && t.log == s.log && t.canceling == s.canceling && t.batch == []
  {
    hide ResetFails, Survivors, First, Arm, InBatch;
  }

  lemma FreedForAReason(s: State, e: Event, b: Book, q: nat)
    requires Inv(s) && AsAsked(s, b) && NoneDropped(s, b) && Enabled(s, e) && e.Finish? && Next(s, e).Ok?
    requires 1 <= q <= s.created && Lives(s, q)
    ensures var t := Next(s, e).state;
            Lives(t, q) || q in b.cancelled || (HasRun(s.log, q) && q <= |b.made| && b.made[q - 1].Create? && !b.made[q - 1].repeat)
  {
    hide HasRun, Inv, Turn, Next, LogAsAsked, EntryAsAsked;
    var t := Next(s, e).state;
    var a :| a in s.heap && s.heap[a].sequence == q;
    FinishDecides(s, e.clock, a);
    assert TimerAsAsked(s, b.made, a);
    if a !in t.heap {
      var k :| 0 <= k < |s.batch| && s.batch[k].timer == a;
    }
  }

  lemma StepDropsNone(s: State, e: Event, b: Book)
    requires Inv(s) && AsAsked(s, b) && NoneDropped(s, b) && Enabled(s, e)
    ensures Next(s, e).Ok? && NoneDropped(Next(s, e).state, Noted(b, e))
  {
    hide EarlyEnough, LogInv, Ownership, IndexesAgree, SequencesUnique, AsAsked, HasRun, InOrder, First;
    StepKeeps(s, e);
    match e
    case Create(_, _, _, _) => CreateDropsNone(s, e, b);
    case Cancel(_) => CancelDropsNone(s, e, b);
    case RunNext => RunDropsNone(s, b);
    case Finish(_) => FinishDropsNone(s, e, b);
    case Insert(_, _) => assert forall q: nat :: Lives(Next(s, e).state, q) == Lives(s, q);
    case Expire(_, _) => assert forall q: nat :: Lives(Next(s, e).state, q) == Lives(s, q);
  }

  lemma {:induction false} RunsDropNone(s: State, es: seq<Event>, b: Book)
    requires Inv(s) && AsAsked(s, b) && NoneDropped(s, b) && Legal(s, es)
    ensures Play(s, es).Ok? && NoneDropped(Play(s, es).state, Notes(b, es))
    decreases |es|
  {
    hide Inv, AsAsked, NoneDropped, Next, Enabled, Noted;
    if es != [] {
      StepKeeps(s, es[0]);
      StepAsAsked(s, es[0], b);
      StepDropsNone(s, es[0], b);
      RunsDropNone(Next(s, es[0]).state, es[1..], Noted(b, es[0]));
    }
  }

  /**
    And it is not forgotten: in every run a timer that was never passed to `cancel` and has not run yet is
    alive, and waits for the `when` of its creator: in a functor that has not run, in the queue under
    that key, or in the rest of the batch.  A one-shot timer is freed only after its run or for a
    `cancel`, a repeating one only for a `cancel`.
   */
  lemma NoTimerIsDropped(es: seq<Event>, q: nat)
    requires Legal(INIT, es)
    ensures Play(INIT, es).Ok?
    ensures var s := Play(INIT, es).state; var b := Notes(BLANK, es);
            1 <= q <= |b.made| && q !in b.cancelled ==>
              && Made(b.made, q)
              && (Lives(s, q) || (HasRun(s.log, q) && !b.made[q - 1].repeat))
              && (!HasRun(s.log, q) ==> Waiting(s, q, b.made[q - 1].when, b.flying))
  {
    hide AsAsked;
    StartIsValid();
    StartAsAsked();
    RunsAsAsked(INIT, es, BLANK);
    RunsDropNone(INIT, es, BLANK);
    var s := Play(INIT, es).state;
    var b := Notes(BLANK, es);
    BookIsUpToDate(s, b);
    if 1 <= q <= |b.made| && q !in b.cancelled && !HasRun(s.log, q) {
      var a :| a in s.heap && s.heap[a].sequence == q;
      LivesWaiting(s, a, b);
    }
  }

  lemma StartAsAsked()
    ensures AsAsked(INIT, BLANK) && NoneDropped(INIT, BLANK)
  {
  }

  /** The timer of sequence `q` waits for its deadline `when`. */
  predicate Waiting(s: State, q: nat, when: int, flying: set<Addr>) {
    exists a :: a in s.heap && s.heap[a].sequence == q && WaitingAt(s, a, when, flying)
  }

  predicate WaitingAt(s: State, a: Addr, when: int, flying: set<Addr>)
    requires a in s.heap
  {
    && s.heap[a].expiration == when
    && (a in flying || Entry(when, a) in s.timers || exists k :: 0 <= s.next <= k < |s.batch| && s.batch[k] == Entry(when, a))
  }

  lemma LivesWaiting(s: State, a: Addr, b: Book)
    requires Inv(s) && AsAsked(s, b) && NoneDropped(s, b) && a in s.heap && !HasRun(s.log, s.heap[a].sequence)
    ensures Made(b.made, s.heap[a].sequence)
    ensures WaitingAt(s, a, b.made[s.heap[a].sequence - 1].when, b.flying)
  {
    hide HasRun, LogInv, EarlyEnough, LogAsAsked, IndexesAgree, SequencesUnique;
    assert TimerAsAsked(s, b.made, a);
    FirstDeadline(s.log, s.heap[a].sequence, b.made[s.heap[a].sequence - 1].when);
    if InBatch(s, a) {
      var k :| 0 <= k < |s.batch| && s.batch[k].timer == a;
      assert EntryAsAsked(s, b.made, k);
    }
  }

  // ---------------------------------------------------------------- the code

  lemma {:induction false} Extend(s: State, es: seq<Event>, e: Event)
    requires Inv(s) && Legal(s, es) && Play(s, es).Ok? && Enabled(Play(s, es).state, e)
    ensures Legal(s, es + [e]) && Play(s, es + [e]) == Next(Play(s, es).state, e)
    decreases |es|
  {
    hide Ownership, IndexesAgree, SequencesUnique, BatchInOrder, EarlyEnough, LogInv;
    if es == [] {
      assert (es + [e])[1..] == [];
      StepKeeps(s, e);
    } else {
      StepKeeps(s, es[0]);
      Extend(Next(s, es[0]).state, es[1..], e);
      assert (es + [e])[1..] == es[1..] + [e];
    }
  }

  lemma SequencesGrow(s: State)
    requires Placed(s)
    ensures forall a :: a in s.heap ==> s.heap[a].sequence <= s.created
  {
  }

  lemma QueueIsLive(s: State)
    requires Placed(s)
    ensures forall e :: e in s.timers ==> e.timer in s.heap
  {
  }

  lemma InsertIsFresh(s: State, addr: Addr)
    requires Inv(s) && addr in s.inflight
    ensures addr in s.heap && |s.timers| == |s.active|
    ensures Entry(s.heap[addr].expiration, addr) !in s.timers && IdOf(s.heap, addr) !in s.active
  {
    SizesAgree(s);
    assert !InTimers(s, addr);
  }

  /** One turn of the copying loop of `getExpired`. */
  lemma TakeFirst(taken: seq<Entry>, timers: set<Entry>, when: int)
    requires timers != {} && First(timers).when <= when
    ensures var e := First(timers);
            && e in Expired(timers, when) && |timers - {e}| < |timers|
            && taken + InOrder(Expired(timers, when)) == (taken + [e]) + InOrder(Expired(timers - {e}, when))
  {
    var e := First(timers);
    assert e in Expired(timers, when);
    assert First(Expired(timers, when)) == e;
    assert Expired(timers, when) - {e} == Expired(timers - {e}, when);
    assert InOrder(Expired(timers, when)) == [e] + InOrder(Expired(timers - {e}, when));
  }

  lemma IdsOfOneMore(heap: map<Addr, Timer>, entries: set<Entry>, e: Entry)
    requires e.timer in heap && forall x :: x in entries ==> x.timer in heap
    ensures IdsOf(heap, entries + {e}) == IdsOf(heap, entries) + {IdOf(heap, e.timer)}
  {
  }

  lemma NoneDue(timers: set<Entry>, when: int)
    requires timers == {} || when < First(timers).when
    ensures Expired(timers, when) == {} && InOrder(Expired(timers, when)) == []
  {
  }

  function TimersOf(es: seq<Entry>): set<Addr> {
    set e | e in es :: e.timer
  }

  lemma OneMore(s: State, i: nat)
    requires Placed(s) && i < |s.batch|
    ensures TimersOf(s.batch[..i + 1]) == TimersOf(s.batch[..i]) + {s.batch[i].timer}
    ensures s.batch[i].timer !in TimersOf(s.batch[..i])
    ensures s.batch[i].timer in s.heap && forall x :: x in s.batch ==> x.timer in s.heap
    ensures s.batch[i].timer in Survivors(s)
            <==> s.heap[s.batch[i].timer].repeat && IdOf(s.heap, s.batch[i].timer) !in s.canceling
  {
    BatchIsLive(s);
    assert s.batch[i] in s.batch;
    assert s.batch[..i + 1] == s.batch[..i] + [s.batch[i]];
    forall j | 0 <= j < i
      ensures s.batch[j].timer != s.batch[i].timer
    {
      assert Before(s.batch[j], s.batch[i]);
    }
  }

  /** The queue in the middle of `reset`, with the timers in `done` dealt with. */
  ghost predicate ResetUpTo(s: State, done: set<Addr>, heap: map<Addr, Timer>, timers: set<Entry>, active: set<TimerId>)
    requires forall e :: e in s.batch ==> e.timer in s.heap
  {
    var kept := Survivors(s) * done;
    && heap.Keys == s.heap.Keys - (done - kept)
    && (forall a :: a in heap ==> heap[a] == if a in done then Restarted(s.heap[a], s.now) else s.heap[a])
    && timers == s.timers + (set a | a in kept :: Entry(s.now + s.heap[a].interval, a))
    && active == s.active + (set a | a in kept :: IdOf(s.heap, a))
  }

  lemma ResetOne(s: State, a: Addr, done: set<Addr>, heap: map<Addr, Timer>, timers: set<Entry>, active: set<TimerId>)
    requires forall e :: e in s.batch ==> e.timer in s.heap
    requires ResetUpTo(s, done, heap, timers, active)
    requires a in s.heap && a !in done
    requires a in Survivors(s) <==> s.heap[a].repeat && IdOf(s.heap, a) !in s.canceling
    ensures a in heap && heap[a] == s.heap[a]
    ensures heap[a].repeat && IdOf(heap, a) !in s.canceling ==>
              ResetUpTo(s, done + {a}, heap[a := Restarted(heap[a], s.now)],
                        timers + {Entry(Restarted(heap[a], s.now).expiration, a)},
                        active + {IdOf(heap[a := Restarted(heap[a], s.now)], a)})
    ensures !(heap[a].repeat && IdOf(heap, a) !in s.canceling) ==> ResetUpTo(s, done + {a}, heap - {a}, timers, active)
  {
    hide Survivors;
    var kept := Survivors(s) * done;
    if a in Survivors(s) {
      assert Survivors(s) * (done + {a}) == kept + {a};
    } else {
      assert Survivors(s) * (done + {a}) == kept;
    }
  }

  lemma ResetNone(s: State)
    requires forall e :: e in s.batch ==> e.timer in s.heap
    ensures ResetUpTo(s, TimersOf(s.batch[..0]), s.heap, s.timers, s.active)
  {
    hide Survivors, IdOf;
    assert TimersOf(s.batch[..0]) == {};
  }

  /** The next timer to put back is new to both sets. */
  lemma ResetIsFresh(s: State, a: Addr, done: set<Addr>, heap: map<Addr, Timer>, timers: set<Entry>, active: set<TimerId>)
    requires !ResetFails(s) && ResetUpTo(s, done, heap, timers, active)
    requires a in Survivors(s) && a !in done
    ensures a in heap && heap[a] == s.heap[a]
    ensures Entry(Restarted(heap[a], s.now).expiration, a) !in timers
    ensures IdOf(heap[a := Restarted(heap[a], s.now)], a) !in active
  {
    hide ResetFails, Survivors;
    ResetIsFreshIn(s, a);
  }

  lemma ResetIsFreshIn(s: State, a: Addr)
    requires !ResetFails(s) && a in Survivors(s)
    ensures a in s.heap && Entry(s.now + s.heap[a].interval, a) !in s.timers && IdOf(s.heap, a) !in s.active
  {
  }

  lemma ResetAll(s: State, heap: map<Addr, Timer>, timers: set<Entry>, active: set<TimerId>)
    requires forall e :: e in s.batch ==> e.timer in s.heap
    requires ResetUpTo(s, TimersOf(s.batch), heap, timers, active)
    ensures timers == s.timers + set a | a in Survivors(s) :: Entry(s.now + s.heap[a].interval, a)
    ensures active == s.active + set a | a in Survivors(s) :: IdOf(s.heap, a)
    ensures heap == map a | a in s.heap && (InBatch(s, a) ==> a in Survivors(s)) ::
                      if a in Survivors(s) then Restarted(s.heap[a], s.now) else s.heap[a]
  {
    assert forall a :: a in TimersOf(s.batch) <==> InBatch(s, a);
    assert Survivors(s) * TimersOf(s.batch) == Survivors(s);
  }

  /** A callback leaves the batch and its timers alone. */
  ghost predicate SameBatch(s: State, t: State) {
    && t.calling == s.calling && t.batch == s.batch && t.now == s.now
    && forall e :: e in s.batch ==> e.timer in s.heap && e.timer in t.heap && t.heap[e.timer] == s.heap[e.timer]
  }

  predicate FromCallback(e: Event) {
    e.Create? || e.Insert? || e.Cancel?
  }

  lemma CallbackStep(s: State, t: State, e: Event)
    requires Inv(t) && t.calling && SameBatch(s, t) && Enabled(t, e) && FromCallback(e)
    ensures Next(t, e).Ok?
    ensures var u := Next(t, e).state; SameBatch(s, u) && u.calling && u.next == t.next && u.log == t.log
  {
    hide Ownership, IndexesAgree, SequencesUnique, BatchInOrder, EarlyEnough, LogInv;
    hide First, Arm, InBatch, HowMuchTimeFromNow;
    StepKeeps(t, e);
    BatchIsLive(t);
  }

  /** The runs a call of `handleRead` owes: one for each timer due, in order of expiration. */
  ghost function RunsDue(s: State, now: int): (runs: seq<Run>)
    requires Placed(s)
    ensures |runs| == |Expired(s.timers, now)|
  {
    var due := InOrder(Expired(s.timers, now));
    seq(|due|, i requires 0 <= i < |due| =>
      assert due[i] in due;
      var t := s.heap[due[i].timer];
      Run(t.sequence, t.repeat, t.interval, due[i].when, now))
  }

  /** Inside the loop of a `handleRead` that began in `start`. */
  ghost predicate MidBatch(start: State, s: State, now: int) {
    && Placed(start)
    && s.batch == InOrder(Expired(start.timers, now)) && s.now == now
    && (forall e :: e in s.batch ==> e.timer in start.heap && e.timer in s.heap && s.heap[e.timer] == start.heap[e.timer])
    && s.next <= |RunsDue(start, now)| == |s.batch| && s.log == start.log + RunsDue(start, now)[..s.next]
  }

  lemma BatchDone(start: State, s: State, now: int)
    requires MidBatch(start, s, now) && s.next == |s.batch|
    ensures s.log == start.log + RunsDue(start, now)
  {
    assert RunsDue(start, now)[..s.next] == RunsDue(start, now);
  }

  lemma DueRun(start: State, s: State, now: int)
    requires Placed(start)
    requires s.batch == InOrder(Expired(start.timers, now)) && s.now == now && s.next < |s.batch|
    requires forall e :: e in s.batch ==> e.timer in start.heap && e.timer in s.heap && s.heap[e.timer] == start.heap[e.timer]
    ensures s.batch[s.next].timer in s.heap && s.next < |RunsDue(start, now)|
    ensures var t := s.heap[s.batch[s.next].timer]; var runs := RunsDue(start, now);
            runs[..s.next + 1] == runs[..s.next] + [Run(t.sequence, t.repeat, t.interval, s.batch[s.next].when, s.now)]
  {
    hide Placed, InOrder, Expired;
    assert s.batch[s.next] in s.batch;
    var runs := RunsDue(start, now);
    assert runs[..s.next + 1] == runs[..s.next] + [runs[s.next]];
  }

  lemma RunNextExtends(start: State, trace: seq<Event>, s: State)
    requires Inv(start) && Legal(start, trace) && Play(start, trace) == Ok(s)
    requires Inv(s) && s.calling && s.next < |s.batch| && s.batch[s.next].timer in s.heap
    ensures var t := s.heap[s.batch[s.next].timer];
            var u := s.(log := s.log + [Run(t.sequence, t.repeat, t.interval, s.batch[s.next].when, s.now)], next := s.next + 1);
            Inv(u) && Legal(start, trace + [RunNext]) && Play(start, trace + [RunNext]) == Ok(u) && SameBatch(u, u)
  {
    hide Ownership, IndexesAgree, SequencesUnique, BatchInOrder, EarlyEnough, LogInv;
    StepKeeps(s, RunNext);
    Extend(start, trace, RunNext);
    BatchIsLive(s);
  }

  lemma ExpireStarts(s: State, now: int, readable: bool)
    requires Next(s, Expire(now, readable)).Ok?
    ensures var t := Next(s, Expire(now, readable)).state;
            && t.batch == InOrder(Expired(s.timers, now)) && t.now == now && t.next == 0 && t.calling
            && t.heap == s.heap && t.log == s.log
  {
    hide InOrder, Expired, IdsOf;
  }

  lemma BatchBegins(s: State, t: State, now: int)
    requires Placed(s) && t.heap == s.heap && t.log == s.log
    requires t.batch == InOrder(Expired(s.timers, now)) && t.now == now && t.next == 0
    requires forall e :: e in t.batch ==> e.timer in t.heap
    ensures MidBatch(s, t, now)
  {
    hide Placed, InOrder, Expired;
    assert RunsDue(s, now)[..0] == [] && s.log + [] == s.log;
  }

  lemma ExpireExtends(s: State, now: int, readable: bool)
    requires Inv(s) && Enabled(s, Expire(now, readable))
    ensures Placed(s) && Next(s, Expire(now, readable)).Ok?
    ensures var t := Next(s, Expire(now, readable)).state;
            && Legal(s, [Expire(now, readable)]) && Play(s, [Expire(now, readable)]) == Ok(t)
            && t.calling && t.next == 0 && MidBatch(s, t, now)
  {
    hide Ownership, IndexesAgree, SequencesUnique, BatchInOrder, EarlyEnough, LogInv, MidBatch, InOrder, First;
    StepKeeps(s, Expire(now, readable));
    BatchIsLive(Next(s, Expire(now, readable)).state);
    ExpireStarts(s, now, readable);
    BatchBegins(s, Next(s, Expire(now, readable)).state, now);
    Extend(s, [], Expire(now, readable));
    assert [] + [Expire(now, readable)] == [Expire(now, readable)];
  }

  lemma FinishExtends(start: State, trace: seq<Event>, s: State, clock: int)
    requires Inv(start) && Legal(start, trace) && Play(start, trace) == Ok(s)
    requires Inv(s) && s.calling && s.next == |s.batch|
    ensures Enabled(s, Finish(clock)) && Next(s, Finish(clock)).Ok? && Next(s, Finish(clock)).state.log == s.log
    ensures Legal(start, trace + [Finish(clock)]) && Play(start, trace + [Finish(clock)]) == Next(s, Finish(clock))
    ensures !Next(s, Finish(clock)).state.calling
  {
    hide Ownership, IndexesAgree, SequencesUnique, BatchInOrder, EarlyEnough, LogInv;
    StepKeeps(s, Finish(clock));
    Extend(start, trace, Finish(clock));
  }

  lemma ResetIsReady(s: State, clock: int)
    requires Inv(s) && Enabled(s, Finish(clock))
    ensures Next(s, Finish(clock)).Ok? && Inv(Next(s, Finish(clock)).state)
    ensures Placed(s) && !ResetFails(s) && |s.timers| == |s.active|
  {
    hide Ownership, IndexesAgree, SequencesUnique, BatchInOrder, EarlyEnough, LogInv, Next, ResetFails;
    StepKeeps(s, Finish(clock));
    ResetSucceeds(s);
    SizesAgree(s);
  }

  class TimerQueue {
    var heap: map<Addr, Timer>
    var created: nat
    var inflight: set<Addr>
    var timers: set<Entry>
    var active: set<TimerId>
    var expired: seq<Entry>   // the local vector of handleRead
    var next: nat
    var now: int
    var calling: bool
    var canceling: set<TimerId>
    var fd: TimerFd
    var log: seq<Run>

    function Value(): State
      reads this
    {
      State(heap, created, inflight, timers, active, expired, next, now, calling, canceling, fd, log)
    }

    constructor ()
      ensures Value() == INIT && Inv(Value())
    {
      heap, created, inflight := map[], 0, {};
      timers, active := {}, {};
      expired, next, now, calling, canceling := [], 0, 0, false, {};
      fd, log := Disarmed, [];
      new;
      StartIsValid();
    }

    method AddTimer(addr: Addr, when: int, repeat: bool, interval: nat) returns (id: TimerId)
      requires Inv(Value()) && Enabled(Value(), Create(addr, when, repeat, interval))
      modifies this
      ensures Next(old(Value()), Create(addr, when, repeat, interval)) == Ok(Value()) && Inv(Value())
      ensures addr in heap && heap[addr].expiration == when && heap[addr].repeat == repeat && heap[addr].interval == interval
      ensures inflight == old(inflight) + {addr}
      ensures id == IdOf(heap, addr)
      ensures forall a :: a in old(heap) ==> old(heap)[a].sequence < id.sequence
    {
      hide Ownership, IndexesAgree, SequencesUnique, BatchInOrder, EarlyEnough, LogInv;
      SequencesGrow(Value());
      StepKeeps(Value(), Create(addr, when, repeat, interval));
      created := created + 1;
      heap := heap[addr := Timer(when, repeat, interval, created)];
      inflight := inflight + {addr};
      id := TimerId(addr, created);
    }

    /** Both sets get the timer; the result says whether it became the earliest. */
    method Insert(addr: Addr) returns (earliestChanged: bool)
      requires addr in heap && |timers| == |active|
      requires Entry(heap[addr].expiration, addr) !in timers && IdOf(heap, addr) !in active
      modifies this`timers, this`active
      ensures timers == old(timers) + {Entry(heap[addr].expiration, addr)}
      ensures active == old(active) + {IdOf(heap, addr)}
      ensures earliestChanged <==> old(timers) == {} || heap[addr].expiration < First(old(timers)).when
      ensures |timers| == |active|
    {
      earliestChanged := false;
      var when := heap[addr].expiration;
      if timers == {} || when < First(timers).when {
        earliestChanged := true;
      }
      timers := timers + {Entry(when, addr)};
      active := active + {IdOf(heap, addr)};
    }

    method AddTimerInLoop(addr: Addr, clock: int)
      requires Inv(Value()) && Enabled(Value(), Event.Insert(addr, clock))
      modifies this
      ensures Next(old(Value()), Event.Insert(addr, clock)) == Ok(Value()) && Inv(Value())
      ensures heap == old(heap) && addr in heap && inflight == old(inflight) - {addr}
      ensures timers == old(timers) + {Entry(heap[addr].expiration, addr)}
    {
      hide Ownership, IndexesAgree, SequencesUnique, BatchInOrder, EarlyEnough, LogInv;
      StepKeeps(Value(), Event.Insert(addr, clock));
      InsertIsFresh(Value(), addr);
      hide Inv, First, Arm, InBatch, HowMuchTimeFromNow;
      inflight := inflight - {addr};
      var earliestChanged := Insert(addr);
      if earliestChanged {
        fd := Arm(heap[addr].expiration, clock);
      }
    }

    method CancelInLoop(id: TimerId)
      requires Inv(Value())
      modifies this
      ensures Next(old(Value()), Cancel(id)) == Ok(Value()) && Inv(Value())
    {
      StepKeeps(Value(), Cancel(id));
      SizesAgree(Value());
      assert |timers| == |active|;
      if id in active {
        assert Entry(heap[id.timer].expiration, id.timer) in timers;
        timers := timers - {Entry(heap[id.timer].expiration, id.timer)};
        heap := heap - {id.timer};
        active := active - {id};
      } else if calling {
        canceling := canceling + {id};
      }
    }

    /** Copies and erases the timers due from the front of the ordered set, then erases their ids. */
    method GetExpired(when: int)
      requires forall e :: e in timers ==> e.timer in heap
      modifies this`expired, this`timers, this`active
      ensures expired == InOrder(Expired(old(timers), when))
      ensures timers == old(timers) - Expired(old(timers), when)
      ensures active == old(active) - IdsOf(heap, Expired(old(timers), when))
    {
      ghost var due := Expired(timers, when);
      MoveDue(when);
      assert forall e :: e in expired <==> e in due;
      assert forall k :: 0 <= k < |expired| ==> expired[k] in expired;
      assert (set e | e in expired) == due;
      EraseIds();
    }

    method EraseIds()
      requires forall k :: 0 <= k < |expired| ==> expired[k].timer in heap
      modifies this`active
      ensures (forall e :: e in expired ==> e.timer in heap)
              && active == old(active) - IdsOf(heap, set e | e in expired)
    {
      ghost var erased: set<Entry> := {};
      for i := 0 to |expired|
        invariant erased == set e | e in expired[..i]
        invariant (forall e :: e in erased ==> e.timer in heap) && active == old(active) - IdsOf(heap, erased)
      {
        assert expired[..i + 1] == expired[..i] + [expired[i]];
        IdsOfOneMore(heap, erased, expired[i]);
        active := active - {IdOf(heap, expired[i].timer)};
        erased := erased + {expired[i]};
      }
      assert expired[..|expired|] == expired;
    }

    method MoveDue(when: int)
      modifies this`expired, this`timers
      ensures expired == InOrder(Expired(old(timers), when))
      ensures timers == old(timers) - Expired(old(timers), when)
    {
      ghost var due := Expired(timers, when);
      expired := [];
      while timers != {} && First(timers).when <= when
        invariant old(timers) - due <= timers <= old(timers)
        invariant expired + InOrder(Expired(timers, when)) == InOrder(due)
        decreases |timers|
      {
        hide InOrder, First, IsFirst, Expired, IdsOf, IdOf, InBatch;
        var e := First(timers);
        TakeFirst(expired, timers, when);
        expired := expired + [e];
        timers := timers - {e};
      }
      NoneDue(timers, when);
    }

    /** Restarts the repeating timers that were not cancelled meanwhile, frees the others, and re-arms. */
    method Reset(ghost s: State, clock: int)
      requires s == Value().(calling := true) && !calling
      requires Inv(s) && Enabled(s, Finish(clock))
      modifies this
      ensures Next(s, Finish(clock)) == Ok(Value()) && Inv(Value())
    {
      hide Inv, Placed, Survivors, InBatch, First, IsFirst, Arm, ResetFails, IdOf;
      ResetIsReady(s, clock);
      RestartOrFree(s);
      expired := [];
      next := 0;
      if timers != {} && First(timers).when > 0 {
        fd := Arm(First(timers).when, clock);
      }
    }

    method RestartOrFree(ghost s: State)
      requires s == Value().(calling := true)
      requires Placed(s) && !ResetFails(s) && |timers| == |active|
      modifies this`heap, this`timers, this`active
      ensures timers == s.timers + set a | a in Survivors(s) :: Entry(s.now + s.heap[a].interval, a)
      ensures active == s.active + set a | a in Survivors(s) :: IdOf(s.heap, a)
      ensures heap == map a | a in s.heap && (InBatch(s, a) ==> a in Survivors(s)) ::
                        if a in Survivors(s) then Restarted(s.heap[a], s.now) else s.heap[a]
    {
      hide Placed, ResetFails, ResetUpTo, Survivors, TimersOf, InBatch, Restarted;
      ResetNone(s);
      for i := 0 to |expired|
        invariant ResetUpTo(s, TimersOf(expired[..i]), heap, timers, active) && |timers| == |active|
      {
        OneMore(s, i);
        RestartOrFreeOne(s, TimersOf(expired[..i]), expired[i].timer);
      }
      assert expired[..|expired|] == expired;
      ResetAll(s, heap, timers, active);
    }

    /** One turn of the loop of `reset`. */
    method RestartOrFreeOne(ghost s: State, ghost done: set<Addr>, a: Addr)
      requires !ResetFails(s) && ResetUpTo(s, done, heap, timers, active) && |timers| == |active|
      requires now == s.now && canceling == s.canceling && a in s.heap && a !in done
      requires a in Survivors(s) <==> s.heap[a].repeat && IdOf(s.heap, a) !in s.canceling
      modifies this`heap, this`timers, this`active
      ensures ResetUpTo(s, done + {a}, heap, timers, active) && |timers| == |active|
    {
      hide ResetFails, Survivors, ResetUpTo, First;
      ResetOne(s, a, done, heap, timers, active);
      if a in Survivors(s) { ResetIsFresh(s, a, done, heap, timers, active); }
      if heap[a].repeat && IdOf(heap, a) !in canceling {
        heap := heap[a := Restarted(heap[a], now)];
        var _ := Insert(a);
      } else {
        heap := heap - {a};
      }
    }

    method Perform(e: Event)
      requires Inv(Value()) && Enabled(Value(), e) && FromCallback(e)
      modifies this
      ensures Next(old(Value()), e) == Ok(Value()) && Inv(Value())
    {
      hide Inv, Enabled, Next;
      match e
      case Create(addr, when, repeat, interval) => var _ := AddTimer(addr, when, repeat, interval);
      case Insert(addr, clock) => AddTimerInLoop(addr, clock);
      case Cancel(id) => CancelInLoop(id);
    }

    /** Whatever a callback does to the queue: each step the environment allows is taken. */
    method RunCallback(script: seq<Event>, ghost start: State, ghost before: seq<Event>) returns (ghost trace: seq<Event>)
      requires Inv(start) && Legal(start, before) && Play(start, before) == Ok(Value())
      requires Inv(Value()) && calling && SameBatch(Value(), Value())
      modifies this
      ensures Inv(Value()) && Legal(start, trace) && Play(start, trace) == Ok(Value())
      ensures calling && SameBatch(old(Value()), Value()) && next == old(next) && log == old(log)
    {
      hide Inv, Enabled, Next, Legal, Play, SameBatch, FromCallback;
      trace := before;
      for i := 0 to |script|
        invariant Inv(Value()) && Legal(start, trace) && Play(start, trace) == Ok(Value())
        invariant calling && SameBatch(old(Value()), Value()) && next == old(next) && log == old(log)
      {
        if Enabled(Value(), script[i]) && FromCallback(script[i]) {
          CallbackStep(old(Value()), Value(), script[i]);
          Extend(start, trace, script[i]);
          trace := trace + [script[i]];
          Perform(script[i]);
        }
      }
    }

    /** `handleRead` up to its loop. */
    method BeginRead(when: int, readable: bool)
      requires Inv(Value()) && Enabled(Value(), Expire(when, readable))
      modifies this
      ensures Next(old(Value()), Expire(when, readable)) == Ok(Value()) && Inv(Value())
    {
      hide InOrder, First, IsFirst, Expired, IdsOf, IdOf, InBatch;
      hide Ownership, IndexesAgree, SequencesUnique, BatchInOrder, EarlyEnough, LogInv;
      StepKeeps(Value(), Expire(when, readable));
      QueueIsLive(Value());
      if readable {
        fd := Disarmed;
      }
      GetExpired(when);
      now, next := when, 0;
      calling := true;
      canceling := {};
    }

    /** One turn of the loop of `handleRead`: the callback runs and does as it likes with the queue. */
    method RunOne(script: seq<Event>, ghost start: State, ghost before: seq<Event>, ghost when: int) returns (ghost trace: seq<Event>)
      requires Inv(start) && Legal(start, before) && Play(start, before) == Ok(Value())
      requires Inv(Value()) && calling && MidBatch(start, Value(), when) && next < |expired|
      modifies this
      ensures Inv(Value()) && Legal(start, trace) && Play(start, trace) == Ok(Value())
      ensures calling && MidBatch(start, Value(), when) && next == old(next) + 1 && expired == old(expired)
    {
      hide Inv, Placed, Legal, Play, Next, RunsDue, InOrder, Expired;
      DueRun(start, Value(), when);
      RunNextExtends(start, before, Value());
      var t := heap[expired[next].timer];
      log := log + [Run(t.sequence, t.repeat, t.interval, expired[next].when, now)];
      next := next + 1;
      trace := RunCallback(script, start, before + [RunNext]);
    }

    /**
      Reads the descriptor, runs the callbacks of the timers due and resets the queue.  The call is a
      run of the protocol that executes each timer due once, in order of expiration.
     */
    method HandleRead(when: int, readable: bool, callbacks: seq<seq<Event>>, clock: int) returns (ghost trace: seq<Event>)
      requires Inv(Value()) && Enabled(Value(), Expire(when, readable))
      modifies this
      ensures Inv(Value()) && !calling
      ensures Legal(old(Value()), trace) && Play(old(Value()), trace) == Ok(Value())
      ensures Placed(old(Value())) && log == old(log) + RunsDue(old(Value()), when)
    {
      ghost var start := Value();
      ExpireExtends(start, when, readable);
      hide Inv, Placed, Enabled, Legal, Play, Next, RunsDue, InOrder, Expired, MidBatch;
      BeginRead(when, readable);
      trace := [Expire(when, readable)];
      while next < |expired|
        invariant Inv(Value()) && Legal(start, trace) && Play(start, trace) == Ok(Value())
        invariant calling && MidBatch(start, Value(), when) && next <= |expired|
      {
        trace := RunOne(if next < |callbacks| then callbacks[next] else [], start, trace, when);
      }
      FinishExtends(start, trace, Value(), clock);
      BatchDone(start, Value(), when);
      trace := trace + [Finish(clock)];
      calling := false;
      Reset(Value().(calling := true), clock);
    }
  }
}
