/**
  `Connector`: non-blocking connects with descriptor ownership, a deferred reset of the channel and
  capped doubling backoff.

  `Event` lists the calls of users on the loop thread and on others, what `poll` reports, the retry
  timer and the functors.  `Next` answers `Broken` where an assert would fail or a null or removed
  channel would be used.
 */
module Connectors {

  import opened Options

  const INIT_RETRY_DELAY_MS: nat := 500
  const MAX_RETRY_DELAY_MS: nat := 30_000

  datatype Phase = Disconnected | Connecting | Connected

  /** `added` says that the channel is enabled and known to the poller. */
  datatype Channel = Channel(fd: nat, added: bool)

  /** How often a descriptor was closed and handed to the new-connection callback. */
  datatype Fate = Fate(closes: nat, handed: nat)

  datatype Task = StartInLoop | StopInLoop | ResetChannel

  /** What `connect` leaves in `errno`. */
  datatype Errno =
    | NoError | EINPROGRESS | EINTR | EISCONN
    | EAGAIN | EADDRINUSE | EADDRNOTAVAIL | ECONNREFUSED | ENETUNREACH
    | EACCES | EPERM | EAFNOSUPPORT | EALREADY | ENOTSOCK
    | Unexpected

  /**
    `fates` has an entry for each descriptor created, in order of creation; `waits` are the delays of
    the retries since the last restart.  `listed` says that the channel is in the list of the current
    dispatch and `handled` that its `handleEvent` has run; `gaveUp`, that a connect failed for good.
   */
  datatype State = State(
    connect: bool,
    phase: Phase,
    channel: Option<Channel>,
    delay: nat,
    pending: seq<Task>,
    timers: nat,
    dispatching: bool,
    listed: bool,
    handled: bool,
    fates: seq<Fate>,
    waits: seq<nat>,
    gaveUp: bool)

  datatype Outcome = Ok(state: State) | Broken

  datatype Event =
    | Start(errno: Errno)
    | Stop
    | Restart(errno: Errno)
    | StartFromOther
    | StopFromOther
    | Poll(listed: bool)
    | Handle(err: bool, out: bool, soError: bool, selfConnect: bool)
    | FireTimer(errno: Errno)
    | EndDispatch
    | RunFunctor(errno: Errno)

  const INIT := State(false, Disconnected, None, INIT_RETRY_DELAY_MS, [], 0, false, false, false, [], [], false)

  // ---------------------------------------------------------------- the steps

  function Min(a: nat, b: nat): nat { if a < b then a else b }

  function AfterClose(s: State, fd: nat): State
    requires fd < |s.fates|
  {
    s.(fates := s.fates[fd := s.fates[fd].(closes := s.fates[fd].closes + 1)])
  }

  function AfterRetry(s: State, fd: nat): State
    requires fd < |s.fates|
  {
    var t := AfterClose(s, fd).(phase := Disconnected);
    if s.connect
    then t.(timers := s.timers + 1, waits := s.waits + [s.delay], delay := Min(s.delay * 2, MAX_RETRY_DELAY_MS))
    else t
  }

  /** `removeAndResetChannel`; `current` says that it is called from the channel's own callback. */
  function AfterRemove(s: State, current: bool): Outcome {
    if s.channel.None? || !s.channel.value.added then Broken
    else if s.dispatching && s.listed && !current then Broken
    else Ok(s.(channel := Some(s.channel.value.(added := false)), pending := s.pending + [ResetChannel]))
  }

  function AfterConnect(s: State, errno: Errno): Outcome {
    var fd := |s.fates|;
    var t := s.(fates := s.fates + [Fate(0, 0)]);
    match errno
    case NoError | EINPROGRESS | EINTR | EISCONN =>
      if s.channel.Some? then Broken else Ok(t.(phase := Connecting, channel := Some(Channel(fd, true))))
    case EAGAIN | EADDRINUSE | EADDRNOTAVAIL | ECONNREFUSED | ENETUNREACH => Ok(AfterRetry(t, fd))
    case EACCES | EPERM | EAFNOSUPPORT | EALREADY | ENOTSOCK | Unexpected => Ok(AfterClose(t, fd).(gaveUp := true))
  }

  function AfterStart(s: State, errno: Errno): Outcome {
    if s.phase != Disconnected then Broken
    else if s.connect then AfterConnect(s, errno)
    else Ok(s)
  }

  /** Removes the channel and goes on with its descriptor. */
  function AfterGivingBack(s: State, current: bool): Outcome {
    match AfterRemove(s, current)
    case Broken => Broken
    case Ok(t) => if t.channel.None? || t.channel.value.fd >= |t.fates| then Broken else Ok(AfterRetry(t, t.channel.value.fd))
  }

  function AfterStop(s: State): Outcome {
    if s.phase == Connecting then AfterGivingBack(s.(phase := Disconnected), false) else Ok(s)
  }

  function AfterError(s: State): Outcome {
    if s.phase != Connecting then Broken else AfterGivingBack(s, true)
  }

  function AfterWrite(s: State, soError: bool, selfConnect: bool): Outcome {
    if s.phase == Connecting then
      if soError || selfConnect then AfterGivingBack(s, true)
      else
        match AfterRemove(s, true)
        case Broken => Broken
        case Ok(t) =>
          if t.channel.None? || t.channel.value.fd >= |t.fates| then Broken
          else
            var fd := t.channel.value.fd;
            var u := t.(phase := Connected);
            Ok(if s.connect then u.(fates := t.fates[fd := t.fates[fd].(handed := t.fates[fd].handed + 1)])
               else AfterClose(u, fd))
    else if s.phase == Disconnected then Ok(s)
    else Broken
  }

  /** `handleEvent`: the error callback, then the write callback. */
  function AfterHandle(s: State, err: bool, out: bool, soError: bool, selfConnect: bool): Outcome {
    match (if err then AfterError(s) else Ok(s))
    case Broken => Broken
    case Ok(t) => if out then AfterWrite(t, soError, selfConnect) else Ok(t)
  }

  function AfterTask(s: State, task: Task, errno: Errno): Outcome {
    match task
    case StartInLoop => AfterStart(s, errno)
    case StopInLoop => AfterStop(s)
    case ResetChannel => Ok(s.(channel := None))
  }

  /**
    `poll` reports only channels it knows, and a retry timer fires on a dispatch.
   */
  predicate Enabled(s: State, e: Event) {
    match e
    case Poll(listed) => !s.dispatching && (listed ==> s.channel.Some? && s.channel.value.added)
    case Handle(_, _, _, _) => s.dispatching && s.listed && !s.handled
    case FireTimer(_) => s.dispatching && s.timers > 0
    case EndDispatch => s.dispatching
    case RunFunctor(_) => !s.dispatching && s.pending != []
    case _ => true
  }

  function Next(s: State, e: Event): Outcome
    requires Enabled(s, e)
  {
    match e
    case Start(errno) => AfterStart(s.(connect := true, gaveUp := false), errno)
    case Stop => AfterStop(s.(connect := false))
    case Restart(errno) =>
      AfterStart(s.(phase := Disconnected, delay := INIT_RETRY_DELAY_MS, waits := [], connect := true, gaveUp := false), errno)
    case StartFromOther => Ok(s.(connect := true, gaveUp := false, pending := s.pending + [StartInLoop]))
    case StopFromOther => Ok(s.(connect := false, pending := s.pending + [StopInLoop]))
    case Poll(listed) => Ok(s.(dispatching := true, listed := listed, handled := false))
    case Handle(err, out, soError, selfConnect) => AfterHandle(s.(handled := true), err, out, soError, selfConnect)
    case FireTimer(errno) => AfterStart(s.(timers := s.timers - 1), errno)
    case EndDispatch => Ok(s.(dispatching := false, listed := false, handled := false))
    case RunFunctor(errno) => AfterTask(s.(pending := s.pending[1..]), s.pending[0], errno)
  }

  // ---------------------------------------------------------------- the discipline

  /** No attempt is under way or waiting, and the last channel is gone. */
  predicate Quiet(s: State) {
    s.channel.None? && s.timers == 0 && StartInLoop !in s.pending
  }

  /**
    `start` when disconnected and quiet, where on another thread the last channel may still be waiting
    for its reset; `restart` when quiet; and `stop` not from the callback of another channel while `poll`
    has just reported the connector's.
   */
  predicate MayCall(s: State, e: Event) {
    match e
    case Start(_) => s.phase == Disconnected && Quiet(s)
    case StartFromOther => s.phase == Disconnected && s.timers == 0 && StartInLoop !in s.pending
    case Restart(_) => Quiet(s)
    case Stop => !(s.phase == Connecting && s.dispatching && s.listed)
    case _ => true
  }

  /**
    A retry timer does not fire before the reset that was queued when it was set, unless nobody wants to
    connect any more.  Half a second is longer than a pass of the loop.
   */
  predicate Timely(s: State, e: Event) {
    e.FireTimer? && s.connect ==> ResetChannel !in s.pending
  }

  ghost predicate Legal(s: State, es: seq<Event>)
    decreases |es|
  {
    es == [] ||
    (Enabled(s, es[0]) && MayCall(s, es[0]) && Timely(s, es[0]) && (Next(s, es[0]).Ok? ==> Legal(Next(s, es[0]).state, es[1..])))
  }

  ghost function Play(s: State, es: seq<Event>): Outcome
    requires Legal(s, es)
    decreases |es|
  {
    if es == [] then Ok(s)
    else if Next(s, es[0]).Broken? then Broken
    else Play(Next(s, es[0]).state, es[1..])
  }

  // ---------------------------------------------------------------- what every step keeps

  function Count(task: Task, tasks: seq<Task>): nat {
    multiset(tasks)[task]
  }

  /** Held by the channel. */
  predicate Holds(s: State, fd: nat) {
    s.channel.Some? && s.channel.value.added && s.channel.value.fd == fd
  }

  /** Every descriptor is held, or closed once, or handed over once. */
  ghost predicate Accounted(s: State) {
    && (s.channel.Some? ==> s.channel.value.fd < |s.fates|)
    && forall fd: nat :: fd < |s.fates| ==> s.fates[fd].closes + s.fates[fd].handed == if Holds(s, fd) then 0 else 1
  }

  /** The channel is there exactly while connecting or until its one reset functor has run. */
  ghost predicate ChannelOk(s: State) {
    && (s.phase == Connecting <==> s.channel.Some? && s.channel.value.added)
    && Count(ResetChannel, s.pending) == (if s.channel.Some? && !s.channel.value.added then 1 else 0)
    && (s.listed ==> s.dispatching && s.channel.Some?)
    && (s.listed && !s.handled ==> s.phase == Connecting)
  }

  /** No reset is behind a start. */
  ghost predicate ResetFirst(tasks: seq<Task>) {
    forall i, j :: 0 <= i < |tasks| && 0 <= j < |tasks| && tasks[i] == StartInLoop && tasks[j] == ResetChannel ==> j < i
  }

  /** At most one attempt to come, and only while disconnected; none is forgotten. */
  ghost predicate Attempts(s: State) {
    && s.timers + Count(StartInLoop, s.pending) <= 1
    && (s.timers + Count(StartInLoop, s.pending) == 1 ==> s.phase == Disconnected)
    && ResetFirst(s.pending)
    && (s.connect && s.phase == Disconnected ==> s.gaveUp || s.timers == 1 || StartInLoop in s.pending)
  }

  function Pow2(k: nat): (r: nat)
    ensures r > 0
  {
    if k == 0 then 1 else 2 * Pow2(k - 1)
  }

  function Backoff(k: nat): nat {
    Min(INIT_RETRY_DELAY_MS * Pow2(k), MAX_RETRY_DELAY_MS)
  }

  ghost predicate Delays(s: State) {
    && s.delay == Backoff(|s.waits|)
    && forall k :: 0 <= k < |s.waits| ==> s.waits[k] == Backoff(k)
  }

  ghost predicate Inv(s: State) {
    Accounted(s) && ChannelOk(s) && Attempts(s) && Delays(s)
  }

  lemma NextDelay(k: nat)
    ensures Min(Backoff(k) * 2, MAX_RETRY_DELAY_MS) == Backoff(k + 1)
  {
    assert Pow2(k + 1) == 2 * Pow2(k);
  }

  lemma RetryKeepsDelays(s: State, fd: nat)
    requires Delays(s) && fd < |s.fates|
    ensures Delays(AfterRetry(s, fd))
  {
    hide Backoff;
    NextDelay(|s.waits|);
  }

  /** As `Inv` with a descriptor in the running handler: neither closed nor handed over yet. */
  ghost predicate InHand(s: State, fd: nat) {
    && fd < |s.fates| && s.fates[fd] == Fate(0, 0) && !Holds(s, fd)
    && (s.channel.Some? ==> s.channel.value.fd < |s.fates|)
    && forall k: nat :: k < |s.fates| && k != fd ==> s.fates[k].closes + s.fates[k].handed == if Holds(s, k) then 0 else 1
  }

  /** Nothing is to be attempted, and the channel may be waiting for its reset. */
  ghost predicate Idle(s: State) {
    && s.phase == Disconnected && s.timers == 0 && StartInLoop !in s.pending
    && (s.channel.Some? ==> !s.channel.value.added)
    && Count(ResetChannel, s.pending) == (if s.channel.Some? then 1 else 0)
    && (s.listed ==> s.dispatching && s.channel.Some? && s.handled)
  }

  lemma RetryKeeps(s: State, fd: nat)
    requires InHand(s, fd) && Idle(s) && Delays(s)
    ensures Inv(AfterRetry(s, fd))
  {
    hide Backoff, Delays;
    RetryKeepsDelays(s, fd);
  }

  /** A new descriptor, in the hands of the running handler. */
  lemma NewDescriptor(s: State)
    requires Accounted(s) && Idle(s)
    ensures InHand(s.(fates := s.fates + [Fate(0, 0)]), |s.fates|) && Idle(s.(fates := s.fates + [Fate(0, 0)]))
  {
  }

  lemma ConnectFails(s: State, fd: nat)
    requires InHand(s, fd) && Idle(s) && Delays(s)
    ensures Inv(AfterClose(s, fd).(gaveUp := true))
  {
    hide Backoff, Delays;
    SameDelays(s, AfterClose(s, fd).(gaveUp := true));
  }

  lemma ConnectWaits(s: State, fd: nat)
    requires InHand(s, fd) && Idle(s) && Delays(s) && s.channel.None?
    ensures Inv(s.(phase := Connecting, channel := Some(Channel(fd, true))))
  {
    hide Backoff, Delays;
    SameDelays(s, s.(phase := Connecting, channel := Some(Channel(fd, true))));
  }

  lemma ConnectKeeps(s: State, errno: Errno)
    requires Accounted(s) && Idle(s) && Delays(s) && s.channel.None?
    ensures AfterConnect(s, errno).Ok? && Inv(AfterConnect(s, errno).state)
  {
    hide Backoff, Delays, AfterRetry, AfterClose, Inv, InHand, Accounted, Idle;
    var t := s.(fates := s.fates + [Fate(0, 0)]);
    SameDelays(s, t);
    NewDescriptor(s);
    match errno
    case NoError | EINPROGRESS | EINTR | EISCONN => ConnectWaits(t, |s.fates|);
    case EAGAIN | EADDRINUSE | EADDRNOTAVAIL | ECONNREFUSED | ENETUNREACH => RetryKeeps(t, |s.fates|);
    case EACCES | EPERM | EAFNOSUPPORT | EALREADY | ENOTSOCK | Unexpected => ConnectFails(t, |s.fates|);
  }

  lemma SameDelays(s: State, t: State)
    requires Delays(s) && t.delay == s.delay && t.waits == s.waits
    ensures Delays(t)
  {
  }

  lemma StartKeeps(s: State, errno: Errno)
    requires Accounted(s) && Idle(s) && Delays(s) && s.channel.None?
    ensures AfterStart(s, errno).Ok? && Inv(AfterStart(s, errno).state)
  {
    if s.connect { ConnectKeeps(s, errno); }
  }

  lemma AppendCount(tasks: seq<Task>, x: Task)
    ensures multiset(tasks + [x]) == multiset(tasks) + multiset{x}
  {
  }

  lemma PopCount(tasks: seq<Task>)
    requires tasks != []
    ensures multiset(tasks[1..]) == multiset(tasks) - multiset{tasks[0]}
  {
    assert tasks == [tasks[0]] + tasks[1..];
  }

  /** Where the channel may be removed: connecting, and not from another channel's callback. */
  lemma RemoveKeeps(s: State, current: bool)
    requires Inv(s) && s.phase == Connecting && (current ==> s.handled)
    requires current || !(s.dispatching && s.listed)
    ensures var t := AfterRemove(s, current);
            && t.Ok? && t.state.channel.Some?
            && InHand(t.state, t.state.channel.value.fd)
            && Idle(t.state.(phase := Disconnected))
            && t.state == s.(channel := Some(s.channel.value.(added := false)), pending := s.pending + [ResetChannel])
  {
    hide Delays;
    AppendCount(s.pending, ResetChannel);
  }

  lemma GiveBackKeeps(s: State, current: bool)
    requires Inv(s.(phase := Connecting)) && (current ==> s.handled)
    requires current || !(s.dispatching && s.listed)
    ensures AfterGivingBack(s, current).Ok? && Inv(AfterGivingBack(s, current).state)
    ensures AfterGivingBack(s, current).state.phase == Disconnected
  {
    hide Delays, Accounted, Attempts, ChannelOk, Idle;
    var c := s.(phase := Connecting);
    RemoveKeeps(c, current);
    var t := AfterRemove(c, current).state.(phase := Disconnected);
    SameDelays(c, t);
    RetryKeeps(t, t.channel.value.fd);
    RetryIgnoresPhase(AfterRemove(s, current).state, t, t.channel.value.fd);
  }

  lemma RetryIgnoresPhase(s: State, t: State, fd: nat)
    requires fd < |s.fates| && t == s.(phase := Disconnected)
    ensures AfterRetry(s, fd) == AfterRetry(t, fd) && AfterRetry(s, fd).phase == Disconnected
  {
  }

  lemma WriteKeeps(s: State, soError: bool, selfConnect: bool)
    requires Inv(s) && s.handled && (s.phase == Connecting || s.phase == Disconnected)
    ensures AfterWrite(s, soError, selfConnect).Ok? && Inv(AfterWrite(s, soError, selfConnect).state)
  {
    hide Delays, AfterRemove, AfterGivingBack;
    if s.phase == Connecting {
      if soError || selfConnect {
        GiveBackKeeps(s, true);
      } else {
        RemoveKeeps(s, true);
        SameDelays(s, AfterWrite(s, soError, selfConnect).state);
      }
    }
  }

  lemma HandleKeeps(s: State, err: bool, out: bool, soError: bool, selfConnect: bool)
    requires Inv(s) && s.handled && s.phase == Connecting
    ensures var o := AfterHandle(s, err, out, soError, selfConnect); o.Ok? && Inv(o.state)
  {
    hide Inv, AfterWrite, AfterGivingBack;
    if err {
      GiveBackKeeps(s, true);
      StillHandled(s);
      if out { WriteKeeps(AfterError(s).state, soError, selfConnect); }
    } else if out {
      WriteKeeps(s, soError, selfConnect);
    }
  }

  lemma StillHandled(s: State)
    requires AfterGivingBack(s, true).Ok?
    ensures AfterGivingBack(s, true).state.handled == s.handled
  {
  }

  lemma StartTaskKeeps(s: State, errno: Errno)
    requires Inv(s) && !s.dispatching && s.pending != [] && s.pending[0] == StartInLoop
    ensures var o := Next(s, RunFunctor(errno)); o.Ok? && Inv(o.state)
  {
    hide Delays, Accounted, AfterStart;
    var u := s.(pending := s.pending[1..]);
    PopCount(s.pending);
    SameDelays(s, u);
    SameFates(s, u);
    assert ResetChannel !in s.pending;
    StartKeeps(u, errno);
  }

  lemma StopTaskKeeps(s: State, errno: Errno)
    requires Inv(s) && !s.dispatching && s.pending != [] && s.pending[0] == StopInLoop
    ensures var o := Next(s, RunFunctor(errno)); o.Ok? && Inv(o.state)
  {
    hide Delays, Accounted, AfterGivingBack;
    var u := s.(pending := s.pending[1..]);
    PopCount(s.pending);
    SameDelays(s, u);
    SameFates(s, u);
    if s.phase == Connecting { GiveBackKeeps(u.(phase := Disconnected), false); }
  }

  lemma ResetTaskKeeps(s: State, errno: Errno)
    requires Inv(s) && !s.dispatching && s.pending != [] && s.pending[0] == ResetChannel
    ensures var o := Next(s, RunFunctor(errno)); o.Ok? && Inv(o.state)
  {
    hide Delays, Accounted;
    var t := s.(pending := s.pending[1..], channel := None);
    PopCount(s.pending);
    SameDelays(s, t);
    SameFates(s, t);
  }

  lemma SameFates(s: State, t: State)
    requires Accounted(s) && t.fates == s.fates
    requires t.channel == s.channel || (t.channel.None? && s.channel.Some? && !s.channel.value.added)
    ensures Accounted(t)
  {
  }

  lemma CallKeeps(s: State, e: Event)
    requires Inv(s) && Enabled(s, e) && MayCall(s, e)
    requires e.Start? || e.Stop? || e.Restart? || e.StartFromOther? || e.StopFromOther?
    ensures var o := Next(s, e); o.Ok? && Inv(o.state)
  {
    hide Accounted, AfterStart, AfterGivingBack, Backoff;
    match e
    case Start(errno) =>
      var u := s.(connect := true, gaveUp := false);
      SameDelays(s, u);
      SameFates(s, u);
      StartKeeps(u, errno);
    case Restart(errno) =>
      var u := s.(phase := Disconnected, delay := INIT_RETRY_DELAY_MS, waits := [], connect := true, gaveUp := false);
      assert Backoff(0) == INIT_RETRY_DELAY_MS by { FirstDelay(); }
      SameFates(s, u);
      StartKeeps(u, errno);
    case Stop =>
      var u := s.(connect := false);
      SameFates(s, u);
      if s.phase == Connecting { GiveBackKeeps(u.(phase := Disconnected), false); }
    case StartFromOther =>
      AppendCount(s.pending, StartInLoop);
      SameFates(s, s.(connect := true, gaveUp := false, pending := s.pending + [StartInLoop]));
    case StopFromOther =>
      AppendCount(s.pending, StopInLoop);
      SameFates(s, s.(connect := false, pending := s.pending + [StopInLoop]));
  }

  lemma FirstDelay()
    ensures Backoff(0) == INIT_RETRY_DELAY_MS
  {
    assert Pow2(0) == 1;
  }

  lemma LoopKeeps(s: State, e: Event)
    requires Inv(s) && Enabled(s, e)
    requires e.Poll? || e.Handle? || e.EndDispatch?
    ensures var o := Next(s, e); o.Ok? && Inv(o.state)
  {
    hide Accounted, AfterStart, AfterHandle, Delays;
    match e
    case Poll(listed) =>
      var u := s.(dispatching := true, listed := listed, handled := false);
      SameDelays(s, u);
      SameFates(s, u);
    case Handle(err, out, soError, selfConnect) =>
      var u := s.(handled := true);
      SameDelays(s, u);
      SameFates(s, u);
      HandleKeeps(u, err, out, soError, selfConnect);
    case EndDispatch =>
      var u := s.(dispatching := false, listed := false, handled := false);
      SameDelays(s, u);
      SameFates(s, u);
  }

  lemma TimerKeeps(s: State, errno: Errno)
    requires Inv(s) && Enabled(s, FireTimer(errno)) && Timely(s, FireTimer(errno))
    ensures var o := Next(s, FireTimer(errno)); o.Ok? && Inv(o.state)
  {
    hide Accounted, Delays, AfterConnect;
    var u := s.(timers := s.timers - 1);
    SameDelays(s, u);
    SameFates(s, u);
    if s.connect { StartKeeps(u, errno); }
  }

  /** A timer in time is exact: one that fires before the reset fails an assert, if `connect` gets that far. */
  lemma TimerIsTimelyExactly(s: State, errno: Errno)
    requires Inv(s) && Enabled(s, FireTimer(errno))
    ensures Timely(s, FireTimer(errno)) <==> forall any :: Next(s, FireTimer(any)).Ok?
  {
    hide Accounted, Delays;
    if Timely(s, FireTimer(errno)) {
      forall any
        ensures Next(s, FireTimer(any)).Ok?
      {
        TimerKeeps(s, any);
      }
    } else {
      assert Next(s, FireTimer(EINPROGRESS)).Broken?;
    }
  }

  lemma TaskKeeps(s: State, errno: Errno)
    requires Inv(s) && Enabled(s, RunFunctor(errno))
    ensures var o := Next(s, RunFunctor(errno)); o.Ok? && Inv(o.state)
  {
    hide Inv, Next;
    match s.pending[0]
    case StartInLoop => StartTaskKeeps(s, errno);
    case StopInLoop => StopTaskKeeps(s, errno);
    case ResetChannel => ResetTaskKeeps(s, errno);
  }

  lemma StepKeeps(s: State, e: Event)
    requires Inv(s) && Enabled(s, e) && MayCall(s, e) && Timely(s, e)
    ensures var o := Next(s, e); o.Ok? && Inv(o.state)
  {
    hide Inv, Next, MayCall, Timely;
    match e
    case RunFunctor(errno) => TaskKeeps(s, errno);
    case Poll(_) => LoopKeeps(s, e);
    case Handle(_, _, _, _) => LoopKeeps(s, e);
    case FireTimer(errno) => TimerKeeps(s, errno);
    case EndDispatch => LoopKeeps(s, e);
    case _ => CallKeeps(s, e);
  }

  lemma {:induction false} RunKeeps(s: State, es: seq<Event>)
    requires Inv(s) && Legal(s, es)
    ensures Play(s, es).Ok? && Inv(Play(s, es).state)
    decreases |es|
  {
    hide Inv, Next, MayCall, Enabled;
    if es != [] {
      StepKeeps(s, es[0]);
      RunKeeps(Next(s, es[0]).state, es[1..]);
    }
  }

  lemma StartIsValid()
    ensures Inv(INIT)
  {
    FirstDelay();
  }

  // ---------------------------------------------------------------- main results

  /**
    In every disciplined run: no assert fails; each descriptor created is held by the channel, or was
    closed once, or was handed over once; and the channel exists exactly while connecting or until the
    one pending reset has run.
   */
  lemma DescriptorsAreAccountedFor(es: seq<Event>)
    requires Legal(INIT, es)
    ensures var o := Play(INIT, es);
            && o.Ok?
            && (forall fd: nat :: fd < |o.state.fates| ==>
                  if Holds(o.state, fd) then o.state.fates[fd] == Fate(0, 0)
                  else o.state.fates[fd] == Fate(1, 0) || o.state.fates[fd] == Fate(0, 1))
            && (o.state.channel.Some? <==> o.state.phase == Connecting || ResetChannel in o.state.pending)
            && Count(ResetChannel, o.state.pending) <= 1
  {
    StartIsValid();
    RunKeeps(INIT, es);
  }

  /** The k-th retry since the last restart waits min(500 * 2^k, 30000) milliseconds. */
  lemma RetriesBackOff(es: seq<Event>)
    requires Legal(INIT, es)
    ensures var o := Play(INIT, es);
            o.Ok? && forall k :: 0 <= k < |o.state.waits| ==> o.state.waits[k] == Min(500 * Pow2(k), 30_000)
  {
    StartIsValid();
    RunKeeps(INIT, es);
  }

  /** A connector that is to connect and neither does nor has given up has exactly one attempt to come. */
  lemma NoAttemptIsForgotten(es: seq<Event>)
    requires Legal(INIT, es)
    ensures var o := Play(INIT, es);
            && o.Ok?
            && o.state.timers + Count(StartInLoop, o.state.pending) <= 1
            && (o.state.connect && o.state.phase == Disconnected && !o.state.gaveUp ==>
                  o.state.timers + Count(StartInLoop, o.state.pending) == 1)
  {
    StartIsValid();
    RunKeeps(INIT, es);
  }

  // ---------------------------------------------------------------- what becomes of a descriptor

  /** The connection came about, and the connection is wanted: the descriptor goes to the new-connection callback. */
  predicate HandsOver(s: State, e: Event) {
    Succeeds(e) && s.connect
  }

  predicate Succeeds(e: Event) {
    e.Handle? && e.out && !e.err && !e.soError && !e.selfConnect
  }

  /** The attempt under way fails, or is stopped. */
  predicate Fails(s: State, e: Event) {
    || (e.Handle? && (e.err || (e.out && (e.soError || e.selfConnect))))
    || ((e.Stop? || (e.RunFunctor? && s.pending != [] && s.pending[0] == StopInLoop)) && s.phase == Connecting)
  }

  /** The step calls `connect`. */
  predicate Tries(s: State, e: Event) {
    || e.Start? || e.Restart?
    || (s.connect && (e.FireTimer? || (e.RunFunctor? && s.pending != [] && s.pending[0] == StartInLoop)))
  }

  function Answer(e: Event): Errno {
    match e
    case Start(errno) => errno
    case Restart(errno) => errno
    case FireTimer(errno) => errno
    case RunFunctor(errno) => errno
    case _ => NoError
  }

  /** What `connect` may answer when the connection is to come about by itself, and when it is worth another try. */
  const UNDERWAY: set<Errno> := {NoError, EINPROGRESS, EINTR, EISCONN}
  const TRY_AGAIN: set<Errno> := {EAGAIN, EADDRINUSE, EADDRNOTAVAIL, ECONNREFUSED, ENETUNREACH}

  /** Where the descriptors are after a step, from where they were and what the step was. */
  ghost predicate FatesFollow(s: State, e: Event, t: State) {
    && |t.fates| == |s.fates| + (if Tries(s, e) then 1 else 0)
    && (forall fd: nat :: fd < |s.fates| ==>
          t.fates[fd] == if Holds(s, fd) && HandsOver(s, e) then Fate(0, 1)
                         else if Holds(s, fd) && (Succeeds(e) || Fails(s, e)) then Fate(1, 0)
                         else s.fates[fd])
    && (Tries(s, e) ==> t.fates[|s.fates|] == if Answer(e) in UNDERWAY then Fate(0, 0) else Fate(1, 0))
    && (forall fd: nat :: Holds(t, fd) <==>
          (Tries(s, e) && Answer(e) in UNDERWAY && fd == |s.fates|) || (Holds(s, fd) && !Succeeds(e) && !Fails(s, e)))
    && t.phase == (if Succeeds(e) then Connected
                   else if Tries(s, e) then (if Answer(e) in UNDERWAY then Connecting else Disconnected)
                   else if Fails(s, e) then Disconnected
                   else s.phase)
  }

  /** Somebody wants the connection after the step. */
  predicate Wanted(s: State, e: Event) {
    e.Start? || e.Restart? || e.StartFromOther? || (s.connect && !e.Stop? && !e.StopFromOther?)
  }

  /** The step sets a retry timer. */
  predicate Retries(s: State, e: Event) {
    Wanted(s, e) && (Fails(s, e) || (Tries(s, e) && Answer(e) in TRY_AGAIN))
  }

  /** The functors that a step posts. */
  function Posts(s: State, e: Event): seq<Task> {
    if e.StartFromOther? then [StartInLoop]
    else if e.StopFromOther? then [StopInLoop]
    else if Succeeds(e) || Fails(s, e) then [ResetChannel]
    else []
  }

  /** The flags, the timers, the delays and the functors after a step. */
  predicate RetriesFollow(s: State, e: Event, t: State) {
    var waits := if e.Restart? then [] else s.waits;
    var delay := if e.Restart? then 500 else s.delay;
    && t.connect == Wanted(s, e)
    && t.timers == s.timers - (if e.FireTimer? then 1 else 0) + (if Retries(s, e) then 1 else 0)
    && t.waits == (if Retries(s, e) then waits + [delay] else waits)
    && t.pending == (if e.RunFunctor? && s.pending != [] then s.pending[1..] else s.pending) + Posts(s, e)
    && t.gaveUp == ((s.gaveUp && !e.Start? && !e.Restart? && !e.StartFromOther?) ||
                    (Tries(s, e) && Answer(e) !in UNDERWAY && Answer(e) !in TRY_AGAIN))
  }

  lemma ConnectFollows(s: State, errno: Errno)
    requires s.channel.None? && s.phase == Disconnected
    ensures var o := AfterConnect(s, errno);
            && o.Ok? && |o.state.fates| == |s.fates| + 1
            && (forall fd: nat :: fd < |s.fates| ==> o.state.fates[fd] == s.fates[fd])
            && o.state.fates[|s.fates|] == (if errno in UNDERWAY then Fate(0, 0) else Fate(1, 0))
            && (forall fd: nat :: Holds(o.state, fd) <==> errno in UNDERWAY && fd == |s.fates|)
            && o.state.phase == (if errno in UNDERWAY then Connecting else Disconnected)
            && o.state.connect == s.connect
            && o.state.timers == s.timers + (if s.connect && errno in TRY_AGAIN then 1 else 0)
            && o.state.waits == (if s.connect && errno in TRY_AGAIN then s.waits + [s.delay] else s.waits)
            && o.state.pending == s.pending && o.state.gaveUp == (s.gaveUp || (errno !in UNDERWAY && errno !in TRY_AGAIN))
  {
  }

  lemma GiveBackFollows(s: State, current: bool)
    requires AfterGivingBack(s, current).Ok?
    ensures var t := AfterGivingBack(s, current).state;
            && |s.fates| == |t.fates|
            && (forall fd: nat :: fd < |s.fates| ==>
                  t.fates[fd] == if Holds(s, fd) then s.fates[fd].(closes := s.fates[fd].closes + 1) else s.fates[fd])
            && (forall fd: nat :: !Holds(t, fd))
            && t.phase == Disconnected && t.connect == s.connect
            && t.timers == s.timers + (if s.connect then 1 else 0)
            && t.waits == (if s.connect then s.waits + [s.delay] else s.waits)
            && t.pending == s.pending + [ResetChannel] && t.gaveUp == s.gaveUp
  {
  }

  /** A step that does no more than give the descriptor back. */
  lemma GaveBackFollows(s: State, e: Event, u: State, current: bool)
    requires Inv(s) && Fails(s, e) && !Tries(s, e) && !Succeeds(e) && !e.FireTimer? && !e.Restart?
    requires u.fates == s.fates && u.channel == s.channel && u.timers == s.timers && u.waits == s.waits && u.delay == s.delay
    requires u.connect == Wanted(s, e) && AfterGivingBack(u, current).Ok? && u.gaveUp == s.gaveUp && !e.Start?
    requires !e.StartFromOther? && !e.StopFromOther?
    requires u.pending == if e.RunFunctor? && s.pending != [] then s.pending[1..] else s.pending
    ensures FatesFollow(s, e, AfterGivingBack(u, current).state) && RetriesFollow(s, e, AfterGivingBack(u, current).state)
  {
    hide Inv, AfterGivingBack, Tries, Fails, Succeeds, Wanted;
    HeldMeans(s);
    GiveBackFollows(u, current);
  }

  /** A step that does no more than call `connect`. */
  lemma TriedFollows(s: State, e: Event, u: State)
    requires Tries(s, e) && !Fails(s, e) && !Succeeds(e) && u.channel.None? && s.channel.None? && u.phase == Disconnected
    requires u.fates == s.fates && u.connect && Wanted(s, e) && (u.gaveUp <==> s.gaveUp && !e.Start? && !e.Restart?)
    requires u.timers == (if e.FireTimer? then s.timers - 1 else s.timers)
    requires u.waits == (if e.Restart? then [] else s.waits) && u.delay == (if e.Restart? then 500 else s.delay)
    requires u.pending == (if e.RunFunctor? && s.pending != [] then s.pending[1..] else s.pending)
    ensures var o := AfterConnect(u, Answer(e)); o.Ok? && FatesFollow(s, e, o.state) && RetriesFollow(s, e, o.state)
  {
    hide AfterConnect, Fails, Succeeds, Wanted;
    ConnectFollows(u, Answer(e));
  }

  /** A step that leaves the attempts alone. */
  lemma NothingFollows(s: State, e: Event, t: State)
    requires !Fails(s, e) && !Tries(s, e) && !Succeeds(e) && !e.FireTimer? && !e.Restart?
    requires t.fates == s.fates && t.timers == s.timers && t.waits == s.waits && t.phase == s.phase && t.connect == Wanted(s, e)
    requires t.gaveUp == s.gaveUp && !e.Start? && !e.StartFromOther? && !e.StopFromOther?
    requires t.pending == if e.RunFunctor? && s.pending != [] then s.pending[1..] else s.pending
    requires forall fd: nat :: Holds(t, fd) <==> Holds(s, fd)
    ensures FatesFollow(s, e, t) && RetriesFollow(s, e, t)
  {
  }

  lemma HandleFollows(s: State, e: Event)
    requires Inv(s) && Enabled(s, e) && e.Handle?
    ensures var o := Next(s, e); o.Ok? && FatesFollow(s, e, o.state) && RetriesFollow(s, e, o.state)
  {
    hide Delays, Attempts, AfterGivingBack;
    var u := s.(handled := true);
    LoopKeeps(s, e);
    if Fails(s, e) {
      GaveBackFollows(s, e, u, true);
      GiveBackFollows(u, true);
    }
  }

  lemma StartFollows(s: State, e: Event)
    requires Inv(s) && Enabled(s, e) && MayCall(s, e) && Timely(s, e) && (e.Start? || e.Restart? || e.FireTimer?)
    ensures var o := Next(s, e); o.Ok? && FatesFollow(s, e, o.state) && RetriesFollow(s, e, o.state)
  {
    hide AfterConnect, Delays, ResetFirst, FatesFollow, RetriesFollow;
    match e
    case Start(errno) => TriedFollows(s, e, s.(connect := true, gaveUp := false));
    case Restart(errno) =>
      TriedFollows(s, e, s.(phase := Disconnected, delay := INIT_RETRY_DELAY_MS, waits := [], connect := true, gaveUp := false));
    case FireTimer(errno) =>
      var u := s.(timers := s.timers - 1);
      if s.connect { TriedFollows(s, e, u); } else { TimerFollows(s, errno); }
  }

  /** A retry timer of a connection that is not wanted any more. */
  lemma TimerFollows(s: State, errno: Errno)
    requires Inv(s) && Enabled(s, FireTimer(errno)) && !s.connect
    ensures var e := FireTimer(errno); var o := Next(s, e); o.Ok? && FatesFollow(s, e, o.state) && RetriesFollow(s, e, o.state)
  {
    hide Accounted, Delays, ResetFirst;
  }

  lemma StopFollows(s: State)
    requires Inv(s) && MayCall(s, Stop)
    ensures var o := Next(s, Stop); o.Ok? && FatesFollow(s, Stop, o.state) && RetriesFollow(s, Stop, o.state)
  {
    hide AfterGivingBack, Inv;
    StepKeeps(s, Stop);
    if s.phase == Connecting {
      GaveBackFollows(s, Stop, s.(connect := false, phase := Disconnected), false);
    } else {
      NothingFollows(s, Stop, s.(connect := false));
    }
  }

  lemma StepFollows(s: State, e: Event)
    requires Inv(s) && Enabled(s, e) && MayCall(s, e) && Timely(s, e)
    ensures var o := Next(s, e); o.Ok? && FatesFollow(s, e, o.state) && RetriesFollow(s, e, o.state)
  {
    hide AfterStart, AfterStop, AfterHandle, AfterTask, Delays, Attempts, Inv, Accounted;
    match e
    case Start(_) => StartFollows(s, e);
    case Restart(_) => StartFollows(s, e);
    case FireTimer(_) => StartFollows(s, e);
    case RunFunctor(errno) => TaskFollows(s, errno);
    case Handle(_, _, _, _) => HandleFollows(s, e);
    case Stop => StopFollows(s);
    case _ =>
  }

  lemma TaskFollows(s: State, errno: Errno)
    requires Inv(s) && Enabled(s, RunFunctor(errno))
    ensures var e := RunFunctor(errno); var o := Next(s, e); o.Ok? && FatesFollow(s, e, o.state) && RetriesFollow(s, e, o.state)
  {
    hide Inv, Next, FatesFollow, RetriesFollow;
    match s.pending[0]
    case StartInLoop => StartTaskFollows(s, errno);
    case StopInLoop => StopTaskFollows(s, errno);
    case ResetChannel => ResetTaskFollows(s, errno);
  }

  lemma StartTaskFollows(s: State, errno: Errno)
    requires Inv(s) && Enabled(s, RunFunctor(errno)) && s.pending[0] == StartInLoop
    ensures var e := RunFunctor(errno); var o := Next(s, e); o.Ok? && FatesFollow(s, e, o.state) && RetriesFollow(s, e, o.state)
  {
    hide AfterConnect, Inv, Next, Tries, Fails, Succeeds, Holds, FatesFollow, RetriesFollow;
    var e := RunFunctor(errno);
    var u := s.(pending := s.pending[1..]);
    StartTaskMeans(s);
    TaskMeans(s, errno);
    SameHolds(s, u);
    if s.connect { TriedFollows(s, e, u); } else { NothingFollows(s, e, u); }
  }

  lemma StartTaskMeans(s: State)
    requires Inv(s) && s.pending != [] && s.pending[0] == StartInLoop
    ensures s.phase == Disconnected && s.channel.None?
  {
    hide Delays, Accounted;
    assert ResetChannel !in s.pending;
  }

  lemma TaskMeans(s: State, errno: Errno)
    requires Enabled(s, RunFunctor(errno))
    ensures var e := RunFunctor(errno); var task := s.pending[0];
            && Next(s, e) == AfterTask(s.(pending := s.pending[1..]), task, errno)
            && (Tries(s, e) <==> s.connect && task == StartInLoop)
            && (Fails(s, e) <==> s.phase == Connecting && task == StopInLoop)
            && !Succeeds(e)
  {
  }

  lemma SameHolds(s: State, t: State)
    requires t.channel == s.channel
    ensures forall fd: nat :: Holds(t, fd) <==> Holds(s, fd)
  {
  }

  lemma HeldMeans(s: State)
    requires Inv(s)
    ensures forall fd: nat :: Holds(s, fd) ==> fd < |s.fates| && s.fates[fd] == Fate(0, 0) && s.phase == Connecting
  {
    hide Delays, Attempts;
  }

  lemma StopTaskFollows(s: State, errno: Errno)
    requires Inv(s) && Enabled(s, RunFunctor(errno)) && s.pending[0] == StopInLoop
    ensures var e := RunFunctor(errno); var o := Next(s, e); o.Ok? && FatesFollow(s, e, o.state) && RetriesFollow(s, e, o.state)
  {
    hide AfterGivingBack, Inv, Next, Tries, Fails, Succeeds, Holds, FatesFollow, RetriesFollow;
    var e := RunFunctor(errno);
    var u := s.(pending := s.pending[1..]);
    StopTaskKeeps(s, errno);
    TaskMeans(s, errno);
    SameHolds(s, u);
    if s.phase == Connecting {
      GaveBackFollows(s, e, u.(phase := Disconnected), false);
    } else {
      NothingFollows(s, e, u);
    }
  }

  lemma ResetTaskFollows(s: State, errno: Errno)
    requires Inv(s) && Enabled(s, RunFunctor(errno)) && s.pending[0] == ResetChannel
    ensures var e := RunFunctor(errno); var o := Next(s, e); o.Ok? && FatesFollow(s, e, o.state) && RetriesFollow(s, e, o.state)
  {
    hide Delays, Attempts;
    assert Count(ResetChannel, s.pending) > 0;
  }

  /**
    In every disciplined run a step hands a descriptor over exactly if it is the channel's, the channel
    becomes writable without an error, the socket has none and is not connected to itself, and the
    connection is wanted; the connector then counts as connected.  A descriptor given up in any other way
    is closed: one that is not wanted any more, one whose attempt fails or is stopped, and a new one that
    `connect` refuses.
   */
  lemma HandedOverExactly(es: seq<Event>, e: Event)
    requires Legal(INIT, es) && Play(INIT, es).Ok?
    requires var s := Play(INIT, es).state; Enabled(s, e) && MayCall(s, e) && Timely(s, e)
    ensures var s := Play(INIT, es).state; var o := Next(s, e);
            && o.Ok? && FatesFollow(s, e, o.state)
            && (forall fd: nat :: fd < |s.fates| ==>
                  (o.state.fates[fd].handed != s.fates[fd].handed <==> Holds(s, fd) && HandsOver(s, e)))
            && (HandsOver(s, e) ==>
                  s.phase == Connecting && s.channel.Some? && Holds(s, s.channel.value.fd) && o.state.phase == Connected)
  {
    hide Next, Enabled, MayCall, Timely, Delays, Attempts;
    StartIsValid();
    RunKeeps(INIT, es);
    var s := Play(INIT, es).state;
    StepFollows(s, e);
    if HandsOver(s, e) { HandledWhileConnecting(s, e); }
  }

  lemma HandledWhileConnecting(s: State, e: Event)
    requires Inv(s) && Enabled(s, e) && e.Handle?
    ensures s.phase == Connecting && s.channel.Some? && Holds(s, s.channel.value.fd)
  {
  }

  /**
    In every disciplined run a retry timer is set exactly if the connection is wanted and an attempt fails
    in a way worth another try, with the next delay; a restart begins the delays anew; and calls on other
    threads post the functor of their name.
   */
  lemma RetriedExactly(es: seq<Event>, e: Event)
    requires Legal(INIT, es) && Play(INIT, es).Ok?
    requires var s := Play(INIT, es).state; Enabled(s, e) && MayCall(s, e) && Timely(s, e)
    ensures var s := Play(INIT, es).state; var o := Next(s, e); o.Ok? && RetriesFollow(s, e, o.state)
  {
    hide Next, Enabled, MayCall, Timely, Inv;
    StartIsValid();
    RunKeeps(INIT, es);
    StepFollows(Play(INIT, es).state, e);
  }

  // ---------------------------------------------------------------- the discipline is exact

  predicate UserCall(e: Event) {
    e.Start? || e.Stop? || e.Restart? || e.StartFromOther? || e.StopFromOther?
  }

  predicate SameCall(e: Event, f: Event) {
    && (e.Start? <==> f.Start?) && (e.Stop? <==> f.Stop?) && (e.Restart? <==> f.Restart?)
    && (e.StartFromOther? <==> f.StartFromOther?) && (e.StopFromOther? <==> f.StopFromOther?)
  }

  /** The steps `es` of the loop, with no further call and no early timer, run into a failing assert. */
  ghost predicate Breaks(s: State, es: seq<Event>)
    decreases |es|
  {
    && es != [] && !UserCall(es[0]) && Enabled(s, es[0]) && Timely(s, es[0])
    && (Next(s, es[0]).Broken? || Breaks(Next(s, es[0]).state, es[1..]))
  }

  ghost predicate CanBreak(o: Outcome) {
    o.Broken? || exists es :: Breaks(o.state, es)
  }

  lemma CanBreakBefore(s: State, e: Event)
    requires Enabled(s, e) && !UserCall(e) && Timely(s, e) && CanBreak(Next(s, e))
    ensures CanBreak(Ok(s))
  {
    if Next(s, e).Broken? {
      assert Breaks(s, [e]);
    } else {
      var es :| Breaks(Next(s, e).state, es);
      assert ([e] + es)[1..] == es;
      assert Breaks(s, [e] + es);
    }
  }

  lemma {:induction false} NeverBreaks(s: State, es: seq<Event>)
    requires Inv(s)
    ensures !Breaks(s, es)
    decreases |es|
  {
    hide Inv, Next, Enabled;
    if es != [] && !UserCall(es[0]) && Enabled(s, es[0]) && Timely(s, es[0]) {
      StepKeeps(s, es[0]);
      NeverBreaks(Next(s, es[0]).state, es[1..]);
    }
  }

  /** A start is queued that will find the connector busy. */
  ghost predicate Doomed(s: State, k: nat) {
    && !s.dispatching && s.connect
    && k < |s.pending| && s.pending[k] == StartInLoop
    && (forall i :: 0 <= i < k ==> s.pending[i] != StartInLoop)
    && (s.phase == Connected || (s.channel.Some? && forall i :: 0 <= i < k ==> s.pending[i] != ResetChannel))
  }

  lemma {:induction false} DoomedBreaks(s: State, k: nat)
    requires Doomed(s, k)
    ensures CanBreak(Ok(s))
    decreases k
  {
    hide Breaks, CanBreak;
    var e := RunFunctor(EINPROGRESS);
    var o := Next(s, e);
    if o.Broken? {
      BrokenBreaks();
    } else {
      assert k > 0;
      assert s.pending[0] != StartInLoop;
      assert Doomed(o.state, k - 1);
      DoomedBreaks(o.state, k - 1);
    }
    CanBreakBefore(s, e);
  }

  lemma BrokenBreaks()
    ensures CanBreak(Broken)
  {
  }

  /** A retry timer fires while the connector is connecting. */
  lemma TimerBreaks(s: State)
    requires s.phase != Disconnected && s.timers > 0 && ResetChannel !in s.pending
    ensures CanBreak(Ok(s))
  {
    hide Breaks, CanBreak;
    BrokenBreaks();
    if s.dispatching {
      CanBreakBefore(s, FireTimer(EINPROGRESS));
    } else {
      var t := Next(s, Poll(false)).state;
      CanBreakBefore(t, FireTimer(EINPROGRESS));
      CanBreakBefore(s, Poll(false));
    }
  }

  lemma FirstStart(tasks: seq<Task>) returns (k: nat)
    requires StartInLoop in tasks
    ensures k < |tasks| && tasks[k] == StartInLoop && forall i :: 0 <= i < k ==> tasks[i] != StartInLoop
  {
    k := 0;
    while tasks[k] != StartInLoop
      invariant k < |tasks| && forall i :: 0 <= i < k ==> tasks[i] != StartInLoop
      decreases |tasks| - k
    {
      k := k + 1;
    }
  }

  /** Connecting, with a start still queued or a timer still set. */
  lemma BusyBreaks(s: State)
    requires s.connect && s.phase == Connecting && s.channel.Some? && ResetChannel !in s.pending
    requires s.timers > 0 || StartInLoop in s.pending
    ensures CanBreak(Ok(s))
  {
    if s.timers > 0 {
      TimerBreaks(s);
    } else {
      var k := FirstStart(s.pending);
      if s.dispatching {
        var t := Next(s, EndDispatch).state;
        assert Doomed(t, k);
        DoomedBreaks(t, k);
        CanBreakBefore(s, EndDispatch);
      } else {
        assert Doomed(s, k);
        DoomedBreaks(s, k);
      }
    }
  }

  /** Two attempts are to come: the first start queued connects, and the other then finds it connecting. */
  lemma {:induction false} SecondAttemptBreaks(s: State, k: nat)
    requires s.connect && s.phase == Disconnected && !s.dispatching
    requires k < |s.pending| && s.pending[k] == StartInLoop && forall i :: 0 <= i < k ==> s.pending[i] != StartInLoop
    requires forall i :: k <= i < |s.pending| ==> s.pending[i] != ResetChannel
    requires s.timers > 0 || StartInLoop in s.pending[k + 1..]
    ensures CanBreak(Ok(s))
    decreases k
  {
    hide Breaks, CanBreak;
    var e := RunFunctor(EINPROGRESS);
    var o := Next(s, e);
    if k > 0 {
      assert s.pending[1..][k..] == s.pending[k + 1..];
      SecondAttemptBreaks(o.state, k - 1);
    } else if o.Broken? {
      BrokenBreaks();
    } else {
      assert ResetChannel !in o.state.pending;
      BusyBreaks(o.state);
    }
    CanBreakBefore(s, e);
  }

  /** A start or a restart out of turn, on the loop thread. */
  lemma StartOutOfTurnBreaks(s: State, e: Event)
    requires Inv(s) && !MayCall(s, e) && (e == Start(EINPROGRESS) || e == Restart(EINPROGRESS))
    ensures CanBreak(Next(s, e))
  {
    hide Breaks, CanBreak, Accounted, Delays;
    var o := Next(s, e);
    if o.Broken? {
      BrokenBreaks();
    } else {
      assert s.channel.None?;
      assert ResetChannel !in s.pending;
      BusyBreaks(o.state);
    }
  }

  lemma PostedStartOutOfTurnBreaks(s: State)
    requires Inv(s) && !MayCall(s, StartFromOther)
    ensures CanBreak(Next(s, StartFromOther))
  {
    hide Breaks, CanBreak, Accounted, Delays;
    var t := Next(s, StartFromOther).state;
    var u := if s.dispatching then Next(t, EndDispatch).state else t;
    assert t.pending[|s.pending|] == StartInLoop;
    var k := FirstStart(t.pending);
    if s.phase != Disconnected {
      assert Doomed(u, k) by { assert s.phase == Connecting ==> ResetChannel !in s.pending; }
      DoomedBreaks(u, k);
    } else {
      if s.timers == 0 {
        var j :| 0 <= j < |s.pending| && s.pending[j] == StartInLoop;
        assert t.pending[j] == StartInLoop;
        assert k < |s.pending|;
        assert t.pending[k + 1..][|s.pending| - k - 1] == StartInLoop;
      }
      NoResetBehind(s, k);
      SecondAttemptBreaks(u, k);
    }
    if s.dispatching {
      CanBreakBefore(t, EndDispatch);
    }
  }

  lemma NoResetBehind(s: State, k: nat)
    requires ResetFirst(s.pending) && k <= |s.pending|
    requires k == |s.pending| || s.pending[k] == StartInLoop
    ensures var pending := s.pending + [StartInLoop]; forall i :: k <= i < |pending| ==> pending[i] != ResetChannel
  {
  }

  /**
    The discipline is exact: a call keeps to it if and only if, whatever `connect` answers, neither the
    call nor the steps of the loop after it can run into a failing assert.
   */
  lemma DisciplineIsExact(s: State, e: Event)
    requires Inv(s) && UserCall(e)
    ensures MayCall(s, e) <==> forall f :: UserCall(f) && SameCall(e, f) ==> !CanBreak(Next(s, f))
  {
    hide Inv, Next, MayCall, CanBreak, Breaks;
    if MayCall(s, e) {
      forall f | UserCall(f) && SameCall(e, f)
        ensures !CanBreak(Next(s, f))
      {
        SameGuard(s, e, f);
        StepKeeps(s, f);
        StaysUnbroken(Next(s, f).state);
      }
    } else {
      BadCallBreaks(s, e);
    }
  }

  lemma SameGuard(s: State, e: Event, f: Event)
    requires UserCall(e) && UserCall(f) && SameCall(e, f)
    ensures MayCall(s, e) == MayCall(s, f) && Enabled(s, f)
  {
  }

  lemma StaysUnbroken(s: State)
    requires Inv(s)
    ensures !CanBreak(Ok(s))
  {
    forall es ensures !Breaks(s, es) { NeverBreaks(s, es); }
  }

  lemma BadCallBreaks(s: State, e: Event)
    requires Inv(s) && UserCall(e) && !MayCall(s, e)
    ensures exists f :: UserCall(f) && SameCall(e, f) && CanBreak(Next(s, f))
  {
    hide Inv, CanBreak, Breaks;
    if e.Start? {
      StartOutOfTurnBreaks(s, Start(EINPROGRESS));
      assert SameCall(e, Start(EINPROGRESS));
    } else if e.Restart? {
      StartOutOfTurnBreaks(s, Restart(EINPROGRESS));
      assert SameCall(e, Restart(EINPROGRESS));
    } else if e.Stop? {
      BrokenBreaks();
      assert SameCall(e, Stop) && Next(s, Stop).Broken?;
    } else {
      PostedStartOutOfTurnBreaks(s);
      assert SameCall(e, StartFromOther);
    }
  }

  // ---------------------------------------------------------------- the code

  /** Each method does the step of its name; a caller must be where the asserts hold (`RunKeeps` says when). */
  class Connector {
    var connect: bool
    var phase: Phase
    var channel: Option<Channel>
    var delay: nat
    var pending: seq<Task>       // this connector's functors in the queue of the loop
    var timers: nat              // runAfter(startInLoop)
    var dispatching: bool
    var listed: bool
    var handled: bool
    ghost var fates: seq<Fate>
    var created: nat             // the number of descriptors created
    ghost var waits: seq<nat>
    ghost var gaveUp: bool

    ghost function Value(): State
      reads this
    {
      State(connect, phase, channel, delay, pending, timers, dispatching, listed, handled, fates, waits, gaveUp)
    }

    ghost predicate Valid()
      reads this
    {
      Inv(Value()) && created == |fates|
    }

    constructor ()
      ensures Valid() && Value() == INIT
    {
      connect, phase, channel, delay := false, Disconnected, None, INIT_RETRY_DELAY_MS;
      pending, timers, dispatching, listed, handled := [], 0, false, false, false;
      fates, created, waits, gaveUp := [], 0, [], false;
      new;
      StartIsValid();
    }

    method Close(fd: nat)
      requires fd < |fates|
      modifies this`fates
      ensures Value() == AfterClose(old(Value()), fd) && |fates| == |old(fates)|
    {
      fates := fates[fd := fates[fd].(closes := fates[fd].closes + 1)];
    }

    method Retry(fd: nat)
      requires fd < |fates|
      modifies this
      ensures Value() == AfterRetry(old(Value()), fd) && |fates| == |old(fates)| && created == old(created)
    {
      Close(fd);
      phase := Disconnected;
      if connect {
        timers := timers + 1;
        waits := waits + [delay];
        delay := Min(delay * 2, MAX_RETRY_DELAY_MS);
      }
    }

    method RemoveAndResetChannel(ghost current: bool) returns (fd: nat)
      requires AfterRemove(Value(), current).Ok?
      modifies this`channel, this`pending
      ensures Value() == AfterRemove(old(Value()), current).state
      ensures channel.Some? && fd == channel.value.fd
    {
      fd := channel.value.fd;
      channel := Some(channel.value.(added := false));
      pending := pending + [ResetChannel];
    }

    /** `connecting`. */
    method WaitForConnection(fd: nat)
      requires channel.None?
      modifies this`phase, this`channel
      ensures phase == Connecting && channel == Some(Channel(fd, true))
    {
      phase := Connecting;
      channel := Some(Channel(fd, true));
    }

    method GiveUp(fd: nat)
      requires fd < |fates|
      modifies this`fates, this`gaveUp
      ensures Value() == AfterClose(old(Value()), fd).(gaveUp := true) && |fates| == |old(fates)|
    {
      Close(fd);
      gaveUp := true;
    }

    method Connect(errno: Errno)
      requires created == |fates| && AfterConnect(Value(), errno).Ok?
      modifies this
      ensures Value() == AfterConnect(old(Value()), errno).state && created == |fates|
    {
      hide AfterRetry, AfterClose;
      var fd := created;
      created := created + 1;
      fates := fates + [Fate(0, 0)];
      match errno
      case NoError | EINPROGRESS | EINTR | EISCONN => WaitForConnection(fd);
      case EAGAIN | EADDRINUSE | EADDRNOTAVAIL | ECONNREFUSED | ENETUNREACH => Retry(fd);
      case EACCES | EPERM | EAFNOSUPPORT | EALREADY | ENOTSOCK | Unexpected => GiveUp(fd);
    }

    method StartInLoop(errno: Errno)
      requires created == |fates| && AfterStart(Value(), errno).Ok?
      modifies this
      ensures Value() == AfterStart(old(Value()), errno).state && created == |fates|
    {
      if connect {
        Connect(errno);
      }
    }

    method StopInLoop()
      requires created == |fates| && AfterStop(Value()).Ok?
      modifies this
      ensures Value() == AfterStop(old(Value())).state && created == |fates|
    {
      if phase == Connecting {
        phase := Disconnected;
        var fd := RemoveAndResetChannel(false);
        Retry(fd);
      }
    }

    method Start(errno: Errno)
      requires Valid() && MayCall(Value(), Event.Start(errno))
      modifies this
      ensures Valid() && Next(old(Value()), Event.Start(errno)) == Ok(Value())
    {
      hide Inv, AfterStart;
      StepKeeps(Value(), Event.Start(errno));
      connect := true;
      gaveUp := false;
      StartInLoop(errno);
    }

    method Stop()
      requires Valid() && MayCall(Value(), Event.Stop)
      modifies this
      ensures Valid() && Next(old(Value()), Event.Stop) == Ok(Value())
    {
      hide Inv, AfterStop;
      StepKeeps(Value(), Event.Stop);
      connect := false;
      StopInLoop();
    }

    method Restart(errno: Errno)
      requires Valid() && MayCall(Value(), Event.Restart(errno))
      modifies this
      ensures Valid() && Next(old(Value()), Event.Restart(errno)) == Ok(Value())
    {
      hide Inv, AfterStart;
      StepKeeps(Value(), Event.Restart(errno));
      phase := Disconnected;
      delay := INIT_RETRY_DELAY_MS;
      waits := [];
      connect := true;
      gaveUp := false;
      StartInLoop(errno);
    }

    method StartFromOther()
      requires Valid() && MayCall(Value(), Event.StartFromOther)
      modifies this
      ensures Valid() && Next(old(Value()), Event.StartFromOther) == Ok(Value())
    {
      StepKeeps(Value(), Event.StartFromOther);
      connect := true;
      gaveUp := false;
      pending := pending + [Task.StartInLoop];
    }

    method StopFromOther()
      requires Valid()
      modifies this
      ensures Valid() && Next(old(Value()), Event.StopFromOther) == Ok(Value())
    {
      StepKeeps(Value(), Event.StopFromOther);
      connect := false;
      pending := pending + [Task.StopInLoop];
    }

    method HandleError()
      requires created == |fates| && AfterError(Value()).Ok?
      modifies this
      ensures Value() == AfterError(old(Value())).state && created == |fates|
    {
      var fd := RemoveAndResetChannel(true);
      Retry(fd);
    }

    method HandleWrite(soError: bool, selfConnect: bool)
      requires created == |fates| && AfterWrite(Value(), soError, selfConnect).Ok?
      modifies this
      ensures Value() == AfterWrite(old(Value()), soError, selfConnect).state && created == |fates|
      ensures old(phase) == Connecting && !soError && !selfConnect ==>
                var fd := old(channel).value.fd; var was := old(fates)[fd];
                phase == Connected &&
                fates == old(fates)[fd := if connect then was.(handed := was.handed + 1) else was.(closes := was.closes + 1)]
    {
      if phase == Connecting {
        var fd := RemoveAndResetChannel(true);
        if soError {
          Retry(fd);
        } else if selfConnect {
          Retry(fd);
        } else {
          phase := Connected;
          if connect {
            fates := fates[fd := fates[fd].(handed := fates[fd].handed + 1)];
          } else {
            Close(fd);
          }
        }
      }
    }

    /** `handleEvent` of the channel, which has an error and a write callback only. */
    method HandleEvent(err: bool, out: bool, soError: bool, selfConnect: bool)
      requires Valid() && Enabled(Value(), Handle(err, out, soError, selfConnect))
      modifies this
      ensures Valid() && Next(old(Value()), Handle(err, out, soError, selfConnect)) == Ok(Value())
    {
      hide Inv, AfterError, AfterWrite;
      StepKeeps(Value(), Handle(err, out, soError, selfConnect));
      handled := true;
      if err {
        HandleError();
      }
      if out {
        HandleWrite(soError, selfConnect);
      }
    }

    /** The retry timer. */
    method TimerFires(errno: Errno)
      requires Valid() && Enabled(Value(), FireTimer(errno)) && Timely(Value(), FireTimer(errno))
      modifies this
      ensures Valid() && Next(old(Value()), FireTimer(errno)) == Ok(Value())
    {
      hide Inv, AfterStart;
      StepKeeps(Value(), FireTimer(errno));
      timers := timers - 1;
      StartInLoop(errno);
    }

    method RunTask(errno: Errno)
      requires Valid() && Enabled(Value(), RunFunctor(errno))
      modifies this
      ensures Valid() && Next(old(Value()), RunFunctor(errno)) == Ok(Value())
    {
      hide Inv, AfterStart, AfterStop;
      StepKeeps(Value(), RunFunctor(errno));
      var task := pending[0];
      pending := pending[1..];
      match task
      case StartInLoop => StartInLoop(errno);
      case StopInLoop => StopInLoop();
      case ResetChannel => channel := None;
    }
  }
}
