/**
  `PollPoller`: the dense array given to `poll`, its back-indices in the channels, and the map from
  descriptors to channels.

  The state machine is over any type of channel; the classes `Channel` and `PollPoller` at the end
  instantiate it with references.  `Next` answers `Broken` where an assert would fail.
 */
module Pollers {

  type Events = e: int | 0 <= e < 0x8000   // a short, of poll's bits

  datatype PollFd = PollFd(fd: int, events: Events, revents: int)

  /** What a channel holds; `index` is -1 until it is registered. */
  datatype Info = Info(fd: nat, events: Events, index: int)

  /** `silenced` holds the descriptors whose channel was updated with no events after its registration. */
  datatype State<C> = State(pollfds: seq<PollFd>, channels: map<int, C>, info: map<C, Info>, silenced: set<int>)

  datatype Outcome<C> = Ok(state: State<C>) | Broken

  datatype Event<C> =
    | New(channel: C, fd: nat)
    | SetEvents(channel: C, events: Events)
    | Remove(channel: C)

  function Init<C>(): State<C> {
    State([], map[], map[], {})
  }

  /** A negated entry, which `poll` ignores. */
  function Negated(fd: int): int {
    -fd - 1
  }

  function Decode(x: int): int {
    if x < 0 then Negated(x) else x
  }

  predicate IsRegistered<C(==)>(s: State<C>, c: C) {
    c in s.info && s.info[c].fd in s.channels && s.channels[s.info[c].fd] == c
  }

  /** The asserts of `updateChannel`. */
  predicate UpdateAsserts<C(==)>(s: State<C>, c: C)
    requires c in s.info
  {
    var i := s.info[c];
    if i.index < 0 then i.fd !in s.channels
    else
      && i.fd in s.channels
      && s.channels[i.fd] == c
      && i.index < |s.pollfds|
      && (s.pollfds[i.index].fd == i.fd || s.pollfds[i.index].fd == Negated(i.fd))
  }

  function AfterUpdate<C(==)>(s: State<C>, c: C): Outcome<C>
    requires c in s.info
  {
    var i := s.info[c];
    if !UpdateAsserts(s, c) then Broken
    else if i.index < 0 then
      Ok(s.(pollfds := s.pollfds + [PollFd(i.fd, i.events, 0)],
            info := s.info[c := i.(index := |s.pollfds|)],
            channels := s.channels[i.fd := c]))
    else
      var fd := if i.events == 0 then Negated(i.fd) else s.pollfds[i.index].fd;
      Ok(s.(pollfds := s.pollfds[i.index := PollFd(fd, i.events, 0)],
            silenced := if i.events == 0 then s.silenced + {i.fd} else s.silenced))
  }

  /** The asserts of `removeChannel`. */
  predicate RemoveAsserts<C(==)>(s: State<C>, c: C)
    requires c in s.info
  {
    var i := s.info[c];
    && i.fd in s.channels
    && s.channels[i.fd] == c
    && i.events == 0
    && 0 <= i.index < |s.pollfds|
    && s.pollfds[i.index].fd == Negated(i.fd)
    && s.pollfds[i.index].events == i.events
  }

  /** The last entry moves into the hole; `channels_[x]` on an absent `x` would be a null channel. */
  function AfterRemove<C(==)>(s: State<C>, c: C): Outcome<C>
    requires c in s.info
  {
    if !RemoveAsserts(s, c) then Broken
    else
      var i := s.info[c];
      var last := |s.pollfds| - 1;
      var t := s.(channels := s.channels - {i.fd}, silenced := s.silenced - {i.fd});
      if i.index == last then Ok(t.(pollfds := s.pollfds[..last]))
      else
        var atEnd := Decode(s.pollfds[last].fd);
        if atEnd !in t.channels || t.channels[atEnd] !in s.info then Broken
        else
          var d := t.channels[atEnd];
          Ok(t.(pollfds := s.pollfds[i.index := s.pollfds[last]][..last],
                info := s.info[d := s.info[d].(index := i.index)]))
  }

  /** A channel is new once, and `update` and `remove` are calls of an existing channel. */
  predicate Enabled<C(==)>(s: State<C>, e: Event<C>) {
    match e
    case New(c, _) => c !in s.info
    case SetEvents(c, _) => c in s.info
    case Remove(c) => c in s.info
  }

  function Next<C(==)>(s: State<C>, e: Event<C>): Outcome<C>
    requires Enabled(s, e)
  {
    match e
    case New(c, fd) => Ok(s.(info := s.info[c := Info(fd, 0, -1)]))
    case SetEvents(c, events) => AfterUpdate(s.(info := s.info[c := s.info[c].(events := events)]), c)
    case Remove(c) => AfterRemove(s, c)
  }

  /**
    What a caller has to keep to: a channel is updated before its removal only, and not while another
    has its descriptor; it is removed after an update with no events.
   */
  predicate MayCall<C(==)>(s: State<C>, e: Event<C>)
    requires Enabled(s, e)
  {
    match e
    case New(_, _) => true
    case SetEvents(c, _) => if s.info[c].index < 0 then s.info[c].fd !in s.channels else IsRegistered(s, c)
    case Remove(c) => IsRegistered(s, c) && s.info[c].events == 0 && s.info[c].fd in s.silenced
  }

  ghost predicate Legal<C>(s: State<C>, es: seq<Event<C>>)
    decreases |es|
  {
    es == [] ||
    (Enabled(s, es[0]) && MayCall(s, es[0]) && (Next(s, es[0]).Ok? ==> Legal(Next(s, es[0]).state, es[1..])))
  }

  ghost function Play<C>(s: State<C>, es: seq<Event<C>>): Outcome<C>
    requires Legal(s, es)
    decreases |es|
  {
    if es == [] then Ok(s)
    else if Next(s, es[0]).Broken? then Broken
    else Play(Next(s, es[0]).state, es[1..])
  }

  // ---------------------------------------------------------------- agreement of map, array and indices

  /** The entry that the channel of `fd` points to is the entry of `fd`, and says what the channel says. */
  ghost predicate ChannelOk<C>(s: State<C>, fd: int)
    requires fd in s.channels
  {
    && s.channels[fd] in s.info
    && var i := s.info[s.channels[fd]];
    && i.fd == fd
    && 0 <= i.index < |s.pollfds|
    && s.pollfds[i.index].fd == (if fd in s.silenced then Negated(fd) else fd)
    && s.pollfds[i.index].events == i.events
  }

  /** The entry at `k` is that of a channel, which points back to `k`. */
  ghost predicate EntryOk<C>(s: State<C>, k: nat)
    requires k < |s.pollfds|
  {
    var fd := Decode(s.pollfds[k].fd);
    fd in s.channels && s.channels[fd] in s.info && s.info[s.channels[fd]].index == k
  }

  ghost predicate Inv<C>(s: State<C>) {
    && (forall fd <- s.channels :: ChannelOk(s, fd))
    && (forall k: nat :: k < |s.pollfds| ==> EntryOk(s, k))
    && s.silenced <= s.channels.Keys
  }

  /** Where the indices agree, the asserts of `updateChannel` hold exactly if its caller keeps to the discipline. */
  lemma UpdateAssertsExactly<C>(s: State<C>, c: C, events: Events)
    requires Inv(s) && c in s.info
    ensures var e := SetEvents(c, events); MayCall(s, e) <==> Next(s, e).Ok?
  {
    if s.info[c].index >= 0 && IsRegistered(s, c) {
      assert ChannelOk(s, s.info[c].fd);
    }
  }

  lemma RemoveAssertsExactly<C>(s: State<C>, c: C)
    requires Inv(s) && c in s.info
    ensures MayCall(s, Remove(c)) <==> Next(s, Remove(c)).Ok?
  {
    if IsRegistered(s, c) {
      assert ChannelOk(s, s.info[c].fd);
      var last := |s.pollfds| - 1;
      assert EntryOk(s, last);
      if s.info[c].index != last {
        assert Decode(s.pollfds[last].fd) != s.info[c].fd;
      }
    }
  }

  lemma RegisterKeeps<C>(s: State<C>, c: C, events: Events)
    requires Inv(s) && c in s.info && s.info[c].index < 0 && s.info[c].fd !in s.channels
    ensures var o := Next(s, SetEvents(c, events)); o.Ok? && Inv(o.state)
  {
    var t := Next(s, SetEvents(c, events)).state;
    var fd := s.info[c].fd;
    forall f <- s.channels
      ensures s.channels[f] != c
    {
      assert ChannelOk(s, f);
    }
    forall f <- t.channels
      ensures ChannelOk(t, f)
    {
      if f != fd { assert ChannelOk(s, f); }
    }
    forall k: nat | k < |t.pollfds|
      ensures EntryOk(t, k)
    {
      if k < |s.pollfds| { assert EntryOk(s, k); }
    }
  }

  lemma UpdateKeeps<C>(s: State<C>, c: C, events: Events)
    requires Inv(s) && IsRegistered(s, c) && s.info[c].index >= 0
    ensures var o := Next(s, SetEvents(c, events)); o.Ok? && Inv(o.state)
  {
    UpdateAssertsExactly(s, c, events);
    var t := Next(s, SetEvents(c, events)).state;
    var fd := s.info[c].fd;
    assert ChannelOk(s, fd);
    forall f <- t.channels
      ensures ChannelOk(t, f)
    {
      assert ChannelOk(s, f);
      if f != fd {
        assert EntryOk(s, s.info[s.channels[f]].index);
        assert s.channels[f] != c;
      }
    }
    forall k: nat | k < |t.pollfds|
      ensures EntryOk(t, k)
    {
      assert EntryOk(s, k);
    }
  }

  lemma RemoveKeeps<C>(s: State<C>, c: C)
    requires Inv(s) && c in s.info && MayCall(s, Remove(c))
    ensures var o := Next(s, Remove(c)); o.Ok? && Inv(o.state)
  {
    RemoveAssertsExactly(s, c);
    var t := Next(s, Remove(c)).state;
    var fd := s.info[c].fd;
    var last := |s.pollfds| - 1;
    assert ChannelOk(s, fd) && EntryOk(s, last);
    forall f <- t.channels
      ensures ChannelOk(t, f)
    {
      assert ChannelOk(s, f);
      assert EntryOk(s, s.info[s.channels[f]].index);
    }
    forall k: nat | k < |t.pollfds|
      ensures EntryOk(t, k)
    {
      assert EntryOk(s, k);
      assert k != s.info[c].index ==> Decode(s.pollfds[k].fd) != fd;
    }
  }

  lemma NewKeeps<C>(s: State<C>, c: C, fd: nat)
    requires Inv(s) && c !in s.info
    ensures Inv(Next(s, New(c, fd)).state)
  {
    var t := Next(s, New(c, fd)).state;
    forall f <- t.channels
      ensures ChannelOk(t, f)
    {
      assert ChannelOk(s, f);
    }
    forall k: nat | k < |t.pollfds|
      ensures EntryOk(t, k)
    {
      assert EntryOk(s, k);
    }
  }

  lemma StepKeeps<C>(s: State<C>, e: Event<C>)
    requires Inv(s) && Enabled(s, e) && MayCall(s, e)
    ensures var o := Next(s, e); o.Ok? && Inv(o.state)
  {
    hide Inv, Next;
    match e
    case New(c, fd) => NewKeeps(s, c, fd); NewIsOk(s, c, fd);
    case SetEvents(c, events) =>
      if s.info[c].index < 0 { RegisterKeeps(s, c, events); } else { UpdateKeeps(s, c, events); }
    case Remove(c) => RemoveKeeps(s, c);
  }

  lemma NewIsOk<C>(s: State<C>, c: C, fd: nat)
    requires c !in s.info
    ensures Next(s, New(c, fd)).Ok?
  {
  }

  lemma {:induction false} RunKeeps<C>(s: State<C>, es: seq<Event<C>>)
    requires Inv(s) && Legal(s, es)
    ensures Play(s, es).Ok? && Inv(Play(s, es).state)
    decreases |es|
  {
    hide Inv, Next, Enabled, MayCall;
    if es != [] {
      StepKeeps(s, es[0]);
      RunKeeps(Next(s, es[0]).state, es[1..]);
    }
  }

  /** The descriptors of the first `k` entries are distinct, so there are `k` of them. */
  lemma {:induction false} PrefixSize<C>(s: State<C>, k: nat)
    requires Inv(s) && k <= |s.pollfds|
    ensures |set i | 0 <= i < k :: Decode(s.pollfds[i].fd)| == k
  {
    var fds := set i | 0 <= i < k :: Decode(s.pollfds[i].fd);
    if k > 0 {
      PrefixSize(s, k - 1);
      var fewer := set i | 0 <= i < k - 1 :: Decode(s.pollfds[i].fd);
      var last := Decode(s.pollfds[k - 1].fd);
      assert EntryOk(s, k - 1);
      forall i | 0 <= i < k - 1
        ensures Decode(s.pollfds[i].fd) != last
      {
        assert EntryOk(s, i);
      }
      assert fds == fewer + {last};
    }
  }

  /**
    After any disciplined sequence of registrations, updates and swap-removes no assert has failed; map
    and array have the same size, and the indices are a bijection between them: the channel of a
    descriptor points to the one entry that decodes to the descriptor, which carries its events.
   */
  lemma IndicesAgree<C>(es: seq<Event<C>>)
    requires Legal(Init<C>(), es)
    ensures var o := Play(Init<C>(), es);
            && o.Ok?
            && |o.state.channels| == |o.state.pollfds|
            && (forall fd <- o.state.channels ::
                  && o.state.channels[fd] in o.state.info
                  && var i := o.state.info[o.state.channels[fd]];
                  && i.fd == fd && 0 <= i.index < |o.state.pollfds|
                  && o.state.pollfds[i.index].events == i.events
                  && forall k: nat :: k < |o.state.pollfds| ==> (Decode(o.state.pollfds[k].fd) == fd <==> k == i.index))
            && (forall k: nat :: k < |o.state.pollfds| ==> Decode(o.state.pollfds[k].fd) in o.state.channels)
  {
    RunKeeps(Init<C>(), es);
    var s := Play(Init<C>(), es).state;
    forall fd <- s.channels
      ensures ChannelOk(s, fd)
      ensures forall k: nat :: k < |s.pollfds| ==> (Decode(s.pollfds[k].fd) == fd <==> k == s.info[s.channels[fd]].index)
    {
      forall k: nat | k < |s.pollfds|
        ensures Decode(s.pollfds[k].fd) == fd <==> k == s.info[s.channels[fd]].index
      {
        assert ChannelOk(s, fd) && EntryOk(s, k);
      }
    }
    forall k: nat | k < |s.pollfds|
      ensures Decode(s.pollfds[k].fd) in s.channels
    {
      assert EntryOk(s, k);
    }
    PrefixSize(s, |s.pollfds|);
    var fds := set k | 0 <= k < |s.pollfds| :: Decode(s.pollfds[k].fd);
    forall fd <- s.channels
      ensures fd in fds
    {
      assert Decode(s.pollfds[s.info[s.channels[fd]].index].fd) == fd;
    }
    assert fds == s.channels.Keys;
  }

  // ---------------------------------------------------------------- what poll watches

  /** The events that a channel was updated with, in order; the first update registers it. */
  function Updates<C(==)>(c: C, es: seq<Event<C>>): seq<Events> {
    if es == [] then []
    else
      var last := es[|es| - 1];
      Updates(c, es[..|es| - 1]) + if last.SetEvents? && last.channel == c then [last.events] else []
  }

  ghost predicate Remembers<C>(s: State<C>, done: seq<Event<C>>, c: C)
    requires c in s.info
  {
    var us := Updates(c, done);
    && (s.info[c].index < 0 ==> us == [])
    && (s.info[c].index >= 0 ==>
          && us != []
          && s.info[c].events == us[|us| - 1]
          && (IsRegistered(s, c) ==> (s.info[c].fd in s.silenced <==> 0 in us[1..])))
  }

  ghost predicate History<C(!new)>(s: State<C>, done: seq<Event<C>>) {
    && (forall c <- s.info :: Remembers(s, done, c))
    && (forall c :: c !in s.info ==> Updates(c, done) == [])
  }

  lemma UpdatesStep<C>(c: C, done: seq<Event<C>>, e: Event<C>)
    ensures Updates(c, done + [e]) == if e.SetEvents? && e.channel == c then Updates(c, done) + [e.events] else Updates(c, done)
  {
    assert (done + [e])[..|done|] == done;
    assert Updates(c, done) + [] == Updates(c, done);
  }

  /** Of an update or a removal of `c` another registered channel notices at most a new index. */
  lemma OtherChannel<C>(s: State<C>, e: Event<C>, d: C)
    requires Inv(s) && Enabled(s, e) && MayCall(s, e) && d in s.info && d != e.channel
    ensures var o := Next(s, e);
            && o.Ok? && d in o.state.info
            && o.state.info[d].fd == s.info[d].fd && o.state.info[d].events == s.info[d].events
            && (o.state.info[d].index < 0 <==> s.info[d].index < 0)
            && (IsRegistered(o.state, d) ==> IsRegistered(s, d))
            && (IsRegistered(s, d) ==> (s.info[d].fd in o.state.silenced <==> s.info[d].fd in s.silenced))
  {
    StepKeeps(s, e);
    if e.Remove? {
      var last := |s.pollfds| - 1;
      assert ChannelOk(s, s.info[e.channel].fd);
      assert EntryOk(s, last);
    }
  }

  lemma HistoryStep<C(!new)>(s: State<C>, done: seq<Event<C>>, e: Event<C>)
    requires Inv(s) && History(s, done) && Enabled(s, e) && MayCall(s, e)
    ensures Next(s, e).Ok? && History(Next(s, e).state, done + [e])
  {
    hide Inv, Updates, EntryOk;
    StepKeeps(s, e);
    var t := Next(s, e).state;
    forall c <- t.info
      ensures Remembers(t, done + [e], c)
    {
      UpdatesStep(c, done, e);
      if c != e.channel {
        OtherChannel(s, e, c);
        assert Remembers(s, done, c);
      } else {
        OwnHistory(s, done, e);
      }
    }
    forall c | c !in t.info
      ensures Updates(c, done + [e]) == []
    {
      UpdatesStep(c, done, e);
    }
  }

  lemma OwnHistory<C(!new)>(s: State<C>, done: seq<Event<C>>, e: Event<C>)
    requires Inv(s) && History(s, done) && Enabled(s, e) && MayCall(s, e) && Next(s, e).Ok?
    ensures e.channel in Next(s, e).state.info && Remembers(Next(s, e).state, done + [e], e.channel)
  {
    hide Updates;
    var c := e.channel;
    var us := Updates(c, done);
    UpdatesStep(c, done, e);
    if !e.New? {
      assert Remembers(s, done, c);
      if IsRegistered(s, c) {
        assert ChannelOk(s, s.info[c].fd);
        if e.SetEvents? { assert (us + [e.events])[1..] == us[1..] + [e.events]; }
      }
    }
  }

  lemma {:induction false} HistoryRun<C(!new)>(s: State<C>, done: seq<Event<C>>, es: seq<Event<C>>)
    requires Inv(s) && History(s, done) && Legal(s, es)
    ensures Play(s, es).Ok? && Inv(Play(s, es).state) && History(Play(s, es).state, done + es)
    decreases |es|
  {
    hide Inv, History, Next, Enabled, MayCall;
    if es == [] {
      assert done + es == done;
    } else {
      StepKeeps(s, es[0]);
      HistoryStep(s, done, es[0]);
      HistoryRun(Next(s, es[0]).state, done + [es[0]], es[1..]);
      assert done + es == (done + [es[0]]) + es[1..];
    }
  }

  /** A channel is registered from its first update to its removal. */
  ghost predicate Registrations<C(!new)>(s: State<C>, done: seq<Event<C>>) {
    && (forall c :: c !in s.info ==> Remove(c) !in done)
    && (forall c <- s.info :: RegistrationOf(s, done, c))
  }

  ghost predicate RegistrationOf<C>(s: State<C>, done: seq<Event<C>>, c: C)
    requires c in s.info
  {
    && (s.info[c].index < 0 ==> Remove(c) !in done && !IsRegistered(s, c))
    && (s.info[c].index >= 0 ==> (IsRegistered(s, c) <==> Remove(c) !in done))
  }

  lemma OwnRegistration<C(!new)>(s: State<C>, done: seq<Event<C>>, e: Event<C>)
    requires Inv(s) && Registrations(s, done) && Enabled(s, e) && MayCall(s, e) && Next(s, e).Ok?
    ensures e.channel in Next(s, e).state.info && RegistrationOf(Next(s, e).state, done + [e], e.channel)
  {
    hide EntryOk;
    var c := e.channel;
    if e.New? {
      forall fd <- s.channels ensures s.channels[fd] != c { assert ChannelOk(s, fd); }
    } else {
      assert RegistrationOf(s, done, c);
      if IsRegistered(s, c) { assert ChannelOk(s, s.info[c].fd); }
    }
  }

  lemma OtherRegistration<C(!new)>(s: State<C>, done: seq<Event<C>>, e: Event<C>, c: C)
    requires c in s.info && c != e.channel && Inv(s) && RegistrationOf(s, done, c) && Enabled(s, e) && MayCall(s, e)
    ensures Next(s, e).Ok? && c in Next(s, e).state.info && RegistrationOf(Next(s, e).state, done + [e], c)
  {
    hide EntryOk;
    OtherChannel(s, e, c);
    if e.channel in s.info && IsRegistered(s, e.channel) { assert ChannelOk(s, s.info[e.channel].fd); }
  }

  lemma RegistrationStep<C(!new)>(s: State<C>, done: seq<Event<C>>, e: Event<C>)
    requires Inv(s) && Registrations(s, done) && Enabled(s, e) && MayCall(s, e)
    ensures Next(s, e).Ok? && Registrations(Next(s, e).state, done + [e])
  {
    hide Inv, RegistrationOf, Next, MayCall;
    StepKeeps(s, e);
    SameChannels(s, e);
    var t := Next(s, e).state;
    OwnRegistration(s, done, e);
    forall c <- t.info
      ensures RegistrationOf(t, done + [e], c)
    {
      if c != e.channel { OtherRegistration(s, done, e, c); }
    }
  }

  lemma SameChannels<C>(s: State<C>, e: Event<C>)
    requires Enabled(s, e) && Next(s, e).Ok?
    ensures Next(s, e).state.info.Keys == s.info.Keys + {e.channel}
  {
  }

  lemma {:induction false} RegistrationRun<C(!new)>(s: State<C>, done: seq<Event<C>>, es: seq<Event<C>>)
    requires Inv(s) && Registrations(s, done) && Legal(s, es)
    ensures Play(s, es).Ok? && Inv(Play(s, es).state) && Registrations(Play(s, es).state, done + es)
    decreases |es|
  {
    hide Inv, Registrations, Next, Enabled, MayCall;
    if es == [] {
      assert done + es == done;
    } else {
      StepKeeps(s, es[0]);
      RegistrationStep(s, done, es[0]);
      RegistrationRun(Next(s, es[0]).state, done + [es[0]], es[1..]);
      assert done + es == (done + [es[0]]) + es[1..];
    }
  }

  /** After any disciplined calls a channel is known to the poller exactly if it was updated and not removed since. */
  lemma RegisteredExactly<C(!new)>(es: seq<Event<C>>, c: C)
    requires Legal(Init<C>(), es)
    ensures var o := Play(Init<C>(), es);
            o.Ok? && (IsRegistered(o.state, c) <==> Updates(c, es) != [] && Remove(c) !in es)
  {
    hide Updates;
    NoUpdates<C>();
    HistoryRun(Init<C>(), [], es);
    RegistrationRun(Init<C>(), [], es);
    assert [] + es == es;
    var s := Play(Init<C>(), es).state;
    if c in s.info { assert Remembers(s, es, c) && RegistrationOf(s, es, c); }
  }

  lemma NoUpdates<C(!new)>()
    ensures forall d: C :: Updates(d, []) == []
  {
  }

  /**
    What `poll` watches, for every disciplined sequence of calls: the entry of a registered channel
    carries the events of its last update, and `poll` looks at it exactly if no update after the
    registering one had no events.  Enabling events again does not bring it back, and a channel
    registered with no events is watched.
   */
  lemma WatchedExactly<C(!new)>(es: seq<Event<C>>, c: C)
    requires Legal(Init<C>(), es)
    ensures var o := Play(Init<C>(), es);
            o.Ok? &&
            (IsRegistered(o.state, c) ==>
               var us := Updates(c, es);
               var k := o.state.info[c].index;
               && us != [] && 0 <= k < |o.state.pollfds|
               && o.state.pollfds[k].events == us[|us| - 1]
               && (o.state.pollfds[k].fd >= 0 <==> 0 !in us[1..]))
  {
    HistoryRun(Init<C>(), [], es);
    assert [] + es == es;
    var s := Play(Init<C>(), es).state;
    if IsRegistered(s, c) {
      assert ChannelOk(s, s.info[c].fd) && Remembers(s, es, c);
    }
  }

  // ---------------------------------------------------------------- active channels

  /** The descriptors of the entries with an event, in the order of the array. */
  function Ready(pollfds: seq<PollFd>): seq<int> {
    if pollfds == [] then []
    else
      var last := pollfds[|pollfds| - 1];
      Ready(pollfds[..|pollfds| - 1]) + if last.revents > 0 then [last.fd] else []
  }

  lemma ReadyStep(pollfds: seq<PollFd>, k: nat)
    requires k < |pollfds|
    ensures Ready(pollfds[..k + 1]) == if pollfds[k].revents > 0 then Ready(pollfds[..k]) + [pollfds[k].fd] else Ready(pollfds[..k])
  {
    assert pollfds[..k + 1][..k] == pollfds[..k];
    assert Ready(pollfds[..k]) + [] == Ready(pollfds[..k]);
  }

  lemma {:induction false} ReadyPrefix(pollfds: seq<PollFd>, k: nat)
    requires k <= |pollfds|
    ensures Ready(pollfds[..k]) <= Ready(pollfds)
    decreases |pollfds| - k
  {
    if k == |pollfds| {
      assert pollfds[..k] == pollfds;
    } else {
      ReadyStep(pollfds, k);
      ReadyPrefix(pollfds, k + 1);
    }
  }

  lemma {:induction false} ReadyMeans(pollfds: seq<PollFd>, fd: int)
    ensures fd in Ready(pollfds) <==> exists k :: 0 <= k < |pollfds| && pollfds[k].revents > 0 && pollfds[k].fd == fd
  {
    if pollfds != [] {
      var n := |pollfds| - 1;
      ReadyMeans(pollfds[..n], fd);
      assert pollfds == pollfds[..n] + [pollfds[n]];
      if fd in Ready(pollfds[..n]) {
        var k :| 0 <= k < n && pollfds[..n][k].revents > 0 && pollfds[..n][k].fd == fd;
        assert pollfds[k] == pollfds[..n][k];
      }
    }
  }

  /** Where map and array agree, no descriptor is ready twice. */
  lemma {:induction false} ReadyOnce<C>(s: State<C>, n: nat)
    requires Inv(s) && n <= |s.pollfds|
    ensures var ready := Ready(s.pollfds[..n]); forall i, j :: 0 <= i < j < |ready| ==> ready[i] != ready[j]
  {
    if n > 0 {
      ReadyOnce(s, n - 1);
      ReadyStep(s.pollfds, n - 1);
      ReadyMeans(s.pollfds[..n - 1], s.pollfds[n - 1].fd);
      assert EntryOk(s, n - 1);
      forall k | 0 <= k < n - 1
        ensures s.pollfds[k].fd != s.pollfds[n - 1].fd
      {
        assert EntryOk(s, k);
      }
    }
  }

  // ---------------------------------------------------------------- the code

  class Channel {
    const fd: nat
    var events: Events
    var revents: int
    var index: int

    constructor (fd: nat)
      ensures this.fd == fd && events == 0 && index == -1
    {
      this.fd := fd;
      events, revents, index := 0, 0, -1;
    }
  }

  class PollPoller {
    var pollfds: seq<PollFd>
    var channels: map<int, Channel>
    ghost var known: set<Channel>     // the channels of the loop
    ghost var silenced: set<int>

    ghost function Value(): State<Channel>
      reads this, known
    {
      State(pollfds, channels, map c | c in known :: Info(c.fd, c.events, c.index), silenced)
    }

    ghost predicate Valid()
      reads this, known
    {
      Inv(Value())
    }

    constructor ()
      ensures Valid() && known == {} && Value() == Init()
    {
      pollfds, channels, known, silenced := [], map[], {}, {};
    }

    ghost method Adopt(c: Channel)
      requires Valid() && c !in known && c.index == -1 && c.events == 0
      modifies this`known
      ensures known == old(known) + {c}
      ensures Valid() && Ok(Value()) == Next(old(Value()), New(c, c.fd))
    {
      hide Inv;
      NewKeeps(Value(), c, c.fd);
      ghost var info := Value().info;
      known := known + {c};
      assert Value().info == info[c := Info(c.fd, 0, -1)];
    }

    method UpdateChannel(channel: Channel)
      requires channel in known && AfterUpdate(Value(), channel).Ok?
      modifies this, channel`index
      ensures known == old(known) && Ok(Value()) == AfterUpdate(old(Value()), channel)
    {
      ghost var info := Value().info;
      if channel.index < 0 {
        assert channel.fd !in channels;
        Register(channel);
      } else {
        assert channel.fd in channels && channels[channel.fd] == channel;
        var idx := channel.index;
        assert 0 <= idx < |pollfds|;
        assert pollfds[idx].fd == channel.fd || pollfds[idx].fd == Negated(channel.fd);
        var fd := pollfds[idx].fd;
        if channel.events == 0 {
          fd := Negated(channel.fd);
          silenced := silenced + {channel.fd};
        }
        pollfds := pollfds[idx := PollFd(fd, channel.events, 0)];
      }
    }

    method Register(channel: Channel)
      requires channel in known
      modifies this`pollfds, this`channels, channel`index
      ensures pollfds == old(pollfds) + [PollFd(channel.fd, channel.events, 0)]
      ensures channels == old(channels)[channel.fd := channel]
      ensures Value().info == old(Value()).info[channel := old(Value()).info[channel].(index := |old(pollfds)|)]
    {
      pollfds := pollfds + [PollFd(channel.fd, channel.events, 0)];
      channel.index := |pollfds| - 1;
      channels := channels[channel.fd := channel];
    }

    /** `enableReading`, `disableAll` and the like: change the events of a channel, then update. */
    method SetEvents(channel: Channel, events: Events)
      requires Valid() && channel in known && MayCall(Value(), Event.SetEvents(channel, events))
      modifies this, channel`events, channel`index
      ensures Valid() && known == old(known)
      ensures Ok(Value()) == Next(old(Value()), Event.SetEvents(channel, events))
    {
      StepKeeps(Value(), Event.SetEvents(channel, events));
      ghost var before := Value();
      channel.events := events;
      assert Value() == before.(info := before.info[channel := before.info[channel].(events := events)]);
      UpdateChannel(channel);
    }

    method RemoveChannel(channel: Channel)
      requires Valid() && channel in known && MayCall(Value(), Remove(channel))
      modifies this, known`index
      ensures Valid() && known == old(known)
      ensures Ok(Value()) == Next(old(Value()), Remove(channel))
    {
      hide Inv;
      StepKeeps(Value(), Remove(channel));
      ghost var after := Next(Value(), Remove(channel)).state;
      assert channel.fd in channels && channels[channel.fd] == channel;
      assert channel.events == 0;
      var idx := channel.index;
      assert 0 <= idx < |pollfds|;
      assert pollfds[idx].fd == Negated(channel.fd) && pollfds[idx].events == channel.events;
      channels := channels - {channel.fd};
      silenced := silenced - {channel.fd};
      if idx == |pollfds| - 1 {
        pollfds := pollfds[..|pollfds| - 1];
        assert Value().info == old(Value()).info;
      } else {
        SwapOut(idx);
        assert Value() == after;
      }
    }

    /** The last entry takes the place of entry `idx`, and its channel is told so. */
    method SwapOut(idx: nat)
      requires idx < |pollfds| - 1
      requires Decode(pollfds[|pollfds| - 1].fd) in channels && channels[Decode(pollfds[|pollfds| - 1].fd)] in known
      modifies this`pollfds, known`index
      ensures var last := |old(pollfds)| - 1;
              var moved := channels[Decode(old(pollfds)[last].fd)];
              && pollfds == old(pollfds)[idx := old(pollfds)[last]][..last]
              && Value().info == old(Value()).info[moved := old(Value()).info[moved].(index := idx)]
    {
      var channelAtEnd := pollfds[|pollfds| - 1].fd;
      pollfds := pollfds[idx := pollfds[|pollfds| - 1]][|pollfds| - 1 := pollfds[idx]];
      if channelAtEnd < 0 {
        channelAtEnd := Negated(channelAtEnd);
      }
      MoveTo(channels[channelAtEnd], idx);
      pollfds := pollfds[..|pollfds| - 1];
    }

    /** `set_index`. */
    method MoveTo(channel: Channel, idx: nat)
      requires channel in known
      modifies channel`index
      ensures Value() == old(Value()).(info := old(Value()).info[channel := old(Value()).info[channel].(index := idx)])
    {
      channel.index := idx;
    }

    /** What the call of `poll` does: the entries' revents, none on a negated entry, and their number. */
    method Poll(revents: seq<int>) returns (numEvents: nat)
      requires Valid() && |revents| == |pollfds|
      requires forall k :: 0 <= k < |pollfds| && pollfds[k].fd < 0 ==> revents[k] == 0
      modifies this`pollfds
      ensures Valid() && channels == old(channels) && |pollfds| == |revents|
      ensures forall k :: 0 <= k < |pollfds| ==> pollfds[k] == old(pollfds)[k].(revents := revents[k])
      ensures numEvents == |Ready(pollfds)|
    {
      ghost var before := Value();
      var was := pollfds;
      pollfds := seq(|was|, k requires 0 <= k < |was| => was[k].(revents := revents[k]));
      ReventsIrrelevant(before, Value());
      numEvents := |Ready(pollfds)|;
    }

    /** With `numEvents` entries ready, exactly their channels, once each and in order, despite the early exit. */
    method FillActiveChannels(numEvents: nat) returns (active: seq<Channel>)
      requires Valid() && numEvents == |Ready(pollfds)|
      requires forall k :: 0 <= k < |pollfds| && pollfds[k].revents > 0 ==> pollfds[k].fd >= 0
      modifies known`revents
      ensures Valid() && Value() == old(Value())
      ensures |active| == |Ready(pollfds)|
      ensures forall i :: 0 <= i < |active| ==> IsChannelOf(active[i], Ready(pollfds)[i])
      ensures forall i, j :: 0 <= i < j < |active| ==> active[i] != active[j]
      ensures forall k :: 0 <= k < |pollfds| && pollfds[k].revents > 0 ==> Delivered(k)
      ensures forall c <- known :: c !in active ==> c.revents == old(c.revents)
    {
      hide Inv, Ready;
      ghost var s := Value();
      active := [];
      var left := numEvents;
      var k := 0;
      EmptyReady(pollfds);
      while k < |pollfds| && left > 0
        invariant Value() == s && k <= |pollfds| && left == numEvents - |Ready(pollfds[..k])|
        invariant |active| == |Ready(pollfds[..k])|
        invariant forall i :: 0 <= i < |active| ==> IsChannelOf(active[i], Ready(pollfds[..k])[i])
        invariant forall j :: 0 <= j < k && pollfds[j].revents > 0 ==> Delivered(j)
        invariant forall c <- known :: c !in active ==> c.revents == old(c.revents)
      {
        ReadyStep(pollfds, k);
        ReadyPrefix(pollfds, k + 1);
        if pollfds[k].revents > 0 {
          left := left - 1;
          var channel := Deliver(k);
          active := active + [channel];
        }
        k := k + 1;
      }
      ReadyPrefix(pollfds, k);
      NoMoreReady(pollfds, k);
      ReadyOnce(s, |pollfds|);
    }

    /** The body of the loop for an entry with an event. */
    method Deliver(k: nat) returns (channel: Channel)
      requires Valid() && k < |pollfds| && pollfds[k].fd >= 0 && pollfds[k].revents > 0
      requires forall j :: 0 <= j < k && pollfds[j].revents > 0 ==> pollfds[j].fd >= 0 && Delivered(j)
      modifies known`revents
      ensures Value() == old(Value()) && IsChannelOf(channel, pollfds[k].fd)
      ensures forall j :: 0 <= j <= k && pollfds[j].revents > 0 ==> Delivered(j)
      ensures forall c <- known :: c != channel ==> c.revents == old(c.revents)
    {
      hide Inv;
      EntryChannel(Value(), k);
      assert pollfds[k].fd in channels;
      channel := channels[pollfds[k].fd];
      assert channel.fd == pollfds[k].fd;
      forall j | 0 <= j < k && pollfds[j].revents > 0
        ensures channels[pollfds[j].fd] != channel
      {
        EntryChannel(Value(), j);
      }
      channel.revents := pollfds[k].revents;
    }

    ghost predicate IsChannelOf(c: Channel, fd: int)
      reads this
    {
      fd in channels && c == channels[fd] && c in known && c.fd == fd
    }

    /** The channel of entry `k` has its revents. */
    ghost predicate Delivered(k: nat)
      requires k < |pollfds|
      reads this, known
    {
      && pollfds[k].fd in channels && channels[pollfds[k].fd] in known
      && channels[pollfds[k].fd].revents == pollfds[k].revents
    }
  }

  lemma EntryChannel<C>(s: State<C>, k: nat)
    requires Inv(s) && k < |s.pollfds| && s.pollfds[k].fd >= 0
    ensures var fd := s.pollfds[k].fd;
            fd in s.channels && s.channels[fd] in s.info && s.info[s.channels[fd]].fd == fd && s.info[s.channels[fd]].index == k
  {
    assert EntryOk(s, k) && ChannelOk(s, s.pollfds[k].fd);
  }

  lemma EmptyReady(pollfds: seq<PollFd>)
    ensures Ready(pollfds[..0]) == [] && Ready(pollfds[..|pollfds|]) == Ready(pollfds)
  {
    assert pollfds[..|pollfds|] == pollfds;
  }

  /** When as many have been found as there are, no entry further on is ready. */
  lemma {:induction false} NoMoreReady(pollfds: seq<PollFd>, k: nat)
    requires k <= |pollfds| && |Ready(pollfds[..k])| == |Ready(pollfds)|
    ensures forall j :: k <= j < |pollfds| ==> pollfds[j].revents <= 0
    ensures Ready(pollfds[..k]) == Ready(pollfds)
    decreases |pollfds| - k
  {
    ReadyPrefix(pollfds, k);
    if k < |pollfds| {
      ReadyStep(pollfds, k);
      ReadyPrefix(pollfds, k + 1);
      NoMoreReady(pollfds, k + 1);
    }
  }

  lemma ReventsIrrelevant<C>(s: State<C>, t: State<C>)
    requires Inv(s) && t == s.(pollfds := t.pollfds) && |t.pollfds| == |s.pollfds|
    requires forall k :: 0 <= k < |s.pollfds| ==> t.pollfds[k].fd == s.pollfds[k].fd && t.pollfds[k].events == s.pollfds[k].events
    ensures Inv(t)
  {
    forall f <- t.channels ensures ChannelOk(t, f) { assert ChannelOk(s, f); }
    forall k: nat | k < |t.pollfds| ensures EntryOk(t, k) { assert EntryOk(s, k); }
  }
}
