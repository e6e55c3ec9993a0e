/** The broadcast of account revisions (internal/server/hub.go): a channel of capacity one for each
    subscriber, which always holds the newest revision that the subscriber has not taken. */
module RevisionHub {
  import opened Wire

  datatype Scope = Scope(user: string, generation: int)
  datatype Channel = Channel(buffer: Option<int>, closed: bool)
  datatype Subscription = Subscription(channel: nat, session: string, device: string)
  type Subscriptions = map<nat, Subscription>

  /** The hub and every channel it ever made; subscriptions name channels by position. */
  datatype Hub = Hub(
    nextId: nat,
    subscribers: map<Scope, Subscriptions>,
    latest: map<Scope, int>,
    closed: bool,
    channels: seq<Channel>)

  function Latest(h: Hub, s: Scope): int {
    if s in h.latest then h.latest[s] else 0
  }

  function Of(h: Hub, s: Scope): Subscriptions {
    if s in h.subscribers then h.subscribers[s] else map[]
  }

  predicate Registered(h: Hub, s: Scope, id: nat) {
    s in h.subscribers && id in h.subscribers[s]
  }

  function ChannelAt(h: Hub, s: Scope, id: nat): nat
    requires Registered(h, s, id)
  {
    h.subscribers[s][id].channel
  }

  // ---------------------------------------------------------------- what each call does

  function ChannelsOf(subs: Subscriptions): set<nat> {
    set id | id in subs :: subs[id].channel
  }

  function AllChannels(subscribers: map<Scope, Subscriptions>): set<nat> {
    set s, id | s in subscribers && id in subscribers[s] :: subscribers[s][id].channel
  }

  /** Each of these channels now holds `revision` and nothing else. */
  function Filled(channels: seq<Channel>, on: set<nat>, revision: int): (r: seq<Channel>)
    ensures |r| == |channels|
  {
    seq(|channels|, i requires 0 <= i < |channels| =>
      if i in on then channels[i].(buffer := Some(revision)) else channels[i])
  }

  function Shut(channels: seq<Channel>, on: set<nat>): (r: seq<Channel>)
    ensures |r| == |channels|
  {
    seq(|channels|, i requires 0 <= i < |channels| => if i in on then channels[i].(closed := true) else channels[i])
  }

  /** The table with this scope's subscriptions; a scope without any is not listed. */
  function Put(subscribers: map<Scope, Subscriptions>, s: Scope, subs: Subscriptions): map<Scope, Subscriptions> {
    if subs == map[] then subscribers - {s} else subscribers[s := subs]
  }

  /** The new channel, and the subscription ID unless the hub is closed. */
  function Subscribe(h: Hub, s: Scope, session: string, device: string): (Hub, nat, Option<nat>) {
    var channel := |h.channels|;
    if h.closed then (h.(channels := h.channels + [Channel(None, true)]), channel, None)
    else
      var id := h.nextId + 1;
      (h.(nextId := id,
          subscribers := h.subscribers[s := Of(h, s)[id := Subscription(channel, session, device)]],
          channels := h.channels + [Channel(None, false)]),
       channel, Some(id))
  }

  function Unsubscribe(h: Hub, s: Scope, id: Option<nat>): Hub {
    if id.None? then h else h.(subscribers := Put(h.subscribers, s, Of(h, s) - {id.value}))
  }

  function Publish(h: Hub, s: Scope, revision: int): Hub {
    if revision <= Latest(h, s) then h
    else h.(latest := h.latest[s := revision], channels := Filled(h.channels, ChannelsOf(Of(h, s)), revision))
  }

  function Disconnect(h: Hub, s: Scope): Hub {
    h.(subscribers := h.subscribers - {s}, latest := h.latest - {s}, channels := Shut(h.channels, ChannelsOf(Of(h, s))))
  }

  function Matching(subs: Subscriptions, matches: Subscription -> bool): Subscriptions {
    map id | id in subs && matches(subs[id]) :: subs[id]
  }

  function DisconnectMatching(h: Hub, s: Scope, matches: Subscription -> bool): Hub {
    var gone := Matching(Of(h, s), matches);
    h.(subscribers := Put(h.subscribers, s, Of(h, s) - gone.Keys), channels := Shut(h.channels, ChannelsOf(gone)))
  }

  /** Forgets the latest revision only of scopes that still had a subscriber. */
  function Shutdown(h: Hub): Hub {
    h.(closed := true, subscribers := map[], latest := h.latest - h.subscribers.Keys,
       channels := Shut(h.channels, AllChannels(h.subscribers)))
  }

  // ---------------------------------------------------------------- what every call keeps

  /** One registered entry: its channel exists and is open, its ID was issued, and a waiting
      revision is never newer than the latest one published. */
  ghost predicate Sound(h: Hub, s: Scope, id: nat)
    requires Registered(h, s, id)
  {
    var c := ChannelAt(h, s, id);
    && id <= h.nextId && c < |h.channels| && !h.channels[c].closed
    && (h.channels[c].buffer.Some? ==> h.channels[c].buffer.value <= Latest(h, s))
  }

  /** Every entry is sound, no channel is registered twice, no scope is listed without entries, and
      a closed hub has no subscribers. */
  ghost predicate Valid(h: Hub) {
    && (forall s, id: nat :: Registered(h, s, id) ==> Sound(h, s, id))
    && (forall s, id: nat, t, jd: nat ::
          Registered(h, s, id) && Registered(h, t, jd) && ChannelAt(h, s, id) == ChannelAt(h, t, jd) ==>
            s == t && id == jd)
    && (forall s :: s in h.subscribers ==> h.subscribers[s] != map[])
    && (h.closed ==> h.subscribers == map[])
  }

  /** A later state in which no entry is new and every remaining one is sound. */
  ghost predicate Thinned(h: Hub, after: Hub) {
    && (forall s, id: nat :: Registered(after, s, id) ==>
          Registered(h, s, id) && ChannelAt(after, s, id) == ChannelAt(h, s, id) && Sound(after, s, id))
    && (forall s :: s in after.subscribers ==> after.subscribers[s] != map[])
    && (after.closed ==> after.subscribers == map[])
  }

  lemma ThinnedKeeps(h: Hub, after: Hub)
    requires Valid(h) && Thinned(h, after)
    ensures Valid(after)
  {
    hide Sound;
  }

  lemma OtherChannels(h: Hub, s: Scope, part: Subscriptions, t: Scope, id: nat)
    requires Valid(h) && Registered(h, t, id)
    requires forall jd :: jd in part ==> jd in Of(h, s) && part[jd] == Of(h, s)[jd]
    ensures ChannelAt(h, t, id) in ChannelsOf(part) <==> s == t && id in part
  {
    if ChannelAt(h, t, id) in ChannelsOf(part) {
      var jd :| jd in part && part[jd].channel == ChannelAt(h, t, id);
      assert Registered(h, s, jd);
    }
  }

  lemma SubscribeKeeps(h: Hub, s: Scope, session: string, device: string)
    requires Valid(h)
    ensures Valid(Subscribe(h, s, session, device).0)
  {
    var after, id := Subscribe(h, s, session, device).0, h.nextId + 1;
    if !h.closed {
      forall t, jd: nat | Registered(after, t, jd)
        ensures (t == s && jd == id)
            || (Registered(h, t, jd) && ChannelAt(after, t, jd) == ChannelAt(h, t, jd) < |h.channels|)
        ensures Sound(after, t, jd)
      {
        if !(t == s && jd == id) { assert Sound(h, t, jd); }
      }
      assert id in after.subscribers[s];
    }
  }

  lemma UnsubscribeKeeps(h: Hub, s: Scope, id: Option<nat>)
    requires Valid(h)
    ensures Valid(Unsubscribe(h, s, id))
  {
    var after := Unsubscribe(h, s, id);
    assert forall t, jd: nat :: Registered(after, t, jd) ==> Registered(h, t, jd) && Sound(h, t, jd);
    ThinnedKeeps(h, after);
  }

  lemma PublishKeeps(h: Hub, s: Scope, revision: int)
    requires Valid(h)
    ensures Valid(Publish(h, s, revision))
  {
    var after := Publish(h, s, revision);
    forall t, id: nat | Registered(after, t, id) ensures Registered(h, t, id) && Sound(after, t, id) {
      assert Sound(h, t, id);
      OtherChannels(h, s, Of(h, s), t, id);
    }
    ThinnedKeeps(h, after);
  }

  lemma DisconnectKeeps(h: Hub, s: Scope)
    requires Valid(h)
    ensures Valid(Disconnect(h, s))
  {
    var after := Disconnect(h, s);
    forall t, id: nat | Registered(after, t, id) ensures Registered(h, t, id) && Sound(after, t, id) {
      assert Sound(h, t, id);
      OtherChannels(h, s, Of(h, s), t, id);
    }
    ThinnedKeeps(h, after);
  }

  lemma DisconnectMatchingKeeps(h: Hub, s: Scope, matches: Subscription -> bool)
    requires Valid(h)
    ensures Valid(DisconnectMatching(h, s, matches))
  {
    var after, gone := DisconnectMatching(h, s, matches), Matching(Of(h, s), matches);
    forall t, id: nat | Registered(after, t, id) ensures Registered(h, t, id) && Sound(after, t, id) {
      assert Registered(h, t, id) && Sound(h, t, id);
      OtherChannels(h, s, gone, t, id);
    }
    ThinnedKeeps(h, after);
  }

  lemma ShutdownKeeps(h: Hub)
    requires Valid(h)
    ensures Valid(Shutdown(h))
  {
  }

  // ---------------------------------------------------------------- what exactly changes

  lemma IssuedIds(h: Hub, s: Scope, id: nat)
    requires Valid(h)
    ensures Registered(h, s, id) ==> id <= h.nextId
  {
    if Registered(h, s, id) { assert Sound(h, s, id); }
  }

  /** An open hub registers exactly one more entry, under an ID that was never used and with the
      caller's credentials, on a new channel that is open and empty. */
  lemma SubscribeAddsOne(h: Hub, s: Scope, session: string, device: string, t: Scope, id: nat)
    requires Valid(h) && !h.closed
    ensures var (after, c, added) := Subscribe(h, s, session, device);
            && added.Some? && !Registered(h, s, added.value)
            && (Registered(after, t, id) <==> Registered(h, t, id) || (t == s && id == added.value))
            && (Registered(h, t, id) ==> after.subscribers[t][id] == h.subscribers[t][id])
            && after.subscribers[s][added.value] == Subscription(c, session, device)
            && c == |h.channels| && after.channels == h.channels + [Channel(None, false)]
  {
    IssuedIds(h, s, h.nextId + 1);
  }

  /** A closed hub registers nothing and hands out a channel that is closed already. */
  lemma SubscribeToClosed(h: Hub, s: Scope, session: string, device: string)
    requires Valid(h) && h.closed
    ensures var (after, c, id) := Subscribe(h, s, session, device);
            id == None && after.subscribers == map[] && after.channels[c] == Channel(None, true)
                && Unsubscribe(after, s, id) == after
  {
  }

  /** Disconnecting the matching subscriptions of a scope removes exactly those, closes exactly their
      channels and keeps the latest revision. */
  lemma DisconnectMatchingExactly(h: Hub, s: Scope, matches: Subscription -> bool, t: Scope, id: nat)
    requires Valid(h) && Registered(h, t, id)
    ensures var after := DisconnectMatching(h, s, matches);
            && (Registered(after, t, id) <==> !(t == s && matches(h.subscribers[t][id])))
            && (after.channels[ChannelAt(h, t, id)].closed <==> !Registered(after, t, id))
            && Latest(after, t) == Latest(h, t)
  {
    var gone := Matching(Of(h, s), matches);
    assert Sound(h, t, id);
    OtherChannels(h, s, gone, t, id);
    if t == s && id !in gone { assert id in Of(h, s) - gone.Keys; }
  }

  /** Publishing reaches exactly the subscribers of the scope. */
  lemma PublishReachesTheScope(h: Hub, s: Scope, revision: int, t: Scope, id: nat)
    requires Valid(h) && Registered(h, t, id) && revision > Latest(h, s)
    ensures var after := Publish(h, s, revision);
            && after.channels[ChannelAt(h, t, id)].buffer
                   == (if t == s then Some(revision) else h.channels[ChannelAt(h, t, id)].buffer)
            && Latest(after, t) == (if t == s then revision else Latest(h, t))
            && Registered(after, t, id) && after.subscribers == h.subscribers
  {
    assert Sound(h, t, id);
    OtherChannels(h, s, Of(h, s), t, id);
  }

  // ---------------------------------------------------------------- the hub in place

  lemma FilledMore(channels: seq<Channel>, on: set<nat>, c: nat, revision: int)
    requires c < |channels|
    ensures Filled(channels, on, revision)[c := Filled(channels, on, revision)[c].(buffer := Some(revision))]
         == Filled(channels, on + {c}, revision)
  {
  }

  lemma ShutNothing(channels: seq<Channel>)
    ensures Shut(channels, {}) == channels
  {
  }

  lemma ShutMore(channels: seq<Channel>, on: set<nat>, c: nat)
    requires c < |channels|
    ensures c !in on ==> Shut(channels, on)[c] == channels[c]
    ensures Shut(channels, on)[c := Shut(channels, on)[c].(closed := true)] == Shut(channels, on + {c})
  {
  }

  class RevisionHub {
    var nextId: nat
    var subscribers: map<Scope, Subscriptions>
    var latest: map<Scope, int>
    var closed: bool
    var channels: seq<Channel>

    function State(): Hub
      reads this
    {
      Hub(nextId, subscribers, latest, closed, channels)
    }

    constructor ()
      ensures State() == Hub(0, map[], map[], false, []) && Valid(State())
    {
      nextId, subscribers, latest, closed, channels := 0, map[], map[], false, [];
    }

    /** A send that does not wait. Sending on a closed channel would panic. */
    method TrySend(c: nat, value: int) returns (sent: bool)
      requires c < |channels| && !channels[c].closed
      modifies this`channels
      ensures sent == old(channels[c].buffer.None?)
      ensures channels == if sent then old(channels)[c := Channel(Some(value), false)] else old(channels)
    {
      sent := channels[c].buffer.None?;
      if sent { channels := channels[c := channels[c].(buffer := Some(value))]; }
    }

    /** A receive that does not wait. */
    method TryReceive(c: nat) returns (value: Option<int>)
      requires c < |channels|
      modifies this`channels
      ensures value == old(channels[c].buffer) && channels == old(channels)[c := old(channels)[c].(buffer := None)]
    {
      value := channels[c].buffer;
      channels := channels[c := channels[c].(buffer := None)];
    }

    /** Closing a channel twice would panic. */
    method Close(c: nat)
      requires c < |channels| && !channels[c].closed
      modifies this`channels
      ensures channels == old(channels)[c := old(channels)[c].(closed := true)]
    {
      channels := channels[c := channels[c].(closed := true)];
    }

    method SubscribeTo(s: Scope, session: string, device: string) returns (channel: nat, id: Option<nat>)
      requires Valid(State())
      modifies this
      ensures (State(), channel, id) == Subscribe(old(State()), s, session, device) && Valid(State())
    {
      SubscribeKeeps(State(), s, session, device);
      hide Valid;
      channel := |channels|;
      if closed {
        channels := channels + [Channel(None, false)];
        Close(channel);
        assert channels == old(channels) + [Channel(None, true)];
        return channel, None;
      }
      nextId := nextId + 1;
      channels := channels + [Channel(None, false)];
      if s !in subscribers { subscribers := subscribers[s := map[]]; }
      var subs: Subscriptions := subscribers[s];
      subs := subs[nextId := Subscription(channel, session, device)];
      subscribers := subscribers[s := subs];
      assert subscribers == old(subscribers)[s := subs]
          && subs == Of(old(State()), s)[nextId := Subscription(channel, session, device)];
      id := Some(nextId);
    }

    method DropIfEmpty(s: Scope)
      modifies this`subscribers
      ensures subscribers == if s in old(subscribers) then Put(old(subscribers), s, old(subscribers)[s])
          else old(subscribers)
    {
      if s in subscribers && |subscribers[s]| == 0 {
        assert subscribers[s] == map[];
        subscribers := subscribers - {s};
      }
    }

    method UnsubscribeFrom(s: Scope, id: Option<nat>)
      requires Valid(State())
      modifies this`subscribers
      ensures State() == Unsubscribe(old(State()), s, id) && Valid(State())
    {
      UnsubscribeKeeps(State(), s, id);
      if id.None? { return; }
      if s in subscribers { subscribers := subscribers[s := subscribers[s] - {id.value}]; }
      DropIfEmpty(s);
    }

    /** One subscriber's turn of `publish`: send, or drain the old revision and send. */
    method Deliver(c: nat, revision: int)
      requires c < |channels| && !channels[c].closed
      modifies this`channels
      ensures channels == old(channels)[c := Channel(Some(revision), false)]
    {
      var sent := TrySend(c, revision);
      if !sent {
        var _ := TryReceive(c);
        sent := TrySend(c, revision);
      }
    }

    method PublishRevision(s: Scope, revision: int)
      requires Valid(State())
      modifies this`latest, this`channels
      ensures State() == Publish(old(State()), s, revision) && Valid(State())
    {
      ghost var h := State();
      PublishKeeps(h, s, revision);
      if revision <= (if s in latest then latest[s] else 0) { return; }
      latest := latest[s := revision];
      var subs := if s in subscribers then subscribers[s] else map[];
      var left := subs.Keys;
      FilledEnds(h, s, revision);
      hide Delivered, Valid;
      while left != {}
        invariant left <= subs.Keys && State() == Delivered(h, s, revision, left)
        decreases |left|
      {
        var id :| id in left;
        DeliveredStep(h, s, revision, left, id);
        Deliver(subs[id].channel, revision);
        left := left - {id};
      }
    }

    /** Closes the channels of these subscriptions. */
    method CloseAll(subs: Subscriptions)
      requires forall id :: id in subs ==> subs[id].channel < |channels| && !channels[subs[id].channel].closed
      requires forall id, jd :: id in subs && jd in subs && subs[id].channel == subs[jd].channel ==> id == jd
      modifies this`channels
      ensures channels == Shut(old(channels), ChannelsOf(subs))
    {
      ghost var done: set<nat> := {};
      var left := subs.Keys;
      while left != {}
        invariant left <= subs.Keys && done == set id | id in subs && id !in left :: subs[id].channel
        invariant channels == Shut(old(channels), done)
        decreases |left|
      {
        var id :| id in left;
        var c := subs[id].channel;
        assert c !in done;
        Close(c);
        ShutMore(old(channels), done, c);
        done := done + {c};
        left := left - {id};
      }
      assert done == ChannelsOf(subs);
    }

    method DisconnectScope(s: Scope)
      requires Valid(State())
      modifies this`subscribers, this`latest, this`channels
      ensures State() == Disconnect(old(State()), s) && Valid(State())
    {
      DisconnectKeeps(State(), s);
      if s in subscribers {
        assert forall id: nat :: id in subscribers[s] ==> Registered(State(), s, id) && Sound(State(), s, id);
        CloseAll(subscribers[s]);
      }
      subscribers := subscribers - {s};
      latest := latest - {s};
    }

    /** Closes and removes one subscription. */
    method DropOne(s: Scope, id: nat)
      requires Registered(State(), s, id) && ChannelAt(State(), s, id) < |channels|
          && !channels[ChannelAt(State(), s, id)].closed
      modifies this`subscribers, this`channels
      ensures State() == Without(old(State()), s, id)
    {
      Close(subscribers[s][id].channel);
      subscribers := subscribers[s := subscribers[s] - {id}];
    }

    /** Closes and removes the matching subscriptions of a scope, one at a time. */
    method DisconnectWhere(s: Scope, matches: Subscription -> bool)
      requires Valid(State())
      modifies this`subscribers, this`channels
      ensures State() == DisconnectMatching(old(State()), s, matches) && Valid(State())
    {
      ghost var h := State();
      DisconnectMatchingKeeps(h, s, matches);
      hide Valid, DisconnectMatching;
      if s !in subscribers {
        NobodyMatches(h, s, matches);
        return;
      }
      var subs := subscribers[s];
      var left := subs.Keys;
      PartlyEnds(h, s, matches);
      hide Partly, Without;
      while left != {}
        invariant left <= subs.Keys && State() == Partly(h, s, left, matches)
        decreases |left|
      {
        var id :| id in left;
        PartlyStep(h, s, left, id, matches);
        if matches(subs[id]) { DropOne(s, id); }
        left := left - {id};
      }
      DropIfEmpty(s);
    }

    /** Closes one scope's channels and forgets it. */
    method ShutScope(s: Scope)
      requires s in subscribers && OpenAndDistinct(State(), s)
      modifies this`subscribers, this`latest, this`channels
      ensures State() == WithoutScope(old(State()), s)
    {
      CloseAll(subscribers[s]);
      subscribers := subscribers - {s};
      latest := latest - {s};
    }

    method ShutdownHub()
      requires Valid(State())
      modifies this
      ensures State() == Shutdown(old(State())) && Valid(State())
    {
      ghost var h := State();
      ShutdownKeeps(h);
      closed := true;
      var left := subscribers.Keys;
      HalfwayEnds(h);
      hide Halfway, Valid;
      while left != {}
        invariant left <= h.subscribers.Keys && State() == Halfway(h, left)
        decreases |left|
      {
        var s :| s in left;
        HalfwayStep(h, left, s);
        ShutScope(s);
        left := left - {s};
      }
    }
  }

  /** `publish` before it has reached the subscribers in `left`. */
  ghost function Delivered(h: Hub, s: Scope, revision: int, left: set<nat>): Hub {
    h.(latest := h.latest[s := revision], channels := Filled(h.channels, ChannelsOf(Of(h, s) - left), revision))
  }

  lemma FilledEnds(h: Hub, s: Scope, revision: int)
    ensures Delivered(h, s, revision, Of(h, s).Keys) == h.(latest := h.latest[s := revision])
    ensures revision > Latest(h, s) ==> Delivered(h, s, revision, {}) == Publish(h, s, revision)
  {
    assert Of(h, s) - {} == Of(h, s);
    assert Of(h, s) - Of(h, s).Keys == map[];
    assert Filled(h.channels, {}, revision) == h.channels;
  }

  lemma OneMoreChannel(subs: Subscriptions, left: set<nat>, id: nat)
    requires id in left && left <= subs.Keys
    ensures ChannelsOf(subs - (left - {id})) == ChannelsOf(subs - left) + {subs[id].channel}
  {
    var fewer, more := subs - left, subs - (left - {id});
    forall c | c in ChannelsOf(fewer) ensures c in ChannelsOf(more) {
      var i :| i in fewer && fewer[i].channel == c;
      assert i in more && more[i].channel == c;
    }
    forall c | c in ChannelsOf(more) && c != subs[id].channel ensures c in ChannelsOf(fewer) {
      var i :| i in more && more[i].channel == c;
      assert i in fewer && fewer[i].channel == c;
    }
    assert id in more && more[id] == subs[id];
  }

  lemma DeliveredStep(h: Hub, s: Scope, revision: int, left: set<nat>, id: nat)
    requires Valid(h) && id in left && left <= Of(h, s).Keys
    ensures var c := Of(h, s)[id].channel;
            var now := Delivered(h, s, revision, left);
            && c < |now.channels| && !now.channels[c].closed
            && Delivered(h, s, revision, left - {id})
                   == now.(channels := now.channels[c := Channel(Some(revision), false)])
  {
    assert Registered(h, s, id) && Sound(h, s, id);
    var c := Of(h, s)[id].channel;
    OneMoreChannel(Of(h, s), left, id);
    FilledMore(h.channels, ChannelsOf(Of(h, s) - left), c, revision);
  }

  ghost function Without(h: Hub, s: Scope, id: nat): Hub
    requires Registered(h, s, id)
  {
    h.(subscribers := h.subscribers[s := h.subscribers[s] - {id}], channels := Shut(h.channels, {ChannelAt(h, s, id)}))
  }

  /** `disconnectMatching` before it has visited `left`. */
  ghost function Partly(h: Hub, s: Scope, left: set<nat>, matches: Subscription -> bool): Hub
    requires s in h.subscribers
  {
    h.(subscribers := h.subscribers[s := Remaining(h.subscribers[s], left, matches)],
       channels := Shut(h.channels, ClosedSoFar(h.subscribers[s], left, matches)))
  }

  lemma PartlyEnds(h: Hub, s: Scope, matches: Subscription -> bool)
    requires s in h.subscribers
    ensures Partly(h, s, h.subscribers[s].Keys, matches) == h
    ensures var done := Partly(h, s, {}, matches);
            s in done.subscribers
                && done.(subscribers := Put(done.subscribers, s, done.subscribers[s]))
                       == DisconnectMatching(h, s, matches)
  {
    hide Remaining, ClosedSoFar, Shut, ChannelsOf, Matching;
    RemainingEnds(h.subscribers[s], matches);
    ShutNothing(h.channels);
    PutTwice(h.subscribers, s, h.subscribers[s] - Matching(h.subscribers[s], matches).Keys);
    assert h.subscribers[s := h.subscribers[s]] == h.subscribers;
  }

  lemma NobodyMatches(h: Hub, s: Scope, matches: Subscription -> bool)
    requires s !in h.subscribers
    ensures DisconnectMatching(h, s, matches) == h
  {
    ShutNothing(h.channels);
    assert ChannelsOf(Matching(Of(h, s), matches)) == {};
  }

  lemma PartlyStep(h: Hub, s: Scope, left: set<nat>, id: nat, matches: Subscription -> bool)
    requires Valid(h) && s in h.subscribers && id in left && left <= h.subscribers[s].Keys
    ensures var now, next := Partly(h, s, left, matches), Partly(h, s, left - {id}, matches);
            && Registered(now, s, id) && now.subscribers[s][id] == h.subscribers[s][id]
            && ChannelAt(now, s, id) < |now.channels| && !now.channels[ChannelAt(now, s, id)].closed
            && next == if matches(h.subscribers[s][id]) then Without(now, s, id) else now
  {
    ScopeChannels(h, s);
    hide Valid, Sound;
    var subs := h.subscribers[s];
    RemainingStep(subs, left, id, matches);
    assert Registered(Partly(h, s, left, matches), s, id);
    hide Remaining, ClosedSoFar;
    ShutTwice(h.channels, ClosedSoFar(subs, left, matches), {subs[id].channel});
    RemoveOne(h.subscribers, s, Remaining(subs, left, matches), id);
  }

  ghost predicate OpenAndDistinct(h: Hub, s: Scope)
    requires s in h.subscribers
  {
    && (forall id: nat :: id in h.subscribers[s] ==>
              h.subscribers[s][id].channel < |h.channels| && !h.channels[h.subscribers[s][id].channel].closed)
    && (var subs := h.subscribers[s];
        forall id: nat, jd: nat :: id in subs && jd in subs && subs[id].channel == subs[jd].channel ==> id == jd)
  }

  ghost function WithoutScope(h: Hub, s: Scope): Hub
    requires s in h.subscribers
  {
    h.(subscribers := h.subscribers - {s}, latest := h.latest - {s},
       channels := Shut(h.channels, ChannelsOf(h.subscribers[s])))
  }

  /** `shutdown` before it has visited the scopes in `left`. */
  ghost function Halfway(h: Hub, left: set<Scope>): Hub {
    var gone := h.subscribers.Keys - left;
    h.(closed := true, subscribers := h.subscribers - gone, latest := h.latest - gone,
       channels := Shut(h.channels, AllChannels(h.subscribers - left)))
  }

  lemma HalfwayEnds(h: Hub)
    ensures Halfway(h, h.subscribers.Keys) == h.(closed := true)
    ensures Halfway(h, {}) == Shutdown(h)
  {
    hide AllChannels, Shut;
    NoChannels(h.subscribers);
    ShutNothing(h.channels);
    assert h.subscribers - {} == h.subscribers && h.latest - {} == h.latest;
    assert h.subscribers - h.subscribers.Keys == map[];
  }

  lemma HalfwayStep(h: Hub, left: set<Scope>, s: Scope)
    requires Valid(h) && s in left && left <= h.subscribers.Keys
    ensures var now := Halfway(h, left);
            s in now.subscribers && OpenAndDistinct(now, s) && WithoutScope(now, s) == Halfway(h, left - {s})
  {
    ShutStep(h, s, left);
  }

  /** One turn of `shutdown`: what it may rely on, and what it leaves to be done. */
  lemma ShutStep(h: Hub, s: Scope, rest: set<Scope>)
    requires Valid(h) && s in rest && rest <= h.subscribers.Keys
    ensures var all := h.subscribers;
            var now, channels := all - (all.Keys - rest), Shut(h.channels, AllChannels(all - rest));
            && now.Keys == rest && (now - {s}).Keys == rest - {s} && |now - {s}| < |now|
            && now - {s} == all - (all.Keys - (rest - {s}))
            && (forall id: nat :: id in now[s] ==>
                      now[s][id].channel < |channels| && !channels[now[s][id].channel].closed)
            && (forall id: nat, jd: nat :: id in now[s] && jd in now[s] && now[s][id].channel == now[s][jd].channel ==>
                      id == jd)
            && Shut(channels, ChannelsOf(now[s])) == Shut(h.channels, AllChannels(all - (rest - {s})))
            && h.latest - (all.Keys - rest) - {s} == h.latest - (all.Keys - (rest - {s}))
  {
    hide Valid, Sound, AllChannels, ChannelsOf, Shut;
    var all := h.subscribers;
    ScopeChannels(h, s);
    ScopeIsApart(h, s, rest);
    SmallerMap(all, s, rest);
    RemoveKeys(h.latest, all.Keys, rest, s);
    ShutTwice(h.channels, AllChannels(all - rest), ChannelsOf(all[s]));
    AllChannelsMore(all, s, rest);
    OpenStill(h.channels, AllChannels(all - rest), all[s]);
  }

  lemma RemoveKeys(m: map<Scope, int>, all: set<Scope>, rest: set<Scope>, s: Scope)
    requires s in rest && rest <= all
    ensures m - (all - rest) - {s} == m - (all - (rest - {s}))
  {
  }

  lemma OpenStill(channels: seq<Channel>, shut: set<nat>, subs: Subscriptions)
    requires forall id: nat :: id in subs ==>
          subs[id].channel < |channels| && !channels[subs[id].channel].closed && subs[id].channel !in shut
    ensures forall id: nat :: id in subs ==> !Shut(channels, shut)[subs[id].channel].closed
  {
  }

  lemma SmallerMap(m: map<Scope, Subscriptions>, s: Scope, rest: set<Scope>)
    requires s in rest && rest <= m.Keys
    ensures var now := m - (m.Keys - rest); now - {s} == m - (m.Keys - (rest - {s})) && |now - {s}| < |now|
  {
    var now := m - (m.Keys - rest);
    assert (now - {s}).Keys == now.Keys - {s};
    assert |now.Keys - {s}| < |now.Keys|;
    assert now - {s} == m - (m.Keys - (rest - {s}));
  }

  lemma NoChannels(m: map<Scope, Subscriptions>)
    ensures AllChannels(m - m.Keys) == {}
  {
  }

  lemma AllChannelsMore(m: map<Scope, Subscriptions>, s: Scope, rest: set<Scope>)
    requires s in rest && rest <= m.Keys
    ensures AllChannels(m - rest) + ChannelsOf(m[s]) == AllChannels(m - (rest - {s}))
  {
    var fewer, more := m - rest, m - (rest - {s});
    forall c | c in AllChannels(more) ensures c in AllChannels(fewer) + ChannelsOf(m[s]) {
      var t, id :| t in more && id in more[t] && more[t][id].channel == c;
      assert t == s || (t in fewer && id in fewer[t]);
    }
    forall c | c in AllChannels(fewer) + ChannelsOf(m[s]) ensures c in AllChannels(more) {
      if c in ChannelsOf(m[s]) {
        var id :| id in m[s] && m[s][id].channel == c;
        assert s in more && id in more[s];
      } else {
        var t, id :| t in fewer && id in fewer[t] && fewer[t][id].channel == c;
        assert t in more && id in more[t];
      }
    }
  }

  /** The entries of one scope name open channels, each once. */
  lemma ScopeChannels(h: Hub, s: Scope)
    requires Valid(h) && s in h.subscribers
    ensures forall id: nat :: id in h.subscribers[s] ==>
              var c := h.subscribers[s][id].channel; c < |h.channels| && !h.channels[c].closed
    ensures forall id: nat, jd: nat ::
              id in h.subscribers[s] && jd in h.subscribers[s]
                  && h.subscribers[s][id].channel == h.subscribers[s][jd].channel ==>
                id == jd
  {
    forall id: nat | id in h.subscribers[s]
        ensures var c := h.subscribers[s][id].channel; c < |h.channels| && !h.channels[c].closed {
      assert Registered(h, s, id) && Sound(h, s, id);
    }
    forall id: nat, jd: nat | id in h.subscribers[s] && jd in h.subscribers[s]
        && h.subscribers[s][id].channel == h.subscribers[s][jd].channel
      ensures id == jd
    {
      assert Registered(h, s, id) && Registered(h, s, jd);
    }
  }

  /** Other scopes' channels are other channels. */
  lemma ScopeIsApart(h: Hub, s: Scope, rest: set<Scope>)
    requires Valid(h) && s in h.subscribers && s in rest
    ensures forall id: nat :: id in h.subscribers[s] ==>
                h.subscribers[s][id].channel !in AllChannels(h.subscribers - rest)
  {
    forall id: nat | id in h.subscribers[s] ensures h.subscribers[s][id].channel !in AllChannels(h.subscribers - rest) {
      if h.subscribers[s][id].channel in AllChannels(h.subscribers - rest) {
        var t, jd :| t in h.subscribers && t !in rest && jd in h.subscribers[t]
            && h.subscribers[t][jd].channel == h.subscribers[s][id].channel;
        assert Registered(h, s, id) && Registered(h, t, jd);
      }
    }
  }

  ghost function Remaining(subs: Subscriptions, left: set<nat>, matches: Subscription -> bool): Subscriptions {
    map id | id in subs && (id in left || !matches(subs[id])) :: subs[id]
  }

  ghost function ClosedSoFar(subs: Subscriptions, left: set<nat>, matches: Subscription -> bool): set<nat> {
    set id | id in subs && id !in left && matches(subs[id]) :: subs[id].channel
  }

  lemma PutTwice(m: map<Scope, Subscriptions>, s: Scope, subs: Subscriptions)
    ensures Put(m[s := subs], s, subs) == Put(m, s, subs)
  {
    if subs == map[] { assert m[s := subs] - {s} == m - {s}; } else { assert m[s := subs][s := subs] == m[s := subs]; }
  }

  lemma RemoveOne(m: map<Scope, Subscriptions>, s: Scope, subs: Subscriptions, id: nat)
    ensures m[s := subs][s := subs - {id}] == m[s := subs - {id}]
  {
  }

  lemma RemainingEnds(subs: Subscriptions, matches: Subscription -> bool)
    ensures Remaining(subs, subs.Keys, matches) == subs && ClosedSoFar(subs, subs.Keys, matches) == {}
    ensures Remaining(subs, {}, matches) == subs - Matching(subs, matches).Keys
    ensures ClosedSoFar(subs, {}, matches) == ChannelsOf(Matching(subs, matches))
  {
  }

  lemma RemainingStep(subs: Subscriptions, left: set<nat>, id: nat, matches: Subscription -> bool)
    requires id in left && left <= subs.Keys
    requires forall i: nat, j: nat :: i in subs && j in subs && subs[i].channel == subs[j].channel ==> i == j
    ensures Remaining(subs, left - {id}, matches) == if matches(subs[id]) then Remaining(subs, left, matches) - {id}
        else Remaining(subs, left, matches)
    ensures ClosedSoFar(subs, left - {id}, matches)
         == ClosedSoFar(subs, left, matches) + if matches(subs[id]) then {subs[id].channel} else {}
    ensures subs[id].channel !in ClosedSoFar(subs, left, matches)
  {
  }

  lemma ShutTwice(channels: seq<Channel>, on: set<nat>, more: set<nat>)
    ensures Shut(Shut(channels, on), more) == Shut(channels, on + more)
  {
  }

  // ---------------------------------------------------------------- a receiver inside `publish`

  /** A receive that happens, or not, at one moment: what stays buffered and what was taken. */
  function Take(buffer: Option<int>, now: bool): (Option<int>, seq<int>) {
    if now && buffer.Some? then (None, [buffer.value]) else (buffer, [])
  }

  /** One delivery with a receiver that may run before the first send, between the failed send and
      the drain, between the drain and the second send, and afterwards. */
  function Interleaved(buffer: Option<int>, revision: int, before: bool, middle: bool, late: bool,
      after: bool): (Option<int>, seq<int>) {
    var (b1, t1) := Take(buffer, before);
    if b1.None? then
      var (b2, t2) := Take(Some(revision), after);
      (b2, t1 + t2)
    else
      var (b2, t2) := Take(b1, middle);
      var drained: Option<int> := None;
      var (b3, t3) := Take(drained, late);
      var (b4, t4) := Take(if b3.None? then Some(revision) else b3, after);
      (b4, t1 + t2 + t3 + t4)
  }

  /** Whatever the receiver does meanwhile, a delivery is a receive before it, one indivisible
      replacement of the buffer, and a receive after it; the new revision is never lost. */
  lemma DeliveryIsAtomic(buffer: Option<int>, revision: int, before: bool, middle: bool, late: bool, after: bool)
    ensures var (_, first) := Take(buffer, before || middle);
            var (left, second) := Take(Some(revision), after);
            Interleaved(buffer, revision, before, middle, late, after) == (left, first + second)
  {
    var (b1, t1) := Take(buffer, before);
    if b1.Some? {
      var t2, t4 := Take(b1, middle).1, Take(Some(revision), after).1;
      assert t1 + t2 + [] + t4 == t2 + t4;
    }
  }
}
