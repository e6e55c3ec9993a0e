/** Event streams over the revision hub (internal/server/stream.go): every interleaving of streams
    that subscribe, read, receive and leave with publishers, disconnects and a shutdown. */
module RevisionStreams {
  import opened Wire
  import opened Sequences
  import opened RevisionHub

  /** Subscribed: registered, revision not read yet. Ready: read, first event not written yet.
      Serving: in the loop. Ended: returned, after its deferred unsubscribe. */
  datatype Phase = Subscribed | Ready(revision: int) | Serving(lastSent: int) | Ended

  datatype Stream = Stream(scope: Scope, channel: nat, id: Option<nat>, phase: Phase, sent: seq<int>)

  /** `committed` is each account generation's revision in the store. */
  datatype World = World(hub: Hub, committed: map<Scope, int>, streams: seq<Stream>)

  datatype Action =
    | Commit(scope: Scope, revision: int)
    | Announce(scope: Scope, revision: int)
    | Open(scope: Scope, session: string, device: string)
    | ReadStore(stream: nat)
    | WriteFirst(stream: nat)
    | Receive(stream: nat)
    | Leave(stream: nat)
    | Drop(scope: Scope)
    | DropMatching(scope: Scope, matches: Subscription -> bool)
    | Stop

  function Committed(w: World, s: Scope): int {
    if s in w.committed then w.committed[s] else 0
  }

  /** Ends a stream at any point: a write failed, the client left, or an error was answered. */
  function End(w: World, i: nat): World
    requires i < |w.streams|
  {
    var st := w.streams[i];
    w.(hub := Unsubscribe(w.hub, st.scope, st.id), streams := w.streams[i := st.(phase := Ended)])
  }

  /** One receive in the loop: a newer revision is written, an older one is skipped, a closed and
      empty channel ends the stream. With nothing to receive the loop waits. */
  function ReceiveStep(w: World, i: nat): World
    requires i < |w.streams| && w.streams[i].phase.Serving? && w.streams[i].channel < |w.hub.channels|
  {
    var st := w.streams[i];
    var ch := w.hub.channels[st.channel];
    match ch.buffer
    case Some(v) =>
      var taken := w.(hub := w.hub.(channels := w.hub.channels[st.channel := ch.(buffer := None)]));
      if v > st.phase.lastSent then taken.(streams := w.streams[i := st.(phase := Serving(v), sent := st.sent + [v])])
          else taken
    case None => if ch.closed then End(w, i) else w
  }

  /** A step that cannot happen in this state changes nothing. Publishers announce only revisions
      that the store has committed, and the store's revision of a generation never decreases. */
  function Step(w: World, a: Action): World {
    match a
    case Commit(s, r) => if r < Committed(w, s) then w else w.(committed := w.committed[s := r])
    case Announce(s, r) => if r > Committed(w, s) then w else w.(hub := Publish(w.hub, s, r))
    case Open(s, session, device) =>
      var (hub, channel, id) := Subscribe(w.hub, s, session, device);
      w.(hub := hub, streams := w.streams + [Stream(s, channel, id, Subscribed, [])])
    case ReadStore(i) =>
      if i >= |w.streams| || !w.streams[i].phase.Subscribed? then w
      else w.(streams := w.streams[i := w.streams[i].(phase := Ready(Committed(w, w.streams[i].scope)))])
    case WriteFirst(i) =>
      if i >= |w.streams| || !w.streams[i].phase.Ready? then w
      else
        var r := w.streams[i].phase.revision;
        w.(streams := w.streams[i := w.streams[i].(phase := Serving(r), sent := [r])])
    case Receive(i) =>
      if i >= |w.streams| || !w.streams[i].phase.Serving?
          || w.streams[i].channel >= |w.hub.channels| then w else ReceiveStep(w, i)
    case Leave(i) => if i >= |w.streams| || w.streams[i].phase.Ended? then w else End(w, i)
    case Drop(s) => w.(hub := Disconnect(w.hub, s))
    case DropMatching(s, matches) => w.(hub := DisconnectMatching(w.hub, s, matches))
    case Stop => w.(hub := Shutdown(w.hub))
  }

  function Run(actions: seq<Action>): World
    decreases |actions|
  {
    if actions == [] then World(Hub(0, map[], map[], false, []), map[], [])
    else Step(Run(actions[..|actions| - 1]), actions[|actions| - 1])
  }

  // ---------------------------------------------------------------- invariant

  /** The stream still has its place in the hub. */
  ghost predicate Connected(w: World, i: nat)
    requires i < |w.streams|
  {
    var st := w.streams[i];
    st.id.Some? && Registered(w.hub, st.scope, st.id.value)
  }

  /** The newest revision the stream has read or was sent. */
  function Seen(st: Stream): int {
    match st.phase
    case Ready(r) => r
    case Serving(r) => r
    case _ => 0
  }

  function Buffered(w: World, i: nat): Option<int>
    requires i < |w.streams|
  {
    var c := w.streams[i].channel;
    if c < |w.hub.channels| then w.hub.channels[c].buffer else None
  }

  /** What a connected client can still learn: the larger of what it has seen and what waits. */
  function Reach(w: World, i: nat): int
    requires i < |w.streams|
  {
    var seen, waiting := Seen(w.streams[i]), Buffered(w, i);
    if waiting.Some? && waiting.value > seen then waiting.value else seen
  }

  /** One stream: its channel is its own; while it is connected, the channel is the registered one,
      and after its read it can still reach the latest published revision; what it sent is strictly
      increasing and was committed; an ended stream is no longer registered. */
  ghost predicate StreamOk(w: World, i: nat)
    requires i < |w.streams|
  {
    var st := w.streams[i];
    && st.channel < |w.hub.channels|
    && (st.id.Some? ==> 0 < st.id.value <= w.hub.nextId)
    && (Connected(w, i) ==> ChannelAt(w.hub, st.scope, st.id.value) == st.channel && !st.phase.Ended?)
    && (Connected(w, i) && (st.phase.Ready? || st.phase.Serving?) ==> Latest(w.hub, st.scope) <= Reach(w, i))
    && (!Connected(w, i) ==> w.hub.channels[st.channel].closed || st.phase.Ended?)
    && Increasing(st.sent)
    && (st.phase.Serving? ==> st.sent != [] && st.sent[|st.sent| - 1] == st.phase.lastSent)
    && (st.phase.Subscribed? || st.phase.Ready? ==> st.sent == [])
    && (st.phase.Ready? ==> st.phase.revision <= Committed(w, st.scope))
    && (forall k :: 0 <= k < |st.sent| ==> st.sent[k] <= Committed(w, st.scope))
    && (Buffered(w, i).Some? ==> Buffered(w, i).value <= Committed(w, st.scope))
  }

  ghost predicate Invariant(w: World) {
    && Valid(w.hub)
    && (forall s :: 0 <= Latest(w.hub, s) <= Committed(w, s))
    && (forall i :: 0 <= i < |w.streams| ==> StreamOk(w, i))
    && (forall i, j :: 0 <= i < j < |w.streams| ==> w.streams[i].channel != w.streams[j].channel)
    && (forall i, j :: 0 <= i < j < |w.streams| && w.streams[i].id.Some? ==> w.streams[i].id != w.streams[j].id)
    && (forall s, id: nat :: Registered(w.hub, s, id) ==> Owned(w, s, id))
  }

  /** Some stream that has not ended holds this entry. */
  ghost predicate Owned(w: World, s: Scope, id: nat) {
    exists i ::
      0 <= i < |w.streams| && w.streams[i].scope == s && w.streams[i].id == Some(id) && !w.streams[i].phase.Ended?
  }

  // ---------------------------------------------------------------- every step keeps it

  /** What a stream relies on is untouched. */
  ghost predicate Untouched(w: World, after: World, i: nat)
    requires i < |w.streams| && w.streams[i].channel < |w.hub.channels|
  {
    && i < |after.streams| && after.streams[i] == w.streams[i]
    && w.streams[i].channel < |after.hub.channels|
    && after.hub.channels[w.streams[i].channel] == w.hub.channels[w.streams[i].channel]
    && (Connected(after, i) <==> Connected(w, i))
    && (Connected(w, i) ==> ChannelAt(after.hub, w.streams[i].scope, w.streams[i].id.value) == w.streams[i].channel)
    && Latest(after.hub, w.streams[i].scope) <= Latest(w.hub, w.streams[i].scope)
    && w.hub.nextId <= after.hub.nextId && Committed(w, w.streams[i].scope) <= Committed(after, w.streams[i].scope)
  }

  lemma UntouchedIsOk(w: World, after: World, i: nat)
    requires i < |w.streams| && StreamOk(w, i) && Untouched(w, after, i)
    ensures StreamOk(after, i)
  {
  }

  /** The owner of a registered entry has that entry's channel. */
  lemma OwnerHasChannel(w: World, s: Scope, id: nat, j: nat)
    requires Invariant(w) && Registered(w.hub, s, id) && j < |w.streams|
        && w.streams[j].channel == ChannelAt(w.hub, s, id)
    ensures w.streams[j].scope == s && w.streams[j].id == Some(id) && Connected(w, j)
  {
    assert Owned(w, s, id);
    var i :| 0 <= i < |w.streams| && w.streams[i].scope == s && w.streams[i].id == Some(id)
        && !w.streams[i].phase.Ended?;
    assert StreamOk(w, i) && Connected(w, i);
    assert i == j;
  }

  lemma CommitKeeps(w: World, s: Scope, r: int)
    requires Invariant(w)
    ensures Invariant(Step(w, Commit(s, r)))
  {
    hide StreamOk;
    var after := Step(w, Commit(s, r));
    assert forall t :: Committed(w, t) <= Committed(after, t);
    forall i | 0 <= i < |w.streams| ensures StreamOk(after, i) {
      assert StreamOk(w, i) && w.streams[i].channel < |w.hub.channels| by { ChannelExists(w, i); }
      KeptChannel(w, i);
      UntouchedIsOk(w, after, i);
    }
    forall t, id: nat | Registered(after.hub, t, id) ensures Owned(after, t, id) { assert Owned(w, t, id); }
  }

  lemma ChannelExists(w: World, i: nat)
    requires Invariant(w) && i < |w.streams|
    ensures StreamOk(w, i) && w.streams[i].channel < |w.hub.channels|
  {
  }

  lemma KeptChannel(w: World, i: nat)
    requires Invariant(w) && i < |w.streams|
    ensures Connected(w, i) ==>
              ChannelAt(w.hub, w.streams[i].scope, w.streams[i].id.value) == w.streams[i].channel
                  && !w.streams[i].phase.Ended?
  {
    assert StreamOk(w, i);
  }

  lemma AnnounceKeeps(w: World, s: Scope, r: int)
    requires Invariant(w)
    ensures Invariant(Step(w, Announce(s, r)))
  {
    var after := Step(w, Announce(s, r));
    if r <= Committed(w, s) && r > Latest(w.hub, s) {
      assert forall t :: Latest(after.hub, t) == if t == s then r else Latest(w.hub, t);
      assert forall t :: Committed(w, t) == Committed(after, t);
      PublishKeeps(w.hub, s, r);
      hide Valid, Sound;
      forall i | 0 <= i < |w.streams| ensures StreamOk(after, i) {
        assert StreamOk(w, i);
        AnnounceStream(w, s, r, i);
      }
      forall t, id: nat | Registered(after.hub, t, id) ensures Owned(after, t, id) { assert Owned(w, t, id); }
    }
  }

  lemma AnnounceStream(w: World, s: Scope, r: int, i: nat)
    requires Invariant(w) && i < |w.streams| && Latest(w.hub, s) < r <= Committed(w, s)
    ensures StreamOk(Step(w, Announce(s, r)), i)
  {
    var st, after := w.streams[i], Step(w, Announce(s, r));
    assert StreamOk(w, i);
    if st.channel in ChannelsOf(Of(w.hub, s)) {
      var id :| id in Of(w.hub, s) && Of(w.hub, s)[id].channel == st.channel;
      assert Registered(w.hub, s, id);
      OwnerHasChannel(w, s, id, i);
    } else {
      assert Connected(w, i) ==> st.scope != s;
    }
  }

  lemma OpenKeeps(w: World, s: Scope, session: string, device: string)
    requires Invariant(w)
    ensures Invariant(Step(w, Open(s, session, device)))
  {
    var after, n := Step(w, Open(s, session, device)), |w.streams|;
    SubscribeKeeps(w.hub, s, session, device);
    hide Valid, Sound;
    assert forall t :: Latest(after.hub, t) == Latest(w.hub, t) && Committed(after, t) == Committed(w, t);
    forall i | 0 <= i < n
      ensures StreamOk(after, i) && w.streams[i].channel < |w.hub.channels|
          && (w.streams[i].id.Some? ==> w.streams[i].id.value <= w.hub.nextId)
    {
      assert StreamOk(w, i);
      OpenTouchesNoOther(w, s, session, device, i);
      UntouchedIsOk(w, after, i);
    }
    NewStreamIsOk(w, s, session, device);
    hide StreamOk;
    forall t, id: nat | Registered(after.hub, t, id)
        ensures Owned(after, t, id) { OpenKeepsOwners(w, s, session, device, t, id); }
  }

  lemma OpenTouchesNoOther(w: World, s: Scope, session: string, device: string, i: nat)
    requires i < |w.streams| && StreamOk(w, i)
    ensures Untouched(w, Step(w, Open(s, session, device)), i)
  {
  }

  lemma NewStreamIsOk(w: World, s: Scope, session: string, device: string)
    requires forall t :: 0 <= Latest(w.hub, t) <= Committed(w, t)
    ensures StreamOk(Step(w, Open(s, session, device)), |w.streams|)
  {
  }

  lemma OpenKeepsOwners(w: World, s: Scope, session: string, device: string, t: Scope, id: nat)
    requires Registered(w.hub, t, id) ==> Owned(w, t, id)
    requires Registered(Step(w, Open(s, session, device)).hub, t, id)
    ensures Owned(Step(w, Open(s, session, device)), t, id)
  {
    var after, n := Step(w, Open(s, session, device)), |w.streams|;
    if Registered(w.hub, t, id) {
      var i :| 0 <= i < n && w.streams[i].scope == t && w.streams[i].id == Some(id) && !w.streams[i].phase.Ended?;
      assert after.streams[i] == w.streams[i];
    } else {
      assert after.streams[n].scope == t && after.streams[n].id == Some(id);
    }
  }

  /** A step that only changes one stream's own progress. */
  lemma ProgressKeeps(w: World, after: World, i: nat)
    requires Invariant(w) && i < |w.streams| && after.hub == w.hub && after.committed == w.committed
    requires |after.streams| == |w.streams| && after.streams == w.streams[i := after.streams[i]] && StreamOk(after, i)
    requires after.streams[i].scope == w.streams[i].scope && after.streams[i].channel == w.streams[i].channel
    requires after.streams[i].id == w.streams[i].id && (after.streams[i].phase.Ended? ==> w.streams[i].phase.Ended?)
    ensures Invariant(after)
  {
    assert forall t :: Committed(after, t) == Committed(w, t);
    forall j | 0 <= j < |after.streams| ensures StreamOk(after, j) {
      if j != i {
        assert StreamOk(w, j);
        UntouchedIsOk(w, after, j);
      }
    }
    forall t, id: nat | Registered(after.hub, t, id) ensures Owned(after, t, id) {
      assert Owned(w, t, id);
      var j :| 0 <= j < |w.streams| && w.streams[j].scope == t && w.streams[j].id == Some(id)
          && !w.streams[j].phase.Ended?;
      assert after.streams[j].scope == t && after.streams[j].id == Some(id) && !after.streams[j].phase.Ended?;
    }
  }

  lemma ReadKeeps(w: World, i: nat)
    requires Invariant(w)
    ensures Invariant(Step(w, ReadStore(i)))
  {
    if i < |w.streams| && w.streams[i].phase.Subscribed? {
      assert StreamOk(w, i);
      assert Latest(w.hub, w.streams[i].scope) <= Committed(w, w.streams[i].scope);
      ProgressKeeps(w, Step(w, ReadStore(i)), i);
    }
  }

  lemma WriteKeeps(w: World, i: nat)
    requires Invariant(w)
    ensures Invariant(Step(w, WriteFirst(i)))
  {
    if i < |w.streams| && w.streams[i].phase.Ready? {
      assert StreamOk(w, i);
      ProgressKeeps(w, Step(w, WriteFirst(i)), i);
    }
  }

  /** An entry whose stream goes on has an owner. */
  lemma StillOwned(w: World, after: World, t: Scope, id: nat)
    requires Owned(w, t, id) && |after.streams| == |w.streams|
    requires forall j :: 0 <= j < |w.streams| ==>
                after.streams[j].scope == w.streams[j].scope && after.streams[j].id == w.streams[j].id
    requires forall j :: 0 <= j < |w.streams| && w.streams[j].scope == t && w.streams[j].id == Some(id) ==>
                after.streams[j].phase.Ended? ==> w.streams[j].phase.Ended?
    ensures Owned(after, t, id)
  {
    var j :| 0 <= j < |w.streams| && w.streams[j].scope == t && w.streams[j].id == Some(id)
        && !w.streams[j].phase.Ended?;
    assert after.streams[j].scope == t && after.streams[j].id == Some(id) && !after.streams[j].phase.Ended?;
  }

  lemma EndKeeps(w: World, i: nat)
    requires Invariant(w) && i < |w.streams|
    ensures Invariant(End(w, i))
  {
    var after, st := End(w, i), w.streams[i];
    UnsubscribeKeeps(w.hub, st.scope, st.id);
    hide Valid, Sound;
    assert forall t :: Latest(after.hub, t) == Latest(w.hub, t) && Committed(after, t) == Committed(w, t);
    forall t, id: nat ensures Registered(after.hub, t, id)
        <==> Registered(w.hub, t, id) && !(t == st.scope && Some(id) == st.id) {
      RegisteredAfterUnsubscribe(w.hub, st.scope, st.id, t, id);
    }
    forall t, id: nat | Registered(after.hub, t, id) ensures ChannelAt(after.hub, t, id) == ChannelAt(w.hub, t, id) {
      RegisteredAfterUnsubscribe(w.hub, st.scope, st.id, t, id);
    }
    forall j | 0 <= j < |w.streams| ensures StreamOk(after, j) {
      assert StreamOk(w, j);
      if j != i { UntouchedIsOk(w, after, j); }
    }
    hide StreamOk;
    forall t, id: nat | Registered(after.hub, t, id) ensures Owned(after, t, id) {
      assert Owned(w, t, id);
      StillOwned(w, after, t, id);
    }
  }

  lemma RegisteredAfterUnsubscribe(h: Hub, s: Scope, gone: Option<nat>, t: Scope, id: nat)
    ensures var after := Unsubscribe(h, s, gone);
            && (Registered(after, t, id) <==> Registered(h, t, id) && !(t == s && Some(id) == gone))
            && (Registered(after, t, id) ==> ChannelAt(after, t, id) == ChannelAt(h, t, id))
  {
    if gone.Some? && t == s && Registered(h, s, id) && id != gone.value {
      assert id in Of(h, s) - {gone.value};
    }
  }

  lemma ReceiveKeeps(w: World, i: nat)
    requires Invariant(w)
    ensures Invariant(Step(w, Receive(i)))
  {
    if i < |w.streams| && w.streams[i].phase.Serving? && w.streams[i].channel < |w.hub.channels| {
      var st := w.streams[i];
      if w.hub.channels[st.channel].buffer.Some? {
        TakeKeeps(w, i);
      } else if w.hub.channels[st.channel].closed {
        EndKeeps(w, i);
      }
    }
  }

  /** Taking the waiting revision and writing it, or skipping it as too old. */
  lemma TakeKeeps(w: World, i: nat)
    requires Invariant(w) && i < |w.streams| && w.streams[i].phase.Serving? && w.streams[i].channel < |w.hub.channels|
    requires w.hub.channels[w.streams[i].channel].buffer.Some?
    ensures Invariant(ReceiveStep(w, i))
  {
    var after, st := ReceiveStep(w, i), w.streams[i];
    EmptiedIsValid(w.hub, st.channel);
    hide Valid, Sound;
    assert forall t :: Latest(after.hub, t) == Latest(w.hub, t) && Committed(after, t) == Committed(w, t);
    forall j | 0 <= j < |w.streams| ensures StreamOk(after, j) { TakenStreams(w, i, j); }
    hide StreamOk, Latest, Committed;
    forall t, id: nat | Registered(after.hub, t, id) ensures Owned(after, t, id) {
      assert Owned(w, t, id);
      StillOwned(w, after, t, id);
    }
  }

  lemma TakenStreams(w: World, i: nat, j: nat)
    requires Invariant(w) && i < |w.streams| && w.streams[i].phase.Serving? && w.streams[i].channel < |w.hub.channels|
    requires w.hub.channels[w.streams[i].channel].buffer.Some? && j < |w.streams|
    ensures StreamOk(ReceiveStep(w, i), j)
  {
    hide Valid, Sound;
    var after := ReceiveStep(w, i);
    assert forall t :: Latest(after.hub, t) == Latest(w.hub, t) && Committed(after, t) == Committed(w, t);
    assert StreamOk(w, j);
    if j == i { TakenIsOk(w, i); } else { UntouchedIsOk(w, after, j); }
  }

  lemma TakenIsOk(w: World, i: nat)
    requires i < |w.streams| && w.streams[i].phase.Serving? && StreamOk(w, i)
    requires w.hub.channels[w.streams[i].channel].buffer.Some?
    ensures StreamOk(ReceiveStep(w, i), i)
  {
    var after, st, v := ReceiveStep(w, i), w.streams[i], w.hub.channels[w.streams[i].channel].buffer.value;
    assert Reach(after, i) == Reach(w, i) == if v > st.phase.lastSent then v else st.phase.lastSent;
    IncreasingSnoc(st.sent, v);
    hide Increasing, Reach;
    assert Buffered(w, i) == Some(v) && v <= Committed(w, st.scope) == Committed(after, st.scope);
    assert Latest(after.hub, st.scope) == Latest(w.hub, st.scope);
    assert Connected(after, i) == Connected(w, i);
  }

  lemma EmptiedIsValid(h: Hub, c: nat)
    requires Valid(h) && c < |h.channels|
    ensures Valid(h.(channels := h.channels[c := h.channels[c].(buffer := None)]))
  {
    var after := h.(channels := h.channels[c := h.channels[c].(buffer := None)]);
    forall s, id: nat | Registered(after, s, id)
        ensures Registered(h, s, id) && Sound(after, s, id) { assert Sound(h, s, id); }
    ThinnedKeeps(h, after);
  }

  // ---------------------------------------------------------------- disconnecting

  /** Part of the hub's entries are gone and exactly their channels are closed. */
  ghost predicate Cut(h: Hub, after: Hub) {
    && |after.channels| == |h.channels| && after.nextId == h.nextId
    && (forall s, id: nat :: Registered(after, s, id) ==>
              Registered(h, s, id) && ChannelAt(after, s, id) == ChannelAt(h, s, id))
    && (forall s, id: nat :: Registered(h, s, id) && ChannelAt(h, s, id) < |h.channels| ==>
          after.channels[ChannelAt(h, s, id)] ==
            if Registered(after, s, id) then h.channels[ChannelAt(h, s, id)]
                else h.channels[ChannelAt(h, s, id)].(closed := true))
    && (forall c :: 0 <= c < |h.channels| ==> after.channels[c] in {h.channels[c], h.channels[c].(closed := true)})
    && (forall s :: 0 <= Latest(after, s) <= Latest(h, s))
  }

  lemma CutKeeps(w: World, hub: Hub)
    requires Invariant(w) && Cut(w.hub, hub) && Valid(hub)
    ensures Invariant(w.(hub := hub))
  {
    hide Valid, Sound;
    var after := w.(hub := hub);
    assert forall t :: Committed(after, t) == Committed(w, t);
    forall j | 0 <= j < |w.streams| ensures StreamOk(after, j) {
      assert StreamOk(w, j);
      assert after.hub.channels[w.streams[j].channel].buffer == w.hub.channels[w.streams[j].channel].buffer;
      CutStreamIsOk(w, hub, j);
    }
    forall t, id: nat | Registered(hub, t, id) ensures Owned(after, t, id) { assert Owned(w, t, id); }
  }

  lemma CutStreamIsOk(w: World, hub: Hub, i: nat)
    requires i < |w.streams| && StreamOk(w, i) && Cut(w.hub, hub)
    ensures StreamOk(w.(hub := hub), i)
  {
    hide Increasing;
    var after, st := w.(hub := hub), w.streams[i];
    assert after.hub.channels[st.channel].buffer == w.hub.channels[st.channel].buffer;
    assert Seen(after.streams[i]) == Seen(st) && Reach(after, i) == Reach(w, i);
    if Connected(w, i) { assert Registered(w.hub, st.scope, st.id.value); }
  }

  lemma CutFits(w: World, hub: Hub)
    requires Invariant(w) && forall s :: s in hub.latest ==> s in w.hub.latest && hub.latest[s] == w.hub.latest[s]
    ensures forall s :: 0 <= Latest(hub, s) <= Latest(w.hub, s)
  {
    hide Valid, StreamOk;
    forall s ensures 0 <= Latest(hub, s) <= Latest(w.hub, s) {
      assert Latest(w.hub, s) >= 0 by { assert Latest(w.hub, s) <= Committed(w, s); }
    }
  }

  lemma DropKeeps(w: World, s: Scope)
    requires Invariant(w)
    ensures Invariant(Step(w, Drop(s)))
  {
    DisconnectKeeps(w.hub, s);
    var hub := Disconnect(w.hub, s);
    forall t, id: nat | Registered(w.hub, t, id)
      ensures ChannelAt(w.hub, t, id) in ChannelsOf(Of(w.hub, s)) <==> t == s
    {
      OtherChannels(w.hub, s, Of(w.hub, s), t, id);
    }
    CutFits(w, hub);
    CutKeeps(w, hub);
  }

  lemma DropMatchingKeeps(w: World, s: Scope, matches: Subscription -> bool)
    requires Invariant(w)
    ensures Invariant(Step(w, DropMatching(s, matches)))
  {
    DisconnectMatchingKeeps(w.hub, s, matches);
    var hub, gone := DisconnectMatching(w.hub, s, matches), Matching(Of(w.hub, s), matches);
    forall t, id: nat | Registered(w.hub, t, id)
      ensures ChannelAt(w.hub, t, id) in ChannelsOf(gone) <==> t == s && id in gone
      ensures Registered(hub, t, id) <==> !(t == s && id in gone)
    {
      OtherChannels(w.hub, s, gone, t, id);
      if t == s && id !in gone { assert id in Of(w.hub, s) - gone.Keys; }
    }
    CutFits(w, hub);
    CutKeeps(w, hub);
  }

  lemma StopKeeps(w: World)
    requires Invariant(w)
    ensures Invariant(Step(w, Stop))
  {
    ShutdownKeeps(w.hub);
    CutFits(w, Shutdown(w.hub));
    CutKeeps(w, Shutdown(w.hub));
  }

  lemma StepKeeps(w: World, a: Action)
    requires Invariant(w)
    ensures Invariant(Step(w, a))
  {
    hide Invariant, Step;
    match a
    case Commit(s, r) => CommitKeeps(w, s, r);
    case Announce(s, r) => AnnounceKeeps(w, s, r);
    case Open(s, session, device) => OpenKeeps(w, s, session, device);
    case ReadStore(i) => ReadKeeps(w, i);
    case WriteFirst(i) => WriteKeeps(w, i);
    case Receive(i) => ReceiveKeeps(w, i);
    case Leave(i) => LeaveKeeps(w, i);
    case Drop(s) => DropKeeps(w, s);
    case DropMatching(s, matches) => DropMatchingKeeps(w, s, matches);
    case Stop => StopKeeps(w);
  }

  lemma LeaveKeeps(w: World, i: nat)
    requires Invariant(w)
    ensures Invariant(Step(w, Leave(i)))
  {
    if i < |w.streams| && !w.streams[i].phase.Ended? { EndKeeps(w, i); }
  }

  lemma {:induction false} RunKeeps(actions: seq<Action>)
    ensures Invariant(Run(actions))
    decreases |actions|
  {
    if actions != [] {
      hide Invariant, Step;
      RunKeeps(actions[..|actions| - 1]);
      StepKeeps(Run(actions[..|actions| - 1]), actions[|actions| - 1]);
    }
  }

  // ---------------------------------------------------------------- what follows for every run

  /** In every interleaving: a connected stream that has read its first revision has seen, or has
      waiting for it, a revision at least as new as the latest one published for its account. */
  lemma NothingIsLost(actions: seq<Action>, i: nat)
    requires i < |Run(actions).streams| && Connected(Run(actions), i)
    requires Run(actions).streams[i].phase.Ready? || Run(actions).streams[i].phase.Serving?
    ensures Latest(Run(actions).hub, Run(actions).streams[i].scope) <= Reach(Run(actions), i)
  {
    RunKeeps(actions);
    assert StreamOk(Run(actions), i);
  }

  /** Once nothing waits for it, the last event it was sent is at least the latest revision. */
  lemma CaughtUp(actions: seq<Action>, i: nat)
    requires i < |Run(actions).streams| && Connected(Run(actions), i)
    requires Run(actions).streams[i].phase.Serving? && Buffered(Run(actions), i).None?
    ensures var st := Run(actions).streams[i];
            && st.sent != []
            && Latest(Run(actions).hub, st.scope) <= st.sent[|st.sent| - 1] <= Committed(Run(actions), st.scope)
  {
    RunKeeps(actions);
    assert StreamOk(Run(actions), i);
    hide Run, StreamOk, Invariant, Connected, Buffered;
    EmptyBuffer(Run(actions), i);
  }

  lemma EmptyBuffer(w: World, i: nat)
    requires i < |w.streams| && Connected(w, i) && StreamOk(w, i)
    requires w.streams[i].phase.Serving? && Buffered(w, i).None?
    ensures var st := w.streams[i];
            st.sent != [] && Latest(w.hub, st.scope) <= st.sent[|st.sent| - 1] <= Committed(w, st.scope)
  {
  }

  /** The revisions a client is sent strictly increase. */
  lemma SentIncreases(actions: seq<Action>, i: nat)
    requires i < |Run(actions).streams|
    ensures Increasing(Run(actions).streams[i].sent)
  {
    RunKeeps(actions);
    assert StreamOk(Run(actions), i);
  }

  /** The hub lists only streams that have not ended, so it is empty once every stream has ended. */
  lemma NoLeaks(actions: seq<Action>)
    ensures Run(actions).hub.subscribers != map[] ==>
      exists i :: 0 <= i < |Run(actions).streams| && !Run(actions).streams[i].phase.Ended?
  {
    RunKeeps(actions);
    var w := Run(actions);
    if w.hub.subscribers != map[] {
      var s :| s in w.hub.subscribers;
      var id: nat :| id in w.hub.subscribers[s];
      assert Registered(w.hub, s, id) && Owned(w, s, id);
    }
  }

  /** A stream that lost its place without ending finds its channel closed, so it ends by itself;
      a stream that has its place finds it open. */
  lemma ClosedExactlyWhenCut(actions: seq<Action>, i: nat)
    requires i < |Run(actions).streams| && !Run(actions).streams[i].phase.Ended?
    ensures var w := Run(actions);
            w.streams[i].channel < |w.hub.channels|
                && (w.hub.channels[w.streams[i].channel].closed <==> !Connected(w, i))
  {
    RunKeeps(actions);
    var w := Run(actions);
    assert StreamOk(w, i);
    if Connected(w, i) { assert Sound(w.hub, w.streams[i].scope, w.streams[i].id.value); }
  }
}
