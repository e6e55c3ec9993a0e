/** Hybrid logical clock ticks (internal/server/hlc_tick.go) and batches of them
    (web/sync-authority.js). */
module HybridClock {
  import opened Wire

  datatype Clock = Clock(wall: int, counter: int)

  datatype TickError = Missing | OutsideRange | PartialRemote | CounterOverflow

  function Component(value: Option<int>): Result<int, TickError> {
    if value.None? then Failure(Missing)
    else if value.value < 0 || value.value > MAX_SAFE then Failure(OutsideRange)
    else Success(value.value)
  }

  /** tickRemote: no remote clock at all is fine, half of one is not. */
  function Remote(wall: Option<int>, counter: Option<int>): Result<Option<Clock>, TickError> {
    if wall.None? && counter.None? then Success(None)
    else if wall.None? || counter.None? then Failure(PartialRemote)
    else if Component(wall).Failure? then Failure(Component(wall).error)
    else if Component(counter).Failure? then Failure(Component(counter).error)
    else Success(Some(Clock(wall.value, counter.value)))
  }

  function MaxWall(local: int, physical: int, remote: Option<Clock>): int {
    var wall := if physical > local then physical else local;
    if remote.Some? && remote.value.wall > wall then remote.value.wall else wall
  }

  function Increment(counter: int): Result<int, TickError> {
    if counter < 0 || counter >= MAX_SAFE then Failure(CounterOverflow) else Success(counter + 1)
  }

  function Counter(local: Clock, wall: int, remote: Option<Clock>): Result<int, TickError> {
    if remote.Some? && wall == local.wall && wall == remote.value.wall
    then Increment(if remote.value.counter > local.counter then remote.value.counter else local.counter)
    else if wall == local.wall then Increment(local.counter)
    else if remote.Some? && wall == remote.value.wall then Increment(remote.value.counter)
    else Success(0)
  }

  /** correctHLCTick; a missing wire field is None. */
  function CorrectTick(localWall: Option<int>, localCounter: Option<int>, physical: Option<int>,
                       remoteWall: Option<int>, remoteCounter: Option<int>): Result<Clock, TickError> {
    if Component(localWall).Failure? then Failure(Component(localWall).error)
    else if Component(localCounter).Failure? then Failure(Component(localCounter).error)
    else if Component(physical).Failure? then Failure(Component(physical).error)
    else
      var remote := Remote(remoteWall, remoteCounter);
      if remote.Failure? then Failure(remote.error)
      else
        var wall := MaxWall(localWall.value, physical.value, remote.value);
        var counter := Counter(Clock(localWall.value, localCounter.value), wall, remote.value);
        if counter.Failure? then Failure(counter.error) else Success(Clock(wall, counter.value))
  }

  // ---------------------------------------------------------------- what a tick means

  predicate Less(a: Clock, b: Clock) {
    a.wall < b.wall || (a.wall == b.wall && a.counter < b.counter)
  }

  predicate InRange(c: Clock) {
    0 <= c.wall <= MAX_SAFE && 0 <= c.counter <= MAX_SAFE
  }

  /** A clock the tick may return: after both clocks, and not behind physical time. */
  predicate Eligible(c: Clock, local: Clock, physical: int, remote: Option<Clock>) {
    Less(local, c) && (remote.Some? ==> Less(remote.value, c)) && physical <= c.wall && 0 <= c.counter
  }

  function Tick(local: Clock, physical: int, remote: Option<Clock>): Result<Clock, TickError> {
    CorrectTick(Some(local.wall), Some(local.counter), Some(physical),
                if remote.Some? then Some(remote.value.wall) else None,
                if remote.Some? then Some(remote.value.counter) else None)
  }

  /** The counter that holds the tick's wall already: it is exhausted at that wall. */
  predicate Exhausted(local: Clock, physical: int, remote: Option<Clock>) {
    var wall := MaxWall(local.wall, physical, remote);
    (local.wall == wall && local.counter == MAX_SAFE)
    || (remote.Some? && remote.value.wall == wall && remote.value.counter == MAX_SAFE)
  }

  /** On valid input the tick is the least eligible clock, and it fails exactly when a clock that
      already stands at the resulting wall has no counter left. */
  lemma TickIsLeast(local: Clock, physical: int, remote: Option<Clock>)
    requires InRange(local) && 0 <= physical <= MAX_SAFE && (remote.Some? ==> InRange(remote.value))
    ensures var r := Tick(local, physical, remote);
            && (r.Failure? <==> Exhausted(local, physical, remote))
            && (r.Failure? ==> r.error == CounterOverflow)
            && (r.Success? ==> InRange(r.value) && Eligible(r.value, local, physical, remote))
            && (r.Success? ==> forall c :: Eligible(c, local, physical, remote) && c != r.value ==> Less(r.value, c))
  {
  }

  /** Malformed input is rejected, and nothing else is except overflow. */
  lemma RejectsExactlyMalformed(lw: Option<int>, lc: Option<int>, p: Option<int>, rw: Option<int>, rc: Option<int>)
    ensures var r := CorrectTick(lw, lc, p, rw, rc);
            r.Failure? && r.error != CounterOverflow <==>
              !(lw.Some? && lc.Some? && p.Some? && InRange(Clock(lw.value, lc.value)) && 0 <= p.value <= MAX_SAFE
                && ((rw.None? && rc.None?) || (rw.Some? && rc.Some? && InRange(Clock(rw.value, rc.value)))))
  {
  }

  // ---------------------------------------------------------------- batches

  datatype BatchError = InvalidCount | Failed(error: TickError)

  datatype Allocation = Allocation(wall: int, firstCounter: int, counter: int)

  /** The clock after n local ticks at one physical time. */
  function Ticks(local: Clock, physical: int, n: nat): Result<Clock, TickError>
  {
    if n == 0 then Success(local)
    else
      var before := Ticks(local, physical, n - 1);
      if before.Failure? then before else Tick(before.value, physical, None)
  }

  /** A run of local ticks at one physical time stays at the wall of the first and counts up by one. */
  lemma {:induction false} TicksAreContiguous(local: Clock, physical: int, n: nat)
    requires n >= 1
    ensures var first, last := Tick(local, physical, None), Ticks(local, physical, n);
            && (last.Success? <==> first.Success? && first.value.counter + n - 1 <= MAX_SAFE)
            && (last.Success? ==> last.value == Clock(first.value.wall, first.value.counter + n - 1))
  {
    if n > 1 {
      TicksAreContiguous(local, physical, n - 1);
      if Tick(local, physical, None).Success? { TickIsLeast(local, physical, None); }
    } else {
      assert Ticks(local, physical, 0) == Success(local);
    }
  }

  /** allocateHlcBatch: succeeds exactly when every tick does, and names the counters it took. */
  method AllocateBatch(local: Clock, physical: int, count: int) returns (r: Result<Allocation, BatchError>)
    ensures !(1 <= count <= MAX_SAFE) ==> r == Failure(InvalidCount)
    ensures 1 <= count <= MAX_SAFE ==> (r.Success? <==> Ticks(local, physical, count).Success?)
    ensures r.Success? ==>
      && Ticks(local, physical, count) == Success(Clock(r.value.wall, r.value.counter))
      && Tick(local, physical, None) == Success(Clock(r.value.wall, r.value.firstCounter))
      && r.value.counter == r.value.firstCounter + count - 1
  {
    if !(1 <= count <= MAX_SAFE) { return Failure(InvalidCount); }
    var tick := Tick(local, physical, None);
    assert Ticks(local, physical, 0) == Success(local);
    TicksAreContiguous(local, physical, count);
    if tick.Failure? { return Failure(Failed(tick.error)); }
    TickIsLeast(local, physical, None);
    var current, first := tick.value, tick.value.counter;
    for index := 1 to count
      invariant InRange(current) && Ticks(local, physical, index) == Success(current)
    {
      var next := Tick(current, physical, None);
      TickIsLeast(current, physical, None);
      TicksAreContiguous(local, physical, index + 1);
      if next.Failure? { return Failure(Failed(next.error)); }
      current := next.value;
    }
    return Success(Allocation(current.wall, first, current.counter));
  }

  // ---------------------------------------------------------------- runs of many nodes

  type Node = nat

  /** A tick at a node, local or on receipt of the message stamped by an earlier event. */
  datatype Event = Event(node: Node, physical: int, receives: Option<nat>)

  /** The clocks of a run: every event's tick, in order; None from the first failing tick on. */
  function Clocks(start: Node -> Clock, events: seq<Event>): Option<seq<Clock>>
    decreases |events|
  {
    if events == [] then Some([])
    else
      var before := Clocks(start, events[..|events| - 1]);
      var e := events[|events| - 1];
      if before.None? || |before.value| != |events| - 1
          || (e.receives.Some? && e.receives.value >= |events| - 1) then None
      else
        var tick := Tick(LocalClock(start, events[..|events| - 1], before.value, e.node), e.physical,
                         if e.receives.Some? then Some(before.value[e.receives.value]) else None);
        if tick.Failure? then None else Some(before.value + [tick.value])
  }

  /** A node's clock: that of its latest event. */
  function LocalClock(start: Node -> Clock, events: seq<Event>, clocks: seq<Clock>, node: Node): Clock
    requires |clocks| == |events|
    decreases |events|
  {
    if events == [] then start(node)
    else if events[|events| - 1].node == node then clocks[|events| - 1]
    else LocalClock(start, events[..|events| - 1], clocks[..|events| - 1], node)
  }

  /** One link of happens-before: an earlier event of the same node, or the sending of a message. */
  predicate Directly(events: seq<Event>, i: nat, j: nat)
    requires i < |events| && j < |events|
  {
    (i < j && events[i].node == events[j].node) || (i < j && events[j].receives == Some(i))
  }

  /** A chain of at least one link, given by the events it passes. */
  predicate HappensBefore(events: seq<Event>, path: seq<nat>)
    decreases |path|
  {
    |path| >= 2 && path[0] < |events| && path[1] < |events| && Directly(events, path[0], path[1])
    && (|path| > 2 ==> HappensBefore(events, path[1..]))
  }

  predicate ValidStart(start: Node -> Clock, events: seq<Event>) {
    forall i :: 0 <= i < |events| ==> InRange(start(events[i].node)) && 0 <= events[i].physical <= MAX_SAFE
  }

  function MaxInt(a: int, b: int): int { if a > b then a else b }

  /** The largest wall or physical time a run has seen so far. */
  function Horizon(start: Node -> Clock, events: seq<Event>): int
    decreases |events|
  {
    if events == [] then 0
    else
      var e := events[|events| - 1];
      MaxInt(Horizon(start, events[..|events| - 1]), MaxInt(e.physical, start(e.node).wall))
  }

  /** One clock per event, all within range and within the horizon, each above its node's previous
      clock and above the clock of the message it received. */
  lemma {:induction false} RunIsMonotone(start: Node -> Clock, events: seq<Event>)
    requires Clocks(start, events).Some? && ValidStart(start, events)
    ensures var clocks := Clocks(start, events).value;
            && |clocks| == |events|
            && (forall i :: 0 <= i < |events| ==> InRange(clocks[i]) && clocks[i].wall <= Horizon(start, events))
            && (forall i, j :: 0 <= i < |events| && 0 <= j < |events| && Directly(events, i, j) ==>
                      Less(clocks[i], clocks[j]))
    decreases |events|
  {
    if events != [] {
      var shorter, n := events[..|events| - 1], |events| - 1;
      RunIsMonotone(start, shorter);
      var before, clocks := Clocks(start, shorter).value, Clocks(start, events).value;
      var e := events[n];
      var local := LocalClock(start, shorter, before, e.node);
      LocalIsLatest(start, shorter, before, e.node);
      var remote := if e.receives.Some? then Some(before[e.receives.value]) else None;
      TickIsLeast(local, e.physical, remote);
      assert clocks == before + [clocks[n]];
      forall i | 0 <= i < n && Directly(events, i, n) ensures Less(clocks[i], clocks[n]) {
        assert shorter[i] == events[i];
      }
      forall i, j | 0 <= i < n && 0 <= j < n && Directly(events, i, j) ensures Less(clocks[i], clocks[j]) {
        assert shorter[i] == events[i] && shorter[j] == events[j];
        assert Directly(shorter, i, j);
      }
    }
  }

  lemma {:induction false} LocalIsLatest(start: Node -> Clock, events: seq<Event>, clocks: seq<Clock>, node: Node)
    requires |clocks| == |events|
    requires forall i, j :: 0 <= i < |events| && 0 <= j < |events| && Directly(events, i, j) ==>
                Less(clocks[i], clocks[j])
    ensures var local := LocalClock(start, events, clocks, node);
            && (local == start(node) || exists i :: 0 <= i < |events| && events[i].node == node && local == clocks[i])
            && (forall i :: 0 <= i < |events| && events[i].node == node ==>
                      clocks[i] == local || Less(clocks[i], local))
    decreases |events|
  {
    if events != [] {
      var n := |events| - 1;
      if events[n].node == node {
        forall i | 0 <= i < n && events[i].node == node ensures Less(clocks[i], clocks[n]) {
          assert Directly(events, i, n);
        }
      } else {
        var shorter := events[..n];
        forall i, j | 0 <= i < n && 0 <= j < n && Directly(shorter, i, j) ensures Less(clocks[..n][i], clocks[..n][j]) {
          assert Directly(events, i, j);
        }
        LocalIsLatest(start, shorter, clocks[..n], node);
        var local := LocalClock(start, shorter, clocks[..n], node);
        if i :| 0 <= i < n && shorter[i].node == node && local == clocks[..n][i] {
          assert events[i].node == node && local == clocks[i];
        }
        forall i | 0 <= i < |events| && events[i].node == node ensures clocks[i] == local || Less(clocks[i], local) {
          assert shorter[i] == events[i];
        }
      }
    }
  }

  /** In every run of any number of nodes, happens-before implies strictly smaller clocks. */
  lemma {:induction false} HappensBeforeOrdersClocks(start: Node -> Clock, events: seq<Event>, path: seq<nat>)
    requires Clocks(start, events).Some? && ValidStart(start, events) && HappensBefore(events, path)
    ensures |Clocks(start, events).value| == |events|
    ensures path[0] < |events| && path[|path| - 1] < |events|
    ensures Less(Clocks(start, events).value[path[0]], Clocks(start, events).value[path[|path| - 1]])
    decreases |path|
  {
    RunIsMonotone(start, events);
    if |path| > 2 {
      HappensBeforeOrdersClocks(start, events, path[1..]);
    }
  }
}
