/** The sliding start-of-window limiter and the concurrency limiter of
    internal/server/rate_limit.go. Times are integers; the request counter wraps at 64 bits. */
module RateLimiter {

  const CAPACITY := 4096
  const PRUNE_EVERY := 256
  const TWO_64 := 0x1_0000_0000_0000_0000

  type Key = string

  datatype Entry = Entry(startedAt: int, count: int)
  datatype Limits = Limits(limit: int, window: int)
  datatype Table = Table(entries: map<Key, Entry>, requests: int)
  datatype Decision = Admit | Deny(wait: int)
  datatype Request = Request(key: Key, now: int)

  // ---------------------------------------------------------------- one request

  predicate Expired(e: Entry, now: int, window: int) {
    now < e.startedAt || e.startedAt + window <= now
  }

  function Unexpired(entries: map<Key, Entry>, now: int, window: int): map<Key, Entry> {
    map k | k in entries && !Expired(entries[k], now, window) :: entries[k]
  }

  function Pruned(t: Table, now: int, window: int): Table {
    if t.requests % PRUNE_EVERY != 0 then t else t.(entries := Unexpired(t.entries, now, window))
  }

  /** What `allow` does to the table. */
  function Step(t: Table, r: Request, l: Limits): (Table, Decision) {
    var counted := t.(requests := (t.requests + 1) % TWO_64);
    var known := r.key in t.entries;
    var room := if known || |t.entries| < CAPACITY then counted
                else counted.(entries := Unexpired(t.entries, r.now, l.window));
    if !known && |room.entries| >= CAPACITY then (room, Deny(l.window))
    else if !known || Expired(t.entries[r.key], r.now, l.window) then
      (Pruned(room.(entries := room.entries[r.key := Entry(r.now, 1)]), r.now, l.window), Admit)
    else
      var e := t.entries[r.key];
      if e.count >= l.limit then (room, Deny(e.startedAt + l.window - r.now))
      else (Pruned(room.(entries := room.entries[r.key := e.(count := e.count + 1)]), r.now, l.window), Admit)
  }

  lemma SizeOfPart(part: map<Key, Entry>, whole: map<Key, Entry>)
    requires part.Keys <= whole.Keys
    ensures |part| <= |whole|
  {
    var rest := whole.Keys - part.Keys;
    assert whole.Keys == part.Keys + rest;
    assert |part| == |part.Keys| && |whole| == |whole.Keys|;
  }

  lemma SizeOfUpdate(m: map<Key, Entry>, k: Key, e: Entry)
    ensures |m[k := e]| == if k in m then |m| else |m| + 1
  {
    assert m[k := e].Keys == m.Keys + {k};
    assert |m| == |m.Keys| && |m[k := e]| == |m[k := e].Keys|;
  }

  /** The table never outgrows its capacity, and every denial names a wait of more than nothing and
      at most one window, whatever the clock, the limit and the window are. */
  lemma StepIsBounded(t: Table, r: Request, l: Limits)
    requires |t.entries| <= CAPACITY
    ensures |Step(t, r, l).0.entries| <= CAPACITY
    ensures Step(t, r, l).1.Deny? ==> 0 < Step(t, r, l).1.wait <= l.window
  {
    var kept := Unexpired(t.entries, r.now, l.window);
    SizeOfPart(kept, t.entries);
    if r.key !in t.entries && |t.entries| >= CAPACITY {
      if |kept| >= CAPACITY {
        assert |kept| == |kept.Keys|;
        var k :| k in kept;
      } else {
        SizeOfUpdate(kept, r.key, Entry(r.now, 1));
        PruneShrinks(kept[r.key := Entry(r.now, 1)], r.now, l.window);
      }
    } else {
      var e := if r.key !in t.entries || Expired(t.entries[r.key], r.now, l.window) then Entry(r.now, 1)
               else t.entries[r.key].(count := t.entries[r.key].count + 1);
      SizeOfUpdate(t.entries, r.key, e);
      PruneShrinks(t.entries[r.key := e], r.now, l.window);
    }
  }

  lemma PruneShrinks(entries: map<Key, Entry>, now: int, window: int)
    ensures |Unexpired(entries, now, window)| <= |entries|
  {
    SizeOfPart(Unexpired(entries, now, window), entries);
  }

  // ---------------------------------------------------------------- the table in place

  class WindowRateLimiter {
    const limits: Limits
    var entries: map<Key, Entry>
    var requests: int

    function State(): Table
      reads this
    {
      Table(entries, requests)
    }

    constructor (limit: int, window: int)
      ensures limits == Limits(limit, window) && State() == Table(map[], 0)
    {
      limits := Limits(limit, window);
      entries := map[];
      requests := 0;
    }

    /** Deletes every expired entry, one key at a time. */
    method DropExpired(now: int)
      modifies this`entries
      ensures entries == Unexpired(old(entries), now, limits.window)
    {
      var keys := entries.Keys;
      ghost var before := entries;
      while keys != {}
        invariant keys <= before.Keys && forall k :: k in keys ==> k in entries
        invariant forall k :: k in entries ==> k in before && entries[k] == before[k]
        invariant forall k :: k in before && k !in keys ==> (k in entries <==> !Expired(before[k], now, limits.window))
        decreases |keys|
      {
        var k :| k in keys;
        if Expired(entries[k], now, limits.window) {
          entries := entries - {k};
        }
        keys := keys - {k};
      }
      assert entries == Unexpired(before, now, limits.window);
    }

    method Prune(now: int)
      modifies this`entries
      ensures State() == Pruned(old(State()), now, limits.window)
    {
      if requests % PRUNE_EVERY != 0 { return; }
      DropExpired(now);
    }

    method Allow(key: Key, now: int) returns (d: Decision)
      modifies this
      ensures (State(), d) == Step(old(State()), Request(key, now), limits)
    {
      requests := (requests + 1) % TWO_64;
      var known := key in entries;
      var entry := if known then entries[key] else Entry(0, 0);
      if !known && |entries| >= CAPACITY {
        DropExpired(now);
        if |entries| >= CAPACITY { return Deny(limits.window); }
      }
      if !known || Expired(entry, now, limits.window) {
        entries := entries[key := Entry(now, 1)];
        Prune(now);
        return Admit;
      }
      if entry.count >= limits.limit { return Deny(entry.startedAt + limits.window - now); }
      entry := entry.(count := entry.count + 1);
      entries := entries[key := entry];
      Prune(now);
      return Admit;
    }
  }

  // ---------------------------------------------------------------- meaning: nothing is ever forgotten

  function LiveKeys(full: map<Key, Entry>, now: int, window: int): set<Key> {
    set k | k in full && !Expired(full[k], now, window)
  }

  /** The same rule on a table that is never pruned: a key without a live window is refused exactly
      when CAPACITY other keys have one. */
  function FullStep(full: map<Key, Entry>, r: Request, l: Limits): (map<Key, Entry>, Decision) {
    if r.key in full && !Expired(full[r.key], r.now, l.window) then
      var e := full[r.key];
      if e.count >= l.limit then (full, Deny(e.startedAt + l.window - r.now))
      else (full[r.key := e.(count := e.count + 1)], Admit)
    else if |LiveKeys(full, r.now, l.window)| >= CAPACITY then (full, Deny(l.window))
    else (full[r.key := Entry(r.now, 1)], Admit)
  }

  /** What the table keeps of the full history at time `now`: everything that can still matter. */
  ghost predicate Represents(entries: map<Key, Entry>, full: map<Key, Entry>, now: int, window: int) {
    && |entries| <= CAPACITY
    && (forall k :: k in entries ==> k in full && full[k] == entries[k])
    && (forall k :: k in full && !Expired(full[k], now, window) ==> k in entries)
    && (forall k :: k in full ==> full[k].startedAt <= now)
  }

  lemma LiveKeysOfTable(entries: map<Key, Entry>, full: map<Key, Entry>, now: int, window: int)
    requires Represents(entries, full, now, window)
    ensures |LiveKeys(full, now, window)| == |Unexpired(entries, now, window)|
  {
    assert LiveKeys(full, now, window) == Unexpired(entries, now, window).Keys;
    assert |Unexpired(entries, now, window).Keys| == |Unexpired(entries, now, window)|;
  }

  lemma LaterRepresents(entries: map<Key, Entry>, full: map<Key, Entry>, now: int, later: int, window: int)
    requires Represents(entries, full, now, window) && now <= later
    ensures Represents(entries, full, later, window)
  {
  }

  lemma EvictionRepresents(entries: map<Key, Entry>, full: map<Key, Entry>, now: int, window: int)
    requires Represents(entries, full, now, window)
    ensures Represents(Unexpired(entries, now, window), full, now, window)
  {
    PruneShrinks(entries, now, window);
  }

  lemma InsertionRepresents(entries: map<Key, Entry>, full: map<Key, Entry>, key: Key, e: Entry, now: int, window: int)
    requires Represents(entries, full, now, window) && e.startedAt <= now
    requires key in entries || |entries| < CAPACITY
    ensures Represents(entries[key := e], full[key := e], now, window)
    ensures Represents(Unexpired(entries[key := e], now, window), full[key := e], now, window)
  {
    SizeOfUpdate(entries, key, e);
    EvictionRepresents(entries[key := e], full[key := e], now, window);
  }

  /** Whether the request is refused for lack of room is decided alike. */
  lemma SameRoom(t: Table, full: map<Key, Entry>, r: Request, l: Limits)
    requires Represents(t.entries, full, r.now, l.window)
    ensures r.key in full && !Expired(full[r.key], r.now, l.window) ==>
              r.key in t.entries && t.entries[r.key] == full[r.key]
    ensures r.key in t.entries ==> full[r.key] == t.entries[r.key]
    ensures r.key in t.entries && Expired(t.entries[r.key], r.now, l.window) ==>
              |LiveKeys(full, r.now, l.window)| < CAPACITY
    ensures r.key !in t.entries && |t.entries| < CAPACITY ==> |LiveKeys(full, r.now, l.window)| < CAPACITY
  {
    LiveKeysOfTable(t.entries, full, r.now, l.window);
    PruneShrinks(t.entries, r.now, l.window);
    if r.key in t.entries && Expired(t.entries[r.key], r.now, l.window) {
      var kept := Unexpired(t.entries, r.now, l.window);
      SizeOfPart(kept[r.key := Entry(r.now, 1)], t.entries);
      SizeOfUpdate(kept, r.key, Entry(r.now, 1));
    }
  }

  lemma SameDecision(t: Table, full: map<Key, Entry>, r: Request, l: Limits)
    requires Represents(t.entries, full, r.now, l.window)
    ensures Step(t, r, l).1 == FullStep(full, r, l).1
  {
    SameRoom(t, full, r, l);
    LiveKeysOfTable(t.entries, full, r.now, l.window);
    hide Represents, LiveKeys, Unexpired, Pruned;
  }

  function Room(entries: map<Key, Entry>, r: Request, l: Limits): map<Key, Entry> {
    if r.key in entries || |entries| < CAPACITY then entries else Unexpired(entries, r.now, l.window)
  }

  /** The entry an admitted request leaves. */
  function NextEntry(entries: map<Key, Entry>, r: Request, l: Limits): Entry {
    if r.key !in entries || Expired(entries[r.key], r.now, l.window) then Entry(r.now, 1)
    else entries[r.key].(count := entries[r.key].count + 1)
  }

  lemma StepEntries(t: Table, r: Request, l: Limits)
    ensures var room, entries := Room(t.entries, r, l), Step(t, r, l).0.entries;
            if Step(t, r, l).1.Deny? then entries == room
            else
              var more := room[r.key := NextEntry(t.entries, r, l)];
              (r.key in room || |room| < CAPACITY) && (entries == more || entries == Unexpired(more, r.now, l.window))
  {
    hide Unexpired, Expired;
  }

  lemma FullStepEntries(full: map<Key, Entry>, r: Request, l: Limits)
    ensures var after := FullStep(full, r, l);
            after.0 == if after.1.Deny? then full else full[r.key := NextEntry(full, r, l)]
  {
    hide LiveKeys, Expired;
  }

  /** Pruning and eviction forget no unexpired window: each decision is the one the full history
      gives. */
  lemma StepRefines(t: Table, full: map<Key, Entry>, r: Request, l: Limits)
    requires Represents(t.entries, full, r.now, l.window)
    ensures Step(t, r, l).1 == FullStep(full, r, l).1
    ensures Represents(Step(t, r, l).0.entries, FullStep(full, r, l).0, r.now, l.window)
  {
    SameDecision(t, full, r, l);
    SameRoom(t, full, r, l);
    EvictionRepresents(t.entries, full, r.now, l.window);
    StartedBefore(t.entries, full, r.now, l.window, r.key);
    StepEntries(t, r, l);
    FullStepEntries(full, r, l);
    hide Step, FullStep, Represents, LiveKeys, Unexpired, Expired;
    if Step(t, r, l).1.Admit? {
      InsertionRepresents(Room(t.entries, r, l), full, r.key, NextEntry(t.entries, r, l), r.now, l.window);
    }
  }

  lemma StartedBefore(entries: map<Key, Entry>, full: map<Key, Entry>, now: int, window: int, key: Key)
    requires Represents(entries, full, now, window)
    ensures key in entries ==> entries[key].startedAt <= now
  {
  }

  ghost predicate Ordered(rs: seq<Request>) {
    forall i, j :: 0 <= i < j < |rs| ==> rs[i].now <= rs[j].now
  }

  function Run(rs: seq<Request>, l: Limits): (Table, seq<Decision>)
    decreases |rs|
  {
    if rs == [] then (Table(map[], 0), [])
    else
      var before := Run(rs[..|rs| - 1], l);
      var step := Step(before.0, rs[|rs| - 1], l);
      (step.0, before.1 + [step.1])
  }

  function FullRun(rs: seq<Request>, l: Limits): (r: (map<Key, Entry>, seq<Decision>))
    ensures |r.1| == |rs|
    decreases |rs|
  {
    if rs == [] then (map[], [])
    else
      var before := FullRun(rs[..|rs| - 1], l);
      var step := FullStep(before.0, rs[|rs| - 1], l);
      (step.0, before.1 + [step.1])
  }

  /** For a clock that never runs backwards the limiter gives exactly the decisions of the table
      that never forgets. */
  lemma {:induction false} RunRefines(rs: seq<Request>, l: Limits)
    requires Ordered(rs)
    ensures Run(rs, l).1 == FullRun(rs, l).1
    ensures forall now :: (rs == [] || rs[|rs| - 1].now <= now) ==>
          Represents(Run(rs, l).0.entries, FullRun(rs, l).0, now, l.window)
    decreases |rs|
  {
    if rs != [] {
      var front, r := rs[..|rs| - 1], rs[|rs| - 1];
      RunRefines(front, l);
      StepRefines(Run(front, l).0, FullRun(front, l).0, r, l);
      forall now | r.now <= now ensures Represents(Run(rs, l).0.entries, FullRun(rs, l).0, now, l.window) {
        LaterRepresents(Run(rs, l).0.entries, FullRun(rs, l).0, r.now, now, l.window);
      }
    }
  }

  // ---------------------------------------------------------------- the bound per window

  /** Admitted requests of `key` with a time in [from, to). */
  function Admitted(rs: seq<Request>, ds: seq<Decision>, key: Key, from: int, to: int): nat
    requires |rs| == |ds|
    decreases |rs|
  {
    if rs == [] then 0
    else
      var n := |rs| - 1;
      Admitted(rs[..n], ds[..n], key, from, to)
        + if rs[n].key == key && ds[n].Admit? && from <= rs[n].now < to then 1 else 0
  }

  function Count(rs: seq<Request>, l: Limits, key: Key, from: int, to: int): nat {
    Admitted(rs, FullRun(rs, l).1, key, from, to)
  }

  function Most(l: Limits): int {
    if l.limit < 1 then 1 else l.limit
  }

  lemma CountStep(rs: seq<Request>, l: Limits, key: Key, from: int, to: int)
    requires rs != []
    ensures var front, r := rs[..|rs| - 1], rs[|rs| - 1];
            Count(rs, l, key, from, to) == Count(front, l, key, from, to)
              + if r.key == key && FullStep(FullRun(front, l).0, r, l).1.Admit? && from <= r.now < to then 1 else 0
  {
    var n := |rs| - 1;
    assert FullRun(rs, l).1[..n] == FullRun(rs[..n], l).1;
  }

  lemma {:induction false} CountSplits(rs: seq<Request>, l: Limits, key: Key, from: int, mid: int, to: int)
    requires from <= mid <= to
    ensures Count(rs, l, key, from, to) == Count(rs, l, key, from, mid) + Count(rs, l, key, mid, to)
    decreases |rs|
  {
    hide FullRun, FullStep;
    if rs != [] {
      CountSplits(rs[..|rs| - 1], l, key, from, mid, to);
      hide Count, FullRun, FullStep;
      CountStep(rs, l, key, from, to);
      CountStep(rs, l, key, from, mid);
      CountStep(rs, l, key, mid, to);
    }
  }

  /** Admissions of one key by time interval, half open. */
  type Tally = (int, int) -> int

  ghost function TallyOf(rs: seq<Request>, l: Limits, key: Key): Tally {
    (from, to) => Count(rs, l, key, from, to)
  }

  ghost predicate OneMore(before: Tally, after: Tally, now: int) {
    forall from, to :: after(from, to) == before(from, to) + if from <= now < to then 1 else 0
  }

  /** What a key's entry says about its admissions: none at or after the end of its window, at most
      `count` in it and one less after its start, and only leftovers shortly before it. */
  ghost predicate Accounts(c: Tally, e: Entry, l: Limits) {
    && 1 <= e.count <= Most(l)
    && (forall from, to :: e.startedAt + l.window <= from ==> c(from, to) == 0)
    && (forall from, to :: e.startedAt == from ==> c(from, to) <= e.count)
    && (forall from, to :: e.startedAt < from ==> c(from, to) <= e.count - 1)
    && (forall from, to :: e.startedAt - l.window < from && to == e.startedAt ==> c(from, to) <= Most(l) - 1)
  }

  lemma SameWindow(before: Tally, after: Tally, e: Entry, now: int, l: Limits)
    requires l.window > 0 && OneMore(before, after, now) && Accounts(before, e, l)
    requires e.startedAt <= now < e.startedAt + l.window && e.count < l.limit
    ensures Accounts(after, e.(count := e.count + 1), l)
  {
  }

  lemma NextWindow(before: Tally, after: Tally, e: Entry, now: int, l: Limits)
    requires l.window > 0 && OneMore(before, after, now) && Accounts(before, e, l)
    requires e.startedAt + l.window <= now
    ensures Accounts(after, Entry(now, 1), l)
  {
  }

  lemma FirstWindow(before: Tally, after: Tally, now: int, l: Limits)
    requires l.window > 0 && OneMore(before, after, now) && forall from, to :: before(from, to) == 0
    ensures Accounts(after, Entry(now, 1), l)
  {
  }

  lemma SameTally(before: Tally, after: Tally, e: Entry, l: Limits)
    requires Accounts(before, e, l) && forall from, to :: after(from, to) == before(from, to)
    ensures Accounts(after, e, l)
  {
  }

  ghost predicate KeyAccounts(rs: seq<Request>, l: Limits, key: Key) {
    var full := FullRun(rs, l).0;
    if key !in full then forall from, to :: TallyOf(rs, l, key)(from, to) == 0
    else
      && Accounts(TallyOf(rs, l, key), full[key], l)
      && rs != [] && full[key].startedAt <= rs[|rs| - 1].now
  }

  lemma {:induction false} KeyAccountsHold(rs: seq<Request>, l: Limits, key: Key)
    requires Ordered(rs) && l.window > 0
    ensures KeyAccounts(rs, l, key)
    decreases |rs|
  {
    hide Accounts, Count;
    if rs == [] {
      forall from, to ensures TallyOf(rs, l, key)(from, to) == 0 { CountNothing(l, key, from, to); }
    } else {
      var front, r := rs[..|rs| - 1], rs[|rs| - 1];
      KeyAccountsHold(front, l, key);
      var before, after, full := TallyOf(front, l, key), TallyOf(rs, l, key), FullRun(front, l).0;
      if r.key == key && FullStep(full, r, l).1.Admit? {
        forall from, to ensures after(from, to) == before(from, to) + if from <= r.now < to then 1 else 0 {
          CountStep(rs, l, key, from, to);
        }
        if key !in full {
          FirstWindow(before, after, r.now, l);
        } else if Expired(full[key], r.now, l.window) {
          NextWindow(before, after, full[key], r.now, l);
        } else {
          SameWindow(before, after, full[key], r.now, l);
        }
      } else {
        forall from, to ensures after(from, to) == before(from, to) { CountStep(rs, l, key, from, to); }
        if key in full { SameTally(before, after, full[key], l); }
      }
    }
  }

  lemma CountNothing(l: Limits, key: Key, from: int, to: int)
    ensures Count([], l, key, from, to) == 0
  {
  }

  /** The limit per key: any interval of one window length admits at most 2 * limit - 1 requests
      (at most one when the limit is below one), for a clock that never runs backwards. */
  lemma {:induction false} WindowBound(rs: seq<Request>, l: Limits, key: Key, from: int)
    requires Ordered(rs)
    ensures Count(rs, l, key, from, from + l.window) <= 2 * Most(l) - 1
    decreases |rs|
  {
    hide Count, FullRun, FullStep, Expired;
    if rs == [] {
      CountNothing(l, key, from, from + l.window);
    } else {
      var front, r := rs[..|rs| - 1], rs[|rs| - 1];
      WindowBound(front, l, key, from);
      CountStep(rs, l, key, from, from + l.window);
      if from <= r.now < from + l.window && r.key == key && FullStep(FullRun(front, l).0, r, l).1.Admit? {
        KeyAccountsHold(rs, l, key);
        WindowBoundNow(rs, l, key, from);
      }
    }
  }

  /** The interval that holds the latest admission of the key. */
  lemma WindowBoundNow(rs: seq<Request>, l: Limits, key: Key, from: int)
    requires rs != [] && KeyAccounts(rs, l, key) && rs[|rs| - 1].key == key
    requires FullStep(FullRun(rs[..|rs| - 1], l).0, rs[|rs| - 1], l).1.Admit?
    requires from <= rs[|rs| - 1].now < from + l.window
    ensures Count(rs, l, key, from, from + l.window) <= 2 * Most(l) - 1
  {
    hide Count;
    var c, full, now := TallyOf(rs, l, key), FullRun(rs, l).0, rs[|rs| - 1].now;
    var e := full[key];
    assert c(from, from + l.window) == Count(rs, l, key, from, from + l.window);
    assert now < e.startedAt + l.window;
    if from < e.startedAt {
      assert c(from, e.startedAt) <= Most(l) - 1;
      assert c(e.startedAt, from + l.window) <= e.count;
      CountSplits(rs, l, key, from, e.startedAt, from + l.window);
    }
  }

  /** The decisions of the real, pruned and capacity-bounded limiter obey the same bound. */
  lemma PrunedWindowBound(rs: seq<Request>, l: Limits, key: Key, from: int)
    requires Ordered(rs)
    ensures |Run(rs, l).1| == |rs|
    ensures Admitted(rs, Run(rs, l).1, key, from, from + l.window) <= 2 * Most(l) - 1
  {
    RunRefines(rs, l);
    WindowBound(rs, l, key, from);
  }

  // ---------------------------------------------------------------- the bound is reached

  /** One request opens a window, and `n` more follow at its last moment. */
  function OldWindow(key: Key, l: Limits, n: nat): seq<Request> {
    if n == 0 then [] + [Request(key, 0)] else OldWindow(key, l, n - 1) + [Request(key, l.window - 1)]
  }

  /** After a window that used up the limit at its last moment, `n` requests at the start of the next. */
  function WorstCase(key: Key, l: Limits, n: nat): seq<Request>
    requires l.limit >= 1
  {
    if n == 0 then OldWindow(key, l, l.limit - 1) else WorstCase(key, l, n - 1) + [Request(key, l.window)]
  }

  lemma RunSnoc(front: seq<Request>, r: Request, l: Limits, key: Key, from: int, to: int)
    requires Ordered(front) && (front == [] || front[|front| - 1].now <= r.now)
    ensures var (full, d) := FullStep(FullRun(front, l).0, r, l);
            && FullRun(front + [r], l).0 == full
            && Count(front + [r], l, key, from, to)
                 == Count(front, l, key, from, to) + if r.key == key && d.Admit? && from <= r.now < to then 1 else 0
    ensures Ordered(front + [r]) && (front + [r])[|front|] == r && |front + [r]| == |front| + 1
  {
    hide Count, FullStep;
    var rs := front + [r];
    assert rs[..|rs| - 1] == front;
    CountStep(rs, l, key, from, to);
  }

  /** The first request, one more at the last moment of its window, and one more at the start of the
      next window. */
  lemma BurstSteps(key: Key, l: Limits, n: nat)
    requires l.window >= 2 && n < l.limit
    ensures FullStep(map[], Request(key, 0), l) == (map[key := Entry(0, 1)], Admit)
    ensures n > 0 ==>
              FullStep(map[key := Entry(0, n)], Request(key, l.window - 1), l) == (map[key := Entry(0, n + 1)], Admit)
    ensures FullStep(map[key := if n == 0 then Entry(0, l.limit) else Entry(l.window, n)], Request(key, l.window), l)
         == (map[key := Entry(l.window, n + 1)], Admit)
  {
    assert LiveKeys(map[], 0, l.window) == {};
    assert map[key := Entry(0, n)][key := Entry(0, n + 1)] == map[key := Entry(0, n + 1)];
    var full := map[key := if n == 0 then Entry(0, l.limit) else Entry(l.window, n)];
    if n == 0 { assert LiveKeys(full, l.window, l.window) == {}; }
    assert full[key := Entry(l.window, n + 1)] == map[key := Entry(l.window, n + 1)];
  }

  /** A run that ends with only this entry, after so many admissions in the interval of the bound. */
  ghost predicate EndsWith(rs: seq<Request>, l: Limits, key: Key, e: Entry, count: int, last: int) {
    && FullRun(rs, l).0 == map[key := e] && Count(rs, l, key, 1, 1 + l.window) == count
    && Ordered(rs) && rs != [] && rs[|rs| - 1].now == last
  }

  lemma AdmittedNext(rs: seq<Request>, l: Limits, key: Key, e: Entry, count: int, last: int, now: int, next: Entry)
    requires EndsWith(rs, l, key, e, count, last) && last <= now && 1 <= now <= l.window
    requires FullStep(map[key := e], Request(key, now), l) == (map[key := next], Admit)
    ensures EndsWith(rs + [Request(key, now)], l, key, next, count + 1, now)
  {
    hide Count, FullRun, FullStep, Ordered;
    RunSnoc(rs, Request(key, now), l, key, 1, 1 + l.window);
  }

  lemma FirstRequest(l: Limits, key: Key)
    requires l.limit >= 1 && l.window >= 2
    ensures EndsWith([] + [Request(key, 0)], l, key, Entry(0, 1), 0, 0)
  {
    BurstSteps(key, l, 0);
    NothingRun(l, key);
    hide Count, FullRun, FullStep, Ordered;
    RunSnoc([], Request(key, 0), l, key, 1, 1 + l.window);
  }

  lemma NothingRun(l: Limits, key: Key)
    ensures FullRun([], l).0 == map[] && Ordered([]) && Count([], l, key, 1, 1 + l.window) == 0
  {
  }

  lemma {:induction false} OldWindowRun(key: Key, l: Limits, n: nat)
    requires n < l.limit && l.window >= 2
    ensures EndsWith(OldWindow(key, l, n), l, key, Entry(0, n + 1), n, if n == 0 then 0 else l.window - 1)
  {
    hide EndsWith, FullStep;
    if n == 0 {
      FirstRequest(l, key);
    } else {
      OldWindowRun(key, l, n - 1);
      BurstSteps(key, l, n);
      AdmittedNext(OldWindow(key, l, n - 1), l, key, Entry(0, n), n - 1, if n == 1 then 0 else l.window - 1,
          l.window - 1, Entry(0, n + 1));
    }
  }

  lemma {:induction false} WorstCaseRun(key: Key, l: Limits, n: nat) returns (last: int)
    requires n <= l.limit && l.window >= 2 && l.limit >= 1
    ensures var entry := if n == 0 then Entry(0, l.limit) else Entry(l.window, n);
            EndsWith(WorstCase(key, l, n), l, key, entry, l.limit - 1 + n, last)
    ensures last <= l.window
  {
    hide EndsWith, FullStep, OldWindow;
    if n == 0 {
      OldWindowRun(key, l, l.limit - 1);
      last := if l.limit == 1 then 0 else l.window - 1;
    } else {
      var before := WorstCaseRun(key, l, n - 1);
      BurstSteps(key, l, n - 1);
      AdmittedNext(WorstCase(key, l, n - 1), l, key, if n == 1 then Entry(0, l.limit) else Entry(l.window, n - 1),
          l.limit - 2 + n, before,
                   l.window, Entry(l.window, n));
      last := l.window;
    }
  }

  /** For every limit and every window of at least two ticks some ordered run admits 2 * limit - 1
      requests of one key within one window length, so the bound cannot be lowered. */
  lemma WindowBoundIsReached(key: Key, l: Limits)
    requires l.limit >= 1 && l.window >= 2
    ensures var rs := WorstCase(key, l, l.limit); Ordered(rs) && Count(rs, l, key, 1, 1 + l.window) == 2 * Most(l) - 1
  {
    var _ := WorstCaseRun(key, l, l.limit);
  }

  // ---------------------------------------------------------------- concurrent requests

  /** What `acquire` hands out: releasing it twice releases it once. */
  class Grant {
    const key: Key
    var released: bool

    constructor (key: Key)
      ensures this.key == key && !released
    {
      this.key := key;
      released := false;
    }
  }

  class ConcurrentLimiter {
    const limit: int
    var active: map<Key, int>
    ghost var grants: set<Grant>

    ghost function Held(key: Key): set<Grant>
      reads this`grants, grants
    {
      set g | g in grants && g.key == key && !g.released
    }

    function Active(key: Key): int
      reads this`active
    {
      if key in active then active[key] else 0
    }

    /** The table counts the grants held and lists exactly the keys that hold one. */
    ghost predicate Valid()
      reads this, grants
    {
      && (forall key :: Active(key) == |Held(key)|)
      && (forall key :: key in active ==> active[key] > 0)
      && (forall key :: |Held(key)| == 0 || |Held(key)| <= limit)
    }

    constructor (limit: int)
      ensures Valid() && this.limit == limit && grants == {}
    {
      this.limit := limit;
      active := map[];
      grants := {};
      new;
      assert forall key :: Held(key) == {};
    }

    /** A grant is refused exactly when the key already holds as many as the limit. */
    method Acquire(key: Key) returns (g: Grant?)
      requires Valid()
      modifies this
      ensures Valid() && (g == null <==> old(|Held(key)|) >= limit)
      ensures g == null ==> grants == old(grants) && active == old(active)
      ensures g != null ==> fresh(g) && g.key == key && !g.released && grants == old(grants) + {g}
    {
      if Active(key) >= limit { return null; }
      g := new Grant(key);
      active := active[key := Active(key) + 1];
      grants := grants + {g};
      HeldAfterAcquire(g);
    }

    twostate lemma HeldAfterAcquire(new g: Grant)
      requires grants == old(grants) + {g} && fresh(g) && !g.released
      requires forall h :: h in old(grants) ==> h.released == old(h.released)
      ensures forall k :: |Held(k)| == old(|Held(k)|) + if k == g.key then 1 else 0
    {
      forall k ensures |Held(k)| == old(|Held(k)|) + if k == g.key then 1 else 0 {
        assert Held(k) == old(Held(k)) + if k == g.key then {g} else {};
      }
    }

    /** Ends one grant; a second call changes nothing. */
    method Release(g: Grant)
      requires Valid() && g in grants
      modifies this`active, g
      ensures Valid() && g.released && forall k :: Held(k) == old(Held(k)) - {g}
      ensures old(g.released) ==> active == old(active)
    {
      if g.released {
        assert forall k :: g !in Held(k);
        return;
      }
      assert g in Held(g.key);
      hide Held, Valid;
      g.released := true;
      active := active[g.key := active[g.key] - 1];
      if active[g.key] == 0 {
        active := active - {g.key};
      }
      ReleaseKeepsValid(g);
    }

    twostate lemma ReleaseKeepsValid(g: Grant)
      requires old(Valid()) && grants == old(grants) && g in grants && !old(g.released) && g.released
      requires forall h :: h in grants && h != g ==> h.released == old(h.released)
      requires g.key in old(active)
      requires active == if old(active)[g.key] == 1 then old(active) - {g.key}
          else old(active)[g.key := old(active)[g.key] - 1]
      ensures Valid() && forall k :: Held(k) == old(Held(k)) - {g}
    {
      HeldAfterRelease(g);
      hide Held;
      forall k ensures Active(k) == old(Active(k)) - (if k == g.key then 1 else 0) && Active(k) == |Held(k)| {
        assert old(Active(k)) == old(|Held(k)|);
      }
      forall k ensures |Held(k)| == 0 || |Held(k)| <= limit {
        assert |Held(k)| <= old(|Held(k)|);
      }
    }

    twostate lemma HeldAfterRelease(g: Grant)
      requires grants == old(grants) && g in grants && !old(g.released) && g.released
      requires forall h :: h in grants && h != g ==> h.released == old(h.released)
      ensures forall k :: |Held(k)| == old(|Held(k)|) - if k == g.key then 1 else 0
      ensures forall k :: Held(k) == old(Held(k)) - {g}
    {
      forall k ensures |Held(k)| == old(|Held(k)|) - (if k == g.key then 1 else 0) && Held(k) == old(Held(k)) - {g} {
        assert Held(k) == old(Held(k)) - {g};
        assert k == g.key ==> g in old(Held(k));
      }
    }
  }
}
