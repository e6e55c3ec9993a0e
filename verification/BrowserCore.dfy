/** One operation on the shared core in the browser (web/shared-core.js). One instance serves every
    call, so a refused free makes the instance unusable for good. */
module BrowserCore {
  import opened Wire
  import opened Sequences
  import opened AbiEvents

  const MAX_OPERATION := 256
  const MAX_INPUT := 0x100_0000
  const MAX_MEMORY := 0x1000_0000

  /** The instance: answers may depend on everything that happened since it was made. None is a
      trap, or a memory length that is not a safe integer. `parse` is the JSON and envelope check. */
  datatype Instance<!V> = Instance(
    memory: seq<Event> -> Option<int>,
    allocate: (seq<Event>, int) -> Option<int>,
    dispatch: (seq<Event>, Buffer, Buffer) -> Option<nat>,
    bytes: (seq<Event>, Buffer) -> Bytes,
    free: (seq<Event>, Buffer) -> Option<int>,
    parse: (Bytes, Bytes) -> Option<V>)

  datatype Error = Unusable | BadOperation | BadInput | MemoryTooLarge | NoAllocation | OutsideMemory | DispatchFailed
    | EmptyResult | ResultTooLarge | BadEnvelope

  type Outcome<+T> = Result<T, Problem<Error>>

  function Accepting<V>(m: Instance<V>): Accepts {
    (h, b) => m.free(h, b) == Some(1)
  }

  predicate MemoryOk<V>(m: Instance<V>, h: seq<Event>) {
    m.memory(h).Some? && m.memory(h).value <= MAX_MEMORY
  }

  predicate InRange<V>(m: Instance<V>, h: seq<Event>, b: Buffer) {
    MemoryOk(m, h) && b.pointer > 0 && b.length > 0 && b.pointer <= m.memory(h).value
        && b.length <= m.memory(h).value - b.pointer
  }

  /** #allocateAndWrite; a buffer outside memory is released at once. */
  function AllocateAndWrite<V>(m: Instance<V>, h: seq<Event>, value: Bytes): (seq<Event>, Outcome<int>) {
    var p := m.allocate(h, |value|);
    var t := [Allocated(|value|, p)];
    if p.None? || p.value == 0 then (t, Failure(Problem(Some(NoAllocation), [])))
    else
      var b := Buffer(p.value, |value|);
      var stored := InRange(m, h + t, b);
      var u := t + [Wrote(b, value, stored)];
      if stored then (u, Success(p.value))
      else
        var freed := FreeBuffer(Accepting(m), h + u, b);
        (u + [freed], Failure(Problem(Some(OutsideMemory), Refused(freed))))
  }

  /** The packed result: pointer in the low half, length in the high half of 64 bits. */
  function ResultBuffer(packed: nat): Buffer {
    Buffer(packed % 0x1_0000_0000, packed / 0x1_0000_0000 % 0x1_0000_0000)
  }

  function CopyAndParse<V>(m: Instance<V>, h: seq<Event>, operation: Bytes, c: Buffer): (seq<Event>, Outcome<V>) {
    if !Real(c) then ([], Failure(Problem(Some(EmptyResult), [])))
    else if c.length > MAX_OUTPUT then ([], Failure(Problem(Some(ResultTooLarge), [])))
    else if !InRange(m, h, c) then ([Copied(c, None)], Failure(Problem(Some(OutsideMemory), [])))
    else
      var view := m.bytes(h, c);
      var value := m.parse(operation, view);
      ([Copied(c, Some(view))], if value.None? then Failure(Problem(Some(BadEnvelope), [])) else Success(value.value))
  }

  /** The try block of `call`: the events, the buffers pushed so far and the outcome. */
  function Work<V>(
      m: Instance<V>, h: seq<Event>, operation: Bytes, input: Bytes): (seq<Event>, seq<Buffer>, Outcome<V>) {
    if !MemoryOk(m, h) then ([], [], Failure(Problem(Some(MemoryTooLarge), [])))
    else
      var (t1, first) := AllocateAndWrite(m, h, operation);
      if first.Failure? then (t1, [], Failure(first.error))
      else
        var a := Buffer(first.value, |operation|);
        var (t2, second) := AllocateAndWrite(m, h + t1, input);
        if second.Failure? then (t1 + t2, [a], Failure(second.error))
        else
          var b := Buffer(second.value, |input|);
          var packed := m.dispatch(h + t1 + t2, a, b);
          if packed.None? then (t1 + t2 + [Dispatched(a, b, None)], [a, b], Failure(Problem(Some(DispatchFailed), [])))
          else
            var c := ResultBuffer(packed.value);
            var t3 := t1 + t2 + [Dispatched(a, b, Some(c))];
            var (t4, parsed) := CopyAndParse(m, h + t3, operation, c);
            (t3 + t4, if Real(c) then [a, b, c] else [a, b], parsed)
  }

  /** The history of an instance and the buffer whose free was refused, if any. */
  datatype State = State(history: seq<Event>, unusable: Option<Buffer>)

  /** `call`: the new events, the outcome, and the reason why the instance is unusable from now on.
      `input` is None when it cannot be written as JSON. */
  function Call<V>(m: Instance<V>, s: State, operation: Bytes, input: Option<Bytes>): (State, Outcome<V>) {
    if s.unusable.Some? then (s, Failure(Problem(Some(Unusable), [])))
    else if operation == [] || |operation| > MAX_OPERATION then (s, Failure(Problem(Some(BadOperation), [])))
    else if input.None? || input.value == [] || |input.value| > MAX_INPUT then (s, Failure(Problem(Some(BadInput), [])))
    else Attempted(m, s.history, operation, input.value)
  }

  /** A call on a usable instance with acceptable sizes. */
  function Attempted<V>(m: Instance<V>, h: seq<Event>, operation: Bytes, input: Bytes): (State, Outcome<V>) {
    var (t, owned, r) := Work(m, h, operation, input);
    var (u, refused) := FreeOwned(Accepting(m), h + t, owned);
    var during := if r.Failure? then r.error.refused else [];
    var cause := if refused != [] then Some(refused[0]) else if during != [] then Some(during[0]) else None;
    (State(h + (t + u), cause), WithRefused(r, refused))
  }

  // ---------------------------------------------------------------- the instance in place

  class SharedCore<!V> {
    const m: Instance<V>
    var trace: seq<Event>
    var unusableCause: Option<Buffer>

    function Now(): State
      reads this
    {
      State(trace, unusableCause)
    }

    constructor (m: Instance<V>)
      ensures this.m == m && Now() == State([], None)
    {
      this.m := m;
      trace, unusableCause := [], None;
    }

    /** #release: throws unless the status is 1. */
    method Release(b: Buffer) returns (ok: bool)
      modifies this`trace
      ensures trace == old(trace) + [FreeBuffer(Accepting(m), old(trace), b)] && ok == Accepting(m)(old(trace), b)
    {
      var status := m.free(trace, b);
      ok := status == Some(1);
      trace := trace + [Freed(b, ok)];
    }

    method ReleaseAll(buffers: seq<Buffer>) returns (failures: seq<Buffer>)
      modifies this`trace
      ensures trace == old(trace) + FreeOwned(Accepting(m), old(trace), Reversed(buffers)).0
      ensures failures == FreeOwned(Accepting(m), old(trace), Reversed(buffers)).1
    {
      failures := [];
      ghost var accepts, h, owned := Accepting(m), trace, Reversed(buffers);
      hide FreeOwned, Refused, Accepting, FreeBuffer, Freeing, Reversed;
      FreeingStarts(accepts, h, owned);
      var i := 0;
      assert buffers[i..] == buffers;
      while i < |buffers|
        invariant 0 <= i <= |buffers| && Freeing(accepts, h, owned, trace, failures, Reversed(buffers[i..]))
      {
        var b := buffers[i];
        ReversedFirst(buffers[i..]);
        assert buffers[i..][1..] == buffers[i + 1..];
        FreeingStep(accepts, h, owned, trace, failures, Reversed(buffers[i + 1..]), b);
        i := i + 1;
        if !Real(b) { continue; }
        FreedEvent(accepts, trace, b);
        var ok := Release(b);
        if !ok { failures := failures + [b]; } else { assert failures + [] == failures; }
      }
      assert buffers[i..] == [];
      assert Reversed([]) == [] by { NothingYet(); }
      FreeingEnds(accepts, h, owned, trace, failures);
    }

    method Provide(value: Bytes) returns (r: Outcome<int>)
      modifies this
      ensures trace == old(trace) + AllocateAndWrite(m, old(trace), value).0
          && r == AllocateAndWrite(m, old(trace), value).1
      ensures unusableCause
          == if r.Failure? && r.error.refused != [] then Some(r.error.refused[0]) else old(unusableCause)
    {
      var p := m.allocate(trace, |value|);
      trace := trace + [Allocated(|value|, p)];
      if p.None? || p.value == 0 { return Failure(Problem(Some(NoAllocation), [])); }
      var b := Buffer(p.value, |value|);
      if InRange(m, trace, b) {
        trace := trace + [Wrote(b, value, true)];
        assert trace == old(trace) + ([Allocated(|value|, p)] + [Wrote(b, value, true)]);
        return Success(p.value);
      }
      trace := trace + [Wrote(b, value, false)];
      ghost var u := [Allocated(|value|, p)] + [Wrote(b, value, false)];
      assert trace == old(trace) + u;
      var ok := Release(b);
      assert trace == old(trace) + (u + [FreeBuffer(Accepting(m), old(trace) + u, b)]);
      if !ok {
        unusableCause := Some(b);
        return Failure(Problem(Some(OutsideMemory), [b]));
      }
      r := Failure(Problem(Some(OutsideMemory), []));
    }

    /** The try block. */
    method Try(operation: Bytes, input: Bytes) returns (owned: seq<Buffer>, r: Outcome<V>)
      modifies this
      ensures trace == old(trace) + Work(m, old(trace), operation, input).0
      ensures owned == Work(m, old(trace), operation, input).1 && r == Work(m, old(trace), operation, input).2
      ensures unusableCause
          == if r.Failure? && r.error.refused != [] then Some(r.error.refused[0]) else old(unusableCause)
    {
      owned := [];
      ghost var h := trace;
      if !MemoryOk(m, trace) { return [], Failure(Problem(Some(MemoryTooLarge), [])); }
      var first := Provide(operation);
      ghost var t1 := AllocateAndWrite(m, h, operation).0;
      if first.Failure? { return [], Failure(first.error); }
      var a := Buffer(first.value, |operation|);
      owned := [a];
      var second := Provide(input);
      ghost var t2 := AllocateAndWrite(m, h + t1, input).0;
      assert trace == h + (t1 + t2) && h + t1 + t2 == h + (t1 + t2);
      if second.Failure? { return [a], Failure(second.error); }
      var b := Buffer(second.value, |input|);
      owned := [a, b];
      var packed := m.dispatch(trace, a, b);
      if packed.None? {
        trace := trace + [Dispatched(a, b, None)];
        assert trace == h + (t1 + t2 + [Dispatched(a, b, None)]);
        return [a, b], Failure(Problem(Some(DispatchFailed), []));
      }
      var c := ResultBuffer(packed.value);
      trace := trace + [Dispatched(a, b, Some(c))];
      ghost var t3 := t1 + t2 + [Dispatched(a, b, Some(c))];
      assert trace == h + t3;
      if Real(c) { owned := [a, b, c]; }
      r := Read(operation, c);
      assert trace == h + (t3 + CopyAndParse(m, h + t3, operation, c).0);
    }

    method Read(operation: Bytes, c: Buffer) returns (r: Outcome<V>)
      modifies this`trace
      ensures trace == old(trace) + CopyAndParse(m, old(trace), operation, c).0
          && r == CopyAndParse(m, old(trace), operation, c).1
    {
      if !Real(c) { return Failure(Problem(Some(EmptyResult), [])); }
      if c.length > MAX_OUTPUT { return Failure(Problem(Some(ResultTooLarge), [])); }
      if !InRange(m, trace, c) {
        trace := trace + [Copied(c, None)];
        return Failure(Problem(Some(OutsideMemory), []));
      }
      var view := m.bytes(trace, c);
      trace := trace + [Copied(c, Some(view))];
      var value := m.parse(operation, view);
      if value.None? { return Failure(Problem(Some(BadEnvelope), [])); }
      r := Success(value.value);
    }

    /** The try block and the clean-up, for a usable instance and acceptable sizes. */
    method Attempt(operation: Bytes, input: Bytes) returns (r: Outcome<V>)
      requires unusableCause.None?
      modifies this
      ensures (Now(), r) == Attempted(m, old(trace), operation, input)
    {
      var owned: seq<Buffer>;
      ghost var h := trace;
      owned, r := Try(operation, input);
      ghost var t := Work(m, h, operation, input).0;
      ReversedTwice(owned);
      hide Work, Reversed, FreeOwned, Accepting;
      var failures := ReleaseAll(Reversed(owned));
      Regroup(h, t, FreeOwned(Accepting(m), h + t, owned).0);
      if failures != [] {
        unusableCause := Some(failures[0]);
        r := Failure(if r.Failure? then Problem(r.error.primary, r.error.refused + failures)
                     else Problem(None, failures));
      }
    }

    method CallCore(operation: Bytes, input: Option<Bytes>) returns (r: Outcome<V>)
      modifies this
      ensures (Now(), r) == Call(m, old(Now()), operation, input)
    {
      if unusableCause.Some? { return Failure(Problem(Some(Unusable), [])); }
      if operation == [] || |operation| > MAX_OPERATION { return Failure(Problem(Some(BadOperation), [])); }
      if input.None? || input.value == [] || |input.value| > MAX_INPUT { return Failure(Problem(Some(BadInput), [])); }
      hide Attempted;
      r := Attempt(operation, input.value);
    }
  }

  lemma FreedEvent(accepts: Accepts, h: seq<Event>, b: Buffer)
    ensures Refused(FreeBuffer(accepts, h, b)) == if accepts(h, b) then [] else [b]
  {
  }

  lemma {:induction false} ReversedFirst(bs: seq<Buffer>)
    requires bs != []
    ensures Reversed(bs) == Reversed(bs[1..]) + [bs[0]]
    decreases |bs|
  {
    assert bs == [bs[0]] + bs[1..];
    ReversedConcat([bs[0]], bs[1..]);
    OnlyOne(bs[0]);
  }

  lemma {:induction false} ReversedTwice(bs: seq<Buffer>)
    ensures Reversed(Reversed(bs)) == bs
  {
    if bs != [] {
      ReversedTwice(bs[..|bs| - 1]);
      ReversedConcat([bs[|bs| - 1]], Reversed(bs[..|bs| - 1]));
      OnlyOne(bs[|bs| - 1]);
    }
  }

  // ---------------------------------------------------------------- laws of one call

  function Held(r: Outcome<int>, length: nat): Option<Buffer> {
    if r.Success? then Some(Buffer(r.value, length)) else None
  }

  lemma ProvideLaws<V>(m: Instance<V>, h: seq<Event>, value: Bytes)
    requires value != []
    ensures var (t, r) := AllocateAndWrite(m, h, value);
            && Provides(t, |value|, Held(r, |value|))
            && (r.Failure? ==> (r.error.refused == [] <==> EveryFreeAccepted(t)))
  {
  }

  lemma ProvideOutcome<V>(m: Instance<V>, h: seq<Event>, value: Bytes)
    requires value != []
    ensures var (t, r) := AllocateAndWrite(m, h, value);
            && (r.Success? <==> AllGood(t)) && NoCopies(t)
            && (r.Success? ==> forall i :: 0 <= i < |t| ==> !t[i].Freed?)
            && (r.Failure? ==> (r.error.refused == [] <==> EveryFreeAccepted(t)))
  {
    hide AllocateAndWrite, Provides, AllGood, NoCopies, EveryFreeAccepted;
    ProvideLaws(m, h, value);
    var (t, r) := AllocateAndWrite(m, h, value);
    ProvidedOutcome(t, |value|, Held(r, |value|));
  }

  lemma WorkHolds<V>(m: Instance<V>, h: seq<Event>, operation: Bytes, input: Bytes)
    requires operation != [] && input != []
    ensures HoldsTheRest(Work(m, h, operation, input).0, Work(m, h, operation, input).1)
  {
    NoWork();
    hide AllocateAndWrite, HoldsTheRest, Provides;
    var (t1, first) := AllocateAndWrite(m, h, operation);
    var (t2, second) := AllocateAndWrite(m, h + t1, input);
    ProvideLaws(m, h, operation);
    ProvideLaws(m, h + t1, input);
    var a, b := Held(first, |operation|), Held(second, |input|);
    var packed := if a.Some? && b.Some? then m.dispatch(h + t1 + t2, a.value, b.value) else None;
    var c := if packed.None? then None else Some(ResultBuffer(packed.value));
    var copied := if c.None? then []
        else CopyAndParse(m, h + (t1 + t2 + [Dispatched(a.value, b.value, c)]), operation, c.value).0;
    WorkInStages(t1, a, t2, b, c, copied, |operation|, |input|);
    assert forall d: Event :: t1 + t2 + [d] + [] == t1 + t2 + [d];
  }

  lemma NoWork()
    ensures HoldsTheRest([], [])
  {
    NothingYet();
    FirstFailed([]);
  }

  /** The events that one call adds to the history. */
  ghost function Added<V>(m: Instance<V>, s: State, operation: Bytes, input: Option<Bytes>): seq<Event>
    ensures Call(m, s, operation, input).0.history == s.history + Added(m, s, operation, input)
  {
    var after := Call(m, s, operation, input).0.history;
    assert s.history <= after;
    after[|s.history|..]
  }

  /** In every call each buffer obtained is freed exactly once, last one first. */
  lemma BuffersConserved<V>(m: Instance<V>, s: State, operation: Bytes, input: Option<Bytes>)
    ensures Conserved(Added(m, s, operation, input))
  {
    hide Work, HoldsTheRest, Conserved;
    if s.unusable.Some? || operation == [] || |operation| > MAX_OPERATION || input.None? || input.value == []
        || |input.value| > MAX_INPUT {
      assert Added(m, s, operation, input) == [];
      NoneConserved();
    } else {
      WorkHolds(m, s.history, operation, input.value);
      var (t, owned, _) := Work(m, s.history, operation, input.value);
      CleanUpConserves(Accepting(m), s.history, t, owned);
      assert Added(m, s, operation, input) == t + FreeOwned(Accepting(m), s.history + t, owned).0;
    }
  }

  lemma NoneConserved()
    ensures Conserved([])
  {
    NothingYet();
  }

  lemma WorkOutcome<V>(m: Instance<V>, h: seq<Event>, operation: Bytes, input: Bytes)
    requires operation != [] && input != []
    ensures var (t, owned, r) := Work(m, h, operation, input);
            && CopiesBeforeFrees(t)
            && (r.Failure? ==> (r.error.refused == [] <==> EveryFreeAccepted(t)))
            && (r.Success? ==> AllGood(t))
  {
    hide AllocateAndWrite;
    if MemoryOk(m, h) {
      ProvideOutcome(m, h, operation);
      var (t1, first) := AllocateAndWrite(m, h, operation);
      if first.Success? {
        ProvideOutcome(m, h + t1, input);
        var (t2, second) := AllocateAndWrite(m, h + t1, input);
        AllGoodConcat(t1, t2);
        if second.Failure? {
          EveryFreeConcat(t1, t2);
          assert NoCopies(t1 + t2);
        } else {
          var a, b := Buffer(first.value, |operation|), Buffer(second.value, |input|);
          AfterDispatchOutcome(m, h, t1 + t2, operation, a, b);
          assert h + (t1 + t2) == h + t1 + t2;
        }
      }
    }
  }

  lemma EveryFreeConcat(t: seq<Event>, u: seq<Event>)
    ensures EveryFreeAccepted(t + u) <==> EveryFreeAccepted(t) && EveryFreeAccepted(u)
  {
    assert forall i :: 0 <= i < |u| ==> u[i] == (t + u)[|t| + i];
    assert forall i :: 0 <= i < |t| ==> t[i] == (t + u)[i];
  }

  lemma AfterDispatchOutcome<V>(m: Instance<V>, h: seq<Event>, t: seq<Event>, operation: Bytes, a: Buffer, b: Buffer)
    requires AllGood(t) && forall i :: 0 <= i < |t| ==> !t[i].Freed?
    ensures var packed := m.dispatch(h + t, a, b);
            && (packed.None? ==>
                  var u := t + [Dispatched(a, b, None)];
                  CopiesBeforeFrees(u) && EveryFreeAccepted(u))
            && (packed.Some? ==>
                  var c := ResultBuffer(packed.value);
                  var v := t + [Dispatched(a, b, Some(c))];
                  var (copied, r) := CopyAndParse(m, h + v, operation, c);
                  && CopiesBeforeFrees(v + copied) && EveryFreeAccepted(v + copied)
                  && (r.Success? ==> AllGood(v + copied))
                  && (r.Failure? ==> r.error.refused == []))
  {
  }

  /** What a successful call did, event by event; the value is what `parse` makes of the bytes that
      were copied, before any free, from the buffer that this very dispatch returned. */
  lemma SuccessfulCall<V>(m: Instance<V>, s: State, operation: Bytes, input: Option<Bytes>)
    returns (a: Buffer, b: Buffer, c: Buffer, view: Bytes)
    requires Call(m, s, operation, input).1.Success?
    ensures s.unusable.None? && input.Some? && Real(a) && Real(b) && Real(c) && 0 < c.length <= MAX_OUTPUT
    ensures m.parse(operation, view) == Some(Call(m, s, operation, input).1.value)
    ensures Added(m, s, operation, input) ==
      [Allocated(a.length, Some(a.pointer)), Wrote(a, operation, true),
       Allocated(b.length, Some(b.pointer)), Wrote(b, input.value, true),
       Dispatched(a, b, Some(c)), Copied(c, Some(view)),
       Freed(c, true), Freed(b, true), Freed(a, true)]
  {
    var h := s.history;
    var (t, owned, r) := Work(m, h, operation, input.value);
    var (t1, first) := AllocateAndWrite(m, h, operation);
    var (t2, second) := AllocateAndWrite(m, h + t1, input.value);
    a, b := Buffer(first.value, |operation|), Buffer(second.value, |input.value|);
    c := ResultBuffer(m.dispatch(h + t1 + t2, a, b).value);
    view := m.bytes(h + (t1 + t2 + [Dispatched(a, b, Some(c))]), c);
    assert t == [Allocated(a.length, Some(a.pointer)), Wrote(a, operation, true), Allocated(b.length, Some(b.pointer)),
        Wrote(b, input.value, true),
                 Dispatched(a, b, Some(c)), Copied(c, Some(view))];
    FreesOfThree(Accepting(m), h + t, a, b, c);
    assert Added(m, s, operation, input) == t + FreeOwned(Accepting(m), h + t, owned).0;
  }

  /** A refused free suppresses the result and makes the instance unusable; nothing else does. */
  lemma RefusedFreeIsRemembered<V>(m: Instance<V>, s: State, operation: Bytes, input: Option<Bytes>)
    ensures var (after, r) := Call(m, s, operation, input);
            var t := Added(m, s, operation, input);
            && (after.unusable.Some? <==> s.unusable.Some? || !EveryFreeAccepted(t))
            && (after.unusable.Some? ==> r.Failure?)
            && CopiesBeforeFrees(t)
            && (s.unusable.Some? ==> after == s && r == Failure(Problem(Some(Unusable), [])))
  {
    hide Work, FreeOwned, Accepting;
    if !(s.unusable.Some? || operation == [] || |operation| > MAX_OPERATION || input.None? || input.value == []
        || |input.value| > MAX_INPUT) {
      WorkOutcome(m, s.history, operation, input.value);
      var (t, owned, r) := Work(m, s.history, operation, input.value);
      var u := FreeOwned(Accepting(m), s.history + t, owned).0;
      FreeOwnedOutcome(Accepting(m), s.history + t, owned);
      EveryFreeConcat(t, u);
      assert Added(m, s, operation, input) == t + u;
      assert AllGood(t) ==> EveryFreeAccepted(t);
    } else {
      assert Added(m, s, operation, input) == [];
    }
  }

  // ---------------------------------------------------------------- a lifetime of calls

  datatype Request = Request(operation: Bytes, input: Option<Bytes>)

  function Run<V>(m: Instance<V>, rs: seq<Request>): State
    decreases |rs|
  {
    if rs == [] then State([], None)
    else Call(m, Run(m, rs[..|rs| - 1]), rs[|rs| - 1].operation, rs[|rs| - 1].input).0
  }

  /** Over the whole life of an instance it is unusable exactly when some free was refused, and all
      buffers it ever obtained have been freed, each once. */
  lemma {:induction false} LifetimeIsConserved<V>(m: Instance<V>, rs: seq<Request>)
    ensures Run(m, rs).unusable.Some? <==> !EveryFreeAccepted(Run(m, rs).history)
    ensures multiset(Frees(Run(m, rs).history)) == multiset(Obtained(Run(m, rs).history))
    decreases |rs|
  {
    if rs != [] {
      hide Call, Obtained, Frees, EveryFreeAccepted;
      var s, r := Run(m, rs[..|rs| - 1]), rs[|rs| - 1];
      LifetimeIsConserved(m, rs[..|rs| - 1]);
      RefusedFreeIsRemembered(m, s, r.operation, r.input);
      BuffersConserved(m, s, r.operation, r.input);
      var t := Added(m, s, r.operation, r.input);
      EveryFreeConcat(s.history, t);
      ObtainedConcat(s.history, t);
      FreesConcat(s.history, t);
      ReversedIsPermutation(Obtained(t));
    }
  }

  lemma {:induction false} ReversedIsPermutation(bs: seq<Buffer>)
    ensures multiset(Reversed(bs)) == multiset(bs)
  {
    if bs != [] {
      ReversedIsPermutation(bs[..|bs| - 1]);
      assert bs == bs[..|bs| - 1] + [bs[|bs| - 1]];
    }
  }

  /** After a refused free every later call fails without touching the memory. */
  lemma {:induction false} UnusableForever<V>(m: Instance<V>, rs: seq<Request>, more: seq<Request>)
    requires Run(m, rs).unusable.Some?
    ensures Run(m, rs + more) == Run(m, rs)
    ensures forall operation, input :: Call(m, Run(m, rs + more), operation, input).1.Failure?
    decreases |more|
  {
    if more == [] {
      assert rs + more == rs;
    } else {
      UnusableForever(m, rs, more[..|more| - 1]);
      assert (rs + more)[..|rs + more| - 1] == rs + more[..|more| - 1];
    }
  }
}
