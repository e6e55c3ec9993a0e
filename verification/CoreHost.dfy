/** One operation on the shared core in the server (internal/sharedcore/core.go): allocate and write
    two inputs, dispatch, copy the result, free everything. Any call may fail at any moment. */
module CoreHost {
  import opened Wire
  import opened AbiEvents

  const TWO_32 := 0x1_0000_0000

  type Word = x: int | 0 <= x < 0x1_0000_0000_0000_0000

  /** The module: each answer may depend on everything that happened before. None is a trap or a
      context error; a call may also return any number of values. */
  datatype Module = Module(
    allocate: (seq<Event>, int) -> Option<seq<Word>>,
    write: (seq<Event>, Buffer, Bytes) -> bool,
    dispatch: (seq<Event>, Buffer, Buffer) -> Option<seq<Word>>,
    read: (seq<Event>, Buffer) -> Option<Bytes>,
    free: (seq<Event>, Buffer) -> Option<seq<Word>>)

  datatype Error =
    | NoAllocation | NullPointer | OutsideMemory | DispatchFailed | EmptyResult | ResultTooLarge
    | ResultOutsideMemory

  type Outcome<+T> = Result<T, Problem<Error>>

  function Single(reply: Option<seq<Word>>): Option<Word> {
    if reply.Some? && |reply.value| == 1 then Some(reply.value[0]) else None
  }

  // ---------------------------------------------------------------- what one call does

  /** freeBuffer: only the status 1 counts as freed. */
  function Accepting(m: Module): Accepts {
    (h, b) => Single(m.free(h, b)) == Some(1)
  }

  /** allocateAndWrite: the events and the pointer. A buffer that cannot be written is freed at once. */
  function AllocateAndWrite(m: Module, h: seq<Event>, value: Bytes): (seq<Event>, Outcome<int>) {
    var word := Single(m.allocate(h, |value|));
    if word.None? then ([Allocated(|value|, None)], Failure(Problem(Some(NoAllocation), [])))
    else
      var p := word.value % TWO_32;
      var t := [Allocated(|value|, Some(p))];
      if value == [] then (t, Success(p))
      else if p == 0 then (t, Failure(Problem(Some(NullPointer), [])))
      else
        var b := Buffer(p, |value|);
        var stored := m.write(h + t, b, value);
        var u := t + [Wrote(b, value, stored)];
        if stored then (u, Success(p))
        else
          var freed := FreeBuffer(Accepting(m), h + u, b);
          (u + [freed], Failure(Problem(Some(OutsideMemory), Refused(freed))))
  }

  /** copyABIResult */
  function CopyResult(m: Module, h: seq<Event>, b: Buffer): (seq<Event>, Outcome<Bytes>) {
    if !Real(b) then ([], Failure(Problem(Some(EmptyResult), [])))
    else if b.length > MAX_OUTPUT then ([], Failure(Problem(Some(ResultTooLarge), [])))
    else
      var view := m.read(h, b);
      ([Copied(b, view)], if view.None? then Failure(Problem(Some(ResultOutsideMemory), [])) else Success(view.value))
  }

  function ResultBuffer(word: Word): Buffer {
    Buffer(word % TWO_32, word / TWO_32)
  }

  /** callABI without its deferred clean-up: the events, the buffers still held, and the outcome. */
  function Work(m: Module, operation: Bytes, input: Bytes): (seq<Event>, seq<Buffer>, Outcome<Bytes>) {
    var (t1, first) := AllocateAndWrite(m, [], operation);
    if first.Failure? then (t1, [], Failure(first.error))
    else
      var a := Buffer(first.value, |operation|);
      var (t2, second) := AllocateAndWrite(m, t1, input);
      if second.Failure? then (t1 + t2, [a], Failure(second.error))
      else
        var b := Buffer(second.value, |input|);
        var word := Single(m.dispatch(t1 + t2, a, b));
        if word.None? then (t1 + t2 + [Dispatched(a, b, None)], [a, b], Failure(Problem(Some(DispatchFailed), [])))
        else
          var c := ResultBuffer(word.value);
          var t3 := t1 + t2 + [Dispatched(a, b, Some(c))];
          var (t4, copied) := CopyResult(m, t3, c);
          (t3 + t4, if Real(c) then [a, b, c] else [a, b], copied)
  }

  function CallAbi(m: Module, operation: Bytes, input: Bytes): (seq<Event>, Outcome<Bytes>) {
    var (t, owned, r) := Work(m, operation, input);
    var (u, refused) := FreeOwned(Accepting(m), t, owned);
    (t + u, WithRefused(r, refused))
  }

  // ---------------------------------------------------------------- the same, call by call

  class Instance {
    const m: Module
    var trace: seq<Event>

    constructor (m: Module)
      ensures this.m == m && trace == []
    {
      this.m := m;
      trace := [];
    }

    method Free(b: Buffer) returns (refused: seq<Buffer>)
      modifies this
      ensures trace == old(trace) + [FreeBuffer(Accepting(m), old(trace), b)]
          && refused == Refused(FreeBuffer(Accepting(m), old(trace), b))
    {
      var reply := m.free(trace, b);
      trace := trace + [Freed(b, reply.Some? && |reply.value| == 1 && reply.value[0] == 1)];
      refused := Refused(trace[|trace| - 1]);
    }

    method Provide(value: Bytes) returns (r: Outcome<int>)
      modifies this
      ensures trace == old(trace) + AllocateAndWrite(m, old(trace), value).0
          && r == AllocateAndWrite(m, old(trace), value).1
    {
      var reply := m.allocate(trace, |value|);
      if reply.None? || |reply.value| != 1 {
        trace := trace + [Allocated(|value|, None)];
        return Failure(Problem(Some(NoAllocation), []));
      }
      var pointer := reply.value[0] % TWO_32;
      trace := trace + [Allocated(|value|, Some(pointer))];
      if |value| > 0 && pointer == 0 { return Failure(Problem(Some(NullPointer), [])); }
      if |value| > 0 {
        var stored := m.write(trace, Buffer(pointer, |value|), value);
        trace := trace + [Wrote(Buffer(pointer, |value|), value, stored)];
        ghost var u := [Allocated(|value|, Some(pointer))] + [Wrote(Buffer(pointer, |value|), value, stored)];
        assert trace == old(trace) + u
            && stored == m.write(old(trace) + [Allocated(|value|, Some(pointer))], Buffer(pointer, |value|), value);
        if !stored {
          var cleanup := Free(Buffer(pointer, |value|));
          assert trace == old(trace) + (u + [FreeBuffer(Accepting(m), old(trace) + u, Buffer(pointer, |value|))]);
          return Failure(Problem(Some(OutsideMemory), cleanup));
        }
      }
      r := Success(pointer);
    }

    method Release(owned: seq<Buffer>) returns (refused: seq<Buffer>)
      modifies this
      ensures trace == old(trace) + FreeOwned(Accepting(m), old(trace), owned).0
          && refused == FreeOwned(Accepting(m), old(trace), owned).1
    {
      refused := [];
      ghost var accepts, h := Accepting(m), trace;
      hide FreeOwned, Refused, Accepting, FreeBuffer, Freeing;
      var index := |owned|;
      FreeingStarts(accepts, h, owned);
      assert owned[..index] == owned;
      while index > 0
        invariant 0 <= index <= |owned| && Freeing(accepts, h, owned, trace, refused, owned[..index])
      {
        index := index - 1;
        var b := owned[index];
        assert owned[..index + 1] == owned[..index] + [b];
        FreeingStep(accepts, h, owned, trace, refused, owned[..index], b);
        if !Real(b) { continue; }
        var failed := Free(b);
        refused := refused + failed;
      }
      assert owned[..0] == [];
      FreeingEnds(accepts, h, owned, trace, refused);
    }

    method Copy(b: Buffer) returns (r: Outcome<Bytes>)
      modifies this
      ensures trace == old(trace) + CopyResult(m, old(trace), b).0 && r == CopyResult(m, old(trace), b).1
    {
      if !Real(b) { return Failure(Problem(Some(EmptyResult), [])); }
      if b.length > MAX_OUTPUT { return Failure(Problem(Some(ResultTooLarge), [])); }
      var view := m.read(trace, b);
      trace := trace + [Copied(b, view)];
      if view.None? { return Failure(Problem(Some(ResultOutsideMemory), [])); }
      r := Success(view.value);
    }

    method Perform(operation: Bytes, input: Bytes) returns (owned: seq<Buffer>, r: Outcome<Bytes>)
      requires trace == []
      modifies this
      ensures (trace, owned, r) == Work(m, operation, input)
    {
      owned := [];
      var first := Provide(operation);
      assert trace == AllocateAndWrite(m, [], operation).0;
      if first.Failure? { return [], Failure(first.error); }
      owned := [Buffer(first.value, |operation|)];
      var second := Provide(input);
      if second.Failure? { return owned, Failure(second.error); }
      owned := owned + [Buffer(second.value, |input|)];
      assert owned == [Buffer(first.value, |operation|), Buffer(second.value, |input|)];
      var reply := m.dispatch(trace, owned[0], owned[1]);
      if reply.None? || |reply.value| != 1 {
        trace := trace + [Dispatched(owned[0], owned[1], None)];
        return owned, Failure(Problem(Some(DispatchFailed), []));
      }
      var c := ResultBuffer(reply.value[0]);
      trace := trace + [Dispatched(owned[0], owned[1], Some(c))];
      if Real(c) {
        owned := owned + [c];
        assert owned == [Buffer(first.value, |operation|), Buffer(second.value, |input|), c];
      }
      r := Copy(c);
    }

    /** callABI: the deferred clean-up runs on every path and its errors take the result away. */
    method Call(operation: Bytes, input: Bytes) returns (r: Outcome<Bytes>)
      requires trace == []
      modifies this
      ensures (trace, r) == CallAbi(m, operation, input)
    {
      var owned: seq<Buffer>;
      owned, r := Perform(operation, input);
      var refused := Release(owned);
      if refused != [] {
        r := Failure(if r.Failure? then Problem(r.error.primary, r.error.refused + refused)
                     else Problem(None, refused));
      }
    }
  }

  // ---------------------------------------------------------------- laws

  function Held(r: Outcome<int>, length: nat): Option<Buffer> {
    if r.Success? then Some(Buffer(r.value, length)) else None
  }

  lemma ProvideLaws(m: Module, h: seq<Event>, value: Bytes)
    ensures var (t, r) := AllocateAndWrite(m, h, value);
            Provides(t, |value|, Held(r, |value|)) && (r.Failure? ==> r.error != Problem(None, []))
  {
  }

  lemma ProvideOutcome(m: Module, h: seq<Event>, value: Bytes)
    ensures var (t, r) := AllocateAndWrite(m, h, value);
            && (r.Success? <==> AllGood(t)) && (r.Failure? ==> r.error != Problem(None, [])) && NoCopies(t)
            && (r.Success? ==> forall i :: 0 <= i < |t| ==> !t[i].Freed?)
  {
    hide AllocateAndWrite, Provides, AllGood, NoCopies;
    ProvideLaws(m, h, value);
    var (t, r) := AllocateAndWrite(m, h, value);
    ProvidedOutcome(t, |value|, Held(r, |value|));
  }

  // ---------------------------------------------------------------- the whole call

  lemma WorkHolds(m: Module, operation: Bytes, input: Bytes)
    ensures HoldsTheRest(Work(m, operation, input).0, Work(m, operation, input).1)
  {
    hide AllocateAndWrite, HoldsTheRest, Provides;
    var (t1, first) := AllocateAndWrite(m, [], operation);
    var (t2, second) := AllocateAndWrite(m, t1, input);
    ProvideLaws(m, [], operation);
    ProvideLaws(m, t1, input);
    var a, b := Held(first, |operation|), Held(second, |input|);
    var word := if a.Some? && b.Some? then Single(m.dispatch(t1 + t2, a.value, b.value)) else None;
    var c := if word.None? then None else Some(ResultBuffer(word.value));
    var copied := if c.None? then [] else CopyResult(m, t1 + t2 + [Dispatched(a.value, b.value, c)], c.value).0;
    WorkInStages(t1, a, t2, b, c, copied, |operation|, |input|);
    assert forall d: Event :: t1 + t2 + [d] + [] == t1 + t2 + [d];
  }

  /** Every buffer obtained is freed exactly once and last one first, whichever of the allocations,
      writes, dispatch, read and frees fail. */
  lemma BuffersConserved(m: Module, operation: Bytes, input: Bytes)
    ensures Conserved(CallAbi(m, operation, input).0)
  {
    hide Work, HoldsTheRest;
    WorkHolds(m, operation, input);
    var (t, owned, _) := Work(m, operation, input);
    CleanUpConserves(Accepting(m), [], t, owned);
    assert [] + t == t;
  }

  lemma WorkOutcome(m: Module, operation: Bytes, input: Bytes)
    ensures var (t, owned, r) := Work(m, operation, input);
            && (r.Success? <==> AllGood(t)) && (r.Failure? ==> r.error != Problem(None, []))
            && CopiesBeforeFrees(t)
  {
    hide AllocateAndWrite;
    ProvideOutcome(m, [], operation);
    var (t1, first) := AllocateAndWrite(m, [], operation);
    var t := Work(m, operation, input).0;
    if first.Success? {
      ProvideOutcome(m, t1, input);
      var (t2, second) := AllocateAndWrite(m, t1, input);
      if second.Failure? {
        AllGoodConcat(t1, t2);
        assert NoCopies(t1 + t2);
      } else {
        AllGoodConcat(t1, t2);
        assert forall i :: 0 <= i < |t1 + t2| ==> !(t1 + t2)[i].Freed?;
        var a, b := Buffer(first.value, |operation|), Buffer(second.value, |input|);
        AfterDispatchOutcome(m, t1 + t2, a, b);
        var word := Single(m.dispatch(t1 + t2, a, b));
        if word.Some? {
          var d := Dispatched(a, b, Some(ResultBuffer(word.value)));
          var copied := CopyResult(m, t1 + t2 + [d], ResultBuffer(word.value)).0;
          AllGoodConcat(t1 + t2, [d] + copied);
          assert t == t1 + t2 + ([d] + copied);
        } else {
          AllGoodConcat(t1 + t2, [Dispatched(a, b, None)]);
          assert !AllGood([Dispatched(a, b, None)]) by { assert !Good([Dispatched(a, b, None)][0]); }
        }
      }
    }
  }

  lemma AfterDispatchOutcome(m: Module, h: seq<Event>, a: Buffer, b: Buffer)
    ensures var word := Single(m.dispatch(h, a, b));
            && (word.None? ==> !Good(Dispatched(a, b, None)))
            && (word.Some? ==>
                  var d := Dispatched(a, b, Some(ResultBuffer(word.value)));
                  var (t, r) := CopyResult(m, h + [d], ResultBuffer(word.value));
                  (r.Success? <==> AllGood([d] + t)) && |t| <= 1 && (t != [] ==> t[0].Copied?))
  {
    var word := Single(m.dispatch(h, a, b));
    if word.Some? {
      var d := Dispatched(a, b, Some(ResultBuffer(word.value)));
      var t := CopyResult(m, h + [d], ResultBuffer(word.value)).0;
      assert ([d] + t)[0] == d && (t != [] ==> ([d] + t)[1] == t[0]);
    }
  }

  /** A call succeeds exactly when every single answer was good; a refused free takes the result
      away; and the result was copied before anything was freed. */
  lemma SucceedsExactlyWhenAllGood(m: Module, operation: Bytes, input: Bytes)
    ensures var (t, r) := CallAbi(m, operation, input);
            && (r.Success? <==> AllGood(t))
            && (r.Failure? ==> r.error != Problem(None, []))
            && (!EveryFreeAccepted(t) ==> r.Failure?)
            && CopiesBeforeFrees(t)
  {
    hide Work, FreeOwned;
    WorkOutcome(m, operation, input);
    var (t, owned, r) := Work(m, operation, input);
    var (u, refused) := FreeOwned(Accepting(m), t, owned);
    FreeOwnedOutcome(Accepting(m), t, owned);
    AllGoodConcat(t, u);
    assert !EveryFreeAccepted(t + u) ==> !AllGood(t + u);
  }

  /** What a successful call did, event by event: the result is what was read from the buffer that
      this very dispatch returned. */
  lemma SuccessfulCall(m: Module, operation: Bytes, input: Bytes)
    returns (a: Buffer, b: Buffer, c: Buffer)
    requires operation != [] && input != [] && CallAbi(m, operation, input).1.Success?
    ensures Real(a) && Real(b) && Real(c) && a.length == |operation| && b.length == |input|
        && 0 < c.length <= MAX_OUTPUT
    ensures CallAbi(m, operation, input).0 ==
      [Allocated(a.length, Some(a.pointer)), Wrote(a, operation, true),
       Allocated(b.length, Some(b.pointer)), Wrote(b, input, true),
       Dispatched(a, b, Some(c)), Copied(c, Some(CallAbi(m, operation, input).1.value)),
       Freed(c, true), Freed(b, true), Freed(a, true)]
  {
    var (t, owned, r) := Work(m, operation, input);
    var (t1, first) := AllocateAndWrite(m, [], operation);
    WorkOutcome(m, operation, input);
    var (t2, second) := AllocateAndWrite(m, t1, input);
    a, b := Buffer(first.value, |operation|), Buffer(second.value, |input|);
    c := ResultBuffer(Single(m.dispatch(t1 + t2, a, b)).value);
    assert t == [Allocated(a.length, Some(a.pointer)), Wrote(a, operation, true), Allocated(b.length, Some(b.pointer)),
        Wrote(b, input, true),
                 Dispatched(a, b, Some(c)), Copied(c, Some(r.value))];
    FreesOfThree(Accepting(m), t, a, b, c);
  }
}
