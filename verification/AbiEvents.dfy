/** What a host does with the linear memory of the shared WASM core, as a list of events, and what
    it means that every buffer obtained is given back. */
module AbiEvents {
  import opened Wire
  import opened Sequences

  type Bytes = seq<int>

  const MAX_OUTPUT := 0x100_0000

  datatype Buffer = Buffer(pointer: int, length: int)

  /** One call into the module or one access to its memory, with the answer. */
  datatype Event =
    | Allocated(length: int, pointer: Option<int>)
    | Wrote(target: Buffer, bytes: Bytes, stored: bool)
    | Dispatched(operation: Buffer, input: Buffer, result: Option<Buffer>)
    | Copied(source: Buffer, view: Option<Bytes>)
    | Freed(buffer: Buffer, accepted: bool)

  predicate Real(b: Buffer) {
    b.pointer != 0 && b.length != 0
  }

  function RealOnly(bs: seq<Buffer>): seq<Buffer> {
    if bs == [] then [] else RealOnly(bs[..|bs| - 1]) + if Real(bs[|bs| - 1]) then [bs[|bs| - 1]] else []
  }

  /** The buffer that an event hands to the host, if any. */
  function Gain(e: Event): seq<Buffer> {
    match e
    case Allocated(n, Some(p)) => if Real(Buffer(p, n)) then [Buffer(p, n)] else []
    case Dispatched(_, _, Some(b)) => if Real(b) then [b] else []
    case _ => []
  }

  /** Every buffer the host obtained, in order. */
  function Obtained(t: seq<Event>): seq<Buffer> {
    if t == [] then [] else Obtained(t[..|t| - 1]) + Gain(t[|t| - 1])
  }

  function FreedBy(e: Event): seq<Buffer> {
    if e.Freed? then [e.buffer] else []
  }

  /** Every free call the host made, in order. */
  function Frees(t: seq<Event>): seq<Buffer> {
    if t == [] then []
    else Frees(t[..|t| - 1]) + FreedBy(t[|t| - 1])
  }

  function Reversed(bs: seq<Buffer>): (r: seq<Buffer>)
    ensures |r| == |bs|
  {
    if bs == [] then [] else [bs[|bs| - 1]] + Reversed(bs[..|bs| - 1])
  }

  predicate EveryFreeAccepted(t: seq<Event>) {
    forall i :: 0 <= i < |t| && t[i].Freed? ==> t[i].accepted
  }

  /** Nothing is read from the module once a buffer was given back. */
  predicate CopiesBeforeFrees(t: seq<Event>) {
    forall i, j :: 0 <= i < j < |t| && t[i].Freed? ==> !t[j].Copied?
  }

  /** Each buffer obtained is freed exactly once, last one first. */
  predicate Conserved(t: seq<Event>) {
    Frees(t) == Reversed(Obtained(t))
  }

  // ---------------------------------------------------------------- concatenation

  lemma AddEvent(t: seq<Event>, e: Event)
    ensures Obtained(t + [e]) == Obtained(t) + Gain(e)
    ensures Frees(t + [e]) == Frees(t) + FreedBy(e)
  {
    hide Gain, FreedBy;
    assert (t + [e])[..|t|] == t;
  }

  lemma Snoc<T>(s: seq<T>, t: seq<T>)
    requires t != []
    ensures t == t[..|t| - 1] + [t[|t| - 1]] && s + t == s + t[..|t| - 1] + [t[|t| - 1]]
  {
  }

  lemma {:induction false} ObtainedConcat(t: seq<Event>, u: seq<Event>)
    ensures Obtained(t + u) == Obtained(t) + Obtained(u)
    decreases |u|
  {
    NothingYet();
    hide Obtained, Gain;
    if u == [] {
      Regroup(t, [], []);
      Regroup(Obtained(t), [], []);
    } else {
      var front, e := u[..|u| - 1], u[|u| - 1];
      ObtainedConcat(t, front);
      AddEvent(t + front, e);
      AddEvent(front, e);
      Snoc(t, u);
      Regroup(Obtained(t), Obtained(front), Gain(e));
    }
  }

  lemma {:induction false} FreesConcat(t: seq<Event>, u: seq<Event>)
    ensures Frees(t + u) == Frees(t) + Frees(u)
    decreases |u|
  {
    NothingYet();
    hide Frees, FreedBy;
    if u == [] {
      Regroup(t, [], []);
      Regroup(Frees(t), [], []);
    } else {
      var front, e := u[..|u| - 1], u[|u| - 1];
      FreesConcat(t, front);
      AddEvent(t + front, e);
      AddEvent(front, e);
      Snoc(t, u);
      Regroup(Frees(t), Frees(front), FreedBy(e));
    }
  }

  lemma AddBuffer(bs: seq<Buffer>, b: Buffer)
    ensures Reversed(bs + [b]) == [b] + Reversed(bs)
    ensures RealOnly(bs + [b]) == RealOnly(bs) + RealOnly([b])
  {
    assert (bs + [b])[..|bs|] == bs;
    OnlyOne(b);
  }

  lemma {:induction false} ReversedConcat(a: seq<Buffer>, b: seq<Buffer>)
    ensures Reversed(a + b) == Reversed(b) + Reversed(a)
    decreases |b|
  {
    NothingYet();
    hide Reversed;
    if b == [] {
      Regroup(a, [], []);
      Regroup(Reversed(a), [], []);
    } else {
      var front, last := b[..|b| - 1], b[|b| - 1];
      ReversedConcat(a, front);
      AddBuffer(a + front, last);
      AddBuffer(front, last);
      Snoc(a, b);
      Regroup([last], Reversed(front), Reversed(a));
    }
  }

  lemma {:induction false} RealOnlyConcat(a: seq<Buffer>, b: seq<Buffer>)
    ensures RealOnly(a + b) == RealOnly(a) + RealOnly(b)
    decreases |b|
  {
    NothingYet();
    hide RealOnly;
    if b == [] {
      Regroup(a, [], []);
      Regroup(RealOnly(a), [], []);
    } else {
      var front, last := b[..|b| - 1], b[|b| - 1];
      RealOnlyConcat(a, front);
      AddBuffer(a + front, last);
      AddBuffer(front, last);
      Snoc(a, b);
      Regroup(RealOnly(a), RealOnly(front), RealOnly([last]));
    }
  }

  /** Work that leaves `held` in the host's hands, then obtaining and freeing some more, then freeing
      `held` in reverse: all together conserve. */
  lemma WorkAndFailedStep(work: seq<Event>, failed: seq<Event>, frees: seq<Event>, held: seq<Buffer>)
    requires Obtained(work) == held && Frees(work) == [] && Conserved(failed) && Obtained(frees) == []
        && Frees(frees) == Reversed(held)
    ensures Conserved(work + failed + frees)
  {
    hide Obtained, Frees, Reversed;
    ObtainedConcat(work, failed);
    FreesConcat(work, failed);
    ObtainedConcat(work + failed, frees);
    FreesConcat(work + failed, frees);
    ReversedConcat(held, Obtained(failed));
    assert Obtained(work + failed + frees) == held + Obtained(failed);
  }

  // ---------------------------------------------------------------- freeing what is held

  /** Whether the module accepts a free call made after these events. */
  type Accepts = (seq<Event>, Buffer) -> bool

  function FreeBuffer(accepts: Accepts, h: seq<Event>, b: Buffer): Event {
    Freed(b, accepts(h, b))
  }

  function Refused(e: Event): seq<Buffer> {
    if e.Freed? && !e.accepted then [e.buffer] else []
  }

  /** Frees the buffers held, last one first: the events and the buffers that were refused. Empty
      buffers are skipped, and a refusal does not stop it. */
  function FreeOwned(accepts: Accepts, h: seq<Event>, owned: seq<Buffer>): (seq<Event>, seq<Buffer>)
    decreases |owned|
  {
    if owned == [] then ([], [])
    else
      var b := owned[|owned| - 1];
      var t := if Real(b) then [FreeBuffer(accepts, h, b)] else [];
      var (u, refused) := FreeOwned(accepts, h + t, owned[..|owned| - 1]);
      (t + u, (if t == [] then [] else Refused(t[0])) + refused)
  }

  /** Why a call failed: what went wrong first, and the buffers whose free was refused. */
  datatype Problem<+E> = Problem(primary: Option<E>, refused: seq<Buffer>)

  function WithRefused<T, E>(r: Result<T, Problem<E>>, refused: seq<Buffer>): Result<T, Problem<E>> {
    if refused == [] then r
    else Failure(if r.Failure? then Problem(r.error.primary, r.error.refused + refused) else Problem(None, refused))
  }

  lemma FreeOwnedNone(accepts: Accepts, h: seq<Event>)
    ensures FreeOwned(accepts, h, []) == ([], [])
  {
  }

  lemma FreeOwnedStep(accepts: Accepts, h: seq<Event>, owned: seq<Buffer>, b: Buffer)
    ensures var freed := FreeBuffer(accepts, h, b);
            FreeOwned(accepts, h, owned + [b]) ==
              if Real(b) then
                ([freed] + FreeOwned(accepts, h + [freed], owned).0,
                 Refused(freed) + FreeOwned(accepts, h + [freed], owned).1)
              else FreeOwned(accepts, h, owned)
  {
    assert (owned + [b])[..|owned|] == owned;
    if !Real(b) {
      var (u, refused) := FreeOwned(accepts, h, owned);
      var none: seq<Event> := [];
      assert h + none == h && none + u == u;
      assert [] + refused == refused;
    }
  }

  /** Part of the clean-up is done: what was freed and refused so far, and what is left to free, is
      together the whole clean-up that started after the events `h`. */
  ghost predicate Freeing(accepts: Accepts, h: seq<Event>, owned: seq<Buffer>, now: seq<Event>, refused: seq<Buffer>,
      left: seq<Buffer>) {
    var all, rest := FreeOwned(accepts, h, owned), FreeOwned(accepts, now, left);
    h + all.0 == now + rest.0 && all.1 == refused + rest.1
  }

  lemma FreeingStarts(accepts: Accepts, h: seq<Event>, owned: seq<Buffer>)
    ensures Freeing(accepts, h, owned, h, [], owned)
  {
  }

  lemma FreeingStep(accepts: Accepts, h: seq<Event>, owned: seq<Buffer>, now: seq<Event>, refused: seq<Buffer>,
      left: seq<Buffer>, b: Buffer)
    requires Freeing(accepts, h, owned, now, refused, left + [b])
    ensures var freed := FreeBuffer(accepts, now, b);
            if Real(b) then Freeing(accepts, h, owned, now + [freed], refused + Refused(freed), left)
            else Freeing(accepts, h, owned, now, refused, left)
  {
    hide FreeOwned, Refused, FreeBuffer;
    FreeOwnedStep(accepts, now, left, b);
    if Real(b) {
      var freed := FreeBuffer(accepts, now, b);
      var rest := FreeOwned(accepts, now + [freed], left);
      Regroup(now, [freed], rest.0);
      Regroup(refused, Refused(freed), rest.1);
    }
  }

  lemma FreeingEnds(accepts: Accepts, h: seq<Event>, owned: seq<Buffer>, now: seq<Event>, refused: seq<Buffer>)
    requires Freeing(accepts, h, owned, now, refused, [])
    ensures now == h + FreeOwned(accepts, h, owned).0 && refused == FreeOwned(accepts, h, owned).1
  {
  }

  predicate NoCopies(t: seq<Event>) {
    forall i :: 0 <= i < |t| ==> !t[i].Copied?
  }

  lemma OnlyOne(b: Buffer)
    ensures RealOnly([b]) == (if Real(b) then [b] else []) && Reversed([b]) == [b] && Reversed([]) == []
  {
    assert [b][..0] == [];
  }

  lemma NothingYet()
    ensures Obtained([]) == [] && Frees([]) == [] && Reversed([]) == [] && RealOnly([]) == []
  {
  }

  /** The clean-up frees every buffer held, last one first, and goes on after a refused free. */
  lemma {:induction false} FreeOwnedFrees(accepts: Accepts, h: seq<Event>, owned: seq<Buffer>)
    ensures var t := FreeOwned(accepts, h, owned).0; Obtained(t) == [] && Frees(t) == Reversed(RealOnly(owned))
    decreases |owned|
  {
    NothingYet();
    if owned != [] {
      hide FreeOwned, Obtained, Frees, Reversed, RealOnly;
      var b, rest := owned[|owned| - 1], owned[..|owned| - 1];
      assert owned == rest + [b];
      FreeOwnedStep(accepts, h, rest, b);
      RealOnlyConcat(rest, [b]);
      OnlyOne(b);
      if Real(b) {
        var freed := FreeBuffer(accepts, h, b);
        var u := FreeOwned(accepts, h + [freed], rest).0;
        FreeOwnedFrees(accepts, h + [freed], rest);
        ObtainedConcat([freed], u);
        FreesConcat([freed], u);
        AddEvent([], freed);
        assert [] + [freed] == [freed];
        ReversedConcat(RealOnly(rest), [b]);
      } else {
        FreeOwnedFrees(accepts, h, rest);
        assert RealOnly(rest) + [] == RealOnly(rest);
      }
    }
  }

  lemma OneMoreFree(e: Event, u: seq<Event>)
    requires e.Freed?
    ensures EveryFreeAccepted([e] + u) <==> e.accepted && EveryFreeAccepted(u)
    ensures (forall i :: 0 <= i < |u| ==> u[i].Freed?) ==> forall i :: 0 <= i < |[e] + u| ==> ([e] + u)[i].Freed?
  {
    var t := [e] + u;
    assert t[0] == e;
    assert forall i :: 0 <= i < |u| ==> u[i] == t[i + 1];
    assert forall i :: 1 <= i < |t| ==> t[i] == u[i - 1];
  }

  lemma {:induction false} FreeOwnedOutcome(accepts: Accepts, h: seq<Event>, owned: seq<Buffer>)
    ensures var (t, refused) := FreeOwned(accepts, h, owned);
            && (refused == [] <==> EveryFreeAccepted(t))
            && forall i :: 0 <= i < |t| ==> t[i].Freed?
    decreases |owned|
  {
    if owned != [] {
      hide FreeOwned, EveryFreeAccepted;
      var b, rest := owned[|owned| - 1], owned[..|owned| - 1];
      assert owned == rest + [b];
      FreeOwnedStep(accepts, h, rest, b);
      if Real(b) {
        var freed := FreeBuffer(accepts, h, b);
        var (u, refused) := FreeOwned(accepts, h + [freed], rest);
        FreeOwnedOutcome(accepts, h + [freed], rest);
        OneMoreFree(freed, u);
      } else {
        FreeOwnedOutcome(accepts, h, rest);
      }
    }
  }

  lemma FreesOfThree(accepts: Accepts, h: seq<Event>, a: Buffer, b: Buffer, c: Buffer)
    requires Real(a) && Real(b) && Real(c)
    ensures var (t, refused) := FreeOwned(accepts, h, [a, b, c]);
            |t| == 3 && (refused == [] ==> t == [Freed(c, true), Freed(b, true), Freed(a, true)])
  {
    hide FreeOwned;
    assert [a, b] + [c] == [a, b, c] && [a] + [b] == [a, b] && [] + [a] == [a];
    FreeOwnedStep(accepts, h, [a, b], c);
    var h1 := h + [FreeBuffer(accepts, h, c)];
    FreeOwnedStep(accepts, h1, [a], b);
    var h2 := h1 + [FreeBuffer(accepts, h1, b)];
    FreeOwnedStep(accepts, h2, [], a);
    FreeOwnedNone(accepts, h2 + [FreeBuffer(accepts, h2, a)]);
  }

  // ---------------------------------------------------------------- a whole call

  /** Every answer was the one hoped for. */
  predicate Good(e: Event) {
    match e
    case Allocated(n, p) => p.Some? && (n > 0 ==> p.value != 0)
    case Wrote(_, _, stored) => stored
    case Dispatched(_, _, b) => b.Some? && Real(b.value) && b.value.length <= MAX_OUTPUT
    case Copied(_, view) => view.Some?
    case Freed(_, accepted) => accepted
  }

  predicate AllGood(t: seq<Event>) {
    forall i :: 0 <= i < |t| ==> Good(t[i])
  }

  lemma AllGoodConcat(t: seq<Event>, u: seq<Event>)
    ensures AllGood(t + u) <==> AllGood(t) && AllGood(u)
  {
    assert forall i :: 0 <= i < |u| ==> u[i] == (t + u)[|t| + i];
    assert forall i :: 0 <= i < |t| ==> t[i] == (t + u)[i];
  }

  /** What a call did before its clean-up either holds everything it obtained and freed nothing, or
      failed while providing an input and gave that one back itself. */
  ghost predicate HoldsTheRest(t: seq<Event>, owned: seq<Buffer>) {
    exists n :: 0 <= n <= |t| && Obtained(t[..n]) == RealOnly(owned) && Frees(t[..n]) == [] && Conserved(t[n..])
  }

  lemma CleanUpConserves(accepts: Accepts, h: seq<Event>, t: seq<Event>, owned: seq<Buffer>)
    requires HoldsTheRest(t, owned)
    ensures Conserved(t + FreeOwned(accepts, h + t, owned).0)
  {
    hide Obtained, Frees, RealOnly, Reversed, FreeOwned;
    FreeOwnedFrees(accepts, h + t, owned);
    var n :| 0 <= n <= |t| && Obtained(t[..n]) == RealOnly(owned) && Frees(t[..n]) == [] && Conserved(t[n..]);
    assert t == t[..n] + t[n..];
    WorkAndFailedStep(t[..n], t[n..], FreeOwned(accepts, h + t, owned).0, RealOnly(owned));
  }

  /** A call whose first input could not be provided. */
  lemma FirstFailed(t: seq<Event>)
    requires Conserved(t)
    ensures HoldsTheRest(t, [])
  {
    NothingYet();
    assert t[..0] == [] && t[0..] == t;
  }

  /** A call whose second input could not be provided. */
  lemma SecondFailed(t: seq<Event>, a: Buffer, u: seq<Event>)
    requires Obtained(t) == RealOnly([a]) && Frees(t) == [] && Conserved(u)
    ensures HoldsTheRest(t + u, [a])
  {
    assert (t + u)[..|t|] == t && (t + u)[|t|..] == u;
  }

  /** A call that reached its dispatch. */
  lemma BothHeld(t: seq<Event>, a: Buffer, u: seq<Event>, b: Buffer)
    requires Obtained(t) == RealOnly([a]) && Frees(t) == [] && Obtained(u) == RealOnly([b]) && Frees(u) == []
    ensures Obtained(t + u) == RealOnly([a, b]) && Frees(t + u) == []
  {
    ObtainedConcat(t, u);
    FreesConcat(t, u);
    RealOnlyConcat([a], [b]);
    assert [a] + [b] == [a, b];
  }

  lemma AllHeld(t: seq<Event>, owned: seq<Buffer>)
    requires Obtained(t) == RealOnly(owned) && Frees(t) == []
    ensures HoldsTheRest(t, owned)
  {
    NothingYet();
    assert t[..|t|] == t && t[|t|..] == [];
  }

  /** The dispatch and the copy of its result, if there was one. */
  lemma DispatchedHeld(t: seq<Event>, a: Buffer, b: Buffer, c: Option<Buffer>, copied: seq<Event>)
    requires Obtained(t) == RealOnly([a, b]) && Frees(t) == [] && |copied| <= 1 && (copied != [] ==> copied[0].Copied?)
    ensures var owned := if c.Some? && Real(c.value) then [a, b, c.value] else [a, b];
            HoldsTheRest(t + [Dispatched(a, b, c)] + copied, owned)
  {
    hide Obtained, Frees, RealOnly, Reversed;
    var d := Dispatched(a, b, c);
    AddEvent(t, d);
    if c.Some? {
      RealOnlyConcat([a, b], [c.value]);
      OnlyOne(c.value);
      assert [a, b] + [c.value] == [a, b, c.value];
    }
    if copied == [] {
      assert t + [d] + copied == t + [d];
    } else {
      AddEvent(t + [d], copied[0]);
      assert copied == [copied[0]];
    }
    AllHeld(t + [d] + copied, if c.Some? && Real(c.value) then [a, b, c.value] else [a, b]);
  }

  // ---------------------------------------------------------------- providing an input

  /** The events of an attempt to provide an input of some length: at most an allocation, a write and,
      if the write failed, a free. On success the buffer is held afterwards. */
  predicate Provides(t: seq<Event>, length: nat, held: Option<Buffer>) {
    match held
    case Some(b) =>
      && b.length == length && 1 <= |t| <= 2 && t[0] == Allocated(length, Some(b.pointer)) && Good(t[0])
      && (|t| == 2 ==> t[1].Wrote? && t[1].stored)
    case None =>
      || (|t| == 1 && t[0].Allocated? && !Good(t[0]) && Gain(t[0]) == [])
      || (|t| == 3 && t[1].Wrote? && !t[1].stored && Real(t[1].target) && t[1].target.length == length
          && t[0] == Allocated(length, Some(t[1].target.pointer)) && t[2].Freed? && t[2].buffer == t[1].target)
  }

  /** It either leaves exactly that buffer held, or gives back whatever it got. */
  lemma ProvidedHolds(t: seq<Event>, length: nat, held: Option<Buffer>)
    requires Provides(t, length, held)
    ensures held.Some? ==> Frees(t) == [] && Obtained(t) == RealOnly([held.value])
    ensures held.None? ==> Conserved(t)
  {
    hide Obtained, Frees, RealOnly, Reversed;
    NothingYet();
    AddEvent([], t[0]);
    assert [] + [t[0]] == [t[0]];
    if |t| == 1 { assert t == [t[0]]; }
    if |t| == 2 { assert t == t[..2]; }
    if |t| > 1 {
      AddEvent([t[0]], t[1]);
      assert t[..2] == [t[0]] + [t[1]];
    }
    if |t| > 2 {
      AddEvent(t[..2], t[2]);
      assert t == t[..2] + [t[2]];
    }
    OnlyOne(if held.Some? then held.value else if |t| > 1 then t[1].target else Buffer(0, 0));
    if held.None? {
      assert Obtained(t) == if |t| == 3 then [t[1].target] else [];
      assert Frees(t) == if |t| == 3 then [t[1].target] else [];
    }
  }

  lemma ProvidedOutcome(t: seq<Event>, length: nat, held: Option<Buffer>)
    requires Provides(t, length, held)
    ensures held.Some? <==> AllGood(t)
    ensures NoCopies(t) && (held.Some? ==> forall i :: 0 <= i < |t| ==> !t[i].Freed?)
  {
    assert held.None? ==> (|t| == 3 && !Good(t[1])) || !Good(t[0]);
  }

  /** A call's work as far as it got: both inputs, the dispatch and the copy of its result. */
  lemma WorkInStages(t1: seq<Event>, first: Option<Buffer>, t2: seq<Event>, second: Option<Buffer>, c: Option<Buffer>,
      copied: seq<Event>, n: nat, m: nat)
    requires Provides(t1, n, first) && (first.Some? ==> Provides(t2, m, second))
    requires |copied| <= 1 && (copied != [] ==> copied[0].Copied?)
    ensures first.None? ==> HoldsTheRest(t1, [])
    ensures first.Some? && second.None? ==> HoldsTheRest(t1 + t2, [first.value])
    ensures first.Some? && second.Some? ==>
              HoldsTheRest(t1 + t2 + [Dispatched(first.value, second.value, c)] + copied,
                           if c.Some? && Real(c.value) then [first.value, second.value, c.value]
                           else [first.value, second.value])
  {
    hide Obtained, Frees, RealOnly, Reversed, HoldsTheRest;
    ProvidedHolds(t1, n, first);
    if first.None? {
      FirstFailed(t1);
    } else {
      ProvidedHolds(t2, m, second);
      if second.None? {
        SecondFailed(t1, first.value, t2);
      } else {
        BothHeld(t1, first.value, t2, second.value);
        DispatchedHeld(t1 + t2, first.value, second.value, c, copied);
      }
    }
  }
}
