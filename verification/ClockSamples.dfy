/** Server-clock samples and the rule that decides which one stays stored
    (web/sync-storage.js, web/sync-core.js). */
module ClockSamples {
  import opened Wire

  const MAX_UNCERTAINTY := 30_000

  datatype Sample = Sample(offsetMs: int, uncertaintyMs: int, sampledAt: int, requestSequence: int, receivedAt: int)

  predicate Safe(n: int) { -MAX_SAFE <= n <= MAX_SAFE }

  predicate Valid(s: Sample) {
    && Safe(s.offsetMs)
    && 0 <= s.uncertaintyMs <= MAX_UNCERTAINTY
    && 1 <= s.sampledAt <= MAX_SAFE
    && 1 <= s.requestSequence <= MAX_SAFE
    && 1 <= s.receivedAt <= MAX_SAFE
    && s.sampledAt <= s.receivedAt
    && 0 < s.sampledAt + s.offsetMs <= MAX_SAFE
  }

  /** The incoming sample replaces the stored one, in the order the code compares fields. */
  predicate Replaces(stored: Option<Sample>, incoming: Sample) {
    !(stored.Some? && Valid(stored.value)
      && (stored.value.requestSequence > incoming.requestSequence
          || (stored.value.requestSequence == incoming.requestSequence
              && (stored.value.receivedAt > incoming.receivedAt
                  || (stored.value.receivedAt == incoming.receivedAt
                      && stored.value.uncertaintyMs <= incoming.uncertaintyMs)))))
  }

  /** latestClockOffset; the failure is the ClockRangeError of an invalid incoming sample. */
  function Latest(stored: Option<Sample>, incoming: Option<Sample>): Result<Option<Sample>, ()> {
    match incoming
    case None => Success(if stored.Some? && Valid(stored.value) then stored else None)
    case Some(sample) =>
      if !Valid(sample) then Failure(())
      else Success(if Replaces(stored, sample) then incoming else stored)
  }

  /** saveClockOffset writes only a sample that won; the stored value after the transaction. */
  function Store(stored: Option<Sample>, incoming: Sample): Option<Sample> {
    if Valid(incoming) && Replaces(stored, incoming) then Some(incoming) else stored
  }

  function StoreAll(stored: Option<Sample>, samples: seq<Sample>): Option<Sample>
    decreases |samples|
  {
    if samples == [] then stored else StoreAll(Store(stored, samples[0]), samples[1..])
  }

  /** `a` ranks at least as high as `b`: (request sequence, receive time, less uncertainty). */
  predicate RanksAtLeast(a: Sample, b: Sample) {
    a.requestSequence > b.requestSequence
    || (a.requestSequence == b.requestSequence
        && (a.receivedAt > b.receivedAt
            || (a.receivedAt == b.receivedAt && a.uncertaintyMs <= b.uncertaintyMs)))
  }

  /** After any samples were offered in any order, malformed ones among them, the store holds a valid
      one of them that ranks highest. */
  lemma {:induction false} StoresGreatest(stored: Option<Sample>, samples: seq<Sample>)
    requires stored.Some? ==> Valid(stored.value)
    ensures var last := StoreAll(stored, samples);
            && (last.None? <==> stored.None? && forall s :: s in samples ==> !Valid(s))
            && (last.Some? ==>
                  && (last == stored || (last.value in samples && Valid(last.value)))
                  && (stored.Some? ==> RanksAtLeast(last.value, stored.value))
                  && forall s :: s in samples && Valid(s) ==> RanksAtLeast(last.value, s))
    decreases |samples|
  {
    if samples != [] {
      StoresGreatest(Store(stored, samples[0]), samples[1..]);
    }
  }

  /** The valid samples that compete, the stored one among them. */
  function Competing(stored: Option<Sample>, samples: seq<Sample>): set<Sample> {
    (if stored.Some? then {stored.value} else {}) + set s | s in samples && Valid(s)
  }

  predicate Ties(a: Sample, b: Sample) {
    a.requestSequence == b.requestSequence && a.receivedAt == b.receivedAt && a.uncertaintyMs == b.uncertaintyMs
  }

  lemma StoresCompeting(stored: Option<Sample>, samples: seq<Sample>)
    requires stored.Some? ==> Valid(stored.value)
    ensures var last, all := StoreAll(stored, samples), Competing(stored, samples);
            && (last.None? <==> all == {})
            && (last.Some? ==> last.value in all && forall s :: s in all ==> RanksAtLeast(last.value, s))
  {
    StoresGreatest(stored, samples);
    var last, all := StoreAll(stored, samples), Competing(stored, samples);
    if last.None? { assert all == {}; } else { assert last.value in all; }
  }

  /** However often and in whatever order samples are offered, the stored one again included: if
      samples that tie are equal, the same competing samples leave the same one stored. */
  lemma MergeIsOrderIndependent(stored: Option<Sample>, left: seq<Sample>, right: seq<Sample>)
    requires stored.Some? ==> Valid(stored.value)
    requires Competing(stored, left) == Competing(stored, right)
    requires forall a, b :: a in Competing(stored, left) && b in Competing(stored, left) && Ties(a, b) ==> a == b
    ensures StoreAll(stored, left) == StoreAll(stored, right)
  {
    StoresCompeting(stored, left);
    StoresCompeting(stored, right);
    hide Competing, StoreAll;
    if StoreAll(stored, left).Some? {
      assert Ties(StoreAll(stored, left).value, StoreAll(stored, right).value);
    }
  }

  /** allocateClockRequestSequence: the stored counter after it and the sequence handed out, or a
      ClockRangeError. A missing or unreadable counter reads as 0. */
  function AllocateSequence(stored: Option<int>): Result<int, ()> {
    var next := (if stored.Some? then stored.value else 0) + 1;
    if 0 < next <= MAX_SAFE then Success(next) else Failure(())
  }

  /** The sequences handed out by n allocations in a row, as far as the range lasts. */
  function Allocations(stored: Option<int>, n: nat): seq<int>
    decreases n
  {
    if n == 0 || AllocateSequence(stored).Failure? then []
    else var next := AllocateSequence(stored).value; [next] + Allocations(Some(next), n - 1)
  }

  /** Allocated sequences are strictly increasing, which is what the merge above relies on. */
  lemma {:induction false} AllocationsIncrease(stored: Option<int>, n: nat)
    ensures forall x :: x in Allocations(stored, n) ==> (stored.Some? ==> stored.value < x) && 0 < x <= MAX_SAFE
    ensures forall i, j :: 0 <= i < j < |Allocations(stored, n)| ==>
                Allocations(stored, n)[i] < Allocations(stored, n)[j]
    decreases n
  {
    if n > 0 && AllocateSequence(stored).Success? {
      var next := AllocateSequence(stored).value;
      AllocationsIncrease(Some(next), n - 1);
      var rest := Allocations(Some(next), n - 1);
      forall i, j | 0 <= i < j < |rest| + 1 ensures ([next] + rest)[i] < ([next] + rest)[j] {
        assert rest[j - 1] in rest;
      }
    }
  }
}
