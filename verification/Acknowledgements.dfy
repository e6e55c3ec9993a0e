/** Checking a response's acknowledgement lists against the batch that was sent
    (web/sync-core.js, web/app-sync.js). */
module Acknowledgements {
  import opened Wire
  import opened Sequences
  import opened ClientStore
  import opened ClientRuns
  import ClientSafety

  /** One acknowledgement as received: its ID when that is a string, whether the outcome is one of
      the known three, and whether the reason is a string. */
  datatype Ack = Ack(id: Option<string>, knownOutcome: bool, textReason: bool)

  predicate WellFormed(ack: Ack) {
    ack.id.Some? && ack.knownOutcome && ack.textReason
  }

  function Ids(items: seq<Operation>): (ids: seq<string>)
    ensures |ids| == |items| && forall i :: 0 <= i < |ids| ==> ids[i] == items[i].id
  {
    seq(|items|, i requires 0 <= i < |items| => items[i].id)
  }

  function AckIds(acks: seq<Ack>): (ids: seq<string>)
    requires forall ack :: ack in acks ==> ack.id.Some?
    ensures |ids| == |acks| && forall i :: 0 <= i < |ids| ==> ids[i] == acks[i].id.value
  {
    seq(|acks|, i requires 0 <= i < |acks| => acks[i].id.value)
  }

  /** The acknowledgements name the sent items exactly: the same IDs, each as often. */
  predicate Exact(acks: Option<seq<Ack>>, sent: Option<seq<Operation>>) {
    if acks.None? then sent.None?
    else
      var items := if sent.Some? then sent.value else [];
      && Distinct(Ids(items))
      && (forall ack :: ack in acks.value ==> WellFormed(ack))
      && multiset(AckIds(acks.value)) == multiset(Ids(items))
  }

  lemma {:induction false} DistinctMultiset(ids: seq<string>)
    requires Distinct(ids)
    ensures forall x :: multiset(ids)[x] == if x in ids then 1 else 0
  {
    if ids != [] {
      var rest := ids[..|ids| - 1];
      DistinctMultiset(rest);
      assert ids == rest + [ids[|ids| - 1]];
    }
  }

  /** Equally many distinct names, all of them expected: then every expected one is named. */
  lemma NamesAll(named: seq<string>, expected: seq<string>)
    requires Distinct(named) && Distinct(expected) && |named| == |expected|
    requires forall id :: id in named ==> id in expected
    ensures multiset(named) == multiset(expected)
  {
    SameElements(named, expected);
    DistinctMultiset(named);
    DistinctMultiset(expected);
  }

  lemma RepeatCountsTwice(ids: seq<string>, i: nat, j: nat)
    requires i < j < |ids| && ids[i] == ids[j]
    ensures multiset(ids)[ids[i]] >= 2
  {
    assert ids == ids[..i] + [ids[i]] + ids[i + 1..j] + [ids[j]] + ids[j + 1..];
  }

  /** What the code checks one by one: sizes agree, no expected ID repeats, and each acknowledgement
      is well formed, expected and new. */
  predicate Checked(acks: seq<Ack>, items: seq<Operation>) {
    && Distinct(Ids(items)) && |acks| == |items|
    && (forall i :: 0 <= i < |acks| ==> WellFormed(acks[i]) && acks[i].id.value in Ids(items))
    && forall i, j :: 0 <= i < j < |acks| ==> acks[i].id != acks[j].id
  }

  /** The single checks together say that the lists agree with multiplicities. */
  lemma CheckedIffExact(acks: seq<Ack>, items: seq<Operation>)
    ensures Checked(acks, items) <==> Exact(Some(acks), Some(items))
  {
    if Checked(acks, items) {
      NamesAll(AckIds(acks), Ids(items));
    }
    if Exact(Some(acks), Some(items)) {
      var named, expected := AckIds(acks), Ids(items);
      assert |multiset(named)| == |named| && |multiset(expected)| == |expected|;
      DistinctMultiset(expected);
      forall i | 0 <= i < |acks| ensures WellFormed(acks[i]) && named[i] in expected {
        assert acks[i] in acks && named[i] in multiset(named);
        assert named[i] in multiset(expected);
      }
      forall i, j | 0 <= i < j < |acks| ensures acks[i].id != acks[j].id {
        assert acks[i] in acks && acks[j] in acks;
        if named[i] == named[j] { RepeatCountsTwice(named, i, j); assert false; }
      }
    }
  }

  /** exactAcknowledgements: accepts exactly the lists that name the sent items and returns their IDs. */
  method ExactAcknowledgements(acks: Option<seq<Ack>>, sent: Option<seq<Operation>>) returns (r: Result<seq<string>,
      ()>)
    ensures r.Success? <==> Exact(acks, sent)
    ensures r.Success? && acks.Some? ==> r.value == AckIds(acks.value)
    ensures r.Success? ==> multiset(r.value) == multiset(Ids(if sent.Some? then sent.value else []))
  {
    if sent.None? && acks.None? { return Success([]); }
    if acks.None? { return Failure(()); }
    var items := if sent.Some? then sent.value else [];
    CheckedIffExact(acks.value, items);
    var expected := set id | id in Ids(items);
    DistinctIffFullSize(Ids(items));
    if |expected| != |items| || |acks.value| != |expected| { return Failure(()); }
    var named: seq<string> := [];
    for i := 0 to |acks.value|
      invariant |named| == i
      invariant forall j :: 0 <= j < i ==>
            WellFormed(acks.value[j]) && named[j] == acks.value[j].id.value && named[j] in expected
      invariant forall j, k :: 0 <= j < k < i ==> acks.value[j].id != acks.value[k].id
    {
      var ack := acks.value[i];
      if ack.id.None? || ack.id.value !in expected || ack.id.value in named || !ack.knownOutcome || !ack.textReason {
        return Failure(());
      }
      named := named + [ack.id.value];
    }
    assert named == AckIds(acks.value);
    return Success(named);
  }

  /** The five lists of a response; a list may be missing altogether. */
  type AckLists = Domain -> Option<seq<Ack>>

  lemma SameNamesSameKeys(ids: IdLists, sent: Batch)
    requires forall d: Domain :: multiset(ids.Of(d)) == multiset(Ids(sent.Of(d)))
    ensures ListedKeys(ids) == BatchKeys(sent)
  {
    forall k: Key ensures k in ListedKeys(ids) <==> k in BatchKeys(sent) {
      assert k.id in multiset(ids.Of(k.domain)) <==> k.id in multiset(Ids(sent.Of(k.domain)));
      if k in BatchKeys(sent) {
        var i :| 0 <= i < |sent.Of(k.domain)| && sent.Of(k.domain)[i].id == k.id;
        assert Ids(sent.Of(k.domain))[i] == k.id;
      }
    }
  }

  /** validateAcknowledgements together with acknowledgedQueueIds. */
  method ValidateAcknowledgements(lists: AckLists, sent: Batch) returns (r: Result<IdLists, ()>)
    ensures r.Success? <==> forall d: Domain :: Exact(lists(d), Some(sent.Of(d)))
    ensures r.Success? ==> ListedKeys(r.value) == BatchKeys(sent)
  {
    hide Exact;
    var commands := ExactAcknowledgements(lists(Commands), Some(sent.Of(Commands)));
    if commands.Failure? { return Failure(()); }
    var tasks := ExactAcknowledgements(lists(TaskOperations), Some(sent.Of(TaskOperations)));
    if tasks.Failure? { return Failure(()); }
    var durations := ExactAcknowledgements(lists(DurationOperations), Some(sent.Of(DurationOperations)));
    if durations.Failure? { return Failure(()); }
    var autoStarts := ExactAcknowledgements(lists(AutoStartOperations), Some(sent.Of(AutoStartOperations)));
    if autoStarts.Failure? { return Failure(()); }
    var selections := ExactAcknowledgements(lists(SelectedTaskOperations), Some(sent.Of(SelectedTaskOperations)));
    if selections.Failure? { return Failure(()); }
    var ids := PerDomain(commands.value, tasks.value, durations.value, autoStarts.value, selections.value);
    forall d: Domain ensures Exact(lists(d), Some(sent.Of(d))) && multiset(ids.Of(d)) == multiset(Ids(sent.Of(d))) {
      match d
      case Commands =>
      case TaskOperations =>
      case DurationOperations =>
      case AutoStartOperations =>
      case SelectedTaskOperations =>
    }
    SameNamesSameKeys(ids, sent);
    return Success(ids);
  }

  /** With validated acknowledgements, applying the response to a claim releases exactly the claim's
      own records: everything outside the claim that the Core did not drop is still queued. */
  lemma OnlyTheClaimIsReleased(db: Db, input: SyncInput, k: Key)
    requires AppliesSync(db, DoSync(input)) && db.outgoing.Some?
    requires ListedKeys(input.acknowledged) == BatchKeys(input.sent.value)
    requires k in db.queues && k !in SentKeys(db.outgoing)
    requires !(k.domain == Commands && k.id in input.rebased.plan.dropped)
    ensures k in ApplySync(db, input).db.queues
    ensures k !in BatchKeys(input.rebased.plan.queues) ==> ApplySync(db, input).db.queues[k] == db.queues[k]
  {
    ClientSafety.NoQueuedWorkIsLost(db, input, k);
  }
}
