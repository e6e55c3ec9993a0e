/** Advancing the recovery lineage (scripts/restore_drill.py): at most three atomic writes, in the
    order domain, receipt, binding, with a crash possible after each of them. */
module RecoveryAdvance {
  import opened Wire
  import opened RecoveryFiles
  import opened RecoveryLineage

  /** The two directories. */
  datatype Disk = Disk(data: Dir, ledger: Dir)

  /** The random identity and key that a new domain gets. */
  datatype Fresh = Fresh(domainId: string, key: string)

  // ---------------------------------------------------------------- what an advance does

  function NewDomain(f: Fresh): Record {
    Domain(VERSION, f.domainId, f.key, true, true)
  }

  /** ensure_recovery_domain: the ledger with a domain record, and the record. A ledger that already
      has receipts never gets a new domain. */
  function EnsureDomain(ledger: Dir, f: Fresh): Result<(Dir, Record), Refusal> {
    if Top(DomainFile) in ledger then
      var domain := LoadDomain(ledger);
      if domain.None? then Failure(BadDomain) else Success((ledger, domain.value))
    else if MalformedReceiptName(ledger) then Failure(BadReceiptName)
    else if Numbers(ledger) != {} then Failure(BadDomain)
    else Success((WithJson(ledger, DomainFile, NewDomain(f)), NewDomain(f)))
  }

  function NextReceipt(domain: Record, receipts: seq<Link>, dataDigest: Hex): (p: Payload)
    requires domain.Domain?
    ensures p.ReceiptPayload? && p.sequence == |receipts| + 1
  {
    ReceiptPayload(VERSION, domain.domainId, |receipts| + 1, DigestBefore(receipts, |receipts|), dataDigest)
  }

  function ReceiptRecord(domain: Record, p: Payload): Record
    requires domain.Domain?
  {
    Receipt(p, Tag(domain.key, p))
  }

  function LinkOf(domain: Record, p: Payload): Link
    requires domain.Domain? && p.ReceiptPayload?
  {
    Link(p.sequence, p.previous, p.dataDigest, FileSha(Json(ReceiptRecord(domain, p), 0)))
  }

  function BindingRecord(domain: Record, link: Link): Record
    requires domain.Domain?
  {
    var p := BindingPayload(VERSION, domain.domainId, link.sequence, link.digest, link.dataDigest);
    Binding(p, Tag(domain.key, p))
  }

  /** What the checks of an advance find: the receipts so far, or why it refuses. */
  function Check(data: Dir, ledger: Dir, domain: Record): Result<seq<Link>, Refusal>
    requires domain.Domain?
  {
    var receipts := LoadReceipts(ledger, domain);
    if receipts.Failure? then receipts
    else
      var rs := receipts.value;
      var binding := LoadBinding(data, domain, rs);
      if binding.Failure? then Failure(binding.error)
      else if binding.value.None? && rs != [] && rs[|rs| - 1].dataDigest != DataDigest(data) then Failure(Unbound)
      else if |rs| + 1 > MAX_REVISION then Failure(Exhausted)
      else receipts
  }

  /** advance_recovery_lineage: the disk after each write, and the new receipt or the refusal. */
  function Advance(d: Disk, f: Fresh): (seq<Disk>, Result<Link, Refusal>) {
    var ensured := EnsureDomain(d.ledger, f);
    if ensured.Failure? then ([], Failure(ensured.error))
    else
      var (ledger, domain) := ensured.value;
      var first := if ledger == d.ledger then [] else [Disk(d.data, ledger)];
      var checked := Check(d.data, ledger, domain);
      if checked.Failure? then (first, Failure(checked.error))
      else
        var payload := NextReceipt(domain, checked.value, DataDigest(d.data));
        var link := LinkOf(domain, payload);
        var extended := WithJson(ledger, ReceiptFile(payload.sequence), ReceiptRecord(domain, payload));
        var bound := WithJson(d.data, BindingFile, BindingRecord(domain, link));
        (first + [Disk(d.data, extended), Disk(bound, extended)], Success(link))
  }

  // ---------------------------------------------------------------- the same, write by write

  class Storage {
    var data: Dir
    var ledger: Dir
    /** The disk after each write so far. */
    ghost var written: seq<Disk>

    function State(): Disk
      reads this
    {
      Disk(data, ledger)
    }

    constructor (data: Dir, ledger: Dir)
      ensures State() == Disk(data, ledger) && written == []
    {
      this.data, this.ledger, written := data, ledger, [];
    }

    /** An exclusive write: linking over an existing name would fail. */
    method CreateInLedger(n: Name, r: Record)
      requires Top(n) !in ledger
      modifies this`ledger, this`written
      ensures ledger == WithJson(old(ledger), n, r) && written == old(written) + [State()]
    {
      ledger := WithJson(ledger, n, r);
      written := written + [State()];
    }

    method ReplaceInData(n: Name, r: Record)
      modifies this`data, this`written
      ensures data == WithJson(old(data), n, r) && written == old(written) + [State()]
    {
      data := WithJson(data, n, r);
      written := written + [State()];
    }

    method EnsureRecoveryDomain(f: Fresh) returns (r: Result<Record, Refusal>)
      modifies this`ledger, this`written
      ensures var ensured := EnsureDomain(old(ledger), f);
              && (r.Failure? <==> ensured.Failure?)
              && (r.Failure? ==> r.error == ensured.error && ledger == old(ledger) && written == old(written))
              && (r.Success? ==> (ledger, r.value) == ensured.value)
              && (r.Success? ==> written == old(written) + if ledger == old(ledger) then [] else [State()])
    {
      if Top(DomainFile) in ledger {
        var domain := LoadDomain(ledger);
        if domain.None? { return Failure(BadDomain); }
        return Success(domain.value);
      }
      if MalformedReceiptName(ledger) { return Failure(BadReceiptName); }
      if Numbers(ledger) != {} { return Failure(BadDomain); }
      CreateInLedger(DomainFile, NewDomain(f));
      var domain := LoadDomain(ledger);
      return Success(domain.value);
    }

    method CheckLineage(domain: Record) returns (r: Result<seq<Link>, Refusal>)
      requires domain.Domain?
      ensures r == Check(data, ledger, domain)
    {
      var receipts := LoadRecoveryReceipts(ledger, domain);
      if receipts.Failure? { return receipts; }
      var n := |receipts.value|;
      var binding := LoadBinding(data, domain, receipts.value);
      if binding.Failure? { return Failure(binding.error); }
      if binding.value.None? && n > 0
          && receipts.value[n - 1].dataDigest != DataDigest(data) { return Failure(Unbound); }
      if n + 1 > MAX_REVISION { return Failure(Exhausted); }
      return receipts;
    }

    method AdvanceRecoveryLineage(f: Fresh) returns (r: Result<Link, Refusal>)
      modifies this
      ensures r == Advance(old(State()), f).1 && written == old(written) + Advance(old(State()), f).0
      ensures State() == if written == old(written) then old(State()) else written[|written| - 1]
    {
      var ensured := EnsureRecoveryDomain(f);
      if ensured.Failure? { return Failure(ensured.error); }
      EnsuredIsDomain(old(ledger), f);
      hide EnsureDomain, Check, WithJson, NextReceipt, LinkOf, BindingRecord, ReceiptRecord, DataDigest;
      var domain := ensured.value;
      var checked := CheckLineage(domain);
      if checked.Failure? { return Failure(checked.error); }
      var payload := NextReceipt(domain, checked.value, DataDigest(data));
      NextIsNew(data, ledger, domain, checked.value);
      CreateInLedger(ReceiptFile(payload.sequence), ReceiptRecord(domain, payload));
      var link := LinkOf(domain, payload);
      ReplaceInData(BindingFile, BindingRecord(domain, link));
      r := Success(link);
    }
  }

  lemma EnsuredIsDomain(ledger: Dir, f: Fresh)
    requires EnsureDomain(ledger, f).Success?
    ensures EnsureDomain(ledger, f).value.1.Domain?
        && LoadDomain(EnsureDomain(ledger, f).value.0) == Some(EnsureDomain(ledger, f).value.1)
  {
  }

  lemma NextIsNew(data: Dir, ledger: Dir, domain: Record, receipts: seq<Link>)
    requires domain.Domain? && Check(data, ledger, domain) == Success(receipts)
    ensures NextReceipt(domain, receipts, DataDigest(data)).sequence == |receipts| + 1
        && Top(ReceiptFile(|receipts| + 1)) !in ledger
  {
    LoadsExactlyChains(ledger, domain, receipts);
    NumbersAreFiles(ledger, |receipts| + 1);
  }

  // ---------------------------------------------------------------- what an advance achieves

  /** A further receipt extends the chain. */
  lemma ChainExtends(ledger: Dir, domain: Record, receipts: seq<Link>, digest: Hex)
    requires domain.Domain? && Chain(ledger, domain, receipts) && ValidHex(digest)
    ensures var p := NextReceipt(domain, receipts, digest);
            Chain(WithJson(ledger, ReceiptFile(|receipts| + 1), ReceiptRecord(domain, p)), domain,
                receipts + [LinkOf(domain, p)])
  {
    hide ParseReceipt;
    var p := NextReceipt(domain, receipts, digest);
    var after := WithJson(ledger, ReceiptFile(|receipts| + 1), ReceiptRecord(domain, p));
    var all := receipts + [LinkOf(domain, p)];
    forall n: nat ensures n in Numbers(after) <==> n in Numbers(ledger) || n == |receipts| + 1 {
      NumbersAreFiles(after, n);
      NumbersAreFiles(ledger, n);
    }
    forall i | 0 <= i < |all|
      ensures ParseReceipt(after, domain, i + 1, DigestBefore(all, i)) == Some(all[i])
    {
      if i < |receipts| {
        assert all[i] == receipts[i] && DigestBefore(all, i) == DigestBefore(receipts, i);
        OtherReceipts(ledger, |receipts| + 1, ReceiptRecord(domain, p), domain, i + 1, DigestBefore(receipts, i));
      } else {
        assert DigestBefore(all, i) == p.previous && all[i] == LinkOf(domain, p);
        ParseOfNext(after, domain, receipts, digest);
      }
    }
    assert MalformedReceiptName(after) ==> MalformedReceiptName(ledger);
  }

  lemma OtherReceipts(ledger: Dir, n: nat, r: Record, domain: Record, sequence: nat, previous: Hex)
    requires domain.Domain? && sequence != n
    ensures ParseReceipt(WithJson(ledger, ReceiptFile(n), r), domain, sequence, previous)
        == ParseReceipt(ledger, domain, sequence, previous)
  {
  }

  lemma ParseOfNext(after: Dir, domain: Record, receipts: seq<Link>, digest: Hex)
    requires domain.Domain? && ValidHex(digest)
    requires var p := NextReceipt(domain, receipts, digest);
             Top(ReceiptFile(|receipts| + 1)) in after
                 && after[Top(ReceiptFile(|receipts| + 1))] == File(PRIVATE, Json(ReceiptRecord(domain, p), 0))
    ensures var p := NextReceipt(domain, receipts, digest);
            ParseReceipt(after, domain, |receipts| + 1, p.previous) == Some(LinkOf(domain, p))
  {
  }

  /** The disk is one that an advance accepts: it has a domain or no receipts yet, a chain, and a
      binding that belongs to the chain, if there is a binding at all. */
  ghost predicate Accepted(d: Disk, domain: Record, receipts: seq<Link>) {
    && domain.Domain? && LoadDomain(d.ledger) == Some(domain) && LoadReceipts(d.ledger, domain) == Success(receipts)
    && LoadBinding(d.data, domain, receipts).Success?
  }

  lemma BindingStays(data: Dir, domain: Record, receipts: seq<Link>, link: Link)
    requires domain.Domain? && LoadBinding(data, domain, receipts).Success?
    ensures LoadBinding(data, domain, receipts + [link]) == LoadBinding(data, domain, receipts)
  {
  }

  lemma NewBinding(data: Dir, domain: Record, receipts: seq<Link>)
    requires domain.Domain? && 1 <= |receipts| <= MAX_REVISION && receipts[|receipts| - 1].sequence == |receipts|
    ensures var link := receipts[|receipts| - 1];
            LoadBinding(WithJson(data, BindingFile, BindingRecord(domain, link)), domain, receipts)
              == Success(Some(BindingPayload(VERSION, domain.domainId, |receipts|, link.digest, link.dataDigest)))
  {
  }

  lemma DomainStays(ledger: Dir, n: nat, r: Record)
    ensures LoadDomain(WithJson(ledger, ReceiptFile(n), r)) == LoadDomain(ledger)
  {
  }

  /** An advance from an accepted disk either refuses and writes nothing, or writes the next receipt
      and then the binding; after each of the two writes the disk is accepted with one receipt more,
      and in the end the data validates at exactly that receipt. */
  lemma AdvanceExtends(d: Disk, f: Fresh, domain: Record, receipts: seq<Link>)
    requires Accepted(d, domain, receipts)
    ensures var (states, r) := Advance(d, f);
            && (r.Failure? ==> states == [])
            && (r.Success? ==>
                  && |states| == 2 && states[0].data == d.data
                  && Accepted(states[0], domain, receipts + [r.value])
                  && Accepted(states[1], domain, receipts + [r.value])
                  && DataState(states[1].data) == DataState(d.data)
                  && r.value.sequence == |receipts| + 1 && r.value.dataDigest == DataDigest(d.data)
                  && ValidateLineage(states[1].data, states[1].ledger)
                       == Success(Lineage(domain.domainId, |receipts| + 1, r.value.digest, DataDigest(d.data))))
  {
    hide LoadReceipts, LoadBinding, ParseReceipt, Chain;
    assert EnsureDomain(d.ledger, f) == Success((d.ledger, domain));
    var (states, r) := Advance(d, f);
    if r.Success? {
      var digest := DataDigest(d.data);
      var p := NextReceipt(domain, receipts, digest);
      var ledger := WithJson(d.ledger, ReceiptFile(|receipts| + 1), ReceiptRecord(domain, p));
      LoadsExactlyChains(d.ledger, domain, receipts);
      ChainExtends(d.ledger, domain, receipts, digest);
      LoadsExactlyChains(ledger, domain, receipts + [r.value]);
      DomainStays(d.ledger, |receipts| + 1, ReceiptRecord(domain, p));
      BindingStays(d.data, domain, receipts, r.value);
      NewBinding(d.data, domain, receipts + [r.value]);
      BindingIsOutsideState(d.data, BindingRecord(domain, r.value));
    }
  }

  /** On a disk without a domain, receipts and binding the first write makes the domain; the disk is
      accepted from then on, and the rest is the advance of that disk. */
  lemma FirstDomain(d: Disk, f: Fresh, g: Fresh)
    requires Top(DomainFile) !in d.ledger && Top(BindingFile) !in d.data && !MalformedReceiptName(d.ledger)
        && Numbers(d.ledger) == {}
    ensures var (states, r) := Advance(d, f);
            && states != [] && Accepted(states[0], NewDomain(f), [])
            && states[0].data == d.data && r.Success?
            && (states[1..], r) == Advance(states[0], g)
  {
    hide ParseReceipt, LoadReceipts;
    var ledger := WithJson(d.ledger, DomainFile, NewDomain(f));
    assert ledger != d.ledger;
    forall n: nat ensures n !in Numbers(ledger) {
      NumbersAreFiles(ledger, n);
      NumbersAreFiles(d.ledger, n);
    }
    assert MalformedReceiptName(ledger) ==> MalformedReceiptName(d.ledger);
    LoadsExactlyChains(ledger, NewDomain(f), []);
    var states := Advance(d, f).0;
    assert states == [Disk(d.data, ledger)] + states[1..];
    assert [] + states[1..] == states[1..];
  }

  /** From an accepted disk the advance succeeds exactly when the chain is not exhausted and the
      data is bound, is new, or is still what the last receipt recorded. */
  lemma AdvanceSucceedsIff(d: Disk, f: Fresh, domain: Record, receipts: seq<Link>)
    requires Accepted(d, domain, receipts)
    ensures Advance(d, f).1.Success? <==>
              |receipts| < MAX_REVISION
                  && (Top(BindingFile) in d.data || receipts == []
                         || receipts[|receipts| - 1].dataDigest == DataDigest(d.data))
  {
    hide LoadReceipts, ParseReceipt;
    assert EnsureDomain(d.ledger, f) == Success((d.ledger, domain));
  }

  /** Account data may change between runs in any way that leaves the binding file alone. */
  predicate SameBinding(a: Dir, b: Dir) {
    (Top(BindingFile) in a <==> Top(BindingFile) in b)
        && (Top(BindingFile) in a ==> a[Top(BindingFile)] == b[Top(BindingFile)])
  }

  lemma ChangedDataAccepted(d: Disk, data: Dir, domain: Record, receipts: seq<Link>)
    requires Accepted(d, domain, receipts) && SameBinding(d.data, data)
    ensures Accepted(Disk(data, d.ledger), domain, receipts)
  {
  }

  /** After a crash between the receipt and the binding, and whatever happened to the data since, the
      next advance succeeds unless no binding exists and the data changed. */
  lemma CrashAfterReceipt(d: Disk, f: Fresh, domain: Record, receipts: seq<Link>, data: Dir, g: Fresh)
    requires Accepted(d, domain, receipts) && Advance(d, f).1.Success? && |receipts| + 1 < MAX_REVISION
        && SameBinding(d.data, data)
    ensures var crashed := Advance(d, f).0[0];
            Advance(Disk(data, crashed.ledger), g).1.Success? <==>
              Top(BindingFile) in data || DataState(data) == DataState(d.data)
  {
    hide Advance, Accepted;
    AdvanceExtends(d, f, domain, receipts);
    var (states, r) := Advance(d, f);
    ChangedDataAccepted(states[0], data, domain, receipts + [r.value]);
    AdvanceSucceedsIff(Disk(data, states[0].ledger), g, domain, receipts + [r.value]);
  }

  // ---------------------------------------------------------------- any number of runs and crashes

  /** One run that completes, one that crashes after `writes` writes, or a change to the data. */
  datatype Event = Complete(identity: Fresh) | Crash(identity: Fresh, writes: nat) | Change(data: Dir)

  function After(d: Disk, e: Event): Disk {
    match e
    case Complete(f) =>
      var states := Advance(d, f).0;
      if states == [] then d else states[|states| - 1]
    case Crash(f, n) =>
      var states := Advance(d, f).0;
      if n == 0 || n > |states| then d else states[n - 1]
    case Change(data) => if SameBinding(d.data, data) then Disk(data, d.ledger) else d
  }

  function Run(d: Disk, events: seq<Event>): Disk
    decreases |events|
  {
    if events == [] then d else After(Run(d, events[..|events| - 1]), events[|events| - 1])
  }

  /** Whatever the order of completed runs, crashes and changes, an accepted disk stays accepted
      under the same domain, and its receipts are only ever appended to. */
  lemma {:induction false} ChainIsAppendOnly(d: Disk, events: seq<Event>, domain: Record,
      receipts: seq<Link>) returns (more: seq<Link>)
    requires Accepted(d, domain, receipts)
    ensures Accepted(Run(d, events), domain, receipts + more) && |more| <= |events|
    decreases |events|
  {
    hide Accepted, Advance, SameBinding;
    if events == [] {
      more := [];
      assert receipts + more == receipts;
    } else {
      var front, e := events[..|events| - 1], events[|events| - 1];
      more := ChainIsAppendOnly(d, front, domain, receipts);
      var now := Run(d, front);
      if e.Change? {
        if SameBinding(now.data, e.data) { ChangedDataAccepted(now, e.data, domain, receipts + more); }
      } else {
        AdvanceExtends(now, e.identity, domain, receipts + more);
        var (states, r) := Advance(now, e.identity);
        if r.Success? && After(now, e) in states {
          assert receipts + more + [r.value] == receipts + (more + [r.value]);
          more := more + [r.value];
        }
      }
    }
  }
}
