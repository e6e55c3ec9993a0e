/** The recovery lineage (scripts/restore_drill.py): a chain of receipts in the ledger, each naming
    the digest of the one before it, and a binding that ties the account data to one of them. */
module RecoveryLineage {
  import opened Wire
  import opened RecoveryFiles

  datatype Refusal =
    | BadDomain | BadReceiptName | NotContiguous | BadReceipt | BadBinding | NoBinding | Unbound | Exhausted
    | DataMismatch

  /** A parsed receipt with the digest of its file. */
  datatype Link = Link(sequence: int, previous: Hex, dataDigest: Hex, digest: Hex)

  datatype Lineage = Lineage(domainId: string, sequence: int, receipt: Hex, dataDigest: Hex)

  // ---------------------------------------------------------------- reading

  /** load_recovery_domain */
  function LoadDomain(ledger: Dir): Option<Record> {
    var r := PrivateJson(ledger, DomainFile);
    if r.Some? && r.value.Domain? && r.value.version == VERSION && r.value.idIsHex && r.value.keyIsHex then r else None
  }

  function Numbers(ledger: Dir): set<nat> {
    set p | p in ledger && p.parents == [] && p.name.ReceiptFile? :: p.name.number
  }

  lemma NumbersAreFiles(ledger: Dir, n: nat)
    ensures n in Numbers(ledger) <==> Top(ReceiptFile(n)) in ledger
  {
  }

  predicate MalformedReceiptName(ledger: Dir) {
    exists p :: p in ledger && p.parents == [] && p.name.MalformedReceiptFile?
  }

  predicate IsLeast(s: set<nat>, n: nat) {
    n in s && forall m :: m in s ==> n <= m
  }

  lemma {:induction false} LeastExists(s: set<nat>)
    requires s != {}
    ensures exists n: nat :: IsLeast(s, n)
    decreases |s|
  {
    var m: nat :| m in s;
    if s == {m} {
      assert IsLeast(s, m);
    } else {
      var rest := s - {m};
      var other: nat :| other in s && other != m;
      assert other in rest;
      LeastExists(rest);
      var least: nat :| IsLeast(rest, least);
      assert forall n :: n in s ==> n == m || n in rest;
      assert IsLeast(s, if m < least then m else least);
    }
  }

  /** The receipt files in order of their numbers. */
  function Sorted(s: set<nat>): (r: seq<nat>)
    ensures |r| == |s|
    decreases |s|
  {
    if s == {} then [] else
      LeastExists(s);
      var least: nat :| IsLeast(s, least);
      [least] + Sorted(s - {least})
  }

  lemma {:induction false} SortedIsSorted(s: set<nat>)
    ensures forall n: nat :: n in Sorted(s) <==> n in s
    ensures forall i, j :: 0 <= i < j < |Sorted(s)| ==> Sorted(s)[i] < Sorted(s)[j]
    decreases |s|
  {
    if s != {} {
      LeastExists(s);
      var least: nat :| IsLeast(s, least);
      SortedIsSorted(s - {least});
      LeastFirst(s, least, Sorted(s - {least}));
    }
  }

  lemma LeastFirst(s: set<nat>, least: nat, rest: seq<nat>)
    requires IsLeast(s, least)
    requires forall n: nat :: n in rest <==> n in s - {least}
    requires forall i, j :: 0 <= i < j < |rest| ==> rest[i] < rest[j]
    ensures forall n: nat :: n in [least] + rest <==> n in s
    ensures forall i, j :: 0 <= i < j < |[least] + rest| ==> ([least] + rest)[i] < ([least] + rest)[j]
  {
    forall j | 0 <= j < |rest| ensures least < rest[j] {
      assert rest[j] in rest;
      assert rest[j] in s - {least};
    }
  }

  /** parse_recovery_receipt */
  function ParseReceipt(ledger: Dir, domain: Record, sequence: nat, previous: Hex): Option<Link>
    requires domain.Domain?
  {
    var r := PrivateJson(ledger, ReceiptFile(sequence));
    if r.None? || !r.value.Receipt? || !r.value.payload.ReceiptPayload? then None
    else
      var v := r.value.payload;
      if v.version != VERSION || v.sequence != sequence || v.previous != previous then None
      else if v.domainId != domain.domainId || !ValidHex(v.dataDigest) || r.value.tag != Tag(domain.key, v) then None
      else Some(Link(v.sequence, v.previous, v.dataDigest, FileSha(ledger[Top(ReceiptFile(sequence))].contents)))
  }

  /** The loop of load_recovery_receipts from file `i` on. */
  function LoadFrom(ledger: Dir, domain: Record, numbers: seq<nat>, i: nat, previous: Hex): Result<seq<Link>, Refusal>
    requires domain.Domain? && i <= |numbers|
    decreases |numbers| - i
  {
    if i == |numbers| then Success([])
    else if numbers[i] != i + 1 then Failure(NotContiguous)
    else
      var link := ParseReceipt(ledger, domain, numbers[i], previous);
      if link.None? then Failure(BadReceipt)
      else
        var rest := LoadFrom(ledger, domain, numbers, i + 1, link.value.digest);
        if rest.Failure? then rest else Success([link.value] + rest.value)
  }

  function LoadReceipts(ledger: Dir, domain: Record): Result<seq<Link>, Refusal>
    requires domain.Domain?
  {
    if MalformedReceiptName(ledger) then Failure(BadReceiptName)
    else LoadFrom(ledger, domain, Sorted(Numbers(ledger)), 0, Zeros)
  }

  /** load_recovery_receipts, receipt by receipt. */
  method LoadRecoveryReceipts(ledger: Dir, domain: Record) returns (r: Result<seq<Link>, Refusal>)
    requires domain.Domain?
    ensures r == LoadReceipts(ledger, domain)
  {
    if MalformedReceiptName(ledger) { return Failure(BadReceiptName); }
    var receipts: seq<Link> := [];
    var previous := Zeros;
    var paths := Sorted(Numbers(ledger));
    ghost var all := LoadFrom(ledger, domain, paths, 0, Zeros);
    assert all.Success? ==> [] + all.value == all.value;
    for i := 0 to |paths|
      invariant var rest := LoadFrom(ledger, domain, paths, i, previous);
                all == if rest.Failure? then rest else Success(receipts + rest.value)
    {
      if paths[i] != i + 1 { return Failure(NotContiguous); }
      var receipt := ParseReceipt(ledger, domain, paths[i], previous);
      if receipt.None? { return Failure(BadReceipt); }
      ghost var rest := LoadFrom(ledger, domain, paths, i + 1, receipt.value.digest);
      assert rest.Success? ==> receipts + ([receipt.value] + rest.value) == receipts + [receipt.value] + rest.value;
      receipts := receipts + [receipt.value];
      previous := receipt.value.digest;
    }
    assert receipts + [] == receipts;
    return Success(receipts);
  }

  /** load_recovery_binding; success with None means that there is no binding file. */
  function LoadBinding(data: Dir, domain: Record, receipts: seq<Link>): Result<Option<Payload>, Refusal>
    requires domain.Domain?
  {
    if Top(BindingFile) !in data then Success(None)
    else
      var r := PrivateJson(data, BindingFile);
      if r.None? || !r.value.Binding? || !r.value.payload.BindingPayload? then Failure(BadBinding)
      else
        var v := r.value.payload;
        if v.version != VERSION || !ValidGeneration(v.sequence) || v.sequence > |receipts| then Failure(BadBinding)
        else
          var link := receipts[v.sequence - 1];
          if v.domainId != domain.domainId || v.receipt != link.digest || v.dataDigest != link.dataDigest
            || r.value.tag != Tag(domain.key, v) then Failure(BadBinding)
          else Success(Some(v))
  }

  /** validate_recovery_lineage */
  function ValidateLineage(data: Dir, ledger: Dir): Result<Lineage, Refusal> {
    var domain := LoadDomain(ledger);
    if domain.None? then Failure(BadDomain)
    else
      var receipts := LoadReceipts(ledger, domain.value);
      if receipts.Failure? then Failure(receipts.error)
      else
        var binding := LoadBinding(data, domain.value, receipts.value);
        if binding.Failure? then Failure(binding.error)
        else if binding.value.None? then Failure(NoBinding)
        else
          var b := binding.value.value;
          if b.dataDigest != DataDigest(data) then Failure(DataMismatch)
          else Success(Lineage(domain.value.domainId, b.sequence, b.receipt, b.dataDigest))
  }

  // ---------------------------------------------------------------- what an accepted chain is

  /** The digest that receipt `i` (counting from zero) has to name. */
  function DigestBefore(receipts: seq<Link>, i: nat): Hex
    requires i <= |receipts|
  {
    if i == 0 then Zeros else receipts[i - 1].digest
  }

  predicate Linked(receipts: seq<Link>, i: nat)
    requires i < |receipts|
  {
    receipts[i].sequence == i + 1 && receipts[i].previous == DigestBefore(receipts, i)
  }

  /** Files 1 to n exist and nothing else, and file i + 1 parses against the digest of file i. */
  ghost predicate Chain(ledger: Dir, domain: Record, receipts: seq<Link>)
    requires domain.Domain?
  {
    && !MalformedReceiptName(ledger)
    && (forall n: nat :: n in Numbers(ledger) <==> 1 <= n <= |receipts|)
    && (forall i :: 0 <= i < |receipts| ==>
              ParseReceipt(ledger, domain, i + 1, DigestBefore(receipts, i)) == Some(receipts[i]))
  }

  lemma {:induction false} LoadFromIsChain(ledger: Dir, domain: Record, numbers: seq<nat>, i: nat, previous: Hex)
    requires domain.Domain? && i <= |numbers|
    ensures var r := LoadFrom(ledger, domain, numbers, i, previous);
            r.Success? ==>
              && |r.value| == |numbers| - i && (forall k :: i <= k < |numbers| ==> numbers[k] == k + 1)
              && forall k :: 0 <= k < |r.value| ==>
                        var before := if k == 0 then previous else r.value[k - 1].digest;
                        ParseReceipt(ledger, domain, i + k + 1, before) == Some(r.value[k])
    decreases |numbers| - i
  {
    hide ParseReceipt;
    var r := LoadFrom(ledger, domain, numbers, i, previous);
    if r.Success? && i < |numbers| {
      var link := ParseReceipt(ledger, domain, numbers[i], previous).value;
      LoadFromIsChain(ledger, domain, numbers, i + 1, link.digest);
      var rest := LoadFrom(ledger, domain, numbers, i + 1, link.digest).value;
      forall k | 0 <= k < |r.value|
        ensures ParseReceipt(ledger, domain, i + k + 1, if k == 0 then previous else r.value[k - 1].digest)
            == Some(r.value[k])
      {
        if k > 0 { assert r.value[k] == rest[k - 1]; }
      }
    }
  }

  lemma {:induction false} ChainLoadsFrom(ledger: Dir, domain: Record, numbers: seq<nat>, i: nat, receipts: seq<Link>)
    requires domain.Domain? && i <= |numbers| == |receipts| && Chain(ledger, domain, receipts)
    requires forall k :: 0 <= k < |numbers| ==> numbers[k] == k + 1
    ensures LoadFrom(ledger, domain, numbers, i, DigestBefore(receipts, i)) == Success(receipts[i..])
    decreases |numbers| - i
  {
    hide ParseReceipt;
    if i < |numbers| {
      assert ParseReceipt(ledger, domain, numbers[i], DigestBefore(receipts, i)) == Some(receipts[i]);
      ChainLoadsFrom(ledger, domain, numbers, i + 1, receipts);
      assert DigestBefore(receipts, i + 1) == receipts[i].digest;
      assert receipts[i..] == [receipts[i]] + receipts[i + 1..];
    } else {
      assert receipts[i..] == [];
    }
  }

  lemma {:induction false} SortedRange(s: set<nat>, r: seq<nat>)
    requires forall n: nat :: n in r <==> n in s
    requires forall i, j :: 0 <= i < j < |r| ==> r[i] < r[j]
    requires forall n: nat :: n in s <==> 1 <= n <= |r|
    ensures forall k :: 0 <= k < |r| ==> r[k] == k + 1
  {
    var k := 0;
    while k < |r|
      invariant 0 <= k <= |r| && forall j :: 0 <= j < k ==> r[j] == j + 1
    {
      assert r[k] in r;
      assert k > 0 ==> r[k - 1] < r[k];
      var next: nat := k + 1;
      assert next in s;
      assert next in r;
      var j :| 0 <= j < |r| && r[j] == next;
      assert j >= k;
      k := k + 1;
    }
  }

  /** Loading succeeds exactly on a chain, and gives its links. */
  lemma LoadsExactlyChains(ledger: Dir, domain: Record, receipts: seq<Link>)
    requires domain.Domain?
    ensures LoadReceipts(ledger, domain) == Success(receipts) <==> Chain(ledger, domain, receipts)
  {
    hide ParseReceipt, Numbers, MalformedReceiptName;
    var numbers := Sorted(Numbers(ledger));
    SortedIsSorted(Numbers(ledger));
    hide Sorted;
    if LoadReceipts(ledger, domain) == Success(receipts) {
      LoadFromIsChain(ledger, domain, numbers, 0, Zeros);
      forall n: nat ensures n in Numbers(ledger) <==> 1 <= n <= |receipts| {
        if 1 <= n <= |receipts| { assert numbers[n - 1] in numbers; }
        assert n in numbers <==> n in Numbers(ledger);
      }
    }
    if Chain(ledger, domain, receipts) {
      RangeSize(Numbers(ledger), |receipts|);
      SortedRange(Numbers(ledger), numbers);
      ChainLoadsFrom(ledger, domain, numbers, 0, receipts);
      assert receipts[0..] == receipts;
    }
  }

  lemma {:induction false} RangeSize(s: set<nat>, n: nat)
    requires forall k: nat :: k in s <==> 1 <= k <= n
    ensures |s| == n
    decreases n
  {
    if n == 0 {
      assert s == {};
    } else {
      RangeSize(s - {n}, n - 1);
    }
  }

  /** What one receipt file of a chain says. */
  lemma ReceiptFacts(ledger: Dir, domain: Record, receipts: seq<Link>, i: nat)
    requires domain.Domain? && Chain(ledger, domain, receipts) && i < |receipts|
    ensures Linked(receipts, i) && ValidHex(receipts[i].dataDigest)
    ensures var p := Top(ReceiptFile(i + 1));
            && p in ledger && ledger[p].File? && receipts[i].digest == FileSha(ledger[p].contents)
            && ledger[p].contents.Json? && ledger[p].contents.record.Receipt?
            && ledger[p].contents.record.payload
                   == ReceiptPayload(VERSION, domain.domainId, i + 1, receipts[i].previous, receipts[i].dataDigest)
  {
    assert ParseReceipt(ledger, domain, i + 1, DigestBefore(receipts, i)) == Some(receipts[i]);
  }

  predicate SameContents(a: Dir, b: Dir, p: Path) {
    p in a && p in b && a[p].File? && b[p].File? && a[p].contents == b[p].contents
  }

  /** Two accepted chains, in whatever ledgers and domains, that have the same digest at receipt n
      have the same receipts 1 to n. */
  lemma {:induction false} SameDigestSameHistory(a: Dir, d: Record, ra: seq<Link>, b: Dir, e: Record, rb: seq<Link>,
      n: nat)
    requires d.Domain? && e.Domain? && LoadReceipts(a, d) == Success(ra) && LoadReceipts(b, e) == Success(rb)
    requires 1 <= n <= |ra| && n <= |rb| && ra[n - 1].digest == rb[n - 1].digest
    ensures ra[..n] == rb[..n]
    ensures forall i: nat :: 1 <= i <= n ==> SameContents(a, b, Top(ReceiptFile(i)))
    decreases n
  {
    hide LoadReceipts, Chain;
    LoadsExactlyChains(a, d, ra);
    LoadsExactlyChains(b, e, rb);
    ReceiptFacts(a, d, ra, n - 1);
    ReceiptFacts(b, e, rb, n - 1);
    assert ra[n - 1] == rb[n - 1];
    if n > 1 {
      SameDigestSameHistory(a, d, ra, b, e, rb, n - 1);
      assert ra[..n] == ra[..n - 1] + [ra[n - 1]] && rb[..n] == rb[..n - 1] + [rb[n - 1]];
    } else {
      assert ra[..n] == [ra[0]] && rb[..n] == [rb[0]];
    }
  }
}
