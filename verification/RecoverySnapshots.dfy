/** Making a snapshot and restoring it (scripts/restore_drill.py): the steps together, from live
    storage to a restored copy, and over several snapshots of the same storage. */
module RecoverySnapshots {
  import opened Wire
  import opened RecoveryFiles
  import opened RecoveryLineage
  import opened RecoveryLedger
  import opened RecoveryAdvance
  import opened RecoveryRestore
  import opened RecoveryGrowth

  function Cleaned(d: Disk): Disk {
    Disk(WithoutPending(d.data), WithoutPending(d.ledger))
  }

  /** create_snapshot: clean up, validate, advance the lineage, copy both directories and make the
      manifest of the copies. The storage it leaves, and the snapshot unless a step refuses. */
  function CreateSnapshot(d: Disk, f: Fresh): (Disk, Option<Snapshot>) {
    var clean := Cleaned(d);
    if !LedgerAllows(clean.data, clean.ledger) then (clean, None)
    else
      var (states, r) := Advance(clean, f);
      var now := if states == [] then clean else states[|states| - 1];
      if r.Failure? then (now, None)
      else
        var manifest := ManifestOf(now.data, now.ledger);
        (now, if manifest.None? then None else Some(Snapshot(now.data, now.ledger, manifest.value)))
  }

  /** Recovery records are not ledger records: writing one changes no account's mark. */
  lemma ReceiptKeepsLedger(ledger: Dir, n: Name, r: Record)
    requires n.ReceiptFile? || n.DomainFile?
    ensures LedgerOk(WithJson(ledger, n, r)) <==> LedgerOk(ledger)
    ensures LedgerOk(ledger) ==> Marks(WithJson(ledger, n, r)) == Marks(ledger)
  {
    var after := WithJson(ledger, n, r);
    assert forall p :: AccountFile(p) ==> Same(ledger, after, p);
    SameMarks(ledger, after);
  }

  /** The binding is not account data. */
  lemma BindingKeepsData(data: Dir, r: Record, wm: Watermark)
    ensures DataFits(WithJson(data, BindingFile, r), wm) <==> DataFits(data, wm)
  {
    var after := WithJson(data, BindingFile, r);
    assert Users(after) == Users(data) by {
      if UsersExist(data) && !data[Top(OtherName(USERS))].File? {
        assert Users(after).value == Users(data).value;
      }
    }
    forall u, m ensures Fits(after, u, m) <==> Fits(data, u, m) {
    }
  }

  lemma AdvanceKeepsAllowed(d: Disk, f: Fresh, domain: Record, receipts: seq<Link>)
    requires Accepted(d, domain, receipts) && Advance(d, f).1.Success? && LedgerAllows(d.data, d.ledger)
    ensures var now := Advance(d, f).0[1];
            LedgerAllows(now.data, now.ledger) && Marks(now.ledger) == Marks(d.ledger)
  {
    assert EnsureDomain(d.ledger, f) == Success((d.ledger, domain));
    hide LedgerOk, Marks, DataFits, LoadReceipts, LoadBinding, LoadDomain, WithJson, ParseReceipt;
    var link := Advance(d, f).1.value;
    var p := NextReceipt(domain, receipts, DataDigest(d.data));
    ReceiptKeepsLedger(d.ledger, ReceiptFile(p.sequence), ReceiptRecord(domain, p));
    BindingKeepsData(d.data, BindingRecord(domain, link), Marks(d.ledger));
  }

  /** From storage whose recovery records are in order, a snapshot is made exactly when the accounts
      fit the ledger and the lineage can advance. It verifies, holds exactly the live account data,
      and is bound to the newest receipt. */
  lemma CreatedSnapshotVerifies(d: Disk, f: Fresh, domain: Record, receipts: seq<Link>)
    requires Accepted(Cleaned(d), domain, receipts)
    ensures var (now, s) := CreateSnapshot(d, f);
            && (s.Some? <==> LedgerAllows(Cleaned(d).data, Cleaned(d).ledger) && Advance(Cleaned(d), f).1.Success?)
            && (s.Some? ==>
                  && Verified(s.value) && s.value.data == now.data && s.value.ledger == now.ledger
                  && DataState(s.value.data) == DataState(Cleaned(d).data)
                  && Marks(s.value.ledger) == Marks(Cleaned(d).ledger)
                  && s.value.manifest.lineage.sequence == |receipts| + 1
                  && LoadReceipts(s.value.ledger, domain).Success?
                  && |LoadReceipts(s.value.ledger, domain).value| == |receipts| + 1)
  {
    var clean := Cleaned(d);
    if LedgerAllows(clean.data, clean.ledger) {
      hide Advance, Accepted, LedgerAllows, ValidateLineage;
      AdvanceExtends(clean, f, domain, receipts);
      if Advance(clean, f).1.Success? {
        AdvanceKeepsAllowed(clean, f, domain, receipts);
        var now := Advance(clean, f).0[1];
        FreshSnapshotVerifies(now.data, now.ledger);
        AcceptedLoads(now, domain, receipts + [Advance(clean, f).1.value]);
      }
    }
  }

  lemma AcceptedLoads(d: Disk, domain: Record, receipts: seq<Link>)
    requires Accepted(d, domain, receipts)
    ensures domain.Domain? && LoadReceipts(d.ledger, domain) == Success(receipts)
  {
  }

  /** A snapshot that was made can be restored, and gives back the live account data and ledger. */
  lemma CreateThenRestore(d: Disk, f: Fresh, domain: Record, receipts: seq<Link>)
    requires Accepted(Cleaned(d), domain, receipts) && CreateSnapshot(d, f).1.Some?
    ensures var s := CreateSnapshot(d, f).1.value;
            && Restore(s, s) == Some((s.data, s.ledger))
            && DataState(s.data) == DataState(Cleaned(d).data)
  {
    hide CreateSnapshot, Accepted, Verified, Restore, Cleaned, DataState, Advance, LedgerAllows;
    CreatedSnapshotVerifies(d, f, domain, receipts);
    RestoreOfItself(CreateSnapshot(d, f).1.value);
  }
}
