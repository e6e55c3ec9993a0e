/** The deletion ledger (scripts/restore_drill.py): for each account a lifecycle record and a
    deletion tombstone, their high-watermark, and what account data they allow. */
module RecoveryLedger {
  import opened Wire
  import opened RecoveryFiles

  datatype Mark = Mark(generation: int, state: State, lifecycleGeneration: int, deletedGeneration: int)
  type Watermark = map<Account, Mark>

  /** The parsed records of one account. */
  datatype Entry = Entry(lifecycle: Option<Record>, tombstone: Option<Record>)

  // ---------------------------------------------------------------- records

  /** strict_json: any regular file with a JSON object. */
  function ReadJson(d: Dir, n: Name): Option<Record> {
    var p := Top(n);
    if p in d && d[p].File? && d[p].contents.Json? then Some(d[p].contents.record) else None
  }

  predicate LifecycleOk(r: Record) {
    r.Lifecycle? && r.version == VERSION && ValidGeneration(r.generation) && r.state.Some?
        && ValidGeneration(r.updatedAt)
  }

  predicate TombstoneOk(r: Record) {
    r.Tombstone? && r.version == VERSION && ValidGeneration(r.deletedGeneration) && ValidGeneration(r.deletedAt)
  }

  /** parse_lifecycle */
  function ParseLifecycle(ledger: Dir, a: Account): (r: Option<Record>)
    ensures r.Some? ==> LifecycleOk(r.value)
  {
    var r := ReadJson(ledger, LifecycleFile(a));
    if r.Some? && LifecycleOk(r.value) then r else None
  }

  /** parse_tombstone */
  function ParseTombstone(ledger: Dir, a: Account): (r: Option<Record>)
    ensures r.Some? ==> TombstoneOk(r.value)
  {
    var r := ReadJson(ledger, TombstoneFile(a));
    if r.Some? && TombstoneOk(r.value) then r else None
  }

  // ---------------------------------------------------------------- the high-watermark

  predicate EntryOk(e: Entry) {
    && (e.lifecycle.Some? ==> LifecycleOk(e.lifecycle.value)) && (e.tombstone.Some? ==> TombstoneOk(e.tombstone.value))
    && (e.lifecycle.Some? || e.tombstone.Some?)
  }

  /** normalize_high_watermark; None when a deleted lifecycle lacks its tombstone. */
  function Normalize(e: Entry): Option<Mark>
    requires EntryOk(e)
  {
    var lifecycle := if e.lifecycle.Some? then e.lifecycle.value.generation else 0;
    var deleted := if e.tombstone.Some? then e.tombstone.value.deletedGeneration else 0;
    if e.lifecycle.Some? && e.lifecycle.value.state == Some(Deleted) && deleted < lifecycle then None
    else
      var state := if deleted >= lifecycle && deleted != 0 then Deleted else e.lifecycle.value.state.value;
      Some(Mark(if lifecycle > deleted then lifecycle else deleted, state, lifecycle, deleted))
  }

  /** A mark says deleted exactly when the deletion is at least as new as the lifecycle, and its
      generation is then the deleted one; otherwise it is the active lifecycle's. */
  lemma NormalizeLaws(e: Entry)
    requires EntryOk(e) && Normalize(e).Some?
    ensures var m := Normalize(e).value;
            && (m.state == Deleted <==> m.lifecycleGeneration <= m.deletedGeneration)
            && m.generation == (if m.state == Deleted then m.deletedGeneration else m.lifecycleGeneration)
            && 1 <= m.generation && 0 <= m.deletedGeneration && 0 <= m.lifecycleGeneration
            && (m.state == Active ==> e.lifecycle.Some? && e.lifecycle.value.state == Some(Active))
  {
  }

  function EntryOf(ledger: Dir, a: Account): Entry {
    Entry(ParseLifecycle(ledger, a), ParseTombstone(ledger, a))
  }

  function Accounts(ledger: Dir): set<Account> {
    set p | p in ledger && p.parents == [] && (p.name.LifecycleFile? || p.name.TombstoneFile?) :: p.name.account
  }

  /** Both files of the account parse, as far as they exist, and fit together. */
  predicate AccountOk(ledger: Dir, a: Account) {
    && (Top(LifecycleFile(a)) in ledger ==> ParseLifecycle(ledger, a).Some?)
    && (Top(TombstoneFile(a)) in ledger ==> ParseTombstone(ledger, a).Some?)
    && EntryOk(EntryOf(ledger, a)) && Normalize(EntryOf(ledger, a)).Some?
  }

  predicate LedgerOk(ledger: Dir) {
    && (forall p :: p in ledger ==> !(p.parents == [] && p.name.MalformedAccountFile?))
    && forall a :: a in Accounts(ledger) ==> AccountOk(ledger, a)
  }

  function Marks(ledger: Dir): Watermark
    requires LedgerOk(ledger)
  {
    map a | a in Accounts(ledger) :: Normalize(EntryOf(ledger, a)).value
  }

  lemma AccountsAreFiles(ledger: Dir, a: Account)
    ensures a in Accounts(ledger) <==> Top(LifecycleFile(a)) in ledger || Top(TombstoneFile(a)) in ledger
  {
    if Top(LifecycleFile(a)) in ledger { assert Top(LifecycleFile(a)).name.account == a; }
    if Top(TombstoneFile(a)) in ledger { assert Top(TombstoneFile(a)).name.account == a; }
  }

  /** The records with those of one more file; None when the file is not acceptable. */
  function Add(ledger: Dir, p: Path, records: map<Account, Entry>): Option<map<Account, Entry>> {
    if p.parents != [] then Some(records)
    else
      match p.name
      case LifecycleFile(a) =>
        var parsed := ParseLifecycle(ledger, a);
        if parsed.None? then None
            else Some(records[a := (if a in records then records[a] else Entry(None, None)).(lifecycle := parsed)])
      case TombstoneFile(a) =>
        var parsed := ParseTombstone(ledger, a);
        if parsed.None? then None
            else Some(records[a := (if a in records then records[a] else Entry(None, None)).(tombstone := parsed)])
      case MalformedAccountFile(_) => None
      case _ => Some(records)
  }

  /** The first loop of ledger_high_watermark, file by file. */
  method ReadRecords(ledger: Dir) returns (r: Option<map<Account, Entry>>)
    ensures r.None? ==> !LedgerOk(ledger)
    ensures r.Some? ==> ReadSoFar(ledger, {}, r.value)
  {
    var records: map<Account, Entry> := map[];
    var left := ledger.Keys;
    ReadNone(ledger);
    while left != {}
      invariant left <= ledger.Keys && ReadSoFar(ledger, left, records)
      decreases |left|
    {
      hide ReadSoFar, Add, LedgerOk;
      var p :| p in left;
      var added := Add(ledger, p, records);
      if added.None? {
        AddStops(ledger, p, records);
        return None;
      }
      ReadOne(ledger, left, p, records);
      records := added.value;
      left := left - {p};
    }
    return Some(records);
  }

  method NormalizeAll(records: map<Account, Entry>) returns (r: Option<Watermark>)
    requires forall a :: a in records ==> EntryOk(records[a])
    ensures r.Some? <==> forall a :: a in records ==> Normalize(records[a]).Some?
    ensures r.Some? ==> r.value.Keys == records.Keys
    ensures r.Some? ==> forall a :: a in records ==> Normalize(records[a]) == Some(r.value[a])
  {
    hide EntryOk, Normalize;
    var marks: Watermark := map[];
    var accounts := records.Keys;
    while accounts != {}
      invariant accounts <= records.Keys && marks.Keys == records.Keys - accounts
      invariant forall a :: a in marks ==> Normalize(records[a]) == Some(marks[a])
      decreases |accounts|
    {
      var a :| a in accounts;
      accounts := accounts - {a};
      var mark := Normalize(records[a]);
      if mark.None? { return None; }
      marks := marks[a := mark.value];
    }
    return Some(marks);
  }

  /** ledger_high_watermark: read everything, then normalize account by account. */
  method LedgerHighWatermark(ledger: Dir) returns (r: Option<Watermark>)
    ensures r == if LedgerOk(ledger) then Some(Marks(ledger)) else None
  {
    var read := ReadRecords(ledger);
    if read.None? { return None; }
    ReadAll(ledger, read.value);
    r := NormalizeAll(read.value);
    if r.Some? { MarksOf(ledger, read.value, r.value); }
  }

  function Found(ledger: Dir, left: set<Path>, n: Name): bool {
    Top(n) in ledger && Top(n) !in left
  }

  /** The records of the files visited so far. */
  ghost predicate ReadSoFar(ledger: Dir, left: set<Path>, records: map<Account, Entry>) {
    && (forall a :: a in records <==> Found(ledger, left, LifecycleFile(a)) || Found(ledger, left, TombstoneFile(a)))
    && (forall a :: a in records ==>
              records[a].lifecycle == if Found(ledger, left, LifecycleFile(a)) then ParseLifecycle(ledger, a) else None)
    && (forall a :: a in records ==>
              records[a].tombstone == if Found(ledger, left, TombstoneFile(a)) then ParseTombstone(ledger, a) else None)
    && (forall a :: Found(ledger, left, LifecycleFile(a)) ==> ParseLifecycle(ledger, a).Some?)
    && (forall a :: Found(ledger, left, TombstoneFile(a)) ==> ParseTombstone(ledger, a).Some?)
    && (forall p :: p in ledger && p !in left ==> !(p.parents == [] && p.name.MalformedAccountFile?))
  }

  lemma ReadNone(ledger: Dir)
    ensures ReadSoFar(ledger, ledger.Keys, map[])
  {
  }

  lemma FoundOne(ledger: Dir, left: set<Path>, p: Path, n: Name)
    requires p in left && left <= ledger.Keys
    ensures Found(ledger, left - {p}, n) <==> Found(ledger, left, n) || p == Top(n)
  {
  }

  lemma ReadOne(ledger: Dir, left: set<Path>, p: Path, records: map<Account, Entry>)
    requires p in left && left <= ledger.Keys && ReadSoFar(ledger, left, records) && Add(ledger, p, records).Some?
    ensures ReadSoFar(ledger, left - {p}, Add(ledger, p, records).value)
  {
    hide ParseLifecycle, ParseTombstone, Found;
    forall a
      ensures Found(ledger, left - {p}, LifecycleFile(a))
          <==> Found(ledger, left, LifecycleFile(a)) || p == Top(LifecycleFile(a))
      ensures Found(ledger, left - {p}, TombstoneFile(a))
          <==> Found(ledger, left, TombstoneFile(a)) || p == Top(TombstoneFile(a))
    {
      FoundOne(ledger, left, p, LifecycleFile(a));
      FoundOne(ledger, left, p, TombstoneFile(a));
    }
    if p.parents == [] {
      match p.name
      case LifecycleFile(a) => assert p == Top(LifecycleFile(a));
      case TombstoneFile(a) => assert p == Top(TombstoneFile(a));
      case _ =>
    }
  }

  lemma ReadAll(ledger: Dir, records: map<Account, Entry>)
    requires ReadSoFar(ledger, {}, records)
    ensures records.Keys == Accounts(ledger)
    ensures forall a :: a in records ==> records[a] == EntryOf(ledger, a) && EntryOk(records[a])
    ensures LedgerOk(ledger) <==> forall a :: a in records ==> Normalize(records[a]).Some?
  {
    forall a ensures a in records <==> a in Accounts(ledger) { AccountsAreFiles(ledger, a); }
    forall a | a in records
        ensures records[a] == EntryOf(ledger, a) && EntryOk(records[a])
            && (AccountOk(ledger, a) <==> Normalize(records[a]).Some?) {
    }
  }

  lemma MarksOf(ledger: Dir, records: map<Account, Entry>, marks: Watermark)
    requires LedgerOk(ledger) && records.Keys == Accounts(ledger) == marks.Keys
    requires forall a :: a in records ==>
          records[a] == EntryOf(ledger, a) && EntryOk(records[a]) && Normalize(records[a]) == Some(marks[a])
    ensures marks == Marks(ledger)
  {
  }

  lemma AddStops(ledger: Dir, p: Path, records: map<Account, Entry>)
    requires p in ledger && Add(ledger, p, records).None?
    ensures !LedgerOk(ledger)
  {
    if !p.name.MalformedAccountFile? {
      AccountsAreFiles(ledger, p.name.account);
      assert p == Top(p.name);
      assert !AccountOk(ledger, p.name.account);
    }
  }

  // ---------------------------------------------------------------- account data

  const USERS := "users"

  function DatabasePath(user: string, kind: FileKind): Path {
    Path([USERS], DatabaseFile(user, kind))
  }

  predicate UsersExist(data: Dir) {
    Top(OtherName(USERS)) in data
  }

  /** account_storage: the users with any database file; `users` itself has to be a directory. */
  function Users(data: Dir): Option<set<string>> {
    if !UsersExist(data) then Some({})
    else if data[Top(OtherName(USERS))].File? then None
    else Some(set p | p in data && p.parents == [USERS] && p.name.DatabaseFile? :: p.name.user)
  }

  predicate HasMain(data: Dir, user: string) {
    DatabasePath(user, Main) in data
  }

  /** stored_generation */
  function StoredGeneration(data: Dir, user: string): (g: Option<int>)
    requires HasMain(data, user)
    ensures g.Some? ==> ValidGeneration(g.value)
  {
    var n := data[DatabasePath(user, Main)];
    if n.File? && n.contents.Database? && ValidGeneration(n.contents.generation) then Some(n.contents.generation)
    else None
  }

  /** What the ledger demands of one account's files: leftovers only of a deleted account; a database
      at or below the deletion, or exactly the active lifecycle generation. */
  predicate Fits(data: Dir, user: string, m: Mark) {
    if !HasMain(data, user) then m.state == Deleted && m.deletedGeneration >= 1
    else
      var g := StoredGeneration(data, user);
      g.Some? && (g.value <= m.deletedGeneration || (m.state == Active && m.lifecycleGeneration == g.value))
  }

  predicate DataFits(data: Dir, wm: Watermark) {
    Users(data).Some? && forall u :: u in Users(data).value ==> OfUser(u) in wm && Fits(data, u, wm[OfUser(u)])
  }

  /** validate_data_against_ledger, account by account. */
  method ValidateDataAgainstLedger(data: Dir, ledger: Dir) returns (r: Option<Watermark>)
    ensures r.Some? <==> LedgerOk(ledger) && DataFits(data, Marks(ledger))
    ensures r.Some? ==> r.value == Marks(ledger)
  {
    var read := LedgerHighWatermark(ledger);
    if read.None? { return None; }
    hide LedgerOk, Marks;
    var wm := read.value;
    var users := Users(data);
    if users.None? { return None; }
    var left := users.value;
    while left != {}
      invariant left <= users.value
      invariant forall u :: u in users.value - left ==> OfUser(u) in wm && Fits(data, u, wm[OfUser(u)])
      decreases |left|
    {
      var u :| u in left;
      left := left - {u};
      if OfUser(u) !in wm { return None; }
      var record := wm[OfUser(u)];
      if !HasMain(data, u) {
        if record.state != Deleted || record.deletedGeneration < 1 { return None; }
        continue;
      }
      var generation := StoredGeneration(data, u);
      if generation.None? { return None; }
      if generation.value <= record.deletedGeneration { continue; }
      if record.state != Active || record.lifecycleGeneration != generation.value { return None; }
    }
    return Some(wm);
  }
}
