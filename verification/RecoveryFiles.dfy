/** Directories of the recovery tool (scripts/restore_drill.py) as maps from path to node. File
    contents, SHA-256 digests, HMAC tags and inventories are terms: two digests are equal exactly
    when the hashed inputs are, and an HMAC tag is equal exactly when key and payload are. */
module RecoveryFiles {
  import opened Wire

  const VERSION := 1
  const MAX_REVISION := MAX_SAFE

  /** The SHA-256 of a user ID in hexadecimal, or the digest part of a foreign file name. */
  datatype Account = OfUser(user: string) | Foreign(text: string)

  datatype FileKind = Main | Wal | Shm

  /** A base name, sorted by the regular expressions that the tool matches it against. */
  datatype Name =
    | DomainFile
    | BindingFile
    | ReceiptFile(number: nat)
    | MalformedReceiptFile(text: string)
    | LifecycleFile(account: Account)
    | TombstoneFile(account: Account)
    | MalformedAccountFile(text: string)
    | DeletionReceiptFile(user: string, byCookie: bool, token: string)
    | DatabaseFile(user: string, kind: FileKind)
    | PendingFile(text: string)
    | OtherName(text: string)

  datatype Path = Path(parents: seq<string>, name: Name)

  function Top(n: Name): Path {
    Path([], n)
  }

  datatype Payload =
    | ReceiptPayload(version: int, domainId: string, sequence: int, previous: Hex, dataDigest: Hex)
    | BindingPayload(version: int, domainId: string, sequence: int, receipt: Hex, dataDigest: Hex)

  /** A value that is checked with `valid_hex`: 64 zeros, the digest of a file, the digest of an
      inventory, a tag, or some other text. */
  datatype Hex =
    | Zeros
    | FileSha(contents: Contents)
    | InventorySha(items: map<Path, Item>)
    | Tag(key: string, payload: Payload)
    | Text(wellFormed: bool, text: string)

  datatype State = Active | Deleted

  datatype Record =
    | Domain(version: int, domainId: string, key: string, idIsHex: bool, keyIsHex: bool)
    | Receipt(payload: Payload, tag: Hex)
    | Binding(payload: Payload, tag: Hex)
    | Lifecycle(version: int, generation: int, state: Option<State>, updatedAt: int)
    | Tombstone(version: int, deletedGeneration: int, deletedAt: int)
    | DeletionReceipt(version: int, receiptGeneration: int, csrfHash: seq<int>)

  /** JSON may be laid out in several ways with the same meaning; layout 0 is the canonical one. A
      database holds its account's generation, and anything else that can vary. */
  datatype Contents = Json(record: Record, layout: nat) | Database(generation: int, rest: nat) | Bytes(bytes: seq<int>)

  datatype Node = Directory(mode: nat) | File(mode: nat, contents: Contents)

  datatype Item = DirectoryItem(mode: nat) | FileItem(mode: nat, sha: Hex)

  type Dir = map<Path, Node>
  type Inventory = map<Path, Item>

  predicate ValidHex(h: Hex) {
    h.Text? ==> h.wellFormed
  }

  /** valid_generation */
  predicate ValidGeneration(n: int) {
    1 <= n <= MAX_REVISION
  }

  function ItemOf(n: Node): Item {
    match n
    case Directory(mode) => DirectoryItem(mode)
    case File(mode, contents) => FileItem(mode, FileSha(contents))
  }

  /** inventory: every entry with its mode, and the digest of every file. The list is sorted by path,
      so it is the same thing as this map. */
  function InventoryOf(d: Dir): Inventory {
    map p | p in d :: ItemOf(d[p])
  }

  /** data_state_inventory: all but the binding itself. */
  function DataState(d: Dir): Inventory {
    InventoryOf(d) - {Top(BindingFile)}
  }

  function DataDigest(d: Dir): Hex {
    InventorySha(DataState(d))
  }

  /** private_json: a regular file that only its owner can read, holding a JSON object. */
  function PrivateJson(d: Dir, n: Name): Option<Record> {
    var p := Top(n);
    if p in d && d[p].File? && OwnerOnly(d[p].mode) && d[p].contents.Json? then Some(d[p].contents.record) else None
  }

  /** No permission bit of group or others (mode & 0o077 == 0). */
  predicate OwnerOnly(mode: nat) {
    mode % 64 == 0
  }

  const PRIVATE := 384 // 0o600

  /** write_private_json */
  function WithJson(d: Dir, n: Name, r: Record): Dir {
    d[Top(n) := File(PRIVATE, Json(r, 0))]
  }

  /** cleanup_pending_recovery */
  function WithoutPending(d: Dir): Dir {
    map p | p in d && !(p.parents == [] && p.name.PendingFile?) :: d[p]
  }

  /** An inventory determines the directory: nothing can change without changing it. */
  lemma InventoryIsFaithful(a: Dir, b: Dir)
    ensures InventoryOf(a) == InventoryOf(b) <==> a == b
  {
    if InventoryOf(a) == InventoryOf(b) {
      forall p | p in a ensures p in b && a[p] == b[p] {
        assert InventoryOf(a)[p] == ItemOf(a[p]);
        assert p in InventoryOf(b);
      }
      forall p | p in b ensures p in a {
        assert p in InventoryOf(b);
      }
    }
  }

  /** Whatever temporary files an interrupted write left behind, the clean-up restores the directory
      as it was. */
  lemma CleanupRestores(d: Dir, leftovers: Dir)
    requires forall p :: p in d ==> !(p.parents == [] && p.name.PendingFile?)
    requires forall p :: p in leftovers ==> p.parents == [] && p.name.PendingFile?
    ensures WithoutPending(d + leftovers) == d
  {
    var cleaned := WithoutPending(d + leftovers);
    forall p ensures p in cleaned <==> p in d {
      assert p in d ==> p in d + leftovers;
    }
    forall p | p in d ensures cleaned[p] == d[p] {
      assert p !in leftovers;
    }
  }

  lemma BindingIsOutsideState(d: Dir, r: Record)
    ensures DataState(WithJson(d, BindingFile, r)) == DataState(d)
  {
  }
}
