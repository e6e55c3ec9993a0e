/** Values that several components share: optional values, results, operation records and the
    five operation domains of a workspace. */
module Wire {
  datatype Option<+T> = None | Some(value: T)

  datatype Result<+T, +E> = Success(value: T) | Failure(error: E)

  /** The largest integer that JavaScript and the wire format represent exactly. */
  const MAX_SAFE: int := 9_007_199_254_740_991

  type NonEmpty = s: string | s != "" witness "x"

  /** The five domains; each has its own object store, keyed by operation ID. */
  datatype Domain = Commands | TaskOperations | DurationOperations | AutoStartOperations | SelectedTaskOperations

  const DOMAINS: seq<Domain> :=
    [Commands, TaskOperations, DurationOperations, AutoStartOperations, SelectedTaskOperations]

  /** A stored operation. `content` stands for the fields that only travel unchanged; `local` for
      the fields that stay on the device and are not encoded into a request. */
  datatype Operation = Operation(id: string, occurredAt: int, wall: int, counter: int, content: string, local: string)

  /** How a bootstrap resolution treats what the account already holds. */
  datatype Strategy = KeepRemote | ReplaceRemote | Merge

  /** One list per domain: a batch of operations or of operation IDs. */
  datatype PerDomain<+T> = PerDomain(
    commands: seq<T>,
    taskOperations: seq<T>,
    durationOperations: seq<T>,
    autoStartOperations: seq<T>,
    selectedTaskOperations: seq<T>)
  {
    function Of(d: Domain): seq<T> {
      match d
      case Commands => commands
      case TaskOperations => taskOperations
      case DurationOperations => durationOperations
      case AutoStartOperations => autoStartOperations
      case SelectedTaskOperations => selectedTaskOperations
    }
  }

  type Batch = PerDomain<Operation>
  type IdLists = PerDomain<string>

  const EMPTY_BATCH: Batch := PerDomain([], [], [], [], [])

  /** Where an operation is stored: its domain's store and its ID. */
  datatype Key = Key(domain: Domain, id: string)

  function BatchKeys(b: Batch): (keys: set<Key>)
    ensures forall k :: k in keys <==> exists i :: 0 <= i < |b.Of(k.domain)| && b.Of(k.domain)[i].id == k.id
  {
    set d: Domain, i | 0 <= i < |b.Of(d)| :: Key(d, b.Of(d)[i].id)
  }

  function ListedKeys(ids: IdLists): (keys: set<Key>)
    ensures forall k :: k in keys <==> k.id in ids.Of(k.domain)
  {
    set d: Domain, i | 0 <= i < |ids.Of(d)| :: Key(d, ids.Of(d)[i])
  }

  /** No ID occurs twice within a domain. */
  predicate DistinctIds(b: Batch) {
    forall d: Domain, i, j :: 0 <= i < j < |b.Of(d)| ==> b.Of(d)[i].id != b.Of(d)[j].id
  }
}
