/** Values shared by the log modules: object keys, descriptors, pages, roots and errors. */
module LogTypes {
  // Fan-out of an index or producer page, and the capacity of the active tail (src/log/index.rs:10).
  const PAGE_ENTRIES: nat := 64
  const I64_MAX: int := 0x7fff_ffff_ffff_ffff
  const U64_MAX: int := 0xffff_ffff_ffff_ffff
  const MAX_BATCH_RECORDS: nat := 100_000
  const MAX_BATCH_BYTES: nat := 16_777_216
  const RETRY_BATCHES: nat := 5
  const INDEX_SCHEMA: nat := 4

  datatype Option<+T> = None | Some(value: T)

  datatype LogError =
    | Invalid
    | NotFound
    | AlreadyExists
    | OffsetOverflow
    | RevisionOverflow
    | OffsetOutOfRange
    | MaintenanceBudget
    | InvalidMaintenance
    | InvalidProducerEpoch
    | OutOfOrderSequence
    | ConflictingSequence

  datatype Result<+T> = Ok(value: T) | Err(error: LogError) {
    predicate IsFailure() {
      Err?
    }
    function PropagateFailure<U>(): Result<U>
      requires Err?
    {
      Err(error)
    }
    function Extract(): T
      requires Ok?
    {
      value
    }
  }

  /** An object key: the namespace below the partition prefix, and the UUID in the name. */
  datatype Key = SegmentKey(id: nat) | IndexKey(id: nat) | ProducerKey(id: nat)

  datatype Segment = Segment(key: Key, baseOffset: int, recordCount: nat, byteLength: nat, receivedAt: Option<nat>)

  datatype PageRef = PageRef(key: Key, firstOffset: int, nextOffset: int, segmentCount: nat, level: nat)

  datatype IndexPage = LeafPage(segments: seq<Segment>) | BranchPage(children: seq<PageRef>)

  /** A remembered batch; the fingerprint stands for the SHA-256 of its canonical records. */
  datatype BatchIdentity = BatchIdentity(sequence: int, count: nat, baseOffset: int, fingerprint: string)

  datatype ProducerState = ProducerState(id: int, epoch: int, batches: seq<BatchIdentity>)

  datatype ProducerRef = ProducerRef(key: Key, firstId: int, lastId: int, count: nat, level: nat)

  datatype ProducerPage = ProducerLeaf(producers: seq<ProducerState>) | ProducerBranch(children: seq<ProducerRef>)

  datatype Object =
    | RecordObject(byteLength: nat)
    | IndexObject(page: IndexPage)
    | ProducerObject(producerPage: ProducerPage)

  datatype Root = Root(
    schema: nat,
    revision: nat,
    startOffset: int,
    adoptedAt: Option<nat>,
    nextOffset: int,
    tree: Option<PageRef>,
    producers: Option<ProducerRef>,
    tail: seq<Segment>)

  const EmptyRoot: Root := Root(INDEX_SCHEMA, 0, 0, Some(0), 0, None, None, [])

  /** A schema-1 flat manifest, or a schema-2/3/4 index root. */
  datatype Manifest = Legacy(revision: nat, nextOffset: int, segments: seq<Segment>) | Indexed(root: Root)
}
