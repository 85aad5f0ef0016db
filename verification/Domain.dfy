/** Stream vocabulary shared by facts, records and commands. */
module Domain {

  const STREAM_PATH_BYTES_MAX: nat := 512
  const CONTENT_TYPE_BYTES_MAX: nat := 256

  /** A parsed stream path: one char per byte, inside the path bound. */
  type StreamPath = path: string | |path| <= STREAM_PATH_BYTES_MAX witness ""

  /** A canonical content type inside its byte bound. */
  type ContentType = text: string | |text| <= CONTENT_TYPE_BYTES_MAX witness ""

  /** A nonzero partition-local stream identity. */
  type StreamUid = uid: nat | uid >= 1 witness 1

  datatype ExpiryPolicy = NoExpiry | SlidingTtl(seconds: nat) | AbsoluteExpiry(timestamp: int)

  datatype Lifecycle = Open | Closed

  datatype DirectoryEntry = Live(uid: StreamUid) | Tombstone(uid: StreamUid)

  datatype StreamRecord = StreamRecord(
    contentType: ContentType,
    expiry: ExpiryPolicy,
    lifecycle: Lifecycle,
    createdAt: nat)

  datatype LedgerCell = Value(record: StreamRecord) | Delete

  /** One already-decided stream mutation. */
  datatype OperationFact =
    | StreamCreated(path: StreamPath, uid: StreamUid, contentType: ContentType,
                    expiry: ExpiryPolicy, lifecycle: Lifecycle)
    | StreamClosed(path: StreamPath, uid: StreamUid)
    | StreamDeleted(path: StreamPath, uid: StreamUid)
  {
    /** Upper estimate of this fact's contribution to a WAL archive. */
    function EstimatedEncodedBytes(): nat {
      WAL_FACT_ENCODED_FIXED_BYTES_MAX +
      match this
      case StreamCreated(path, _, contentType, _, _) => |path| + |contentType|
      case StreamClosed(path, _) => |path|
      case StreamDeleted(path, _) => |path|
    }
  }

  const WAL_ENCODED_BYTES_MAX: nat := 4 * 1024 * 1024
  const WAL_RUN_FACTS_MAX: nat := 4096
  const WAL_RUN_FIXED_ENCODED_BYTES_MAX: nat := 128
  const WAL_FACT_ENCODED_FIXED_BYTES_MAX: nat := 128
  const WAL_FACT_ENCODED_BYTES_ESTIMATE_MAX: nat :=
    WAL_FACT_ENCODED_FIXED_BYTES_MAX + STREAM_PATH_BYTES_MAX + CONTENT_TYPE_BYTES_MAX
  const WRITER_PENDING_COMMANDS_MAX: nat := 4096
  const PARTITION_PATH_OCCUPANCIES_MAX: nat := 10_000_000
  const PARTITION_RESIDENT_LOGICAL_BYTES_MAX: nat := 16 * 1024 * 1024 * 1024
  const DIRECTORY_ROW_LOGICAL_BYTES_MAX: nat := 525
  const LEDGER_VALUE_ROW_LOGICAL_BYTES_MAX: nat := 1035
  const WAL_SUFFIX_COORDINATES_MAX: nat := 1024
  const WAL_SUFFIX_CHECKPOINT_SPAN_TRIGGER: nat := 512
  const PARTITION_BOOTSTRAP_OBJECTS_MAX: nat := 1024
  const PARTITION_BOOTSTRAP_BYTES_MAX: nat := 32 * 1024 * 1024 * 1024
}
