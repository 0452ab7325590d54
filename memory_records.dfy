/**
  The records the hooks read from and write to the memory store.

  A stored memory carries a metadata dictionary whose keys are optional;
  here it is a record with one optional field per key the core reads.
  Every field holds a value of the type the writer of the store gives it.
*/
module MemoryRecords {
  import opened Support

  /** The four importance tiers, `importance_category` in the store. */
  datatype Tier = Critical | High | Medium | Low

  /** The decoded `artifacts` entry; only `file_paths` is read by the core. */
  datatype Artifacts = Artifacts(filePaths: seq<string>)

  datatype Metadata = Metadata(
    sessionId: Option<string>,
    timestamp: Option<string>,
    intent: Option<string>,
    action: Option<string>,
    outcome: Option<string>,
    importanceScore: Option<real>,
    importanceCategory: Option<Tier>,
    toolCount: Option<int>,
    artifacts: Option<Artifacts>)

  /** A metadata dictionary with no keys. */
  const EmptyMetadata := Metadata(None, None, None, None, None, None, None, None, None)

  /** `d.get(key, default)` on a dictionary entry. */
  function GetOr<T>(o: Option<T>, default: T): T
  {
    if o.Some? then o.value else default
  }

  /** One row of the store: id, document, metadata and embedding. */
  datatype StoredMemory = StoredMemory(id: string, document: string, metadata: Metadata, embedding: seq<real>)

  /** The rows `collection.get(where={"session_id": s})` returns, in store order. */
  function SessionRows(store: seq<StoredMemory>, session: string): seq<StoredMemory>
  {
    Filter(store, (m: StoredMemory) => m.metadata.sessionId == Some(session))
  }

  function IdsOf(ms: seq<StoredMemory>): seq<string>
  {
    seq(|ms|, i requires 0 <= i < |ms| => ms[i].id)
  }

  /** The store never holds two rows with one id. */
  ghost predicate DistinctIds(ms: seq<StoredMemory>)
  {
    forall i, j :: 0 <= i < j < |ms| ==> ms[i].id != ms[j].id
  }

  /**
    The clock: "now" in microseconds and `datetime.fromisoformat`, which
    yields the instant in microseconds or fails (`None`), also when the
    result could not be subtracted from a naive "now".
  */
  datatype Clock = Clock(now: int, parse: string -> Option<int>)

  const MicrosPerDay: int := 86_400_000_000

  /**
    `(now - datetime.fromisoformat(ts)).days` when `ts` is a non-empty
    string that parses; `timedelta.days` rounds down, as `/` does here.
  */
  function AgeDays(clock: Clock, ts: Option<string>): (r: Option<int>)
    ensures r.Some? <==> ts.Some? && ts.value != "" && clock.parse(ts.value).Some?
  {
    if ts.Some? && ts.value != "" && clock.parse(ts.value).Some? then
      Some((clock.now - clock.parse(ts.value).value) / MicrosPerDay)
    else None
  }

  /** The age is the number of whole days elapsed, rounded down. */
  lemma AgeDaysWhole(clock: Clock, ts: Option<string>)
    requires AgeDays(clock, ts).Some?
    ensures var d := AgeDays(clock, ts).value;
      d * MicrosPerDay <= clock.now - clock.parse(ts.value).value < (d + 1) * MicrosPerDay
  {
  }
}
