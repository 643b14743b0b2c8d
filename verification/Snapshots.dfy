/** Captured snapshots, their sidecar documents, and what can be read back from a directory. */
module Snapshots {
  import opened Outcomes
  import opened Identity

  datatype Integrity = MetadataOnly | MetadataAndSizes | Checksums

  /** A data file: its part number, its size, and its checksum when checksums are configured. */
  datatype SnapshotFile = SnapshotFile(part: nat, size: nat, checksum: Option<Table>)

  datatype Snapshot = Snapshot(
    key: SnapshotKey,
    fingerprint: Fingerprint,
    content: seq<Table>,
    request: Request,
    provider: string,
    schema: string,
    version: Option<string>,
    files: seq<SnapshotFile>,
    created: Timestamp,
    completed: Timestamp,
    expires: Option<Timestamp>,
    rows: nat,
    bytes: nat,
    queryId: Option<string>,
    providerVersion: Option<string>,
    pinned: bool,
    verified: Option<Timestamp>)
  {
    /** The instant the input was last known to be current. */
    function Observed(): Timestamp {
      verified.GetOr(completed)
    }

    function Source(): SourceId {
      request.source
    }
  }

  // ---------- metadata.json ----------

  datatype ProviderPart = ProviderPart(name: string, connectorVersion: Option<string>)
  datatype RequestPart = RequestPart(projection: Option<seq<string>>, sampling: Sampling, fidelity: string)
  datatype QueryPart = QueryPart(queryId: Option<string>, queryTag: Option<string>)

  datatype Document = Document(
    connectionScope: Scope,
    snapshotKey: SnapshotKey,
    requestFingerprint: Fingerprint,
    contentFingerprint: seq<Table>,
    source: SourceId,
    provider: ProviderPart,
    relation: string,
    request: RequestPart,
    sourceVersion: Option<string>,
    schema: string,
    created: Timestamp,
    completed: Timestamp,
    expires: Option<Timestamp>,
    rows: nat,
    bytes: nat,
    files: seq<SnapshotFile>,
    query: QueryPart,
    pinned: bool)

  function Print(s: Snapshot): Document {
    Document(
      s.request.scope, s.key, s.fingerprint, s.content, s.request.source,
      ProviderPart(s.provider, s.providerVersion), s.request.relation,
      RequestPart(s.request.projection, s.request.sampling, s.request.fidelity),
      s.version, s.schema, s.created, s.completed, s.expires, s.rows, s.bytes, s.files,
      QueryPart(s.queryId, s.request.queryTag), s.pinned)
  }

  /** An empty projection is falsy, and so is read back as no projection. */
  function Truthy(projection: Option<seq<string>>): Option<seq<string>> {
    if projection == Some([]) then None else projection
  }

  function Parse(d: Document): Snapshot {
    Snapshot(
      d.snapshotKey, d.requestFingerprint, d.contentFingerprint,
      Request(d.source, d.relation, d.request.sampling, d.request.fidelity, Truthy(d.request.projection),
              d.query.queryTag, d.connectionScope),
      d.provider.name, d.schema, d.sourceVersion, d.files, d.created, d.completed, d.expires,
      d.rows, d.bytes, d.query.queryId, d.provider.connectorVersion, d.pinned, None)
  }

  /** Metadata reads back exactly, unless the projection is empty or a verification time is present. */
  lemma PrintThenParse(s: Snapshot)
    ensures Parse(Print(s)) == s <==> s.request.projection != Some([]) && s.verified == None
  {
    if s.request.projection == Some([]) {
      assert Parse(Print(s)).request.projection == None;
    }
    if s.verified != None {
      assert Parse(Print(s)).verified == None;
    }
  }

  // ---------- directories ----------

  /** `observation.json`: the receipt of an identical re-read. */
  datatype Receipt = Receipt(key: SnapshotKey, verified: Timestamp, expires: Timestamp)

  /** A snapshot directory; `metadata` is None when metadata.json is missing or unreadable. */
  datatype Directory = Directory(
    metadata: Option<Document>,
    success: bool,
    files: map<nat, Table>,
    observation: Option<Receipt>)

  const EMPTY := Directory(None, false, map[], None)

  function Load(d: Directory): Result<Snapshot> {
    match d.metadata
    case None => Failure(CacheError)
    case Some(document) =>
      var s := Parse(document);
      match d.observation
      case None => Success(s)
      case Some(receipt) =>
        if receipt.key != s.key then Failure(CacheError)
        else Success(s.(verified := Some(receipt.verified), expires := Some(receipt.expires)))
  }

  predicate FileIntact(d: Directory, item: SnapshotFile, integrity: Integrity) {
    && item.part in d.files
    && (integrity != MetadataOnly ==> d.files[item.part].stored == item.size)
    && (integrity == Checksums ==> item.checksum == Some(d.files[item.part]))
  }

  predicate Validates(d: Directory, s: Snapshot, integrity: Integrity) {
    d.success && forall item <- s.files :: FileIntact(d, item, integrity)
  }

  /** What `load` followed by `validate` yields for a directory that may be absent. */
  function Read(d: Option<Directory>, integrity: Integrity): Option<Snapshot> {
    if d.Some? && Load(d.value).Success? && Validates(d.value, Load(d.value).value, integrity)
    then Some(Load(d.value).value)
    else None
  }

  // ---------- what a capture writes ----------

  function FilesOf(content: seq<Table>, integrity: Integrity): seq<SnapshotFile> {
    seq(|content|, i requires 0 <= i < |content| =>
      SnapshotFile(i, content[i].stored, if integrity == Checksums then Some(content[i]) else None))
  }

  function StoredFiles(content: seq<Table>): map<nat, Table> {
    map i: nat | 0 <= i < |content| :: content[i]
  }

  /** The identity recorded in `s` is the one the key digests. */
  predicate Describes(s: Snapshot, key: SnapshotKey) {
    && s.key == key
    && s.fingerprint == key.fingerprint == RequestFingerprint(s.request, s.provider)
    && s.schema == key.schema
    && s.version == key.version
    && s.content == key.content
    && s.rows == SumRows(key.content)
    && s.bytes == SumStored(key.content)
    && s.request.projection != Some([])
  }

  /** Readable metadata is what some capture of `key` wrote; data files may still be damaged. */
  predicate Authentic(d: Directory, key: SnapshotKey) {
    && (d.metadata.Some? ==> Describes(Parse(d.metadata.value), key))
    && (d.observation.Some? ==> d.observation.value.key == key)
  }

  /** A directory exactly as a finished capture of `key` leaves it. */
  predicate Complete(d: Directory, key: SnapshotKey, integrity: Integrity) {
    && Authentic(d, key)
    && d.metadata.Some?
    && d.success
    && d.files == StoredFiles(key.content)
    && Parse(d.metadata.value).files == FilesOf(key.content, integrity)
  }

  lemma CompleteReads(d: Directory, key: SnapshotKey, integrity: Integrity)
    requires Complete(d, key, integrity)
    ensures Read(Some(d), integrity).Some?
    ensures Describes(Read(Some(d), integrity).value, key)
  {
  }

  lemma AuthenticReads(d: Option<Directory>, key: SnapshotKey, integrity: Integrity)
    requires d.Some? ==> Authentic(d.value, key)
    ensures Read(d, integrity).Some? ==> Describes(Read(d, integrity).value, key)
  {
  }

  /**
   What a read detects. A directory with the metadata of a capture reads back if and only if its
   receipt, if there is one, was made for the same snapshot, its success marker and every data file
   are there, and each file is what was captured: of the same size when sizes are checked, and the
   very same contents when checksums are.
   */
  lemma ReadsExactlyWhenIntact(d: Directory, key: SnapshotKey, integrity: Integrity)
    requires d.metadata.Some? && Describes(Parse(d.metadata.value), key)
    requires Parse(d.metadata.value).files == FilesOf(key.content, integrity)
    ensures Read(Some(d), integrity).Some?
            <==> && d.success
                 && (d.observation.Some? ==> d.observation.value.key == key)
                 && forall i :: 0 <= i < |key.content| ==>
                      && i in d.files
                      && (integrity != MetadataOnly ==> d.files[i].stored == key.content[i].stored)
                      && (integrity == Checksums ==> d.files[i] == key.content[i])
  {
    var files := FilesOf(key.content, integrity);
    assert Load(d).Success? ==> Load(d).value.files == files;
    forall i | 0 <= i < |files|
      ensures FileIntact(d, files[i], integrity)
              <==> && i in d.files
                   && (integrity != MetadataOnly ==> d.files[i].stored == key.content[i].stored)
                   && (integrity == Checksums ==> d.files[i] == key.content[i])
    {
    }
    assert (forall item <- files :: FileIntact(d, item, integrity))
      <==> forall i :: 0 <= i < |files| ==> FileIntact(d, files[i], integrity);
  }
}
