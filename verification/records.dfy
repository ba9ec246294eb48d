/** The registry's records: one DynamoDB table, one versioned object store, the two signal
    sources of the upload processor, and a log of what has ever been committed or replied. */
module Records {

  datatype Option<+T> = None | Some(value: T)

  /** Identifiers that `uuid4` or S3 hand out: never reused, so a counter stands for them. */
  type Id = nat

  datatype LoanKey = LoanKey(tenant: nat, loanId: nat)

  // ---------------------------------------------------------------- statuses

  datatype Status =
    | AwaitingUpload | Validating | Queued | Screening | Extracting
    | Succeeded | Hold | Rejected | Failed
    | Archived

  /** Position in the pipeline; the four terminal statuses share one rank. */
  function Rank(s: Status): nat {
    match s
    case AwaitingUpload => 0
    case Validating => 1
    case Queued => 2
    case Screening => 3
    case Extracting => 4
    case Archived => 6
    case _ => 5
  }

  predicate Terminal(s: Status) {
    s.Succeeded? || s.Hold? || s.Rejected? || s.Failed?
  }

  /** A status that can only be reached through `commit_queued`. */
  predicate Admitted(s: Status) {
    s.Queued? || s.Screening? || s.Extracting? || s.Succeeded?
  }

  /** The upload processor's own terminal set; it lacks SCREENING. */
  predicate UploadTerminal(s: Status) {
    s.Queued? || s.Extracting? || Terminal(s)
  }

  datatype Stage = Screen | Full
  datatype TerminalKind = ExecutionFailed | TimedOut | Aborted
  datatype Verdict = Clean | Threats | Unsupported | AccessDenied | ScanFailed | Conflict

  /** Failure codes; `detail` stands for the literal code strings the code raises. */
  datatype Code =
    | MalwareDetected
    | ScanConflict
    | ScanInconclusive(verdict: Verdict)
    | InvalidObject(detail: nat)
    | WorkflowEnded(stage: Stage, kind: TerminalKind)
    | IdpHold(detail: nat)

  // ----------------------------------------------------------- object store

  datatype ObjectKey =
    | SourceKey(upload: Id)
    | ScreenKey(run: Id, upload: Id)
    | FullKey(run: Id, upload: Id)
    | SelectedKey(run: Id)
    | DataPointsKey(run: Id)
    | ManifestKey(instance: Id, sequence: nat)

  datatype Ref = Ref(key: ObjectKey, version: Id)

  /** The S3 metadata that routes a workflow back to its registry rows. */
  datatype Locator = Locator(stage: Stage, run: Id, upload: Id, document: Id)

  datatype ManifestDocument = ManifestDocument(
    documentId: Id, status: Status, upload: Option<Id>, run: Option<Id>,
    source: Option<Ref>, selected: Option<Ref>, dataPoints: Option<Ref>)

  datatype Manifest = Manifest(
    tenant: nat, loanId: nat, instance: Id, sequence: nat, documents: seq<ManifestDocument>)

  /** Serialized bytes. A JSON text remembers what it parses to; `length` is its byte count. */
  datatype Bytes = Json(parsed: Manifest, length: nat) | Opaque(tag: nat, length: nat)

  /** SHA-256, taken to be injective. */
  datatype Digest = Sha256(of: Bytes)

  datatype Content =
    | Uploaded(tag: nat)
    | CopyOf(version: Id)
    | PagesOf(version: Id, pages: seq<nat>)
    | Extracted(run: Id)
    | Body(bytes: Bytes)

  datatype Object = Object(key: ObjectKey, content: Content, locator: Option<Locator>)

  // ------------------------------------------------------------------- rows

  datatype Lease = Lease(token: Id, expires: int)

  datatype Upload = Upload(
    document: Id,
    status: Status,
    completed: bool,
    run: Option<Id>,
    sourceVersion: Option<Id>,
    scan: Option<Verdict>,
    scanVersion: Option<Id>,
    lease: Option<Lease>,
    failureCode: Option<Code>,
    screenInput: Option<Ref>,
    selected: Option<Ref>,
    fullInput: Option<Ref>,
    dataPoints: Option<Ref>)

  datatype Document = Document(
    instance: Id,
    status: Status,
    currentUpload: Option<Id>,
    run: Option<Id>,
    source: Option<Ref>,
    screenInput: Option<Ref>,
    selected: Option<Ref>,
    fullInput: Option<Ref>,
    dataPoints: Option<Ref>,
    lease: Option<Lease>,
    failureCode: Option<Code>,
    terminalKind: Option<TerminalKind>,
    failedExecution: Option<nat>,
    lastArchive: nat)

  datatype DocumentArchive = DocumentArchive(
    upload: Id, run: Option<Id>,
    source: Option<Ref>, selected: Option<Ref>, dataPoints: Option<Ref>,
    failureCode: Option<Code>)

  datatype Scan = Scan(verdict: Verdict, scanCompleted: bool)

  datatype LookupKey = LookupKey(upload: Id, stage: Stage, execution: nat)
  datatype LookupStatus = LookupRunning | LookupSucceeded | LookupEnded(kind: TerminalKind)
  datatype Lookup = Lookup(run: Id, document: Id, status: LookupStatus, marker: Option<int>)

  datatype Head = Head(current: Option<Id>, active: bool, lastArchive: nat, revision: nat)
  datatype Instance = Instance(loan: LoanKey, active: bool)
  datatype LoanArchive = LoanArchive(
    instance: Id, documentCount: nat, manifest: Ref, checksum: Digest)
  datatype OutboxEvent = OutboxEvent(loan: LoanKey, instance: Id, sequence: nat)

  // ----------------------------------------------------------- idempotency

  datatype Path =
    | LoansPath
    | DocumentsPath(loan: LoanKey)
    | UploadsPath(loan: LoanKey, document: Id)
    | CompletePath(loan: LoanKey, document: Id, upload: Id)
    | ArchiveDocumentPath(loan: LoanKey, document: Id)
    | ArchiveLoanPath(loan: LoanKey)

  /** Tenant, actor, route hash and client key: the primary key of an idempotency row. */
  datatype Identity = Identity(actor: nat, path: Path, key: nat)

  /** `loan` is the loan id of a create-loan body; `tag` is every other body byte. */
  datatype RequestBody = RequestBody(loan: LoanKey, tag: nat)
  datatype RequestHash = RequestHash(path: Path, body: RequestBody)

  datatype ReplyBody =
    | LoanCreated(loan: LoanKey, instance: Id)
    | UploadSession(document: Id, upload: Id)
    | UploadCompleted(document: Id, upload: Id, run: Id, status: Status)
    | DocumentArchived(document: Id, upload: Id, sequence: nat)
    | LoanArchived(loan: LoanKey, instance: Id, sequence: nat, documentCount: nat)

  datatype Stored = Stored(hash: RequestHash, body: ReplyBody)
  datatype Reply = Reply(identity: Identity, hash: RequestHash, body: ReplyBody)

  // ---------------------------------------------------------------- signals

  /** What can start the upload processor. A raw verdict of None is an unknown string. */
  datatype Signal =
    | GuardDuty(upload: Id, version: Id, scanCompleted: bool, raw: Option<Verdict>)
    | ClientComplete(upload: Id, version: Id)
    | StreamRecord(upload: Id, old_: Option<Upload>, new_: Upload)

  // -------------------------------------------------------------------- log

  datatype CommitKind = ToQueued | ToExtracting | ToSucceeded

  datatype Commit = Commit(kind: CommitKind, upload: Id, run: Id, token: Id, latest: Option<Id>)

  /** What has happened so far. No service reads it; the claims are stated against it. */
  datatype Log = Log(
    born: map<Id, seq<Id>>,                    // uploads ever created for a document, in order
    ordinal: map<Id, nat>,                     // place of an upload in its document's list
    runOf: map<Id, Id>,                        // the upload a run id was issued for
    clean: set<(Id, Id)>,                      // versions once recorded COMPLETED and clean
    commits: seq<Commit>,                      // fenced commits
    validationLease: map<Id, Id>,              // last token issued for an upload
    postprocessLease: map<Id, Id>,             // last token issued for a document
    archivedAs: map<Id, nat>,                  // sequence an instance was archived under
    eventOf: map<(LoanKey, nat), Id>,          // outbox event of a loan archive
    manifests: map<(LoanKey, nat), Manifest>,  // what the committing attempt serialized
    effects: seq<Identity>,                    // identities whose transaction took effect
    replies: set<Reply>)                       // successful replies sent

  // ------------------------------------------------------------------ table

  /** One atomic snapshot of everything the services share. `clock` is whatever epoch the
      next reader sees; nothing below assumes that it only moves forward. */
  datatype Table = Table(
    next: Id,
    clock: int,
    heads: map<LoanKey, Head>,
    instances: map<Id, Instance>,
    loanArchives: map<(LoanKey, nat), LoanArchive>,
    outbox: map<Id, OutboxEvent>,
    documents: map<Id, Document>,
    uploads: map<Id, Upload>,
    archives: map<(Id, nat), DocumentArchive>,
    scans: map<(Id, Id), Scan>,
    lookups: map<LookupKey, Lookup>,
    idempotency: map<Identity, Stored>,
    objects: map<Id, Object>,
    latest: map<ObjectKey, Id>,
    signals: map<Id, Signal>,
    pending: set<Id>,
    log: Log)

  const EMPTY_LOG := Log(map[], map[], map[], {}, [], map[], map[], map[], map[], map[], [], {})

  const EMPTY_TABLE := Table(
    0, 0, map[], map[], map[], map[], map[], map[], map[], map[], map[], map[], map[], map[],
    map[], {}, EMPTY_LOG)

  /** A map lookup that reports absence. */
  function Find<K, V>(m: map<K, V>, k: K): Option<V> {
    if k in m then Some(m[k]) else None
  }

  /** `m'` keeps every row of `m` unchanged. */
  ghost predicate Extends<K, V>(m: map<K, V>, m': map<K, V>) {
    forall k :: k in m ==> k in m' && m'[k] == m[k]
  }
}
