/** Every conditional write of the three services. A write is a guard (the transaction's
    condition expressions) and a function from the table before to the table after. */
module Writes {
  import opened Records

  // --------------------------------------------------------- building blocks

  /** Any write of an upload row also puts a record with both images on the stream. */
  function PutUpload(T: Table, u: Id, U: Upload): Table {
    T.(uploads := T.uploads[u := U],
       signals := T.signals[T.next := StreamRecord(u, Find(T.uploads, u), U)],
       pending := T.pending + {T.next},
       next := T.next + 1)
  }

  function PutDocument(T: Table, d: Id, D: Document): Table {
    T.(documents := T.documents[d := D])
  }

  /** The two-row transaction shape: a document and one of its uploads. */
  function PutPair(T: Table, d: Id, D: Document, u: Id, U: Upload): Table {
    PutUpload(PutDocument(T, d, D), u, U)
  }

  /** S3 put or copy; the new version id is `T.next`. */
  function PutObject(T: Table, o: Object): Table {
    T.(objects := T.objects[T.next := o],
       latest := T.latest[o.key := T.next],
       next := T.next + 1)
  }

  function PutStored(T: Table, identity: Identity, hash: RequestHash, body: ReplyBody): Table {
    T.(idempotency := T.idempotency[identity := Stored(hash, body)],
       log := T.log.(effects := T.log.effects + [identity]))
  }

  function PutCommit(T: Table, c: Commit): Table {
    T.(log := T.log.(commits := T.log.commits + [c]))
  }

  function Send(T: Table, s: Signal): Table {
    T.(signals := T.signals[T.next := s], pending := T.pending + {T.next}, next := T.next + 1)
  }

  function Acknowledge(T: Table, signal: Id): Table {
    T.(pending := T.pending - {signal})
  }

  predicate LeaseFree(lease: Option<Lease>, epoch: int) {
    lease.None? || lease.value.expires < epoch
  }

  predicate Holds(lease: Option<Lease>, token: Id) {
    lease.Some? && lease.value.token == token
  }

  // -------------------------------------------------------- upload processor

  /** Only a COMPLETED scan may be recorded as clean; unknown results are failures. */
  function NormalizeVerdict(scanCompleted: bool, raw: Option<Verdict>): Verdict {
    match raw
    case None => ScanFailed
    case Some(Conflict) => ScanFailed
    case Some(Clean) => if scanCompleted then Clean else ScanFailed
    case Some(v) => v
  }

  function PutScan(T: Table, u: Id, version: Id, verdict: Verdict, scanCompleted: bool): Table {
    T.(scans := T.scans[(u, version) := Scan(verdict, scanCompleted)],
       log := T.log.(clean := if verdict.Clean? && scanCompleted then T.log.clean + {(u, version)}
                              else T.log.clean))
  }

  function SetSummary(T: Table, u: Id, verdict: Verdict, version: Id): Table
    requires u in T.uploads
  {
    PutUpload(T, u, T.uploads[u].(scan := Some(verdict), scanVersion := Some(version)))
  }

  predicate CanLeaseValidation(T: Table, u: Id, version: Id) {
    u in T.uploads
    && T.uploads[u].status.Validating?
    && T.uploads[u].completed
    && T.uploads[u].sourceVersion == Some(version)
    && LeaseFree(T.uploads[u].lease, T.clock)
  }

  /** The new token is `T.next`. */
  function LeaseValidation(T: Table, u: Id): Table
    requires u in T.uploads
  {
    var token := T.next;
    var T0 := T.(next := T.next + 1, log := T.log.(validationLease := T.log.validationLease[u := token]));
    PutUpload(T0, u, T.uploads[u].(lease := Some(Lease(token, T.clock + 300))))
  }

  function ScreenObject(u: Id, U: Upload, version: Id): Object
    requires U.run.Some?
  {
    Object(ScreenKey(U.run.value, u), CopyOf(version), Some(Locator(Screen, U.run.value, u, U.document)))
  }

  predicate CanQueue(T: Table, u: Id, run: Id, version: Id, token: Id) {
    u in T.uploads && T.uploads[u].document in T.documents
    && var U, D := T.uploads[u], T.documents[T.uploads[u].document];
    && U.status.Validating? && U.sourceVersion == Some(version) && U.scan == Some(Clean)
    && Holds(U.lease, token)
    && D.currentUpload == Some(u) && D.run == Some(run) && D.status.Validating?
  }

  function CommitQueued(T: Table, u: Id, run: Id, version: Id, token: Id, staged: Ref): Table
    requires CanQueue(T, u, run, version, token)
  {
    var U, d := T.uploads[u], T.uploads[u].document;
    PutCommit(
      PutPair(T,
        d, T.documents[d].(status := Queued, source := Some(Ref(SourceKey(u), version)),
                           screenInput := Some(staged), failureCode := None),
        u, U.(status := Queued, screenInput := Some(staged), lease := None, failureCode := None)),
      Commit(ToQueued, u, run, token, Find(T.log.validationLease, u)))
  }

  predicate CanFailUpload(T: Table, u: Id) {
    u in T.uploads && T.uploads[u].document in T.documents
    && T.documents[T.uploads[u].document].currentUpload == Some(u)
  }

  /** `transition_failure`: no status condition on either row. */
  function FailUpload(T: Table, u: Id, code: Code, disposition: Status, version: Id): Table
    requires CanFailUpload(T, u)
  {
    var U, d := T.uploads[u], T.uploads[u].document;
    PutPair(T,
      d, T.documents[d].(status := disposition, failureCode := Some(code)),
      u, U.(status := disposition, failureCode := Some(code), lease := None,
            scanVersion := if U.scanVersion.Some? then U.scanVersion else Some(version)))
  }

  // ------------------------------------------------------- IDP postprocessor

  predicate CanRegisterRunning(T: Table, k: LookupKey) {
    k in T.lookups ==> T.lookups[k].status.LookupRunning?
  }

  function RegisterRunning(T: Table, k: LookupKey, run: Id, document: Id): Table {
    var marker := if k in T.lookups && T.lookups[k].marker.Some? then T.lookups[k].marker
                  else Some(T.clock);
    T.(lookups := T.lookups[k := Lookup(run, document, LookupRunning, marker)])
  }

  /** A terminal event keeps the marker it finds when it succeeds and removes it when it fails. */
  function EndLookup(T: Table, k: LookupKey, run: Id, document: Id, status: LookupStatus): Table {
    var marker := if status.LookupSucceeded? && k in T.lookups then T.lookups[k].marker else None;
    T.(lookups := T.lookups[k := Lookup(run, document, status, marker)])
  }

  function ClearMarker(T: Table, k: LookupKey): Table {
    if k in T.lookups then T.(lookups := T.lookups[k := T.lookups[k].(marker := None)]) else T
  }

  predicate CanMoveMarker(T: Table, k: LookupKey, current: int) {
    k in T.lookups && T.lookups[k].marker == Some(current)
  }

  function MoveMarker(T: Table, k: LookupKey, marker: Option<int>): Table
    requires k in T.lookups
  {
    T.(lookups := T.lookups[k := T.lookups[k].(marker := marker)])
  }

  predicate CanScreen(status: Status, rowRun: Option<Id>, run: Id) {
    (status.Queued? || status.Screening?) && rowRun == Some(run)
  }

  predicate CanExtract(status: Status, rowRun: Option<Id>, run: Id) {
    status.Extracting? && rowRun == Some(run)
  }

  /** The document half of a RUNNING event; a full-stage event changes no modelled field. */
  function AdvanceDocument(T: Table, d: Id, stage: Stage, run: Id): Table
    requires d in T.documents
  {
    var D := T.documents[d];
    if stage.Screen? && CanScreen(D.status, D.run, run) then
      PutDocument(T, d, D.(status := Screening))
    else
      T
  }

  /** The upload half, a separate write. */
  function AdvanceUpload(T: Table, u: Id, stage: Stage, run: Id): Table
    requires u in T.uploads
  {
    var U := T.uploads[u];
    if stage.Screen? && CanScreen(U.status, U.run, run) then
      PutUpload(T, u, U.(status := Screening))
    else if stage.Full? && CanExtract(U.status, U.run, run) then
      PutUpload(T, u, U)
    else
      T
  }

  predicate StageAllows(stage: Stage, status: Status) {
    match stage
    case Screen => status.Queued? || status.Screening?
    case Full => status.Extracting?
  }

  predicate CanLeasePostprocess(T: Table, d: Id, u: Id, run: Id, stage: Stage) {
    d in T.documents
    && var D := T.documents[d];
    && StageAllows(stage, D.status) && D.currentUpload == Some(u) && D.run == Some(run)
    && LeaseFree(D.lease, T.clock)
  }

  function LeasePostprocess(T: Table, d: Id): Table
    requires d in T.documents
  {
    var token := T.next;
    PutDocument(T, d, T.documents[d].(lease := Some(Lease(token, T.clock + 300)))).(
      next := T.next + 1,
      log := T.log.(postprocessLease := T.log.postprocessLease[d := token]))
  }

  predicate CanHold(T: Table, d: Id, u: Id, run: Id) {
    d in T.documents && u in T.uploads
    && T.documents[d].currentUpload == Some(u) && T.documents[d].run == Some(run)
    && T.uploads[u].run == Some(run)
  }

  /** `transition_status`, always called with HOLD: no status condition on either row. */
  function HoldDocument(T: Table, d: Id, u: Id, code: Code): Table
    requires d in T.documents && u in T.uploads
  {
    PutPair(T,
      d, T.documents[d].(status := Hold, failureCode := Some(code), lease := None),
      u, T.uploads[u].(status := Hold, failureCode := Some(code)))
  }

  predicate CanFailWorkflow(T: Table, d: Id, u: Id, run: Id, stage: Stage) {
    CanHold(T, d, u, run)
    && StageAllows(stage, T.documents[d].status) && StageAllows(stage, T.uploads[u].status)
  }

  function FailWorkflow(
    T: Table, d: Id, u: Id, run: Id, stage: Stage, kind: TerminalKind, execution: nat): Table
    requires d in T.documents && u in T.uploads
  {
    var code := Some(WorkflowEnded(stage, kind));
    EndLookup(
      PutPair(T,
        d, T.documents[d].(status := Failed, failureCode := code, terminalKind := Some(kind),
                           failedExecution := Some(execution), lease := None),
        u, T.uploads[u].(status := Failed, failureCode := code)),
      LookupKey(u, stage, execution), run, d, LookupEnded(kind))
  }

  predicate CanSelect(T: Table, d: Id, u: Id, run: Id, token: Id) {
    CanFailWorkflow(T, d, u, run, Screen) && Holds(T.documents[d].lease, token)
  }

  function CommitSelected(
    T: Table, d: Id, u: Id, run: Id, token: Id, selected: Ref, fullInput: Ref): Table
    requires CanSelect(T, d, u, run, token)
  {
    PutCommit(
      PutPair(T,
        d, T.documents[d].(status := Extracting, selected := Some(selected),
                           fullInput := Some(fullInput), failureCode := None, lease := None),
        u, T.uploads[u].(status := Extracting, selected := Some(selected),
                         fullInput := Some(fullInput), failureCode := None)),
      Commit(ToExtracting, u, run, token, Find(T.log.postprocessLease, d)))
  }

  predicate CanSucceed(T: Table, d: Id, u: Id, run: Id, token: Id) {
    CanFailWorkflow(T, d, u, run, Full) && Holds(T.documents[d].lease, token)
  }

  function CommitSucceeded(T: Table, d: Id, u: Id, run: Id, token: Id, dataPoints: Ref): Table
    requires CanSucceed(T, d, u, run, token)
  {
    PutCommit(
      PutPair(T,
        d, T.documents[d].(status := Succeeded, dataPoints := Some(dataPoints),
                           failureCode := None, lease := None),
        u, T.uploads[u].(status := Succeeded, dataPoints := Some(dataPoints), failureCode := None)),
      Commit(ToSucceeded, u, run, token, Find(T.log.postprocessLease, d)))
  }

  // ---------------------------------------------------------------- loan API

  predicate HeadIs(T: Table, loan: LoanKey, instance: Id) {
    loan in T.heads && T.heads[loan].current == Some(instance) && T.heads[loan].active
  }

  predicate CanCreateLoan(T: Table, loan: LoanKey, identity: Identity) {
    (loan in T.heads ==> T.heads[loan].current.None?) && identity !in T.idempotency
  }

  /** The new instance is `T.next`. */
  function Activated(T: Table, loan: LoanKey): Table {
    var head := if loan in T.heads then T.heads[loan] else Head(None, false, 0, 0);
    T.(next := T.next + 1,
       heads := T.heads[loan := Head(Some(T.next), true, head.lastArchive, head.revision + 1)],
       instances := T.instances[T.next := Instance(loan, true)])
  }

  function CreateLoan(T: Table, loan: LoanKey, identity: Identity, hash: RequestHash): Table {
    PutStored(Activated(T, loan), identity, hash, LoanCreated(loan, T.next))
  }

  lemma CreateLoanIs(T: Table, loan: LoanKey, identity: Identity, hash: RequestHash)
    ensures CreateLoan(T, loan, identity, hash) ==
      PutStored(Activated(T, loan), identity, hash, LoanCreated(loan, T.next))
  {
  }

  function NewUpload(d: Id): Upload {
    Upload(d, AwaitingUpload, false, None, None, None, None, None, None, None, None, None, None)
  }

  function NewDocument(instance: Id, u: Id): Document {
    Document(instance, AwaitingUpload, Some(u), None, None, None, None, None, None, None, None,
             None, None, 0)
  }

  predicate CanCreateDocument(T: Table, loan: LoanKey, instance: Id, identity: Identity) {
    HeadIs(T, loan, instance) && identity !in T.idempotency
  }

  /** A document row and a fresh upload of it, numbered in the order of creation. */
  function Born(T: Table, d: Id, D: Document, u: Id, next: Id): Table {
    var born := if d in T.log.born then T.log.born[d] else [];
    PutPair(
      T.(next := next,
         log := T.log.(born := T.log.born[d := born + [u]], ordinal := T.log.ordinal[u := |born|])),
      d, D, u, NewUpload(d))
  }

  /** The new document is `T.next`, its first upload `T.next + 1`. */
  function CreateDocument(T: Table, instance: Id, identity: Identity, hash: RequestHash): Table {
    var d, u := T.next, T.next + 1;
    PutStored(Born(T, d, NewDocument(instance, u), u, T.next + 2), identity, hash, UploadSession(d, u))
  }

  lemma CreateDocumentIs(T: Table, instance: Id, identity: Identity, hash: RequestHash)
    ensures CreateDocument(T, instance, identity, hash) ==
      PutStored(Born(T, T.next, NewDocument(instance, T.next + 1), T.next + 1, T.next + 2),
                identity, hash, UploadSession(T.next, T.next + 1))
  {
  }

  predicate CanReplace(T: Table, loan: LoanKey, instance: Id, d: Id, identity: Identity) {
    HeadIs(T, loan, instance) && identity !in T.idempotency
    && d in T.documents && T.documents[d].instance == instance
    && T.documents[d].status.Archived? && T.documents[d].currentUpload.None?
  }

  /** The screen and full inputs, and an old lease, stay on the document row. */
  function Replace(T: Table, d: Id, identity: Identity, hash: RequestHash): Table
    requires d in T.documents
  {
    var u := T.next;
    PutStored(Born(T, d, Renewed(T.documents[d], u), u, T.next + 1), identity, hash, UploadSession(d, u))
  }

  lemma ReplaceIs(T: Table, d: Id, identity: Identity, hash: RequestHash)
    requires d in T.documents
    ensures Replace(T, d, identity, hash) ==
      PutStored(Born(T, d, Renewed(T.documents[d], T.next), T.next, T.next + 1),
                identity, hash, UploadSession(d, T.next))
  {
  }

  function Renewed(D: Document, u: Id): Document {
    D.(status := AwaitingUpload, currentUpload := Some(u), run := None, failureCode := None,
       source := None, selected := None, dataPoints := None)
  }

  predicate CanComplete(T: Table, d: Id, u: Id, identity: Identity) {
    u in T.uploads && d in T.documents && identity !in T.idempotency
    && !T.uploads[u].completed && T.uploads[u].status.AwaitingUpload?
    && T.documents[d].currentUpload == Some(u) && T.documents[d].status.AwaitingUpload?
  }

  /** The new run is `T.next`. */
  function Completed(T: Table, d: Id, u: Id, version: Id): Table
    requires d in T.documents && u in T.uploads
  {
    PutPair(
      T.(next := T.next + 1, log := T.log.(runOf := T.log.runOf[T.next := u])),
      d, T.documents[d].(status := Validating, run := Some(T.next)),
      u, T.uploads[u].(status := Validating, completed := true, run := Some(T.next),
                       sourceVersion := Some(version)))
  }

  function CompleteUpload(
    T: Table, d: Id, u: Id, version: Id, identity: Identity, hash: RequestHash): Table
    requires CanComplete(T, d, u, identity)
  {
    PutStored(Completed(T, d, u, version), identity, hash, UploadCompleted(d, u, T.next, Validating))
  }

  predicate CanArchiveDocument(T: Table, d: Id, seen: Document, identity: Identity) {
    d in T.documents && identity !in T.idempotency
    && T.documents[d].currentUpload == seen.currentUpload
    && T.documents[d].lastArchive == seen.lastArchive
    && T.documents[d].status == seen.status
    && (d, seen.lastArchive + 1) !in T.archives
  }

  lemma CanBury(T: Table, d: Id, seen: Document, identity: Identity)
    requires CanArchiveDocument(T, d, seen, identity)
    ensures d in T.documents
  {
  }

  /** The archive row is built from the document as it was read earlier. */
  function RowOf(seen: Document): DocumentArchive
    requires seen.currentUpload.Some?
  {
    DocumentArchive(seen.currentUpload.value, seen.run, seen.source, seen.selected,
                    seen.dataPoints, seen.failureCode)
  }

  function Buried(T: Table, d: Id, seen: Document): Table
    requires d in T.documents && seen.currentUpload.Some?
  {
    PutDocument(T, d, T.documents[d].(status := Archived, lastArchive := seen.lastArchive + 1,
                                      currentUpload := None)).(
      archives := T.archives[(d, seen.lastArchive + 1) := RowOf(seen)])
  }

  function ArchiveDocument(
    T: Table, d: Id, seen: Document, identity: Identity, hash: RequestHash): Table
    requires d in T.documents && seen.currentUpload.Some?
  {
    PutStored(Buried(T, d, seen), identity, hash,
              DocumentArchived(d, seen.currentUpload.value, seen.lastArchive + 1))
  }

  lemma ArchiveDocumentIs(
    T: Table, d: Id, seen: Document, identity: Identity, hash: RequestHash)
    requires d in T.documents && seen.currentUpload.Some?
    ensures ArchiveDocument(T, d, seen, identity, hash) ==
      PutStored(Buried(T, d, seen), identity, hash,
                DocumentArchived(d, seen.currentUpload.value, seen.lastArchive + 1))
  {
  }

  predicate CanArchiveLoan(
    T: Table, loan: LoanKey, instance: Id, lastArchive: nat, identity: Identity) {
    HeadIs(T, loan, instance) && T.heads[loan].lastArchive == lastArchive
    && instance in T.instances && T.instances[instance].active
    && (loan, lastArchive + 1) !in T.loanArchives && identity !in T.idempotency
  }

  /** HEAD moves on to the next archive number and lets go of its instance. */
  function HeadClosed(T: Table, loan: LoanKey, instance: Id): Table
    requires loan in T.heads && instance in T.instances
  {
    T.(heads := T.heads[loan := Head(None, false, T.heads[loan].lastArchive + 1, T.heads[loan].revision + 1)],
       instances := T.instances[instance := T.instances[instance].(active := false)])
  }

  /** The outbox event is `T.next`. */
  function ArchiveRecorded(
    T: Table, loan: LoanKey, instance: Id, sequence: nat, manifest: Manifest, bytes: Bytes, stored: Ref): Table
  {
    T.(next := T.next + 1,
       loanArchives := T.loanArchives[(loan, sequence) :=
         LoanArchive(instance, |manifest.documents|, stored, Sha256(bytes))],
       outbox := T.outbox[T.next := OutboxEvent(loan, instance, sequence)],
       log := ArchiveLogged(T.log, loan, instance, sequence, T.next, manifest))
  }

  function ArchiveLogged(log: Log, loan: LoanKey, instance: Id, sequence: nat, event: Id, manifest: Manifest): Log {
    log.(archivedAs := log.archivedAs[instance := sequence],
         eventOf := log.eventOf[(loan, sequence) := event],
         manifests := log.manifests[(loan, sequence) := manifest])
  }

  function Retired(
    T: Table, loan: LoanKey, instance: Id, manifest: Manifest, bytes: Bytes, stored: Ref): Table
    requires loan in T.heads && instance in T.instances
  {
    ArchiveRecorded(HeadClosed(T, loan, instance), loan, instance, T.heads[loan].lastArchive + 1,
                    manifest, bytes, stored)
  }

  function ArchiveLoan(
    T: Table, loan: LoanKey, instance: Id, manifest: Manifest, bytes: Bytes, stored: Ref,
    identity: Identity, hash: RequestHash): Table
    requires loan in T.heads && instance in T.instances
  {
    PutStored(Retired(T, loan, instance, manifest, bytes, stored), identity, hash,
      LoanArchived(loan, instance, T.heads[loan].lastArchive + 1, |manifest.documents|))
  }

  lemma ArchiveLoanIs(
    T: Table, loan: LoanKey, instance: Id, manifest: Manifest, bytes: Bytes, stored: Ref,
    identity: Identity, hash: RequestHash)
    requires loan in T.heads && instance in T.instances
    ensures ArchiveLoan(T, loan, instance, manifest, bytes, stored, identity, hash) ==
      PutStored(Retired(T, loan, instance, manifest, bytes, stored), identity, hash,
        LoanArchived(loan, instance, T.heads[loan].lastArchive + 1, |manifest.documents|))
  {
  }

  function SendReply(T: Table, identity: Identity, hash: RequestHash, body: ReplyBody): Table {
    T.(log := T.log.(replies := T.log.replies + {Reply(identity, hash, body)}))
  }
}
