/** What a step of any run may do to the status of a document or an upload, told on the rows alone: which
    moves there are, what the rows must show before each, and all that each writes on them. */
module StatusMoves {
  import opened Records
  import opened Writes
  import opened Invariant
  import opened Preservation
  import opened System
  import opened History
  import opened Events
  import Up = UploadProcessor
  import Idp = IdpPostprocessor
  import Api = LoanApi

  // ------------------------------------------------------------------ the moves

  /** The client's completion binds the upload to a version and a run. */
  predicate Pins(D: Document, U: Upload, D': Document, U': Upload, u: Id) {
    && D.status == AwaitingUpload && U.status == AwaitingUpload && !U.completed && D.currentUpload == Some(u)
    && U'.run.Some? && U'.sourceVersion.Some?
    && U' == U.(status := Validating, completed := true, run := U'.run, sourceVersion := U'.sourceVersion)
    && D' == D.(status := Validating, run := U'.run)
  }

  /** Only a completed upload whose summary says clean is queued, by the holder of its lease. */
  predicate Queues(D: Document, U: Upload, D': Document, U': Upload, u: Id) {
    && D.status == Validating && U.status == Validating && U.completed && U.scan == Some(Clean) && U.lease.Some?
    && D.currentUpload == Some(u) && U.run.Some? && D.run == U.run && U.sourceVersion.Some? && U'.screenInput.Some?
    && U' == U.(status := Queued, screenInput := U'.screenInput, lease := None, failureCode := None)
    && D' == D.(status := Queued, source := Some(Ref(SourceKey(u), U.sourceVersion.value)),
                screenInput := U'.screenInput, failureCode := None)
  }

  predicate OfOneRun(D: Document, U: Upload, u: Id) {
    D.currentUpload == Some(u) && U.run.Some? && D.run == U.run
  }

  /** Screening is over: pages are selected and go on, by the holder of the document's lease. */
  predicate Selects(D: Document, U: Upload, D': Document, U': Upload, u: Id) {
    && D.status in {Queued, Screening} && U.status in {Queued, Screening} && OfOneRun(D, U, u) && D.lease.Some?
    && U'.selected.Some? && U'.fullInput.Some?
    && U' == U.(status := Extracting, selected := U'.selected, fullInput := U'.fullInput, failureCode := None)
    && D' == D.(status := Extracting, selected := U'.selected, fullInput := U'.fullInput, failureCode := None,
                lease := None)
  }

  /** Extraction is over, by the holder of the document's lease. */
  predicate Finishes(D: Document, U: Upload, D': Document, U': Upload, u: Id) {
    && D.status == Extracting && U.status == Extracting && OfOneRun(D, U, u) && D.lease.Some?
    && U'.dataPoints.Some?
    && U' == U.(status := Succeeded, dataPoints := U'.dataPoints, failureCode := None)
    && D' == D.(status := Succeeded, dataPoints := U'.dataPoints, failureCode := None, lease := None)
  }

  /** A workflow of the stage that both rows are at has failed. */
  predicate Fails(D: Document, U: Upload, D': Document, U': Upload, u: Id) {
    && OfOneRun(D, U, u) && D'.terminalKind.Some? && D'.failedExecution.Some?
    && (|| (D.status in {Queued, Screening} && U.status in {Queued, Screening}
            && D'.failureCode == Some(WorkflowEnded(Screen, D'.terminalKind.value)))
        || (D.status == Extracting && U.status == Extracting
            && D'.failureCode == Some(WorkflowEnded(Full, D'.terminalKind.value))))
    && U' == U.(status := Failed, failureCode := D'.failureCode)
    && D' == D.(status := Failed, failureCode := D'.failureCode, terminalKind := D'.terminalKind,
                failedExecution := D'.failedExecution, lease := None)
  }

  /** A current upload is rejected or held, from any status and with its document. */
  predicate Stops(D: Document, U: Upload, D': Document, U': Upload, u: Id) {
    && D.currentUpload == Some(u) && D'.status in {Rejected, Hold} && D'.failureCode.Some?
    && U' == U.(status := D'.status, failureCode := D'.failureCode, lease := U'.lease, scanVersion := U'.scanVersion)
    && D' == D.(status := D'.status, failureCode := D'.failureCode, lease := D'.lease)
  }

  predicate Together(D: Document, U: Upload, D': Document, U': Upload, u: Id) {
    || Pins(D, U, D', U', u) || Queues(D, U, D', U', u) || Selects(D, U, D', U', u)
    || Finishes(D, U, D', U', u) || Fails(D, U, D', U', u) || Stops(D, U, D', U', u)
  }

  /** The upload and its document move in one transaction. */
  predicate MoveTogether(T: Table, T': Table, d: Id, u: Id) {
    && d in T.documents && d in T'.documents && u in T.uploads && u in T'.uploads
    && Together(T.documents[d], T.uploads[u], T'.documents[d], T'.uploads[u], u)
  }

  /** A running workflow brings a row from QUEUED to SCREENING by itself. */
  predicate UploadScreens(U: Upload, U': Upload) {
    U.status == Queued && U.run.Some? && U' == U.(status := Screening)
  }

  predicate DocumentScreens(D: Document, D': Document) {
    D.status == Queued && D.run.Some? && D' == D.(status := Screening)
  }

  /** A document with a current upload that is over is archived. */
  predicate Buries(D: Document, D': Document) {
    && D.status in {Succeeded, Hold, Rejected, Failed} && D.currentUpload.Some?
    && D' == D.(status := Archived, lastArchive := D.lastArchive + 1, currentUpload := None)
  }

  /** An archived document gets its next upload, and nothing of the last one but its old inputs stays. */
  predicate Renews(D: Document, D': Document) {
    && D.status == Archived && D.currentUpload == None && D'.currentUpload.Some?
    && D' == D.(status := AwaitingUpload, currentUpload := D'.currentUpload, run := None, failureCode := None,
                source := None, selected := None, dataPoints := None)
  }

  ghost predicate UploadMoves(T: Table, T': Table, u: Id)
    requires u in T.uploads
  {
    && u in T'.uploads
    && var U, U' := T.uploads[u], T'.uploads[u];
    U'.status == U.status || UploadScreens(U, U') || exists d :: MoveTogether(T, T', d, u)
  }

  ghost predicate DocumentMoves(T: Table, T': Table, d: Id)
    requires d in T.documents
  {
    && d in T'.documents
    && var D, D' := T.documents[d], T'.documents[d];
    || D'.status == D.status || DocumentScreens(D, D') || Buries(D, D') || Renews(D, D')
    || exists u :: MoveTogether(T, T', d, u)
  }

  ghost predicate Moves(T: Table, T': Table) {
    && (forall u :: u in T.uploads ==> UploadMoves(T, T', u))
    && (forall d :: d in T.documents ==> DocumentMoves(T, T', d))
  }

  // ---------------------------------------------------------------- write by write

  /** No row changes its status. */
  predicate Still(T: Table, T': Table) {
    && (forall u :: u in T.uploads ==> u in T'.uploads && T'.uploads[u].status == T.uploads[u].status)
    && (forall d :: d in T.documents ==> d in T'.documents && T'.documents[d].status == T.documents[d].status)
  }

  lemma StillMoves(T: Table, T': Table)
    requires Still(T, T')
    ensures Moves(T, T')
  {
  }

  lemma SameRowsStill(T: Table, T': Table)
    requires T'.documents == T.documents && T'.uploads == T.uploads
    ensures Moves(T, T')
  {
    StillMoves(T, T');
  }

  lemma PairMoves(T: Table, T': Table, d: Id, D': Document, u: Id, U': Upload)
    requires d in T.documents && u in T.uploads
    requires T'.documents == T.documents[d := D'] && T'.uploads == T.uploads[u := U']
    requires Together(T.documents[d], T.uploads[u], D', U', u)
    ensures Moves(T, T')
  {
    hide Together;
    assert MoveTogether(T, T', d, u);
  }

  lemma UploadAlone(T: Table, T': Table, u: Id, U': Upload)
    requires u in T.uploads && T'.documents == T.documents && T'.uploads == T.uploads[u := U']
    requires U'.status == T.uploads[u].status || UploadScreens(T.uploads[u], U')
    ensures Moves(T, T')
  {
    hide MoveTogether;
  }

  lemma DocumentAlone(T: Table, T': Table, d: Id, D': Document)
    requires d in T.documents && T'.uploads == T.uploads && T'.documents == T.documents[d := D']
    requires var D := T.documents[d];
      D'.status == D.status || DocumentScreens(D, D') || Buries(D, D')
    ensures Moves(T, T')
  {
    hide MoveTogether;
  }

  /** A new upload, of a new document or of an archived one. */
  lemma BirthMoves(T: Table, T': Table, d: Id, D': Document, u: Id, U': Upload)
    requires u !in T.uploads && T'.documents == T.documents[d := D'] && T'.uploads == T.uploads[u := U']
    requires d in T.documents ==> Renews(T.documents[d], D')
    ensures Moves(T, T')
  {
    hide MoveTogether;
  }

  // --- upload processor

  lemma QueueMoves(T: Table, u: Id, run: Id, version: Id, token: Id, staged: Ref)
    requires Inv(T) && CanQueue(T, u, run, version, token)
    ensures Moves(T, CommitQueued(T, u, run, version, token, staged))
  {
    UploadHolds(T, u);
    DocumentHolds(T, T.uploads[u].document);
    hide Inv, Moves;
    var d := T.uploads[u].document;
    var T' := CommitQueued(T, u, run, version, token, staged);
    PairMoves(T, T', d, T'.documents[d], u, T'.uploads[u]);
  }

  lemma FailMoves(T: Table, u: Id, code: Code, disposition: Status, version: Id)
    requires CanFailUpload(T, u) && (disposition.Rejected? || disposition.Hold?)
    ensures Moves(T, FailUpload(T, u, code, disposition, version))
  {
    hide Moves;
    var d := T.uploads[u].document;
    var T' := FailUpload(T, u, code, disposition, version);
    PairMoves(T, T', d, T'.documents[d], u, T'.uploads[u]);
  }

  lemma FinishingWrites(T: Table, t: Up.Invocation, T': Table, n: Option<Up.Invocation>)
    requires !Up.Scanning(t) && !Up.Leasing(t) && Up.Steps(T, t, T', n) && T' != T
    ensures t.Queue? || t.Fail? || t.Return?
    ensures t.Queue? ==>
      && t.snap.run.Some? && CanQueue(T, t.u, t.snap.run.value, t.version, t.token)
      && T' == CommitQueued(T, t.u, t.snap.run.value, t.version, t.token, t.staged)
    ensures t.Fail? ==> CanFailUpload(T, t.u) && T' == FailUpload(T, t.u, t.code, t.disposition, t.version)
    ensures t.Return? ==> T' == Acknowledge(T, t.signal)
  {
    hide CommitQueued, FailUpload, Acknowledge;
  }

  lemma SummaryMoves(T: Table, u: Id, verdict: Verdict, version: Id)
    requires u in T.uploads
    ensures Moves(T, SetSummary(T, u, verdict, version))
  {
    hide Moves;
    UploadAlone(T, SetSummary(T, u, verdict, version), u,
                T.uploads[u].(scan := Some(verdict), scanVersion := Some(version)));
  }

  lemma LeaseMoves(T: Table, u: Id)
    requires u in T.uploads
    ensures Moves(T, LeaseValidation(T, u))
  {
    hide Moves;
    UploadAlone(T, LeaseValidation(T, u), u, T.uploads[u].(lease := Some(Lease(T.next, T.clock + 300))));
  }

  lemma UpMoves(T: Table, t: Up.Invocation, T': Table, n: Option<Up.Invocation>)
    requires Inv(T) && Up.LocalsOk(T, t) && Up.Steps(T, t, T', n)
    ensures Moves(T, T')
  {
    hide Inv, Moves, Up.Steps, LeaseValidation, CommitQueued, CanQueue, FailUpload, CanFailUpload, SetSummary,
         CanLeaseValidation;
    if T' == T {
      SameRowsStill(T, T');
    } else if Up.Scanning(t) {
      Up.ScanningWrites(T, t, T', n);
      if t.ScanPut? { SameRowsStill(T, T'); } else { SummaryMoves(T, t.u, t.verdict, t.version); }
    } else if Up.Leasing(t) {
      Up.LeasingWrites(T, t, T', n);
      if t.LeaseTry? {
        LeasedExists(T, t.u, t.version);
        LeaseMoves(T, t.u);
      } else {
        SameRowsStill(T, T');
      }
    } else {
      FinishingWrites(T, t, T', n);
      if t.Queue? { QueueMoves(T, t.u, t.snap.run.value, t.version, t.token, t.staged); }
      else if t.Fail? { FailMoves(T, t.u, t.code, t.disposition, t.version); }
      else { SameRowsStill(T, T'); }
    }
  }

  lemma LeasedExists(T: Table, u: Id, version: Id)
    requires CanLeaseValidation(T, u, version)
    ensures u in T.uploads
  {
  }

  // --- postprocessor

  lemma HoldMoves(T: Table, d: Id, u: Id, run: Id, code: Code)
    requires CanHold(T, d, u, run)
    ensures Moves(T, HoldDocument(T, d, u, code))
  {
    hide Moves;
    var T' := HoldDocument(T, d, u, code);
    PairMoves(T, T', d, T'.documents[d], u, T'.uploads[u]);
  }

  lemma FailedMoves(T: Table, d: Id, u: Id, run: Id, stage: Stage, kind: TerminalKind, execution: nat)
    requires CanFailWorkflow(T, d, u, run, stage)
    ensures Moves(T, FailWorkflow(T, d, u, run, stage, kind, execution))
  {
    hide Moves;
    var T' := FailWorkflow(T, d, u, run, stage, kind, execution);
    PairMoves(T, T', d, T'.documents[d], u, T'.uploads[u]);
  }

  lemma SelectedMoves(T: Table, d: Id, u: Id, run: Id, token: Id, selected: Ref, full: Ref)
    requires CanSelect(T, d, u, run, token)
    ensures Moves(T, CommitSelected(T, d, u, run, token, selected, full))
  {
    hide Moves;
    var T' := CommitSelected(T, d, u, run, token, selected, full);
    PairMoves(T, T', d, T'.documents[d], u, T'.uploads[u]);
  }

  lemma SucceededMoves(T: Table, d: Id, u: Id, run: Id, token: Id, data: Ref)
    requires CanSucceed(T, d, u, run, token)
    ensures Moves(T, CommitSucceeded(T, d, u, run, token, data))
  {
    hide Moves;
    var T' := CommitSucceeded(T, d, u, run, token, data);
    PairMoves(T, T', d, T'.documents[d], u, T'.uploads[u]);
  }

  lemma AdvancedDocumentMoves(T: Table, d: Id, stage: Stage, run: Id)
    requires d in T.documents
    ensures Moves(T, AdvanceDocument(T, d, stage, run))
  {
    hide Moves;
    var T' := AdvanceDocument(T, d, stage, run);
    if T' == T { SameRowsStill(T, T'); }
    else { DocumentAlone(T, T', d, T.documents[d].(status := Screening)); }
  }

  lemma AdvancedUploadMoves(T: Table, u: Id, stage: Stage, run: Id)
    requires u in T.uploads
    ensures Moves(T, AdvanceUpload(T, u, stage, run))
  {
    hide Moves;
    var T' := AdvanceUpload(T, u, stage, run);
    if T' == T { SameRowsStill(T, T'); }
    else { UploadAlone(T, T', u, T'.uploads[u]); }
  }

  lemma RunningMoves(T: Table, t: Idp.Worker, T': Table, n: Option<Idp.Worker>)
    requires (t.Register? || t.AdvanceDoc? || t.AdvanceUp?) && Idp.RunningSteps(T, t, T', n)
    ensures Moves(T, T')
  {
    hide Moves, Idp.RunningSteps, AdvanceDocument, AdvanceUpload;
    Idp.RunningWrites(T, t, T', n);
    if t.Register? { SameRowsStill(T, T'); }
    else if t.AdvanceDoc? { AdvancedDocumentMoves(T, t.r.d, t.r.stage, t.r.run); }
    else { AdvancedUploadMoves(T, t.r.u, t.r.stage, t.r.run); }
  }

  lemma StageMoves(T: Table, t: Idp.Worker, T': Table, n: Option<Idp.Worker>)
    requires Idp.Staging(t) && Idp.StageSteps(T, t, T', n)
    ensures Moves(T, T')
  {
    hide Moves, CommitSelected, CommitSucceeded, CanSelect, CanSucceed;
    if T' == T {
      SameRowsStill(T, T');
    } else if t.CommitSel? {
      SelectedMoves(T, t.r.d, t.r.u, t.r.run, t.token, t.selected, t.full);
    } else if t.CommitSucc? {
      SucceededMoves(T, t.r.d, t.r.u, t.r.run, t.token, t.data);
    } else {
      var o := Idp.StagePuts(T, t, T', n);
      hide Idp.StageSteps;
      SameRowsStill(T, T');
    }
  }

  lemma LeasedMoves(T: Table, d: Id)
    requires d in T.documents
    ensures Moves(T, LeasePostprocess(T, d))
  {
    hide Moves;
    DocumentAlone(T, LeasePostprocess(T, d), d, T.documents[d].(lease := Some(Lease(T.next, T.clock + 300))));
  }

  lemma LeasingMoves(T: Table, t: Idp.Worker, T': Table, n: Option<Idp.Worker>)
    requires (t.RecordSuccess? || t.LeaseRead? || t.LeaseTry? || t.LeaseRefresh?) && Idp.LeaseSteps(T, t, T', n)
    ensures Moves(T, T')
  {
    hide Moves, Idp.LeaseSteps, LeasePostprocess;
    if T' == T {
      SameRowsStill(T, T');
    } else {
      Idp.LeaseWrites(T, t, T', n);
      if t.LeaseTry? { LeasedMoves(T, t.r.d); } else { SameRowsStill(T, T'); }
    }
  }

  lemma EndingMoves(T: Table, t: Idp.Worker, T': Table, n: Option<Idp.Worker>)
    requires Idp.Ending(t) && Idp.Steps(T, t, T', n)
    ensures Moves(T, T')
  {
    hide Moves, Idp.HoldSteps, Idp.FailureSteps, HoldDocument, FailWorkflow, CanHold, CanFailWorkflow;
    if T' == T {
      SameRowsStill(T, T');
    } else if t.Decide? || t.FailTxn? || t.FailRecheck? {
      Idp.FailureWrites(T, t, T', n);
      FailedMoves(T, t.r.d, t.r.u, t.r.run, t.r.stage, t.e.status.kind, t.e.execution.value);
    } else {
      Idp.HoldWrites(T, t, T', n);
      if t.HoldTxn? { HoldMoves(T, t.r.d, t.r.u, t.r.run, t.code); } else { SameRowsStill(T, T'); }
    }
  }

  lemma IdpMoves(T: Table, t: Idp.Worker, T': Table, n: Option<Idp.Worker>)
    requires Idp.Steps(T, t, T', n)
    ensures Moves(T, T')
  {
    hide Moves, Idp.RoutingSteps, Idp.RunningSteps, Idp.FailureSteps, Idp.LeaseSteps, Idp.HoldSteps, Idp.StageSteps;
    if Idp.Unrouted(t) {
      Idp.RoutingStays(T, t, T', n);
      SameRowsStill(T, T');
    } else if t.Register? || t.AdvanceDoc? || t.AdvanceUp? { RunningMoves(T, t, T', n); }
    else if Idp.Ending(t) { EndingMoves(T, t, T', n); }
    else if t.RecordSuccess? || t.LeaseRead? || t.LeaseTry? || t.LeaseRefresh? { LeasingMoves(T, t, T', n); }
    else { StageMoves(T, t, T', n); }
  }

  // --- loan API

  lemma CreatedMoves(T: Table, instance: Id, x: Identity, hash: RequestHash)
    requires Bounded(T)
    ensures Moves(T, CreateDocument(T, instance, x, hash))
  {
    hide Moves;
    var T' := CreateDocument(T, instance, x, hash);
    BirthMoves(T, T', T.next, NewDocument(instance, T.next + 1), T.next + 1, NewUpload(T.next));
  }

  lemma ReplacedMoves(T: Table, loan: LoanKey, instance: Id, d: Id, x: Identity, hash: RequestHash)
    requires Bounded(T) && CanReplace(T, loan, instance, d, x)
    ensures Moves(T, Replace(T, d, x, hash))
  {
    hide Moves;
    BirthMoves(T, Replace(T, d, x, hash), d, Renewed(T.documents[d], T.next), T.next, NewUpload(d));
  }

  lemma CompletedMoves(T: Table, d: Id, u: Id, version: Id, x: Identity, hash: RequestHash)
    requires CanComplete(T, d, u, x)
    ensures Moves(T, CompleteUpload(T, d, u, version, x, hash))
  {
    hide Moves;
    var T' := CompleteUpload(T, d, u, version, x, hash);
    PairMoves(T, T', d, T'.documents[d], u, T'.uploads[u]);
  }

  lemma ArchivedMoves(T: Table, d: Id, seen: Document, x: Identity, hash: RequestHash)
    requires CanArchiveDocument(T, d, seen, x) && seen.currentUpload.Some? && Terminal(seen.status)
    ensures Moves(T, ArchiveDocument(T, d, seen, x, hash))
  {
    hide Moves;
    var T' := ArchiveDocument(T, d, seen, x, hash);
    DocumentAlone(T, T', d, T'.documents[d]);
  }

  lemma RetiredMoves(
    T: Table, loan: LoanKey, instance: Id, m: Manifest, bytes: Bytes, stored: Ref, x: Identity, hash: RequestHash)
    requires loan in T.heads && instance in T.instances
    ensures Moves(T, ArchiveLoan(T, loan, instance, m, bytes, stored, x, hash))
  {
    hide Moves;
    SameRowsStill(T, ArchiveLoan(T, loan, instance, m, bytes, stored, x, hash));
  }

  lemma LoanMoves(T: Table, loan: LoanKey, x: Identity, hash: RequestHash)
    ensures Moves(T, CreateLoan(T, loan, x, hash))
  {
    hide Moves;
    SameRowsStill(T, CreateLoan(T, loan, x, hash));
  }

  lemma OpeningMoves(T: Table, t: Api.Call, T': Table, n: Option<Api.Call>)
    requires Bounded(T) && Api.Opening(t) && Api.OpeningSteps(T, t, T', n)
    ensures Moves(T, T')
  {
    hide Moves, Bounded, CreateLoan, CanCreateLoan, CreateDocument, CanCreateDocument, Replace, CanReplace;
    if T' == T { SameRowsStill(T, T'); }
    else if t.LoanTxn? { LoanMoves(T, Api.LoanOf(t.q), t.q.identity, Api.HashOf(t.q)); }
    else if t.q.identity.path.UploadsPath? {
      ReplacedMoves(T, Api.LoanOf(t.q), t.instance, t.q.identity.path.document, t.q.identity, Api.HashOf(t.q));
    } else {
      CreatedMoves(T, t.instance, t.q.identity, Api.HashOf(t.q));
    }
  }

  lemma CompletingMoves(T: Table, t: Api.Call, T': Table, n: Option<Api.Call>)
    requires Api.Completing(t) && Api.CallOk(T, t) && Api.CompletingSteps(T, t, T', n)
    ensures Moves(T, T')
  {
    hide Moves, CompleteUpload, CanComplete, ArchiveDocument, CanArchiveDocument;
    if T' == T { SameRowsStill(T, T'); }
    else if t.CompleteTxn? {
      CompletedMoves(T, t.q.identity.path.document, t.q.identity.path.upload, t.version, t.q.identity, Api.HashOf(t.q));
    } else if t.AlreadyTxn? { SameRowsStill(T, T'); }
    else { ArchivedMoves(T, t.q.identity.path.document, t.seen, t.q.identity, Api.HashOf(t.q)); }
  }

  lemma CollectingMoves(T: Table, t: Api.Call, T': Table, n: Option<Api.Call>)
    requires Api.Collecting(t) && Api.CollectingSteps(T, t, T', n)
    ensures Moves(T, T')
  {
    hide Moves, ArchiveLoan;
    if t.LoanArchiveTxn? && T' != T {
      RetiredMoves(T, Api.LoanOf(t.q), t.manifest.instance, t.manifest, t.bytes, t.stored, t.q.identity, Api.HashOf(t.q));
    } else {
      SameRowsStill(T, T');
    }
  }

  lemma RenewedMoves(T: Table, u: Id)
    requires u in T.uploads
    ensures Moves(T, PutUpload(T, u, T.uploads[u]))
  {
    hide Moves;
    UploadAlone(T, PutUpload(T, u, T.uploads[u]), u, T.uploads[u]);
  }

  lemma ReplyMoves(T: Table, t: Api.Call, T': Table, n: Option<Api.Call>)
    requires (t.Recover? || t.Renew? || t.Invoke? || t.Respond?) && Api.ReplySteps(T, t, T', n)
    ensures Moves(T, T')
  {
    hide Moves, PutUpload;
    if t.Renew? { RenewedMoves(T, t.body.upload); } else { SameRowsStill(T, T'); }
  }

  lemma CallMoves(T: Table, t: Api.Call, T': Table, n: Option<Api.Call>)
    requires Bounded(T) && Api.CallOk(T, t) && Api.Steps(T, t, T', n)
    ensures Moves(T, T')
  {
    hide Moves, Bounded, Api.CallOk, Api.OpeningSteps, Api.CompletingSteps, Api.CollectingSteps, Api.ReplySteps;
    if Api.Opening(t) { OpeningMoves(T, t, T', n); }
    else if Api.Completing(t) { CompletingMoves(T, t, T', n); }
    else if Api.Collecting(t) { CollectingMoves(T, t, T', n); }
    else { ReplyMoves(T, t, T', n); }
  }

  // ---------------------------------------------------------------- over whole runs

  lemma EnvironmentMoves(s: State, l: Label, s': State)
    requires Does(s, l, s') && !l.StepUp? && !l.StepIdp? && !l.StepApi?
    ensures Moves(s.table, s'.table)
  {
    hide Moves, Up.Starts, Idp.Starts, Api.Starts;
    SameRowsStill(s.table, s'.table);
  }

  lemma StepFacts(s: State, l: Label, s': State)
    requires Good(s) && Does(s, l, s')
    ensures Inv(s.table) && Bounded(s.table)
    ensures l.StepUp? ==> UpAt(s, l) && Up.LocalsOk(s.table, s.threads[l.tid].up)
                          && Up.Steps(s.table, s.threads[l.tid].up, s'.table, l.upNext)
    ensures l.StepIdp? ==> IdpAt(s, l) && Idp.Steps(s.table, s.threads[l.tid].idp, s'.table, l.idpNext)
    ensures l.StepApi? ==> ApiAt(s, l) && Api.CallOk(s.table, s.threads[l.tid].api)
                           && Api.Steps(s.table, s.threads[l.tid].api, s'.table, l.apiNext)
  {
    if l.StepUp? || l.StepIdp? || l.StepApi? { assert ThreadOk(s.table, s.threads[l.tid]); }
    hide Up.Steps, Idp.Steps, Api.Steps, Api.CallOk, Up.LocalsOk;
  }

  lemma StepMoves(s: State, l: Label, s': State)
    requires Good(s) && Does(s, l, s')
    ensures Moves(s.table, s'.table)
  {
    hide Good, Does, Inv, Bounded, Moves, Up.Steps, Idp.Steps, Api.Steps, Up.LocalsOk, Api.CallOk;
    StepFacts(s, l, s');
    if l.StepUp? { UpMoves(s.table, s.threads[l.tid].up, s'.table, l.upNext); }
    else if l.StepIdp? { IdpMoves(s.table, s.threads[l.tid].idp, s'.table, l.idpNext); }
    else if l.StepApi? { CallMoves(s.table, s.threads[l.tid].api, s'.table, l.apiNext); }
    else { EnvironmentMoves(s, l, s'); }
  }

  /** Every status ever changes by one of these moves, under every interleaving: what the rows show before
      it is what its condition asks for, and nothing else on them changes with it. */
  lemma EveryMove(b: seq<State>, ls: seq<Label>, i: nat)
    requires Run(b, ls) && i < |ls| && |b| == |ls| + 1
    ensures forall u :: u in b[i].table.uploads ==> UploadMoves(b[i].table, b[i + 1].table, u)
    ensures forall d :: d in b[i].table.documents ==> DocumentMoves(b[i].table, b[i + 1].table, d)
  {
    hide Run, Good, Does, UploadMoves, DocumentMoves;
    RunDoes(b, ls, i);
    RunGood(b, ls, i);
    StepMoves(b[i], ls[i], b[i + 1]);
  }

  /** Nothing is queued but on a clean summary: at the step that commits QUEUED, the upload's row says clean
      and the document waits for exactly this upload and run. */
  lemma QueuedOnClean(b: seq<State>, ls: seq<Label>, i: nat)
    requires Run(b, ls) && i < |ls| && |b| == |ls| + 1 && Commits(b[i], ls[i], b[i + 1])
    requires CommittedBy(b[i], ls[i], b[i + 1]).kind.ToQueued?
    ensures var T, u := b[i].table, CommittedBy(b[i], ls[i], b[i + 1]).upload;
      && u in T.uploads && T.uploads[u].document in T.documents
      && T.uploads[u].scan == Some(Clean) && T.uploads[u].status == Validating
      && T.documents[T.uploads[u].document].currentUpload == Some(u)
      && T.documents[T.uploads[u].document].status == Validating
  {
    RunDoes(b, ls, i);
    hide Run;
  }

  /** So an upload gets past VALIDATING into the pipeline only by way of a clean summary. */
  lemma AdmittedByQueueing(b: seq<State>, ls: seq<Label>, i: nat, u: Id)
    requires Run(b, ls) && i < |ls| && |b| == |ls| + 1 && u in b[i].table.uploads
    requires Rank(b[i].table.uploads[u].status) <= Rank(Validating)
    ensures u in b[i + 1].table.uploads
    ensures Admitted(b[i + 1].table.uploads[u].status) ==>
      && b[i].table.uploads[u].scan == Some(Clean) && b[i].table.uploads[u].completed
      && b[i + 1].table.uploads[u].status == Queued
  {
    EveryMove(b, ls, i);
    hide Run;
    assert UploadMoves(b[i].table, b[i + 1].table, u);
  }
}
