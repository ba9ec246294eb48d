/** What a run's events are, read off its steps: who recorded a clean scan, who was issued a lease,
    who committed, who took effect, and which steps write none of this. */
module History {
  import opened Records
  import opened Writes
  import opened System
  import Up = UploadProcessor
  import Idp = IdpPostprocessor
  import Api = LoanApi

  // -------------------------------------------------------------------- events

  predicate UpAt(s: State, l: Label) {
    l.StepUp? && l.tid in s.threads && s.threads[l.tid].UpThread?
  }

  predicate IdpAt(s: State, l: Label) {
    l.StepIdp? && l.tid in s.threads && s.threads[l.tid].IdpThread?
  }

  predicate ApiAt(s: State, l: Label) {
    l.StepApi? && l.tid in s.threads && s.threads[l.tid].ApiThread?
  }

  /** The step records a COMPLETED, clean scan of exactly this version. */
  predicate RecordsClean(s: State, l: Label, u: Id, version: Id) {
    UpAt(s, l)
    && var t := s.threads[l.tid].up;
    t.ScanPut? && t.u == u && t.version == version && t.verdict.Clean? && t.scanCompleted
  }

  /** The step issues a validation lease on an upload. */
  predicate IssuesValidation(s: State, l: Label, u: Id) {
    UpAt(s, l)
    && var t := s.threads[l.tid].up;
    t.LeaseTry? && t.u == u && CanLeaseValidation(s.table, u, t.version)
  }

  /** The step issues a postprocessing lease on a document. */
  predicate IssuesPostprocess(s: State, l: Label, d: Id) {
    IdpAt(s, l)
    && var t := s.threads[l.tid].idp;
    t.LeaseTry? && t.r.d == d && CanLeasePostprocess(s.table, d, t.r.u, t.r.run, t.r.stage)
  }

  predicate CommitsQueued(s: State, l: Label) {
    UpAt(s, l)
    && var t := s.threads[l.tid].up;
    t.Queue? && t.snap.run.Some? && CanQueue(s.table, t.u, t.snap.run.value, t.version, t.token)
  }

  predicate CommitsExtracting(s: State, l: Label, s': State) {
    IdpAt(s, l)
    && var t := s.threads[l.tid].idp;
    t.CommitSel? && s'.table != s.table
  }

  predicate CommitsSucceeded(s: State, l: Label, s': State) {
    IdpAt(s, l)
    && var t := s.threads[l.tid].idp;
    t.CommitSucc? && s'.table != s.table
  }

  predicate Commits(s: State, l: Label, s': State) {
    CommitsQueued(s, l) || CommitsExtracting(s, l, s') || CommitsSucceeded(s, l, s')
  }

  /** What a committing step commits: its kind, run, upload, document and lease token. */
  datatype Committed = Committed(kind: CommitKind, run: Id, upload: Id, document: Id, token: Id)

  function CommittedBy(s: State, l: Label, s': State): Committed
    requires Commits(s, l, s')
  {
    if l.StepUp? then
      var t := s.threads[l.tid].up;
      Committed(ToQueued, t.snap.run.value, t.u, s.table.uploads[t.u].document, t.token)
    else
      var t := s.threads[l.tid].idp;
      Committed(if t.CommitSel? then ToExtracting else ToSucceeded, t.r.run, t.r.u, t.r.d, t.token)
  }

  /** An API transaction that goes through. */
  predicate TakesEffect(s: State, l: Label, s': State) {
    ApiAt(s, l) && Transacts(s.threads[l.tid].api) && s'.table != s.table
  }

  predicate Transacts(t: Api.Call) {
    t.LoanTxn? || t.DocumentTxn? || t.CompleteTxn? || t.AlreadyTxn? || t.ArchiveTxn? || t.LoanArchiveTxn?
  }

  predicate Responds(s: State, l: Label) {
    ApiAt(s, l) && s.threads[l.tid].api.Respond?
  }

  // -------------------------------------------------------- everybody else's steps

  /** The step records no clean scan, no lease and no commit. */
  ghost predicate Unlogged(T: Table, T': Table) {
    && T'.log.clean == T.log.clean
    && T'.log.commits == T.log.commits
    && T'.log.validationLease == T.log.validationLease
    && T'.log.postprocessLease == T.log.postprocessLease
  }

  /** The step answers nobody, creates no upload and archives nothing. */
  ghost predicate Bystands(T: Table, T': Table) {
    && T'.idempotency == T.idempotency && T'.log.ordinal == T.log.ordinal && T'.log.born == T.log.born
    && T'.archives == T.archives && T'.loanArchives == T.loanArchives
  }

  // --- one write at a time

  lemma PutObjectUnlogged(T: Table, o: Object)
    ensures Unlogged(T, PutObject(T, o)) && Bystands(T, PutObject(T, o))
  {
  }

  lemma EndLookupUnlogged(T: Table, k: LookupKey, run: Id, d: Id, status: LookupStatus)
    ensures Unlogged(T, EndLookup(T, k, run, d, status)) && Bystands(T, EndLookup(T, k, run, d, status))
  {
    assert EndLookup(T, k, run, d, status).log == T.log;
  }

  lemma ClearMarkerUnlogged(T: Table, k: LookupKey)
    ensures Unlogged(T, ClearMarker(T, k)) && Bystands(T, ClearMarker(T, k))
  {
  }

  lemma PutPairUnlogged(T: Table, d: Id, D': Document, u: Id, U': Upload)
    ensures Unlogged(T, PutPair(T, d, D', u, U')) && Bystands(T, PutPair(T, d, D', u, U'))
  {
  }

  lemma HoldUnlogged(T: Table, d: Id, u: Id, code: Code)
    requires d in T.documents && u in T.uploads
    ensures Unlogged(T, HoldDocument(T, d, u, code)) && Bystands(T, HoldDocument(T, d, u, code))
  {
    hide PutPair;
    PutPairUnlogged(T, d, T.documents[d].(status := Hold, failureCode := Some(code), lease := None),
                    u, T.uploads[u].(status := Hold, failureCode := Some(code)));
  }

  lemma FailWorkflowUnlogged(T: Table, d: Id, u: Id, run: Id, stage: Stage, kind: TerminalKind, execution: nat)
    requires d in T.documents && u in T.uploads
    ensures var T' := FailWorkflow(T, d, u, run, stage, kind, execution);
      Unlogged(T, T') && Bystands(T, T')
  {
    var code := Some(WorkflowEnded(stage, kind));
    var D' := T.documents[d].(status := Failed, failureCode := code, terminalKind := Some(kind),
                              failedExecution := Some(execution), lease := None);
    var U' := T.uploads[u].(status := Failed, failureCode := code);
    PutPairUnlogged(T, d, D', u, U');
    EndLookupUnlogged(PutPair(T, d, D', u, U'), LookupKey(u, stage, execution), run, d, LookupEnded(kind));
    hide PutPair, EndLookup;
  }

  lemma LeasePostprocessBystands(T: Table, d: Id)
    requires d in T.documents
    ensures Bystands(T, LeasePostprocess(T, d))
  {
  }

  lemma CommitBystands(T: Table, d: Id, D': Document, u: Id, U': Upload, c: Commit)
    ensures Bystands(T, PutCommit(PutPair(T, d, D', u, U'), c))
  {
    PutPairUnlogged(T, d, D', u, U');
    hide PutPair;
  }

  lemma CommitSelectedBystands(T: Table, d: Id, u: Id, run: Id, token: Id, selected: Ref, full: Ref)
    requires CanSelect(T, d, u, run, token)
    ensures Bystands(T, CommitSelected(T, d, u, run, token, selected, full))
  {
    var D' := T.documents[d].(status := Extracting, selected := Some(selected), fullInput := Some(full),
                              failureCode := None, lease := None);
    var U' := T.uploads[u].(status := Extracting, selected := Some(selected), fullInput := Some(full),
                            failureCode := None);
    CommitBystands(T, d, D', u, U', Commit(ToExtracting, u, run, token, Find(T.log.postprocessLease, d)));
    hide PutPair, PutCommit;
  }

  lemma CommitSucceededBystands(T: Table, d: Id, u: Id, run: Id, token: Id, data: Ref)
    requires CanSucceed(T, d, u, run, token)
    ensures Bystands(T, CommitSucceeded(T, d, u, run, token, data))
  {
    var D' := T.documents[d].(status := Succeeded, dataPoints := Some(data), failureCode := None, lease := None);
    var U' := T.uploads[u].(status := Succeeded, dataPoints := Some(data), failureCode := None);
    CommitBystands(T, d, D', u, U', Commit(ToSucceeded, u, run, token, Find(T.log.postprocessLease, d)));
    hide PutPair, PutCommit;
  }

  lemma PutStoredUnlogged(T: Table, x: Identity, hash: RequestHash, body: ReplyBody)
    ensures Unlogged(T, PutStored(T, x, hash, body))
  {
  }

  lemma CompletedUnlogged(T: Table, d: Id, u: Id, version: Id)
    requires d in T.documents && u in T.uploads
    ensures Unlogged(T, Completed(T, d, u, version))
  {
  }

  lemma BuriedUnlogged(T: Table, d: Id, seen: Document)
    requires d in T.documents && seen.currentUpload.Some?
    ensures Unlogged(T, Buried(T, d, seen))
  {
  }

  lemma RetiredUnlogged(T: Table, loan: LoanKey, instance: Id, m: Manifest, bytes: Bytes, stored: Ref)
    requires loan in T.heads && instance in T.instances
    ensures Unlogged(T, Retired(T, loan, instance, m, bytes, stored))
  {
  }

  // --- step by step

  lemma ScanningUnlogged(T: Table, t: Up.Invocation, T': Table, n: Option<Up.Invocation>)
    requires Up.Scanning(t) && Up.Steps(T, t, T', n)
    ensures Bystands(T, T')
    ensures !t.ScanPut? ==> Unlogged(T, T')
  {
  }

  lemma LeasingUnlogged(T: Table, t: Up.Invocation, T': Table, n: Option<Up.Invocation>)
    requires Up.Leasing(t) && Up.Steps(T, t, T', n)
    ensures Bystands(T, T')
    ensures !(t.LeaseTry? && CanLeaseValidation(T, t.u, t.version)) ==> Unlogged(T, T')
  {
  }

  lemma FinishingUnlogged(T: Table, t: Up.Invocation, T': Table, n: Option<Up.Invocation>)
    requires !Up.Scanning(t) && !Up.Leasing(t) && Up.Steps(T, t, T', n)
    ensures Bystands(T, T')
    ensures !(t.Queue? && t.snap.run.Some? && CanQueue(T, t.u, t.snap.run.value, t.version, t.token))
            ==> Unlogged(T, T')
  {
  }

  lemma UpUnlogged(T: Table, t: Up.Invocation, T': Table, n: Option<Up.Invocation>)
    requires Up.Steps(T, t, T', n)
    ensures Bystands(T, T')
    ensures !t.ScanPut? && !(t.LeaseTry? && CanLeaseValidation(T, t.u, t.version))
            && !(t.Queue? && t.snap.run.Some? && CanQueue(T, t.u, t.snap.run.value, t.version, t.token))
            ==> Unlogged(T, T')
  {
    hide Up.Steps, Bystands, Unlogged, CanQueue, CanLeaseValidation;
    if Up.Scanning(t) { ScanningUnlogged(T, t, T', n); }
    else if Up.Leasing(t) { LeasingUnlogged(T, t, T', n); }
    else { FinishingUnlogged(T, t, T', n); }
  }

  lemma WorkerStageUnlogged(T: Table, t: Idp.Worker, T': Table, n: Option<Idp.Worker>)
    requires Idp.Staging(t) && Idp.StageSteps(T, t, T', n)
    ensures Bystands(T, T')
    ensures !((t.CommitSel? || t.CommitSucc?) && T' != T) ==> Unlogged(T, T')
  {
    hide PutObject, CommitSelected, CommitSucceeded, CanSelect, CanSucceed;
    if T' != T {
      match t
      case Materialize(_, r, _, pages) => PutObjectUnlogged(T, Object(SelectedKey(r.run), PagesOf(r.source, pages), None));
      case StageFull(_, r, _, selected) => PutObjectUnlogged(T, Idp.FullObject(r, selected));
      case StoreData(_, r, _) => PutObjectUnlogged(T, Object(DataPointsKey(r.run), Extracted(r.run), None));
      case CommitSel(_, r, token, selected, full) => CommitSelectedBystands(T, r.d, r.u, r.run, token, selected, full);
      case CommitSucc(_, r, token, data) => CommitSucceededBystands(T, r.d, r.u, r.run, token, data);
      case _ =>
    }
  }

  lemma RegisterUnlogged(T: Table, k: LookupKey, run: Id, d: Id)
    ensures Unlogged(T, RegisterRunning(T, k, run, d)) && Bystands(T, RegisterRunning(T, k, run, d))
  {
    assert RegisterRunning(T, k, run, d).log == T.log && RegisterRunning(T, k, run, d).idempotency == T.idempotency;
  }

  lemma PutDocumentUnlogged(T: Table, d: Id, D': Document)
    ensures Unlogged(T, PutDocument(T, d, D')) && Bystands(T, PutDocument(T, d, D'))
  {
  }

  lemma PutUploadUnlogged(T: Table, u: Id, U': Upload)
    ensures Unlogged(T, PutUpload(T, u, U')) && Bystands(T, PutUpload(T, u, U'))
  {
  }

  lemma SendUnlogged(T: Table, signal: Signal)
    ensures Unlogged(T, Send(T, signal)) && Bystands(T, Send(T, signal))
  {
  }

  lemma SendReplyUnlogged(T: Table, x: Identity, hash: RequestHash, body: ReplyBody)
    ensures Unlogged(T, SendReply(T, x, hash, body)) && Bystands(T, SendReply(T, x, hash, body))
  {
  }

  lemma AdvanceDocumentUnlogged(T: Table, d: Id, stage: Stage, run: Id)
    requires d in T.documents
    ensures var T' := AdvanceDocument(T, d, stage, run);
      Unlogged(T, T') && Bystands(T, T')
  {
    hide PutDocument;
    PutDocumentUnlogged(T, d, T.documents[d].(status := Screening));
  }

  lemma AdvanceUploadUnlogged(T: Table, u: Id, stage: Stage, run: Id)
    requires u in T.uploads
    ensures var T' := AdvanceUpload(T, u, stage, run);
      Unlogged(T, T') && Bystands(T, T')
  {
    hide PutUpload;
    PutUploadUnlogged(T, u, T.uploads[u].(status := Screening));
    PutUploadUnlogged(T, u, T.uploads[u]);
  }

  lemma WorkerRunningUnlogged(T: Table, t: Idp.Worker, T': Table, n: Option<Idp.Worker>)
    requires t.Register? || t.AdvanceDoc? || t.AdvanceUp?
    requires Idp.RunningSteps(T, t, T', n)
    ensures Unlogged(T, T') && Bystands(T, T')
  {
    hide RegisterRunning, AdvanceDocument, AdvanceUpload, CanRegisterRunning;
    match t
    case Register(e, r) => RegisterUnlogged(T, Idp.LookupKeyOf(e, r), r.run, r.d);
    case AdvanceDoc(_, r) => AdvanceDocumentUnlogged(T, r.d, r.stage, r.run);
    case AdvanceUp(_, r) => AdvanceUploadUnlogged(T, r.u, r.stage, r.run);
  }

  lemma WorkerFailureUnlogged(T: Table, t: Idp.Worker, T': Table, n: Option<Idp.Worker>)
    requires (t.Decide? || t.FailTxn? || t.FailRecheck?) && Idp.FailureSteps(T, t, T', n)
    ensures Unlogged(T, T') && Bystands(T, T')
  {
    if t.FailTxn? { CanFailRows(T, t.r); }
    hide FailWorkflow, CanFailWorkflow, Idp.ActionFor;
    if T' != T {
      FailWorkflowUnlogged(T, t.r.d, t.r.u, t.r.run, t.r.stage, t.e.status.kind, t.e.execution.value);
    }
  }

  lemma WorkerHoldUnlogged(T: Table, t: Idp.Worker, T': Table, n: Option<Idp.Worker>)
    requires (t.HoldRead? || t.HoldTxn? || t.HoldCheck? || t.Clear?) && Idp.HoldSteps(T, t, T', n)
    ensures Unlogged(T, T') && Bystands(T, T')
  {
    hide HoldDocument, ClearMarker;
    if T' != T {
      match t
      case HoldTxn(_, r, code, _) => HoldUnlogged(T, r.d, r.u, code);
      case Clear(e, r) => ClearMarkerUnlogged(T, Idp.LookupKeyOf(e, r));
      case _ =>
    }
  }

  lemma WorkerEndingUnlogged(T: Table, t: Idp.Worker, T': Table, n: Option<Idp.Worker>)
    requires Idp.Ending(t) && Idp.Steps(T, t, T', n)
    ensures Unlogged(T, T') && Bystands(T, T')
  {
    hide Idp.FailureSteps, Idp.HoldSteps, Unlogged, Bystands;
    if t.Decide? || t.FailTxn? || t.FailRecheck? { WorkerFailureUnlogged(T, t, T', n); }
    else { WorkerHoldUnlogged(T, t, T', n); }
  }

  lemma CanFailRows(T: Table, r: Idp.Route)
    ensures CanFailWorkflow(T, r.d, r.u, r.run, r.stage) ==> r.d in T.documents && r.u in T.uploads
  {
  }

  lemma WorkerOtherUnlogged(T: Table, t: Idp.Worker, T': Table, n: Option<Idp.Worker>)
    requires Idp.Unrouted(t) || t.RecordSuccess? || t.LeaseRead? || t.LeaseTry? || t.LeaseRefresh?
    requires Idp.Steps(T, t, T', n)
    ensures Bystands(T, T')
    ensures !(t.LeaseTry? && CanLeasePostprocess(T, t.r.d, t.r.u, t.r.run, t.r.stage)) ==> Unlogged(T, T')
  {
    hide EndLookup, LeasePostprocess;
    if T' != T {
      match t
      case RecordSuccess(e, r) => EndLookupUnlogged(T, Idp.LookupKeyOf(e, r), r.run, r.d, LookupSucceeded);
      case LeaseTry(_, r) => LeasePostprocessBystands(T, r.d);
      case _ =>
    }
  }

  lemma IdpUnlogged(T: Table, t: Idp.Worker, T': Table, n: Option<Idp.Worker>)
    requires Idp.Steps(T, t, T', n)
    ensures Bystands(T, T')
    ensures !((t.CommitSel? || t.CommitSucc?) && T' != T)
            && !(t.LeaseTry? && CanLeasePostprocess(T, t.r.d, t.r.u, t.r.run, t.r.stage))
            ==> Unlogged(T, T')
  {
    hide Idp.StageSteps, Idp.RoutingSteps, Idp.RunningSteps, Idp.FailureSteps, Idp.LeaseSteps, Idp.HoldSteps,
         Unlogged, Bystands;
    if Idp.Staging(t) { WorkerStageUnlogged(T, t, T', n); }
    else if t.Register? || t.AdvanceDoc? || t.AdvanceUp? { WorkerRunningUnlogged(T, t, T', n); }
    else if Idp.Ending(t) { WorkerEndingUnlogged(T, t, T', n); }
    else { WorkerOtherUnlogged(T, t, T', n); }
  }

  lemma CreateLoanUnlogged(T: Table, loan: LoanKey, identity: Identity, hash: RequestHash)
    ensures Unlogged(T, CreateLoan(T, loan, identity, hash))
  {
  }

  lemma ReplaceUnlogged(T: Table, d: Id, identity: Identity, hash: RequestHash)
    requires d in T.documents
    ensures Unlogged(T, Replace(T, d, identity, hash))
  {
  }

  lemma CreateDocumentUnlogged(T: Table, instance: Id, identity: Identity, hash: RequestHash)
    ensures Unlogged(T, CreateDocument(T, instance, identity, hash))
  {
  }

  lemma OpeningUnlogged(T: Table, t: Api.Call, T': Table, n: Option<Api.Call>)
    requires Api.Opening(t) && Api.OpeningSteps(T, t, T', n)
    ensures Unlogged(T, T')
    ensures !(Transacts(t) && T' != T) ==> Bystands(T, T')
  {
    hide CreateLoan, CreateDocument, Replace, CanCreateLoan, CanCreateDocument;
    if t.LoanTxn? && T' != T {
      CreateLoanUnlogged(T, Api.LoanOf(t.q), t.q.identity, Api.HashOf(t.q));
    } else if t.DocumentTxn? && T' != T {
      if t.q.identity.path.UploadsPath? {
        ReplaceUnlogged(T, t.q.identity.path.document, t.q.identity, Api.HashOf(t.q));
      } else {
        CreateDocumentUnlogged(T, t.instance, t.q.identity, Api.HashOf(t.q));
      }
    }
  }

  lemma CompletingUnlogged(T: Table, t: Api.Call, T': Table, n: Option<Api.Call>)
    requires Api.Completing(t) && Api.CompletingSteps(T, t, T', n)
    ensures Unlogged(T, T')
    ensures !(Transacts(t) && T' != T) ==> Bystands(T, T')
  {
    hide PutStored, Completed, Buried;
    if T' != T {
      var x, hash := t.q.identity, Api.HashOf(t.q);
      match t
      case CompleteTxn(_, version) =>
        var d, u := x.path.document, x.path.upload;
        CompletedUnlogged(T, d, u, version);
        PutStoredUnlogged(Completed(T, d, u, version), x, hash, UploadCompleted(d, u, T.next, Validating));
      case AlreadyTxn(_, body) => PutStoredUnlogged(T, x, hash, body);
      case ArchiveTxn(_, seen) =>
        var d := x.path.document;
        BuriedUnlogged(T, d, seen);
        PutStoredUnlogged(Buried(T, d, seen), x, hash,
                          DocumentArchived(d, seen.currentUpload.value, seen.lastArchive + 1));
      case _ =>
    }
  }

  lemma CollectingUnlogged(T: Table, t: Api.Call, T': Table, n: Option<Api.Call>)
    requires Api.Collecting(t) && Api.CollectingSteps(T, t, T', n)
    ensures Unlogged(T, T')
    ensures !(Transacts(t) && T' != T) ==> Bystands(T, T')
  {
    hide PutStored, Retired, PutObject;
    if T' != T {
      match t
      case ManifestPut(_, instance, last, _) =>
        PutObjectUnlogged(T, Object(ManifestKey(instance, last + 1), Body(n.value.bytes), None));
      case LoanArchiveTxn(q, m, bytes, stored) =>
        var loan := Api.LoanOf(q);
        RetiredUnlogged(T, loan, m.instance, m, bytes, stored);
        PutStoredUnlogged(Retired(T, loan, m.instance, m, bytes, stored), q.identity, Api.HashOf(q),
                          LoanArchived(loan, m.instance, T.heads[loan].lastArchive + 1, |m.documents|));
      case _ =>
    }
  }

  lemma ReplyUnlogged(T: Table, t: Api.Call, T': Table, n: Option<Api.Call>)
    requires t.Recover? || t.Renew? || t.Invoke? || t.Respond?
    requires Api.ReplySteps(T, t, T', n)
    ensures Unlogged(T, T') && Bystands(T, T')
  {
    hide PutUpload, Send, SendReply;
    match t
    case Renew(_, body) => PutUploadUnlogged(T, body.upload, T.uploads[body.upload]);
    case Invoke(_, body) => if T' != T { SendUnlogged(T, Api.Nudge(T, body)); }
    case Respond(q, body) => SendReplyUnlogged(T, q.identity, Api.HashOf(q), body);
    case _ =>
  }

  lemma ApiUnlogged(T: Table, t: Api.Call, T': Table, n: Option<Api.Call>)
    requires Api.Steps(T, t, T', n)
    ensures Unlogged(T, T')
    ensures !(Transacts(t) && T' != T) ==> Bystands(T, T')
  {
    hide Api.OpeningSteps, Api.CompletingSteps, Api.CollectingSteps, Api.ReplySteps, Unlogged, Bystands;
    if Api.Opening(t) { OpeningUnlogged(T, t, T', n); }
    else if Api.Completing(t) { CompletingUnlogged(T, t, T', n); }
    else if Api.Collecting(t) { CollectingUnlogged(T, t, T', n); }
    else { ReplyUnlogged(T, t, T', n); }
  }

  predicate RecordsScan(s: State, l: Label) {
    UpAt(s, l) && s.threads[l.tid].up.ScanPut?
  }

  predicate Issues(s: State, l: Label) {
    || (UpAt(s, l) && IssuesValidation(s, l, s.threads[l.tid].up.u))
    || (IdpAt(s, l) && s.threads[l.tid].idp.LeaseTry? && IssuesPostprocess(s, l, s.threads[l.tid].idp.r.d))
  }

  lemma StepUnlogged(s: State, l: Label, s': State)
    requires Does(s, l, s')
    ensures !RecordsScan(s, l) && !Issues(s, l) && !Commits(s, l, s') ==> Unlogged(s.table, s'.table)
    ensures !TakesEffect(s, l, s') ==> Bystands(s.table, s'.table)
  {
    hide Up.Steps, Idp.Steps, Api.Steps, CanQueue, CanLeaseValidation, CanLeasePostprocess;
    match l
    case StepUp(tid, n) => UpUnlogged(s.table, s.threads[tid].up, s'.table, n);
    case StepIdp(tid, n) => IdpUnlogged(s.table, s.threads[tid].idp, s'.table, n);
    case StepApi(tid, n) => ApiUnlogged(s.table, s.threads[tid].api, s'.table, n);
    case _ =>
  }

  // ------------------------------------------------------ what the events write

  lemma ScanWrites(s: State, l: Label, s': State)
    requires Does(s, l, s') && RecordsScan(s, l)
    ensures var T, T', t := s.table, s'.table, s.threads[l.tid].up;
      && T'.log.clean == (if t.verdict.Clean? && t.scanCompleted then T.log.clean + {(t.u, t.version)} else T.log.clean)
      && T'.log.validationLease == T.log.validationLease
      && T'.log.postprocessLease == T.log.postprocessLease
      && T'.log.commits == T.log.commits
  {
  }

  lemma ValidationWrites(s: State, l: Label, s': State, u: Id)
    requires Does(s, l, s') && IssuesValidation(s, l, u)
    ensures var T, T' := s.table, s'.table;
      && T'.log == T.log.(validationLease := T.log.validationLease[u := T.next])
  {
  }

  lemma PostprocessWrites(s: State, l: Label, s': State, d: Id)
    requires Does(s, l, s') && IssuesPostprocess(s, l, d)
    ensures var T, T' := s.table, s'.table;
      && T'.log == T.log.(postprocessLease := T.log.postprocessLease[d := T.next])
  {
  }

  /** One commit is appended, under the lease its row still holds. */
  ghost predicate CommitWritten(T: Table, T': Table, c: Committed) {
    && T'.log == T.log.(commits := T'.log.commits)
    && |T'.log.commits| == |T.log.commits| + 1 && T.log.commits <= T'.log.commits
    && T'.log.commits[|T.log.commits|].kind == c.kind && T'.log.commits[|T.log.commits|].run == c.run
    && (c.kind.ToQueued? ==> c.upload in T.uploads && Holds(T.uploads[c.upload].lease, c.token))
    && (!c.kind.ToQueued? ==> c.document in T.documents && Holds(T.documents[c.document].lease, c.token))
  }

  lemma CommitQueuedWrites(T: Table, u: Id, run: Id, version: Id, token: Id, staged: Ref, d: Id)
    requires CanQueue(T, u, run, version, token)
    ensures CommitWritten(T, CommitQueued(T, u, run, version, token, staged),
                          Committed(ToQueued, run, u, d, token))
  {
  }

  lemma CommitSelectedWrites(T: Table, d: Id, u: Id, run: Id, token: Id, selected: Ref, full: Ref)
    requires CanSelect(T, d, u, run, token)
    ensures CommitWritten(T, CommitSelected(T, d, u, run, token, selected, full),
                          Committed(ToExtracting, run, u, d, token))
  {
  }

  lemma CommitSucceededWrites(T: Table, d: Id, u: Id, run: Id, token: Id, data: Ref)
    requires CanSucceed(T, d, u, run, token)
    ensures CommitWritten(T, CommitSucceeded(T, d, u, run, token, data),
                          Committed(ToSucceeded, run, u, d, token))
  {
  }

  lemma CommitWrites(s: State, l: Label, s': State)
    requires Does(s, l, s') && Commits(s, l, s')
    ensures CommitWritten(s.table, s'.table, CommittedBy(s, l, s'))
  {
    hide CommitWritten, CommitQueued, CommitSelected, CommitSucceeded, CanQueue, CanSelect, CanSucceed;
    var T := s.table;
    if l.StepUp? {
      var t := s.threads[l.tid].up;
      QueueReady(T, t);
      CommitQueuedWrites(T, t.u, t.snap.run.value, t.version, t.token, t.staged, T.uploads[t.u].document);
    } else if s.threads[l.tid].idp.CommitSel? {
      var t := s.threads[l.tid].idp;
      CommitSelectedWrites(T, t.r.d, t.r.u, t.r.run, t.token, t.selected, t.full);
    } else {
      var t := s.threads[l.tid].idp;
      CommitSucceededWrites(T, t.r.d, t.r.u, t.r.run, t.token, t.data);
    }
  }

  lemma QueueReady(T: Table, t: Up.Invocation)
    requires t.Queue? && t.snap.run.Some? && CanQueue(T, t.u, t.snap.run.value, t.version, t.token)
    ensures t.u in T.uploads
  {
  }
}
