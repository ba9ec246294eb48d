/** Every conditional write of the three services keeps the invariant and moves the table forward. */
module Transactions {
  import opened Records
  import opened Writes
  import opened Invariant
  import opened Preservation

  // -------------------------------------------------------- upload processor

  lemma SetSummaryLocal(T: Table, u: Id, U': Upload)
    requires u in T.uploads && UploadOk(T, u) && DocumentOk(T, T.uploads[u].document)
    requires U' == T.uploads[u].(scan := U'.scan, scanVersion := U'.scanVersion)
    ensures var d := T.uploads[u].document;
      PairOk(T, PutUpload(T, u, U'), d, T.documents[d], u, U')
  {
  }

  lemma SetSummaryKeeps(T: Table, u: Id, verdict: Verdict, version: Id)
    requires Inv(T) && u in T.uploads
    ensures Inv(SetSummary(T, u, verdict, version)) && Evolves(T, SetSummary(T, u, verdict, version))
  {
    assert UploadOk(T, u) && DocumentOk(T, T.uploads[u].document);
    var U' := T.uploads[u].(scan := Some(verdict), scanVersion := Some(version));
    SetSummaryLocal(T, u, U');
    UploadKeeps(T, u, U');
  }

  lemma LeaseValidationOutside(T: Table, u: Id)
    requires Bounded(T) && u in T.uploads && T.uploads[u].document in T.documents
    ensures var T' := LeaseValidation(T, u);
      Bounded(T') && OnlyPipeline(T, T') && T.next <= T'.next && Extends(T.signals, T'.signals)
  {
  }

  lemma LeaseValidationLocal(T: Table, u: Id)
    requires u in T.uploads && UploadOk(T, u) && DocumentOk(T, T.uploads[u].document)
    ensures var T', d := LeaseValidation(T, u), T.uploads[u].document;
      PairOk(T, T', d, T.documents[d], u, T'.uploads[u])
      && PairWritten(T, T', d, T.documents[d], u, T'.uploads[u])
  {
    var d := T.uploads[u].document;
    assert T.documents[d := T.documents[d]] == T.documents;
  }

  lemma LeaseValidationKeeps(T: Table, u: Id, version: Id)
    requires Inv(T) && CanLeaseValidation(T, u, version)
    ensures Inv(LeaseValidation(T, u)) && Evolves(T, LeaseValidation(T, u))
  {
    var T', U := LeaseValidation(T, u), T.uploads[u];
    assert UploadOk(T, u) && DocumentOk(T, U.document);
    LeaseValidationLocal(T, u);
    LeaseValidationOutside(T, u);
    PairPipeline(T, T', U.document, T.documents[U.document], u, T'.uploads[u]);
    PipelineFrame(T, T');
  }

  /** No earlier commit of this kind and run: its upload would already rank as high. */
  lemma FirstCommit(T: Table, u: Id, run: Id, kind: CommitKind)
    requires Inv(T) && u in T.uploads && T.uploads[u].run == Some(run)
    requires Rank(T.uploads[u].status) < KindRank(kind)
    ensures forall i :: 0 <= i < |T.log.commits| ==>
      T.log.commits[i].kind != kind || T.log.commits[i].run != run
  {
    forall i | 0 <= i < |T.log.commits|
      ensures T.log.commits[i].kind != kind || T.log.commits[i].run != run
    {
      var c := T.log.commits[i];
      assert CommitOk(T, c) && UploadOk(T, u) && UploadOk(T, c.upload);
    }
  }

  /** A commit is one pair write and one log entry. */
  lemma CommittedKeeps(T: Table, d: Id, D': Document, u: Id, U': Upload, c: Commit)
    requires Inv(T) && PairOk(T, PutPair(T, d, D', u, U'), d, D', u, U')
    requires U'.run == Some(c.run) && c.upload == u && c.latest == Some(c.token)
    requires T.uploads[u].run == U'.run
    requires Rank(T.uploads[u].status) < KindRank(c.kind) <= Rank(U'.status)
    ensures var T' := PutCommit(PutPair(T, d, D', u, U'), c);
      Inv(T') && Evolves(T, T')
  {
    var T1 := PutPair(T, d, D', u, U');
    FirstCommit(T, u, c.run, c.kind);
    PairKeeps(T, d, D', u, U');
    CommitKeeps(T1, c);
    EvolvesTransitive(T, T1, PutCommit(T1, c));
  }

  ghost predicate ScreenStaged(T: Table, u: Id, run: Id, version: Id, staged: Ref) {
    && staged.key == ScreenKey(run, u) && Invariant.Stored(T, staged)
    && T.objects[staged.version].content == CopyOf(version)
  }

  lemma CommitQueuedLocal(
    T: Table, u: Id, run: Id, version: Id, token: Id, staged: Ref, D': Document, U': Upload)
    requires CanQueue(T, u, run, version, token)
    requires UploadOk(T, u) && DocumentOk(T, T.uploads[u].document)
    requires (u, version) in T.log.clean && ScreenStaged(T, u, run, version, staged)
    requires D' == T.documents[T.uploads[u].document].(
      status := Queued, source := Some(Ref(SourceKey(u), version)), screenInput := Some(staged),
      failureCode := None)
    requires U' == T.uploads[u].(status := Queued, screenInput := Some(staged), lease := None,
                                 failureCode := None)
    ensures PairOk(T, PutPair(T, U'.document, D', u, U'), U'.document, D', u, U')
    ensures Find(T.log.validationLease, u) == Some(token) && U'.run == Some(run)
  {
  }

  lemma CommitQueuedKeeps(T: Table, u: Id, run: Id, version: Id, token: Id, staged: Ref)
    requires Inv(T) && CanQueue(T, u, run, version, token)
    requires (u, version) in T.log.clean && ScreenStaged(T, u, run, version, staged)
    ensures var T' := CommitQueued(T, u, run, version, token, staged);
      Inv(T') && Evolves(T, T')
  {
    var U, d := T.uploads[u], T.uploads[u].document;
    assert UploadOk(T, u) && DocumentOk(T, d);
    var D' := T.documents[d].(status := Queued, source := Some(Ref(SourceKey(u), version)),
                              screenInput := Some(staged), failureCode := None);
    var U' := U.(status := Queued, screenInput := Some(staged), lease := None, failureCode := None);
    CommitQueuedLocal(T, u, run, version, token, staged, D', U');
    CommittedKeeps(T, d, D', u, U', Commit(ToQueued, u, run, token, Find(T.log.validationLease, u)));
  }

  lemma FailUploadLocal(T: Table, u: Id, D': Document, U': Upload)
    requires CanFailUpload(T, u) && UploadOk(T, u) && DocumentOk(T, T.uploads[u].document)
    requires D'.status == U'.status && (D'.status.Rejected? || D'.status.Hold?)
    requires D'.failureCode == U'.failureCode
    requires D' == T.documents[T.uploads[u].document].(status := D'.status, failureCode := D'.failureCode)
    requires U' == T.uploads[u].(status := U'.status, failureCode := U'.failureCode, lease := None,
                                 scanVersion := U'.scanVersion)
    ensures PairOk(T, PutPair(T, T.uploads[u].document, D', u, U'), T.uploads[u].document, D', u, U')
  {
  }

  lemma FailUploadKeeps(T: Table, u: Id, code: Code, disposition: Status, version: Id)
    requires Inv(T) && CanFailUpload(T, u)
    requires disposition.Rejected? || disposition.Hold?
    ensures var T' := FailUpload(T, u, code, disposition, version);
      Inv(T') && Evolves(T, T')
  {
    var U, d := T.uploads[u], T.uploads[u].document;
    assert UploadOk(T, u) && DocumentOk(T, d);
    var D' := T.documents[d].(status := disposition, failureCode := Some(code));
    var U' := U.(status := disposition, failureCode := Some(code), lease := None,
                 scanVersion := if U.scanVersion.Some? then U.scanVersion else Some(version));
    FailUploadLocal(T, u, D', U');
    PairKeeps(T, d, D', u, U');
  }

  // ------------------------------------------------------- IDP postprocessor

  lemma ScreenedPair(T: Table, d: Id, run: Id) returns (u: Id)
    requires Inv(T) && d in T.documents && DocumentOk(T, d)
    requires CanScreen(T.documents[d].status, T.documents[d].run, run)
    ensures var D' := T.documents[d].(status := Screening);
      u in T.uploads && PairOk(T, PutDocument(T, d, D'), d, D', u, T.uploads[u])
  {
    hide Inv;
    u := T.documents[d].currentUpload.value;
    UploadHolds(T, u);
  }

  lemma AdvanceDocumentKeeps(T: Table, d: Id, stage: Stage, run: Id)
    requires Inv(T) && d in T.documents
    ensures var T' := AdvanceDocument(T, d, stage, run);
      Inv(T') && Evolves(T, T')
  {
    var D := T.documents[d];
    hide Inv, Evolves;
    DocumentHolds(T, d);
    if stage.Screen? && CanScreen(D.status, D.run, run) {
      var u := ScreenedPair(T, d, run);
      hide DocumentOk, PairOk;
      DocumentKeeps(T, d, D.(status := Screening), u);
    } else {
      DrawNothing(T);
    }
  }

  lemma DrawNothing(T: Table)
    requires Inv(T)
    ensures Evolves(T, T)
  {
    TickKeeps(T, T.clock);
    assert T.(clock := T.clock) == T;
  }

  lemma AdvanceUploadLocal(T: Table, u: Id, U': Upload)
    requires u in T.uploads && UploadOk(T, u) && DocumentOk(T, T.uploads[u].document)
    requires U' == T.uploads[u].(status := Screening)
    requires T.uploads[u].status.Queued? || T.uploads[u].status.Screening?
    requires Current(T, u) ==> Rank(T.documents[T.uploads[u].document].status) >= Rank(Screening)
    ensures var d := T.uploads[u].document;
      PairOk(T, PutUpload(T, u, U'), d, T.documents[d], u, U')
  {
  }

  /** The late half of a RUNNING event: the document has already left QUEUED. */
  lemma AdvanceUploadKeeps(T: Table, u: Id, stage: Stage, run: Id)
    requires Inv(T) && u in T.uploads && T.uploads[u].document in T.documents
    requires stage.Screen? && Current(T, u) ==> Rank(T.documents[T.uploads[u].document].status) >= Rank(Screening)
    ensures var T' := AdvanceUpload(T, u, stage, run);
      Inv(T') && Evolves(T, T')
  {
    var U := T.uploads[u];
    assert UploadOk(T, u) && DocumentOk(T, U.document);
    if stage.Screen? && CanScreen(U.status, U.run, run) {
      AdvanceUploadLocal(T, u, U.(status := Screening));
      UploadKeeps(T, u, U.(status := Screening));
    } else if stage.Full? && CanExtract(U.status, U.run, run) {
      SetSummaryLocal(T, u, U);
      UploadKeeps(T, u, U);
    } else {
      DrawNothing(T);
    }
  }

  lemma LeasePostprocessOutside(T: Table, d: Id)
    requires Bounded(T) && d in T.documents
    ensures var T' := LeasePostprocess(T, d);
      Bounded(T') && OnlyPipeline(T, T') && T.next <= T'.next
  {
  }

  lemma LeasePostprocessLocal(T: Table, d: Id, u: Id)
    requires d in T.documents && DocumentOk(T, d) && u in T.uploads && UploadOk(T, u)
    requires T.documents[d].currentUpload == Some(u)
    ensures var T' := LeasePostprocess(T, d);
      PairOk(T, T', d, T'.documents[d], u, T.uploads[u])
      && PairWritten(T, T', d, T'.documents[d], u, T.uploads[u])
  {
    assert T.uploads[u := T.uploads[u]] == T.uploads;
  }

  lemma LeasePostprocessKeeps(T: Table, d: Id, u: Id, run: Id, stage: Stage)
    requires Inv(T) && CanLeasePostprocess(T, d, u, run, stage)
    ensures Inv(LeasePostprocess(T, d)) && Evolves(T, LeasePostprocess(T, d))
  {
    var T' := LeasePostprocess(T, d);
    assert DocumentOk(T, d) && UploadOk(T, u);
    LeasePostprocessLocal(T, d, u);
    LeasePostprocessOutside(T, d);
    PairPipeline(T, T', d, T'.documents[d], u, T.uploads[u]);
    PipelineFrame(T, T');
  }

  lemma HoldDocumentKeeps(T: Table, d: Id, u: Id, run: Id, code: Code)
    requires Inv(T) && CanHold(T, d, u, run) && T.uploads[u].document == d
    ensures Inv(HoldDocument(T, d, u, code)) && Evolves(T, HoldDocument(T, d, u, code))
  {
    assert UploadOk(T, u) && DocumentOk(T, d);
    var D' := T.documents[d].(status := Hold, failureCode := Some(code), lease := None);
    var U' := T.uploads[u].(status := Hold, failureCode := Some(code));
    FailWorkflowLocal(T, d, u, run, D', U');
    PairKeeps(T, d, D', u, U');
  }

  lemma RegisterRunningKeeps(T: Table, k: LookupKey, run: Id, document: Id)
    requires Inv(T) && CanRegisterRunning(T, k) && Routed(T, k.upload, document, run)
    ensures var T' := RegisterRunning(T, k, run, document);
      Inv(T') && Evolves(T, T')
  {
    LookupKeeps(T, k, RegisterRunning(T, k, run, document).lookups[k]);
  }

  lemma EndLookupKeeps(T: Table, k: LookupKey, run: Id, document: Id, status: LookupStatus)
    requires Inv(T) && Routed(T, k.upload, document, run) && !status.LookupRunning?
    ensures var T' := EndLookup(T, k, run, document, status);
      Inv(T') && Evolves(T, T')
  {
    LookupKeeps(T, k, EndLookup(T, k, run, document, status).lookups[k]);
  }

  lemma MoveMarkerKeeps(T: Table, k: LookupKey, current: int, marker: Option<int>)
    requires Inv(T) && CanMoveMarker(T, k, current)
    ensures Inv(MoveMarker(T, k, marker)) && Evolves(T, MoveMarker(T, k, marker))
  {
    assert LookupOk(T, k);
    LookupKeeps(T, k, T.lookups[k].(marker := marker));
  }

  lemma ClearMarkerKeeps(T: Table, k: LookupKey)
    requires Inv(T)
    ensures Inv(ClearMarker(T, k)) && Evolves(T, ClearMarker(T, k))
  {
    if k in T.lookups {
      assert LookupOk(T, k);
      LookupKeeps(T, k, T.lookups[k].(marker := None));
    } else {
      DrawNothing(T);
    }
  }

  lemma FailWorkflowLocal(T: Table, d: Id, u: Id, run: Id, D': Document, U': Upload)
    requires CanHold(T, d, u, run) && T.uploads[u].document == d
    requires UploadOk(T, u) && DocumentOk(T, d)
    requires D' == T.documents[d].(status := D'.status, failureCode := D'.failureCode,
      terminalKind := D'.terminalKind, failedExecution := D'.failedExecution, lease := None)
    requires U' == T.uploads[u].(status := U'.status, failureCode := U'.failureCode)
    requires D'.status == U'.status && (D'.status.Failed? || D'.status.Hold?) && D'.failureCode == U'.failureCode
    requires D'.status.Failed? ==> Rank(T.uploads[u].status) < 5 && Rank(T.documents[d].status) < 5
    requires D'.status.Hold? ==> SameFailure(T.documents[d], D')
    ensures PairOk(T, PutPair(T, d, D', u, U'), d, D', u, U')
  {
  }

  lemma FailWorkflowKeeps(
    T: Table, d: Id, u: Id, run: Id, stage: Stage, kind: TerminalKind, execution: nat)
    requires Inv(T) && CanFailWorkflow(T, d, u, run, stage) && Routed(T, u, d, run)
    ensures var T' := FailWorkflow(T, d, u, run, stage, kind, execution);
      Inv(T') && Evolves(T, T')
  {
    hide Inv, Evolves, UploadOk, DocumentOk, PairOk, EndLookup;
    UploadHolds(T, u);
    DocumentHolds(T, d);
    var code := Some(WorkflowEnded(stage, kind));
    var D' := T.documents[d].(status := Failed, failureCode := code, terminalKind := Some(kind),
                              failedExecution := Some(execution), lease := None);
    var U' := T.uploads[u].(status := Failed, failureCode := code);
    var T1 := PutPair(T, d, D', u, U');
    FailWorkflowLocal(T, d, u, run, D', U');
    PairKeeps(T, d, D', u, U');
    var k := LookupKey(u, stage, execution);
    EndLookupKeeps(T1, k, run, d, LookupEnded(kind));
    EvolvesTransitive(T, T1, EndLookup(T1, k, run, d, LookupEnded(kind)));
  }

  ghost predicate FullStaged(T: Table, u: Id, run: Id, version: Id, selected: Ref, fullInput: Ref) {
    && selected.key == SelectedKey(run) && Invariant.Stored(T, selected)
    && T.objects[selected.version].content.PagesOf?
    && T.objects[selected.version].content.version == version
    && fullInput.key == FullKey(run, u) && Invariant.Stored(T, fullInput)
    && T.objects[fullInput.version].content == CopyOf(selected.version)
  }

  lemma CommitSelectedLocal(
    T: Table, d: Id, u: Id, run: Id, token: Id, selected: Ref, fullInput: Ref,
    D': Document, U': Upload)
    requires CanSelect(T, d, u, run, token) && T.uploads[u].document == d
    requires UploadOk(T, u) && DocumentOk(T, d) && T.uploads[u].sourceVersion.Some?
    requires FullStaged(T, u, run, T.uploads[u].sourceVersion.value, selected, fullInput)
    requires D' == T.documents[d].(status := Extracting, selected := Some(selected),
      fullInput := Some(fullInput), failureCode := None, lease := None)
    requires U' == T.uploads[u].(status := Extracting, selected := Some(selected),
      fullInput := Some(fullInput), failureCode := None)
    ensures PairOk(T, PutPair(T, d, D', u, U'), d, D', u, U')
    ensures Find(T.log.postprocessLease, d) == Some(token)
  {
  }

  lemma CommitSelectedKeeps(
    T: Table, d: Id, u: Id, run: Id, token: Id, selected: Ref, fullInput: Ref)
    requires Inv(T) && CanSelect(T, d, u, run, token) && T.uploads[u].document == d
    requires T.uploads[u].sourceVersion.Some?
    requires FullStaged(T, u, run, T.uploads[u].sourceVersion.value, selected, fullInput)
    ensures var T' := CommitSelected(T, d, u, run, token, selected, fullInput);
      Inv(T') && Evolves(T, T')
  {
    var U := T.uploads[u];
    assert UploadOk(T, u) && DocumentOk(T, d);
    var D' := T.documents[d].(status := Extracting, selected := Some(selected),
                              fullInput := Some(fullInput), failureCode := None, lease := None);
    var U' := U.(status := Extracting, selected := Some(selected), fullInput := Some(fullInput),
                 failureCode := None);
    CommitSelectedLocal(T, d, u, run, token, selected, fullInput, D', U');
    CommittedKeeps(T, d, D', u, U', Commit(ToExtracting, u, run, token, Find(T.log.postprocessLease, d)));
  }

  ghost predicate DataStored(T: Table, run: Id, dataPoints: Ref) {
    && dataPoints.key == DataPointsKey(run) && Invariant.Stored(T, dataPoints)
    && T.objects[dataPoints.version].content == Extracted(run)
  }

  lemma CommitSucceededLocal(
    T: Table, d: Id, u: Id, run: Id, token: Id, dataPoints: Ref, D': Document, U': Upload)
    requires CanSucceed(T, d, u, run, token) && T.uploads[u].document == d
    requires UploadOk(T, u) && DocumentOk(T, d) && DataStored(T, run, dataPoints)
    requires D' == T.documents[d].(status := Succeeded, dataPoints := Some(dataPoints),
      failureCode := None, lease := None)
    requires U' == T.uploads[u].(status := Succeeded, dataPoints := Some(dataPoints), failureCode := None)
    ensures PairOk(T, PutPair(T, d, D', u, U'), d, D', u, U')
    ensures Find(T.log.postprocessLease, d) == Some(token)
  {
  }

  lemma CommitSucceededKeeps(T: Table, d: Id, u: Id, run: Id, token: Id, dataPoints: Ref)
    requires Inv(T) && CanSucceed(T, d, u, run, token) && T.uploads[u].document == d
    requires DataStored(T, run, dataPoints)
    ensures var T' := CommitSucceeded(T, d, u, run, token, dataPoints);
      Inv(T') && Evolves(T, T')
  {
    hide Inv, Evolves, UploadOk, DocumentOk, PairOk, DataStored;
    UploadHolds(T, u);
    DocumentHolds(T, d);
    var U := T.uploads[u];
    var D' := T.documents[d].(status := Succeeded, dataPoints := Some(dataPoints),
                              failureCode := None, lease := None);
    var U' := U.(status := Succeeded, dataPoints := Some(dataPoints), failureCode := None);
    CommitSucceededLocal(T, d, u, run, token, dataPoints, D', U');
    CommittedKeeps(T, d, D', u, U', Commit(ToSucceeded, u, run, token, Find(T.log.postprocessLease, d)));
  }

  // ---------------------------------------------------------------- loan API

  lemma CompleteUploadLocal(T: Table, d: Id, u: Id, version: Id, run: Id, D': Document, U': Upload)
    requires u in T.uploads && UploadOk(T, u) && d in T.documents && DocumentOk(T, d)
    requires !T.uploads[u].completed && T.uploads[u].status.AwaitingUpload?
    requires T.documents[d].currentUpload == Some(u) && T.documents[d].status.AwaitingUpload?
    requires Invariant.Stored(T, Ref(SourceKey(u), version)) && Find(T.log.runOf, run) == Some(u)
    requires D' == T.documents[d].(status := Validating, run := Some(run))
    requires U' == T.uploads[u].(status := Validating, completed := true, run := Some(run),
                                 sourceVersion := Some(version))
    ensures PairOk(T, PutPair(T, d, D', u, U'), d, D', u, U')
  {
  }

  /** The idempotency row is the last put of every API transaction. */
  lemma StoredLast(T: Table, T1: Table, identity: Identity, hash: RequestHash, body: ReplyBody)
    requires Inv(T1) && Evolves(T, T1) && identity !in T1.idempotency && BodyTrue(T1, body)
    ensures var T' := PutStored(T1, identity, hash, body);
      Inv(T') && Evolves(T, T')
  {
    StoredKeeps(T1, identity, hash, body);
    EvolvesTransitive(T, T1, PutStored(T1, identity, hash, body));
  }

  lemma CompletedBody(T: Table, d: Id, u: Id, version: Id)
    requires d in T.documents && u in T.uploads && T.uploads[u].document == d
    ensures BodyTrue(Completed(T, d, u, version), UploadCompleted(d, u, T.next, Validating))
  {
  }

  lemma StoredSame(T: Table, T': Table, ref: Ref)
    requires Invariant.Stored(T, ref) && T'.objects == T.objects
    ensures Invariant.Stored(T', ref)
  {
  }

  lemma CompletePairKeeps(T: Table, d: Id, u: Id, version: Id)
    requires Inv(T) && u in T.uploads && d in T.documents
    requires !T.uploads[u].completed && T.uploads[u].status.AwaitingUpload?
    requires T.documents[d].currentUpload == Some(u) && T.documents[d].status.AwaitingUpload?
    requires Invariant.Stored(T, Ref(SourceKey(u), version))
    ensures Inv(Completed(T, d, u, version)) && Evolves(T, Completed(T, d, u, version))
  {
    hide Inv, Evolves, UploadOk, DocumentOk, PairOk, Invariant.Stored;
    var T0 := T.(next := T.next + 1, log := T.log.(runOf := T.log.runOf[T.next := u]));
    var D' := T.documents[d].(status := Validating, run := Some(T.next));
    var U' := T.uploads[u].(status := Validating, completed := true, run := Some(T.next),
                            sourceVersion := Some(version));
    ReserveRunKeeps(T, u);
    UploadHolds(T0, u);
    DocumentHolds(T0, d);
    StoredSame(T, T0, Ref(SourceKey(u), version));
    CompleteUploadLocal(T0, d, u, version, T.next, D', U');
    PairKeeps(T0, d, D', u, U');
    EvolvesTransitive(T, T0, PutPair(T0, d, D', u, U'));
  }

  lemma CompleteUploadKeeps(
    T: Table, d: Id, u: Id, version: Id, identity: Identity, hash: RequestHash)
    requires Inv(T) && CanComplete(T, d, u, identity)
    requires Invariant.Stored(T, Ref(SourceKey(u), version))
    ensures var T' := CompleteUpload(T, d, u, version, identity, hash);
      Inv(T') && Evolves(T, T')
  {
    assert T.uploads[u].document == d by { assert DocumentOk(T, d); }
    var T1 := Completed(T, d, u, version);
    CompletePairKeeps(T, d, u, version);
    CompletedBody(T, d, u, version);
    StoredLast(T, T1, identity, hash, UploadCompleted(d, u, T.next, Validating));
  }

  // --- a new upload of a new or archived document

  /** `T'` adds upload `u` to document `d`, which is new or has no current upload. */
  ghost predicate Birth(T: Table, T': Table, d: Id, D': Document, u: Id) {
    && u !in T.uploads && d != u
    && (d in T.documents ==> T.documents[d].currentUpload.None? && T.documents[d].status.Archived?
                             && d in T.log.born && Successor(T, T.documents[d], D'))
    && (d !in T.documents ==> d !in T.log.born && D'.instance in T.instances
                              && D' == NewDocument(D'.instance, u))
    && var born := if d in T.log.born then T.log.born[d] else [];
    && Waiting(D', u)
    && T'.documents == T.documents[d := D'] && T'.uploads == T.uploads[u := NewUpload(d)]
    && T'.archives == T.archives && T'.objects == T.objects && T'.instances == T.instances
    && T'.log == T.log.(born := T.log.born[d := born + [u]], ordinal := T.log.ordinal[u := |born|])
  }

  ghost predicate Waiting(D: Document, u: Id) {
    && D.status.AwaitingUpload? && D.currentUpload == Some(u) && D.run.None?
    && D.source.None? && D.selected.None? && D.dataPoints.None? && D.failureCode.None?
  }

  ghost predicate Successor(T: Table, D: Document, D': Document) {
    && D'.instance == D.instance && D'.lastArchive == D.lastArchive && D'.lease == D.lease
    && D'.screenInput == D.screenInput && D'.fullInput == D.fullInput
  }

  lemma BirthUpload(T: Table, T': Table, d: Id, D': Document, u: Id, x: Id)
    requires Birth(T, T', d, D', u) && x in T.uploads && UploadOk(T, x)
    ensures UploadOk(T', x) && UploadEvolves(T, T', x)
  {
    assert T'.uploads[x] == T.uploads[x] && x != u;
  }

  lemma BirthNewUpload(T: Table, T': Table, d: Id, D': Document, u: Id)
    requires Birth(T, T', d, D', u)
    ensures UploadOk(T', u)
  {
  }

  lemma BirthDocument(T: Table, T': Table, d: Id, D': Document, u: Id, x: Id)
    requires Birth(T, T', d, D', u) && x in T.documents && DocumentOk(T, x)
    ensures DocumentOk(T', x) && DocumentEvolves(T, T', x)
  {
  }

  lemma BirthNewDocument(T: Table, T': Table, d: Id, D': Document, u: Id)
    requires Birth(T, T', d, D', u) && d !in T.documents
    ensures DocumentOk(T', d)
  {
  }

  lemma BirthBorn(T: Table, T': Table, d: Id, D': Document, u: Id, x: Id)
    requires Birth(T, T', d, D', u) && x in T'.log.born && (x in T.log.born ==> BornOk(T, x))
    requires forall i :: i in T.log.ordinal ==> i in T.uploads
    ensures BornOk(T', x)
  {
  }

  lemma BirthArchives(T: Table, T': Table, d: Id, D': Document, u: Id)
    requires Birth(T, T', d, D', u) && ArchivesOk(T)
    ensures ArchivesOk(T')
  {
    forall p | p in T'.archives ensures ArchiveOk(T', p) {
      assert ArchiveOk(T, p);
    }
  }

  lemma BirthPipeline(T: Table, T': Table, d: Id, D': Document, u: Id)
    requires PipelineOk(T) && Birth(T, T', d, D', u)
    requires forall i :: i in T.log.ordinal ==> i in T.uploads
    ensures PipelineOk(T') && UploadsEvolve(T, T') && DocumentsEvolve(T, T')
  {
    BirthNewUpload(T, T', d, D', u);
    forall x | x in T.uploads ensures UploadOk(T', x) && UploadEvolves(T, T', x) {
      assert UploadOk(T, x);
      BirthUpload(T, T', d, D', u, x);
    }
    if d !in T.documents { BirthNewDocument(T, T', d, D', u); }
    forall x | x in T.documents ensures DocumentOk(T', x) && DocumentEvolves(T, T', x) {
      assert DocumentOk(T, x);
      BirthDocument(T, T', d, D', u, x);
    }
    forall x | x in T'.log.born ensures BornOk(T', x) {
      assert x in T.log.born ==> BornOk(T, x);
      BirthBorn(T, T', d, D', u, x);
    }
    BirthArchives(T, T', d, D', u);
  }

  /** Beside the birth, one stream record. */
  ghost predicate OneSignal(T: Table, T': Table) {
    && SameOutside(T, T') && T.next < T'.next
    && T'.signals.Keys == T.signals.Keys + {T'.next - 1} && Extends(T.signals, T'.signals)
    && T'.pending == T.pending + {T'.next - 1}
  }

  lemma BirthOutside(T: Table, T': Table, d: Id, D': Document, u: Id)
    requires Bounded(T) && Birth(T, T', d, D', u) && OneSignal(T, T') && u < T'.next && d < T'.next
    ensures Bounded(T') && OnlyPipeline(T, T') && Extends(T.log.ordinal, T'.log.ordinal)
  {
    BirthBounded(T, T', d, D', u);
    hide Bounded, Successor, Waiting;
  }

  lemma BirthBounded(T: Table, T': Table, d: Id, D': Document, u: Id)
    requires Bounded(T) && Birth(T, T', d, D', u) && OneSignal(T, T') && u < T'.next && d < T'.next
    ensures Bounded(T') && (forall x :: x in T.log.ordinal ==> x in T.uploads) && u !in T.uploads
  {
    hide Successor, Waiting;
  }

  lemma BirthKeeps(T: Table, T': Table, d: Id, D': Document, u: Id)
    requires Inv(T) && Birth(T, T', d, D', u) && OneSignal(T, T') && u < T'.next && d < T'.next
    ensures Inv(T') && Evolves(T, T')
  {
    BirthOutside(T, T', d, D', u);
    BirthPipeline(T, T', d, D', u);
    PipelineFrame(T, T');
  }

  lemma BornSignals(T: Table, d: Id, D': Document, u: Id, next: Id)
    requires Bounded(T) && T.next <= u < next && d < next
    ensures var T' := Born(T, d, D', u, next);
      OneSignal(T, T') && u < T'.next && d < T'.next
  {
  }

  lemma BornTells(T: Table, d: Id, D': Document, u: Id, next: Id)
    ensures var T' := Born(T, d, D', u, next);
      BodyTrue(T', UploadSession(d, u)) && T'.idempotency == T.idempotency
  {
  }

  lemma BornKeeps(T: Table, d: Id, D': Document, u: Id, next: Id)
    requires Inv(T) && Bounded(T) && Birth(T, Born(T, d, D', u, next), d, D', u)
    requires T.next <= u < next && d < next
    ensures var T' := Born(T, d, D', u, next);
      Inv(T') && Evolves(T, T') && BodyTrue(T', UploadSession(d, u))
      && T'.idempotency == T.idempotency
  {
    hide *;
    BornSignals(T, d, D', u, next);
    BornTells(T, d, D', u, next);
    BirthKeeps(T, Born(T, d, D', u, next), d, D', u);
  }

  lemma BornFresh(T: Table, instance: Id)
    requires Bounded(T) && instance in T.instances
    ensures Birth(T, Born(T, T.next, NewDocument(instance, T.next + 1), T.next + 1, T.next + 2),
                  T.next, NewDocument(instance, T.next + 1), T.next + 1)
  {
  }

  lemma CreateReady(T: Table, loan: LoanKey, instance: Id, identity: Identity)
    requires Inv(T) && CanCreateDocument(T, loan, instance, identity)
    ensures Bounded(T) && instance in T.instances && identity !in T.idempotency
  {
    assert HeadOk(T, loan);
  }

  lemma CreateDocumentKeeps(
    T: Table, loan: LoanKey, instance: Id, identity: Identity, hash: RequestHash)
    requires Inv(T) && CanCreateDocument(T, loan, instance, identity)
    ensures var T' := CreateDocument(T, instance, identity, hash);
      Inv(T') && Evolves(T, T')
  {
    hide *;
    var d, u := T.next, T.next + 1;
    CreateReady(T, loan, instance, identity);
    BornFresh(T, instance);
    BornKeeps(T, d, NewDocument(instance, u), u, T.next + 2);
    StoredLast(T, Born(T, d, NewDocument(instance, u), u, T.next + 2), identity, hash, UploadSession(d, u));
    CreateDocumentIs(T, instance, identity, hash);
  }

  lemma BornAgain(T: Table, d: Id)
    requires Inv(T) && d in T.documents
    requires T.documents[d].status.Archived? && T.documents[d].currentUpload.None?
    ensures Bounded(T) && d < T.next
    ensures Birth(T, Born(T, d, Renewed(T.documents[d], T.next), T.next, T.next + 1),
                  d, Renewed(T.documents[d], T.next), T.next)
  {
    assert DocumentOk(T, d);
  }

  lemma ReplaceReady(T: Table, loan: LoanKey, instance: Id, d: Id, identity: Identity)
    requires CanReplace(T, loan, instance, d, identity)
    ensures d in T.documents && T.documents[d].status.Archived? && T.documents[d].currentUpload.None?
    ensures identity !in T.idempotency
  {
  }

  lemma ReplaceKeeps(
    T: Table, loan: LoanKey, instance: Id, d: Id, identity: Identity, hash: RequestHash)
    requires Inv(T) && CanReplace(T, loan, instance, d, identity)
    ensures var T' := Replace(T, d, identity, hash);
      Inv(T') && Evolves(T, T')
  {
    hide *;
    var u := T.next;
    ReplaceReady(T, loan, instance, d, identity);
    BornAgain(T, d);
    BornKeeps(T, d, Renewed(T.documents[d], u), u, T.next + 1);
    StoredLast(T, Born(T, d, Renewed(T.documents[d], u), u, T.next + 1), identity, hash, UploadSession(d, u));
    ReplaceIs(T, d, identity, hash);
  }

  // --- the end of an upload's time as current

  /** `T'` archives the current upload of `d` under the next sequence. */
  ghost predicate Burial(T: Table, T': Table, d: Id, u: Id, A: DocumentArchive) {
    && d in T.documents && u in T.uploads && T.documents[d].currentUpload == Some(u)
    && Terminal(T.documents[d].status) && T.uploads[u].document == d
    && A.upload == u && ArchiveHolds(A, T.uploads[u])
    && var D := T.documents[d];
    && T'.documents == T.documents[d := D.(status := Archived, lastArchive := D.lastArchive + 1,
                                           currentUpload := None)]
    && T'.archives == T.archives[(d, D.lastArchive + 1) := A]
    && T'.uploads == T.uploads && T'.objects == T.objects && T'.instances == T.instances
    && T'.log == T.log
  }

  lemma BurialUpload(T: Table, T': Table, d: Id, u: Id, A: DocumentArchive, x: Id)
    requires Burial(T, T', d, u, A) && x in T.uploads && UploadOk(T, x)
    ensures UploadOk(T', x) && UploadEvolves(T, T', x)
  {
  }

  lemma BurialDocument(T: Table, T': Table, d: Id, u: Id, A: DocumentArchive, x: Id)
    requires Burial(T, T', d, u, A) && x in T.documents && DocumentOk(T, x)
    ensures DocumentOk(T', x) && DocumentEvolves(T, T', x)
  {
  }

  lemma BurialArchives(T: Table, T': Table, d: Id, u: Id, A: DocumentArchive)
    requires Burial(T, T', d, u, A) && ArchivesOk(T) && DocumentOk(T, d)
    ensures ArchivesOk(T')
  {
    forall p | p in T'.archives ensures ArchiveOk(T', p) {
      if p != (d, T.documents[d].lastArchive + 1) {
        assert p in T.archives && ArchiveOk(T, p);
      }
    }
  }

  lemma BurialPipeline(T: Table, T': Table, d: Id, u: Id, A: DocumentArchive)
    requires PipelineOk(T) && Burial(T, T', d, u, A)
    ensures PipelineOk(T') && UploadsEvolve(T, T') && DocumentsEvolve(T, T')
  {
    forall x | x in T.uploads ensures UploadOk(T', x) && UploadEvolves(T, T', x) {
      assert UploadOk(T, x);
      BurialUpload(T, T', d, u, A, x);
    }
    forall x | x in T.documents ensures DocumentOk(T', x) && DocumentEvolves(T, T', x) {
      assert DocumentOk(T, x);
      BurialDocument(T, T', d, u, A, x);
    }
    forall x | x in T'.log.born ensures BornOk(T', x) { assert BornOk(T, x); }
    assert DocumentOk(T, d);
    BurialArchives(T, T', d, u, A);
  }

  lemma BurialOutside(T: Table, T': Table, d: Id, u: Id, A: DocumentArchive)
    requires Bounded(T) && Burial(T, T', d, u, A) && SameOutside(T, T')
    requires T'.next == T.next && T'.signals == T.signals && T'.pending == T.pending
    requires (d, T.documents[d].lastArchive + 1) !in T.archives
    ensures Bounded(T') && OnlyPipeline(T, T') && Extends(T.archives, T'.archives)
  {
  }

  lemma BurialKeeps(T: Table, T': Table, d: Id, u: Id, A: DocumentArchive)
    requires Inv(T) && Burial(T, T', d, u, A) && OnlyPipeline(T, T') && Bounded(T')
    requires T.next <= T'.next && T'.signals == T.signals && Extends(T.archives, T'.archives)
    ensures Inv(T') && Evolves(T, T')
  {
    BurialPipeline(T, T', d, u, A);
    PipelineFrame(T, T');
  }

  lemma BuriedReady(T: Table, d: Id, seen: Document, u: Id)
    requires Inv(T) && d in T.documents && u in T.uploads && Terminal(seen.status)
    requires seen.currentUpload == Some(u) && T.documents[d].currentUpload == Some(u)
    requires seen.lastArchive == T.documents[d].lastArchive && seen.status == T.documents[d].status
    requires (d, seen.lastArchive + 1) !in T.archives
    requires ArchiveHolds(RowOf(seen), T.uploads[u])
    ensures var T' := Buried(T, d, seen);
      Burial(T, T', d, u, RowOf(seen)) && OnlyPipeline(T, T') && Bounded(T')
      && T.next <= T'.next && T'.signals == T.signals && Extends(T.archives, T'.archives)
  {
    assert DocumentOk(T, d);
    BurialOutside(T, Buried(T, d, seen), d, u, RowOf(seen));
  }

  lemma BuriedTells(T: Table, d: Id, seen: Document, u: Id)
    requires d in T.documents && seen.currentUpload == Some(u)
    ensures var T' := Buried(T, d, seen);
      T'.idempotency == T.idempotency && BodyTrue(T', DocumentArchived(d, u, seen.lastArchive + 1))
  {
  }

  lemma ArchiveReady(T: Table, d: Id, seen: Document, identity: Identity)
    requires CanArchiveDocument(T, d, seen, identity)
    ensures d in T.documents && T.documents[d].currentUpload == seen.currentUpload
    ensures seen.lastArchive == T.documents[d].lastArchive && seen.status == T.documents[d].status
    ensures (d, seen.lastArchive + 1) !in T.archives && identity !in T.idempotency
  {
  }

  /** `seen` is the document as an earlier read found it. */
  lemma ArchiveDocumentKeeps(
    T: Table, d: Id, seen: Document, identity: Identity, hash: RequestHash)
    requires Inv(T) && CanArchiveDocument(T, d, seen, identity)
    requires seen.currentUpload.Some? && Terminal(seen.status)
    requires seen.currentUpload.value in T.uploads
    requires ArchiveHolds(RowOf(seen), T.uploads[seen.currentUpload.value])
    ensures var T' := ArchiveDocument(T, d, seen, identity, hash);
      Inv(T') && Evolves(T, T')
  {
    hide *;
    var u := seen.currentUpload.value;
    ArchiveReady(T, d, seen, identity);
    BuriedReady(T, d, seen, u);
    BurialKeeps(T, Buried(T, d, seen), d, u, RowOf(seen));
    BuriedTells(T, d, seen, u);
    StoredLast(T, Buried(T, d, seen), identity, hash, DocumentArchived(d, u, seen.lastArchive + 1));
    ArchiveDocumentIs(T, d, seen, identity, hash);
  }

  // --- loans

  /** A write of loan rows only. */
  ghost predicate OnlyLoans(T: Table, T': Table) {
    && PipelineUntouched(T, T') && T'.lookups == T.lookups && T'.log.commits == T.log.commits
    && T'.objects == T.objects && T'.latest == T.latest && T'.scans == T.scans
    && T'.log.clean == T.log.clean && T'.signals == T.signals
    && T'.idempotency == T.idempotency && T'.log.effects == T.log.effects
    && T'.log.replies == T.log.replies && T.next <= T'.next
    && Extends(T.loanArchives, T'.loanArchives) && Extends(T.outbox, T'.outbox)
    && Extends(T.log.manifests, T'.log.manifests)
  }

  lemma LoansKeep(T: Table, T': Table)
    requires Inv(T) && OnlyLoans(T, T') && LoansOk(T') && RowsEvolve(T, T') && Bounded(T')
    ensures Inv(T') && Evolves(T, T')
  {
    UntouchedPipeline(T, T');
    LookupsFrame(T, T');
    CommitsFrame(T, T');
    assert Evolves(T, T');
    RepliesFrame(T, T');
  }

  lemma ActivatedHead(T: Table, loan: LoanKey, l: LoanKey)
    requires Bounded(T) && (l in T.heads ==> HeadOk(T, l))
    requires loan in T.heads ==> T.heads[loan].current.None?
    requires l in Activated(T, loan).heads
    ensures HeadOk(Activated(T, loan), l)
    ensures l in T.heads ==> HeadEvolves(T, Activated(T, loan), l)
  {
  }

  lemma ActivatedInstance(T: Table, loan: LoanKey, i: Id)
    requires Bounded(T) && (i in T.instances ==> InstanceOk(T, i))
    requires loan in T.heads ==> T.heads[loan].current.None?
    requires i in Activated(T, loan).instances
    ensures InstanceOk(Activated(T, loan), i)
    ensures i in T.instances ==> InstanceEvolves(T, Activated(T, loan), i)
  {
  }

  lemma ActivatedArchive(T: Table, loan: LoanKey, p: (LoanKey, nat))
    requires Bounded(T) && p in T.loanArchives && LoanArchiveOk(T, p)
    ensures LoanArchiveOk(Activated(T, loan), p)
  {
  }

  lemma ActivatedLoans(T: Table, loan: LoanKey)
    requires Bounded(T) && LoansOk(T) && (loan in T.heads ==> T.heads[loan].current.None?)
    ensures LoansOk(Activated(T, loan)) && RowsEvolve(T, Activated(T, loan))
  {
    var T' := Activated(T, loan);
    forall l | l in T'.heads ensures HeadOk(T', l) && (l in T.heads ==> HeadEvolves(T, T', l)) {
      assert l in T.heads ==> HeadOk(T, l);
      ActivatedHead(T, loan, l);
    }
    forall i | i in T'.instances ensures InstanceOk(T', i) && (i in T.instances ==> InstanceEvolves(T, T', i)) {
      assert i in T.instances ==> InstanceOk(T, i);
      ActivatedInstance(T, loan, i);
    }
    forall p | p in T'.loanArchives ensures LoanArchiveOk(T', p) {
      assert LoanArchiveOk(T, p);
      ActivatedArchive(T, loan, p);
    }
    forall e | e in T'.outbox ensures EventOk(T', e) { assert EventOk(T, e); }
  }

  lemma ActivatedBounded(T: Table, loan: LoanKey)
    requires Bounded(T)
    ensures Bounded(Activated(T, loan))
  {
  }

  lemma ActivatedOnlyLoans(T: Table, loan: LoanKey)
    ensures OnlyLoans(T, Activated(T, loan))
  {
  }

  lemma ActivatedOutside(T: Table, loan: LoanKey)
    requires Bounded(T)
    ensures OnlyLoans(T, Activated(T, loan)) && Bounded(Activated(T, loan))
    ensures BodyTrue(Activated(T, loan), LoanCreated(loan, T.next))
    ensures Activated(T, loan).idempotency == T.idempotency
  {
    hide Bounded, OnlyLoans;
    ActivatedBounded(T, loan);
    ActivatedOnlyLoans(T, loan);
  }

  lemma CreateLoanReady(T: Table, loan: LoanKey, identity: Identity)
    requires Inv(T) && CanCreateLoan(T, loan, identity)
    ensures Bounded(T) && LoansOk(T) && (loan in T.heads ==> T.heads[loan].current.None?)
    ensures identity !in T.idempotency
  {
  }

  lemma CreateLoanKeeps(T: Table, loan: LoanKey, identity: Identity, hash: RequestHash)
    requires Inv(T) && CanCreateLoan(T, loan, identity)
    ensures var T' := CreateLoan(T, loan, identity, hash);
      Inv(T') && Evolves(T, T')
  {
    hide *;
    CreateLoanReady(T, loan, identity);
    ActivatedLoans(T, loan);
    ActivatedOutside(T, loan);
    LoansKeep(T, Activated(T, loan));
    StoredLast(T, Activated(T, loan), identity, hash, LoanCreated(loan, T.next));
    CreateLoanIs(T, loan, identity, hash);
  }

  /** What an archiving attempt brings to its transaction: the manifest it serialized and stored. */
  ghost predicate ManifestReady(
    T: Table, loan: LoanKey, instance: Id, sequence: nat, m: Manifest, bytes: Bytes, stored: Ref)
  {
    && m.tenant == loan.tenant && m.loanId == loan.loanId
    && m.instance == instance && m.sequence == sequence
    && |m.documents| <= MAX_DOCUMENTS && DistinctIds(m.documents)
    && Invariant.Stored(T, stored) && stored.key == ManifestKey(instance, sequence)
    && T.objects[stored.version].content == Body(bytes)
    && bytes.Json? && bytes.parsed == m && bytes.length <= MAX_MANIFEST_BYTES
  }

  /** The rows that archiving `instance` of `loan` reads and checks. */
  ghost predicate Retiring(T: Table, loan: LoanKey, instance: Id) {
    && HeadIs(T, loan, instance) && instance in T.instances && T.instances[instance].active
    && HeadOk(T, loan) && InstanceOk(T, instance)
    && (loan, T.heads[loan].lastArchive + 1) !in T.loanArchives
  }

  lemma RetiredHead(
    T: Table, loan: LoanKey, instance: Id, m: Manifest, b: Bytes, stored: Ref, l: LoanKey)
    requires Retiring(T, loan, instance) && l in T.heads && HeadOk(T, l)
    ensures var T' := Retired(T, loan, instance, m, b, stored);
      HeadOk(T', l) && HeadEvolves(T, T', l)
  {
  }

  lemma RetiredInstance(
    T: Table, loan: LoanKey, instance: Id, m: Manifest, b: Bytes, stored: Ref, i: Id)
    requires Retiring(T, loan, instance) && i in T.instances && InstanceOk(T, i)
    ensures var T' := Retired(T, loan, instance, m, b, stored);
      InstanceOk(T', i) && InstanceEvolves(T, T', i)
  {
  }

  lemma RetiredArchive(
    T: Table, loan: LoanKey, instance: Id, m: Manifest, b: Bytes, stored: Ref, p: (LoanKey, nat))
    requires Bounded(T) && Retiring(T, loan, instance)
    requires ManifestReady(T, loan, instance, T.heads[loan].lastArchive + 1, m, b, stored)
    requires p in T.loanArchives ==> LoanArchiveOk(T, p)
    requires p in Retired(T, loan, instance, m, b, stored).loanArchives
    ensures LoanArchiveOk(Retired(T, loan, instance, m, b, stored), p)
  {
  }

  lemma RetiredHeads(T: Table, loan: LoanKey, instance: Id, m: Manifest, b: Bytes, stored: Ref)
    requires Bounded(T) && LoansOk(T) && Retiring(T, loan, instance)
    requires ManifestReady(T, loan, instance, T.heads[loan].lastArchive + 1, m, b, stored)
    ensures var T' := Retired(T, loan, instance, m, b, stored);
      forall l {:trigger HeadOk(T', l)} {:trigger HeadEvolves(T, T', l)} ::
        l in T'.heads ==> HeadOk(T', l) && HeadEvolves(T, T', l)
  {
    var T' := Retired(T, loan, instance, m, b, stored);
    forall l | l in T'.heads ensures HeadOk(T', l) && HeadEvolves(T, T', l) {
      assert HeadOk(T, l);
      RetiredHead(T, loan, instance, m, b, stored, l);
    }
  }

  lemma RetiredInstances(T: Table, loan: LoanKey, instance: Id, m: Manifest, b: Bytes, stored: Ref)
    requires Bounded(T) && LoansOk(T) && Retiring(T, loan, instance)
    requires ManifestReady(T, loan, instance, T.heads[loan].lastArchive + 1, m, b, stored)
    ensures var T' := Retired(T, loan, instance, m, b, stored);
      forall i {:trigger InstanceOk(T', i)} {:trigger InstanceEvolves(T, T', i)} ::
        i in T'.instances ==> InstanceOk(T', i) && InstanceEvolves(T, T', i)
  {
    var T' := Retired(T, loan, instance, m, b, stored);
    forall i | i in T'.instances ensures InstanceOk(T', i) && InstanceEvolves(T, T', i) {
      assert InstanceOk(T, i);
      RetiredInstance(T, loan, instance, m, b, stored, i);
    }
  }

  lemma RetiredArchives(T: Table, loan: LoanKey, instance: Id, m: Manifest, b: Bytes, stored: Ref)
    requires Bounded(T) && LoansOk(T) && Retiring(T, loan, instance)
    requires ManifestReady(T, loan, instance, T.heads[loan].lastArchive + 1, m, b, stored)
    ensures var T' := Retired(T, loan, instance, m, b, stored);
      forall p {:trigger LoanArchiveOk(T', p)} :: p in T'.loanArchives ==> LoanArchiveOk(T', p)
  {
    var T' := Retired(T, loan, instance, m, b, stored);
    forall p | p in T'.loanArchives ensures LoanArchiveOk(T', p) {
      assert p in T.loanArchives ==> LoanArchiveOk(T, p);
      RetiredArchive(T, loan, instance, m, b, stored, p);
    }
  }

  lemma RetiredEvents(T: Table, loan: LoanKey, instance: Id, m: Manifest, b: Bytes, stored: Ref)
    requires Bounded(T) && LoansOk(T) && Retiring(T, loan, instance)
    requires ManifestReady(T, loan, instance, T.heads[loan].lastArchive + 1, m, b, stored)
    ensures var T' := Retired(T, loan, instance, m, b, stored);
      forall e {:trigger EventOk(T', e)} :: e in T'.outbox ==> EventOk(T', e)
  {
    var T' := Retired(T, loan, instance, m, b, stored);
    forall e | e in T'.outbox ensures EventOk(T', e) {
      assert e in T.outbox ==> EventOk(T, e);
    }
  }

  lemma RetiredLoans(T: Table, loan: LoanKey, instance: Id, m: Manifest, b: Bytes, stored: Ref)
    requires Bounded(T) && LoansOk(T) && Retiring(T, loan, instance)
    requires ManifestReady(T, loan, instance, T.heads[loan].lastArchive + 1, m, b, stored)
    ensures var T' := Retired(T, loan, instance, m, b, stored);
      LoansOk(T') && RowsEvolve(T, T')
  {
    hide Retired, Retiring, ManifestReady, HeadOk, HeadEvolves, InstanceOk, InstanceEvolves, LoanArchiveOk, EventOk;
    RetiredHeads(T, loan, instance, m, b, stored);
    RetiredInstances(T, loan, instance, m, b, stored);
    RetiredArchives(T, loan, instance, m, b, stored);
    RetiredEvents(T, loan, instance, m, b, stored);
    RetiredGrows(T, loan, instance, m, b, stored);
  }

  lemma RetiredGrows(T: Table, loan: LoanKey, instance: Id, m: Manifest, b: Bytes, stored: Ref)
    requires Bounded(T) && LoansOk(T) && Retiring(T, loan, instance)
    requires ManifestReady(T, loan, instance, T.heads[loan].lastArchive + 1, m, b, stored)
    ensures var T' := Retired(T, loan, instance, m, b, stored);
      T.heads.Keys <= T'.heads.Keys && T.instances.Keys <= T'.instances.Keys && T'.lookups == T.lookups
  {
  }

  lemma RetiredOutside(T: Table, loan: LoanKey, instance: Id, m: Manifest, b: Bytes, stored: Ref)
    requires loan in T.heads && instance in T.instances && T.next !in T.outbox
    requires (loan, T.heads[loan].lastArchive + 1) !in T.log.manifests
    requires (loan, T.heads[loan].lastArchive + 1) !in T.loanArchives
    ensures OnlyLoans(T, Retired(T, loan, instance, m, b, stored))
  {
    var T', key := Retired(T, loan, instance, m, b, stored), (loan, T.heads[loan].lastArchive + 1);
    FreshRow(T.loanArchives, key, T'.loanArchives[key]);
    FreshRow(T.outbox, T.next, T'.outbox[T.next]);
    FreshRow(T.log.manifests, key, m);
    RetiredPipeline(T, loan, instance, m, b, stored);
    hide Extends, PipelineUntouched;
  }

  lemma FreshRow<K, V>(m: map<K, V>, k: K, v: V)
    requires k !in m
    ensures Extends(m, m[k := v])
  {
  }

  lemma RetiredPipeline(T: Table, loan: LoanKey, instance: Id, m: Manifest, b: Bytes, stored: Ref)
    requires loan in T.heads && instance in T.instances
    ensures PipelineUntouched(T, Retired(T, loan, instance, m, b, stored))
  {
  }

  lemma RetiredBounded(T: Table, loan: LoanKey, instance: Id, m: Manifest, b: Bytes, stored: Ref)
    requires Bounded(T) && loan in T.heads && instance in T.instances
    ensures Bounded(Retired(T, loan, instance, m, b, stored))
  {
  }

  lemma RetiredTells(T: Table, loan: LoanKey, instance: Id, m: Manifest, b: Bytes, stored: Ref)
    requires loan in T.heads && instance in T.instances
    ensures var T', sequence := Retired(T, loan, instance, m, b, stored), T.heads[loan].lastArchive + 1;
      T'.idempotency == T.idempotency
      && BodyTrue(T', LoanArchived(loan, instance, sequence, |m.documents|))
  {
  }

  lemma ArchiveLoanReady(T: Table, loan: LoanKey, instance: Id, last: nat, identity: Identity)
    requires Inv(T) && CanArchiveLoan(T, loan, instance, last, identity)
    ensures Bounded(T) && LoansOk(T) && Retiring(T, loan, instance)
    ensures loan in T.heads && instance in T.instances
    ensures T.heads[loan].lastArchive == last && identity !in T.idempotency
    ensures (loan, last + 1) !in T.log.manifests && (loan, last + 1) !in T.loanArchives
    ensures T.next !in T.outbox
  {
    assert HeadOk(T, loan) && InstanceOk(T, instance);
  }

  lemma ArchiveLoanKeeps(
    T: Table, loan: LoanKey, instance: Id, last: nat, m: Manifest, b: Bytes, stored: Ref,
    identity: Identity, hash: RequestHash)
    requires Inv(T) && CanArchiveLoan(T, loan, instance, last, identity)
    requires ManifestReady(T, loan, instance, last + 1, m, b, stored)
    ensures var T' := ArchiveLoan(T, loan, instance, m, b, stored, identity, hash);
      Inv(T') && Evolves(T, T')
  {
    hide *;
    ArchiveLoanReady(T, loan, instance, last, identity);
    RetiredLoans(T, loan, instance, m, b, stored);
    RetiredOutside(T, loan, instance, m, b, stored);
    RetiredBounded(T, loan, instance, m, b, stored);
    RetiredTells(T, loan, instance, m, b, stored);
    LoansKeep(T, Retired(T, loan, instance, m, b, stored));
    StoredLast(T, Retired(T, loan, instance, m, b, stored), identity, hash,
               LoanArchived(loan, instance, T.heads[loan].lastArchive + 1, |m.documents|));
    ArchiveLoanIs(T, loan, instance, m, b, stored, identity, hash);
  }
}
