/** What a handler must have found at each of its reads to have got past it. A read that finds anything else
    ends the handler with an error, which is no step. */
module Gates {
  import opened Records
  import opened Writes
  import Up = UploadProcessor
  import Idp = IdpPostprocessor
  import Api = LoanApi

  /** The loan API: a stored reply is taken over only for the same request; HEAD is active; a document belongs
      to the instance that HEAD named; a version is pinned only if it is the latest now. */
  lemma CallPasses(T: Table, t: Api.Call, T': Table, n: Option<Api.Call>)
    requires Api.Steps(T, t, T', n) && n.Some?
    ensures (t.Begin? || t.Recover?) && t.q.identity in T.idempotency ==>
      T.idempotency[t.q.identity].hash == RequestHash(t.q.identity.path, t.q.body)
    ensures t.ReadHead? ==>
      && Api.LoanOf(t.q) in T.heads && T.heads[Api.LoanOf(t.q)].active
      && var H := T.heads[Api.LoanOf(t.q)];
      && (n.value.DocumentTxn? || n.value.ReadDocument? || n.value.Query?) && H.current == Some(n.value.instance)
      && (n.value.Query? ==> n.value.last == H.lastArchive && n.value.listed == [])
    ensures t.ReadDocument? ==>
      && var path := t.q.identity.path;
      && (path.CompletePath? || path.ArchiveDocumentPath?) && path.document in T.documents
      && var D := T.documents[path.document];
      && D.instance == t.instance
      && (path.CompletePath? ==> n.value.ReadUpload? && D.currentUpload == Some(path.upload))
      && (path.ArchiveDocumentPath? ==>
            n.value.ArchiveTxn? && n.value.seen == D && D.currentUpload.Some?
            && D.status in {Succeeded, Hold, Rejected, Failed})
    ensures t.ReadUpload? ==>
      && t.q.identity.path.CompletePath? && t.q.identity.path.upload in T.uploads
      && var U := T.uploads[t.q.identity.path.upload];
      && U.document == t.q.identity.path.document
      && (if U.completed then
            U.run.Some? && n.value.AlreadyTxn?
            && n.value.body == UploadCompleted(U.document, t.q.identity.path.upload, U.run.value, U.status)
          else n.value.PinVersion?)
    ensures t.PinVersion? ==>
      && t.q.identity.path.CompletePath? && n.value.CompleteTxn?
      && Find(T.latest, SourceKey(t.q.identity.path.upload)) == Some(n.value.version)
  {
    hide Api.CollectingSteps, CreateLoan, CreateDocument, Replace, CompleteUpload, ArchiveDocument, CanReplace,
         CanCreateDocument, CanCreateLoan, CanComplete, CanArchiveDocument, PutStored, SendReply, PutUpload, Send;
  }

  /** The postprocessor: a route is taken only to rows of one run with the upload current, and by an input
      object only if the document pins this very version of it; work goes on only at its stage, and a lost
      race is taken for an own commit only if this very artifact is committed. */
  lemma WorkerPasses(T: Table, t: Idp.Worker, T': Table, n: Option<Idp.Worker>)
    requires Idp.Steps(T, t, T', n)
    ensures t.ReadDocument? && n.Some? ==>
      && t.at.document in T.documents && t.e.key.Some?
      && var D := T.documents[t.at.document];
      && D.run == Some(t.at.run) && t.snap.run == D.run && D.currentUpload == Some(t.at.upload)
      && (if t.at.stage == Screen then D.screenInput else D.fullInput) == Some(Ref(t.e.key.value, t.version))
    ensures t.LookupDocument? && n.Some? ==>
      && t.found.document in T.documents
      && var D := T.documents[t.found.document];
      && D.run == Some(t.found.run) && t.snap.run == D.run && D.currentUpload == Some(t.k.upload)
    ensures (t.LeaseRead? && n == Some(Idp.Clear(t.e, t.r))) || t.LeaseRefresh? ==>
      && t.r.d in T.documents
      && var status := T.documents[t.r.d].status;
      status in {Succeeded, Hold, Rejected, Failed, Archived} || (t.r.stage == Screen && status == Extracting)
    ensures t.CheckSel? && n == Some(Idp.Clear(t.e, t.r)) ==>
      && t.r.d in T.documents && T.documents[t.r.d].status == Extracting
      && T.documents[t.r.d].fullInput.Some? && T.documents[t.r.d].fullInput.value.version == t.full.version
    ensures t.CheckSucc? && n == Some(Idp.Clear(t.e, t.r)) ==>
      && t.r.d in T.documents && T.documents[t.r.d].status == Succeeded
      && T.documents[t.r.d].dataPoints.Some? && T.documents[t.r.d].dataPoints.value.version == t.data.version
    ensures t.HoldCheck? ==>
      t.r.d in T.documents && T.documents[t.r.d].status == Hold && T.documents[t.r.d].failureCode == Some(t.code)
    ensures t.FailRecheck? ==>
      && t.r.d in T.documents
      && var status := T.documents[t.r.d].status;
      if t.r.stage == Screen then status != Queued && status != Screening else status != Extracting
  {
    hide Idp.RunningSteps, CommitSelected, CommitSucceeded, PutObject, HoldDocument, FailWorkflow, EndLookup,
         LeasePostprocess, ClearMarker, CanSelect, CanSucceed, CanHold, CanLeasePostprocess;
  }

  /** The upload processor: it joins only on a scan of the exact version, leases only what is not over, and
      takes a lost race for an own commit only if this very staged version, or failure, is there. */
  lemma InvocationPasses(T: Table, t: Up.Invocation, T': Table, n: Option<Up.Invocation>)
    requires Up.Steps(T, t, T', n) && n.Some?
    ensures t.ScanRead? && (t.u, t.version) in T.scans && T.scans[(t.u, t.version)].verdict != t.verdict ==>
      n.value.ScanPut? && n.value.verdict == Conflict
    ensures t.LoadScan? ==>
      if (t.u, t.version) in T.scans then
        n.value.SyncSummary? && n.value.verdict == T.scans[(t.u, t.version)].verdict
      else n.value == Up.Return(t.signal, t.u, true)
    ensures t.SyncSummary? && n.value.LeaseCheck? ==>
      t.verdict == Clean && t.snap.completed && t.snap.sourceVersion.Some?
    ensures t.LeaseCheck? ==>
      && t.u in T.uploads
      && (n.value.LeaseTry? <==> T.uploads[t.u].status in {AwaitingUpload, Validating, Screening, Archived})
    ensures t.LeaseTry? && n.value.Validate? ==>
      && t.u in T.uploads && T.uploads[t.u].status == Validating && T.uploads[t.u].completed
      && T.uploads[t.u].sourceVersion == Some(t.version)
    ensures t.QueueCheck? ==>
      t.u in T.uploads && T.uploads[t.u].status == Queued && T.uploads[t.u].screenInput.Some?
      && T.uploads[t.u].screenInput.value.version == t.staged.version
    ensures t.FailCheck? ==>
      t.u in T.uploads && T.uploads[t.u].status == t.disposition && T.uploads[t.u].failureCode == Some(t.code)
  {
    hide PutScan, SetSummary, LeaseValidation, PutObject, CommitQueued, FailUpload, CanQueue, CanFailUpload;
  }
}
