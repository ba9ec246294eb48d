/** The loan API: one call per HTTP attempt, one table, object-store or queue access per step. */
module LoanApi {
  import opened Records
  import opened Writes
  import opened Invariant
  import opened Preservation
  import opened Transactions

  datatype Request = Request(identity: Identity, body: RequestBody)

  function HashOf(q: Request): RequestHash { RequestHash(q.identity.path, q.body) }

  function LoanOf(q: Request): LoanKey {
    match q.identity.path
    case LoansPath => q.body.loan
    case DocumentsPath(loan) => loan
    case UploadsPath(loan, _) => loan
    case CompletePath(loan, _, _) => loan
    case ArchiveDocumentPath(loan, _) => loan
    case ArchiveLoanPath(loan) => loan
  }

  datatype Call =
    | Begin(q: Request)
    | LoanTxn(q: Request)
    | ReadHead(q: Request)
    | DocumentTxn(q: Request, instance: Id)
    | ReadDocument(q: Request, instance: Id)
    | ReadUpload(q: Request)
    | PinVersion(q: Request)
    | CompleteTxn(q: Request, version: Id)
    | AlreadyTxn(q: Request, body: ReplyBody)
    | ArchiveTxn(q: Request, seen: Document)
    | Query(q: Request, instance: Id, last: nat, owed: set<Id>, listed: seq<ManifestDocument>)
    | ManifestPut(q: Request, instance: Id, last: nat, listed: seq<ManifestDocument>)
    | LoanArchiveTxn(q: Request, manifest: Manifest, bytes: Bytes, stored: Ref)
    | Recover(q: Request)
    | Renew(q: Request, body: ReplyBody)
    | Invoke(q: Request, body: ReplyBody)
    | Respond(q: Request, body: ReplyBody)

  /** What a stored reply leads to: a fresh grant, a nudge to the processor, or the reply itself. */
  function Replay(q: Request, body: ReplyBody): Call {
    match q.identity.path
    case DocumentsPath(_) => Renew(q, body)
    case UploadsPath(_, _) => Renew(q, body)
    case CompletePath(_, _, _) => Invoke(q, body)
    case _ => Respond(q, body)
  }

  /** The document is not done with: an upload is awaited, or it is on its way through the pipeline. */
  predicate Blocking(status: Status): (blocks: bool)
    ensures blocks <==> status in {AwaitingUpload, Validating, Queued, Screening, Extracting}
  {
    !Terminal(status) && !status.Archived?
  }

  function Entry(d: Id, D: Document): (m: ManifestDocument)
    ensures m.documentId == d && m.status == D.status && m.upload == D.currentUpload && m.run == D.run
    ensures m.source == D.source && m.selected == D.selected && m.dataPoints == D.dataPoints
  {
    ManifestDocument(d, D.status, D.currentUpload, D.run, D.source, D.selected, D.dataPoints)
  }

  predicate Lists(listed: seq<ManifestDocument>, d: Id) {
    exists i :: 0 <= i < |listed| && listed[i].documentId == d
  }

  // ------------------------------------------------------------------- steps

  predicate Starts(t: Call) { t.Begin? }

  predicate Opening(t: Call) {
    t.Begin? || t.LoanTxn? || t.ReadHead? || t.DocumentTxn?
  }

  predicate OpeningSteps(T: Table, t: Call, T': Table, n: Option<Call>)
    requires Opening(t)
  {
    match t
    case Begin(q) =>
      && T' == T
      && if q.identity in T.idempotency then
           T.idempotency[q.identity].hash == HashOf(q)
           && n == Some(Replay(q, T.idempotency[q.identity].body))
         else
           n == Some(if q.identity.path.LoansPath? then LoanTxn(q) else ReadHead(q))
    case LoanTxn(q) =>
      if CanCreateLoan(T, LoanOf(q), q.identity) then
        T' == CreateLoan(T, LoanOf(q), q.identity, HashOf(q))
        && n == Some(Respond(q, LoanCreated(LoanOf(q), T.next)))
      else
        T' == T && n == Some(Recover(q))
    case ReadHead(q) =>
      && T' == T && LoanOf(q) in T.heads
      && var head := T.heads[LoanOf(q)];
      && head.active && head.current.Some?
      && n == Some(match q.identity.path
                   case DocumentsPath(_) => DocumentTxn(q, head.current.value)
                   case UploadsPath(_, _) => DocumentTxn(q, head.current.value)
                   case ArchiveLoanPath(_) =>
                     Query(q, head.current.value, head.lastArchive, InstanceDocuments(T, head.current.value), [])
                   case _ => ReadDocument(q, head.current.value))
    case DocumentTxn(q, instance) =>
      if q.identity.path.UploadsPath? then
        var d := q.identity.path.document;
        if CanReplace(T, LoanOf(q), instance, d, q.identity) then
          T' == Replace(T, d, q.identity, HashOf(q)) && n == Some(Respond(q, UploadSession(d, T.next)))
        else
          T' == T && n == Some(Recover(q))
      else if CanCreateDocument(T, LoanOf(q), instance, q.identity) then
        T' == CreateDocument(T, instance, q.identity, HashOf(q))
        && n == Some(Respond(q, UploadSession(T.next, T.next + 1)))
      else
        T' == T && n == Some(Recover(q))
  }

  /** The documents of an instance when a query of them begins; it may see later ones as well. */
  function InstanceDocuments(T: Table, instance: Id): (r: set<Id>)
    ensures forall d :: d in r <==> d in T.documents && T.documents[d].instance == instance
  {
    set d | d in T.documents && T.documents[d].instance == instance
  }

  predicate Completing(t: Call) {
    t.ReadDocument? || t.ReadUpload? || t.PinVersion? || t.CompleteTxn? || t.AlreadyTxn? || t.ArchiveTxn?
  }

  predicate CompletingSteps(T: Table, t: Call, T': Table, n: Option<Call>)
    requires Completing(t)
  {
    match t
    case ReadDocument(q, instance) =>
      && T' == T
      && (q.identity.path.CompletePath? || q.identity.path.ArchiveDocumentPath?)
      && q.identity.path.document in T.documents
      && var D := T.documents[q.identity.path.document];
      && D.instance == instance
      && if q.identity.path.CompletePath? then
           D.currentUpload == Some(q.identity.path.upload) && n == Some(ReadUpload(q))
         else
           D.currentUpload.Some? && Terminal(D.status) && n == Some(ArchiveTxn(q, D))
    case ReadUpload(q) =>
      && T' == T && q.identity.path.CompletePath? && q.identity.path.upload in T.uploads
      && var U := T.uploads[q.identity.path.upload];
      && U.document == q.identity.path.document
      && if U.completed then
           U.run.Some?
           && n == Some(AlreadyTxn(q, UploadCompleted(U.document, q.identity.path.upload, U.run.value, U.status)))
         else
           n == Some(PinVersion(q))
    case PinVersion(q) =>
      && T' == T && q.identity.path.CompletePath?
      && SourceKey(q.identity.path.upload) in T.latest
      && n == Some(CompleteTxn(q, T.latest[SourceKey(q.identity.path.upload)]))
    case CompleteTxn(q, version) =>
      && q.identity.path.CompletePath?
      && var d, u := q.identity.path.document, q.identity.path.upload;
      && if CanComplete(T, d, u, q.identity) then
           T' == CompleteUpload(T, d, u, version, q.identity, HashOf(q))
           && n == Some(Invoke(q, UploadCompleted(d, u, T.next, Validating)))
         else
           T' == T && n == Some(Recover(q))
    case AlreadyTxn(q, body) =>
      if q.identity !in T.idempotency then
        T' == PutStored(T, q.identity, HashOf(q), body) && n == Some(Invoke(q, body))
      else
        T' == T && n == Some(Recover(q))
    case ArchiveTxn(q, seen) =>
      && q.identity.path.ArchiveDocumentPath? && seen.currentUpload.Some?
      && var d := q.identity.path.document;
      && if CanArchiveDocument(T, d, seen, q.identity) then
           T' == ArchiveDocument(T, d, seen, q.identity, HashOf(q))
           && n == Some(Respond(q, DocumentArchived(d, seen.currentUpload.value, seen.lastArchive + 1)))
         else
           T' == T && n == Some(Recover(q))
  }

  predicate Collecting(t: Call) {
    t.Query? || t.ManifestPut? || t.LoanArchiveTxn?
  }

  function ManifestOf(q: Request, instance: Id, last: nat, listed: seq<ManifestDocument>): (m: Manifest)
    ensures LoanKey(m.tenant, m.loanId) == LoanOf(q) && m.instance == instance && m.sequence == last + 1
    ensures m.documents == listed
  {
    Manifest(LoanOf(q).tenant, LoanOf(q).loanId, instance, last + 1, listed)
  }

  /** A paginated query: rows of the instance in any order, and at least those that were there
      when it began. */
  predicate CollectingSteps(T: Table, t: Call, T': Table, n: Option<Call>)
    requires Collecting(t)
  {
    match t
    case Query(q, instance, last, owed, listed) =>
      && T' == T && n.Some?
      && if n.value.Query? then
           |n.value.listed| == |listed| + 1
           && var d := n.value.listed[|listed|].documentId;
           && d in T.documents && T.documents[d].instance == instance && !Lists(listed, d)
           && n.value == Query(q, instance, last, owed, listed + [Entry(d, T.documents[d])])
         else
           && (forall d :: d in owed ==> Lists(listed, d))
           && |listed| <= MAX_DOCUMENTS
           && (forall i :: 0 <= i < |listed| ==> !Blocking(listed[i].status))
           && n.value == ManifestPut(q, instance, last, listed)
    case ManifestPut(q, instance, last, listed) =>
      && var m := ManifestOf(q, instance, last, listed);
      && n.Some? && n.value.LoanArchiveTxn?
      && n.value.bytes == Json(m, n.value.bytes.length) && n.value.bytes.length <= MAX_MANIFEST_BYTES
      && T' == PutObject(T, Object(ManifestKey(instance, last + 1), Body(n.value.bytes), None))
      && n.value == LoanArchiveTxn(q, m, n.value.bytes, Ref(ManifestKey(instance, last + 1), T.next))
    case LoanArchiveTxn(q, m, bytes, stored) =>
      && m.sequence >= 1
      && if CanArchiveLoan(T, LoanOf(q), m.instance, m.sequence - 1, q.identity) then
           T' == ArchiveLoan(T, LoanOf(q), m.instance, m, bytes, stored, q.identity, HashOf(q))
           && n == Some(Respond(q, LoanArchived(LoanOf(q), m.instance, m.sequence, |m.documents|)))
         else
           T' == T && n == Some(Recover(q))
  }

  predicate ReplySteps(T: Table, t: Call, T': Table, n: Option<Call>)
    requires t.Recover? || t.Renew? || t.Invoke? || t.Respond?
  {
    match t
    case Recover(q) =>
      && T' == T && q.identity in T.idempotency && T.idempotency[q.identity].hash == HashOf(q)
      && n == Some(Replay(q, T.idempotency[q.identity].body))
    case Renew(q, body) =>
      && body.UploadSession? && body.upload in T.uploads
      && T.uploads[body.upload].status.AwaitingUpload?
      && T' == PutUpload(T, body.upload, T.uploads[body.upload])
      && n == Some(Respond(q, body))
    case Invoke(q, body) =>
      && n == Some(Respond(q, body))
      && (T' == T || (ReadyToInvoke(T, body) && T' == Send(T, Nudge(T, body))))
    case Respond(q, body) =>
      T' == SendReply(T, q.identity, HashOf(q), body) && n == None
  }

  /** `invoke_upload_processor_if_ready`: only when both signals are already in. */
  predicate ReadyToInvoke(T: Table, body: ReplyBody) {
    && body.UploadCompleted? && body.upload in T.uploads
    && var U := T.uploads[body.upload];
    && U.status.Validating? && U.completed && U.scan == Some(Clean) && U.sourceVersion.Some?
  }

  function Nudge(T: Table, body: ReplyBody): Signal
    requires ReadyToInvoke(T, body)
  {
    ClientComplete(body.upload, T.uploads[body.upload].sourceVersion.value)
  }

  predicate Steps(T: Table, t: Call, T': Table, n: Option<Call>) {
    if Opening(t) then OpeningSteps(T, t, T', n)
    else if Completing(t) then CompletingSteps(T, t, T', n)
    else if Collecting(t) then CollectingSteps(T, t, T', n)
    else ReplySteps(T, t, T', n)
  }

  // ------------------------------------------------------ what a call knows

  ghost predicate Answered(T: Table, q: Request, body: ReplyBody) {
    Find(T.idempotency, q.identity) == Some(Records.Stored(HashOf(q), body))
  }

  /** While the upload still shows the SUCCEEDED or FAILED that was read, its code is the one read. */
  predicate CodeHolds(seen: Document, U: Upload) {
    U.status == seen.status && (seen.status.Succeeded? || seen.status.Failed?) ==>
      seen.failureCode == U.failureCode
  }

  ghost predicate CallOk(T: Table, t: Call) {
    match t
    case CompleteTxn(q, version) =>
      q.identity.path.CompletePath?
      && Invariant.Stored(T, Ref(SourceKey(q.identity.path.upload), version))
    case AlreadyTxn(q, body) => BodyTrue(T, body)
    case ArchiveTxn(q, seen) =>
      seen.currentUpload.Some? && Terminal(seen.status) && seen.currentUpload.value in T.uploads
      && ArchiveHolds(RowOf(seen), T.uploads[seen.currentUpload.value])
      && CodeHolds(seen, T.uploads[seen.currentUpload.value])
    case Query(_, _, _, _, listed) => DistinctIds(listed)
    case ManifestPut(_, _, _, listed) => DistinctIds(listed) && |listed| <= MAX_DOCUMENTS
    case LoanArchiveTxn(q, m, bytes, stored) =>
      m.sequence >= 1 && ManifestReady(T, LoanOf(q), m.instance, m.sequence, m, bytes, stored)
    case Renew(q, body) => Answered(T, q, body)
    case Invoke(q, body) => Answered(T, q, body)
    case Respond(q, body) => Answered(T, q, body)
    case _ => true
  }

  lemma FrozenHolds(A: DocumentArchive, U: Upload, U': Upload)
    requires ArchiveHolds(A, U) && UploadForward(U, U') && !U'.status.Archived?
    ensures ArchiveHolds(A, U')
  {
  }

  lemma CodeStillHolds(seen: Document, U: Upload, U': Upload)
    requires Terminal(U.status) && CodeHolds(seen, U) && UploadForward(U, U')
    ensures CodeHolds(seen, U')
  {
  }

  lemma ArchiveTxnStable(T: Table, T': Table, t: Call)
    requires t.ArchiveTxn? && CallOk(T, t) && UploadsEvolve(T, T') && UploadsOk(T')
    ensures CallOk(T', t)
  {
    var u := t.seen.currentUpload.value;
    assert UploadEvolves(T, T', u) && UploadOk(T', u);
    FrozenHolds(RowOf(t.seen), T.uploads[u], T'.uploads[u]);
    CodeStillHolds(t.seen, T.uploads[u], T'.uploads[u]);
  }

  lemma OtherCallStable(T: Table, T': Table, t: Call)
    requires !t.ArchiveTxn? && !t.AlreadyTxn? && CallOk(T, t) && StoresExtend(T, T')
    ensures CallOk(T', t)
  {
  }

  /** Nobody else's step can invalidate what a call knows. In particular the references an
      archiving call has read stay those of the upload, because a terminal upload is frozen. */
  lemma CallStable(T: Table, T': Table, t: Call)
    requires Inv(T) && CallOk(T, t) && Evolves(T, T') && Inv(T')
    ensures CallOk(T', t)
  {
    EvolvesParts(T, T');
    assert UploadsOk(T');
    if t.AlreadyTxn? {
      BodyStable(T, T', t.body);
    } else if t.ArchiveTxn? {
      ArchiveTxnStable(T, T', t);
    } else {
      OtherCallStable(T, T', t);
    }
  }

  // ------------------------------------------------------------------ safety

  lemma OpeningTable(T: Table, t: Call, T': Table, n: Option<Call>)
    requires Opening(t) && Inv(T) && OpeningSteps(T, t, T', n)
    ensures Inv(T') && Evolves(T, T')
  {
    hide Inv, Evolves;
    match t
    case LoanTxn(q) =>
      if CanCreateLoan(T, LoanOf(q), q.identity) {
        CreateLoanKeeps(T, LoanOf(q), q.identity, HashOf(q));
      } else {
        DrawNothing(T);
      }
    case DocumentTxn(q, instance) =>
      if q.identity.path.UploadsPath? && CanReplace(T, LoanOf(q), instance, q.identity.path.document, q.identity) {
        ReplaceKeeps(T, LoanOf(q), instance, q.identity.path.document, q.identity, HashOf(q));
      } else if !q.identity.path.UploadsPath? && CanCreateDocument(T, LoanOf(q), instance, q.identity) {
        CreateDocumentKeeps(T, LoanOf(q), instance, q.identity, HashOf(q));
      } else {
        DrawNothing(T);
      }
    case _ => DrawNothing(T);
  }

  lemma CompleteTxnTable(T: Table, t: Call, T': Table, n: Option<Call>)
    requires t.CompleteTxn? && Inv(T) && CallOk(T, t) && CompletingSteps(T, t, T', n)
    ensures Inv(T') && Evolves(T, T')
  {
    hide Inv, Evolves, CompleteUpload;
    var d, u := t.q.identity.path.document, t.q.identity.path.upload;
    if CanComplete(T, d, u, t.q.identity) { CompleteUploadKeeps(T, d, u, t.version, t.q.identity, HashOf(t.q)); }
    else { DrawNothing(T); }
  }

  lemma ArchiveTxnTable(T: Table, t: Call, T': Table, n: Option<Call>)
    requires t.ArchiveTxn? && Inv(T) && CallOk(T, t) && CompletingSteps(T, t, T', n)
    ensures Inv(T') && Evolves(T, T')
  {
    hide Inv, Evolves, ArchiveDocument;
    var d := t.q.identity.path.document;
    if CanArchiveDocument(T, d, t.seen, t.q.identity) {
      ArchiveDocumentKeeps(T, d, t.seen, t.q.identity, HashOf(t.q));
    } else {
      DrawNothing(T);
    }
  }

  lemma CompletingTable(T: Table, t: Call, T': Table, n: Option<Call>)
    requires Completing(t) && Inv(T) && CallOk(T, t) && CompletingSteps(T, t, T', n)
    ensures Inv(T') && Evolves(T, T')
  {
    hide Inv, Evolves, CompleteUpload, ArchiveDocument;
    match t
    case CompleteTxn(_, _) => CompleteTxnTable(T, t, T', n);
    case AlreadyTxn(q, body) =>
      if q.identity !in T.idempotency { StoredKeeps(T, q.identity, HashOf(q), body); }
      else { DrawNothing(T); }
    case ArchiveTxn(_, _) => ArchiveTxnTable(T, t, T', n);
    case _ => DrawNothing(T);
  }

  lemma CollectingTable(T: Table, t: Call, T': Table, n: Option<Call>)
    requires Collecting(t) && Inv(T) && CallOk(T, t) && CollectingSteps(T, t, T', n)
    ensures Inv(T') && Evolves(T, T')
  {
    hide Inv, Evolves;
    match t
    case Query(_, _, _, _, _) => DrawNothing(T);
    case ManifestPut(q, instance, last, listed) =>
      ObjectKeeps(T, Object(ManifestKey(instance, last + 1), Body(n.value.bytes), None));
    case LoanArchiveTxn(q, m, bytes, stored) =>
      if CanArchiveLoan(T, LoanOf(q), m.instance, m.sequence - 1, q.identity) {
        ArchiveLoanKeeps(T, LoanOf(q), m.instance, m.sequence - 1, m, bytes, stored, q.identity, HashOf(q));
      } else {
        DrawNothing(T);
      }
  }

  lemma RenewKeeps(T: Table, u: Id)
    requires Inv(T) && u in T.uploads
    ensures Inv(PutUpload(T, u, T.uploads[u])) && Evolves(T, PutUpload(T, u, T.uploads[u]))
  {
    UploadHolds(T, u);
    DocumentHolds(T, T.uploads[u].document);
    hide Inv, Evolves;
    SetSummaryLocal(T, u, T.uploads[u]);
    hide UploadOk, DocumentOk, PairOk;
    UploadKeeps(T, u, T.uploads[u]);
  }

  lemma ReplyTable(T: Table, t: Call, T': Table, n: Option<Call>)
    requires t.Recover? || t.Renew? || t.Invoke? || t.Respond?
    requires Inv(T) && CallOk(T, t) && ReplySteps(T, t, T', n)
    ensures Inv(T') && Evolves(T, T')
  {
    hide Inv, Evolves;
    match t
    case Recover(_) => DrawNothing(T);
    case Renew(_, body) => RenewKeeps(T, body.upload);
    case Invoke(_, body) =>
      if T' == T { DrawNothing(T); } else { SendKeeps(T, Nudge(T, body)); }
    case Respond(q, body) => ReplyKeeps(T, q.identity, HashOf(q), body);
  }

  /** Every step of the API is safe for the table, whatever the others are doing. */
  lemma StepTable(T: Table, t: Call, T': Table, n: Option<Call>)
    requires Inv(T) && CallOk(T, t) && Steps(T, t, T', n)
    ensures Inv(T') && Evolves(T, T')
  {
    hide Inv, Evolves, CallOk, OpeningSteps, CompletingSteps, CollectingSteps, ReplySteps;
    if Opening(t) { OpeningTable(T, t, T', n); }
    else if Completing(t) { CompletingTable(T, t, T', n); }
    else if Collecting(t) { CollectingTable(T, t, T', n); }
    else { ReplyTable(T, t, T', n); }
  }

  // --- what the next program point knows

  lemma PutAnswers(T: Table, q: Request, body: ReplyBody)
    ensures Answered(PutStored(T, q.identity, HashOf(q), body), q, body)
  {
  }

  lemma OpeningCall(T: Table, t: Call, T': Table, n: Option<Call>)
    requires Opening(t) && OpeningSteps(T, t, T', n) && n.Some?
    ensures CallOk(T', n.value)
  {
    hide Activated, Born, PutStored, CreateLoan, CreateDocument, Replace, CanReplace, CanCreateDocument, CanCreateLoan;
    if t.LoanTxn? && CanCreateLoan(T, LoanOf(t.q), t.q.identity) {
      CreateLoanIs(T, LoanOf(t.q), t.q.identity, HashOf(t.q));
      PutAnswers(Activated(T, LoanOf(t.q)), t.q, n.value.body);
    } else if t.DocumentTxn? && n.value.Respond? {
      DocumentTxnCall(T, t, T', n);
    }
  }

  lemma ReplaceAnswers(T: Table, q: Request, instance: Id, d: Id)
    requires CanReplace(T, LoanOf(q), instance, d, q.identity)
    ensures Answered(Replace(T, d, q.identity, HashOf(q)), q, UploadSession(d, T.next))
  {
    hide Born, PutStored, Replace, Answered, Renewed;
    ReplaceIs(T, d, q.identity, HashOf(q));
    PutAnswers(Born(T, d, Renewed(T.documents[d], T.next), T.next, T.next + 1), q, UploadSession(d, T.next));
  }

  lemma CreateAnswers(T: Table, q: Request, instance: Id)
    ensures Answered(CreateDocument(T, instance, q.identity, HashOf(q)), q, UploadSession(T.next, T.next + 1))
  {
    hide Born, PutStored, CreateDocument, Answered;
    CreateDocumentIs(T, instance, q.identity, HashOf(q));
    PutAnswers(Born(T, T.next, NewDocument(instance, T.next + 1), T.next + 1, T.next + 2), q,
               UploadSession(T.next, T.next + 1));
  }

  lemma DocumentTxnCall(T: Table, t: Call, T': Table, n: Option<Call>)
    requires t.DocumentTxn? && OpeningSteps(T, t, T', n) && n.Some? && n.value.Respond?
    ensures CallOk(T', n.value)
  {
    hide CreateLoan, CreateDocument, Replace, CanReplace, CanCreateDocument, CanCreateLoan, Answered;
    if t.q.identity.path.UploadsPath? {
      ReplaceAnswers(T, t.q, t.instance, t.q.identity.path.document);
    } else {
      CreateAnswers(T, t.q, t.instance);
    }
  }

  lemma SeenDocument(T: Table, d: Id)
    requires d in T.documents && DocumentOk(T, d) && Terminal(T.documents[d].status)
    requires T.documents[d].currentUpload.Some?
    ensures var D := T.documents[d];
      && D.currentUpload.value in T.uploads && ArchiveHolds(RowOf(D), T.uploads[D.currentUpload.value])
      && CodeHolds(D, T.uploads[D.currentUpload.value])
  {
  }

  lemma CompletingCall(T: Table, t: Call, T': Table, n: Option<Call>)
    requires Completing(t) && CompletingSteps(T, t, T', n) && n.Some? && ObjectsOk(T)
    requires t.ReadDocument? && n.value.ArchiveTxn? ==> CallOk(T, n.value)
    ensures CallOk(T', n.value)
  {
  }

  lemma CollectingCall(T: Table, t: Call, T': Table, n: Option<Call>)
    requires Collecting(t) && CallOk(T, t) && CollectingSteps(T, t, T', n) && n.Some?
    ensures CallOk(T', n.value)
  {
  }

  lemma ReplyCall(T: Table, t: Call, T': Table, n: Option<Call>)
    requires t.Recover? || t.Renew? || t.Invoke? || t.Respond?
    requires CallOk(T, t) && ReplySteps(T, t, T', n) && n.Some?
    ensures CallOk(T', n.value)
  {
  }

  lemma ArchivingCall(T: Table, t: Call, T': Table, n: Option<Call>)
    requires t.ReadDocument? && Inv(T) && CompletingSteps(T, t, T', n) && n.Some? && n.value.ArchiveTxn?
    ensures CallOk(T, n.value)
  {
    DocumentHolds(T, t.q.identity.path.document);
    SeenDocument(T, t.q.identity.path.document);
  }

  lemma StepCall(T: Table, t: Call, T': Table, n: Option<Call>)
    requires Inv(T) && CallOk(T, t) && Steps(T, t, T', n) && n.Some?
    ensures CallOk(T', n.value)
  {
    assert ObjectsOk(T);
    hide Inv, CallOk, OpeningSteps, CompletingSteps, CollectingSteps, ReplySteps, ObjectsOk;
    if Opening(t) {
      OpeningCall(T, t, T', n);
    } else if Completing(t) {
      if t.ReadDocument? && n.value.ArchiveTxn? { ArchivingCall(T, t, T', n); }
      CompletingCall(T, t, T', n);
    } else if Collecting(t) {
      CollectingCall(T, t, T', n);
    } else {
      ReplyCall(T, t, T', n);
    }
  }
}
