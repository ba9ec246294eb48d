/** The loan API's handlers for the six mutating routes, each a whole HTTP attempt run without
    interference on the table in place. */
module LoanHandlers {
  import opened Records
  import opened Writes
  import opened Invariant
  import opened Preservation
  import opened LoanApi
  import opened Registry
  import opened Alone
  import opened Answers

  datatype Problem =
    | KeyReused | LoanNotFound | LoanNotActive | LoanAlreadyActive | ActiveVersionExists
    | DocumentNotFound | UploadNotCurrent | UploadNotFound | UploadNotReady | UploadUnsound
    | StateChanged | AlreadyArchived | DocumentProcessing
    | TooManyDocuments | LoanProcessing | ManifestTooLarge | SessionOver | StateInvalid

  datatype Answer = Replied(body: ReplyBody) | Refused(problem: Problem)

  /** What an attempt meets outside the registry: whether the uploaded object passes the checks on its
      size, checksum, type, metadata, encryption and first bytes; how many bytes the manifest takes;
      and whether the upload processor is configured. */
  datatype Seen = Seen(sound: bool, size: nat, wired: bool)

  // ------------------------------------------------------------------- reading

  /** `require_active_instance`: what stands against it. */
  function Inactive(T: Table, loan: LoanKey): (p: Option<Problem>)
    ensures p == Some(LoanNotFound) <==> loan !in T.heads
    ensures p == Some(LoanNotActive) <==> loan in T.heads && !(T.heads[loan].active && T.heads[loan].current.Some?)
    ensures p.Some? ==> p.value in {LoanNotFound, LoanNotActive}
  {
    if loan !in T.heads then Some(LoanNotFound)
    else if !T.heads[loan].active || T.heads[loan].current.None? then Some(LoanNotActive)
    else None
  }

  function InstanceOf(T: Table, loan: LoanKey): Id
    requires Inactive(T, loan).None?
  {
    T.heads[loan].current.value
  }

  /** `get_document_item`: a document of the current instance. */
  function Missing(T: Table, loan: LoanKey, d: Id): (p: Option<Problem>)
    ensures p.None? <==>
      && loan in T.heads && T.heads[loan].active && T.heads[loan].current.Some?
      && d in T.documents && Some(T.documents[d].instance) == T.heads[loan].current
    ensures p.Some? ==> p.value in {LoanNotFound, LoanNotActive, DocumentNotFound}
    ensures p == Some(DocumentNotFound) ==> Inactive(T, loan).None?
  {
    if Inactive(T, loan).Some? then Inactive(T, loan)
    else if d !in T.documents || T.documents[d].instance != InstanceOf(T, loan) then Some(DocumentNotFound)
    else None
  }

  predicate Session(q: Request) { q.identity.path.DocumentsPath? || q.identity.path.UploadsPath? }

  // -------------------------------------------------------------------- replays

  /** A stored upload session can still be renewed. */
  predicate SessionOpen(T: Table, q: Request, body: ReplyBody) {
    && body.UploadSession? && Missing(T, LoanOf(q), body.document).None? && body.upload in T.uploads
    && T.documents[body.document].currentUpload == Some(body.upload)
    && T.documents[body.document].status.AwaitingUpload? && T.uploads[body.upload].status.AwaitingUpload?
  }

  /** The upload that a completion nudges the processor about: still the document's current one. */
  predicate StillCurrent(T: Table, loan: LoanKey, d: Id, u: Id) {
    Missing(T, loan, d).None? && T.documents[d].currentUpload == Some(u) && u in T.uploads
  }

  /** The nudge itself fails: a completed and clean upload without a pinned version. */
  predicate Broken(T: Table, q: Request, body: ReplyBody, wired: bool) {
    && wired && body.UploadCompleted? && StillCurrent(T, LoanOf(q), body.document, body.upload)
    && var U := T.uploads[body.upload];
    && U.status.Validating? && U.completed && U.scan == Some(Clean) && U.sourceVersion.None?
  }

  predicate Nudges(T: Table, q: Request, body: ReplyBody, wired: bool) {
    && wired && body.UploadCompleted? && StillCurrent(T, LoanOf(q), body.document, body.upload)
    && ReadyToInvoke(T, body)
  }

  function Nudged(T: Table, q: Request, body: ReplyBody, wired: bool): Table {
    if Nudges(T, q, body, wired) then Send(T, Nudge(T, body)) else T
  }

  /** The request's own row, if there is one, was written by its route. */
  predicate FitHere(T: Table, q: Request) {
    q.identity in T.idempotency && T.idempotency[q.identity].hash == HashOf(q) ==>
      FitsCall(q, T.idempotency[q.identity].body)
  }

  predicate IsStored(T: Table, q: Request, body: ReplyBody) {
    Find(T.idempotency, q.identity) == Some(Records.Stored(HashOf(q), body))
  }

  /** A repeat of the request would be answered. */
  predicate Repeatable(T: Table, q: Request, body: ReplyBody, wired: bool) {
    && IsStored(T, q, body) && FitsCall(q, body)
    && (Session(q) ==> SessionOpen(T, q, body))
    && (q.identity.path.CompletePath? ==> !Broken(T, q, body, wired))
  }

  /** Only signals are new: every row, every object and the history are the same. */
  predicate SameRows(T: Table, T': Table) {
    T' == T.(next := T'.next, signals := T'.signals, pending := T'.pending)
  }

  predicate HasReplied(T: Table, q: Request, body: ReplyBody) {
    Reply(q.identity, HashOf(q), body) in T.log.replies
  }

  // -------------------------------------------------------- steps taken one by one

  lemma BeginSteps(T: Table, q: Request)
    ensures q.identity !in T.idempotency ==>
      Steps(T, Begin(q), T, Some(if q.identity.path.LoansPath? then LoanTxn(q) else ReadHead(q)))
    ensures q.identity in T.idempotency && T.idempotency[q.identity].hash == HashOf(q) ==>
      Steps(T, Begin(q), T, Some(Replay(q, T.idempotency[q.identity].body)))
  {
  }

  lemma RespondSteps(T: Table, q: Request, body: ReplyBody)
    ensures Steps(T, Respond(q, body), SendReply(T, q.identity, HashOf(q), body), None)
  {
  }

  lemma RenewSteps(T: Table, q: Request, body: ReplyBody)
    requires SessionOpen(T, q, body)
    ensures Steps(T, Renew(q, body), PutUpload(T, body.upload, T.uploads[body.upload]), Some(Respond(q, body)))
    ensures SameRows(T, PutUpload(T, body.upload, T.uploads[body.upload]))
  {
    assert T.uploads[body.upload := T.uploads[body.upload]] == T.uploads;
  }

  lemma InvokeSteps(T: Table, q: Request, body: ReplyBody, wired: bool)
    ensures Steps(T, Invoke(q, body), Nudged(T, q, body, wired), Some(Respond(q, body)))
    ensures SameRows(T, Nudged(T, q, body, wired))
    ensures !Broken(T, q, body, wired) ==> !Broken(Nudged(T, q, body, wired), q, body, wired)
  {
  }

  lemma Refreshed(T: Table, T': Table, q: Request, body: ReplyBody, wired: bool)
    requires SameRows(T, T')
    ensures Repeatable(T, q, body, wired) ==> Repeatable(T', q, body, wired)
    ensures HasReplied(T, q, body) <==> HasReplied(T', q, body)
  {
  }

  lemma RepliedOnce(T: Table, q: Request, body: ReplyBody, wired: bool)
    ensures var T' := SendReply(T, q.identity, HashOf(q), body);
      && HasReplied(T', q, body) && (Repeatable(T, q, body, wired) ==> Repeatable(T', q, body, wired))
      && (HasReplied(T, q, body) ==> T' == T)
  {
    if HasReplied(T, q, body) {
      assert T.log.replies + {Reply(q.identity, HashOf(q), body)} == T.log.replies;
    }
  }

  // ----------------------------------------------------------------- the last steps

  /** `reconcile_upload_processor`: the nudge after a completion, or the refusal to send one. */
  method NudgeProcessor(r: RegistryTable, q: Request, body: ReplyBody, wired: bool) returns (ok: bool)
    requires FitsCall(q, body) && q.identity.path.CompletePath?
    modifies r
    ensures ok <==> !Broken(old(r.View()), q, body, wired)
    ensures r.View() == Nudged(old(r.View()), q, body, wired)
    ensures var d, u := q.identity.path.document, q.identity.path.upload;
      if wired && Missing(old(r.View()), LoanOf(q), d).None? && old(r.documents)[d].currentUpload == Some(u)
         && u in old(r.uploads) && old(r.uploads)[u].status == Validating && old(r.uploads)[u].completed
         && old(r.uploads)[u].scan == Some(Clean) && old(r.uploads)[u].sourceVersion.Some?
      then r.pending == old(r.pending) + {old(r.next)}
           && r.signals == old(r.signals)[old(r.next) := ClientComplete(u, old(r.uploads)[u].sourceVersion.value)]
      else r.pending == old(r.pending) && r.signals == old(r.signals)
  {
    var d, u := q.identity.path.document, q.identity.path.upload;
    if !wired || Missing(r.View(), LoanOf(q), d).Some? { return true; }
    if r.documents[d].currentUpload != Some(u) || u !in r.uploads { return true; }
    var U := r.uploads[u];
    if !U.status.Validating? || !U.completed || U.scan != Some(Clean) { return true; }
    if U.sourceVersion.None? { return false; }
    r.SendSignal(ClientComplete(u, U.sourceVersion.value));
    return true;
  }

  method Finish(r: RegistryTable, q: Request, body: ReplyBody, ghost wired: bool, ghost T0: Table)
    requires Reaches(Steps, T0, Begin(q), r.View(), Some(Respond(q, body)))
    modifies r
    ensures r.View() == SendReply(old(r.View()), q.identity, HashOf(q), body)
    ensures Reaches(Steps, T0, Begin(q), r.View(), None)
    ensures HasReplied(r.View(), q, body)
    ensures Repeatable(old(r.View()), q, body, wired) ==> Repeatable(r.View(), q, body, wired)
    ensures HasReplied(old(r.View()), q, body) ==> r.View() == old(r.View())
  {
    hide *;
    ghost var T := r.View();
    RespondSteps(T, q, body);
    RepliedOnce(T, q, body, wired);
    r.WriteReply(q.identity, HashOf(q), body);
    Goes(Steps, T0, Begin(q), T, Respond(q, body), r.View(), None);
  }

  /** What every handler leaves behind a successful answer: it got there by the protocol's own steps, the
      answer is stored and sent, and a repeat of the request can be answered. */
  ghost predicate Handled(T0: Table, T: Table, q: Request, a: Answer, wired: bool) {
    a.Replied? ==>
      Reaches(Steps, T0, Begin(q), T, None) && Repeatable(T, q, a.body, wired) && HasReplied(T, q, a.body)
  }

  lemma HandledIs()
    ensures forall T0, T, q, p, wired :: Handled(T0, T, q, Refused(p), wired)
    ensures forall T0, T, q, body, wired :: Handled(T0, T, q, Replied(body), wired) <==>
      Reaches(Steps, T0, Begin(q), T, None) && Repeatable(T, q, body, wired) && HasReplied(T, q, body)
  {
  }

  // ------------------------------------------------------------------ create_loan

  lemma LoanSteps(T: Table, q: Request)
    requires q.identity.path.LoansPath? && CanCreateLoan(T, LoanOf(q), q.identity)
    ensures var T', body := CreateLoan(T, LoanOf(q), q.identity, HashOf(q)), LoanCreated(LoanOf(q), T.next);
      Steps(T, LoanTxn(q), T', Some(Respond(q, body))) && Repeatable(T', q, body, false)
  {
  }

  lemma LoanRows(T: Table, loan: LoanKey, x: Identity, hash: RequestHash)
    ensures var T' := CreateLoan(T, loan, x, hash);
      && loan in T'.heads && T.next in T'.instances && T'.instances[T.next] == Instance(loan, true)
      && var before := if loan in T.heads then T.heads[loan] else Head(None, false, 0, 0);
      T'.heads[loan] == Head(Some(T.next), true, before.lastArchive, before.revision + 1)
  {
  }

  lemma OtherRoute(T: Table, q: Request, body: ReplyBody, wired: bool)
    requires !q.identity.path.CompletePath? && Repeatable(T, q, body, false)
    ensures Repeatable(T, q, body, wired)
  {
  }

  method OnCreateLoan(r: RegistryTable, q: Request, ghost wired: bool) returns (a: Answer)
    requires q.identity.path.LoansPath? && q.identity !in r.idempotency
    modifies r
    ensures a == if LoanOf(q) in old(r.heads) && old(r.heads)[LoanOf(q)].current.Some? then Refused(LoanAlreadyActive)
                 else Replied(LoanCreated(LoanOf(q), old(r.next)))
    ensures r.View() ==
      if a.Refused? then old(r.View())
      else SendReply(CreateLoan(old(r.View()), LoanOf(q), q.identity, HashOf(q)), q.identity, HashOf(q), a.body)
    ensures a.Replied? ==>
      && LoanOf(q) in r.heads && a.body.instance in r.instances
      && r.instances[a.body.instance] == Instance(LoanOf(q), true)
      && var before := if LoanOf(q) in old(r.heads) then old(r.heads)[LoanOf(q)] else Head(None, false, 0, 0);
      r.heads[LoanOf(q)] == Head(Some(a.body.instance), true, before.lastArchive, before.revision + 1)
    ensures Handled(old(r.View()), r.View(), q, a, wired)
  {
    hide Steps, Reaches, CreateLoan, Repeatable, HasReplied;
    ghost var T := r.View();
    Begins(Steps, T, Begin(q));
    BeginSteps(T, q);
    Goes(Steps, T, Begin(q), T, Begin(q), T, Some(LoanTxn(q)));
    var body := LoanCreated(LoanOf(q), r.next);
    var ok := r.TryCreateLoan(LoanOf(q), q.identity, HashOf(q));
    if !ok { return Refused(LoanAlreadyActive); }
    LoanSteps(T, q);
    LoanRows(T, LoanOf(q), q.identity, HashOf(q));
    ghost var T1 := r.View();
    Goes(Steps, T, Begin(q), T, LoanTxn(q), T1, Some(Respond(q, body)));
    OtherRoute(T1, q, body, wired);
    Finish(r, q, body, wired, T);
    return Replied(body);
  }

  // -------------------------------------------------------------- create_document

  predicate Replaceable(T: Table, instance: Id, d: Id) {
    d in T.documents && T.documents[d].instance == instance
    && T.documents[d].status.Archived? && T.documents[d].currentUpload.None?
  }

  lemma HeadSteps(T: Table, q: Request)
    requires Inactive(T, LoanOf(q)).None?
    ensures var instance := InstanceOf(T, LoanOf(q));
      && HeadIs(T, LoanOf(q), instance)
      && Steps(T, ReadHead(q), T,
           Some(match q.identity.path
                case DocumentsPath(_) => DocumentTxn(q, instance)
                case UploadsPath(_, _) => DocumentTxn(q, instance)
                case ArchiveLoanPath(_) =>
                  Query(q, instance, T.heads[LoanOf(q)].lastArchive, InstanceDocuments(T, instance), [])
                case _ => ReadDocument(q, instance)))
  {
  }

  lemma NewDocumentSteps(T: Table, q: Request, instance: Id)
    requires q.identity.path.DocumentsPath? && CanCreateDocument(T, LoanOf(q), instance, q.identity)
    ensures var T', body := CreateDocument(T, instance, q.identity, HashOf(q)), UploadSession(T.next, T.next + 1);
      && Steps(T, DocumentTxn(q, instance), T', Some(Respond(q, body)))
      && IsStored(T', q, body) && FitsCall(q, body)
  {
  }

  lemma NewDocumentOpen(T: Table, q: Request, instance: Id)
    requires CanCreateDocument(T, LoanOf(q), instance, q.identity)
    ensures SessionOpen(CreateDocument(T, instance, q.identity, HashOf(q)), q, UploadSession(T.next, T.next + 1))
  {
  }

  lemma ReplaceSteps(T: Table, q: Request, instance: Id)
    requires q.identity.path.UploadsPath?
    requires CanReplace(T, LoanOf(q), instance, q.identity.path.document, q.identity)
    ensures var T', body := Replace(T, q.identity.path.document, q.identity, HashOf(q)),
                            UploadSession(q.identity.path.document, T.next);
      && Steps(T, DocumentTxn(q, instance), T', Some(Respond(q, body)))
      && IsStored(T', q, body) && FitsCall(q, body)
  {
  }

  lemma ReplacedOpen(T: Table, q: Request, instance: Id, d: Id)
    requires CanReplace(T, LoanOf(q), instance, d, q.identity)
    ensures SessionOpen(Replace(T, d, q.identity, HashOf(q)), q, UploadSession(d, T.next))
  {
  }

  /** A row on which nothing has happened yet. */
  predicate FreshUpload(U: Upload, d: Id) {
    && U.document == d && U.status == AwaitingUpload && !U.completed && U.run == None && U.sourceVersion == None
    && U.scan == None && U.scanVersion == None && U.lease == None && U.failureCode == None
    && U.screenInput == None && U.selected == None && U.fullInput == None && U.dataPoints == None
  }

  predicate Begun(T: Table, d: Id, u: Id, instance: Id, last: nat) {
    && d in T.documents && u in T.uploads && FreshUpload(T.uploads[u], d)
    && var D := T.documents[d];
    && D.instance == instance && D.status == AwaitingUpload && D.currentUpload == Some(u) && D.run == None
    && D.source == None && D.selected == None && D.dataPoints == None && D.failureCode == None
    && D.lastArchive == last
  }

  lemma NewDocumentRows(T: Table, instance: Id, x: Identity, hash: RequestHash)
    ensures Begun(CreateDocument(T, instance, x, hash), T.next, T.next + 1, instance, 0)
  {
  }

  lemma RenewedRows(T: Table, d: Id, x: Identity, hash: RequestHash)
    requires d in T.documents
    ensures Begun(Replace(T, d, x, hash), d, T.next, T.documents[d].instance, T.documents[d].lastArchive)
  {
  }

  lemma BegunStays(T: Table, q: Request, body: ReplyBody, d: Id, u: Id, instance: Id, last: nat)
    ensures Begun(SendReply(T, q.identity, HashOf(q), body), d, u, instance, last) <==> Begun(T, d, u, instance, last)
  {
  }

  lemma SessionRepeatable(T: Table, q: Request, body: ReplyBody, wired: bool)
    requires Session(q) && IsStored(T, q, body) && FitsCall(q, body) && SessionOpen(T, q, body)
    ensures Repeatable(T, q, body, wired)
  {
  }

  /** `create_document` for both of its routes: a new document, or the next upload of an archived one. */
  method OnCreateDocument(r: RegistryTable, q: Request, ghost wired: bool) returns (a: Answer)
    requires Session(q) && q.identity !in r.idempotency
    modifies r
    ensures a ==
      if Inactive(old(r.View()), LoanOf(q)).Some? then Refused(Inactive(old(r.View()), LoanOf(q)).value)
      else if q.identity.path.DocumentsPath? then Replied(UploadSession(old(r.next), old(r.next) + 1))
      else if !Replaceable(old(r.View()), InstanceOf(old(r.View()), LoanOf(q)), q.identity.path.document) then
        Refused(ActiveVersionExists)
      else Replied(UploadSession(q.identity.path.document, old(r.next)))
    ensures a.Replied? <==>
      && LoanOf(q) in old(r.heads) && old(r.heads)[LoanOf(q)].active && old(r.heads)[LoanOf(q)].current.Some?
      && (q.identity.path.UploadsPath? ==>
            && q.identity.path.document in old(r.documents)
            && var D := old(r.documents)[q.identity.path.document];
            && Some(D.instance) == old(r.heads)[LoanOf(q)].current
            && D.status == Archived && D.currentUpload == None)
    ensures a.Replied? ==>
      Begun(r.View(), a.body.document, a.body.upload, old(r.heads)[LoanOf(q)].current.value,
            if q.identity.path.UploadsPath? then old(r.documents)[q.identity.path.document].lastArchive else 0)
    ensures r.View() ==
      if a.Refused? then old(r.View())
      else SendReply(
        if q.identity.path.DocumentsPath? then
          CreateDocument(old(r.View()), InstanceOf(old(r.View()), LoanOf(q)), q.identity, HashOf(q))
        else Replace(old(r.View()), q.identity.path.document, q.identity, HashOf(q)),
        q.identity, HashOf(q), a.body)
    ensures Handled(old(r.View()), r.View(), q, a, wired)
  {
    hide Steps, Reaches, CreateDocument, Replace, SendReply, Repeatable, HasReplied, SessionOpen, IsStored, FitsCall,
         Begun;
    ghost var T := r.View();
    if Inactive(r.View(), LoanOf(q)).Some? { return Refused(Inactive(r.View(), LoanOf(q)).value); }
    Begins(Steps, T, Begin(q));
    BeginSteps(T, q);
    Goes(Steps, T, Begin(q), T, Begin(q), T, Some(ReadHead(q)));
    HeadSteps(T, q);
    var instance, next := r.heads[LoanOf(q)].current.value, r.next;
    ghost var txn := DocumentTxn(q, instance);
    Goes(Steps, T, Begin(q), T, ReadHead(q), T, Some(txn));
    var body := UploadSession(next, next + 1);
    if q.identity.path.DocumentsPath? {
      var ok := r.TryCreateDocument(LoanOf(q), instance, q.identity, HashOf(q));
      NewDocumentSteps(T, q, instance);
      NewDocumentOpen(T, q, instance);
      NewDocumentRows(T, instance, q.identity, HashOf(q));
    } else {
      var d := q.identity.path.document;
      body := UploadSession(d, next);
      var ok := r.TryReplace(LoanOf(q), instance, d, q.identity, HashOf(q));
      if !ok { return Refused(ActiveVersionExists); }
      ReplaceSteps(T, q, instance);
      ReplacedOpen(T, q, instance, d);
      RenewedRows(T, d, q.identity, HashOf(q));
    }
    ghost var T1 := r.View();
    BegunStays(T1, q, body, body.document, body.upload, instance,
               if q.identity.path.UploadsPath? then T.documents[q.identity.path.document].lastArchive else 0);
    Goes(Steps, T, Begin(q), T, txn, T1, Some(Respond(q, body)));
    SessionRepeatable(T1, q, body, wired);
    Finish(r, q, body, wired, T);
    return Replied(body);
  }

  // -------------------------------------------------------------- complete_upload

  /** Why a first completion is refused; None if it pins the version. */
  function CompletionProblem(T: Table, q: Request, sound: bool): (p: Option<Problem>)
    requires q.identity.path.CompletePath?
    ensures var d, u := q.identity.path.document, q.identity.path.upload;
      p.None? <==>
        && Missing(T, LoanOf(q), d).None? && T.documents[d].currentUpload == Some(u)
        && u in T.uploads && T.uploads[u].document == d
        && (T.uploads[u].completed
            || (SourceKey(u) in T.latest && sound
                && T.uploads[u].status == AwaitingUpload && T.documents[d].status == AwaitingUpload))
    ensures p == Some(UploadUnsound) ==> !sound && SourceKey(q.identity.path.upload) in T.latest
    ensures p == Some(UploadNotReady) ==> SourceKey(q.identity.path.upload) !in T.latest
  {
    var d, u := q.identity.path.document, q.identity.path.upload;
    if Missing(T, LoanOf(q), d).Some? then Missing(T, LoanOf(q), d)
    else if T.documents[d].currentUpload != Some(u) then Some(UploadNotCurrent)
    else if u !in T.uploads || T.uploads[u].document != d then Some(UploadNotFound)
    else if T.uploads[u].completed then None
    else if SourceKey(u) !in T.latest then Some(UploadNotReady)
    else if !sound then Some(UploadUnsound)
    else if !T.uploads[u].status.AwaitingUpload? || !T.documents[d].status.AwaitingUpload? then Some(StateChanged)
    else None
  }

  lemma ToUpload(T: Table, q: Request, sound: bool)
    requires q.identity.path.CompletePath? && CompletionProblem(T, q, sound).None?
    ensures Steps(T, ReadDocument(q, InstanceOf(T, LoanOf(q))), T, Some(ReadUpload(q)))
  {
  }

  lemma AlreadySteps(T: Table, q: Request, sound: bool)
    requires q.identity.path.CompletePath? && CompletionProblem(T, q, sound).None?
    requires q.identity !in T.idempotency
    requires T.uploads[q.identity.path.upload].completed && T.uploads[q.identity.path.upload].run.Some?
    ensures var U := T.uploads[q.identity.path.upload];
      var body := UploadCompleted(q.identity.path.document, q.identity.path.upload, U.run.value, U.status);
      var T' := PutStored(T, q.identity, HashOf(q), body);
      && Steps(T, ReadUpload(q), T, Some(AlreadyTxn(q, body)))
      && Steps(T, AlreadyTxn(q, body), T', Some(Invoke(q, body)))
      && IsStored(T', q, body) && FitsCall(q, body)
  {
  }

  lemma PinSteps(T: Table, q: Request)
    requires q.identity.path.CompletePath? && CompletionProblem(T, q, true).None?
    requires q.identity !in T.idempotency && !T.uploads[q.identity.path.upload].completed
    ensures var d, u := q.identity.path.document, q.identity.path.upload;
      var version := T.latest[SourceKey(u)];
      && CanComplete(T, d, u, q.identity)
      && Steps(T, ReadUpload(q), T, Some(PinVersion(q)))
      && Steps(T, PinVersion(q), T, Some(CompleteTxn(q, version)))
  {
  }

  lemma CompleteSteps(T: Table, q: Request, version: Id)
    requires q.identity.path.CompletePath?
    requires CanComplete(T, q.identity.path.document, q.identity.path.upload, q.identity)
    ensures var d, u := q.identity.path.document, q.identity.path.upload;
      var T', body := CompleteUpload(T, d, u, version, q.identity, HashOf(q)), UploadCompleted(d, u, T.next, Validating);
      && Steps(T, CompleteTxn(q, version), T', Some(Invoke(q, body)))
      && IsStored(T', q, body) && FitsCall(q, body)
      && forall wired: bool :: !Broken(T', q, body, wired)
  {
  }

  lemma CompletionRepeatable(T: Table, q: Request, body: ReplyBody, wired: bool)
    requires q.identity.path.CompletePath? && IsStored(T, q, body) && FitsCall(q, body) && !Broken(T, q, body, wired)
    ensures Repeatable(T, q, body, wired)
  {
  }

  /** What a completion that is not refused answers with, and the table that its transaction leaves. */
  function CompletionBody(T: Table, q: Request): (body: ReplyBody)
    requires q.identity.path.CompletePath? && q.identity.path.upload in T.uploads
    requires T.uploads[q.identity.path.upload].completed ==> T.uploads[q.identity.path.upload].run.Some?
    ensures body.UploadCompleted?
    ensures body.document == q.identity.path.document && body.upload == q.identity.path.upload
    ensures var U := T.uploads[body.upload];
      U.completed ==> Some(body.run) == U.run && body.status == U.status
  {
    var d, u := q.identity.path.document, q.identity.path.upload;
    var U := T.uploads[u];
    if U.completed then UploadCompleted(d, u, U.run.value, U.status) else UploadCompleted(d, u, T.next, Validating)
  }

  function CompletionTable(T: Table, q: Request): Table
    requires q.identity.path.CompletePath? && q.identity !in T.idempotency
    requires CompletionProblem(T, q, true).None?
    requires T.uploads[q.identity.path.upload].completed ==> T.uploads[q.identity.path.upload].run.Some?
  {
    var d, u := q.identity.path.document, q.identity.path.upload;
    if T.uploads[u].completed then PutStored(T, q.identity, HashOf(q), CompletionBody(T, q))
    else CompleteUpload(T, d, u, T.latest[SourceKey(u)], q.identity, HashOf(q))
  }

  lemma SoundToo(T: Table, q: Request, sound: bool)
    requires q.identity.path.CompletePath? && CompletionProblem(T, q, sound).None?
    ensures CompletionProblem(T, q, true).None?
  {
  }

  /** The row of a completed upload has lost the run that its completion gave it. */
  predicate Runless(T: Table, q: Request)
    requires q.identity.path.CompletePath?
  {
    var u := q.identity.path.upload;
    u in T.uploads && T.uploads[u].completed && T.uploads[u].run.None?
  }

  /** Both rows are VALIDATING under the answered run, and the upload is bound to the version that was latest. */
  predicate PinnedNow(T0: Table, T: Table, q: Request, body: ReplyBody)
    requires q.identity.path.CompletePath?
  {
    var d, u := q.identity.path.document, q.identity.path.upload;
    && body.UploadCompleted? && body.document == d && body.upload == u && body.status == Validating
    && body.run == T0.next && d in T0.documents && u in T0.uploads && SourceKey(u) in T0.latest
    && d in T.documents && u in T.uploads
    && T.documents[d] == T0.documents[d].(status := Validating, run := Some(body.run))
    && T.uploads[u] == T0.uploads[u].(status := Validating, completed := true, run := Some(body.run),
                                      sourceVersion := Some(T0.latest[SourceKey(u)]))
  }

  lemma PinnedRows(T: Table, q: Request, x: Identity, hash: RequestHash)
    requires q.identity.path.CompletePath? && SourceKey(q.identity.path.upload) in T.latest
    requires CanComplete(T, q.identity.path.document, q.identity.path.upload, x)
    ensures var d, u := q.identity.path.document, q.identity.path.upload;
      PinnedNow(T, CompleteUpload(T, d, u, T.latest[SourceKey(u)], x, hash), q, UploadCompleted(d, u, T.next, Validating))
  {
  }

  lemma PinnedStays(T0: Table, T: Table, T': Table, q: Request, body: ReplyBody)
    requires q.identity.path.CompletePath? && PinnedNow(T0, T, q, body)
    requires T'.documents == T.documents && T'.uploads == T.uploads
    ensures PinnedNow(T0, T', q, body)
  {
  }

  /** The reads and the transaction of `complete_upload`. */
  method Pin(r: RegistryTable, q: Request, sound: bool, ghost T0: Table) returns (a: Answer)
    requires q.identity.path.CompletePath? && q.identity !in r.idempotency
    requires T0 == r.View()
    modifies r
    ensures CompletionProblem(T0, q, sound).Some? ==>
      a == Refused(CompletionProblem(T0, q, sound).value) && r.View() == T0
    ensures CompletionProblem(T0, q, sound).None? && Runless(T0, q) ==> a == Refused(StateInvalid) && r.View() == T0
    ensures CompletionProblem(T0, q, sound).None? && !Runless(T0, q) ==>
      && CompletionProblem(T0, q, true).None?
      && a == Replied(CompletionBody(T0, q)) && r.View() == CompletionTable(T0, q)
      && Reaches(Steps, T0, Begin(q), r.View(), Some(Invoke(q, a.body)))
      && IsStored(r.View(), q, a.body) && FitsCall(q, a.body)
      && (!T0.uploads[q.identity.path.upload].completed ==> forall wired: bool :: !Broken(r.View(), q, a.body, wired))
      && (!T0.uploads[q.identity.path.upload].completed ==> PinnedNow(T0, r.View(), q, a.body))
  {
    hide Steps, Reaches, CompleteUpload, PutStored, IsStored, FitsCall, Broken, PinnedNow;
    var d, u := q.identity.path.document, q.identity.path.upload;
    if Missing(r.View(), LoanOf(q), d).Some? { return Refused(Missing(r.View(), LoanOf(q), d).value); }
    if r.documents[d].currentUpload != Some(u) { return Refused(UploadNotCurrent); }
    if u !in r.uploads || r.uploads[u].document != d { return Refused(UploadNotFound); }
    if !r.uploads[u].completed {
      if SourceKey(u) !in r.latest { return Refused(UploadNotReady); }
      if !sound { return Refused(UploadUnsound); }
      if !r.uploads[u].status.AwaitingUpload? || !r.documents[d].status.AwaitingUpload? { return Refused(StateChanged); }
    }
    SoundToo(T0, q, sound);
    if r.uploads[u].completed && r.uploads[u].run.None? { return Refused(StateInvalid); }
    Begins(Steps, T0, Begin(q));
    BeginSteps(T0, q);
    Goes(Steps, T0, Begin(q), T0, Begin(q), T0, Some(ReadHead(q)));
    HeadSteps(T0, q);
    ghost var document := ReadDocument(q, InstanceOf(T0, LoanOf(q)));
    Goes(Steps, T0, Begin(q), T0, ReadHead(q), T0, Some(document));
    ToUpload(T0, q, sound);
    Goes(Steps, T0, Begin(q), T0, document, T0, Some(ReadUpload(q)));
    var body := CompletionBody(r.View(), q);
    if r.uploads[u].completed {
      AlreadySteps(T0, q, sound);
      Goes(Steps, T0, Begin(q), T0, ReadUpload(q), T0, Some(AlreadyTxn(q, body)));
      r.WriteStored(q.identity, HashOf(q), body);
      Goes(Steps, T0, Begin(q), T0, AlreadyTxn(q, body), r.View(), Some(Invoke(q, body)));
    } else {
      PinSteps(T0, q);
      Goes(Steps, T0, Begin(q), T0, ReadUpload(q), T0, Some(PinVersion(q)));
      var version := r.latest[SourceKey(u)];
      Goes(Steps, T0, Begin(q), T0, PinVersion(q), T0, Some(CompleteTxn(q, version)));
      var ok := r.TryComplete(d, u, version, q.identity, HashOf(q));
      CompleteSteps(T0, q, version);
      PinnedRows(T0, q, q.identity, HashOf(q));
      Goes(Steps, T0, Begin(q), T0, CompleteTxn(q, version), r.View(), Some(Invoke(q, body)));
    }
    return Replied(body);
  }

  /** `complete_upload`: pin the version that is latest now, or find that an earlier attempt has; store
      the answer; and nudge the processor if the scan is already in. */
  method OnComplete(r: RegistryTable, q: Request, seen: Seen) returns (a: Answer)
    requires q.identity.path.CompletePath? && q.identity !in r.idempotency
    modifies r
    ensures CompletionProblem(old(r.View()), q, seen.sound).Some? ==>
      a == Refused(CompletionProblem(old(r.View()), q, seen.sound).value) && r.View() == old(r.View())
    ensures CompletionProblem(old(r.View()), q, seen.sound).None? && Runless(old(r.View()), q) ==>
      a == Refused(StateInvalid) && r.View() == old(r.View())
    ensures CompletionProblem(old(r.View()), q, seen.sound).None? && !Runless(old(r.View()), q) ==>
      && CompletionProblem(old(r.View()), q, true).None?
      && var T, body := CompletionTable(old(r.View()), q), CompletionBody(old(r.View()), q);
      if Broken(T, q, body, seen.wired) then a == Refused(StateInvalid) && r.View() == T
      else a == Replied(body) && r.View() == SendReply(Nudged(T, q, body, seen.wired), q.identity, HashOf(q), body)
    ensures CompletionProblem(old(r.View()), q, seen.sound).None?
            && !old(r.View()).uploads[q.identity.path.upload].completed ==>
      a.Replied? && PinnedNow(old(r.View()), r.View(), q, a.body)
    ensures Handled(old(r.View()), r.View(), q, a, seen.wired)
  {
    hide *;
    HandledIs();
    RunlessIs(r.View(), q);
    ghost var T0 := r.View();
    a := Pin(r, q, seen.sound, T0);
    if a.Refused? { return; }
    ghost var T1 := r.View();
    var ok := NudgeProcessor(r, q, a.body, seen.wired);
    if !ok {
      BrokenStays(T1, q, a.body, seen.wired);
      return Refused(StateInvalid);
    }
    InvokeSteps(T1, q, a.body, seen.wired);
    Goes(Steps, T0, Begin(q), T1, Invoke(q, a.body), r.View(), Some(Respond(q, a.body)));
    CompletionRepeatable(T1, q, a.body, seen.wired);
    Refreshed(T1, r.View(), q, a.body, seen.wired);
    SameRowsIs(T1, r.View(), q, a.body);
    Finish(r, q, a.body, seen.wired, T0);
    if PinnedNow(T0, T1, q, a.body) { PinnedStays(T0, T1, r.View(), q, a.body); }
  }

  lemma RunlessIs(T: Table, q: Request)
    requires q.identity.path.CompletePath?
    ensures Runless(T, q) ==> q.identity.path.upload in T.uploads && T.uploads[q.identity.path.upload].completed
  {
  }

  lemma SameRowsIs(T: Table, T': Table, q: Request, body: ReplyBody)
    requires SameRows(T, T')
    ensures T'.documents == T.documents && T'.uploads == T.uploads
    ensures SendReply(T', q.identity, HashOf(q), body).documents == T.documents
    ensures SendReply(T', q.identity, HashOf(q), body).uploads == T.uploads
  {
  }

  lemma BrokenStays(T: Table, q: Request, body: ReplyBody, wired: bool)
    requires Broken(T, q, body, wired)
    ensures Nudged(T, q, body, wired) == T
  {
  }

  // ------------------------------------------------------------- archive_document

  function ArchivingProblem(T: Table, loan: LoanKey, d: Id): (p: Option<Problem>)
    ensures p == Some(AlreadyArchived) <==> Missing(T, loan, d).None? && T.documents[d].currentUpload == None
    ensures p == Some(DocumentProcessing) <==>
      && Missing(T, loan, d).None? && T.documents[d].currentUpload != None
      && T.documents[d].status in {AwaitingUpload, Validating, Queued, Screening, Extracting, Archived}
  {
    if Missing(T, loan, d).Some? then Missing(T, loan, d)
    else
      var D := T.documents[d];
      if D.currentUpload.None? then Some(AlreadyArchived)
      else if !Terminal(D.status) then Some(DocumentProcessing)
      else if (d, D.lastArchive + 1) in T.archives then Some(StateChanged)
      else None
  }

  lemma ArchiveSteps(T: Table, q: Request)
    requires q.identity.path.ArchiveDocumentPath? && q.identity !in T.idempotency
    requires ArchivingProblem(T, LoanOf(q), q.identity.path.document).None?
    ensures var d := q.identity.path.document;
      var D := T.documents[d];
      var body := DocumentArchived(d, D.currentUpload.value, D.lastArchive + 1);
      && Steps(T, ReadDocument(q, InstanceOf(T, LoanOf(q))), T, Some(ArchiveTxn(q, D)))
      && CanArchiveDocument(T, d, D, q.identity)
      && Steps(T, ArchiveTxn(q, D), ArchiveDocument(T, d, D, q.identity, HashOf(q)), Some(Respond(q, body)))
      && Repeatable(ArchiveDocument(T, d, D, q.identity, HashOf(q)), q, body, false)
  {
  }

  /** The document is ARCHIVED under the next number, and the row there has all that it referred to. */
  predicate BuriedNow(T0: Table, T: Table, d: Id) {
    && d in T0.documents && T0.documents[d].currentUpload.Some? && d in T.documents
    && var D, n := T0.documents[d], T0.documents[d].lastArchive + 1;
    && T.documents[d] == D.(status := Archived, lastArchive := n, currentUpload := None)
    && T.archives == T0.archives[(d, n) :=
         DocumentArchive(D.currentUpload.value, D.run, D.source, D.selected, D.dataPoints, D.failureCode)]
  }

  lemma BuriedRows(T: Table, d: Id, x: Identity, hash: RequestHash, y: Identity, hash': RequestHash, body: ReplyBody)
    requires d in T.documents && T.documents[d].currentUpload.Some?
    ensures BuriedNow(T, SendReply(ArchiveDocument(T, d, T.documents[d], x, hash), y, hash', body), d)
  {
  }

  lemma CannotArchive(T: Table, q: Request, d: Id)
    requires d in T.documents && (d, T.documents[d].lastArchive + 1) in T.archives
    ensures !CanArchiveDocument(T, d, T.documents[d], q.identity)
  {
  }

  /** `archive_document`: it succeeds exactly for a terminal current version of the current instance. */
  method OnArchiveDocument(r: RegistryTable, q: Request, ghost wired: bool) returns (a: Answer)
    requires q.identity.path.ArchiveDocumentPath? && q.identity !in r.idempotency
    modifies r
    ensures var d := q.identity.path.document;
      match ArchivingProblem(old(r.View()), LoanOf(q), d)
      case Some(problem) => a == Refused(problem) && r.View() == old(r.View())
      case None =>
        var D := old(r.documents)[d];
        && a == Replied(DocumentArchived(d, D.currentUpload.value, D.lastArchive + 1))
        && r.View() == SendReply(ArchiveDocument(old(r.View()), d, D, q.identity, HashOf(q)),
                                 q.identity, HashOf(q), a.body)
    ensures var d := q.identity.path.document;
      a.Replied? <==>
        && LoanOf(q) in old(r.heads) && old(r.heads)[LoanOf(q)].active && old(r.heads)[LoanOf(q)].current.Some?
        && d in old(r.documents)
        && var D := old(r.documents)[d];
        && Some(D.instance) == old(r.heads)[LoanOf(q)].current && D.currentUpload.Some?
        && D.status in {Succeeded, Hold, Rejected, Failed} && (d, D.lastArchive + 1) !in old(r.archives)
    ensures a.Replied? ==> BuriedNow(old(r.View()), r.View(), q.identity.path.document)
    ensures Handled(old(r.View()), r.View(), q, a, wired)
  {
    hide Steps, Reaches, ArchiveDocument, SendReply, Repeatable, HasReplied, CanArchiveDocument, BuriedNow;
    ghost var T := r.View();
    var d := q.identity.path.document;
    if Missing(r.View(), LoanOf(q), d).Some? { return Refused(Missing(r.View(), LoanOf(q), d).value); }
    var D := r.documents[d];
    if D.currentUpload.None? { return Refused(AlreadyArchived); }
    if !Terminal(D.status) { return Refused(DocumentProcessing); }
    Begins(Steps, T, Begin(q));
    BeginSteps(T, q);
    Goes(Steps, T, Begin(q), T, Begin(q), T, Some(ReadHead(q)));
    HeadSteps(T, q);
    ghost var document := ReadDocument(q, InstanceOf(T, LoanOf(q)));
    Goes(Steps, T, Begin(q), T, ReadHead(q), T, Some(document));
    if (d, D.lastArchive + 1) in r.archives { CannotArchive(T, q, d); } else { ArchiveSteps(T, q); }
    var ok := r.TryArchiveDocument(d, D, q.identity, HashOf(q));
    if !ok { return Refused(StateChanged); }
    ghost var T1 := r.View();
    var body := DocumentArchived(d, D.currentUpload.value, D.lastArchive + 1);
    Goes(Steps, T, Begin(q), T, document, T, Some(ArchiveTxn(q, D)));
    Goes(Steps, T, Begin(q), T, ArchiveTxn(q, D), T1, Some(Respond(q, body)));
    OtherRoute(T1, q, body, wired);
    Finish(r, q, body, wired, T);
    BuriedRows(T, d, q.identity, HashOf(q), q.identity, HashOf(q), body);
    return Replied(body);
  }

  // ----------------------------------------------------------------- archive_loan

  /** Exactly the documents of the instance, each once and as its row stands. */
  ghost predicate IsListing(T: Table, instance: Id, listed: seq<ManifestDocument>) {
    && DistinctIds(listed) && |listed| == |InstanceDocuments(T, instance)|
    && (forall i :: 0 <= i < |listed| ==>
          var d := listed[i].documentId; d in InstanceDocuments(T, instance) && listed[i] == Entry(d, T.documents[d]))
    && forall d :: d in InstanceDocuments(T, instance) ==> Lists(listed, d)
  }

  /** A query under way: `left` is what it has not returned yet. */
  ghost predicate PartlyListed(T: Table, instance: Id, listed: seq<ManifestDocument>, left: set<Id>) {
    && left <= InstanceDocuments(T, instance) && DistinctIds(listed)
    && |listed| + |left| == |InstanceDocuments(T, instance)|
    && (forall i :: 0 <= i < |listed| ==>
          var d := listed[i].documentId;
          d in InstanceDocuments(T, instance) && d !in left && listed[i] == Entry(d, T.documents[d]))
    && forall d :: d in InstanceDocuments(T, instance) ==> d in left || Lists(listed, d)
  }

  lemma OneListed(T: Table, instance: Id, listed: seq<ManifestDocument>, left: set<Id>, d: Id)
    requires PartlyListed(T, instance, listed, left) && d in left
    ensures d in T.documents && T.documents[d].instance == instance && !Lists(listed, d)
    ensures PartlyListed(T, instance, listed + [Entry(d, T.documents[d])], left - {d})
  {
    var more := listed + [Entry(d, T.documents[d])];
    assert more[|listed|].documentId == d;
    forall x | x in InstanceDocuments(T, instance) ensures x in left - {d} || Lists(more, x) {
      if x != d && x !in left {
        var i :| 0 <= i < |listed| && listed[i].documentId == x;
        assert more[i].documentId == x;
      }
    }
  }

  lemma QuerySteps(T: Table, q: Request, instance: Id, last: nat, owed: set<Id>, listed: seq<ManifestDocument>, d: Id)
    requires d in T.documents && T.documents[d].instance == instance && !Lists(listed, d)
    ensures Steps(T, Query(q, instance, last, owed, listed), T,
                  Some(Query(q, instance, last, owed, listed + [Entry(d, T.documents[d])])))
  {
  }

  /** The paginated query, in whatever order its pages come. */
  method ListDocuments(r: RegistryTable, q: Request, instance: Id, last: nat, ghost T0: Table)
    returns (listed: seq<ManifestDocument>)
    requires Reaches(Steps, T0, Begin(q), r.View(),
                     Some(Query(q, instance, last, InstanceDocuments(r.View(), instance), [])))
    ensures IsListing(r.View(), instance, listed)
    ensures Reaches(Steps, T0, Begin(q), r.View(),
                    Some(Query(q, instance, last, InstanceDocuments(r.View(), instance), listed)))
  {
    ghost var T := r.View();
    var left := InstanceDocuments(r.View(), instance);
    ghost var owed := left;
    listed := [];
    hide Reaches, Steps;
    while left != {}
      invariant PartlyListed(T, instance, listed, left)
      invariant Reaches(Steps, T0, Begin(q), T, Some(Query(q, instance, last, owed, listed)))
    {
      hide PartlyListed, Lists;
      var d :| d in left;
      OneListed(T, instance, listed, left, d);
      QuerySteps(T, q, instance, last, owed, listed, d);
      Goes(Steps, T0, Begin(q), T, Query(q, instance, last, owed, listed), T,
           Some(Query(q, instance, last, owed, listed + [Entry(d, T.documents[d])])));
      listed := listed + [Entry(d, r.documents[d])];
      left := left - {d};
    }
  }

  /** Why a loan cannot be archived; None if only the transaction is left to refuse it. */
  function LoanProblem(T: Table, q: Request, size: nat): Option<Problem> {
    if Inactive(T, LoanOf(q)).Some? then Inactive(T, LoanOf(q))
    else
      var documents := InstanceDocuments(T, InstanceOf(T, LoanOf(q)));
      if |documents| > MAX_DOCUMENTS then Some(TooManyDocuments)
      else if exists d :: d in documents && Blocking(T.documents[d].status) then Some(LoanProcessing)
      else if size > MAX_MANIFEST_BYTES then Some(ManifestTooLarge)
      else None
  }

  /** The loan has an active instance. */
  predicate HasInstance(T: Table, loan: LoanKey) {
    loan in T.heads && T.heads[loan].active && T.heads[loan].current.Some?
  }

  /** Some document of the instance is awaited or on its way through the pipeline. */
  predicate InProcess(T: Table, instance: Id) {
    exists d :: d in T.documents && T.documents[d].instance == instance
                && T.documents[d].status in {AwaitingUpload, Validating, Queued, Screening, Extracting}
  }

  lemma LoanProblemIs(T: Table, q: Request, size: nat)
    ensures LoanProblem(T, q, size) == Some(LoanProcessing) <==>
      && HasInstance(T, LoanOf(q)) && |InstanceDocuments(T, T.heads[LoanOf(q)].current.value)| <= 500
      && InProcess(T, T.heads[LoanOf(q)].current.value)
    ensures LoanProblem(T, q, size).None? <==>
      && HasInstance(T, LoanOf(q)) && |InstanceDocuments(T, T.heads[LoanOf(q)].current.value)| <= 500
      && !InProcess(T, T.heads[LoanOf(q)].current.value) && size <= 4 * 1024 * 1024
    ensures LoanProblem(T, q, size) != Some(StateChanged)
  {
    if HasInstance(T, LoanOf(q)) {
      var instance := T.heads[LoanOf(q)].current.value;
      assert InProcess(T, instance) <==>
        exists d :: d in InstanceDocuments(T, instance) && Blocking(T.documents[d].status);
    }
  }

  /** HEAD has let go of its instance under the next number, whose row pins the stored manifest, and the
      manifest lists every document of the instance, once, as its row was: none of them in process. */
  ghost predicate RetiredNow(T0: Table, T: Table, loan: LoanKey, listed: seq<ManifestDocument>, size: nat) {
    && HasInstance(T0, loan) && loan in T.heads
    && var instance, n := T0.heads[loan].current.value, T0.heads[loan].lastArchive + 1;
    var bytes := Json(Manifest(loan.tenant, loan.loanId, instance, n, listed), size);
    && T.heads[loan] == Head(None, false, n, T0.heads[loan].revision + 1)
    && instance in T.instances && !T.instances[instance].active
    && (loan, n) in T.loanArchives
    && var A := T.loanArchives[(loan, n)];
    && A.instance == instance && A.documentCount == |listed| && A.checksum == Sha256(bytes)
    && A.manifest.key == ManifestKey(instance, n)
    && Find(T.objects, A.manifest.version) == Some(Object(ManifestKey(instance, n), Body(bytes), None))
    && (exists e :: e >= T0.next && e in T.outbox && T.outbox[e] == OutboxEvent(loan, instance, n))
    && ListsRows(T0, instance, listed)
  }

  ghost predicate ListsRows(T: Table, instance: Id, listed: seq<ManifestDocument>) {
    && DistinctIds(listed)
    && (forall d :: d in T.documents && T.documents[d].instance == instance ==> Lists(listed, d))
    && (forall i :: 0 <= i < |listed| ==> ListedRow(T, instance, listed[i]))
  }

  /** The entry is a document of the instance that is over, as its row is. */
  predicate ListedRow(T: Table, instance: Id, m: ManifestDocument) {
    && m.documentId in T.documents
    && var D := T.documents[m.documentId];
    && D.instance == instance && m == ManifestDocument(m.documentId, D.status, D.currentUpload, D.run, D.source,
                                                       D.selected, D.dataPoints)
    && m.status in {Succeeded, Hold, Rejected, Failed, Archived}
  }

  lemma RowsListed(T: Table, instance: Id, listed: seq<ManifestDocument>)
    requires IsListing(T, instance, listed) && !AnyBlocking(listed)
    ensures ListsRows(T, instance, listed)
  {
    forall i | 0 <= i < |listed| ensures ListedRow(T, instance, listed[i]) {
      assert !Blocking(listed[i].status);
    }
  }

  /** `T` differs from `T0` by an object at `T0.next` only. */
  lemma RetiredRows(
    T0: Table, T: Table, q: Request, instance: Id, last: nat, listed: seq<ManifestDocument>, size: nat, body: ReplyBody)
    requires ListsRows(T0, instance, listed) && HasInstance(T0, LoanOf(q))
    requires T0.heads[LoanOf(q)].current == Some(instance) && T0.heads[LoanOf(q)].lastArchive == last
    requires T.heads == T0.heads && T.next == T0.next + 1 && instance in T.instances
    requires var bytes := Json(ManifestOf(q, instance, last, listed), size);
      Find(T.objects, T0.next) == Some(Object(ManifestKey(instance, last + 1), Body(bytes), None))
    ensures var m, key := ManifestOf(q, instance, last, listed), ManifestKey(instance, last + 1);
      RetiredNow(T0, SendReply(ArchiveLoan(T, LoanOf(q), instance, m, Json(m, size), Ref(key, T0.next), q.identity,
                                           HashOf(q)), q.identity, HashOf(q), body), LoanOf(q), listed, size)
  {
    hide ListsRows;
    var m, key := ManifestOf(q, instance, last, listed), ManifestKey(instance, last + 1);
    var T2 := SendReply(ArchiveLoan(T, LoanOf(q), instance, m, Json(m, size), Ref(key, T0.next), q.identity, HashOf(q)),
                        q.identity, HashOf(q), body);
    assert T2.outbox[T.next] == OutboxEvent(LoanOf(q), instance, last + 1);
  }

  predicate AnyBlocking(listed: seq<ManifestDocument>) {
    exists i :: 0 <= i < |listed| && Blocking(listed[i].status)
  }

  lemma ListingBlocks(T: Table, instance: Id, listed: seq<ManifestDocument>)
    requires IsListing(T, instance, listed)
    ensures AnyBlocking(listed) <==>
      exists d :: d in InstanceDocuments(T, instance) && Blocking(T.documents[d].status)
  {
    if d :| d in InstanceDocuments(T, instance) && Blocking(T.documents[d].status) {
      assert Lists(listed, d);
    }
  }

  lemma ListedSteps(T: Table, q: Request, instance: Id, last: nat, listed: seq<ManifestDocument>, size: nat)
    requires IsListing(T, instance, listed) && !AnyBlocking(listed) && |listed| <= MAX_DOCUMENTS
    requires size <= MAX_MANIFEST_BYTES
    ensures var m := ManifestOf(q, instance, last, listed);
      var owed, bytes := InstanceDocuments(T, instance), Json(m, size);
      && Steps(T, Query(q, instance, last, owed, listed), T, Some(ManifestPut(q, instance, last, listed)))
      && Steps(T, ManifestPut(q, instance, last, listed),
               PutObject(T, Object(ManifestKey(instance, last + 1), Body(bytes), None)),
               Some(LoanArchiveTxn(q, m, bytes, Ref(ManifestKey(instance, last + 1), T.next))))
  {
  }

  lemma LoanArchiveSteps(
    T: Table, q: Request, instance: Id, last: nat, listed: seq<ManifestDocument>, size: nat, stored: Ref)
    requires q.identity.path.ArchiveLoanPath? && CanArchiveLoan(T, LoanOf(q), instance, last, q.identity)
    ensures var m := ManifestOf(q, instance, last, listed);
      var T' := ArchiveLoan(T, LoanOf(q), instance, m, Json(m, size), stored, q.identity, HashOf(q));
      var body := LoanArchived(LoanOf(q), instance, last + 1, |listed|);
      && Steps(T, LoanArchiveTxn(q, m, Json(m, size), stored), T', Some(Respond(q, body)))
      && Repeatable(T', q, body, false)
  {
  }

  predicate Unarchived(T: Table, loan: LoanKey, instance: Id) {
    && loan in T.heads && instance in T.instances && T.instances[instance].active
    && (loan, T.heads[loan].lastArchive + 1) !in T.loanArchives
  }

  lemma LoanArchiveReady(T: Table, q: Request, o: Object)
    requires Inactive(T, LoanOf(q)).None? && q.identity !in T.idempotency
    ensures var instance := InstanceOf(T, LoanOf(q));
      CanArchiveLoan(PutObject(T, o), LoanOf(q), instance, T.heads[LoanOf(q)].lastArchive, q.identity)
      <==> Unarchived(T, LoanOf(q), instance)
  {
  }

  /** `archive_loan`: it succeeds exactly if no more than 500 documents are there, none is processing and
      the manifest is small enough; and then the manifest is exactly the instance's documents. */
  method OnArchiveLoan(r: RegistryTable, q: Request, size: nat, ghost wired: bool)
    returns (a: Answer, listed: seq<ManifestDocument>)
    requires q.identity.path.ArchiveLoanPath? && q.identity !in r.idempotency
    modifies r
    ensures LoanProblem(old(r.View()), q, size).Some? ==>
      a == Refused(LoanProblem(old(r.View()), q, size).value) && r.View() == old(r.View())
    ensures LoanProblem(old(r.View()), q, size).None? ==>
      var T, loan := old(r.View()), LoanOf(q);
      var instance, last := InstanceOf(T, loan), T.heads[loan].lastArchive;
      var m, key := ManifestOf(q, instance, last, listed), ManifestKey(instance, last + 1);
      var T1 := PutObject(T, Object(key, Body(Json(m, size)), None));
      && IsListing(T, instance, listed)
      && if !Unarchived(T, loan, instance) then a == Refused(StateChanged) && r.View() == T1
         else
           && a == Replied(LoanArchived(loan, instance, last + 1, |listed|))
           && CanArchiveLoan(T1, loan, instance, last, q.identity)
           && r.View() == SendReply(
                ArchiveLoan(T1, loan, instance, m, Json(m, size), Ref(key, T.next), q.identity, HashOf(q)),
                q.identity, HashOf(q), a.body)
    ensures a == Refused(LoanProcessing) <==>
      && HasInstance(old(r.View()), LoanOf(q))
      && var instance := old(r.heads)[LoanOf(q)].current.value;
      |InstanceDocuments(old(r.View()), instance)| <= 500 && InProcess(old(r.View()), instance)
    ensures a.Replied? <==>
      && HasInstance(old(r.View()), LoanOf(q)) && size <= 4 * 1024 * 1024
      && var instance := old(r.heads)[LoanOf(q)].current.value;
      && |InstanceDocuments(old(r.View()), instance)| <= 500 && !InProcess(old(r.View()), instance)
      && Unarchived(old(r.View()), LoanOf(q), instance)
    ensures a.Replied? ==> RetiredNow(old(r.View()), r.View(), LoanOf(q), listed, size)
    ensures Handled(old(r.View()), r.View(), q, a, wired)
  {
    hide Steps, Reaches, ArchiveLoan, SendReply, Repeatable, HasReplied, CanArchiveLoan, PutObject, IsListing,
         AnyBlocking, Unarchived, InstanceDocuments, InProcess, RetiredNow, ListsRows;
    ghost var T := r.View();
    LoanProblemIs(T, q, size);
    listed := [];
    if Inactive(r.View(), LoanOf(q)).Some? { return Refused(Inactive(r.View(), LoanOf(q)).value), listed; }
    var head := r.heads[LoanOf(q)];
    var instance, last := head.current.value, head.lastArchive;
    Begins(Steps, T, Begin(q));
    BeginSteps(T, q);
    Goes(Steps, T, Begin(q), T, Begin(q), T, Some(ReadHead(q)));
    HeadSteps(T, q);
    ghost var query := Query(q, instance, last, InstanceDocuments(T, instance), []);
    Goes(Steps, T, Begin(q), T, ReadHead(q), T, Some(query));
    listed := ListDocuments(r, q, instance, last, T);
    ListingSize(T, instance, listed);
    ListingBlocks(T, instance, listed);
    if |listed| > MAX_DOCUMENTS { return Refused(TooManyDocuments), listed; }
    if AnyBlocking(listed) { return Refused(LoanProcessing), listed; }
    if size > MAX_MANIFEST_BYTES { return Refused(ManifestTooLarge), listed; }
    ListedSteps(T, q, instance, last, listed, size);
    var m := ManifestOf(q, instance, last, listed);
    ghost var put := ManifestPut(q, instance, last, listed);
    ghost var listing := Query(q, instance, last, InstanceDocuments(T, instance), listed);
    Goes(Steps, T, Begin(q), T, listing, T, Some(put));
    var o := Object(ManifestKey(instance, last + 1), Body(Json(m, size)), None);
    LoanArchiveReady(T, q, o);
    var stored := r.WriteObject(o);
    ghost var T1, txn := r.View(), LoanArchiveTxn(q, m, Json(m, size), stored);
    Goes(Steps, T, Begin(q), T, put, T1, Some(txn));
    var ok := r.TryArchiveLoan(LoanOf(q), instance, last, m, Json(m, size), stored, q.identity, HashOf(q));
    if !ok { return Refused(StateChanged), listed; }
    LoanArchiveSteps(T1, q, instance, last, listed, size, stored);
    ghost var T2 := r.View();
    var body := LoanArchived(LoanOf(q), instance, last + 1, |listed|);
    Goes(Steps, T, Begin(q), T1, txn, T2, Some(Respond(q, body)));
    OtherRoute(T2, q, body, wired);
    RowsListed(T, instance, listed);
    ObjectStored(T, o);
    CanRetire(T1, LoanOf(q), instance, last, q.identity);
    RetiredRows(T, T1, q, instance, last, listed, size, body);
    Finish(r, q, body, wired, T);
    return Replied(body), listed;
  }

  lemma ObjectStored(T: Table, o: Object)
    ensures var T' := PutObject(T, o);
      T'.heads == T.heads && T'.next == T.next + 1 && Find(T'.objects, T.next) == Some(o)
  {
  }

  lemma CanRetire(T: Table, loan: LoanKey, instance: Id, last: nat, x: Identity)
    requires CanArchiveLoan(T, loan, instance, last, x)
    ensures instance in T.instances
  {
  }

  lemma ListingSize(T: Table, instance: Id, listed: seq<ManifestDocument>)
    requires IsListing(T, instance, listed)
    ensures |listed| == |InstanceDocuments(T, instance)|
  {
  }

  // ----------------------------------------------------- replays and the whole API

  /** What renewing a grant or nudging the processor writes. */
  function Touched(T: Table, q: Request, body: ReplyBody, wired: bool): Table
    requires Session(q) ==> SessionOpen(T, q, body)
  {
    if Session(q) then PutUpload(T, body.upload, T.uploads[body.upload])
    else if q.identity.path.CompletePath? then Nudged(T, q, body, wired)
    else T
  }

  /** Why a stored answer is not given again. */
  function ReplayProblem(T: Table, q: Request, body: ReplyBody, wired: bool): Option<Problem> {
    if Session(q) then
      if Inactive(T, LoanOf(q)).Some? then Inactive(T, LoanOf(q))
      else if !SessionOpen(T, q, body) then Some(SessionOver)
      else None
    else if q.identity.path.CompletePath? && Broken(T, q, body, wired) then Some(StateInvalid)
    else None
  }

  lemma StoredSteps(T: Table, q: Request)
    requires q.identity in T.idempotency && T.idempotency[q.identity].hash == HashOf(q) && FitHere(T, q)
    ensures var body := T.idempotency[q.identity].body;
      && IsStored(T, q, body) && FitsCall(q, body) && Steps(T, Begin(q), T, Some(Replay(q, body)))
  {
  }

  lemma TouchedSteps(T: Table, q: Request, body: ReplyBody, wired: bool)
    requires IsStored(T, q, body) && FitsCall(q, body) && ReplayProblem(T, q, body, wired).None?
    ensures var T' := Touched(T, q, body, wired);
      && SameRows(T, T') && Repeatable(T', q, body, wired)
      && ((T' == T && Replay(q, body) == Respond(q, body)) || Steps(T, Replay(q, body), T', Some(Respond(q, body))))
      && (!Session(q) && !q.identity.path.CompletePath? ==> T' == T)
  {
    if Session(q) { RenewSteps(T, q, body); } else { InvokeSteps(T, q, body, wired); }
    hide Steps;
    Refreshed(T, Touched(T, q, body, wired), q, body, wired);
  }

  /** The idempotency row is found: same request or not, the handler's own work is not done again. */
  method OnReplay(r: RegistryTable, q: Request, wired: bool) returns (a: Answer)
    requires q.identity in r.idempotency && FitHere(r.View(), q)
    modifies r
    ensures var T, stored := old(r.View()), old(r.idempotency)[q.identity];
      if stored.hash != HashOf(q) then a == Refused(KeyReused) && r.View() == T
      else
        match ReplayProblem(T, q, stored.body, wired)
        case Some(problem) => a == Refused(problem) && r.View() == T
        case None =>
          a == Replied(stored.body)
          && r.View() == SendReply(Touched(T, q, stored.body, wired), q.identity, HashOf(q), stored.body)
    ensures a.Replied? && HasReplied(old(r.View()), q, a.body) ==> SameRows(old(r.View()), r.View())
    ensures old(r.idempotency)[q.identity].hash == HashOf(q) && Session(q) ==>
      var body := old(r.idempotency)[q.identity].body;
      a == Replied(body) <==>
        && HasInstance(old(r.View()), LoanOf(q))
        && body.document in old(r.documents) && body.upload in old(r.uploads)
        && var D := old(r.documents)[body.document];
        && Some(D.instance) == old(r.heads)[LoanOf(q)].current && D.currentUpload == Some(body.upload)
        && D.status == AwaitingUpload && old(r.uploads)[body.upload].status == AwaitingUpload
    ensures Handled(old(r.View()), r.View(), q, a, wired)
  {
    hide Steps, Reaches, SendReply, Repeatable, HasReplied, IsStored, FitsCall, SessionOpen, Broken, Nudged, PutUpload,
         SameRows, Inactive;
    ghost var T := r.View();
    if r.idempotency[q.identity].hash != HashOf(q) { return Refused(KeyReused); }
    var body := r.idempotency[q.identity].body;
    StoredSteps(T, q);
    if Session(q) { SessionIs(T, q, body); }
    Begins(Steps, T, Begin(q));
    Goes(Steps, T, Begin(q), T, Begin(q), T, Some(Replay(q, body)));
    if Session(q) {
      if Inactive(r.View(), LoanOf(q)).Some? { return Refused(Inactive(r.View(), LoanOf(q)).value); }
      if !SessionOpen(r.View(), q, body) { return Refused(SessionOver); }
      OpenUpload(T, q, body);
      r.WriteUpload(body.upload, r.uploads[body.upload]);
    } else if q.identity.path.CompletePath? {
      BrokenOrNot(T, q, body, wired);
      var ok := NudgeProcessor(r, q, body, wired);
      if !ok { return Refused(StateInvalid); }
    }
    TouchedSteps(T, q, body, wired);
    ghost var T1 := r.View();
    if Replay(q, body) != Respond(q, body) {
      Goes(Steps, T, Begin(q), T, Replay(q, body), T1, Some(Respond(q, body)));
    }
    Refreshed(T, T1, q, body, wired);
    Finish(r, q, body, wired, T);
    return Replied(body);
  }

  lemma SessionIs(T: Table, q: Request, body: ReplyBody)
    requires FitsCall(q, body) && Session(q)
    ensures body.UploadSession?
    ensures SessionOpen(T, q, body) <==>
      && HasInstance(T, LoanOf(q)) && body.document in T.documents && body.upload in T.uploads
      && var D := T.documents[body.document];
      && Some(D.instance) == T.heads[LoanOf(q)].current && D.currentUpload == Some(body.upload)
      && D.status == AwaitingUpload && T.uploads[body.upload].status == AwaitingUpload
    ensures SessionOpen(T, q, body) ==> Inactive(T, LoanOf(q)).None?
  {
  }

  lemma OpenUpload(T: Table, q: Request, body: ReplyBody)
    requires SessionOpen(T, q, body)
    ensures body.UploadSession? && body.upload in T.uploads
  {
  }

  lemma BrokenOrNot(T: Table, q: Request, body: ReplyBody, wired: bool)
    ensures Broken(T, q, body, wired) ==> Nudged(T, q, body, wired) == T
  {
  }

  lemma RepeatReplays(T: Table, q: Request, body: ReplyBody, wired: bool)
    requires Repeatable(T, q, body, wired)
    ensures q.identity in T.idempotency && T.idempotency[q.identity] == Records.Stored(HashOf(q), body)
    ensures ReplayProblem(T, q, body, wired).None?
  {
  }

  /** One attempt at any of the six routes. If the request has been answered before and could be answered
      again, it gets the same answer, and nothing changes but that signals may be sent once more. */
  method Handle(r: RegistryTable, q: Request, seen: Seen) returns (a: Answer)
    requires FitHere(r.View(), q)
    modifies r
    ensures Handled(old(r.View()), r.View(), q, a, seen.wired)
    ensures forall body :: Repeatable(old(r.View()), q, body, seen.wired) && HasReplied(old(r.View()), q, body) ==>
      a == Replied(body) && SameRows(old(r.View()), r.View())
  {
    hide *;
    ghost var T := r.View();
    forall body | Repeatable(T, q, body, seen.wired)
      ensures q.identity in T.idempotency && T.idempotency[q.identity] == Records.Stored(HashOf(q), body)
      ensures ReplayProblem(T, q, body, seen.wired).None?
    {
      RepeatReplays(T, q, body, seen.wired);
    }
    ViewIs(r);
    if q.identity in r.idempotency {
      a := OnReplay(r, q, seen.wired);
    } else {
      match q.identity.path {
        case LoansPath => a := OnCreateLoan(r, q, seen.wired);
        case DocumentsPath(_) => SessionRoute(q); a := OnCreateDocument(r, q, seen.wired);
        case UploadsPath(_, _) => SessionRoute(q); a := OnCreateDocument(r, q, seen.wired);
        case CompletePath(_, _, _) => a := OnComplete(r, q, seen);
        case ArchiveDocumentPath(_, _) => a := OnArchiveDocument(r, q, seen.wired);
        case ArchiveLoanPath(_) =>
          var listed;
          a, listed := OnArchiveLoan(r, q, seen.size, seen.wired);
      }
    }
  }

  lemma SessionRoute(q: Request)
    ensures q.identity.path.DocumentsPath? || q.identity.path.UploadsPath? <==> Session(q)
  {
  }

  lemma ViewIs(r: RegistryTable)
    ensures r.View().idempotency == r.idempotency
  {
  }

  /** Retry: a client that repeats an answered request with the same key gets the same answer, and the
      repeat changes no row, no object and no history. */
  method Retry(r: RegistryTable, q: Request, seen: Seen, again: Seen)
    returns (first: Answer, second: Answer, ghost between: Table)
    requires FitHere(r.View(), q) && seen.wired == again.wired
    modifies r
    ensures first.Replied? ==> second == first && SameRows(between, r.View())
    ensures Handled(old(r.View()), between, q, first, seen.wired)
  {
    hide *;
    HandledIs();
    first := Handle(r, q, seen);
    between := r.View();
    if first.Replied? {
      StillFits(between, q, first.body, seen.wired);
      second := Handle(r, q, again);
    } else {
      second := first;
    }
  }

  lemma StillFits(T: Table, q: Request, body: ReplyBody, wired: bool)
    requires Repeatable(T, q, body, wired)
    ensures FitHere(T, q)
  {
  }

  // ------------------------------------------------------------ reachable tables

  lemma NumberUsed(T: Table, d: Id, n: nat)
    requires Inv(T) && (d, n) in T.archives
    ensures d in T.documents && n <= T.documents[d].lastArchive
  {
    assert ArchiveOk(T, (d, n));
  }

  lemma LoanNumberUsed(T: Table, loan: LoanKey, n: nat)
    requires Inv(T) && (loan, n) in T.loanArchives
    ensures loan in T.heads && n <= T.heads[loan].lastArchive
  {
    assert LoanArchiveOk(T, (loan, n));
  }

  /** In a reachable table a terminal current version can always be archived: its next archive number is
      free. */
  lemma ArchiveNumberFree(T: Table, loan: LoanKey, d: Id)
    requires Inv(T)
    ensures ArchivingProblem(T, loan, d) != Some(StateChanged)
  {
    if Missing(T, loan, d).None? && (d, T.documents[d].lastArchive + 1) in T.archives {
      NumberUsed(T, d, T.documents[d].lastArchive + 1);
    }
  }

  /** In a reachable table HEAD's active instance can always be archived: its row is active, and the next
      archive number of the loan is free. */
  lemma LoanNumberFree(T: Table, loan: LoanKey)
    requires Inv(T) && Inactive(T, loan).None?
    ensures Unarchived(T, loan, InstanceOf(T, loan))
  {
    assert HeadOk(T, loan);
    if (loan, T.heads[loan].lastArchive + 1) in T.loanArchives {
      LoanNumberUsed(T, loan, T.heads[loan].lastArchive + 1);
    }
  }

  /** In a reachable table no answer is lost to an invalid row. */
  lemma RowsValid(T: Table, q: Request, body: ReplyBody, wired: bool)
    requires Inv(T)
    ensures !Broken(T, q, body, wired)
    ensures q.identity.path.CompletePath? ==> !Runless(T, q)
  {
    if body.UploadCompleted? && body.upload in T.uploads { UploadHolds(T, body.upload); }
    if q.identity.path.CompletePath? && q.identity.path.upload in T.uploads { UploadHolds(T, q.identity.path.upload); }
  }
}
