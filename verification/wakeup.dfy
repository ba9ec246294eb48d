/** No lost wakeup: an upload whose pinned version has been scanned, and which is still
    VALIDATING, always has a signal left that will look at it again. */
module Wakeup {
  import opened Records
  import opened Writes
  import opened Invariant
  import opened System
  import Up = UploadProcessor
  import Idp = IdpPostprocessor
  import Api = LoanApi

  /** Both halves of the join are in, and nobody has acted on them yet. */
  predicate Ready(T: Table, u: Id) {
    && u in T.uploads && T.uploads[u].status.Validating?
    && T.uploads[u].sourceVersion.Some? && (u, T.uploads[u].sourceVersion.value) in T.scans
  }

  /** A signal that its handler does not filter out. */
  predicate Wakes(signal: Signal) {
    signal.StreamRecord? ==> Up.StreamSignal(signal.old_, signal.new_).Wake?
  }

  /** An invocation that has made up its mind to return without having joined the two halves. */
  predicate GivingUp(t: Up.Invocation) {
    || (t.Return? && t.waiting)
    || ((t.LoadScan? || t.SyncSummary?) && t.snap.sourceVersion.None?)
  }

  predicate GivesUp(t: Thread, signal: Id) {
    t.UpThread? && t.up.signal == signal && GivingUp(t.up)
  }

  /** A signal that is still owed to the upload: undelivered or in flight, not filtered, and no
      invocation of it is about to acknowledge it in vain. */
  ghost predicate Owed(s: State, u: Id, signal: Id) {
    && signal in s.table.pending && signal in s.table.signals
    && s.table.signals[signal].upload == u && Wakes(s.table.signals[signal])
    && forall tid :: tid in s.threads ==> !GivesUp(s.threads[tid], signal)
  }

  ghost predicate Awake(s: State, u: Id) {
    exists signal :: Owed(s, u, signal)
  }

  /** A scan report is acknowledged only after its scan record has been written. */
  ghost predicate Reported(T: Table) {
    forall x :: x in T.signals && x !in T.pending && T.signals[x].GuardDuty? ==>
      (T.signals[x].upload, T.signals[x].version) in T.scans
  }

  ghost predicate NothingLost(s: State) {
    && Reported(s.table)
    && forall u :: Ready(s.table, u) ==> Awake(s, u)
  }

  // --------------------------------------------------------------- quiet steps

  ghost predicate KeepsPending(T: Table, T': Table) {
    && T.pending <= T'.pending
    && forall x :: x in T'.signals && x !in T'.pending ==> x in T.signals && x !in T.pending
  }

  /** A step that completes no half of any join. */
  ghost predicate Quiet(T: Table, T': Table) {
    && KeepsPending(T, T')
    && T'.scans.Keys == T.scans.Keys
    && forall u :: u in T'.uploads && T'.uploads[u].status.Validating? ==>
         u in T.uploads && T.uploads[u].status.Validating?
         && T'.uploads[u].sourceVersion == T.uploads[u].sourceVersion
  }

  lemma QuietPut(T: Table, T': Table, u: Id, U': Upload)
    requires T'.uploads == T.uploads[u := U'] && T'.scans == T.scans && KeepsPending(T, T')
    requires U'.status.Validating? ==> u in T.uploads && T.uploads[u].status.Validating?
                                       && U'.sourceVersion == T.uploads[u].sourceVersion
    ensures Quiet(T, T')
  {
  }

  lemma QuietStill(T: Table, T': Table)
    requires T'.uploads == T.uploads && T'.scans == T.scans && KeepsPending(T, T')
    ensures Quiet(T, T')
  {
  }

  lemma UpQuiet(T: Table, t: Up.Invocation, T': Table, n: Option<Up.Invocation>)
    requires Up.LocalsOk(T, t) && Up.Steps(T, t, T', n) && !t.ScanPut? && !t.Return?
    ensures Quiet(T, T')
  {
    if t.Summary? || t.SyncSummary? || (t.LeaseTry? && T' != T)
       || (t.Queue? && T' != T) || (t.Fail? && T' != T) {
      QuietPut(T, T', t.u, T'.uploads[t.u]);
    } else {
      QuietStill(T, T');
    }
  }

  lemma WorkerStageQuiet(T: Table, t: Idp.Worker, T': Table, n: Option<Idp.Worker>)
    requires Idp.Staging(t) && Idp.StageSteps(T, t, T', n)
    ensures Quiet(T, T')
  {
    if T'.uploads != T.uploads {
      QuietPut(T, T', t.r.u, T'.uploads[t.r.u]);
    } else {
      QuietStill(T, T');
    }
  }

  lemma AdvanceUploadQuiet(T: Table, u: Id, stage: Stage, run: Id)
    requires u in T.uploads
    ensures Quiet(T, AdvanceUpload(T, u, stage, run))
  {
    var T' := AdvanceUpload(T, u, stage, run);
    if T' == T { QuietStill(T, T'); } else { QuietPut(T, T', u, T'.uploads[u]); }
  }

  lemma PutDocumentQuiet(T: Table, d: Id, D': Document)
    ensures Quiet(T, PutDocument(T, d, D'))
  {
    QuietStill(T, PutDocument(T, d, D'));
  }

  lemma AdvanceDocumentQuiet(T: Table, d: Id, stage: Stage, run: Id)
    requires d in T.documents
    ensures Quiet(T, AdvanceDocument(T, d, stage, run))
  {
    var T' := AdvanceDocument(T, d, stage, run);
    if T' != T { PutDocumentQuiet(T, d, T'.documents[d]); } else { QuietStill(T, T); }
  }

  lemma RegisterQuiet(T: Table, k: LookupKey, run: Id, d: Id)
    ensures Quiet(T, RegisterRunning(T, k, run, d)) && Quiet(T, T)
  {
    var T' := RegisterRunning(T, k, run, d);
    assert T'.uploads == T.uploads;
    QuietStill(T, T');
    QuietStill(T, T);
  }

  lemma WorkerRunningQuiet(T: Table, t: Idp.Worker, T': Table, n: Option<Idp.Worker>)
    requires t.Register? || t.AdvanceDoc? || t.AdvanceUp?
    requires Idp.RunningSteps(T, t, T', n)
    ensures Quiet(T, T')
  {
    hide AdvanceUpload, AdvanceDocument, RegisterRunning, CanRegisterRunning, Quiet;
    match t
    case AdvanceUp(_, r) => AdvanceUploadQuiet(T, r.u, r.stage, r.run);
    case AdvanceDoc(_, r) => AdvanceDocumentQuiet(T, r.d, r.stage, r.run);
    case Register(e, r) => RegisterQuiet(T, Idp.LookupKeyOf(e, r), r.run, r.d);
  }

  lemma WorkerEndingQuiet(T: Table, t: Idp.Worker, T': Table, n: Option<Idp.Worker>)
    requires Idp.Ending(t) && Idp.Steps(T, t, T', n)
    ensures Quiet(T, T')
  {
    if (t.FailTxn? || t.HoldTxn?) && T' != T { QuietPut(T, T', t.r.u, T'.uploads[t.r.u]); }
    else { QuietStill(T, T'); }
  }

  lemma WorkerOtherQuiet(T: Table, t: Idp.Worker, T': Table, n: Option<Idp.Worker>)
    requires Idp.Unrouted(t) || t.RecordSuccess? || t.LeaseRead? || t.LeaseTry? || t.LeaseRefresh?
    requires Idp.Steps(T, t, T', n)
    ensures Quiet(T, T')
  {
    hide EndLookup, LeasePostprocess, Quiet;
    EndLookupQuiet(T, LookupKey(0, Screen, 0), 0, 0, LookupSucceeded);
    match t
    case RecordSuccess(e, r) =>
      if e.execution.Some? { EndLookupQuiet(T, Idp.LookupKeyOf(e, r), r.run, r.d, LookupSucceeded); }
    case LeaseTry(_, r) =>
      if CanLeasePostprocess(T, r.d, r.u, r.run, r.stage) { LeasePostprocessQuiet(T, r.d); }
    case _ =>
  }

  lemma EndLookupQuiet(T: Table, k: LookupKey, run: Id, d: Id, status: LookupStatus)
    ensures Quiet(T, EndLookup(T, k, run, d, status)) && Quiet(T, T)
  {
    var T' := EndLookup(T, k, run, d, status);
    assert T'.uploads == T.uploads;
    QuietStill(T, T');
    QuietStill(T, T);
  }

  lemma LeasePostprocessQuiet(T: Table, d: Id)
    requires d in T.documents
    ensures Quiet(T, LeasePostprocess(T, d))
  {
    QuietStill(T, LeasePostprocess(T, d));
  }

  lemma IdpQuiet(T: Table, t: Idp.Worker, T': Table, n: Option<Idp.Worker>)
    requires Idp.Steps(T, t, T', n)
    ensures Quiet(T, T')
  {
    hide Idp.StageSteps, Idp.RoutingSteps, Idp.RunningSteps, Idp.FailureSteps, Idp.LeaseSteps, Idp.HoldSteps, Quiet;
    if Idp.Staging(t) { WorkerStageQuiet(T, t, T', n); }
    else if t.Register? || t.AdvanceDoc? || t.AdvanceUp? { WorkerRunningQuiet(T, t, T', n); }
    else if Idp.Ending(t) { WorkerEndingQuiet(T, t, T', n); }
    else { WorkerOtherQuiet(T, t, T', n); }
  }

  /** The one API step that pins a version. */
  predicate Completes(T: Table, t: Api.Call, T': Table) {
    t.CompleteTxn? && T' != T
  }

  lemma ReplaceQuiet(T: Table, d: Id, identity: Identity, hash: RequestHash)
    requires d in T.documents
    ensures Quiet(T, Replace(T, d, identity, hash))
  {
    QuietPut(T, Replace(T, d, identity, hash), T.next, NewUpload(d));
  }

  lemma CreateDocumentQuiet(T: Table, instance: Id, identity: Identity, hash: RequestHash)
    ensures Quiet(T, CreateDocument(T, instance, identity, hash))
  {
    QuietPut(T, CreateDocument(T, instance, identity, hash), T.next + 1, NewUpload(T.next));
  }

  lemma OpeningQuiet(T: Table, t: Api.Call, T': Table, n: Option<Api.Call>)
    requires Api.Opening(t) && Api.OpeningSteps(T, t, T', n)
    ensures Quiet(T, T')
  {
    hide Replace, CreateDocument, CanReplace, CanCreateDocument;
    if t.DocumentTxn? && T' != T {
      if t.q.identity.path.UploadsPath? {
        ReplaceReady(T, t);
        ReplaceQuiet(T, t.q.identity.path.document, t.q.identity, Api.HashOf(t.q));
      } else {
        CreateDocumentQuiet(T, t.instance, t.q.identity, Api.HashOf(t.q));
      }
    } else {
      QuietStill(T, T');
    }
  }

  lemma ReplaceReady(T: Table, t: Api.Call)
    requires t.DocumentTxn? && t.q.identity.path.UploadsPath?
    requires CanReplace(T, Api.LoanOf(t.q), t.instance, t.q.identity.path.document, t.q.identity)
    ensures t.q.identity.path.document in T.documents
  {
  }

  lemma ArchivingQuiet(T: Table, t: Api.Call, T': Table, n: Option<Api.Call>)
    requires Api.Completing(t) && Api.CompletingSteps(T, t, T', n) && !Completes(T, t, T')
    ensures Quiet(T, T')
  {
    QuietStill(T, T');
    hide CanComplete, CompleteUpload, CanArchiveDocument, RowOf;
  }

  lemma CollectingQuiet(T: Table, t: Api.Call, T': Table, n: Option<Api.Call>)
    requires Api.Collecting(t) && Api.CollectingSteps(T, t, T', n)
    ensures Quiet(T, T')
  {
    QuietStill(T, T');
  }

  lemma RenewQuiet(T: Table, u: Id)
    requires u in T.uploads
    ensures Quiet(T, PutUpload(T, u, T.uploads[u]))
  {
    QuietPut(T, PutUpload(T, u, T.uploads[u]), u, T.uploads[u]);
  }

  lemma SendQuiet(T: Table, signal: Signal)
    ensures Quiet(T, Send(T, signal)) && Quiet(T, T)
  {
    QuietStill(T, Send(T, signal));
    QuietStill(T, T);
  }

  lemma SendReplyQuiet(T: Table, x: Identity, hash: RequestHash, body: ReplyBody)
    ensures Quiet(T, SendReply(T, x, hash, body))
  {
    QuietStill(T, SendReply(T, x, hash, body));
  }

  lemma ReplyQuiet(T: Table, t: Api.Call, T': Table, n: Option<Api.Call>)
    requires t.Recover? || t.Renew? || t.Invoke? || t.Respond?
    requires Api.ReplySteps(T, t, T', n)
    ensures Quiet(T, T')
  {
    hide Quiet, PutUpload, Send, SendReply;
    match t
    case Renew(_, body) => RenewQuiet(T, body.upload);
    case Recover(_) => SendQuiet(T, ClientComplete(0, 0));
    case Invoke(_, body) => SendQuiet(T, if Api.ReadyToInvoke(T, body) then Api.Nudge(T, body) else ClientComplete(0, 0));
    case Respond(q, body) => SendReplyQuiet(T, q.identity, Api.HashOf(q), body);
  }

  lemma ApiQuiet(T: Table, t: Api.Call, T': Table, n: Option<Api.Call>)
    requires Api.Steps(T, t, T', n) && !Completes(T, t, T')
    ensures Quiet(T, T')
  {
    hide Api.OpeningSteps, Api.CompletingSteps, Api.CollectingSteps, Api.ReplySteps, Quiet;
    if Api.Opening(t) { OpeningQuiet(T, t, T', n); }
    else if Api.Completing(t) { ArchivingQuiet(T, t, T', n); }
    else if Api.Collecting(t) { CollectingQuiet(T, t, T', n); }
    else { ReplyQuiet(T, t, T', n); }
  }

  lemma EnvironmentQuiet(s: State, l: Label, s': State)
    requires Does(s, l, s') && !l.StepUp? && !l.StepIdp? && !l.StepApi?
    ensures Quiet(s.table, s'.table)
  {
  }

  /** A step of the system that completes a half: a pin, a scan record, or an acknowledgement. */
  predicate Loud(s: State, l: Label, s': State) {
    || (l.StepUp? && l.tid in s.threads && s.threads[l.tid].UpThread?
        && (s.threads[l.tid].up.ScanPut? || s.threads[l.tid].up.Return?))
    || (l.StepApi? && l.tid in s.threads && s.threads[l.tid].ApiThread?
        && Completes(s.table, s.threads[l.tid].api, s'.table))
  }

  lemma StepQuiet(s: State, l: Label, s': State)
    requires Good(s) && Does(s, l, s') && !Loud(s, l, s')
    ensures Quiet(s.table, s'.table)
  {
    var T, T' := s.table, s'.table;
    hide Up.Steps, Idp.Steps, Api.Steps, Inv, Quiet;
    if l.StepUp? {
      assert ThreadOk(T, s.threads[l.tid]);
      UpQuiet(T, s.threads[l.tid].up, T', l.upNext);
    } else if l.StepIdp? {
      IdpQuiet(T, s.threads[l.tid].idp, T', l.idpNext);
    } else if l.StepApi? {
      ApiQuiet(T, s.threads[l.tid].api, T', l.apiNext);
    } else {
      EnvironmentQuiet(s, l, s');
    }
  }

  // -------------------------------------------------------- invocations of it

  /** The upload is ready before the step: an invocation that has not given up does not. */
  lemma StaysOn(T: Table, t: Up.Invocation, T': Table, n: Option<Up.Invocation>)
    requires Up.InvocationOk(T, t) && Up.Steps(T, t, T', n) && n.Some?
    requires Ready(T, t.u) && Ready(T', t.u) && !GivingUp(t)
    ensures !GivingUp(n.value)
  {
    hide PutScan, SetSummary, LeaseValidation, CommitQueued, FailUpload, PutObject, Acknowledge, CanLeaseValidation,
         CanQueue, CanFailUpload;
  }

  /** A first step gives up only on a filtered stream record. */
  lemma StartsOn(T: Table, signal: Id, t: Up.Invocation)
    requires Up.Starts(T, signal, t) && Wakes(T.signals[signal])
    ensures !GivingUp(t)
  {
  }

  lemma StartsSignal(T: Table, signal: Id, t: Up.Invocation)
    requires Up.Starts(T, signal, t)
    ensures t.signal == signal && signal in T.signals && t.u == T.signals[signal].upload
  {
  }

  lemma StepsSignal(T: Table, t: Up.Invocation, T': Table, n: Option<Up.Invocation>)
    requires Up.Steps(T, t, T', n) && n.Some?
    ensures n.value.signal == t.signal && n.value.u == t.u
  {
  }

  lemma OwedKept(s: State, l: Label, s': State, u: Id, signal: Id)
    requires Good(s) && Does(s, l, s') && Ready(s.table, u) && Ready(s'.table, u)
    requires Owed(s, u, signal) && signal in s'.table.pending && signal in s'.table.signals
    requires s'.table.signals[signal] == s.table.signals[signal]
    ensures Owed(s', u, signal)
  {
    forall tid | tid in s'.threads ensures !GivesUp(s'.threads[tid], signal) {
      ThreadStaysOn(s, l, s', u, signal, tid);
    }
  }

  lemma ThreadStaysOn(s: State, l: Label, s': State, u: Id, signal: Id, tid: nat)
    requires Good(s) && Does(s, l, s') && Ready(s.table, u) && Ready(s'.table, u)
    requires Owed(s, u, signal) && tid in s'.threads
    ensures !GivesUp(s'.threads[tid], signal)
  {
    hide Inv, Up.Steps, Idp.Steps, Api.Steps, Up.Starts, Idp.Starts;
    if l.StepUp? && l.tid == tid {
      assert ThreadOk(s.table, s.threads[tid]);
      StepsSignal(s.table, s.threads[tid].up, s'.table, l.upNext);
      if s.threads[tid].up.signal == signal { StaysOn(s.table, s.threads[tid].up, s'.table, l.upNext); }
    } else if l.SpawnUp? && l.tid == tid {
      StartsSignal(s.table, l.signal, l.up);
      if l.signal == signal { StartsOn(s.table, signal, l.up); }
    }
  }

  // --------------------------------------------------------------- preservation

  lemma ReportedQuiet(T: Table, T': Table)
    requires Reported(T) && Quiet(T, T') && Extends(T.signals, T'.signals)
    ensures Reported(T')
  {
  }

  lemma ReadyQuiet(T: Table, T': Table, u: Id)
    requires Quiet(T, T') && Ready(T', u)
    ensures Ready(T, u)
  {
  }

  /** A step that completes no half of any join loses no signal. */
  lemma QuietKeeps(s: State, l: Label, s': State)
    requires Good(s) && Does(s, l, s') && Quiet(s.table, s'.table) && NothingLost(s)
    requires Extends(s.table.signals, s'.table.signals)
    ensures NothingLost(s')
  {
    ReportedQuiet(s.table, s'.table);
    forall u | Ready(s'.table, u) ensures Awake(s', u) {
      ReadyQuiet(s.table, s'.table, u);
      assert Awake(s, u);
      var signal :| Owed(s, u, signal);
      PendingQuiet(s, s', u, signal);
      hide *;
      OwedKept(s, l, s', u, signal);
      AwakeBy(s', u, signal);
    }
  }

  lemma AwakeBy(s: State, u: Id, signal: Id)
    requires Owed(s, u, signal)
    ensures Awake(s, u)
  {
  }

  lemma PendingQuiet(s: State, s': State, u: Id, signal: Id)
    requires Owed(s, u, signal) && KeepsPending(s.table, s'.table)
    requires Extends(s.table.signals, s'.table.signals)
    ensures signal in s'.table.pending && signal in s'.table.signals
    ensures s'.table.signals[signal] == s.table.signals[signal]
  {
  }

  lemma ScanPutFacts(s: State, l: Label, s': State)
    requires Good(s) && Does(s, l, s') && l.StepUp? && s.threads[l.tid].up.ScanPut?
    ensures var T, t := s.table, s.threads[l.tid].up;
      && t.signal in T.signals && T.signals[t.signal].upload == t.u
      && (T.signals[t.signal].GuardDuty? && T.signals[t.signal].version == t.version)
      && s'.table == PutScan(T, t.u, t.version, t.verdict, t.scanCompleted)
      && l.upNext.Some? && l.upNext.value.Summary?
  {
    assert ThreadOk(s.table, s.threads[l.tid]);
    hide Inv;
  }

  /** A first scan record of the pinned version: the report that wrote it is itself the signal. */
  lemma ScanPutKeeps(s: State, l: Label, s': State)
    requires Good(s) && Good(s') && Does(s, l, s') && NothingLost(s) && l.StepUp? && s.threads[l.tid].up.ScanPut?
    ensures NothingLost(s')
  {
    ScanPutFacts(s, l, s');
    var T, T', t := s.table, s'.table, s.threads[l.tid].up;
    forall u | Ready(T', u) ensures Awake(s', u) {
      if Ready(T, u) {
        assert Awake(s, u);
        var signal :| Owed(s, u, signal);
        OwedKept(s, l, s', u, signal);
      } else {
        assert u == t.u && t.version == T.uploads[u].sourceVersion.value;
        FirstScan(s, l, s');
      }
    }
  }

  lemma FirstScan(s: State, l: Label, s': State)
    requires Good(s) && Does(s, l, s') && Reported(s.table) && l.StepUp? && s.threads[l.tid].up.ScanPut?
    requires (s.threads[l.tid].up.u, s.threads[l.tid].up.version) !in s.table.scans
    ensures Owed(s', s.threads[l.tid].up.u, s.threads[l.tid].up.signal)
  {
    ScanPutFacts(s, l, s');
    var T, t := s.table, s.threads[l.tid].up;
    forall tid | tid in s'.threads ensures !GivesUp(s'.threads[tid], t.signal) {
      if tid != l.tid { EarlyInvocation(s, tid, t.signal); }
    }
  }

  /** Until its scan record is there, every invocation of a report is still on its way to write it. */
  lemma EarlyInvocation(s: State, tid: nat, signal: Id)
    requires Good(s) && tid in s.threads
    requires signal in s.table.signals && s.table.signals[signal].GuardDuty?
    requires (s.table.signals[signal].upload, s.table.signals[signal].version) !in s.table.scans
    ensures !GivesUp(s.threads[tid], signal)
  {
    assert ThreadOk(s.table, s.threads[tid]);
  }

  lemma ReturnedNotOwed(s: State, l: Label, u: Id)
    requires Good(s) && Ready(s.table, u) && l.StepUp? && l.tid in s.threads
    requires s.threads[l.tid].UpThread? && s.threads[l.tid].up.Return?
    ensures !Owed(s, u, s.threads[l.tid].up.signal)
  {
    hide Inv;
    var t := s.threads[l.tid].up;
    assert ThreadOk(s.table, s.threads[l.tid]);
    if t.u == u { assert GivesUp(s.threads[l.tid], t.signal); }
  }

  /** An acknowledged signal was not owed to any ready upload. */
  lemma ReturnKeeps(s: State, l: Label, s': State)
    requires Good(s) && Does(s, l, s') && NothingLost(s) && l.StepUp? && s.threads[l.tid].up.Return?
    ensures NothingLost(s')
  {
    hide Inv;
    ReturnReports(s, l, s');
    var T, T', t := s.table, s'.table, s.threads[l.tid].up;
    forall u | Ready(T', u) ensures Awake(s', u) {
      assert Ready(T, u) && Awake(s, u);
      var signal :| Owed(s, u, signal);
      ReturnedNotOwed(s, l, u);
      OwedKept(s, l, s', u, signal);
    }
  }

  lemma ReturnReports(s: State, l: Label, s': State)
    requires Good(s) && Does(s, l, s') && Reported(s.table) && l.StepUp? && s.threads[l.tid].up.Return?
    ensures Reported(s'.table) && s'.table == Acknowledge(s.table, s.threads[l.tid].up.signal)
  {
    hide Inv;
    assert ThreadOk(s.table, s.threads[l.tid]);
  }

  lemma OwedRecord(s: State, u: Id, x: Id, U: Upload, U': Upload)
    requires x in s.table.pending && x in s.table.signals
    requires s.table.signals[x] == StreamRecord(u, Some(U), U')
    requires U.status.AwaitingUpload? && U'.status.Validating? && U'.completed && U'.sourceVersion.Some?
    requires forall tid :: tid in s.threads ==> !GivesUp(s.threads[tid], x)
    ensures Owed(s, u, x)
  {
  }

  /** Pinning the version puts a record on the stream, which no invocation has seen yet. */
  lemma PinnedAwake(s: State, l: Label, s': State)
    requires l.StepApi? && l.tid in s.threads && s.threads[l.tid].ApiThread?
    requires Good(s) && Does(s, l, s')
    requires Completes(s.table, s.threads[l.tid].api, s'.table)
    ensures s.threads[l.tid].api.q.identity.path.CompletePath?
    ensures Awake(s', s.threads[l.tid].api.q.identity.path.upload)
  {
    hide *;
    CompleteFacts(s, l, s');
    var u, x := s.threads[l.tid].api.q.identity.path.upload, s.table.next + 1;
    UnseenSignal(s, l, s', x);
    OwedRecord(s', u, x, s.table.uploads[u], s'.table.uploads[u]);
    AwakeBy(s', u, x);
  }

  lemma OthersAwake(s: State, l: Label, s': State, w: Id)
    requires Good(s) && Does(s, l, s') && NothingLost(s) && Ready(s.table, w) && Ready(s'.table, w)
    requires Extends(s.table.signals, s'.table.signals) && s.table.pending <= s'.table.pending
    ensures Awake(s', w)
  {
    assert Awake(s, w);
    var signal :| Owed(s, w, signal);
    OwedKept(s, l, s', w, signal);
  }

  lemma CompleteReady(s: State, l: Label, s': State, w: Id)
    requires Good(s) && Does(s, l, s') && l.StepApi?
    requires Completes(s.table, s.threads[l.tid].api, s'.table)
    ensures s.threads[l.tid].api.q.identity.path.CompletePath?
    ensures Ready(s'.table, w) && w != s.threads[l.tid].api.q.identity.path.upload ==> Ready(s.table, w)
    ensures s.table.pending <= s'.table.pending
    ensures Reported(s.table) ==> Reported(s'.table)
  {
    CompleteFacts(s, l, s');
    hide Good, Does;
  }

  lemma CompleteKeeps(s: State, l: Label, s': State)
    requires Good(s) && Does(s, l, s') && NothingLost(s) && l.StepApi?
    requires Completes(s.table, s.threads[l.tid].api, s'.table)
    requires Extends(s.table.signals, s'.table.signals)
    ensures NothingLost(s')
  {
    CompleteReady(s, l, s', 0);
    var u := s.threads[l.tid].api.q.identity.path.upload;
    hide Good, Does, Ready, Completes, Extends;
    PinnedAwake(s, l, s');
    forall w | Ready(s'.table, w) ensures Awake(s', w) {
      CompleteReady(s, l, s', w);
      if w != u { OthersAwake(s, l, s', w); }
    }
  }

  lemma UnseenSignal(s: State, l: Label, s': State, x: Id)
    requires Good(s) && Does(s, l, s') && l.StepApi? && x >= s.table.next
    ensures forall tid :: tid in s'.threads ==> !GivesUp(s'.threads[tid], x)
  {
    forall tid | tid in s'.threads ensures !GivesUp(s'.threads[tid], x) {
      if tid != l.tid { assert ThreadOk(s.table, s.threads[tid]); }
    }
  }

  lemma CompleteFacts(s: State, l: Label, s': State)
    requires Good(s) && Does(s, l, s') && l.StepApi?
    requires Completes(s.table, s.threads[l.tid].api, s'.table)
    ensures s.threads[l.tid].api.q.identity.path.CompletePath?
    ensures var T, T', u, x := s.table, s'.table, s.threads[l.tid].api.q.identity.path.upload, s.table.next + 1;
      && u in T.uploads && u in T'.uploads && T'.uploads == T.uploads[u := T'.uploads[u]]
      && T'.scans == T.scans
      && T'.signals == T.signals[x := StreamRecord(u, Some(T.uploads[u]), T'.uploads[u])]
      && T'.pending == T.pending + {x}
      && T.uploads[u].status.AwaitingUpload? && T'.uploads[u].status.Validating?
      && T'.uploads[u].completed && T'.uploads[u].sourceVersion.Some?
  {
    hide Inv, ThreadsOk;
  }

  lemma StepKeeps(s: State, l: Label, s': State)
    requires Good(s) && Does(s, l, s') && NothingLost(s)
    ensures NothingLost(s')
  {
    StepGood(s, l, s');
    SignalsExtend(s.table, s'.table);
    hide Good, Does, NothingLost, Evolves, Quiet, Extends;
    if !Loud(s, l, s') {
      StepQuiet(s, l, s');
      QuietKeeps(s, l, s');
    } else if l.StepApi? {
      CompleteKeeps(s, l, s');
    } else if s.threads[l.tid].up.ScanPut? {
      ScanPutKeeps(s, l, s');
    } else {
      ReturnKeeps(s, l, s');
    }
  }

  lemma SignalsExtend(T: Table, T': Table)
    requires Evolves(T, T')
    ensures Extends(T.signals, T'.signals)
  {
  }

  lemma {:induction false} RunLosesNothing(b: seq<State>, ls: seq<Label>, i: nat)
    requires Run(b, ls) && i <= |ls|
    ensures |b| == |ls| + 1 && NothingLost(b[i])
  {
    hide *;
    if i == 0 {
      RunStartsEmpty(b, ls);
    } else {
      RunLosesNothing(b, ls, i - 1);
      RunGood(b, ls, i - 1);
      RunDoes(b, ls, i - 1);
      StepKeeps(b[i - 1], ls[i - 1], b[i]);
    }
  }

  lemma RunStartsEmpty(b: seq<State>, ls: seq<Label>)
    requires Run(b, ls)
    ensures |b| == |ls| + 1 && NothingLost(b[0])
  {
  }

  /** No lost wakeup, in every state of every run: while an upload is VALIDATING and its pinned
      version has a scan record, some signal for it is still pending that its handler will not
      filter out. */
  lemma NoLostWakeup(b: seq<State>, ls: seq<Label>, i: nat, u: Id)
    requires Run(b, ls) && i <= |ls| && |b| == |ls| + 1
    requires u in b[i].table.uploads && b[i].table.uploads[u].status.Validating?
    requires b[i].table.uploads[u].sourceVersion.Some?
    requires (u, b[i].table.uploads[u].sourceVersion.value) in b[i].table.scans
    ensures exists x :: x in b[i].table.pending && x in b[i].table.signals
                        && b[i].table.signals[x].upload == u && Wakes(b[i].table.signals[x])
  {
    RunLosesNothing(b, ls, i);
    hide Run, Wakes;
    assert Ready(b[i].table, u) && Awake(b[i], u);
    var x :| Owed(b[i], u, x);
  }
}
